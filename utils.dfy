/** The leg selector of src/utils.ts. */
module Utils {
  import opened Types

  /** The file name and download address of one recording. */
  datatype AudioRef = AudioRef(audioName: string, audioUrl: string)

  /**
   * The selector dereferences the upload fields with non-null assertions,
   * so callers must supply both of them for an upload job.
   */
  predicate Selectable(d: AudioData) {
    d.callLeg == BOTH ==> d.uploadName.Some? && d.uploadUrl.Some?
  }

  /** `defineAudioNameAndUrl`: the (name, url) pair of the leg the job names. */
  function DefineAudioNameAndUrl(d: AudioData): (r: AudioRef)
    requires Selectable(d)
    ensures d.callLeg == A ==> r == AudioRef(d.audioNameA, d.audioUrlA)
    ensures d.callLeg == B ==> r == AudioRef(d.audioNameB, d.audioUrlB)
    ensures d.callLeg == BOTH ==> Some(r.audioName) == d.uploadName && Some(r.audioUrl) == d.uploadUrl
  {
    match d.callLeg
    case A => AudioRef(d.audioNameA, d.audioUrlA)
    case B => AudioRef(d.audioNameB, d.audioUrlB)
    case BOTH => AudioRef(d.uploadName.value, d.uploadUrl.value)
  }

  /** The selector is defined for every leg, and for an upload exactly when both upload fields are present. */
  lemma SelectorTotal(d: AudioData)
    ensures d.callLeg != BOTH ==> Selectable(d)
    ensures d.callLeg == BOTH ==> (Selectable(d) <==> d.uploadName.Some? && d.uploadUrl.Some?)
  {
  }

  /** Name and url are taken from one and the same leg, never mixed across legs. */
  lemma SelectionNeverMixesLegs(d: AudioData)
    requires Selectable(d)
    ensures var r := DefineAudioNameAndUrl(d);
      r == AudioRef(d.audioNameA, d.audioUrlA)
      || r == AudioRef(d.audioNameB, d.audioUrlB)
      || (d.uploadName == Some(r.audioName) && d.uploadUrl == Some(r.audioUrl))
  {
  }

  /**
   * The result depends only on the leg and its own pair: replacing the
   * record and every field of the other legs by those of any `other` job
   * changes nothing.
   */
  lemma SelectionIgnoresUnselectedFields(d: AudioData, other: AudioData)
    requires Selectable(d)
    ensures d.callLeg == A ==>
      DefineAudioNameAndUrl(d.(cdr := other.cdr, audioNameB := other.audioNameB, audioUrlB := other.audioUrlB,
                               uploadName := other.uploadName, uploadUrl := other.uploadUrl))
      == DefineAudioNameAndUrl(d)
    ensures d.callLeg == B ==>
      DefineAudioNameAndUrl(d.(cdr := other.cdr, audioNameA := other.audioNameA, audioUrlA := other.audioUrlA,
                               uploadName := other.uploadName, uploadUrl := other.uploadUrl))
      == DefineAudioNameAndUrl(d)
    ensures d.callLeg == BOTH ==>
      DefineAudioNameAndUrl(d.(cdr := other.cdr, audioNameA := other.audioNameA, audioUrlA := other.audioUrlA,
                               audioNameB := other.audioNameB, audioUrlB := other.audioUrlB))
      == DefineAudioNameAndUrl(d)
  {
  }
}
