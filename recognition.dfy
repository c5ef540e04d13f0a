/**
 * `RecognitionService` (src/recognition/recognition.service.ts): download a
 * call record, run the speech-recognition engine on it, post the
 * transcription back to the backend and delete the local files.
 *
 * The source chains these steps through callbacks (stream `finish`/`error`,
 * process `exit`, promise `then`/`catch`, unlink callbacks). The model makes
 * each external call an effect appended to a log and takes the outcome of
 * each call from an `Outcomes` value. The `...Trace` functions specify the
 * effects of each stage; the methods of the class produce them step by step.
 */
module Recognition {
  import opened Types
  import opened JsString
  import WhisperCommand

  const AudiosPath := "audios"
  const TranscriptionsPath := "transcriptions"

  // ---------------------------------------------------------------------
  // Names, addresses, paths and the command line
  // ---------------------------------------------------------------------

  /** The audio file of a call record: the record with `.mp3` appended. */
  function AudioName(record: string): string {
    record + ".mp3"
  }

  /** `${IASMIN_URL}/${audioName}` */
  function DownloadUrl(iasminUrl: Option<string>, audioName: string): string {
    JsText(iasminUrl) + "/" + audioName
  }

  /** `${AUDIOS_PATH}/${audioName}`, written by the download and unlinked at the end. */
  function AudioPath(audioName: string): string {
    AudiosPath + "/" + audioName
  }

  /** The engine command, with the `large` model and output into `transcriptions`. */
  function ServiceCommand(whisperCommand: Option<string>, audioName: string): string {
    WhisperCommand.EngineCommand(JsText(whisperCommand), audioName, "large", TranscriptionsPath)
  }

  /** The transcription file that is read and posted: `${TRANSCRIPTIONS_PATH}/${record}.json`. */
  function TranscriptionReadPath(record: string): string {
    TranscriptionsPath + "/" + record + ".json"
  }

  /** The transcription file that is unlinked: the first `.mp3` of the audio name replaced by `.json`. */
  function DeletedTranscriptionPath(audioName: string): string {
    TranscriptionsPath + "/" + ReplaceFirst(audioName, ".mp3", ".json")
  }

  /** `${IASMIN_URL}/transcription` */
  function NotifyUrl(iasminUrl: Option<string>): string {
    JsText(iasminUrl) + "/transcription"
  }

  /** Distinct call records never share an audio file. */
  lemma AudioNameInjective(r1: string, r2: string)
    requires AudioName(r1) == AudioName(r2)
    ensures r1 == r2
  {
    assert r1 == AudioName(r1)[..|r1|];
    assert r2 == AudioName(r2)[..|r2|];
  }

  /**
   * The command text names the path the download wrote, right after the
   * program and a space. How a shell splits or expands that text is not modelled.
   */
  lemma CommandNamesDownloadedFile(whisperCommand: Option<string>, audioName: string)
    ensures var c := ServiceCommand(whisperCommand, audioName);
      var w := JsText(whisperCommand);
      |w| + 1 + |AudioPath(audioName)| <= |c|
      && c[..|w| + 1] == w + " "
      && c[|w| + 1..|w| + 1 + |AudioPath(audioName)|] == AudioPath(audioName)
  {
    var w := JsText(whisperCommand);
    WhisperCommand.CommandShape(w, audioName, "large", TranscriptionsPath);
    var c := ServiceCommand(whisperCommand, audioName);
    var head := w + " " + "audios/" + audioName + " ";
    assert c[..|head|] == head;
    var p := AudioPath(audioName);
    assert p == "audios/" + audioName by {
      assert AudiosPath + "/" == "audios/";
    }
    var front := w + " ";
    assert head == front + p + " ";
    assert c[..|front|] == head[..|front|] == front;
    var fp := front + p;
    assert head == fp + " ";
    assert c[..|fp|] == head[..|fp|] == fp;
    assert fp[|front|..] == p;
  }

  /** When `record` has no `.mp3` of its own, the first `.mp3` of its audio name is the appended one. */
  lemma {:induction false} FirstMp3IsAppended(record: string)
    requires !Contains(record, ".mp3")
    ensures IndexOf(AudioName(record), ".mp3") == Some(|record|)
  {
    var s := AudioName(record);
    assert MatchesAt(s, ".mp3", |record|) by {
      assert s[|record|..|record| + 4] == ".mp3";
    }
    forall j: nat | j < |record|
      ensures !MatchesAt(s, ".mp3", j)
    {
      if j + 4 <= |record| {
        assert s[j..j + 4] == record[j..j + 4];
        assert !MatchesAt(record, ".mp3", j);
      } else {
        // a match across the boundary would put the appended '.' at offset 1, 2 or 3 of ".mp3"
        assert s[|record|] == '.';
        assert forall k :: 1 <= k < 4 ==> ".mp3"[k] != '.';
      }
    }
  }

  /** Without `.mp3` in the record, the unlinked name is `record + ".json"`. */
  lemma ReplacedNameWithoutMp3(record: string)
    requires !Contains(record, ".mp3")
    ensures ReplaceFirst(AudioName(record), ".mp3", ".json") == record + ".json"
  {
    var s := AudioName(record);
    FirstMp3IsAppended(record);
    assert s[..|record|] == record;
    assert s[|record| + 4..] == "";
  }

  /** With `.mp3` in the record, the unlinked name still ends in `3`, the last letter of `.mp3`. */
  lemma ReplacedNameWithMp3(record: string)
    requires Contains(record, ".mp3")
    ensures var r := ReplaceFirst(AudioName(record), ".mp3", ".json");
      |r| > 0 && r[|r| - 1] == '3'
  {
    var s := AudioName(record);
    var j: nat :| j <= |record| && MatchesAt(record, ".mp3", j);
    assert s[j..j + 4] == record[j..j + 4];
    assert MatchesAt(s, ".mp3", j);
    var i := IndexOf(s, ".mp3").value;
    assert i <= j;
    var tail := s[i + 4..];
    assert |tail| >= 4 && tail[|tail| - 1] == s[|s| - 1] == '3';
    var r := ReplaceFirst(s, ".mp3", ".json");
    assert r == s[..i] + ".json" + tail;
    assert r[|r| - 1] == tail[|tail| - 1];
  }

  /**
   * The unlinked transcription file is the one that was read and posted
   * exactly when the record contains no `.mp3`; otherwise the unlink
   * targets a name that still ends in `.mp3` (see `ReadFileLeftBehind`).
   */
  lemma DeletedTranscriptionIsReadFileIff(record: string)
    ensures DeletedTranscriptionPath(AudioName(record)) == TranscriptionReadPath(record)
        <==> !Contains(record, ".mp3")
  {
    var prefix := TranscriptionsPath + "/";
    var r := ReplaceFirst(AudioName(record), ".mp3", ".json");
    assert DeletedTranscriptionPath(AudioName(record)) == prefix + r;
    assert TranscriptionReadPath(record) == prefix + (record + ".json");
    if !Contains(record, ".mp3") {
      ReplacedNameWithoutMp3(record);
    } else {
      ReplacedNameWithMp3(record);
      var read := record + ".json";
      assert read[|read| - 1] == 'n';
      assert (prefix + r)[|prefix + r| - 1] == '3';
      assert (prefix + read)[|prefix + read| - 1] == 'n';
    }
  }

  /**
   * A record with `.mp3` inside: for `a.mp3` the unlinked name is
   * `a.json.mp3`, while the file read and posted is `a.mp3.json`.
   */
  lemma DeletedTranscriptionExample()
    ensures ReplaceFirst(AudioName("a.mp3"), ".mp3", ".json") == "a.json.mp3"
    ensures DeletedTranscriptionPath(AudioName("a.mp3")) != TranscriptionReadPath("a.mp3")
  {
    var s := AudioName("a.mp3");
    assert IndexOf(s, ".mp3") == Some(1) by {
      assert s[0..4] != ".mp3" by { assert s[0] == 'a'; }
      assert s[1..5] == ".mp3";
      assert IndexOfFrom(s, ".mp3", 1) == Some(1);
    }
    assert ReplaceFirst(s, ".mp3", ".json") == "a.json.mp3" by {
      assert s[..1] == "a" && s[5..] == ".mp3";
    }
    assert Contains("a.mp3", ".mp3") by {
      assert MatchesAt("a.mp3", ".mp3", 1);
    }
    DeletedTranscriptionIsReadFileIff("a.mp3");
  }

  // ---------------------------------------------------------------------
  // Effects and the outcomes of external calls
  // ---------------------------------------------------------------------

  /** What the service writes to the console. */
  datatype LogEvent =
    | AudioDownloaded
    | DownloadError
    | TranscriptionFinished
    | TranscriptionFailed(code: Option<int>)
    | NotifyError
    | DeleteAudioError(audioName: string)
    | DeleteTranscriptionError(audioName: string)

  /** The body of the POST to the backend; the parsed transcription is kept opaque. */
  datatype Notification = Notification(record: string, transcription: string)

  datatype Effect =
    | Fetch(url: string)                      // axios GET with a streamed body
    | OpenWriteStream(path: string)           // fs.createWriteStream, piped from the response
    | Log(event: LogEvent)
    | Spawn(command: string)                  // spawn(command, { shell: true })
    | ReadFile(path: string)                  // fs.readFileSync, then JSON.parse
    | Post(url: string, body: Notification)   // axios POST
    | Unlink(path: string)                    // fs.unlink
    | Uncaught                                // an exception or rejection no handler catches

  /**
   * The outcome of each external call: whether the GET resolved, whether the
   * write stream finished (or emitted `error`), the exit code (`None` when the
   * process was ended by a signal), the parsed transcription (`None` when
   * reading or parsing threw), whether the POST resolved, and whether each
   * unlink succeeded.
   */
  datatype Outcomes = Outcomes(
    fetchOk: bool,
    writeOk: bool,
    exitCode: Option<int>,
    transcription: Option<string>,
    postOk: bool,
    unlinkAudioOk: bool,
    unlinkTranscriptionOk: bool)

  /** The strings one run uses, each derived where the source derives it. */
  datatype RunNames = RunNames(
    audioName: string,
    downloadUrl: string,
    audioPath: string,
    command: string,
    readPath: string,
    notifyUrl: string,
    deletedPath: string)

  function NamesOf(iasminUrl: Option<string>, whisperCommand: Option<string>, record: string): RunNames {
    var audioName := AudioName(record);
    RunNames(audioName, DownloadUrl(iasminUrl, audioName), AudioPath(audioName),
             ServiceCommand(whisperCommand, audioName), TranscriptionReadPath(record),
             NotifyUrl(iasminUrl), DeletedTranscriptionPath(audioName))
  }

  // ---------------------------------------------------------------------
  // Specification of each stage's effects
  // ---------------------------------------------------------------------

  /** `deleteAudioAndTranscription`: two unlinks, each reporting only its own failure. */
  function DeleteTrace(n: RunNames, o: Outcomes): seq<Effect> {
    [Unlink(n.audioPath), Unlink(n.deletedPath)]
    + (if o.unlinkAudioOk then [] else [Log(DeleteAudioError(n.audioName))])
    + (if o.unlinkTranscriptionOk then [] else [Log(DeleteTranscriptionError(n.audioName))])
  }

  /** `notifyIASMIN`: read the transcription, post it, delete the files once the POST resolves. */
  function NotifyTrace(n: RunNames, record: string, o: Outcomes): seq<Effect> {
    [ReadFile(n.readPath)]
    + match o.transcription
      case None => [Uncaught]
      case Some(doc) =>
        [Post(n.notifyUrl, Notification(record, doc))]
        + (if o.postOk then DeleteTrace(n, o) else [Log(NotifyError)])
  }

  /** `processRecognition`: run the engine; notify only on exit code 0. */
  function ProcessTrace(n: RunNames, record: string, o: Outcomes): seq<Effect> {
    [Spawn(n.command)]
    + if o.exitCode == Some(0) then
        [Log(TranscriptionFinished)] + NotifyTrace(n, record, o)
      else
        [Log(TranscriptionFailed(o.exitCode))]
  }

  /** `start` / `downloadAudio`: fetch the audio, stream it to disk, transcribe once the stream finishes. */
  function DownloadTrace(n: RunNames, record: string, o: Outcomes): seq<Effect> {
    [Fetch(n.downloadUrl)]
    + if !o.fetchOk then
        [Uncaught]
      else
        [OpenWriteStream(n.audioPath)]
        + if o.writeOk then
            [Log(AudioDownloaded)] + ProcessTrace(n, record, o)
          else
            [Log(DownloadError)]
  }

  // ---------------------------------------------------------------------
  // Properties of the whole pipeline
  //
  // They hold for any names; `NamesOf` supplies the ones the service
  // derives, and the lemmas above relate those to each other.
  // ---------------------------------------------------------------------

  predicate Posted(t: seq<Effect>) {
    exists e :: e in t && e.Post?
  }

  predicate Unlinked(t: seq<Effect>) {
    exists e :: e in t && e.Unlink?
  }

  predicate Spawned(t: seq<Effect>) {
    exists e :: e in t && e.Spawn?
  }

  /** The effects up to and including the engine spawn, when the download succeeded. */
  function UntilSpawn(n: RunNames): seq<Effect> {
    [Fetch(n.downloadUrl), OpenWriteStream(n.audioPath), Log(AudioDownloaded), Spawn(n.command)]
  }

  /** The effects of a successful download and a zero exit, up to the `finished` log. */
  function UntilFinished(n: RunNames): seq<Effect> {
    UntilSpawn(n) + [Log(TranscriptionFinished)]
  }

  /** Every run begins with the GET; a rejected GET ends the run. */
  lemma FetchComesFirst(n: RunNames, record: string, o: Outcomes)
    ensures var t := DownloadTrace(n, record, o);
      |t| > 1 && t[0] == Fetch(n.downloadUrl)
      && (!o.fetchOk ==> t == [Fetch(n.downloadUrl), Uncaught])
  {
  }

  /** A write-stream error is logged and nothing further happens. */
  lemma WriteErrorStopsPipeline(n: RunNames, record: string, o: Outcomes)
    requires o.fetchOk && !o.writeOk
    ensures DownloadTrace(n, record, o) == [Fetch(n.downloadUrl), OpenWriteStream(n.audioPath), Log(DownloadError)]
  {
  }

  /**
   * Once the stream finished, the run is the effects up to the spawn followed
   * by the exit-code branch: the notify stage after a zero exit, the failure
   * log otherwise.
   */
  lemma AfterWriteFinished(n: RunNames, record: string, o: Outcomes)
    requires o.fetchOk && o.writeOk
    ensures o.exitCode == Some(0) ==> DownloadTrace(n, record, o) == UntilFinished(n) + NotifyTrace(n, record, o)
    ensures o.exitCode != Some(0) ==>
      DownloadTrace(n, record, o) == UntilSpawn(n) + [Log(TranscriptionFailed(o.exitCode))]
  {
  }

  /** The delete stage unlinks and logs, and does nothing else. */
  lemma DeleteEffects(n: RunNames, o: Outcomes)
    ensures forall e | e in DeleteTrace(n, o) ::
      e.Unlink? || e == Log(DeleteAudioError(n.audioName)) || e == Log(DeleteTranscriptionError(n.audioName))
  {
  }

  /**
   * The notify stage never fetches, writes or spawns; it posts only the parsed
   * transcription to the notify address, and unlinks exactly when that POST resolved.
   */
  lemma NotifyEffects(n: RunNames, record: string, o: Outcomes)
    ensures var nt := NotifyTrace(n, record, o);
      (forall e | e in nt :: !e.Spawn? && !e.Fetch? && !e.OpenWriteStream?)
      && (forall e | e in nt && e.Post? ::
            o.transcription.Some? && e == Post(n.notifyUrl, Notification(record, o.transcription.value)))
      && (Posted(nt) <==> o.transcription.Some?)
      && (Unlinked(nt) <==> o.transcription.Some? && o.postOk)
  {
    DeleteEffects(n, o);
    var nt := NotifyTrace(n, record, o);
    if o.transcription.Some? {
      assert nt[1].Post? && nt[1] in nt;
      if o.postOk {
        assert nt[2].Unlink? && nt[2] in nt;
      }
    }
  }

  /**
   * The engine is spawned exactly when the GET resolved and the write stream
   * finished; the spawn comes right after the `finish` log, runs the run's
   * command, and happens once.
   */
  lemma SpawnOnlyAfterWriteFinished(n: RunNames, record: string, o: Outcomes)
    ensures var t := DownloadTrace(n, record, o);
      (Spawned(t) <==> o.fetchOk && o.writeOk)
      && (Spawned(t) ==> |t| > 4 && t[..4] == UntilSpawn(n) && forall e | e in t[4..] :: !e.Spawn?)
  {
    var t := DownloadTrace(n, record, o);
    if o.fetchOk && o.writeOk {
      AfterWriteFinished(n, record, o);
      var rest := if o.exitCode == Some(0) then
          [Log(TranscriptionFinished)] + NotifyTrace(n, record, o)
        else
          [Log(TranscriptionFailed(o.exitCode))];
      assert t == UntilSpawn(n) + rest;
      assert t[..4] == UntilSpawn(n) && t[4..] == rest;
      NotifyEffects(n, record, o);
      assert t[3].Spawn? && t[3] in t;
    }
  }

  /**
   * A POST happens exactly when the download finished, the engine exited
   * with code 0 and the transcription file was read and parsed. Any other
   * exit code (or a signal) is logged and ends the run: no read, no POST,
   * no deletion.
   */
  lemma NotifyOnlyOnExitZero(n: RunNames, record: string, o: Outcomes)
    ensures var t := DownloadTrace(n, record, o);
      (Posted(t) <==> o.fetchOk && o.writeOk && o.exitCode == Some(0) && o.transcription.Some?)
      && (o.fetchOk && o.writeOk && o.exitCode != Some(0) ==>
            t == UntilSpawn(n) + [Log(TranscriptionFailed(o.exitCode))])
  {
    if o.fetchOk && o.writeOk {
      AfterWriteFinished(n, record, o);
      NotifyEffects(n, record, o);
    }
  }

  /** Whatever the POST does, it goes to the notify address with the record and the parsed file. */
  lemma PostTargetAndBody(n: RunNames, record: string, o: Outcomes)
    ensures forall e | e in DownloadTrace(n, record, o) && e.Post? ::
      o.transcription.Some? && e == Post(n.notifyUrl, Notification(record, o.transcription.value))
  {
    if o.fetchOk && o.writeOk {
      AfterWriteFinished(n, record, o);
      NotifyEffects(n, record, o);
    }
  }

  /** Files are unlinked exactly when the transcription was posted and the POST resolved. */
  lemma DeleteOnlyAfterPostSucceeded(n: RunNames, record: string, o: Outcomes)
    ensures var t := DownloadTrace(n, record, o);
      Unlinked(t) <==> Posted(t) && o.postOk
  {
    NotifyOnlyOnExitZero(n, record, o);
    if o.fetchOk && o.writeOk {
      AfterWriteFinished(n, record, o);
      NotifyEffects(n, record, o);
    }
  }

  /** A rejected POST is logged and ends the run: both files are left in place. */
  lemma PostFailureKeepsFiles(n: RunNames, record: string, o: Outcomes)
    requires o.fetchOk && o.writeOk && o.exitCode == Some(0) && o.transcription.Some? && !o.postOk
    ensures DownloadTrace(n, record, o)
         == UntilFinished(n)
            + [ReadFile(n.readPath), Post(n.notifyUrl, Notification(record, o.transcription.value)), Log(NotifyError)]
  {
    AfterWriteFinished(n, record, o);
  }

  /** A resolved POST is followed by the delete stage and nothing else. */
  lemma PostSuccessDeletes(n: RunNames, record: string, o: Outcomes)
    requires o.fetchOk && o.writeOk && o.exitCode == Some(0) && o.transcription.Some? && o.postOk
    ensures DownloadTrace(n, record, o)
         == UntilFinished(n)
            + [ReadFile(n.readPath), Post(n.notifyUrl, Notification(record, o.transcription.value))]
            + DeleteTrace(n, o)
  {
    AfterWriteFinished(n, record, o);
  }

  /**
   * The two unlinks are independent: both are always issued, and each
   * failure produces its own log line and nothing else.
   */
  lemma UnlinksIndependent(n: RunNames, o: Outcomes)
    ensures var t := DeleteTrace(n, o);
      |t| >= 2
      && t[0] == Unlink(n.audioPath)
      && t[1] == Unlink(n.deletedPath)
      && (Log(DeleteAudioError(n.audioName)) in t <==> !o.unlinkAudioOk)
      && (Log(DeleteTranscriptionError(n.audioName)) in t <==> !o.unlinkTranscriptionOk)
      && |t| == 2 + (if o.unlinkAudioOk then 0 else 1) + (if o.unlinkTranscriptionOk then 0 else 1)
  {
  }

  /**
   * End to end, with the names the service derives, on a record without
   * `.mp3` of its own: when every step succeeds the run unlinks exactly the
   * audio file it downloaded and the transcription file it read.
   */
  lemma HappyPathCleansUp(iasminUrl: Option<string>, whisperCommand: Option<string>, record: string, o: Outcomes)
    requires !Contains(record, ".mp3")
    requires o.fetchOk && o.writeOk && o.exitCode == Some(0) && o.transcription.Some?
    requires o.postOk && o.unlinkAudioOk && o.unlinkTranscriptionOk
    ensures var n := NamesOf(iasminUrl, whisperCommand, record);
      DownloadTrace(n, record, o)
      == [Fetch(DownloadUrl(iasminUrl, AudioName(record))),
          OpenWriteStream(AudioPath(AudioName(record))),
          Log(AudioDownloaded),
          Spawn(ServiceCommand(whisperCommand, AudioName(record))),
          Log(TranscriptionFinished),
          ReadFile(TranscriptionReadPath(record)),
          Post(NotifyUrl(iasminUrl), Notification(record, o.transcription.value)),
          Unlink(AudioPath(AudioName(record))),
          Unlink(TranscriptionReadPath(record))]
  {
    var n := NamesOf(iasminUrl, whisperCommand, record);
    DeletedTranscriptionIsReadFileIff(record);
    assert n.deletedPath == n.readPath;
    PostSuccessDeletes(n, record, o);
  }

  /** Whatever the outcomes, a run unlinks only the audio file and the derived transcription name. */
  lemma UnlinksOnlyTheseTwo(n: RunNames, record: string, o: Outcomes)
    ensures forall e | e in DownloadTrace(n, record, o) && e.Unlink? ::
      e.path == n.audioPath || e.path == n.deletedPath
  {
    if o.fetchOk && o.writeOk {
      AfterWriteFinished(n, record, o);
      if o.exitCode == Some(0) && o.transcription.Some? && o.postOk {
        PostSuccessDeletes(n, record, o);
      }
    }
  }

  /**
   * With the names the service derives, on a record with `.mp3` inside: no
   * step of the run, whatever the outcomes, unlinks the transcription file
   * that was read and posted, so that file is left behind.
   */
  lemma ReadFileLeftBehind(iasminUrl: Option<string>, whisperCommand: Option<string>, record: string, o: Outcomes)
    requires Contains(record, ".mp3")
    ensures forall e | e in DownloadTrace(NamesOf(iasminUrl, whisperCommand, record), record, o) && e.Unlink? ::
      e.path != TranscriptionReadPath(record)
  {
    var n := NamesOf(iasminUrl, whisperCommand, record);
    UnlinksOnlyTheseTwo(n, record, o);
    DeletedTranscriptionIsReadFileIff(record);
    assert n.audioPath[0] == 'a' && TranscriptionReadPath(record)[0] == 't';
  }

  // ---------------------------------------------------------------------
  // The service
  // ---------------------------------------------------------------------

  /**
   * The service object. Its configuration is read once at construction
   * (either value may be missing); `effects` is the log of external calls
   * made so far, to which every step appends.
   */
  class RecognitionService {
    const iasminUrl: Option<string>
    const whisperCommand: Option<string>
    var effects: seq<Effect>

    constructor (iasminUrl: Option<string>, whisperCommand: Option<string>)
      ensures this.iasminUrl == iasminUrl && this.whisperCommand == whisperCommand
      ensures effects == []
    {
      this.iasminUrl := iasminUrl;
      this.whisperCommand := whisperCommand;
      effects := [];
    }

    /** `start`: fire off the download; the whole run follows from its callbacks. */
    method Start(record: string, o: Outcomes)
      modifies this
      ensures effects == old(effects) + DownloadTrace(NamesOf(iasminUrl, whisperCommand, record), record, o)
    {
      DownloadAudio(record, o);
    }

    method DownloadAudio(record: string, o: Outcomes)
      modifies this
      ensures effects == old(effects) + DownloadTrace(NamesOf(iasminUrl, whisperCommand, record), record, o)
    {
      ghost var n := NamesOf(iasminUrl, whisperCommand, record);
      var audioName := AudioName(record);
      effects := effects + [Fetch(DownloadUrl(iasminUrl, audioName))];
      assert effects == old(effects) + [Fetch(n.downloadUrl)];
      if !o.fetchOk {
        // the awaited GET rejects and nothing catches it
        effects := effects + [Uncaught];
        return;
      }
      effects := effects + [OpenWriteStream(AudioPath(audioName))];
      assert effects == old(effects) + [Fetch(n.downloadUrl), OpenWriteStream(n.audioPath)];
      if o.writeOk {
        // writer 'finish'
        effects := effects + [Log(AudioDownloaded)];
        ghost var before := effects;
        ProcessRecognition(record, audioName, o);
        assert effects == before + ProcessTrace(n, record, o);
      } else {
        // writer 'error'
        effects := effects + [Log(DownloadError)];
      }
    }

    method ProcessRecognition(record: string, audioName: string, o: Outcomes)
      requires audioName == AudioName(record)
      modifies this
      ensures effects == old(effects) + ProcessTrace(NamesOf(iasminUrl, whisperCommand, record), record, o)
    {
      var command := ServiceCommand(whisperCommand, audioName);
      effects := effects + [Spawn(command)];
      // process 'exit'
      if o.exitCode == Some(0) {
        effects := effects + [Log(TranscriptionFinished)];
        NotifyIasmin(record, audioName, o);
      } else {
        effects := effects + [Log(TranscriptionFailed(o.exitCode))];
      }
    }

    method NotifyIasmin(record: string, audioName: string, o: Outcomes)
      requires audioName == AudioName(record)
      modifies this
      ensures effects == old(effects) + NotifyTrace(NamesOf(iasminUrl, whisperCommand, record), record, o)
    {
      // the request body is built before the POST is sent
      effects := effects + [ReadFile(TranscriptionReadPath(record))];
      if o.transcription.None? {
        effects := effects + [Uncaught];
        return;
      }
      var body := Notification(record, o.transcription.value);
      effects := effects + [Post(NotifyUrl(iasminUrl), body)];
      if o.postOk {
        DeleteAudioAndTranscription(record, audioName, o);
      } else {
        effects := effects + [Log(NotifyError)];
      }
    }

    method DeleteAudioAndTranscription(ghost record: string, audioName: string, o: Outcomes)
      requires audioName == AudioName(record)
      modifies this
      ensures effects == old(effects) + DeleteTrace(NamesOf(iasminUrl, whisperCommand, record), o)
    {
      effects := effects + [Unlink(AudioPath(audioName))];
      effects := effects + [Unlink(DeletedTranscriptionPath(audioName))];
      if !o.unlinkAudioOk {
        effects := effects + [Log(DeleteAudioError(audioName))];
      }
      if !o.unlinkTranscriptionOk {
        effects := effects + [Log(DeleteTranscriptionError(audioName))];
      }
    }
  }
}
