/**
 * The shared data types of the transcription service (src/types.ts).
 * JavaScript `number` fields are modelled as mathematical integers and
 * optional (`?`) fields as `Option`.
 */
module Types {

  datatype Option<+T> = None | Some(value: T)

  /** Which recording a worker job refers to: one leg of a call, or an upload. */
  datatype CallLeg = A | B | BOTH

  /** How the call reached the switchboard. */
  datatype Userfield = OUTBOUND | INBOUND | UPLOAD

  /** Call detail record. */
  datatype Cdr = Cdr(
    id: int,
    uniqueId: string,
    callRecord: string,
    userfield: Userfield,
    isDeveloperInstance: Option<bool>)

  /** A job for the transcription worker: both legs of a call and, for uploads, the upload file. */
  datatype AudioData = AudioData(
    cdr: Cdr,
    audioNameA: string,
    audioUrlA: string,
    audioNameB: string,
    audioUrlB: string,
    uploadName: Option<string>,
    uploadUrl: Option<string>,
    callLeg: CallLeg)
}
