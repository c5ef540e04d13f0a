# iasmin-whisper-api: a Dafny model of the transcription pipeline

This project models the core of the service that transcribes call
recordings. A call record arrives. The service downloads its `.mp3`, runs
the Whisper speech-recognition engine on it, and posts the JSON
transcription back to the IASMIN backend. It then deletes the local audio
and transcription files. A worker thread runs the engine for one selected
call leg per message and echoes the message back.

Modules, one per source file or concept:

- `Types` (`types.dfy`): the call detail record, the call-leg and user-field enums, and the worker's `AudioData` job.
- `JsString` (`js_string.dfy`): the JavaScript string behaviour the code depends on. A missing config value renders as the text `undefined`. `indexOf` is modelled, and so is `String.prototype.replace` with a string pattern, which replaces only the first occurrence.
- `Utils` (`utils.dfy`): `defineAudioNameAndUrl`, the leg selector.
- `WhisperCommand` (`whisper_command.dfy`): the engine command line. The service and the worker build it by the same concatenation and differ only in the model flag (`large` or `turbo`).
- `Recognition` (`recognition.dfy`): `RecognitionService`. It holds the name, URL, path and command derivations and a specification function for the effects of each callback stage. It has lemmas about the whole run and a class whose methods append the same effects to a log step by step.
- `TranscriptionWorker` (`transcription_worker.dfy`): the worker's per-message handler and its sequential message listener.

The external calls are abstracted. HTTP, the file system and the engine process become effects (`Fetch`, `OpenWriteStream`, `Spawn`, `ReadFile`, `Post`, `Unlink`, `Log`). An `Outcomes` value supplies the result of each call:

- whether the GET resolved;
- whether the write stream finished or raised `error`;
- the exit code, which is `None` when a signal ended the process;
- the parsed transcription, which is `None` when reading or parsing threw;
- whether the POST resolved;
- whether each unlink succeeded.

A rejected GET or a throwing read escapes every handler in the source. In Node.js either one crashes the whole process, not only this run. The model records it as an `Uncaught` effect that ends the run's trace.

The stage functions (`DownloadTrace`, `ProcessTrace`, `NotifyTrace`, `DeleteTrace`) take the run's strings as a `RunNames` record. `NamesOf` builds that record the way the service builds each string. The ordering lemmas hold for any names. The lemmas on the name functions, used in `HappyPathCleansUp`, tie the names together.

Properties that follow from the code as written:

- The transcription file that is read and posted is `transcriptions/<record>.json`. The file that is unlinked is the audio name with its first `.mp3` replaced by `.json`.
- These are the same file exactly when the record contains no `.mp3` of its own (`DeletedTranscriptionIsReadFileIff`). For the record `a.mp3`, the service reads `a.mp3.json` but unlinks `a.json.mp3` (`DeletedTranscriptionExample`).
- The service reads a `record` field from the incoming message, while the DTO class declares only `callRecord` (src/recognition/dto/recognition.dto.ts:8). The model takes `record` as an input string.

The modelled source files have none of the following, so the model has none either:

- a busy slot that admits one job at a time;
- a probe against the backend to skip records already transcribed;
- leg file names derived from `uniqueId`;
- sequencing of the two legs of a call;
- assembly of transcription segments tagged by leg.

## Model

| member | source | states |
|---|---|---|
| `JsString.JsText` | src/recognition/recognition.service.ts:14-15 | No contract. Renders a config value the way a template or `+` does: the string itself, or the text `undefined` when the value is missing |
| `JsString.IndexOfFrom` | src/recognition/recognition.service.ts:86 | The result is a match position at or after `from` with no earlier match from `from` on; `None` only when no match exists from `from` on |
| `JsString.IndexOf` | src/recognition/recognition.service.ts:86 | `None` exactly when the pattern does not occur; otherwise the position of the first occurrence |
| `JsString.ReplaceFirst` | src/recognition/recognition.service.ts:86 | Without an occurrence the string is unchanged; otherwise only the first occurrence is replaced and the rest is kept |
| `Utils.DefineAudioNameAndUrl` | src/utils.ts:8-17 | Leg A yields exactly A's name and url, leg B exactly B's, and BOTH the upload name and url; BOTH requires both upload fields (the non-null assertions) |
| `Utils.SelectorTotal` | src/utils.ts:9-16 | A corollary of the definition of `Selectable`: legs A and B are always accepted, and BOTH only with both upload fields present |
| `Utils.SelectionNeverMixesLegs` | src/utils.ts:11-15 | Name and url always come from one and the same leg |
| `Utils.SelectionIgnoresUnselectedFields` | src/utils.ts:8-16 | Replacing the record and all fields of the unselected legs leaves the result unchanged |
| `WhisperCommand.EngineCommand` | src/recognition/recognition.service.ts:42-54 | No contract. The command text, concatenated as in the source; `EngineCommandIsJoinedWords` and `CommandShape` state what it is |
| `WhisperCommand.CommandShape` | src/recognition/recognition.service.ts:42-54 | The command starts with the program, a space, `audios/<name>` and a space, and ends with `--output_dir=<dir>` |
| `WhisperCommand.EngineCommandIsJoinedWords` | src/recognition/recognition.service.ts:42-54 | As text, the command is the program, the audio path and the seven fixed flags, in source order, separated by single spaces (how a shell would split it is not modelled) |
| `Recognition.AudioName` | src/recognition/recognition.service.ts:22 | No contract. The record with `.mp3` appended |
| `Recognition.DownloadUrl` | src/recognition/recognition.service.ts:25 | No contract. The backend address, a slash and the audio name |
| `Recognition.AudioPath` | src/recognition/recognition.service.ts:28 | No contract. The local path `audios/<audio name>` the download writes |
| `Recognition.ServiceCommand` | src/recognition/recognition.service.ts:42-54 | No contract. The engine command with the `large` model and output into `transcriptions` |
| `Recognition.TranscriptionReadPath` | src/recognition/recognition.service.ts:70 | No contract. The path `transcriptions/<record>.json` that is read and posted |
| `Recognition.DeletedTranscriptionPath` | src/recognition/recognition.service.ts:86 | No contract. `transcriptions/` followed by the audio name with its first `.mp3` replaced by `.json` |
| `Recognition.NotifyUrl` | src/recognition/recognition.service.ts:68 | No contract. The backend address followed by `/transcription` |
| `Recognition.AudioNameInjective` | src/recognition/recognition.service.ts:22 | Distinct records never share an audio file name |
| `Recognition.CommandNamesDownloadedFile` | src/recognition/recognition.service.ts:28-46 | The command text names the path the download wrote, right after the program and a space |
| `Recognition.FirstMp3IsAppended` | src/recognition/recognition.service.ts:22 | For a record without `.mp3`, the first `.mp3` in its audio name is the appended one, at index `|record|` |
| `Recognition.ReplacedNameWithoutMp3` | src/recognition/recognition.service.ts:86 | For a record without `.mp3`, replacing the first `.mp3` of its audio name gives `record + ".json"` |
| `Recognition.ReplacedNameWithMp3` | src/recognition/recognition.service.ts:86 | For a record with `.mp3` inside, the replaced name still ends in the `3` of the appended `.mp3` |
| `Recognition.DeletedTranscriptionIsReadFileIff` | src/recognition/recognition.service.ts:70-86 | The unlinked transcription path equals the read path exactly when the record contains no `.mp3` |
| `Recognition.DeletedTranscriptionExample` | src/recognition/recognition.service.ts:70-86 | A corollary of the iff lemma, on one input: for the record `a.mp3` the unlinked name is `a.json.mp3` (built from `a.mp3.mp3`), and the unlinked path differs from the read path `transcriptions/a.mp3.json` |
| `Recognition.DeleteTrace` | src/recognition/recognition.service.ts:80-91 | No contract. The effects of `deleteAudioAndTranscription`: both unlinks, then a log for each one that failed |
| `Recognition.NotifyTrace` | src/recognition/recognition.service.ts:67-78 | No contract. The effects of `notifyIASMIN`: the read, then either the uncaught throw or the POST followed by the delete stage or the failure log |
| `Recognition.ProcessTrace` | src/recognition/recognition.service.ts:41-65 | No contract. The effects of `processRecognition`: the spawn, then the notify stage on exit code 0 or the failure log |
| `Recognition.DownloadTrace` | src/recognition/recognition.service.ts:21-39 | No contract. The effects of `downloadAudio`: the GET, then the uncaught rejection or the write stream followed by the processing stage or the error log |
| `Recognition.FetchComesFirst` | src/recognition/recognition.service.ts:21-27 | Every run begins with the GET of `<IASMIN_URL>/<record>.mp3`; a rejected GET ends the run |
| `Recognition.WriteErrorStopsPipeline` | src/recognition/recognition.service.ts:28-38 | A write-stream error is logged and is the last effect: no spawn, POST or unlink |
| `Recognition.DeleteEffects` | src/recognition/recognition.service.ts:80-91 | The delete stage only unlinks and logs its own two failures (a corollary of `UnlinksIndependent`) |
| `Recognition.NotifyEffects` | src/recognition/recognition.service.ts:67-78 | The notify stage never fetches, writes or spawns; its POST carries the parsed transcription; it unlinks only after a resolved POST |
| `Recognition.SpawnOnlyAfterWriteFinished` | src/recognition/recognition.service.ts:31-34 | The engine runs exactly when the GET resolved and the stream finished; the spawn is the fourth effect, after the `finish` log, with the service command; it happens once |
| `Recognition.NotifyOnlyOnExitZero` | src/recognition/recognition.service.ts:57-63 | A POST happens exactly when the exit code is 0 and the transcription was read; any other code (or a signal) is logged and ends the run |
| `Recognition.PostTargetAndBody` | src/recognition/recognition.service.ts:68-71 | Every POST goes to `<IASMIN_URL>/transcription` with the record and the parsed transcription |
| `Recognition.AfterWriteFinished` | src/recognition/recognition.service.ts:56-64 | Once the stream finished, the run is the effects up to the spawn followed by the notify stage (exit code 0) or the failure log (any other code or a signal) |
| `Recognition.DeleteOnlyAfterPostSucceeded` | src/recognition/recognition.service.ts:72-77 | Files are unlinked exactly when a POST was made and it resolved |
| `Recognition.PostFailureKeepsFiles` | src/recognition/recognition.service.ts:75-77 | A rejected POST is logged as the last effect and nothing is unlinked |
| `Recognition.PostSuccessDeletes` | src/recognition/recognition.service.ts:72-74 | A resolved POST is followed by the delete stage and nothing else |
| `Recognition.UnlinksIndependent` | src/recognition/recognition.service.ts:80-90 | Both unlinks are always issued; each failure adds exactly its own log entry |
| `Recognition.HappyPathCleansUp` | src/recognition/recognition.service.ts:17-91 | When every step succeeds and the record has no `.mp3`, the run unlinks exactly the downloaded audio and the transcription it read |
| `Recognition.UnlinksOnlyTheseTwo` | src/recognition/recognition.service.ts:80-91 | Whatever the outcomes, every unlink of a run targets the audio path or the derived transcription path |
| `Recognition.ReadFileLeftBehind` | src/recognition/recognition.service.ts:70-86 | For a record with `.mp3` inside, no unlink of the run, whatever the outcomes, targets the transcription file that was read and posted |
| `Recognition.RecognitionService.constructor` | src/recognition/recognition.service.ts:10-15 | Keeps both configuration values as read; the effect log starts empty |
| `Recognition.RecognitionService.Start` | src/recognition/recognition.service.ts:17-19 | Appends the effects of the whole run, as `DownloadTrace` specifies |
| `Recognition.RecognitionService.DownloadAudio` | src/recognition/recognition.service.ts:21-39 | Appends GET, write stream and `finish`/`error` handling, then the processing stage |
| `Recognition.RecognitionService.ProcessRecognition` | src/recognition/recognition.service.ts:41-65 | Appends the spawn and the exit-code branch, as `ProcessTrace` specifies |
| `Recognition.RecognitionService.NotifyIasmin` | src/recognition/recognition.service.ts:67-78 | Appends the read, the POST and its `then`/`catch` branch, as `NotifyTrace` specifies |
| `Recognition.RecognitionService.DeleteAudioAndTranscription` | src/recognition/recognition.service.ts:80-91 | Appends the two unlinks and their failure logs, as `DeleteTrace` specifies |
| `TranscriptionWorker.WorkerCommand` | src/workers/transcription.worker.ts:19-31 | No contract. The engine command with the `turbo` model and output into `transcriptions` |
| `TranscriptionWorker.Main` | src/workers/transcription.worker.ts:15-36 | No contract. The effects of one message: the log, the engine run on the selected leg's name, the reply with the received message |
| `TranscriptionWorker.Listen` | src/workers/transcription.worker.ts:39 | No contract. The effects of a sequence of messages, each handled to completion in arrival order |
| `TranscriptionWorker.MainRepliesWithInput` | src/workers/transcription.worker.ts:15-36 | One message gives one engine run on the selected leg's file, then one reply that is the received message, whatever the engine returned |
| `TranscriptionWorker.WorkerCommandUsesTurbo` | src/workers/transcription.worker.ts:19-31 | The worker's command is the program, `audios/<name>` and the fixed flags with `--model=turbo`, ending with `--output_dir=transcriptions` |
| `TranscriptionWorker.ListenRepliesOncePerMessage` | src/workers/transcription.worker.ts:33-39 | Over any message sequence the engine runs once per message, and the replies are the received messages, in order |
| `TranscriptionWorker.ListenHandlesInOrder` | src/workers/transcription.worker.ts:33-39 | Message `i`'s log, engine run and reply occupy positions `3i` to `3i + 2` of the run |

## Left out

- HTTP (axios), file streams, `readFileSync`, `unlink` and `spawn`/`spawnSync` are not executed. Each becomes an effect in a log. Its result is an input (`Outcomes`, or `engineStatus` for the worker).
- The content of the transcription JSON and its parsing are kept opaque. A parse failure is folded into a failed read.
- The two unlink callbacks complete in nondeterministic order. The model records their failure logs in the order the unlinks are issued.
- An `error` event from `spawn` is not modelled. The source installs no handler for it, so Node.js would throw it and crash the process.
- An error on the GET's response stream is not modelled. The piped writer then sees neither `finish` nor `error`.
- `Recognition.RecognitionService.Start`: the source returns as soon as the GET is issued, and every later step runs in a callback. Concurrent runs on one service object therefore interleave their effects. The model appends each run's effects as one block.
- No step in the source has a time-out: axios sets none by default, `spawn` sets none, and a stalled stream never settles. A run can therefore stop silently at any stage, and `Outcomes`, which settles every call, cannot express that. The "only after" and "never" properties also hold for every prefix of a run. The exact traces and the "exactly when" directions describe runs in which every call settles.
- `Uncaught` stands for a process-wide crash. The rejected GET inside the unawaited `downloadAudio` is an unhandled rejection. A throw from `readFileSync` or `JSON.parse` escapes the `exit` listener. Both end the process, and with it every other run in flight. The model only ends the trace of the run concerned.
- `Recognition.CommandNamesDownloadedFile`: the command goes to a shell (`shell: true`), and the shell's word splitting, quoting and expansion are not modelled. A record containing a space reaches the engine as two arguments. A record containing `;` or `$(...)` runs further commands.
- Console messages are reduced to an event tag. Their DTO and error payloads are left out.
- `ReplaceFirst` does not interpret the `$` patterns of JavaScript replacement strings. The only replacement used, `.json`, contains none.
- `Utils.DefineAudioNameAndUrl` requires both upload fields for BOTH. This follows the source's non-null assertions. The source compiles without these checks, and at run time a missing field would flow on as `undefined`.
- The worker's `process.pid` is a parameter. Worker-thread message passing is modelled only as the sequential listener `Listen`. An absent `parentPort` is not modelled.
- src/main.ts, the Nest modules, both controllers and the DTO's validation decorators are framework wiring. They are not part of this model. Neither are the duplicate type files src/model/cdr.ts and src/utils/enums.ts.
