/**
 * The transcription worker thread (src/workers/transcription.worker.ts).
 * For each message from the main thread it runs the engine synchronously
 * on the selected recording and posts the message back unchanged. The
 * `spawnSync` result is an input the handler receives and never looks at.
 */
module TranscriptionWorker {
  import opened Types
  import opened JsString
  import opened Utils
  import WhisperCommand

  const TranscriptionsPath := "transcriptions"

  datatype Effect =
    | Log(pid: int, audioName: string)   // "Worker <pid> Executando Transcricao: <name>"
    | SpawnSync(command: string)         // spawnSync(command, { shell: true })
    | PostMessage(reply: AudioData)      // parentPort.postMessage

  /** The engine command, with the `turbo` model and output into `transcriptions`. */
  function WorkerCommand(whisperCommand: Option<string>, audioName: string): string {
    WhisperCommand.EngineCommand(JsText(whisperCommand), audioName, "turbo", TranscriptionsPath)
  }

  /** `main`: the effects of handling one message; `engineStatus` is what `spawnSync` returned. */
  function Main(whisperCommand: Option<string>, pid: int, d: AudioData, engineStatus: Option<int>): seq<Effect>
    requires Selectable(d)
  {
    var audioName := DefineAudioNameAndUrl(d).audioName;
    [Log(pid, audioName), SpawnSync(WorkerCommand(whisperCommand, audioName)), PostMessage(d)]
  }

  /**
   * One message: one engine run on the selected recording's file, then one
   * reply that is the received message itself, whatever the engine returned.
   */
  lemma MainRepliesWithInput(whisperCommand: Option<string>, pid: int, d: AudioData, s1: Option<int>, s2: Option<int>)
    requires Selectable(d)
    ensures var t := Main(whisperCommand, pid, d, s1);
      |t| == 3
      && t[1] == SpawnSync(WorkerCommand(whisperCommand, DefineAudioNameAndUrl(d).audioName))
      && t[2] == PostMessage(d)
      && t == Main(whisperCommand, pid, d, s2)
  {
  }

  /** The worker's command differs from the service's only in the model flag. */
  lemma WorkerCommandUsesTurbo(whisperCommand: Option<string>, audioName: string)
    ensures WorkerCommand(whisperCommand, audioName)
         == WhisperCommand.JoinWords([JsText(whisperCommand), "audios/" + audioName]
                                     + WhisperCommand.Flags("turbo", "transcriptions"))
  {
    WhisperCommand.EngineCommandIsJoinedWords(JsText(whisperCommand), audioName, "turbo", TranscriptionsPath);
  }

  predicate AllSelectable(msgs: seq<AudioData>) {
    forall i :: 0 <= i < |msgs| ==> Selectable(msgs[i])
  }

  /**
   * The listener: messages are handled one after another in arrival order,
   * each to completion, since the handler blocks on the engine.
   */
  function Listen(whisperCommand: Option<string>, pid: int, msgs: seq<AudioData>,
                  statuses: seq<Option<int>>): seq<Effect>
    requires |statuses| == |msgs| && AllSelectable(msgs)
    decreases |msgs|
  {
    if msgs == [] then []
    else Main(whisperCommand, pid, msgs[0], statuses[0]) + Listen(whisperCommand, pid, msgs[1..], statuses[1..])
  }

  /** The replies in a run, in order. */
  function Replies(t: seq<Effect>): seq<AudioData> {
    if t == [] then []
    else (if t[0].PostMessage? then [t[0].reply] else []) + Replies(t[1..])
  }

  /** The number of engine runs. */
  function EngineRuns(t: seq<Effect>): nat {
    if t == [] then 0
    else (if t[0].SpawnSync? then 1 else 0) + EngineRuns(t[1..])
  }

  lemma {:induction false} CountsDistribute(a: seq<Effect>, b: seq<Effect>)
    ensures Replies(a + b) == Replies(a) + Replies(b)
    ensures EngineRuns(a + b) == EngineRuns(a) + EngineRuns(b)
  {
    if a != [] {
      assert (a + b)[1..] == a[1..] + b;
      CountsDistribute(a[1..], b);
    } else {
      assert a + b == b;
    }
  }

  /**
   * Over any sequence of messages, the engine runs once per message and the
   * replies are exactly the received messages, in order.
   */
  lemma {:induction false} ListenRepliesOncePerMessage(whisperCommand: Option<string>, pid: int,
                                                     msgs: seq<AudioData>, statuses: seq<Option<int>>)
    requires |statuses| == |msgs| && AllSelectable(msgs)
    ensures Replies(Listen(whisperCommand, pid, msgs, statuses)) == msgs
    ensures EngineRuns(Listen(whisperCommand, pid, msgs, statuses)) == |msgs|
    ensures |Listen(whisperCommand, pid, msgs, statuses)| == 3 * |msgs|
  {
    if msgs != [] {
      var m := Main(whisperCommand, pid, msgs[0], statuses[0]);
      var rest := Listen(whisperCommand, pid, msgs[1..], statuses[1..]);
      CountsDistribute(m, rest);
      ListenRepliesOncePerMessage(whisperCommand, pid, msgs[1..], statuses[1..]);
      assert m[1..][1..][1..] == [];
      assert Replies(m[1..][1..]) == [msgs[0]];
      assert Replies(m[1..]) == Replies(m[1..][1..]);
      assert Replies(m) == [msgs[0]];
      assert EngineRuns(m[1..][1..]) == 0;
      assert EngineRuns(m[1..]) == 1;
      assert EngineRuns(m) == 1;
      assert [msgs[0]] + msgs[1..] == msgs;
    }
  }

  /**
   * The run is the per-message handlings laid end to end: the effects of
   * message `i` occupy positions `3i` to `3i + 2`, so each message's reply
   * comes after its own engine run and before the next message's.
   */
  lemma {:induction false} ListenHandlesInOrder(whisperCommand: Option<string>, pid: int,
                                              msgs: seq<AudioData>, statuses: seq<Option<int>>)
    requires |statuses| == |msgs| && AllSelectable(msgs)
    ensures var t := Listen(whisperCommand, pid, msgs, statuses);
      |t| == 3 * |msgs|
      && forall i :: 0 <= i < |msgs| ==> t[3 * i..3 * i + 3] == Main(whisperCommand, pid, msgs[i], statuses[i])
  {
    if msgs != [] {
      var t := Listen(whisperCommand, pid, msgs, statuses);
      var rest := Listen(whisperCommand, pid, msgs[1..], statuses[1..]);
      ListenHandlesInOrder(whisperCommand, pid, msgs[1..], statuses[1..]);
      assert t == Main(whisperCommand, pid, msgs[0], statuses[0]) + rest;
      forall i | 0 <= i < |msgs|
        ensures t[3 * i..3 * i + 3] == Main(whisperCommand, pid, msgs[i], statuses[i])
      {
        if i > 0 {
          assert t[3 * i..3 * i + 3] == rest[3 * (i - 1)..3 * (i - 1) + 3];
          assert msgs[1..][i - 1] == msgs[i] && statuses[1..][i - 1] == statuses[i];
        }
      }
    }
  }
}
