/**
 * The command line handed to the speech-recognition engine. The service
 * (src/recognition/recognition.service.ts) and the worker
 * (src/workers/transcription.worker.ts) build it by the same concatenation,
 * differing only in the model name; both pass their own output directory.
 */
module WhisperCommand {

  /** The fixed flags, in the order they appear on the command line. */
  function Flags(model: string, outputDir: string): seq<string> {
    ["--model=" + model, "--fp16=False", "--language=pt", "--beam_size=5",
     "--patience=2", "--output_format=json", "--output_dir=" + outputDir]
  }

  /** Words separated by single spaces. */
  function JoinWords(ws: seq<string>): string {
    if |ws| == 0 then ""
    else if |ws| == 1 then ws[0]
    else ws[0] + " " + JoinWords(ws[1..])
  }

  lemma {:induction false} JoinWordsSnoc(ws: seq<string>, w: string)
    requires ws != []
    ensures JoinWords(ws + [w]) == JoinWords(ws) + " " + w
  {
    if |ws| == 1 {
      assert ws + [w] == [ws[0], w];
      assert [ws[0], w][1..] == [w];
    } else {
      assert (ws + [w])[1..] == ws[1..] + [w];
      JoinWordsSnoc(ws[1..], w);
    }
  }

  /**
   * `whisper + ' ' + 'audios/' + audioName + ' ' + '--model=<model> ' + ... + '--output_dir=<dir>'`;
   * the spaces that end the source's flag literals are written as separate `" "` pieces.
   */
  function EngineCommand(whisper: string, audioName: string, model: string, outputDir: string): string
  {
    whisper + " " + "audios/" + audioName + " " + "--model=" + model + " " + "--fp16=False" + " "
    + "--language=pt" + " " + "--beam_size=5" + " " + "--patience=2" + " "
    + "--output_format=json" + " " + "--output_dir=" + outputDir
  }

  /** The command is the program, the audio path and the fixed flags, in this order, joined by single spaces. */
  lemma {:induction false} EngineCommandIsJoinedWords(whisper: string, audioName: string, model: string, outputDir: string)
    ensures EngineCommand(whisper, audioName, model, outputDir)
         == JoinWords([whisper, "audios/" + audioName] + Flags(model, outputDir))
  {
    var ws := [whisper, "audios/" + audioName] + Flags(model, outputDir);
    var c1 := whisper + " " + "audios/" + audioName;
    assert JoinWords(ws[..2]) == c1 by {
      assert ws[..2] == [whisper] + ["audios/" + audioName];
      JoinWordsSnoc([whisper], "audios/" + audioName);
    }
    var c2 := c1 + " " + "--model=" + model;
    assert JoinWords(ws[..3]) == c2 by {
      assert ws[..3] == ws[..2] + [ws[2]];
      JoinWordsSnoc(ws[..2], ws[2]);
    }
    var c3 := c2 + " " + "--fp16=False";
    assert JoinWords(ws[..4]) == c3 by {
      assert ws[..4] == ws[..3] + [ws[3]];
      JoinWordsSnoc(ws[..3], ws[3]);
    }
    var c4 := c3 + " " + "--language=pt";
    assert JoinWords(ws[..5]) == c4 by {
      assert ws[..5] == ws[..4] + [ws[4]];
      JoinWordsSnoc(ws[..4], ws[4]);
    }
    var c5 := c4 + " " + "--beam_size=5";
    assert JoinWords(ws[..6]) == c5 by {
      assert ws[..6] == ws[..5] + [ws[5]];
      JoinWordsSnoc(ws[..5], ws[5]);
    }
    var c6 := c5 + " " + "--patience=2";
    assert JoinWords(ws[..7]) == c6 by {
      assert ws[..7] == ws[..6] + [ws[6]];
      JoinWordsSnoc(ws[..6], ws[6]);
    }
    var c7 := c6 + " " + "--output_format=json";
    assert JoinWords(ws[..8]) == c7 by {
      assert ws[..8] == ws[..7] + [ws[7]];
      JoinWordsSnoc(ws[..7], ws[7]);
    }
    var c8 := c7 + " " + "--output_dir=" + outputDir;
    assert JoinWords(ws) == c8 by {
      assert ws == ws[..8] + [ws[8]];
      JoinWordsSnoc(ws[..8], ws[8]);
    }
  }

  /** The command starts with the program and the file under `audios/`, and ends with the output directory flag. */
  lemma CommandShape(whisper: string, audioName: string, model: string, outputDir: string)
    ensures var c := EngineCommand(whisper, audioName, model, outputDir);
      var head := whisper + " " + "audios/" + audioName + " ";
      var last := "--output_dir=" + outputDir;
      |head| <= |c| && c[..|head|] == head
      && |last| <= |c| && c[|c| - |last|..] == last
  {
    var c := EngineCommand(whisper, audioName, model, outputDir);
    var ws := [whisper, "audios/" + audioName] + Flags(model, outputDir);
    EngineCommandIsJoinedWords(whisper, audioName, model, outputDir);
    var last := ws[8];
    assert c == JoinWords(ws[..8]) + " " + last by {
      assert ws == ws[..8] + [ws[8]];
      JoinWordsSnoc(ws[..8], ws[8]);
    }
    var rest := JoinWords(ws[2..]);
    assert JoinWords(ws[1..]) == "audios/" + audioName + " " + rest by {
      assert ws[1..][1..] == ws[2..];
    }
    assert c == whisper + " " + ("audios/" + audioName + " " + rest);
    var head := whisper + " " + "audios/" + audioName + " ";
    assert c == head + rest;
  }
}
