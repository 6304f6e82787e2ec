/** The process runner of src/Command/RunCmd.php. A child process is seen as
    the sequence of chunks its output stream yields (each `fread` up to end of
    file) followed by the status `pclose` reports; `popen` itself is outside
    the model. The output callback is recorded as the sequence of values it
    was called with. */
module Runner {
  import Strings

  /** What running one shell command yields: its accumulated output, or the
      message of the `CmdFailedException` it raised. */
  datatype CmdResult = Succeeded(output: string) | CmdFailed(message: string)

  /** The in-order concatenation of the chunks read. */
  function Concat(chunks: seq<string>): string
  {
    if |chunks| == 0 then "" else chunks[0] + Concat(chunks[1..])
  }

  lemma {:induction false} ConcatSnoc(chunks: seq<string>, c: string)
    ensures Concat(chunks + [c]) == Concat(chunks) + c
  {
    if |chunks| == 0 {
      assert chunks + [c] == [c];
    } else {
      assert (chunks + [c])[1..] == chunks[1..] + [c];
      ConcatSnoc(chunks[1..], c);
    }
  }

  const FailurePrefix := "cmd failed with exit code "
  const FailureMiddle := ". Output is\n"

  /** The message of the exception raised for a non-zero exit status. */
  function FailureMessage(exitCode: int, output: string): string
  {
    FailurePrefix + Strings.IntToString(exitCode) + FailureMiddle + output
  }

  /** `RunCmd::call`: reads every chunk, appending it to the accumulated
      output and handing it to the callback, then maps a non-zero exit status
      to a failure carrying the status and the whole output. */
  method Call(chunks: seq<string>, exitCode: int) returns (r: CmdResult, echoed: seq<string>)
    ensures echoed == chunks
    ensures r.Succeeded? <==> exitCode == 0
    ensures r.Succeeded? ==> r.output == Concat(chunks)
    ensures r.CmdFailed? ==> r.message == FailureMessage(exitCode, Concat(chunks))
  {
    var allOutput := "";
    echoed := [];
    var i := 0;
    while i < |chunks|
      invariant 0 <= i <= |chunks|
      invariant allOutput == Concat(chunks[..i])
      invariant echoed == chunks[..i]
    {
      var output := chunks[i];
      ConcatSnoc(chunks[..i], output);
      assert chunks[..i + 1] == chunks[..i] + [output];
      allOutput := allOutput + output;
      echoed := echoed + [output];
      i := i + 1;
    }
    assert chunks[..i] == chunks;
    if exitCode != 0 {
      r := CmdFailed(FailureMessage(exitCode, allOutput));
    } else {
      r := Succeeded(allOutput);
    }
  }

  lemma FailureMessageShape(code: int, output: string)
    ensures FailureMessage(code, output)
         == FailurePrefix + (Strings.IntToString(code) + ['.'] + (FailureMiddle[1..] + output))
  {
    assert FailureMiddle == ['.'] + FailureMiddle[1..];
  }

  /** The failure message loses nothing: the exit status and the full output
      can both be recovered from it. */
  lemma FailureMessageDetermines(code1: int, out1: string, code2: int, out2: string)
    requires FailureMessage(code1, out1) == FailureMessage(code2, out2)
    ensures code1 == code2 && out1 == out2
  {
    var m := FailureMessage(code1, out1);
    var a1, a2 := Strings.IntToString(code1), Strings.IntToString(code2);
    var y1, y2 := FailureMiddle[1..] + out1, FailureMiddle[1..] + out2;
    FailureMessageShape(code1, out1);
    FailureMessageShape(code2, out2);
    var n := |FailurePrefix|;
    assert m[n..] == a1 + ['.'] + y1;
    assert m[n..] == a2 + ['.'] + y2;
    Strings.CutAtFirst(a1, y1, a2, y2, '.');
    Strings.IntToStringInjective(code1, code2);
    assert out1 == y1[|FailureMiddle| - 1..];
    assert out2 == y2[|FailureMiddle| - 1..];
  }
}
