/** The test double of tests/MockRunCmd.php: an ordered table of
    (pattern, canned output) pairs tried against each command, falling back to
    the real runner when none matches. Regular-expression matching is left
    uninterpreted: it is the parameter `matches(pattern, command)`. */
module MockRunner {
  import Runner

  /** What `MockRunCmd::call` hands back to its caller. */
  datatype Reply =
    | Canned(output: string)   // a table entry matched
    | Null                     // delegated to the real runner, which succeeded; nothing is returned
    | Threw(message: string)   // delegated to the real runner, which raised `CmdFailedException`

  /** Entry `i` is the first whose pattern matches `cmd`. */
  ghost predicate FirstMatchAt(table: seq<(string, string)>, matches: (string, string) -> bool, cmd: string, i: int)
  {
    && 0 <= i < |table|
    && matches(table[i].0, cmd)
    && forall j | 0 <= j < i :: !matches(table[j].0, cmd)
  }

  /** `MockRunCmd::call`. On a match the canned text plus a line feed is both
      passed once to the callback and returned, and the real runner is not
      involved; otherwise the real runner sees the command (here: its chunks
      and exit status) and its output reaches the callback, but its result
      is not returned. */
  method Call(table: seq<(string, string)>, matches: (string, string) -> bool, cmd: string,
              realChunks: seq<string>, realExit: int)
    returns (r: Reply, echoed: seq<string>)
    ensures r.Canned? <==> exists i | 0 <= i < |table| :: matches(table[i].0, cmd)
    ensures r.Canned? ==> exists i :: FirstMatchAt(table, matches, cmd, i) && r.output == table[i].1 + "\n"
    ensures r.Canned? ==> echoed == [r.output]
    ensures !r.Canned? ==> echoed == realChunks
    ensures r.Null? <==> !r.Canned? && realExit == 0
    ensures r.Threw? ==> r.message == Runner.FailureMessage(realExit, Runner.Concat(realChunks))
  {
    var i := 0;
    while i < |table|
      invariant 0 <= i <= |table|
      invariant forall j | 0 <= j < i :: !matches(table[j].0, cmd)
    {
      if matches(table[i].0, cmd) {
        var output := table[i].1 + "\n";
        assert FirstMatchAt(table, matches, cmd, i);
        return Canned(output), [output];
      }
      i := i + 1;
    }
    var res;
    res, echoed := Runner.Call(realChunks, realExit);
    match res
    case Succeeded(_) =>
      r := Null;
    case CmdFailed(m) =>
      r := Threw(m);
  }
}
