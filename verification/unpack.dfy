/** The "strip a single wrapper folder" rule of `moveToExtractPath` in
    src/Command/Upgrade.php. An archive unpacked into a scratch directory
    either holds one visible top-level entry (a wrapper folder, as source
    archives produce) whose contents become the build, or several entries,
    in which case the scratch directory itself becomes the build. Entries
    whose name starts with `.` (including `.` and `..`) are not counted.
    The listing is what `scandir($dir, 1)` returns: every name, in
    descending byte order. */
module Unpack {
  import Strings

  /** `substr($folder, 0, 1) !== '.'`. */
  predicate Visible(name: string)
  {
    |name| == 0 || name[0] != '.'
  }

  /** The visible entries, in listing order. */
  function Visibles(entries: seq<string>): (vs: seq<string>)
    ensures |vs| <= |entries|
    ensures forall k | 0 <= k < |vs| :: Visible(vs[k]) && vs[k] in entries
  {
    if |entries| == 0 then []
    else if Visible(entries[0]) then [entries[0]] + Visibles(entries[1..])
    else Visibles(entries[1..])
  }

  /** Entry `i` is the one and only visible entry. */
  ghost predicate SoleVisibleAt(entries: seq<string>, i: int)
  {
    && 0 <= i < |entries|
    && Visible(entries[i])
    && forall j | 0 <= j < |entries| && j != i :: !Visible(entries[j])
  }

  lemma {:induction false} NoVisibles(entries: seq<string>)
    requires forall j | 0 <= j < |entries| :: !Visible(entries[j])
    ensures Visibles(entries) == []
  {
    if |entries| > 0 {
      NoVisibles(entries[1..]);
    }
  }

  lemma {:induction false} SoleVisibleIsFiltered(entries: seq<string>, i: int)
    requires SoleVisibleAt(entries, i)
    ensures Visibles(entries) == [entries[i]]
  {
    if i == 0 {
      NoVisibles(entries[1..]);
    } else {
      SoleVisibleIsFiltered(entries[1..], i - 1);
    }
  }

  lemma {:induction false} OneFilteredIsSole(entries: seq<string>)
    requires |Visibles(entries)| == 1
    ensures exists i :: SoleVisibleAt(entries, i) && Visibles(entries) == [entries[i]]
  {
    if Visible(entries[0]) {
      assert |Visibles(entries[1..])| == 0;
      forall j | 1 <= j < |entries|
        ensures !Visible(entries[j])
      {
        if Visible(entries[j]) {
          VisibleIsFiltered(entries[1..], j - 1);
        }
      }
      assert SoleVisibleAt(entries, 0);
    } else {
      OneFilteredIsSole(entries[1..]);
      var i :| SoleVisibleAt(entries[1..], i) && Visibles(entries[1..]) == [entries[1..][i]];
      assert SoleVisibleAt(entries, i + 1);
    }
  }

  lemma {:induction false} VisibleIsFiltered(entries: seq<string>, j: int)
    requires 0 <= j < |entries| && Visible(entries[j])
    ensures |Visibles(entries)| > 0
  {
    if j > 0 && !Visible(entries[0]) {
      VisibleIsFiltered(entries[1..], j - 1);
    }
  }

  /** The directory that is moved to the extract path, with the wrapper taken
      as the one visible entry. */
  function DirToMove(tempDir: string, entries: seq<string>): string
  {
    var vs := Visibles(entries);
    if |vs| == 1 then tempDir + "/" + vs[0] else tempDir
  }

  /** Exactly one visible entry means that entry is moved; otherwise the
      scratch directory itself is. */
  lemma WrapperStripped(tempDir: string, entries: seq<string>)
    ensures forall i | SoleVisibleAt(entries, i) :: DirToMove(tempDir, entries) == tempDir + "/" + entries[i]
    ensures (forall i :: !SoleVisibleAt(entries, i)) ==> DirToMove(tempDir, entries) == tempDir
  {
    forall i | SoleVisibleAt(entries, i)
      ensures DirToMove(tempDir, entries) == tempDir + "/" + entries[i]
    {
      SoleVisibleIsFiltered(entries, i);
    }
    if |Visibles(entries)| == 1 {
      OneFilteredIsSole(entries);
    }
  }

  /** `moveToExtractPath` as written: `array_filter` keeps the original keys,
      and the code reads key 0, which holds the visible entry only when it
      is the first name listed; otherwise key 0 is unset and reads as the
      empty string. */
  function DirToMoveAsWritten(tempDir: string, entries: seq<string>): string
  {
    if |Visibles(entries)| == 1 then
      tempDir + "/" + (if |entries| > 0 && Visible(entries[0]) then entries[0] else "")
    else tempDir
  }

  /** When the visible entry is listed first, as it is for names starting
      with a letter or digit, the code as written agrees with the rule. */
  lemma AsWrittenAgreesWhenListedFirst(tempDir: string, entries: seq<string>)
    requires |entries| > 0 && Visible(entries[0])
    ensures DirToMoveAsWritten(tempDir, entries) == DirToMove(tempDir, entries)
  {
  }

  /** A wrapper named `-build` lists after `..` and `.` in descending byte
      order, so key 0 is unset: the code moves `<tempDir>/` (the whole
      scratch directory, wrapper included) instead of the wrapper. */
  lemma AsWrittenMissesLowWrapper(tempDir: string)
    ensures Strings.SortedDescending(["..", ".", "-build"])
    ensures DirToMoveAsWritten(tempDir, ["..", ".", "-build"]) == tempDir + "/"
    ensures DirToMove(tempDir, ["..", ".", "-build"]) == tempDir + "/-build"
  {
    var entries := ["..", ".", "-build"];
    assert Strings.Below(".", "..") by {
      assert Strings.Below("", ".");
    }
    assert Strings.Below("-build", ".");
    assert entries[1..] == [".", "-build"] && entries[1..][1..] == ["-build"];
    assert entries[1..][1..][1..] == [];
    assert Visibles(entries) == ["-build"];
  }
}
