/** String helpers shared by the process runner and the upgrade model: the
    suffix test, PHP's `trim`, joining and splitting on one character,
    `basename`, decimal rendering of integers and the byte order `scandir`
    sorts by. */
module Strings {

  // ---------------------------------------------------------------------------
  // Suffixes

  /** The last `n` characters of `h`, or all of `h` when it is shorter:
      what PHP's `substr($h, -$n)` returns for a positive `n`. */
  function Tail(h: string, n: nat): (t: string)
    ensures |t| == if n <= |h| then n else |h|
    ensures h == h[..|h| - |t|] + t
  {
    if n <= |h| then h[|h| - n..] else h
  }

  /** `endsWith` in Upgrade.php: an empty needle always matches, otherwise the
      tail of the haystack must equal the needle exactly. */
  function EndsWith(haystack: string, needle: string): bool
  {
    if |needle| == 0 then true else Tail(haystack, |needle|) == needle
  }

  /** The reference notion of "suffix", independent of any index arithmetic. */
  ghost predicate IsSuffix(needle: string, haystack: string)
  {
    exists k: string :: haystack == k + needle
  }

  lemma EndsWithIsSuffix(haystack: string, needle: string)
    ensures EndsWith(haystack, needle) <==> IsSuffix(needle, haystack)
  {
    if EndsWith(haystack, needle) {
      var k := haystack[..|haystack| - |Tail(haystack, |needle|)|];
      if |needle| == 0 {
        assert haystack == haystack + needle;
      } else {
        assert haystack == k + needle;
      }
    }
    if IsSuffix(needle, haystack) {
      var k: string :| haystack == k + needle;
      if |needle| > 0 {
        assert haystack[|haystack| - |needle|..] == needle;
      }
    }
  }

  // ---------------------------------------------------------------------------
  // trim

  /** The characters PHP's `trim` strips by default: space, tab, line feed,
      carriage return, NUL and vertical tab. */
  predicate IsBlank(c: char)
  {
    c == ' ' || c == '\t' || c == '\n' || c == '\r' || c as int == 0 || c as int == 11
  }

  predicate AllBlank(s: string)
  {
    forall i | 0 <= i < |s| :: IsBlank(s[i])
  }

  /** The end of the run of blanks that starts at `i`. */
  function BlanksFrom(s: string, i: nat): (n: nat)
    requires i <= |s|
    ensures i <= n <= |s|
    ensures forall k | i <= k < n :: IsBlank(s[k])
    ensures n < |s| ==> !IsBlank(s[n])
    decreases |s| - i
  {
    if i < |s| && IsBlank(s[i]) then BlanksFrom(s, i + 1) else i
  }

  /** The start of the run of blanks that ends at `j`, not going below `lo`. */
  function BlanksBefore(s: string, lo: nat, j: nat): (n: nat)
    requires lo <= j <= |s|
    ensures lo <= n <= j
    ensures forall k | n <= k < j :: IsBlank(s[k])
    ensures n > lo ==> !IsBlank(s[n - 1])
    decreases j
  {
    if j > lo && IsBlank(s[j - 1]) then BlanksBefore(s, lo, j - 1) else j
  }

  /** PHP `trim`: the input with its leading and trailing blanks removed and
      nothing else changed. */
  function Trim(s: string): (r: string)
    ensures exists i, j | 0 <= i <= j <= |s| :: r == s[i..j] && AllBlank(s[..i]) && AllBlank(s[j..])
    ensures |r| == 0 || (!IsBlank(r[0]) && !IsBlank(r[|r| - 1]))
  {
    var i := BlanksFrom(s, 0);
    var j := BlanksBefore(s, i, |s|);
    assert AllBlank(s[..i]) && AllBlank(s[j..]);
    s[i..j]
  }

  /** Trimming twice is trimming once. */
  lemma TrimIdempotent(s: string)
    ensures Trim(Trim(s)) == Trim(s)
  {
    var t := Trim(s);
    assert BlanksFrom(t, 0) == 0;
    assert BlanksBefore(t, 0, |t|) == |t|;
  }

  // ---------------------------------------------------------------------------
  // join / split on one character

  /** PHP `join(sep, xs)` for a one-character separator. */
  function Join(xs: seq<string>, sep: char): string
  {
    if |xs| == 0 then ""
    else if |xs| == 1 then xs[0]
    else xs[0] + [sep] + Join(xs[1..], sep)
  }

  /** The position of the first occurrence of `c` in `s`. */
  function FirstIndex(s: string, c: char): (i: nat)
    requires c in s
    ensures i < |s| && s[i] == c && c !in s[..i]
  {
    if s[0] == c then 0 else 1 + FirstIndex(s[1..], c)
  }

  /** Cutting `s` at every occurrence of `sep`, the inverse of `Join`. */
  function Split(s: string, sep: char): (parts: seq<string>)
    ensures |parts| >= 1
    decreases |s|
  {
    if sep !in s then [s]
    else
      var i := FirstIndex(s, sep);
      [s[..i]] + Split(s[i + 1..], sep)
  }

  lemma FirstIndexOfConcat(x: string, c: char, y: string)
    requires c !in x
    ensures c in x + [c] + y && FirstIndex(x + [c] + y, c) == |x|
  {
    var s := x + [c] + y;
    assert s[|x|] == c;
  }

  /** Cutting at the first `c` is unambiguous. */
  lemma CutAtFirst(x1: string, y1: string, x2: string, y2: string, c: char)
    requires c !in x1 && c !in x2
    requires x1 + [c] + y1 == x2 + [c] + y2
    ensures x1 == x2 && y1 == y2
  {
    var s := x1 + [c] + y1;
    FirstIndexOfConcat(x1, c, y1);
    FirstIndexOfConcat(x2, c, y2);
    assert x1 == s[..|x1|] && x2 == s[..|x2|];
    assert y1 == s[|x1| + 1..] && y2 == s[|x2| + 1..];
  }

  /** Splitting a join of separator-free pieces gives the pieces back. */
  lemma {:induction false} SplitJoin(xs: seq<string>, sep: char)
    requires |xs| >= 1
    requires forall k | 0 <= k < |xs| :: sep !in xs[k]
    ensures Split(Join(xs, sep), sep) == xs
  {
    if |xs| == 1 {
      assert Join(xs, sep) == xs[0];
    } else {
      var rest := Join(xs[1..], sep);
      var s := xs[0] + [sep] + rest;
      assert Join(xs, sep) == s;
      FirstIndexOfConcat(xs[0], sep, rest);
      assert s[..|xs[0]|] == xs[0];
      assert s[|xs[0]| + 1..] == rest;
      assert Split(s, sep) == [xs[0]] + Split(rest, sep);
      SplitJoin(xs[1..], sep);
      assert xs == [xs[0]] + xs[1..];
    }
  }

  // ---------------------------------------------------------------------------
  // basename

  /** Everything after the last `/`. */
  function AfterLastSlash(p: string): (r: string)
    ensures '/' !in r
  {
    if |p| == 0 || p[|p| - 1] == '/' then ""
    else AfterLastSlash(p[..|p| - 1]) + [p[|p| - 1]]
  }

  function StripTrailingSlashes(p: string): string
  {
    if |p| > 0 && p[|p| - 1] == '/' then StripTrailingSlashes(p[..|p| - 1]) else p
  }

  /** PHP `basename` on a `/`-separated path: trailing slashes are ignored and
      the last component is returned. */
  function Basename(p: string): (r: string)
    ensures '/' !in r
  {
    AfterLastSlash(StripTrailingSlashes(p))
  }

  lemma {:induction false} AfterLastSlashOfComponent(dir: string, name: string)
    requires '/' !in name
    ensures AfterLastSlash(dir + "/" + name) == name
    decreases |name|
  {
    var p := dir + "/" + name;
    if |name| == 0 {
      assert p[|p| - 1] == '/';
    } else {
      var init := name[..|name| - 1];
      assert p[..|p| - 1] == dir + "/" + init;
      AfterLastSlashOfComponent(dir, init);
      assert name == init + [name[|name| - 1]];
    }
  }

  /** The basename of `dir/name` is `name` for a non-empty, slash-free name. */
  lemma BasenameOfChild(dir: string, name: string)
    requires |name| > 0 && '/' !in name
    ensures Basename(dir + "/" + name) == name
  {
    var p := dir + "/" + name;
    assert p[|p| - 1] == name[|name| - 1];
    assert StripTrailingSlashes(p) == p;
    AfterLastSlashOfComponent(dir, name);
  }

  // ---------------------------------------------------------------------------
  // Decimal integers

  function DigitChar(d: nat): (c: char)
    requires d < 10
  {
    "0123456789"[d]
  }

  predicate IsDigit(c: char)
  {
    '0' <= c <= '9'
  }

  function DigitValue(c: char): nat
    requires IsDigit(c)
  {
    c as nat - '0' as nat
  }

  /** The decimal rendering of a natural number, most significant digit first. */
  function NatToString(n: nat): (s: string)
    ensures |s| >= 1 && forall k | 0 <= k < |s| :: IsDigit(s[k])
  {
    if n < 10 then [DigitChar(n)] else NatToString(n / 10) + [DigitChar(n % 10)]
  }

  /** Reads a string of decimal digits back as a number. */
  function ParseNat(s: string): nat
    requires forall k | 0 <= k < |s| :: IsDigit(s[k])
  {
    if |s| == 0 then 0 else 10 * ParseNat(s[..|s| - 1]) + DigitValue(s[|s| - 1])
  }

  lemma {:induction false} ParseNatToString(n: nat)
    ensures ParseNat(NatToString(n)) == n
  {
    var s := NatToString(n);
    if n < 10 {
      assert s[..0] == "";
    } else {
      assert s[..|s| - 1] == NatToString(n / 10);
      ParseNatToString(n / 10);
    }
  }

  /** PHP's rendering of an integer in a string: a minus sign before negative values. */
  function IntToString(n: int): (s: string)
    ensures '.' !in s && '\n' !in s
  {
    if n < 0 then "-" + NatToString(-n) else NatToString(n)
  }

  function ParseInt(s: string): int
    requires |s| >= 1
    requires forall k | 1 <= k < |s| :: IsDigit(s[k])
    requires s[0] == '-' || IsDigit(s[0])
  {
    if s[0] == '-' then 0 - ParseNat(s[1..]) else ParseNat(s)
  }

  /** The rendering is lossless: the number can be read back. */
  lemma ParseIntToString(n: int)
    ensures ParseInt(IntToString(n)) == n
  {
    var s := IntToString(n);
    if n < 0 {
      var d := NatToString(-n);
      assert s == "-" + d && s[1..] == d;
      ParseNatToString(-n);
    } else {
      ParseNatToString(n);
    }
  }

  lemma IntToStringInjective(a: int, b: int)
    requires IntToString(a) == IntToString(b)
    ensures a == b
  {
    ParseIntToString(a);
    ParseIntToString(b);
  }

  // ---------------------------------------------------------------------------
  // Byte order

  /** `a` sorts strictly before `b` under a byte-wise comparison (C `strcmp`). */
  predicate Below(a: string, b: string)
  {
    if |a| == 0 then |b| > 0
    else if |b| == 0 then false
    else if a[0] != b[0] then a[0] < b[0]
    else Below(a[1..], b[1..])
  }

  /** Strictly descending byte order, the order `scandir($dir, 1)` lists entries in. */
  ghost predicate SortedDescending(names: seq<string>)
  {
    forall k | 0 <= k < |names| - 1 :: Below(names[k + 1], names[k])
  }
}
