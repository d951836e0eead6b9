/**
 * The handful of Python `str` operations the agent backend relies on, on strings as
 * sequences of code points: `strip`, `rstrip(c)`, `split(sep)`, `sep.join`, `startswith`,
 * `endswith`, `rsplit(pat, 1)[0]`, `replace` of one character and prefix slicing `s[:n]`.
 */
module Text {
  import opened Wrappers

  /** Python's `str.isspace` for one code point. */
  predicate IsSpace(c: char) {
    var n := c as int;
    (9 <= n <= 13) || (28 <= n <= 32) || n == 0x85 || n == 0xA0 || n == 0x1680
    || (0x2000 <= n <= 0x200A) || n == 0x2028 || n == 0x2029 || n == 0x202F
    || n == 0x205F || n == 0x3000
  }

  predicate AllSpace(s: string) {
    forall i :: 0 <= i < |s| ==> IsSpace(s[i])
  }

  /** Neither begins nor ends with whitespace. */
  predicate Trimmed(s: string) {
    s == [] || (!IsSpace(s[0]) && !IsSpace(s[|s| - 1]))
  }

  /** `s.lstrip()`: drops the leading whitespace. */
  function TrimLeft(s: string): (r: string)
    ensures |r| <= |s|
    ensures r == [] || !IsSpace(r[0])
  {
    if s != [] && IsSpace(s[0]) then TrimLeft(s[1..]) else s
  }

  /** What `lstrip` keeps is the end of `s`, and what it drops is whitespace. */
  lemma {:induction false} TrimLeftSuffix(s: string)
    ensures var r := TrimLeft(s); r == s[|s| - |r|..] && AllSpace(s[..|s| - |r|])
  {
    if s != [] && IsSpace(s[0]) {
      TrimLeftSuffix(s[1..]);
      var r := TrimLeft(s[1..]);
      assert s[..|s| - |r|] == [s[0]] + s[1..][..|s| - 1 - |r|];
    }
  }

  /** `s.rstrip()`: drops the trailing whitespace. */
  function TrimRight(s: string): (r: string)
    ensures |r| <= |s|
    ensures r == [] || !IsSpace(r[|r| - 1])
  {
    if s != [] && IsSpace(s[|s| - 1]) then TrimRight(s[..|s| - 1]) else s
  }

  /** What `rstrip` keeps is the start of `s`, and what it drops is whitespace. */
  lemma {:induction false} TrimRightPrefix(s: string)
    ensures var r := TrimRight(s); r == s[..|r|] && AllSpace(s[|r|..])
  {
    if s != [] && IsSpace(s[|s| - 1]) {
      TrimRightPrefix(s[..|s| - 1]);
      var r := TrimRight(s[..|s| - 1]);
      assert s[|r|..] == s[..|s| - 1][|r|..] + [s[|s| - 1]];
    }
  }

  /** `s.strip()`: neither begins nor ends with whitespace. */
  function Strip(s: string): (r: string)
    ensures |r| <= |s| && Trimmed(r)
  {
    TrimRightPrefix(TrimLeft(s));
    TrimRight(TrimLeft(s))
  }

  lemma {:induction false} TrimLeftOfSpaces(a: string, b: string)
    requires AllSpace(a) && (b == [] || !IsSpace(b[0]))
    ensures TrimLeft(a + b) == b
  {
    if a != [] {
      assert (a + b)[1..] == a[1..] + b;
      TrimLeftOfSpaces(a[1..], b);
    }
  }

  lemma {:induction false} TrimRightOfSpaces(b: string, c: string)
    requires AllSpace(c) && (b == [] || !IsSpace(b[|b| - 1]))
    ensures TrimRight(b + c) == b
  {
    if c != [] {
      assert (b + c)[..|b + c| - 1] == b + c[..|c| - 1];
      TrimRightOfSpaces(b, c[..|c| - 1]);
    }
  }

  /** Stripping removes exactly the surrounding whitespace: the inner part comes back unchanged. */
  lemma StripSurrounded(a: string, b: string, c: string)
    requires AllSpace(a) && AllSpace(c) && Trimmed(b)
    ensures Strip(a + b + c) == b
  {
    if b == [] {
      assert a + b + c == a + c;
      assert AllSpace(a + c);
      TrimLeftOfSpaces(a + c, []);
      assert a + c + [] == a + c;
    } else {
      assert a + b + c == a + (b + c);
      TrimLeftOfSpaces(a, b + c);
      TrimRightOfSpaces(b, c);
    }
  }

  /** A string without surrounding whitespace is its own strip; in particular strip is idempotent. */
  lemma StripTrimmed(s: string)
    requires Trimmed(s)
    ensures Strip(s) == s
  {
    assert [] + s + [] == s;
    StripSurrounded([], s, []);
  }

  /** `s.rstrip(c)`: drops every trailing `c`. */
  function TrimRightChar(s: string, c: char): (r: string)
    ensures |r| <= |s| && r == s[..|r|]
    ensures forall i :: |r| <= i < |s| ==> s[i] == c
    ensures r == [] || r[|r| - 1] != c
  {
    if s != [] && s[|s| - 1] == c then TrimRightChar(s[..|s| - 1], c) else s
  }

  /** `s[:n]` for a non-negative `n`. */
  function Take(s: string, n: nat): (r: string)
    ensures |r| == if n <= |s| then n else |s|
    ensures r == s[..|r|]
  {
    if n <= |s| then s[..n] else s
  }

  predicate StartsWith(s: string, p: string) {
    |p| <= |s| && s[..|p|] == p
  }

  predicate EndsWith(s: string, p: string) {
    |p| <= |s| && s[|s| - |p|..] == p
  }

  /** `s.replace(a, b)` for single characters. */
  function ReplaceChar(s: string, a: char, b: char): (r: string)
    ensures |r| == |s|
    ensures forall i :: 0 <= i < |s| ==> r[i] == (if s[i] == a then b else s[i])
  {
    seq(|s|, i requires 0 <= i < |s| => if s[i] == a then b else s[i])
  }

  predicate OccursAt(s: string, pat: string, i: nat) {
    i + |pat| <= |s| && s[i..i + |pat|] == pat
  }

  /** The start of the last occurrence of `pat` in `s`, if any (Python's `s.rfind(pat)`). */
  function LastOccurrence(s: string, pat: string): (r: Option<nat>)
    ensures r.Some? ==> OccursAt(s, pat, r.value)
    ensures r.Some? ==> forall j: nat :: r.value < j ==> !OccursAt(s, pat, j)
    ensures r.None? ==> forall j: nat :: !OccursAt(s, pat, j)
    decreases |s|
  {
    if |s| < |pat| then None
    else if s[|s| - |pat|..] == pat then Some(|s| - |pat|)
    else
      var r := LastOccurrence(s[..|s| - 1], pat);
      OccursDropLast(s, pat);
      r
  }

  /** An occurrence in `s` without its last character is one in `s` that ends before that character. */
  lemma OccursDropLast(s: string, pat: string)
    requires s != []
    ensures forall j: nat :: OccursAt(s[..|s| - 1], pat, j) <==> OccursAt(s, pat, j) && j + |pat| < |s|
  {
    forall j: nat
      ensures OccursAt(s[..|s| - 1], pat, j) <==> OccursAt(s, pat, j) && j + |pat| < |s|
    {
      if j + |pat| < |s| {
        assert s[..|s| - 1][j..j + |pat|] == s[j..j + |pat|];
      }
    }
  }

  /** `s.rsplit(pat, 1)[0]`: everything before the last occurrence of `pat`, or all of `s`. */
  function BeforeLast(s: string, pat: string): string {
    match LastOccurrence(s, pat)
    case Some(i) => s[..i]
    case None => s
  }

  /** For a string that ends in `pat`, `rsplit` cuts off exactly that final `pat`. */
  lemma BeforeLastOfSuffix(x: string, pat: string)
    ensures BeforeLast(x + pat, pat) == x
  {
    assert OccursAt(x + pat, pat, |x|) by {
      assert (x + pat)[|x|..|x| + |pat|] == pat;
    }
    var r := LastOccurrence(x + pat, pat);
    assert r == Some(|x|);
    assert (x + pat)[..|x|] == x;
  }

  /** `s.split(sep)` with an explicit one-character separator: never empty, `"" -> [""]`. */
  function Split(s: string, sep: char): (parts: seq<string>)
    ensures |parts| >= 1
    ensures forall i :: 0 <= i < |parts| ==> sep !in parts[i]
    ensures |parts| <= |s| + 1
  {
    if s == [] then [""]
    else
      var rest := Split(s[1..], sep);
      if s[0] == sep then [""] + rest
      else [[s[0]] + rest[0]] + rest[1..]
  }

  /** `sep.join(parts)`. */
  function Join(parts: seq<string>, sep: char): string {
    if parts == [] then ""
    else if |parts| == 1 then parts[0]
    else parts[0] + [sep] + Join(parts[1..], sep)
  }

  /** Splitting and joining back on the same separator gives the original string. */
  lemma {:induction false} JoinSplit(s: string, sep: char)
    ensures Join(Split(s, sep), sep) == s
  {
    if s != [] {
      var rest := Split(s[1..], sep);
      JoinSplit(s[1..], sep);
      if s[0] == sep {
        assert Split(s, sep) == [""] + rest;
        assert ([""] + rest)[1..] == rest;
        assert Join(Split(s, sep), sep) == "" + [sep] + Join(rest, sep);
        assert s == [s[0]] + s[1..];
      } else {
        var parts := [[s[0]] + rest[0]] + rest[1..];
        assert Split(s, sep) == parts;
        if |rest| == 1 {
          assert Join(rest, sep) == rest[0];
          assert Join(parts, sep) == [s[0]] + rest[0];
        } else {
          assert parts[1..] == rest[1..];
          assert Join(rest, sep) == rest[0] + [sep] + Join(rest[1..], sep);
          assert Join(parts, sep) == [s[0]] + rest[0] + [sep] + Join(rest[1..], sep);
        }
        assert s == [s[0]] + s[1..];
      }
    }
  }

  lemma {:induction false} SplitNoSep(x: string, sep: char)
    requires sep !in x
    ensures Split(x, sep) == [x]
  {
    if x != [] {
      SplitNoSep(x[1..], sep);
      assert [x[0]] + x[1..] == x;
    }
  }

  lemma {:induction false} SplitAtSep(x: string, sep: char, rest: string)
    requires sep !in x
    ensures Split(x + [sep] + rest, sep) == [x] + Split(rest, sep)
  {
    if x == [] {
      assert x + [sep] + rest == [sep] + rest;
      assert ([sep] + rest)[1..] == rest;
    } else {
      var s := x + [sep] + rest;
      assert s[0] == x[0] && s[1..] == x[1..] + [sep] + rest;
      SplitAtSep(x[1..], sep, rest);
      assert [x[0]] + x[1..] == x;
    }
  }

  /** Joining pieces that do not contain the separator and splitting again gives the pieces back. */
  lemma {:induction false} SplitJoin(parts: seq<string>, sep: char)
    requires |parts| >= 1
    requires forall i :: 0 <= i < |parts| ==> sep !in parts[i]
    ensures Split(Join(parts, sep), sep) == parts
  {
    if |parts| == 1 {
      SplitNoSep(parts[0], sep);
    } else {
      SplitJoin(parts[1..], sep);
      SplitAtSep(parts[0], sep, Join(parts[1..], sep));
      assert [parts[0]] + parts[1..] == parts;
    }
  }
}
