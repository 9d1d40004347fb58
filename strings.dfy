/**
 * The pieces of Go's `strings` and `strconv` packages that the core relies on,
 * on `seq<char>`. Go indexes strings by byte and this model by character; the
 * two agree on the ASCII text the core searches for.
 */
module Strings {

  /** `p` occurs in `s` starting at index `i`. */
  predicate OccursAt(s: string, p: string, i: nat) {
    i + |p| <= |s| && s[i..i + |p|] == p
  }

  /** strings.Contains */
  predicate Contains(s: string, p: string) {
    exists i: nat | i <= |s| - |p| :: OccursAt(s, p, i)
  }

  /** `i` is the first index at which `p` occurs in `s`. */
  predicate FirstAt(s: string, p: string, i: nat) {
    OccursAt(s, p, i) && forall j: nat :: j < i ==> !OccursAt(s, p, j)
  }

  /** strings.HasPrefix */
  predicate HasPrefix(s: string, x: string) {
    |x| <= |s| && s[..|x|] == x
  }

  /** strings.HasSuffix */
  predicate HasSuffix(s: string, x: string) {
    |x| <= |s| && s[|s| - |x|..] == x
  }

  /** The first occurrence of `p` in `s` at or after `from`, or -1. */
  function IndexFrom(s: string, p: string, from: nat): (r: int)
    requires from <= |s|
    ensures r == -1 || (from <= r && OccursAt(s, p, r))
    ensures forall j: nat :: from <= j && (r == -1 || j < r) ==> !OccursAt(s, p, j)
    decreases |s| - from
  {
    if from + |p| > |s| then -1
    else if s[from..from + |p|] == p then from
    else IndexFrom(s, p, from + 1)
  }

  /** strings.Index: the first occurrence of `p` in `s`, or -1 when there is none. */
  function IndexOf(s: string, p: string): (r: int)
    ensures r >= -1
    ensures r == -1 <==> !Contains(s, p)
    ensures r != -1 ==> FirstAt(s, p, r)
  {
    IndexFrom(s, p, 0)
  }

  /** strings.Replace(s, from, to, 1): the first occurrence of `from`, if any, becomes `to`. */
  function ReplaceFirst(s: string, from: string, to: string): (r: string)
    ensures !Contains(s, from) ==> r == s
    ensures Contains(s, from) ==> |r| == |s| - |from| + |to|
    ensures Contains(s, from) ==> r == s[..IndexOf(s, from)] + to + s[IndexOf(s, from) + |from|..]
  {
    var i := IndexOf(s, from);
    if i == -1 then s else s[..i] + to + s[i + |from|..]
  }

  lemma OccursContains(s: string, p: string, i: nat)
    requires OccursAt(s, p, i)
    ensures Contains(s, p)
  {
  }

  /** An occurrence in `b` is an occurrence in `a + b + c`, shifted by `|a|`. */
  lemma ContainsInfix(a: string, b: string, c: string, p: string)
    requires Contains(b, p)
    ensures Contains(a + b + c, p)
  {
    var i: nat :| i <= |b| - |p| && OccursAt(b, p, i);
    assert (a + b + c)[|a| + i..|a| + i + |p|] == b[i..i + |p|];
    OccursContains(a + b + c, p, |a| + i);
  }

  /** A string contains every prefix of every string it contains. */
  lemma ContainsPrefix(s: string, p: string, q: string)
    requires Contains(s, p + q)
    ensures Contains(s, p)
  {
    var i: nat :| i <= |s| - |p + q| && OccursAt(s, p + q, i);
    assert s[i..i + |p|] == (p + q)[..|p|];
    OccursContains(s, p, i);
  }

  /** unicode.IsSpace: the characters strings.TrimSpace removes. */
  predicate IsSpace(c: char) {
    || c == ' ' || c == '\t' || c == '\n' || c == '\r' || c == '\U{000B}' || c == '\U{000C}'
    || c == '\U{0085}' || c == '\U{00A0}' || c == '\U{1680}'
    || ('\U{2000}' <= c <= '\U{200A}')
    || c == '\U{2028}' || c == '\U{2029}' || c == '\U{202F}' || c == '\U{205F}' || c == '\U{3000}'
  }

  predicate AllSpace(s: string) {
    forall k | 0 <= k < |s| :: IsSpace(s[k])
  }

  /** Drops the leading white space: what is left is a suffix starting with a non-space. */
  function TrimLeft(s: string): (r: string)
    ensures |r| <= |s| && r == s[|s| - |r|..] && AllSpace(s[..|s| - |r|])
    ensures r == [] || !IsSpace(r[0])
  {
    if |s| > 0 && IsSpace(s[0]) then
      var r := TrimLeft(s[1..]);
      assert s[1..][|s| - 1 - |r|..] == s[|s| - |r|..];
      SpacePrefixCons(s, |s| - 1 - |r|);
      r
    else s
  }

  /** A space followed by a run of spaces is a run of spaces. */
  lemma SpacePrefixCons(s: string, m: nat)
    requires m < |s| && IsSpace(s[0]) && AllSpace(s[1..][..m])
    ensures AllSpace(s[..m + 1])
  {
    var p := s[..m + 1];
    forall k | 1 <= k < |p|
      ensures IsSpace(p[k])
    {
      assert p[k] == s[1..][..m][k - 1];
    }
  }

  /** Drops the trailing white space: what is left is a prefix ending with a non-space. */
  function TrimRight(s: string): (r: string)
    ensures |r| <= |s| && r == s[..|r|] && AllSpace(s[|r|..])
    ensures r == [] || !IsSpace(r[|r| - 1])
  {
    if |s| > 0 && IsSpace(s[|s| - 1]) then
      var r := TrimRight(s[..|s| - 1]);
      SpaceSuffixSnoc(s, |r|);
      r
    else s
  }

  /** A run of spaces followed by a space is a run of spaces. */
  lemma SpaceSuffixSnoc(s: string, m: nat)
    requires m < |s| && IsSpace(s[|s| - 1]) && AllSpace(s[..|s| - 1][m..])
    ensures AllSpace(s[m..])
  {
    forall k | 0 <= k < |s| - m - 1
      ensures IsSpace(s[m..][k])
    {
      assert s[m..][k] == s[..|s| - 1][m..][k];
    }
  }

  /** `r` is `s` with white space only before index `i` and after `i + |r|`. */
  predicate TrimmedAt(s: string, r: string, i: nat) {
    i + |r| <= |s| && r == s[i..i + |r|] && AllSpace(s[..i]) && AllSpace(s[i + |r|..])
  }

  /** strings.TrimSpace */
  function TrimSpace(s: string): (r: string)
    ensures exists i: nat :: TrimmedAt(s, r, i)
    ensures r == [] || (!IsSpace(r[0]) && !IsSpace(r[|r| - 1]))
  {
    var l := TrimLeft(s);
    var r := TrimRight(l);
    TrimmedBothEnds(s, l, r);
    r
  }

  /** Trimming the right of the left-trimmed string leaves white space only at both ends. */
  lemma TrimmedBothEnds(s: string, l: string, r: string)
    requires |l| <= |s| && l == s[|s| - |l|..] && AllSpace(s[..|s| - |l|])
    requires l == [] || !IsSpace(l[0])
    requires |r| <= |l| && r == l[..|r|] && AllSpace(l[|r|..])
    requires r == [] || !IsSpace(r[|r| - 1])
    ensures TrimmedAt(s, r, |s| - |l|) && exists i: nat :: TrimmedAt(s, r, i)
    ensures r == [] || (!IsSpace(r[0]) && !IsSpace(r[|r| - 1]))
  {
    assert r != [] ==> r[0] == l[0];
    assert s[|s| - |l| + |r|..] == l[|r|..];
    assert s[|s| - |l|..|s| - |l| + |r|] == l[..|r|];
    var i: nat := |s| - |l|;
    assert TrimmedAt(s, r, i);
  }

  /** strings.Join */
  function Join(parts: seq<string>, sep: string): string {
    if |parts| == 0 then ""
    else if |parts| == 1 then parts[0]
    else parts[0] + sep + Join(parts[1..], sep)
  }

  /** strings.Split(s, [sep]): the pieces between separators, which Join puts back together. */
  function Split(s: string, sep: char): (r: seq<string>)
    ensures |r| >= 1
    ensures forall k | 0 <= k < |r| :: sep !in r[k]
    ensures Join(r, [sep]) == s
  {
    if |s| == 0 then [""]
    else
      var rest := Split(s[1..], sep);
      if s[0] == sep then
        SplitAtSeparator(s, sep, rest);
        [""] + rest
      else
        SplitInsidePiece(s, sep, rest);
        [[s[0]] + rest[0]] + rest[1..]
  }

  /** A leading separator ends an empty first piece. */
  lemma SplitAtSeparator(s: string, sep: char, rest: seq<string>)
    requires |s| > 0 && s[0] == sep && |rest| >= 1
    requires forall k | 0 <= k < |rest| :: sep !in rest[k]
    requires Join(rest, [sep]) == s[1..]
    ensures forall k | 0 <= k < |[""] + rest| :: sep !in ([""] + rest)[k]
    ensures Join([""] + rest, [sep]) == s
  {
    var r := [""] + rest;
    assert r[1..] == rest;
    assert s == [sep] + s[1..];
  }

  /** Any other leading character joins the first piece. */
  lemma SplitInsidePiece(s: string, sep: char, rest: seq<string>)
    requires |s| > 0 && s[0] != sep && |rest| >= 1
    requires forall k | 0 <= k < |rest| :: sep !in rest[k]
    requires Join(rest, [sep]) == s[1..]
    ensures var r := [[s[0]] + rest[0]] + rest[1..];
            (forall k | 0 <= k < |r| :: sep !in r[k]) && Join(r, [sep]) == s
  {
    var r := [[s[0]] + rest[0]] + rest[1..];
    assert r[1..] == rest[1..];
    assert s == [s[0]] + s[1..];
    if |rest| == 1 {
      assert Join(r, [sep]) == [s[0]] + rest[0];
    } else {
      assert Join(rest, [sep]) == rest[0] + [sep] + Join(rest[1..], [sep]);
      assert Join(r, [sep]) == [s[0]] + rest[0] + [sep] + Join(rest[1..], [sep]);
    }
  }

  /** strings.Repeat(string(c), n) */
  function Repeat(c: char, n: nat): (r: string)
    ensures |r| == n && forall k | 0 <= k < n :: r[k] == c
  {
    if n == 0 then "" else [c] + Repeat(c, n - 1)
  }

  predicate IsDigit(c: char) {
    '0' <= c <= '9'
  }

  function DigitChar(d: nat): (c: char)
    requires d < 10
    ensures IsDigit(c) && c as int - '0' as int == d
  {
    ('0' as int + d) as char
  }

  /** strconv.Itoa (the `%d` verb) on a natural number: decimal digits, no leading zero. */
  function Itoa(n: nat): (r: string)
    ensures |r| >= 1 && forall k | 0 <= k < |r| :: IsDigit(r[k])
    ensures |r| > 1 ==> r[0] != '0'
  {
    if n < 10 then [DigitChar(n)] else Itoa(n / 10) + [DigitChar(n % 10)]
  }

  /** The value of a string of decimal digits. */
  function Atoi(s: string): nat
    requires forall k | 0 <= k < |s| :: IsDigit(s[k])
  {
    if |s| == 0 then 0
    else
      assert IsDigit(s[|s| - 1]);
      Atoi(s[..|s| - 1]) * 10 + (s[|s| - 1] as int - '0' as int)
  }

  /** Reading back the digits Itoa writes gives the number: distinct counts print distinctly. */
  lemma {:induction false} AtoiItoa(n: nat)
    ensures Atoi(Itoa(n)) == n
  {
    if n >= 10 {
      AtoiItoa(n / 10);
      var s := Itoa(n);
      assert s[..|s| - 1] == Itoa(n / 10);
    }
  }
}
