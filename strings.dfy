/** The two functions of Go's `strings` package that the library calls:
    `strings.Join` (to build the token of a bound sequence and the result of
    `Concat`) and `strings.TrimSpace` (to normalise the rendered statement). */
module GoStrings {

  /** Go's `unicode.IsSpace`: the Latin-1 spaces plus the characters with the
      Unicode White_Space property above Latin-1. */
  predicate IsSpace(c: char)
  {
    || c == ' ' || ('\t' <= c <= '\r')
    || c == '\U{85}' || c == '\U{A0}' || c == '\U{1680}'
    || ('\U{2000}' <= c <= '\U{200A}')
    || c == '\U{2028}' || c == '\U{2029}' || c == '\U{202F}' || c == '\U{205F}' || c == '\U{3000}'
  }

  ghost predicate AllSpace(s: string)
  {
    forall i :: 0 <= i < |s| ==> IsSpace(s[i])
  }

  /** A string with no white space at either end. */
  ghost predicate IsTrimmed(s: string)
  {
    s == [] || (!IsSpace(s[0]) && !IsSpace(s[|s| - 1]))
  }

  /** Go's `strings.Join`: the parts in order, `sep` between neighbours. */
  function Join(parts: seq<string>, sep: string): string
  {
    if |parts| == 0 then ""
    else if |parts| == 1 then parts[0]
    else Join(parts[..|parts| - 1], sep) + sep + parts[|parts| - 1]
  }

  /** Reference definition of plain concatenation, front to back. */
  ghost function Concatenation(parts: seq<string>): string
  {
    if parts == [] then "" else parts[0] + Concatenation(parts[1..])
  }

  /** Joining two non-empty lists is joining their joins. */
  lemma {:induction false} JoinAppend(a: seq<string>, b: seq<string>, sep: string)
    requires |a| > 0 && |b| > 0
    ensures Join(a + b, sep) == Join(a, sep) + sep + Join(b, sep)
  {
    if |b| == 1 {
      assert (a + b)[..|a + b| - 1] == a;
    } else {
      var b' := b[..|b| - 1];
      assert (a + b)[..|a + b| - 1] == a + b';
      JoinAppend(a, b', sep);
    }
  }

  /** With an empty separator, `Join` is plain concatenation. */
  lemma {:induction false} JoinEmptySeparator(parts: seq<string>)
    ensures Join(parts, "") == Concatenation(parts)
  {
    if |parts| > 1 {
      var rest := parts[1..];
      assert parts == [parts[0]] + rest;
      JoinAppend([parts[0]], rest, "");
      JoinEmptySeparator(rest);
    }
  }

  /** Concatenation of a split list is the concatenation of the two halves. */
  lemma {:induction false} ConcatenationAppend(a: seq<string>, b: seq<string>)
    ensures Concatenation(a + b) == Concatenation(a) + Concatenation(b)
  {
    if a != [] {
      assert (a + b)[1..] == a[1..] + b;
      ConcatenationAppend(a[1..], b);
    } else {
      assert a + b == b;
    }
  }

  /** The number of white-space characters at the start of `s`. */
  function LeadingSpaces(s: string): (k: nat)
    ensures k <= |s|
    ensures forall i :: 0 <= i < k ==> IsSpace(s[i])
    ensures k < |s| ==> !IsSpace(s[k])
  {
    if s == [] || !IsSpace(s[0]) then 0 else 1 + LeadingSpaces(s[1..])
  }

  /** The number of white-space characters at the end of `s`. */
  function TrailingSpaces(s: string): (k: nat)
    ensures k <= |s|
    ensures forall i :: |s| - k <= i < |s| ==> IsSpace(s[i])
    ensures k < |s| ==> !IsSpace(s[|s| - 1 - k])
  {
    if s == [] || !IsSpace(s[|s| - 1]) then 0 else 1 + TrailingSpaces(s[..|s| - 1])
  }

  /** Go's `strings.TrimSpace`: drop leading, then trailing, white space.
      The result is a contiguous piece of `s`, everything cut off is white
      space, and the result has no white space at either end. */
  function TrimSpace(s: string): (r: string)
    ensures IsTrimmed(r)
    ensures exists i :: 0 <= i <= |s| - |r| && r == s[i..i + |r|] && AllSpace(s[..i]) && AllSpace(s[i + |r|..])
  {
    var i := LeadingSpaces(s);
    var rest := s[i..];
    var r := rest[..|rest| - TrailingSpaces(rest)];
    assert r == s[i..i + |r|];
    assert AllSpace(s[..i]);
    assert s[i + |r|..] == rest[|rest| - TrailingSpaces(rest)..];
    assert AllSpace(s[i + |r|..]);
    r
  }

  /** `TrimSpace` finds the one decomposition of its input into white space,
      a trimmed middle and white space. */
  lemma TrimSpaceUnique(p: string, m: string, q: string)
    requires AllSpace(p) && IsTrimmed(m) && AllSpace(q)
    ensures TrimSpace(p + m + q) == m
  {
    var s := p + m + q;
    var i := LeadingSpaces(s);
    if m == [] {
      assert AllSpace(s);
      assert i == |s|;
    } else {
      assert s[|p|] == m[0];
      assert i == |p|;
      var rest := s[i..];
      assert rest == m + q;
      var k := TrailingSpaces(rest);
      assert rest[|m| - 1] == m[|m| - 1];
      assert k == |q|;
      assert rest[..|rest| - k] == m;
    }
  }

  /** Trimming twice is trimming once. */
  lemma TrimSpaceIdempotent(s: string)
    ensures TrimSpace(TrimSpace(s)) == TrimSpace(s)
  {
    var r := TrimSpace(s);
    assert r == [] + r + [];
    TrimSpaceUnique([], r, []);
  }
}
