/**
 * The .NET string operations the core relies on, over `seq<char>`:
 * `Char.IsWhiteSpace`, `string.IsNullOrWhiteSpace`, `Trim`, ordinal `StartsWith`,
 * `Replace(pattern, "")`, `Split(char[])`, `string.Join` and decimal formatting of numbers.
 */
module Strings {

  /** `Char.IsWhiteSpace`: the Unicode space separators (Zs, Zl, Zp) plus U+0009 to U+000D and U+0085. */
  predicate IsWhiteSpace(c: char) {
    c == ' ' || ('\t' <= c <= '\r') || c == '\U{85}' || c == '\U{A0}' || c == '\U{1680}'
    || ('\U{2000}' <= c <= '\U{200A}') || c == '\U{2028}' || c == '\U{2029}'
    || c == '\U{202F}' || c == '\U{205F}' || c == '\U{3000}'
  }

  /** `string.IsNullOrWhiteSpace` for a non-null string: empty or whitespace only. */
  predicate IsBlank(s: string) {
    forall i :: 0 <= i < |s| ==> IsWhiteSpace(s[i])
  }

  /** Drops the leading whitespace. */
  function TrimStart(s: string): (r: string)
    ensures |r| <= |s| && r == s[|s| - |r|..]
    ensures forall i :: 0 <= i < |s| - |r| ==> IsWhiteSpace(s[i])
    ensures r == [] || !IsWhiteSpace(r[0])
    decreases |s|
  {
    if |s| > 0 && IsWhiteSpace(s[0]) then TrimStart(s[1..]) else s
  }

  /** Drops the trailing whitespace. */
  function TrimEnd(s: string): (r: string)
    ensures |r| <= |s| && r == s[..|r|]
    ensures forall i :: |r| <= i < |s| ==> IsWhiteSpace(s[i])
    ensures r == [] || !IsWhiteSpace(r[|r| - 1])
    decreases |s|
  {
    if |s| > 0 && IsWhiteSpace(s[|s| - 1]) then TrimEnd(s[..|s| - 1]) else s
  }

  /** `String.Trim()`: the longest infix that neither starts nor ends with whitespace. */
  function Trim(s: string): (r: string)
    ensures r == [] || (!IsWhiteSpace(r[0]) && !IsWhiteSpace(r[|r| - 1]))
    ensures r == [] <==> IsBlank(s)
  {
    var t := TrimStart(s);
    var r := TrimEnd(t);
    assert r == [] ==> t == [];
    r
  }

  /** A string counts as trimmed when trimming leaves it as it is. */
  predicate IsTrimmed(s: string) {
    s == [] || (!IsWhiteSpace(s[0]) && !IsWhiteSpace(s[|s| - 1]))
  }

  lemma TrimOfTrimmed(s: string)
    requires IsTrimmed(s)
    ensures Trim(s) == s
  {
    assert TrimStart(s) == s;
    assert TrimEnd(s) == s;
  }

  /** Trimming is idempotent: every result of `Trim` is trimmed. */
  lemma TrimIdempotent(s: string)
    ensures IsTrimmed(Trim(s)) && Trim(Trim(s)) == Trim(s)
  {
    TrimOfTrimmed(Trim(s));
  }

  /** Ordinal `s.StartsWith(p)`. */
  predicate StartsWith(s: string, p: string) {
    |p| <= |s| && s[..|p|] == p
  }

  /** Ordinal `s.Contains(p)`: some suffix of `s` starts with `p`. */
  predicate Contains(s: string, p: string) {
    exists i :: 0 <= i <= |s| && StartsWith(s[i..], p)
  }

  /** Three strings joined end to end: the first is a prefix, the last a suffix, and the lengths add up. */
  lemma AppendShape(head: string, middle: string, tail: string)
    ensures var r := head + middle + tail;
      StartsWith(r, head) && |r| == |head| + |middle| + |tail| && r[|r| - |tail|..] == tail
  {
    var r := head + middle + tail;
    assert r[..|head|] == head;
    assert r[|r| - |tail|..] == tail;
  }

  /** A piece placed between others can be read back from its offset. */
  lemma InfixAt(head: string, before: string, piece: string, after: string, tail: string)
    ensures var r := head + (before + piece + after) + tail;
      var at := |head| + |before|;
      |r| >= at + |piece| && r[at..at + |piece|] == piece
  {
    var r := head + (before + piece + after) + tail;
    var at := |head| + |before|;
    forall i | 0 <= i < |piece| ensures r[at + i] == piece[i] {
      assert r[at + i] == (before + piece + after)[|before| + i];
    }
  }

  /** A string shorter than `p` cannot contain it. */
  lemma ShorterNotContains(s: string, p: string)
    requires |s| < |p|
    ensures !Contains(s, p)
  {
  }

  /** Ordinal `s.Replace(p, "")`: one left-to-right pass that deletes every non-overlapping occurrence of `p`. */
  function RemoveAll(s: string, p: string): string
    requires p != []
    decreases |s|
  {
    if s == [] then []
    else if StartsWith(s, p) then RemoveAll(s[|p|..], p)
    else [s[0]] + RemoveAll(s[1..], p)
  }

  /** Deleting a pattern that does not occur changes nothing. */
  lemma {:induction false} RemoveAllAbsent(s: string, p: string)
    requires p != [] && !Contains(s, p)
    ensures RemoveAll(s, p) == s
    decreases |s|
  {
    if s != [] {
      assert s[0..] == s;
      assert !StartsWith(s, p);
      assert !Contains(s[1..], p) by {
        forall i | 0 <= i <= |s[1..]| ensures s[1..][i..] == s[i + 1..] {}
      }
      RemoveAllAbsent(s[1..], p);
    }
  }

  /** Deleting `p` from `p + n` recovers `n` whenever `n` does not itself contain `p`. */
  lemma RemovePrefixInverse(p: string, n: string)
    requires p != [] && !Contains(n, p)
    ensures RemoveAll(p + n, p) == n
  {
    assert StartsWith(p + n, p);
    assert (p + n)[|p|..] == n;
    RemoveAllAbsent(n, p);
  }

  /** No character of `x` is one of `seps`. */
  predicate NoneOf(x: string, seps: set<char>) {
    forall c :: c in x ==> c !in seps
  }

  /** `s.Split(seps)`: the pieces between separators, empty pieces included, so always at least one. */
  function SplitOn(s: string, seps: set<char>): (r: seq<string>)
    ensures |r| >= 1
    ensures forall k :: 0 <= k < |r| ==> NoneOf(r[k], seps)
    decreases |s|
  {
    if s == [] then [""]
    else
      var rest := SplitOn(s[1..], seps);
      if s[0] in seps then [""] + rest else [[s[0]] + rest[0]] + rest[1..]
  }

  /** `string.Join(sep, xs)`. */
  function Join(xs: seq<string>, sep: string): string
    decreases |xs|
  {
    if xs == [] then ""
    else if |xs| == 1 then xs[0]
    else xs[0] + sep + Join(xs[1..], sep)
  }

  lemma {:induction false} SplitWithoutSeparator(a: string, seps: set<char>)
    requires NoneOf(a, seps)
    ensures SplitOn(a, seps) == [a]
    decreases |a|
  {
    if a != [] {
      assert a[0] in a;
      SplitWithoutSeparator(a[1..], seps);
      assert [a[0]] + a[1..] == a;
    }
  }

  lemma {:induction false} SplitAtSeparator(a: string, c: char, b: string, seps: set<char>)
    requires NoneOf(a, seps) && c in seps
    ensures SplitOn(a + [c] + b, seps) == [a] + SplitOn(b, seps)
    decreases |a|
  {
    if a == [] {
      assert a + [c] + b == [c] + b;
      assert ([c] + b)[1..] == b;
    } else {
      assert a[0] in a;
      SplitAtSeparator(a[1..], c, b, seps);
      assert (a + [c] + b)[1..] == a[1..] + [c] + b;
      assert [a[0]] + a[1..] == a;
    }
  }

  /** Splitting on a separator undoes joining with it, when no piece contains a separator. */
  lemma {:induction false} SplitJoin(xs: seq<string>, c: char, seps: set<char>)
    requires |xs| >= 1 && c in seps
    requires forall k :: 0 <= k < |xs| ==> NoneOf(xs[k], seps)
    ensures SplitOn(Join(xs, [c]), seps) == xs
    decreases |xs|
  {
    if |xs| == 1 {
      SplitWithoutSeparator(xs[0], seps);
    } else {
      SplitJoin(xs[1..], c, seps);
      assert Join(xs, [c]) == xs[0] + [c] + Join(xs[1..], [c]);
      SplitAtSeparator(xs[0], c, Join(xs[1..], [c]), seps);
      assert [xs[0]] + xs[1..] == xs;
    }
  }

  /** Splitting never introduces a character: a character absent from `s` is absent from every piece. */
  lemma {:induction false} SplitOnKeepsAbsent(s: string, seps: set<char>, absent: set<char>)
    requires NoneOf(s, absent)
    ensures forall k :: 0 <= k < |SplitOn(s, seps)| ==> NoneOf(SplitOn(s, seps)[k], absent)
    decreases |s|
  {
    if s != [] {
      assert s[0] in s;
      assert forall c :: c in s[1..] ==> c in s;
      SplitOnKeepsAbsent(s[1..], seps, absent);
    }
  }

  /** Trimming never introduces a character. */
  lemma TrimKeepsAbsent(s: string, absent: set<char>)
    requires NoneOf(s, absent)
    ensures NoneOf(Trim(s), absent)
  {
    var t := TrimStart(s);
    assert forall c :: c in t ==> c in s;
    assert forall c :: c in TrimEnd(t) ==> c in t;
  }

  /** ASCII case folding, the part of .NET's invariant lower-casing that the model's patterns need. */
  function LowerAscii(c: char): char {
    if 'A' <= c <= 'Z' then (c as int + 32) as char else c
  }

  function DigitChar(d: nat): char
    requires d < 10
  {
    "0123456789"[d]
  }

  /** `n` in decimal, left-padded with zeros to `width` digits. */
  function Padded(n: nat, width: nat): (r: string)
    ensures |r| >= width
    ensures forall c :: c in r ==> '0' <= c <= '9'
    decreases width + n
  {
    if n < 10 && width <= 1 then [DigitChar(n)]
    else Padded(n / 10, if width == 0 then 0 else width - 1) + [DigitChar(n % 10)]
  }

  /** Padding is exact for a number that fits the width. */
  lemma {:induction false} PaddedLength(n: nat, width: nat, bound: nat)
    requires width >= 1 && bound == Power10(width) && n < bound
    ensures |Padded(n, width)| == width
    decreases width
  {
    if !(n < 10 && width <= 1) {
      PaddedLength(n / 10, width - 1, Power10(width - 1));
    }
  }

  function Power10(k: nat): (r: nat)
    ensures r >= 1
  {
    if k == 0 then 1 else 10 * Power10(k - 1)
  }

  /** `n.ToString()` for a non-negative integer: its decimal digits without padding. */
  function Decimal(n: nat): string {
    Padded(n, 1)
  }
}
