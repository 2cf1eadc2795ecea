/**
 * The string primitives the chart decoder relies on: .NET `String.Trim`,
 * ordinal `StartsWith`, and `ToUpper` restricted to ASCII letters.
 */
module Text {

  /** The characters .NET's `Char.IsWhiteSpace` accepts, which `String.Trim` removes. */
  predicate IsWhiteSpace(c: char) {
    var k := c as int;
    (0x09 <= k <= 0x0D) || k == 0x20 || k == 0x85 || k == 0xA0 || k == 0x1680
    || (0x2000 <= k <= 0x200A) || k == 0x2028 || k == 0x2029 || k == 0x202F
    || k == 0x205F || k == 0x3000
  }

  /** A string that neither starts nor ends with white space. */
  predicate IsTrimmed(s: string) {
    s == [] || (!IsWhiteSpace(s[0]) && !IsWhiteSpace(s[|s| - 1]))
  }

  /** The index of the first character at or after `i` that is not white space. */
  function SkipWhite(s: string, i: nat): (j: nat)
    requires i <= |s|
    ensures i <= j <= |s|
    ensures forall k :: i <= k < j ==> IsWhiteSpace(s[k])
    ensures j == |s| || !IsWhiteSpace(s[j])
    decreases |s| - i
  {
    if i < |s| && IsWhiteSpace(s[i]) then SkipWhite(s, i + 1) else i
  }

  /** The end of `s[lo..j]` once its trailing white space is dropped. */
  function SkipWhiteBack(s: string, lo: nat, j: nat): (e: nat)
    requires lo <= j <= |s|
    ensures lo <= e <= j
    ensures forall k :: e <= k < j ==> IsWhiteSpace(s[k])
    ensures e == lo || !IsWhiteSpace(s[e - 1])
    decreases j
  {
    if j > lo && IsWhiteSpace(s[j - 1]) then SkipWhiteBack(s, lo, j - 1) else j
  }

  /** .NET `String.Trim()`: white space removed from both ends. */
  function Trim(s: string): (r: string)
    ensures IsTrimmed(r)
    ensures |r| <= |s|
  {
    var i := SkipWhite(s, 0);
    s[i..SkipWhiteBack(s, i, |s|)]
  }

  /** Trim changes exactly the strings that are not already trimmed. */
  lemma TrimFixedPoint(s: string)
    ensures Trim(s) == s <==> IsTrimmed(s)
  {
    if IsTrimmed(s) {
      assert SkipWhite(s, 0) == 0;
      assert s[0..|s|] == s;
    }
  }

  lemma {:induction false} SkipWhiteStops(s: string, m: nat, i: nat)
    requires m <= i <= |s|
    requires forall k :: m <= k < i ==> IsWhiteSpace(s[k])
    requires i == |s| || !IsWhiteSpace(s[i])
    ensures SkipWhite(s, m) == i
    decreases i - m
  {
    if m < i {
      SkipWhiteStops(s, m + 1, i);
    }
  }

  lemma {:induction false} SkipWhiteBackStops(s: string, lo: nat, e: nat, j: nat)
    requires lo <= e <= j <= |s|
    requires forall k :: e <= k < j ==> IsWhiteSpace(s[k])
    requires e == lo || !IsWhiteSpace(s[e - 1])
    ensures SkipWhiteBack(s, lo, j) == e
    decreases j
  {
    if e < j {
      SkipWhiteBackStops(s, lo, e, j - 1);
    }
  }

  /**
   * Trim removes white space and nothing else: whenever `s` is white space,
   * then a trimmed `s[i..j]`, then white space, `Trim(s)` is `s[i..j]`.
   */
  lemma TrimUnique(s: string, i: nat, j: nat)
    requires i <= j <= |s|
    requires forall k :: 0 <= k < i ==> IsWhiteSpace(s[k])
    requires forall k :: j <= k < |s| ==> IsWhiteSpace(s[k])
    requires IsTrimmed(s[i..j])
    ensures Trim(s) == s[i..j]
  {
    if i < j {
      assert s[i..j][0] == s[i] && s[i..j][j - i - 1] == s[j - 1];
      SkipWhiteStops(s, 0, i);
      SkipWhiteBackStops(s, i, j, |s|);
    } else {
      SkipWhiteStops(s, 0, |s|);
      SkipWhiteBackStops(s, |s|, |s|, |s|);
    }
  }

  /** Trimming twice is the same as trimming once. */
  lemma TrimIdempotent(s: string)
    ensures Trim(Trim(s)) == Trim(s)
  {
    TrimFixedPoint(Trim(s));
  }

  /** Ordinal prefix test (`String.StartsWith`). */
  predicate StartsWith(s: string, prefix: string) {
    |prefix| <= |s| && s[..|prefix|] == prefix
  }

  /** `s` starts with `prefix` exactly when it is `prefix` followed by something. */
  lemma StartsWithSpec(s: string, prefix: string)
    ensures StartsWith(s, prefix) <==> exists rest :: s == prefix + rest
  {
    if StartsWith(s, prefix) {
      assert s == prefix + s[|prefix|..];
    }
    if exists rest :: s == prefix + rest {
      var rest :| s == prefix + rest;
      assert s[..|prefix|] == prefix;
    }
  }

  predicate IsLowerAscii(c: char) { 'a' <= c <= 'z' }

  /** `Char.ToUpper` on ASCII letters; every other character is left as it is. */
  function UpperChar(c: char): (r: char)
    ensures !IsLowerAscii(r)
    ensures !IsLowerAscii(c) ==> r == c
  {
    if IsLowerAscii(c) then (c as int - 32) as char else c
  }

  /** `String.ToUpper`, character by character. */
  function Upper(s: string): (r: string)
    ensures |r| == |s|
    ensures forall i :: 0 <= i < |s| ==> r[i] == UpperChar(s[i])
  {
    seq(|s|, i requires 0 <= i < |s| => UpperChar(s[i]))
  }

  /** No lower-case ASCII letter occurs in `s`. */
  predicate IsUpper(s: string) {
    forall i :: 0 <= i < |s| ==> !IsLowerAscii(s[i])
  }

  /** Upper-casing yields an upper-case string, and it fixes exactly the upper-case strings. */
  lemma UpperSpec(s: string)
    ensures IsUpper(Upper(s))
    ensures Upper(s) == s <==> IsUpper(s)
    ensures Upper(Upper(s)) == Upper(s)
  {
    if Upper(s) == s {
      assert forall i :: 0 <= i < |s| ==> !IsLowerAscii(Upper(s)[i]);
    }
  }
}
