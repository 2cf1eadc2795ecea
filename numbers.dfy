/**
 * .NET `int.TryParse(string, out int)` under the default `NumberStyles.Integer`:
 * optional leading and trailing white space, an optional `+` or `-` sign,
 * then one or more ASCII digits, with a value that fits in 32 bits.
 * `TryParse` stores 0 on failure; callers write `ParseInt32(s).GetOr(0)`.
 */
module Numbers {
  import opened Wrappers

  const Int32Min: int := -0x8000_0000
  const Int32Max: int := 0x7FFF_FFFF

  /** The white space `NumberStyles.AllowLeadingWhite`/`AllowTrailingWhite` accept. */
  predicate IsNumberWhite(c: char) {
    c == ' ' || ('\t' <= c <= '\r')
  }

  predicate IsDigit(c: char) { '0' <= c <= '9' }

  predicate AllDigits(s: string) {
    forall i :: 0 <= i < |s| ==> IsDigit(s[i])
  }

  function DigitValue(c: char): nat
    requires IsDigit(c)
  {
    c as int - '0' as int
  }

  /** The value of a string of decimal digits, most significant first. */
  function DigitsValue(s: string): nat
    requires AllDigits(s)
  {
    if s == [] then 0 else DigitsValue(s[..|s| - 1]) * 10 + DigitValue(s[|s| - 1])
  }

  function StripNumberWhite(s: string): string
    decreases |s|
  {
    if |s| > 0 && IsNumberWhite(s[0]) then StripNumberWhite(s[1..])
    else if |s| > 0 && IsNumberWhite(s[|s| - 1]) then StripNumberWhite(s[..|s| - 1])
    else s
  }

  function ParseInt32(s: string): (r: Option<int>)
    ensures r.Some? ==> Int32Min <= r.value <= Int32Max
  {
    var t := StripNumberWhite(s);
    var signed := |t| > 0 && (t[0] == '-' || t[0] == '+');
    var body := if signed then t[1..] else t;
    if body == [] || !AllDigits(body) then None
    else
      var v: int := if signed && t[0] == '-' then -(DigitsValue(body) as int) else DigitsValue(body);
      if Int32Min <= v <= Int32Max then Some(v) else None
  }

  function Pow10(w: nat): (r: nat)
    ensures r >= 1
  {
    if w == 0 then 1 else 10 * Pow10(w - 1)
  }

  function DigitChar(d: nat): (c: char)
    requires d < 10
    ensures IsDigit(c) && DigitValue(c) == d
  {
    ('0' as int + d) as char
  }

  /** The decimal digits of `n`, padded with leading zeros to at least `w` characters. */
  function Digits(n: nat, w: nat): (r: string)
    ensures |r| >= 1 && AllDigits(r)
    decreases n, w
  {
    if n < 10 && w <= 1 then [DigitChar(n)]
    else Digits(n / 10, if w > 0 then w - 1 else 0) + [DigitChar(n % 10)]
  }

  /** Reading back the digits written for `n` gives `n`. */
  lemma {:induction false} DigitsRoundTrip(n: nat, w: nat)
    ensures DigitsValue(Digits(n, w)) == n
    decreases n, w
  {
    if n < 10 && w <= 1 {
    } else {
      var w' := if w > 0 then w - 1 else 0;
      var r := Digits(n, w);
      DigitsRoundTrip(n / 10, w');
      assert r[..|r| - 1] == Digits(n / 10, w');
    }
  }

  /** A number below 10^w is written in exactly `w` padded digits. */
  lemma {:induction false} DigitsWidth(n: nat, w: nat)
    requires 1 <= w && n < Pow10(w)
    ensures |Digits(n, w)| == w
    decreases w
  {
    if n < 10 && w <= 1 {
    } else {
      if w > 1 {
        DigitsWidth(n / 10, w - 1);
      }
    }
  }

  /** The text .NET's `Int32.ToString()` produces (leading `-` for negatives). */
  function Show(k: int): (r: string)
  {
    if k < 0 then "-" + Digits(-k, 1) else Digits(k, 1)
  }

  lemma StripNoWhite(s: string)
    requires s == [] || (!IsNumberWhite(s[0]) && !IsNumberWhite(s[|s| - 1]))
    ensures StripNumberWhite(s) == s
  {
  }

  /** A non-empty string of digits parses to its value when that fits in 32 bits. */
  lemma ParseDigits(s: string)
    requires |s| > 0 && AllDigits(s) && DigitsValue(s) <= Int32Max
    ensures ParseInt32(s) == Some(DigitsValue(s))
  {
    StripNoWhite(s);
  }

  /** `int.TryParse` reads back every 32-bit value `Show` writes. */
  lemma ParseShow(k: int)
    requires Int32Min <= k <= Int32Max
    ensures ParseInt32(Show(k)) == Some(k)
  {
    var d := Digits(if k < 0 then -k else k, 1);
    DigitsRoundTrip(if k < 0 then -k else k, 1);
    var s := Show(k);
    StripNoWhite(s);
    if k < 0 {
      assert s[1..] == d;
    }
  }

  /**
   * What parses is an optional sign and one or more digits, surrounded by number
   * white space; the value is the digits' value with the sign applied.
   */
  lemma ParseSound(s: string, v: int)
    requires ParseInt32(s) == Some(v)
    ensures var t := StripNumberWhite(s);
      |t| > 0 &&
      var signed := t[0] == '-' || t[0] == '+';
      var body := if signed then t[1..] else t;
      |body| > 0 && AllDigits(body)
      && v == (if t[0] == '-' then -(DigitsValue(body) as int) else DigitsValue(body))
  {
  }

  /** Stripping white space from the ends keeps every other character. */
  lemma {:induction false} StripKeeps(s: string, i: nat)
    requires i < |s| && !IsNumberWhite(s[i])
    ensures exists j :: 0 <= j < |StripNumberWhite(s)| && StripNumberWhite(s)[j] == s[i]
    decreases |s|
  {
    if |s| > 0 && IsNumberWhite(s[0]) {
      assert s[1..][i - 1] == s[i];
      StripKeeps(s[1..], i - 1);
      assert StripNumberWhite(s) == StripNumberWhite(s[1..]);
    } else if |s| > 0 && IsNumberWhite(s[|s| - 1]) {
      assert s[..|s| - 1][i] == s[i];
      StripKeeps(s[..|s| - 1], i);
      assert StripNumberWhite(s) == StripNumberWhite(s[..|s| - 1]);
    } else {
      assert StripNumberWhite(s)[i] == s[i];
    }
  }

  /** A character that is no number white space, sign or digit makes parsing fail. */
  lemma ParseRejectsJunk(s: string, i: nat)
    requires i < |s|
    requires !IsNumberWhite(s[i]) && s[i] != '+' && s[i] != '-' && !IsDigit(s[i])
    ensures ParseInt32(s) == None
  {
    var t := StripNumberWhite(s);
    StripKeeps(s, i);
    var j :| 0 <= j < |t| && t[j] == s[i];
    if |t| > 0 && (t[0] == '-' || t[0] == '+') {
      assert t[1..][j - 1] == s[i];
    }
  }

  /** Surrounding number white space does not change what parses. */
  lemma ParseIgnoresPadding(s: string, c: char)
    requires IsNumberWhite(c)
    ensures ParseInt32([c] + s) == ParseInt32(s)
    ensures ParseInt32(s + [c]) == ParseInt32(s)
  {
    assert ([c] + s)[1..] == s;
    StripEnds(s, c);
  }

  lemma {:induction false} StripEnds(s: string, c: char)
    requires IsNumberWhite(c)
    ensures StripNumberWhite(s + [c]) == StripNumberWhite(s)
    decreases |s|
  {
    var t := s + [c];
    if |s| > 0 && IsNumberWhite(s[0]) {
      assert t[1..] == s[1..] + [c];
      StripEnds(s[1..], c);
    } else {
      assert t[..|t| - 1] == s;
    }
  }
}
