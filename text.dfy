/**
 * The handful of Python string operations the parser and the key resolver
 * rely on: `str.lower`, `str.upper`, `str.strip`, `in`, `endswith`,
 * `str.replace`, `int()` on digit strings and `float()` on tokens made of
 * digits and dots.  Characters are modelled over ASCII (see README).
 */
module Text {
  import opened Wrappers

  /** Python's `str.isspace` (and the regex class `\s`) restricted to ASCII. */
  predicate IsSpace(c: char) {
    (9 <= c as int <= 13) || (28 <= c as int <= 32)
  }

  /** The regex class `\d` restricted to ASCII. */
  predicate IsDigit(c: char) {
    '0' <= c <= '9'
  }

  predicate AllDigits(s: string) {
    forall i :: 0 <= i < |s| ==> IsDigit(s[i])
  }

  /** A string `\d+` matches in full. */
  predicate Numeral(s: string) {
    |s| > 0 && AllDigits(s)
  }

  /** A string `-?\d+` matches in full. */
  predicate SignedNumeral(s: string) {
    Numeral(s) || (|s| > 1 && s[0] == '-' && Numeral(s[1..]))
  }

  /** A string `[0-9.]+` matches in full. */
  predicate DecimalToken(s: string) {
    |s| > 0 && forall i :: 0 <= i < |s| ==> IsDigit(s[i]) || s[i] == '.'
  }

  function LowerChar(c: char): char {
    if 'A' <= c <= 'Z' then (c as int + 32) as char else c
  }

  function UpperChar(c: char): char {
    if 'a' <= c <= 'z' then (c as int - 32) as char else c
  }

  /** `str.lower()`: every character lowered, none added or removed. */
  function Lower(s: string): (r: string)
    ensures |r| == |s|
    ensures forall i :: 0 <= i < |s| ==> r[i] == LowerChar(s[i])
    ensures forall i :: 0 <= i < |r| ==> !('A' <= r[i] <= 'Z')
  {
    if s == [] then [] else Lower(s[..|s| - 1]) + [LowerChar(s[|s| - 1])]
  }

  /** `str.upper()`. */
  function Upper(s: string): (r: string)
    ensures |r| == |s|
    ensures forall i :: 0 <= i < |s| ==> r[i] == UpperChar(s[i])
  {
    if s == [] then [] else Upper(s[..|s| - 1]) + [UpperChar(s[|s| - 1])]
  }

  /** `str.lstrip()`: drops the leading run of white space and nothing else. */
  function StripStart(s: string): (r: string)
    ensures |r| <= |s| && r == s[|s| - |r|..]
    ensures forall i :: 0 <= i < |s| - |r| ==> IsSpace(s[i])
    ensures r == [] || !IsSpace(r[0])
  {
    if s != [] && IsSpace(s[0]) then StripStart(s[1..]) else s
  }

  /** `str.rstrip()`: drops the trailing run of white space and nothing else. */
  function StripEnd(s: string): (r: string)
    ensures |r| <= |s| && r == s[..|r|]
    ensures forall i :: |r| <= i < |s| ==> IsSpace(s[i])
    ensures r == [] || !IsSpace(r[|r| - 1])
  {
    if s != [] && IsSpace(s[|s| - 1]) then StripEnd(s[..|s| - 1]) else s
  }

  /** `str.strip()`. */
  function Strip(s: string): string {
    StripEnd(StripStart(s))
  }

  /** `w` occurs in `s` starting at index `i`. */
  predicate At(s: string, i: int, w: string) {
    0 <= i && i + |w| <= |s| && s[i..i + |w|] == w
  }

  /** Python's `w in s`. */
  predicate Contains(s: string, w: string) {
    exists i | 0 <= i <= |s| :: At(s, i, w)
  }

  /** A text that lacks one character of `w` does not contain `w`. */
  lemma AbsentChar(s: string, w: string, j: nat)
    requires j < |w| && w[j] !in s
    ensures !Contains(s, w)
  {
  }


  /** An occurrence inside a slice is an occurrence in the whole string. */
  lemma ContainsInSlice(s: string, a: int, b: int, w: string)
    requires 0 <= a <= b <= |s| && Contains(s[a..b], w)
    ensures Contains(s, w)
  {
    var i :| 0 <= i <= b - a && At(s[a..b], i, w);
    assert i + |w| <= b - a;
    forall k | 0 <= k < |w|
      ensures s[a + i..a + i + |w|][k] == w[k]
    {
      assert s[a..b][i..i + |w|][k] == w[k];
    }
    assert At(s, a + i, w);
  }

  /** `s.endswith(c)` for a one-character suffix. */
  predicate EndsWith(s: string, c: char) {
    |s| > 0 && s[|s| - 1] == c
  }

  /** `s.replace(a, b)` for single characters. */
  function ReplaceChar(s: string, a: char, b: char): (r: string)
    ensures |r| == |s|
    ensures forall i :: 0 <= i < |s| ==> r[i] == (if s[i] == a then b else s[i])
  {
    if s == [] then [] else ReplaceChar(s[..|s| - 1], a, b) + [if s[|s| - 1] == a then b else s[|s| - 1]]
  }

  /** The index just past the run of white space that starts at `i`. */
  function SpaceEnd(s: string, i: nat): (j: nat)
    requires i <= |s|
    ensures i <= j <= |s|
    ensures forall k :: i <= k < j ==> IsSpace(s[k])
    ensures j == |s| || !IsSpace(s[j])
    decreases |s| - i
  {
    if i < |s| && IsSpace(s[i]) then SpaceEnd(s, i + 1) else i
  }

  /** The index just past the run of digits that starts at `i`. */
  function DigitEnd(s: string, i: nat): (j: nat)
    requires i <= |s|
    ensures i <= j <= |s|
    ensures AllDigits(s[i..j])
    ensures j == |s| || !IsDigit(s[j])
    decreases |s| - i
  {
    if i < |s| && IsDigit(s[i]) then DigitEnd(s, i + 1) else i
  }

  /** The index just past the run of digits and dots that starts at `i`. */
  function DecimalEnd(s: string, i: nat): (j: nat)
    requires i <= |s|
    ensures i <= j <= |s|
    ensures forall k :: i <= k < j ==> IsDigit(s[k]) || s[k] == '.'
    ensures j == |s| || !(IsDigit(s[j]) || s[j] == '.')
    decreases |s| - i
  {
    if i < |s| && (IsDigit(s[i]) || s[i] == '.') then DecimalEnd(s, i + 1) else i
  }

  function DigitValue(c: char): nat
    requires IsDigit(c)
  {
    c as int - '0' as int
  }

  /** `int(s)` for a string of decimal digits (the empty string reads as 0). */
  function DigitsValue(s: string): nat
    requires AllDigits(s)
  {
    if s == [] then 0 else 10 * DigitsValue(s[..|s| - 1]) + DigitValue(s[|s| - 1])
  }

  /** `int(s)` for a string that `-?\d+` matches. */
  function IntValue(s: string): int
    requires SignedNumeral(s)
  {
    if s[0] == '-' then -(DigitsValue(s[1..]) as int) else DigitsValue(s)
  }

  function Pow10(n: nat): (p: nat)
    ensures p >= 1
  {
    if n == 0 then 1 else 10 * Pow10(n - 1)
  }

  /** The index of the first dot in `s`, or `|s|` when there is none. */
  function FirstDot(s: string): (k: nat)
    ensures k <= |s|
    ensures forall i :: 0 <= i < k ==> s[i] != '.'
    ensures k < |s| ==> s[k] == '.'
  {
    if s == [] then 0 else if s[0] == '.' then 0 else 1 + FirstDot(s[1..])
  }

  /**
   * `float(s)` for a token of digits and dots: `None` where Python raises
   * ValueError, that is when the token has two dots or no digit at all.
   */
  function DecimalValue(s: string): (r: Option<real>)
    requires DecimalToken(s)
    ensures r.Some? ==> r.value >= 0.0
  {
    var k := FirstDot(s);
    var whole := s[..k];
    if k == |s| then Some(DigitsValue(s) as real)
    else
      var fraction := s[k + 1..];
      if FirstDot(fraction) < |fraction| || (whole == [] && fraction == []) then None
      else
        var part := DigitsValue(fraction) as real / Pow10(|fraction|) as real;
        assert part >= 0.0 by {
          QuotientNonNegative(DigitsValue(fraction) as real, Pow10(|fraction|) as real);
        }
        Some(DigitsValue(whole) as real + part)
  }

  lemma QuotientNonNegative(a: real, b: real)
    requires a >= 0.0 && b > 0.0
    ensures a / b >= 0.0
  {
    assert (a / b) * b == a;
  }

  /** `float()` accepts a digit-and-dot token exactly when it has one dot at most and a digit. */
  lemma DecimalValueAccepts(s: string)
    requires DecimalToken(s)
    ensures DecimalValue(s).Some? <==>
      (exists i :: 0 <= i < |s| && IsDigit(s[i])) &&
      (forall i, j :: 0 <= i < j < |s| && s[i] == '.' ==> s[j] != '.')
  {
    var k := FirstDot(s);
    if k < |s| {
      var fraction := s[k + 1..];
      var m := FirstDot(fraction);
      if m < |fraction| {
        assert s[k] == '.' && s[k + 1 + m] == '.';
      } else if k == 0 && fraction == [] {
        assert |s| == 1 && s[0] == '.';
      } else if k > 0 {
        assert IsDigit(s[0]);
      } else {
        assert IsDigit(s[1]);
      }
    } else {
      assert IsDigit(s[0]);
    }
  }
}
