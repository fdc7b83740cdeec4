/**
 * String helpers used by the model: decimal rendering of naturals (JavaScript's
 * `${n}` for a non-negative integer), its inverse, `padStart(2, '0')`, and a
 * first-index search used to split identifiers.
 */
module Text {
  import opened Wrappers

  predicate IsDigit(c: char) { '0' <= c <= '9' }

  /** Lower-case base-36 digits, the alphabet of `Number.prototype.toString(36)`. */
  predicate IsBase36(c: char) { IsDigit(c) || 'a' <= c <= 'z' }

  predicate AllDigits(s: string) { forall i :: 0 <= i < |s| ==> IsDigit(s[i]) }

  predicate AllBase36(s: string) { forall i :: 0 <= i < |s| ==> IsBase36(s[i]) }

  function DigitChar(d: nat): (c: char)
    requires d < 10
    ensures IsDigit(c) && c as int - '0' as int == d
  {
    ('0' as int + d) as char
  }

  function DigitValue(c: char): (d: nat)
    requires IsDigit(c)
    ensures d < 10 && DigitChar(d) == c
  {
    c as int - '0' as int
  }

  /** The decimal rendering of n, most significant digit first, without leading zeros. */
  function NatToDecimal(n: nat): (s: string)
    ensures |s| >= 1 && AllDigits(s)
    ensures |s| == 1 <==> n < 10
    ensures s[0] != '0' || n == 0
  {
    if n < 10 then [DigitChar(n)] else NatToDecimal(n / 10) + [DigitChar(n % 10)]
  }

  /** The number a non-empty string of decimal digits denotes. */
  function DecimalValue(s: string): nat
    requires AllDigits(s)
  {
    if |s| == 0 then 0 else 10 * DecimalValue(s[..|s| - 1]) + DigitValue(s[|s| - 1])
  }

  /** Parses a decimal natural; None for the empty string or any non-digit. */
  function ParseNat(s: string): (r: Option<nat>)
    ensures r.Some? <==> |s| > 0 && AllDigits(s)
  {
    if |s| > 0 && AllDigits(s) then Some(DecimalValue(s)) else None
  }

  lemma {:induction false} DecimalValueOfRendering(n: nat)
    ensures DecimalValue(NatToDecimal(n)) == n
  {
    if n >= 10 {
      var s := NatToDecimal(n);
      assert s[..|s| - 1] == NatToDecimal(n / 10);
      DecimalValueOfRendering(n / 10);
    }
  }

  /** Rendering then parsing gives the number back. */
  lemma ParseRenderRoundTrip(n: nat)
    ensures ParseNat(NatToDecimal(n)) == Some(n)
  {
    DecimalValueOfRendering(n);
  }

  /** Distinct naturals render to distinct strings. */
  lemma RenderingInjective(m: nat, n: nat)
    ensures NatToDecimal(m) == NatToDecimal(n) <==> m == n
  {
    if NatToDecimal(m) == NatToDecimal(n) {
      DecimalValueOfRendering(m);
      DecimalValueOfRendering(n);
    }
  }

  /** `s.padStart(2, '0')` */
  function PadStart2(s: string): (r: string)
    ensures |s| < 2 ==> |r| == 2
    ensures |s| >= 2 ==> r == s
    ensures r[|r| - |s|..] == s
    ensures forall i :: 0 <= i < |r| - |s| ==> r[i] == '0'
  {
    if |s| == 0 then "00" else if |s| == 1 then ['0'] + s else s
  }

  /** The index of the first occurrence of c in s, if any. */
  function FirstIndex(s: string, c: char): (r: Option<nat>)
    ensures r.Some? ==> r.value < |s| && s[r.value] == c
    ensures r.Some? ==> forall i :: 0 <= i < r.value ==> s[i] != c
    ensures r.None? ==> forall i :: 0 <= i < |s| ==> s[i] != c
  {
    if |s| == 0 then None
    else if s[0] == c then Some(0)
    else match FirstIndex(s[1..], c)
      case None => None
      case Some(k) => Some(k + 1)
  }

  /** JavaScript's `s.substr(start, length)` for non-negative arguments. */
  function Substr(s: string, start: nat, length: nat): (r: string)
    ensures start >= |s| ==> r == []
    ensures start < |s| ==> |r| == if start + length <= |s| then length else |s| - start
    ensures start < |s| ==> r == s[start..start + |r|]
  {
    if start >= |s| then [] else if start + length <= |s| then s[start..start + length] else s[start..]
  }
}
