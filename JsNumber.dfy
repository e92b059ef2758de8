/** Decimal rendering of an integer, as a template literal prints a whole
    number such as an attendance or a temperature, and its inverse. */
module JsNumber {
  import opened Js

  predicate IsDigit(c: char) {
    '0' <= c <= '9'
  }

  predicate AllDigits(s: string) {
    forall i :: 0 <= i < |s| ==> IsDigit(s[i])
  }

  function DigitChar(d: nat): (c: char)
    requires d < 10
    ensures IsDigit(c)
  {
    ('0' as int + d) as char
  }

  function DigitValue(c: char): nat
    requires IsDigit(c)
  {
    c as int - '0' as int
  }

  /** The decimal digits of `n`, most significant first, without leading zeros. */
  function NatToString(n: nat): (s: string)
    ensures s != "" && AllDigits(s)
    ensures s[0] != '0' || s == "0"
  {
    if n < 10 then [DigitChar(n)] else NatToString(n / 10) + [DigitChar(n % 10)]
  }

  /** The number a string of decimal digits denotes. */
  function DecimalValue(s: string): nat
    requires AllDigits(s)
  {
    if |s| == 0 then 0 else 10 * DecimalValue(s[..|s| - 1]) + DigitValue(s[|s| - 1])
  }

  /** Reads an optional minus sign followed by decimal digits. */
  function ParseInt(s: string): Option<int> {
    if |s| > 1 && s[0] == '-' && AllDigits(s[1..]) then
      var magnitude: int := DecimalValue(s[1..]);
      Some(-magnitude)
    else if |s| > 0 && AllDigits(s) then Some(DecimalValue(s))
    else None
  }

  lemma {:induction false} DecimalRoundTrip(n: nat)
    ensures DecimalValue(NatToString(n)) == n
  {
    if n >= 10 {
      DecimalRoundTrip(n / 10);
      var s := NatToString(n);
      assert s[..|s| - 1] == NatToString(n / 10);
    }
  }

  /** `${n}` for a whole number: a minus sign for a negative one, then its
      decimal digits. Reading the text back gives `n`, so distinct numbers
      print differently. */
  function IntToString(n: int): (s: string)
    ensures s != ""
    ensures ParseInt(s) == Some(n)
    ensures n >= 0 ==> AllDigits(s) && (s[0] != '0' || s == "0")
    ensures n < 0 ==> s[0] == '-' && AllDigits(s[1..]) && s[1] != '0'
  {
    if n < 0 then
      DecimalRoundTrip(-n);
      var s := "-" + NatToString(-n);
      assert s[1..] == NatToString(-n);
      s
    else
      DecimalRoundTrip(n);
      NatToString(n)
  }
}
