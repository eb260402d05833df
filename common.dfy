/**
 * Values shared by every part of the model: an optional value, a 2D vector
 * standing for the `Position` and `Velocity` records, and the decimal text
 * of an integer (used for entity ids and for JavaScript's number-to-string
 * conversion).
 */
module Common {

  datatype Option<+T> = None | Some(value: T)

  /** `{ x, y }` records: a position or a velocity. */
  datatype Vec = Vec(x: int, y: int)

  predicate IsDigit(c: char) {
    '0' <= c <= '9'
  }

  predicate AllDigits(s: string) {
    forall i :: 0 <= i < |s| ==> IsDigit(s[i])
  }

  function DigitChar(d: nat): (c: char)
    requires d < 10
    ensures IsDigit(c) && (c as int) - ('0' as int) == d
  {
    (('0' as int) + d) as char
  }

  /** Decimal text of a natural number, without leading zeros. */
  function NatToDecimal(n: nat): (r: string)
    ensures |r| > 0 && AllDigits(r)
    ensures r[0] == '0' ==> n == 0
    decreases n
  {
    if n < 10 then [DigitChar(n)] else NatToDecimal(n / 10) + [DigitChar(n % 10)]
  }

  /** The number a string of decimal digits denotes. */
  function DecimalToNat(s: string): nat
    requires AllDigits(s)
  {
    if s == [] then 0
    else DecimalToNat(s[..|s| - 1]) * 10 + ((s[|s| - 1] as int) - ('0' as int))
  }

  /** Reading the decimal text back gives the number again. */
  lemma {:induction false} DecimalRoundTrip(n: nat)
    ensures DecimalToNat(NatToDecimal(n)) == n
    decreases n
  {
    var r := NatToDecimal(n);
    if n >= 10 {
      DecimalRoundTrip(n / 10);
      assert r[..|r| - 1] == NatToDecimal(n / 10);
    }
  }

  /** Two naturals have the same decimal text exactly when they are equal. */
  lemma DecimalInjective(m: nat, n: nat)
    ensures NatToDecimal(m) == NatToDecimal(n) <==> m == n
  {
    DecimalRoundTrip(m);
    DecimalRoundTrip(n);
  }

  /** JavaScript's `String(n)` for an integral number. */
  function IntToDecimal(n: int): (r: string)
    ensures |r| > 0
  {
    if n < 0 then "-" + NatToDecimal(-n) else NatToDecimal(n)
  }
}
