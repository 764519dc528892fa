/**
 * The values `Number()` gives the INT and FLOAT token texts, as exact numbers,
 * and the check that a value is a whole number (`Number.isInteger`).
 */
module Numbers {
  import opened Lexer

  function Pow10(n: nat): (r: nat)
    ensures r >= 1
  {
    if n == 0 then 1 else 10 * Pow10(n - 1)
  }

  function DigitValue(c: char): (d: nat)
    requires IsDigit(c)
    ensures d <= 9
  {
    c as int - '0' as int
  }

  /** The value of a run of decimal digits (0 for the empty run). */
  function NumeralValue(v: string): (r: nat)
    requires forall i :: 0 <= i < |v| ==> IsDigit(v[i])
    ensures r < Pow10(|v|)
    ensures r == 0 <==> forall i :: 0 <= i < |v| ==> v[i] == '0'
  {
    if v == [] then 0
    else
      var r := 10 * NumeralValue(v[..|v| - 1]) + DigitValue(v[|v| - 1]);
      assert forall i :: 0 <= i < |v| - 1 ==> v[..|v| - 1][i] == v[i];
      r
  }

  /** The whole-number part of a FLOAT text (the digits before the point). */
  function IntegerPart(v: string): (r: string)
    requires IsDecimal(v)
    ensures IsNumeral(r) && v == r + "." + FractionPart(v)
  {
    var k := Span(v, IsDigit);
    assert v == v[..k] + "." + v[k + 1..];
    v[..k]
  }

  /** The digits after the point of a FLOAT text (possibly none). */
  function FractionPart(v: string): (r: string)
    requires IsDecimal(v)
    ensures forall i :: 0 <= i < |r| ==> IsDigit(r[i])
    ensures |r| < |v|
  {
    var k := Span(v, IsDigit);
    v[k + 1..]
  }

  /** The value of a FLOAT text `\d+\.\d*`: whole part plus digits after the point. */
  function DecimalValue(v: string): (r: real)
    requires IsDecimal(v)
    ensures NumeralValue(IntegerPart(v)) as real <= r < NumeralValue(IntegerPart(v)) as real + 1.0
  {
    var f := FractionPart(v);
    ProperFraction(NumeralValue(f), Pow10(|f|));
    NumeralValue(IntegerPart(v)) as real + NumeralValue(f) as real / Pow10(|f|) as real
  }

  lemma ProperFraction(n: nat, p: nat)
    requires n < p
    ensures 0.0 <= n as real / p as real < 1.0
    ensures n > 0 ==> 0.0 < n as real / p as real
  {
    var q := n as real / p as real;
    assert q * p as real == n as real;
  }

  predicate IsIntegral(x: real) {
    x.Floor as real == x
  }

  /**
   * A FLOAT text denotes a whole number exactly when every digit after its point
   * is zero: `3.0` and `3.` are whole, `3.5` is not.
   */
  lemma DecimalIntegral(v: string)
    requires IsDecimal(v)
    ensures IsIntegral(DecimalValue(v)) <==> forall i :: 0 <= i < |FractionPart(v)| ==> FractionPart(v)[i] == '0'
  {
    var a := NumeralValue(IntegerPart(v)) as real;
    var f := FractionPart(v);
    var n := NumeralValue(f) as real;
    var p := Pow10(|f|) as real;
    var x := DecimalValue(v);
    assert x == a + n / p;
    ProperFraction(NumeralValue(f), Pow10(|f|));
    if n == 0.0 {
      assert x == a;
      assert x.Floor == NumeralValue(IntegerPart(v));
    } else {
      assert 0.0 < n / p;
      assert x.Floor == NumeralValue(IntegerPart(v));
      assert x != a;
    }
  }
}
