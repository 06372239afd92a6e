/** Money in the ledger: exact decimal amounts, rounded half-up to one cent. */
module Money {

  /** The quantisation step: one cent. */
  const Cent: real := 0.01

  /** Cents per unit of currency (the reciprocal of Cent). */
  const CentsPerUnit: real := 100.0

  /** Goods and services tax: 10%. */
  const GstRate: real := 0.10

  /** `unit_price * qty`, exact. */
  function LineAmount(price: real, qty: int): real {
    price * qty as real
  }

  /** A whole number of cents. */
  predicate IsCents(x: real) {
    (x * CentsPerUnit).Floor as real == x * CentsPerUnit
  }

  /** `Decimal.quantize(Decimal("0.01"), rounding=ROUND_HALF_UP)`: the nearest
      cent, ties away from zero. The window and the cent grid determine the
      result uniquely (see QuantizeUnique). */
  function Quantize(x: real): (r: real)
    ensures IsCents(r)
    ensures x >= 0.0 ==> x - Cent / 2.0 < r <= x + Cent / 2.0
    ensures x < 0.0 ==> x - Cent / 2.0 <= r < x + Cent / 2.0
    ensures x >= 0.0 ==> r >= 0.0
    ensures IsCents(x) ==> r == x
  {
    if x >= 0.0 then Nearest(x)
    else
      var m := Nearest(-x);
      CentsNegate(m);
      CentsNegate(x);
      -m
  }

  /** Half-up rounding of a non-negative amount to the cent grid. */
  function Nearest(x: real): (r: real)
    requires x >= 0.0
    ensures IsCents(r)
    ensures x - Cent / 2.0 < r <= x + Cent / 2.0
    ensures r >= 0.0
    ensures IsCents(x) ==> r == x
  {
    var n := (x * CentsPerUnit + 0.5).Floor;
    assert n as real <= x * CentsPerUnit + 0.5 < n as real + 1.0;
    var r := n as real / CentsPerUnit;
    assert r * CentsPerUnit == n as real;
    assert IsCents(x) ==> n == (x * CentsPerUnit).Floor;
    r
  }

  /** The only whole-cent amount in (x - half a cent, x + half a cent] is Quantize(x). */
  lemma QuantizeUnique(x: real, c: real)
    requires x >= 0.0 && IsCents(c)
    requires x - Cent / 2.0 < c <= x + Cent / 2.0
    ensures c == Quantize(x)
  {
    var r := Quantize(x);
    var n := (c * CentsPerUnit).Floor;
    var m := (r * CentsPerUnit).Floor;
    assert -1.0 < (n - m) as real < 1.0;
  }

  lemma CentsNegate(a: real)
    ensures IsCents(a) ==> IsCents(-a)
  {
    if IsCents(a) {
      var n := (a * CentsPerUnit).Floor;
      assert -a * CentsPerUnit == (-n) as real;
    }
  }

  lemma CentsAdd(a: real, b: real)
    requires IsCents(a) && IsCents(b)
    ensures IsCents(a + b)
  {
    var n := (a * CentsPerUnit).Floor;
    var m := (b * CentsPerUnit).Floor;
    assert (a + b) * CentsPerUnit == (n + m) as real;
  }

  lemma CentsSub(a: real, b: real)
    requires IsCents(a) && IsCents(b)
    ensures IsCents(a - b)
  {
    var n := (a * CentsPerUnit).Floor;
    var m := (b * CentsPerUnit).Floor;
    assert (a - b) * CentsPerUnit == (n - m) as real;
  }

  /** A whole-cent price times a whole quantity is a whole number of cents. */
  lemma CentsTimesInt(p: real, q: int)
    requires IsCents(p)
    ensures IsCents(LineAmount(p, q))
  {
    var n := (p * CentsPerUnit).Floor;
    assert LineAmount(p, q) == p * q as real;
    assert p * CentsPerUnit == n as real;
    assert p * q as real * CentsPerUnit == (p * CentsPerUnit) * q as real;
    assert p * q as real * CentsPerUnit == (n * q) as real;
  }
}
