/** Decimal money amounts as exact reals, and `quantize(Decimal('1.00'))`
    under Python's default decimal context, whose rounding is ROUND_HALF_EVEN. */
module Money {

  /** `x` is a whole number of cents, i.e. has at most two decimal places. */
  predicate IsCents(x: real) {
    (x * 100.0).Floor as real == x * 100.0
  }

  /** The integer nearest to `y`; an exact tie goes to the even neighbour. */
  function RoundHalfEven(y: real): (n: int)
    ensures -0.5 <= n as real - y <= 0.5
    ensures n as real - y == 0.5 || y - n as real == 0.5 ==> n % 2 == 0
  {
    var f := y.Floor;
    var frac := y - f as real;
    if frac < 0.5 then f
    else if frac > 0.5 then f + 1
    else if f % 2 == 0 then f
    else f + 1
  }

  /** `x.quantize(Decimal('1.00'))`: the nearest multiple of 0.01, ties to an even
      number of cents. */
  function Quantize(x: real): (r: real)
    ensures IsCents(r)
    ensures -0.005 <= r - x <= 0.005
    ensures r - x == 0.005 || x - r == 0.005 ==> (r * 100.0).Floor % 2 == 0
  {
    var n := RoundHalfEven(x * 100.0);
    assert (n as real / 100.0) * 100.0 == n as real;
    n as real / 100.0
  }

  /** Any whole-cent value within half a cent of `x`, and on a tie the even one,
      is `Quantize(x)`: the contract of `Quantize` determines it. */
  lemma QuantizeUnique(x: real, c: real)
    requires IsCents(c)
    requires -0.005 <= c - x <= 0.005
    requires c - x == 0.005 || x - c == 0.005 ==> (c * 100.0).Floor % 2 == 0
    ensures c == Quantize(x)
  {
    var r := Quantize(x);
    var m, n := (c * 100.0).Floor, (r * 100.0).Floor;
    assert m as real == c * 100.0 && n as real == r * 100.0;
    assert -1 <= m - n <= 1;
  }

  /** Quantizing an amount that is already in whole cents leaves it unchanged. */
  lemma QuantizeOfCents(x: real)
    requires IsCents(x)
    ensures Quantize(x) == x
  {
    var k := (x * 100.0).Floor;
    assert RoundHalfEven(x * 100.0) == k;
  }

  /** Rounding never reverses the order of two amounts. */
  lemma QuantizeMonotone(x: real, y: real)
    requires x <= y
    ensures Quantize(x) <= Quantize(y)
  {
    if x < y {
      var m, n := RoundHalfEven(x * 100.0), RoundHalfEven(y * 100.0);
      assert m as real <= x * 100.0 + 0.5 < y * 100.0 + 0.5 <= n as real + 1.0;
      assert m <= n;
    }
  }

  /** The difference of two whole-cent amounts is in whole cents. */
  lemma CentsDifference(a: real, b: real)
    requires IsCents(a) && IsCents(b)
    ensures IsCents(a - b)
  {
    var i, j := (a * 100.0).Floor, (b * 100.0).Floor;
    assert (a - b) * 100.0 == (i - j) as real;
  }

  /** A whole number of days times a whole-cent amount is in whole cents. */
  lemma CentsScale(n: int, c: real)
    requires IsCents(c)
    ensures IsCents(n as real * c)
  {
    var k := (c * 100.0).Floor;
    var p := n as real * c;
    assert k as real == c * 100.0;
    assert p * 100.0 == n as real * (k as real) == (n * k) as real;
    assert (p * 100.0).Floor == n * k;
  }

  /** A positive whole-cent amount is at least one cent. */
  lemma PositiveCentsAtLeastOneCent(c: real)
    requires IsCents(c) && c > 0.0
    ensures c >= 0.01
  {
    var k := (c * 100.0).Floor;
    assert k as real == c * 100.0;
    assert k >= 1;
  }
}
