/** Money arithmetic. Amounts are exact reals; JavaScript's
    `Number.prototype.toFixed(2)` becomes `Round2`, which rounds the exact
    value to the nearest cent with halves going away from zero (toFixed
    rounds the magnitude and then prefixes the sign). */
module Money {

  /** A whole number of cents. */
  predicate IsCents(x: real) {
    (x * 100.0).Floor as real == x * 100.0
  }

  /** The whole number of cents nearest to a non-negative amount, halves up. */
  function HalfUpCents(x: real): (n: int)
    requires x >= 0.0
    ensures n >= 0
    ensures x * 100.0 - 0.5 < n as real <= x * 100.0 + 0.5
  {
    (x * 100.0 + 0.5).Floor
  }

  /** The number of cents `x.toFixed(2)` denotes. */
  function Cents(x: real): (n: int)
    ensures x * 100.0 - 0.5 <= n as real <= x * 100.0 + 0.5
    ensures (n < 0 ==> x < 0.0) && (n > 0 ==> x > 0.0)
  {
    if x < 0.0 then -HalfUpCents(-x) else HalfUpCents(x)
  }

  /** `x.toFixed(2)` read back as a number. */
  function Round2(x: real): (r: real)
    ensures IsCents(r)
    ensures x - 0.005 <= r <= x + 0.005
    ensures (r < 0.0 ==> x < 0.0) && (r > 0.0 ==> x > 0.0)
  {
    var n := Cents(x);
    assert (n as real / 100.0) * 100.0 == n as real;
    n as real / 100.0
  }

  /** An amount already in cents is left alone by `Round2`. */
  lemma Round2OfCents(x: real)
    requires IsCents(x)
    ensures Round2(x) == x
  {
    var k := (x * 100.0).Floor;
    if x < 0.0 {
      assert (-x) * 100.0 == -(k as real);
      assert ((-x) * 100.0 + 0.5).Floor == -k;
    } else {
      assert (x * 100.0 + 0.5).Floor == k;
    }
  }

  /** Rounding twice is rounding once. */
  lemma Round2Idempotent(x: real)
    ensures Round2(Round2(x)) == Round2(x)
  {
    Round2OfCents(Round2(x));
  }

  /** Rounding never reverses the order of two amounts. */
  lemma Round2Monotone(x: real, y: real)
    requires x <= y
    ensures Round2(x) <= Round2(y)
  {
    if 0.0 <= x {
      FloorMonotone(x * 100.0 + 0.5, y * 100.0 + 0.5);
    } else if y < 0.0 {
      FloorMonotone(-y * 100.0 + 0.5, -x * 100.0 + 0.5);
    }
  }

  lemma FloorMonotone(a: real, b: real)
    requires a <= b
    ensures a.Floor <= b.Floor
  {
    assert a.Floor as real <= a <= b < b.Floor as real + 1.0;
  }
}
