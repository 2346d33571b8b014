/** Decimal rounding as JavaScript's `toFixed(n)` followed by `parseFloat` does it,
    on exact reals: the nearest multiple of 10^-n, ties away from zero. */
module Money {

  /** The integer nearest to `y`, ties away from zero. */
  function Nearest(y: real): (n: int)
    ensures y - 0.5 <= n as real <= y + 0.5
    ensures y >= 0.0 ==> n >= 0
    ensures y <= 0.0 ==> n <= 0
  {
    if y >= 0.0 then (y + 0.5).Floor else -((-y + 0.5).Floor)
  }

  /** `parseFloat(x.toFixed(4))` */
  function Round4(x: real): (r: real)
    ensures x - 0.00005 <= r <= x + 0.00005
    ensures x >= 0.0 ==> r >= 0.0
  {
    Nearest(x * 10000.0) as real / 10000.0
  }

  /** `parseFloat(x.toFixed(2))` */
  function Round2(x: real): (r: real)
    ensures x - 0.005 <= r <= x + 0.005
    ensures x >= 0.0 ==> r >= 0.0
  {
    Nearest(x * 100.0) as real / 100.0
  }

  lemma NearestMonotone(y: real, z: real)
    requires y <= z
    ensures Nearest(y) <= Nearest(z)
  {
    if y >= 0.0 && z >= 0.0 {
      assert (y + 0.5).Floor <= (z + 0.5).Floor;
    } else if y < 0.0 && z < 0.0 {
      assert (-z + 0.5).Floor <= (-y + 0.5).Floor;
    }
  }

  lemma NearestOfInt(n: int)
    ensures Nearest(n as real) == n
  {
  }

  /** Rounding never reverses the order of two amounts. */
  lemma Round4Monotone(x: real, y: real)
    requires x <= y
    ensures Round4(x) <= Round4(y)
  {
    NearestMonotone(x * 10000.0, y * 10000.0);
  }

  /** An amount that already has at most four decimals is left as it is. */
  lemma Round4Exact(n: int)
    ensures Round4(n as real / 10000.0) == n as real / 10000.0
  {
    assert (n as real / 10000.0) * 10000.0 == n as real;
    NearestOfInt(n);
  }

  /** Rounding twice is rounding once. */
  lemma Round4Idempotent(x: real)
    ensures Round4(Round4(x)) == Round4(x)
  {
    Round4Exact(Nearest(x * 10000.0));
  }

  lemma Round2Monotone(x: real, y: real)
    requires x <= y
    ensures Round2(x) <= Round2(y)
  {
    NearestMonotone(x * 100.0, y * 100.0);
  }

  lemma Round2Exact(n: int)
    ensures Round2(n as real / 100.0) == n as real / 100.0
  {
    assert (n as real / 100.0) * 100.0 == n as real;
    NearestOfInt(n);
  }

  lemma Round2Idempotent(x: real)
    ensures Round2(Round2(x)) == Round2(x)
  {
    Round2Exact(Nearest(x * 100.0));
  }
}
