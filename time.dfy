/** Instants are integer milliseconds since the epoch, as `Date.getTime()` returns them. */
module Time {

  /** `1000 * 60 * 60 * 24` and `24 * 60 * 60 * 1000`: one day in milliseconds. */
  const MillisPerDay: int := 86_400_000

  /** `Math.ceil(x / d)` for a positive divisor, computed exactly on integers. */
  function CeilDiv(x: int, d: int): (q: int)
    requires d > 0
    ensures d * (q - 1) < x <= d * q
  {
    var y := -x;
    assert y == d * (y / d) + y % d && 0 <= y % d < d;
    -(y / d)
  }

  /** The ceiling is the only integer with that property. */
  lemma CeilDivUnique(x: int, d: int, q: int)
    requires d > 0
    requires d * (q - 1) < x <= d * q
    ensures CeilDiv(x, d) == q
  {
  }
}
