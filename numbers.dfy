/** Numeric helpers shared by the components: `Math.ceil` and `parseFloat(...) || 0`. */
module Numbers {
  import opened Wrappers

  /** `Math.ceil` on the reals: the least integer that is not below `x`. */
  function Ceil(x: real): (r: int)
    ensures x <= r as real < x + 1.0
  {
    var f := x.Floor;
    if f as real == x then f else f + 1
  }

  /** Any integer at or above `x` is at or above `Ceil(x)`: `Ceil` is the least such. */
  lemma CeilIsLeast(x: real, n: int)
    requires x <= n as real
    ensures Ceil(x) <= n
  {
  }

  /** Scaling by a non-negative factor keeps the order of two amounts. */
  lemma MulMonotone(a: real, b: real, k: real)
    requires a <= b && k >= 0.0
    ensures a * k <= b * k
  {
  }

  /** Scaling by a positive factor keeps a strict order. */
  lemma MulStrict(a: real, b: real, k: real)
    requires a < b && k > 0.0
    ensures a * k < b * k
  {
  }

  /** `parseFloat(text) || 0`, with the parse given as an option: `None` stands for NaN,
      the one falsy result besides zero, so both end up as 0. */
  function OrZero(parsed: Option<real>): (r: real)
    ensures parsed.None? ==> r == 0.0
    ensures parsed.Some? ==> r == parsed.value
  {
    parsed.GetOr(0.0)
  }
}
