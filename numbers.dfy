/** JavaScript's number helpers as they are used by the player: `Math.round`,
    `Math.max`/`Math.min` and the clamp built from them. Numbers are exact
    reals; IEEE-754 rounding is not modelled. */
module Numbers {

  /** `Math.round(x)`: round half up, i.e. floor(x + 1/2). */
  function Round(x: real): (r: int)
    ensures x - 0.5 < r as real <= x + 0.5
  {
    (x + 0.5).Floor
  }

  function Max(a: real, b: real): (r: real)
    ensures r >= a && r >= b && (r == a || r == b)
  {
    if a >= b then a else b
  }

  function Min(a: real, b: real): (r: real)
    ensures r <= a && r <= b && (r == a || r == b)
  {
    if a <= b then a else b
  }

  /** `Math.max(lo, Math.min(hi, n))`: when the bounds are inverted the lower
      bound wins, because `max` is applied last. */
  function Clamp(n: real, lo: real, hi: real): (r: real)
    ensures lo <= hi ==> lo <= r <= hi
    ensures lo <= n <= hi ==> r == n
    ensures n < lo ==> r == lo
    ensures lo <= hi < n ==> r == hi
    ensures hi < lo ==> r == lo
  {
    Max(lo, Min(hi, n))
  }

  /** The same clamp on integer arguments. */
  function ClampInt(n: int, lo: int, hi: int): (r: int)
    ensures lo <= hi ==> lo <= r <= hi
    ensures lo <= n <= hi ==> r == n
    ensures hi < lo ==> r == lo
    ensures r >= lo
  {
    if lo >= (if hi <= n then hi else n) then lo else if hi <= n then hi else n
  }

  lemma ClampIntIsClamp(n: int, lo: int, hi: int)
    ensures ClampInt(n, lo, hi) as real == Clamp(n as real, lo as real, hi as real)
  {
  }

  lemma RoundOfInt(k: int)
    ensures Round(k as real) == k
  {
  }

  lemma RoundMonotone(x: real, y: real)
    requires x <= y
    ensures Round(x) <= Round(y)
  {
  }

  /** A value in [lo, hi] with integer bounds rounds into [lo, hi]. */
  lemma RoundWithin(x: real, lo: int, hi: int)
    requires lo as real <= x <= hi as real
    ensures lo <= Round(x) <= hi
  {
    RoundMonotone(lo as real, x);
    RoundMonotone(x, hi as real);
    RoundOfInt(lo);
    RoundOfInt(hi);
  }
}
