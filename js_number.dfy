/** JavaScript numbers as the routes use them: exact real values, plus NaN and the
    two infinities where a route's behaviour depends on them, and the `Math`
    functions the routes call. */
module JsNumber {
  datatype Number = NaN | Finite(value: real) | PosInfinity | NegInfinity

  /** `n < 0` (false for NaN). */
  predicate IsNegative(n: Number)
  {
    n.NegInfinity? || (n.Finite? && n.value < 0.0)
  }

  function Max(a: real, b: real): (r: real)
    ensures r >= a && r >= b && (r == a || r == b)
  {
    if a >= b then a else b
  }

  /** `Math.floor`. */
  function Floor(x: real): (r: int)
    ensures r as real <= x < r as real + 1.0
  {
    x.Floor
  }

  /** `Math.ceil`. */
  function Ceil(x: real): (r: int)
    ensures x <= r as real < x + 1.0
  {
    -((-x).Floor)
  }

  /** `Math.round`: the nearest integer, halves rounded up. */
  function Round(x: real): (r: int)
    ensures r as real - 0.5 <= x < r as real + 0.5
  {
    (x + 0.5).Floor
  }

  lemma CeilMonotone(x: real, y: real)
    requires x <= y
    ensures Ceil(x) <= Ceil(y)
  {
  }

  lemma RoundMonotone(x: real, y: real)
    requires x <= y
    ensures Round(x) <= Round(y)
  {
  }

  lemma CeilOfInt(n: int)
    ensures Ceil(n as real) == n
  {
  }

  /** Sum of two numbers neither of which is NaN or negative infinity; an infinite
      summand makes the sum infinite. */
  function Add(a: Number, b: Number): (r: Number)
    requires a.Finite? || a.PosInfinity?
    requires b.Finite? || b.PosInfinity?
    ensures r.Finite? || r.PosInfinity?
    ensures r.Finite? <==> a.Finite? && b.Finite?
    ensures r.Finite? ==> r.value == a.value + b.value
  {
    if a.Finite? && b.Finite? then Finite(a.value + b.value) else PosInfinity
  }

  /** `n * k` for a positive real factor k. */
  function Times(n: Number, k: real): (r: Number)
    requires n.Finite? || n.PosInfinity?
    requires k > 0.0
    ensures r.Finite? || r.PosInfinity?
    ensures r.Finite? <==> n.Finite?
  {
    if n.Finite? then Finite(n.value * k) else PosInfinity
  }

  /** `n + x` for a real x. */
  function Plus(n: Number, x: real): (r: Number)
    requires n.Finite? || n.PosInfinity?
    ensures r.Finite? || r.PosInfinity?
    ensures r.Finite? <==> n.Finite?
    ensures r.Finite? ==> r.value == n.value + x
  {
    if n.Finite? then Finite(n.value + x) else PosInfinity
  }

  /** `Math.max(n, x)` for a real x. */
  function MaxWith(n: Number, x: real): (r: Number)
    requires n.Finite? || n.PosInfinity?
    ensures r.Finite? || r.PosInfinity?
    ensures r.Finite? <==> n.Finite?
    ensures r.Finite? ==> r.value >= x && r.value >= n.value && (r.value == x || r.value == n.value)
  {
    if n.Finite? then Finite(Max(n.value, x)) else PosInfinity
  }

  /** `Math.round(n)`; an infinity rounds to itself. */
  function RoundNumber(n: Number): (r: Number)
    requires n.Finite? || n.PosInfinity?
    ensures r.Finite? || r.PosInfinity?
    ensures r.Finite? <==> n.Finite?
    ensures r.Finite? ==> r.value == Round(n.value) as real
  {
    if n.Finite? then Finite(Round(n.value) as real) else PosInfinity
  }
}
