/** The closed real interval the renderer uses for admissible ray
    parameters and for clamping colour channels. Its header is not part of
    this model; `Contains` and `Clamp` follow the closed-interval reading
    (`min <= x <= max`, clamp to the nearer end). */
module Intervals {

  datatype Interval = Interval(min: real, max: real)

  predicate Contains(i: Interval, x: real) {
    i.min <= x <= i.max
  }

  /** Clamping lands inside a non-empty interval and moves no point that
      is already inside it. */
  function Clamp(i: Interval, x: real): (r: real)
    ensures i.min <= i.max ==> Contains(i, r)
    ensures Contains(i, x) ==> r == x
    ensures x < i.min ==> r == i.min
    ensures i.min <= i.max && i.max <= x ==> r == i.max
  {
    if x < i.min then i.min
    else if x > i.max then i.max
    else x
  }

  /** Clamping to a non-empty interval is monotone. */
  lemma ClampMonotone(i: Interval, x: real, y: real)
    requires i.min <= i.max
    requires x <= y
    ensures Clamp(i, x) <= Clamp(i, y)
  {
  }
}
