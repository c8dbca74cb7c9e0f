/** The arithmetic helpers of the game (main.js, section HELPERS) and the
    exponential smoother used by the target and by the ending. Positions and
    timers are modelled as `real`; IEEE-754 rounding is not modelled. */
module Numeric {

  function Min(a: real, b: real): real { if a <= b then a else b }

  function Max(a: real, b: real): real { if a >= b then a else b }

  function Abs(x: real): real { if x < 0.0 then -x else x }

  /** clamp(x, a, b) = max(a, min(b, x)). The lower bound always wins: when the
      band is empty (a > b) the result is a, not b. */
  function Clamp(x: real, a: real, b: real): (r: real)
    ensures r >= a
    ensures a <= b ==> a <= r <= b
    ensures a <= x <= b ==> r == x
    ensures a <= b && x < a ==> r == a
    ensures x > b ==> r == Max(a, b)
    ensures a > b ==> r == a
  {
    Max(a, Min(b, x))
  }

  /** randInt(a, b) = a + floor(random * (b - a + 1)), with the draw `rnd`
      standing for Math.random(). */
  function RandInt(a: int, b: int, rnd: real): (n: int)
    requires 0.0 <= rnd < 1.0
    ensures a <= b ==> a <= n <= b
  {
    var span := (b - a + 1) as real;
    if a <= b then
      assert 0.0 <= rnd * span < span by {
        assert (1.0 - rnd) * span > 0.0;
      }
      a + (rnd * span).Floor
    else
      a + (rnd * span).Floor
  }

  /** randRange(a, b) = a + random * (b - a). */
  function RandRange(a: real, b: real, rnd: real): (x: real)
    requires 0.0 <= rnd < 1.0
    ensures a <= b ==> a <= x <= b
    ensures a < b ==> x < b
    ensures a == b ==> x == a
  {
    a + Scaled(rnd, b - a)
  }

  /** One step of the first-order smoother `p += (goal - p) * k`: the distance
      to the goal shrinks by the factor (1 - k) on every call, whatever the
      elapsed time (the smoother is applied once per tick). */
  function Ease(p: real, goal: real, k: real): (r: real)
    requires 0.0 <= k <= 1.0
    ensures r - goal == (1.0 - k) * (p - goal)
    ensures Abs(r - goal) == (1.0 - k) * Abs(p - goal)
    ensures Min(p, goal) <= r <= Max(p, goal)
  {
    var r := p + (goal - p) * k;
    assert r - goal == (1.0 - k) * (p - goal);
    assert Min(p, goal) <= r <= Max(p, goal) && Abs(r - goal) == (1.0 - k) * Abs(p - goal) by {
      if p <= goal {
        MulNonneg(goal - p, k);
        MulNonneg(goal - p, 1.0 - k);
      } else {
        MulNonneg(p - goal, k);
        MulNonneg(p - goal, 1.0 - k);
      }
    }
    r
  }

  lemma MulNonneg(a: real, b: real)
    requires a >= 0.0 && b >= 0.0
    ensures a * b >= 0.0
  {
  }

  /** The share `r * w` of a span `w`, for a draw 0 <= r < 1: it lies in
      [0, w] and stops short of a non-empty span's end. */
  function Scaled(r: real, w: real): (y: real)
    requires 0.0 <= r < 1.0
    ensures w >= 0.0 ==> 0.0 <= y <= w
    ensures w > 0.0 ==> y < w
  {
    if w > 0.0 then
      ScaleBelow(r, w);
      r * w
    else
      if w == 0.0 then ScaleWithin(r, w); r * w else r * w
  }

  lemma ScaleBelow(r: real, w: real)
    requires 0.0 <= r < 1.0 && w > 0.0
    ensures 0.0 <= r * w < w
  {
  }

  lemma ScaleWithin(r: real, w: real)
    requires 0.0 <= r < 1.0 && w >= 0.0
    ensures 0.0 <= r * w <= w
  {
  }
}
