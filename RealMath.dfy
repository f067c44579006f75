/** Small facts about real numbers shared by the view models: the screen
    geometry of the apps is in points (`CGFloat`), modelled here as `real`. */
module RealMath {

  function Min(a: real, b: real): (r: real)
    ensures r <= a && r <= b
    ensures r == a || r == b
  {
    if a <= b then a else b
  }

  function Max(a: real, b: real): (r: real)
    ensures r >= a && r >= b
    ensures r == a || r == b
  {
    if a >= b then a else b
  }

  function Abs(x: real): (r: real)
    ensures r >= 0.0
    ensures r == x || r == -x
  {
    if x < 0.0 then -x else x
  }

  /** The reference clamp: `x` limited to the closed interval [lo, hi]. The
      apps write this clamp in three different ways; each of those is proved
      equal to this one. */
  function Clamp(x: real, lo: real, hi: real): (r: real)
    requires lo <= hi
    ensures lo <= r <= hi
    ensures lo <= x <= hi ==> r == x
    ensures x <= lo ==> r == lo
    ensures x >= hi ==> r == hi
  {
    if x < lo then lo else if x > hi then hi else x
  }

  /** Clamping never reverses the order of two values. */
  lemma ClampMonotone(x: real, y: real, lo: real, hi: real)
    requires lo <= hi && x <= y
    ensures Clamp(x, lo, hi) <= Clamp(y, lo, hi)
  {
  }

  /** Dividing by a positive number keeps a strict upper bound. */
  lemma QuotientBelow(a: real, b: real, p: real)
    requires p > 0.0 && a < b * p
    ensures a / p < b
  {
    var q := a / p;
    assert q * p == a;
    assert (b - q) * p == b * p - a;
  }

  /** Dividing by a positive number keeps a non-strict upper bound. */
  lemma QuotientAtMost(a: real, b: real, p: real)
    requires p > 0.0 && a <= b * p
    ensures a / p <= b
  {
    var q := a / p;
    assert q * p == a;
    assert (b - q) * p == b * p - a;
  }
}
