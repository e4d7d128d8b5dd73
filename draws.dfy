/**
 * Helpers shared by every component: the optional value, the contract of a
 * `Math.random()` draw, and the integer roundings the components apply to
 * real-valued draws.  Numbers are idealised as exact `real`s.
 */
module Draws {

  datatype Option<+T> = None | Some(value: T)

  /** A value `Math.random()` can return: uniform in [0, 1). */
  predicate Unit(r: real) {
    0.0 <= r < 1.0
  }

  function Max(a: int, b: int): (m: int)
    ensures m >= a && m >= b && (m == a || m == b)
  {
    if a < b then b else a
  }

  /** `Math.ceil(x)`. */
  function Ceil(x: real): (c: int)
    ensures x <= c as real < x + 1.0
  {
    -((-x).Floor)
  }

  /** `Math.floor(x)` for a length handed to `Array.from({ length })`, whose
      ToLength conversion turns a negative length into 0. */
  function ArrayLength(x: real): (n: nat)
    ensures x >= 0.0 ==> n as real <= x < n as real + 1.0
    ensures x < 0.0 ==> n == 0
  {
    if x.Floor < 0 then 0 else x.Floor
  }

  /** A draw scaled by a width `w >= 0` lies in [0, w]; below `w` when `w > 0`. */
  lemma ScaledUnit(r: real, w: real)
    requires Unit(r)
    ensures w >= 0.0 ==> 0.0 <= r * w <= w
    ensures w > 0.0 ==> r * w < w
  {
  }

  /** `Math.floor(r * n)`: the usual way of drawing an index below `n`.
      With `n == 0` it yields 0, which is not an index of anything. */
  function Pick(r: real, n: nat): (k: nat)
    requires Unit(r)
    ensures n > 0 ==> k < n
    ensures n == 0 ==> k == 0
  {
    ScaledUnit(r, n as real);
    (r * n as real).Floor
  }

  /** Every index below `n` is drawn by some `r`, namely by `k / n`. */
  lemma PickOnto(k: nat, n: nat)
    requires k < n
    ensures Unit(k as real / n as real)
    ensures Pick(k as real / n as real, n) == k
  {
    var r := k as real / n as real;
    assert r * n as real == k as real;
  }

  /** A random shift `(r - 0.5) * m * k` lies in [-m*k/2, m*k/2). */
  lemma ShiftRange(r: real, m: real, k: real)
    requires Unit(r) && k > 0.0
    ensures m >= 0.0 ==> -(m * k / 2.0) <= (r - 0.5) * m * k <= m * k / 2.0
    ensures m > 0.0 ==> (r - 0.5) * m * k < m * k / 2.0
    ensures m == 0.0 ==> (r - 0.5) * m * k == 0.0
  {
    var w := m * k;
    assert (r - 0.5) * m * k == (r - 0.5) * w;
    if m > 0.0 {
      assert w > 0.0;
      assert (r - 0.5) * w < 0.5 * w;
      assert -(0.5 * w) <= (r - 0.5) * w;
    }
  }
}
