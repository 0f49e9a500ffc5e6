/**
 The numeric helpers the components share: JavaScript's `Math.random()` range and
 `Math.round`, stated over exact reals and over integers. IEEE-754 effects are not modelled.
 */
module Rounding {

  /** A value `Math.random()` can return: a number in [0, 1). */
  predicate IsDraw(u: real) {
    0.0 <= u < 1.0
  }

  /** `Math.round(x)`: the nearest integer, halves rounded up (towards +infinity). */
  function Round(x: real): (r: int)
    ensures x - 0.5 < r as real <= x + 0.5
  {
    (x + 0.5).Floor
  }

  /** Rounding never leaves an interval whose ends are integers. */
  lemma RoundWithin(x: real, lo: int, hi: int)
    requires lo as real <= x <= hi as real
    ensures lo <= Round(x) <= hi
  {
  }

  /** The floor of an exact quotient is Dafny's (Euclidean) integer division. */
  lemma FloorOfQuotient(p: int, d: int)
    requires d > 0
    ensures (p as real / d as real).Floor == p / d
  {
    var q, m := p / d, p % d;
    assert p == q * d + m && 0 <= m < d;
    assert (p as real) == (q as real) * (d as real) + (m as real);
    var x := p as real / d as real;
    var f := m as real / d as real;
    assert x == q as real + f;
    assert 0.0 <= f < 1.0;
  }

  /** `Math.round(a / b)` for a positive divisor, computed on integers. */
  function RoundDiv(a: int, b: int): (r: int)
    requires b > 0
    ensures r == Round(a as real / b as real)
  {
    var ar, br := a as real, b as real;
    var x := ar / br;
    var y := (2 * a + b) as real / (2 * b) as real;
    assert (2 * a + b) as real == 2.0 * ar + br && (2 * b) as real == 2.0 * br;
    assert y * (2.0 * br) == 2.0 * ar + br;
    assert y * br == ar + 0.5 * br;
    assert x * br == ar;
    assert (x + 0.5) * br == x * br + 0.5 * br;
    CancelFactor(y, x + 0.5, br);
    FloorOfQuotient(2 * a + b, 2 * b);
    (2 * a + b) / (2 * b)
  }

  /** The rounded quotient of `a` by `n` lies between `lo` and `hi` when `a / n` does. */
  lemma RoundDivWithin(a: int, n: int, lo: int, hi: int)
    requires n > 0
    requires lo * n <= a <= hi * n
    ensures lo <= RoundDiv(a, n) <= hi
  {
    var x := a as real / n as real;
    assert (lo * n) as real == lo as real * n as real;
    assert (hi * n) as real == hi as real * n as real;
    assert x * n as real == a as real;
    QuotientBounds(a as real, n as real, lo as real, hi as real);
    RoundWithin(x, lo, hi);
  }

  lemma CancelFactor(u: real, v: real, c: real)
    requires c > 0.0 && u * c == v * c
    ensures u == v
  {
    assert (u - v) * c == 0.0;
  }

  lemma QuotientBounds(a: real, n: real, lo: real, hi: real)
    requires n > 0.0
    requires lo * n <= a <= hi * n
    ensures lo <= a / n <= hi
  {
    var x := a / n;
    assert x * n == a;
  }
}
