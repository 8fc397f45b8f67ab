/** Arithmetic on reals: the smaller and the larger of two, and how fractions compare. */
module Reals {

  function Min(x: real, y: real): real { if x < y then x else y }
  function Max(x: real, y: real): real { if x > y then x else y }

  lemma CrossMultiply(x: real, a: real, y: real, b: real)
    requires a > 0.0 && b > 0.0 && x * b <= y * a
    ensures x / a <= y / b
  {
    assert x / a == x * b / (a * b);
    assert y / b == y * a / (a * b);
  }

  lemma SharePositive(x: real, total: real)
    requires x >= 0.0 && total > 0.0
    ensures x / total >= 0.0 && (x / total > 0.0 <==> x > 0.0)
  {
  }

  lemma StrictFraction(x: real, y: real, t: real)
    requires x < y && t > 0.0
    ensures x / t < y / t
  {
  }

  lemma StrictCross(x: real, a: real, y: real, b: real)
    requires a > 0.0 && b > 0.0 && x * b < y * a
    ensures x / a < y / b
  {
    assert x / a == (x * b) / (a * b) && y / b == (y * a) / (a * b);
    StrictFraction(x * b, y * a, a * b);
  }

  lemma Below(w: real, t: real)
    requires w < t && t > 0.0
    ensures w / t < 1.0
  {
  }

  /** Adding at least as much above as below never lowers a fraction that is capped at one. */
  lemma CappedFraction(w: real, t: real, w': real, t': real)
    requires 0.0 <= w <= w' && t > 0.0 && t' > 0.0 && t' - t <= w' - w
    ensures Min(1.0, w / t) <= Min(1.0, w' / t')
  {
    if w' >= t' {
      CrossMultiply(1.0, 1.0, w', t');
    } else {
      Stretched(w, t, w' - w, t' - t);
      assert w * t' == w * t + w * (t' - t) && w' * t == w * t + (w' - w) * t;
      CrossMultiply(w, t, w', t');
    }
  }

  lemma Stretched(w: real, t: real, a: real, b: real)
    requires w >= 0.0 && t > 0.0 && a >= 0.0 && b <= a && (b > 0.0 ==> w <= t)
    ensures w * b <= a * t
  {
    if b > 0.0 {
      assert w * b <= t * b <= t * a;
    }
  }
}
