/**
 * The side ratio shared by the plate, deskew and segmentation validators:
 * `w / h`, inverted when below 1, on exact reals; and the facts that let the
 * validators compare it without division and after squaring.
 */
module Ratio {

  function RealMax(a: real, b: real): real { if a >= b then a else b }

  function RealMin(a: real, b: real): real { if a <= b then a else b }

  /** `width / height`, inverted when below 1. */
  function NormalisedRatio(width: real, height: real): (r: real)
    requires 0.0 < width && 0.0 < height
    ensures r >= 1.0
    ensures r == RealMax(width, height) / RealMin(width, height)
  {
    var r := width / height;
    if r < 1.0 then 1.0 / r else r
  }

  lemma PositiveProduct(x: real, y: real)
    requires 0.0 < x && 0.0 < y
    ensures 0.0 < x * y
  {
  }

  /** Multiplying by a positive factor keeps the order, both ways. */
  lemma ScaleMonotone(a: real, b: real, m: real)
    requires 0.0 < m
    ensures a <= b <==> a * m <= b * m
  {
    if a <= b {
      if a < b { PositiveProduct(b - a, m); }
    } else {
      PositiveProduct(a - b, m);
    }
  }

  /**
   * The ratio test without division: the normalised ratio is at least (at
   * most) `c` exactly when the longer side is at least (at most) `c` times the
   * shorter.
   */
  lemma RatioLinear(width: real, height: real, c: real)
    requires 0.0 < width && 0.0 < height
    ensures c <= NormalisedRatio(width, height) <==> c * RealMin(width, height) <= RealMax(width, height)
    ensures NormalisedRatio(width, height) <= c <==> RealMax(width, height) <= c * RealMin(width, height)
  {
    var m := RealMin(width, height);
    var r := NormalisedRatio(width, height);
    assert r * m == RealMax(width, height);
    ScaleMonotone(c, r, m);
    ScaleMonotone(r, c, m);
  }

  lemma SquareMonotone(a: real, b: real)
    requires 0.0 <= a && 0.0 <= b
    ensures a <= b <==> a * a <= b * b
  {
    if a <= b {
      assert a * a <= a * b;
      assert a * b <= b * b;
    } else {
      assert a * a - b * b == (a - b) * (a + b);
      PositiveProduct(a - b, a + b);
    }
  }

  /** `c * m <= n` survives squaring both sides, and so does `n <= c * m`. */
  lemma ScaledSquare(c: real, m: real, n: real)
    requires 0.0 < c && 0.0 < m && 0.0 < n
    ensures c * m <= n <==> c * c * (m * m) <= n * n
    ensures n <= c * m <==> n * n <= c * c * (m * m)
  {
    PositiveProduct(c, m);
    assert (c * m) * (c * m) == c * c * (m * m);
    SquareMonotone(c * m, n);
    SquareMonotone(n, c * m);
  }

  /** Squaring commutes with taking the shorter and the longer side. */
  lemma SquaredExtremes(width: real, height: real)
    requires 0.0 < width && 0.0 < height
    ensures RealMin(width * width, height * height) == RealMin(width, height) * RealMin(width, height)
    ensures RealMax(width * width, height * height) == RealMax(width, height) * RealMax(width, height)
  {
    SquareMonotone(width, height);
  }

  /** One bound `c` of the ratio test, before and after squaring. */
  lemma RatioBoundSquared(width: real, height: real, c: real)
    requires 0.0 < width && 0.0 < height && 0.0 < c
    ensures c <= NormalisedRatio(width, height) <==>
              c * c * RealMin(width * width, height * height) <= RealMax(width * width, height * height)
    ensures NormalisedRatio(width, height) <= c <==>
              RealMax(width * width, height * height) <= c * c * RealMin(width * width, height * height)
  {
    SquaredExtremes(width, height);
    ScaledSquare(c, RealMin(width, height), RealMax(width, height));
    RatioLinear(width, height, c);
  }

  /** A quotient by a positive number stays below `c` exactly when the dividend stays below `c` times it. */
  lemma QuotientBelow(a: real, m: real, c: real)
    requires 0.0 < m
    ensures a / m < c <==> a < c * m
  {
    assert a / m * m == a;
    ScaleMonotone(c, a / m, m);
  }

  /** Squaring keeps a strict order between non-negative numbers. */
  lemma SquareStrictMonotone(a: real, b: real)
    requires 0.0 <= a && 0.0 <= b
    ensures a < b <==> a * a < b * b
  {
    SquareMonotone(b, a);
  }

  /** A quotient by a positive number exceeds `c` exactly when the dividend exceeds `c` times it. */
  lemma QuotientAbove(a: real, m: real, c: real)
    requires 0.0 < m
    ensures a / m > c <==> a > c * m
  {
    assert a / m * m == a;
    ScaleMonotone(a / m, c, m);
  }
}
