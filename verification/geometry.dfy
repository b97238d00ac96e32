/**
 * Width and height of a quadrilateral given by four integer corners, in any
 * order (`calculate_size`).
 *
 * `math.hypot` is modelled by squared distances: the source only compares
 * and takes maxima of distances, and the square root is monotone on
 * non-negative numbers, so the squared model picks the same pairs and the
 * same maxima. A `Size` therefore holds the SQUARES of width and height.
 */
module Geometry {
  import opened Order

  function Abs(n: int): nat { if n < 0 then -n else n }

  function Max(a: int, b: int): int { if a >= b then a else b }

  function Min(a: int, b: int): int { if a <= b then a else b }

  function Square(n: int): (r: nat)
    ensures r == n * n
  {
    if n < 0 then (-n) * (-n) else n * n
  }

  /** The square of `math.hypot(p.x - q.x, p.y - q.y)`. */
  function Dist2(p: Point, q: Point): nat
  {
    Square(p.x - q.x) + Square(p.y - q.y)
  }

  /** Squared width and squared height of a quadrilateral. */
  datatype Size = Size(width2: int, height2: int)

  /**
   * Sorts the points by (x, y); the height is the longer of the left pair
   * (p0, p1) and the right pair (p2, p3); each left point is paired with the
   * right point nearer to its row (ties go to p3), and the width is the longer
   * of the two pairings. The width starts at -1, as in the source, and is
   * always replaced.
   */
  function CalculateSize(points: seq<Point>): (r: Size)
    requires |points| == 4
    ensures r.width2 >= 0 && r.height2 >= 0
  {
    SizeOfSorted(SortPoints(points))
  }

  /** `calculate_size` after its first line has sorted the points into `p`. */
  function SizeOfSorted(p: seq<Point>): (r: Size)
    requires |p| == 4
    ensures r.width2 >= 0 && r.height2 >= 0
  {
    var height2 := Max(Dist2(p[0], p[1]), Dist2(p[2], p[3]));
    var d11 := Abs(p[0].y - p[2].y);
    var d12 := Abs(p[0].y - p[3].y);
    var d21 := Abs(p[1].y - p[2].y);
    var d22 := Abs(p[1].y - p[3].y);
    var width2 := -1;
    var width2 := if d11 < d12 then Max(width2, Dist2(p[0], p[2])) else Max(width2, Dist2(p[0], p[3]));
    var width2 := if d21 < d22 then Max(width2, Dist2(p[1], p[2])) else Max(width2, Dist2(p[1], p[3]));
    Size(width2, height2)
  }

  /**
   * The sides are measured on the points sorted by (x, y): the height is the
   * longer of the two leftmost and the two rightmost points' distances, and
   * the width is the longer of the distances from p0 and from p1 to its
   * nearer-row partner among p2, p3 (p3 on a tie).
   */
  lemma CalculateSizePairing(points: seq<Point>)
    requires |points| == 4
    ensures var p := SortPoints(points);
            var partner0 := if Abs(p[0].y - p[2].y) < Abs(p[0].y - p[3].y) then p[2] else p[3];
            var partner1 := if Abs(p[1].y - p[2].y) < Abs(p[1].y - p[3].y) then p[2] else p[3];
            var r := CalculateSize(points);
            && Leq(p[0], p[1]) && Leq(p[1], p[2]) && Leq(p[2], p[3])
            && r.height2 >= Dist2(p[0], p[1]) && r.height2 >= Dist2(p[2], p[3])
            && (r.height2 == Dist2(p[0], p[1]) || r.height2 == Dist2(p[2], p[3]))
            && r.width2 >= Dist2(p[0], partner0) && r.width2 >= Dist2(p[1], partner1)
            && (r.width2 == Dist2(p[0], partner0) || r.width2 == Dist2(p[1], partner1))
  {
    SortedFour(points);
    SizeOfSortedPairing(SortPoints(points));
  }

  /** The four points come out of the sort in ascending order. */
  lemma SortedFour(points: seq<Point>)
    requires |points| == 4
    ensures var p := SortPoints(points);
            Leq(p[0], p[1]) && Leq(p[1], p[2]) && Leq(p[2], p[3])
  {
    var p := SortPoints(points);
    SortPointsSpec(points);
    assert PointKey(p[0]) == p[0] && PointKey(p[1]) == p[1];
    assert PointKey(p[2]) == p[2] && PointKey(p[3]) == p[3];
  }

  /** The measuring half of `CalculateSizePairing`, on points already in order. */
  lemma SizeOfSortedPairing(p: seq<Point>)
    requires |p| == 4
    ensures var partner0 := if Abs(p[0].y - p[2].y) < Abs(p[0].y - p[3].y) then p[2] else p[3];
            var partner1 := if Abs(p[1].y - p[2].y) < Abs(p[1].y - p[3].y) then p[2] else p[3];
            var r := SizeOfSorted(p);
            && r.height2 >= Dist2(p[0], p[1]) && r.height2 >= Dist2(p[2], p[3])
            && (r.height2 == Dist2(p[0], p[1]) || r.height2 == Dist2(p[2], p[3]))
            && r.width2 >= Dist2(p[0], partner0) && r.width2 >= Dist2(p[1], partner1)
            && (r.width2 == Dist2(p[0], partner0) || r.width2 == Dist2(p[1], partner1))
  {
  }

  /** The result depends only on the multiset of the four points. */
  lemma CalculateSizePermutationInvariant(a: seq<Point>, b: seq<Point>)
    requires |a| == 4 && multiset(a) == multiset(b)
    ensures |b| == 4 && CalculateSize(a) == CalculateSize(b)
  {
    assert |b| == 4 by {
      assert |multiset(a)| == |a| && |multiset(b)| == |b|;
    }
    SortPointsPermutationInvariant(a, b);
  }

  /** Four identical points give a (0, 0) size. */
  lemma CalculateSizeDegenerate(points: seq<Point>)
    requires |points| == 4
    requires forall i :: 0 <= i < 4 ==> points[i] == points[0]
    ensures CalculateSize(points) == Size(0, 0)
  {
    var p := SortPoints(points);
    SortPointsSpec(points);
    forall i | 0 <= i < 4 ensures p[i] == points[0] {
      assert p[i] in multiset(points);
    }
  }

  /** The arithmetic half of `CalculateSizeAxisRectangle`, on sorted corners. */
  lemma SizeOfAxisRectangle(x: int, y: int, w: int, h: int)
    requires w > 0 && h >= 0
    ensures SizeOfSorted([Point(x, y), Point(x, y + h), Point(x + w, y), Point(x + w, y + h)])
            == Size(w * w, h * h)
  {
    assert Square(-h) == h * h && Square(-w) == w * w && Square(0) == 0;
  }

  /**
   * For the four corners of an axis-aligned rectangle of width `w` and height
   * `h`, listed in any order, the result is (w, h), squared.
   */
  lemma CalculateSizeAxisRectangle(points: seq<Point>, x: int, y: int, w: int, h: int)
    requires w > 0 && h >= 0
    requires multiset(points) == multiset([Point(x, y), Point(x + w, y), Point(x, y + h), Point(x + w, y + h)])
    ensures |points| == 4 && CalculateSize(points) == Size(w * w, h * h)
  {
    SortedRectangle(points, x, y, w, h);
    SizeOfAxisRectangle(x, y, w, h);
  }

  /** The corners of such a rectangle sort into left column, then right column, each top first. */
  lemma SortedRectangle(points: seq<Point>, x: int, y: int, w: int, h: int)
    requires w > 0 && h >= 0
    requires multiset(points) == multiset([Point(x, y), Point(x + w, y), Point(x, y + h), Point(x + w, y + h)])
    ensures |points| == 4
    ensures SortPoints(points) == [Point(x, y), Point(x, y + h), Point(x + w, y), Point(x + w, y + h)]
  {
    var corners := [Point(x, y), Point(x + w, y), Point(x, y + h), Point(x + w, y + h)];
    assert |points| == 4 by {
      assert |multiset(points)| == |points| && |multiset(corners)| == |corners|;
    }
    RectangleColumnsAscend(x, y, w, h);
    RectangleColumnsReorder(x, y, w, h);
    SortPointsOfSorted(points, [Point(x, y), Point(x, y + h), Point(x + w, y), Point(x + w, y + h)]);
  }

  lemma RectangleColumnsAscend(x: int, y: int, w: int, h: int)
    requires w > 0 && h >= 0
    ensures SortedBy([Point(x, y), Point(x, y + h), Point(x + w, y), Point(x + w, y + h)], PointKey)
  {
  }

  lemma RectangleColumnsReorder(x: int, y: int, w: int, h: int)
    ensures multiset([Point(x, y), Point(x, y + h), Point(x + w, y), Point(x + w, y + h)])
            == multiset([Point(x, y), Point(x + w, y), Point(x, y + h), Point(x + w, y + h)])
  {
  }
}
