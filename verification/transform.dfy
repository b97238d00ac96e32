/**
 * Text deskewing (`deskew_text`): the minimum-area boxes of the plate's
 * blobs are filtered by ratio and by their share of the image, their corners
 * are gathered into a set, and the two leftmost and the two rightmost corners
 * of the set, pushed outward by a 3-pixel margin, become the source corners of
 * a perspective warp onto the whole image.
 *
 * The boxes (`findContours`, `minAreaRect`, `BoxPoints`, `int0`) are an input
 * and the warp (`getPerspectiveTransform`, `warpPerspective`) a function
 * parameter.
 */
module Transform {
  import opened Order
  import opened Geometry
  import opened Grids
  import opened Ratio

  // ---- the box filter -------------------------------------------------------

  /**
   * The box test of `deskew_text` on the box's real sides: both positive, the
   * normalised ratio strictly between 0.5 and 2.5, and the image area less
   * than 45 box areas.
   */
  predicate BoxAccepted(width: real, height: real, imgArea: real)
    requires 0.0 <= width && 0.0 <= height
    ensures BoxAccepted(width, height, imgArea) ==> 0.0 < width && 0.0 < height
  {
    if width > 0.0 && height > 0.0 then
      var boxArea := width * height;
      var boxRatio := NormalisedRatio(width, height);
      0.5 < boxRatio < 2.5 && imgArea / boxArea < 45.0
    else
      false
  }

  /**
   * The lower ratio bound can never fail, since the normalised ratio is at
   * least 1: a box passes exactly when its longer side is under 2.5 times its
   * shorter side and the image area is under 45 times the box area.
   */
  lemma BoxAcceptedBands(width: real, height: real, imgArea: real)
    requires 0.0 <= width && 0.0 <= height
    ensures BoxAccepted(width, height, imgArea) <==>
              && width > 0.0 && height > 0.0
              && RealMax(width, height) < 2.5 * RealMin(width, height)
              && imgArea < 45.0 * (width * height)
  {
    if width > 0.0 && height > 0.0 {
      RatioLinear(width, height, 2.5);
      PositiveProduct(width, height);
      QuotientBelow(imgArea, width * height, 45.0);
    }
  }

  /** The same test on the integer squared sides `CalculateSize` yields. */
  predicate BoxAcceptedSq(size: Size, imgArea: nat)
  {
    && size.width2 > 0 && size.height2 > 0
    && 4 * Max(size.width2, size.height2) < 25 * Min(size.width2, size.height2)
    && imgArea * imgArea < 2025 * size.width2 * size.height2
  }

  lemma AreaShareSquared(width: real, height: real, size: Size, imgArea: nat)
    requires 0.0 < width && 0.0 < height
    requires width * width == size.width2 as real && height * height == size.height2 as real
    ensures imgArea as real < 45.0 * (width * height) <==> imgArea * imgArea < 2025 * size.width2 * size.height2
  {
    var a := imgArea as real;
    var b := 45.0 * (width * height);
    PositiveProduct(width, height);
    SquareStrictMonotone(a, b);
    assert b * b == 2025.0 * (width * width) * (height * height);
    assert (imgArea * imgArea) as real == a * a;
    assert (2025 * size.width2 * size.height2) as real == 2025.0 * (size.width2 as real) * (size.height2 as real);
  }

  lemma RatioShareSquared(width: real, height: real, size: Size)
    requires 0.0 < width && 0.0 < height
    requires width * width == size.width2 as real && height * height == size.height2 as real
    ensures RealMax(width, height) < 2.5 * RealMin(width, height) <==>
              4 * Max(size.width2, size.height2) < 25 * Min(size.width2, size.height2)
  {
    RatioLinear(width, height, 2.5);
    RatioBoundSquared(width, height, 2.5);
    assert RealMax(size.width2 as real, size.height2 as real) == Max(size.width2, size.height2) as real;
    assert RealMin(size.width2 as real, size.height2 as real) == Min(size.width2, size.height2) as real;
  }

  /**
   * For real sides whose squares are the integer squared sides, the real test
   * and the integer test agree, so `BoxAcceptedSq(CalculateSize(box), a)` is
   * the source's test of `box`.
   */
  lemma BoxAcceptedSqAgrees(width: real, height: real, size: Size, imgArea: nat)
    requires 0.0 <= width && 0.0 <= height
    requires width * width == size.width2 as real && height * height == size.height2 as real
    ensures BoxAccepted(width, height, imgArea as real) <==> BoxAcceptedSq(size, imgArea)
  {
    BoxAcceptedBands(width, height, imgArea as real);
    if width > 0.0 && height > 0.0 {
      PositiveProduct(width, width);
      PositiveProduct(height, height);
      AreaShareSquared(width, height, size, imgArea);
      RatioShareSquared(width, height, size);
    } else {
      assert size.width2 == 0 || size.height2 == 0;
    }
  }

  /** A 20 x 30 box in a 100 x 100 image passes; a 10 x 30 box fails on its ratio. */
  lemma BoxScenarios()
    ensures BoxAcceptedSq(Size(400, 900), 10000)
    ensures !BoxAcceptedSq(Size(100, 900), 10000)
    ensures !BoxAcceptedSq(Size(4, 9), 10000)
  {
  }

  /** A box that passes has two distinct corners. */
  lemma AcceptedBoxHasTwo(box: seq<Point>, imgArea: nat)
    requires |box| == 4 && Passes(box, imgArea)
    ensures HasTwo(ToSet(box))
  {
    if forall i :: 0 <= i < 4 ==> box[i] == box[0] {
      CalculateSizeDegenerate(box);
      assert false;
    }
    var i :| 0 <= i < 4 && box[i] != box[0];
    assert box[i] in ToSet(box) && box[0] in ToSet(box);
  }

  /** The test of one four-corner box, measured with `calculate_size`. */
  predicate Passes(box: seq<Point>, imgArea: nat)
  {
    |box| == 4 && BoxAcceptedSq(CalculateSize(box), imgArea)
  }

  /** Every box `BoxPoints` yields has four corners. */
  ghost predicate FourCorners(boxes: seq<seq<Point>>)
  {
    forall k :: 0 <= k < |boxes| ==> |boxes[k]| == 4
  }

  /**
   * The set `points` after the loop over `boxes`: the corners of every box that
   * passes, with repeated corners collapsed.
   */
  ghost function AcceptedPoints(boxes: seq<seq<Point>>, imgArea: nat): (points: set<Point>)
    requires FourCorners(boxes)
    ensures forall p :: p in points ==> exists k :: 0 <= k < |boxes| && p in boxes[k]
  {
    if boxes == [] then {}
    else
      var box := boxes[|boxes| - 1];
      AcceptedPoints(boxes[..|boxes| - 1], imgArea) + (if Passes(box, imgArea) then ToSet(box) else {})
  }

  /** The collected set is empty or holds two distinct points, so `points_sorted[1]` always exists. */
  lemma {:induction false} AcceptedPointsHasTwo(boxes: seq<seq<Point>>, imgArea: nat)
    requires FourCorners(boxes)
    ensures AcceptedPoints(boxes, imgArea) == {} || HasTwo(AcceptedPoints(boxes, imgArea))
  {
    if boxes != [] {
      var init := boxes[..|boxes| - 1];
      var box := boxes[|boxes| - 1];
      AcceptedPointsHasTwo(init, imgArea);
      var before := AcceptedPoints(init, imgArea);
      if Passes(box, imgArea) {
        AcceptedBoxHasTwo(box, imgArea);
        var a, b :| a in ToSet(box) && b in ToSet(box) && a != b;
        assert a in before + ToSet(box) && b in before + ToSet(box);
      }
    }
  }

  /** A point is collected exactly when it is a corner of some box that passes. */
  lemma {:induction false} AcceptedPointsMembership(boxes: seq<seq<Point>>, imgArea: nat, p: Point)
    requires FourCorners(boxes)
    ensures p in AcceptedPoints(boxes, imgArea) <==>
              exists k :: 0 <= k < |boxes| && Passes(boxes[k], imgArea) && p in boxes[k]
  {
    if boxes != [] {
      var init := boxes[..|boxes| - 1];
      AcceptedPointsMembership(init, imgArea, p);
      AcceptedPointsLast(boxes, imgArea, p);
      ExistsSplit(boxes, init, box => Passes(box, imgArea) && p in box);
    }
  }

  /** Some entry of a non-empty list satisfies `P` when one before the last does or the last does. */
  lemma ExistsSplit<T>(xs: seq<T>, init: seq<T>, P: T -> bool)
    requires xs != [] && init == xs[..|xs| - 1]
    ensures (exists k :: 0 <= k < |xs| && P(xs[k])) <==>
              (exists k :: 0 <= k < |init| && P(init[k])) || P(xs[|xs| - 1])
  {
    if exists k :: 0 <= k < |xs| && P(xs[k]) {
      var k :| 0 <= k < |xs| && P(xs[k]);
      if k < |init| {
        assert init[k] == xs[k];
      }
    }
    if exists k :: 0 <= k < |init| && P(init[k]) {
      var k :| 0 <= k < |init| && P(init[k]);
      assert init[k] == xs[k];
    }
  }

  /** One turn of the loop adds the corners of the last box, when it passes. */
  lemma AcceptedPointsLast(boxes: seq<seq<Point>>, imgArea: nat, p: Point)
    requires FourCorners(boxes) && boxes != []
    ensures FourCorners(boxes[..|boxes| - 1])
    ensures p in AcceptedPoints(boxes, imgArea) <==>
              p in AcceptedPoints(boxes[..|boxes| - 1], imgArea)
              || (Passes(boxes[|boxes| - 1], imgArea) && p in boxes[|boxes| - 1])
  {
  }

  // ---- corner selection -----------------------------------------------------

  /** Four warp corners, in the order top-left, top-right, bottom-left, bottom-right. */
  datatype Corners = Corners(topLeft: Point, topRight: Point, bottomLeft: Point, bottomRight: Point)

  /** Pixels added outward at each corner. */
  const BorderMargin: int := 3

  /** Of two points, the one with the larger y; the second on a tie. */
  function Upper(first: Point, second: Point): (r: Point)
    ensures r == first || r == second
    ensures r.y >= first.y && r.y >= second.y
    ensures first.y == second.y ==> r == second
  {
    if first.y > second.y then first else second
  }

  /** Of two points, the one with the smaller y; the second on a tie. */
  function Lower(first: Point, second: Point): (r: Point)
    ensures r == first || r == second
    ensures r.y <= first.y && r.y <= second.y
    ensures first.y == second.y ==> r == second
  {
    if first.y < second.y then first else second
  }

  /**
   * The corners built from the two smallest points (`first`, `second`) and
   * the two largest (`last`, `penultimate`): on each side the upper point is
   * pushed up and the lower one down by the margin, the left ones to the left
   * and the right ones to the right.
   */
  function CornersFrom(first: Point, second: Point, last: Point, penultimate: Point): (r: Corners)
    ensures Point(r.topLeft.x + BorderMargin, r.topLeft.y - BorderMargin) in {first, second}
    ensures Point(r.bottomLeft.x + BorderMargin, r.bottomLeft.y + BorderMargin) in {first, second}
    ensures Point(r.topRight.x - BorderMargin, r.topRight.y - BorderMargin) in {last, penultimate}
    ensures Point(r.bottomRight.x - BorderMargin, r.bottomRight.y + BorderMargin) in {last, penultimate}
    ensures r.topLeft.y - r.bottomLeft.y == Abs(first.y - second.y) + 2 * BorderMargin
    ensures r.topRight.y - r.bottomRight.y == Abs(last.y - penultimate.y) + 2 * BorderMargin
    ensures first.y == second.y ==> r.topLeft.x == r.bottomLeft.x == second.x - BorderMargin
    ensures last.y == penultimate.y ==> r.topRight.x == r.bottomRight.x == penultimate.x + BorderMargin
  {
    var topLeft := Upper(first, second);
    var topLeft := Point(topLeft.x - BorderMargin, topLeft.y + BorderMargin);
    var bottomLeft := Lower(first, second);
    var bottomLeft := Point(bottomLeft.x - BorderMargin, bottomLeft.y - BorderMargin);
    var topRight := Upper(last, penultimate);
    var topRight := Point(topRight.x + BorderMargin, topRight.y + BorderMargin);
    var bottomRight := Lower(last, penultimate);
    var bottomRight := Point(bottomRight.x + BorderMargin, bottomRight.y - BorderMargin);
    Corners(topLeft, topRight, bottomLeft, bottomRight)
  }

  /** The corners chosen from the sorted point list and its reverse. */
  function SelectCorners(pointsSorted: seq<Point>): (r: Corners)
    requires |pointsSorted| >= 2
    ensures var n := |pointsSorted|;
            && Point(r.topLeft.x + BorderMargin, r.topLeft.y - BorderMargin) in {pointsSorted[0], pointsSorted[1]}
            && Point(r.bottomLeft.x + BorderMargin, r.bottomLeft.y + BorderMargin) in {pointsSorted[0], pointsSorted[1]}
            && Point(r.topRight.x - BorderMargin, r.topRight.y - BorderMargin) in {pointsSorted[n - 1], pointsSorted[n - 2]}
            && Point(r.bottomRight.x - BorderMargin, r.bottomRight.y + BorderMargin) in {pointsSorted[n - 1], pointsSorted[n - 2]}
  {
    var pointsRev := Reverse(pointsSorted);
    CornersFrom(pointsSorted[0], pointsSorted[1], pointsRev[0], pointsRev[1])
  }

  /** `s[::-1]`. */
  function Reverse<T>(s: seq<T>): (r: seq<T>)
    ensures |r| == |s| && forall i :: 0 <= i < |s| ==> r[i] == s[|s| - 1 - i]
  {
    if s == [] then [] else Reverse(s[1..]) + [s[0]]
  }

  /**
   * The reference definition: the corners of a set of at least two points are
   * built from its least and second least and its greatest and second greatest
   * points in the (x, y) order.
   */
  ghost function ExpectedCorners(s: set<Point>): Corners
    requires HasTwo(s)
  {
    SecondExists(s);
    CornersFrom(Least(s), Least(s - {Least(s)}), Greatest(s), Greatest(s - {Greatest(s)}))
  }

  /** On the sorted listing of a set, the chosen corners are the reference ones. */
  lemma SelectCornersOfSet(pointsSorted: seq<Point>)
    requires StrictlySorted(pointsSorted) && |pointsSorted| >= 2
    ensures HasTwo(ToSet(pointsSorted))
    ensures SelectCorners(pointsSorted) == ExpectedCorners(ToSet(pointsSorted))
  {
    StrictlySortedExtremes(pointsSorted);
    assert pointsSorted[0] in ToSet(pointsSorted) && pointsSorted[1] in ToSet(pointsSorted);
    assert pointsSorted[0] != pointsSorted[1];
  }

  /**
   * With at least four sorted points, both left corners lie at least twice
   * the margin to the left of both right corners.
   */
  lemma SelectCornersLeftOfRight(pointsSorted: seq<Point>)
    requires SortedBy(pointsSorted, PointKey) && |pointsSorted| >= 4
    ensures var c := SelectCorners(pointsSorted);
            && c.topLeft.x + 2 * BorderMargin <= c.topRight.x
            && c.topLeft.x + 2 * BorderMargin <= c.bottomRight.x
            && c.bottomLeft.x + 2 * BorderMargin <= c.topRight.x
            && c.bottomLeft.x + 2 * BorderMargin <= c.bottomRight.x
  {
    var n := |pointsSorted|;
    assert Leq(pointsSorted[0], pointsSorted[n - 2]) && Leq(pointsSorted[1], pointsSorted[n - 2]);
    assert Leq(pointsSorted[0], pointsSorted[n - 1]) && Leq(pointsSorted[1], pointsSorted[n - 1]);
  }

  /** The destination corners: the four corners of a `width` x `height` image, in the same order. */
  function Destination(width: int, height: int): (r: Corners)
    ensures r.bottomLeft == Point(0, 0)
    ensures r.topRight.x - r.topLeft.x == width && r.bottomRight.x - r.bottomLeft.x == width
    ensures r.topLeft.y - r.bottomLeft.y == height && r.topRight.y - r.bottomRight.y == height
  {
    Corners(Point(0, height), Point(width, height), Point(0, 0), Point(width, 0))
  }

  // ---- deskew_text ----------------------------------------------------------

  /**
   * `sorted(points, key=...)` on a set: the set's members, each once, in
   * ascending (x, y) order.
   */
  method SortedSet(points: set<Point>) returns (pointsSorted: seq<Point>)
    ensures StrictlySorted(pointsSorted)
    ensures ToSet(pointsSorted) == points
  {
    var listed: seq<Point> := [];
    var rest := points;
    while rest != {}
      invariant rest <= points
      invariant forall p :: p in points <==> p in rest || p in multiset(listed)
      invariant forall p :: p in rest ==> p !in multiset(listed)
      invariant Distinct(listed)
      decreases |rest|
    {
      var p :| p in rest;
      listed := listed + [p];
      rest := rest - {p};
    }
    pointsSorted := SortPoints(listed);
    SortPointsSpec(listed);
    SortDistinct(listed);
    forall p ensures p in ToSet(pointsSorted) <==> p in points {
      assert p in pointsSorted <==> p in multiset(pointsSorted);
    }
  }

  /**
   * The second half of `deskew_text`: sort the collected points and, when
   * there are any, warp the image from the four selected corners onto its own
   * corners; otherwise return the image unchanged.
   */
  method WarpFromPoints(points: set<Point>, img: Grid, warp: (Corners, Corners, Grid) -> Grid)
    returns (result: Grid)
    requires points == {} || HasTwo(points)
    ensures points == {} ==> result == img
    ensures points != {} ==> result == warp(ExpectedCorners(points), Destination(Width(img), Height(img)), img)
  {
    var pointsSorted := SortedSet(points);
    if |pointsSorted| > 0 {
      assert pointsSorted[0] in points;
      HasTwoListed(pointsSorted);
      SelectCornersOfSet(pointsSorted);
      var corners := SelectCorners(pointsSorted);
      var destPoints := Destination(Width(img), Height(img));
      result := warp(corners, destPoints, img);
    } else {
      forall p ensures p !in points {
        assert p in ToSet(pointsSorted) <==> p in pointsSorted;
      }
      result := img;
    }
  }

  /**
   * `deskew_text`: collect the corners of the boxes that pass, sort them and,
   * when there are any, warp the plate from the four selected corners onto the
   * image's own corners; otherwise return the plate unchanged.
   */
  method DeskewText(plate: Grid, boxes: seq<seq<Point>>, warp: (Corners, Corners, Grid) -> Grid)
    returns (result: Grid)
    requires FourCorners(boxes)
    ensures AcceptedPoints(boxes, PixelArea(plate)) == {} ==> result == plate
    ensures AcceptedPoints(boxes, PixelArea(plate)) != {} ==>
              HasTwo(AcceptedPoints(boxes, PixelArea(plate)))
              && result == warp(ExpectedCorners(AcceptedPoints(boxes, PixelArea(plate))),
                                Destination(Width(plate), Height(plate)), plate)
  {
    var img := plate;
    var imgHeight, imgWidth := Height(img), Width(img);
    var imgArea := imgHeight * imgWidth;
    var points: set<Point> := {};
    for i := 0 to |boxes|
      invariant points == AcceptedPoints(boxes[..i], imgArea)
    {
      assert boxes[..i + 1][..i] == boxes[..i];
      var boxPoints := boxes[i];
      var size := CalculateSize(boxPoints);
      if BoxAcceptedSq(size, imgArea) {
        points := points + ToSet(boxPoints);
      }
    }
    assert boxes[..|boxes|] == boxes;
    assert imgArea == PixelArea(plate);
    AcceptedPointsHasTwo(boxes, imgArea);
    assert points == {} || HasTwo(points);

    result := WarpFromPoints(points, img, warp);
  }
}
