/**
 * The edge-based plate detector (`CannyDetector`): the candidate validator
 * `_check_size`, the contour filter of `find_plates` and its decision to
 * upscale a small plate crop.
 *
 * Python floats are modelled as exact rationals (`real`). The OpenCV calls
 * (`contourArea`, `approxPolyDP`, `isContourConvex`, the crop, the grey /
 * invert / Otsu chain and the hq2x zoom) are inputs: a `Contour` record holds
 * what OpenCV computed for one contour, and the image operations are function
 * parameters.
 */
module Canny {
  import opened Order
  import opened Geometry
  import opened Grids
  import opened Ratio

  // ---- the validator's configuration ---------------------------------------

  const ErrorMin: real := 0.17
  const ErrorMax: real := 0.32
  /** Macedonian plates are 52 x 11 cm. */
  const Aspect: real := 52.0 / 11.0
  const MinArea: real := 15.0 * Aspect * 15.0
  const MaxArea: real := 112.0 * Aspect * 112.0
  const MinRatio: real := Aspect - Aspect * ErrorMin
  const MaxRatio: real := Aspect + Aspect * ErrorMax

  lemma BandsAreOrdered()
    ensures 0.0 < MinArea < MaxArea && 1.0 < MinRatio < Aspect < MaxRatio
    ensures MinRatio == Aspect * 0.83 && MaxRatio == Aspect * 1.32
    ensures MinArea == 225.0 * Aspect && MaxArea == 12544.0 * Aspect
  {
  }

  /**
   * `_check_size` on the candidate's measured width and height: reject a zero
   * side; otherwise the area (`width * height`, or the explicit `area`
   * argument) and the normalised ratio must both lie in their inclusive
   * bands.
   */
  predicate CheckSize(width: real, height: real, area: Option<real>)
    requires 0.0 <= width && 0.0 <= height
    ensures CheckSize(width, height, area) ==> 0.0 < width && 0.0 < height
  {
    if height == 0.0 || width == 0.0 then false
    else
      var candidateArea := if area.None? then height * width else area.value;
      var candidateRatio := NormalisedRatio(width, height);
      !(!(MinArea <= candidateArea <= MaxArea) || !(MinRatio <= candidateRatio <= MaxRatio))
  }

  /**
   * The accept condition: both sides positive, the area in
   * [MinArea, MaxArea] and the longer-over-shorter side ratio in
   * [MinRatio, MaxRatio], both inclusive.
   */
  lemma CheckSizeBands(width: real, height: real, area: Option<real>)
    requires 0.0 <= width && 0.0 <= height
    ensures CheckSize(width, height, area) <==>
              && width > 0.0 && height > 0.0
              && MinArea <= (if area.None? then width * height else area.value) <= MaxArea
              && MinRatio <= RealMax(width, height) / RealMin(width, height) <= MaxRatio
  {
  }

  /** Swapping width and height never changes the verdict. */
  lemma CheckSizeSymmetric(width: real, height: real, area: Option<real>)
    requires 0.0 <= width && 0.0 <= height
    ensures CheckSize(width, height, area) == CheckSize(height, width, area)
  {
    CheckSizeBands(width, height, area);
    CheckSizeBands(height, width, area);
  }

  /** An explicit area replaces `width * height` in the area test only. */
  lemma CheckSizeExplicitArea(width: real, height: real, area: real)
    requires 0.0 < width && 0.0 < height
    ensures CheckSize(width, height, Some(area)) <==>
              (MinArea <= area <= MaxArea) && CheckSize(width, height, Some(MinArea))
  {
    BandsAreOrdered();
  }

  /**
   * With the area in its band, the verdict is decided by the sides alone: the
   * longer side must lie between `MinRatio` and `MaxRatio` times the shorter.
   */
  lemma CheckSizeByRatio(width: real, height: real, area: real)
    requires 0.0 < width && 0.0 < height && MinArea <= area <= MaxArea
    ensures CheckSize(width, height, Some(area)) <==>
              MinRatio * RealMin(width, height) <= RealMax(width, height) <= MaxRatio * RealMin(width, height)
  {
    RatioLinear(width, height, MinRatio);
    RatioLinear(width, height, MaxRatio);
  }

  /** A 200 x 42 candidate passes; a 50 x 50 candidate fails on its ratio. */
  lemma CheckSizeScenarios()
    ensures CheckSize(200.0, 42.0, None)
    ensures !CheckSize(50.0, 50.0, None)
    ensures MinArea <= 50.0 * 50.0 <= MaxArea
  {
  }

  // ---- the same test on squared side lengths --------------------------------

  /**
   * `CheckSize` restated on the SQUARED sides that `CalculateSize` yields: both
   * bands are compared after squaring, which is exact on integers.
   */
  predicate CheckSizeSq(size: Size, area: Option<real>)
  {
    size.width2 > 0 && size.height2 > 0 && AreaBandSq(size, area) && RatioBandSq(size)
  }

  /** The area test on squared sides: the squared area is compared with the squared bounds. */
  predicate AreaBandSq(size: Size, area: Option<real>)
  {
    match area
    case None => MinArea * MinArea <= (size.width2 as real) * (size.height2 as real) <= MaxArea * MaxArea
    case Some(a) => MinArea <= a <= MaxArea
  }

  /** The ratio test on squared sides: the bounds on longer over shorter are squared. */
  predicate RatioBandSq(size: Size)
  {
    var w2 := size.width2 as real;
    var h2 := size.height2 as real;
    MinRatio * MinRatio * RealMin(w2, h2) <= RealMax(w2, h2) <= MaxRatio * MaxRatio * RealMin(w2, h2)
  }

  /** The area band, squared. */
  lemma AreaSquared(width: real, height: real)
    requires 0.0 < width && 0.0 < height
    ensures MinArea <= height * width <= MaxArea <==>
              MinArea * MinArea <= (width * width) * (height * height) <= MaxArea * MaxArea
  {
    var a := height * width;
    PositiveProduct(height, width);
    assert a * a == (width * width) * (height * height);
    SquareMonotone(MinArea, a);
    SquareMonotone(a, MaxArea);
  }

  lemma RatioBandAgrees(width: real, height: real, size: Size)
    requires 0.0 < width && 0.0 < height
    requires width * width == size.width2 as real && height * height == size.height2 as real
    ensures MinRatio <= NormalisedRatio(width, height) <= MaxRatio <==> RatioBandSq(size)
  {
    BandsAreOrdered();
    RatioBoundSquared(width, height, MinRatio);
    RatioBoundSquared(width, height, MaxRatio);
  }

  lemma AreaBandAgrees(width: real, height: real, size: Size, area: Option<real>)
    requires 0.0 < width && 0.0 < height
    requires width * width == size.width2 as real && height * height == size.height2 as real
    ensures MinArea <= (if area.None? then height * width else area.value) <= MaxArea <==> AreaBandSq(size, area)
  {
    if area.None? {
      AreaSquared(width, height);
    }
  }

  /**
   * For any real sides whose squares are the integer squared sides, the
   * real-valued test and the squared test agree: `CheckSizeSq(CalculateSize(q))`
   * is `_check_size(q)`.
   */
  lemma CheckSizeSqAgrees(width: real, height: real, size: Size, area: Option<real>)
    requires 0.0 <= width && 0.0 <= height
    requires width * width == size.width2 as real && height * height == size.height2 as real
    ensures CheckSize(width, height, area) <==> CheckSizeSq(size, area)
  {
    SquaredSide(width, size.width2);
    SquaredSide(height, size.height2);
    if width > 0.0 && height > 0.0 {
      AreaBandAgrees(width, height, size, area);
      RatioBandAgrees(width, height, size);
    }
  }

  /** A side is positive exactly when its square is. */
  lemma SquaredSide(x: real, n: int)
    requires 0.0 <= x && x * x == n as real
    ensures x > 0.0 <==> n > 0
  {
    if x > 0.0 {
      calc {
        n as real;
        == x * x;
        > 0.0 * x;
        == 0.0;
      }
    }
  }

  /** The squared sides of a 200 x 42 rectangle pass. */
  lemma CheckSizeSqScenario()
    ensures CheckSizeSq(Size(40000, 1764), None)
    ensures !CheckSizeSq(Size(2500, 2500), None)
  {
    BandsAreOrdered();
  }

  /** The 200 x 42 axis-aligned rectangle passes as four corner points. */
  lemma CandidateScenario()
    ensures CheckSizeSq(CalculateSize([Point(0, 0), Point(200, 0), Point(0, 42), Point(200, 42)]), None)
  {
    CalculateSizeAxisRectangle([Point(0, 0), Point(200, 0), Point(0, 42), Point(200, 42)], 0, 0, 200, 42);
    CheckSizeSqScenario();
  }

  // ---- find_plates ----------------------------------------------------------

  /** Below this many pixels a plate crop is upscaled with hq2x. */
  const ZoomThreshold: int := 4500

  /** What OpenCV reports for one contour of the edge map. */
  datatype Contour = Contour(area: real, approx: seq<Point>, convex: bool)

  /** The filter of `find_plates`: area above 50, four corners, convex, and a passing size check. */
  predicate KeepContour(c: Contour)
    ensures KeepContour(c) ==>
              |c.approx| == 4 && CalculateSize(c.approx).width2 > 0 && CalculateSize(c.approx).height2 > 0
  {
    c.area > 50.0 && |c.approx| == 4 && c.convex && CheckSizeSq(CalculateSize(c.approx), None)
  }

  /** The approximations of the kept contours, in input order. */
  function KeptRectangles(contours: seq<Contour>): (r: seq<seq<Point>>)
    ensures |r| <= |contours|
    ensures forall k :: 0 <= k < |r| ==> |r[k]| == 4
  {
    if contours == [] then []
    else
      var last := contours[|contours| - 1];
      KeptRectangles(contours[..|contours| - 1]) + (if KeepContour(last) then [last.approx] else [])
  }

  /** A rectangle is kept exactly when some contour with that approximation passes the test. */
  lemma {:induction false} KeptRectanglesMembership(contours: seq<Contour>, rect: seq<Point>)
    ensures rect in KeptRectangles(contours) <==>
              exists i :: 0 <= i < |contours| && KeepContour(contours[i]) && contours[i].approx == rect
  {
    if contours != [] {
      var init := contours[..|contours| - 1];
      KeptRectanglesMembership(init, rect);
      assert forall i :: 0 <= i < |init| ==> init[i] == contours[i];
    }
  }

  /** Every kept rectangle is a quadrilateral that passes the size validator. */
  lemma {:induction false} KeptRectanglesPass(contours: seq<Contour>)
    ensures forall k :: 0 <= k < |KeptRectangles(contours)| ==>
              |KeptRectangles(contours)[k]| == 4 && CheckSizeSq(CalculateSize(KeptRectangles(contours)[k]), None)
  {
    if contours != [] {
      KeptRectanglesPass(contours[..|contours| - 1]);
    }
  }

  /** A plate: its (possibly upscaled) binarised crop and its rectangle. */
  datatype PlateRegion = PlateRegion(plate: Grid, rect: seq<Point>)

  /** The plate kept for one rectangle: zoomed exactly when its area is below 4500 px. */
  function PlateFor(rect: seq<Point>, crop: seq<Point> -> Grid, binarise: Grid -> Grid, zoom: Grid -> Grid): (plate: Grid)
    ensures plate == binarise(crop(rect)) || plate == zoom(binarise(crop(rect)))
    ensures PixelArea(binarise(crop(rect))) < ZoomThreshold ==> plate == zoom(binarise(crop(rect)))
    ensures PixelArea(binarise(crop(rect))) >= ZoomThreshold ==> plate == binarise(crop(rect))
  {
    var p := binarise(crop(rect));
    if PixelArea(p) < ZoomThreshold then zoom(p) else p
  }

  /**
   * `find_plates` after the edge map has been traced: keep the contours that
   * pass the test, in order, then pair each one's processed crop with it.
   */
  method FindPlates(contours: seq<Contour>, crop: seq<Point> -> Grid, binarise: Grid -> Grid, zoom: Grid -> Grid)
    returns (ret: seq<PlateRegion>)
    ensures |ret| == |KeptRectangles(contours)|
    ensures forall i :: 0 <= i < |ret| ==>
              ret[i].rect == KeptRectangles(contours)[i]
              && ret[i].plate == PlateFor(ret[i].rect, crop, binarise, zoom)
  {
    var rectangles: seq<seq<Point>> := [];
    for i := 0 to |contours|
      invariant rectangles == KeptRectangles(contours[..i])
    {
      var c := contours[i];
      if KeepContour(c) {
        rectangles := rectangles + [c.approx];
      }
      assert contours[..i + 1][..i] == contours[..i];
    }
    assert contours[..|contours|] == contours;
    ret := [];
    for i := 0 to |rectangles|
      invariant |ret| == i
      invariant forall k :: 0 <= k < i ==>
                  ret[k].rect == rectangles[k] && ret[k].plate == PlateFor(rectangles[k], crop, binarise, zoom)
    {
      var processingPlate := binarise(crop(rectangles[i]));
      var imgArea := PixelArea(processingPlate);
      if imgArea < ZoomThreshold {
        ret := ret + [PlateRegion(zoom(processingPlate), rectangles[i])];
      } else {
        ret := ret + [PlateRegion(processingPlate, rectangles[i])];
      }
    }
  }
}
