/**
 * Character segmentation (`segment_contours`): a first pass blacks out
 * blobs that are small against the plate, a second pass keeps the top-level
 * blobs whose bounding boxes look like characters and blacks out the small
 * leftovers, and the kept boxes are cut out of the cleaned plate from left to
 * right.
 *
 * What OpenCV computes is an input: a `Contour` holds a blob's bounding
 * rectangle, the index of its parent in the hierarchy (-1 for none) and the
 * set of pixels that filling it covers. The two `findContours` calls are
 * function parameters applied to the image as it is at that moment, and so is
 * the crop of a box. Filling a contour with black is the `Erase` loop.
 */
module Segment {
  import opened Order
  import opened Geometry
  import opened Grids
  import opened Ratio

  /** One contour: its bounding rectangle, its parent's index and its filled pixels. */
  datatype Contour = Contour(x: int, y: int, width: int, height: int, parent: int, region: set<Point>)

  const LimitRatio: real := 5.5
  const LimitArea: real := 45.0

  // ---- the tests on a bounding box ------------------------------------------

  /** The erase test of the first pass. */
  predicate IsNoise(width: int, height: int, imgArea: int)
    requires 0 < width && 0 < height
    ensures IsNoise(width, height, imgArea) ==> imgArea > 45 * width * height
  {
    AreaShare(width, height, imgArea);
    var boxArea := (width as real) * (height as real);
    var boxRatio := NormalisedRatio(width as real, height as real);
    !(boxRatio < LimitRatio
      && (height as real) / (width as real) < LimitRatio
      && (imgArea as real) / boxArea < LimitArea)
    && (imgArea as real) / boxArea > LimitArea
  }

  /** The accept test of the second pass. */
  predicate IsCharacter(width: int, height: int, imgArea: int)
    requires 0 < width && 0 < height
    ensures IsCharacter(width, height, imgArea) ==> 4 * width * height < imgArea < 45 * width * height
  {
    AreaShare(width, height, imgArea);
    var boxArea := (width as real) * (height as real);
    var boxRatio := NormalisedRatio(width as real, height as real);
    boxRatio < LimitRatio && (height as real) / (width as real) < LimitRatio
    && 4.0 < (imgArea as real) / boxArea < LimitArea
  }

  /** The erase test applied in the second pass to a box that is not accepted. */
  predicate IsLeftover(width: int, height: int, imgArea: int)
    requires 0 < width && 0 < height
    ensures IsLeftover(width, height, imgArea) <==> imgArea > 45 * width * height
  {
    AreaShare(width, height, imgArea);
    (imgArea as real) / ((width as real) * (height as real)) > LimitArea
  }

  lemma AreaShare(width: int, height: int, imgArea: int)
    requires 0 < width && 0 < height
    ensures var boxArea := (width as real) * (height as real);
            && ((imgArea as real) / boxArea > LimitArea <==> imgArea > 45 * width * height)
            && ((imgArea as real) / boxArea < LimitArea <==> imgArea < 45 * width * height)
            && (4.0 < (imgArea as real) / boxArea <==> 4 * width * height < imgArea)
  {
    var boxArea := (width as real) * (height as real);
    PositiveProduct(width as real, height as real);
    QuotientAbove(imgArea as real, boxArea, LimitArea);
    QuotientBelow(imgArea as real, boxArea, LimitArea);
    QuotientAbove(imgArea as real, boxArea, 4.0);
    assert (45 * width * height) as real == 45.0 * boxArea;
    assert (4 * width * height) as real == 4.0 * boxArea;
  }

  /**
   * The first pass's negated "plausible" conjunct is implied by its second
   * conjunct: a box is noise exactly when the image is more than 45 times
   * its area.
   */
  lemma NoiseIsSmall(width: int, height: int, imgArea: int)
    requires 0 < width && 0 < height
    ensures IsNoise(width, height, imgArea) <==> imgArea > 45 * width * height
  {
    AreaShare(width, height, imgArea);
  }

  /**
   * A box is a character exactly when its longer side is under 5.5 times its
   * shorter side and the image is between 4 and 45 times its area, both
   * strictly.
   */
  lemma CharacterBands(width: int, height: int, imgArea: int)
    requires 0 < width && 0 < height
    ensures IsCharacter(width, height, imgArea) <==>
              && 2 * Max(width, height) < 11 * Min(width, height)
              && 4 * width * height < imgArea < 45 * width * height
  {
    var w := width as real;
    var h := height as real;
    AreaShare(width, height, imgArea);
    RatioLinear(w, h, LimitRatio);
    QuotientBelow(h, w, LimitRatio);
    assert RealMax(w, h) == Max(width, height) as real && RealMin(w, h) == Min(width, height) as real;
  }

  /** In the second pass the leftover test is the noise test of the first pass. */
  lemma LeftoverIsNoise(width: int, height: int, imgArea: int)
    requires 0 < width && 0 < height
    ensures IsLeftover(width, height, imgArea) <==> IsNoise(width, height, imgArea)
  {
    NoiseIsSmall(width, height, imgArea);
    AreaShare(width, height, imgArea);
  }

  /** No box is both a character and a leftover: an accepted box is never erased. */
  lemma CharacterIsNotLeftover(width: int, height: int, imgArea: int)
    requires 0 < width && 0 < height
    ensures IsCharacter(width, height, imgArea) ==> !IsLeftover(width, height, imgArea)
  {
    CharacterBands(width, height, imgArea);
    AreaShare(width, height, imgArea);
  }

  /** A 10 x 30 character in a 100 x 100 plate is kept; a 2 x 3 speck is noise. */
  lemma BoxScenarios()
    ensures IsCharacter(10, 30, 10000) && !IsNoise(10, 30, 10000)
    ensures IsNoise(2, 3, 10000) && !IsCharacter(2, 3, 10000)
  {
    CharacterBands(10, 30, 10000);
    NoiseIsSmall(10, 30, 10000);
    NoiseIsSmall(2, 3, 10000);
    CharacterBands(2, 3, 10000);
  }

  // ---- the tests on a contour -----------------------------------------------

  predicate HasArea(c: Contour) { c.width > 0 && c.height > 0 }

  predicate Noise(c: Contour, imgArea: int)
  {
    HasArea(c) && IsNoise(c.width, c.height, imgArea)
  }

  predicate TopLevel(c: Contour) { c.parent == -1 }

  predicate Character(c: Contour, imgArea: int)
  {
    TopLevel(c) && HasArea(c) && IsCharacter(c.width, c.height, imgArea)
  }

  predicate Leftover(c: Contour, imgArea: int)
  {
    TopLevel(c) && HasArea(c) && !IsCharacter(c.width, c.height, imgArea) && IsLeftover(c.width, c.height, imgArea)
  }

  /** A rejected top-level contour is erased exactly when it is noise by the first pass's measure. */
  lemma LeftoverIffNoise(c: Contour, imgArea: int)
    ensures Leftover(c, imgArea) <==> TopLevel(c) && Noise(c, imgArea)
  {
    if HasArea(c) {
      LeftoverIsNoise(c.width, c.height, imgArea);
      CharacterIsNotLeftover(c.width, c.height, imgArea);
    }
  }

  /** The pixels the first pass blacks out: the union of the noise contours' regions. */
  ghost function NoiseRegion(contours: seq<Contour>, imgArea: int): (region: set<Point>)
    ensures forall k :: 0 <= k < |contours| && Noise(contours[k], imgArea) ==> contours[k].region <= region
  {
    if contours == [] then {}
    else
      var last := contours[|contours| - 1];
      NoiseRegion(contours[..|contours| - 1], imgArea) + (if Noise(last, imgArea) then last.region else {})
  }

  /** The pixels the second pass blacks out: the union of the leftover contours' regions. */
  ghost function LeftoverRegion(contours: seq<Contour>, imgArea: int): (region: set<Point>)
    ensures forall k :: 0 <= k < |contours| && Leftover(contours[k], imgArea) ==> contours[k].region <= region
  {
    if contours == [] then {}
    else
      var last := contours[|contours| - 1];
      LeftoverRegion(contours[..|contours| - 1], imgArea) + (if Leftover(last, imgArea) then last.region else {})
  }

  /** A pixel is blacked out by the first pass exactly when a noise contour covers it. */
  lemma {:induction false} NoiseRegionMembership(contours: seq<Contour>, imgArea: int, p: Point)
    ensures p in NoiseRegion(contours, imgArea) <==>
              exists k :: 0 <= k < |contours| && Noise(contours[k], imgArea) && p in contours[k].region
  {
    if contours != [] {
      var init := contours[..|contours| - 1];
      NoiseRegionMembership(init, imgArea, p);
      assert forall k :: 0 <= k < |init| ==> init[k] == contours[k];
    }
  }

  /** A pixel is blacked out by the second pass exactly when a leftover contour covers it. */
  lemma {:induction false} LeftoverRegionMembership(contours: seq<Contour>, imgArea: int, p: Point)
    ensures p in LeftoverRegion(contours, imgArea) <==>
              exists k :: 0 <= k < |contours| && Leftover(contours[k], imgArea) && p in contours[k].region
  {
    if contours != [] {
      var init := contours[..|contours| - 1];
      LeftoverRegionMembership(init, imgArea, p);
      assert forall k :: 0 <= k < |init| ==> init[k] == contours[k];
    }
  }

  /** The four corners stored for an accepted box; the first is its top-left corner. */
  function BoxCorners(c: Contour): (r: seq<Point>)
    ensures |r| == 4 && r[0] == Point(c.x, c.y)
  {
    [Point(c.x, c.y), Point(c.x, c.y + c.height), Point(c.x + c.width, c.y), Point(c.x + c.width, c.y + c.height)]
  }

  /** The boxes of the accepted contours, in contour order. */
  function CharacterBoxes(contours: seq<Contour>, imgArea: int): (r: seq<seq<Point>>)
    ensures |r| <= |contours|
  {
    if contours == [] then []
    else
      var last := contours[|contours| - 1];
      CharacterBoxes(contours[..|contours| - 1], imgArea) + (if Character(last, imgArea) then [BoxCorners(last)] else [])
  }

  /**
   * Each stored box is the box of an accepted contour, and each accepted
   * contour's box is stored.
   */
  lemma {:induction false} CharacterBoxesMembership(contours: seq<Contour>, imgArea: int, box: seq<Point>)
    ensures box in CharacterBoxes(contours, imgArea) <==>
              exists k :: 0 <= k < |contours| && Character(contours[k], imgArea) && BoxCorners(contours[k]) == box
  {
    if contours != [] {
      var init := contours[..|contours| - 1];
      CharacterBoxesMembership(init, imgArea, box);
      assert forall k :: 0 <= k < |init| ==> init[k] == contours[k];
    }
  }

  /** The top-left corner of a stored box, the key the boxes are sorted by. */
  function TopLeft(box: seq<Point>): Point
  {
    if box == [] then Point(0, 0) else box[0]
  }

  /**
   * The boxes in the order the crops are returned: ascending by top-left
   * corner, ties kept in contour order; a rearrangement of the stored boxes.
   */
  lemma SortedBoxes(contours: seq<Contour>, imgArea: int)
    ensures SortedBy(SortBy(CharacterBoxes(contours, imgArea), TopLeft), TopLeft)
    ensures multiset(SortBy(CharacterBoxes(contours, imgArea), TopLeft)) == multiset(CharacterBoxes(contours, imgArea))
  {
    SortBySorted(CharacterBoxes(contours, imgArea), TopLeft);
    SortByPermutation(CharacterBoxes(contours, imgArea), TopLeft);
  }

  // ---- the image ------------------------------------------------------------

  /** `g` with the pixels of `region` set to 0 (black); pixels outside the image are ignored. */
  function Erased(g: Grid, region: set<Point>): (r: Grid)
    ensures |r| == |g|
    ensures forall i :: 0 <= i < |g| ==> |r[i]| == |g[i]|
    ensures forall i, j :: 0 <= i < |g| && 0 <= j < |g[i]| ==>
              r[i][j] == if Point(j, i) in region then 0 else g[i][j]
  {
    seq(|g|, (i: int) requires 0 <= i < |g| =>
      seq(|g[i]|, (j: int) requires 0 <= j < |g[i]| => if Point(j, i) in region then 0 else g[i][j]))
  }

  /** `drawContours(img, [ct], 0, black, thickness=-1)`: fill a contour's region with 0. */
  method Erase(img: array2<int>, region: set<Point>)
    modifies img
    ensures forall r, c :: 0 <= r < img.Length0 && 0 <= c < img.Length1 ==>
              img[r, c] == if Point(c, r) in region then 0 else old(img[r, c])
  {
    for r := 0 to img.Length0
      invariant forall i, j :: 0 <= i < img.Length0 && 0 <= j < img.Length1 ==>
                  img[i, j] == if i < r && Point(j, i) in region then 0 else old(img[i, j])
    {
      for c := 0 to img.Length1
        invariant forall i, j :: 0 <= i < img.Length0 && 0 <= j < img.Length1 ==>
                    img[i, j] == if (i < r || (i == r && j < c)) && Point(j, i) in region then 0 else old(img[i, j])
      {
        if Point(c, r) in region {
          img[r, c] := 0;
        }
      }
    }
  }

  /** The first pass: black out every noise contour. */
  method RemoveNoise(img: array2<int>, contours: seq<Contour>, imgArea: int)
    modifies img
    ensures forall r, c :: 0 <= r < img.Length0 && 0 <= c < img.Length1 ==>
              img[r, c] == if Point(c, r) in NoiseRegion(contours, imgArea) then 0 else old(img[r, c])
  {
    for i := 0 to |contours|
      invariant forall r, c :: 0 <= r < img.Length0 && 0 <= c < img.Length1 ==>
                  img[r, c] == if Point(c, r) in NoiseRegion(contours[..i], imgArea) then 0 else old(img[r, c])
    {
      assert contours[..i + 1][..i] == contours[..i];
      var ct := contours[i];
      if ct.width > 0 && ct.height > 0 {
        if IsNoise(ct.width, ct.height, imgArea) {
          Erase(img, ct.region);
        }
      }
    }
    assert contours[..|contours|] == contours;
  }

  /**
   * The second pass: skip contours with a parent, store the box of each
   * character, and black out each leftover.
   */
  method FindCharacters(img: array2<int>, contours: seq<Contour>, imgArea: int) returns (boxes: seq<seq<Point>>)
    modifies img
    ensures boxes == CharacterBoxes(contours, imgArea)
    ensures forall r, c :: 0 <= r < img.Length0 && 0 <= c < img.Length1 ==>
              img[r, c] == if Point(c, r) in LeftoverRegion(contours, imgArea) then 0 else old(img[r, c])
  {
    boxes := [];
    for i := 0 to |contours|
      invariant boxes == CharacterBoxes(contours[..i], imgArea)
      invariant forall r, c :: 0 <= r < img.Length0 && 0 <= c < img.Length1 ==>
                  img[r, c] == if Point(c, r) in LeftoverRegion(contours[..i], imgArea) then 0 else old(img[r, c])
    {
      assert contours[..i + 1][..i] == contours[..i];
      var ct := contours[i];
      if ct.parent != -1 {
        continue;
      }
      if ct.width > 0 && ct.height > 0 {
        if IsCharacter(ct.width, ct.height, imgArea) {
          boxes := boxes + [BoxCorners(ct)];
        } else {
          if IsLeftover(ct.width, ct.height, imgArea) {
            Erase(img, ct.region);
          }
        }
      }
    }
    assert contours[..|contours|] == contours;
  }

  /** `plate.copy()`. */
  method Copy(plate: array2<int>) returns (img: array2<int>)
    ensures fresh(img)
    ensures Snapshot(img) == Snapshot(plate)
  {
    img := new int[plate.Length0, plate.Length1];
    for r := 0 to plate.Length0
      invariant forall i, j :: 0 <= i < r && 0 <= j < plate.Length1 ==> img[i, j] == plate[i, j]
    {
      for c := 0 to plate.Length1
        invariant forall i, j :: 0 <= i < plate.Length0 && 0 <= j < plate.Length1 && (i < r || (i == r && j < c)) ==>
                    img[i, j] == plate[i, j]
      {
        img[r, c] := plate[r, c];
      }
    }
    SnapshotIs(img, Snapshot(plate));
  }

  /**
   * The whole of `segment_contours`: the plate itself is left untouched;
   * the result holds one crop per accepted box of the cleaned image, in
   * ascending order of the boxes' top-left corners.
   */
  method SegmentContours(plate: array2<int>, external: Grid -> seq<Contour>, tree: Grid -> seq<Contour>,
                         crop: (Grid, seq<Point>) -> Grid)
    returns (parts: seq<Grid>)
    ensures var g0 := Snapshot(plate);
            var imgArea := PixelArea(g0);
            var g1 := Erased(g0, NoiseRegion(external(g0), imgArea));
            var contours := tree(g1);
            var g2 := Erased(g1, LeftoverRegion(contours, imgArea));
            var boxesSorted := SortBy(CharacterBoxes(contours, imgArea), TopLeft);
            && |parts| == |boxesSorted|
            && forall i :: 0 <= i < |parts| ==> parts[i] == crop(g2, boxesSorted[i])
  {
    var img := Copy(plate);
    var imgHeight, imgWidth := img.Length0, img.Length1;
    var imgArea := imgHeight * imgWidth;
    ghost var g0 := Snapshot(plate);
    SnapshotArea(plate);

    var contours := external(Snapshot(img));
    RemoveNoise(img, contours, imgArea);
    ghost var g1 := Erased(g0, NoiseRegion(contours, imgArea));
    SnapshotIs(img, g1);

    contours := tree(Snapshot(img));
    var boxes := FindCharacters(img, contours, imgArea);
    ghost var g2 := Erased(g1, LeftoverRegion(contours, imgArea));
    SnapshotIs(img, g2);

    var boxesSorted := SortBy(boxes, TopLeft);
    var boxesSep := Snapshot(img);
    parts := [];
    for i := 0 to |boxesSorted|
      invariant |parts| == i
      invariant forall k :: 0 <= k < i ==> parts[k] == crop(boxesSep, boxesSorted[k])
    {
      parts := parts + [crop(boxesSep, boxesSorted[i])];
    }
  }
}
