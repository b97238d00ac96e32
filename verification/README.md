# License plate recognition: the numeric core, in Dafny

This project models the parts of the LicensePlateRecognition pipeline that
compute on numbers once OpenCV and PIL have handed back their results:

- **Quadrilateral sizing** (`utils/image.py`, `calculate_size`). Four corner
  points are sorted by (x, y). The height is the longer of the left and the
  right pair. The width pairs each left point with the right point nearer to
  its row.
- **The plate validator and filter** (`detector/CannyDetector.py`).
  `_check_size` accepts a candidate when its area and its aspect ratio both
  lie in inclusive bands around a 52 × 11 plate. `find_plates` keeps the
  convex four-corner contours that pass. It upscales a plate crop smaller
  than 4500 px.
- **Text deskewing** (`utils/transform.py`, `deskew_text`). Minimum-area
  boxes are filtered by ratio and by their share of the image. Their corners
  are gathered into a set. The two leftmost and the two rightmost corners,
  pushed outward by 3 px, become the source corners of a perspective warp.
- **Character segmentation** (`utils/segment.py`, `segment_contours`). A
  noise pass blacks out small blobs. A character pass keeps top-level boxes
  in the character bands and blacks out small leftovers. The kept boxes are
  cut out from left to right.
- **The hq2x upscaler** (`utils/hq2x.py`). It covers:
  - RGB→YUV conversion with its memo cache, and thresholded YUV equality;
  - the weighted means;
  - the 8-bit neighbourhood pattern and its 256-way case table;
  - edge-clamped sampling, and the loop that fills a 2w × 2h image.
- **Projection-profile text segmentation** (`detector/TextDetector.py`). It
  covers:
  - binarisation at 150;
  - `lineseg`, which cuts the image into lines where the row profile
    enters or leaves an all-white run;
  - the column profile of a line, and the `newsymbol` state machine that
    marks where characters start and end.

## How the model is built

- **Modules.** One module per source file: `Geometry` (image.py),
  `Canny`, `Transform`, `Segment`, `Hq2x` and `TextDetector`. Three shared
  modules sit beside them:
  - `Order` holds the (x, y) tuple order and a stable insertion sort that
    stands for Python's `sorted`;
  - `Ratio` holds the normalised side ratio and the facts needed to compare
    it without division or after squaring;
  - `Grids` holds a single-channel image as a list of rows, its `shape`
    and pixel count, and the contents of an `array2` read as such a list.
- **Numbers.**
  - Python floats are exact `real`s.
  - `math.hypot` is replaced by squared integer distances: the source only
    compares and maximises distances, and the square root is monotone. The
    validators are therefore stated twice, once on real sides as the source
    writes them and once on squared integer sides. A lemma proves that the
    two agree.
  - Python 2 integer `/` and `>>` floor. Dafny's `/` with a positive
    divisor floors too.
  - `np.int` truncates toward zero (`TextDetector.Truncate`).
- **OpenCV, PIL and display calls** are inputs or function parameters:
  - contours, with their bounding boxes, hierarchy parents and filled pixel
    regions;
  - box corners, crops, the warp, and the grey/Otsu chain.
- **State.** Imperative code keeps its form:
  - images are `array2<int>`, written in place by loops with invariants;
  - the memo dictionary of `rgb_to_yuv` is a class with a `map` field.

  Each method is proved against a specification function. The properties
  the source promises are then proved about those functions as lemmas.

## Model

| member | source | states |
|---|---|---|
| Order.LeqTotal | utils/image.py:36 | The (x, y) tuple order is total, and two points that are each at most the other are equal. |
| Order.InsertSorted | utils/image.py:36 | Inserting into an ascending list keeps it ascending. |
| Order.SortByPermutation | utils/segment.py:111 | `sorted` keeps every element as often as it occurs: the result is a rearrangement of the input. |
| Order.SortBySorted | utils/segment.py:111 | The result of `sorted` is in ascending order of the key. |
| Order.SortPointsIsSortBy | utils/image.py:36 | Sorting points under their own order is the generic stable sort with the identity key. |
| Order.SortPointsSpec | utils/image.py:36 | Sorting four (or any number of) points yields an ascending rearrangement of them. |
| Order.SortedUnique | utils/image.py:36 | Two ascending lists of points with the same multiset of points are equal, so a sort of points depends only on its input's multiset. |
| Order.SortPointsPermutationInvariant | utils/image.py:36 | Inputs that are rearrangements of each other sort to the same list. |
| Order.SortPointsOfSorted | utils/image.py:36 | Any rearrangement of an ascending list sorts back to that list. |
| Order.SortDistinct | utils/transform.py:82 | Sorting the members of a set (pairwise distinct) gives a strictly ascending list. |
| Order.ToSet | utils/transform.py:79-80 | The set built from a list holds exactly the list's entries. |
| Order.Least | utils/transform.py:82-87 | The least point of a non-empty set is in the set and at most every member. |
| Order.Greatest | utils/transform.py:82-96 | The greatest point of a non-empty set is in the set and at least every member. |
| Order.SecondExists | utils/transform.py:83-87 | With two distinct points, a point remains after removing the least or the greatest. |
| Order.HasTwoListed | utils/transform.py:83-87 | A list with two distinct entries has at least two entries. |
| Order.StrictlySortedExtremes | utils/transform.py:82-97 | `points_sorted[0]`, `[1]` are the least and second least points of the set, and `points_rev[0]`, `[1]` the greatest and second greatest. |
| Geometry.CalculateSize | utils/image.py:25-62 | Both squared sides are non-negative: the initial width of -1 is always replaced by a distance. |
| Geometry.SizeOfSorted | utils/image.py:38-62 | On points already sorted, both squared sides are non-negative. |
| Geometry.SortedFour | utils/image.py:36 | The four points leave the sort in ascending (x, y) order. |
| Geometry.SizeOfSortedPairing | utils/image.py:38-60 | On sorted points, the height is the longer of the (p0, p1) and (p2, p3) distances, and the width is the longer of p0's and p1's distance to its nearer-row partner among p2, p3 (p3 on a tie). |
| Geometry.CalculateSizePairing | utils/image.py:36-62 | Over the sorted input: the height is the larger of dist(p0, p1) and dist(p2, p3). The width is the larger of the two nearest-row pairings, with ties going to p3. |
| Geometry.CalculateSizePermutationInvariant | utils/image.py:36-62 | The size depends only on the multiset of the four points, not on their order. |
| Geometry.CalculateSizeDegenerate | utils/image.py:36-62 | Four identical points give size (0, 0). |
| Geometry.SizeOfAxisRectangle | utils/image.py:38-62 | The sorted corners of an axis-aligned w × h rectangle measure (w, h). |
| Geometry.SortedRectangle | utils/image.py:36 | The corners of an axis-aligned rectangle, in any order, sort into the left column and then the right column, each top first. |
| Geometry.CalculateSizeAxisRectangle | utils/image.py:25-62 | For the four corners of an axis-aligned W × H rectangle in any order, the result is (W, H), squared. |
| Grids.SnapshotArea | utils/segment.py:20-21 | The area from an image's shape is its rows times its columns. |
| Ratio.NormalisedRatio | detector/CannyDetector.py:61-63 | The ratio after inversion is at least 1, and it is the longer side over the shorter. |
| Ratio.RatioLinear | detector/CannyDetector.py:61-65 | A bound c holds on the normalised ratio exactly when the longer side is within c times the shorter side. |
| Ratio.RatioBoundSquared | detector/CannyDetector.py:61-65 | The same bound holds exactly when it holds, squared, on the squared sides. |
| Ratio.QuotientBelow | utils/transform.py:74 | `a / m < c` exactly when `a < c·m`, for positive m. |
| Ratio.QuotientAbove | utils/segment.py:41 | `a / m > c` exactly when `a > c·m`, for positive m. |
| Canny.BandsAreOrdered | detector/CannyDetector.py:37-49 | The ratio bands are aspect·0.83 and aspect·1.32 and the area bands 225·aspect and 12544·aspect. The bands are non-empty, and the minimum ratio exceeds 1. |
| Canny.CheckSize | detector/CannyDetector.py:55-75 | `_check_size` on real sides as the source writes it: an accepted candidate has two positive sides. `Canny.CheckSizeBands` states the whole accept condition as an iff. |
| Canny.CheckSizeBands | detector/CannyDetector.py:55-75 | A candidate is accepted iff both sides are positive, the area (or the explicit area) is in [min_area, max_area] and longer/shorter is in [min_ratio, max_ratio], both inclusive. |
| Canny.CheckSizeSymmetric | detector/CannyDetector.py:61-63 | Swapping width and height never changes the verdict. |
| Canny.CheckSizeExplicitArea | detector/CannyDetector.py:60 | An explicit area replaces width·height in the area test only; the ratio test is unaffected. |
| Canny.CheckSizeByRatio | detector/CannyDetector.py:60-65 | With the area in its band, acceptance is decided by the ratio of the sides alone. |
| Canny.CheckSizeScenarios | detector/CannyDetector.py:37-65 | A 200 × 42 candidate is accepted. A 50 × 50 candidate has its area in band and is rejected on ratio. |
| Canny.AreaSquared | detector/CannyDetector.py:60-65 | The area band holds exactly when the squared area lies between the squared bounds. |
| Canny.RatioBandAgrees | detector/CannyDetector.py:61-65 | The ratio band on real sides agrees with the squared-side ratio band. |
| Canny.AreaBandAgrees | detector/CannyDetector.py:60-65 | The area band on real sides agrees with the squared-side area band, with or without an explicit area. |
| Canny.SquaredSide | detector/CannyDetector.py:56-57 | A side is zero exactly when its square is, so the zero test survives squaring. |
| Canny.CheckSizeSqAgrees | detector/CannyDetector.py:55-75 | For any real sides whose squares are the integer squared sides, `_check_size` on the real sides and the squared-side test give the same verdict. |
| Canny.CheckSizeSqScenario | detector/CannyDetector.py:37-65 | Squared sides of 200 × 42 pass; squared sides of 50 × 50 fail. |
| Canny.CandidateScenario | detector/CannyDetector.py:51-65 | The four corners of a 200 × 42 axis-aligned rectangle pass the whole validator, measured by `calculate_size`. |
| Canny.KeepContour | detector/CannyDetector.py:113-120 | The filter of `find_plates`: a kept contour has four vertices and two positive squared sides. `Canny.KeptRectanglesMembership` and `Canny.KeptRectanglesPass` characterise the kept list. |
| Canny.KeptRectangles | detector/CannyDetector.py:111-120 | The filter keeps at most as many rectangles as there are contours, and every kept one has four corners. |
| Canny.KeptRectanglesMembership | detector/CannyDetector.py:111-120 | A rectangle is kept iff some contour with that approximation has area > 50, four vertices, is convex and passes the validator. |
| Canny.KeptRectanglesPass | detector/CannyDetector.py:111-120 | Every kept rectangle is a quadrilateral that passes `_check_size`. |
| Canny.PlateFor | detector/CannyDetector.py:125-143 | The plate stored for one rectangle is its binarised crop or the hq2x zoom of it: zoomed when its pixel area is below 4500, left as it is otherwise. |
| Canny.FindPlates | detector/CannyDetector.py:111-145 | One (plate, rectangle) pair per kept rectangle, in input order. Each plate is the processed crop of its rectangle, upscaled exactly when its pixel area is below 4500. |
| Transform.BoxAcceptedBands | utils/transform.py:61-74 | A box passes iff both sides are positive, the longer side is under 2.5 times the shorter, and the image area is under 45 box areas. The `0.5 <` bound can never fail. |
| Transform.AreaShareSquared | utils/transform.py:74 | The area-share test agrees with its squared integer form. |
| Transform.RatioShareSquared | utils/transform.py:64-74 | The ratio test agrees with its squared integer form. |
| Transform.BoxAcceptedSqAgrees | utils/transform.py:61-74 | For real sides whose squares are the measured squared sides, the source's box test and the squared test agree. |
| Transform.BoxScenarios | utils/transform.py:61-74 | A 20 × 30 box in a 100 × 100 image passes. A 10 × 30 box fails on ratio, and a 2 × 3 box fails on area share. |
| Transform.BoxAccepted | utils/transform.py:62-74 | The box test on real sides as the source writes it: an accepted box has two positive sides. `Transform.BoxAcceptedBands` states the whole condition as an iff. |
| Transform.AcceptedBoxHasTwo | utils/transform.py:61-62 | A box that passes has two distinct corners: a box whose four corners coincide has size zero. |
| Transform.AcceptedPoints | utils/transform.py:56-80 | Every collected point is a corner of some box. `Transform.AcceptedPointsMembership` gives the iff, with the box passing the test. |
| Transform.AcceptedPointsHasTwo | utils/transform.py:56-87 | The collected set is empty or holds two distinct points, so `points_sorted[1]` is always defined. |
| Transform.AcceptedPointsMembership | utils/transform.py:56-80 | A point is collected iff it is a corner of some box that passes. Duplicates from different boxes collapse into one. |
| Transform.AcceptedPointsLast | utils/transform.py:79-80 | One turn of the loop adds exactly the corners of the current box, when it passes. |
| Transform.ExistsSplit | utils/transform.py:56-80 | A box among the first n + 1 qualifies iff one among the first n does or the last one does. |
| Transform.CornersFrom | utils/transform.py:86-97 | Each corner is one of the two chosen points moved by the 3 px margin: left corners left, right corners right, top corners up, bottom corners down. On each side the top y exceeds the bottom y by the points' y gap plus 6. On a y tie both corners come from the second point. |
| Transform.Upper | utils/transform.py:87-93 | Of two points, the one whose y is the larger; the second point on a tie. |
| Transform.Lower | utils/transform.py:90-96 | Of two points, the one whose y is the smaller; the second point on a tie. |
| Transform.Reverse | utils/transform.py:84 | `s[::-1]` has the same length, with entry i being entry len-1-i of `s`. |
| Transform.SelectCorners | utils/transform.py:84-97 | The two left corners are the first two sorted points, and the two right corners the last two, each moved out by the margin. `Transform.SelectCornersOfSet` ties them to the set's least and greatest points. |
| Transform.SelectCornersOfSet | utils/transform.py:82-97 | On the sorted listing of a set, the chosen corners are those built from the set's least, second least, greatest and second greatest points. |
| Transform.SelectCornersLeftOfRight | utils/transform.py:87-97 | With at least four sorted points, both left corners lie at least 6 px left of both right corners. |
| Transform.Destination | utils/transform.py:100 | The destination corners span the whole `img_width` × `img_height` image, with the bottom-left corner at (0, 0). |
| Transform.SortedSet | utils/transform.py:82 | `sorted` of a set lists each member exactly once, in strictly ascending (x, y) order. |
| Transform.WarpFromPoints | utils/transform.py:82-121 | With no points the image is returned unchanged. Otherwise the result is the warp from the set's extreme corners onto (0,h), (w,h), (0,0), (w,0), in that order. |
| Transform.DeskewText | utils/transform.py:46-121 | The whole of `deskew_text`. With no passing box, the copy of the plate is returned. Otherwise the passing corners hold two distinct points, and the result is the warp from their selected corners onto the image's corners. |
| Segment.AreaShare | utils/segment.py:40-89 | The area-share comparisons with 45 and 4 are the integer comparisons of the image area with 45 and 4 box areas. |
| Segment.NoiseIsSmall | utils/segment.py:36-41 | The noise test reduces to image area > 45 box areas: the negated "plausible" conjunct is implied. |
| Segment.CharacterBands | utils/segment.py:64-67 | A box is a character iff its longer side is under 5.5 times its shorter and the image is strictly between 4 and 45 box areas. |
| Segment.LeftoverIsNoise | utils/segment.py:38-89 | The second pass's erase test is the first pass's noise test. |
| Segment.CharacterIsNotLeftover | utils/segment.py:66-91 | No box is both accepted and erased. |
| Segment.BoxScenarios | utils/segment.py:36-67 | A 10 × 30 box in a 100 × 100 plate is a character and not noise. A 2 × 3 speck is noise and not a character. |
| Segment.IsNoise | utils/segment.py:30-41 | A box erased by the first pass is one whose image area exceeds 45 box areas. `Segment.NoiseIsSmall` proves the converse. |
| Segment.IsCharacter | utils/segment.py:56-67 | An accepted box has an image area strictly between 4 and 45 box areas. `Segment.CharacterBands` adds the ratio bands and the converse. |
| Segment.IsLeftover | utils/segment.py:89 | A rejected box is erased in the second pass exactly when the image area exceeds 45 box areas. |
| Segment.LeftoverIffNoise | utils/segment.py:52-91 | A contour is erased by the second pass iff it has no parent, has area, and is noise by the first pass's measure. |
| Segment.NoiseRegion | utils/segment.py:27-43 | Every noise contour's filled region lies inside the pixels the first pass blacks out. |
| Segment.NoiseRegionMembership | utils/segment.py:27-43 | A pixel is blacked out by the first pass exactly when some noise contour covers it. |
| Segment.LeftoverRegion | utils/segment.py:85-91 | Every leftover contour's filled region lies inside the pixels the second pass blacks out. |
| Segment.LeftoverRegionMembership | utils/segment.py:85-91 | A pixel is blacked out by the second pass iff a leftover contour covers it. |
| Segment.BoxCorners | utils/segment.py:81-84 | A stored box has four corners, the first being the bounding rectangle's top-left (x, y). |
| Segment.CharacterBoxes | utils/segment.py:48-84 | No more boxes are stored than there are contours. |
| Segment.CharacterBoxesMembership | utils/segment.py:48-84 | A box is stored iff it is the box of a top-level contour with area that passes the character test. |
| Segment.SortedBoxes | utils/segment.py:111 | The boxes are returned ascending by top-left corner, as a rearrangement of the stored boxes. |
| Segment.Erased | utils/segment.py:42-43 | Filling sets exactly the region's pixels to 0 and leaves every other pixel and the shape unchanged. |
| Segment.Erase | utils/segment.py:42-43 | The same, in place on the image array. |
| Segment.RemoveNoise | utils/segment.py:27-43 | After the first pass every pixel that a noise contour covers is 0, and every other pixel keeps its old value (so a pixel that was already 0 stays 0). `Segment.NoiseRegionMembership` says which pixels the noise contours cover. |
| Segment.FindCharacters | utils/segment.py:48-91 | The second pass stores exactly the character boxes in contour order, and blacks out exactly the leftover regions. |
| Segment.Copy | utils/segment.py:16 | The copy is a fresh array with the plate's contents. |
| Segment.SegmentContours | utils/segment.py:6-116 | The plate is never modified. The result has one crop per accepted box, taken from the twice-cleaned copy, ascending by the boxes' top-left corners. |
| Hq2x.ContextFlagValues | utils/hq2x.py:14-21 | The eight non-centre positions get the flags 1, 2, 4, …, 128 in order, skipping CENTER, and no two flags share a bit. |
| Hq2x.FlagsDisjoint | utils/hq2x.py:14-21 | Flags of different positions share no bit. |
| Hq2x.ContextFlagAsInt | utils/hq2x.py:16-21 | The flag of a position is 2 to the power of its index among the eight. |
| Hq2x.BuildContextFlags | utils/hq2x.py:14-21 | The shifting loop defines a flag for exactly the eight non-centre positions, each the power of two above. |
| Hq2x.RgbToYuvBounds | utils/hq2x.py:32-50 | For 24-bit colour, y lies in 0..191 and u, v lie in 64..191. |
| Hq2x.RgbToYuvGrey | utils/hq2x.py:45-47 | A grey level gives u = v = 128 and y = ⌊3·level/4⌋. |
| Hq2x.YuvCache.constructor | utils/hq2x.py:29 | The cache starts empty and consistent. |
| Hq2x.YuvCache.Lookup | utils/hq2x.py:32-50 | Cached or not, the answer is the computed conversion. The cache keeps holding only correct entries and gains the looked-up colour. |
| Hq2x.RgbToYuv | utils/hq2x.py:43-50 | A grey colour has no chroma: u = v = 128. `Hq2x.RgbToYuvBounds` and `Hq2x.RgbToYuvGrey` give the ranges and y. |
| Hq2x.YuvEqualBands | utils/hq2x.py:25-67 | Equal-ish iff the y, u and v components differ by at most 48, 7 and 6 respectively. |
| Hq2x.YuvEqual | utils/hq2x.py:53-67 | Every colour is equal-ish to itself. `Hq2x.YuvEqualBands` states the three thresholds as one iff. |
| Hq2x.YuvEqualReflexive | utils/hq2x.py:53-67 | Every colour is equal-ish to itself. |
| Hq2x.YuvEqualSymmetric | utils/hq2x.py:53-67 | Equal-ishness is symmetric. |
| Hq2x.YuvEqualNotTransitive | utils/hq2x.py:53-67 | Equal-ishness is not transitive (y 0 ~ 48 ~ 96, but 0 ≁ 96). |
| Hq2x.Mean1 | utils/hq2x.py:75-76 | `interp1` lies between the smallest and the largest of its inputs. |
| Hq2x.Mean2 | utils/hq2x.py:79-80 | `interp2` lies between the smallest and the largest of its inputs. |
| Hq2x.Mean5 | utils/hq2x.py:83-84 | `interp5` lies between the smallest and the largest of its inputs. |
| Hq2x.Mean6 | utils/hq2x.py:87-88 | `interp6` lies between the smallest and the largest of its inputs. |
| Hq2x.Mean7 | utils/hq2x.py:91-92 | `interp7` lies between the smallest and the largest of its inputs. |
| Hq2x.Mean9 | utils/hq2x.py:95-96 | `interp9` lies between the smallest and the largest of its inputs. |
| Hq2x.Mean10 | utils/hq2x.py:99-100 | `interp10` lies between the smallest and the largest of its inputs. |
| Hq2x.RuleForCovers | utils/hq2x.py:176-1532 | Every one of the 256 patterns matches some branch, so tl, tr, bl and br are always assigned. |
| Hq2x.RuleFor | utils/hq2x.py:176-180 | With no differing neighbour (pattern 0) each corner is `interp2` of the centre and its two adjacent edge neighbours. `Hq2x.RuleForCovers` shows every pattern has a branch. |
| Hq2x.YuvContext | utils/hq2x.py:168 | One converted colour per context entry, position by position. |
| Hq2x.PatternStep | utils/hq2x.py:172-174 | One turn ORs in the position's flag when that neighbour differs from the centre, and changes nothing otherwise. |
| Hq2x.PatternUpToBits | utils/hq2x.py:171-174 | After n turns, a position's bit is set iff the position is among the first n and differs from the centre. |
| Hq2x.PatternBitStep | utils/hq2x.py:172-174 | A turn sets a position's bit only when it is that position's turn and the position differs from the centre. |
| Hq2x.Pattern | utils/hq2x.py:171-174 | When no neighbour differs from the centre the pattern is 0. `Hq2x.PatternBits` characterises every bit. |
| Hq2x.UniformPatternUpTo | utils/hq2x.py:171-174 | When no neighbour differs, no turn of the loop sets a bit. |
| Hq2x.PatternBits | utils/hq2x.py:168-174 | A neighbour's bit is set iff it is not equal-ish to the centre, and a context equal-ish everywhere gives pattern 0. |
| Hq2x.ConvertContext | utils/hq2x.py:168 | The converted context equals the conversion of every entry. The cache stays correct and gains exactly the context's colours. |
| Hq2x.ComputePattern | utils/hq2x.py:171-174 | The loop yields exactly the pattern whose bits mark the differing neighbours. |
| Hq2x.Hq2xPixel | utils/hq2x.py:156-1534 | The four colours are those the matching branch of the table assigns for this context. The cache stays correct. |
| Hq2x.BlendWithin | utils/hq2x.py:71-100 | Every blend of context colours stays, channel by channel, within any range holding the whole context. |
| Hq2x.CornerWithin | utils/hq2x.py:176-1532 | Whichever side of a branch's edge test is taken, the corner stays within that range. |
| Hq2x.UpscaledWithin | utils/hq2x.py:156-1534 | All four outputs stay within any channel range holding the context, so 24-bit colour in gives 24-bit colour out. |
| Hq2x.Upscaled | utils/hq2x.py:156-1534 | `hq2x_pixel` of a uniform context is four copies of the centre. `Hq2x.UpscaledWithin` bounds every output. |
| Hq2x.UniformCorners | utils/hq2x.py:176-1532 | In a uniform context every corner of any branch is the centre colour. |
| Hq2x.UniformContext | utils/hq2x.py:171-180 | A uniform context has pattern 0, and all four outputs equal the centre colour. |
| Hq2x.Clamp | utils/hq2x.py:122-131 | `get_px` caps a coordinate into [0, n-1] and is the identity in range. |
| Hq2x.GetPx | utils/hq2x.py:122-133 | Inside the image `get_px` returns the pixel at (x, y); outside it returns some pixel of the image. |
| Hq2x.ContextAt | utils/hq2x.py:140-144 | The flattened context holds nine pixels. `Hq2x.ContextAtInterior` and `Hq2x.ContextAtOrigin` say which. |
| Hq2x.ContextAtInterior | utils/hq2x.py:122-144 | Inside the image, the context is the true 3×3 neighbourhood, read across and down. |
| Hq2x.ContextAtOrigin | utils/hq2x.py:122-144 | At (0, 0) the missing row and column repeat the edge pixels. |
| Hq2x.WriteBlock | utils/hq2x.py:148-151 | The four assignments fill exactly the 2×2 block at (2x, 2y) with tl, tr (first row) and bl, br (second row). |
| Hq2x.UpscaleColumn | utils/hq2x.py:136-151 | The inner loop fills exactly the blocks of source column x and leaves the rest of the destination untouched. |
| Hq2x.Upscale | utils/hq2x.py:103-153 | The destination is 2w × 2h, and every pixel (i, j) holds the corner (i mod 2, j mod 2) of `hq2x_pixel` of source pixel (i/2, j/2)'s clamped context. |
| TextDetector.BrightDark | detector/TextDetector.py:74-81 | Every pixel of a row is counted by exactly one of `c` and `a1`. |
| TextDetector.BrightDarkRows | detector/TextDetector.py:70-81 | Over the image, c + a1 = rows · cols. |
| TextDetector.Binarised | detector/TextDetector.py:76-81 | A pixel becomes 255 iff its grey value exceeds 150, and 0 iff it does not. |
| TextDetector.Binarise | detector/TextDetector.py:70-81 | `bw[i][j]` is 255 iff `b[i][j] > 150`, else 0. `c` and `a1` count the two kinds, and c + a1 = rows · cols. |
| TextDetector.BinariseRow | detector/TextDetector.py:75-81 | One row is binarised and counted; the other rows are unchanged. |
| TextDetector.Truncate | detector/TextDetector.py:98-99 | `np.int` of a quotient is the quotient rounded toward zero. |
| TextDetector.RowProfile | detector/TextDetector.py:96-100 | `sumofrows` has one entry per row, the truncated sum of that row over 255. |
| TextDetector.SumOfBinary | detector/TextDetector.py:98 | On a 0/255 row the sum is 255 times the number of white pixels. |
| TextDetector.AllWhite | detector/TextDetector.py:116 | The white count equals the row length iff every pixel is white. |
| TextDetector.RowCountOfBinary | detector/TextDetector.py:96-116 | On a 0/255 row the profile entry is the number of white pixels, and equals the width iff the whole row is white. |
| TextDetector.SumRows | detector/TextDetector.py:96-100 | The loop builds exactly the row profile. |
| TextDetector.RowStep | detector/TextDetector.py:115-119 | One turn appends at most one boundary, and it is i - 1 or i + 1. |
| TextDetector.RowBoundaries | detector/TextDetector.py:114-119 | After n turns `segment` holds at most n boundaries. `TextDetector.RowBoundariesRange` and `TextDetector.RowBoundariesPaired` give range and pairing. |
| TextDetector.RowBoundariesRange | detector/TextDetector.py:114-119 | Boundaries are row indices or -1, at most one per turn. No boundary lies more than one row before the previous one. |
| TextDetector.PairedStart | detector/TextDetector.py:116-117 | Appending a start on leaving a full run keeps the start/end pairing. |
| TextDetector.PairedEnd | detector/TextDetector.py:118-119 | Appending an end on entering a full run keeps the pairing. |
| TextDetector.RowBoundariesPaired | detector/TextDetector.py:114-126 | When the first row is full, the boundaries alternate start/end, and each end lies at least three rows after its start. |
| TextDetector.FindRowBoundaries | detector/TextDetector.py:114-119 | The loop builds exactly the boundary list over the whole profile. |
| TextDetector.PyIndex | detector/TextDetector.py:130-135 | A list index of -1 reads the last row; non-negative indices read themselves. |
| TextDetector.CopyLine | detector/TextDetector.py:124-138 | Each line image is fresh, with `segment[k+1]-segment[k]+2` rows of `noofcoloums` columns. Its first rows are copied in order from `bw` rows `segment[k]` onward, and the rest are 255. |
| TextDetector.LineSeg | detector/TextDetector.py:85-143 | `lineseg` returns ⌊len(segment)/2⌋ images. Image l is the line image between boundaries 2l and 2l+1, and every boundary is a valid row index or -1. |
| TextDetector.ColumnStep | detector/TextDetector.py:183-189 | One turn appends at most one boundary and keeps the earlier ones. |
| TextDetector.ColumnScan | detector/TextDetector.py:178-189 | After n turns `segment2` holds at most n boundaries. `TextDetector.ColumnScanShape` gives its shape. |
| TextDetector.StartKeepsShape | detector/TextDetector.py:184-186 | A start keeps the scan's shape and sets `newsymbol` to 1. |
| TextDetector.EndKeepsShape | detector/TextDetector.py:187-189 | An end keeps the scan's shape and sets `newsymbol` to 0. |
| TextDetector.StepKeepsShape | detector/TextDetector.py:183-189 | One turn keeps the scan's shape. |
| TextDetector.ColumnScanShape | detector/TextDetector.py:178-189 | After every turn: `newsymbol` is 1 exactly after an unmatched start; starts and ends alternate; each start is a drop to at most lena-4 and each end a rise back above it; each end is at least two columns after its start, and the next start is not before it. |
| TextDetector.ColumnBoundaries | detector/TextDetector.py:178-189 | The state machine builds exactly the scanned boundary list. |
| TextDetector.Column | detector/TextDetector.py:158-159 | Column c read top to bottom, one entry per row. |
| TextDetector.ColumnProfile | detector/TextDetector.py:157-164 | The per-column profile has one entry per column, each the truncated column sum over 255. |
| TextDetector.ColumnProfileOfBinary | detector/TextDetector.py:157-164 | On a 0/255 line, each profile entry is the column's white count, and equals the height iff the column is all white. |
| TextDetector.ColumnSums | detector/TextDetector.py:150-164 | The column loop, with its count restarted per column, builds exactly the per-column profile. |
| TextDetector.CarriedProfile | detector/TextDetector.py:152-164 | The column counts as written, with `k` carried from column to column: one entry per column. |
| TextDetector.CarriedProfilePrefix | detector/TextDetector.py:157-164 | The carried counts of the first m columns do not depend on later columns. |
| TextDetector.CarriedProfileDrifts | detector/TextDetector.py:152-164 | On an all-white line of at least 255 rows, the second carried count is height + ⌊height/255⌋, above the height, while the per-column count is the height. |
| TextDetector.CharacterBoundaries | detector/TextDetector.py:150-189 | The character boundaries of a line are the state machine run over its per-column profile. |

## Left out

- The OpenCV and PIL primitives are inputs or parameters, not models:
  - contour finding with its hierarchy, `boundingRect`, `minAreaRect`/`BoxPoints`/`int0`;
  - `approxPolyDP`, `isContourConvex`, `contourArea`;
  - the grey/invert/Otsu chain, `getPerspectiveTransform`/`warpPerspective`;
  - `drawContours` (a contour's filled pixels are an input set);
  - `display.get_parts_of_image` is not part of this model; it is a crop parameter.
- Floating point: floats are exact reals, and `math.hypot` is replaced by squared integer distances. Rounding of float division and of `hypot` is not modelled.
- Printing, `__debug__` displays and `show_image` calls are left out. So are the module-level file reading, plotting and `imsave` calls in detector/TextDetector.py (lines 18-69 and 217-223).
- `deskew_lines` (Hough lines and a float rotation) and `hq2x_zoom` (PIL and numpy conversions) are left out, as are the other detectors.
- The `boxes` list of `deskew_text` is left out: it is only drawn on the debug image.
- `hq2x` is left out before its pixel loop: its image-mode conversion and `Image.new`. The destination starts black, and every pixel is overwritten.
- `lineseg`'s `sum1` and `segment1` loops and the `sum1` loop of the character pass are left out. They only feed prints (TextDetector.py:91-94, 103-112, 151, 173-176).
- The character cutting loop and its recursive `lineseg` call are left out (TextDetector.py:195-215). Its two stray tuple statements at lines 212-213 have no effect.
- TextDetector.LineSeg: requires a non-empty image, because the source reads `bw[0]` first and would raise on an empty one.
- TextDetector.ColumnSums: takes the line image's width as its column count. The source uses `len(a[i1])`, the length of row `i1` of the i1-th line. That is the same width whenever that row exists; otherwise the source raises an IndexError, which is not modelled.
- Canny.FindPlates: crops each rectangle with a parameter function. The source crops all rectangles in one call, and the model assumes that call crops each rectangle on its own.
- Segment.SegmentContours: the final grey-to-BGR conversion of each crop is folded into the crop parameter.
- Hq2x.RuleFor: a branch that sets two corners under one `if` is modelled as two corners with the same condition. The 256-way table uses bv8 patterns.
- Geometry.CalculateSizeAxisRectangle: requires a positive width. With width 0 the four corners collapse to two points and the pairing test no longer picks the rectangle's sides.

## Findings

| source | as written | input that shows it | evidently intended | confidence | as-written member | corrected member |
|---|---|---|---|---|---|---|
| detector/TextDetector.py:152-164 | `k` is set to 0 once per line image, before the column loop. The running count of each column therefore starts from the previous column's count. | An all-white line image at least 255 rows high and 2 columns wide. The second entry of `sumofcols` is `rows + rows // 255`, above the row count. | `k` restarted for every column: the number of white pixels in that column. | high; not executed | TextDetector.CarriedProfileDrifts | TextDetector.ColumnSums |
