/**
 * The projection-profile text segmentation of `detector/TextDetector.py`:
 * a grey image is binarised at 150, `lineseg` cuts it into horizontal text
 * lines at the rows where the row profile enters or leaves an all-white run,
 * and a column scan with a `newsymbol` flag marks where characters start and
 * end inside a line.
 *
 * Images are `array2<int>` indexed `[row, column]`, as numpy indexes them;
 * `Snapshot` gives their contents as a list of rows.
 */
module TextDetector {
  import opened Grids

  const Threshold := 150
  const White := 255

  /* ---------------------------------------------------------------------- */
  /* Binarisation                                                            */
  /* ---------------------------------------------------------------------- */

  /** The number of entries of `row` above the threshold. */
  function Bright(row: seq<int>): (n: nat)
    ensures n <= |row|
  {
    if row == [] then 0 else Bright(row[..|row| - 1]) + (if row[|row| - 1] > Threshold then 1 else 0)
  }

  /** The number of entries of `row` at or below the threshold. */
  function Dark(row: seq<int>): (n: nat)
    ensures n <= |row|
  {
    if row == [] then 0 else Dark(row[..|row| - 1]) + (if row[|row| - 1] <= Threshold then 1 else 0)
  }

  /** Every entry is either bright or dark. */
  lemma {:induction false} BrightDark(row: seq<int>)
    ensures Bright(row) + Dark(row) == |row|
  {
    if row != [] {
      BrightDark(row[..|row| - 1]);
    }
  }

  /** Bright pixels of the first `n` rows. */
  function BrightRows(g: Grid, n: nat): nat
    requires n <= |g|
  {
    if n == 0 then 0 else BrightRows(g, n - 1) + Bright(g[n - 1])
  }

  /** Dark pixels of the first `n` rows. */
  function DarkRows(g: Grid, n: nat): nat
    requires n <= |g|
  {
    if n == 0 then 0 else DarkRows(g, n - 1) + Dark(g[n - 1])
  }

  /** Over rows of width `w`, the two counts add up to the pixel count. */
  lemma {:induction false} BrightDarkRows(g: Grid, n: nat, w: nat)
    requires n <= |g|
    requires forall i :: 0 <= i < |g| ==> |g[i]| == w
    ensures BrightRows(g, n) + DarkRows(g, n) == n * w
  {
    if n > 0 {
      BrightDarkRows(g, n - 1, w);
      BrightDark(g[n - 1]);
    }
  }

  /** The value a pixel gets in `bw`. */
  function Binarised(v: int): (r: int)
    ensures r == White <==> v > Threshold
    ensures r == 0 <==> v <= Threshold
  {
    if v > Threshold then White else 0
  }

  /**
   * The module-level binarisation loop: `bw` is 255 where the grey value is
   * above 150 and 0 elsewhere; `c` counts the first kind and `a1` the second.
   */
  method Binarise(b: array2<int>) returns (bw: array2<int>, c: nat, a1: nat)
    ensures fresh(bw) && bw.Length0 == b.Length0 && bw.Length1 == b.Length1
    ensures forall i, j :: 0 <= i < b.Length0 && 0 <= j < b.Length1 ==> bw[i, j] == Binarised(b[i, j])
    ensures c == BrightRows(Snapshot(b), b.Length0) && a1 == DarkRows(Snapshot(b), b.Length0)
    ensures c + a1 == b.Length0 * b.Length1
  {
    ghost var g := Snapshot(b);
    bw := new int[b.Length0, b.Length1]((i, j) => 0);
    c, a1 := 0, 0;
    for i := 0 to b.Length0
      invariant c == BrightRows(g, i) && a1 == DarkRows(g, i)
      invariant forall r, s :: 0 <= r < i && 0 <= s < b.Length1 ==> bw[r, s] == Binarised(b[r, s])
    {
      var bright, dark := BinariseRow(b, bw, i);
      c, a1 := c + bright, a1 + dark;
    }
    BrightDarkRows(g, b.Length0, b.Length1);
  }

  /** One row of the binarisation loop: writes row `i` of `bw` and counts its two kinds of pixel. */
  method BinariseRow(b: array2<int>, bw: array2<int>, i: nat) returns (bright: nat, dark: nat)
    requires bw != b && bw.Length0 == b.Length0 && bw.Length1 == b.Length1 && i < b.Length0
    modifies bw
    ensures bright == Bright(Snapshot(b)[i]) && dark == Dark(Snapshot(b)[i])
    ensures forall s :: 0 <= s < b.Length1 ==> bw[i, s] == Binarised(b[i, s])
    ensures forall r, s :: 0 <= r < b.Length0 && r != i && 0 <= s < b.Length1 ==> bw[r, s] == old(bw[r, s])
  {
    ghost var row := Snapshot(b)[i];
    bright, dark := 0, 0;
    for j := 0 to b.Length1
      invariant bright == Bright(row[..j]) && dark == Dark(row[..j])
      invariant forall s :: 0 <= s < j ==> bw[i, s] == Binarised(b[i, s])
      invariant forall r, s :: 0 <= r < b.Length0 && r != i && 0 <= s < b.Length1 ==> bw[r, s] == old(bw[r, s])
    {
      assert row[..j + 1][..j] == row[..j];
      if b[i, j] > Threshold {
        bright := bright + 1;
        bw[i, j] := White;
      }
      if b[i, j] <= Threshold {
        dark := dark + 1;
        bw[i, j] := 0;
      }
    }
    assert row[..b.Length1] == row;
  }

  /* ---------------------------------------------------------------------- */
  /* Row profile                                                             */
  /* ---------------------------------------------------------------------- */

  function Sum(row: seq<int>): int
  {
    if row == [] then 0 else Sum(row[..|row| - 1]) + row[|row| - 1]
  }

  /** `np.int` of a quotient: truncation toward zero. */
  function Truncate(a: int, d: int): (q: int)
    requires d > 0
    ensures a >= 0 ==> q * d <= a < q * d + d
    ensures a < 0 ==> q * d - d < a <= q * d
  {
    if a >= 0 then a / d else -((-a) / d)
  }

  /** `np.int(sum(row) / 255)`. */
  function RowCount(row: seq<int>): int
  {
    Truncate(Sum(row), White)
  }

  /** The profile `sumofrows`: one count per row. */
  function RowProfile(g: Grid): (s: seq<int>)
    ensures |s| == |g|
    ensures forall i :: 0 <= i < |g| ==> s[i] == RowCount(g[i])
  {
    seq(|g|, i requires 0 <= i < |g| => RowCount(g[i]))
  }

  /** Every pixel is 0 or 255, as after binarisation. */
  predicate BinaryRow(row: seq<int>)
  {
    forall k :: 0 <= k < |row| ==> row[k] == 0 || row[k] == White
  }

  /** The number of white pixels. */
  function WhiteIn(row: seq<int>): (n: nat)
    ensures n <= |row|
  {
    if row == [] then 0 else WhiteIn(row[..|row| - 1]) + (if row[|row| - 1] == White then 1 else 0)
  }

  lemma {:induction false} SumOfBinary(row: seq<int>)
    requires BinaryRow(row)
    ensures Sum(row) == White * WhiteIn(row)
  {
    if row != [] {
      SumOfBinary(row[..|row| - 1]);
    }
  }

  lemma {:induction false} AllWhite(row: seq<int>)
    ensures WhiteIn(row) == |row| <==> forall k :: 0 <= k < |row| ==> row[k] == White
  {
    if row != [] {
      var init := row[..|row| - 1];
      AllWhite(init);
      assert forall k :: 0 <= k < |init| ==> init[k] == row[k];
    }
  }

  /**
   * On a binary row the profile entry is the number of white pixels, and it
   * equals the row length exactly when the whole row is white.
   */
  lemma RowCountOfBinary(row: seq<int>)
    requires BinaryRow(row)
    ensures RowCount(row) == WhiteIn(row)
    ensures RowCount(row) == |row| <==> forall k :: 0 <= k < |row| ==> row[k] == White
  {
    SumOfBinary(row);
    AllWhite(row);
  }

  /** The loop of `lineseg` that appends one count per row. */
  method SumRows(bw: array2<int>) returns (sumofrows: seq<int>)
    ensures sumofrows == RowProfile(Snapshot(bw))
  {
    var g := Snapshot(bw);
    sumofrows := [];
    for i := 0 to bw.Length0
      invariant |sumofrows| == i
      invariant forall r :: 0 <= r < i ==> sumofrows[r] == RowCount(g[r])
    {
      sumofrows := sumofrows + [RowCount(g[i])];
    }
  }

  /* ---------------------------------------------------------------------- */
  /* Line boundaries                                                         */
  /* ---------------------------------------------------------------------- */

  /**
   * What one turn of the boundary loop appends at row `i`: `i - 1` where a
   * full row is followed by a non-full one, `i + 1` where a non-full row is
   * followed by a full one.
   */
  function RowStep(s: seq<int>, cols: int, i: nat): (r: seq<int>)
    requires i + 1 < |s|
    ensures |r| <= 1
    ensures forall v :: v in r ==> v == i - 1 || v == i + 1
  {
    (if s[i] == cols && s[i + 1] < cols then [i - 1] else [])
    + (if s[i] < cols && s[i + 1] == cols then [i + 1] else [])
  }

  /** `segment` after the first `n` turns of the loop. */
  function RowBoundaries(s: seq<int>, cols: int, n: nat): (seg: seq<int>)
    requires n == 0 || n < |s|
    ensures |seg| <= n
  {
    if n == 0 then [] else RowBoundaries(s, cols, n - 1) + RowStep(s, cols, n - 1)
  }

  /** The last turn of the loop, over the whole profile. */
  function Turns(s: seq<int>): nat
  {
    if |s| == 0 then 0 else |s| - 1
  }

  /**
   * Every boundary is a row index or -1, and no boundary lies more than one
   * row before the one appended before it.
   */
  lemma {:induction false} RowBoundariesRange(s: seq<int>, cols: int, n: nat)
    requires n == 0 || n < |s|
    ensures var seg := RowBoundaries(s, cols, n);
            && |seg| <= n
            && (forall m :: 0 <= m < |seg| ==> -1 <= seg[m] <= n)
            && (forall m, m' :: 0 <= m && m' == m + 1 < |seg| ==> seg[m'] >= seg[m] - 1)
  {
    if n > 0 {
      RowBoundariesRange(s, cols, n - 1);
      var before := RowBoundaries(s, cols, n - 1);
      var step := RowStep(s, cols, n - 1);
      var seg := before + step;
      forall m, m' | 0 <= m && m' == m + 1 < |seg| ensures seg[m'] >= seg[m] - 1 {
        if m' == |before| {
          assert seg[m'] in step;
        }
      }
    }
  }

  /**
   * The pairing of boundaries after `n` turns: an even count means the scan
   * is in a full run, an open start lies at least two rows back, and every
   * end lies at least three rows after its start.
   */
  ghost predicate Paired(s: seq<int>, cols: int, n: nat, seg: seq<int>)
    requires n < |s|
  {
    && (|seg| % 2 == 0 <==> s[n] == cols)
    && (|seg| % 2 == 1 ==> seg[|seg| - 1] <= n - 2)
    && (forall m, m' :: 0 <= m && m' == m + 1 < |seg| && m % 2 == 0 ==> seg[m'] >= seg[m] + 3)
  }

  /** A start appended on leaving a full run keeps the pairing. */
  lemma PairedStart(s: seq<int>, cols: int, n: nat, before: seq<int>)
    requires 0 < n < |s| && Paired(s, cols, n - 1, before)
    requires s[n - 1] == cols && s[n] < cols
    ensures Paired(s, cols, n, before + [n - 2])
  {
    var seg := before + [n - 2];
    forall m, m' | 0 <= m && m' == m + 1 < |seg| && m % 2 == 0 ensures seg[m'] >= seg[m] + 3 {
      assert seg[m] == before[m] && seg[m'] == before[m'];
    }
  }

  /** An end appended on entering a full run keeps the pairing. */
  lemma PairedEnd(s: seq<int>, cols: int, n: nat, before: seq<int>)
    requires 0 < n < |s| && Paired(s, cols, n - 1, before)
    requires s[n - 1] < cols && s[n] == cols
    ensures Paired(s, cols, n, before + [n])
  {
    var seg := before + [n];
    forall m, m' | 0 <= m && m' == m + 1 < |seg| && m % 2 == 0 ensures seg[m'] >= seg[m] + 3 {
      if m' == |before| {
        assert seg[m] == before[|before| - 1];
      } else {
        assert seg[m] == before[m] && seg[m'] == before[m'];
      }
    }
  }

  /**
   * When the first row is full and no row exceeds the width, the boundaries
   * come in (start, end) pairs, and every end lies at least three rows after
   * its start, so each line image holds at least one copied row between
   * them.
   */
  lemma {:induction false} RowBoundariesPaired(s: seq<int>, cols: int, n: nat)
    requires n < |s| && s[0] == cols
    requires forall i :: 0 <= i < |s| ==> s[i] <= cols
    ensures Paired(s, cols, n, RowBoundaries(s, cols, n))
  {
    if n > 0 {
      RowBoundariesPaired(s, cols, n - 1);
      var before := RowBoundaries(s, cols, n - 1);
      if s[n - 1] == cols && s[n] < cols {
        assert RowBoundaries(s, cols, n) == before + [n - 2];
        PairedStart(s, cols, n, before);
      } else if s[n - 1] < cols && s[n] == cols {
        assert RowBoundaries(s, cols, n) == before + [n];
        PairedEnd(s, cols, n, before);
      } else {
        assert RowBoundaries(s, cols, n) == before;
      }
    }
  }

  /** The loop of `lineseg` that collects the line boundaries. */
  method FindRowBoundaries(sumofrows: seq<int>, cols: int) returns (segment: seq<int>)
    ensures segment == RowBoundaries(sumofrows, cols, Turns(sumofrows))
  {
    segment := [];
    if |sumofrows| == 0 {
      return;
    }
    for i := 0 to |sumofrows| - 1
      invariant segment == RowBoundaries(sumofrows, cols, i)
    {
      if sumofrows[i] == cols && sumofrows[i + 1] < cols {
        segment := segment + [i - 1];
      }
      if sumofrows[i] < cols && sumofrows[i + 1] == cols {
        segment := segment + [i + 1];
      }
    }
  }

  /* ---------------------------------------------------------------------- */
  /* Line images                                                             */
  /* ---------------------------------------------------------------------- */

  /** Python's reading of a possibly negative index into a list of `n` items. */
  function PyIndex(i: int, n: int): (r: int)
    requires -n <= i < n
    ensures 0 <= r < n
    ensures i >= 0 ==> r == i
    ensures i < 0 ==> r == n + i
  {
    if i < 0 then n + i else i
  }

  /**
   * `image1` is the line image between boundaries `first` and `last`: it has
   * `last - first + 2` rows of `bw`'s width, its first `last - first` rows
   * are rows `first .. last - 1` of `bw` (row -1 being the last row), and
   * the rest is 255.
   */
  ghost predicate IsLineImage(bw: array2<int>, image1: array2<int>, first: int, last: int)
    requires -1 <= first && last < bw.Length0
    reads bw, image1
  {
    && image1.Length0 == last - first + 2 && image1.Length1 == bw.Length1
    && forall x, y :: 0 <= x < image1.Length0 && 0 <= y < image1.Length1 ==>
         image1[x, y] == if x < last - first then bw[PyIndex(first + x, bw.Length0), y] else White
  }

  /** One pass of the image loop of `lineseg`. */
  method CopyLine(bw: array2<int>, first: int, last: int) returns (image1: array2<int>)
    requires -1 <= first && last < bw.Length0 && last - first + 2 >= 0
    ensures fresh(image1) && IsLineImage(bw, image1, first, last)
  {
    var diff := last - first + 2;
    image1 := new int[diff, bw.Length1]((_, _) => White);
    var x := 0;
    var i := first;
    while i < last
      invariant first <= i <= (if last < first then first else last)
      invariant x == i - first
      invariant forall r, y :: 0 <= r < diff && 0 <= y < bw.Length1 ==>
                  image1[r, y] == if r < x then bw[PyIndex(first + r, bw.Length0), y] else White
    {
      var y := 0;
      for j := 0 to bw.Length1
        invariant y == j
        invariant forall r, c :: 0 <= r < diff && 0 <= c < bw.Length1 ==>
                    image1[r, c] == if r < x || (r == x && c < j) then bw[PyIndex(first + r, bw.Length0), c] else White
      {
        image1[x, y] := bw[PyIndex(i, bw.Length0), j];
        y := y + 1;
      }
      x := x + 1;
      i := i + 1;
    }
  }

  /**
   * `lineseg`: `len(segment) / 2` images; image `l` is the line image
   * between boundaries `segment[2l]` and `segment[2l + 1]`.
   */
  method LineSeg(bw: array2<int>) returns (line: seq<array2<int>>)
    requires bw.Length0 > 0
    ensures var segment := RowBoundaries(RowProfile(Snapshot(bw)), bw.Length1, Turns(RowProfile(Snapshot(bw))));
            && (forall m :: 0 <= m < |segment| ==> -1 <= segment[m] < bw.Length0)
            && |line| == |segment| / 2
            && forall l :: 0 <= l < |line| ==>
                 fresh(line[l]) && IsLineImage(bw, line[l], segment[2 * l], segment[2 * l + 1])
  {
    var noofcoloums := bw.Length1;
    var sumofrows := SumRows(bw);
    var segment := FindRowBoundaries(sumofrows, noofcoloums);
    RowBoundariesRange(sumofrows, noofcoloums, Turns(sumofrows));
    line := [];
    var k := 0;
    for l := 0 to |segment| / 2
      invariant k == 2 * l && |line| == l
      invariant forall m :: 0 <= m < l ==> fresh(line[m]) && IsLineImage(bw, line[m], segment[2 * m], segment[2 * m + 1])
    {
      var image1 := CopyLine(bw, segment[k], segment[k + 1]);
      k := k + 2;
      line := line + [image1];
    }
  }

  /* ---------------------------------------------------------------------- */
  /* Character boundaries inside a line                                      */
  /* ---------------------------------------------------------------------- */

  /** The column scan's state: the boundaries so far and the `newsymbol` flag. */
  datatype Scan = Scan(segment: seq<int>, newsymbol: int)

  /**
   * One turn of the column scan at column `i`, with `lena` the line's height:
   * a start where the profile drops from above `lena - 4` to at most that,
   * outside a symbol; then an end where it rises back above `lena - 4`
   * inside one.
   */
  function ColumnStep(s: seq<int>, lena: int, i: nat, st: Scan): (r: Scan)
    requires i + 1 < |s|
    ensures |st.segment| <= |r.segment| <= |st.segment| + 1
    ensures r.segment[..|st.segment|] == st.segment
  {
    var st1 := if s[i] > lena - 4 && s[i + 1] <= lena - 4 && st.newsymbol == 0 then Scan(st.segment + [i], 1) else st;
    if s[i] < lena - 1 && st1.newsymbol == 1 && s[i + 1] > lena - 4 then Scan(st1.segment + [i + 1], 0) else st1
  }

  /** The scan after its first `n` turns. */
  function ColumnScan(s: seq<int>, lena: int, n: nat): (st: Scan)
    requires n == 0 || n < |s|
    ensures |st.segment| <= n
  {
    if n == 0 then Scan([], 0) else ColumnStep(s, lena, n - 1, ColumnScan(s, lena, n - 1))
  }

  /**
   * The shape of the scan after `n` turns: `newsymbol` is 1 exactly after a
   * start that has no end yet; starts sit at even positions and ends at odd
   * ones; each start is a column where the profile is above `lena - 4` and
   * the next one is not, each end a column where the profile is back above
   * `lena - 4` after one below `lena - 1`; an end lies at least two columns
   * after its start, and the next start is not before it.
   */
  ghost predicate ScanShape(s: seq<int>, lena: int, n: nat, st: Scan)
  {
    var seg := st.segment;
    && st.newsymbol == |seg| % 2
    && Bounded(seg, n)
    && (|seg| % 2 == 1 ==> seg[|seg| - 1] <= n - 1)
    && StartsDrop(s, lena, seg)
    && EndsRise(s, lena, seg)
    && Widths(seg)
    && Gaps(seg)
  }

  /** Every recorded column is one of the first `n + 1`. */
  ghost predicate Bounded(seg: seq<int>, n: nat)
  {
    forall m :: 0 <= m < |seg| ==> 0 <= seg[m] <= n
  }

  /** At each start the profile drops from above `lena - 4` to at most that. */
  ghost predicate StartsDrop(s: seq<int>, lena: int, seg: seq<int>)
  {
    forall m :: 0 <= m < |seg| && m % 2 == 0 ==>
      0 <= seg[m] && seg[m] + 1 < |s| && s[seg[m]] > lena - 4 && s[seg[m] + 1] <= lena - 4
  }

  /** At each end the profile rises back above `lena - 4` from below `lena - 1`. */
  ghost predicate EndsRise(s: seq<int>, lena: int, seg: seq<int>)
  {
    forall m :: 0 <= m < |seg| && m % 2 == 1 ==>
      1 <= seg[m] < |s| && s[seg[m] - 1] < lena - 1 && s[seg[m]] > lena - 4
  }

  /** Each end lies at least two columns after its start. */
  ghost predicate Widths(seg: seq<int>)
  {
    forall m, m' :: 0 <= m && m' == m + 1 < |seg| && m % 2 == 0 ==> seg[m'] >= seg[m] + 2
  }

  /** Each start lies at or after the previous end. */
  ghost predicate Gaps(seg: seq<int>)
  {
    forall m, m' :: 0 <= m && m' == m + 1 < |seg| && m % 2 == 1 ==> seg[m'] >= seg[m]
  }

  lemma AppendBounded(seg: seq<int>, n: nat, n': nat, x: int)
    requires Bounded(seg, n) && n <= n' && 0 <= x <= n'
    ensures Bounded(seg + [x], n')
  {
    var seg' := seg + [x];
    forall m | 0 <= m < |seg'| ensures 0 <= seg'[m] <= n' {
      if m < |seg| {
        assert seg'[m] == seg[m];
      }
    }
  }

  lemma AppendStart(s: seq<int>, lena: int, seg: seq<int>, x: int)
    requires StartsDrop(s, lena, seg) && EndsRise(s, lena, seg)
    requires |seg| % 2 == 0 && 0 <= x && x + 1 < |s| && s[x] > lena - 4 && s[x + 1] <= lena - 4
    ensures StartsDrop(s, lena, seg + [x]) && EndsRise(s, lena, seg + [x])
  {
    var seg' := seg + [x];
    forall m | 0 <= m < |seg| ensures seg'[m] == seg[m] {
    }
  }

  lemma AppendEnd(s: seq<int>, lena: int, seg: seq<int>, x: int)
    requires StartsDrop(s, lena, seg) && EndsRise(s, lena, seg)
    requires |seg| % 2 == 1 && 1 <= x < |s| && s[x - 1] < lena - 1 && s[x] > lena - 4
    ensures StartsDrop(s, lena, seg + [x]) && EndsRise(s, lena, seg + [x])
  {
    var seg' := seg + [x];
    forall m | 0 <= m < |seg| ensures seg'[m] == seg[m] {
    }
  }

  lemma AppendSpacing(seg: seq<int>, x: int)
    requires Widths(seg) && Gaps(seg)
    requires |seg| > 0 && |seg| % 2 == 1 ==> x >= seg[|seg| - 1] + 2
    requires |seg| > 0 && |seg| % 2 == 0 ==> x >= seg[|seg| - 1]
    ensures Widths(seg + [x]) && Gaps(seg + [x])
  {
    var seg' := seg + [x];
    forall m | 0 <= m < |seg| ensures seg'[m] == seg[m] {
    }
    assert seg'[|seg|] == x;
  }

  /** Appending a start at column `i` keeps the shape. */
  lemma StartKeepsShape(s: seq<int>, lena: int, i: nat, st: Scan)
    requires i + 1 < |s| && ScanShape(s, lena, i, st)
    requires s[i] > lena - 4 && s[i + 1] <= lena - 4 && st.newsymbol == 0
    ensures ScanShape(s, lena, i + 1, Scan(st.segment + [i], 1))
  {
    var seg := st.segment;
    AppendBounded(seg, i, i + 1, i);
    AppendStart(s, lena, seg, i);
    AppendSpacing(seg, i);
  }

  /** Appending an end at column `i + 1` keeps the shape. */
  lemma EndKeepsShape(s: seq<int>, lena: int, i: nat, st: Scan)
    requires i + 1 < |s| && ScanShape(s, lena, i + 1, st)
    requires s[i] < lena - 1 && st.newsymbol == 1 && s[i + 1] > lena - 4
    ensures ScanShape(s, lena, i + 1, Scan(st.segment + [i + 1], 0))
  {
    var seg := st.segment;
    assert seg[|seg| - 1] + 2 <= i + 1;
    AppendBounded(seg, i + 1, i + 1, i + 1);
    AppendEnd(s, lena, seg, i + 1);
    AppendSpacing(seg, i + 1);
  }

  /** One turn of the scan keeps the shape. */
  lemma StepKeepsShape(s: seq<int>, lena: int, i: nat, st: Scan)
    requires i + 1 < |s| && ScanShape(s, lena, i, st)
    ensures ScanShape(s, lena, i + 1, ColumnStep(s, lena, i, st))
  {
    var st1 := if s[i] > lena - 4 && s[i + 1] <= lena - 4 && st.newsymbol == 0 then Scan(st.segment + [i], 1) else st;
    if s[i] > lena - 4 && s[i + 1] <= lena - 4 && st.newsymbol == 0 {
      StartKeepsShape(s, lena, i, st);
    } else {
      assert ScanShape(s, lena, i + 1, st1);
    }
    if s[i] < lena - 1 && st1.newsymbol == 1 && s[i + 1] > lena - 4 {
      EndKeepsShape(s, lena, i, st1);
    }
  }

  /** The scan has its shape after every turn. */
  lemma {:induction false} ColumnScanShape(s: seq<int>, lena: int, n: nat)
    requires n == 0 || n < |s|
    ensures ScanShape(s, lena, n, ColumnScan(s, lena, n))
  {
    if n > 0 {
      ColumnScanShape(s, lena, n - 1);
      ScanTurn(s, lena, n);
    }
  }

  lemma ScanTurn(s: seq<int>, lena: int, n: nat)
    requires 0 < n < |s| && ScanShape(s, lena, n - 1, ColumnScan(s, lena, n - 1))
    ensures ScanShape(s, lena, n, ColumnScan(s, lena, n))
  {
    var st := ColumnScan(s, lena, n - 1);
    StepKeepsShape(s, lena, n - 1, st);
    assert ColumnScan(s, lena, n) == ColumnStep(s, lena, n - 1, st);
  }

  /** The column loop of the character pass, with its `newsymbol` flag. */
  method ColumnBoundaries(sumofcols: seq<int>, lena: int) returns (segment2: seq<int>)
    ensures segment2 == ColumnScan(sumofcols, lena, Turns(sumofcols)).segment
  {
    segment2 := [];
    var newsymbol := 0;
    if |sumofcols| == 0 {
      return;
    }
    for i := 0 to |sumofcols| - 1
      invariant Scan(segment2, newsymbol) == ColumnScan(sumofcols, lena, i)
    {
      if sumofcols[i] > lena - 4 && sumofcols[i + 1] <= lena - 4 && newsymbol == 0 {
        segment2 := segment2 + [i];
        newsymbol := 1;
      }
      if sumofcols[i] < lena - 1 && newsymbol == 1 && sumofcols[i + 1] > lena - 4 {
        segment2 := segment2 + [i + 1];
        newsymbol := 0;
      }
    }
  }

  /* ---------------------------------------------------------------------- */
  /* Column profile of a line                                                */
  /* ---------------------------------------------------------------------- */

  /** Every row of `g` has `w` entries. */
  predicate Rect(g: Grid, w: nat)
  {
    forall r :: 0 <= r < |g| ==> |g[r]| == w
  }

  /** Column `c` of an image, top to bottom. */
  function Column(g: Grid, w: nat, c: nat): (col: seq<int>)
    requires Rect(g, w) && c < w
    ensures |col| == |g|
    ensures forall r :: 0 <= r < |g| ==> col[r] == g[r][c]
  {
    seq(|g|, r requires 0 <= r < |g| => g[r][c])
  }

  /** The intended `sumofcols`: each column's count on its own. */
  function ColumnProfile(g: Grid, w: nat): (s: seq<int>)
    requires Rect(g, w)
    ensures |s| == w
    ensures forall c :: 0 <= c < w ==> s[c] == RowCount(Column(g, w, c))
  {
    seq(w, c requires 0 <= c < w => RowCount(Column(g, w, c)))
  }

  /**
   * On a binary image each entry of the column profile is the number of
   * white pixels in that column, and it equals the height exactly when the
   * column is all white.
   */
  lemma ColumnProfileOfBinary(g: Grid, w: nat, c: nat)
    requires Rect(g, w) && c < w
    requires forall r, x :: 0 <= r < |g| && 0 <= x < w ==> g[r][x] == 0 || g[r][x] == White
    ensures ColumnProfile(g, w)[c] == WhiteIn(Column(g, w, c))
    ensures ColumnProfile(g, w)[c] == |g| <==> forall r :: 0 <= r < |g| ==> g[r][c] == White
  {
    var col := Column(g, w, c);
    assert BinaryRow(col);
    RowCountOfBinary(col);
  }

  /**
   * The column loop of the character pass, with `k` restarted for every
   * column.
   */
  method ColumnSums(a: array2<int>) returns (sumofcols: seq<int>)
    ensures sumofcols == ColumnProfile(Snapshot(a), a.Length1)
  {
    ghost var g := Snapshot(a);
    sumofcols := [];
    for i := 0 to a.Length1
      invariant |sumofcols| == i
      invariant forall c :: 0 <= c < i ==> sumofcols[c] == RowCount(Column(g, a.Length1, c))
    {
      ghost var col := Column(g, a.Length1, i);
      var k := 0;
      for j := 0 to a.Length0
        invariant k == Sum(col[..j])
      {
        assert col[..j + 1][..j] == col[..j];
        k := k + a[j, i];
      }
      assert col[..a.Length0] == col;
      k := Truncate(k, White);
      sumofcols := sumofcols + [k];
    }
  }

  /**
   * `sumofcols` as the source's loop computes it: `k` is set to 0 once,
   * before the first column, so each column's sum starts from the count of
   * the column before it.
   */
  function CarriedProfile(g: Grid, w: nat, n: nat): (s: seq<int>)
    requires Rect(g, w) && n <= w
    ensures |s| == n
  {
    if n == 0 then []
    else
      var before := CarriedProfile(g, w, n - 1);
      var k := if n == 1 then 0 else before[n - 2];
      before + [Truncate(k + Sum(Column(g, w, n - 1)), White)]
  }

  lemma {:induction false} CarriedProfilePrefix(g: Grid, w: nat, m: nat, n: nat)
    requires Rect(g, w) && m <= n <= w
    ensures CarriedProfile(g, w, m) == CarriedProfile(g, w, n)[..m]
    decreases n
  {
    if m < n {
      CarriedProfilePrefix(g, w, m, n - 1);
      assert CarriedProfile(g, w, n)[..n - 1] == CarriedProfile(g, w, n - 1);
    }
  }

  lemma AllWhiteSum(col: seq<int>)
    requires forall r :: 0 <= r < |col| ==> col[r] == White
    ensures Sum(col) == White * |col|
  {
    assert BinaryRow(col);
    SumOfBinary(col);
    AllWhite(col);
  }

  /**
   * On an all-white line at least 255 rows high, the carried count of the
   * second column exceeds the height, while the per-column count is the
   * height.
   */
  lemma CarriedProfileDrifts(g: Grid, w: nat)
    requires Rect(g, w) && w >= 2 && |g| >= 255
    requires forall r, x :: 0 <= r < |g| && 0 <= x < w ==> g[r][x] == White
    ensures ColumnProfile(g, w)[1] == |g|
    ensures CarriedProfile(g, w, w)[1] == |g| + |g| / 255 > |g|
  {
    var n := |g|;
    AllWhiteSum(Column(g, w, 0));
    AllWhiteSum(Column(g, w, 1));
    CarriedProfilePrefix(g, w, 2, w);
    var carried := CarriedProfile(g, w, 2);
    assert carried[0] == Truncate(White * n, White) == n;
    var q, r := n / 255, n % 255;
    assert n + White * n == 255 * (n + q) + r;
    assert carried[1] == Truncate(n + White * n, White) == n + q;
  }

  /** The character boundaries of a line image, from its corrected column profile. */
  method CharacterBoundaries(a: array2<int>) returns (segment2: seq<int>)
    ensures var profile := ColumnProfile(Snapshot(a), a.Length1);
            segment2 == ColumnScan(profile, a.Length0, Turns(profile)).segment
  {
    var sumofcols := ColumnSums(a);
    segment2 := ColumnBoundaries(sumofcols, a.Length0);
  }
}
