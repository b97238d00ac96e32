/**
 * Single-channel images as the numpy arrays the pipeline passes around: a
 * list of rows, its `shape`, and the contents of an `array2` read as such a
 * list. Shared by the plate detector, the segmenter, the deskewer and the
 * text detector.
 */
module Grids {
  /** A single-channel image as a numpy array would hold it: a list of rows. */
  type Grid = seq<seq<int>>

  /** The first entry of an image's `shape`: its number of rows. */
  function Height(g: Grid): nat { |g| }

  /** The second entry of an image's `shape`: the length of its first row. */
  function Width(g: Grid): nat { if |g| == 0 then 0 else |g[0]| }

  /** `img_height * img_width` of an image's shape. */
  function PixelArea(g: Grid): nat { Height(g) * Width(g) }

  /** The current contents of an image array, as a list of rows. */
  function Snapshot(a: array2<int>): (g: Grid)
    reads a
    ensures |g| == a.Length0
    ensures forall r :: 0 <= r < a.Length0 ==> |g[r]| == a.Length1
    ensures forall r, c :: 0 <= r < a.Length0 && 0 <= c < a.Length1 ==> g[r][c] == a[r, c]
  {
    seq(a.Length0, (r: int) reads a requires 0 <= r < a.Length0 =>
      seq(a.Length1, (c: int) reads a requires 0 <= c < a.Length1 => a[r, c]))
  }

  /** An array holds exactly the rows of `g`. */
  lemma SnapshotIs(a: array2<int>, g: Grid)
    requires |g| == a.Length0 && forall r :: 0 <= r < |g| ==> |g[r]| == a.Length1
    requires forall r, c :: 0 <= r < a.Length0 && 0 <= c < a.Length1 ==> a[r, c] == g[r][c]
    ensures Snapshot(a) == g
  {
    var s := Snapshot(a);
    forall r | 0 <= r < |g| ensures s[r] == g[r] {
      assert |s[r]| == |g[r]|;
      forall c | 0 <= c < |g[r]| ensures s[r][c] == g[r][c] {
      }
    }
  }

  /** The pixel count of an array's snapshot is its number of rows times its number of columns. */
  lemma SnapshotArea(a: array2<int>)
    ensures PixelArea(Snapshot(a)) == a.Length0 * a.Length1
  {
  }
}
