/**
 * The hq2x pixel-art upscaler (`utils/hq2x.py`): every source pixel becomes
 * a 2×2 block whose four colours are chosen from the pixel's 3×3
 * neighbourhood by a 256-way case table keyed on which neighbours differ
 * from the centre.
 *
 * Python 2 integer `/` and `>>` floor; Dafny's `/` with a positive divisor
 * floors as well, so the arithmetic below is written with `/`.
 */
module Hq2x {
  import opened Order

  /** A position in a pixel's flattened 3×3 context, read across and down. */
  type Pos = i: int | 0 <= i < 9

  const TopLeft: Pos := 0
  const Top: Pos := 1
  const TopRight: Pos := 2
  const Left: Pos := 3
  const Center: Pos := 4
  const Right: Pos := 5
  const BottomLeft: Pos := 6
  const Bottom: Pos := 7
  const BottomRight: Pos := 8

  /* ---------------------------------------------------------------------- */
  /* Context flags                                                           */
  /* ---------------------------------------------------------------------- */

  function Pow2(n: nat): (r: nat)
    ensures r >= 1
  {
    if n == 0 then 1 else 2 * Pow2(n - 1)
  }

  /** The index of a non-centre position among the eight flags. */
  function FlagIndex(i: Pos): (k: nat)
    requires i != Center
    ensures k < 8
  {
    if i < Center then i else i - 1
  }

  /** The flag of position `i`: the `FlagIndex(i)`-th bit. */
  function ContextFlag(i: Pos): (f: bv8)
    requires i != Center
  {
    1 << FlagIndex(i)
  }

  /**
   * The flags are the powers of two 1, 2, 4, ..., 128 in position order,
   * skipping the centre; no two share a bit.
   */
  lemma ContextFlagValues()
    ensures ContextFlag(TopLeft) == 1 && ContextFlag(Top) == 2 && ContextFlag(TopRight) == 4
    ensures ContextFlag(Left) == 8 && ContextFlag(Right) == 16
    ensures ContextFlag(BottomLeft) == 32 && ContextFlag(Bottom) == 64 && ContextFlag(BottomRight) == 128
    ensures forall i: Pos, j: Pos :: i != Center && j != Center && i != j ==> ContextFlag(i) & ContextFlag(j) == 0
  {
    forall i: Pos, j: Pos | i != Center && j != Center && i != j
      ensures ContextFlag(i) & ContextFlag(j) == 0
    {
      FlagsDisjoint(i, j);
    }
  }

  lemma FlagsDisjoint(i: Pos, j: Pos)
    requires i != Center && j != Center && i != j
    ensures ContextFlag(i) & ContextFlag(j) == 0
  {
    var a, b := FlagIndex(i), FlagIndex(j);
    assert a != b;
    assert ((1 as bv8) << a) & ((1 as bv8) << b) == 0;
  }

  /** A flag has its own bit set. */
  lemma FlagOwnBit(i: Pos)
    requires i != Center
    ensures ContextFlag(i) & ContextFlag(i) != 0
  {
    var a := FlagIndex(i);
    assert ((1 as bv8) << a) & ((1 as bv8) << a) != 0;
  }

  /** A mask meets an OR of two values exactly when it meets one of them. */
  lemma OrMask(a: bv8, b: bv8, m: bv8)
    ensures (a | b) & m != 0 <==> a & m != 0 || b & m != 0
  {
  }

  /** A flag read as a Python integer is the power of two of its index. */
  lemma ContextFlagAsInt(i: Pos)
    requires i != Center
    ensures ContextFlag(i) as int == Pow2(FlagIndex(i))
  {
    var k := FlagIndex(i);
    if k == 0 {
    } else if k == 1 {
    } else if k == 2 {
    } else if k == 3 {
    } else if k == 4 {
    } else if k == 5 {
    } else if k == 6 {
    } else {
      assert k == 7;
    }
  }

  /**
   * The module-level loop that fills `context_flag`: every position except
   * the centre receives the current flag, which then doubles.
   */
  method BuildContextFlags() returns (flags: map<int, int>)
    ensures forall i :: i in flags <==> 0 <= i < 9 && i != Center
    ensures forall i: Pos :: i != Center ==> flags[i] == ContextFlag(i) as int
  {
    flags := map[];
    var curFlag := 1;
    for i := 0 to 9
      invariant forall k :: k in flags <==> 0 <= k < i && k != Center
      invariant forall k: Pos :: k < i && k != Center ==> flags[k] == Pow2(FlagIndex(k))
      invariant curFlag == Pow2(if i <= Center then i else i - 1)
    {
      if i == Center {
        continue;
      }
      flags := flags[i := curFlag];
      curFlag := curFlag * 2;
    }
    forall i: Pos | i != Center ensures flags[i] == ContextFlag(i) as int {
      ContextFlagAsInt(i);
    }
  }

  /* ---------------------------------------------------------------------- */
  /* Colours                                                                 */
  /* ---------------------------------------------------------------------- */

  /** A 24-bit colour as the tuple PIL returns for an RGB image. */
  datatype RGB = RGB(r: int, g: int, b: int)

  datatype YUV = YUV(y: int, u: int, v: int)

  /** The colour conversion of the original hq2x source (shifts floor). */
  function RgbToYuv(rgb: RGB): (yuv: YUV)
    ensures rgb.r == rgb.g == rgb.b ==> yuv.u == 128 && yuv.v == 128
  {
    YUV((rgb.r + rgb.g + rgb.b) / 4, 128 + (rgb.r - rgb.b) / 4, 128 + (-rgb.r + rgb.g * 2 - rgb.b) / 8)
  }

  predicate Channel8(n: int) { 0 <= n < 256 }

  predicate Colour24(c: RGB) { Channel8(c.r) && Channel8(c.g) && Channel8(c.b) }

  /** For 24-bit colour, y lies in 0..191 and u, v lie in 64..191. */
  lemma RgbToYuvBounds(rgb: RGB)
    requires Colour24(rgb)
    ensures var yuv := RgbToYuv(rgb);
            0 <= yuv.y <= 191 && 64 <= yuv.u <= 191 && 64 <= yuv.v <= 191
  {
  }

  /** A grey has no chroma: u = v = 128, and y is three quarters of the level, floored. */
  lemma RgbToYuvGrey(level: int)
    ensures RgbToYuv(RGB(level, level, level)) == YUV(3 * level / 4, 128, 128)
  {
  }

  /** The memo dictionary `rgb_yuv_cache`: every entry is the computed conversion. */
  class YuvCache {
    var entries: map<RGB, YUV>

    ghost predicate Valid()
      reads this
    {
      forall rgb :: rgb in entries ==> entries[rgb] == RgbToYuv(rgb)
    }

    constructor ()
      ensures Valid() && entries == map[]
    {
      entries := map[];
    }

    /** `rgb_to_yuv`: answers from the cache, or computes and records the conversion. */
    method Lookup(rgb: RGB) returns (yuv: YUV)
      requires Valid()
      modifies this
      ensures Valid()
      ensures yuv == RgbToYuv(rgb)
      ensures entries == old(entries)[rgb := yuv]
    {
      if rgb in entries {
        return entries[rgb];
      }
      yuv := RgbToYuv(rgb);
      entries := entries[rgb := yuv];
    }
  }

  function Abs(n: int): nat { if n < 0 then -n else n }

  const YThreshold := 48
  const UThreshold := 7
  const VThreshold := 6

  /** Two colours are equal-ish unless one component differs by more than its threshold. */
  predicate YuvEqual(a: YUV, b: YUV)
    ensures a == b ==> YuvEqual(a, b)
  {
    if Abs(a.y - b.y) > YThreshold then false
    else if Abs(a.u - b.u) > UThreshold then false
    else if Abs(a.v - b.v) > VThreshold then false
    else true
  }

  /** The three thresholds, as one condition. */
  lemma YuvEqualBands(a: YUV, b: YUV)
    ensures YuvEqual(a, b) <==> -48 <= a.y - b.y <= 48 && -7 <= a.u - b.u <= 7 && -6 <= a.v - b.v <= 6
  {
  }

  lemma YuvEqualReflexive(a: YUV)
    ensures YuvEqual(a, a)
  {
  }

  lemma YuvEqualSymmetric(a: YUV, b: YUV)
    ensures YuvEqual(a, b) <==> YuvEqual(b, a)
  {
  }

  /** Equal-ishness is not transitive: each step may use up the whole threshold. */
  lemma YuvEqualNotTransitive()
    ensures YuvEqual(YUV(0, 128, 128), YUV(48, 128, 128))
    ensures YuvEqual(YUV(48, 128, 128), YUV(96, 128, 128))
    ensures !YuvEqual(YUV(0, 128, 128), YUV(96, 128, 128))
  {
  }

  /* ---------------------------------------------------------------------- */
  /* Interpolation, one channel at a time                                    */
  /* ---------------------------------------------------------------------- */

  function Min3(a: int, b: int, c: int): int
  {
    if a <= b && a <= c then a else if b <= c then b else c
  }

  function Max3(a: int, b: int, c: int): int
  {
    if a >= b && a >= c then a else if b >= c then b else c
  }

  /** `interp1`: 3:1. */
  function Mean1(a: int, b: int): (r: int)
    ensures Min3(a, b, b) <= r <= Max3(a, b, b)
  {
    (a * 3 + b) / 4
  }

  /** `interp2`: 2:1:1. */
  function Mean2(a: int, b: int, c: int): (r: int)
    ensures Min3(a, b, c) <= r <= Max3(a, b, c)
  {
    (a * 2 + b + c) / 4
  }

  /** `interp5`: 1:1. */
  function Mean5(a: int, b: int): (r: int)
    ensures Min3(a, b, b) <= r <= Max3(a, b, b)
  {
    (a + b) / 2
  }

  /** `interp6`: 5:2:1. */
  function Mean6(a: int, b: int, c: int): (r: int)
    ensures Min3(a, b, c) <= r <= Max3(a, b, c)
  {
    (a * 5 + b * 2 + c) / 8
  }

  /** `interp7`: 6:1:1. */
  function Mean7(a: int, b: int, c: int): (r: int)
    ensures Min3(a, b, c) <= r <= Max3(a, b, c)
  {
    (a * 6 + b + c) / 8
  }

  /** `interp9`: 2:3:3. */
  function Mean9(a: int, b: int, c: int): (r: int)
    ensures Min3(a, b, c) <= r <= Max3(a, b, c)
  {
    (a * 2 + b * 3 + c * 3) / 8
  }

  /** `interp10`: 14:1:1. */
  function Mean10(a: int, b: int, c: int): (r: int)
    ensures Min3(a, b, c) <= r <= Max3(a, b, c)
  {
    (a * 14 + b + c) / 16
  }

  /* ---------------------------------------------------------------------- */
  /* The case table                                                          */
  /* ---------------------------------------------------------------------- */

  /**
   * One output colour: the centre itself, or an `interpN` whose first
   * argument is the centre and whose other arguments are the named positions.
   */
  datatype Blend =
    | Copy
    | Interp1(p: Pos)
    | Interp2(p: Pos, q: Pos)
    | Interp5(p: Pos)
    | Interp6(p: Pos, q: Pos)
    | Interp7(p: Pos, q: Pos)
    | Interp9(p: Pos, q: Pos)
    | Interp10(p: Pos, q: Pos)

  /**
   * How a branch of the table sets one corner: unconditionally, or by
   * `if not yuv_equal(yuv_context[a], yuv_context[b])`.
   */
  datatype Corner =
    | Fixed(blend: Blend)
    | Edge(a: Pos, b: Pos, whenDiffer: Blend, whenEqual: Blend)

  /** The assignments of one branch to `tl`, `tr`, `bl` and `br`. */
  datatype Rule = Rule(tl: Corner, tr: Corner, bl: Corner, br: Corner)

  /**
   * The if/elif chain of `hq2x_pixel`, branch by branch and in the same order:
   * `None` when no branch matches. Where a branch sets two corners under one
   * condition, each corner carries that condition.
   */
  function RuleFor(pattern: bv8): (r: Option<Rule>)
    ensures pattern == 0 ==>
              r == Some(Rule(Fixed(Interp2(Left, Top)), Fixed(Interp2(Top, Right)),
                             Fixed(Interp2(Bottom, Left)), Fixed(Interp2(Right, Bottom))))
  {
    if pattern == 0 || pattern == 1 || pattern == 4 || pattern == 32 || pattern == 128
       || pattern == 5 || pattern == 132 || pattern == 160 || pattern == 33 || pattern == 129
       || pattern == 36 || pattern == 133 || pattern == 164 || pattern == 161 || pattern == 37
       || pattern == 165 then
      Some(Rule(Fixed(Interp2(Left, Top)),
                Fixed(Interp2(Top, Right)),
                Fixed(Interp2(Bottom, Left)),
                Fixed(Interp2(Right, Bottom))))
    else if pattern == 2 || pattern == 34 || pattern == 130 || pattern == 162 then
      Some(Rule(Fixed(Interp2(TopLeft, Left)),
                Fixed(Interp2(TopRight, Right)),
                Fixed(Interp2(Bottom, Left)),
                Fixed(Interp2(Right, Bottom))))
    else if pattern == 16 || pattern == 17 || pattern == 48 || pattern == 49 then
      Some(Rule(Fixed(Interp2(Left, Top)),
                Fixed(Interp2(TopRight, Top)),
                Fixed(Interp2(Bottom, Left)),
                Fixed(Interp2(BottomRight, Bottom))))
    else if pattern == 64 || pattern == 65 || pattern == 68 || pattern == 69 then
      Some(Rule(Fixed(Interp2(Left, Top)),
                Fixed(Interp2(Top, Right)),
                Fixed(Interp2(BottomLeft, Left)),
                Fixed(Interp2(BottomRight, Right))))
    else if pattern == 8 || pattern == 12 || pattern == 136 || pattern == 140 then
      Some(Rule(Fixed(Interp2(TopLeft, Top)),
                Fixed(Interp2(Top, Right)),
                Fixed(Interp2(BottomLeft, Bottom)),
                Fixed(Interp2(Right, Bottom))))
    else if pattern == 3 || pattern == 35 || pattern == 131 || pattern == 163 then
      Some(Rule(Fixed(Interp1(Left)),
                Fixed(Interp2(TopRight, Right)),
                Fixed(Interp2(Bottom, Left)),
                Fixed(Interp2(Right, Bottom))))
    else if pattern == 6 || pattern == 38 || pattern == 134 || pattern == 166 then
      Some(Rule(Fixed(Interp2(TopLeft, Left)),
                Fixed(Interp1(Right)),
                Fixed(Interp2(Bottom, Left)),
                Fixed(Interp2(Right, Bottom))))
    else if pattern == 20 || pattern == 21 || pattern == 52 || pattern == 53 then
      Some(Rule(Fixed(Interp2(Left, Top)),
                Fixed(Interp1(Top)),
                Fixed(Interp2(Bottom, Left)),
                Fixed(Interp2(BottomRight, Bottom))))
    else if pattern == 144 || pattern == 145 || pattern == 176 || pattern == 177 then
      Some(Rule(Fixed(Interp2(Left, Top)),
                Fixed(Interp2(TopRight, Top)),
                Fixed(Interp2(Bottom, Left)),
                Fixed(Interp1(Bottom))))
    else if pattern == 192 || pattern == 193 || pattern == 196 || pattern == 197 then
      Some(Rule(Fixed(Interp2(Left, Top)),
                Fixed(Interp2(Top, Right)),
                Fixed(Interp2(BottomLeft, Left)),
                Fixed(Interp1(Right))))
    else if pattern == 96 || pattern == 97 || pattern == 100 || pattern == 101 then
      Some(Rule(Fixed(Interp2(Left, Top)),
                Fixed(Interp2(Top, Right)),
                Fixed(Interp1(Left)),
                Fixed(Interp2(BottomRight, Right))))
    else if pattern == 40 || pattern == 44 || pattern == 168 || pattern == 172 then
      Some(Rule(Fixed(Interp2(TopLeft, Top)),
                Fixed(Interp2(Top, Right)),
                Fixed(Interp1(Bottom)),
                Fixed(Interp2(Right, Bottom))))
    else if pattern == 9 || pattern == 13 || pattern == 137 || pattern == 141 then
      Some(Rule(Fixed(Interp1(Top)),
                Fixed(Interp2(Top, Right)),
                Fixed(Interp2(BottomLeft, Bottom)),
                Fixed(Interp2(Right, Bottom))))
    else if pattern == 18 || pattern == 50 then
      Some(Rule(Fixed(Interp2(TopLeft, Left)),
                Edge(Top, Right, Interp1(TopRight), Interp2(Top, Right)),
                Fixed(Interp2(Bottom, Left)),
                Fixed(Interp2(BottomRight, Bottom))))
    else if pattern == 80 || pattern == 81 then
      Some(Rule(Fixed(Interp2(Left, Top)),
                Fixed(Interp2(TopRight, Top)),
                Fixed(Interp2(BottomLeft, Left)),
                Edge(Right, Bottom, Interp1(BottomRight), Interp2(Right, Bottom))))
    else if pattern == 72 || pattern == 76 then
      Some(Rule(Fixed(Interp2(TopLeft, Top)),
                Fixed(Interp2(Top, Right)),
                Edge(Bottom, Left, Interp1(BottomLeft), Interp2(Bottom, Left)),
                Fixed(Interp2(BottomRight, Right))))
    else if pattern == 10 || pattern == 138 then
      Some(Rule(Edge(Left, Top, Interp1(TopLeft), Interp2(Left, Top)),
                Fixed(Interp2(TopRight, Right)),
                Fixed(Interp2(BottomLeft, Bottom)),
                Fixed(Interp2(Right, Bottom))))
    else if pattern == 66 then
      Some(Rule(Fixed(Interp2(TopLeft, Left)),
                Fixed(Interp2(TopRight, Right)),
                Fixed(Interp2(BottomLeft, Left)),
                Fixed(Interp2(BottomRight, Right))))
    else if pattern == 24 then
      Some(Rule(Fixed(Interp2(TopLeft, Top)),
                Fixed(Interp2(TopRight, Top)),
                Fixed(Interp2(BottomLeft, Bottom)),
                Fixed(Interp2(BottomRight, Bottom))))
    else if pattern == 7 || pattern == 39 || pattern == 135 then
      Some(Rule(Fixed(Interp1(Left)),
                Fixed(Interp1(Right)),
                Fixed(Interp2(Bottom, Left)),
                Fixed(Interp2(Right, Bottom))))
    else if pattern == 148 || pattern == 149 || pattern == 180 then
      Some(Rule(Fixed(Interp2(Left, Top)),
                Fixed(Interp1(Top)),
                Fixed(Interp2(Bottom, Left)),
                Fixed(Interp1(Bottom))))
    else if pattern == 224 || pattern == 228 || pattern == 225 then
      Some(Rule(Fixed(Interp2(Left, Top)),
                Fixed(Interp2(Top, Right)),
                Fixed(Interp1(Left)),
                Fixed(Interp1(Right))))
    else if pattern == 41 || pattern == 169 || pattern == 45 then
      Some(Rule(Fixed(Interp1(Top)),
                Fixed(Interp2(Top, Right)),
                Fixed(Interp1(Bottom)),
                Fixed(Interp2(Right, Bottom))))
    else if pattern == 22 || pattern == 54 then
      Some(Rule(Fixed(Interp2(TopLeft, Left)),
                Edge(Top, Right, Copy, Interp2(Top, Right)),
                Fixed(Interp2(Bottom, Left)),
                Fixed(Interp2(BottomRight, Bottom))))
    else if pattern == 208 || pattern == 209 then
      Some(Rule(Fixed(Interp2(Left, Top)),
                Fixed(Interp2(TopRight, Top)),
                Fixed(Interp2(BottomLeft, Left)),
                Edge(Right, Bottom, Copy, Interp2(Right, Bottom))))
    else if pattern == 104 || pattern == 108 then
      Some(Rule(Fixed(Interp2(TopLeft, Top)),
                Fixed(Interp2(Top, Right)),
                Edge(Bottom, Left, Copy, Interp2(Bottom, Left)),
                Fixed(Interp2(BottomRight, Right))))
    else if pattern == 11 || pattern == 139 then
      Some(Rule(Edge(Left, Top, Copy, Interp2(Left, Top)),
                Fixed(Interp2(TopRight, Right)),
                Fixed(Interp2(BottomLeft, Bottom)),
                Fixed(Interp2(Right, Bottom))))
    else if pattern == 19 || pattern == 51 then
      Some(Rule(Edge(Top, Right, Interp1(Left), Interp6(Top, Left)),
                Edge(Top, Right, Interp1(TopRight), Interp9(Top, Right)),
                Fixed(Interp2(Bottom, Left)),
                Fixed(Interp2(BottomRight, Bottom))))
    else if pattern == 146 || pattern == 178 then
      Some(Rule(Fixed(Interp2(TopLeft, Left)),
                Edge(Top, Right, Interp1(TopRight), Interp9(Top, Right)),
                Fixed(Interp2(Bottom, Left)),
                Edge(Top, Right, Interp1(Bottom), Interp6(Right, Bottom))))
    else if pattern == 84 || pattern == 85 then
      Some(Rule(Fixed(Interp2(Left, Top)),
                Edge(Right, Bottom, Interp1(Top), Interp6(Right, Top)),
                Fixed(Interp2(BottomLeft, Left)),
                Edge(Right, Bottom, Interp1(BottomRight), Interp9(Right, Bottom))))
    else if pattern == 112 || pattern == 113 then
      Some(Rule(Fixed(Interp2(Left, Top)),
                Fixed(Interp2(TopRight, Top)),
                Edge(Right, Bottom, Interp1(Left), Interp6(Bottom, Left)),
                Edge(Right, Bottom, Interp1(BottomRight), Interp9(Right, Bottom))))
    else if pattern == 200 || pattern == 204 then
      Some(Rule(Fixed(Interp2(TopLeft, Top)),
                Fixed(Interp2(Top, Right)),
                Edge(Bottom, Left, Interp1(BottomLeft), Interp9(Bottom, Left)),
                Edge(Bottom, Left, Interp1(Right), Interp6(Bottom, Right))))
    else if pattern == 73 || pattern == 77 then
      Some(Rule(Edge(Bottom, Left, Interp1(Top), Interp6(Left, Top)),
                Fixed(Interp2(Top, Right)),
                Edge(Bottom, Left, Interp1(BottomLeft), Interp9(Bottom, Left)),
                Fixed(Interp2(BottomRight, Right))))
    else if pattern == 42 || pattern == 170 then
      Some(Rule(Edge(Left, Top, Interp1(TopLeft), Interp9(Left, Top)),
                Fixed(Interp2(TopRight, Right)),
                Edge(Left, Top, Interp1(Bottom), Interp6(Left, Bottom)),
                Fixed(Interp2(Right, Bottom))))
    else if pattern == 14 || pattern == 142 then
      Some(Rule(Edge(Left, Top, Interp1(TopLeft), Interp9(Left, Top)),
                Edge(Left, Top, Interp1(Right), Interp6(Top, Right)),
                Fixed(Interp2(BottomLeft, Bottom)),
                Fixed(Interp2(Right, Bottom))))
    else if pattern == 67 then
      Some(Rule(Fixed(Interp1(Left)),
                Fixed(Interp2(TopRight, Right)),
                Fixed(Interp2(BottomLeft, Left)),
                Fixed(Interp2(BottomRight, Right))))
    else if pattern == 70 then
      Some(Rule(Fixed(Interp2(TopLeft, Left)),
                Fixed(Interp1(Right)),
                Fixed(Interp2(BottomLeft, Left)),
                Fixed(Interp2(BottomRight, Right))))
    else if pattern == 28 then
      Some(Rule(Fixed(Interp2(TopLeft, Top)),
                Fixed(Interp1(Top)),
                Fixed(Interp2(BottomLeft, Bottom)),
                Fixed(Interp2(BottomRight, Bottom))))
    else if pattern == 152 then
      Some(Rule(Fixed(Interp2(TopLeft, Top)),
                Fixed(Interp2(TopRight, Top)),
                Fixed(Interp2(BottomLeft, Bottom)),
                Fixed(Interp1(Bottom))))
    else if pattern == 194 then
      Some(Rule(Fixed(Interp2(TopLeft, Left)),
                Fixed(Interp2(TopRight, Right)),
                Fixed(Interp2(BottomLeft, Left)),
                Fixed(Interp1(Right))))
    else if pattern == 98 then
      Some(Rule(Fixed(Interp2(TopLeft, Left)),
                Fixed(Interp2(TopRight, Right)),
                Fixed(Interp1(Left)),
                Fixed(Interp2(BottomRight, Right))))
    else if pattern == 56 then
      Some(Rule(Fixed(Interp2(TopLeft, Top)),
                Fixed(Interp2(TopRight, Top)),
                Fixed(Interp1(Bottom)),
                Fixed(Interp2(BottomRight, Bottom))))
    else if pattern == 25 then
      Some(Rule(Fixed(Interp1(Top)),
                Fixed(Interp2(TopRight, Top)),
                Fixed(Interp2(BottomLeft, Bottom)),
                Fixed(Interp2(BottomRight, Bottom))))
    else if pattern == 26 || pattern == 31 then
      Some(Rule(Edge(Left, Top, Copy, Interp2(Left, Top)),
                Edge(Top, Right, Copy, Interp2(Top, Right)),
                Fixed(Interp2(BottomLeft, Bottom)),
                Fixed(Interp2(BottomRight, Bottom))))
    else if pattern == 82 || pattern == 214 then
      Some(Rule(Fixed(Interp2(TopLeft, Left)),
                Edge(Top, Right, Copy, Interp2(Top, Right)),
                Fixed(Interp2(BottomLeft, Left)),
                Edge(Right, Bottom, Copy, Interp2(Right, Bottom))))
    else if pattern == 88 || pattern == 248 then
      Some(Rule(Fixed(Interp2(TopLeft, Top)),
                Fixed(Interp2(TopRight, Top)),
                Edge(Bottom, Left, Copy, Interp2(Bottom, Left)),
                Edge(Right, Bottom, Copy, Interp2(Right, Bottom))))
    else if pattern == 74 || pattern == 107 then
      Some(Rule(Edge(Left, Top, Copy, Interp2(Left, Top)),
                Fixed(Interp2(TopRight, Right)),
                Edge(Bottom, Left, Copy, Interp2(Bottom, Left)),
                Fixed(Interp2(BottomRight, Right))))
    else if pattern == 27 then
      Some(Rule(Edge(Left, Top, Copy, Interp2(Left, Top)),
                Fixed(Interp1(TopRight)),
                Fixed(Interp2(BottomLeft, Bottom)),
                Fixed(Interp2(BottomRight, Bottom))))
    else if pattern == 86 then
      Some(Rule(Fixed(Interp2(TopLeft, Left)),
                Edge(Top, Right, Copy, Interp2(Top, Right)),
                Fixed(Interp2(BottomLeft, Left)),
                Fixed(Interp1(BottomRight))))
    else if pattern == 216 then
      Some(Rule(Fixed(Interp2(TopLeft, Top)),
                Fixed(Interp2(TopRight, Top)),
                Fixed(Interp1(BottomLeft)),
                Edge(Right, Bottom, Copy, Interp2(Right, Bottom))))
    else if pattern == 106 then
      Some(Rule(Fixed(Interp1(TopLeft)),
                Fixed(Interp2(TopRight, Right)),
                Edge(Bottom, Left, Copy, Interp2(Bottom, Left)),
                Fixed(Interp2(BottomRight, Right))))
    else if pattern == 30 then
      Some(Rule(Fixed(Interp1(TopLeft)),
                Edge(Top, Right, Copy, Interp2(Top, Right)),
                Fixed(Interp2(BottomLeft, Bottom)),
                Fixed(Interp2(BottomRight, Bottom))))
    else if pattern == 210 then
      Some(Rule(Fixed(Interp2(TopLeft, Left)),
                Fixed(Interp1(TopRight)),
                Fixed(Interp2(BottomLeft, Left)),
                Edge(Right, Bottom, Copy, Interp2(Right, Bottom))))
    else if pattern == 120 then
      Some(Rule(Fixed(Interp2(TopLeft, Top)),
                Fixed(Interp2(TopRight, Top)),
                Edge(Bottom, Left, Copy, Interp2(Bottom, Left)),
                Fixed(Interp1(BottomRight))))
    else if pattern == 75 then
      Some(Rule(Edge(Left, Top, Copy, Interp2(Left, Top)),
                Fixed(Interp2(TopRight, Right)),
                Fixed(Interp1(BottomLeft)),
                Fixed(Interp2(BottomRight, Right))))
    else if pattern == 29 then
      Some(Rule(Fixed(Interp1(Top)),
                Fixed(Interp1(Top)),
                Fixed(Interp2(BottomLeft, Bottom)),
                Fixed(Interp2(BottomRight, Bottom))))
    else if pattern == 198 then
      Some(Rule(Fixed(Interp2(TopLeft, Left)),
                Fixed(Interp1(Right)),
                Fixed(Interp2(BottomLeft, Left)),
                Fixed(Interp1(Right))))
    else if pattern == 184 then
      Some(Rule(Fixed(Interp2(TopLeft, Top)),
                Fixed(Interp2(TopRight, Top)),
                Fixed(Interp1(Bottom)),
                Fixed(Interp1(Bottom))))
    else if pattern == 99 then
      Some(Rule(Fixed(Interp1(Left)),
                Fixed(Interp2(TopRight, Right)),
                Fixed(Interp1(Left)),
                Fixed(Interp2(BottomRight, Right))))
    else if pattern == 57 then
      Some(Rule(Fixed(Interp1(Top)),
                Fixed(Interp2(TopRight, Top)),
                Fixed(Interp1(Bottom)),
                Fixed(Interp2(BottomRight, Bottom))))
    else if pattern == 71 then
      Some(Rule(Fixed(Interp1(Left)),
                Fixed(Interp1(Right)),
                Fixed(Interp2(BottomLeft, Left)),
                Fixed(Interp2(BottomRight, Right))))
    else if pattern == 156 then
      Some(Rule(Fixed(Interp2(TopLeft, Top)),
                Fixed(Interp1(Top)),
                Fixed(Interp2(BottomLeft, Bottom)),
                Fixed(Interp1(Bottom))))
    else if pattern == 226 then
      Some(Rule(Fixed(Interp2(TopLeft, Left)),
                Fixed(Interp2(TopRight, Right)),
                Fixed(Interp1(Left)),
                Fixed(Interp1(Right))))
    else if pattern == 60 then
      Some(Rule(Fixed(Interp2(TopLeft, Top)),
                Fixed(Interp1(Top)),
                Fixed(Interp1(Bottom)),
                Fixed(Interp2(BottomRight, Bottom))))
    else if pattern == 195 then
      Some(Rule(Fixed(Interp1(Left)),
                Fixed(Interp2(TopRight, Right)),
                Fixed(Interp2(BottomLeft, Left)),
                Fixed(Interp1(Right))))
    else if pattern == 102 then
      Some(Rule(Fixed(Interp2(TopLeft, Left)),
                Fixed(Interp1(Right)),
                Fixed(Interp1(Left)),
                Fixed(Interp2(BottomRight, Right))))
    else if pattern == 153 then
      Some(Rule(Fixed(Interp1(Top)),
                Fixed(Interp2(TopRight, Top)),
                Fixed(Interp2(BottomLeft, Bottom)),
                Fixed(Interp1(Bottom))))
    else if pattern == 58 then
      Some(Rule(Edge(Left, Top, Interp1(TopLeft), Interp7(Left, Top)),
                Edge(Top, Right, Interp1(TopRight), Interp7(Top, Right)),
                Fixed(Interp1(Bottom)),
                Fixed(Interp2(BottomRight, Bottom))))
    else if pattern == 83 then
      Some(Rule(Fixed(Interp1(Left)),
                Edge(Top, Right, Interp1(TopRight), Interp7(Top, Right)),
                Fixed(Interp2(BottomLeft, Left)),
                Edge(Right, Bottom, Interp1(BottomRight), Interp7(Right, Bottom))))
    else if pattern == 92 then
      Some(Rule(Fixed(Interp2(TopLeft, Top)),
                Fixed(Interp1(Top)),
                Edge(Bottom, Left, Interp1(BottomLeft), Interp7(Bottom, Left)),
                Edge(Right, Bottom, Interp1(BottomRight), Interp7(Right, Bottom))))
    else if pattern == 202 then
      Some(Rule(Edge(Left, Top, Interp1(TopLeft), Interp7(Left, Top)),
                Fixed(Interp2(TopRight, Right)),
                Edge(Bottom, Left, Interp1(BottomLeft), Interp7(Bottom, Left)),
                Fixed(Interp1(Right))))
    else if pattern == 78 then
      Some(Rule(Edge(Left, Top, Interp1(TopLeft), Interp7(Left, Top)),
                Fixed(Interp1(Right)),
                Edge(Bottom, Left, Interp1(BottomLeft), Interp7(Bottom, Left)),
                Fixed(Interp2(BottomRight, Right))))
    else if pattern == 154 then
      Some(Rule(Edge(Left, Top, Interp1(TopLeft), Interp7(Left, Top)),
                Edge(Top, Right, Interp1(TopRight), Interp7(Top, Right)),
                Fixed(Interp2(BottomLeft, Bottom)),
                Fixed(Interp1(Bottom))))
    else if pattern == 114 then
      Some(Rule(Fixed(Interp2(TopLeft, Left)),
                Edge(Top, Right, Interp1(TopRight), Interp7(Top, Right)),
                Fixed(Interp1(Left)),
                Edge(Right, Bottom, Interp1(BottomRight), Interp7(Right, Bottom))))
    else if pattern == 89 then
      Some(Rule(Fixed(Interp1(Top)),
                Fixed(Interp2(TopRight, Top)),
                Edge(Bottom, Left, Interp1(BottomLeft), Interp7(Bottom, Left)),
                Edge(Right, Bottom, Interp1(BottomRight), Interp7(Right, Bottom))))
    else if pattern == 90 then
      Some(Rule(Edge(Left, Top, Interp1(TopLeft), Interp7(Left, Top)),
                Edge(Top, Right, Interp1(TopRight), Interp7(Top, Right)),
                Edge(Bottom, Left, Interp1(BottomLeft), Interp7(Bottom, Left)),
                Edge(Right, Bottom, Interp1(BottomRight), Interp7(Right, Bottom))))
    else if pattern == 55 || pattern == 23 then
      Some(Rule(Edge(Top, Right, Interp1(Left), Interp6(Top, Left)),
                Edge(Top, Right, Copy, Interp9(Top, Right)),
                Fixed(Interp2(Bottom, Left)),
                Fixed(Interp2(BottomRight, Bottom))))
    else if pattern == 182 || pattern == 150 then
      Some(Rule(Fixed(Interp2(TopLeft, Left)),
                Edge(Top, Right, Copy, Interp9(Top, Right)),
                Fixed(Interp2(Bottom, Left)),
                Edge(Top, Right, Interp1(Bottom), Interp6(Right, Bottom))))
    else if pattern == 213 || pattern == 212 then
      Some(Rule(Fixed(Interp2(Left, Top)),
                Edge(Right, Bottom, Interp1(Top), Interp6(Right, Top)),
                Fixed(Interp2(BottomLeft, Left)),
                Edge(Right, Bottom, Copy, Interp9(Right, Bottom))))
    else if pattern == 241 || pattern == 240 then
      Some(Rule(Fixed(Interp2(Left, Top)),
                Fixed(Interp2(TopRight, Top)),
                Edge(Right, Bottom, Interp1(Left), Interp6(Bottom, Left)),
                Edge(Right, Bottom, Copy, Interp9(Right, Bottom))))
    else if pattern == 236 || pattern == 232 then
      Some(Rule(Fixed(Interp2(TopLeft, Top)),
                Fixed(Interp2(Top, Right)),
                Edge(Bottom, Left, Copy, Interp9(Bottom, Left)),
                Edge(Bottom, Left, Interp1(Right), Interp6(Bottom, Right))))
    else if pattern == 109 || pattern == 105 then
      Some(Rule(Edge(Bottom, Left, Interp1(Top), Interp6(Left, Top)),
                Fixed(Interp2(Top, Right)),
                Edge(Bottom, Left, Copy, Interp9(Bottom, Left)),
                Fixed(Interp2(BottomRight, Right))))
    else if pattern == 171 || pattern == 43 then
      Some(Rule(Edge(Left, Top, Copy, Interp9(Left, Top)),
                Fixed(Interp2(TopRight, Right)),
                Edge(Left, Top, Interp1(Bottom), Interp6(Left, Bottom)),
                Fixed(Interp2(Right, Bottom))))
    else if pattern == 143 || pattern == 15 then
      Some(Rule(Edge(Left, Top, Copy, Interp9(Left, Top)),
                Edge(Left, Top, Interp1(Right), Interp6(Top, Right)),
                Fixed(Interp2(BottomLeft, Bottom)),
                Fixed(Interp2(Right, Bottom))))
    else if pattern == 124 then
      Some(Rule(Fixed(Interp2(TopLeft, Top)),
                Fixed(Interp1(Top)),
                Edge(Bottom, Left, Copy, Interp2(Bottom, Left)),
                Fixed(Interp1(BottomRight))))
    else if pattern == 203 then
      Some(Rule(Edge(Left, Top, Copy, Interp2(Left, Top)),
                Fixed(Interp2(TopRight, Right)),
                Fixed(Interp1(BottomLeft)),
                Fixed(Interp1(Right))))
    else if pattern == 62 then
      Some(Rule(Fixed(Interp1(TopLeft)),
                Edge(Top, Right, Copy, Interp2(Top, Right)),
                Fixed(Interp1(Bottom)),
                Fixed(Interp2(BottomRight, Bottom))))
    else if pattern == 211 then
      Some(Rule(Fixed(Interp1(Left)),
                Fixed(Interp1(TopRight)),
                Fixed(Interp2(BottomLeft, Left)),
                Edge(Right, Bottom, Copy, Interp2(Right, Bottom))))
    else if pattern == 118 then
      Some(Rule(Fixed(Interp2(TopLeft, Left)),
                Edge(Top, Right, Copy, Interp2(Top, Right)),
                Fixed(Interp1(Left)),
                Fixed(Interp1(BottomRight))))
    else if pattern == 217 then
      Some(Rule(Fixed(Interp1(Top)),
                Fixed(Interp2(TopRight, Top)),
                Fixed(Interp1(BottomLeft)),
                Edge(Right, Bottom, Copy, Interp2(Right, Bottom))))
    else if pattern == 110 then
      Some(Rule(Fixed(Interp1(TopLeft)),
                Fixed(Interp1(Right)),
                Edge(Bottom, Left, Copy, Interp2(Bottom, Left)),
                Fixed(Interp2(BottomRight, Right))))
    else if pattern == 155 then
      Some(Rule(Edge(Left, Top, Copy, Interp2(Left, Top)),
                Fixed(Interp1(TopRight)),
                Fixed(Interp2(BottomLeft, Bottom)),
                Fixed(Interp1(Bottom))))
    else if pattern == 188 then
      Some(Rule(Fixed(Interp2(TopLeft, Top)),
                Fixed(Interp1(Top)),
                Fixed(Interp1(Bottom)),
                Fixed(Interp1(Bottom))))
    else if pattern == 185 then
      Some(Rule(Fixed(Interp1(Top)),
                Fixed(Interp2(TopRight, Top)),
                Fixed(Interp1(Bottom)),
                Fixed(Interp1(Bottom))))
    else if pattern == 61 then
      Some(Rule(Fixed(Interp1(Top)),
                Fixed(Interp1(Top)),
                Fixed(Interp1(Bottom)),
                Fixed(Interp2(BottomRight, Bottom))))
    else if pattern == 157 then
      Some(Rule(Fixed(Interp1(Top)),
                Fixed(Interp1(Top)),
                Fixed(Interp2(BottomLeft, Bottom)),
                Fixed(Interp1(Bottom))))
    else if pattern == 103 then
      Some(Rule(Fixed(Interp1(Left)),
                Fixed(Interp1(Right)),
                Fixed(Interp1(Left)),
                Fixed(Interp2(BottomRight, Right))))
    else if pattern == 227 then
      Some(Rule(Fixed(Interp1(Left)),
                Fixed(Interp2(TopRight, Right)),
                Fixed(Interp1(Left)),
                Fixed(Interp1(Right))))
    else if pattern == 230 then
      Some(Rule(Fixed(Interp2(TopLeft, Left)),
                Fixed(Interp1(Right)),
                Fixed(Interp1(Left)),
                Fixed(Interp1(Right))))
    else if pattern == 199 then
      Some(Rule(Fixed(Interp1(Left)),
                Fixed(Interp1(Right)),
                Fixed(Interp2(BottomLeft, Left)),
                Fixed(Interp1(Right))))
    else if pattern == 220 then
      Some(Rule(Fixed(Interp2(TopLeft, Top)),
                Fixed(Interp1(Top)),
                Edge(Bottom, Left, Interp1(BottomLeft), Interp7(Bottom, Left)),
                Edge(Right, Bottom, Copy, Interp2(Right, Bottom))))
    else if pattern == 158 then
      Some(Rule(Edge(Left, Top, Interp1(TopLeft), Interp7(Left, Top)),
                Edge(Top, Right, Copy, Interp2(Top, Right)),
                Fixed(Interp2(BottomLeft, Bottom)),
                Fixed(Interp1(Bottom))))
    else if pattern == 234 then
      Some(Rule(Edge(Left, Top, Interp1(TopLeft), Interp7(Left, Top)),
                Fixed(Interp2(TopRight, Right)),
                Edge(Bottom, Left, Copy, Interp2(Bottom, Left)),
                Fixed(Interp1(Right))))
    else if pattern == 242 then
      Some(Rule(Fixed(Interp2(TopLeft, Left)),
                Edge(Top, Right, Interp1(TopRight), Interp7(Top, Right)),
                Fixed(Interp1(Left)),
                Edge(Right, Bottom, Copy, Interp2(Right, Bottom))))
    else if pattern == 59 then
      Some(Rule(Edge(Left, Top, Copy, Interp2(Left, Top)),
                Edge(Top, Right, Interp1(TopRight), Interp7(Top, Right)),
                Fixed(Interp1(Bottom)),
                Fixed(Interp2(BottomRight, Bottom))))
    else if pattern == 121 then
      Some(Rule(Fixed(Interp1(Top)),
                Fixed(Interp2(TopRight, Top)),
                Edge(Bottom, Left, Copy, Interp2(Bottom, Left)),
                Edge(Right, Bottom, Interp1(BottomRight), Interp7(Right, Bottom))))
    else if pattern == 87 then
      Some(Rule(Fixed(Interp1(Left)),
                Edge(Top, Right, Copy, Interp2(Top, Right)),
                Fixed(Interp2(BottomLeft, Left)),
                Edge(Right, Bottom, Interp1(BottomRight), Interp7(Right, Bottom))))
    else if pattern == 79 then
      Some(Rule(Edge(Left, Top, Copy, Interp2(Left, Top)),
                Fixed(Interp1(Right)),
                Edge(Bottom, Left, Interp1(BottomLeft), Interp7(Bottom, Left)),
                Fixed(Interp2(BottomRight, Right))))
    else if pattern == 122 then
      Some(Rule(Edge(Left, Top, Interp1(TopLeft), Interp7(Left, Top)),
                Edge(Top, Right, Interp1(TopRight), Interp7(Top, Right)),
                Edge(Bottom, Left, Copy, Interp2(Bottom, Left)),
                Edge(Right, Bottom, Interp1(BottomRight), Interp7(Right, Bottom))))
    else if pattern == 94 then
      Some(Rule(Edge(Left, Top, Interp1(TopLeft), Interp7(Left, Top)),
                Edge(Top, Right, Copy, Interp2(Top, Right)),
                Edge(Bottom, Left, Interp1(BottomLeft), Interp7(Bottom, Left)),
                Edge(Right, Bottom, Interp1(BottomRight), Interp7(Right, Bottom))))
    else if pattern == 218 then
      Some(Rule(Edge(Left, Top, Interp1(TopLeft), Interp7(Left, Top)),
                Edge(Top, Right, Interp1(TopRight), Interp7(Top, Right)),
                Edge(Bottom, Left, Interp1(BottomLeft), Interp7(Bottom, Left)),
                Edge(Right, Bottom, Copy, Interp2(Right, Bottom))))
    else if pattern == 91 then
      Some(Rule(Edge(Left, Top, Copy, Interp2(Left, Top)),
                Edge(Top, Right, Interp1(TopRight), Interp7(Top, Right)),
                Edge(Bottom, Left, Interp1(BottomLeft), Interp7(Bottom, Left)),
                Edge(Right, Bottom, Interp1(BottomRight), Interp7(Right, Bottom))))
    else if pattern == 229 then
      Some(Rule(Fixed(Interp2(Left, Top)),
                Fixed(Interp2(Top, Right)),
                Fixed(Interp1(Left)),
                Fixed(Interp1(Right))))
    else if pattern == 167 then
      Some(Rule(Fixed(Interp1(Left)),
                Fixed(Interp1(Right)),
                Fixed(Interp2(Bottom, Left)),
                Fixed(Interp2(Right, Bottom))))
    else if pattern == 173 then
      Some(Rule(Fixed(Interp1(Top)),
                Fixed(Interp2(Top, Right)),
                Fixed(Interp1(Bottom)),
                Fixed(Interp2(Right, Bottom))))
    else if pattern == 181 then
      Some(Rule(Fixed(Interp2(Left, Top)),
                Fixed(Interp1(Top)),
                Fixed(Interp2(Bottom, Left)),
                Fixed(Interp1(Bottom))))
    else if pattern == 186 then
      Some(Rule(Edge(Left, Top, Interp1(TopLeft), Interp7(Left, Top)),
                Edge(Top, Right, Interp1(TopRight), Interp7(Top, Right)),
                Fixed(Interp1(Bottom)),
                Fixed(Interp1(Bottom))))
    else if pattern == 115 then
      Some(Rule(Fixed(Interp1(Left)),
                Edge(Top, Right, Interp1(TopRight), Interp7(Top, Right)),
                Fixed(Interp1(Left)),
                Edge(Right, Bottom, Interp1(BottomRight), Interp7(Right, Bottom))))
    else if pattern == 93 then
      Some(Rule(Fixed(Interp1(Top)),
                Fixed(Interp1(Top)),
                Edge(Bottom, Left, Interp1(BottomLeft), Interp7(Bottom, Left)),
                Edge(Right, Bottom, Interp1(BottomRight), Interp7(Right, Bottom))))
    else if pattern == 206 then
      Some(Rule(Edge(Left, Top, Interp1(TopLeft), Interp7(Left, Top)),
                Fixed(Interp1(Right)),
                Edge(Bottom, Left, Interp1(BottomLeft), Interp7(Bottom, Left)),
                Fixed(Interp1(Right))))
    else if pattern == 205 || pattern == 201 then
      Some(Rule(Fixed(Interp1(Top)),
                Fixed(Interp2(Top, Right)),
                Edge(Bottom, Left, Interp1(BottomLeft), Interp7(Bottom, Left)),
                Fixed(Interp1(Right))))
    else if pattern == 174 || pattern == 46 then
      Some(Rule(Edge(Left, Top, Interp1(TopLeft), Interp7(Left, Top)),
                Fixed(Interp1(Right)),
                Fixed(Interp1(Bottom)),
                Fixed(Interp2(Right, Bottom))))
    else if pattern == 179 || pattern == 147 then
      Some(Rule(Fixed(Interp1(Left)),
                Edge(Top, Right, Interp1(TopRight), Interp7(Top, Right)),
                Fixed(Interp2(Bottom, Left)),
                Fixed(Interp1(Bottom))))
    else if pattern == 117 || pattern == 116 then
      Some(Rule(Fixed(Interp2(Left, Top)),
                Fixed(Interp1(Top)),
                Fixed(Interp1(Left)),
                Edge(Right, Bottom, Interp1(BottomRight), Interp7(Right, Bottom))))
    else if pattern == 189 then
      Some(Rule(Fixed(Interp1(Top)),
                Fixed(Interp1(Top)),
                Fixed(Interp1(Bottom)),
                Fixed(Interp1(Bottom))))
    else if pattern == 231 then
      Some(Rule(Fixed(Interp1(Left)),
                Fixed(Interp1(Right)),
                Fixed(Interp1(Left)),
                Fixed(Interp1(Right))))
    else if pattern == 126 then
      Some(Rule(Fixed(Interp1(TopLeft)),
                Edge(Top, Right, Copy, Interp2(Top, Right)),
                Edge(Bottom, Left, Copy, Interp2(Bottom, Left)),
                Fixed(Interp1(BottomRight))))
    else if pattern == 219 then
      Some(Rule(Edge(Left, Top, Copy, Interp2(Left, Top)),
                Fixed(Interp1(TopRight)),
                Fixed(Interp1(BottomLeft)),
                Edge(Right, Bottom, Copy, Interp2(Right, Bottom))))
    else if pattern == 125 then
      Some(Rule(Edge(Bottom, Left, Interp1(Top), Interp6(Left, Top)),
                Fixed(Interp1(Top)),
                Edge(Bottom, Left, Copy, Interp9(Bottom, Left)),
                Fixed(Interp1(BottomRight))))
    else if pattern == 221 then
      Some(Rule(Fixed(Interp1(Top)),
                Edge(Right, Bottom, Interp1(Top), Interp6(Right, Top)),
                Fixed(Interp1(BottomLeft)),
                Edge(Right, Bottom, Copy, Interp9(Right, Bottom))))
    else if pattern == 207 then
      Some(Rule(Edge(Left, Top, Copy, Interp9(Left, Top)),
                Edge(Left, Top, Interp1(Right), Interp6(Top, Right)),
                Fixed(Interp1(BottomLeft)),
                Fixed(Interp1(Right))))
    else if pattern == 238 then
      Some(Rule(Fixed(Interp1(TopLeft)),
                Fixed(Interp1(Right)),
                Edge(Bottom, Left, Copy, Interp9(Bottom, Left)),
                Edge(Bottom, Left, Interp1(Right), Interp6(Bottom, Right))))
    else if pattern == 190 then
      Some(Rule(Fixed(Interp1(TopLeft)),
                Edge(Top, Right, Copy, Interp9(Top, Right)),
                Fixed(Interp1(Bottom)),
                Edge(Top, Right, Interp1(Bottom), Interp6(Right, Bottom))))
    else if pattern == 187 then
      Some(Rule(Edge(Left, Top, Copy, Interp9(Left, Top)),
                Fixed(Interp1(TopRight)),
                Edge(Left, Top, Interp1(Bottom), Interp6(Left, Bottom)),
                Fixed(Interp1(Bottom))))
    else if pattern == 243 then
      Some(Rule(Fixed(Interp1(Left)),
                Fixed(Interp1(TopRight)),
                Edge(Right, Bottom, Interp1(Left), Interp6(Bottom, Left)),
                Edge(Right, Bottom, Copy, Interp9(Right, Bottom))))
    else if pattern == 119 then
      Some(Rule(Edge(Top, Right, Interp1(Left), Interp6(Top, Left)),
                Edge(Top, Right, Copy, Interp9(Top, Right)),
                Fixed(Interp1(Left)),
                Fixed(Interp1(BottomRight))))
    else if pattern == 237 || pattern == 233 then
      Some(Rule(Fixed(Interp1(Top)),
                Fixed(Interp2(Top, Right)),
                Edge(Bottom, Left, Copy, Interp10(Bottom, Left)),
                Fixed(Interp1(Right))))
    else if pattern == 175 || pattern == 47 then
      Some(Rule(Edge(Left, Top, Copy, Interp10(Left, Top)),
                Fixed(Interp1(Right)),
                Fixed(Interp1(Bottom)),
                Fixed(Interp2(Right, Bottom))))
    else if pattern == 183 || pattern == 151 then
      Some(Rule(Fixed(Interp1(Left)),
                Edge(Top, Right, Copy, Interp10(Top, Right)),
                Fixed(Interp2(Bottom, Left)),
                Fixed(Interp1(Bottom))))
    else if pattern == 245 || pattern == 244 then
      Some(Rule(Fixed(Interp2(Left, Top)),
                Fixed(Interp1(Top)),
                Fixed(Interp1(Left)),
                Edge(Right, Bottom, Copy, Interp10(Right, Bottom))))
    else if pattern == 250 then
      Some(Rule(Fixed(Interp1(TopLeft)),
                Fixed(Interp1(TopRight)),
                Edge(Bottom, Left, Copy, Interp2(Bottom, Left)),
                Edge(Right, Bottom, Copy, Interp2(Right, Bottom))))
    else if pattern == 123 then
      Some(Rule(Edge(Left, Top, Copy, Interp2(Left, Top)),
                Fixed(Interp1(TopRight)),
                Edge(Bottom, Left, Copy, Interp2(Bottom, Left)),
                Fixed(Interp1(BottomRight))))
    else if pattern == 95 then
      Some(Rule(Edge(Left, Top, Copy, Interp2(Left, Top)),
                Edge(Top, Right, Copy, Interp2(Top, Right)),
                Fixed(Interp1(BottomLeft)),
                Fixed(Interp1(BottomRight))))
    else if pattern == 222 then
      Some(Rule(Fixed(Interp1(TopLeft)),
                Edge(Top, Right, Copy, Interp2(Top, Right)),
                Fixed(Interp1(BottomLeft)),
                Edge(Right, Bottom, Copy, Interp2(Right, Bottom))))
    else if pattern == 252 then
      Some(Rule(Fixed(Interp2(TopLeft, Top)),
                Fixed(Interp1(Top)),
                Edge(Bottom, Left, Copy, Interp2(Bottom, Left)),
                Edge(Right, Bottom, Copy, Interp10(Right, Bottom))))
    else if pattern == 249 then
      Some(Rule(Fixed(Interp1(Top)),
                Fixed(Interp2(TopRight, Top)),
                Edge(Bottom, Left, Copy, Interp10(Bottom, Left)),
                Edge(Right, Bottom, Copy, Interp2(Right, Bottom))))
    else if pattern == 235 then
      Some(Rule(Edge(Left, Top, Copy, Interp2(Left, Top)),
                Fixed(Interp2(TopRight, Right)),
                Edge(Bottom, Left, Copy, Interp10(Bottom, Left)),
                Fixed(Interp1(Right))))
    else if pattern == 111 then
      Some(Rule(Edge(Left, Top, Copy, Interp10(Left, Top)),
                Fixed(Interp1(Right)),
                Edge(Bottom, Left, Copy, Interp2(Bottom, Left)),
                Fixed(Interp2(BottomRight, Right))))
    else if pattern == 63 then
      Some(Rule(Edge(Left, Top, Copy, Interp10(Left, Top)),
                Edge(Top, Right, Copy, Interp2(Top, Right)),
                Fixed(Interp1(Bottom)),
                Fixed(Interp2(BottomRight, Bottom))))
    else if pattern == 159 then
      Some(Rule(Edge(Left, Top, Copy, Interp2(Left, Top)),
                Edge(Top, Right, Copy, Interp10(Top, Right)),
                Fixed(Interp2(BottomLeft, Bottom)),
                Fixed(Interp1(Bottom))))
    else if pattern == 215 then
      Some(Rule(Fixed(Interp1(Left)),
                Edge(Top, Right, Copy, Interp10(Top, Right)),
                Fixed(Interp2(BottomLeft, Left)),
                Edge(Right, Bottom, Copy, Interp2(Right, Bottom))))
    else if pattern == 246 then
      Some(Rule(Fixed(Interp2(TopLeft, Left)),
                Edge(Top, Right, Copy, Interp2(Top, Right)),
                Fixed(Interp1(Left)),
                Edge(Right, Bottom, Copy, Interp10(Right, Bottom))))
    else if pattern == 254 then
      Some(Rule(Fixed(Interp1(TopLeft)),
                Edge(Top, Right, Copy, Interp2(Top, Right)),
                Edge(Bottom, Left, Copy, Interp2(Bottom, Left)),
                Edge(Right, Bottom, Copy, Interp10(Right, Bottom))))
    else if pattern == 253 then
      Some(Rule(Fixed(Interp1(Top)),
                Fixed(Interp1(Top)),
                Edge(Bottom, Left, Copy, Interp10(Bottom, Left)),
                Edge(Right, Bottom, Copy, Interp10(Right, Bottom))))
    else if pattern == 251 then
      Some(Rule(Edge(Left, Top, Copy, Interp2(Left, Top)),
                Fixed(Interp1(TopRight)),
                Edge(Bottom, Left, Copy, Interp10(Bottom, Left)),
                Edge(Right, Bottom, Copy, Interp2(Right, Bottom))))
    else if pattern == 239 then
      Some(Rule(Edge(Left, Top, Copy, Interp10(Left, Top)),
                Fixed(Interp1(Right)),
                Edge(Bottom, Left, Copy, Interp10(Bottom, Left)),
                Fixed(Interp1(Right))))
    else if pattern == 127 then
      Some(Rule(Edge(Left, Top, Copy, Interp10(Left, Top)),
                Edge(Top, Right, Copy, Interp2(Top, Right)),
                Edge(Bottom, Left, Copy, Interp2(Bottom, Left)),
                Fixed(Interp1(BottomRight))))
    else if pattern == 191 then
      Some(Rule(Edge(Left, Top, Copy, Interp10(Left, Top)),
                Edge(Top, Right, Copy, Interp10(Top, Right)),
                Fixed(Interp1(Bottom)),
                Fixed(Interp1(Bottom))))
    else if pattern == 223 then
      Some(Rule(Edge(Left, Top, Copy, Interp2(Left, Top)),
                Edge(Top, Right, Copy, Interp10(Top, Right)),
                Fixed(Interp1(BottomLeft)),
                Edge(Right, Bottom, Copy, Interp2(Right, Bottom))))
    else if pattern == 247 then
      Some(Rule(Fixed(Interp1(Left)),
                Edge(Top, Right, Copy, Interp10(Top, Right)),
                Fixed(Interp1(Left)),
                Edge(Right, Bottom, Copy, Interp10(Right, Bottom))))
    else if pattern == 255 then
      Some(Rule(Edge(Left, Top, Copy, Interp10(Left, Top)),
                Edge(Top, Right, Copy, Interp10(Top, Right)),
                Edge(Bottom, Left, Copy, Interp10(Bottom, Left)),
                Edge(Right, Bottom, Copy, Interp10(Right, Bottom))))
    else
      None
  }

  /** Every one of the 256 patterns is matched by some branch. */
  lemma RuleForCovers(pattern: bv8)
    ensures RuleFor(pattern).Some?
  {
    if pattern < 16 {
      RuleForCoversBlock0(pattern);
    } else if pattern < 32 {
      RuleForCoversBlock1(pattern);
    } else if pattern < 48 {
      RuleForCoversBlock2(pattern);
    } else if pattern < 64 {
      RuleForCoversBlock3(pattern);
    } else if pattern < 80 {
      RuleForCoversBlock4(pattern);
    } else if pattern < 96 {
      RuleForCoversBlock5(pattern);
    } else if pattern < 112 {
      RuleForCoversBlock6(pattern);
    } else if pattern < 128 {
      RuleForCoversBlock7(pattern);
    } else if pattern < 144 {
      RuleForCoversBlock8(pattern);
    } else if pattern < 160 {
      RuleForCoversBlock9(pattern);
    } else if pattern < 176 {
      RuleForCoversBlock10(pattern);
    } else if pattern < 192 {
      RuleForCoversBlock11(pattern);
    } else if pattern < 208 {
      RuleForCoversBlock12(pattern);
    } else if pattern < 224 {
      RuleForCoversBlock13(pattern);
    } else if pattern < 240 {
      RuleForCoversBlock14(pattern);
    } else {
      RuleForCoversBlock15(pattern);
    }
  }

  /* The sixteen blocks of sixteen patterns, one at a time. */

  lemma RuleForCoversBlock0(pattern: bv8)
    requires 0 <= pattern as int < 16
    ensures RuleFor(pattern).Some?
  {
  }

  lemma RuleForCoversBlock1(pattern: bv8)
    requires 16 <= pattern as int < 32
    ensures RuleFor(pattern).Some?
  {
  }

  lemma RuleForCoversBlock2(pattern: bv8)
    requires 32 <= pattern as int < 48
    ensures RuleFor(pattern).Some?
  {
  }

  lemma RuleForCoversBlock3(pattern: bv8)
    requires 48 <= pattern as int < 64
    ensures RuleFor(pattern).Some?
  {
  }

  lemma RuleForCoversBlock4(pattern: bv8)
    requires 64 <= pattern as int < 80
    ensures RuleFor(pattern).Some?
  {
  }

  lemma RuleForCoversBlock5(pattern: bv8)
    requires 80 <= pattern as int < 96
    ensures RuleFor(pattern).Some?
  {
  }

  lemma RuleForCoversBlock6(pattern: bv8)
    requires 96 <= pattern as int < 112
    ensures RuleFor(pattern).Some?
  {
  }

  lemma RuleForCoversBlock7(pattern: bv8)
    requires 112 <= pattern as int < 128
    ensures RuleFor(pattern).Some?
  {
  }

  lemma RuleForCoversBlock8(pattern: bv8)
    requires 128 <= pattern as int < 144
    ensures RuleFor(pattern).Some?
  {
  }

  lemma RuleForCoversBlock9(pattern: bv8)
    requires 144 <= pattern as int < 160
    ensures RuleFor(pattern).Some?
  {
  }

  lemma RuleForCoversBlock10(pattern: bv8)
    requires 160 <= pattern as int < 176
    ensures RuleFor(pattern).Some?
  {
  }

  lemma RuleForCoversBlock11(pattern: bv8)
    requires 176 <= pattern as int < 192
    ensures RuleFor(pattern).Some?
  {
  }

  lemma RuleForCoversBlock12(pattern: bv8)
    requires 192 <= pattern as int < 208
    ensures RuleFor(pattern).Some?
  {
  }

  lemma RuleForCoversBlock13(pattern: bv8)
    requires 208 <= pattern as int < 224
    ensures RuleFor(pattern).Some?
  {
  }

  lemma RuleForCoversBlock14(pattern: bv8)
    requires 224 <= pattern as int < 240
    ensures RuleFor(pattern).Some?
  {
  }

  lemma RuleForCoversBlock15(pattern: bv8)
    requires 240 <= pattern as int < 256
    ensures RuleFor(pattern).Some?
  {
  }


  /** The rule of the branch that matches `pattern`. */
  function RuleOf(pattern: bv8): Rule
  {
    RuleForCovers(pattern);
    RuleFor(pattern).value
  }

  /* ---------------------------------------------------------------------- */
  /* One pixel                                                               */
  /* ---------------------------------------------------------------------- */

  /** `[rgb_to_yuv(rgb) for rgb in context]`. */
  function YuvContext(context: seq<RGB>): (r: seq<YUV>)
    ensures |r| == |context|
    ensures forall k :: 0 <= k < |context| ==> r[k] == RgbToYuv(context[k])
  {
    seq(|context|, k requires 0 <= k < |context| => RgbToYuv(context[k]))
  }

  /** A neighbour's bit is due when it is not equal-ish to the centre. */
  predicate Differs(yuvContext: seq<YUV>, yuvPx: YUV, bit: Pos)
    requires |yuvContext| == 9
  {
    bit != Center && !YuvEqual(yuvContext[bit], yuvPx)
  }

  /** The pattern after the first `n` turns of the loop over the context. */
  function PatternUpTo(yuvContext: seq<YUV>, yuvPx: YUV, n: nat): bv8
    requires |yuvContext| == 9 && n <= 9
  {
    if n == 0 then 0
    else
      var bit: Pos := n - 1;
      PatternUpTo(yuvContext, yuvPx, n - 1) | (if Differs(yuvContext, yuvPx, bit) then ContextFlag(bit) else 0)
  }

  /** One turn of the loop ORs in the flag of position `n` when it differs, and nothing else. */
  lemma PatternStep(yuvContext: seq<YUV>, yuvPx: YUV, n: nat)
    requires |yuvContext| == 9 && n < 9
    ensures Differs(yuvContext, yuvPx, n) ==>
              PatternUpTo(yuvContext, yuvPx, n + 1) == PatternUpTo(yuvContext, yuvPx, n) | ContextFlag(n)
    ensures !Differs(yuvContext, yuvPx, n) ==>
              PatternUpTo(yuvContext, yuvPx, n + 1) == PatternUpTo(yuvContext, yuvPx, n)
  {
  }

  /** `hq2x_pixel`'s pattern: one bit per neighbour that is not equal-ish to the centre. */
  function Pattern(yuvContext: seq<YUV>, yuvPx: YUV): (pattern: bv8)
    requires |yuvContext| == 9
    ensures (forall i: Pos :: i != Center ==> YuvEqual(yuvContext[i], yuvPx)) ==> pattern == 0
  {
    UniformPatternUpTo(yuvContext, yuvPx, 9);
    PatternUpTo(yuvContext, yuvPx, 9)
  }

  /** With no differing neighbour the loop never ORs in a flag. */
  lemma {:induction false} UniformPatternUpTo(yuvContext: seq<YUV>, yuvPx: YUV, n: nat)
    requires |yuvContext| == 9 && n <= 9
    ensures (forall i: Pos :: i != Center ==> YuvEqual(yuvContext[i], yuvPx)) ==> PatternUpTo(yuvContext, yuvPx, n) == 0
  {
    if n > 0 {
      UniformPatternUpTo(yuvContext, yuvPx, n - 1);
    }
  }

  lemma {:induction false} PatternUpToBits(yuvContext: seq<YUV>, yuvPx: YUV, n: nat)
    requires |yuvContext| == 9 && n <= 9
    ensures forall i: Pos :: i != Center ==>
              (PatternUpTo(yuvContext, yuvPx, n) & ContextFlag(i) != 0 <==> i < n && Differs(yuvContext, yuvPx, i))
  {
    if n > 0 {
      PatternUpToBits(yuvContext, yuvPx, n - 1);
      forall i: Pos | i != Center
        ensures PatternUpTo(yuvContext, yuvPx, n) & ContextFlag(i) != 0 <==> i < n && Differs(yuvContext, yuvPx, i)
      {
        PatternBitStep(yuvContext, yuvPx, n - 1, i);
      }
    }
  }

  /** Turn `n` of the loop sets the bit of position `i` only when `i` is `n` and differs. */
  lemma PatternBitStep(yuvContext: seq<YUV>, yuvPx: YUV, n: nat, i: Pos)
    requires |yuvContext| == 9 && n < 9 && i != Center
    requires PatternUpTo(yuvContext, yuvPx, n) & ContextFlag(i) != 0 <==> i < n && Differs(yuvContext, yuvPx, i)
    ensures PatternUpTo(yuvContext, yuvPx, n + 1) & ContextFlag(i) != 0 <==> i < n + 1 && Differs(yuvContext, yuvPx, i)
  {
    var before := PatternUpTo(yuvContext, yuvPx, n);
    PatternStep(yuvContext, yuvPx, n);
    if Differs(yuvContext, yuvPx, n) {
      OrMask(before, ContextFlag(n), ContextFlag(i));
      if i == n {
        FlagOwnBit(i);
      } else {
        FlagsDisjoint(i, n);
      }
    }
  }

  /**
   * A position's bit of the pattern is set exactly when that neighbour is
   * not equal-ish to the centre; the pattern has no other bits.
   */
  lemma PatternBits(yuvContext: seq<YUV>, yuvPx: YUV)
    requires |yuvContext| == 9
    ensures forall i: Pos :: i != Center ==>
              (Pattern(yuvContext, yuvPx) & ContextFlag(i) != 0 <==> !YuvEqual(yuvContext[i], yuvPx))
    ensures (forall i: Pos :: i != Center ==> YuvEqual(yuvContext[i], yuvPx)) ==> Pattern(yuvContext, yuvPx) == 0
  {
    PatternUpToBits(yuvContext, yuvPx, 9);
    if forall i: Pos :: i != Center ==> YuvEqual(yuvContext[i], yuvPx) {
      var p := Pattern(yuvContext, yuvPx);
      ContextFlagValues();
      assert p & 1 == 0 && p & 2 == 0 && p & 4 == 0 && p & 8 == 0;
      assert p & 16 == 0 && p & 32 == 0 && p & 64 == 0 && p & 128 == 0;
    }
  }

  /** The colour a blend stands for in a given context. */
  function BlendPixel(blend: Blend, context: seq<RGB>): RGB
    requires |context| == 9
  {
    var c := context[Center];
    match blend
    case Copy => c
    case Interp1(p) =>
      var x := context[p];
      RGB(Mean1(c.r, x.r), Mean1(c.g, x.g), Mean1(c.b, x.b))
    case Interp2(p, q) =>
      var x, y := context[p], context[q];
      RGB(Mean2(c.r, x.r, y.r), Mean2(c.g, x.g, y.g), Mean2(c.b, x.b, y.b))
    case Interp5(p) =>
      var x := context[p];
      RGB(Mean5(c.r, x.r), Mean5(c.g, x.g), Mean5(c.b, x.b))
    case Interp6(p, q) =>
      var x, y := context[p], context[q];
      RGB(Mean6(c.r, x.r, y.r), Mean6(c.g, x.g, y.g), Mean6(c.b, x.b, y.b))
    case Interp7(p, q) =>
      var x, y := context[p], context[q];
      RGB(Mean7(c.r, x.r, y.r), Mean7(c.g, x.g, y.g), Mean7(c.b, x.b, y.b))
    case Interp9(p, q) =>
      var x, y := context[p], context[q];
      RGB(Mean9(c.r, x.r, y.r), Mean9(c.g, x.g, y.g), Mean9(c.b, x.b, y.b))
    case Interp10(p, q) =>
      var x, y := context[p], context[q];
      RGB(Mean10(c.r, x.r, y.r), Mean10(c.g, x.g, y.g), Mean10(c.b, x.b, y.b))
  }

  /** The colour a branch assigns to one corner. */
  function CornerPixel(corner: Corner, context: seq<RGB>, yuvContext: seq<YUV>): RGB
    requires |context| == 9 && |yuvContext| == 9
  {
    match corner
    case Fixed(blend) => BlendPixel(blend, context)
    case Edge(a, b, whenDiffer, whenEqual) =>
      if !YuvEqual(yuvContext[a], yuvContext[b]) then BlendPixel(whenDiffer, context)
      else BlendPixel(whenEqual, context)
  }

  /** The four colours `(tl, tr, bl, br)` that replace one pixel. */
  datatype Quad = Quad(tl: RGB, tr: RGB, bl: RGB, br: RGB)

  /** What `hq2x_pixel` returns for a 3×3 context. */
  function Upscaled(context: seq<RGB>): (q: Quad)
    requires |context| == 9
    ensures var c := context[Center];
            (forall i :: 0 <= i < 9 ==> context[i] == c) ==> q == Quad(c, c, c, c)
  {
    var yuvContext := YuvContext(context);
    var rule := RuleOf(Pattern(yuvContext, RgbToYuv(context[Center])));
    UniformCorners(rule, context, yuvContext);
    Quad(CornerPixel(rule.tl, context, yuvContext), CornerPixel(rule.tr, context, yuvContext),
         CornerPixel(rule.bl, context, yuvContext), CornerPixel(rule.br, context, yuvContext))
  }

  /** `[rgb_to_yuv(rgb) for rgb in context]`, through the cache. */
  method ConvertContext(context: seq<RGB>, cache: YuvCache) returns (yuvContext: seq<YUV>)
    requires cache.Valid()
    modifies cache
    ensures cache.Valid()
    ensures cache.entries.Keys == old(cache.entries.Keys) + (set rgb | rgb in context)
    ensures yuvContext == YuvContext(context)
  {
    yuvContext := [];
    for i := 0 to |context|
      invariant cache.Valid()
      invariant cache.entries.Keys == old(cache.entries.Keys) + (set rgb | rgb in context[..i])
      invariant |yuvContext| == i
      invariant forall k :: 0 <= k < i ==> yuvContext[k] == RgbToYuv(context[k])
    {
      assert context[..i + 1] == context[..i] + [context[i]];
      ColoursOfAppend(context[..i], context[i]);
      var yuv := cache.Lookup(context[i]);
      yuvContext := yuvContext + [yuv];
    }
    assert context[..|context|] == context;
  }

  /** The colours of a list extended by one entry are its colours and that entry. */
  lemma ColoursOfAppend(s: seq<RGB>, x: RGB)
    ensures (set rgb | rgb in s + [x]) == (set rgb | rgb in s) + {x}
  {
  }

  /** The loop of `hq2x_pixel` that ORs in the flag of every differing neighbour. */
  method ComputePattern(yuvContext: seq<YUV>, yuvPx: YUV) returns (pattern: bv8)
    requires |yuvContext| == 9
    ensures pattern == Pattern(yuvContext, yuvPx)
  {
    pattern := 0;
    for bit := 0 to 9
      invariant pattern == PatternUpTo(yuvContext, yuvPx, bit)
    {
      PatternStep(yuvContext, yuvPx, bit);
      if bit != Center && !YuvEqual(yuvContext[bit], yuvPx) {
        pattern := pattern | ContextFlag(bit);
      }
    }
  }

  /**
   * `hq2x_pixel`: converts the context through the cache, builds the pattern
   * bit by bit, and applies the matching branch of the table.
   */
  method Hq2xPixel(context: seq<RGB>, cache: YuvCache) returns (tl: RGB, tr: RGB, bl: RGB, br: RGB)
    requires |context| == 9 && cache.Valid()
    modifies cache
    ensures cache.Valid()
    ensures cache.entries.Keys == old(cache.entries.Keys) + (set rgb | rgb in context)
    ensures Quad(tl, tr, bl, br) == Upscaled(context)
  {
    var yuvContext := ConvertContext(context, cache);
    assert context[Center] in old(cache.entries.Keys) + (set rgb | rgb in context);
    var yuvPx := cache.Lookup(context[Center]);
    var pattern := ComputePattern(yuvContext, yuvPx);
    var rule := RuleOf(pattern);
    tl := CornerPixel(rule.tl, context, yuvContext);
    tr := CornerPixel(rule.tr, context, yuvContext);
    bl := CornerPixel(rule.bl, context, yuvContext);
    br := CornerPixel(rule.br, context, yuvContext);
  }

  /** In a uniform context every corner of a branch is the centre colour. */
  lemma UniformCorners(rule: Rule, context: seq<RGB>, yuvContext: seq<YUV>)
    requires |context| == 9 && |yuvContext| == 9
    ensures var c := context[Center];
            (forall i :: 0 <= i < 9 ==> context[i] == c) ==>
              && CornerPixel(rule.tl, context, yuvContext) == c && CornerPixel(rule.tr, context, yuvContext) == c
              && CornerPixel(rule.bl, context, yuvContext) == c && CornerPixel(rule.br, context, yuvContext) == c
  {
    var c := context[Center];
    if forall i :: 0 <= i < 9 ==> context[i] == c {
      CornerWithin(rule.tl, context, yuvContext, c, c);
      CornerWithin(rule.tr, context, yuvContext, c, c);
      CornerWithin(rule.bl, context, yuvContext, c, c);
      CornerWithin(rule.br, context, yuvContext, c, c);
    }
  }

  /** Every channel of `c` lies between the same channels of `lo` and `hi`. */
  predicate Within(c: RGB, lo: RGB, hi: RGB)
  {
    lo.r <= c.r <= hi.r && lo.g <= c.g <= hi.g && lo.b <= c.b <= hi.b
  }

  lemma BlendWithin(blend: Blend, context: seq<RGB>, lo: RGB, hi: RGB)
    requires |context| == 9
    requires forall i :: 0 <= i < 9 ==> Within(context[i], lo, hi)
    ensures Within(BlendPixel(blend, context), lo, hi)
  {
    assert Within(context[Center], lo, hi);
    match blend
    case Copy =>
    case Interp1(p) => assert Within(context[p], lo, hi);
    case Interp2(p, q) => assert Within(context[p], lo, hi) && Within(context[q], lo, hi);
    case Interp5(p) => assert Within(context[p], lo, hi);
    case Interp6(p, q) => assert Within(context[p], lo, hi) && Within(context[q], lo, hi);
    case Interp7(p, q) => assert Within(context[p], lo, hi) && Within(context[q], lo, hi);
    case Interp9(p, q) => assert Within(context[p], lo, hi) && Within(context[q], lo, hi);
    case Interp10(p, q) => assert Within(context[p], lo, hi) && Within(context[q], lo, hi);
  }

  lemma CornerWithin(corner: Corner, context: seq<RGB>, yuvContext: seq<YUV>, lo: RGB, hi: RGB)
    requires |context| == 9 && |yuvContext| == 9
    requires forall i :: 0 <= i < 9 ==> Within(context[i], lo, hi)
    ensures Within(CornerPixel(corner, context, yuvContext), lo, hi)
  {
    match corner
    case Fixed(blend) => BlendWithin(blend, context, lo, hi);
    case Edge(a, b, whenDiffer, whenEqual) =>
      BlendWithin(whenDiffer, context, lo, hi);
      BlendWithin(whenEqual, context, lo, hi);
  }

  /**
   * Whatever the pattern, each channel of the four output colours stays
   * within any range that holds that channel across the whole context; in
   * particular 24-bit colour in gives 24-bit colour out.
   */
  lemma UpscaledWithin(context: seq<RGB>, lo: RGB, hi: RGB)
    requires |context| == 9
    requires forall i :: 0 <= i < 9 ==> Within(context[i], lo, hi)
    ensures var q := Upscaled(context);
            Within(q.tl, lo, hi) && Within(q.tr, lo, hi) && Within(q.bl, lo, hi) && Within(q.br, lo, hi)
  {
    var yuvContext := YuvContext(context);
    var rule := RuleOf(Pattern(yuvContext, RgbToYuv(context[Center])));
    CornerWithin(rule.tl, context, yuvContext, lo, hi);
    CornerWithin(rule.tr, context, yuvContext, lo, hi);
    CornerWithin(rule.bl, context, yuvContext, lo, hi);
    CornerWithin(rule.br, context, yuvContext, lo, hi);
  }

  /**
   * A uniform context has pattern 0, and all four outputs are the centre
   * colour.
   */
  lemma UniformContext(context: seq<RGB>)
    requires |context| == 9
    requires forall i :: 0 <= i < 9 ==> context[i] == context[Center]
    ensures Pattern(YuvContext(context), RgbToYuv(context[Center])) == 0
    ensures var c := context[Center];
            Upscaled(context) == Quad(c, c, c, c)
  {
    var c := context[Center];
    var yuvContext := YuvContext(context);
    forall i: Pos | i != Center ensures YuvEqual(yuvContext[i], RgbToYuv(c)) {
      YuvEqualReflexive(RgbToYuv(c));
    }
    PatternBits(yuvContext, RgbToYuv(c));
    var q := Upscaled(context);
    UpscaledWithin(context, c, c);
    assert q.tl == c && q.tr == c && q.bl == c && q.br == c;
  }

  /* ---------------------------------------------------------------------- */
  /* The whole image                                                         */
  /* ---------------------------------------------------------------------- */

  /** `get_px`'s capping of one coordinate to `0..n-1`. */
  function Clamp(v: int, n: int): (r: int)
    requires n > 0
    ensures 0 <= r < n
    ensures 0 <= v < n ==> r == v
    ensures v < 0 ==> r == 0
    ensures n <= v ==> r == n - 1
  {
    if v < 0 then 0 else if v >= n then n - 1 else v
  }

  /** `get_px`: the source pixel at the capped coordinates; the grid is indexed `[x, y]`. */
  function GetPx(source: array2<RGB>, x: int, y: int): (px: RGB)
    requires source.Length0 > 0 && source.Length1 > 0
    reads source
    ensures 0 <= x < source.Length0 && 0 <= y < source.Length1 ==> px == source[x, y]
    ensures exists i, j :: 0 <= i < source.Length0 && 0 <= j < source.Length1 && px == source[i, j]
  {
    source[Clamp(x, source.Length0), Clamp(y, source.Length1)]
  }

  /** The flattened 3×3 context centred on `(x, y)`, edges repeated. */
  function ContextAt(source: array2<RGB>, x: int, y: int): (context: seq<RGB>)
    requires source.Length0 > 0 && source.Length1 > 0
    reads source
    ensures |context| == 9
  {
    [GetPx(source, x - 1, y - 1), GetPx(source, x, y - 1), GetPx(source, x + 1, y - 1),
     GetPx(source, x - 1, y), GetPx(source, x, y), GetPx(source, x + 1, y),
     GetPx(source, x - 1, y + 1), GetPx(source, x, y + 1), GetPx(source, x + 1, y + 1)]
  }

  /** Inside the image the context is the true 3×3 neighbourhood, read across and down. */
  lemma ContextAtInterior(source: array2<RGB>, x: int, y: int)
    requires 1 <= x < source.Length0 - 1 && 1 <= y < source.Length1 - 1
    ensures var context := ContextAt(source, x, y);
            && context[TopLeft] == source[x - 1, y - 1] && context[Top] == source[x, y - 1]
            && context[TopRight] == source[x + 1, y - 1] && context[Left] == source[x - 1, y]
            && context[Center] == source[x, y] && context[Right] == source[x + 1, y]
            && context[BottomLeft] == source[x - 1, y + 1] && context[Bottom] == source[x, y + 1]
            && context[BottomRight] == source[x + 1, y + 1]
  {
  }

  /**
   * At the image's corner `(0, 0)` the missing neighbours repeat the edge:
   * the missing row and column are copies of row 0 and column 0.
   */
  lemma ContextAtOrigin(source: array2<RGB>)
    requires source.Length0 > 1 && source.Length1 > 1
    ensures var context := ContextAt(source, 0, 0);
            && context[TopLeft] == source[0, 0] && context[Top] == source[0, 0] && context[Left] == source[0, 0]
            && context[TopRight] == source[1, 0] && context[BottomLeft] == source[0, 1]
  {
  }

  /** The corner of a 2×2 block at column offset `dx` and row offset `dy`. */
  function BlockCorner(q: Quad, dx: int, dy: int): RGB
  {
    if dy == 0 then (if dx == 0 then q.tl else q.tr)
    else (if dx == 0 then q.bl else q.br)
  }

  /** The colour `hq2x` puts at destination pixel `(i, j)`. */
  function Expected(source: array2<RGB>, i: int, j: int): RGB
    requires source.Length0 > 0 && source.Length1 > 0
    reads source
  {
    BlockCorner(Upscaled(ContextAt(source, i / 2, j / 2)), i % 2, j % 2)
  }

  /** The four assignments to `destgrid` for source pixel `(x, y)`. */
  method WriteBlock(dest: array2<RGB>, x: int, y: int, q: Quad)
    requires 0 <= x && 2 * x + 1 < dest.Length0 && 0 <= y && 2 * y + 1 < dest.Length1
    modifies dest
    ensures forall i, j :: 0 <= i < dest.Length0 && 0 <= j < dest.Length1 ==>
              dest[i, j] == if i / 2 == x && j / 2 == y then BlockCorner(q, i % 2, j % 2) else old(dest[i, j])
  {
    dest[x * 2, y * 2] := q.tl;
    dest[x * 2 + 1, y * 2] := q.tr;
    dest[x * 2, y * 2 + 1] := q.bl;
    dest[x * 2 + 1, y * 2 + 1] := q.br;
  }

  /**
   * `hq2x`: a destination twice as wide and twice as high, in which the
   * block at `(2x, 2y)` holds `hq2x_pixel` of the context of source pixel
   * `(x, y)`: tl, tr on the first row, bl, br on the second.
   */
  method Upscale(source: array2<RGB>, cache: YuvCache) returns (dest: array2<RGB>)
    requires cache.Valid()
    modifies cache
    ensures cache.Valid()
    ensures fresh(dest)
    ensures dest.Length0 == 2 * source.Length0 && dest.Length1 == 2 * source.Length1
    ensures forall i, j :: 0 <= i < dest.Length0 && 0 <= j < dest.Length1 ==> dest[i, j] == Expected(source, i, j)
  {
    var w, h := source.Length0, source.Length1;
    dest := new RGB[2 * w, 2 * h]((i, j) => RGB(0, 0, 0));
    for x := 0 to w
      invariant cache.Valid()
      invariant forall i, j :: 0 <= i < 2 * x && 0 <= j < 2 * h ==> dest[i, j] == Expected(source, i, j)
    {
      UpscaleColumn(source, cache, dest, x);
    }
  }

  /** The inner loop of `hq2x`: the blocks of source column `x`, top to bottom. */
  method UpscaleColumn(source: array2<RGB>, cache: YuvCache, dest: array2<RGB>, x: nat)
    requires cache.Valid() && dest != source
    requires x < source.Length0 && dest.Length0 == 2 * source.Length0 && dest.Length1 == 2 * source.Length1
    modifies cache, dest
    ensures cache.Valid()
    ensures forall i, j :: 0 <= i < dest.Length0 && 0 <= j < dest.Length1 ==>
              dest[i, j] == if i / 2 == x then Expected(source, i, j) else old(dest[i, j])
  {
    var h := source.Length1;
    for y := 0 to h
      invariant cache.Valid()
      invariant forall i, j :: 0 <= i < dest.Length0 && 0 <= j < dest.Length1 ==>
                  dest[i, j] == if i / 2 == x && j < 2 * y then Expected(source, i, j) else old(dest[i, j])
    {
      var context := ContextAt(source, x, y);
      var tl, tr, bl, br := Hq2xPixel(context, cache);
      WriteBlock(dest, x, y, Quad(tl, tr, bl, br));
    }
  }
}
