/**
 * Integer pixel points and the (x, y) tuple ordering that every `sorted(...,
 * key=lambda item: (item[0], item[1]))` call of the detector relies on, with a
 * stable insertion sort standing for Python's `sorted`.
 */
module Order {

  datatype Option<T> = None | Some(value: T)

  /** An (x, y) integer pixel coordinate. */
  datatype Point = Point(x: int, y: int)

  /** Python's ordering of `(x, y)` tuples: by x, ties broken by y. */
  predicate Leq(p: Point, q: Point)
  {
    p.x < q.x || (p.x == q.x && p.y <= q.y)
  }

  lemma LeqTotal(p: Point, q: Point)
    ensures Leq(p, q) || Leq(q, p)
    ensures Leq(p, q) && Leq(q, p) ==> p == q
  {
  }

  /** `s` is in ascending order of `key`. */
  ghost predicate SortedBy<T>(s: seq<T>, key: T -> Point)
  {
    forall i, j :: 0 <= i < j < |s| ==> Leq(key(s[i]), key(s[j]))
  }

  /** `s` lists distinct points in strictly ascending order. */
  ghost predicate StrictlySorted(s: seq<Point>)
  {
    forall i, j :: 0 <= i < j < |s| ==> Leq(s[i], s[j]) && s[i] != s[j]
  }

  /**
   * Inserts `x` in front of the first element whose key is not smaller, so
   * that an element inserted later (it came earlier in the input) stays ahead
   * of equal keys: this is what makes `SortBy` stable.
   */
  function Insert<T>(x: T, s: seq<T>, key: T -> Point): (r: seq<T>)
    ensures multiset(r) == multiset(s) + multiset{x}
    ensures |r| == |s| + 1
  {
    if s == [] then [x]
    else if Leq(key(x), key(s[0])) then [x] + s
    else
      assert s == [s[0]] + s[1..];
      [s[0]] + Insert(x, s[1..], key)
  }

  lemma {:induction false} InsertSorted<T>(x: T, s: seq<T>, key: T -> Point)
    requires SortedBy(s, key)
    ensures SortedBy(Insert(x, s, key), key)
  {
    if s != [] && !Leq(key(x), key(s[0])) {
      InsertSorted(x, s[1..], key);
      var rest := Insert(x, s[1..], key);
      assert multiset(rest) == multiset(s[1..]) + multiset{x};
      forall k | 0 <= k < |rest| ensures Leq(key(s[0]), key(rest[k])) {
        assert rest[k] in multiset(rest);
        if rest[k] == x {
        } else {
          assert rest[k] in multiset(s[1..]);
          var m :| 0 <= m < |s[1..]| && s[1..][m] == rest[k];
          assert s[1 + m] == rest[k];
        }
      }
    }
  }

  /** Python's `sorted(s, key=key)`: stable, ascending in the (x, y) key. */
  function SortBy<T>(s: seq<T>, key: T -> Point): (r: seq<T>)
    ensures |r| == |s|
  {
    if s == [] then []
    else
      assert s == [s[0]] + s[1..];
      Insert(s[0], SortBy(s[1..], key), key)
  }

  /** `SortBy` rearranges its input: it keeps every element, as often as it occurs. */
  lemma {:induction false} SortByPermutation<T>(s: seq<T>, key: T -> Point)
    ensures multiset(SortBy(s, key)) == multiset(s)
  {
    if s != [] {
      SortByPermutation(s[1..], key);
      assert s == [s[0]] + s[1..];
    }
  }

  /** The result of `SortBy` is in ascending order of the key. */
  lemma {:induction false} SortBySorted<T>(s: seq<T>, key: T -> Point)
    ensures SortedBy(SortBy(s, key), key)
  {
    if s != [] {
      SortBySorted(s[1..], key);
      InsertSorted(s[0], SortBy(s[1..], key), key);
    }
  }

  /** The identity key, for sorting points themselves. */
  function PointKey(p: Point): Point { p }

  /**
   * `Insert` specialised to points under their own order. `InsertPoint` and
   * `SortPoints` are a first-order copy of `Insert` and `SortBy`: unfolding
   * them on the literal four-point lists of the size lemmas does not go
   * through the function-valued key, which keeps those proofs cheap for the
   * solver. `SortPointsIsSortBy` proves the copy equal to the generic sort.
   */
  function InsertPoint(x: Point, s: seq<Point>): (r: seq<Point>)
    ensures |r| == |s| + 1
  {
    if s == [] then [x]
    else if Leq(x, s[0]) then [x] + s
    else [s[0]] + InsertPoint(x, s[1..])
  }

  /** `sorted(points)` on a list of points: `SortBy` specialised to the identity key. */
  function SortPoints(s: seq<Point>): (r: seq<Point>)
    ensures |r| == |s|
  {
    if s == [] then [] else InsertPoint(s[0], SortPoints(s[1..]))
  }

  lemma {:induction false} InsertPointIsInsert(x: Point, s: seq<Point>)
    ensures InsertPoint(x, s) == Insert(x, s, PointKey)
  {
    if s != [] && !Leq(x, s[0]) {
      InsertPointIsInsert(x, s[1..]);
    }
  }

  /** The specialised sort is the generic one with the identity key. */
  lemma {:induction false} SortPointsIsSortBy(s: seq<Point>)
    ensures SortPoints(s) == SortBy(s, PointKey)
  {
    if s != [] {
      SortPointsIsSortBy(s[1..]);
      InsertPointIsInsert(s[0], SortBy(s[1..], PointKey));
    }
  }

  /** Sorting points yields an ascending rearrangement of the input. */
  lemma SortPointsSpec(s: seq<Point>)
    ensures multiset(SortPoints(s)) == multiset(s)
    ensures SortedBy(SortPoints(s), PointKey)
  {
    SortPointsIsSortBy(s);
    SortByPermutation(s, PointKey);
    SortBySorted(s, PointKey);
  }

  /**
   * Two ascending lists of points holding the same multiset of points are
   * the same list: a sort of points is determined by its input's multiset.
   */
  lemma {:induction false} SortedUnique(a: seq<Point>, b: seq<Point>)
    requires SortedBy(a, PointKey) && SortedBy(b, PointKey)
    requires multiset(a) == multiset(b)
    ensures a == b
  {
    if a != [] {
      assert a[0] in multiset(a);
      assert b != [];
      assert b[0] in multiset(b);
      SortedHeadIsLeast(a, b[0]);
      SortedHeadIsLeast(b, a[0]);
      DropHead(a);
      DropHead(b);
      SortedUnique(a[1..], b[1..]);
    } else {
      assert |multiset(b)| == 0;
    }
  }

  /** The head of an ascending list of points is at or below each of its entries. */
  lemma SortedHeadIsLeast(s: seq<Point>, x: Point)
    requires SortedBy(s, PointKey) && x in multiset(s)
    ensures Leq(s[0], x)
  {
    var i :| 0 <= i < |s| && s[i] == x;
    if i > 0 {
      assert PointKey(s[0]) == s[0] && PointKey(s[i]) == x;
    }
  }

  /** A non-empty list is its head followed by its tail, in order and as a multiset. */
  lemma DropHead<T>(s: seq<T>)
    requires s != []
    ensures s == [s[0]] + s[1..]
    ensures multiset(s[1..]) == multiset(s) - multiset{s[0]}
  {
    assert s == [s[0]] + s[1..];
    assert multiset(s) == multiset{s[0]} + multiset(s[1..]);
  }

  /** Sorting points depends only on the multiset of the input points. */
  lemma SortPointsPermutationInvariant(a: seq<Point>, b: seq<Point>)
    requires multiset(a) == multiset(b)
    ensures SortPoints(a) == SortPoints(b)
  {
    SortPointsSpec(a);
    SortPointsSpec(b);
    SortedUnique(SortPoints(a), SortPoints(b));
  }

  /** Any rearrangement of an ascending list of points sorts back into that list. */
  lemma SortPointsOfSorted(points: seq<Point>, ordered: seq<Point>)
    requires SortedBy(ordered, PointKey) && multiset(points) == multiset(ordered)
    ensures SortPoints(points) == ordered
  {
    SortPointsSpec(points);
    SortedUnique(SortPoints(points), ordered);
  }

  /** A list whose entries are pairwise distinct, counted through its multiset. */
  ghost predicate Distinct<T>(s: seq<T>)
  {
    forall x :: x in multiset(s) ==> multiset(s)[x] == 1
  }

  /** An entry that appears at two positions is counted at least twice. */
  lemma {:induction false} RepeatedEntry<T>(s: seq<T>, i: int, j: int)
    requires 0 <= i < j < |s|
    ensures s[i] == s[j] ==> multiset(s)[s[i]] >= 2
  {
    assert s == s[..j] + s[j..];
    assert s[i] == s[..j][i];
    assert s[j] == s[j..][0];
    assert multiset(s) == multiset(s[..j]) + multiset(s[j..]);
  }

  /**
   * Sorting a list of distinct points gives a strictly ascending list: this
   * is `sorted(points)` for a set `points`.
   */
  lemma SortDistinct(s: seq<Point>)
    requires Distinct(s)
    ensures StrictlySorted(SortPoints(s))
  {
    var r := SortPoints(s);
    SortPointsSpec(s);
    forall i, j | 0 <= i < j < |r| ensures Leq(r[i], r[j]) && r[i] != r[j] {
      RepeatedEntry(r, i, j);
      assert r[i] in multiset(s);
    }
  }

  /** The set of the points listed in `ps`. */
  function ToSet(ps: seq<Point>): (s: set<Point>)
    ensures forall i :: 0 <= i < |ps| ==> ps[i] in s
    ensures forall p :: p in s ==> p in ps
  {
    set p | p in ps
  }

  // ---- least and greatest points of a finite set --------------------------

  lemma {:induction false} LeastExists(s: set<Point>)
    requires s != {}
    ensures exists m :: m in s && forall q :: q in s ==> Leq(m, q)
    decreases |s|
  {
    var x :| x in s;
    if s - {x} != {} {
      LeastExists(s - {x});
      var m :| m in s - {x} && forall q :: q in s - {x} ==> Leq(m, q);
      if Leq(x, m) {
        forall q | q in s ensures Leq(x, q) { if q != x { assert q in s - {x}; } }
      } else {
        forall q | q in s ensures Leq(m, q) { if q != x { assert q in s - {x}; } }
      }
    } else {
      assert s == {x};
    }
  }

  lemma {:induction false} GreatestExists(s: set<Point>)
    requires s != {}
    ensures exists m :: m in s && forall q :: q in s ==> Leq(q, m)
    decreases |s|
  {
    var x :| x in s;
    if s - {x} != {} {
      GreatestExists(s - {x});
      var m :| m in s - {x} && forall q :: q in s - {x} ==> Leq(q, m);
      if Leq(m, x) {
        forall q | q in s ensures Leq(q, x) { if q != x { assert q in s - {x}; } }
      } else {
        forall q | q in s ensures Leq(q, m) { if q != x { assert q in s - {x}; } }
      }
    } else {
      assert s == {x};
    }
  }

  /** `s` holds at least two distinct points. */
  ghost predicate HasTwo(s: set<Point>)
  {
    exists a, b :: a in s && b in s && a != b
  }

  /** The smallest point of `s` in the (x, y) order. */
  ghost function Least(s: set<Point>): (m: Point)
    requires s != {}
    ensures m in s && forall q :: q in s ==> Leq(m, q)
  {
    LeastExists(s);
    var m :| m in s && forall q :: q in s ==> Leq(m, q);
    m
  }

  /** The largest point of `s` in the (x, y) order. */
  ghost function Greatest(s: set<Point>): (m: Point)
    requires s != {}
    ensures m in s && forall q :: q in s ==> Leq(q, m)
  {
    GreatestExists(s);
    var m :| m in s && forall q :: q in s ==> Leq(q, m);
    m
  }

  /** With two distinct points, removing the least or the greatest leaves some. */
  lemma SecondExists(s: set<Point>)
    requires HasTwo(s)
    ensures s != {} && s - {Least(s)} != {} && s - {Greatest(s)} != {}
  {
    var a, b :| a in s && b in s && a != b;
    assert (if a != Least(s) then a else b) in s - {Least(s)};
    assert (if a != Greatest(s) then a else b) in s - {Greatest(s)};
  }

  /** A list with two distinct entries has at least two entries. */
  lemma HasTwoListed(ps: seq<Point>)
    requires HasTwo(ToSet(ps))
    ensures |ps| >= 2
  {
    var a, b :| a in ToSet(ps) && b in ToSet(ps) && a != b;
    var i :| 0 <= i < |ps| && ps[i] == a;
    var j :| 0 <= j < |ps| && ps[j] == b;
  }

  /**
   * In a strictly ascending list, the first two entries are the least and the
   * second least point of its elements, and the last two the greatest and the
   * second greatest.
   */
  lemma StrictlySortedExtremes(ps: seq<Point>)
    requires StrictlySorted(ps) && |ps| >= 2
    ensures ps[0] in ToSet(ps) && ps[0] == Least(ToSet(ps))
    ensures ps[|ps| - 1] in ToSet(ps) && ps[|ps| - 1] == Greatest(ToSet(ps))
    ensures ps[1] in ToSet(ps) - {ps[0]} && ps[1] == Least(ToSet(ps) - {ps[0]})
    ensures ps[|ps| - 2] in ToSet(ps) - {ps[|ps| - 1]}
            && ps[|ps| - 2] == Greatest(ToSet(ps) - {ps[|ps| - 1]})
  {
    StrictlySortedLow(ps);
    StrictlySortedHigh(ps);
  }

  /** The first two entries of a strictly ascending list are its least and second least points. */
  lemma StrictlySortedLow(ps: seq<Point>)
    requires StrictlySorted(ps) && |ps| >= 2
    ensures ps[0] in ToSet(ps) && ps[0] == Least(ToSet(ps))
    ensures ps[1] in ToSet(ps) - {ps[0]} && ps[1] == Least(ToSet(ps) - {ps[0]})
  {
    var s := ToSet(ps);
    assert Leq(ps[0], ps[1]) && ps[0] != ps[1];
    var a := Least(s);
    var i :| 0 <= i < |ps| && ps[i] == a;
    assert Leq(a, ps[0]);
    assert Leq(ps[0], ps[i]);
    assert ps[1] in s - {ps[0]};
    var b := Least(s - {ps[0]});
    var j :| 0 <= j < |ps| && ps[j] == b;
    assert j != 0;
    assert Leq(b, ps[1]);
    assert Leq(ps[1], ps[j]);
  }

  /** The last two entries of a strictly ascending list are its greatest and second greatest points. */
  lemma StrictlySortedHigh(ps: seq<Point>)
    requires StrictlySorted(ps) && |ps| >= 2
    ensures ps[|ps| - 1] in ToSet(ps) && ps[|ps| - 1] == Greatest(ToSet(ps))
    ensures ps[|ps| - 2] in ToSet(ps) - {ps[|ps| - 1]}
            && ps[|ps| - 2] == Greatest(ToSet(ps) - {ps[|ps| - 1]})
  {
    var s := ToSet(ps);
    var n := |ps|;
    assert Leq(ps[n - 2], ps[n - 1]) && ps[n - 2] != ps[n - 1];
    var c := Greatest(s);
    var k :| 0 <= k < n && ps[k] == c;
    assert Leq(ps[n - 1], c);
    assert Leq(ps[k], ps[n - 1]);
    assert ps[n - 2] in s - {ps[n - 1]};
    var d := Greatest(s - {ps[n - 1]});
    var l :| 0 <= l < n && ps[l] == d;
    assert l != n - 1;
    assert Leq(ps[n - 2], d);
    assert Leq(ps[l], ps[n - 2]);
  }
}
