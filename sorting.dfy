/**
 * The `sort_values` calls of the viewer: five fixed keys, each a
 * lexicographic order on one or two columns. A sort returns a permutation of
 * its input ordered by the key.
 */
module Sorting {
  import opened Tables

  /** The sort keys the viewer uses. */
  datatype Order =
    | ProtHitsUpL2fcDown  // by=['protHits', 'l2fc'], ascending=[True, False]
    | LigHitsUpL2fcDown   // by=['ligHits', 'l2fc'], ascending=[True, False]
    | LigHitsUpL2fcUp     // by=['ligHits', 'l2fc'], ascending=[True, True]
    | HitRankUp           // by='hitRank', ascending=True
    | L2fcUp              // by='l2fc', ascending=True

  /** `a` may come before `b` in a frame sorted by `o`. */
  predicate InOrder(o: Order, a: Row, b: Row) {
    match o
    case ProtHitsUpL2fcDown => a.protHits < b.protHits || (a.protHits == b.protHits && a.l2fc >= b.l2fc)
    case LigHitsUpL2fcDown => a.ligHits < b.ligHits || (a.ligHits == b.ligHits && a.l2fc >= b.l2fc)
    case LigHitsUpL2fcUp => a.ligHits < b.ligHits || (a.ligHits == b.ligHits && a.l2fc <= b.l2fc)
    case HitRankUp => a.hitRank <= b.hitRank
    case L2fcUp => a.l2fc <= b.l2fc
  }

  predicate Sorted(o: Order, s: seq<Row>) {
    forall i, j :: 0 <= i < j < |s| ==> InOrder(o, s[i], s[j])
  }

  lemma InOrderTotal(o: Order, a: Row, b: Row)
    ensures InOrder(o, a, b) || InOrder(o, b, a)
  {
  }

  lemma InOrderTransitive(o: Order, a: Row, b: Row, c: Row)
    requires InOrder(o, a, b) && InOrder(o, b, c)
    ensures InOrder(o, a, c)
  {
  }

  /** Prepending a row that may precede every row of a sorted frame keeps it sorted. */
  lemma PrependSorted(o: Order, x: Row, s: seq<Row>)
    requires Sorted(o, s)
    requires forall k :: 0 <= k < |s| ==> InOrder(o, x, s[k])
    ensures Sorted(o, [x] + s)
  {
    var r := [x] + s;
    forall i, j | 0 <= i < j < |r| ensures InOrder(o, r[i], r[j]) {
      if i > 0 {
        assert r[i] == s[i - 1] && r[j] == s[j - 1];
      }
    }
  }

  /** Inserting a row into a sorted frame, before the first row it may precede. */
  function Insert(o: Order, x: Row, s: seq<Row>): (r: seq<Row>)
    requires Sorted(o, s)
    ensures Sorted(o, r)
    ensures multiset(r) == multiset(s) + multiset{x}
  {
    if s == [] then [x]
    else if InOrder(o, x, s[0]) then
      assert forall k :: 0 <= k < |s| ==> InOrder(o, x, s[k]) by {
        forall k | 0 <= k < |s| ensures InOrder(o, x, s[k]) {
          if k > 0 { InOrderTransitive(o, x, s[0], s[k]); }
        }
      }
      PrependSorted(o, x, s);
      [x] + s
    else
      var rest := Insert(o, x, s[1..]);
      assert s == [s[0]] + s[1..];
      assert forall k :: 0 <= k < |rest| ==> InOrder(o, s[0], rest[k]) by {
        forall k | 0 <= k < |rest| ensures InOrder(o, s[0], rest[k]) {
          assert rest[k] in multiset(rest);
          if rest[k] == x {
            InOrderTotal(o, x, s[0]);
          } else {
            assert rest[k] in multiset(s[1..]);
            var j :| 0 <= j < |s[1..]| && s[1..][j] == rest[k];
            assert s[j + 1] == rest[k];
          }
        }
      }
      PrependSorted(o, s[0], rest);
      [s[0]] + rest
  }

  /** `df.sort_values(...)` by the key `o`; rows with equal keys keep their input order. */
  function SortBy(o: Order, s: seq<Row>): (r: seq<Row>)
    ensures Sorted(o, r)
    ensures multiset(r) == multiset(s)
    ensures |r| == |s|
  {
    if s == [] then []
    else
      assert s == [s[0]] + s[1..];
      Insert(o, s[0], SortBy(o, s[1..]))
  }

  /** Sorting a frame that is already sorted by the same key leaves it as it is. */
  lemma {:induction false} SortSortedIsIdentity(o: Order, s: seq<Row>)
    requires Sorted(o, s)
    ensures SortBy(o, s) == s
  {
    if s != [] {
      assert Sorted(o, s[1..]) by {
        forall i, j | 0 <= i < j < |s[1..]| ensures InOrder(o, s[1..][i], s[1..][j]) {
          assert s[1..][i] == s[i + 1] && s[1..][j] == s[j + 1];
        }
      }
      SortSortedIsIdentity(o, s[1..]);
      assert s == [s[0]] + s[1..];
    }
  }

  /** Sorting twice by the same key is sorting once. */
  lemma SortIdempotent(o: Order, s: seq<Row>)
    ensures SortBy(o, SortBy(o, s)) == SortBy(o, s)
  {
    SortSortedIsIdentity(o, SortBy(o, s));
  }

  /** The first row of a sorted frame may precede every row of it. */
  lemma SortedHeadIsBest(o: Order, s: seq<Row>, y: Row)
    requires Sorted(o, s) && s != [] && y in s
    ensures InOrder(o, s[0], y)
  {
    var j :| 0 <= j < |s| && s[j] == y;
    if j > 0 { assert InOrder(o, s[0], s[j]); }
  }

  /** The first row of a sorted frame is a row of the input that may precede every row of it. */
  lemma SortHeadIsBest(o: Order, s: seq<Row>)
    requires s != []
    ensures SortBy(o, s) != [] && SortBy(o, s)[0] in s
    ensures forall y :: y in s ==> InOrder(o, SortBy(o, s)[0], y)
  {
    var r := SortBy(o, s);
    assert r[0] in multiset(s);
    forall y | y in s ensures InOrder(o, r[0], y) {
      assert y in multiset(r);
      SortedHeadIsBest(o, r, y);
    }
  }

  /** `a` and `b` agree on every column of the key `o`: a tie. */
  predicate SameKey(o: Order, a: Row, b: Row) {
    InOrder(o, a, b) && InOrder(o, b, a)
  }

  /** The rows tied with `y` under the key `o`. */
  function KeyOf(o: Order, y: Row): Row -> bool {
    (x: Row) => SameKey(o, x, y)
  }

  /** Inserting a row places it before the rows it ties with, leaving their order alone. */
  lemma {:induction false} InsertStable(o: Order, x: Row, s: seq<Row>, y: Row)
    requires Sorted(o, s)
    ensures Mask(Insert(o, x, s), KeyOf(o, y)) == (if SameKey(o, x, y) then [x] else []) + Mask(s, KeyOf(o, y))
  {
    var k := KeyOf(o, y);
    if s == [] {
    } else if InOrder(o, x, s[0]) {
      assert Insert(o, x, s) == [x] + s;
      assert ([x] + s)[1..] == s;
    } else {
      assert Sorted(o, s[1..]) by {
        forall i, j | 0 <= i < j < |s[1..]| ensures InOrder(o, s[1..][i], s[1..][j]) {
          assert s[1..][i] == s[i + 1] && s[1..][j] == s[j + 1];
        }
      }
      InsertStable(o, x, s[1..], y);
      var rest := Insert(o, x, s[1..]);
      assert Insert(o, x, s) == [s[0]] + rest;
      assert ([s[0]] + rest)[1..] == rest;
      assert Mask(s, k) == (if k(s[0]) then [s[0]] else []) + Mask(s[1..], k);
      if k(x) && k(s[0]) {
        InOrderTransitive(o, x, y, s[0]);
        assert false;
      }
    }
  }

  /** The sort is stable: the rows tied with any given row come out in their input order. */
  lemma {:induction false} SortByStable(o: Order, s: seq<Row>, y: Row)
    ensures Mask(SortBy(o, s), KeyOf(o, y)) == Mask(s, KeyOf(o, y))
  {
    if s != [] {
      SortByStable(o, s[1..], y);
      InsertStable(o, s[0], SortBy(o, s[1..]), y);
    }
  }

  /** The first row a mask keeps is the input's first row that passes. */
  lemma {:induction false} MaskHead(s: seq<Row>, keep: Row -> bool)
    requires Mask(s, keep) != []
    ensures exists i :: 0 <= i < |s| && s[i] == Mask(s, keep)[0] && keep(s[i]) &&
                        forall j :: 0 <= j < i ==> !keep(s[j])
  {
    if !keep(s[0]) {
      MaskHead(s[1..], keep);
      var i :| 0 <= i < |s[1..]| && s[1..][i] == Mask(s[1..], keep)[0] && keep(s[1..][i]) &&
               forall j :: 0 <= j < i ==> !keep(s[1..][j]);
      assert s[i + 1] == s[1..][i];
      forall j | 0 <= j < i + 1 ensures !keep(s[j]) {
        if j > 0 { assert s[j] == s[1..][j - 1]; }
      }
    }
  }

  /**
   * The first row after a sort is the input's first row that may precede
   * every row: every row before it in the input sorts strictly after it.
   */
  lemma SortHeadIsFirstBest(o: Order, s: seq<Row>)
    requires s != []
    ensures SortBy(o, s) != []
    ensures exists i :: 0 <= i < |s| && s[i] == SortBy(o, s)[0] &&
                        (forall y :: y in s ==> InOrder(o, s[i], y)) &&
                        (forall j :: 0 <= j < i ==> !InOrder(o, s[j], s[i]))
  {
    var r := SortBy(o, s);
    SortHeadIsBest(o, s);
    var h := r[0];
    var k := KeyOf(o, h);
    SortByStable(o, s, h);
    assert Mask(r, k) == [h] + Mask(r[1..], k) by {
      assert k(h);
    }
    MaskHead(s, k);
    var i :| 0 <= i < |s| && s[i] == Mask(s, k)[0] && k(s[i]) && forall j :: 0 <= j < i ==> !k(s[j]);
    assert s[i] == h;
    forall j | 0 <= j < i ensures !InOrder(o, s[j], s[i]) {
      assert !k(s[j]);
      assert s[j] in s;
    }
  }
}
