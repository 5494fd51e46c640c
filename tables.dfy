/**
 * Rows of the screening tables and the row-selection primitive every view of
 * the viewer is built from: a boolean mask `df[cond]`, which keeps the rows
 * that satisfy a condition in their original order.
 */
module Tables {

  datatype Option<T> = None | Some(value: T)

  /**
   * One interaction record. Rows of the primary (Gen1) screen and rows of the
   * competition (Gen2) screen share this shape; `gen1Lig` (the Gen1 ligand a
   * competition round is anchored to) and `hitRank` are only read for
   * competition rows. The numeric columns are exact reals and integers.
   */
  datatype Row = Row(
    accession: string,
    geneName: string,
    fragId: string,
    l2fc: real,
    l2fcM: real,
    protHits: int,
    ligHits: int,
    ml10p: real,
    ml10adjP: real,
    mdfClass: int,
    gen1Lig: string,
    hitRank: int)

  /** The rows of `s` for which `keep` holds, in their original order. */
  function Mask(s: seq<Row>, keep: Row -> bool): (r: seq<Row>)
    ensures |r| <= |s|
  {
    if s == [] then []
    else (if keep(s[0]) then [s[0]] else []) + Mask(s[1..], keep)
  }

  /** `a` is obtained from `b` by deleting elements, without reordering. */
  predicate IsSubseq(a: seq<Row>, b: seq<Row>)
    decreases |b|
  {
    a == [] || (b != [] && ((a[0] == b[0] && IsSubseq(a[1..], b[1..])) || IsSubseq(a, b[1..])))
  }

  /** A mask keeps every occurrence of a row that passes and none of one that fails. */
  lemma {:induction false} MaskCount(s: seq<Row>, keep: Row -> bool, x: Row)
    ensures multiset(Mask(s, keep))[x] == if keep(x) then multiset(s)[x] else 0
  {
    if s != [] {
      MaskCount(s[1..], keep, x);
      assert s == [s[0]] + s[1..];
    }
  }

  /** A mask is an order-preserving subsequence of its input. */
  lemma {:induction false} MaskIsSubseq(s: seq<Row>, keep: Row -> bool)
    ensures IsSubseq(Mask(s, keep), s)
  {
    if s != [] {
      MaskIsSubseq(s[1..], keep);
      var rest := Mask(s[1..], keep);
      if keep(s[0]) {
        assert Mask(s, keep) == [s[0]] + rest;
        assert ([s[0]] + rest)[1..] == rest;
      } else {
        assert Mask(s, keep) == rest;
      }
    }
  }

  /** The whole meaning of a mask: which rows it keeps, how often, and in what order. */
  lemma MaskMeaning(s: seq<Row>, keep: Row -> bool)
    ensures IsSubseq(Mask(s, keep), s)
    ensures forall x :: multiset(Mask(s, keep))[x] == if keep(x) then multiset(s)[x] else 0
    ensures forall x :: x in Mask(s, keep) <==> x in s && keep(x)
  {
    MaskIsSubseq(s, keep);
    forall x ensures multiset(Mask(s, keep))[x] == if keep(x) then multiset(s)[x] else 0 {
      MaskCount(s, keep, x);
    }
  }

  /** A mask that every row passes leaves the frame as it is. */
  lemma {:induction false} MaskKeepsAll(s: seq<Row>, keep: Row -> bool)
    requires forall x :: x in s ==> keep(x)
    ensures Mask(s, keep) == s
  {
    if s != [] {
      MaskKeepsAll(s[1..], keep);
    }
  }

  /** Masking twice is masking once by the conjunction of the two conditions. */
  lemma {:induction false} MaskTwice(s: seq<Row>, first: Row -> bool, second: Row -> bool, both: Row -> bool)
    requires forall x :: both(x) == (first(x) && second(x))
    ensures Mask(Mask(s, first), second) == Mask(s, both)
  {
    if s != [] {
      MaskTwice(s[1..], first, second, both);
      var rest := Mask(s[1..], first);
      if first(s[0]) {
        assert Mask(s, first) == [s[0]] + rest;
        assert ([s[0]] + rest)[1..] == rest;
      } else {
        assert Mask(s, first) == rest;
      }
    }
  }

  /** A stricter condition keeps a subsequence of what a looser one keeps. */
  lemma {:induction false} MaskMonotone(s: seq<Row>, strict: Row -> bool, loose: Row -> bool)
    requires forall x :: strict(x) ==> loose(x)
    ensures IsSubseq(Mask(s, strict), Mask(s, loose))
  {
    if s != [] {
      MaskMonotone(s[1..], strict, loose);
      var a, b := Mask(s[1..], strict), Mask(s[1..], loose);
      if strict(s[0]) {
        assert Mask(s, strict) == [s[0]] + a;
        assert Mask(s, loose) == [s[0]] + b;
        assert ([s[0]] + a)[1..] == a;
        assert ([s[0]] + b)[1..] == b;
      } else if loose(s[0]) {
        assert Mask(s, strict) == a;
        assert Mask(s, loose) == [s[0]] + b;
        assert ([s[0]] + b)[1..] == b;
      } else {
        assert Mask(s, strict) == a;
        assert Mask(s, loose) == b;
      }
    }
  }

  /** Masks by a condition and by its negation split a frame into two parts. */
  lemma {:induction false} MaskPartition(s: seq<Row>, keep: Row -> bool, drop: Row -> bool)
    requires forall x :: drop(x) == !keep(x)
    ensures multiset(Mask(s, keep)) + multiset(Mask(s, drop)) == multiset(s)
  {
    if s != [] {
      MaskPartition(s[1..], keep, drop);
      var kept, dropped := Mask(s[1..], keep), Mask(s[1..], drop);
      assert s == [s[0]] + s[1..];
      assert multiset(s) == multiset{s[0]} + multiset(s[1..]);
      if keep(s[0]) {
        assert Mask(s, keep) == [s[0]] + kept;
        assert Mask(s, drop) == dropped;
      } else {
        assert Mask(s, keep) == kept;
        assert Mask(s, drop) == [s[0]] + dropped;
      }
    }
  }

  /** `df[df["accession"] == accession]` */
  function AccessionIs(accession: string): Row -> bool {
    (x: Row) => x.accession == accession
  }

  /** `df[df["fragId"] == fragId]` */
  function FragIdIs(fragId: string): Row -> bool {
    (x: Row) => x.fragId == fragId
  }

  /** `df[df["gen1Lig"] == fragId]` */
  function Gen1LigIs(fragId: string): Row -> bool {
    (x: Row) => x.gen1Lig == fragId
  }

  /** The rows of one protein, in table order. */
  function WithAccession(s: seq<Row>, accession: string): (r: seq<Row>)
    ensures IsSubseq(r, s)
    ensures forall x :: multiset(r)[x] == if x.accession == accession then multiset(s)[x] else 0
    ensures forall x :: x in r <==> x in s && x.accession == accession
  {
    MaskMeaning(s, AccessionIs(accession));
    Mask(s, AccessionIs(accession))
  }

  /** The rows of one ligand, in table order. */
  function WithFragId(s: seq<Row>, fragId: string): (r: seq<Row>)
    ensures IsSubseq(r, s)
    ensures forall x :: multiset(r)[x] == if x.fragId == fragId then multiset(s)[x] else 0
    ensures forall x :: x in r <==> x in s && x.fragId == fragId
  {
    MaskMeaning(s, FragIdIs(fragId));
    Mask(s, FragIdIs(fragId))
  }

  /** The competition rows anchored to one Gen1 ligand, in table order. */
  function WithGen1Lig(s: seq<Row>, fragId: string): (r: seq<Row>)
    ensures IsSubseq(r, s)
    ensures forall x :: multiset(r)[x] == if x.gen1Lig == fragId then multiset(s)[x] else 0
    ensures forall x :: x in r <==> x in s && x.gen1Lig == fragId
  {
    MaskMeaning(s, Gen1LigIs(fragId));
    Mask(s, Gen1LigIs(fragId))
  }

  /** The `fragId` column of a frame, as a list: one entry per row, naming exactly the frame's ligands. */
  function FragIdColumn(s: seq<Row>): (ids: seq<string>)
    ensures |ids| == |s|
    ensures forall id :: id in ids <==> exists x :: x in s && x.fragId == id
    decreases |s|
  {
    if s == [] then []
    else
      var rest := FragIdColumn(s[1..]);
      assert forall x :: x in s <==> x == s[0] || x in s[1..];
      [s[0].fragId] + rest
  }

  /** The i-th entry of the column is the i-th row's ligand. */
  lemma {:induction false} FragIdColumnAt(s: seq<Row>, i: nat)
    requires i < |s|
    ensures FragIdColumn(s)[i] == s[i].fragId
  {
    if i > 0 {
      FragIdColumnAt(s[1..], i - 1);
    }
  }

  /** `np.unique(df['fragId'])`, as a set. */
  function DistinctFragIds(s: seq<Row>): set<string> {
    set x | x in s :: x.fragId
  }

  /** There are never more distinct ligands than rows, and at least one when there are rows. */
  lemma {:induction false} DistinctFragIdsBounds(s: seq<Row>)
    ensures |DistinctFragIds(s)| <= |s|
    ensures s != [] ==> |DistinctFragIds(s)| >= 1
  {
    if s != [] {
      DistinctFragIdsBounds(s[1..]);
      var rest := DistinctFragIds(s[1..]);
      assert DistinctFragIds(s) == {s[0].fragId} + rest by {
        assert s == [s[0]] + s[1..];
      }
      assert |{s[0].fragId} + rest| <= 1 + |rest|;
      assert s[0].fragId in DistinctFragIds(s);
    }
  }
}
