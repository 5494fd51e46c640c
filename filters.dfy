/**
 * The threshold filter `applyFilters` (app.py:45-70): three independent
 * choices, on the -log10 p-value, the -log10 adjusted p-value and the
 * confidence class, each applied as a mask on the frame in turn.
 */
module Filtering {
  import opened Tables

  /** The raw p-value widget: 'no filter', '< 0.05', '< 0.01'. */
  datatype PValueOption = PNoFilter | PBelow005 | PBelow001

  /** The adjusted p-value widget: 'no filter', '< 0.05', '< 0.1', '< 0.25'. */
  datatype AdjPOption = AdjNoFilter | AdjBelow005 | AdjBelow01 | AdjBelow025

  /** The confidence-class widget: 'no filter', 'Low', 'Low (hits)', 'Medium (hits)', 'High (hits)'. */
  datatype ClassOption = ClassNoFilter | Low | LowHits | MediumHits | HighHits

  function PValueLabel(o: PValueOption): string {
    match o
    case PNoFilter => "no filter"
    case PBelow005 => "< 0.05"
    case PBelow001 => "< 0.01"
  }

  function AdjPLabel(o: AdjPOption): string {
    match o
    case AdjNoFilter => "no filter"
    case AdjBelow005 => "< 0.05"
    case AdjBelow01 => "< 0.1"
    case AdjBelow025 => "< 0.25"
  }

  function ClassLabel(o: ClassOption): string {
    match o
    case ClassNoFilter => "no filter"
    case Low => "Low"
    case LowHits => "Low (hits)"
    case MediumHits => "Medium (hits)"
    case HighHits => "High (hits)"
  }

  /**
   * How `applyFilters` reads a raw p-value label: any label other than
   * 'no filter' and '< 0.05' falls through to the strictest test.
   */
  function PValueOf(text: string): (o: PValueOption)
    ensures text == PValueLabel(o) || o == PBelow001
  {
    if text == "no filter" then PNoFilter
    else if text == "< 0.05" then PBelow005
    else PBelow001
  }

  /** Any adjusted label other than 'no filter', '< 0.05' and '< 0.1' falls through to '< 0.25'. */
  function AdjPOf(text: string): (o: AdjPOption)
    ensures text == AdjPLabel(o) || o == AdjBelow025
  {
    if text == "no filter" then AdjNoFilter
    else if text == "< 0.05" then AdjBelow005
    else if text == "< 0.1" then AdjBelow01
    else AdjBelow025
  }

  /** Any class label other than 'no filter', 'Low', 'Medium (hits)' and 'Low (hits)' falls through to 'High (hits)'. */
  function ClassOf(text: string): (o: ClassOption)
    ensures text == ClassLabel(o) || o == HighHits
  {
    if text == "no filter" then ClassNoFilter
    else if text == "Low" then Low
    else if text == "Medium (hits)" then MediumHits
    else if text == "Low (hits)" then LowHits
    else HighHits
  }

  /** Every option's label reads back as that option. */
  lemma LabelsRoundTrip(p: PValueOption, adj: AdjPOption, cls: ClassOption)
    ensures PValueOf(PValueLabel(p)) == p
    ensures AdjPOf(AdjPLabel(adj)) == adj
    ensures ClassOf(ClassLabel(cls)) == cls
  {
  }

  // The row tests used as masks, one per branch of applyFilters.

  function Ml10pAbove(bound: real): Row -> bool {
    (x: Row) => x.ml10p > bound
  }

  function Ml10adjPAbove(bound: real): Row -> bool {
    (x: Row) => x.ml10adjP > bound
  }

  function ClassAtLeast(k: int): Row -> bool {
    (x: Row) => x.mdfClass >= k
  }

  function ClassIs(k: int): Row -> bool {
    (x: Row) => x.mdfClass == k
  }

  /** The raw p-value step (app.py:46-50). */
  function FilterP(df: seq<Row>, p: PValueOption): seq<Row> {
    if p != PNoFilter then
      if p == PBelow005 then Mask(df, Ml10pAbove(1.30103)) else Mask(df, Ml10pAbove(2.0))
    else df
  }

  /** The adjusted p-value step (app.py:52-58). */
  function FilterAdjP(df: seq<Row>, adj: AdjPOption): seq<Row> {
    if adj != AdjNoFilter then
      if adj == AdjBelow005 then Mask(df, Ml10adjPAbove(1.30103))
      else if adj == AdjBelow01 then Mask(df, Ml10adjPAbove(1.0))
      else Mask(df, Ml10adjPAbove(0.60206))
    else df
  }

  /** The confidence-class step (app.py:60-68). */
  function FilterClass(df: seq<Row>, cls: ClassOption): seq<Row> {
    if cls != ClassNoFilter then
      if cls == Low then Mask(df, ClassAtLeast(1))
      else if cls == MediumHits then Mask(df, ClassAtLeast(2))
      else if cls == LowHits then Mask(df, ClassAtLeast(1))
      else Mask(df, ClassIs(3))
    else df
  }

  /**
   * `applyFilters(df, pFil, pAdjFil, hitFil)`: the three steps in the source's
   * order. The result is an order-preserving subsequence of the input that
   * keeps a row (every occurrence of it) exactly when it passes every
   * selected test of the row-level reference below.
   */
  function ApplyFilters(df: seq<Row>, p: PValueOption, adj: AdjPOption, cls: ClassOption): (r: seq<Row>)
    ensures IsSubseq(r, df)
    ensures forall x :: multiset(r)[x] == if Passes(x, p, adj, cls) then multiset(df)[x] else 0
    ensures forall x :: x in r <==> x in df && Passes(x, p, adj, cls)
  {
    var kept := FilterClass(FilterAdjP(FilterP(df, p), adj), cls);
    ApplyFiltersIsOneMask(df, p, adj, cls);
    MaskMeaning(df, Test(p, adj, cls));
    assert kept == Mask(df, Test(p, adj, cls));
    assert forall x :: Test(p, adj, cls)(x) == Passes(x, p, adj, cls);
    kept
  }

  // The row-level reference: what each option demands of a single row.

  predicate PassesP(x: Row, p: PValueOption) {
    match p
    case PNoFilter => true
    case PBelow005 => x.ml10p > 1.30103
    case PBelow001 => x.ml10p > 2.0
  }

  predicate PassesAdjP(x: Row, adj: AdjPOption) {
    match adj
    case AdjNoFilter => true
    case AdjBelow005 => x.ml10adjP > 1.30103
    case AdjBelow01 => x.ml10adjP > 1.0
    case AdjBelow025 => x.ml10adjP > 0.60206
  }

  predicate PassesClass(x: Row, cls: ClassOption) {
    match cls
    case ClassNoFilter => true
    case Low => x.mdfClass >= 1
    case LowHits => x.mdfClass >= 1
    case MediumHits => x.mdfClass >= 2
    case HighHits => x.mdfClass == 3
  }

  predicate Passes(x: Row, p: PValueOption, adj: AdjPOption, cls: ClassOption) {
    PassesP(x, p) && PassesAdjP(x, adj) && PassesClass(x, cls)
  }

  function PTest(p: PValueOption): Row -> bool {
    (x: Row) => PassesP(x, p)
  }

  function PAdjTest(p: PValueOption, adj: AdjPOption): Row -> bool {
    (x: Row) => PassesP(x, p) && PassesAdjP(x, adj)
  }

  function Test(p: PValueOption, adj: AdjPOption, cls: ClassOption): Row -> bool {
    (x: Row) => Passes(x, p, adj, cls)
  }

  /** The three successive masks of applyFilters are one mask by the conjunction of the row tests. */
  lemma ApplyFiltersIsOneMask(df: seq<Row>, p: PValueOption, adj: AdjPOption, cls: ClassOption)
    ensures FilterClass(FilterAdjP(FilterP(df, p), adj), cls) == Mask(df, Test(p, adj, cls))
  {
    var afterP := FilterP(df, p);
    var afterAdj := FilterAdjP(afterP, adj);
    var always := (x: Row) => true;
    assert afterP == Mask(df, PTest(p)) by {
      match p
      case PNoFilter => MaskKeepsAll(df, PTest(p));
      case PBelow005 => MaskTwice(df, always, Ml10pAbove(1.30103), PTest(p)); MaskKeepsAll(df, always);
      case PBelow001 => MaskTwice(df, always, Ml10pAbove(2.0), PTest(p)); MaskKeepsAll(df, always);
    }
    assert afterAdj == Mask(df, PAdjTest(p, adj)) by {
      match adj
      case AdjNoFilter => MaskTwice(df, PTest(p), always, PAdjTest(p, adj)); MaskKeepsAll(afterP, always);
      case AdjBelow005 => MaskTwice(df, PTest(p), Ml10adjPAbove(1.30103), PAdjTest(p, adj));
      case AdjBelow01 => MaskTwice(df, PTest(p), Ml10adjPAbove(1.0), PAdjTest(p, adj));
      case AdjBelow025 => MaskTwice(df, PTest(p), Ml10adjPAbove(0.60206), PAdjTest(p, adj));
    }
    match cls
    case ClassNoFilter => MaskTwice(df, PAdjTest(p, adj), always, Test(p, adj, cls)); MaskKeepsAll(afterAdj, always);
    case Low => MaskTwice(df, PAdjTest(p, adj), ClassAtLeast(1), Test(p, adj, cls));
    case LowHits => MaskTwice(df, PAdjTest(p, adj), ClassAtLeast(1), Test(p, adj, cls));
    case MediumHits => MaskTwice(df, PAdjTest(p, adj), ClassAtLeast(2), Test(p, adj, cls));
    case HighHits => MaskTwice(df, PAdjTest(p, adj), ClassIs(3), Test(p, adj, cls));
  }

  /** With every choice set to 'no filter' the frame comes back unchanged. */
  lemma ApplyFiltersNoFilter(df: seq<Row>)
    ensures ApplyFilters(df, PNoFilter, AdjNoFilter, ClassNoFilter) == df
  {
  }

  // Strictness of the options: a stricter option demands at least as much of every row.

  function PLevel(p: PValueOption): nat {
    match p
    case PNoFilter => 0
    case PBelow005 => 1
    case PBelow001 => 2
  }

  function AdjPLevel(adj: AdjPOption): nat {
    match adj
    case AdjNoFilter => 0
    case AdjBelow025 => 1
    case AdjBelow01 => 2
    case AdjBelow005 => 3
  }

  function ClassLevel(cls: ClassOption): nat {
    match cls
    case ClassNoFilter => 0
    case Low => 1
    case LowHits => 1
    case MediumHits => 2
    case HighHits => 3
  }

  /** A row that passes a stricter choice in every dimension passes the looser one. */
  lemma PassesMonotone(x: Row, p1: PValueOption, adj1: AdjPOption, cls1: ClassOption,
                                p2: PValueOption, adj2: AdjPOption, cls2: ClassOption)
    requires PLevel(p1) >= PLevel(p2) && AdjPLevel(adj1) >= AdjPLevel(adj2) && ClassLevel(cls1) >= ClassLevel(cls2)
    ensures Passes(x, p1, adj1, cls1) ==> Passes(x, p2, adj2, cls2)
  {
  }

  /**
   * A stricter choice in every dimension yields a sub-result of a looser one:
   * '< 0.01' within '< 0.05', '< 0.05' within '< 0.1' within '< 0.25', and
   * High within Medium within Low.
   */
  lemma ApplyFiltersMonotone(df: seq<Row>, p1: PValueOption, adj1: AdjPOption, cls1: ClassOption,
                                           p2: PValueOption, adj2: AdjPOption, cls2: ClassOption)
    requires PLevel(p1) >= PLevel(p2) && AdjPLevel(adj1) >= AdjPLevel(adj2) && ClassLevel(cls1) >= ClassLevel(cls2)
    ensures IsSubseq(ApplyFilters(df, p1, adj1, cls1), ApplyFilters(df, p2, adj2, cls2))
  {
    ApplyFiltersIsOneMask(df, p1, adj1, cls1);
    ApplyFiltersIsOneMask(df, p2, adj2, cls2);
    forall x ensures Test(p1, adj1, cls1)(x) ==> Test(p2, adj2, cls2)(x) {
      PassesMonotone(x, p1, adj1, cls1, p2, adj2, cls2);
    }
    MaskMonotone(df, Test(p1, adj1, cls1), Test(p2, adj2, cls2));
  }

  /** The fixed reference filter '< 0.05', '< 0.25', 'Medium (hits)' on a row with 1.5, 0.7 and class 2. */
  lemma ReferenceScenario()
    ensures Passes(Row("P", "G", "C027", 2.5, 2.5, 1, 1, 1.5, 0.7, 2, "", 0), PBelow005, AdjBelow025, MediumHits)
  {
  }
}
