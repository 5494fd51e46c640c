/**
 * The drill-down the viewer runs top to bottom for one protein selection
 * (app.py:112-338): the protein-centric view, the ligand-centric view of the
 * ligand picked from it, and, for a Gen2-eligible ligand, the competition
 * split and the profile of the Gen2 ligand picked from that split. Tables and
 * widget choices are parameters; each stage rebinds its frames step by step
 * as the script does.
 */
module Viewer {
  import opened Tables
  import opened Filtering
  import opened Sorting
  import opened Ranking
  import opened Flags

  /** The three filter widgets of one view. */
  datatype Choice = Choice(p: PValueOption, adj: AdjPOption, cls: ClassOption)

  /**
   * A selectbox over `options`: nothing when the list is empty; otherwise the
   * option at the picked position, or the first one (the widget's default)
   * when the pick is out of range.
   */
  function Pick(options: seq<string>, pick: nat): (r: Option<string>)
    ensures r.None? <==> options == []
    ensures r.Some? ==> r.value in options
    ensures pick < |options| ==> r == Some(options[pick])
  {
    if options == [] then None
    else if pick < |options| then Some(options[pick])
    else Some(options[0])
  }

  /** The fixed reference filter of the Gen1 views: '< 0.05', '< 0.25', 'Medium (hits)'. */
  function Gen1Reference(df: seq<Row>): seq<Row> {
    ApplyFilters(df, PBelow005, AdjBelow025, MediumHits)
  }

  /** The fixed reference filter of the Gen2 profile: '< 0.05', '< 0.25', 'Low'. */
  function Gen2Reference(df: seq<Row>): seq<Row> {
    ApplyFilters(df, PBelow005, AdjBelow025, Low)
  }

  /** The user's choice applied to a slice. */
  function Chosen(df: seq<Row>, c: Choice): seq<Row> {
    ApplyFilters(df, c.p, c.adj, c.cls)
  }

  /**
   * The displayed view (app.py:158-167, app.py:196-202, app.py:331-338): the
   * user's filters when the fixed reference result was non-empty, no filter
   * when it was empty, then sorted by the view's key.
   */
  method ShownView(slice: seq<Row>, referenceEmpty: bool, user: Choice, o: Order) returns (view: seq<Row>)
    ensures view == SortBy(o, if referenceEmpty then slice else Chosen(slice, user))
    ensures Sorted(o, view)
    ensures multiset(view) == multiset(if referenceEmpty then slice else Chosen(slice, user))
    ensures forall x :: x in view ==> x in slice
  {
    var df: seq<Row>;
    if referenceEmpty {
      ApplyFiltersNoFilter(slice);
      df := ApplyFilters(slice, PNoFilter, AdjNoFilter, ClassNoFilter);
    } else {
      df := ApplyFilters(slice, user.p, user.adj, user.cls);
    }
    view := SortBy(o, df);
    forall x | x in view ensures x in slice {
      assert x in multiset(df);
    }
  }

  /** What the protein-centric part computes (app.py:112-167). */
  datatype ProteinView = ProteinView(
    geneName: string,
    numInt: nat,
    numLigaHits: nat,
    bestFrag: string,
    promiscuous: bool,
    filtersCleared: bool,
    rows: seq<Row>)

  /**
   * What the protein-centric part shows for protein `pid`: the gene name of
   * the slice's first row, the slice length, the reference hit count, a best
   * ligand that sorts first among the reference hits ("No" if there is none),
   * the promiscuity flag, and the displayed view, sorted by (protHits
   * ascending, l2fc descending), of the user-filtered slice or, when the
   * reference result is empty, of the whole slice.
   */
  predicate IsProteinView(screen: seq<Row>, pid: string, user: Choice, v: ProteinView) {
    var slice := WithAccession(screen, pid);
    var reference := Gen1Reference(slice);
    slice != [] &&
    v.geneName == slice[0].geneName &&
    v.numInt == |slice| &&
    v.numLigaHits == |reference| &&
    v.promiscuous == ProteinPromiscuous(v.numLigaHits) &&
    (if reference == [] then v.bestFrag == "No"
     else v.bestFrag == SortBy(ProtHitsUpL2fcDown, reference)[0].fragId &&
          exists x :: x in reference && x.fragId == v.bestFrag &&
                      forall y :: y in reference ==> InOrder(ProtHitsUpL2fcDown, x, y)) &&
    v.filtersCleared == (reference == []) &&
    v.rows == SortBy(ProtHitsUpL2fcDown, if v.filtersCleared then slice else Chosen(slice, user)) &&
    Sorted(ProtHitsUpL2fcDown, v.rows) &&
    multiset(v.rows) == multiset(if v.filtersCleared then slice else Chosen(slice, user)) &&
    forall x :: x in v.rows ==> x in screen && x.accession == pid
  }

  /**
   * The protein-centric stage. None when the protein has no row in the screen
   * (the script stops there). Otherwise: the reference hits of the protein,
   * its best ligand, the promiscuity flag, and the displayed view — the user's
   * filters when the reference result is non-empty, no filter otherwise —
   * sorted by (protHits ascending, l2fc descending).
   */
  method ProteinStage(screen: seq<Row>, pid: string, user: Choice) returns (v: Option<ProteinView>)
    ensures v.None? <==> forall x :: x in screen ==> x.accession != pid
    ensures v.Some? ==> IsProteinView(screen, pid, user, v.value)
  {
    var intDf := WithAccession(screen, pid);
    if |intDf| == 0 {
      return None;
    }
    var selectedGeneName := intDf[0].geneName;
    var tempDf := ApplyFilters(intDf, PBelow005, AdjBelow025, MediumHits);
    var bestFrag: string;
    var numLigaHits: nat;
    if |tempDf| > 0 {
      SortHeadIsBest(ProtHitsUpL2fcDown, tempDf);
      tempDf := SortBy(ProtHitsUpL2fcDown, tempDf);
      bestFrag := tempDf[0].fragId;
      numLigaHits := |tempDf|;
    } else {
      bestFrag := "No";
      numLigaHits := 0;
    }
    var numInt := |intDf|;
    var promiscuous := ProteinPromiscuous(numLigaHits);
    var cleared := |tempDf| == 0;
    intDf := ShownView(intDf, cleared, user, ProtHitsUpL2fcDown);
    v := Some(ProteinView(selectedGeneName, numInt, numLigaHits, bestFrag, promiscuous, cleared, intDf));
  }

  /** What the ligand-centric part computes (app.py:183-229). */
  datatype LigandView = LigandView(
    fragId: string,
    numProtDetected: nat,
    hits: VarText,
    promiscuous: bool,
    filtersCleared: bool,
    rows: seq<Row>,
    topFive: bool,
    calloutAsWritten: bool)

  /**
   * What the ligand-centric part shows for ligand `fragId`, from the whole
   * unfiltered screen table: its row count, the summary of its reference hits
   * sorted by (ligHits ascending, l2fc descending) with the rank of `pid`
   * among them, the promiscuity flag, the displayed view, and the top-5
   * callout both as intended (rank <= 5) and as written (rank < 5).
   */
  predicate IsLigandView(screen: seq<Row>, pid: string, fragId: string, user: Choice, v: LigandView) {
    var profile := WithFragId(screen, fragId);
    var reference := Gen1Reference(profile);
    v.fragId == fragId &&
    v.numProtDetected == |profile| &&
    v.hits == Summarize(SortBy(LigHitsUpL2fcDown, reference), pid) &&
    v.numProtDetected > 0 &&
    v.promiscuous == LigandPromiscuous(v.hits.count, v.numProtDetected) &&
    v.filtersCleared == (reference == []) &&
    v.rows == SortBy(LigHitsUpL2fcDown, if v.filtersCleared then profile else Chosen(profile, user)) &&
    Sorted(LigHitsUpL2fcDown, v.rows) &&
    multiset(v.rows) == multiset(if v.filtersCleared then profile else Chosen(profile, user)) &&
    v.topFive == InTopFive(v.hits.rank) &&
    v.calloutAsWritten == TopFiveAsWritten(v.hits.rank)
  }

  /**
   * The ligand-centric stage for ligand `fragId`. It starts again from the
   * whole, unfiltered screen table. None when the ligand has no row there: the
   * source's promiscuity ratio then divides zero by zero. The view carries the
   * top-5 callout both as the source tests it and as corrected.
   */
  method LigandStage(screen: seq<Row>, pid: string, fragId: string, user: Choice) returns (r: Option<LigandView>)
    ensures r.None? <==> WithFragId(screen, fragId) == []
    ensures r.Some? ==> IsLigandView(screen, pid, fragId, user, r.value)
  {
    var intDf2 := WithFragId(screen, fragId);
    var tempDf2 := WithFragId(screen, fragId);
    var numProtDetected := |tempDf2|;
    tempDf2 := ApplyFilters(tempDf2, PBelow005, AdjBelow025, MediumHits);
    tempDf2 := SortBy(LigHitsUpL2fcDown, tempDf2);
    var frame := new Frame(tempDf2);
    var hits := GetVarText(frame, pid);
    var intDf3 := ShownView(intDf2, |tempDf2| == 0, user, LigHitsUpL2fcDown);
    if numProtDetected == 0 {
      return None;
    }
    var promiscuous := LigandPromiscuous(hits.count, numProtDetected);
    var topFive := InTopFive(hits.rank);
    var calloutAsWritten := TopFiveAsWritten(hits.rank);
    r := Some(LigandView(fragId, numProtDetected, hits, promiscuous, |tempDf2| == 0, intDf3,
                         topFive, calloutAsWritten));
  }

  /** `mdfClass < 1`: the competition rows that fail the Gen2 hit bar. */
  function ClassBelow(k: int): Row -> bool {
    (x: Row) => x.mdfClass < k
  }

  /** The Gen2 hits of a frame (`mdfClass >= 1`). */
  function Gen2Hits(s: seq<Row>): seq<Row> {
    Mask(s, ClassAtLeast(1))
  }

  /** The Gen2 non-hits of a frame (`mdfClass < 1`). */
  function Gen2NonHits(s: seq<Row>): seq<Row> {
    Mask(s, ClassBelow(1))
  }

  /** Hits and non-hits are disjoint and together are exactly the frame's rows. */
  lemma Gen2SplitPartition(s: seq<Row>)
    ensures multiset(Gen2Hits(s)) + multiset(Gen2NonHits(s)) == multiset(s)
    ensures forall x :: x in Gen2Hits(s) ==> x in s && x.mdfClass >= 1
    ensures forall x :: x in Gen2NonHits(s) ==> x in s && x.mdfClass < 1
    ensures forall x :: !(x in Gen2Hits(s) && x in Gen2NonHits(s))
  {
    MaskPartition(s, ClassAtLeast(1), ClassBelow(1));
    MaskMeaning(s, ClassAtLeast(1));
    MaskMeaning(s, ClassBelow(1));
  }

  /**
   * The split of the protein's rows in the anchor slice (app.py:248-296): the
   * hits sorted by hitRank, the non-hits sorted by l2fc, and the selection
   * list of the hits' ligands followed by the non-hits' ligands.
   */
  method Gen2Split(gen1Df: seq<Row>, pid: string) returns (passing: seq<Row>, failing: seq<Row>, selection: seq<string>)
    ensures Sorted(HitRankUp, passing) && multiset(passing) == multiset(Gen2Hits(WithAccession(gen1Df, pid)))
    ensures Sorted(L2fcUp, failing) && multiset(failing) == multiset(Gen2NonHits(WithAccession(gen1Df, pid)))
    ensures multiset(passing) + multiset(failing) == multiset(WithAccession(gen1Df, pid))
    ensures selection == FragIdColumn(passing) + FragIdColumn(failing)
    ensures |selection| == |WithAccession(gen1Df, pid)|
  {
    var temp4Df := WithAccession(gen1Df, pid);
    Gen2SplitPartition(temp4Df);
    temp4Df := Mask(temp4Df, ClassAtLeast(1));
    temp4Df := SortBy(HitRankUp, temp4Df);
    passing := temp4Df;

    temp4Df := WithAccession(gen1Df, pid);
    temp4Df := Mask(temp4Df, ClassBelow(1));
    temp4Df := SortBy(L2fcUp, temp4Df);
    failing := temp4Df;

    selection := FragIdColumn(passing) + FragIdColumn(failing);
    assert |multiset(passing) + multiset(failing)| == |WithAccession(gen1Df, pid)|;
  }

  /** The rows of the anchor slice for the picked Gen2 ligand; nothing matches a missing pick. */
  function Profile(anchor: seq<Row>, gen2Id: Option<string>): (r: seq<Row>)
    ensures forall x :: x in r <==> x in anchor && gen2Id == Some(x.fragId)
  {
    match gen2Id
    case None => []
    case Some(id) => WithFragId(anchor, id)
  }

  /** What the Gen2 part computes (app.py:244-338). */
  datatype Gen2View = Gen2View(
    numGen2Ligs: nat,
    passing: seq<Row>,
    failing: seq<Row>,
    bestGen2Lig: string,
    selection: seq<string>,
    gen2Id: Option<string>,
    numProfile: nat,
    hits: VarText,
    filtersCleared: bool,
    rows: seq<Row>)

  /**
   * What the Gen2 part shows for Gen1 ligand `fragId`. The anchor slice is the
   * competition rows anchored to the ligand. The protein's rows in it are
   * split into hits sorted by hitRank and non-hits sorted by l2fc. The
   * selection list is the hits' ligands followed by the non-hits' ligands.
   * The picked Gen2 ligand's profile is ranked by its reference hits and shown
   * filtered, or unfiltered when the reference result is empty.
   */
  predicate IsGen2View(comp: seq<Row>, pid: string, fragId: string, fpUser: Choice, gen2Pick: nat, g: Gen2View) {
    var anchor := WithGen1Lig(comp, fragId);
    var mine := WithAccession(anchor, pid);
    var profile := Profile(anchor, g.gen2Id);
    g.numGen2Ligs == |DistinctFragIds(anchor)| &&
    g.numGen2Ligs <= |anchor| &&
    Sorted(HitRankUp, g.passing) && multiset(g.passing) == multiset(Gen2Hits(mine)) &&
    Sorted(L2fcUp, g.failing) && multiset(g.failing) == multiset(Gen2NonHits(mine)) &&
    multiset(g.passing) + multiset(g.failing) == multiset(mine) &&
    g.bestGen2Lig == (if g.passing == [] then "" else g.passing[0].fragId) &&
    g.selection == FragIdColumn(g.passing) + FragIdColumn(g.failing) &&
    |g.selection| == |mine| &&
    g.gen2Id == Pick(g.selection, gen2Pick) && g.gen2Id.Some? &&
    g.numProfile == |profile| &&
    g.hits == Summarize(SortBy(LigHitsUpL2fcUp, Gen2Reference(profile)), pid) &&
    g.filtersCleared == (g.hits.count == 0) &&
    g.rows == SortBy(LigHitsUpL2fcUp, if g.filtersCleared then profile else Chosen(profile, fpUser)) &&
    Sorted(LigHitsUpL2fcUp, g.rows) &&
    multiset(g.rows) == multiset(if g.filtersCleared then profile else Chosen(profile, fpUser)) &&
    forall x :: x in g.rows ==> x in comp && x.gen1Lig == fragId && g.gen2Id == Some(x.fragId)
  }

  /**
   * The Gen2 stage, run only for an eligible Gen1 ligand. The anchor slice is
   * the competition rows anchored to the ligand; the protein's rows in it are
   * split into hits sorted by hitRank and non-hits sorted by l2fc, and the
   * selection list is the hits' ligands followed by the non-hits' ligands.
   * None when the ligand is not eligible, or when the protein has no row in
   * the anchor slice: the selection list is then empty, nothing is picked,
   * and the source raises building the Gen2 image path (app.py:301-302).
   * Otherwise the picked Gen2 ligand's profile is taken from the whole
   * anchor slice.
   */
  method Gen2Stage(comp: seq<Row>, pid: string, fragId: string, fpUser: Choice, gen2Pick: nat)
    returns (g: Option<Gen2View>)
    ensures g.Some? <==> Gen2Eligible(fragId) && WithAccession(WithGen1Lig(comp, fragId), pid) != []
    ensures g.Some? ==> IsGen2View(comp, pid, fragId, fpUser, gen2Pick, g.value)
  {
    if !Gen2Eligible(fragId) {
      return None;
    }
    var gen1Df := WithGen1Lig(comp, fragId);
    var numGen2Ligs := |DistinctFragIds(gen1Df)|;
    DistinctFragIdsBounds(gen1Df);

    var passing, failing, sideBarList := Gen2Split(gen1Df, pid);
    var bestGen2Lig := if |passing| > 0 then passing[0].fragId else "";
    var gen2Id := Pick(sideBarList, gen2Pick);
    if gen2Id.None? {
      return None;
    }

    var numProfile, hits, cleared, gen2Df2 := ProfileView(gen1Df, gen2Id, pid, fpUser);
    g := Some(Gen2View(numGen2Ligs, passing, failing, bestGen2Lig, sideBarList, gen2Id,
                       numProfile, hits, cleared, gen2Df2));
  }

  /**
   * The ligand-centric view of the picked Gen2 ligand (app.py:308-338): its
   * profile in the anchor slice, the summary of its reference hits sorted by
   * (ligHits, l2fc) ascending, and the displayed view.
   */
  method ProfileView(anchor: seq<Row>, gen2Id: Option<string>, pid: string, fpUser: Choice)
    returns (numProfile: nat, hits: VarText, cleared: bool, rows: seq<Row>)
    ensures numProfile == |Profile(anchor, gen2Id)|
    ensures hits == Summarize(SortBy(LigHitsUpL2fcUp, Gen2Reference(Profile(anchor, gen2Id))), pid)
    ensures cleared == (hits.count == 0)
    ensures rows == SortBy(LigHitsUpL2fcUp, if cleared then Profile(anchor, gen2Id) else Chosen(Profile(anchor, gen2Id), fpUser))
    ensures Sorted(LigHitsUpL2fcUp, rows)
    ensures multiset(rows) == multiset(if cleared then Profile(anchor, gen2Id) else Chosen(Profile(anchor, gen2Id), fpUser))
    ensures forall x :: x in rows ==> x in anchor && gen2Id == Some(x.fragId)
  {
    var gen2Df := Profile(anchor, gen2Id);
    var tempDf3 := ApplyFilters(gen2Df, PBelow005, AdjBelow025, Low);
    tempDf3 := SortBy(LigHitsUpL2fcUp, tempDf3);
    var frame := new Frame(tempDf3);
    hits := GetVarText(frame, pid);
    cleared := |tempDf3| == 0;
    rows := ShownView(gen2Df, cleared, fpUser, LigHitsUpL2fcUp);
    numProfile := |gen2Df|;
  }

  /** The outcome of one run of the script for a protein selection. */
  datatype Outcome =
    | NoInteractions
      // The protein has no row in the screen; nothing else is computed.
    | Raises(protein: ProteinView)
      // No ligand can be picked from an empty view; the source raises (app.py:204).
    | Gen2Raises(protein: ProteinView, ligand: LigandView)
      // An eligible ligand, but no Gen2 ligand can be picked from an empty
      // selection list; the source raises (app.py:302).
    | Shown(protein: ProteinView, ligand: LigandView, gen2: Option<Gen2View>)

  /**
   * The whole drill-down for protein `pid`: the protein stage, the ligand
   * picked from its displayed view, the ligand stage on the unfiltered screen,
   * and the Gen2 stage for an eligible ligand. The run stops where the source
   * raises: on an empty protein view, and on an empty Gen2 selection list.
   */
  method DrillDown(screen: seq<Row>, comp: seq<Row>, pid: string, user: Choice, fpUser: Choice,
                   ligandPick: nat, gen2Pick: nat) returns (out: Outcome)
    ensures out.NoInteractions? <==> forall x :: x in screen ==> x.accession != pid
    ensures !out.NoInteractions? ==> IsProteinView(screen, pid, user, out.protein)
    ensures out.Raises? <==> !out.NoInteractions? && out.protein.rows == []
    ensures out.Shown? || out.Gen2Raises? ==>
              Pick(FragIdColumn(out.protein.rows), ligandPick) == Some(out.ligand.fragId)
    ensures (out.Shown? || out.Gen2Raises?) && ligandPick < |out.protein.rows| ==>
              out.ligand.fragId == out.protein.rows[ligandPick].fragId
    ensures out.Shown? || out.Gen2Raises? ==> IsLigandView(screen, pid, out.ligand.fragId, user, out.ligand)
    ensures out.Shown? || out.Gen2Raises? ==>
              (out.Gen2Raises? <==> Gen2Eligible(out.ligand.fragId) &&
                                    WithAccession(WithGen1Lig(comp, out.ligand.fragId), pid) == [])
    ensures out.Shown? ==> (out.gen2.Some? <==> Gen2Eligible(out.ligand.fragId))
    ensures out.Shown? && out.gen2.Some? ==>
              IsGen2View(comp, pid, out.ligand.fragId, fpUser, gen2Pick, out.gen2.value)
  {
    var pv := ProteinStage(screen, pid, user);
    if pv.None? {
      return NoInteractions;
    }
    var protein := pv.value;
    var fragId := Pick(FragIdColumn(protein.rows), ligandPick);
    if fragId.None? {
      return Raises(protein);
    }
    var id := fragId.value;
    if ligandPick < |protein.rows| {
      FragIdColumnAt(protein.rows, ligandPick);
    }
    var x :| x in protein.rows && x.fragId == id;
    assert x in WithFragId(screen, id);
    out := LigandAndGen2(screen, comp, pid, user, fpUser, gen2Pick, protein, id);
  }

  /**
   * The rest of a run once ligand `id` is picked: the ligand stage on the
   * unfiltered screen, then the Gen2 stage for an eligible ligand, which
   * raises when the protein has no row in the ligand's anchor slice.
   */
  method LigandAndGen2(screen: seq<Row>, comp: seq<Row>, pid: string, user: Choice, fpUser: Choice,
                       gen2Pick: nat, protein: ProteinView, id: string) returns (out: Outcome)
    requires WithFragId(screen, id) != []
    ensures (out.Shown? || out.Gen2Raises?) && out.protein == protein && out.ligand.fragId == id
    ensures IsLigandView(screen, pid, id, user, out.ligand)
    ensures out.Gen2Raises? <==> Gen2Eligible(id) && WithAccession(WithGen1Lig(comp, id), pid) == []
    ensures out.Shown? ==> (out.gen2.Some? <==> Gen2Eligible(id))
    ensures out.Shown? && out.gen2.Some? ==> IsGen2View(comp, pid, id, fpUser, gen2Pick, out.gen2.value)
  {
    var lv := LigandStage(screen, pid, id, user);
    var gv := Gen2Stage(comp, pid, id, fpUser, gen2Pick);
    if Gen2Eligible(id) && gv.None? {
      return Gen2Raises(protein, lv.value);
    }
    out := Shown(protein, lv.value, gv);
  }
}
