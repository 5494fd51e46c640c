/**
 * `getVarText` (app.py:72-93): the summary of a sorted view — its best row,
 * its length and the 1-based rank of the selected protein — and the top-5
 * callout built on that rank (app.py:228-229).
 */
module Ranking {
  import opened Tables

  /** A 1-based position in a view, or the sentinel for "not in this view" (the source's ""). */
  datatype Rank = NotPresent | Position(pos: nat)

  /** The five values getVarText returns, in its order. */
  datatype VarText = VarText(best: string, count: nat, rank: Rank, rankText: string, bestText: string)

  /** The position of the first row of the given protein, if any. */
  function FirstMatch(rows: seq<Row>, accession: string): (k: Option<nat>)
    ensures k.Some? ==> k.value < |rows| && rows[k.value].accession == accession
    ensures k.Some? ==> forall j :: 0 <= j < k.value ==> rows[j].accession != accession
    ensures k.None? ==> forall j :: 0 <= j < |rows| ==> rows[j].accession != accession
  {
    if rows == [] then None
    else if rows[0].accession == accession then Some(0)
    else
      match FirstMatch(rows[1..], accession)
      case None => None
      case Some(k) => Some(k + 1)
  }

  /** What getVarText returns for a view and the selected protein `pid`. */
  function Summarize(rows: seq<Row>, pid: string): (v: VarText)
    ensures v.count == |rows|
    ensures v.best == if rows == [] then "No " else rows[0].geneName
    ensures v.rank.Position? <==> exists j :: 0 <= j < |rows| && rows[j].accession == pid
    ensures v.rank.Position? ==> 1 <= v.rank.pos <= |rows| && rows[v.rank.pos - 1].accession == pid
    ensures v.rank.Position? ==> forall j :: 0 <= j < v.rank.pos - 1 ==> rows[j].accession != pid
  {
    if |rows| > 0 then
      match FirstMatch(rows, pid)
      case Some(k) => VarText(rows[0].geneName, |rows|, Position(k + 1), "hit rank is", "is best")
      case None => VarText(rows[0].geneName, |rows|, NotPresent, "is not a hit", "protein is best")
    else
      VarText("No ", 0, NotPresent, "is not a hit", "")
  }

  /** A pandas frame as getVarText sees it: its rows and its index labels. */
  class Frame {
    var rows: seq<Row>
    var index: seq<int>

    ghost predicate Valid()
      reads this
    {
      |index| == |rows|
    }

    /** A new frame; its labels before getVarText relabels them are positional. */
    constructor (rows: seq<Row>)
      ensures Valid() && this.rows == rows
    {
      this.rows := rows;
      this.index := seq(|rows|, i => i);
    }
  }

  /**
   * getVarText(df) with the global protein selection passed as `pid`. On a
   * non-empty frame it overwrites the frame's index with 1..n, collects the
   * labels of the rows of `pid` and reports the first as the rank.
   */
  method GetVarText(df: Frame, pid: string) returns (v: VarText)
    requires df.Valid()
    modifies df
    ensures df.Valid() && df.rows == old(df.rows)
    ensures old(df.rows) == [] ==> df.index == old(df.index)
    ensures old(df.rows) != [] ==> forall i :: 0 <= i < |df.index| ==> df.index[i] == i + 1
    ensures v == Summarize(df.rows, pid)
  {
    var rows := df.rows;
    var n := |rows|;
    if n > 0 {
      var bestProt := rows[0].geneName;
      df.index := seq(n, i => i + 1);
      var labels := df.index;
      var protList: seq<int> := [];
      ghost var first: nat := 0;
      var i := 0;
      while i < n
        invariant 0 <= i <= n
        invariant protList == [] <==> forall j :: 0 <= j < i ==> rows[j].accession != pid
        invariant protList != [] ==> first < i && rows[first].accession == pid && protList[0] == first + 1
        invariant protList != [] ==> forall j :: 0 <= j < first ==> rows[j].accession != pid
      {
        if rows[i].accession == pid {
          if protList == [] {
            first := i;
          }
          protList := protList + [labels[i]];
        }
        i := i + 1;
      }
      if |protList| > 0 {
        var k := FirstMatch(rows, pid);
        assert k == Some(first);
        v := VarText(bestProt, n, Position(protList[0]), "hit rank is", "is best");
      } else {
        v := VarText(bestProt, n, NotPresent, "is not a hit", "protein is best");
      }
    } else {
      v := VarText("No ", 0, NotPresent, "is not a hit", "");
    }
  }

  /** The callout test as written (app.py:228-229): a rank was found and it is below 5. */
  predicate TopFiveAsWritten(rank: Rank) {
    rank.Position? && rank.pos < 5
  }

  /** The callout test as intended: a rank was found and it is one of the first five. */
  predicate InTopFive(rank: Rank) {
    rank.Position? && rank.pos <= 5
  }

  /** The corrected callout fires exactly when the protein is among the first five rows of the view. */
  lemma InTopFiveMeansFirstFive(rows: seq<Row>, pid: string)
    ensures InTopFive(Summarize(rows, pid).rank) <==>
            exists j :: 0 <= j < 5 && j < |rows| && rows[j].accession == pid
  {
    var v := Summarize(rows, pid);
    if exists j :: 0 <= j < 5 && j < |rows| && rows[j].accession == pid {
      var j :| 0 <= j < 5 && j < |rows| && rows[j].accession == pid;
      assert v.rank.Position?;
      assert v.rank.pos - 1 <= j;
    }
  }

  /** The callout as written fires exactly when the protein is among the first FOUR rows. */
  lemma TopFiveAsWrittenMeansFirstFour(rows: seq<Row>, pid: string)
    ensures TopFiveAsWritten(Summarize(rows, pid).rank) <==>
            exists j :: 0 <= j < 4 && j < |rows| && rows[j].accession == pid
  {
    var v := Summarize(rows, pid);
    if exists j :: 0 <= j < 4 && j < |rows| && rows[j].accession == pid {
      var j :| 0 <= j < 4 && j < |rows| && rows[j].accession == pid;
      assert v.rank.Position?;
      assert v.rank.pos - 1 <= j;
    }
  }

  function ProteinRow(accession: string): Row {
    Row(accession, accession, "C027", 3.0, 3.0, 1, 1, 2.5, 1.5, 3, "", 0)
  }

  /** A protein in fifth place: the source's test stays silent although the protein is in the top five. */
  lemma TopFiveAsWrittenMissesFifth()
    ensures var rows := [ProteinRow("A"), ProteinRow("B"), ProteinRow("C"), ProteinRow("D"), ProteinRow("P")];
            Summarize(rows, "P").rank == Position(5) &&
            !TopFiveAsWritten(Summarize(rows, "P").rank) && InTopFive(Summarize(rows, "P").rank)
  {
    var rows := [ProteinRow("A"), ProteinRow("B"), ProteinRow("C"), ProteinRow("D"), ProteinRow("P")];
    assert rows[4].accession == "P";
    assert forall j :: 0 <= j < 4 ==> rows[j].accession != "P";
  }
}
