/**
 * The fixed constants of the viewer and the flags derived from them: the
 * promiscuity ratios (app.py:140, app.py:208) and Gen2 eligibility
 * (app.py:236-237). The source compares floating-point ratios; here they are
 * exact, and restated with integer cross-multiplication.
 */
module Flags {

  /** The number of first-generation ligands screened. */
  const Gen1LigandsScreened: nat := 407

  /** The Gen1 ligands that have a second-generation (competition) round. */
  const Gen2Ligands: seq<string> := [
    "C027", "C028", "C044", "C046", "C064", "C115", "C127", "C160", "C179", "C186",
    "C197", "C219", "C240", "C270", "C275", "C303", "C310", "C320", "C378", "C391"]

  /** A protein is promiscuous when its hits exceed a tenth of the screened ligands. */
  function ProteinPromiscuous(numLigaHits: nat): (b: bool)
    ensures b <==> (numLigaHits as real) / (Gen1LigandsScreened as real) > 0.1
  {
    numLigaHits * 10 > Gen1LigandsScreened
  }

  /**
   * A ligand is promiscuous when its hits exceed a twentieth of the proteins
   * it enriched. The source divides by the detected count, which raises when
   * it is zero; the caller must rule that out.
   */
  function LigandPromiscuous(numProtHits: nat, numProtDetected: nat): (b: bool)
    requires numProtDetected > 0
    ensures b <==> (numProtHits as real) / (numProtDetected as real) > 0.05
  {
    var h, d := numProtHits as real, numProtDetected as real;
    assert h / d * d == h;
    ScaleByPositive(h / d, 0.05, d);
    numProtHits * 20 > numProtDetected
  }

  /** Multiplying both sides by a positive factor keeps a strict comparison. */
  lemma ScaleByPositive(a: real, b: real, d: real)
    requires d > 0.0
    ensures a > b <==> a * d > b * d
  {
    assert a * d - b * d == (a - b) * d;
  }

  /** `fragId in gen2List`: the Gen2 drill-down is offered for this ligand. */
  predicate Gen2Eligible(fragId: string) {
    fragId in Gen2Ligands
  }

  /** C027 unlocks the Gen2 drill-down; Z999 does not. */
  lemma Gen2EligibleScenario()
    ensures Gen2Eligible("C027")
    ensures !Gen2Eligible("Z999")
  {
  }
}
