/** The RDKit service as far as it does not call RDKit: the heuristic property
    estimate, the drug-likeness filter, the built-in molecule list and the
    placeholder artifacts written when RDKit is missing. */
module RdkitUtils {
  import opened Common
  import Seqs

  /** The seven-key property dictionary; a missing key is None. */
  datatype PropertyMap = PropertyMap(
    qedScore: Option<real>,
    logp: Option<real>,
    molecularWeight: Option<real>,
    tpsa: Option<real>,
    hbd: Option<int>,
    hba: Option<int>,
    rotatableBonds: Option<int>)

  const EmptyProps: PropertyMap := PropertyMap(None, None, None, None, None, None, None)

  /** All seven keys are present. */
  predicate Complete(p: PropertyMap) {
    p.qedScore.Some? && p.logp.Some? && p.molecularWeight.Some? && p.tpsa.Some? &&
    p.hbd.Some? && p.hba.Some? && p.rotatableBonds.Some?
  }

  function AbsReal(x: real): real { if x < 0.0 then -x else x }

  /** Python `min(max(x, lo), hi)`. */
  function Clamp(x: real, lo: real, hi: real): (r: real)
    requires lo <= hi
    ensures lo <= r <= hi
    ensures lo <= x <= hi ==> r == x
    ensures x < lo ==> r == lo
    ensures x > hi ==> r == hi
  {
    if x < lo then lo else if x > hi then hi else x
  }

  // ---------------------------------------------------------------------------
  // Heuristic estimate. The seven random draws are parameters.

  /** `uniform(100, 200)`, `uniform(-1, 1)`, `uniform(-0.1, 0.1)`,
      `uniform(50, 120)`, `randint(0, 5)`, `randint(1, 8)`, `randint(2, 10)`. */
  datatype EstimateDraws = EstimateDraws(
    mwJitter: real, logpJitter: real, qedJitter: real,
    tpsa: real, hbd: int, hba: int, rotatableBonds: int)

  predicate ValidDraws(d: EstimateDraws) {
    100.0 <= d.mwJitter <= 200.0 && -1.0 <= d.logpJitter <= 1.0 && -0.1 <= d.qedJitter <= 0.1 &&
    50.0 <= d.tpsa <= 120.0 && 0 <= d.hbd <= 5 && 1 <= d.hba <= 8 && 2 <= d.rotatableBonds <= 10
  }

  function EstimatedMw(smiles: string, d: EstimateDraws): real {
    Clamp(|smiles| as real * 8.0 + d.mwJitter, 200.0, 600.0)
  }

  /** Carbon count minus oxygen and nitrogen counts (upper-case symbols only). */
  function CarbonExcess(smiles: string): int {
    CountOccurrences(smiles, "C") - CountOccurrences(smiles, "O") - CountOccurrences(smiles, "N")
  }

  function EstimatedLogp(smiles: string, d: EstimateDraws): real {
    Clamp(CarbonExcess(smiles) as real * 0.3 + d.logpJitter, -3.0, 6.0)
  }

  function EstimatedQed(mw: real, logp: real, d: EstimateDraws): real {
    Clamp(0.8 - AbsReal(logp - 2.0) * 0.1 - AbsReal(mw - 350.0) * 0.001 + d.qedJitter, 0.1, 0.9)
  }

  /** The ranges every heuristic estimate lies in. */
  predicate InFallbackRanges(p: PropertyMap)
    requires Complete(p)
  {
    200.0 <= p.molecularWeight.value <= 600.0 && -3.0 <= p.logp.value <= 6.0 &&
    0.1 <= p.qedScore.value <= 0.9 && 50.0 <= p.tpsa.value <= 120.0 &&
    0 <= p.hbd.value <= 5 && 1 <= p.hba.value <= 8 && 2 <= p.rotatableBonds.value <= 10
  }

  function EstimatePropertiesFallback(smiles: string, d: EstimateDraws): (p: PropertyMap)
    requires ValidDraws(d)
    ensures Complete(p) && InFallbackRanges(p)
  {
    var mw := EstimatedMw(smiles, d);
    var logp := EstimatedLogp(smiles, d);
    PropertyMap(Some(EstimatedQed(mw, logp, d)), Some(logp), Some(mw), Some(d.tpsa),
                Some(d.hbd), Some(d.hba), Some(d.rotatableBonds))
  }

  /** Inside the clamp window the weight is the length heuristic itself; a
      SMILES of 63 characters or more always saturates at 600. */
  lemma EstimatedMwWindow(smiles: string, d: EstimateDraws)
    requires ValidDraws(d)
    ensures var raw := |smiles| as real * 8.0 + d.mwJitter;
      (200.0 <= raw <= 600.0 ==> EstimatePropertiesFallback(smiles, d).molecularWeight == Some(raw)) &&
      (|smiles| >= 63 ==> EstimatePropertiesFallback(smiles, d).molecularWeight == Some(600.0))
  {
  }

  // ---------------------------------------------------------------------------
  // calculate_properties

  /** What RDKit did with the SMILES: absent, unparsable, failing while
      computing descriptors, or the seven descriptors. */
  datatype RdkitResult =
    | RdkitUnavailable
    | Unparsable
    | DescriptorsFailed
    | Descriptors(qed: real, logp: real, mw: real, tpsa: real, hbd: int, hba: int, rotatableBonds: int)

  function CalculateProperties(smiles: string, rd: RdkitResult, d: EstimateDraws): (p: PropertyMap)
    requires ValidDraws(d)
    ensures Complete(p)
    ensures !rd.Descriptors? ==> p == EstimatePropertiesFallback(smiles, d) && InFallbackRanges(p)
    ensures rd.Descriptors? ==>
      p == PropertyMap(Some(rd.qed), Some(rd.logp), Some(rd.mw), Some(rd.tpsa),
                       Some(rd.hbd), Some(rd.hba), Some(rd.rotatableBonds))
  {
    match rd
    case Descriptors(qed, logp, mw, tpsa, hbd, hba, rot) =>
      PropertyMap(Some(qed), Some(logp), Some(mw), Some(tpsa), Some(hbd), Some(hba), Some(rot))
    case _ => EstimatePropertiesFallback(smiles, d)
  }

  // ---------------------------------------------------------------------------
  // filter_molecules

  /** A non-empty property dictionary meeting the inclusive bounds, a missing
      key read as 0. */
  predicate PassesFilter(p: PropertyMap, qedThreshold: real, logpRange: (real, real), mwRange: (real, real)) {
    p != EmptyProps &&
    p.qedScore.GetOr(0.0) >= qedThreshold &&
    logpRange.0 <= p.logp.GetOr(0.0) <= logpRange.1 &&
    mwRange.0 <= p.molecularWeight.GetOr(0.0) <= mwRange.1
  }

  predicate DrawsValid(draws: seq<EstimateDraws>) {
    forall i :: 0 <= i < |draws| ==> ValidDraws(draws[i])
  }

  /** Which molecules pass, given what RDKit and the estimator produce for each. */
  function FilterMask(molecules: seq<string>, rd: seq<RdkitResult>, draws: seq<EstimateDraws>,
                      qedThreshold: real, logpRange: (real, real), mwRange: (real, real)): (mask: seq<bool>)
    requires |rd| == |molecules| == |draws| && DrawsValid(draws)
    ensures |mask| == |molecules|
  {
    seq(|molecules|, i requires 0 <= i < |molecules| =>
      PassesFilter(CalculateProperties(molecules[i], rd[i], draws[i]), qedThreshold, logpRange, mwRange))
  }

  /** Keeps, in input order, exactly the molecules whose properties pass
      (see `Seqs.SelectExactly` for what the selection contains). */
  method FilterMolecules(molecules: seq<string>, qedThreshold: real, logpRange: (real, real), mwRange: (real, real),
                         rd: seq<RdkitResult>, draws: seq<EstimateDraws>) returns (filtered: seq<string>)
    requires |rd| == |molecules| == |draws| && DrawsValid(draws)
    ensures filtered == Seqs.Select(molecules, FilterMask(molecules, rd, draws, qedThreshold, logpRange, mwRange))
    ensures multiset(filtered) <= multiset(molecules)
  {
    ghost var mask := FilterMask(molecules, rd, draws, qedThreshold, logpRange, mwRange);
    filtered := [];
    var i := 0;
    while i < |molecules|
      invariant 0 <= i <= |molecules|
      invariant filtered == Seqs.Select(molecules[..i], mask[..i])
    {
      Seqs.SelectStep(molecules, mask, i);
      var props := CalculateProperties(molecules[i], rd[i], draws[i]);
      if props != EmptyProps {
        if props.qedScore.GetOr(0.0) >= qedThreshold &&
           logpRange.0 <= props.logp.GetOr(0.0) <= logpRange.1 &&
           mwRange.0 <= props.molecularWeight.GetOr(0.0) <= mwRange.1 {
          filtered := filtered + [molecules[i]];
        }
      }
      i := i + 1;
    }
    assert molecules[..i] == molecules && mask[..i] == mask;
    Seqs.SelectSubMultiset(molecules, mask);
  }

  /** Without RDKit every estimate has a weight of at least 200, so a weight
      window ending below 200 rejects every molecule. */
  lemma FilterRejectsAllBelowFallbackWeight(molecules: seq<string>, draws: seq<EstimateDraws>,
                                            qedThreshold: real, logpRange: (real, real), mwRange: (real, real))
    requires |draws| == |molecules| && DrawsValid(draws) && mwRange.1 < 200.0
    ensures var rd := seq(|molecules|, i => RdkitUnavailable);
      Seqs.Select(molecules, FilterMask(molecules, rd, draws, qedThreshold, logpRange, mwRange)) == []
  {
    var rd := seq(|molecules|, i => RdkitUnavailable);
    var mask := FilterMask(molecules, rd, draws, qedThreshold, logpRange, mwRange);
    assert forall i :: 0 <= i < |mask| ==> !mask[i];
    Seqs.SelectNone(molecules, mask);
  }

  // ---------------------------------------------------------------------------
  // generate_fallback_molecules

  /** The k-th entry (0 to 9) of the built-in list of drug-like SMILES. */
  function FallbackEntry(k: int): string {
    if k == 0 then "CC(C)CC1=CC=C(C=C1)C(C)C(=O)O"
    else if k == 1 then "CN1C=NC2=C1C(=O)N(C(=O)N2C)C"
    else if k == 2 then "CC(=O)OC1=CC=CC=C1C(=O)O"
    else if k == 3 then "CN(C)CCN1C2=CC=CC=C2SC3=C1C=C(C=C3)Cl"
    else if k == 4 then "COC1=C(C=CC(=C1)CC2C(=O)NC(=O)S2)O"
    else if k == 5 then "CN1CCN(CC1)C2=C(C=C3C(=C2)N(C=N3)CC4=CC=CC=C4)Cl"
    else if k == 6 then "COC1=CC=C(C=C1)CCN2CCC(CC2)C3=NOC4=C3C=CC(=C4)F"
    else if k == 7 then "CC1=CC=C(C=C1)C2=CC(=NN2C3=CC=C(C=C3)S(=O)(=O)N)C(F)(F)F"
    else if k == 8 then "CC(C)(C)NCC(C1=CC(=C(C=C1)O)CO)O"
    else "CN1C2=C(C(=O)N(C1=O)C)NC(=N2)N"
  }

  function FallbackSmiles(): seq<string> {
    seq(10, FallbackEntry)
  }

  /** `fallback_smiles[:count]`: a prefix of the fixed list, of length
      min(count, 10) for a non-negative count; a negative count drops entries
      from the end. */
  function GenerateFallbackMolecules(count: int): (r: seq<string>)
    ensures |r| <= |FallbackSmiles()| && forall i :: 0 <= i < |r| ==> r[i] == FallbackSmiles()[i]
    ensures count >= 0 ==> |r| == Min(count, 10)
    ensures count < 0 ==> |r| == Max(10 + count, 0)
  {
    SliceTo(FallbackSmiles(), count)
  }

  // ---------------------------------------------------------------------------
  // optimize_molecule (target_qed is unused)

  function OptimizeMolecule(smiles: string, rdkitAvailable: bool, parses: bool): (r: Option<string>)
    ensures !rdkitAvailable ==> r == Some(smiles)
    ensures r.Some? ==> r.value == smiles
    ensures r.None? <==> rdkitAvailable && !parses
  {
    if !rdkitAvailable then Some(smiles)
    else if !parses then None
    else Some(smiles)
  }

  // ---------------------------------------------------------------------------
  // Placeholder artifacts

  /** The three text lines drawn on the placeholder image. */
  function PlaceholderImageLines(smiles: string): (lines: seq<string>)
    ensures |lines| == 3
    ensures |smiles| <= 40 ==> lines[1] == "SMILES: " + smiles
    ensures |smiles| > 40 ==> lines[1] == "SMILES: " + smiles[..40] + "..."
  {
    ["Molecule Structure", "SMILES: " + Truncate(smiles, 40), "(RDKit not available)"]
  }

  /** The placeholder SDF text before and after the SMILES line. */
  const SdfHead: string :=
    "-ISIS-            2D\n" + "\n" + "  0  0  0  0  0  0  0  0  0  0999 V2000\n" + "M  END\n" + "> <SMILES>\n"
  const SdfTail: string :=
    "\n" + "\n" + "> <NOTE>\n" + "RDKit not available - placeholder structure\n" + "\n" + "$$$$"

  /** The f-string template before `.strip()`. */
  function SdfTemplate(smiles: string): string {
    "\n  " + SdfHead + smiles + SdfTail + "\n"
  }

  /** The text written to a placeholder SDF file. */
  function PlaceholderSdf(smiles: string): string {
    Trim(SdfTemplate(smiles))
  }

  /** Stripping removes only the template's own leading and trailing white
      space, never any of the SMILES. */
  lemma PlaceholderSdfShape(smiles: string)
    ensures PlaceholderSdf(smiles) == SdfHead + smiles + SdfTail
  {
    var body := SdfHead + smiles + SdfTail;
    assert SdfHead[0] == '-' && SdfTail[|SdfTail| - 1] == '$';
    assert body[0] == SdfHead[0];
    assert body[|body| - 1] == SdfTail[|SdfTail| - 1];
    assert SdfTemplate(smiles) == "\n  " + body + "\n";
    TrimPadding(body);
  }

  /** The template's padding: a newline and two blanks before, a newline after. */
  lemma TrimPadding(body: string)
    requires body != [] && !IsSpace(body[0]) && !IsSpace(body[|body| - 1])
    ensures Trim("\n  " + body + "\n") == body
  {
    var u := body + ['\n'];
    assert "\n  " + body + "\n" == ['\n'] + ([' '] + ([' '] + u));
    TrimStartSkip('\n', [' '] + ([' '] + u));
    TrimStartSkip(' ', [' '] + u);
    TrimStartSkip(' ', u);
    assert u[0] == body[0];
    TrimEndSkip(body, '\n');
  }

  /** Reads the SMILES back out of a placeholder SDF text. */
  function SmilesOfPlaceholderSdf(text: string): Option<string> {
    if |text| >= |SdfHead| + |SdfTail| && StartsWith(text, SdfHead) && EndsWith(text, SdfTail)
    then Some(text[|SdfHead|..|text| - |SdfTail|])
    else None
  }

  /** Every placeholder SDF names the SMILES it was written for. */
  lemma PlaceholderSdfRoundTrip(smiles: string)
    ensures SmilesOfPlaceholderSdf(PlaceholderSdf(smiles)) == Some(smiles)
  {
    PlaceholderSdfShape(smiles);
    FramedParts(SdfHead, smiles, SdfTail);
  }

  /** A text framed by a head and a tail gives back each of its three parts. */
  lemma FramedParts(head: string, mid: string, tail: string)
    ensures var x := head + mid + tail;
      x[..|head|] == head && x[|x| - |tail|..] == tail && x[|head|..|x| - |tail|] == mid
  {
  }
}
