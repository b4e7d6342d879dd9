/** The generation endpoints: the in-memory run registry, the TTD-driven
    optimisation flow and the structure-based generation flow. */
module Generate {
  import opened Common
  import opened Schemas
  import Seqs
  import Config
  import RdkitUtils
  import Docking
  import Bionemo
  import Protein
  import Ttd

  /** One entry of `active_runs`. */
  datatype RunRecord = RunRecord(
    status: GenerationStatus,
    progress: nat,
    molecules: seq<MoleculeRecord>,
    smilesPath: Option<string>,
    proteinPath: Option<string>,
    error: Option<string>)

  /** The record every run starts with. */
  function StartedRun(): RunRecord {
    RunRecord(Running, 10, [], None, None, None)
  }

  /** The record an exception leaves behind: failed, progress 0, no molecules. */
  function FailedRun(error: string): RunRecord {
    RunRecord(Failed, 0, [], None, None, Some(error))
  }

  function SmiPath(runId: string): string {
    Config.RunDir(runId) + "/" + "molecules.smi"
  }

  /** `<run dir>/molecule_<i><ext>`. */
  function ArtifactPath(runId: string, i: nat, ext: string): string {
    Config.RunDir(runId) + "/molecule_" + NatToString(i) + ext
  }

  /** The message of the FileNotFoundError raised by `open(path, 'w')`. */
  function MissingDirError(path: string): string {
    "[Errno 2] No such file or directory: '" + path + "'"
  }

  /** Whether the 2D image and the 3D conformer could be written. */
  datatype RenderResult = RenderResult(png: bool, sdf: bool)

  /** What the outside world contributes for the i-th molecule: RDKit's answer,
      the estimator's random draws, the render outcomes, and the docking noise
      and offset. */
  datatype MoleculeInputs = MoleculeInputs(
    rdkit: RdkitUtils.RdkitResult,
    draws: RdkitUtils.EstimateDraws,
    render: RenderResult,
    noise: real,
    offset: real)

  predicate ValidInput(x: MoleculeInputs) {
    RdkitUtils.ValidDraws(x.draws) && -1.0 <= x.noise <= 1.0 && 3.0 <= x.offset <= 8.0
  }

  predicate ValidInputs(xs: seq<MoleculeInputs>) {
    forall i :: 0 <= i < |xs| ==> ValidInput(xs[i])
  }

  /** The seven property values of a record. */
  function PropertiesOf(m: MoleculeRecord): RdkitUtils.PropertyMap {
    RdkitUtils.PropertyMap(m.qedScore, m.logp, m.molecularWeight, m.tpsa, m.hbd, m.hba, m.rotatableBonds)
  }

  /** Copies the seven property values onto a record. */
  function WithProperties(m: MoleculeRecord, p: RdkitUtils.PropertyMap): MoleculeRecord {
    m.(qedScore := p.qedScore, logp := p.logp, molecularWeight := p.molecularWeight, tpsa := p.tpsa,
       hbd := p.hbd, hba := p.hba, rotatableBonds := p.rotatableBonds)
  }

  /** Sets the artifact paths whose files were written; the others keep their value. */
  function WithRenders(m: MoleculeRecord, runId: string, i: nat, r: RenderResult): MoleculeRecord {
    m.(pngPath := if r.png then Some(ArtifactPath(runId, i, ".png")) else m.pngPath,
       sdfPath := if r.sdf then Some(ArtifactPath(runId, i, ".sdf")) else m.sdfPath)
  }

  // ---------------------------------------------------------------------------
  // The .smi file.

  /** An optional text in an f-string: None renders as "None". */
  function OptionText(o: Option<string>): string {
    if o.Some? then o.value else "None"
  }

  /** `name or mol_id` for the TTD flow, `mol_id` for the structure flow. */
  function SmiLabel(m: MoleculeRecord, useName: bool): string {
    if useName && TruthyText(m.name) then m.name.value else OptionText(m.molId)
  }

  function SmiLine(m: MoleculeRecord, useName: bool): string {
    m.smiles + "\t" + SmiLabel(m, useName) + "\n"
  }

  /** The file text: one line per molecule, in list order. */
  function SmiText(mols: seq<MoleculeRecord>, useName: bool): string
    decreases |mols|
  {
    if mols == [] then "" else SmiText(mols[..|mols| - 1], useName) + SmiLine(mols[|mols| - 1], useName)
  }

  lemma {:induction false} SmiTextPrefix(mols: seq<MoleculeRecord>, useName: bool, k: nat)
    requires k <= |mols|
    ensures var t, p := SmiText(mols, useName), SmiText(mols[..k], useName);
      |p| <= |t| && t[..|p|] == p
    decreases |mols|
  {
    if k < |mols| {
      var n := |mols| - 1;
      assert mols[..n][..k] == mols[..k];
      SmiTextPrefix(mols[..n], useName, k);
    } else {
      assert mols[..k] == mols;
    }
  }

  /** The k-th line of the file is `smiles<TAB>label<NEWLINE>` of the k-th molecule. */
  lemma SmiTextLine(mols: seq<MoleculeRecord>, useName: bool, k: nat)
    requires k < |mols|
    ensures var a, b := |SmiText(mols[..k], useName)|, |SmiText(mols[..k + 1], useName)|;
      a <= b <= |SmiText(mols, useName)| && SmiText(mols, useName)[a..b] == SmiLine(mols[k], useName)
  {
    SmiTextPrefix(mols, useName, k + 1);
    assert mols[..k + 1][..k] == mols[..k];
    var t := SmiText(mols, useName);
    var p := SmiText(mols[..k + 1], useName);
    var a := |SmiText(mols[..k], useName)|;
    assert p == SmiText(mols[..k], useName) + SmiLine(mols[k], useName);
    assert t[a..|p|] == p[a..];
  }

  // ---------------------------------------------------------------------------
  // The TTD flow as a function of its inputs.

  /** Where the TTD service looks: its configuration, the API reply and the
      fallback file. */
  datatype TtdSource = TtdSource(
    baseUrl: Option<string>,
    apiKey: Option<string>,
    reply: Ttd.ApiReply,
    file: Ttd.FallbackFile)

  function TtdFetched(req: TtdRequest, src: TtdSource): seq<MoleculeRecord> {
    Ttd.TtdLookup(req.uniprotId, src.baseUrl, src.apiKey, src.reply, src.file)
  }

  /** The built-in molecules, tagged `fallback_<i>`. */
  function FallbackCandidates(maxMolecules: int): (r: seq<MoleculeRecord>)
    ensures |r| <= |RdkitUtils.FallbackSmiles()|
    ensures maxMolecules >= 0 ==> |r| == Min(maxMolecules, 10)
    ensures forall i :: 0 <= i < |r| ==>
      r[i].smiles == RdkitUtils.FallbackSmiles()[i] && r[i].molId == Some("fallback_" + NatToString(i)) &&
      r[i].name.None? && r[i].qedScore.None?
  {
    var smiles := RdkitUtils.GenerateFallbackMolecules(maxMolecules);
    seq(|smiles|, i requires 0 <= i < |smiles| => NewMolecule(smiles[i]).(molId := Some("fallback_" + NatToString(i))))
  }

  function TtdCandidates(req: TtdRequest, src: TtdSource): seq<MoleculeRecord> {
    var fetched := TtdFetched(req, src);
    if fetched == [] then FallbackCandidates(req.maxMolecules) else fetched
  }

  /** The molecules considered: the first `max_molecules` candidates. */
  function TtdWork(req: TtdRequest, src: TtdSource): (w: seq<MoleculeRecord>)
    requires ValidTtdRequest(req)
    ensures |w| <= req.maxMolecules
  {
    SliceTo(TtdCandidates(req, src), req.maxMolecules)
  }

  function TtdProps(work: seq<MoleculeRecord>, inputs: seq<MoleculeInputs>, i: nat): RdkitUtils.PropertyMap
    requires |inputs| == |work| && ValidInputs(inputs) && i < |work|
  {
    RdkitUtils.CalculateProperties(work[i].smiles, inputs[i].rdkit, inputs[i].draws)
  }

  /** Each considered molecule with its properties and, where written, its
      artifacts. The renders of a molecule that fails the filter never happen
      in the code; the model's record for it is never selected, so its paths
      are never seen. */
  function TtdAnnotated(runId: string, work: seq<MoleculeRecord>, inputs: seq<MoleculeInputs>): (r: seq<MoleculeRecord>)
    requires |inputs| == |work| && ValidInputs(inputs)
    ensures |r| == |work|
    ensures forall i :: 0 <= i < |r| ==>
      r[i].smiles == work[i].smiles && r[i].molId == work[i].molId && r[i].name == work[i].name &&
      r[i].dockingScore == work[i].dockingScore &&
      PropertiesOf(r[i]) == TtdProps(work, inputs, i) &&
      r[i].pngPath == (if inputs[i].render.png then Some(ArtifactPath(runId, i, ".png")) else work[i].pngPath) &&
      r[i].sdfPath == (if inputs[i].render.sdf then Some(ArtifactPath(runId, i, ".sdf")) else work[i].sdfPath)
  {
    seq(|work|, i requires 0 <= i < |work| =>
      WithRenders(WithProperties(work[i], TtdProps(work, inputs, i)), runId, i, inputs[i].render))
  }

  /** The keep test: QED, LogP and MW all truthy (so an exact 0 fails), QED at
      least the threshold, LogP and MW inside their inclusive ranges. */
  predicate PassesTtdFilter(req: TtdRequest, m: MoleculeRecord) {
    TruthyReal(m.qedScore) && m.qedScore.value >= req.qedThreshold &&
    TruthyReal(m.logp) && req.logpRange.0 <= m.logp.value <= req.logpRange.1 &&
    TruthyReal(m.molecularWeight) && req.mwRange.0 <= m.molecularWeight.value <= req.mwRange.1
  }

  function TtdMask(req: TtdRequest, annotated: seq<MoleculeRecord>): (m: seq<bool>)
    ensures |m| == |annotated| && forall i :: 0 <= i < |m| ==> m[i] == PassesTtdFilter(req, annotated[i])
  {
    seq(|annotated|, i requires 0 <= i < |annotated| => PassesTtdFilter(req, annotated[i]))
  }

  /** What the TTD flow needs of its inputs: one input per considered molecule. */
  predicate TtdInputsFit(work: seq<MoleculeRecord>, inputs: seq<MoleculeInputs>) {
    |inputs| == |work| && ValidInputs(inputs)
  }

  /** The kept molecules, in their original order. */
  function TtdKept(req: TtdRequest, runId: string, work: seq<MoleculeRecord>, inputs: seq<MoleculeInputs>): seq<MoleculeRecord>
    requires TtdInputsFit(work, inputs)
  {
    var annotated := TtdAnnotated(runId, work, inputs);
    Seqs.Select(annotated, TtdMask(req, annotated))
  }

  /** `reverse=True` on `qed_score or 0` is an ascending sort on the negated
      key (Python keeps a reversed sort stable). */
  function QedDescKey(m: MoleculeRecord): real {
    -m.qedScore.GetOr(0.0)
  }

  function TtdOutput(req: TtdRequest, runId: string, work: seq<MoleculeRecord>, inputs: seq<MoleculeInputs>): seq<MoleculeRecord>
    requires TtdInputsFit(work, inputs)
  {
    Seqs.SortBy(TtdKept(req, runId, work, inputs), QedDescKey)
  }

  /** Whether molecules.smi can be written: the run directory exists, either
      from before or because some kept molecule created it. */
  predicate TtdSmiWritable(req: TtdRequest, runId: string, work: seq<MoleculeRecord>, inputs: seq<MoleculeInputs>, dirExisted: bool)
    requires TtdInputsFit(work, inputs)
  {
    dirExisted || TtdKept(req, runId, work, inputs) != []
  }

  /** The final registry entry of a TTD run, as the code is written. */
  function TtdFinal(req: TtdRequest, runId: string, work: seq<MoleculeRecord>, inputs: seq<MoleculeInputs>, dirExisted: bool): RunRecord
    requires TtdInputsFit(work, inputs)
  {
    if TtdSmiWritable(req, runId, work, inputs, dirExisted)
    then RunRecord(Completed, 100, TtdOutput(req, runId, work, inputs), Some(SmiPath(runId)), None, None)
    else FailedRun(MissingDirError(SmiPath(runId)))
  }

  /** Every store into the registry a TTD run makes, in order. */
  function TtdTrace(runId: string, final: RunRecord): seq<(string, RunRecord)> {
    [(runId, StartedRun()), (runId, StartedRun().(progress := 30)), (runId, StartedRun().(progress := 90)), (runId, final)]
  }

  /** The four stores split as the flow makes them: two before filtering, two after. */
  lemma TtdTraceSplit(w0: seq<(string, RunRecord)>, runId: string, final: RunRecord)
    ensures w0 + [(runId, StartedRun()), (runId, StartedRun().(progress := 30))]
              + [(runId, StartedRun().(progress := 90)), (runId, final)] == w0 + TtdTrace(runId, final)
  {
  }

  /** The endpoint's answer: the molecules, or a 500 carrying the error text. */
  function RunReply(final: RunRecord, runId: string, success: string, failure: string): Result<GenerationResponse, HttpError> {
    if final.status == Completed
    then Ok(GenerationResponse(runId, Completed, success, final.molecules, Some(100)))
    else Err(HttpError(500, failure + final.error.GetOr("")))
  }

  /** The directories after the flow: the run directory is created only when a molecule was kept. */
  function TtdDirs(dirs: set<string>, req: TtdRequest, runId: string, work: seq<MoleculeRecord>,
                   inputs: seq<MoleculeInputs>): set<string>
    requires TtdInputsFit(work, inputs)
  {
    dirs + (if TtdKept(req, runId, work, inputs) != [] then {Config.RunDir(runId)} else {})
  }

  /** The files after the flow: molecules.smi is written when its directory exists. */
  function TtdFiles(files: map<string, string>, req: TtdRequest, runId: string, work: seq<MoleculeRecord>,
                    inputs: seq<MoleculeInputs>, dirExisted: bool): map<string, string>
    requires TtdInputsFit(work, inputs)
  {
    if TtdSmiWritable(req, runId, work, inputs, dirExisted)
    then files[SmiPath(runId) := SmiText(TtdOutput(req, runId, work, inputs), true)]
    else files
  }

  function TtdReply(req: TtdRequest, runId: string, work: seq<MoleculeRecord>, inputs: seq<MoleculeInputs>, dirExisted: bool)
    : Result<GenerationResponse, HttpError>
    requires TtdInputsFit(work, inputs)
  {
    var final := TtdFinal(req, runId, work, inputs, dirExisted);
    RunReply(final, runId,
             "Successfully optimized " + NatToString(|final.molecules|) + " molecules for UniProt " + req.uniprotId,
             "TTD generation failed: ")
  }

  // ---------------------------------------------------------------------------
  // Properties of the TTD outcome.

  /** At most `max_molecules` molecules come out. */
  lemma TtdOutputBounded(req: TtdRequest, runId: string, src: TtdSource, inputs: seq<MoleculeInputs>)
    requires ValidTtdRequest(req) && TtdInputsFit(TtdWork(req, src), inputs)
    ensures |TtdOutput(req, runId, TtdWork(req, src), inputs)| <= req.maxMolecules
  {
    Seqs.SortByPermutation(TtdKept(req, runId, TtdWork(req, src), inputs), QedDescKey);
  }

  /** The output is the kept subsequence reordered: by QED, highest first, and
      stably (equal QED keeps the original order). */
  lemma TtdOutputOrder(req: TtdRequest, runId: string, work: seq<MoleculeRecord>, inputs: seq<MoleculeInputs>)
    requires TtdInputsFit(work, inputs)
    ensures var out, kept := TtdOutput(req, runId, work, inputs), TtdKept(req, runId, work, inputs);
      multiset(out) == multiset(kept) &&
      (forall i, j :: 0 <= i < j < |out| ==> out[i].qedScore.GetOr(0.0) >= out[j].qedScore.GetOr(0.0)) &&
      (forall v :: Seqs.KeyClass(out, QedDescKey, v) == Seqs.KeyClass(kept, QedDescKey, v))
  {
    var kept := TtdKept(req, runId, work, inputs);
    Seqs.SortByPermutation(kept, QedDescKey);
    Seqs.SortByStable(kept, QedDescKey);
  }

  /** Every output molecule passes the filter and comes from the considered
      molecules (with properties and artifact paths filled in). */
  lemma TtdOutputPasses(req: TtdRequest, runId: string, work: seq<MoleculeRecord>, inputs: seq<MoleculeInputs>)
    requires TtdInputsFit(work, inputs)
    ensures forall m :: m in TtdOutput(req, runId, work, inputs) ==>
      PassesTtdFilter(req, m) && m in TtdAnnotated(runId, work, inputs)
  {
    var annotated := TtdAnnotated(runId, work, inputs);
    var mask := TtdMask(req, annotated);
    var kept := TtdKept(req, runId, work, inputs);
    Seqs.SortByPermutation(kept, QedDescKey);
    Seqs.SelectSatisfies(annotated, mask, m => PassesTtdFilter(req, m) && m in annotated);
    forall m | m in TtdOutput(req, runId, work, inputs) ensures m in kept {
      assert m in multiset(TtdOutput(req, runId, work, inputs));
    }
  }

  /** A considered molecule that passes the filter is in the output. */
  lemma TtdOutputComplete(req: TtdRequest, runId: string, work: seq<MoleculeRecord>, inputs: seq<MoleculeInputs>, i: nat)
    requires TtdInputsFit(work, inputs) && i < |work|
    requires PassesTtdFilter(req, TtdAnnotated(runId, work, inputs)[i])
    ensures TtdAnnotated(runId, work, inputs)[i] in TtdOutput(req, runId, work, inputs)
  {
    var annotated := TtdAnnotated(runId, work, inputs);
    var mask := TtdMask(req, annotated);
    var kept := TtdKept(req, runId, work, inputs);
    Seqs.SelectExactly(annotated, mask);
    var ix := Seqs.SetPositions(mask);
    var j :| 0 <= j < |ix| && ix[j] == i;
    assert kept[j] == annotated[i];
    Seqs.SortByPermutation(kept, QedDescKey);
    assert annotated[i] in multiset(kept);
  }

  /** Without any TTD molecule the candidates are the built-in list, tagged
      `fallback_<i>`. */
  lemma TtdFallbackWork(req: TtdRequest, src: TtdSource)
    requires ValidTtdRequest(req) && TtdFetched(req, src) == []
    ensures var w := TtdWork(req, src);
      |w| == Min(req.maxMolecules, 10) &&
      forall i :: 0 <= i < |w| ==> w[i].smiles == RdkitUtils.FallbackSmiles()[i] &&
                                   w[i].molId == Some("fallback_" + NatToString(i))
  {
  }

  /** How a run ends: completed at 100 with no error, or failed at 0 with no
      molecules and an error. */
  predicate Terminal(last: RunRecord) {
    (last.status == Completed && last.progress == 100 && last.error.None?) ||
    (last.status == Failed && last.progress == 0 && last.molecules == [] && last.error.Some?)
  }

  /** The progress a run reports only grows while it runs, and the run ends
      in a terminal record. */
  predicate WellFormedTrace(trace: seq<(string, RunRecord)>, runId: string) {
    |trace| >= 2 &&
    (forall k :: 0 <= k < |trace| ==> trace[k].0 == runId) &&
    (forall k :: 0 <= k < |trace| - 1 ==> trace[k].1.status == Running && trace[k].1.molecules == []) &&
    (forall k :: 0 < k < |trace| - 1 ==> trace[k - 1].1.progress < trace[k].1.progress) &&
    trace[0].1.progress == 10 &&
    Terminal(trace[|trace| - 1].1)
  }

  /** The progress steps the flows store before their final record. */
  function Steps(runId: string, ps: seq<nat>): (r: seq<(string, RunRecord)>)
    ensures |r| == |ps| && forall k :: 0 <= k < |ps| ==> r[k] == (runId, StartedRun().(progress := ps[k]))
  {
    seq(|ps|, k requires 0 <= k < |ps| => (runId, StartedRun().(progress := ps[k])))
  }

  /** Steps at 10 followed by strictly growing progress, then a terminal record,
      make a well-formed trace. */
  lemma StepsWellFormed(runId: string, ps: seq<nat>, final: RunRecord)
    requires |ps| >= 1 && ps[0] == 10 && Terminal(final)
    requires forall k :: 0 < k < |ps| ==> ps[k - 1] < ps[k]
    ensures WellFormedTrace(Steps(runId, ps) + [(runId, final)], runId)
  {
    var t := Steps(runId, ps) + [(runId, final)];
    assert forall k :: 0 <= k < |ps| ==> t[k] == (runId, StartedRun().(progress := ps[k]));
  }

  lemma TtdTraceWellFormed(req: TtdRequest, runId: string, work: seq<MoleculeRecord>, inputs: seq<MoleculeInputs>, dirExisted: bool)
    requires TtdInputsFit(work, inputs)
    ensures var final := TtdFinal(req, runId, work, inputs, dirExisted);
      WellFormedTrace(TtdTrace(runId, final), runId) &&
      (final.status == Completed <==> TtdSmiWritable(req, runId, work, inputs, dirExisted)) &&
      (final.status == Completed ==> final.molecules == TtdOutput(req, runId, work, inputs))
  {
    var final := TtdFinal(req, runId, work, inputs, dirExisted);
    StepsWellFormed(runId, [10, 30, 90], final);
    assert Steps(runId, [10, 30, 90]) + [(runId, final)] == TtdTrace(runId, final);
  }

  // ---------------------------------------------------------------------------
  // The empty-selection failure and its correction.

  /** As written: when no molecule is kept and the run directory does not
      exist yet, nothing creates it, the .smi write fails and the run fails. */
  lemma TtdEmptySelectionFails(req: TtdRequest, runId: string, work: seq<MoleculeRecord>, inputs: seq<MoleculeInputs>)
    requires TtdInputsFit(work, inputs) && TtdKept(req, runId, work, inputs) == []
    ensures TtdFinal(req, runId, work, inputs, false) == FailedRun(MissingDirError(SmiPath(runId)))
    ensures TtdReply(req, runId, work, inputs, false) ==
              Err(HttpError(500, "TTD generation failed: " + MissingDirError(SmiPath(runId))))
  {
  }

  /** A concrete case: no TTD data, no RDKit, and a QED threshold of 1.0. The
      estimate never exceeds 0.9, so nothing is kept and the run fails. */
  lemma TtdThresholdOneFails(uniprotId: string, inputs: seq<MoleculeInputs>, runId: string)
    requires |inputs| == 10 && ValidInputs(inputs)
    requires forall i :: 0 <= i < |inputs| ==> inputs[i].rdkit == RdkitUtils.RdkitUnavailable
    ensures var req := TtdRequest(uniprotId, 10, 1.0, DefaultLogpRange, DefaultMwRange);
      var work := TtdWork(req, TtdSource(None, None, Ttd.ApiFailure, Ttd.FileMissing));
      |work| == 10 && TtdFinal(req, runId, work, inputs, false).status == Failed
  {
    var req := TtdRequest(uniprotId, 10, 1.0, DefaultLogpRange, DefaultMwRange);
    var src := TtdSource(None, None, Ttd.ApiFailure, Ttd.FileMissing);
    var work := TtdWork(req, src);
    assert |work| == 10;
    var annotated := TtdAnnotated(runId, work, inputs);
    var mask := TtdMask(req, annotated);
    forall i | 0 <= i < |mask| ensures !mask[i] {
      assert annotated[i].qedScore == TtdProps(work, inputs, i).qedScore;
      assert TtdProps(work, inputs, i) == RdkitUtils.EstimatePropertiesFallback(work[i].smiles, inputs[i].draws);
    }
    Seqs.SelectNone(annotated, mask);
    TtdEmptySelectionFails(req, runId, work, inputs);
  }

  /** Intended: the run directory is created before the .smi file is written,
      so the write cannot fail and every run completes. */
  function TtdFinalIntended(req: TtdRequest, runId: string, work: seq<MoleculeRecord>, inputs: seq<MoleculeInputs>): RunRecord
    requires TtdInputsFit(work, inputs)
  {
    TtdFinal(req, runId, work, inputs, true)
  }

  /** The corrected flow always completes, with nothing lost: it agrees with the
      written one whenever that completes, and a run that keeps nothing now
      completes with an empty list instead of failing. */
  lemma TtdIntendedCompletes(req: TtdRequest, runId: string, work: seq<MoleculeRecord>, inputs: seq<MoleculeInputs>, dirExisted: bool)
    requires TtdInputsFit(work, inputs)
    ensures var intended := TtdFinalIntended(req, runId, work, inputs);
      intended.status == Completed && intended.progress == 100 && intended.error.None? &&
      intended.molecules == TtdOutput(req, runId, work, inputs) &&
      (TtdFinal(req, runId, work, inputs, dirExisted).status == Completed ==>
         TtdFinal(req, runId, work, inputs, dirExisted) == intended) &&
      (TtdKept(req, runId, work, inputs) == [] ==> intended.molecules == [])
  {
    if TtdKept(req, runId, work, inputs) == [] {
      assert TtdOutput(req, runId, work, inputs) == [];
    }
  }

  // ---------------------------------------------------------------------------
  // The structure flow as a function of its inputs.

  /** The form fields of the structure endpoint (no bounds on max_molecules). */
  datatype StructureForm = StructureForm(
    proteinSource: string,
    uniprotId: Option<string>,
    pdbId: Option<string>,
    maxMolecules: int,
    useBionemo: bool)

  /** Where a structure can come from: the uploaded file (its UTF-8 text, or the
      decoder's error message), and the replies of AlphaFold and RCSB. */
  datatype ProteinSources = ProteinSources(
    upload: Option<Result<string, string>>,
    alphafoldMeta: Protein.AlphafoldMeta,
    alphafoldPdb: Protein.HttpReply,
    pdbReply: Protein.HttpReply)

  /** The generator configuration, the remote reply and the sample draw. */
  datatype GeneratorInputs = GeneratorInputs(
    endpoint: Option<string>,
    apiKey: Option<string>,
    remote: seq<string>,
    picks: seq<nat>)

  /** `str()` of the 400 HTTPException raised when no structure was obtained. */
  const NoProteinError: string := "400: Could not obtain protein structure"

  /** The structure text by source; a missing or empty structure is an error. */
  function ObtainProtein(form: StructureForm, ps: ProteinSources): (r: Result<string, string>)
    ensures r.Ok? ==> r.value != ""
    ensures r.Err? && r.error != NoProteinError ==>
              form.proteinSource == "upload" && ps.upload.Some? && ps.upload.value.Err?
    // An uploaded file: its text, or the decoder's error.
    ensures form.proteinSource == "upload" && ps.upload.Some? && ps.upload.value.Ok? && ps.upload.value.value != "" ==>
              r == Ok(ps.upload.value.value)
    ensures form.proteinSource == "upload" && ps.upload.Some? && ps.upload.value.Err? ==>
              r == Err(ps.upload.value.error)
    // A truthy UniProt id: the AlphaFold structure when one came back.
    ensures form.proteinSource == "uniprot" && TruthyText(form.uniprotId) ==>
              var data := Protein.FetchAlphafoldStructure(form.uniprotId.value, ps.alphafoldMeta, ps.alphafoldPdb);
              r == if data.Some? && data.value != "" then Ok(data.value) else Err(NoProteinError)
    // A truthy PDB id: the RCSB structure when one came back.
    ensures form.proteinSource == "pdb" && TruthyText(form.pdbId) ==>
              var data := Protein.FetchPdbStructure(form.pdbId.value, ps.pdbReply);
              r == if data.Some? && data.value != "" then Ok(data.value) else Err(NoProteinError)
    // Anything else: no structure.
    ensures !(form.proteinSource == "upload" && ps.upload.Some? && ps.upload.value.Err?) &&
            !(form.proteinSource == "upload" && ps.upload.Some? && ps.upload.value.Ok? && ps.upload.value.value != "") &&
            !(form.proteinSource == "uniprot" && TruthyText(form.uniprotId)) &&
            !(form.proteinSource == "pdb" && TruthyText(form.pdbId)) ==>
              r == Err(NoProteinError)
  {
    if form.proteinSource == "upload" && ps.upload.Some? then
      match ps.upload.value
      case Err(msg) => Err(msg)
      case Ok(text) => if text == "" then Err(NoProteinError) else Ok(text)
    else
      var data :=
        if form.proteinSource == "uniprot" && TruthyText(form.uniprotId) then
          Protein.FetchAlphafoldStructure(form.uniprotId.value, ps.alphafoldMeta, ps.alphafoldPdb)
        else if form.proteinSource == "pdb" && TruthyText(form.pdbId) then
          Protein.FetchPdbStructure(form.pdbId.value, ps.pdbReply)
        else None;
      if data.None? || data.value == "" then Err(NoProteinError) else Ok(data.value)
  }

  /** Only the chosen source is consulted: replies of the other sources do
      not change the outcome. */
  lemma ObtainProteinOnlyChosenSource(form: StructureForm, ps: ProteinSources, other: ProteinSources)
    requires form.proteinSource == "upload" ==> other.upload == ps.upload
    requires form.proteinSource == "uniprot" ==>
               other.alphafoldMeta == ps.alphafoldMeta && other.alphafoldPdb == ps.alphafoldPdb
    requires form.proteinSource == "pdb" ==> other.pdbReply == ps.pdbReply
    ensures ObtainProtein(form, other) == ObtainProtein(form, ps)
  {
  }

  predicate ValidGeneratorPicks(form: StructureForm, g: GeneratorInputs) {
    var pool := Bionemo.FallbackPool(form.maxMolecules);
    form.maxMolecules >= 0 ==> Bionemo.ValidPicks(g.picks, Min(form.maxMolecules, |pool|), |pool|)
  }

  /** BioNeMo's dispatch when asked for and configured, the fallback otherwise. */
  function Generated(form: StructureForm, g: GeneratorInputs): Result<seq<string>, string>
    requires ValidGeneratorPicks(form, g)
  {
    if form.useBionemo && TruthyText(g.endpoint)
    then Bionemo.GenerateMolecules(form.maxMolecules, g.endpoint, g.apiKey, g.remote, g.picks)
    else Bionemo.GenerateFallbackMolecules(form.maxMolecules, g.picks)
  }

  /** The tag of the i-th generated molecule. */
  function GenTag(i: nat): string {
    "gen_" + NatToString(i)
  }

  function StructureRecord(runId: string, i: nat, smiles: string, x: MoleculeInputs): MoleculeRecord
    requires ValidInput(x)
  {
    var props := RdkitUtils.CalculateProperties(smiles, x.rdkit, x.draws);
    var m := WithProperties(NewMolecule(smiles).(molId := Some(GenTag(i))), props)
             .(dockingScore := Some(Docking.FallbackScore(smiles, x.noise, x.offset)));
    WithRenders(m, runId, i, x.render)
  }

  function StructureRecords(runId: string, gen: seq<string>, inputs: seq<MoleculeInputs>): (r: seq<MoleculeRecord>)
    requires |inputs| == |gen| && ValidInputs(inputs)
    ensures |r| == |gen| && forall i :: 0 <= i < |gen| ==> r[i] == StructureRecord(runId, i, gen[i], inputs[i])
  {
    seq(|gen|, i requires 0 <= i < |gen| => StructureRecord(runId, i, gen[i], inputs[i]))
  }

  /** `docking_score or 0`, ascending: the best (most negative) score first. */
  function DockKey(m: MoleculeRecord): real {
    m.dockingScore.GetOr(0.0)
  }

  function StructureOutput(runId: string, gen: seq<string>, inputs: seq<MoleculeInputs>): seq<MoleculeRecord>
    requires |inputs| == |gen| && ValidInputs(inputs)
  {
    Seqs.SortBy(StructureRecords(runId, gen, inputs), DockKey)
  }

  /** What the structure flow needs of its inputs: a valid sample draw and one
      input per generated molecule. */
  predicate StructureInputsFit(form: StructureForm, g: GeneratorInputs, inputs: seq<MoleculeInputs>) {
    ValidGeneratorPicks(form, g) && ValidInputs(inputs) &&
    (Generated(form, g).Ok? ==> |inputs| == |Generated(form, g).value|)
  }

  /** The outcome once the protein is saved, given what the generator
      returned: its error, or every molecule scored, sorted and written. */
  function OutcomeOf(runId: string, gen: Result<seq<string>, string>, inputs: seq<MoleculeInputs>): RunRecord
    requires ValidInputs(inputs) && (gen.Ok? ==> |inputs| == |gen.value|)
  {
    match gen
    case Err(e) => FailedRun(e)
    case Ok(list) => RunRecord(Completed, 100, StructureOutput(runId, list, inputs),
                               Some(SmiPath(runId)), Some(Protein.StructurePath(runId)), None)
  }

  /** The stores from progress 30 on, given what the generator returned. */
  function TraceOf(runId: string, gen: Result<seq<string>, string>, inputs: seq<MoleculeInputs>): seq<(string, RunRecord)>
    requires ValidInputs(inputs) && (gen.Ok? ==> |inputs| == |gen.value|)
  {
    var final := OutcomeOf(runId, gen, inputs);
    if gen.Err? then [(runId, StartedRun().(progress := 30)), (runId, final)]
    else [(runId, StartedRun().(progress := 30)), (runId, StartedRun().(progress := 60)),
          (runId, StartedRun().(progress := 90)), (runId, final)]
  }

  /** The endpoint's reply for a run that ended in OutcomeOf(runId, gen, inputs). */
  function OutcomeReply(runId: string, gen: Result<seq<string>, string>, inputs: seq<MoleculeInputs>): Result<GenerationResponse, HttpError>
    requires ValidInputs(inputs) && (gen.Ok? ==> |inputs| == |gen.value|)
  {
    var final := OutcomeOf(runId, gen, inputs);
    RunReply(final, runId, "Successfully generated " + NatToString(|final.molecules|) + " molecules",
             "Structure generation failed: ")
  }

  /** molecules.smi is written only when generation succeeded. */
  function FilesAfter(files: map<string, string>, runId: string, gen: Result<seq<string>, string>,
                      inputs: seq<MoleculeInputs>): map<string, string>
    requires ValidInputs(inputs) && (gen.Ok? ==> |inputs| == |gen.value|)
  {
    if gen.Ok? then files[SmiPath(runId) := SmiText(StructureOutput(runId, gen.value, inputs), false)] else files
  }

  /** The stores after progress 30 on a successful generation, one by one. */
  lemma TraceTail(w0: seq<(string, RunRecord)>, runId: string, gen: seq<string>, inputs: seq<MoleculeInputs>)
    requires ValidInputs(inputs) && |inputs| == |gen|
    ensures w0 + [(runId, StartedRun().(progress := 60))] + [(runId, StartedRun().(progress := 90))]
              + [(runId, OutcomeOf(runId, Ok(gen), inputs))] == w0 + TraceOf(runId, Ok(gen), inputs)[1..]
  {
  }

  /** The progress-30 store followed by the rest of the trace. */
  lemma TraceHead(w0: seq<(string, RunRecord)>, runId: string, gen: Result<seq<string>, string>,
                  inputs: seq<MoleculeInputs>)
    requires ValidInputs(inputs) && (gen.Ok? ==> |inputs| == |gen.value|)
    ensures w0 + [(runId, StartedRun().(progress := 30))] + TraceOf(runId, gen, inputs)[1..]
            == w0 + TraceOf(runId, gen, inputs)
  {
  }

  function GeneratedFinal(form: StructureForm, runId: string, g: GeneratorInputs,
                          inputs: seq<MoleculeInputs>): RunRecord
    requires StructureInputsFit(form, g, inputs)
  {
    OutcomeOf(runId, Generated(form, g), inputs)
  }

  function StructureFinal(form: StructureForm, runId: string, ps: ProteinSources, g: GeneratorInputs,
                          inputs: seq<MoleculeInputs>): RunRecord
    requires StructureInputsFit(form, g, inputs)
  {
    match ObtainProtein(form, ps)
    case Err(e) => FailedRun(e)
    case Ok(_) => GeneratedFinal(form, runId, g, inputs)
  }

  function GeneratedTrace(form: StructureForm, runId: string, g: GeneratorInputs,
                          inputs: seq<MoleculeInputs>): seq<(string, RunRecord)>
    requires StructureInputsFit(form, g, inputs)
  {
    TraceOf(runId, Generated(form, g), inputs)
  }

  function StructureTrace(form: StructureForm, runId: string, ps: ProteinSources, g: GeneratorInputs,
                          inputs: seq<MoleculeInputs>): seq<(string, RunRecord)>
    requires StructureInputsFit(form, g, inputs)
  {
    var final := StructureFinal(form, runId, ps, g, inputs);
    if ObtainProtein(form, ps).Err? then [(runId, StartedRun()), (runId, final)]
    else [(runId, StartedRun())] + GeneratedTrace(form, runId, g, inputs)
  }

  /** The start store followed by the stores made once the protein is known. */
  lemma StructureTraceSplit(w0: seq<(string, RunRecord)>, form: StructureForm, runId: string, ps: ProteinSources,
                            g: GeneratorInputs, inputs: seq<MoleculeInputs>)
    requires StructureInputsFit(form, g, inputs) && ObtainProtein(form, ps).Ok?
    ensures w0 + [(runId, StartedRun())] + GeneratedTrace(form, runId, g, inputs)
            == w0 + StructureTrace(form, runId, ps, g, inputs)
  {
  }

  function StructureReply(form: StructureForm, runId: string, ps: ProteinSources, g: GeneratorInputs,
                          inputs: seq<MoleculeInputs>): Result<GenerationResponse, HttpError>
    requires StructureInputsFit(form, g, inputs)
  {
    var final := StructureFinal(form, runId, ps, g, inputs);
    RunReply(final, runId, "Successfully generated " + NatToString(|final.molecules|) + " molecules",
             "Structure generation failed: ")
  }

  // ---------------------------------------------------------------------------
  // Properties of the structure outcome.

  /** Every generated molecule is kept, tagged `gen_<i>` with distinct tags,
      scored by the fallback docking score, and the list is sorted by score,
      lowest first, stably. */
  lemma StructureOutputFacts(runId: string, gen: seq<string>, inputs: seq<MoleculeInputs>)
    requires |inputs| == |gen| && ValidInputs(inputs)
    ensures var out, recs := StructureOutput(runId, gen, inputs), StructureRecords(runId, gen, inputs);
      |out| == |gen| && multiset(out) == multiset(recs) &&
      (forall i, j :: 0 <= i < j < |out| ==> DockKey(out[i]) <= DockKey(out[j])) &&
      (forall v :: Seqs.KeyClass(out, DockKey, v) == Seqs.KeyClass(recs, DockKey, v)) &&
      (forall i, j :: 0 <= i < j < |recs| ==> recs[i].molId != recs[j].molId) &&
      (forall m :: m in out ==> m.dockingScore.Some? && -22.0 <= m.dockingScore.value <= -3.0)
  {
    var recs := StructureRecords(runId, gen, inputs);
    var out := StructureOutput(runId, gen, inputs);
    Seqs.SortByPermutation(recs, DockKey);
    Seqs.SortByStable(recs, DockKey);
    forall i, j | 0 <= i < j < |recs| ensures recs[i].molId != recs[j].molId {
      TaggedDistinct("gen_", i, j);
    }
    forall m | m in out ensures m.dockingScore.Some? && -22.0 <= m.dockingScore.value <= -3.0 {
      assert m in multiset(recs);
      var i :| 0 <= i < |recs| && recs[i] == m;
      Docking.FallbackScoreBounds(gen[i], inputs[i].noise, inputs[i].offset);
    }
  }

  lemma StructureTraceWellFormed(form: StructureForm, runId: string, ps: ProteinSources, g: GeneratorInputs,
                                 inputs: seq<MoleculeInputs>)
    requires StructureInputsFit(form, g, inputs)
    ensures WellFormedTrace(StructureTrace(form, runId, ps, g, inputs), runId)
    ensures var final := StructureFinal(form, runId, ps, g, inputs);
      final.status == Completed <==> ObtainProtein(form, ps).Ok? && Generated(form, g).Ok?
    ensures ObtainProtein(form, ps).Ok? && Generated(form, g).Ok? ==>
      |StructureTrace(form, runId, ps, g, inputs)| == 5
  {
    if ObtainProtein(form, ps).Ok? {
      OutcomeTraceWellFormed(runId, Generated(form, g), inputs);
    }
  }

  /** Once the protein is known, the trace is well formed whatever the generator returned. */
  lemma OutcomeTraceWellFormed(runId: string, gen: Result<seq<string>, string>, inputs: seq<MoleculeInputs>)
    requires ValidInputs(inputs) && (gen.Ok? ==> |inputs| == |gen.value|)
    ensures WellFormedTrace([(runId, StartedRun())] + TraceOf(runId, gen, inputs), runId)
    ensures OutcomeOf(runId, gen, inputs).status == Completed <==> gen.Ok?
    ensures gen.Ok? ==> |TraceOf(runId, gen, inputs)| == 4
  {
    var final := OutcomeOf(runId, gen, inputs);
    if gen.Ok? {
      StepsWellFormed(runId, [10, 30, 60, 90], final);
      assert Steps(runId, [10, 30, 60, 90]) + [(runId, final)] == [(runId, StartedRun())] + TraceOf(runId, gen, inputs);
    } else {
      StepsWellFormed(runId, [10, 30], final);
      assert Steps(runId, [10, 30]) + [(runId, final)] == [(runId, StartedRun())] + TraceOf(runId, gen, inputs);
    }
  }

  /** A negative count reaches `random.sample` on the fallback path and fails
      the run. The browser's form never sends one (`Api.CountFieldValid`): only
      a client that posts the form itself reaches this failure. */
  lemma NegativeCountFails(form: StructureForm, runId: string, ps: ProteinSources, g: GeneratorInputs,
                           inputs: seq<MoleculeInputs>)
    requires StructureInputsFit(form, g, inputs) && form.maxMolecules < 0
    requires ObtainProtein(form, ps).Ok? && !(form.useBionemo && TruthyText(g.endpoint))
    ensures StructureFinal(form, runId, ps, g, inputs) == FailedRun(Bionemo.SampleError)
  {
  }

  // ---------------------------------------------------------------------------
  // Status lookup.

  function StatusOf(runs: map<string, RunRecord>, runId: string): (r: Result<GenerationResponse, HttpError>)
    ensures r.Err? <==> runId !in runs
    ensures r.Err? ==> r.error == HttpError(404, "Run not found")
    ensures r.Ok? ==> r.value.runId == runId && r.value.status == runs[runId].status &&
                      r.value.molecules == runs[runId].molecules && r.value.progress == Some(runs[runId].progress as int)
  {
    if runId !in runs then Err(HttpError(404, "Run not found"))
    else
      var rec := runs[runId];
      Ok(GenerationResponse(runId, rec.status,
                            "Run " + rec.status.Text() + " (" + NatToString(rec.progress) + "%)",
                            rec.molecules, Some(rec.progress)))
  }

  // ---------------------------------------------------------------------------
  // The per-molecule loops of the two flows.

  /** The TTD loop: properties for every considered molecule; a kept one gets
      the run directory created and its artifact paths. */
  method OptimizeTtdCandidates(store: Config.ArtifactStore, req: TtdRequest, runId: string,
                               work: seq<MoleculeRecord>, inputs: seq<MoleculeInputs>)
    returns (optimized: seq<MoleculeRecord>)
    requires |inputs| == |work| && ValidInputs(inputs)
    modifies store
    ensures optimized == Seqs.Select(TtdAnnotated(runId, work, inputs), TtdMask(req, TtdAnnotated(runId, work, inputs)))
    ensures store.dirs == old(store.dirs) + (if optimized != [] then {Config.RunDir(runId)} else {})
    ensures store.files == old(store.files)
  {
    ghost var annotated := TtdAnnotated(runId, work, inputs);
    ghost var mask := TtdMask(req, annotated);
    optimized := [];
    var i := 0;
    while i < |work|
      modifies store
      invariant 0 <= i <= |work|
      invariant optimized == Seqs.Select(annotated[..i], mask[..i])
      invariant store.dirs == old(store.dirs) + (if optimized != [] then {Config.RunDir(runId)} else {})
      invariant store.files == old(store.files)
    {
      Seqs.SelectStep(annotated, mask, i);
      var props := RdkitUtils.CalculateProperties(work[i].smiles, inputs[i].rdkit, inputs[i].draws);
      var mol := WithProperties(work[i], props);
      if TruthyReal(mol.qedScore) && mol.qedScore.value >= req.qedThreshold &&
         TruthyReal(mol.logp) && req.logpRange.0 <= mol.logp.value <= req.logpRange.1 &&
         TruthyReal(mol.molecularWeight) && req.mwRange.0 <= mol.molecularWeight.value <= req.mwRange.1 {
        store.MakeDir(Config.RunDir(runId));
        if inputs[i].render.png {
          mol := mol.(pngPath := Some(ArtifactPath(runId, i, ".png")));
        }
        if inputs[i].render.sdf {
          mol := mol.(sdfPath := Some(ArtifactPath(runId, i, ".sdf")));
        }
        assert mol == annotated[i];
        optimized := optimized + [mol];
      } else {
        assert !mask[i];
      }
      i := i + 1;
    }
    assert annotated[..i] == annotated && mask[..i] == mask;
  }

  /** The structure loop: every generated molecule is scored, docked and
      rendered into the (already existing) run directory. */
  method ProcessGenerated(store: Config.ArtifactStore, runId: string, protein: string, smilesList: seq<string>,
                          sminaAvailable: bool, vinaAvailable: bool, inputs: seq<MoleculeInputs>)
    returns (processed: seq<MoleculeRecord>)
    requires |inputs| == |smilesList| && ValidInputs(inputs)
    requires Config.RunDir(runId) in store.dirs
    modifies store
    ensures processed == StructureRecords(runId, smilesList, inputs)
    ensures store.dirs == old(store.dirs) && store.files == old(store.files)
  {
    processed := [];
    var i := 0;
    while i < |smilesList|
      modifies store
      invariant 0 <= i <= |smilesList|
      invariant processed == StructureRecords(runId, smilesList, inputs)[..i]
      invariant store.dirs == old(store.dirs) && store.files == old(store.files)
    {
      var smiles := smilesList[i];
      var props := RdkitUtils.CalculateProperties(smiles, inputs[i].rdkit, inputs[i].draws);
      var score := Docking.DockMolecule(smiles, protein, sminaAvailable, vinaAvailable,
                                        inputs[i].noise, inputs[i].offset);
      var mol := WithProperties(NewMolecule(smiles).(molId := Some("gen_" + NatToString(i))), props)
                 .(dockingScore := Some(score));
      store.MakeDir(Config.RunDir(runId));
      if inputs[i].render.png {
        mol := mol.(pngPath := Some(ArtifactPath(runId, i, ".png")));
      }
      if inputs[i].render.sdf {
        mol := mol.(sdfPath := Some(ArtifactPath(runId, i, ".sdf")));
      }
      assert mol == StructureRecord(runId, i, smiles, inputs[i]);
      processed := processed + [mol];
      i := i + 1;
    }
  }

  /** The generator the structure endpoint calls: BioNeMo when asked for and
      configured, the built-in list otherwise. */
  method RunGenerator(form: StructureForm, g: GeneratorInputs) returns (generated: Result<seq<string>, string>)
    requires ValidGeneratorPicks(form, g)
    ensures generated == Generated(form, g)
  {
    if form.useBionemo && TruthyText(g.endpoint) {
      generated := Bionemo.GenerateMolecules(form.maxMolecules, g.endpoint, g.apiKey, g.remote, g.picks);
    } else {
      generated := Bionemo.GenerateFallbackMolecules(form.maxMolecules, g.picks);
    }
  }

  // ---------------------------------------------------------------------------
  // The registry.

  /** Storing twice under one key keeps the second value only. */
  lemma MapOverwrite<K, V>(m: map<K, V>, k: K, a: V, b: V)
    ensures m[k := a][k := b] == m[k := b]
  {
  }

  /** `active_runs`: run id to record, in insertion order. */
  class RunRegistry {
    var runs: map<string, RunRecord>
    var order: seq<string>
    /** Every store into the registry, in order. */
    ghost var writes: seq<(string, RunRecord)>

    ghost predicate Valid()
      reads this
    {
      (forall i, j :: 0 <= i < j < |order| ==> order[i] != order[j]) &&
      (forall id :: id in runs <==> id in order)
    }

    constructor ()
      ensures Valid() && runs == map[] && order == [] && writes == []
    {
      runs := map[];
      order := [];
      writes := [];
    }

    /** `active_runs[id] = rec`: a new id goes to the end of the order. */
    method Put(id: string, rec: RunRecord)
      requires Valid()
      modifies this
      ensures Valid()
      ensures runs == old(runs)[id := rec]
      ensures order == if id in old(runs) then old(order) else old(order) + [id]
      ensures writes == old(writes) + [(id, rec)]
    {
      if id !in runs {
        order := order + [id];
      }
      runs := runs[id := rec];
      writes := writes + [(id, rec)];
    }

    /** `active_runs[id]["progress"] = p`. */
    method SetProgress(id: string, p: nat)
      requires Valid() && id in runs
      modifies this
      ensures Valid()
      ensures runs == old(runs)[id := old(runs)[id].(progress := p)]
      ensures order == old(order)
      ensures writes == old(writes) + [(id, old(runs)[id].(progress := p))]
    {
      Put(id, runs[id].(progress := p));
    }

    function Status(runId: string): (r: Result<GenerationResponse, HttpError>)
      reads this
      ensures r == StatusOf(runs, runId)
    {
      StatusOf(runs, runId)
    }

    /** The TTD flow, step by step as the endpoint runs it. The outcome depends
        on whether the run directory existed beforehand. */
    method GenerateTtd(store: Config.ArtifactStore, req: TtdRequest, runId: string, src: TtdSource,
                       inputs: seq<MoleculeInputs>) returns (reply: Result<GenerationResponse, HttpError>)
      requires Valid() && ValidTtdRequest(req) && TtdInputsFit(TtdWork(req, src), inputs)
      modifies this, store
      ensures Valid()
      ensures order == if runId in old(runs) then old(order) else old(order) + [runId]
      ensures var work, existed := TtdWork(req, src), Config.RunDir(runId) in old(store.dirs);
        var final := TtdFinal(req, runId, work, inputs, existed);
        runs == old(runs)[runId := final] && writes == old(writes) + TtdTrace(runId, final) &&
        reply == TtdReply(req, runId, work, inputs, existed) &&
        store.dirs == TtdDirs(old(store.dirs), req, runId, work, inputs) &&
        store.files == TtdFiles(old(store.files), req, runId, work, inputs, existed)
    {
      ghost var w0, r0 := writes, runs;
      var work := StartTtd(req, runId, src);
      reply := ProcessTtd(store, req, runId, work, inputs);
      ghost var final := TtdFinal(req, runId, work, inputs, Config.RunDir(runId) in old(store.dirs));
      MapOverwrite(r0, runId, StartedRun().(progress := 30), final);
      TtdTraceSplit(w0, runId, final);
    }

    /** The first part of the TTD flow: register the run, fetch the TTD
        molecules (or the built-in ones) and cut them to `max_molecules`. */
    method StartTtd(req: TtdRequest, runId: string, src: TtdSource) returns (work: seq<MoleculeRecord>)
      requires Valid() && ValidTtdRequest(req)
      modifies this
      ensures Valid() && work == TtdWork(req, src)
      ensures order == if runId in old(runs) then old(order) else old(order) + [runId]
      ensures runs == old(runs)[runId := StartedRun().(progress := 30)]
      ensures writes == old(writes) + [(runId, StartedRun()), (runId, StartedRun().(progress := 30))]
    {
      Put(runId, StartedRun());
      var fetched := Ttd.GetMoleculesByUniprot(req.uniprotId, src.baseUrl, src.apiKey, src.reply, src.file);
      assert fetched == TtdFetched(req, src);
      var candidates := fetched;
      if candidates == [] {
        candidates := FallbackCandidates(req.maxMolecules);
      }
      SetProgress(runId, 30);
      work := SliceTo(candidates, req.maxMolecules);
    }

    /** The rest of the TTD flow: filter, sort, write molecules.smi, record the outcome. */
    method ProcessTtd(store: Config.ArtifactStore, req: TtdRequest, runId: string, work: seq<MoleculeRecord>,
                      inputs: seq<MoleculeInputs>) returns (reply: Result<GenerationResponse, HttpError>)
      requires Valid() && TtdInputsFit(work, inputs)
      requires runId in runs && runs[runId] == StartedRun().(progress := 30)
      modifies this, store
      ensures Valid() && order == old(order)
      ensures var final := TtdFinal(req, runId, work, inputs, Config.RunDir(runId) in old(store.dirs));
        runs == old(runs)[runId := final] &&
        writes == old(writes) + [(runId, StartedRun().(progress := 90)), (runId, final)]
      ensures reply == TtdReply(req, runId, work, inputs, Config.RunDir(runId) in old(store.dirs))
      ensures store.dirs == TtdDirs(old(store.dirs), req, runId, work, inputs)
      ensures store.files == TtdFiles(old(store.files), req, runId, work, inputs, Config.RunDir(runId) in old(store.dirs))
    {
      ghost var dirExisted := Config.RunDir(runId) in store.dirs;
      var optimized := OptimizeTtdCandidates(store, req, runId, work, inputs);
      reply := FinishTtd(store, req, runId, work, inputs, dirExisted, optimized);
    }

    /** Sort the kept molecules, write molecules.smi into the run directory
        (which exists iff it existed before or a molecule was kept) and
        record the outcome. */
    method FinishTtd(store: Config.ArtifactStore, req: TtdRequest, runId: string, work: seq<MoleculeRecord>,
                     inputs: seq<MoleculeInputs>, ghost dirExisted: bool, optimized: seq<MoleculeRecord>)
      returns (reply: Result<GenerationResponse, HttpError>)
      requires Valid() && TtdInputsFit(work, inputs) && optimized == TtdKept(req, runId, work, inputs)
      requires runId in runs && runs[runId] == StartedRun().(progress := 30)
      requires Config.RunDir(runId) in store.dirs <==> dirExisted || optimized != []
      modifies this, store
      ensures Valid() && order == old(order)
      ensures var final := TtdFinal(req, runId, work, inputs, dirExisted);
        runs == old(runs)[runId := final] &&
        writes == old(writes) + [(runId, StartedRun().(progress := 90)), (runId, final)]
      ensures reply == TtdReply(req, runId, work, inputs, dirExisted)
      ensures store.dirs == old(store.dirs)
      ensures store.files ==
                if TtdSmiWritable(req, runId, work, inputs, dirExisted)
                then old(store.files)[SmiPath(runId) := SmiText(TtdOutput(req, runId, work, inputs), true)]
                else old(store.files)
    {
      ghost var final := TtdFinal(req, runId, work, inputs, dirExisted);
      ghost var r0 := runs;
      SetProgress(runId, 90);
      var sorted := Seqs.SortBy(optimized, QedDescKey);
      var ok := store.WriteText(Config.RunDir(runId), "molecules.smi", SmiText(sorted, true));
      if !ok {
        var err := MissingDirError(SmiPath(runId));
        assert final == FailedRun(err);
        Put(runId, FailedRun(err));
        MapOverwrite(r0, runId, StartedRun().(progress := 90), final);
        reply := Err(HttpError(500, "TTD generation failed: " + err));
        return;
      }
      var rec := RunRecord(Completed, 100, sorted, Some(SmiPath(runId)), None, None);
      assert final == rec;
      Put(runId, rec);
      MapOverwrite(r0, runId, StartedRun().(progress := 90), final);
      reply := Ok(GenerationResponse(runId, Completed,
                 "Successfully optimized " + NatToString(|sorted|) + " molecules for UniProt " + req.uniprotId,
                 sorted, Some(100)));
    }

    /** The structure flow, step by step as the endpoint runs it. */
    method GenerateStructure(store: Config.ArtifactStore, form: StructureForm, runId: string, ps: ProteinSources,
                             g: GeneratorInputs, sminaAvailable: bool, vinaAvailable: bool,
                             inputs: seq<MoleculeInputs>) returns (reply: Result<GenerationResponse, HttpError>)
      requires Valid() && StructureInputsFit(form, g, inputs)
      modifies this, store
      ensures Valid()
      ensures order == if runId in old(runs) then old(order) else old(order) + [runId]
      ensures runs == old(runs)[runId := StructureFinal(form, runId, ps, g, inputs)]
      ensures writes == old(writes) + StructureTrace(form, runId, ps, g, inputs)
      ensures reply == StructureReply(form, runId, ps, g, inputs)
      ensures ObtainProtein(form, ps).Err? ==> store.dirs == old(store.dirs) && store.files == old(store.files)
      ensures ObtainProtein(form, ps).Ok? ==>
        store.dirs == old(store.dirs) + {Config.RunDir(runId)} &&
        store.files == FilesAfter(old(store.files)[Protein.StructurePath(runId) := ObtainProtein(form, ps).value],
                                  runId, Generated(form, g), inputs)
    {
      ghost var w0, r0 := writes, runs;
      Put(runId, StartedRun());
      var protein := ObtainProtein(form, ps);
      if protein.Err? {
        Put(runId, FailedRun(protein.error));
        MapOverwrite(r0, runId, StartedRun(), FailedRun(protein.error));
        reply := Err(HttpError(500, "Structure generation failed: " + protein.error));
        return;
      }
      reply := ContinueStructure(store, form, runId, protein.value, g, sminaAvailable, vinaAvailable, inputs);
      MapOverwrite(r0, runId, StartedRun(), GeneratedFinal(form, runId, g, inputs));
      StructureTraceSplit(w0, form, runId, ps, g, inputs);
    }

    /** The structure flow once the protein is known: save it, then generate. */
    method ContinueStructure(store: Config.ArtifactStore, form: StructureForm, runId: string, protein: string,
                             g: GeneratorInputs, sminaAvailable: bool, vinaAvailable: bool,
                             inputs: seq<MoleculeInputs>) returns (reply: Result<GenerationResponse, HttpError>)
      requires Valid() && StructureInputsFit(form, g, inputs)
      requires runId in runs && runs[runId] == StartedRun()
      modifies this, store
      ensures Valid() && order == old(order)
      ensures var gen := Generated(form, g);
        runs == old(runs)[runId := OutcomeOf(runId, gen, inputs)] &&
        writes == old(writes) + TraceOf(runId, gen, inputs) &&
        reply == OutcomeReply(runId, gen, inputs) &&
        store.files == FilesAfter(old(store.files)[Protein.StructurePath(runId) := protein], runId, gen, inputs)
      ensures store.dirs == old(store.dirs) + {Config.RunDir(runId)}
    {
      ghost var w0, r0 := writes, runs;
      SetProgress(runId, 30);
      var proteinPath := Protein.SaveStructureToFile(store, protein, runId);
      var generated := RunGenerator(form, g);
      reply := CompleteStructure(store, runId, protein, proteinPath, generated, sminaAvailable, vinaAvailable, inputs);
      MapOverwrite(r0, runId, StartedRun().(progress := 30), OutcomeOf(runId, generated, inputs));
      TraceHead(w0, runId, generated, inputs);
    }

    /** After generation: record the generator's error, or go on to scoring. */
    method CompleteStructure(store: Config.ArtifactStore, runId: string, protein: string, proteinPath: string,
                             generated: Result<seq<string>, string>, sminaAvailable: bool, vinaAvailable: bool,
                             inputs: seq<MoleculeInputs>) returns (reply: Result<GenerationResponse, HttpError>)
      requires Valid() && ValidInputs(inputs) && (generated.Ok? ==> |inputs| == |generated.value|)
      requires runId in runs && runs[runId] == StartedRun().(progress := 30)
      requires Config.RunDir(runId) in store.dirs && proteinPath == Protein.StructurePath(runId)
      modifies this, store
      ensures Valid() && order == old(order)
      ensures runs == old(runs)[runId := OutcomeOf(runId, generated, inputs)]
      ensures writes == old(writes) + TraceOf(runId, generated, inputs)[1..]
      ensures reply == OutcomeReply(runId, generated, inputs)
      ensures store.dirs == old(store.dirs)
      ensures store.files == FilesAfter(old(store.files), runId, generated, inputs)
    {
      if generated.Err? {
        Put(runId, FailedRun(generated.error));
        reply := Err(HttpError(500, "Structure generation failed: " + generated.error));
        return;
      }
      reply := FinishStructure(store, runId, protein, proteinPath, generated.value, sminaAvailable, vinaAvailable, inputs);
    }

    /** The second half of the structure flow: score every generated molecule,
        sort, write molecules.smi, record the outcome. */
    method FinishStructure(store: Config.ArtifactStore, runId: string, protein: string, proteinPath: string,
                           smilesList: seq<string>, sminaAvailable: bool, vinaAvailable: bool,
                           inputs: seq<MoleculeInputs>) returns (reply: Result<GenerationResponse, HttpError>)
      requires Valid() && |inputs| == |smilesList| && ValidInputs(inputs)
      requires runId in runs && runs[runId] == StartedRun().(progress := 30)
      requires Config.RunDir(runId) in store.dirs && proteinPath == Protein.StructurePath(runId)
      modifies this, store
      ensures Valid() && order == old(order)
      ensures runs == old(runs)[runId := OutcomeOf(runId, Ok(smilesList), inputs)]
      ensures writes == old(writes) + TraceOf(runId, Ok(smilesList), inputs)[1..]
      ensures reply == OutcomeReply(runId, Ok(smilesList), inputs)
      ensures store.dirs == old(store.dirs)
      ensures store.files == FilesAfter(old(store.files), runId, Ok(smilesList), inputs)
    {
      ghost var w0, r0 := writes, runs;
      SetProgress(runId, 60);
      var processed := ProcessGenerated(store, runId, protein, smilesList, sminaAvailable, vinaAvailable, inputs);
      SetProgress(runId, 90);
      var sorted := Seqs.SortBy(processed, DockKey);
      var ok := store.WriteText(Config.RunDir(runId), "molecules.smi", SmiText(sorted, false));
      assert ok;
      var rec := RunRecord(Completed, 100, sorted, Some(SmiPath(runId)), Some(proteinPath), None);
      assert rec == OutcomeOf(runId, Ok(smilesList), inputs);
      Put(runId, rec);
      MapOverwrite(r0[runId := StartedRun().(progress := 60)], runId, StartedRun().(progress := 90), rec);
      MapOverwrite(r0, runId, StartedRun().(progress := 60), rec);
      TraceTail(w0, runId, smilesList, inputs);
      reply := Ok(GenerationResponse(runId, Completed, "Successfully generated " + NatToString(|sorted|) + " molecules",
                                     sorted, Some(100)));
    }
  }
}
