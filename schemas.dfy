/** The request, record and response types of the API and their field bounds. */
module Schemas {
  import opened Common

  /** Run status; on the wire it is the lower-case value text. */
  datatype GenerationStatus = Pending | Running | Completed | Failed {
    function Text(): string {
      match this
      case Pending => "pending"
      case Running => "running"
      case Completed => "completed"
      case Failed => "failed"
    }
  }

  function ParseStatus(s: string): Option<GenerationStatus> {
    if s == "pending" then Some(Pending)
    else if s == "running" then Some(Running)
    else if s == "completed" then Some(Completed)
    else if s == "failed" then Some(Failed)
    else None
  }

  /** Every status has its own text, and the text names exactly that status. */
  lemma StatusTextRoundTrip(st: GenerationStatus, s: string)
    ensures ParseStatus(st.Text()) == Some(st)
    ensures ParseStatus(s).Some? ==> ParseStatus(s).value.Text() == s
  {
    match st
    case Pending =>
    case Running =>
    case Completed =>
    case Failed =>
  }

  /** A molecule and whatever has been computed about it so far. */
  datatype MoleculeRecord = MoleculeRecord(
    smiles: string,
    molId: Option<string>,
    name: Option<string>,
    qedScore: Option<real>,
    logp: Option<real>,
    molecularWeight: Option<real>,
    tpsa: Option<real>,
    hbd: Option<int>,
    hba: Option<int>,
    rotatableBonds: Option<int>,
    dockingScore: Option<real>,
    pngPath: Option<string>,
    sdfPath: Option<string>)

  /** `MoleculeRecord(smiles=s)`: only the SMILES is required. */
  function NewMolecule(smiles: string): (m: MoleculeRecord)
    ensures m.smiles == smiles
    ensures m.molId.None? && m.name.None? && m.qedScore.None? && m.logp.None?
    ensures m.molecularWeight.None? && m.tpsa.None? && m.hbd.None? && m.hba.None?
    ensures m.rotatableBonds.None? && m.dockingScore.None? && m.pngPath.None? && m.sdfPath.None?
  {
    MoleculeRecord(smiles, None, None, None, None, None, None, None, None, None, None, None, None)
  }

  // ---------------------------------------------------------------------------
  // TTDRequest

  datatype TtdRequest = TtdRequest(
    uniprotId: string,
    maxMolecules: int,
    qedThreshold: real,
    logpRange: (real, real),
    mwRange: (real, real))

  /** A request body as sent: a missing field is None. */
  datatype TtdRequestBody = TtdRequestBody(
    uniprotId: Option<string>,
    maxMolecules: Option<int>,
    qedThreshold: Option<real>,
    logpRange: Option<(real, real)>,
    mwRange: Option<(real, real)>)

  const DefaultMaxMolecules: int := 10
  const DefaultQedThreshold: real := 0.5
  const DefaultLogpRange: (real, real) := (-2.0, 5.0)
  const DefaultMwRange: (real, real) := (200.0, 500.0)

  predicate MaxMoleculesInBounds(n: int) { 1 <= n <= 20 }
  predicate QedThresholdInBounds(q: real) { 0.0 <= q <= 1.0 }

  predicate ValidTtdRequest(r: TtdRequest) {
    MaxMoleculesInBounds(r.maxMolecules) && QedThresholdInBounds(r.qedThreshold)
  }

  /** Validation: the names of the offending fields, in declaration order. */
  function TtdRequestErrors(b: TtdRequestBody): seq<string> {
    (if b.uniprotId.None? then ["uniprot_id"] else []) +
    (if !MaxMoleculesInBounds(b.maxMolecules.GetOr(DefaultMaxMolecules)) then ["max_molecules"] else []) +
    (if !QedThresholdInBounds(b.qedThreshold.GetOr(DefaultQedThreshold)) then ["qed_threshold"] else [])
  }

  /** Pydantic's parse of a TTD request: defaults fill missing optional fields,
      the bounds are inclusive, nothing relates the two ends of a range. */
  function ParseTtdRequest(b: TtdRequestBody): (r: Result<TtdRequest, seq<string>>)
    ensures r.Ok? <==> b.uniprotId.Some? &&
                       MaxMoleculesInBounds(b.maxMolecules.GetOr(DefaultMaxMolecules)) &&
                       QedThresholdInBounds(b.qedThreshold.GetOr(DefaultQedThreshold))
    ensures r.Ok? ==> ValidTtdRequest(r.value) &&
                      r.value.uniprotId == b.uniprotId.value &&
                      r.value.maxMolecules == b.maxMolecules.GetOr(DefaultMaxMolecules) &&
                      r.value.qedThreshold == b.qedThreshold.GetOr(DefaultQedThreshold) &&
                      r.value.logpRange == b.logpRange.GetOr(DefaultLogpRange) &&
                      r.value.mwRange == b.mwRange.GetOr(DefaultMwRange)
    ensures r.Err? ==> |r.error| > 0
  {
    var errs := TtdRequestErrors(b);
    if errs != [] then Err(errs)
    else Ok(TtdRequest(b.uniprotId.value, b.maxMolecules.GetOr(DefaultMaxMolecules),
                       b.qedThreshold.GetOr(DefaultQedThreshold),
                       b.logpRange.GetOr(DefaultLogpRange), b.mwRange.GetOr(DefaultMwRange)))
  }

  /** A body naming only the target gets every default, and an inverted range is accepted. */
  lemma TtdRequestDefaults(uniprotId: string, lo: real, hi: real)
    requires lo > hi
    ensures ParseTtdRequest(TtdRequestBody(Some(uniprotId), None, None, None, None)) ==
            Ok(TtdRequest(uniprotId, 10, 0.5, (-2.0, 5.0), (200.0, 500.0)))
    ensures ParseTtdRequest(TtdRequestBody(Some(uniprotId), None, None, Some((lo, hi)), None)).Ok?
  {
  }

  // ---------------------------------------------------------------------------
  // StructureRequest

  datatype StructureRequest = StructureRequest(
    proteinSource: string,
    uniprotId: Option<string>,
    pdbId: Option<string>,
    maxMolecules: int,
    useBionemo: bool)

  datatype StructureRequestBody = StructureRequestBody(
    proteinSource: Option<string>,
    uniprotId: Option<string>,
    pdbId: Option<string>,
    maxMolecules: Option<int>,
    useBionemo: Option<bool>)

  function ParseStructureRequest(b: StructureRequestBody): (r: Result<StructureRequest, seq<string>>)
    ensures r.Ok? <==> b.proteinSource.Some? && MaxMoleculesInBounds(b.maxMolecules.GetOr(DefaultMaxMolecules))
    ensures r.Ok? ==> r.value.proteinSource == b.proteinSource.value &&
                      r.value.uniprotId == b.uniprotId && r.value.pdbId == b.pdbId &&
                      r.value.maxMolecules == b.maxMolecules.GetOr(DefaultMaxMolecules) &&
                      MaxMoleculesInBounds(r.value.maxMolecules) &&
                      r.value.useBionemo == b.useBionemo.GetOr(true)
    ensures r.Err? ==> |r.error| > 0
  {
    var errs := (if b.proteinSource.None? then ["protein_source"] else []) +
                (if !MaxMoleculesInBounds(b.maxMolecules.GetOr(DefaultMaxMolecules)) then ["max_molecules"] else []);
    if errs != [] then Err(errs)
    else Ok(StructureRequest(b.proteinSource.value, b.uniprotId, b.pdbId,
                             b.maxMolecules.GetOr(DefaultMaxMolecules), b.useBionemo.GetOr(true)))
  }

  // ---------------------------------------------------------------------------
  // GenerationResponse

  datatype GenerationResponse = GenerationResponse(
    runId: string,
    status: GenerationStatus,
    message: string,
    molecules: seq<MoleculeRecord>,
    progress: Option<int>)

  /** A response built without molecules or progress has none. */
  function NewResponse(runId: string, status: GenerationStatus, message: string): (r: GenerationResponse)
    ensures r.runId == runId && r.status == status && r.message == message
    ensures r.molecules == [] && r.progress.None?
  {
    GenerationResponse(runId, status, message, [], None)
  }
}
