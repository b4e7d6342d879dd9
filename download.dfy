/** The download endpoints (backend/app/api/download.py): a fixed sequence of
    checks over the run registry and the artifacts directory, a dispatch on the
    requested file type, the first-match molecule lookup, the selection of files
    for a zip archive, and the run listing. */
module Download {
  import opened Common
  import opened Schemas
  import Config
  import Seqs
  import Generate

  // ---------------------------------------------------------------------------
  // What the endpoints observe of the disk.

  /** One entry of a directory scan: its base name and whether it is a regular file. */
  datatype Entry = Entry(name: string, isFile: bool)

  /** The paths that exist (files and directories alike) and, per directory,
      the entries a scan of it yields, in scan order. */
  datatype Disk = Disk(existing: set<string>, listing: map<string, seq<Entry>>) {
    function Scan(dir: string): seq<Entry> {
      if dir in listing then listing[dir] else []
    }
  }

  /** The glob patterns the endpoints use: `*` and `*<ext>`. */
  datatype Pattern = AnyName | Suffix(ext: string)

  predicate Matches(name: string, p: Pattern) {
    match p
    case AnyName => true
    case Suffix(ext) => EndsWith(name, ext)
  }

  /** What a successful request sends back. */
  datatype Reply =
    | FileReply(path: string, filename: string, mediaType: string)
      /** An `application/zip` body holding `members`, sent with `disposition`. */
    | ZipReply(members: seq<string>, disposition: string)
      /** The handler falls off its end: a 200 reply whose JSON body is `null`. */
    | NullReply

  // ---------------------------------------------------------------------------
  // Masks and names over a scan.

  function GlobMask(es: seq<Entry>, p: Pattern): (m: seq<bool>)
    ensures |m| == |es| && forall i :: 0 <= i < |es| ==> m[i] == Matches(es[i].name, p)
  {
    seq(|es|, i requires 0 <= i < |es| => Matches(es[i].name, p))
  }

  function FileMask(es: seq<Entry>): (m: seq<bool>)
    ensures |m| == |es| && forall i :: 0 <= i < |es| ==> m[i] == es[i].isFile
  {
    seq(|es|, i requires 0 <= i < |es| => es[i].isFile)
  }

  function Names(es: seq<Entry>): (r: seq<string>)
    ensures |r| == |es| && forall i :: 0 <= i < |es| ==> r[i] == es[i].name
  {
    seq(|es|, i requires 0 <= i < |es| => es[i].name)
  }

  /** `dir.glob(pattern)`: the scanned entries whose name matches, in scan order. */
  function Glob(disk: Disk, dir: string, p: Pattern): seq<Entry> {
    var es := disk.Scan(dir);
    Seqs.Select(es, GlobMask(es, p))
  }

  /** An entry is globbed exactly when the scan yields it and its name matches;
      the globbed entries keep the scan order. */
  lemma GlobExactly(disk: Disk, dir: string, p: Pattern)
    ensures var es, g, ix := disk.Scan(dir), Glob(disk, dir, p), Seqs.SetPositions(GlobMask(disk.Scan(dir), p));
      |g| == |ix| && Seqs.StrictlyIncreasing(ix) &&
      (forall j :: 0 <= j < |ix| ==> ix[j] < |es| && g[j] == es[ix[j]] && Matches(g[j].name, p)) &&
      (forall i :: 0 <= i < |es| && Matches(es[i].name, p) ==> i in ix)
  {
    var es := disk.Scan(dir);
    Seqs.SelectExactly(es, GlobMask(es, p));
  }

  /** The archive members: the base names of the regular files among the
      selected entries, in order. */
  function ZipMembers(files: seq<Entry>): seq<string> {
    Names(Seqs.Select(files, FileMask(files)))
  }

  /** The `for file_path in files: if file_path.is_file(): zipf.write(...)` loop,
      with the archive reduced to the list of member names it writes. */
  method CollectZipMembers(files: seq<Entry>) returns (members: seq<string>)
    ensures members == ZipMembers(files)
  {
    members := [];
    var i := 0;
    while i < |files|
      invariant 0 <= i <= |files|
      invariant members == Names(Seqs.Select(files[..i], FileMask(files)[..i]))
    {
      Seqs.SelectStep(files, FileMask(files), i);
      ghost var before := Seqs.Select(files[..i], FileMask(files)[..i]);
      if files[i].isFile {
        assert Names(before + [files[i]]) == Names(before) + [files[i].name];
        members := members + [files[i].name];
      } else {
        assert before + [] == before;
      }
      i := i + 1;
    }
    assert files[..i] == files && FileMask(files)[..i] == FileMask(files);
  }

  /** Exactly the regular files get into the archive, each under its base name,
      in selection order; directories are skipped. */
  lemma ZipMembersExactly(files: seq<Entry>)
    ensures var ms, ix := ZipMembers(files), Seqs.SetPositions(FileMask(files));
      |ms| == |ix| && Seqs.StrictlyIncreasing(ix) &&
      (forall j :: 0 <= j < |ix| ==> ix[j] < |files| && files[ix[j]].isFile && ms[j] == files[ix[j]].name) &&
      (forall i :: 0 <= i < |files| && files[i].isFile ==> i in ix)
  {
    Seqs.SelectExactly(files, FileMask(files));
  }

  function Disposition(zipFilename: string): string {
    "attachment; filename=" + zipFilename
  }

  /** `_create_zip_response`: an empty glob is a 404; otherwise the archive of
      the regular files among the globbed entries. */
  function CreateZip(disk: Disk, dir: string, p: Pattern, zipFilename: string): Result<Reply, HttpError> {
    var files := Glob(disk, dir, p);
    if files == [] then Err(HttpError(404, "No files found"))
    else Ok(ZipReply(ZipMembers(files), Disposition(zipFilename)))
  }

  /** A scanned entry whose name matches is globbed. */
  lemma GlobKeepsMatch(disk: Disk, dir: string, p: Pattern, i: nat)
    requires i < |disk.Scan(dir)| && Matches(disk.Scan(dir)[i].name, p)
    ensures Glob(disk, dir, p) != []
  {
    var es := disk.Scan(dir);
    GlobExactly(disk, dir, p);
    assert i in Seqs.SetPositions(GlobMask(es, p));
  }

  /** A glob is empty exactly when no scanned name matches the pattern. */
  lemma GlobEmptyIff(disk: Disk, dir: string, p: Pattern)
    ensures Glob(disk, dir, p) == [] <==> forall e :: e in disk.Scan(dir) ==> !Matches(e.name, p)
  {
    var es := disk.Scan(dir);
    var g := Glob(disk, dir, p);
    if g == [] {
      forall e | e in es ensures !Matches(e.name, p) {
        var i :| 0 <= i < |es| && es[i] == e;
        if Matches(e.name, p) {
          GlobKeepsMatch(disk, dir, p, i);
        }
      }
    } else {
      GlobExactly(disk, dir, p);
      assert g[0] == es[Seqs.SetPositions(GlobMask(es, p))[0]];
    }
  }

  /** The zip reply fails exactly when nothing matches the pattern, and otherwise
      names the archive in its header. A selection of directories only still
      gives an (empty) archive: the emptiness test comes before the file test. */
  lemma CreateZipOutcome(disk: Disk, dir: string, p: Pattern, zipFilename: string)
    ensures var r := CreateZip(disk, dir, p, zipFilename);
      (r.Err? <==> forall e :: e in disk.Scan(dir) ==> !Matches(e.name, p)) &&
      (r.Err? ==> r.error == HttpError(404, "No files found")) &&
      (r.Ok? ==> r.value.ZipReply? && r.value.disposition == "attachment; filename=" + zipFilename &&
                 r.value.members == ZipMembers(Glob(disk, dir, p)))
  {
    GlobEmptyIff(disk, dir, p);
  }

  // ---------------------------------------------------------------------------
  // The per-molecule lookup.

  /** `next((m for m in molecules if m.mol_id == mol_id), None)`, as a position. */
  function FindMolecule(ms: seq<MoleculeRecord>, molId: string): (r: Option<nat>)
    ensures r.Some? ==> r.value < |ms| && ms[r.value].molId == Some(molId)
    ensures r.Some? ==> forall j :: 0 <= j < r.value ==> ms[j].molId != Some(molId)
    ensures r.None? ==> forall j :: 0 <= j < |ms| ==> ms[j].molId != Some(molId)
    decreases |ms|
  {
    if ms == [] then None
    else if ms[0].molId == Some(molId) then Some(0)
    else match FindMolecule(ms[1..], molId)
      case None => None
      case Some(j) => Some(j + 1)
  }

  /** The two per-molecule file kinds. */
  datatype Kind = Png | Sdf {
    function PathOf(m: MoleculeRecord): Option<string> {
      if Png? then m.pngPath else m.sdfPath
    }
    function Ext(): string {
      if Png? then ".png" else ".sdf"
    }
    function MediaType(): string {
      if Png? then "image/png" else "chemical/x-mdl-sdfile"
    }
    function Missing(): string {
      if Png? then "PNG not found for molecule" else "SDF not found for molecule"
    }
  }

  /** The `if mol_id:` branch for png and sdf. When the recorded path does not
      exist on disk the handler returns nothing. */
  function MoleculeFile(ms: seq<MoleculeRecord>, disk: Disk, runId: string, molId: string, kind: Kind): Result<Reply, HttpError> {
    match FindMolecule(ms, molId)
    case None => Err(HttpError(404, kind.Missing()))
    case Some(i) =>
      var path := kind.PathOf(ms[i]);
      if !TruthyText(path) then Err(HttpError(404, kind.Missing()))
      else if path.value in disk.existing then
        Ok(FileReply(path.value, runId + "_" + molId + kind.Ext(), kind.MediaType()))
      else Ok(NullReply)
  }

  /** A per-molecule reply serves the recorded file of the FIRST molecule with
      that id, under `<run>_<mol><ext>`; a 404 means no molecule has the id or
      the first one has no recorded path; a null body means the recorded path is
      missing from disk. */
  lemma MoleculeFileFirstMatch(ms: seq<MoleculeRecord>, disk: Disk, runId: string, molId: string, kind: Kind)
    ensures var r := MoleculeFile(ms, disk, runId, molId, kind);
      (r.Ok? && r.value.FileReply? ==>
         exists i :: 0 <= i < |ms| && ms[i].molId == Some(molId) &&
           (forall j :: 0 <= j < i ==> ms[j].molId != Some(molId)) &&
           kind.PathOf(ms[i]) == Some(r.value.path) && r.value.path in disk.existing &&
           r.value.filename == runId + "_" + molId + kind.Ext()) &&
      (r.Err? <==> (forall j :: 0 <= j < |ms| ==> ms[j].molId != Some(molId)) ||
                   !TruthyText(kind.PathOf(ms[FindMolecule(ms, molId).value]))) &&
      (r.Err? ==> r.error == HttpError(404, kind.Missing())) &&
      (r == Ok(NullReply) <==>
         (FindMolecule(ms, molId).Some? &&
          var p := kind.PathOf(ms[FindMolecule(ms, molId).value]);
          TruthyText(p) && p.value !in disk.existing))
  {
    match FindMolecule(ms, molId)
    case None =>
    case Some(i) =>
      var r := MoleculeFile(ms, disk, runId, molId, kind);
      if r.Ok? && r.value.FileReply? {
        assert ms[i].molId == Some(molId);
      }
  }

  // ---------------------------------------------------------------------------
  // The endpoint.

  /** `download_run_files(run_id, file_type, mol_id)` over the registry's run map. */
  function DownloadRunFiles(runs: map<string, Generate.RunRecord>, disk: Disk, runId: string, fileType: string, molId: Option<string>): Result<Reply, HttpError> {
    if runId !in runs then Err(HttpError(404, "Run not found"))
    else if runs[runId].status != Completed then Err(HttpError(400, "Run not completed"))
    else
      var dir := Config.RunDir(runId);
      if dir !in disk.existing then Err(HttpError(404, "Artifacts not found"))
      else if fileType == "smiles" then
        var path := dir + "/molecules.smi";
        if path in disk.existing then Ok(FileReply(path, runId + "_molecules.smi", "text/plain"))
        else Err(HttpError(404, "SMILES file not found"))
      else if fileType == "png" then
        if TruthyText(molId) then MoleculeFile(runs[runId].molecules, disk, runId, molId.value, Png)
        else CreateZip(disk, dir, Suffix(".png"), runId + "_images.zip")
      else if fileType == "sdf" then
        if TruthyText(molId) then MoleculeFile(runs[runId].molecules, disk, runId, molId.value, Sdf)
        else CreateZip(disk, dir, Suffix(".sdf"), runId + "_structures.zip")
      else if fileType == "all" then CreateZip(disk, dir, AnyName, runId + "_all_files.zip")
      else Err(HttpError(400, "Invalid file type"))
  }

  predicate KnownType(fileType: string) {
    fileType == "smiles" || fileType == "png" || fileType == "sdf" || fileType == "all"
  }

  /** The checks come in a fixed order, each only once the earlier ones pass,
      and every success is for a known, completed run whose directory exists. */
  lemma CheckOrder(runs: map<string, Generate.RunRecord>, disk: Disk, runId: string, fileType: string, molId: Option<string>)
    ensures var r, dir := DownloadRunFiles(runs, disk, runId, fileType, molId), Config.RunDir(runId);
      (runId !in runs ==> r == Err(HttpError(404, "Run not found"))) &&
      (runId in runs && runs[runId].status != Completed ==> r == Err(HttpError(400, "Run not completed"))) &&
      (runId in runs && runs[runId].status == Completed && dir !in disk.existing ==>
         r == Err(HttpError(404, "Artifacts not found"))) &&
      (r.Ok? ==> runId in runs && runs[runId].status == Completed && dir in disk.existing && KnownType(fileType))
  {
  }

  /** Past the three checks, a file type outside smiles/png/sdf/all is the one
      cause of "Invalid file type". */
  lemma InvalidTypeRejected(runs: map<string, Generate.RunRecord>, disk: Disk, runId: string, fileType: string, molId: Option<string>)
    requires runId in runs && runs[runId].status == Completed && Config.RunDir(runId) in disk.existing
    ensures DownloadRunFiles(runs, disk, runId, fileType, molId) == Err(HttpError(400, "Invalid file type"))
            <==> !KnownType(fileType)
  {
    if KnownType(fileType) {
      var r := DownloadRunFiles(runs, disk, runId, fileType, molId);
      if fileType == "png" || fileType == "sdf" {
        var kind := if fileType == "png" then Png else Sdf;
        if TruthyText(molId) {
          MoleculeFileFirstMatch(runs[runId].molecules, disk, runId, molId.value, kind);
        }
      }
      assert r != Err(HttpError(400, "Invalid file type"));
    }
  }

  /** Without a (non-empty) molecule id, png, sdf and all answer with the zip of
      `*.png`, `*.sdf` and `*` under the archive names the endpoint fixes. */
  lemma ZipBranches(runs: map<string, Generate.RunRecord>, disk: Disk, runId: string, molId: Option<string>)
    requires runId in runs && runs[runId].status == Completed && Config.RunDir(runId) in disk.existing
    requires !TruthyText(molId)
    ensures var dir := Config.RunDir(runId);
      DownloadRunFiles(runs, disk, runId, "png", molId) == CreateZip(disk, dir, Suffix(".png"), runId + "_images.zip") &&
      DownloadRunFiles(runs, disk, runId, "sdf", molId) == CreateZip(disk, dir, Suffix(".sdf"), runId + "_structures.zip") &&
      DownloadRunFiles(runs, disk, runId, "all", molId) == CreateZip(disk, dir, AnyName, runId + "_all_files.zip")
  {
  }

  /** `download_molecule_file(run_id, mol_id, file_type)`. */
  function DownloadMoleculeFile(runs: map<string, Generate.RunRecord>, disk: Disk, runId: string, molId: string, fileType: string): Result<Reply, HttpError> {
    DownloadRunFiles(runs, disk, runId, fileType, Some(molId))
  }

  /** The molecule endpoint never answers png or sdf with an archive when the id
      is non-empty; its file is named after the run and the molecule. For smiles
      and all the id is ignored. */
  lemma MoleculeEndpointSingleFile(runs: map<string, Generate.RunRecord>, disk: Disk, runId: string, molId: string, fileType: string)
    requires molId != ""
    ensures var r := DownloadMoleculeFile(runs, disk, runId, molId, fileType);
      ((fileType == "png" || fileType == "sdf") && r.Ok? ==>
         !r.value.ZipReply? &&
         (r.value.FileReply? ==> r.value.filename == runId + "_" + molId + "." + fileType)) &&
      (fileType == "smiles" || fileType == "all" ==>
         r == DownloadRunFiles(runs, disk, runId, fileType, None))
  {
    var r := DownloadMoleculeFile(runs, disk, runId, molId, fileType);
    if (fileType == "png" || fileType == "sdf") && r.Ok? && r.value.FileReply? {
      var kind := if fileType == "png" then Png else Sdf;
      assert kind.Ext() == "." + fileType;
    }
  }

  // ---------------------------------------------------------------------------
  // The run listing.

  datatype RunSummary = RunSummary(
    runId: string,
    status: GenerationStatus,
    progress: nat,
    moleculeCount: nat,
    hasArtifacts: bool)

  /** One `runs_info` entry. */
  function Summary(runId: string, rec: Generate.RunRecord, disk: Disk): RunSummary {
    RunSummary(runId, rec.status, rec.progress, |rec.molecules|, Config.RunDir(runId) in disk.existing)
  }

  /** `list_runs`: one entry per registered run, in insertion order, with the
      run's status and progress, the length of its molecule list, and whether
      its directory exists. */
  method ListRuns(reg: Generate.RunRegistry, disk: Disk) returns (info: seq<RunSummary>)
    requires reg.Valid()
    ensures |info| == |reg.order|
    ensures forall i :: 0 <= i < |info| ==>
      var id := reg.order[i];
      id in reg.runs && info[i].runId == id && info[i].status == reg.runs[id].status &&
      info[i].progress == reg.runs[id].progress &&
      info[i].moleculeCount == |reg.runs[id].molecules| &&
      (info[i].hasArtifacts <==> Config.RunDir(id) in disk.existing)
    ensures forall id :: id in reg.runs <==> exists i :: 0 <= i < |info| && info[i].runId == id
    ensures forall i, j :: 0 <= i < j < |info| ==> info[i].runId != info[j].runId
  {
    info := [];
    var k := 0;
    while k < |reg.order|
      invariant 0 <= k <= |reg.order|
      invariant |info| == k
      invariant forall i :: 0 <= i < k ==> info[i] == Summary(reg.order[i], reg.runs[reg.order[i]], disk)
    {
      var id := reg.order[k];
      info := info + [Summary(id, reg.runs[id], disk)];
      k := k + 1;
    }
    forall id | id in reg.runs ensures exists i :: 0 <= i < |info| && info[i].runId == id {
      var i :| 0 <= i < |reg.order| && reg.order[i] == id;
      assert info[i].runId == id;
    }
  }
}
