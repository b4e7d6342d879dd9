/** The results panel (frontend/src/components/MoleculeResults.js): the download
    handler and its file naming, the value formatting of the cards and the
    table, the SMILES truncation, the first-six card rule and the QED chip. */
module MoleculeResults {
  import opened Common
  import opened Schemas
  import Api
  import Download
  import Generate

  /** The `results` prop: the run id (absent or empty counts as none) and the molecules. */
  datatype Results = Results(runId: Option<string>, molecules: seq<MoleculeRecord>)

  // ---------------------------------------------------------------------------
  // File naming.

  /** The name the browser saves a download under. */
  function DownloadFilename(runId: string, fileType: string, molId: Option<string>): string {
    if TruthyText(molId) then runId + "_" + molId.value + "." + fileType
    else runId + "_" + fileType + (if fileType == "smiles" then ".smi" else "." + fileType)
  }

  /** Every name starts with the run id and an underscore; its extension is the
      file type, except `.smi` for the whole-run SMILES download. A molecule's
      name carries the molecule id, a whole-run name the file type. */
  lemma FilenameShape(runId: string, fileType: string, molId: Option<string>)
    ensures var f, ext := DownloadFilename(runId, fileType, molId),
                          (if !TruthyText(molId) && fileType == "smiles" then "smi" else fileType);
      StartsWith(f, runId + "_") && EndsWith(f, "." + ext) &&
      f[|runId| + 1..|f| - |ext| - 1] == (if TruthyText(molId) then molId.value else fileType)
  {
    var f := DownloadFilename(runId, fileType, molId);
    var ext := if !TruthyText(molId) && fileType == "smiles" then "smi" else fileType;
    var mid := if TruthyText(molId) then molId.value else fileType;
    assert f == (runId + "_") + mid + ("." + ext);
  }

  /** Against the back end: a single molecule file is saved under the very name
      the server gives it, while the run's SMILES file, which the server calls
      `<run>_molecules.smi`, is saved as `<run>_smiles.smi`, and the archive of
      all files is saved as `<run>_all.all`. */
  lemma FilenameVersusServer(runs: map<string, Generate.RunRecord>, disk: Download.Disk,
                             runId: string, fileType: string, molId: Option<string>)
    ensures var r := Download.DownloadRunFiles(runs, disk, runId, fileType, molId);
      ((fileType == "png" || fileType == "sdf") && r.Ok? && r.value.FileReply? ==>
         r.value.filename == DownloadFilename(runId, fileType, molId)) &&
      (fileType == "smiles" && r.Ok? ==> r.value.filename == runId + "_molecules.smi") &&
      (fileType == "smiles" && !TruthyText(molId) ==> DownloadFilename(runId, fileType, molId) == runId + "_smiles.smi") &&
      (fileType == "all" && !TruthyText(molId) ==>
         DownloadFilename(runId, fileType, molId) == runId + "_all.all")
  {
    var r := Download.DownloadRunFiles(runs, disk, runId, fileType, molId);
    if (fileType == "png" || fileType == "sdf") && r.Ok? && r.value.FileReply? {
      var kind := if fileType == "png" then Download.Png else Download.Sdf;
      assert kind.Ext() == "." + fileType;
      assert TruthyText(molId);
    }
  }

  // ---------------------------------------------------------------------------
  // Displayed values.

  /** What a cell shows: "N/A", a number to some decimals, or a count. */
  datatype Cell = NA | Fixed(value: real, decimals: nat) | Count(n: int)

  /** `formatValue`: "N/A" for null or undefined, otherwise the number to `decimals` places. */
  function FormatValue(v: Option<real>, decimals: nat): Cell {
    if v.None? then NA else Fixed(v.value, decimals)
  }

  /** `molecule.hbd || 'N/A'` (also HBA and rotatable bonds). */
  function CountCell(v: Option<int>): Cell {
    if v.Some? && v.value != 0 then Count(v.value) else NA
  }

  /** A measured zero prints as a number, but a zero count prints as "N/A". */
  lemma NotAvailableCells(v: Option<real>, decimals: nat, c: Option<int>)
    ensures FormatValue(v, decimals) == NA <==> v.None?
    ensures FormatValue(v, decimals).Fixed? ==> FormatValue(v, decimals) == Fixed(v.value, decimals)
    ensures CountCell(c) == NA <==> c.None? || c.value == 0
    ensures CountCell(c).Count? ==> c == Some(CountCell(c).n)
    ensures FormatValue(Some(0.0), decimals) != NA && CountCell(Some(0)) == NA
  {
  }

  /** The SMILES line of a card: the first 50 characters and "..." when longer. */
  function DisplaySmiles(s: string): (r: string)
    ensures |s| <= 50 ==> r == s
    ensures |s| > 50 ==> |r| == 53 && r == s[..50] + "..."
  {
    Truncate(s, 50)
  }

  /** The cards: the first six molecules. */
  function Cards(ms: seq<MoleculeRecord>): seq<MoleculeRecord> {
    SliceTo(ms, 6)
  }

  /** The "Showing first 6 molecules" notice. */
  predicate ShowsNotice(ms: seq<MoleculeRecord>) {
    |ms| > 6
  }

  /** The cards are a prefix of at most six molecules, and they leave a
      molecule out exactly when the notice is shown. */
  lemma CardsFirstSix(ms: seq<MoleculeRecord>)
    ensures var c := Cards(ms);
      |c| == Min(|ms|, 6) && c == ms[..|c|] &&
      (c != ms <==> ShowsNotice(ms))
  {
  }

  /** The card's title: the name, else the molecule id, else its position. */
  function CardTitle(m: MoleculeRecord, index: nat): string {
    if TruthyText(m.name) then m.name.value
    else if TruthyText(m.molId) then m.molId.value
    else "Molecule " + NatToString(index + 1)
  }

  /** No card is untitled, and untitled molecules at different positions get
      different titles. */
  lemma CardTitleNonEmpty(m: MoleculeRecord, n: MoleculeRecord, i: nat, j: nat)
    ensures CardTitle(m, i) != ""
    ensures !TruthyText(m.name) && !TruthyText(m.molId) && !TruthyText(n.name) && !TruthyText(n.molId) && i != j ==>
            CardTitle(m, i) != CardTitle(n, j)
  {
    if !TruthyText(m.name) && !TruthyText(m.molId) && !TruthyText(n.name) && !TruthyText(n.molId) && i != j {
      TaggedDistinct("Molecule ", i + 1, j + 1);
    }
  }

  /** The QED chip is green only above 0.6, strictly; a missing score is never green. */
  predicate QedChipSuccess(qed: Option<real>) {
    qed.Some? && qed.value > 0.6
  }

  /** The panel shows only the "No molecules" notice for null results or an empty list. */
  predicate ShowsEmptyNotice(results: Option<Results>) {
    results.None? || |results.value.molecules| == 0
  }

  // ---------------------------------------------------------------------------
  // The download handler and the state it updates.

  class ResultsPanel {
    var downloading: bool
    var error: string
    /** The files handed to the browser (`downloadBlob`), by name, in order. */
    var saved: seq<string>

    constructor ()
      ensures !downloading && error == "" && saved == []
    {
      downloading := false;
      error := "";
      saved := [];
    }

    /** `handleDownload(fileType, molId)`, with `fetched` saying whether the
        request succeeded. Without a run id nothing happens; otherwise the
        request for the run's path is sent and the blob is saved under
        `DownloadFilename`, or the error is set; either way the panel ends
        not downloading. */
    method HandleDownload(results: Results, fileType: string, molId: Option<string>, fetched: bool)
      returns (request: Option<string>)
      modifies this
      ensures !TruthyText(results.runId) ==>
        request.None? && downloading == old(downloading) && error == old(error) && saved == old(saved)
      ensures TruthyText(results.runId) ==>
        request == Some(Api.DownloadPath(results.runId.value, fileType, molId)) && !downloading &&
        (fetched ==> error == "" && saved == old(saved) + [DownloadFilename(results.runId.value, fileType, molId)]) &&
        (!fetched ==> error == "Failed to download file" && saved == old(saved))
    {
      if !TruthyText(results.runId) {
        return None;
      }
      var runId := results.runId.value;
      downloading := true;
      error := "";
      request := Some(Api.DownloadPath(runId, fileType, molId));
      if fetched {
        saved := saved + [DownloadFilename(runId, fileType, molId)];
      } else {
        error := "Failed to download file";
      }
      downloading := false;
    }
  }
}
