/** The structure-based generation screen
    (frontend/src/components/StructureGenerationFlow.js): the upload extension
    check, the submit validation, the multipart form it sends and the screen
    state its handlers update. */
module StructureFlow {
  import opened Common
  import opened Schemas
  import Generate
  import Api

  /** A file picked in the browser, known by its name. */
  datatype UploadFile = UploadFile(name: string)

  // ---------------------------------------------------------------------------
  // The extension check.

  /** `name.toLowerCase().substring(name.lastIndexOf('.'))`: from the last dot
      on, or the whole name when it has none (`substring(-1)` starts at 0). */
  function FileExtension(name: string): string {
    var lower := Lower(name);
    match LastIndexOf(name, '.')
    case None => lower
    case Some(k) => lower[k..]
  }

  predicate AcceptedFile(name: string) {
    var ext := FileExtension(name);
    ext == ".pdb" || ext == ".txt"
  }

  /** Lower-casing keeps dots where they are and makes no new ones. */
  lemma LowerDot(c: char)
    ensures LowerChar(c) == '.' <==> c == '.'
  {
  }

  lemma AcceptedHasSuffix(name: string)
    requires AcceptedFile(name)
    ensures |name| >= 4 && FileExtension(name) == Lower(name)[|name| - 4..]
  {
    var lower := Lower(name);
    var ext := FileExtension(name);
    AcceptedExtensionShape(ext);
    match LastIndexOf(name, '.')
    case None =>
      assert ext == lower && lower[0] == '.';
      LowerDot(name[0]);
    case Some(k) =>
      assert ext == lower[k..];
  }

  /** The last dot is the one after which no dot follows. */
  lemma LastDotAt(name: string, p: nat)
    requires p < |name| && name[p] == '.'
    requires forall k :: p < k < |name| ==> name[k] != '.'
    ensures LastIndexOf(name, '.') == Some(p)
  {
  }

  /** A lower-cased ending that starts with the only dot in it is the extension. */
  lemma SuffixExtension(name: string, ext: string)
    requires 0 < |ext| <= |name| && ext[0] == '.'
    requires forall k :: 0 < k < |ext| ==> ext[k] != '.'
    requires Lower(name)[|name| - |ext|..] == ext
    ensures FileExtension(name) == ext
  {
    var lower := Lower(name);
    var p := |name| - |ext|;
    assert lower[p] == ext[0];
    LowerDot(name[p]);
    forall k | p < k < |name| ensures name[k] != '.' {
      assert lower[k] == ext[k - p];
      LowerDot(name[k]);
    }
    LastDotAt(name, p);
  }

  /** Both accepted extensions have their one dot in front. */
  lemma AcceptedExtensionShape(ext: string)
    requires ext == ".pdb" || ext == ".txt"
    ensures |ext| == 4 && ext[0] == '.' && forall k :: 0 < k < |ext| ==> ext[k] != '.'
  {
  }

  lemma SuffixAccepted(name: string)
    requires |name| >= 4
    requires Lower(name)[|name| - 4..] == ".pdb" || Lower(name)[|name| - 4..] == ".txt"
    ensures FileExtension(name) == Lower(name)[|name| - 4..]
  {
    var ext := Lower(name)[|name| - 4..];
    AcceptedExtensionShape(ext);
    SuffixExtension(name, ext);
  }

  /** A name is accepted exactly when it ends, ignoring ASCII case, in `.pdb`
      or `.txt`. */
  lemma AcceptedIffSuffix(name: string)
    ensures AcceptedFile(name) <==>
            |name| >= 4 && (Lower(name)[|name| - 4..] == ".pdb" || Lower(name)[|name| - 4..] == ".txt")
  {
    if AcceptedFile(name) {
      AcceptedHasSuffix(name);
    }
    if |name| >= 4 && (Lower(name)[|name| - 4..] == ".pdb" || Lower(name)[|name| - 4..] == ".txt") {
      SuffixAccepted(name);
    }
  }

  // ---------------------------------------------------------------------------
  // Submit validation and the form.

  /** The message a submit is refused with, if any. */
  function SubmitError(source: string, hasFile: bool, uniprotId: string, pdbId: string): Option<string> {
    if source == "upload" && !hasFile then Some("Please upload a protein file")
    else if source == "uniprot" && Trim(uniprotId) == "" then Some("Please enter a UniProt ID")
    else if source == "pdb" && Trim(pdbId) == "" then Some("Please enter a PDB ID")
    else None
  }

  /** A submit is refused exactly for an upload without a file, or a UniProt or
      PDB source whose id is blank once trimmed. */
  lemma SubmitRefusals(source: string, hasFile: bool, uniprotId: string, pdbId: string)
    ensures SubmitError(source, hasFile, uniprotId, pdbId).Some? <==>
            (source == "upload" && !hasFile) ||
            (source == "uniprot" && AllSpace(uniprotId)) ||
            (source == "pdb" && AllSpace(pdbId))
  {
    TrimEmptyIffBlank(uniprotId);
    TrimEmptyIffBlank(pdbId);
  }

  /** One `FormData` value; the browser sends numbers and flags as their text. */
  datatype FormValue = TextValue(s: string) | NumberValue(n: int) | FlagValue(b: bool) | FileValue(f: UploadFile)

  /** The form fields the screen can send, and their names on the wire. */
  datatype Field = ProteinSourceField | MaxMoleculesField | UseBionemoField | ProteinFileField | UniprotIdField | PdbIdField {
    function Key(): string {
      match this
      case ProteinSourceField => "protein_source"
      case MaxMoleculesField => "max_molecules"
      case UseBionemoField => "use_bionemo"
      case ProteinFileField => "protein_file"
      case UniprotIdField => "uniprot_id"
      case PdbIdField => "pdb_id"
    }
  }

  /** The three fields every submit carries. */
  function FixedFields(source: string, maxMolecules: int, useBionemo: bool): seq<(Field, FormValue)> {
    [(ProteinSourceField, TextValue(source)), (MaxMoleculesField, NumberValue(maxMolecules)),
     (UseBionemoField, FlagValue(useBionemo))]
  }

  /** The field that names the structure, chosen by the source. */
  function SourceFields(source: string, file: Option<UploadFile>, uniprotId: string, pdbId: string): seq<(Field, FormValue)> {
    if source == "upload" && file.Some? then [(ProteinFileField, FileValue(file.value))]
    else if source == "uniprot" then [(UniprotIdField, TextValue(Trim(uniprotId)))]
    else if source == "pdb" then [(PdbIdField, TextValue(Trim(pdbId)))]
    else []
  }

  /** The `formData.append` calls, in order. */
  function BuildForm(source: string, maxMolecules: int, useBionemo: bool, file: Option<UploadFile>,
                     uniprotId: string, pdbId: string): seq<(Field, FormValue)> {
    FixedFields(source, maxMolecules, useBionemo) + SourceFields(source, file, uniprotId, pdbId)
  }

  /** The first value sent under a field. */
  function Lookup(entries: seq<(Field, FormValue)>, f: Field): (r: Option<FormValue>)
    ensures r.Some? <==> exists i :: 0 <= i < |entries| && entries[i].0 == f
    decreases |entries|
  {
    if entries == [] then None
    else if entries[0].0 == f then Some(entries[0].1)
    else
      var r := Lookup(entries[1..], f);
      assert forall i :: 1 <= i < |entries| ==> entries[i] == entries[1..][i - 1];
      r
  }

  function TextOf(v: Option<FormValue>): Option<string> {
    if v.Some? && v.value.TextValue? then Some(v.value.s) else None
  }

  /** How the structure endpoint reads the form fields it declares. */
  function ServerForm(entries: seq<(Field, FormValue)>): Option<Generate.StructureForm> {
    var source, count, flag := Lookup(entries, ProteinSourceField), Lookup(entries, MaxMoleculesField), Lookup(entries, UseBionemoField);
    if source.Some? && source.value.TextValue? && count.Some? && count.value.NumberValue? &&
       flag.Some? && flag.value.FlagValue?
    then Some(Generate.StructureForm(source.value.s, TextOf(Lookup(entries, UniprotIdField)),
                                     TextOf(Lookup(entries, PdbIdField)), count.value.n, flag.value.b))
    else None
  }

  /** A submit that passes validation sends the three fixed fields and exactly
      one source field, and the endpoint reads back the source, the count, the
      flag and the trimmed id; a UniProt or PDB id that arrives is never empty,
      so it is the fetch, not a missing id, that decides the structure. */
  lemma SubmittedFormReadBack(source: string, maxMolecules: int, useBionemo: bool, file: Option<UploadFile>,
                              uniprotId: string, pdbId: string)
    requires SubmitError(source, file.Some?, uniprotId, pdbId).None?
    requires source == "upload" || source == "uniprot" || source == "pdb"
    ensures var entries := BuildForm(source, maxMolecules, useBionemo, file, uniprotId, pdbId);
      |entries| == 4 &&
      entries[3].0 == (if source == "upload" then ProteinFileField else if source == "uniprot" then UniprotIdField else PdbIdField) &&
      ServerForm(entries) == Some(Generate.StructureForm(
        source,
        if source == "uniprot" then Some(Trim(uniprotId)) else None,
        if source == "pdb" then Some(Trim(pdbId)) else None,
        maxMolecules, useBionemo)) &&
      (source == "uniprot" ==> TruthyText(ServerForm(entries).value.uniprotId)) &&
      (source == "pdb" ==> TruthyText(ServerForm(entries).value.pdbId))
  {
    var rest := SourceFields(source, file, uniprotId, pdbId);
    SourceFieldsRead(source, file, uniprotId, pdbId);
    ReadFixedFields(source, maxMolecules, useBionemo, rest);
  }

  /** After a passing validation the source sends one field, the one its
      source names, carrying the file or the trimmed id. */
  lemma SourceFieldsRead(source: string, file: Option<UploadFile>, uniprotId: string, pdbId: string)
    requires SubmitError(source, file.Some?, uniprotId, pdbId).None?
    requires source == "upload" || source == "uniprot" || source == "pdb"
    ensures var rest := SourceFields(source, file, uniprotId, pdbId);
      |rest| == 1 &&
      rest[0].0 == (if source == "upload" then ProteinFileField else if source == "uniprot" then UniprotIdField else PdbIdField) &&
      TextOf(Lookup(rest, UniprotIdField)) == (if source == "uniprot" then Some(Trim(uniprotId)) else None) &&
      TextOf(Lookup(rest, PdbIdField)) == (if source == "pdb" then Some(Trim(pdbId)) else None)
  {
    if source == "upload" {
      LookupSingle(ProteinFileField, FileValue(file.value), UniprotIdField);
      LookupSingle(ProteinFileField, FileValue(file.value), PdbIdField);
    } else if source == "uniprot" {
      LookupSingle(UniprotIdField, TextValue(Trim(uniprotId)), UniprotIdField);
      LookupSingle(UniprotIdField, TextValue(Trim(uniprotId)), PdbIdField);
    } else {
      LookupSingle(PdbIdField, TextValue(Trim(pdbId)), UniprotIdField);
      LookupSingle(PdbIdField, TextValue(Trim(pdbId)), PdbIdField);
    }
  }

  lemma LookupSingle(f: Field, v: FormValue, g: Field)
    ensures Lookup([(f, v)], g) == if f == g then Some(v) else None
  {
    assert [(f, v)][1..] == [];
  }

  /** The endpoint reads the fixed fields back, and the ids from what follows them. */
  lemma ReadFixedFields(source: string, maxMolecules: int, useBionemo: bool, rest: seq<(Field, FormValue)>)
    requires forall i :: 0 <= i < |rest| ==> rest[i].0 != ProteinSourceField && rest[i].0 != MaxMoleculesField && rest[i].0 != UseBionemoField
    ensures ServerForm(FixedFields(source, maxMolecules, useBionemo) + rest) ==
            Some(Generate.StructureForm(source, TextOf(Lookup(rest, UniprotIdField)), TextOf(Lookup(rest, PdbIdField)),
                                        maxMolecules, useBionemo))
  {
    var entries := FixedFields(source, maxMolecules, useBionemo) + rest;
    assert entries[1..][1..][1..] == rest;
    assert Lookup(entries, MaxMoleculesField) == Lookup(entries[1..], MaxMoleculesField);
    assert Lookup(entries, UseBionemoField) == Lookup(entries[1..], UseBionemoField) == Lookup(entries[1..][1..], UseBionemoField);
    assert Lookup(entries, UniprotIdField) == Lookup(entries[1..], UniprotIdField)
        == Lookup(entries[1..][1..], UniprotIdField) == Lookup(rest, UniprotIdField);
    assert Lookup(entries, PdbIdField) == Lookup(entries[1..], PdbIdField)
        == Lookup(entries[1..][1..], PdbIdField) == Lookup(rest, PdbIdField);
  }

  // ---------------------------------------------------------------------------
  // The screen state.

  class StructureScreen {
    var proteinSource: string
    var uniprotId: string
    var pdbId: string
    var maxMolecules: int
    var useBionemo: bool
    var proteinFile: Option<UploadFile>
    var loading: bool
    var error: string
    var results: Option<GenerationResponse>

    /** The values the user edits. */
    function Inputs(): (string, string, string, int, bool)
      reads this
    {
      (proteinSource, uniprotId, pdbId, maxMolecules, useBionemo)
    }

    /** The initial state: upload, P00533, 1M17, ten molecules, BioNeMo on. */
    constructor ()
      ensures Inputs() == ("upload", "P00533", "1M17", 10, true)
      ensures proteinFile.None? && !loading && error == "" && results.None?
    {
      proteinSource := "upload";
      uniprotId := "P00533";
      pdbId := "1M17";
      maxMolecules := 10;
      useBionemo := true;
      proteinFile := None;
      loading := false;
      error := "";
      results := None;
    }

    /** The radio group, text fields and switch (`setProteinSource` and friends). */
    method Edit(source: string, uniprot: string, pdb: string, count: int, bionemo: bool)
      modifies this
      ensures Inputs() == (source, uniprot, pdb, count, bionemo)
      ensures proteinFile == old(proteinFile) && loading == old(loading)
      ensures error == old(error) && results == old(results)
    {
      proteinSource, uniprotId, pdbId, maxMolecules, useBionemo := source, uniprot, pdb, count, bionemo;
    }

    /** `handleFileChange`: no file changes nothing; a refused name sets the
        error and keeps the previous file; an accepted one is stored and clears
        the error. */
    method HandleFileChange(file: Option<UploadFile>)
      modifies this
      ensures Inputs() == old(Inputs()) && loading == old(loading) && results == old(results)
      ensures file.None? ==> proteinFile == old(proteinFile) && error == old(error)
      ensures file.Some? && !AcceptedFile(file.value.name) ==>
                proteinFile == old(proteinFile) && error == "Please upload a PDB file (.pdb)"
      ensures file.Some? && AcceptedFile(file.value.name) ==> proteinFile == file && error == ""
    {
      if file.Some? {
        if !AcceptedFile(file.value.name) {
          error := "Please upload a PDB file (.pdb)";
          return;
        }
        proteinFile := file;
        error := "";
      }
    }

    /** Pressing the submit button, with the request's outcome as `reply` (the
        response, or the server's error detail). A count outside [1, 20] stops
        the browser's form validation before `handleSubmit` runs, so nothing
        changes and nothing is sent. Otherwise a refused submit only sets its
        message and sends nothing, and an accepted one sends the form and the
        screen ends not loading, with the results or the error text. */
    method HandleSubmit(reply: Result<GenerationResponse, Option<string>>)
      returns (sent: Option<seq<(Field, FormValue)>>)
      modifies this
      ensures Inputs() == old(Inputs()) && proteinFile == old(proteinFile)
      ensures !Api.CountFieldValid(maxMolecules) ==>
        sent.None? && error == old(error) && loading == old(loading) && results == old(results)
      ensures var refusal := SubmitError(old(proteinSource), old(proteinFile).Some?, old(uniprotId), old(pdbId));
        Api.CountFieldValid(maxMolecules) ==>
        (refusal.Some? ==> sent.None? && error == refusal.value && loading == old(loading) && results == old(results)) &&
        (refusal.None? ==>
           sent == Some(BuildForm(proteinSource, maxMolecules, useBionemo, proteinFile, uniprotId, pdbId)) &&
           !loading &&
           (reply.Ok? ==> results == Some(reply.value) && error == "") &&
           (reply.Err? ==> results.None? && error == Api.FailureText(reply.error)))
    {
      if !Api.CountFieldValid(maxMolecules) {
        return None;
      }
      var refusal := SubmitError(proteinSource, proteinFile.Some?, uniprotId, pdbId);
      if refusal.Some? {
        error := refusal.value;
        return None;
      }
      loading := true;
      error := "";
      results := None;
      sent := Some(BuildForm(proteinSource, maxMolecules, useBionemo, proteinFile, uniprotId, pdbId));
      match reply {
        case Ok(response) => results := Some(response);
        case Err(detail) => error := Api.FailureText(detail);
      }
      loading := false;
    }
  }
}
