/** The TTD service: molecules known for a UniProt target, from the live API
    when it is configured and answers, otherwise from a local CSV table. */
module Ttd {
  import opened Common
  import opened Schemas
  import Seqs

  // ---------------------------------------------------------------------------
  // Local fallback table.

  /** One CSV row; None is an empty (NaN) cell. */
  datatype CsvRow = CsvRow(uniprotId: Option<string>, drugId: Option<string>,
                           drugName: Option<string>, smiles: Option<string>)

  /** The fallback file: absent, failing to parse, or its rows in file order. */
  datatype FallbackFile = FileMissing | Unreadable | Table(rows: seq<CsvRow>)

  /** Rows for the target that carry a SMILES. */
  predicate RowSelected(row: CsvRow, uniprotId: string) {
    row.uniprotId == Some(uniprotId) && row.smiles.Some?
  }

  /** A selected row with an empty id or name cell: building its record fails
      validation (a NaN is not a string), which aborts the whole lookup. */
  predicate RowRejected(row: CsvRow, uniprotId: string) {
    RowSelected(row, uniprotId) && (row.drugId.None? || row.drugName.None?)
  }

  /** smiles -> smiles, drug_id -> mol_id, drug_name -> name. */
  function RowRecord(row: CsvRow): MoleculeRecord {
    NewMolecule(row.smiles.GetOr("")).(molId := row.drugId, name := row.drugName)
  }

  function RowRecords(rows: seq<CsvRow>): (r: seq<MoleculeRecord>)
    ensures |r| == |rows| && forall i :: 0 <= i < |rows| ==> r[i] == RowRecord(rows[i])
  {
    seq(|rows|, i requires 0 <= i < |rows| => RowRecord(rows[i]))
  }

  function RowMask(rows: seq<CsvRow>, uniprotId: string): (m: seq<bool>)
    ensures |m| == |rows| && forall i :: 0 <= i < |rows| ==> m[i] == RowSelected(rows[i], uniprotId)
  {
    seq(|rows|, i requires 0 <= i < |rows| => RowSelected(rows[i], uniprotId))
  }

  predicate AnyRejected(rows: seq<CsvRow>, uniprotId: string) {
    exists i :: 0 <= i < |rows| && RowRejected(rows[i], uniprotId)
  }

  /** What the fallback lookup returns. */
  function FallbackLookup(uniprotId: string, file: FallbackFile): seq<MoleculeRecord> {
    if !file.Table? || AnyRejected(file.rows, uniprotId) then []
    else Seqs.Select(RowRecords(file.rows), RowMask(file.rows, uniprotId))
  }

  method FetchFromFallback(uniprotId: string, file: FallbackFile) returns (molecules: seq<MoleculeRecord>)
    ensures molecules == FallbackLookup(uniprotId, file)
  {
    if !file.Table? {
      return [];
    }
    var rows := file.rows;
    ghost var recs, mask := RowRecords(rows), RowMask(rows, uniprotId);
    molecules := [];
    var i := 0;
    while i < |rows|
      invariant 0 <= i <= |rows|
      invariant forall j :: 0 <= j < i ==> !RowRejected(rows[j], uniprotId)
      invariant molecules == Seqs.Select(recs[..i], mask[..i])
    {
      Seqs.SelectStep(recs, mask, i);
      var row := rows[i];
      assert recs[i] == RowRecord(row) && mask[i] == RowSelected(row, uniprotId);
      if row.uniprotId == Some(uniprotId) && row.smiles.Some? {
        if row.drugId.None? || row.drugName.None? {
          assert RowRejected(rows[i], uniprotId);
          return [];
        }
        molecules := molecules + [NewMolecule(row.smiles.value).(molId := row.drugId, name := row.drugName)];
      }
      assert !RowRejected(rows[i], uniprotId);
      i := i + 1;
    }
    assert recs[..i] == recs && mask[..i] == mask;
  }

  /** The lookup returns, in file order, exactly the selected rows, each mapped
      field by field; one rejected row empties it. */
  lemma FallbackLookupExactly(uniprotId: string, rows: seq<CsvRow>)
    ensures AnyRejected(rows, uniprotId) ==> FallbackLookup(uniprotId, Table(rows)) == []
    ensures !AnyRejected(rows, uniprotId) ==>
      var r, ix := FallbackLookup(uniprotId, Table(rows)), Seqs.SetPositions(RowMask(rows, uniprotId));
      |r| == |ix| && Seqs.StrictlyIncreasing(ix) &&
      (forall j :: 0 <= j < |r| ==> ix[j] < |rows| && RowSelected(rows[ix[j]], uniprotId) &&
                                    r[j].smiles == rows[ix[j]].smiles.value &&
                                    r[j].molId == rows[ix[j]].drugId && r[j].name == rows[ix[j]].drugName) &&
      (forall i :: 0 <= i < |rows| && RowSelected(rows[i], uniprotId) ==> i in ix)
  {
    Seqs.SelectExactly(RowRecords(rows), RowMask(rows, uniprotId));
  }

  /** A missing or unreadable file gives no molecules. */
  lemma FallbackWithoutTable(uniprotId: string, file: FallbackFile)
    requires !file.Table?
    ensures FallbackLookup(uniprotId, file) == []
  {
  }

  // ---------------------------------------------------------------------------
  // The seeded table written by create_fallback_data.

  /** UniProt id of the k-th (0 to 7) seeded row. */
  function SeedUniprot(k: int): string {
    if k == 0 then "P00533"
    else if k == 1 then "P00533"
    else if k == 2 then "P04626"
    else if k == 3 then "P04626"
    else if k == 4 then "P15692"
    else if k == 5 then "P35354"
    else if k == 6 then "P35354"
    else "P08253"
  }

  /** Drug id of the k-th seeded row. */
  function SeedDrugId(k: int): string {
    if k == 0 then "D00001"
    else if k == 1 then "D00002"
    else if k == 2 then "D00003"
    else if k == 3 then "D00004"
    else if k == 4 then "D00005"
    else if k == 5 then "D00006"
    else if k == 6 then "D00007"
    else "D00008"
  }

  /** Drug name of the k-th seeded row. */
  function SeedDrugName(k: int): string {
    if k == 0 then "Gefitinib"
    else if k == 1 then "Erlotinib"
    else if k == 2 then "Lapatinib"
    else if k == 3 then "Trastuzumab-emtansine"
    else if k == 4 then "Bevacizumab-related"
    else if k == 5 then "Celecoxib"
    else if k == 6 then "Rofecoxib"
    else "Marimastat"
  }

  /** SMILES of the k-th seeded row. */
  function SeedSmiles(k: int): string {
    if k == 0 then "COC1=C(C=C2C(=C1)N=CN=C2NC3=CC(=C(C=C3)F)Cl)OCCCN4CCOCC4"
    else if k == 1 then "C#CC1=CC=C(C=C1)NC2=C3C=C(C=CC3=NC=N2)OCCCN4CCOCC4"
    else if k == 2 then "CS(=O)(=O)CCNCC1=CC=C(C=C1)NC2=C3C=CC(=CC3=NC(=N2)NC4=CC(=C(C=C4)OCF)Cl)O"
    else if k == 3 then "CCC1=C(C(=CC=C1)C)N2C(=O)C(=C(C2=O)C)NC(=O)C3=CC(=CC=C3)NC(=O)C4=CC=C(C=C4)N"
    else if k == 4 then "CN1C=NC2=C1C(=O)N(C(=O)N2C)C"
    else if k == 5 then "CC1=CC=C(C=C1)C2=CC(=NN2C3=CC=C(C=C3)S(=O)(=O)N)C(F)(F)F"
    else if k == 6 then "CC1=CC=C(C=C1)C2=C(C(=O)O2)C3=CC=CC=C3S(=O)(=O)C"
    else "CC(C)(C)NC(=O)C(CC1=CC=CC=C1)NC(=O)C(CC(C)C)NC(=O)C=O"
  }

  /** The k-th row of the seeded table: every cell filled. */
  function SeedEntry(k: int): CsvRow {
    CsvRow(Some(SeedUniprot(k)), Some(SeedDrugId(k)), Some(SeedDrugName(k)), Some(SeedSmiles(k)))
  }

  function SeedRows(): seq<CsvRow> {
    seq(8, SeedEntry)
  }

  /** Only the first two seeded rows are EGFR's (P00533), and every row is complete. */
  lemma SeedRowFacts(k: int)
    requires 0 <= k < 8
    ensures !RowRejected(SeedEntry(k), "P00533")
    ensures RowSelected(SeedEntry(k), "P00533") <==> k < 2
  {
    var u := SeedUniprot(k);
    if k >= 2 {
      assert u[1] != '0' || u[2] != '0';
      assert "P00533"[1] == '0' && "P00533"[2] == '0';
    }
  }

  /** The EGFR lookup over the seeded table keeps its first two rows. */
  lemma SeededEgfrRows()
    ensures FallbackLookup("P00533", Table(SeedRows())) == [RowRecord(SeedEntry(0)), RowRecord(SeedEntry(1))]
  {
    var rows := SeedRows();
    forall k | 0 <= k < 8 ensures RowSelected(rows[k], "P00533") == (k < 2) && !RowRejected(rows[k], "P00533") {
      SeedRowFacts(k);
    }
    LookupFirstTwo(rows, "P00533");
  }

  /** A table whose only rows for the target are its first two, both complete,
      yields those two rows. */
  lemma LookupFirstTwo(rows: seq<CsvRow>, uniprotId: string)
    requires |rows| >= 2
    requires forall k :: 0 <= k < |rows| ==> RowSelected(rows[k], uniprotId) == (k < 2)
    requires forall k :: 0 <= k < |rows| ==> !RowRejected(rows[k], uniprotId)
    ensures FallbackLookup(uniprotId, Table(rows)) == [RowRecord(rows[0]), RowRecord(rows[1])]
  {
    var recs, mask := RowRecords(rows), RowMask(rows, uniprotId);
    Seqs.SelectDropUnsetTail(recs, mask, 2);
    Seqs.SelectStep(recs, mask, 1);
    Seqs.SelectStep(recs, mask, 0);
    assert recs[..0] == [] && mask[..0] == [];
  }

  /** The EGFR lookup over the seeded table finds Gefitinib and Erlotinib, in that order. */
  lemma SeededEgfrLookup()
    ensures var r := FallbackLookup("P00533", Table(SeedRows()));
      |r| == 2 && r[0].name == Some("Gefitinib") && r[1].name == Some("Erlotinib") &&
      r[0].molId == Some("D00001") && r[1].molId == Some("D00002")
  {
    SeededEgfrRows();
  }

  // ---------------------------------------------------------------------------
  // Live API.

  /** A JSON member: missing, null, or a string. */
  datatype JsonField = Absent | Null | Str(s: string)

  datatype ApiItem = ApiItem(smiles: JsonField, drugId: JsonField, name: JsonField)

  /** The HTTP outcome; a body without "drugs" is an empty list. */
  datatype ApiReply = ApiFailure | ApiResponse(status: int, drugs: seq<ApiItem>)

  /** `item.get(key)`: missing and null both read as None. */
  function FieldValue(f: JsonField): Option<string> {
    if f.Str? then Some(f.s) else None
  }

  function ItemRecord(item: ApiItem): MoleculeRecord {
    NewMolecule(if item.smiles.Str? then item.smiles.s else "").(molId := FieldValue(item.drugId), name := FieldValue(item.name))
  }

  function ItemRecords(items: seq<ApiItem>): (r: seq<MoleculeRecord>)
    ensures |r| == |items| && forall i :: 0 <= i < |items| ==> r[i] == ItemRecord(items[i])
  {
    seq(|items|, i requires 0 <= i < |items| => ItemRecord(items[i]))
  }

  function ItemMask(items: seq<ApiItem>): (m: seq<bool>)
    ensures |m| == |items| && forall i :: 0 <= i < |items| ==> m[i] == !items[i].smiles.Absent?
  {
    seq(|items|, i requires 0 <= i < |items| => !items[i].smiles.Absent?)
  }

  /** An item whose "smiles" is null fails validation and aborts the call. */
  predicate AnyNullSmiles(items: seq<ApiItem>) {
    exists i :: 0 <= i < |items| && items[i].smiles.Null?
  }

  function ApiLookup(reply: ApiReply): seq<MoleculeRecord> {
    if !reply.ApiResponse? || reply.status != 200 || AnyNullSmiles(reply.drugs) then []
    else Seqs.Select(ItemRecords(reply.drugs), ItemMask(reply.drugs))
  }

  method FetchFromTtdApi(reply: ApiReply) returns (molecules: seq<MoleculeRecord>)
    ensures molecules == ApiLookup(reply)
  {
    if !reply.ApiResponse? || reply.status != 200 {
      return [];
    }
    var items := reply.drugs;
    ghost var recs, mask := ItemRecords(items), ItemMask(items);
    molecules := [];
    var i := 0;
    while i < |items|
      invariant 0 <= i <= |items|
      invariant forall j :: 0 <= j < i ==> !items[j].smiles.Null?
      invariant molecules == Seqs.Select(recs[..i], mask[..i])
    {
      Seqs.SelectStep(recs, mask, i);
      var item := items[i];
      if !item.smiles.Absent? {
        if item.smiles.Null? {
          return [];
        }
        molecules := molecules + [NewMolecule(item.smiles.s).(molId := FieldValue(item.drugId), name := FieldValue(item.name))];
      }
      i := i + 1;
    }
    assert recs[..i] == recs && mask[..i] == mask;
  }

  /** Items without "smiles" are skipped, the others kept in order with
      drug_id -> mol_id and name -> name. */
  lemma ApiLookupExactly(reply: ApiReply)
    requires reply.ApiResponse? && reply.status == 200 && !AnyNullSmiles(reply.drugs)
    ensures var items := reply.drugs;
      var r, ix := ApiLookup(reply), Seqs.SetPositions(ItemMask(items));
      |r| == |ix| && Seqs.StrictlyIncreasing(ix) &&
      (forall j :: 0 <= j < |r| ==> ix[j] < |items| && items[ix[j]].smiles.Str? &&
                                    r[j].smiles == items[ix[j]].smiles.s &&
                                    r[j].molId == FieldValue(items[ix[j]].drugId) &&
                                    r[j].name == FieldValue(items[ix[j]].name)) &&
      (forall i :: 0 <= i < |items| && items[i].smiles.Str? ==> i in ix)
  {
    Seqs.SelectExactly(ItemRecords(reply.drugs), ItemMask(reply.drugs));
  }

  // ---------------------------------------------------------------------------
  // get_molecules_by_uniprot

  /** The API is asked only when base URL and key are both set, and its answer
      is used only when non-empty; otherwise the fallback table answers. */
  method GetMoleculesByUniprot(uniprotId: string, baseUrl: Option<string>, apiKey: Option<string>,
                               reply: ApiReply, file: FallbackFile) returns (molecules: seq<MoleculeRecord>)
    ensures TruthyText(baseUrl) && TruthyText(apiKey) && ApiLookup(reply) != [] ==>
              molecules == ApiLookup(reply)
    ensures !(TruthyText(baseUrl) && TruthyText(apiKey) && ApiLookup(reply) != []) ==>
              molecules == FallbackLookup(uniprotId, file)
  {
    if TruthyText(baseUrl) && TruthyText(apiKey) {
      molecules := FetchFromTtdApi(reply);
      if molecules != [] {
        return;
      }
    }
    molecules := FetchFromFallback(uniprotId, file);
  }

  function TtdLookup(uniprotId: string, baseUrl: Option<string>, apiKey: Option<string>,
                     reply: ApiReply, file: FallbackFile): seq<MoleculeRecord> {
    if TruthyText(baseUrl) && TruthyText(apiKey) && ApiLookup(reply) != [] then ApiLookup(reply)
    else FallbackLookup(uniprotId, file)
  }
}
