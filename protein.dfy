/** The protein service: where structures are fetched from and where a
    structure is saved; the HTTP replies are inputs. */
module Protein {
  import opened Common
  import Config

  const RcsbDownloadPrefix: string := "https://files.rcsb.org/download/"

  /** The RCSB download URL of a PDB entry; the id is upper-cased. */
  function PdbUrl(pdbId: string): (url: string)
    ensures StartsWith(url, RcsbDownloadPrefix) && EndsWith(url, ".pdb")
    ensures |url| == |RcsbDownloadPrefix| + |pdbId| + 4
  {
    RcsbDownloadPrefix + Upper(pdbId) + ".pdb"
  }

  /** The entry id named by an RCSB download URL. */
  function PdbIdOfUrl(url: string): Option<string> {
    if |url| >= |RcsbDownloadPrefix| + 4 && StartsWith(url, RcsbDownloadPrefix) && EndsWith(url, ".pdb")
    then Some(url[|RcsbDownloadPrefix|..|url| - 4])
    else None
  }

  /** The URL names the upper-cased id, so ids differing only in ASCII case
      fetch the same file. */
  lemma PdbUrlRoundTrip(pdbId: string, other: string)
    ensures PdbIdOfUrl(PdbUrl(pdbId)) == Some(Upper(pdbId))
    ensures Upper(pdbId) == Upper(other) <==> PdbUrl(pdbId) == PdbUrl(other)
  {
    var u := PdbUrl(pdbId);
    assert u[|RcsbDownloadPrefix|..|u| - 4] == Upper(pdbId);
    if PdbUrl(pdbId) == PdbUrl(other) {
      var v := PdbUrl(other);
      assert v[|RcsbDownloadPrefix|..|v| - 4] == Upper(other);
    }
  }

  /** The AlphaFold prediction lookup URL: configured base, "prediction/", id. */
  function AlphafoldUrl(baseUrl: string, uniprotId: string): (url: string)
    ensures |url| == |baseUrl| + 11 + |uniprotId|
    ensures StartsWith(url, baseUrl) && EndsWith(url, uniprotId)
    ensures url[|baseUrl|..|url| - |uniprotId|] == "prediction/"
  {
    var url := baseUrl + "prediction/" + uniprotId;
    assert url[|baseUrl|..|url| - |uniprotId|] == "prediction/";
    url
  }

  /** An HTTP GET outcome: an exception, or a status and body text. */
  datatype HttpReply = NetworkError | HttpResponse(status: int, text: string)

  /** The RCSB fetch, given the reply to `PdbUrl(pdbId)`: the body of a 200
      reply, otherwise nothing. */
  function FetchPdbStructure(pdbId: string, reply: HttpReply): (r: Option<string>)
    ensures r.Some? <==> reply.HttpResponse? && reply.status == 200
    ensures r.Some? ==> r.value == reply.text
  {
    if reply.HttpResponse? && reply.status == 200 then Some(reply.text) else None
  }

  datatype AlphafoldEntry = AlphafoldEntry(pdbUrl: Option<string>)

  /** The reply to the prediction lookup. */
  datatype AlphafoldMeta = MetaError | MetaResponse(status: int, entries: seq<AlphafoldEntry>)

  /** The structure URL the lookup names: the first entry's non-empty "pdbUrl". */
  function AlphafoldPdbUrl(meta: AlphafoldMeta): Option<string> {
    if meta.MetaResponse? && meta.status == 200 && |meta.entries| > 0 && TruthyText(meta.entries[0].pdbUrl)
    then meta.entries[0].pdbUrl
    else None
  }

  /** The AlphaFold fetch: the lookup reply, then the reply to the structure
      download (consulted only when the lookup names a URL). */
  function FetchAlphafoldStructure(uniprotId: string, meta: AlphafoldMeta, pdb: HttpReply): (r: Option<string>)
    ensures r.Some? <==> AlphafoldPdbUrl(meta).Some? && pdb.HttpResponse? && pdb.status == 200
    ensures r.Some? ==> r.value == pdb.text
  {
    if AlphafoldPdbUrl(meta).Some? && pdb.HttpResponse? && pdb.status == 200 then Some(pdb.text) else None
  }

  /** `<artifacts_dir>/<run_id>/protein.pdb`. */
  function StructurePath(runId: string): (path: string)
    ensures StartsWith(path, Config.RunDir(runId) + "/")
    ensures path[|Config.RunDir(runId)| + 1..] == "protein.pdb"
  {
    var path := Config.RunDir(runId) + "/" + "protein.pdb";
    assert path[..|Config.RunDir(runId)| + 1] == Config.RunDir(runId) + "/";
    path
  }

  /** Creates the run directory and writes the structure text into it. */
  method SaveStructureToFile(store: Config.ArtifactStore, structureData: string, runId: string) returns (path: string)
    modifies store
    ensures path == StructurePath(runId)
    ensures store.dirs == old(store.dirs) + {Config.RunDir(runId)}
    ensures store.files == old(store.files)[path := structureData]
  {
    var dir := Config.RunDir(runId);
    store.MakeDir(dir);
    var ok := store.WriteText(dir, "protein.pdb", structureData);
    path := dir + "/" + "protein.pdb";
  }

  /** A placeholder that returns the whole structure. */
  function ExtractBindingSite(structureData: string): (r: Option<string>)
    ensures r == Some(structureData)
  {
    Some(structureData)
  }
}
