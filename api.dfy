/** The front end's API client (frontend/src/services/api.js): its base URL and
    the request paths it builds, and, as their partner, how the back end's
    download route reads such a path back. The HTTP calls are not modelled. */
module Api {
  import opened Common

  const DefaultBaseUrl: string := "http://localhost:8000/api"

  /** `process.env.REACT_APP_API_URL || default`. */
  function BaseUrl(env: Option<string>): (r: string)
    ensures r != ""
    ensures r == DefaultBaseUrl <== !TruthyText(env)
    ensures TruthyText(env) <==> env.Some? && r == env.value && r != ""
  {
    if TruthyText(env) then env.value else DefaultBaseUrl
  }

  const TtdPath: string := "/generate/ttd"
  const StructurePath: string := "/generate/structure"
  const RunsPath: string := "/download/runs"
  const StatusPrefix: string := "/generate/status/"
  const DownloadPrefix: string := "/download/run/"

  function StatusPath(runId: string): string {
    StatusPrefix + runId
  }

  /** `downloadFile`: the run and type as path segments and, only when the
      molecule id is truthy, `?mol_id=<id>` with no escaping. */
  function DownloadPath(runId: string, fileType: string, molId: Option<string>): string {
    DownloadPrefix + runId + "/" + fileType + QueryOf(molId)
  }

  // ---------------------------------------------------------------------------
  // The back end's reading of a download path (`/run/{run_id}/{file_type}`
  // under the `/download` prefix, and the `mol_id` query parameter).

  datatype DownloadQuery = DownloadQuery(runId: string, fileType: string, molId: Option<string>)

  /** The query string's `mol_id`, read literally. */
  function QueryParam(q: string): Option<string> {
    if StartsWith(q, "mol_id=") then Some(q[7..]) else None
  }

  /** The file-type segment and the query's `mol_id`, split at the first '?'. */
  function SplitQuery(tail: string): (string, Option<string>) {
    match IndexOf(tail, '?')
    case None => (tail, None)
    case Some(j) => (tail[..j], QueryParam(tail[j + 1..]))
  }

  function RouteDownload(path: string): Option<DownloadQuery> {
    if !StartsWith(path, DownloadPrefix) then None
    else
      var rest := path[|DownloadPrefix|..];
      match IndexOf(rest, '/')
      case None => None
      case Some(i) =>
        var runId, tail := rest[..i], rest[i + 1..];
        var split := SplitQuery(tail);
        var fileType, molId := split.0, split.1;
        if runId == [] || fileType == [] || '/' in fileType then None
        else Some(DownloadQuery(runId, fileType, molId))
  }

  /** A non-empty path segment the router and the browser leave alone. */
  predicate Segment(s: string) {
    s != [] && forall k :: 0 <= k < |s| ==> s[k] !in "/?#%"
  }

  /** A query value whose literal reading equals its decoded one. */
  predicate QuerySafe(s: string) {
    forall k :: 0 <= k < |s| ==> s[k] !in "&#%+"
  }

  lemma IndexOfAfter(a: string, c: char, b: string)
    requires forall k :: 0 <= k < |a| ==> a[k] != c
    ensures IndexOf(a + [c] + b, c) == Some(|a|)
  {
    var s := a + [c] + b;
    assert s[|a|] == c;
    match IndexOf(s, c)
    case None =>
    case Some(i) =>
      if i < |a| {
        assert s[i] == a[i];
      }
  }

  /** The query the client appends, if any. */
  function QueryOf(molId: Option<string>): string {
    if TruthyText(molId) then "?mol_id=" + molId.value else ""
  }

  lemma SplitQueryOf(fileType: string, molId: Option<string>)
    requires Segment(fileType)
    ensures SplitQuery(fileType + QueryOf(molId)) == (fileType, if TruthyText(molId) then molId else None)
  {
    var tail := fileType + QueryOf(molId);
    if TruthyText(molId) {
      var q := "mol_id=" + molId.value;
      assert tail == fileType + ['?'] + q;
      IndexOfAfter(fileType, '?', q);
      assert tail[..|fileType|] == fileType && tail[|fileType| + 1..] == q;
      assert q[..7] == "mol_id=" && q[7..] == molId.value;
    } else {
      assert tail == fileType;
    }
  }

  /** The back end reads back exactly the run, the type and the molecule id the
      client put in the path; a falsy molecule id arrives as no id at all. */
  lemma DownloadRoundTrip(runId: string, fileType: string, molId: Option<string>)
    requires Segment(runId) && Segment(fileType)
    requires TruthyText(molId) ==> QuerySafe(molId.value)
    ensures RouteDownload(DownloadPath(runId, fileType, molId)) ==
            Some(DownloadQuery(runId, fileType, if TruthyText(molId) then molId else None))
  {
    var tail := fileType + QueryOf(molId);
    var path := DownloadPath(runId, fileType, molId);
    assert path == DownloadPrefix + (runId + ['/'] + tail);
    assert path[..|DownloadPrefix|] == DownloadPrefix;
    var rest := path[|DownloadPrefix|..];
    assert rest == runId + ['/'] + tail;
    IndexOfAfter(runId, '/', tail);
    assert rest[..|runId|] == runId && rest[|runId| + 1..] == tail;
    SplitQueryOf(fileType, molId);
  }

  /** No other endpoint's path is routed to the download handler; in particular
      the run listing `/download/runs` is not a download of run "s". */
  lemma OtherPathsNotDownloads(runId: string)
    ensures RouteDownload(StatusPath(runId)).None?
    ensures RouteDownload(TtdPath).None? && RouteDownload(StructurePath).None?
    ensures RouteDownload(RunsPath).None?
  {
    assert StatusPath(runId)[1] == 'g';
    assert RunsPath[13] == 's';
  }

  /** What the generation screens show when a request fails: the server's
      `detail`, else a fixed message. */
  function FailureText(detail: Option<string>): (r: string)
    ensures r != ""
    ensures TruthyText(detail) ==> r == detail.value
  {
    if TruthyText(detail) then detail.value else "Failed to generate molecules"
  }

  /** The browser's constraint validation of the screens' count field, a
      `type="number"` input with min 1 and max 20 inside the form: the form's
      submit event, and so `handleSubmit`, fires only for a count in [1, 20]. */
  predicate CountFieldValid(count: int) {
    1 <= count <= 20
  }
}
