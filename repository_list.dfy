/** Listing the repositories of the account a token belongs to
    (github-plugin-installer-and-updater.php, `fetch_repositories`). */
module RepositoryList {
  import opened Platform
  import opened Strings
  import opened Requests
  import opened Transients

  /** One element of the decoded `/user/repos` JSON array: each field is
      absent when the element does not have it (or is not an object). */
  datatype RepoRecord = RepoRecord(fullName: Option<string>, htmlUrl: Option<string>, defaultBranch: Option<string>)

  const ReposEndpoint := "https://api.github.com/user/repos?per_page=100"
  const GithubReposError := "github_repos"
  const MsgInvalidResponse := "Invalid response received from GitHub."

  function ReposFailureMessage(code: int): string {
    "Unable to fetch repositories. GitHub returned HTTP " + IntToString(code) + "."
  }

  /** The listing request. Unlike the other requests, it always carries an
      `Authorization` header, even for an empty token. */
  function RepositoriesRequest(token: string, userAgent: string): (q: HttpRequest)
    ensures q.url == ReposEndpoint && q.timeout == RequestTimeout && q.streamTo.None?
    ensures q.headers == map[AcceptHeader := GithubMediaType, AuthorizationHeader := Bearer(token), UserAgentHeader := userAgent]
  {
    HttpRequest(ReposEndpoint,
      map[AcceptHeader := GithubMediaType, AuthorizationHeader := Bearer(token), UserAgentHeader := userAgent],
      RequestTimeout, None)
  }

  /** A record is listed when both its full name and its page URL are
      present and not empty. */
  predicate Usable(r: RepoRecord) {
    r.fullName.Some? && !PhpEmpty(r.fullName.value) && r.htmlUrl.Some? && !PhpEmpty(r.htmlUrl.value)
  }

  /** The listed form of a usable record; a missing default branch is `main`. */
  function ToEntry(r: RepoRecord): RepositoryEntry
    requires Usable(r)
  {
    RepositoryEntry(r.fullName.value, r.htmlUrl.value,
      if r.defaultBranch.Some? then r.defaultBranch.value else "main")
  }

  /** The listing of `records`: the usable ones, in their order. */
  function UsableRepositories(records: seq<RepoRecord>): (repos: seq<RepositoryEntry>)
    ensures |repos| <= |records|
  {
    if records == [] then []
    else
      var before := UsableRepositories(records[..|records| - 1]);
      var last := records[|records| - 1];
      if Usable(last) then before + [ToEntry(last)] else before
  }

  /** Every usable record is listed, everything listed comes from a usable
      record, no entry has an empty name or URL, and nothing is dropped when
      every record is usable. */
  lemma {:induction false} UsableRepositoriesExact(records: seq<RepoRecord>)
    ensures var repos := UsableRepositories(records);
      && (forall i :: 0 <= i < |repos| ==> !PhpEmpty(repos[i].fullName) && !PhpEmpty(repos[i].htmlUrl))
      && (forall j :: 0 <= j < |records| && Usable(records[j]) ==> ToEntry(records[j]) in repos)
      && (forall i :: 0 <= i < |repos| ==> exists j :: 0 <= j < |records| && Usable(records[j]) && repos[i] == ToEntry(records[j]))
      && ((forall j :: 0 <= j < |records| ==> Usable(records[j])) ==> |repos| == |records|)
  {
    if records != [] {
      var init := records[..|records| - 1];
      UsableRepositoriesExact(init);
      assert forall j :: 0 <= j < |init| ==> init[j] == records[j];
      var repos := UsableRepositories(records);
      var before := UsableRepositories(init);
      assert forall i :: 0 <= i < |before| ==> repos[i] == before[i];
    }
  }

  /** Keeping a record also keeps its position relative to the others: the
      listing of a concatenation is the concatenation of the listings. */
  lemma {:induction false} UsableRepositoriesAppend(a: seq<RepoRecord>, b: seq<RepoRecord>)
    ensures UsableRepositories(a + b) == UsableRepositories(a) + UsableRepositories(b)
    decreases |b|
  {
    if b == [] {
      assert a + b == a;
    } else {
      var b0 := b[..|b| - 1];
      assert (a + b)[..|a + b| - 1] == a + b0;
      assert (a + b)[|a + b| - 1] == b[|b| - 1];
      UsableRepositoriesAppend(a, b0);
    }
  }

  /** The `foreach` of `fetch_repositories` that builds the listing. */
  method FilterRepositories(records: seq<RepoRecord>) returns (repos: seq<RepositoryEntry>)
    ensures repos == UsableRepositories(records)
  {
    repos := [];
    var i := 0;
    while i < |records|
      invariant 0 <= i <= |records|
      invariant repos == UsableRepositories(records[..i])
    {
      var r := records[i];
      assert records[..i + 1][..i] == records[..i];
      if Usable(r) {
        repos := repos + [ToEntry(r)];
      }
      i := i + 1;
    }
    assert records[..|records|] == records;
  }

  /** What `fetch_repositories` returns for a response, `decode` standing
      for `json_decode( $body, true )` (absent when the body is not a JSON
      array). Transport errors pass through; any status but 200 is a
      `github_repos` error carrying the body or a message naming the status;
      a body that is not an array is a `github_repos` error too. */
  function RepositoriesFromResponse(response: HttpResponse, decode: string -> Option<seq<RepoRecord>>): (r: Result<seq<RepositoryEntry>>)
    ensures r.Ok? <==> response.Response? && response.code == 200 && decode(response.body).Some?
    ensures r.Ok? ==> r.value == UsableRepositories(decode(response.body).value)
    ensures response.TransportError? ==> r == Err(response.error)
    ensures response.Response? && response.code != 200 ==>
      r == Err(WpError(GithubReposError, if PhpEmpty(response.body) then ReposFailureMessage(response.code) else response.body))
    ensures response.Response? && response.code == 200 && decode(response.body).None? ==>
      r == Err(WpError(GithubReposError, MsgInvalidResponse))
  {
    match response
    case TransportError(e) => Err(e)
    case Response(code, body) =>
      if code != 200 then
        Err(WpError(GithubReposError, if PhpEmpty(body) then ReposFailureMessage(code) else body))
      else
        match decode(body)
        case None => Err(WpError(GithubReposError, MsgInvalidResponse))
        case Some(records) => Ok(UsableRepositories(records))
  }

  /** `fetch_repositories( $token )`, `network` standing for `wp_remote_get`. */
  method FetchRepositories(token: string, userAgent: string, network: HttpRequest -> HttpResponse, decode: string -> Option<seq<RepoRecord>>)
    returns (r: Result<seq<RepositoryEntry>>)
    ensures r == RepositoriesFromResponse(network(RepositoriesRequest(token, userAgent)), decode)
  {
    var response := network(RepositoriesRequest(token, userAgent));
    match response
    case TransportError(e) =>
      return Err(e);
    case Response(code, body) =>
      if code != 200 {
        return Err(WpError(GithubReposError, if PhpEmpty(body) then ReposFailureMessage(code) else body));
      }
      match decode(body)
      case None =>
        return Err(WpError(GithubReposError, MsgInvalidResponse));
      case Some(records) =>
        var repos := FilterRepositories(records);
        return Ok(repos);
  }
}
