/** The HTTP requests the plugin sends to GitHub and how it reads their
    responses (github-plugin-installer-and-updater.php, `download_package`,
    `maybe_authorize_github_download`, the request part of
    `get_self_update_remote_info`). */
module Requests {
  import opened Platform
  import opened Strings
  import opened RepositoryUrl

  const AcceptHeader := "Accept"
  const UserAgentHeader := "User-Agent"
  const AuthorizationHeader := "Authorization"
  const GithubMediaType := "application/vnd.github+json"

  /** Seconds before an ordinary request gives up, and before a package
      download does. */
  const RequestTimeout := 30
  const DownloadTimeout := 60

  function Bearer(token: string): string {
    "Bearer " + token
  }

  /** The headers sent with downloads and with the self-update lookup: the
      GitHub media type and the site's user agent always, and a bearer token
      exactly when a token is configured. */
  function GithubHeaders(userAgent: string, token: string): (h: map<string, string>)
    ensures AcceptHeader in h && h[AcceptHeader] == GithubMediaType
    ensures UserAgentHeader in h && h[UserAgentHeader] == userAgent
    ensures AuthorizationHeader in h <==> !PhpEmpty(token)
    ensures AuthorizationHeader in h ==> h[AuthorizationHeader] == Bearer(token)
    ensures h.Keys <= {AcceptHeader, UserAgentHeader, AuthorizationHeader}
  {
    var base := map[AcceptHeader := GithubMediaType, UserAgentHeader := userAgent];
    if PhpEmpty(token) then base else base[AuthorizationHeader := Bearer(token)]
  }

  /** The streamed request of `download_package`, writing the body to `tmp`. */
  function DownloadRequest(url: string, token: string, tmp: string, userAgent: string): (q: HttpRequest)
    ensures q.url == url && q.streamTo == Some(tmp) && q.timeout == DownloadTimeout
    ensures AuthorizationHeader in q.headers <==> !PhpEmpty(token)
  {
    HttpRequest(url, GithubHeaders(userAgent, token), DownloadTimeout, Some(tmp))
  }

  const DownloadFailed := "download_failed"

  function UnexpectedDownloadMessage(code: int): string {
    "Unexpected response from GitHub (HTTP " + IntToString(code) + ")."
  }

  /** How `download_package` reads the response to its request: a transport
      error is passed on, any status of 400 or more is a `download_failed`
      error carrying the body (or a message naming the status when the body
      is empty), and anything else means the archive is in `tmp`. */
  function ClassifyDownload(response: HttpResponse, tmp: string): (r: Result<string>)
    ensures r.Ok? <==> response.Response? && response.code < 400
    ensures r.Ok? ==> r.value == tmp
    ensures response.TransportError? ==> r == Err(response.error)
    ensures response.Response? && response.code >= 400 ==>
      r.error.code == DownloadFailed &&
      r.error.message == (if PhpEmpty(response.body) then UnexpectedDownloadMessage(response.code) else response.body)
  {
    match response
    case TransportError(e) => Err(e)
    case Response(code, body) =>
      if code >= 400 then
        Err(WpError(DownloadFailed, if PhpEmpty(body) then UnexpectedDownloadMessage(code) else body))
      else
        Ok(tmp)
  }

  /** The arguments of an outgoing request as seen by the `http_request_args`
      filter: its `headers` entry when that entry is an array, and the other
      arguments, which the filter never touches. */
  datatype RequestArgs = RequestArgs(headers: Option<map<string, string>>, others: map<string, string>)

  /** `empty( $headers[ $name ] )`. */
  predicate HeaderUnset(h: map<string, string>, name: string) {
    name !in h || PhpEmpty(h[name])
  }

  function HeadersOrEmpty(args: RequestArgs): map<string, string> {
    if args.headers.Some? then args.headers.value else map[]
  }

  /** `maybe_authorize_github_download`. Without a configured token, or for
      a URL that is not under `api.github.com/repos` (compared without regard
      to case), the arguments pass through untouched. Otherwise the request
      gets a headers array in which a missing or empty `Authorization` is
      set to the bearer token and a missing or empty `User-Agent` to the
      site's user agent; a non-empty value already there is kept, and no
      other header or argument changes. */
  function AuthorizeGithubDownload(args: RequestArgs, url: string, token: string, userAgent: string): (r: RequestArgs)
    ensures PhpEmpty(token) || !Contains(Lower(url), ApiRepos) ==> r == args
    ensures !PhpEmpty(token) && Contains(Lower(url), ApiRepos) ==>
      var before := HeadersOrEmpty(args);
      && r.others == args.others
      && r.headers.Some?
      && r.headers.value.Keys == before.Keys + {AuthorizationHeader, UserAgentHeader}
      && r.headers.value[AuthorizationHeader] == (if HeaderUnset(before, AuthorizationHeader) then Bearer(token) else before[AuthorizationHeader])
      && r.headers.value[UserAgentHeader] == (if HeaderUnset(before, UserAgentHeader) then userAgent else before[UserAgentHeader])
      && (forall k :: k in before && k != AuthorizationHeader && k != UserAgentHeader ==> r.headers.value[k] == before[k])
  {
    if PhpEmpty(token) || !Contains(Lower(url), ApiRepos) then
      args
    else
      var h0 := HeadersOrEmpty(args);
      var h1 := if HeaderUnset(h0, AuthorizationHeader) then h0[AuthorizationHeader := Bearer(token)] else h0;
      var h2 := if HeaderUnset(h1, UserAgentHeader) then h1[UserAgentHeader := userAgent] else h1;
      RequestArgs(Some(h2), args.others)
  }

  /** Applying the filter a second time changes nothing: once both headers
      are non-empty they are kept. */
  lemma AuthorizeIdempotent(args: RequestArgs, url: string, token: string, userAgent: string)
    requires !PhpEmpty(userAgent)
    ensures var once := AuthorizeGithubDownload(args, url, token, userAgent);
      AuthorizeGithubDownload(once, url, token, userAgent) == once
  {
    var once := AuthorizeGithubDownload(args, url, token, userAgent);
    if !PhpEmpty(token) && Contains(Lower(url), ApiRepos) {
      var h := once.headers.value;
      assert !PhpEmpty(Bearer(token)) by {
        assert |Bearer(token)| >= 7;
      }
      assert !HeaderUnset(h, AuthorizationHeader);
      assert !HeaderUnset(h, UserAgentHeader);
    }
  }

  /** The package downloads the plugin itself builds are exactly the
      requests this filter authorizes. */
  lemma ZipballDownloadsAreAuthorized(args: RequestArgs, r: Repository, branch: string, token: string, userAgent: string)
    requires !PhpEmpty(token)
    ensures AuthorizeGithubDownload(args, ZipballUrl(r, branch), token, userAgent).headers.Some?
    ensures AuthorizationHeader in AuthorizeGithubDownload(args, ZipballUrl(r, branch), token, userAgent).headers.value
  {
    ZipballIsApiRequest(r, branch);
  }

  /** The request of the self-update lookup for the plugin's main file on
      the given branch. */
  function RawFileRequest(r: Repository, branch: string, token: string, userAgent: string): (q: HttpRequest)
    ensures q.url == RawFileUrl(r, branch) && q.streamTo.None? && q.timeout == RequestTimeout
    ensures AuthorizationHeader in q.headers <==> !PhpEmpty(token)
  {
    HttpRequest(RawFileUrl(r, branch), GithubHeaders(userAgent, token), RequestTimeout, None)
  }
}
