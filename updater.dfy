/** The add-on object (`Github_Plugin_Installer_And_Updater_Addon` in
    github-plugin-installer-and-updater.php): its cached settings, and the
    operations that read and write the transient store, resolve the
    self-update offer, and run an update from GitHub. Each operation on
    the store is specified by a pure function of the store before it; the
    properties of the caches are lemmas about those functions. */
module Updater {
  import opened Platform
  import opened Strings
  import opened RepositoryUrl
  import opened PluginHeader
  import opened Transients
  import opened Requests
  import opened RepositoryList
  import opened Files
  import opened Installer
  import opened Settings

  /** Request-scoped inputs: `$_GET['force-check']`, whether `WP_CLI` is
      defined and true, and `refresh_repos` from the query string after
      `FILTER_SANITIZE_NUMBER_INT` (absent when not given). */
  datatype RequestContext = RequestContext(forceCheck: Option<string>, wpCli: bool, refreshRepos: Option<string>)

  /** `should_bypass_self_update_cache`: an explicit `force-check=1`, or a
      WP-CLI run. */
  predicate ShouldBypassSelfUpdateCache(ctx: RequestContext) {
    ctx.forceCheck == Some("1") || ctx.wpCli
  }

  /** `! $refresh` is false: the parameter is present and not empty. */
  predicate RefreshRequested(ctx: RequestContext) {
    ctx.refreshRepos.Some? && !PhpEmpty(ctx.refreshRepos.value)
  }

  /** What an operation on the transient store returns, and the store after it. */
  datatype CacheStep<T> = CacheStep(result: Result<T>, entries: map<string, Entry>)

  // ---------------------------------------------------------------------
  // get_self_update_remote_info

  const SelfUpdateRemoteCode := "self_update_remote"
  const MsgRemoteUnavailable := "Unable to fetch plugin details from GitHub for self updates."
  const MsgNoMetadata := "The GitHub response did not contain plugin metadata."
  const SelfUpdateVersionError := WpError("self_update_version", "Unable to determine the remote plugin version for self updates.")

  /** How the self-update lookup reads the raw copy of the main plugin
      file. Only a 200 response whose body is not empty and has a version
      header gives an offer: the version read from the header, the zipball
      of the configured branch (a URL the download filter authorizes) and
      the repository page. Every other response is an error: transport
      errors as they are, other statuses `self_update_remote` with the
      body or a fixed message, an empty body `self_update_remote`, and a
      missing version `self_update_version`. */
  function RemoteFromResponse(repo: Repository, branch: string, response: HttpResponse): (r: Result<RemoteInfo>)
    ensures r.Ok? <==> response.Response? && response.code == 200 && !PhpEmpty(response.body) && !PhpEmpty(ExtractVersion(response.body))
    ensures r.Ok? ==> r.value == RemoteInfo(ExtractVersion(response.body), ZipballUrl(repo, branch), HomepageUrl(repo))
    ensures r.Ok? ==> Contains(Lower(r.value.package), ApiRepos)
    ensures response.TransportError? ==> r == Err(response.error)
    ensures response.Response? && response.code != 200 ==>
      r == Err(WpError(SelfUpdateRemoteCode, if PhpEmpty(response.body) then MsgRemoteUnavailable else response.body))
    ensures response.Response? && response.code == 200 && PhpEmpty(response.body) ==>
      r == Err(WpError(SelfUpdateRemoteCode, MsgNoMetadata))
    ensures response.Response? && response.code == 200 && !PhpEmpty(response.body) && PhpEmpty(ExtractVersion(response.body)) ==>
      r == Err(SelfUpdateVersionError)
  {
    match response
    case TransportError(e) => Err(e)
    case Response(code, body) =>
      if code != 200 then
        Err(WpError(SelfUpdateRemoteCode, if PhpEmpty(body) then MsgRemoteUnavailable else body))
      else if PhpEmpty(body) then
        Err(WpError(SelfUpdateRemoteCode, MsgNoMetadata))
      else
        var version := ExtractVersion(body);
        if PhpEmpty(version) then
          Err(SelfUpdateVersionError)
        else
          ZipballIsApiRequest(repo, branch);
          Ok(RemoteInfo(version, ZipballUrl(repo, branch), HomepageUrl(repo)))
  }

  /** The self-update repository and branch configured in `s`. */
  function SelfUpdateKey(s: map<string, string>): string {
    SelfUpdateCacheKey(Setting(s, SelfUpdateUrlKey), Setting(s, SelfUpdateBranchKey))
  }

  /** The lookup without the cache: parse the configured URL, read the raw
      main file of the branch (`main` when none is set) with the token. */
  function FetchRemoteInfo(s: map<string, string>, host: Host, network: HttpRequest -> HttpResponse): Result<RemoteInfo> {
    match ParseRepositoryUrl(host.parseUrl(Setting(s, SelfUpdateUrlKey)))
    case Err(e) => Err(e)
    case Ok(repo) =>
      var branch := EffectiveBranch(Setting(s, SelfUpdateBranchKey));
      RemoteFromResponse(repo, branch, network(RawFileRequest(repo, branch, Setting(s, GithubTokenKey), host.UserAgent())))
  }

  /** `get_self_update_remote_info( $s )` on the store `entries` at time
      `now`. Without a bypass a live entry under the settings' key is the
      answer and nothing changes. Otherwise (a bypass deletes the entry
      first) the remote file is read, and only a successful lookup is
      stored, for five minutes; a failing one leaves the store as it was
      after the deletion. No other key is touched. */
  function SelfUpdateStep(entries: map<string, Entry>, s: map<string, string>, ctx: RequestContext, now: int,
                          host: Host, network: HttpRequest -> HttpResponse): (step: CacheStep<RemoteInfo>)
    requires WellTyped(entries)
    ensures WellTyped(step.entries)
    ensures !ShouldBypassSelfUpdateCache(ctx) && LookupIn(entries, SelfUpdateKey(s), now).Some? ==>
      step == CacheStep(Ok(LookupIn(entries, SelfUpdateKey(s), now).value.info), entries)
    ensures ShouldBypassSelfUpdateCache(ctx) || LookupIn(entries, SelfUpdateKey(s), now).None? ==>
      step.result == FetchRemoteInfo(s, host, network)
    ensures ShouldBypassSelfUpdateCache(ctx) && step.result.Err? ==> step.entries == entries - {SelfUpdateKey(s)}
    ensures !ShouldBypassSelfUpdateCache(ctx) && step.result.Err? ==> step.entries == entries
    ensures (ShouldBypassSelfUpdateCache(ctx) || LookupIn(entries, SelfUpdateKey(s), now).None?) && step.result.Ok? ==>
      LookupIn(step.entries, SelfUpdateKey(s), now + SelfUpdateTtl) == Some(RemoteMeta(step.result.value)) &&
      step.entries[SelfUpdateKey(s)].expiresAt == now + SelfUpdateTtl
  {
    var key := SelfUpdateKey(s);
    SelfUpdateKeyFamily(Setting(s, SelfUpdateUrlKey), Setting(s, SelfUpdateBranchKey));
    var bypass := ShouldBypassSelfUpdateCache(ctx);
    var cached := LookupIn(entries, key, now);
    if !bypass && cached.Some? then
      CacheStep(Ok(cached.value.info), entries)
    else
      var start := if bypass then entries - {key} else entries;
      var fetched := FetchRemoteInfo(s, host, network);
      if fetched.Ok? then
        StoreKeepsWellTyped(start, key, RemoteMeta(fetched.value), SelfUpdateTtl, now);
        CacheStep(fetched, StoreIn(start, key, RemoteMeta(fetched.value), SelfUpdateTtl, now))
      else
        CacheStep(fetched, start)
  }

  /** The self-update lookup touches no other key of the store. */
  lemma SelfUpdateStepKeepsOtherKeys(entries: map<string, Entry>, s: map<string, string>, ctx: RequestContext, now: int,
                                     host: Host, network: HttpRequest -> HttpResponse, k: string)
    requires WellTyped(entries) && k != SelfUpdateKey(s)
    ensures var step := SelfUpdateStep(entries, s, ctx, now, host, network);
      (k in step.entries <==> k in entries) && (k in entries ==> step.entries[k] == entries[k])
  {
  }

  /** A cached answer does not depend on the network at all: no request is
      made. */
  lemma CachedSelfUpdateMakesNoRequest(entries: map<string, Entry>, s: map<string, string>, ctx: RequestContext, now: int,
                                       host: Host, network1: HttpRequest -> HttpResponse, network2: HttpRequest -> HttpResponse)
    requires WellTyped(entries)
    requires !ShouldBypassSelfUpdateCache(ctx) && LookupIn(entries, SelfUpdateKey(s), now).Some?
    ensures SelfUpdateStep(entries, s, ctx, now, host, network1) == SelfUpdateStep(entries, s, ctx, now, host, network2)
  {
  }

  /** After a lookup that went to GitHub and succeeded, any lookup without
      a bypass in the next five minutes gives the same answer from the
      cache and changes nothing. */
  lemma SelfUpdateAnswerIsCached(entries: map<string, Entry>, s: map<string, string>, ctx: RequestContext, now: int,
                                 host: Host, network: HttpRequest -> HttpResponse,
                                 later: int, ctx2: RequestContext, network2: HttpRequest -> HttpResponse)
    requires WellTyped(entries)
    requires ShouldBypassSelfUpdateCache(ctx) || LookupIn(entries, SelfUpdateKey(s), now).None?
    requires SelfUpdateStep(entries, s, ctx, now, host, network).result.Ok?
    requires now <= later <= now + SelfUpdateTtl && !ShouldBypassSelfUpdateCache(ctx2)
    ensures var first := SelfUpdateStep(entries, s, ctx, now, host, network);
      SelfUpdateStep(first.entries, s, ctx2, later, host, network2) == first
  {
    var first := SelfUpdateStep(entries, s, ctx, now, host, network);
    assert LookupIn(first.entries, SelfUpdateKey(s), later) == Some(RemoteMeta(first.result.value));
  }

  /** `maybe_clear_self_update_cache( $s )`: with a self-update URL set, the
      entry of that URL and branch is dropped; nothing else changes. */
  function ClearSelfUpdateIn(entries: map<string, Entry>, s: map<string, string>): (r: map<string, Entry>)
    ensures PhpEmpty(Setting(s, SelfUpdateUrlKey)) ==> r == entries
    ensures !PhpEmpty(Setting(s, SelfUpdateUrlKey)) ==> SelfUpdateKey(s) !in r
    ensures forall k :: k != SelfUpdateKey(s) ==> (k in r <==> k in entries) && (k in r ==> r[k] == entries[k])
  {
    if PhpEmpty(Setting(s, SelfUpdateUrlKey)) then entries else entries - {SelfUpdateKey(s)}
  }

  /** Once the cache is cleared for the current settings, the next lookup
      goes to GitHub even without a bypass. */
  lemma ClearForcesFetch(entries: map<string, Entry>, s: map<string, string>, ctx: RequestContext, now: int,
                         host: Host, network: HttpRequest -> HttpResponse)
    requires WellTyped(entries) && !PhpEmpty(Setting(s, SelfUpdateUrlKey))
    ensures WellTyped(ClearSelfUpdateIn(entries, s))
    ensures SelfUpdateStep(ClearSelfUpdateIn(entries, s), s, ctx, now, host, network).result == FetchRemoteInfo(s, host, network)
  {
  }

  // ---------------------------------------------------------------------
  // persist_notice / consume_notice

  /** What `consume_notice` returns, and the store after it. */
  datatype NoticeStep = NoticeStep(notice: Option<Notice>, entries: map<string, Entry>)

  /** `consume_notice` for the user `userId`: a live notice is returned and
      removed; without one nothing changes. */
  function ConsumeNoticeFrom(entries: map<string, Entry>, userId: nat, now: int): (step: NoticeStep)
    requires WellTyped(entries)
    ensures WellTyped(step.entries)
    ensures step.notice.Some? <==> LookupIn(entries, NoticeKey(userId), now).Some?
    ensures step.notice.Some? ==> NoticeValue(step.notice.value) == entries[NoticeKey(userId)].value
    ensures step.entries == if step.notice.Some? then entries - {NoticeKey(userId)} else entries
  {
    var key := NoticeKey(userId);
    NoticeKeyFamily(userId);
    match LookupIn(entries, key, now)
    case Some(v) => NoticeStep(Some(v.notice), entries - {key})
    case None => NoticeStep(None, entries)
  }

  /** `persist_notice( $message, $type )` for the user `userId`. */
  function PersistNoticeIn(entries: map<string, Entry>, userId: nat, notice: Notice, now: int): (r: map<string, Entry>)
    requires WellTyped(entries)
    ensures WellTyped(r)
    ensures LookupIn(r, NoticeKey(userId), now + NoticeTtl) == Some(NoticeValue(notice))
    ensures NoticeKey(userId) in r
    ensures forall k :: k != NoticeKey(userId) ==> (k in r <==> k in entries)
    ensures forall k :: k != NoticeKey(userId) && k in entries ==> r[k] == entries[k]
  {
    NoticeKeyFamily(userId);
    StoreKeepsWellTyped(entries, NoticeKey(userId), NoticeValue(notice), NoticeTtl, now);
    StoreIn(entries, NoticeKey(userId), NoticeValue(notice), NoticeTtl, now)
  }

  /** A notice is shown once: read within a minute of being stored it is
      returned and gone, so reading again finds nothing; read later, it
      has expired. */
  lemma NoticeShownOnce(entries: map<string, Entry>, userId: nat, notice: Notice, now: int, later: int, again: int)
    requires WellTyped(entries)
    ensures var stored := PersistNoticeIn(entries, userId, notice, now);
      var first := ConsumeNoticeFrom(stored, userId, later);
      && (first.notice == if later <= now + NoticeTtl then Some(notice) else None)
      && (later <= now + NoticeTtl ==> ConsumeNoticeFrom(first.entries, userId, again).notice == None)
  {
    var stored := PersistNoticeIn(entries, userId, notice, now);
    assert stored[NoticeKey(userId)] == Entry(NoticeValue(notice), now + NoticeTtl);
  }

  /** Notices of different users are kept apart. */
  lemma NoticesPerUser(entries: map<string, Entry>, userId: nat, other: nat, notice: Notice, now: int, later: int)
    requires WellTyped(entries) && userId != other
    ensures ConsumeNoticeFrom(PersistNoticeIn(entries, userId, notice, now), other, later).notice == ConsumeNoticeFrom(entries, other, later).notice
  {
    NatToStringInjective(userId, other);
    assert NoticeKey(userId)[|NoticePrefix|..] == NatToString(userId);
    assert NoticeKey(other)[|NoticePrefix|..] == NatToString(other);
  }

  // ---------------------------------------------------------------------
  // get_cached_repositories

  /** `get_cached_repositories( $token )`: a live listing for the token is
      the answer unless a refresh is requested; otherwise the listing
      `fetched` is the answer and, when it is not an error, it is stored for
      an hour. Failures leave the store as it was. */
  function RepositoryStep(entries: map<string, Entry>, token: string, refresh: bool, now: int,
                          fetched: Result<seq<RepositoryEntry>>): (step: CacheStep<seq<RepositoryEntry>>)
    requires WellTyped(entries)
    ensures WellTyped(step.entries)
    ensures !refresh && LookupIn(entries, RepositoryCacheKey(token), now).Some? ==>
      step == CacheStep(Ok(LookupIn(entries, RepositoryCacheKey(token), now).value.repositories), entries)
    ensures refresh || LookupIn(entries, RepositoryCacheKey(token), now).None? ==> step.result == fetched
    ensures step.result.Err? ==> step.entries == entries
    ensures (refresh || LookupIn(entries, RepositoryCacheKey(token), now).None?) && fetched.Ok? ==>
      LookupIn(step.entries, RepositoryCacheKey(token), now + RepositoryTtl) == Some(RepositoryList(fetched.value))
    ensures forall k :: k != RepositoryCacheKey(token) ==> (k in step.entries <==> k in entries)
    ensures forall k :: k != RepositoryCacheKey(token) && k in entries ==> step.entries[k] == entries[k]
  {
    var key := RepositoryCacheKey(token);
    RepositoryKeyFamily(token);
    var cached := LookupIn(entries, key, now);
    if cached.Some? && !refresh then
      CacheStep(Ok(cached.value.repositories), entries)
    else if fetched.Err? then
      CacheStep(fetched, entries)
    else
      StoreKeepsWellTyped(entries, key, RepositoryList(fetched.value), RepositoryTtl, now);
      CacheStep(fetched, StoreIn(entries, key, RepositoryList(fetched.value), RepositoryTtl, now))
  }

  /** Within the hour after a successful listing, the same token is
      answered from the cache, whatever GitHub would say by then. */
  lemma RepositoryListingIsCached(entries: map<string, Entry>, token: string, refresh: bool, now: int,
                                  fetched: Result<seq<RepositoryEntry>>, later: int, fetched2: Result<seq<RepositoryEntry>>)
    requires WellTyped(entries)
    requires refresh || LookupIn(entries, RepositoryCacheKey(token), now).None?
    requires fetched.Ok? && now <= later <= now + RepositoryTtl
    ensures var first := RepositoryStep(entries, token, refresh, now, fetched);
      RepositoryStep(first.entries, token, false, later, fetched2) == CacheStep(fetched, first.entries)
  {
    var first := RepositoryStep(entries, token, refresh, now, fetched);
    assert LookupIn(first.entries, RepositoryCacheKey(token), later) == Some(RepositoryList(fetched.value));
  }

  // ---------------------------------------------------------------------
  // update_from_github

  const MissingRepoError := WpError("missing_repo", "Please provide a repository URL before running the update.")
  const UpdateSucceeded := "GitHub package downloaded and installed successfully."

  /** Where an update downloads from: the zipball of the configured
      repository and branch (`main` when none is set), or why there is none. */
  function UpdateDownloadUrl(s: map<string, string>, host: Host): (r: Result<string>)
    ensures PhpEmpty(Setting(s, RepositoryUrlKey)) ==> r == Err(MissingRepoError)
    ensures !PhpEmpty(Setting(s, RepositoryUrlKey)) ==>
      var parsed := ParseRepositoryUrl(host.parseUrl(Setting(s, RepositoryUrlKey)));
      (r.Ok? <==> parsed.Ok?) &&
      (r.Err? ==> r == Err(parsed.error)) &&
      (r.Ok? ==> r.value == ZipballUrl(parsed.value, EffectiveBranch(Setting(s, RepositoryBranchKey))))
    ensures r.Ok? ==> Contains(Lower(r.value), ApiRepos)
    ensures r.Err? ==> r.error.code == "missing_repo" || r.error.code == InvalidRepo
  {
    if PhpEmpty(Setting(s, RepositoryUrlKey)) then Err(MissingRepoError)
    else
      match ParseRepositoryUrl(host.parseUrl(Setting(s, RepositoryUrlKey)))
      case Err(e) => Err(e)
      case Ok(repo) =>
        ZipballIsApiRequest(repo, EffectiveBranch(Setting(s, RepositoryBranchKey)));
        Ok(ZipballUrl(repo, EffectiveBranch(Setting(s, RepositoryBranchKey))))
  }

  // ---------------------------------------------------------------------
  // the update transient

  /** An entry of the `response` or `no_update` maps of the update transient. */
  datatype UpdateOffer = UpdateOffer(slug: string, plugin: string, newVersion: string, package: string, url: string)

  const SelfSlug := "github-plugin-installer-and-updater"

  /** The parts of the update transient the plugin touches; an absent map
      is one that is not set (or, for `checked`, not an array). */
  datatype TransientState = TransientState(
    response: Option<map<string, UpdateOffer>>,
    noUpdate: Option<map<string, UpdateOffer>>,
    checked: Option<map<string, string>>)

  function OrEmpty<V>(m: Option<map<string, V>>): map<string, V> {
    if m.Some? then m.value else map[]
  }

  /** The effect of `maybe_inject_self_update` once the remote lookup has
      answered `remote`, for the plugin file `file` at version `current`,
      `greater` saying whether the remote version is newer. A failed
      lookup changes nothing. A newer version is offered in `response`; an
      equal or older one is removed from `response` and recorded in
      `no_update` with the current version and no package. Either way
      `checked` records the current version. Entries of other plugins are
      left alone. */
  function InjectSelfUpdate(before: TransientState, remote: Result<RemoteInfo>, file: string, current: string, greater: bool): (after: TransientState)
    ensures remote.Err? ==> after == before
    ensures remote.Ok? && greater ==>
      && after.response.Some? && file in after.response.value
      && after.response.value[file] == UpdateOffer(SelfSlug, file, remote.value.version, remote.value.package, remote.value.homepage)
      && after.noUpdate == before.noUpdate
    ensures remote.Ok? && !greater ==>
      && (after.response.Some? <==> before.response.Some?)
      && file !in OrEmpty(after.response)
      && after.noUpdate.Some? && file in after.noUpdate.value
      && after.noUpdate.value[file] == UpdateOffer(SelfSlug, file, current, "", remote.value.homepage)
    ensures remote.Ok? ==> after.checked.Some? && file in after.checked.value && after.checked.value[file] == current
    ensures forall k :: k != file ==>
      && (k in OrEmpty(after.response) <==> k in OrEmpty(before.response))
      && (k in OrEmpty(after.noUpdate) <==> k in OrEmpty(before.noUpdate))
      && (k in OrEmpty(after.checked) <==> k in OrEmpty(before.checked))
    ensures forall k :: k != file && k in OrEmpty(before.response) ==> OrEmpty(after.response)[k] == OrEmpty(before.response)[k]
    ensures forall k :: k != file && k in OrEmpty(before.noUpdate) ==> OrEmpty(after.noUpdate)[k] == OrEmpty(before.noUpdate)[k]
    ensures forall k :: k != file && k in OrEmpty(before.checked) ==> OrEmpty(after.checked)[k] == OrEmpty(before.checked)[k]
  {
    match remote
    case Err(_) => before
    case Ok(info) =>
      var checked := Some(OrEmpty(before.checked)[file := current]);
      if greater then
        var offer := UpdateOffer(SelfSlug, file, info.version, info.package, info.homepage);
        TransientState(Some(OrEmpty(before.response)[file := offer]), before.noUpdate, checked)
      else
        var response := if before.response.Some? && file in before.response.value then Some(before.response.value - {file}) else before.response;
        var none := UpdateOffer(SelfSlug, file, current, "", info.homepage);
        TransientState(response, Some(OrEmpty(before.noUpdate)[file := none]), checked)
  }

  /** Running the filter twice with the same answer is running it once. */
  lemma InjectSelfUpdateIdempotent(before: TransientState, remote: Result<RemoteInfo>, file: string, current: string, greater: bool)
    ensures var once := InjectSelfUpdate(before, remote, file, current, greater);
      InjectSelfUpdate(once, remote, file, current, greater) == once
  {
    var once := InjectSelfUpdate(before, remote, file, current, greater);
    var twice := InjectSelfUpdate(once, remote, file, current, greater);
    if remote.Ok? {
      var info := remote.value;
      assert OrEmpty(once.checked)[file := current] == OrEmpty(once.checked);
      if greater {
        var offer := UpdateOffer(SelfSlug, file, info.version, info.package, info.homepage);
        assert OrEmpty(once.response)[file := offer] == OrEmpty(once.response);
      } else {
        var none := UpdateOffer(SelfSlug, file, current, "", info.homepage);
        assert OrEmpty(once.noUpdate)[file := none] == OrEmpty(once.noUpdate);
      }
    }
  }

  /** The update transient, an object WordPress hands to the filter. */
  class UpdateTransient {
    var response: Option<map<string, UpdateOffer>>
    var noUpdate: Option<map<string, UpdateOffer>>
    var checked: Option<map<string, string>>

    /** `new stdClass()`. */
    constructor()
      ensures response.None? && noUpdate.None? && checked.None?
    {
      response := None;
      noUpdate := None;
      checked := None;
    }

    function State(): TransientState
      reads this
    {
      TransientState(response, noUpdate, checked)
    }

    /** The part of `maybe_inject_self_update` that writes the transient,
        once the remote lookup answered `info`. */
    method Apply(info: RemoteInfo, file: string, current: string, greater: bool)
      modifies this
      ensures State() == InjectSelfUpdate(old(State()), Ok(info), file, current, greater)
    {
      if greater {
        var update := UpdateOffer(SelfSlug, file, info.version, info.package, info.homepage);
        response := Some(OrEmpty(response)[file := update]);
      } else {
        if response.Some? && file in response.value {
          response := Some(response.value - {file});
        }
        noUpdate := Some(OrEmpty(noUpdate)[file := UpdateOffer(SelfSlug, file, current, "", info.homepage)]);
      }
      checked := Some(OrEmpty(checked)[file := current]);
    }
  }

  // ---------------------------------------------------------------------
  // the add-on object

  /** What an update does to the file system, call by call, and what it
      reports. */
  datatype UpdateRun = UpdateRun(calls: seq<FsCall>, result: Result<string>)

  /** The download of an update into `tmp`: what `download_package`
      returns for the configured repository, or why there is no URL. */
  function UpdateDownload(s: map<string, string>, host: Host, network: HttpRequest -> HttpResponse, tmp: string): (r: Result<string>)
    ensures UpdateDownloadUrl(s, host).Err? ==> r == Err(UpdateDownloadUrl(s, host).error)
    ensures UpdateDownloadUrl(s, host).Ok? ==>
      r == ClassifyDownload(network(DownloadRequest(UpdateDownloadUrl(s, host).value, Setting(s, GithubTokenKey), tmp, host.UserAgent())), tmp)
  {
    match UpdateDownloadUrl(s, host)
    case Err(e) => Err(e)
    case Ok(url) => ClassifyDownload(network(DownloadRequest(url, Setting(s, GithubTokenKey), tmp, host.UserAgent())), tmp)
  }

  /** The calls after a download: the installation, then the removal of
      the archive `tmp` if it is still there, `files` being the plain files
      before the installation. */
  function CleanupCalls(tmp: string, install: seq<FsCall>, files: set<string>): (calls: seq<FsCall>)
    ensures |calls| >= |install| && calls[..|install|] == install
    ensures tmp in FilesAfter(files, install) ==> calls == install + [Unlink(tmp)]
    ensures tmp !in FilesAfter(files, install) ==> calls == install
  {
    if tmp in FilesAfter(files, install) then
      assert (install + [Unlink(tmp)])[..|install|] == install;
      install + [Unlink(tmp)]
    else install
  }

  /** The outcome of `update_from_github( $s )` when the plugin directory
      holds `dirsBefore` and the plain files are `filesBefore`: no call
      before a download URL and a temporary file exist; then the download,
      which removes its file when it fails; then the installation; and last
      the removal of the archive if it is still there. The update succeeds
      exactly when every step does, and otherwise reports the first
      failing step's error. */
  function UpdateSteps(s: map<string, string>, tempName: Option<string>, env: InstallEnv, host: Host,
                       network: HttpRequest -> HttpResponse, dirsBefore: set<string>, filesBefore: set<string>): (run: UpdateRun)
    ensures UpdateDownloadUrl(s, host).Err? ==> run == UpdateRun([], Err(UpdateDownloadUrl(s, host).error))
    ensures UpdateDownloadUrl(s, host).Ok? && tempName.None? ==> run == UpdateRun([], Err(TempFileError))
    ensures UpdateDownloadUrl(s, host).Ok? && tempName.Some? ==> |run.calls| > 0 && run.calls[0] == CreateTemp(tempName.value)
    ensures UpdateDownloadUrl(s, host).Ok? && tempName.Some? && UpdateDownload(s, host, network, tempName.value).Err? ==>
      run == UpdateRun([CreateTemp(tempName.value), Unlink(tempName.value)], Err(UpdateDownload(s, host, network, tempName.value).error))
    ensures tempName.Some? && UpdateDownload(s, host, network, tempName.value).Ok? ==>
      var install := InstallSteps(tempName.value, env, host.sanitizeTitle, dirsBefore);
      && run.calls == [CreateTemp(tempName.value)] + CleanupCalls(tempName.value, install.calls, filesBefore + {tempName.value})
      && (install.result.Err? ==> run.result == Err(install.result.error))
    ensures run.result.Ok? <==>
      && tempName.Some? && UpdateDownload(s, host, network, tempName.value).Ok?
      && InstallSteps(tempName.value, env, host.sanitizeTitle, dirsBefore).result.Ok?
    ensures run.result.Ok? ==> run.result.value == UpdateSucceeded
  {
    if UpdateDownloadUrl(s, host).Err? then UpdateRun([], Err(UpdateDownloadUrl(s, host).error))
    else if tempName.None? then UpdateRun([], Err(TempFileError))
    else
      var tmp := tempName.value;
      var download := UpdateDownload(s, host, network, tmp);
      if download.Err? then UpdateRun([CreateTemp(tmp), Unlink(tmp)], Err(download.error))
      else
        var install := InstallSteps(tmp, env, host.sanitizeTitle, dirsBefore);
        UpdateRun([CreateTemp(tmp)] + CleanupCalls(tmp, install.calls, filesBefore + {tmp}),
                   if install.result.Err? then Err(install.result.error) else Ok(UpdateSucceeded))
  }

  /** `UpdateSteps` when nothing was downloaded: no calls, or only the
      temporary file's creation and removal. */
  lemma UpdateStepsNotDownloaded(s: map<string, string>, tempName: Option<string>, env: InstallEnv, host: Host,
                                 network: HttpRequest -> HttpResponse, dirsBefore: set<string>, filesBefore: set<string>)
    requires tempName.None? || UpdateDownload(s, host, network, tempName.value).Err?
    ensures UpdateSteps(s, tempName, env, host, network, dirsBefore, filesBefore) == UpdateRun(
      if UpdateDownloadUrl(s, host).Ok? && tempName.Some? then [CreateTemp(tempName.value), Unlink(tempName.value)] else [],
      if UpdateDownloadUrl(s, host).Err? then Err(UpdateDownloadUrl(s, host).error)
      else if tempName.None? then Err(TempFileError)
      else UpdateDownload(s, host, network, tempName.value))
  {
  }

  /** `UpdateSteps` once the archive is downloaded: its creation, the
      installation and the removal of what is left of it. */
  lemma UpdateStepsDownloaded(s: map<string, string>, tempName: Option<string>, env: InstallEnv, host: Host,
                              network: HttpRequest -> HttpResponse, dirsBefore: set<string>, filesBefore: set<string>)
    requires tempName.Some? && UpdateDownload(s, host, network, tempName.value).Ok?
    ensures var install := InstallSteps(tempName.value, env, host.sanitizeTitle, dirsBefore);
      UpdateSteps(s, tempName, env, host, network, dirsBefore, filesBefore) == UpdateRun(
        [CreateTemp(tempName.value)] + CleanupCalls(tempName.value, install.calls, filesBefore + {tempName.value}),
        if install.result.Err? then Err(install.result.error) else Ok(UpdateSucceeded))
  {
  }

  /** Whatever happens, an update leaves no downloaded archive behind:
      replaying its calls from the files before it never keeps a temporary
      file that was not there already. */
  lemma UpdateLeavesNoArchive(s: map<string, string>, tempName: Option<string>, env: InstallEnv, host: Host,
                              network: HttpRequest -> HttpResponse, dirsBefore: set<string>, filesBefore: set<string>)
    requires tempName.Some? && tempName.value !in filesBefore
    ensures tempName.value !in FilesAfter(filesBefore, UpdateSteps(s, tempName, env, host, network, dirsBefore, filesBefore).calls)
  {
    var tmp := tempName.value;
    if UpdateDownloadUrl(s, host).Ok? {
      if UpdateDownload(s, host, network, tmp).Err? {
        FailedDownloadLeavesNoArchive(tmp, filesBefore);
      } else {
        InstalledUpdateLeavesNoArchive(tmp, InstallSteps(tmp, env, host.sanitizeTitle, dirsBefore).calls, filesBefore);
      }
    }
  }

  lemma FailedDownloadLeavesNoArchive(tmp: string, filesBefore: set<string>)
    ensures tmp !in FilesAfter(filesBefore, [CreateTemp(tmp), Unlink(tmp)])
  {
    FilesAfterStep(filesBefore, [], CreateTemp(tmp));
    FilesAfterStep(filesBefore, [CreateTemp(tmp)], Unlink(tmp));
  }

  lemma InstalledUpdateLeavesNoArchive(tmp: string, install: seq<FsCall>, filesBefore: set<string>)
    ensures tmp !in FilesAfter(filesBefore, [CreateTemp(tmp)] + CleanupCalls(tmp, install, filesBefore + {tmp}))
  {
    FilesAfterStep(filesBefore, [], CreateTemp(tmp));
    assert [] + [CreateTemp(tmp)] == [CreateTemp(tmp)];
    FilesAfterAppend(filesBefore, [CreateTemp(tmp)], CleanupCalls(tmp, install, filesBefore + {tmp}));
    if tmp in FilesAfter(filesBefore + {tmp}, install) {
      FilesAfterStep(filesBefore + {tmp}, install, Unlink(tmp));
    }
  }

  class Addon {
    /** `$this->settings`. */
    var settings: map<string, string>
    /** The stored option `github_plugin_installer_and_updater_settings`. */
    var option: map<string, string>
    const host: Host
    const store: TransientStore
    const fs: Filesystem

    /** The settings always hold every key, the store holds values of
        the right kind under the plugin's keys, and the plain files are
        what the file-system log replays to. */
    ghost predicate Valid()
      reads this, store, fs
    {
      Complete(settings) && WellTyped(store.entries) && fs.Replays()
    }

    /** `__construct` reads the settings once. */
    constructor(host: Host, store: TransientStore, fs: Filesystem, option: map<string, string>)
      requires WellTyped(store.entries) && fs.Replays()
      ensures Valid()
      ensures this.host == host && this.store == store && this.fs == fs && this.option == option
      ensures settings == ParseArgs(option, Defaults())
    {
      this.host := host;
      this.store := store;
      this.fs := fs;
      this.option := option;
      settings := ParseArgs(option, Defaults());
    }

    /** `get_settings( $force_refresh )`: the cached settings, re-read from
        the option when asked to or when there are none yet. */
    method GetSettings(forceRefresh: bool) returns (s: map<string, string>)
      requires Valid()
      modifies this
      ensures Valid() && unchanged(this`option)
      ensures settings == if forceRefresh || old(settings) == map[] then ParseArgs(option, Defaults()) else old(settings)
      ensures s == settings
    {
      if forceRefresh || settings == map[] {
        settings := ParseArgs(option, Defaults());
      }
      s := settings;
    }

    /** `maybe_clear_self_update_cache( $s )`. */
    method MaybeClearSelfUpdateCache(s: map<string, string>)
      requires WellTyped(store.entries)
      modifies store
      ensures WellTyped(store.entries)
      ensures store.entries == ClearSelfUpdateIn(old(store.entries), s)
    {
      if PhpEmpty(Setting(s, SelfUpdateUrlKey)) {
        return;
      }
      store.Delete(SelfUpdateCacheKey(Setting(s, SelfUpdateUrlKey), Setting(s, SelfUpdateBranchKey)));
    }

    /** `sanitize_settings( $input )`: the sanitized settings become the
        cached ones, and the self-update entry of the new self-update
        repository and branch is dropped. */
    method SanitizeSettings(input: map<string, string>) returns (s: map<string, string>)
      requires Valid()
      modifies this, store
      ensures Valid() && unchanged(this`option)
      ensures s == Sanitize(input, host) && settings == s
      ensures store.entries == ClearSelfUpdateIn(old(store.entries), s)
    {
      s := Sanitize(input, host);
      MaybeClearSelfUpdateCache(s);
      settings := s;
    }

    /** `handle_plugins_cache_cleared( $clear )`. */
    method HandlePluginsCacheCleared(clear: bool)
      requires Valid()
      modifies this, store
      ensures Valid() && settings == old(settings) && unchanged(this`option)
      ensures store.entries == if clear then ClearSelfUpdateIn(old(store.entries), settings) else old(store.entries)
    {
      if !clear {
        return;
      }
      var s := GetSettings(false);
      MaybeClearSelfUpdateCache(s);
    }

    /** `get_self_update_remote_info( $s )`. */
    method GetSelfUpdateRemoteInfo(s: map<string, string>, ctx: RequestContext, now: int, network: HttpRequest -> HttpResponse)
      returns (r: Result<RemoteInfo>)
      requires WellTyped(store.entries)
      modifies store
      ensures r == SelfUpdateStep(old(store.entries), s, ctx, now, host, network).result
      ensures store.entries == SelfUpdateStep(old(store.entries), s, ctx, now, host, network).entries
    {
      var key := SelfUpdateCacheKey(Setting(s, SelfUpdateUrlKey), Setting(s, SelfUpdateBranchKey));
      if ShouldBypassSelfUpdateCache(ctx) {
        store.Delete(key);
      } else {
        var cached := store.Get(key, now);
        if cached.Some? {
          SelfUpdateKeyFamily(Setting(s, SelfUpdateUrlKey), Setting(s, SelfUpdateBranchKey));
          return Ok(cached.value.info);
        }
      }
      r := FetchAndStore(s, key, now, network);
    }

    /** The lookup of `get_self_update_remote_info` past the cache: read the
        raw main file and keep a successful answer under `key`. */
    method FetchAndStore(s: map<string, string>, key: string, now: int, network: HttpRequest -> HttpResponse)
      returns (r: Result<RemoteInfo>)
      modifies store
      ensures r == FetchRemoteInfo(s, host, network)
      ensures store.entries == if r.Ok? then StoreIn(old(store.entries), key, RemoteMeta(r.value), SelfUpdateTtl, now) else old(store.entries)
    {
      var parsed := ParseRepositoryUrl(host.parseUrl(Setting(s, SelfUpdateUrlKey)));
      if parsed.Err? {
        return Err(parsed.error);
      }
      var branch := EffectiveBranch(Setting(s, SelfUpdateBranchKey));
      var token := Setting(s, GithubTokenKey);
      var response := network(RawFileRequest(parsed.value, branch, token, host.UserAgent()));
      r := RemoteFromResponse(parsed.value, branch, response);
      if r.Ok? {
        store.Set(key, RemoteMeta(r.value), SelfUpdateTtl, now);
      }
    }

    /** `persist_notice( $message, $type )`. */
    method PersistNotice(message: string, kind: string, now: int)
      requires WellTyped(store.entries)
      modifies store
      ensures WellTyped(store.entries)
      ensures store.entries == PersistNoticeIn(old(store.entries), host.currentUserId, Notice(message, kind), now)
    {
      NoticeKeyFamily(host.currentUserId);
      StoreKeepsWellTyped(store.entries, NoticeKey(host.currentUserId), NoticeValue(Notice(message, kind)), NoticeTtl, now);
      store.Set(NoticeKey(host.currentUserId), NoticeValue(Notice(message, kind)), NoticeTtl, now);
    }

    /** `consume_notice()`. */
    method ConsumeNotice(now: int) returns (notice: Option<Notice>)
      requires WellTyped(store.entries)
      modifies store
      ensures WellTyped(store.entries)
      ensures notice == ConsumeNoticeFrom(old(store.entries), host.currentUserId, now).notice
      ensures store.entries == ConsumeNoticeFrom(old(store.entries), host.currentUserId, now).entries
    {
      var key := NoticeKey(host.currentUserId);
      NoticeKeyFamily(host.currentUserId);
      var stored := store.Get(key, now);
      if stored.Some? {
        store.Delete(key);
        return Some(stored.value.notice);
      }
      return None;
    }

    /** `get_cached_repositories( $token )`, `decode` standing for
        `json_decode`. */
    method GetCachedRepositories(token: string, ctx: RequestContext, now: int,
                                 network: HttpRequest -> HttpResponse, decode: string -> Option<seq<RepoRecord>>)
      returns (r: Result<seq<RepositoryEntry>>)
      requires WellTyped(store.entries)
      modifies store
      ensures WellTyped(store.entries)
      ensures var step := RepositoryStep(old(store.entries), token, RefreshRequested(ctx), now,
                                         RepositoriesFromResponse(network(RepositoriesRequest(token, host.UserAgent())), decode));
        r == step.result && store.entries == step.entries
    {
      var key := RepositoryCacheKey(token);
      RepositoryKeyFamily(token);
      var cached := store.Get(key, now);
      var refresh := ctx.refreshRepos.Some? && !PhpEmpty(ctx.refreshRepos.value);
      if cached.Some? && !refresh {
        return Ok(cached.value.repositories);
      }
      r := FetchRepositories(token, host.UserAgent(), network, decode);
      if r.Err? {
        return;
      }
      StoreKeepsWellTyped(store.entries, key, RepositoryList(r.value), RepositoryTtl, now);
      store.Set(key, RepositoryList(r.value), RepositoryTtl, now);
    }

    /** `maybe_authorize_github_download( $args, $url )` with the cached
        settings' token. */
    method MaybeAuthorizeGithubDownload(args: RequestArgs, url: string) returns (r: RequestArgs)
      requires Valid()
      modifies this
      ensures Valid() && settings == old(settings) && unchanged(this`option)
      ensures r == AuthorizeGithubDownload(args, url, Setting(settings, GithubTokenKey), host.UserAgent())
    {
      var s := GetSettings(false);
      r := AuthorizeGithubDownload(args, url, Setting(s, GithubTokenKey), host.UserAgent());
    }

    /** `maybe_inject_self_update( $transient )`. A missing transient is
        replaced by a new object. Without a self-update URL the transient
        and the store are left alone; otherwise the remote lookup runs
        against the store and its answer is applied as `InjectSelfUpdate`
        says, comparing with the installed version (`0` when unknown). */
    method MaybeInjectSelfUpdate(t: UpdateTransient?, ctx: RequestContext, now: int, network: HttpRequest -> HttpResponse)
      returns (out: UpdateTransient)
      requires Valid()
      modifies this, store, t
      ensures Valid() && settings == old(settings) && unchanged(this`option)
      ensures t != null ==> out == t
      ensures t == null ==> fresh(out)
      ensures var before := if t == null then TransientState(None, None, None) else old(t.State());
        var current := if host.installedVersion.Some? then host.installedVersion.value else "0";
        if PhpEmpty(Setting(settings, SelfUpdateUrlKey)) then
          out.State() == before && store.entries == old(store.entries)
        else
          var step := SelfUpdateStep(old(store.entries), settings, ctx, now, host, network);
          && store.entries == step.entries
          && out.State() == InjectSelfUpdate(before, step.result, host.pluginFile, current,
                                             step.result.Ok? && host.versionGreater(step.result.value.version, current))
    {
      if t == null {
        out := new UpdateTransient();
      } else {
        out := t;
      }
      ghost var before := out.State();
      var file := host.pluginFile;
      var s := GetSettings(false);
      if PhpEmpty(Setting(s, SelfUpdateUrlKey)) {
        return;
      }
      var remote := GetSelfUpdateRemoteInfo(s, ctx, now, network);
      if remote.Err? {
        return;
      }
      var current := if host.installedVersion.Some? then host.installedVersion.value else "0";
      out.Apply(remote.value, file, current, host.versionGreater(remote.value.version, current));
    }

    /** `update_from_github( $s )`. `tempName` is the temporary file
        `wp_tempnam` provides and `env` what the installation meets. The
        calls made and the result are those of `UpdateSteps` on the file
        system before the update. A failure before the download leaves the
        file system alone, a failed download creates no directory, and,
        deletes being taken to succeed, the downloaded archive does not
        remain after the update. */
    method UpdateFromGithub(s: map<string, string>, tempName: Option<string>, env: InstallEnv, network: HttpRequest -> HttpResponse)
      returns (r: Result<string>)
      requires fs.Replays()
      modifies fs
      ensures fs.Replays()
      ensures r == UpdateSteps(s, tempName, env, host, network, old(fs.dirs), old(fs.files)).result
      ensures fs.log == old(fs.log) + UpdateSteps(s, tempName, env, host, network, old(fs.dirs), old(fs.files)).calls
      ensures UpdateDownloadUrl(s, host).Err? ==> fs.files == old(fs.files) && fs.dirs == old(fs.dirs)
      ensures tempName.Some? && UpdateDownload(s, host, network, tempName.value).Err? ==> fs.dirs == old(fs.dirs)
      ensures tempName.Some? && tempName.value !in old(fs.files) ==> tempName.value !in fs.files
      ensures fs.files <= old(fs.files) + (if tempName.Some? then {tempName.value} else {})
    {
      ghost var log0, files0, dirs0 := fs.log, fs.files, fs.dirs;
      var downloadUrl := UpdateDownloadUrl(s, host);
      if downloadUrl.Err? {
        return Err(downloadUrl.error);
      }
      var token := Setting(s, GithubTokenKey);
      var zip := DownloadPackage(fs, downloadUrl.value, token, tempName, host.UserAgent(), network);
      if zip.Err? {
        assert tempName.Some? ==> UpdateDownload(s, host, network, tempName.value) == zip;
        UpdateStepsNotDownloaded(s, tempName, env, host, network, dirs0, files0);
        if tempName.Some? {
          assert fs.log == log0 + [CreateTemp(tempName.value)] + [Unlink(tempName.value)];
        }
        return Err(zip.error);
      }
      ghost var tmp := tempName.value;
      assert UpdateDownload(s, host, network, tmp) == Ok(tmp);
      assert fs.dirs == dirs0 && fs.files == files0 + {tmp};
      assert fs.log == log0 + [CreateTemp(tmp)];
      var result := InstallDownloaded(zip.value, env);
      ghost var rest := CleanupCalls(tmp, InstallSteps(tmp, env, host.sanitizeTitle, dirs0).calls, files0 + {tmp});
      assert fs.log == log0 + [CreateTemp(tmp)] + rest;
      SeqAssoc(log0, [CreateTemp(tmp)], rest);
      UpdateStepsDownloaded(s, tempName, env, host, network, dirs0, files0);
      if result.Err? {
        return Err(result.error);
      }
      return Ok(UpdateSucceeded);
    }

    /** The end of `update_from_github`: install the downloaded archive
        `zip`, then remove it if it is still there. */
    method InstallDownloaded(zip: string, env: InstallEnv) returns (result: Result<bool>)
      requires fs.Replays()
      modifies fs
      ensures fs.Replays()
      ensures result == InstallSteps(zip, env, host.sanitizeTitle, old(fs.dirs)).result
      ensures fs.log == old(fs.log) + CleanupCalls(zip, InstallSteps(zip, env, host.sanitizeTitle, old(fs.dirs)).calls, old(fs.files))
      ensures zip !in fs.files
      ensures fs.files <= old(fs.files)
    {
      ghost var log0, files0 := fs.log, fs.files;
      result := InstallPackage(fs, zip, env, host.sanitizeTitle);
      ghost var install := InstallSteps(zip, env, host.sanitizeTitle, old(fs.dirs)).calls;
      FilesAfterAppend(fs.initialFiles, log0, install);
      if fs.FileExists(zip) {
        fs.Unlink(zip);
      }
    }

    /** The core of `handle_update_request`: run the update with the cached
        settings and leave its outcome as the user's notice, the error
        message as an `error` notice or the success message as a `success`
        one. */
    method HandleUpdateRequest(tempName: Option<string>, env: InstallEnv, now: int, network: HttpRequest -> HttpResponse)
      returns (r: Result<string>)
      requires Valid()
      modifies this, store, fs
      ensures Valid() && settings == old(settings) && unchanged(this`option)
      ensures r == UpdateSteps(old(settings), tempName, env, host, network, old(fs.dirs), old(fs.files)).result
      ensures fs.log == old(fs.log) + UpdateSteps(old(settings), tempName, env, host, network, old(fs.dirs), old(fs.files)).calls
      ensures store.entries == PersistNoticeIn(old(store.entries), host.currentUserId,
        if r.Err? then Notice(r.error.message, "error") else Notice(r.value, "success"), now)
    {
      var s := GetSettings(false);
      r := UpdateFromGithub(s, tempName, env, network);
      if r.Err? {
        PersistNotice(r.error.message, "error", now);
      } else {
        PersistNotice(r.value, "success", now);
      }
    }
  }
}
