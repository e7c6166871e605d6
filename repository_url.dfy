/** Turning the repository URL from the settings into an owner and a
    repository name, and the GitHub URLs the plugin builds from them
    (github-plugin-installer-and-updater.php, `parse_repository_url` and the
    `sprintf` calls that build the zipball, raw-file and homepage URLs). */
module RepositoryUrl {
  import opened Platform
  import opened Strings

  /** The `array( 'owner' => ..., 'repo' => ... )` that parsing returns. */
  datatype Repository = Repository(owner: string, repo: string)

  const InvalidRepo := "invalid_repo"
  const MsgInvalidHost := "Please provide a valid GitHub repository URL."
  const MsgMissingPath := "The repository URL must include the owner and repository name."
  const MsgTooFewSegments := "Unable to detect repository owner and name from the provided URL."

  /** The branch used when the configured one is empty: always the literal `main`. */
  const DefaultBranch := "main"

  /** `preg_replace( '#\.git$#', '', $s )`. Without the `D` modifier PCRE's
      `$` also matches just before a final newline, so `x.git\n` becomes `x\n`. */
  function StripGitSuffix(s: string): (r: string)
    ensures HasSuffix(s, ".git") ==> r + ".git" == s
    ensures HasSuffix(s, ".git\n") ==> |r| >= 1 && r[|r| - 1] == '\n' && r[..|r| - 1] + ".git\n" == s
    ensures !HasSuffix(s, ".git") && !HasSuffix(s, ".git\n") ==> r == s
  {
    if HasSuffix(s, ".git") then
      assert s[|s| - 1] == ".git"[3];
      s[..|s| - 4]
    else if HasSuffix(s, ".git\n") then s[..|s| - 5] + "\n"
    else s
  }

  /** `trim( $parts['path'], '/' )`. */
  function TrimmedPath(parts: UrlParts): string {
    TrimChars(parts.path, {'/'})
  }

  /** `parse_repository_url` on the result of `wp_parse_url`. It succeeds
      exactly when the host contains `github.com` in any letter case and the
      path, trimmed of slashes, still contains a slash; the owner is then the
      first path segment and the repository the second with one `.git`
      removed. Each failure carries `invalid_repo` and the message of the
      check that failed. */
  function ParseRepositoryUrl(parts: UrlParts): (r: Result<Repository>)
    ensures r.Ok? <==> Contains(Lower(parts.host), "github.com") && '/' in TrimmedPath(parts)
    ensures r.Ok? ==>
      var segments := Split(TrimmedPath(parts), '/');
      |segments| >= 2 && r.value == Repository(segments[0], StripGitSuffix(segments[1]))
    ensures r.Err? ==> r.error.code == InvalidRepo
    ensures !Contains(Lower(parts.host), "github.com") ==> r == Err(WpError(InvalidRepo, MsgInvalidHost))
    ensures Contains(Lower(parts.host), "github.com") && PhpEmpty(TrimmedPath(parts)) ==>
      r == Err(WpError(InvalidRepo, MsgMissingPath))
    ensures Contains(Lower(parts.host), "github.com") && !PhpEmpty(TrimmedPath(parts)) && '/' !in TrimmedPath(parts) ==>
      r == Err(WpError(InvalidRepo, MsgTooFewSegments))
  {
    if PhpEmpty(parts.host) || !Contains(Lower(parts.host), "github.com") then
      Err(WpError(InvalidRepo, MsgInvalidHost))
    else
      var path := TrimmedPath(parts);
      if PhpEmpty(path) then
        Err(WpError(InvalidRepo, MsgMissingPath))
      else
        var segments := Split(path, '/');
        if |segments| < 2 then
          Err(WpError(InvalidRepo, MsgTooFewSegments))
        else
          Ok(Repository(segments[0], StripGitSuffix(segments[1])))
  }

  /** Every URL of the shape `https://<github host>/<owner>/<name>[.git]`,
      with any number of slashes around the path, parses back to its owner
      and name, without the `.git`. */
  lemma RepositoryRoundTrip(host: string, lead: string, owner: string, name: string, dotGit: bool, trail: string)
    requires Contains(Lower(host), "github.com")
    requires forall k :: 0 <= k < |lead| ==> lead[k] == '/'
    requires forall k :: 0 <= k < |trail| ==> trail[k] == '/'
    requires owner != "" && '/' !in owner
    requires name != "" && '/' !in name
    requires !dotGit ==> !HasSuffix(name, ".git") && !HasSuffix(name, ".git\n")
    ensures ParseRepositoryUrl(UrlParts(host, lead + owner + "/" + name + (if dotGit then ".git" else "") + trail))
         == Ok(Repository(owner, name))
  {
    if dotGit {
      var tail := name + ".git";
      assert tail[|tail| - 1] == 't';
      assert forall k :: 0 <= k < |tail| ==> tail[k] != '/' by {
        forall k | 0 <= k < |tail| ensures tail[k] != '/' {
          if k >= |name| { assert tail[k] == ".git"[k - |name|]; }
        }
      }
      assert lead + owner + "/" + name + ".git" + trail == lead + owner + "/" + tail + trail;
      ParseOwnerAndTail(host, lead, owner, tail, trail);
      assert HasSuffix(tail, ".git");
      assert tail[..|tail| - 4] == name;
    } else {
      assert lead + owner + "/" + name + "" + trail == lead + owner + "/" + name + trail;
      ParseOwnerAndTail(host, lead, owner, name, trail);
    }
  }

  lemma ParseOwnerAndTail(host: string, lead: string, owner: string, tail: string, trail: string)
    requires Contains(Lower(host), "github.com")
    requires forall k :: 0 <= k < |lead| ==> lead[k] == '/'
    requires forall k :: 0 <= k < |trail| ==> trail[k] == '/'
    requires owner != "" && '/' !in owner
    requires tail != "" && '/' !in tail
    ensures ParseRepositoryUrl(UrlParts(host, lead + owner + "/" + tail + trail))
         == Ok(Repository(owner, StripGitSuffix(tail)))
  {
    var core := owner + ['/'] + tail;
    assert lead + owner + "/" + tail + trail == lead + core + trail;
    assert core[|core| - 1] == tail[|tail| - 1];
    TrimPadded(lead, core, trail, {'/'});
    SplitPair(owner, tail, '/');
  }

  lemma SplitPair(a: string, b: string, c: char)
    requires c !in a && c !in b
    ensures Split(a + [c] + b, c) == [a, b]
  {
    SplitAtFirst(a, c, b);
    assert Split(b, c) == [b];
  }

  /** `! empty( $branch ) ? $branch : 'main'`. */
  function EffectiveBranch(branch: string): (b: string)
    ensures !PhpEmpty(b)
    ensures !PhpEmpty(branch) ==> b == branch
  {
    if PhpEmpty(branch) then DefaultBranch else branch
  }

  const ApiRepos := "api.github.com/repos"

  /** The zipball a branch is downloaded from. */
  function ZipballUrl(r: Repository, branch: string): string {
    "https://" + ApiRepos + ("/" + r.owner + "/" + r.repo + "/zipball/" + RawUrlEncode(branch))
  }

  /** The raw copy of the plugin's main file on a branch, read for its version. */
  function RawFileUrl(r: Repository, branch: string): string {
    "https://raw.githubusercontent.com/" + r.owner + "/" + r.repo + "/" + RawUrlEncode(branch)
      + "/github-plugin-installer-and-updater.php"
  }

  /** The repository's page on GitHub. */
  function HomepageUrl(r: Repository): string {
    "https://github.com/" + r.owner + "/" + r.repo
  }

  /** Every zipball URL goes through the GitHub API's repository endpoint,
      which is what the outbound-request filter looks for before it adds the
      token, so archive downloads that WordPress itself starts from the
      update offer are authenticated too. */
  lemma ZipballIsApiRequest(r: Repository, branch: string)
    ensures Contains(Lower(ZipballUrl(r, branch)), ApiRepos)
  {
    var rest := "/" + r.owner + "/" + r.repo + "/zipball/" + RawUrlEncode(branch);
    ApiPrefixIsLower();
    LowerConcat("https://" + ApiRepos, rest);
    ContainsAfter("https://", ApiRepos, Lower(rest));
  }

  lemma ApiPrefixIsLower()
    ensures Lower("https://" + ApiRepos) == "https://" + ApiRepos
  {
    LowerOfLower("https://" + ApiRepos);
  }
}
