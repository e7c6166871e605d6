/** The plugin's settings: five strings kept in one option, merged with
    their defaults when read and sanitized when saved
    (github-plugin-installer-and-updater.php, `get_default_settings`,
    `get_settings`, `sanitize_settings`). */
module Settings {
  import opened Platform
  import opened Strings

  const RepositoryUrlKey := "repository_url"
  const RepositoryBranchKey := "repository_branch"
  const GithubTokenKey := "github_token"
  const SelfUpdateUrlKey := "self_update_repository_url"
  const SelfUpdateBranchKey := "self_update_repository_branch"

  const SettingKeys: set<string> := {RepositoryUrlKey, RepositoryBranchKey, GithubTokenKey, SelfUpdateUrlKey, SelfUpdateBranchKey}

  /** `get_default_settings`: every setting present, both branches `main`,
      everything else empty. */
  function Defaults(): (d: map<string, string>)
    ensures d.Keys == SettingKeys
    ensures d[RepositoryBranchKey] == "main" && d[SelfUpdateBranchKey] == "main"
    ensures d[RepositoryUrlKey] == "" && d[GithubTokenKey] == "" && d[SelfUpdateUrlKey] == ""
  {
    map[RepositoryUrlKey := "", RepositoryBranchKey := "main", GithubTokenKey := "",
        SelfUpdateUrlKey := "", SelfUpdateBranchKey := "main"]
  }

  /** `wp_parse_args( $stored, $defaults )`: the stored values win, and the
      defaults fill in what is missing. */
  function ParseArgs(stored: map<string, string>, defaults: map<string, string>): (r: map<string, string>)
    ensures r.Keys == stored.Keys + defaults.Keys
    ensures forall k :: k in stored ==> r[k] == stored[k]
    ensures forall k :: k in defaults && k !in stored ==> r[k] == defaults[k]
  {
    defaults + stored
  }

  /** Every setting has a value. */
  predicate Complete(s: map<string, string>) {
    SettingKeys <= s.Keys
  }

  /** `$settings[ $key ]`, with PHP's `null` read as the empty string. */
  function Setting(s: map<string, string>, key: string): string {
    if key in s then s[key] else ""
  }

  /** Settings read from the stored option always have every key. */
  lemma ReadSettingsComplete(stored: map<string, string>)
    ensures Complete(ParseArgs(stored, Defaults()))
    ensures forall k :: k in SettingKeys && k !in stored ==> Setting(ParseArgs(stored, Defaults()), k) == Defaults()[k]
  {
  }

  function SanitizeUrl(input: map<string, string>, key: string, escUrlRaw: string -> string, fallback: string): string {
    if key in input then escUrlRaw(Trim(input[key])) else fallback
  }

  function SanitizeText(input: map<string, string>, key: string, sanitizeTextField: string -> string, fallback: string): string {
    if key in input then sanitizeTextField(input[key]) else fallback
  }

  /** The value `sanitize_settings` returns for the submitted form `input`:
      exactly the five settings, each one submitted cleaned (URLs trimmed
      and passed through `esc_url_raw`, the other fields through
      `sanitize_text_field`) and each one not submitted at its default.
      Any other submitted field is dropped. */
  function Sanitize(input: map<string, string>, host: Host): (r: map<string, string>)
    ensures r.Keys == SettingKeys
    ensures forall k :: k in SettingKeys && k !in input ==> r[k] == Defaults()[k]
    ensures RepositoryUrlKey in input ==> r[RepositoryUrlKey] == host.escUrlRaw(Trim(input[RepositoryUrlKey]))
    ensures SelfUpdateUrlKey in input ==> r[SelfUpdateUrlKey] == host.escUrlRaw(Trim(input[SelfUpdateUrlKey]))
    ensures RepositoryBranchKey in input ==> r[RepositoryBranchKey] == host.sanitizeTextField(input[RepositoryBranchKey])
    ensures GithubTokenKey in input ==> r[GithubTokenKey] == host.sanitizeTextField(input[GithubTokenKey])
    ensures SelfUpdateBranchKey in input ==> r[SelfUpdateBranchKey] == host.sanitizeTextField(input[SelfUpdateBranchKey])
  {
    var d := Defaults();
    map[
      RepositoryUrlKey := SanitizeUrl(input, RepositoryUrlKey, host.escUrlRaw, d[RepositoryUrlKey]),
      RepositoryBranchKey := SanitizeText(input, RepositoryBranchKey, host.sanitizeTextField, d[RepositoryBranchKey]),
      GithubTokenKey := SanitizeText(input, GithubTokenKey, host.sanitizeTextField, d[GithubTokenKey]),
      SelfUpdateUrlKey := SanitizeUrl(input, SelfUpdateUrlKey, host.escUrlRaw, d[SelfUpdateUrlKey]),
      SelfUpdateBranchKey := SanitizeText(input, SelfUpdateBranchKey, host.sanitizeTextField, d[SelfUpdateBranchKey])]
  }

  /** Fields outside the five settings have no effect on what is saved. */
  lemma SanitizeIgnoresOtherFields(input: map<string, string>, extra: map<string, string>, host: Host)
    requires extra.Keys !! SettingKeys
    ensures Sanitize(input + extra, host) == Sanitize(input, host)
  {
    var a := Sanitize(input + extra, host);
    var b := Sanitize(input, host);
    forall k | k in SettingKeys
      ensures a[k] == b[k]
    {
      assert k in input + extra <==> k in input;
      assert k in input ==> (input + extra)[k] == input[k];
    }
  }
}
