# GitHub Plugin Installer and Updater — a verified model

This project is a Dafny model of the WordPress add-on
`Github_Plugin_Installer_And_Updater_Addon`, defined in
`github-plugin-installer-and-updater.php`. The add-on does five things:

- It keeps five settings: the install repository URL and branch, a GitHub token, and the self-update repository URL and branch.
- It downloads a GitHub zipball of the configured branch and installs it into the plugins directory. The install slug is derived from the package's plugin headers.
- It offers itself as a WordPress update. It reads the `Version:` header of its own main file on GitHub and caches that answer for five minutes.
- It adds the token to GitHub API requests that WordPress sends.
- It lists the account's repositories, cached for an hour, and keeps a read-once notice per user.

The model follows the structure of the source:

| file | module | models |
|---|---|---|
| `platform.dfy` | `Platform` | `WP_Error` results, HTTP requests and responses, and the WordPress functions the plugin calls but does not define (`Host`) |
| `strings.dfy` | `Strings` | PHP's `empty()`, `strtolower`, `stripos`, `trim`, `explode`, `%d` and `rawurlencode` |
| `repository_url.dfy` | `RepositoryUrl` | `parse_repository_url` and the zipball, raw-file and homepage URLs |
| `plugin_header.dfy` | `PluginHeader` | `extract_version_from_plugin_header`, with PCRE's matching order for `/^\s*\*\s*Version:\s*(.+)$/mi` |
| `transients.dfy` | `Transients` | the expiring transient store (class `TransientStore`) and the three cache-key families |
| `requests.dfy` | `Requests` | request headers, how `download_package` reads a response, and `maybe_authorize_github_download` |
| `repository_list.dfy` | `RepositoryList` | `fetch_repositories` and its filter loop |
| `files.dfy` | `Files` | the file system as the installer sees it (class `Filesystem`): directories, files and a log of every call with its outcome |
| `installer.dfy` | `Installer` | `determine_plugin_slug` (a loop), `download_package` and `install_package` |
| `settings.dfy` | `Settings` | `get_default_settings`, the `wp_parse_args` merge and `sanitize_settings` |
| `updater.dfy` | `Updater` | the add-on object (class `Addon`) and the update transient (class `UpdateTransient`) |

Each operation that changes the transient store, the file system or the update transient is a method on a class, proved against a pure function of the state before it:

- A method on the transient store or the update transient leaves exactly the state that `SelfUpdateStep`, `ConsumeNoticeFrom`, `PersistNoticeIn`, `RepositoryStep`, `ClearSelfUpdateIn` or `InjectSelfUpdate` gives.
- A method on the file system returns the result of `InstallSteps` (for `install_package`) or `UpdateSteps` (for `update_from_github` and `handle_update_request`) and appends exactly that function's calls to the file-system log. The plain files are always those that replaying the log gives (`Files.FilesAfter`, kept as the invariant `Filesystem.Replays`).

The cache, cleanup and ordering properties are lemmas about those functions.

Notes on what the source does:

- An empty branch is always the literal `main` (lines 443, 799 and 1060).
- The only install shape is a zip archive whose first top-level directory holds the plugin (lines 560-573). The slug comes from the plugin headers.
- When settings are saved, the cache entry of the new self-update URL and branch is deleted (line 164). The entry of the old settings stays until it expires.
- In `get_self_update_remote_info`, a bypass deletes the entry before fetching (line 1045). A failed fetch stores nothing, so after a failed forced check the store has no entry for those settings.
- An existing destination directory is deleted before the plugin is moved into place (lines 577-579). If all three relocation attempts then fail, the old plugin is gone as well. `Installer.InstallRelocationOrder` states that a move only goes into a destination cleared this way.

## Model

| member | source | states |
|---|---|---|
| Strings.TrimChars | github-plugin-installer-and-updater.php:700 | `trim( $s, $list )`: the result neither starts nor ends with a listed character, and it is empty exactly when every character is listed |
| Strings.TrimIdempotent | github-plugin-installer-and-updater.php:145 | trimming twice is trimming once |
| Strings.TrimPadded | github-plugin-installer-and-updater.php:700 | padding a trimmed string with listed characters on both sides gives back the same string after trimming |
| Strings.Split | github-plugin-installer-and-updater.php:706 | `explode`: no piece contains the separator, joining the pieces rebuilds the input, and there is more than one piece exactly when the separator occurs |
| Strings.SplitAtFirst | github-plugin-installer-and-updater.php:706 | `explode` cuts at the first separator |
| Strings.RawUrlEncode | github-plugin-installer-and-updater.php:446 | `rawurlencode` outputs only unreserved characters and `%XX` escapes (never `/`), and leaves a string of unreserved characters unchanged |
| Strings.NatToStringRoundTrip | github-plugin-installer-and-updater.php:842 | reading back the decimal digits of a user id gives the id |
| Strings.NatToStringInjective | github-plugin-installer-and-updater.php:842 | distinct user ids are written differently |
| Strings.ContainsAfter | github-plugin-installer-and-updater.php:1015 | a string contains any of its own substrings, as `stripos` finds them |
| RepositoryUrl.ParseRepositoryUrl | github-plugin-installer-and-updater.php:693-719 | succeeds iff the host contains `github.com` in any letter case and the slash-trimmed path still contains `/`. On success the owner is the first path segment and the repository the second, with one `.git` removed. Every failure is `invalid_repo` with the message of the check that failed |
| RepositoryUrl.StripGitSuffix | github-plugin-installer-and-updater.php:713 | removes exactly one trailing `.git`. A `.git` just before a final newline is removed too, as PCRE's `$` allows, and the newline stays as the last character. Anything else is unchanged |
| RepositoryUrl.RepositoryRoundTrip | github-plugin-installer-and-updater.php:693-719 | every `https://<github host>/<owner>/<name>[.git]` URL, with any slashes around the path, parses back to its owner and name |
| RepositoryUrl.ParseOwnerAndTail | github-plugin-installer-and-updater.php:700-713 | an owner and a tail without slashes, padded with slashes, parse to that owner and the tail without `.git` |
| RepositoryUrl.EffectiveBranch | github-plugin-installer-and-updater.php:443 | the branch used is never empty, and is the configured one whenever that is not empty |
| RepositoryUrl.ZipballIsApiRequest | github-plugin-installer-and-updater.php:1112 | every zipball URL, lower-cased, contains `api.github.com/repos`, the marker the request filter looks for |
| PluginHeader.SkipSpace | github-plugin-installer-and-updater.php:1186 | a greedy `\s*` stops at the first non-space character, or at the end of the string |
| PluginHeader.LineEnd | github-plugin-installer-and-updater.php:1186 | a greedy `.+` runs to the next line feed, or to the end of the string |
| PluginHeader.CaptureStart | github-plugin-installer-and-updater.php:1186 | after backtracking, the capture starts at the last position where `.` can match, and fails when there is none |
| PluginHeader.FirstMatchFromNone | github-plugin-installer-and-updater.php:1186-1188 | there is no match exactly when no line start from the position on matches the pattern |
| PluginHeader.ExtractVersion | github-plugin-installer-and-updater.php:1185-1191 | the result never starts or ends with white space, and it is `""` when no line matches |
| PluginHeader.FirstMatchWins | github-plugin-installer-and-updater.php:1185-1191 | the first matching line decides the version; later lines are never consulted |
| PluginHeader.FirstMatchFromReaches | github-plugin-installer-and-updater.php:1186 | the leftmost matching line start at or after a position is the match found from there |
| PluginHeader.HeaderLineRoundTrip | github-plugin-installer-and-updater.php:1185-1191 | a header line ` * Version: <v>` is read back as exactly `v`, whatever follows |
| Transients.SelfUpdateKeyInjective | github-plugin-installer-and-updater.php:1161-1163 | for URLs without a vertical bar, two (URL, branch) pairs share a key exactly when they are equal |
| Transients.SelfUpdateKeyAmbiguous | github-plugin-installer-and-updater.php:1162 | with a vertical bar in the URL, two different settings share one key |
| Transients.PrefixesDisjoint | github-plugin-installer-and-updater.php:1162 | the self-update, notice and repository key families never overlap |
| Transients.LookupIn | github-plugin-installer-and-updater.php:1047-1049 | `get_transient` finds a value exactly when the key is present and its expiry time has not passed, and then returns the stored value |
| Transients.LookupAfterStore | github-plugin-installer-and-updater.php:1116 | a stored value is returned until its lifetime ends and never after, and other keys are unaffected |
| Transients.StoreKeepsWellTyped | github-plugin-installer-and-updater.php:867 | storing a value of the right kind under a key of a family keeps each family holding only values of its kind |
| Transients.SelfUpdateKeyFamily | github-plugin-installer-and-updater.php:1161-1163 | a self-update key has the self-update prefix and no other |
| Transients.NoticeKeyFamily | github-plugin-installer-and-updater.php:841-843 | a notice key has the notice prefix and no other |
| Transients.RepositoryKeyFamily | github-plugin-installer-and-updater.php:879-881 | a repository key has the repository prefix and no other |
| Transients.TransientStore.Set | github-plugin-installer-and-updater.php:1116 | `set_transient` stores the value with its expiry time |
| Transients.TransientStore.Delete | github-plugin-installer-and-updater.php:1045 | `delete_transient` removes the key and nothing else |
| Requests.GithubHeaders | github-plugin-installer-and-updater.php:485-492 | always the GitHub media type and the site user agent, plus a bearer `Authorization` exactly when the token is not empty |
| Requests.DownloadRequest | github-plugin-installer-and-updater.php:494-502 | the download streams to the temporary file, with a 60-second timeout, and is authorized exactly when a token is set |
| Requests.ClassifyDownload | github-plugin-installer-and-updater.php:504-522 | the download succeeds iff the response is not a transport error and its status is below 400. Transport errors pass through. A status of 400 or more is `download_failed` with the body, or a message naming the status when the body is empty |
| Requests.AuthorizeGithubDownload | github-plugin-installer-and-updater.php:1008-1032 | without a token, or for a URL not under `api.github.com/repos` in any case, the arguments are unchanged. Otherwise a missing or empty `Authorization` becomes the bearer token and a missing or empty `User-Agent` the site agent; non-empty values and all other headers and arguments are kept |
| Requests.AuthorizeIdempotent | github-plugin-installer-and-updater.php:1023-1029 | applying the filter twice is applying it once |
| Requests.ZipballDownloadsAreAuthorized | github-plugin-installer-and-updater.php:1015-1024 | with a token set, every zipball download the plugin builds gets an `Authorization` header from the filter |
| Requests.RawFileRequest | github-plugin-installer-and-updater.php:1063-1080 | the self-update request fetches the raw main file of the branch with a 30-second timeout, authorized exactly when a token is set |
| RepositoryList.RepositoriesRequest | github-plugin-installer-and-updater.php:1201-1211 | the listing request always sends `Authorization`, even for an empty token |
| RepositoryList.UsableRepositories | github-plugin-installer-and-updater.php:1237-1247 | the list is never longer than its input |
| RepositoryList.UsableRepositoriesExact | github-plugin-installer-and-updater.php:1237-1247 | every record with a non-empty full name and page URL is listed, everything listed comes from such a record, and nothing is dropped when every record qualifies |
| RepositoryList.UsableRepositoriesAppend | github-plugin-installer-and-updater.php:1237-1247 | the filter keeps the input order: the list of a concatenation is the concatenation of the lists |
| RepositoryList.FilterRepositories | github-plugin-installer-and-updater.php:1235-1249 | the `foreach` loop builds exactly `UsableRepositories` of the decoded records |
| RepositoryList.RepositoriesFromResponse | github-plugin-installer-and-updater.php:1213-1249 | the listing succeeds iff the status is 200 and the body decodes to an array. Transport errors pass through; other statuses and non-arrays are `github_repos` errors with their messages |
| RepositoryList.FetchRepositories | github-plugin-installer-and-updater.php:1200-1250 | the method returns `RepositoriesFromResponse` of the network's answer to the listing request |
| Files.TrailingSlashIt | github-plugin-installer-and-updater.php:547 | `trailingslashit` always ends in `/` |
| Files.MovedDirs | github-plugin-installer-and-updater.php:587 | after a move the destination exists and the source tree is gone |
| Files.FilesAfterAppend | github-plugin-installer-and-updater.php:453-457 | replaying two call sequences one after the other is replaying their concatenation, so the files after a step depend only on the files before it and its own calls |
| Files.Filesystem.DeleteTree | github-plugin-installer-and-updater.php:556 | a recursive delete removes exactly the tree under the path and logs the call. Trailing slashes on the path are ignored, so `dir/` removes the tree of `dir`. The files left are what replaying the log gives |
| Files.WithinDirPath | github-plugin-installer-and-updater.php:575-579 | a path lies in a tree whenever it does once its trailing slashes are dropped |
| Files.SlashedDirectory | github-plugin-installer-and-updater.php:547 | `trailingslashit` adds exactly one `/` to a path that ends in neither slash, and the result names the same directory |
| Installer.FirstIndex | github-plugin-installer-and-updater.php:634-683 | the position of the first file with the property; no earlier file has it |
| Installer.FirstIndexIsFirst | github-plugin-installer-and-updater.php:634-683 | a file with the property and none before it is the one the walk finds |
| Installer.SelectSlug | github-plugin-installer-and-updater.php:623-684 | succeeds iff some PHP file is the booking plugin's main file or carries a plugin header. The booking slug wins whenever any identifying file exists, and the main file reported is the first identifying file. Otherwise the slug and main file are those of the first named file, its name sanitized. Failure is `plugin_slug` |
| Installer.NamedSlug | github-plugin-installer-and-updater.php:649-683 | without an identifying file: succeeds iff some file carries a plugin header, and then the slug is the sanitized name of the first such file and its path the main file. Failure is `plugin_slug` |
| Installer.DeterminePluginSlug | github-plugin-installer-and-updater.php:634-683 | the walk, which stops at the first identifying file and remembers the first named one, decides exactly as `SelectSlug` |
| Installer.DownloadPackage | github-plugin-installer-and-updater.php:474-523 | without a temporary file, `temp_file` and no file-system call. Otherwise the result is `ClassifyDownload` of the response. A failure unlinks the temporary file, a success leaves the archive there, and no directory changes |
| Installer.RelocateCalls | github-plugin-installer-and-updater.php:586-604 | a move first; `rename` exactly after a failed move and `copy_dir` exactly after a failed `rename`, all with the same source and destination |
| Installer.InstallSteps | github-plugin-installer-and-updater.php:532-614 | every run that created the working folder deletes it last. The destination is deleted when `is_dir` holds for it, trailing slashes ignored. The install succeeds exactly when every step before the relocation works and one of the three attempts does. Each earlier failure ends with its own error, and a failed relocation with `copy_dir`'s error |
| Installer.PrepareCalls | github-plugin-installer-and-updater.php:547-581 | the calls before the relocation create directories, unzip, and delete the destination only when it is a directory, ending with the plugins directory |
| Installer.Relocate | github-plugin-installer-and-updater.php:586-604 | the method makes exactly `RelocateCalls` and fails only when all three attempts fail; after a success the destination exists |
| Installer.InstallPackage | github-plugin-installer-and-updater.php:532-614 | the method makes exactly the calls of `InstallSteps` and returns its result. No tracked file appears (extracted and moved files are not tracked), and after a success the plugin directory exists. With deletes taken to succeed, the working folder is gone afterwards |
| Installer.Place | github-plugin-installer-and-updater.php:575-613 | the method makes exactly `PlaceCalls`: it deletes the destination when that is a directory, trailing slashes ignored, then creates the plugins directory, relocates and removes the working folder. Errors are as in `install_package`. No tracked file appears, nothing below the working folder remains, and after a success the destination exists |
| Installer.PlaceCalls | github-plugin-installer-and-updater.php:575-613 | once the destination is known, the working folder is always removed last |
| Installer.RelocatingShape | github-plugin-installer-and-updater.php:553-613 | an install that reaches the relocation is its preparation, the three attempts and the removal of the working folder, in that order |
| Installer.StoppedShape | github-plugin-installer-and-updater.php:539-584 | an install that stops before the relocation makes no move, rename, copy, temporary-file or unlink call, and deletes only its own directories |
| Installer.InstallShape | github-plugin-installer-and-updater.php:532-614 | an install either reaches the relocation and is preparation, attempts and cleanup, or makes no relocation call and deletes only its own directories |
| Installer.InstallDeletesOnlyItsOwn | github-plugin-installer-and-updater.php:553-611 | only the working folder and the destination are ever deleted, the destination only when it was a directory; the archive is never touched |
| Installer.DeletionsOf | github-plugin-installer-and-updater.php:553-611 | deletions in the preparation, the attempts and the cleanup are of the working folder or the cleared destination only |
| Installer.MovesPreparedOf | github-plugin-installer-and-updater.php:577-587 | a move comes after the plugins directory was created and after a clearing of its destination |
| Installer.FallbacksOf | github-plugin-installer-and-updater.php:587-604 | the fallback order of the attempts holds inside the whole call sequence |
| Installer.PlacementOrdered | github-plugin-installer-and-updater.php:575-613 | an install that reaches the relocation keeps the relocation order and makes a move |
| Installer.NoRelocationCalls | github-plugin-installer-and-updater.php:539-584 | an install that stops early makes no move, so the ordering properties hold trivially |
| Installer.EmptySlugClearsPlugins | github-plugin-installer-and-updater.php:553-579 | a plugin whose slug is empty, with an existing plugins directory, has that directory deleted right after extraction. The delete removes exactly the plugins directory and everything in it |
| Installer.ClearedFirst | github-plugin-installer-and-updater.php:575-579 | an existing destination is deleted right after the extraction |
| Installer.InstallRelocationOrder | github-plugin-installer-and-updater.php:532-614 | a move is attempted exactly when every earlier step worked. It goes into an existing plugins directory and a destination cleared when it was a directory, and every fallback follows the failure of the attempt before it |
| Settings.Defaults | github-plugin-installer-and-updater.php:793-801 | the defaults hold exactly the five settings: both branches `main`, the rest empty |
| Settings.ParseArgs | github-plugin-installer-and-updater.php:782 | `wp_parse_args`: stored values win and defaults fill every missing key |
| Settings.ReadSettingsComplete | github-plugin-installer-and-updater.php:780-786 | settings read from the option always hold every key, and a key missing from the option has its default |
| Settings.Sanitize | github-plugin-installer-and-updater.php:141-169 | exactly the five settings. A submitted URL is trimmed and passed through `esc_url_raw`, any other submitted field through `sanitize_text_field`, and a field not submitted is at its default |
| Settings.SanitizeIgnoresOtherFields | github-plugin-installer-and-updater.php:141-169 | submitted fields outside the five settings have no effect |
| Updater.RemoteFromResponse | github-plugin-installer-and-updater.php:1082-1118 | an offer exists iff the status is 200 and both body and version are non-empty. The offer is the header version, the branch zipball and the repository page, and its package is always an API URL. Each failure has the error of its check |
| Updater.SelfUpdateStep | github-plugin-installer-and-updater.php:1041-1119 | without a bypass, a live entry is the answer and nothing changes. Otherwise the remote file is read: a success is stored for five minutes, and a failure leaves the store as it was after the bypass deletion |
| Updater.SelfUpdateStepKeepsOtherKeys | github-plugin-installer-and-updater.php:1041-1119 | the lookup touches no other key |
| Updater.CachedSelfUpdateMakesNoRequest | github-plugin-installer-and-updater.php:1047-1051 | a cached answer does not depend on the network |
| Updater.SelfUpdateAnswerIsCached | github-plugin-installer-and-updater.php:1116 | after a successful fetch, any lookup without a bypass within five minutes returns the same answer and changes nothing |
| Updater.ClearSelfUpdateIn | github-plugin-installer-and-updater.php:1170-1176 | with a self-update URL set, exactly the entry of that URL and branch is dropped; without one, nothing changes |
| Updater.ClearForcesFetch | github-plugin-installer-and-updater.php:1126-1134 | after the clear, the next lookup goes to GitHub even without a bypass |
| Updater.ConsumeNoticeFrom | github-plugin-installer-and-updater.php:825-834 | a live notice of the user is returned and removed; without one, nothing changes |
| Updater.PersistNoticeIn | github-plugin-installer-and-updater.php:809-818 | the notice can be read for one minute, and every other key keeps its entry, with no key added or removed |
| Updater.NoticeShownOnce | github-plugin-installer-and-updater.php:809-834 | a notice read within a minute is returned once and then gone; read later, it has expired |
| Updater.NoticesPerUser | github-plugin-installer-and-updater.php:841-843 | storing one user's notice does not change what another user reads |
| Updater.RepositoryStep | github-plugin-installer-and-updater.php:852-870 | a live listing is the answer unless a refresh is asked for. Otherwise the fetched listing is the answer, and a success is stored for an hour. Failures and other keys are left alone |
| Updater.RepositoryListingIsCached | github-plugin-installer-and-updater.php:852-870 | within the hour after a successful listing, the token is answered from the cache whatever GitHub would say |
| Updater.UpdateDownloadUrl | github-plugin-installer-and-updater.php:432-446 | without a repository URL, `missing_repo`; else the parse error or the zipball of the branch (`main` when empty), which is always an API URL |
| Updater.InjectSelfUpdate | github-plugin-installer-and-updater.php:907-950 | a failed lookup changes nothing. A newer version is offered in `response`. An equal or older one is removed from `response` and recorded in `no_update` with the current version and no package. `checked` records the current version, and other plugins' entries are untouched |
| Updater.InjectSelfUpdateIdempotent | github-plugin-installer-and-updater.php:907-950 | applying the same answer twice is applying it once |
| Updater.UpdateTransient.Apply | github-plugin-installer-and-updater.php:916-948 | the transient afterwards is `InjectSelfUpdate` of the transient before it |
| Updater.Addon.constructor | github-plugin-installer-and-updater.php:34-46 | the settings are read once, merged with their defaults |
| Updater.Addon.GetSettings | github-plugin-installer-and-updater.php:780-786 | re-reads the option when asked to or when nothing is cached, otherwise keeps the cached settings |
| Updater.Addon.MaybeClearSelfUpdateCache | github-plugin-installer-and-updater.php:1170-1176 | the store afterwards is `ClearSelfUpdateIn` of the store before it |
| Updater.Addon.SanitizeSettings | github-plugin-installer-and-updater.php:141-169 | the sanitized settings become the cached ones, and the entry of the new self-update settings is cleared |
| Updater.Addon.HandlePluginsCacheCleared | github-plugin-installer-and-updater.php:1126-1134 | with the flag set, the self-update entry of the current settings is cleared; otherwise nothing changes |
| Updater.Addon.GetSelfUpdateRemoteInfo | github-plugin-installer-and-updater.php:1041-1119 | result and new store are those of `SelfUpdateStep` |
| Updater.Addon.FetchAndStore | github-plugin-installer-and-updater.php:1054-1118 | the uncached lookup; only a success is stored for five minutes |
| Updater.Addon.PersistNotice | github-plugin-installer-and-updater.php:809-818 | the store afterwards is `PersistNoticeIn` for the current user |
| Updater.Addon.ConsumeNotice | github-plugin-installer-and-updater.php:825-834 | result and new store are those of `ConsumeNoticeFrom` for the current user |
| Updater.Addon.GetCachedRepositories | github-plugin-installer-and-updater.php:852-870 | result and new store are those of `RepositoryStep` with the listing fetched for the token |
| Updater.Addon.MaybeAuthorizeGithubDownload | github-plugin-installer-and-updater.php:1008-1032 | the arguments become `AuthorizeGithubDownload` with the cached token |
| Updater.Addon.MaybeInjectSelfUpdate | github-plugin-installer-and-updater.php:890-951 | a missing transient becomes a new one. Without a self-update URL, the transient and store are unchanged. Otherwise both follow `SelfUpdateStep` and `InjectSelfUpdate` against the installed version (`0` when unknown) |
| Updater.UpdateDownload | github-plugin-installer-and-updater.php:432-447 | the download of an update is the URL error when there is no download URL, and otherwise `ClassifyDownload` of the response to the zipball request |
| Updater.CleanupCalls | github-plugin-installer-and-updater.php:453-457 | after the installation's calls, the archive is unlinked exactly when replaying them leaves it in place |
| Updater.UpdateSteps | github-plugin-installer-and-updater.php:432-464 | no call when the URL or the temporary file is missing, each with its error. A failed download creates and unlinks the temporary file and reports the download error. Otherwise the temporary file, the installation's calls and the clean-up follow, and a failed installation reports its own error. The update succeeds exactly when the URL, the download and the installation all do, with the success message |
| Updater.UpdateStepsNotDownloaded | github-plugin-installer-and-updater.php:432-450 | without the archive, the update is the URL error, `temp_file`, or the download error after creating and unlinking the temporary file |
| Updater.UpdateStepsDownloaded | github-plugin-installer-and-updater.php:448-464 | with the archive downloaded, the update is the temporary file, the installation's calls and the clean-up, and it succeeds exactly when the installation does |
| Updater.UpdateLeavesNoArchive | github-plugin-installer-and-updater.php:453-457 | with deletes taken to succeed, a temporary file that was not there before the update is not there after it, whichever step fails |
| Updater.FailedDownloadLeavesNoArchive | github-plugin-installer-and-updater.php:504-514 | a failed download leaves no temporary file |
| Updater.InstalledUpdateLeavesNoArchive | github-plugin-installer-and-updater.php:453-457 | after the installation and the clean-up, the archive is gone |
| Updater.Addon.UpdateFromGithub | github-plugin-installer-and-updater.php:432-464 | the result and the calls appended to the log are those of `UpdateSteps` on the file system before it. Without a download URL nothing changes, and a failed download or missing URL changes no directory. No tracked file other than the archive appears, and with deletes taken to succeed the archive does not remain |
| Updater.Addon.InstallDownloaded | github-plugin-installer-and-updater.php:453-457 | the installation's result, and its calls followed by `CleanupCalls`; the archive is gone afterwards and no tracked file appears |
| Updater.Addon.HandleUpdateRequest | github-plugin-installer-and-updater.php:412-418 | the result and the calls appended to the log are those of `UpdateSteps` on the cached settings. The outcome becomes the user's notice: the error message as `error`, or the success message as `success`. The settings are unchanged |

## Left out

- The JavaScript assets (copy-link buttons and the settings form) are DOM and clipboard behaviour only.
- These are HTML output and WordPress wiring, with no logic of their own:
  - the `render_*` methods, the settings-page, menu and admin-bar registration, and `enqueue_admin_assets`;
  - `is_main_plugin_active` and `get_main_plugin_path`;
  - the hook registrations in `__construct`;
  - in `handle_update_request`, the permission check, the nonce check and the redirect.
- `maybe_provide_self_update_details` runs the same self-update lookup, through `get_self_update_remote_info` (line 977). That lookup, including its fetch, store and bypass deletion, is `SelfUpdateStep` and `Addon.GetSelfUpdateRemoteInfo`. What is not modelled is how the answer is formatted for the plugin-details dialog.
- `render_settings_page` deletes the repository cache when asked to refresh; the model keeps the refresh as the `refresh` input of `RepositoryStep` instead.
- WordPress purges expired transients on read. This cannot be observed through `get_transient`, so the model only treats such entries as absent.
- The foreign functions are kept uninterpreted, as fields of `Host`: `wp_parse_url`, `esc_url_raw`, `sanitize_text_field`, `sanitize_title`, `version_compare`, `plugin_basename`, `get_plugin_data`, `get_bloginfo`, `home_url` and `get_current_user_id`.
- I/O and time are inputs: `wp_remote_get` and `json_decode` are parameters (`network`, `decode`), and the clock is the `now` parameter.
- `md5` is modelled as the identity on its input string, so two keys are equal exactly when the hashed strings are. Hash collisions are not modelled. `SelfUpdateKeyAmbiguous` shows that the hashed input itself can already collide.
- What `unzip_file` extracts is an input: the top-level directories found afterwards and the files of the first one, in walk order.
- Installer.DeterminePluginSlug: takes the package files as a sequence already read by `get_plugin_data`. The recursive directory iterator and the file headers are not modelled.
- The `move_failed` branch of `install_package` (lines 606-609) cannot be reached: after the three attempts either one of them worked or the function has already returned. The model has no such branch.
- Files.Filesystem.Unzip: the set of plain files tracks only the files present before the update and the downloaded archive. The files that `unzip_file` extracts are not modelled, and neither are the files that `move`, `rename` and `copy_dir` carry under the plugins directory (lines 566-604). A move also leaves a tracked file under its source path in place. The claims that no file appears (InstallPackage, Place, InstallDownloaded, UpdateFromGithub) are about tracked files only.
- Files.Filesystem.DeleteTree: a recursive delete, like `@unlink` (Files.Filesystem.Unlink), is modelled as always succeeding. The source ignores the results of `@unlink` (lines 456, 505 and 513) and of `$wp_filesystem->delete` (lines 556-611). So "the working folder is gone" (InstallPackage) and "the archive does not remain" (UpdateFromGithub, UpdateLeavesNoArchive) hold only under that assumption. The logs show that the calls are made.
- Files.Filesystem.IsDir: a path names the directory it names with its trailing `/` characters dropped (`Files.DirPath`), as on a POSIX file system. Other spellings of one directory, such as `a//b`, `a/./b` or a symbolic link, count as different paths.
- Installer.DownloadPackage: does not model what the streamed body writes into the temporary file; a success only means the archive is at that path.
- Settings.Sanitize: the submitted form is a map of strings. Non-string values such as nested arrays are not modelled.
- Integer widths play no part: the only numbers are HTTP status codes, user ids and times.

## Property notes

- `Transients.SelfUpdateKeyAmbiguous` records that `url|branch` does not separate the URL from the branch when the URL itself holds a `|`. `SelfUpdateKeyInjective` shows that the keys are distinct for every URL without one.
- A plugin whose name sanitizes to the empty string gets the plugins directory itself, with a trailing slash, as destination (line 575). `is_dir` and the recursive delete ignore that slash, and the model normalises trailing slashes in the same way. So `install_package` deletes the whole plugins directory, all installed plugins included, right after extracting (lines 577-579). `Installer.EmptySlugClearsPlugins` proves this for every such package, with the plugins directory written without a trailing slash, as WordPress defines `WP_PLUGIN_DIR`.
