/** Downloading a package and installing it into the plugins directory
    (github-plugin-installer-and-updater.php, `download_package`,
    `install_package`, `determine_plugin_slug`). */
module Installer {
  import opened Platform
  import opened Strings
  import opened Files
  import opened Requests

  // ---------------------------------------------------------------------
  // determine_plugin_slug

  /** A file met while walking the extracted package, with the two header
      fields `get_plugin_data` reads from it (`name` is `""` when the file
      has no `Plugin Name` header). */
  datatype PackageFile = PackageFile(
    path: string,
    filename: string,
    extension: string,
    isFile: bool,
    name: string,
    textDomain: Option<string>)

  /** The slug a package installs under and the file that made it so. */
  datatype SlugMatch = SlugMatch(slug: string, mainFile: string)

  const MainSlug := "bokun-bookings-management"
  const MainFileName := "bokun-bookings-management.php"
  const MainTextDomain := "bokun_text_domain"
  const PluginSlugError := WpError("plugin_slug", "Unable to determine the plugin slug from the downloaded package.")

  predicate IsPhpFile(f: PackageFile) {
    f.isFile && Lower(f.extension) == "php"
  }

  function TextDomainOf(f: PackageFile): string {
    if f.textDomain.Some? then Lower(f.textDomain.value) else ""
  }

  /** A file that identifies the package as the booking plugin: its file
      name, or a plugin header whose name sanitizes to the slug or whose
      text domain is the booking plugin's. */
  predicate IsPrimary(f: PackageFile, sanitizeTitle: string -> string) {
    IsPhpFile(f) &&
    (f.filename == MainFileName ||
     (!PhpEmpty(f.name) && (sanitizeTitle(f.name) == MainSlug || TextDomainOf(f) == MainTextDomain)))
  }

  /** A PHP file with a plugin header. */
  predicate IsNamed(f: PackageFile) {
    IsPhpFile(f) && !PhpEmpty(f.name)
  }

  /** The position of the first file satisfying `p`. */
  function FirstIndex(files: seq<PackageFile>, p: PackageFile -> bool): (r: Option<nat>)
    ensures r.Some? ==> r.value < |files| && p(files[r.value]) && forall k :: 0 <= k < r.value ==> !p(files[k])
    ensures r.None? ==> forall k :: 0 <= k < |files| ==> !p(files[k])
  {
    if files == [] then None
    else if p(files[0]) then Some(0)
    else match FirstIndex(files[1..], p)
      case None => None
      case Some(j) => Some(j + 1)
  }

  /** A file with the property and none before it is the one found. */
  lemma FirstIndexIsFirst(files: seq<PackageFile>, p: PackageFile -> bool)
    ensures forall i :: 0 <= i < |files| && p(files[i]) && (forall k :: 0 <= k < i ==> !p(files[k])) ==>
      FirstIndex(files, p) == Some(i)
  {
    var r := FirstIndex(files, p);
    forall i | 0 <= i < |files| && p(files[i]) && (forall k :: 0 <= k < i ==> !p(files[k]))
      ensures r == Some(i)
    {
      assert r.Some?;
    }
  }

  /** What `determine_plugin_slug` decides for the files of a package, in
      the order the walk visits them: the booking plugin's slug when some
      file identifies it (the first such file is reported), otherwise the
      sanitized name of the first file with a plugin header, and an error
      when there is neither. */
  function SelectSlug(files: seq<PackageFile>, sanitizeTitle: string -> string): (r: Result<SlugMatch>)
    ensures r.Ok? <==> exists k :: 0 <= k < |files| && (IsNamed(files[k]) || IsPrimary(files[k], sanitizeTitle))
    ensures r.Err? ==> r.error == PluginSlugError
    ensures (exists k :: 0 <= k < |files| && IsPrimary(files[k], sanitizeTitle)) ==>
      r.Ok? && r.value.slug == MainSlug
    ensures r.Ok? ==> exists k :: 0 <= k < |files| && r.value.mainFile == files[k].path && IsPhpFile(files[k])
    ensures r.Ok? && r.value.slug != MainSlug ==> exists k :: 0 <= k < |files| && IsNamed(files[k]) && r.value.slug == sanitizeTitle(files[k].name)
    ensures forall i :: 0 <= i < |files| && IsPrimary(files[i], sanitizeTitle) && (forall k :: 0 <= k < i ==> !IsPrimary(files[k], sanitizeTitle)) ==>
      r == Ok(SlugMatch(MainSlug, files[i].path))
    ensures (forall k :: 0 <= k < |files| ==> !IsPrimary(files[k], sanitizeTitle)) ==>
      forall j :: 0 <= j < |files| && IsNamed(files[j]) && (forall k :: 0 <= k < j ==> !IsNamed(files[k])) ==>
        r == Ok(SlugMatch(sanitizeTitle(files[j].name), files[j].path))
  {
    FirstIndexIsFirst(files, f => IsPrimary(f, sanitizeTitle));
    match FirstIndex(files, f => IsPrimary(f, sanitizeTitle))
    case Some(i) => Ok(SlugMatch(MainSlug, files[i].path))
    case None => NamedSlug(files, sanitizeTitle)
  }

  /** The fallback of `determine_plugin_slug`: the sanitized name of the
      first file with a plugin header, and an error when there is none. */
  function NamedSlug(files: seq<PackageFile>, sanitizeTitle: string -> string): (r: Result<SlugMatch>)
    ensures r.Ok? <==> exists k :: 0 <= k < |files| && IsNamed(files[k])
    ensures r.Err? ==> r.error == PluginSlugError
    ensures r.Ok? ==>
      exists k :: 0 <= k < |files| && IsNamed(files[k]) && r.value == SlugMatch(sanitizeTitle(files[k].name), files[k].path)
    ensures forall j :: 0 <= j < |files| && IsNamed(files[j]) && (forall k :: 0 <= k < j ==> !IsNamed(files[k])) ==>
      r == Ok(SlugMatch(sanitizeTitle(files[j].name), files[j].path))
  {
    FirstIndexIsFirst(files, IsNamed);
    match FirstIndex(files, IsNamed)
    case Some(j) => Ok(SlugMatch(sanitizeTitle(files[j].name), files[j].path))
    case None => Err(PluginSlugError)
  }

  /** The walk of `determine_plugin_slug`, stopping at the first file that
      identifies the booking plugin and remembering the first file with a
      plugin header on the way. */
  method DeterminePluginSlug(files: seq<PackageFile>, sanitizeTitle: string -> string) returns (r: Result<SlugMatch>)
    ensures r == SelectSlug(files, sanitizeTitle)
  {
    var primary: Option<SlugMatch> := None;
    var fallback: Option<SlugMatch> := None;
    ghost var fallbackAt: nat := 0;
    var i := 0;
    while i < |files|
      invariant 0 <= i <= |files|
      invariant forall k :: 0 <= k < i ==> !IsPrimary(files[k], sanitizeTitle)
      invariant fallback.None? ==> forall k :: 0 <= k < i ==> !IsNamed(files[k])
      invariant fallback.Some? ==>
        fallbackAt < i && IsNamed(files[fallbackAt]) && (forall k :: 0 <= k < fallbackAt ==> !IsNamed(files[k])) &&
        fallback.value == SlugMatch(sanitizeTitle(files[fallbackAt].name), files[fallbackAt].path)
      invariant primary.None?
    {
      var f := files[i];
      if f.isFile && Lower(f.extension) == "php" {
        if f.filename == MainFileName {
          primary := Some(SlugMatch(MainSlug, f.path));
          break;
        }
        if !PhpEmpty(f.name) {
          var m := SlugMatch(sanitizeTitle(f.name), f.path);
          if fallback.None? {
            fallback := Some(m);
            fallbackAt := i;
          }
          var textDomain := if f.textDomain.Some? then Lower(f.textDomain.value) else "";
          if m.slug == MainSlug || textDomain == MainTextDomain {
            primary := Some(SlugMatch(MainSlug, f.path));
            break;
          }
        }
      }
      i := i + 1;
    }
    if primary.Some? {
      assert IsPrimary(files[i], sanitizeTitle);
      return Ok(primary.value);
    }
    if fallback.Some? {
      return Ok(fallback.value);
    }
    return Err(PluginSlugError);
  }

  // ---------------------------------------------------------------------
  // download_package

  const TempFileError := WpError("temp_file", "Unable to create a temporary file for the download.")

  /** `download_package( $url, $token )`. `tempName` is the name
      `wp_tempnam` picks (absent when it cannot create one) and `network`
      stands for `wp_remote_get`. On success the archive is at the returned
      path; on failure no temporary file is left behind. */
  method DownloadPackage(fs: Filesystem, url: string, token: string, tempName: Option<string>, userAgent: string,
                         network: HttpRequest -> HttpResponse) returns (r: Result<string>)
    requires fs.Replays()
    modifies fs
    ensures fs.Replays()
    ensures tempName.None? ==> r == Err(TempFileError) && fs.log == old(fs.log)
    ensures tempName.Some? ==> r == ClassifyDownload(network(DownloadRequest(url, token, tempName.value, userAgent)), tempName.value)
    ensures tempName.Some? ==> fs.log == old(fs.log) + [CreateTemp(tempName.value)] + (if r.Err? then [Unlink(tempName.value)] else [])
    ensures r.Ok? ==> r.value in fs.files && fs.files == old(fs.files) + {r.value}
    ensures r.Err? && tempName.Some? ==> tempName.value !in fs.files
    ensures fs.dirs == old(fs.dirs)
    ensures fs.files <= old(fs.files) + (if r.Ok? then {r.value} else {})
  {
    if tempName.None? {
      return Err(TempFileError);
    }
    var tmp := tempName.value;
    fs.CreateTemp(tmp);
    var response := network(DownloadRequest(url, token, tmp, userAgent));
    r := ClassifyDownload(response, tmp);
    if r.Err? {
      fs.Unlink(tmp);
    }
  }

  // ---------------------------------------------------------------------
  // install_package

  const FilesystemError := WpError("filesystem", "The WordPress filesystem could not be initialized.")
  const TempDirError := WpError("temp_dir", "Unable to create a temporary extraction folder.")
  const ExtractionError := WpError("extraction_failed", "The downloaded archive did not contain any directories.")
  const DestinationError := WpError("destination", "Unable to access the plugins directory.")

  /** What the installer finds and how the WordPress functions it calls
      behave during one installation: whether `WP_Filesystem` is available,
      the temporary directory and the random suffix of the working folder,
      whether creating that folder works, the outcome of `unzip_file`, the
      top-level directories found in the working folder afterwards, the
      files of the first one in walk order, the plugins directory and
      whether it can be created, and the outcome of each relocation. */
  datatype InstallEnv = InstallEnv(
    filesystemReady: bool,
    tempDir: string,
    suffix: string,
    workingCreated: bool,
    unzip: Option<WpError>,
    directories: seq<string>,
    packageFiles: seq<PackageFile>,
    pluginDir: string,
    pluginDirReady: bool,
    moveWorks: bool,
    renameWorks: bool,
    copy: Option<WpError>)

  /** The extraction folder. */
  function WorkingDir(env: InstallEnv): string {
    TrailingSlashIt(env.tempDir) + "bokun-github-" + env.suffix
  }

  /** The package root without its trailing slash. */
  function SourceDir(root: string): string {
    TrimRight(TrailingSlashIt(root), {'/'})
  }

  function Destination(pluginDir: string, slug: string): string {
    TrailingSlashIt(pluginDir) + slug
  }

  /** Everything up to the relocation works out. */
  predicate ReachesRelocation(env: InstallEnv, sanitizeTitle: string -> string) {
    env.filesystemReady && env.workingCreated && env.unzip.None? && |env.directories| > 0 &&
    SelectSlug(env.packageFiles, sanitizeTitle).Ok? && env.pluginDirReady
  }

  /** A relocation works when any of its three attempts does. */
  predicate Relocates(env: InstallEnv) {
    env.moveWorks || env.renameWorks || env.copy.None?
  }

  /** The calls of one installation and what `install_package` returns. */
  datatype InstallRun = InstallRun(calls: seq<FsCall>, result: Result<bool>)

  /** The relocation: a filesystem move, then `rename`, then `copy_dir`,
      each tried only when the one before it failed. */
  function RelocateCalls(source: string, destination: string, env: InstallEnv): (calls: seq<FsCall>)
    ensures 1 <= |calls| <= 3 && calls[0] == Move(source, destination, env.moveWorks)
    ensures forall i :: 0 < i < |calls| ==> !calls[i].Move?
    ensures (exists c :: c in calls && c.Rename?) <==> !env.moveWorks
    ensures (exists c :: c in calls && c.CopyDir?) <==> !env.moveWorks && !env.renameWorks
    ensures forall i :: 0 <= i < |calls| && calls[i].Rename? ==> 0 < i && calls[i - 1] == Move(source, destination, false)
    ensures forall i :: 0 <= i < |calls| && calls[i].CopyDir? ==> 0 < i && calls[i - 1] == Rename(source, destination, false)
    ensures forall c :: c in calls ==> (c.Move? || c.Rename? || c.CopyDir?) && c.source == source && c.destination == destination
  {
    if env.moveWorks then
      [Move(source, destination, true)]
    else if env.renameWorks then
      var calls := [Move(source, destination, false), Rename(source, destination, true)];
      assert calls[1] in calls;
      calls
    else
      var calls := [Move(source, destination, false), Rename(source, destination, false), CopyDir(source, destination, env.copy.None?)];
      assert calls[1] in calls && calls[2] in calls;
      calls
  }

  /** The directories once the package is extracted: those that existed
      before and the working folder. */
  function DirsAtPlacement(env: InstallEnv, dirsBefore: set<string>): (r: set<string>)
    ensures IsDirIn(WorkingDir(env), r) && dirsBefore <= r
  {
    dirsBefore + {DirPath(WorkingDir(env))}
  }

  /** `install_package( $zip )` as a sequence of file-system calls and a
      result, `dirsBefore` being the directories that exist beforehand.
      Once the working folder exists it is deleted last on every path; the
      installation succeeds exactly when every step before the relocation
      works and one of the three relocation attempts does, and each earlier
      failure ends it with its own error. */
  function InstallSteps(zip: string, env: InstallEnv, sanitizeTitle: string -> string, dirsBefore: set<string>): (run: InstallRun)
    ensures !env.filesystemReady ==> run == InstallRun([], Err(FilesystemError))
    ensures env.filesystemReady && !env.workingCreated ==>
      run == InstallRun([MakeDirs(WorkingDir(env), false)], Err(TempDirError))
    ensures env.filesystemReady && env.workingCreated ==>
      |run.calls| >= 3 && run.calls[0] == MakeDirs(WorkingDir(env), true) &&
      run.calls[|run.calls| - 1] == DeleteTree(WorkingDir(env))
    ensures run.result.Ok? <==> ReachesRelocation(env, sanitizeTitle) && Relocates(env)
    ensures run.result.Ok? ==> run.result.value
    ensures ReachesRelocation(env, sanitizeTitle) && !Relocates(env) ==> run.result == Err(env.copy.value)
    ensures env.filesystemReady && env.workingCreated && env.unzip.Some? ==> run.result == Err(env.unzip.value)
    ensures env.filesystemReady && env.workingCreated && env.unzip.None? && |env.directories| == 0 ==>
      run.result == Err(ExtractionError)
    ensures env.filesystemReady && env.workingCreated && env.unzip.None? && |env.directories| > 0 ==>
      (SelectSlug(env.packageFiles, sanitizeTitle).Err? ==> run.result == Err(PluginSlugError)) &&
      (SelectSlug(env.packageFiles, sanitizeTitle).Ok? && !env.pluginDirReady ==> run.result == Err(DestinationError))
  {
    if !env.filesystemReady then InstallRun([], Err(FilesystemError))
    else
      var w := WorkingDir(env);
      if !env.workingCreated then InstallRun([MakeDirs(w, false)], Err(TempDirError))
      else
        var started := [MakeDirs(w, true), Unzip(zip, w, env.unzip.None?)];
        if env.unzip.Some? then InstallRun(started + [DeleteTree(w)], Err(env.unzip.value))
        else if |env.directories| == 0 then InstallRun(started + [DeleteTree(w)], Err(ExtractionError))
        else
          match SelectSlug(env.packageFiles, sanitizeTitle)
          case Err(e) => InstallRun(started + [DeleteTree(w)], Err(e))
          case Ok(m) =>
            var dest := Destination(env.pluginDir, m.slug);
            InstallRun(started + PlaceCalls(w, SourceDir(env.directories[0]), dest, env, IsDirIn(dest, DirsAtPlacement(env, dirsBefore))),
                       if !env.pluginDirReady then Err(DestinationError)
                       else if Relocates(env) then Ok(true) else Err(env.copy.value))
  }

  /** The calls once the destination `dest` is known: its deletion when it
      is a directory (`cleared`), the creation of the plugins directory,
      the relocation attempts when that works, and the removal of the
      working folder `w`, which comes last. */
  function PlaceCalls(w: string, source: string, dest: string, env: InstallEnv, cleared: bool): (calls: seq<FsCall>)
    ensures |calls| >= 2 && calls[|calls| - 1] == DeleteTree(w)
  {
    (if cleared then [DeleteTree(dest)] else []) +
    if env.pluginDirReady then [MakeDirs(env.pluginDir, true)] + RelocateCalls(source, dest, env) + [DeleteTree(w)]
    else [MakeDirs(env.pluginDir, false), DeleteTree(w)]
  }

  /** The calls made before the relocation, once the destination is known. */
  function PrepareCalls(zip: string, env: InstallEnv, dest: string, dirsBefore: set<string>): (calls: seq<FsCall>)
    ensures |calls| > 0 && calls[|calls| - 1] == MakeDirs(env.pluginDir, true)
    ensures forall c :: c in calls ==>
      c.MakeDirs? || c.Unzip? || (c == DeleteTree(dest) && IsDirIn(dest, DirsAtPlacement(env, dirsBefore)))
    ensures IsDirIn(dest, DirsAtPlacement(env, dirsBefore)) ==> DeleteTree(dest) in calls
  {
    var w := WorkingDir(env);
    [MakeDirs(w, true), Unzip(zip, w, true)] +
    (if IsDirIn(dest, DirsAtPlacement(env, dirsBefore)) then [DeleteTree(dest)] else []) +
    [MakeDirs(env.pluginDir, true)]
  }

  /** The relocation of `install_package`: the filesystem move, then
      `rename`, then `copy_dir`, stopping at the first that works. */
  method Relocate(fs: Filesystem, source: string, dest: string, env: InstallEnv) returns (failure: Option<WpError>)
    requires fs.Replays()
    modifies fs
    ensures fs.Replays()
    ensures fs.log == old(fs.log) + RelocateCalls(source, dest, env)
    ensures failure == if Relocates(env) then None else Some(env.copy.value)
    ensures fs.files == old(fs.files)
    ensures failure.None? ==> IsDirIn(dest, fs.dirs)
  {
    var moved := fs.Move(source, dest, env.moveWorks);
    if !moved {
      var renamed := fs.Rename(source, dest, env.renameWorks);
      if !renamed {
        failure := fs.CopyDir(source, dest, env.copy);
        return;
      }
    }
    failure := None;
  }

  /** `install_package( $zip )` on the file system `fs`: the calls it makes
      and its result are those of `InstallSteps`; no tracked file has appeared,
      after a success the plugin is in its destination, and, a delete
      being taken to succeed, the working folder is gone. */
  method InstallPackage(fs: Filesystem, zip: string, env: InstallEnv, sanitizeTitle: string -> string) returns (r: Result<bool>)
    requires fs.Replays()
    modifies fs
    ensures fs.Replays()
    ensures fs.log == old(fs.log) + InstallSteps(zip, env, sanitizeTitle, old(fs.dirs)).calls
    ensures r == InstallSteps(zip, env, sanitizeTitle, old(fs.dirs)).result
    ensures fs.files <= old(fs.files)
    ensures env.filesystemReady && env.workingCreated ==> forall d :: d in fs.dirs ==> !Within(d, WorkingDir(env))
    ensures r.Ok? ==>
      var dest := Destination(env.pluginDir, SelectSlug(env.packageFiles, sanitizeTitle).value.slug);
      !Within(dest, WorkingDir(env)) ==> IsDirIn(dest, fs.dirs)
  {
    ghost var run := InstallSteps(zip, env, sanitizeTitle, fs.dirs);
    ghost var log0 := fs.log;
    ghost var dirs0 := fs.dirs;
    if !env.filesystemReady {
      return Err(FilesystemError);
    }
    var w := WorkingDir(env);
    var made := fs.MakeDirs(w, env.workingCreated);
    if !made {
      return Err(TempDirError);
    }
    var unzipped := fs.Unzip(zip, w, env.unzip);
    ghost var started := [MakeDirs(w, true), Unzip(zip, w, env.unzip.None?)];
    assert fs.log == log0 + started;
    if unzipped.Some? {
      fs.DeleteTree(w);
      assert run.calls == started + [DeleteTree(w)];
      SeqAssoc(log0, started, [DeleteTree(w)]);
      return Err(unzipped.value);
    }
    if |env.directories| == 0 {
      fs.DeleteTree(w);
      assert run.calls == started + [DeleteTree(w)];
      SeqAssoc(log0, started, [DeleteTree(w)]);
      return Err(ExtractionError);
    }
    var packageRoot := TrailingSlashIt(env.directories[0]);
    var slug := DeterminePluginSlug(env.packageFiles, sanitizeTitle);
    if slug.Err? {
      fs.DeleteTree(w);
      assert run.calls == started + [DeleteTree(w)];
      SeqAssoc(log0, started, [DeleteTree(w)]);
      return Err(slug.error);
    }
    var dest := TrailingSlashIt(env.pluginDir) + slug.value.slug;
    assert dest == Destination(env.pluginDir, slug.value.slug);
    assert fs.dirs == DirsAtPlacement(env, dirs0);
    var source := TrimRight(packageRoot, {'/'});
    assert source == SourceDir(env.directories[0]);
    r := Place(fs, w, source, dest, env);
    SeqAssoc(log0, started, PlaceCalls(w, source, dest, env, IsDirIn(dest, DirsAtPlacement(env, dirs0))));
  }

  /** The end of `install_package` once the destination `dest` is known:
      clear it when it is a directory, create the plugins directory,
      relocate the package there and remove the working folder `w`. */
  method Place(fs: Filesystem, w: string, source: string, dest: string, env: InstallEnv) returns (r: Result<bool>)
    requires fs.Replays()
    modifies fs
    ensures fs.Replays()
    ensures fs.log == old(fs.log) + PlaceCalls(w, source, dest, env, IsDirIn(dest, old(fs.dirs)))
    ensures r == if !env.pluginDirReady then Err(DestinationError) else if Relocates(env) then Ok(true) else Err(env.copy.value)
    ensures fs.files <= old(fs.files)
    ensures forall d :: d in fs.dirs ==> !Within(d, w)
    ensures r.Ok? && !Within(dest, w) ==> IsDirIn(dest, fs.dirs)
  {
    ghost var log0 := fs.log;
    ghost var clear := if IsDirIn(dest, fs.dirs) then [DeleteTree(dest)] else [];
    if fs.IsDir(dest) {
      fs.DeleteTree(dest);
    }
    assert fs.log == log0 + clear;
    var pluginsReady := fs.MakeDirs(env.pluginDir, env.pluginDirReady);
    if !pluginsReady {
      fs.DeleteTree(w);
      SeqAssoc(log0, clear, [MakeDirs(env.pluginDir, false), DeleteTree(w)]);
      return Err(DestinationError);
    }
    var failure := Relocate(fs, source, dest, env);
    WithinDirPath(dest, w);
    fs.DeleteTree(w);
    ghost var tail := [MakeDirs(env.pluginDir, true)] + RelocateCalls(source, dest, env) + [DeleteTree(w)];
    assert fs.log == log0 + clear + [MakeDirs(env.pluginDir, true)] + RelocateCalls(source, dest, env) + [DeleteTree(w)];
    SeqAssoc4(log0 + clear, [MakeDirs(env.pluginDir, true)], RelocateCalls(source, dest, env), [DeleteTree(w)]);
    SeqAssoc(log0, clear, tail);
    if failure.Some? {
      return Err(failure.value);
    }
    return Ok(true);
  }

  /** A deletion of the working folder, or of the destination when that
      is a directory. */
  predicate OwnDeletion(c: FsCall, env: InstallEnv, sanitizeTitle: string -> string, dirsBefore: set<string>) {
    c.DeleteTree? ==>
      c.path == WorkingDir(env) ||
      (SelectSlug(env.packageFiles, sanitizeTitle).Ok? &&
       c.path == Destination(env.pluginDir, SelectSlug(env.packageFiles, sanitizeTitle).value.slug) &&
       IsDirIn(c.path, DirsAtPlacement(env, dirsBefore)))
  }

  /** The shape of every installation: it either never reaches the
      relocation and then makes none of the three relocation calls, or it
      is the preparation, the relocation attempts and the final cleanup. */
  lemma InstallShape(zip: string, env: InstallEnv, sanitizeTitle: string -> string, dirsBefore: set<string>)
    ensures var run := InstallSteps(zip, env, sanitizeTitle, dirsBefore);
      if ReachesRelocation(env, sanitizeTitle) then
        var dest := Destination(env.pluginDir, SelectSlug(env.packageFiles, sanitizeTitle).value.slug);
        run.calls == PrepareCalls(zip, env, dest, dirsBefore) + RelocateCalls(SourceDir(env.directories[0]), dest, env) + [DeleteTree(WorkingDir(env))]
      else
        forall c :: c in run.calls ==>
          && !c.Move? && !c.Rename? && !c.CopyDir? && !c.CreateTemp? && !c.Unlink?
          && OwnDeletion(c, env, sanitizeTitle, dirsBefore)
  {
    if ReachesRelocation(env, sanitizeTitle) {
      RelocatingShape(zip, env, sanitizeTitle, dirsBefore);
    } else {
      StoppedShape(zip, env, sanitizeTitle, dirsBefore);
    }
  }

  lemma RelocatingShape(zip: string, env: InstallEnv, sanitizeTitle: string -> string, dirsBefore: set<string>)
    requires ReachesRelocation(env, sanitizeTitle)
    ensures var dest := Destination(env.pluginDir, SelectSlug(env.packageFiles, sanitizeTitle).value.slug);
      InstallSteps(zip, env, sanitizeTitle, dirsBefore).calls ==
        PrepareCalls(zip, env, dest, dirsBefore) + RelocateCalls(SourceDir(env.directories[0]), dest, env) + [DeleteTree(WorkingDir(env))]
  {
    var w := WorkingDir(env);
    var dest := Destination(env.pluginDir, SelectSlug(env.packageFiles, sanitizeTitle).value.slug);
    var started := [MakeDirs(w, true), Unzip(zip, w, true)];
    var clear := if IsDirIn(dest, DirsAtPlacement(env, dirsBefore)) then [DeleteTree(dest)] else [];
    var reloc := RelocateCalls(SourceDir(env.directories[0]), dest, env);
    SeqAssoc4(clear, [MakeDirs(env.pluginDir, true)], reloc, [DeleteTree(w)]);
    SeqAssoc(started, clear, [MakeDirs(env.pluginDir, true)] + reloc + [DeleteTree(w)]);
    SeqAssoc4(started + clear, [MakeDirs(env.pluginDir, true)], reloc, [DeleteTree(w)]);
  }

  lemma StoppedShape(zip: string, env: InstallEnv, sanitizeTitle: string -> string, dirsBefore: set<string>)
    requires !ReachesRelocation(env, sanitizeTitle)
    ensures forall c :: c in InstallSteps(zip, env, sanitizeTitle, dirsBefore).calls ==>
      && !c.Move? && !c.Rename? && !c.CopyDir? && !c.CreateTemp? && !c.Unlink?
      && OwnDeletion(c, env, sanitizeTitle, dirsBefore)
  {
    var calls := InstallSteps(zip, env, sanitizeTitle, dirsBefore).calls;
    var w := WorkingDir(env);
    if !env.filesystemReady || !env.workingCreated {
    } else if env.unzip.Some? || |env.directories| == 0 || SelectSlug(env.packageFiles, sanitizeTitle).Err? {
      assert calls == [MakeDirs(w, true), Unzip(zip, w, env.unzip.None?), DeleteTree(w)];
    } else {
      var dest := Destination(env.pluginDir, SelectSlug(env.packageFiles, sanitizeTitle).value.slug);
      var cleared := IsDirIn(dest, DirsAtPlacement(env, dirsBefore));
      assert calls == [MakeDirs(w, true), Unzip(zip, w, true)] + PlaceCalls(w, SourceDir(env.directories[0]), dest, env, cleared);
      UnplacedCalls(w, SourceDir(env.directories[0]), dest, env, cleared);
    }
  }

  /** Without a plugins directory nothing is relocated. */
  lemma UnplacedCalls(w: string, source: string, dest: string, env: InstallEnv, cleared: bool)
    requires !env.pluginDirReady
    ensures forall c :: c in PlaceCalls(w, source, dest, env, cleared) ==>
      (c == DeleteTree(dest) && cleared) || c == MakeDirs(env.pluginDir, false) || c == DeleteTree(w)
  {
  }


  /** Nothing but the working folder and the destination is ever deleted,
      the destination only when it is a directory, and the archive itself
      is left alone. */
  lemma InstallDeletesOnlyItsOwn(zip: string, env: InstallEnv, sanitizeTitle: string -> string, dirsBefore: set<string>)
    ensures var run := InstallSteps(zip, env, sanitizeTitle, dirsBefore);
      forall c :: c in run.calls ==> !c.CreateTemp? && !c.Unlink? && OwnDeletion(c, env, sanitizeTitle, dirsBefore)
  {
    InstallShape(zip, env, sanitizeTitle, dirsBefore);
    if ReachesRelocation(env, sanitizeTitle) {
      var w := WorkingDir(env);
      var dest := Destination(env.pluginDir, SelectSlug(env.packageFiles, sanitizeTitle).value.slug);
      var prep := PrepareCalls(zip, env, dest, dirsBefore);
      var reloc := RelocateCalls(SourceDir(env.directories[0]), dest, env);
      DeletionsOf(prep, reloc, w, dest, IsDirIn(dest, DirsAtPlacement(env, dirsBefore)));
    }
  }

  lemma DeletionsOf(prep: seq<FsCall>, reloc: seq<FsCall>, w: string, dest: string, cleared: bool)
    requires forall c :: c in prep ==> c.MakeDirs? || c.Unzip? || (c == DeleteTree(dest) && cleared)
    requires forall c :: c in reloc ==> c.Move? || c.Rename? || c.CopyDir?
    ensures forall c :: c in prep + reloc + [DeleteTree(w)] ==>
      !c.CreateTemp? && !c.Unlink? && (c.DeleteTree? ==> c.path == w || (c.path == dest && cleared))
  {
    assert forall c :: c in prep + reloc + [DeleteTree(w)] ==> c in prep || c in reloc || c == DeleteTree(w);
  }

  /** A move in `calls` comes after the plugins directory was created and,
      when its destination is in `cleared`, after that destination was
      deleted. */
  ghost predicate MovesPrepared(calls: seq<FsCall>, pluginDir: string, cleared: set<string>) {
    forall i :: 0 <= i < |calls| && calls[i].Move? ==>
      MakeDirs(pluginDir, true) in calls[..i] &&
      (IsDirIn(calls[i].destination, cleared) ==> DeleteTree(calls[i].destination) in calls[..i])
  }

  /** Each `rename` follows the failed move, and each `copy_dir` the failed
      `rename`, of the same source and destination. */
  ghost predicate FallbacksFollowFailures(calls: seq<FsCall>) {
    && (forall i :: 0 <= i < |calls| && calls[i].Rename? ==>
          0 < i && calls[i - 1] == Move(calls[i].source, calls[i].destination, false))
    && (forall i :: 0 <= i < |calls| && calls[i].CopyDir? ==>
          0 < i && calls[i - 1] == Rename(calls[i].source, calls[i].destination, false))
  }

  /** The only move of a call sequence made of a preparation that ends by
      creating the plugins directory, the relocation attempts, and one last
      call that is not a relocation, is the first relocation attempt. */
  lemma MovesPreparedOf(prep: seq<FsCall>, reloc: seq<FsCall>, last: FsCall, pluginDir: string, cleared: set<string>)
    requires |prep| > 0 && prep[|prep| - 1] == MakeDirs(pluginDir, true)
    requires forall c :: c in prep ==> !c.Move?
    requires !last.Move?
    requires |reloc| >= 1 && reloc[0].Move? && forall i :: 0 < i < |reloc| ==> !reloc[i].Move?
    requires IsDirIn(reloc[0].destination, cleared) ==> DeleteTree(reloc[0].destination) in prep
    ensures MovesPrepared(prep + reloc + [last], pluginDir, cleared)
    ensures exists c :: c in prep + reloc + [last] && c.Move?
  {
    var calls := prep + reloc + [last];
    assert forall k :: 0 <= k < |prep| ==> calls[k] == prep[k] && prep[k] in prep;
    assert forall k :: 0 <= k < |reloc| ==> calls[|prep| + k] == reloc[k];
    assert calls[|calls| - 1] == last;
    assert calls[..|prep|] == prep;
    assert prep[|prep| - 1] in prep;
    assert calls[|prep|] in calls;
  }

  /** The fallbacks of the relocation attempts keep their order inside the
      whole call sequence. */
  lemma FallbacksOf(prep: seq<FsCall>, reloc: seq<FsCall>, last: FsCall)
    requires forall c :: c in prep ==> !c.Rename? && !c.CopyDir?
    requires !last.Rename? && !last.CopyDir?
    requires FallbacksFollowFailures(reloc)
    ensures FallbacksFollowFailures(prep + reloc + [last])
  {
    var calls := prep + reloc + [last];
    assert forall k :: 0 <= k < |prep| ==> calls[k] == prep[k] && prep[k] in prep;
    assert forall k :: 0 <= k < |reloc| ==> calls[|prep| + k] == reloc[k];
    assert calls[|calls| - 1] == last;
  }

  /** The calls of an installation that reaches the relocation keep the
      relocation order, and include a move. */
  lemma PlacementOrdered(zip: string, env: InstallEnv, dest: string, source: string, dirsBefore: set<string>)
    ensures var calls := PrepareCalls(zip, env, dest, dirsBefore) + RelocateCalls(source, dest, env) + [DeleteTree(WorkingDir(env))];
      && MovesPrepared(calls, env.pluginDir, DirsAtPlacement(env, dirsBefore))
      && FallbacksFollowFailures(calls)
      && exists c :: c in calls && c.Move?
  {
    var prep := PrepareCalls(zip, env, dest, dirsBefore);
    var reloc := RelocateCalls(source, dest, env);
    var w := WorkingDir(env);
    MovesPreparedOf(prep, reloc, DeleteTree(w), env.pluginDir, DirsAtPlacement(env, dirsBefore));
    FallbacksOf(prep, reloc, DeleteTree(w));
  }

  /** A call sequence without relocation calls keeps their order trivially. */
  lemma NoRelocationCalls(calls: seq<FsCall>, pluginDir: string, cleared: set<string>)
    requires forall c :: c in calls ==> !c.Move? && !c.Rename? && !c.CopyDir?
    ensures !exists c :: c in calls && c.Move?
    ensures MovesPrepared(calls, pluginDir, cleared) && FallbacksFollowFailures(calls)
  {
    assert forall i :: 0 <= i < |calls| ==> calls[i] in calls;
  }

  /** The relocation is attempted exactly when every step before it
      worked, into a plugins directory that exists and a destination that
      was cleared when it was a directory; a failing attempt is followed by
      the next one. */
  lemma InstallRelocationOrder(zip: string, env: InstallEnv, sanitizeTitle: string -> string, dirsBefore: set<string>)
    ensures var run := InstallSteps(zip, env, sanitizeTitle, dirsBefore);
      && ((exists c :: c in run.calls && c.Move?) <==> ReachesRelocation(env, sanitizeTitle))
      && MovesPrepared(run.calls, env.pluginDir, DirsAtPlacement(env, dirsBefore))
      && FallbacksFollowFailures(run.calls)
  {
    InstallShape(zip, env, sanitizeTitle, dirsBefore);
    var run := InstallSteps(zip, env, sanitizeTitle, dirsBefore);
    if !ReachesRelocation(env, sanitizeTitle) {
      NoRelocationCalls(run.calls, env.pluginDir, DirsAtPlacement(env, dirsBefore));
    } else {
      var dest := Destination(env.pluginDir, SelectSlug(env.packageFiles, sanitizeTitle).value.slug);
      PlacementOrdered(zip, env, dest, SourceDir(env.directories[0]), dirsBefore);
    }
  }

  /** A package whose plugin name sanitizes to the empty string has the
      plugins directory itself as its destination. When that directory
      exists, the installation deletes it right after extracting,
      before anything is relocated, and that delete removes exactly the
      plugins directory and everything below it. */
  lemma EmptySlugClearsPlugins(zip: string, env: InstallEnv, sanitizeTitle: string -> string, dirsBefore: set<string>)
    requires ReachesRelocation(env, sanitizeTitle)
    requires SelectSlug(env.packageFiles, sanitizeTitle).value.slug == ""
    requires env.pluginDir in dirsBefore
    requires |env.pluginDir| > 0 && env.pluginDir[|env.pluginDir| - 1] != '/' && env.pluginDir[|env.pluginDir| - 1] != '\\'
    ensures var dest := Destination(env.pluginDir, "");
      && InstallSteps(zip, env, sanitizeTitle, dirsBefore).calls[2] == DeleteTree(dest)
      && forall q :: Within(q, dest) <==> Within(q, env.pluginDir)
  {
    PluginsDirAsDestination(env.pluginDir);
    ClearedFirst(zip, env, sanitizeTitle, dirsBefore);
  }

  /** The destination for an empty slug names the plugins directory. */
  lemma PluginsDirAsDestination(pluginDir: string)
    requires |pluginDir| > 0 && pluginDir[|pluginDir| - 1] != '/' && pluginDir[|pluginDir| - 1] != '\\'
    ensures DirPath(Destination(pluginDir, "")) == DirPath(pluginDir) == pluginDir
  {
    SlashedDirectory(pluginDir);
    assert Destination(pluginDir, "") == pluginDir + "/";
  }

  /** An existing destination is deleted right after the extraction. */
  lemma ClearedFirst(zip: string, env: InstallEnv, sanitizeTitle: string -> string, dirsBefore: set<string>)
    requires ReachesRelocation(env, sanitizeTitle)
    requires IsDirIn(Destination(env.pluginDir, SelectSlug(env.packageFiles, sanitizeTitle).value.slug), DirsAtPlacement(env, dirsBefore))
    ensures InstallSteps(zip, env, sanitizeTitle, dirsBefore).calls[2] ==
      DeleteTree(Destination(env.pluginDir, SelectSlug(env.packageFiles, sanitizeTitle).value.slug))
  {
    var w := WorkingDir(env);
    var dest := Destination(env.pluginDir, SelectSlug(env.packageFiles, sanitizeTitle).value.slug);
    var placed := PlaceCalls(w, SourceDir(env.directories[0]), dest, env, true);
    assert placed[0] == DeleteTree(dest);
    assert InstallSteps(zip, env, sanitizeTitle, dirsBefore).calls == [MakeDirs(w, true), Unzip(zip, w, true)] + placed;
  }

  lemma SeqAssoc(a: seq<FsCall>, b: seq<FsCall>, c: seq<FsCall>)
    ensures a + b + c == a + (b + c)
  {
  }

  lemma SeqAssoc4(a: seq<FsCall>, b: seq<FsCall>, c: seq<FsCall>, d: seq<FsCall>)
    ensures a + b + c + d == a + (b + c + d)
  {
  }
}
