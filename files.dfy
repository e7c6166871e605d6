/** The part of the server's file system the installer touches, as the
    WordPress filesystem API and PHP's file functions show it: which paths
    are directories, which are files, and the record of every operation
    the plugin asked for together with its outcome. What an operation
    achieves in the real file system is not visible to the model, so each
    method that can fail takes its outcome as a parameter. */
module Files {
  import opened Platform
  import opened Strings

  /** One file-system operation and whether it succeeded. */
  datatype FsCall =
    | CreateTemp(path: string)                                 // wp_tempnam
    | Unlink(path: string)                                     // unlink
    | MakeDirs(path: string, ok: bool)                         // wp_mkdir_p
    | Unzip(archive: string, target: string, ok: bool)         // unzip_file
    | DeleteTree(path: string)                                 // $wp_filesystem->delete( $path, true )
    | Move(source: string, destination: string, ok: bool)      // $wp_filesystem->move( ..., true )
    | Rename(source: string, destination: string, ok: bool)    // rename
    | CopyDir(source: string, destination: string, ok: bool)   // copy_dir

  /** A directory path as `is_dir` and a recursive delete see it: trailing
      slashes name the same directory, so the model keeps directories
      without them. */
  function DirPath(p: string): string {
    if |p| > 0 && p[|p| - 1] == '/' then DirPath(p[..|p| - 1]) else p
  }

  /** `is_dir( $p )` when `dirs` are the directories, held as `DirPath`s. */
  predicate IsDirIn(p: string, dirs: set<string>) {
    DirPath(p) in dirs
  }

  /** `p` is the directory `root` or lies below it, whether or not `root`
      is written with trailing slashes. */
  predicate Within(p: string, root: string) {
    p == DirPath(root) || HasPrefix(p, DirPath(root) + "/")
  }

  /** A tree that holds a directory without its trailing slashes holds it
      with them too. */
  lemma {:induction false} WithinDirPath(p: string, root: string)
    ensures Within(DirPath(p), root) ==> Within(p, root)
    decreases |p|
  {
    if |p| > 0 && p[|p| - 1] == '/' && Within(DirPath(p), root) {
      var shorter := p[..|p| - 1];
      var top := DirPath(root);
      WithinDirPath(shorter, root);
      if shorter == top {
        assert p == top + "/";
      } else {
        assert p[..|top| + 1] == shorter[..|top| + 1];
      }
    }
  }

  /** `trailingslashit`: any trailing slashes and backslashes become one `/`. */
  function TrailingSlashIt(p: string): (r: string)
    ensures |r| >= 1 && r[|r| - 1] == '/'
  {
    TrimRight(p, {'/', '\\'}) + "/"
  }

  /** A path without trailing slashes or backslashes gains exactly one
      slash from `trailingslashit`, and still names the same directory. */
  lemma SlashedDirectory(p: string)
    requires |p| > 0 && p[|p| - 1] != '/' && p[|p| - 1] != '\\'
    ensures TrailingSlashIt(p) == p + "/"
    ensures DirPath(p + "/") == DirPath(p) == p
  {
    EndPadded(p, "", {'/', '\\'});
    assert p + "" == p;
    assert (p + "/")[..|p|] == p;
  }

  /** What one call does to the set of plain files. */
  function FileEffect(files: set<string>, c: FsCall): set<string> {
    match c
    case CreateTemp(p) => files + {p}
    case Unlink(p) => files - {p}
    case DeleteTree(p) => Pruned(files, p)
    case _ => files
  }

  /** `paths` without the tree at `root`. */
  function Pruned(paths: set<string>, root: string): set<string> {
    set q | q in paths && !Within(q, root)
  }

  /** The plain files after the calls of `calls`, made in order, starting
      from `files`. */
  function FilesAfter(files: set<string>, calls: seq<FsCall>): set<string>
    decreases |calls|
  {
    if |calls| == 0 then files
    else FileEffect(FilesAfter(files, calls[..|calls| - 1]), calls[|calls| - 1])
  }

  lemma FilesAfterStep(files: set<string>, calls: seq<FsCall>, c: FsCall)
    ensures FilesAfter(files, calls + [c]) == FileEffect(FilesAfter(files, calls), c)
  {
    assert (calls + [c])[..|calls|] == calls;
  }

  /** Replaying two call sequences one after the other is replaying their
      concatenation. */
  lemma {:induction false} FilesAfterAppend(files: set<string>, a: seq<FsCall>, b: seq<FsCall>)
    ensures FilesAfter(files, a + b) == FilesAfter(FilesAfter(files, a), b)
    decreases |b|
  {
    if b == [] {
      assert a + b == a;
    } else {
      var b0 := b[..|b| - 1];
      assert (a + b)[..|a + b| - 1] == a + b0;
      assert (a + b)[|a + b| - 1] == b[|b| - 1];
      FilesAfterAppend(files, a, b0);
    }
  }

  class Filesystem {
    var dirs: set<string>
    /** The plain files the model tracks: those present when the record
        began and the temporary files it creates. Files extracted from an
        archive or carried along by a move or copy are not tracked. */
    var files: set<string>
    var log: seq<FsCall>
    /** The plain files when the record began. */
    ghost const initialFiles: set<string>

    constructor(dirs0: set<string>, files0: set<string>)
      ensures dirs == dirs0 && files == files0 && log == []
      ensures Replays()
    {
      dirs := dirs0;
      files := files0;
      log := [];
      initialFiles := files0;
    }

    /** The plain files are what the recorded calls made of the initial ones. */
    ghost predicate Replays()
      reads this
    {
      files == FilesAfter(initialFiles, log)
    }

    /** `is_dir`. */
    function IsDir(path: string): bool
      reads this
    {
      IsDirIn(path, dirs)
    }

    /** `file_exists` for a plain file. */
    function FileExists(path: string): bool
      reads this
    {
      path in files
    }

    /** `wp_tempnam` creates the empty file it names. */
    method CreateTemp(path: string)
      requires Replays()
      modifies this
      ensures Replays()
      ensures files == old(files) + {path} && dirs == old(dirs)
      ensures log == old(log) + [FsCall.CreateTemp(path)]
    {
      FilesAfterStep(initialFiles, log, FsCall.CreateTemp(path));
      files := files + {path};
      log := log + [FsCall.CreateTemp(path)];
    }

    method Unlink(path: string)
      requires Replays()
      modifies this
      ensures Replays()
      ensures files == old(files) - {path} && dirs == old(dirs)
      ensures log == old(log) + [FsCall.Unlink(path)]
    {
      FilesAfterStep(initialFiles, log, FsCall.Unlink(path));
      files := files - {path};
      log := log + [FsCall.Unlink(path)];
    }

    /** `wp_mkdir_p`, whose success `ok` decides. */
    method MakeDirs(path: string, ok: bool) returns (made: bool)
      requires Replays()
      modifies this
      ensures Replays()
      ensures made == ok
      ensures dirs == (if ok then old(dirs) + {DirPath(path)} else old(dirs)) && files == old(files)
      ensures log == old(log) + [FsCall.MakeDirs(path, ok)]
    {
      FilesAfterStep(initialFiles, log, FsCall.MakeDirs(path, ok));
      if ok {
        dirs := dirs + {DirPath(path)};
      }
      log := log + [FsCall.MakeDirs(path, ok)];
      made := ok;
    }

    /** `unzip_file`: the error it reports, if any. What it extracts is
        described separately, by the directories and package files found
        afterwards. */
    method Unzip(archive: string, target: string, outcome: Option<WpError>) returns (r: Option<WpError>)
      requires Replays()
      modifies this
      ensures Replays()
      ensures r == outcome
      ensures dirs == old(dirs) && files == old(files)
      ensures log == old(log) + [FsCall.Unzip(archive, target, outcome.None?)]
    {
      FilesAfterStep(initialFiles, log, FsCall.Unzip(archive, target, outcome.None?));
      log := log + [FsCall.Unzip(archive, target, outcome.None?)];
      r := outcome;
    }

    /** A recursive delete removes the tree at `path`. */
    method DeleteTree(path: string)
      requires Replays()
      modifies this
      ensures Replays()
      ensures dirs == Pruned(old(dirs), path)
      ensures files == Pruned(old(files), path)
      ensures log == old(log) + [FsCall.DeleteTree(path)]
    {
      FilesAfterStep(initialFiles, log, FsCall.DeleteTree(path));
      dirs := Pruned(dirs, path);
      files := Pruned(files, path);
      log := log + [FsCall.DeleteTree(path)];
    }

    /** The three ways the installer relocates a directory tree; `ok`
        decides whether the attempt works. A successful one leaves the
        destination a directory. */
    method Move(source: string, destination: string, ok: bool) returns (moved: bool)
      requires Replays()
      modifies this
      ensures Replays()
      ensures moved == ok
      ensures dirs == (if ok then MovedDirs(old(dirs), source, destination) else old(dirs)) && files == old(files)
      ensures log == old(log) + [FsCall.Move(source, destination, ok)]
    {
      FilesAfterStep(initialFiles, log, FsCall.Move(source, destination, ok));
      if ok {
        dirs := MovedDirs(dirs, source, destination);
      }
      log := log + [FsCall.Move(source, destination, ok)];
      moved := ok;
    }

    method Rename(source: string, destination: string, ok: bool) returns (moved: bool)
      requires Replays()
      modifies this
      ensures Replays()
      ensures moved == ok
      ensures dirs == (if ok then MovedDirs(old(dirs), source, destination) else old(dirs)) && files == old(files)
      ensures log == old(log) + [FsCall.Rename(source, destination, ok)]
    {
      FilesAfterStep(initialFiles, log, FsCall.Rename(source, destination, ok));
      if ok {
        dirs := MovedDirs(dirs, source, destination);
      }
      log := log + [FsCall.Rename(source, destination, ok)];
      moved := ok;
    }

    /** `copy_dir`: the error it reports, if any; the source stays. */
    method CopyDir(source: string, destination: string, outcome: Option<WpError>) returns (r: Option<WpError>)
      requires Replays()
      modifies this
      ensures Replays()
      ensures r == outcome
      ensures dirs == (if outcome.None? then old(dirs) + {DirPath(destination)} else old(dirs)) && files == old(files)
      ensures log == old(log) + [FsCall.CopyDir(source, destination, outcome.None?)]
    {
      FilesAfterStep(initialFiles, log, FsCall.CopyDir(source, destination, outcome.None?));
      if outcome.None? {
        dirs := dirs + {DirPath(destination)};
      }
      log := log + [FsCall.CopyDir(source, destination, outcome.None?)];
      r := outcome;
    }
  }

  /** After a move the source tree is gone and the destination exists. */
  function MovedDirs(dirs: set<string>, source: string, destination: string): (r: set<string>)
    ensures IsDirIn(destination, r)
    ensures forall d :: d in r && d != DirPath(destination) ==> d in dirs && !Within(d, source)
  {
    (set d | d in dirs && !Within(d, source)) + {DirPath(destination)}
  }
}
