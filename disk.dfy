/**
 * The part of the host file system the scripts read and write: the text of
 * each file by path, and the set of directories that exist.
 */
module Disk {
  import opened Util

  /**
   * `os.mkdir(path)`, where `parent` is the directory `path` is made in: an
   * existing file or directory is a FileExistsError, a missing parent a
   * FileNotFoundError, and otherwise the directory is added.
   */
  function MkdirOf(files: map<string, string>, dirs: set<string>, path: string, parent: string): (r: Result<set<string>>)
    ensures r.Ok? <==> path !in files && path !in dirs && parent in dirs
    ensures r.Ok? ==> r.value == dirs + {path} && path in r.value
  {
    if path in files || path in dirs then Fail(FileExists(path))
    else if parent !in dirs then Fail(FileNotFound(path))
    else Ok(dirs + {path})
  }

  /** The directories above `p` that `os.makedirs(p)` creates when missing. */
  function Ancestors(p: string): set<string>
  {
    set i | 0 < i < |p| && p[i] == '/' :: p[..i]
  }

  /**
   * What `os.makedirs(path, exist_ok=True)` raises: a file at the path is a
   * FileExistsError, a file in place of one of its ancestors a
   * NotADirectoryError; an existing directory is no error.
   */
  function MakeDirsError(files: map<string, string>, path: string): (r: Option<Error>)
    ensures r.None? <==> path !in files && forall a :: a in Ancestors(path) ==> a !in files
    ensures path in files ==> r == Some(FileExists(path))
    ensures path !in files && r.Some? ==> r == Some(NotADirectory(path))
  {
    if path in files then Some(FileExists(path))
    else if exists a :: a in Ancestors(path) && a in files then Some(NotADirectory(path))
    else None
  }

  /**
   * The directories after `os.makedirs(path, exist_ok=True)` succeeds: the
   * path and every ancestor exist, and nothing else is added.
   */
  function MakeDirs(dirs: set<string>, path: string): (r: set<string>)
    ensures path in r && Ancestors(path) <= r && dirs <= r
    ensures forall d :: d in r ==> d in dirs || d == path || d in Ancestors(path)
  {
    dirs + {path} + Ancestors(path)
  }

  class FileSystem {
    var files: map<string, string>
    var dirs: set<string>

    constructor (files0: map<string, string>, dirs0: set<string>)
      ensures files == files0 && dirs == dirs0
    {
      files := files0;
      dirs := dirs0;
    }

    /** `f.write(s)` on a file opened for writing: the text grows by `s`. */
    method Append(path: string, s: string)
      requires path in files
      modifies this
      ensures files == old(files)[path := old(files)[path] + s] && dirs == old(dirs)
    {
      files := files[path := files[path] + s];
    }

    /** `open(path, 'w').write(s)`: the file holds exactly `s`. */
    method Write(path: string, s: string)
      modifies this
      ensures files == old(files)[path := s] && dirs == old(dirs)
    {
      files := files[path := s];
    }

    /** `os.mkdir(path)` in the directory `parent`. */
    method Mkdir(path: string, parent: string) returns (r: Result<()>)
      modifies this
      ensures files == old(files)
      ensures var m := MkdirOf(old(files), old(dirs), path, parent);
              (m.Ok? ==> r == Ok(()) && dirs == m.value) && (m.Fail? ==> r == Fail(m.error) && dirs == old(dirs))
    {
      var m := MkdirOf(files, dirs, path, parent);
      if m.Fail? {
        return Fail(m.error);
      }
      dirs := m.value;
      return Ok(());
    }

    /** `os.path.exists(path)`. */
    predicate Exists(path: string)
      reads this
    {
      path in files || path in dirs
    }
  }
}
