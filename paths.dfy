/**
 * Paths as strings joined with "/", and the file system as the validation
 * layer observes it: which paths exist, what reading one yields, and what
 * creating a directory or probing it for writes yields.
 */
module Paths {
  import opened Text

  /** What opening an existing path for reading (in text mode) gives. */
  datatype FileEntry =
    | Readable(content: string)
      /** `permission` tells a PermissionError from any other failure; `text` is the exception's text. */
    | Unreadable(permission: bool, text: string)

  /** Outcome of `mkdir(parents=True, exist_ok=True)`; an already existing directory counts as `Created`. */
  datatype MkdirOutcome = Created | MkdirPermissionDenied | MkdirFailed(text: string)

  /** Outcome of touching and then unlinking a probe file in a directory. */
  datatype ProbeOutcome = Writable | ProbePermissionDenied | ProbeFailed(text: string)

  /** The environment: working directory, the existing paths and what they hold, and the directory oracles. */
  datatype Env = Env(
    cwd: string,
    files: map<string, FileEntry>,
    mkdir: string -> MkdirOutcome,
    probe: string -> ProbeOutcome)

  predicate Exists(env: Env, path: string)
  {
    path in env.files
  }

  /** The text of the `IsADirectoryError` that opening a directory for reading raises. */
  function IsADirectoryText(path: string): string
  {
    "[Errno 21] Is a directory: '" + path + "'"
  }

  /**
   * The file system once a directory exists at `path`: a path that already
   * existed keeps its entry, and a new one is a directory, which `open`
   * refuses.
   */
  function WithDirectory(env: Env, path: string): (r: Env)
    ensures r.cwd == env.cwd && r.mkdir == env.mkdir && r.probe == env.probe
    ensures r.files.Keys == env.files.Keys + {path}
    ensures forall p :: p in env.files ==> r.files[p] == env.files[p]
    ensures path !in env.files ==> r.files[path] == Unreadable(false, IsADirectoryText(path))
  {
    if path in env.files then env else env.(files := env.files[path := Unreadable(false, IsADirectoryText(path))])
  }

  /** `Path(dir) / name` for a relative `name`. */
  function JoinPath(dir: string, name: string): (r: string)
    ensures StartsWith(r, dir + "/") && EndsWith(r, name)
    ensures |r| == |dir| + 1 + |name|
  {
    StartsWithAppend(dir + "/", name);
    EndsWithAppend(dir + "/", name);
    dir + "/" + name
  }

  /** Under one directory, the joined path determines the name. */
  lemma JoinPathCancel(dir: string, a: string, b: string)
    requires JoinPath(dir, a) == JoinPath(dir, b)
    ensures a == b
  {
    var r := JoinPath(dir, a);
    assert a == r[|dir| + 1..] == b;
  }

  /** `Path(p).absolute()`: an absolute path is kept, a relative one is placed under the working directory. */
  function Absolute(env: Env, path: string): (r: string)
    ensures EndsWith(r, path)
    ensures StartsWith(path, "/") ==> r == path
    ensures !StartsWith(path, "/") ==> r == JoinPath(env.cwd, path)
  {
    if StartsWith(path, "/") then
      EndsWithAppend("", path);
      assert "" + path == path;
      path
    else JoinPath(env.cwd, path)
  }

  /** Index of the last occurrence of `c` in `s`, or -1. */
  function LastIndexOf(s: string, c: char): (i: int)
    ensures -1 <= i < |s|
    ensures i >= 0 ==> s[i] == c
    ensures forall j :: i < j < |s| ==> s[j] != c
    decreases |s|
  {
    if s == [] then -1
    else if s[|s| - 1] == c then |s| - 1
    else LastIndexOf(s[..|s| - 1], c)
  }

  /** An occurrence with none after it is the last one. */
  lemma LastOccurrence(s: string, c: char, j: int)
    requires 0 <= j < |s| && s[j] == c && c !in s[j + 1..]
    ensures LastIndexOf(s, c) == j
  {
  }

  /** Nothing after the last occurrence is that character. */
  lemma NoneAfterLast(s: string, c: char)
    ensures c !in s[LastIndexOf(s, c) + 1..]
  {
    var i := LastIndexOf(s, c);
    var after := s[i + 1..];
    forall k | 0 <= k < |after| ensures after[k] != c {
      assert after[k] == s[i + 1 + k];
    }
  }

  /** `Path(p).name`: the part after the last "/". */
  function BaseName(path: string): (r: string)
    ensures EndsWith(path, r) && '/' !in r
    ensures |r| == |path| || path[|path| - |r| - 1] == '/'
  {
    var i := LastIndexOf(path, '/');
    var r := path[i + 1..];
    assert |path| - |r| == i + 1;
    assert forall k :: 0 <= k < |r| ==> r[k] != '/' by {
      forall k | 0 <= k < |r| ensures r[k] != '/' {
        assert r[k] == path[i + 1 + k];
      }
    }
    r
  }

  /**
   * `Path(p).suffix`: from the last "." of the name, when that dot is neither
   * the name's first nor its last character; otherwise empty.
   */
  function Suffix(path: string): (r: string)
    ensures r == "" || (|r| >= 2 && r[0] == '.' && '/' !in r && '.' !in r[1..] && EndsWith(path, r))
    ensures '.' !in path ==> r == ""
  {
    var name := BaseName(path);
    var i := LastIndexOf(name, '.');
    if 0 < i < |name| - 1 then
      var r := name[i..];
      assert forall k :: 1 <= k < |r| ==> r[k] == name[i + k];
      assert '/' !in r by {
        assert forall k :: 0 <= k < |r| ==> r[k] == name[i + k];
      }
      assert path[|path| - |r|..] == r by {
        assert path[|path| - |name|..] == name;
      }
      assert path[|path| - |r|] == '.';
      r
    else
      ""
  }

  /** `i` is the position of the name's last dot, and that dot is neither its first nor its last character. */
  predicate InnerLastDot(name: string, i: int)
  {
    0 < i < |name| - 1 && name[i] == '.' && '.' !in name[i + 1..]
  }

  /**
   * The suffix is present exactly when the name's last dot is neither its
   * first nor its last character; it is then the name's ending from that dot.
   */
  lemma SuffixIffInnerLastDot(path: string)
    ensures Suffix(path) != "" <==> exists i :: InnerLastDot(BaseName(path), i)
    ensures forall i :: InnerLastDot(BaseName(path), i) ==> Suffix(path) == BaseName(path)[i..]
  {
    var name := BaseName(path);
    var i := LastIndexOf(name, '.');
    forall j | InnerLastDot(name, j)
      ensures j == i
    {
      LastOccurrence(name, '.', j);
    }
    if 0 < i < |name| - 1 {
      NoneAfterLast(name, '.');
      assert InnerLastDot(name, i);
    }
  }
}
