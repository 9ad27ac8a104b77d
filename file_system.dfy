/**
 * The file system that the push-package repository works on, as explicit
 * state: a map from paths to file contents plus a set of directories.
 * `Context` holds that state and offers the two mutating helpers the
 * repository calls (`mkdir_p` and `write`); queries are functions of the state.
 */
module FileSystem {
  import opened Wrappers

  /** One byte of file content. */
  newtype Byte = x: int | 0 <= x < 256

  /** Failures the file-system helpers raise. */
  datatype FsError =
    | FileInTheWay(path: string)   // mkdir_p meets this regular file where a directory must go (Errno::EEXIST)
    | IsADirectory(path: string)   // write or read aimed at a directory (Errno::EISDIR)
    | NoSuchFile(path: string)     // read of a path that does not exist (Errno::ENOENT)

  /** A snapshot of the file system. */
  datatype Fs = Fs(files: map<string, seq<Byte>>, dirs: set<string>) {
    /**
     * No path is both a regular file and a directory. Parents are not
     * required to exist: the model admits states that are not a tree.
     */
    predicate Valid() {
      files.Keys !! dirs
    }
  }

  /** Index of the last '/' in `p`, if any. */
  function LastSlash(p: string): (r: Option<nat>)
    ensures r.Some? ==> r.value < |p| && p[r.value] == '/'
    ensures r.Some? ==> forall k :: r.value < k < |p| ==> p[k] != '/'
    ensures r.None? ==> forall k :: 0 <= k < |p| ==> p[k] != '/'
  {
    if |p| == 0 then None
    else if p[|p| - 1] == '/' then Some(|p| - 1)
    else LastSlash(p[..|p| - 1])
  }

  /**
   * File.dirname: everything before the last '/', "/" for a top-level path,
   * "." without a '/'.
   */
  function Dirname(p: string): (d: string)
    ensures (forall k :: 0 <= k < |p| ==> p[k] != '/') ==> d == "."
    ensures d != "." && d != "/" ==> |d| < |p| && d == p[..|d|] && p[|d|] == '/'
    ensures d != "." && d != "/" ==> forall k :: |d| < k < |p| ==> p[k] != '/'
    ensures forall i :: 0 < i < |p| && p[i] == '/' && (forall k :: i < k < |p| ==> p[k] != '/') ==> d == p[..i]
    ensures |p| > 0 && p[0] == '/' && (forall k :: 0 < k < |p| ==> p[k] != '/') ==> d == "/"
  {
    match LastSlash(p)
    case None => "."
    case Some(i) => if i == 0 then "/" else p[..i]
  }

  /** The directories `mkdir_p(d)` ensures exist: `d` and each of its parents up to the root. */
  function DirChain(d: string): (chain: set<string>)
    decreases |d|
    ensures d in chain
    ensures forall e :: e in chain ==> e <= d
  {
    match LastSlash(d)
    case None => {d}
    case Some(i) => if i == 0 then {d} else {d} + DirChain(d[..i])
  }

  /**
   * The first regular file `mkdir_p(d)` meets when it creates the chain from
   * the top down: the shortest element of `DirChain(d)` that is a file.
   */
  function FirstBlocking(fs: Fs, d: string): (b: Option<string>)
    decreases |d|
    ensures b.Some? ==> b.value in DirChain(d) && b.value in fs.files
    ensures b.Some? ==> forall e :: e in DirChain(d) && e in fs.files ==> |b.value| <= |e|
    ensures b.None? ==> forall e :: e in DirChain(d) ==> e !in fs.files
  {
    match LastSlash(d)
    case None => if d in fs.files then Some(d) else None
    case Some(i) =>
      if i == 0 then (if d in fs.files then Some(d) else None)
      else match FirstBlocking(fs, d[..i])
        case Some(b) => Some(b)
        case None => if d in fs.files then Some(d) else None
  }

  /**
   * `mkdir_p(d)` on `fs`: fails on the first regular file that stands where
   * a directory must be, naming that file.
   */
  function Mkdirs(fs: Fs, d: string): (r: Result<Fs, FsError>)
    ensures r.Err? <==> exists e :: e in DirChain(d) && e in fs.files
    ensures r.Err? ==> r.error.FileInTheWay? && r.error.path in DirChain(d) && r.error.path in fs.files
    ensures r.Err? ==> forall e :: e in DirChain(d) && e in fs.files ==> |r.error.path| <= |e|
    ensures r.Ok? ==> d in r.value.dirs && fs.dirs <= r.value.dirs && r.value.files == fs.files
    ensures r.Ok? ==> r.value.dirs == fs.dirs + DirChain(d)
  {
    match FirstBlocking(fs, d)
    case Some(b) => Err(FileInTheWay(b))
    case None => Ok(fs.(dirs := fs.dirs + DirChain(d)))
  }

  /** With a regular file at "/p", `mkdir_p("/p/build")` fails on "/p", not on "/p/build". */
  lemma MkdirsNamesBlockingFile()
    ensures Mkdirs(Fs(map["/p" := []], {}), "/p/build") == Err(FileInTheWay("/p"))
  {
    var fs := Fs(map["/p" := []], {});
    var d := "/p/build";
    assert d[2] == '/' && d[3] == 'b' && d[4] == 'u' && d[5] == 'i' && d[6] == 'l' && d[7] == 'd';
    assert LastSlash(d) == Some(2);
    assert "/p/build"[..2] == "/p";
    assert LastSlash("/p") == Some(0);
    assert FirstBlocking(fs, "/p/build") == Some("/p");
  }

  /** `write(path, content)` on `fs`: creates or overwrites a regular file. */
  function Written(fs: Fs, path: string, content: seq<Byte>): (r: Result<Fs, FsError>)
    ensures r.Err? <==> path in fs.dirs
    ensures r.Ok? ==> path in r.value.files && r.value.files[path] == content && r.value.dirs == fs.dirs
    ensures r.Ok? ==> forall q :: q != path ==> (q in r.value.files <==> q in fs.files)
    ensures r.Ok? ==> forall q :: q != path && q in fs.files ==> r.value.files[q] == fs.files[q]
  {
    if path in fs.dirs then Err(IsADirectory(path))
    else Ok(fs.(files := fs.files[path := content]))
  }

  /** `File.exist?(path)`: true for regular files and for directories alike. */
  predicate Exists(fs: Fs, path: string)
    ensures Exists(fs, path) <==> ReadFile(fs, path) != Err(NoSuchFile(path))
    ensures Exists(fs, path) && path !in fs.files ==> ReadFile(fs, path) == Err(IsADirectory(path))
  {
    path in fs.files || path in fs.dirs
  }

  /** `File.read(path)`. */
  function ReadFile(fs: Fs, path: string): (r: Result<seq<Byte>, FsError>)
    ensures r.Ok? <==> path in fs.files
    ensures r.Ok? ==> r.value == fs.files[path]
    ensures r.Err? && path in fs.dirs ==> r.error == IsADirectory(path)
  {
    if path in fs.files then Ok(fs.files[path])
    else if path in fs.dirs then Err(IsADirectory(path))
    else Err(NoSuchFile(path))
  }

  /** Every directory that `mkdir_p(d)` creates is `d` or a parent of it. */
  lemma {:induction false} DirChainBelow(d: string, e: string)
    requires e in DirChain(d)
    ensures |e| <= |d| && e == d[..|e|]
  {
  }

  /** mkdir_p(d) creates every parent of `d`: each prefix of `d` that ends before a '/' (after the first character). */
  lemma {:induction false} ParentsInDirChain(d: string, i: nat)
    requires 0 < i < |d| && d[i] == '/'
    ensures d[..i] in DirChain(d)
    decreases |d|
  {
    match LastSlash(d)
    case None =>
      assert false;
    case Some(j) =>
      assert j >= i;
      if j > i {
        assert d[..j][i] == '/';
        ParentsInDirChain(d[..j], i);
        assert d[..j][..i] == d[..i];
      }
  }

  /** A path of two or more characters has a strictly shorter parent. */
  lemma DirnameShorter(p: string)
    requires |p| >= 2
    ensures |Dirname(p)| < |p|
  {
  }

  /** The parent of `prefix + "/" + base`, when `base` has no '/', is `prefix`. */
  lemma DirnameOfChild(prefix: string, base: string)
    requires |prefix| > 0
    requires forall k :: 0 <= k < |base| ==> base[k] != '/'
    ensures Dirname(prefix + "/" + base) == prefix
  {
    var p := prefix + "/" + base;
    assert p[|prefix|] == '/';
    var r := LastSlash(p);
    assert r == Some(|prefix|);
    assert p[..|prefix|] == prefix;
  }

  /** `mkdir_p` keeps the file system well formed and creates the requested directory. */
  lemma MkdirsKeepsValid(fs: Fs, d: string)
    requires fs.Valid() && Mkdirs(fs, d).Ok?
    ensures Mkdirs(fs, d).value.Valid()
    ensures d in Mkdirs(fs, d).value.dirs
    ensures Mkdirs(fs, d).value.files == fs.files
  {
  }

  /** `write` keeps the file system well formed and stores exactly `content` at `path`. */
  lemma WrittenKeepsValid(fs: Fs, path: string, content: seq<Byte>)
    requires fs.Valid() && Written(fs, path, content).Ok?
    ensures Written(fs, path, content).value.Valid()
    ensures Written(fs, path, content).value.files[path] == content
    ensures Written(fs, path, content).value.dirs == fs.dirs
  {
  }

  /**
   * The file-system helpers of the CLI context, over mutable state.
   */
  class Context {
    var files: map<string, seq<Byte>>
    var dirs: set<string>

    /** The current state as a value. */
    function State(): Fs
      reads this
    {
      Fs(files, dirs)
    }

    constructor (fs: Fs)
      ensures State() == fs
    {
      files := fs.files;
      dirs := fs.dirs;
    }

    /** `ctx.mkdir_p(d)`: returns the error raised, if any; on error nothing changes. */
    method MkdirP(d: string) returns (err: Option<FsError>)
      modifies this
      ensures Mkdirs(old(State()), d).Ok? ==> err == None && State() == Mkdirs(old(State()), d).value
      ensures Mkdirs(old(State()), d).Err? ==> err == Some(Mkdirs(old(State()), d).error) && State() == old(State())
    {
      var blocking := FirstBlocking(State(), d);
      if blocking.Some? {
        err := Some(FileInTheWay(blocking.value));
      } else {
        dirs := dirs + DirChain(d);
        err := None;
      }
    }

    /** `ctx.write(path, content)`: returns the error raised, if any; on error nothing changes. */
    method Write(path: string, content: seq<Byte>) returns (err: Option<FsError>)
      modifies this
      ensures Written(old(State()), path, content).Ok? ==> err == None && State() == Written(old(State()), path, content).value
      ensures Written(old(State()), path, content).Err? ==> err == Some(Written(old(State()), path, content).error) && State() == old(State())
    {
      if path in dirs {
        err := Some(IsADirectory(path));
      } else {
        files := files[path := content];
        err := None;
      }
    }
  }
}
