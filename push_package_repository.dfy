/**
 * Script::Layers::Infrastructure::PushPackageRepository: writes a compiled
 * script to `<dir>/build/<script_name>.<compiled_type>` and wraps it in a
 * PushPackage, or reads a previously written one back.
 *
 * The directory is `ScriptProject.current.directory`, a process-wide value;
 * here it is the explicit parameter `currentDirectory`, kept apart from the
 * `ScriptProject` record that supplies the script name. Metadata and the
 * config UI schema are carried verbatim, so they are type parameters.
 */
module ScriptInfrastructure {
  import opened Wrappers
  import opened FileSystem

  /** The part of the script project the repository reads. */
  datatype ScriptProject = ScriptProject(scriptName: string, extensionPointType: string)

  /** Domain::PushPackage: the immutable unit submitted for publishing. */
  datatype PushPackage<M, C> = PushPackage(
    id: string,
    extensionPointType: string,
    scriptName: string,
    scriptContent: seq<Byte>,
    compiledType: string,
    metadata: M,
    configUi: C)

  /** What the two operations raise. */
  datatype Error =
    | PushPackageNotFound               // Domain::PushPackageNotFoundError
    | FileSystemFailure(cause: FsError) // an error of the file-system helpers, propagated

  /** The deterministic build path: `<dir>/build/<script_name>.<compiled_type>`. */
  function FilePath(directory: string, scriptName: string, compiledType: string): (path: string)
    ensures |path| == |directory| + |scriptName| + |compiledType| + 8
    ensures path[..|directory|] == directory
    ensures path[|directory|..|directory| + 7] == "/build/"
    ensures path[|directory| + 7..|path| - |compiledType| - 1] == scriptName
    ensures path[|path| - |compiledType| - 1] == '.'
    ensures path[|path| - |compiledType|..] == compiledType
  {
    directory + "/build/" + scriptName + "." + compiledType
  }

  /** The record both operations construct around the build path. */
  function PackageAt<M, C>(id: string, project: ScriptProject, content: seq<Byte>, compiledType: string,
                           metadata: M, configUi: C): PushPackage<M, C>
  {
    PushPackage(id, project.extensionPointType, project.scriptName, content, compiledType, metadata, configUi)
  }

  /** `write_to_path`: the file system afterwards and the error raised, if any. */
  function WriteOutcome(fs: Fs, path: string, content: seq<Byte>): (Fs, Option<FsError>) {
    match Mkdirs(fs, Dirname(path))
    case Err(e) => (fs, Some(e))
    case Ok(made) =>
      match Written(made, path, content)
      case Err(e) => (made, Some(e))
      case Ok(done) => (done, None)
  }

  /** `create_push_package`: the file system afterwards and the package or error. */
  function CreateOutcome<M, C>(fs: Fs, currentDirectory: string, project: ScriptProject, content: seq<Byte>,
                               compiledType: string, metadata: M, configUi: C): (Fs, Result<PushPackage<M, C>, Error>)
  {
    var path := FilePath(currentDirectory, project.scriptName, compiledType);
    var (after, err) := WriteOutcome(fs, path, content);
    if err.Some? then (after, Err(FileSystemFailure(err.value)))
    else (after, Ok(PackageAt(path, project, content, compiledType, metadata, configUi)))
  }

  /** `get_push_package`: the package read back, or the error raised. */
  function GetOutcome<M, C>(fs: Fs, currentDirectory: string, project: ScriptProject, compiledType: string,
                            metadata: M, configUi: C): Result<PushPackage<M, C>, Error>
  {
    var path := FilePath(currentDirectory, project.scriptName, compiledType);
    if !Exists(fs, path) then Err(PushPackageNotFound)
    else match ReadFile(fs, path)
      case Err(e) => Err(FileSystemFailure(e))
      case Ok(content) => Ok(PackageAt(path, project, content, compiledType, metadata, configUi))
  }

  class PushPackageRepository {
    const ctx: Context

    constructor (ctx: Context)
      ensures this.ctx == ctx
    {
      this.ctx := ctx;
    }

    /** Writes the compiled script to its build path and returns the package. */
    method CreatePushPackage<M, C>(currentDirectory: string, scriptProject: ScriptProject, scriptContent: seq<Byte>,
                                   compiledType: string, metadata: M, configUi: C)
      returns (r: Result<PushPackage<M, C>, Error>)
      modifies ctx
      ensures (ctx.State(), r) ==
              CreateOutcome(old(ctx.State()), currentDirectory, scriptProject, scriptContent, compiledType, metadata, configUi)
    {
      var buildFilePath := FilePath(currentDirectory, scriptProject.scriptName, compiledType);
      var err := WriteToPath(buildFilePath, scriptContent);
      if err.Some? {
        return Err(FileSystemFailure(err.value));
      }
      r := Ok(PackageAt(buildFilePath, scriptProject, scriptContent, compiledType, metadata, configUi));
    }

    /** Reads a previously built script back into a package; changes nothing. */
    method GetPushPackage<M, C>(currentDirectory: string, scriptProject: ScriptProject, compiledType: string,
                                metadata: M, configUi: C)
      returns (r: Result<PushPackage<M, C>, Error>)
      ensures r == GetOutcome(ctx.State(), currentDirectory, scriptProject, compiledType, metadata, configUi)
    {
      var buildFilePath := FilePath(currentDirectory, scriptProject.scriptName, compiledType);
      if !Exists(ctx.State(), buildFilePath) {
        return Err(PushPackageNotFound);
      }
      var read := ReadFile(ctx.State(), buildFilePath);
      if read.Err? {
        return Err(FileSystemFailure(read.error));
      }
      r := Ok(PackageAt(buildFilePath, scriptProject, read.value, compiledType, metadata, configUi));
    }

    /** Creates the parent directory of `path`, then writes `content` there. */
    method WriteToPath(path: string, content: seq<Byte>) returns (err: Option<FsError>)
      modifies ctx
      ensures (ctx.State(), err) == WriteOutcome(old(ctx.State()), path, content)
    {
      err := ctx.MkdirP(Dirname(path));
      if err.None? {
        err := ctx.Write(path, content);
      }
    }
  }

  // ---------------------------------------------------------------------------
  // Properties of create and get

  /** The build path always contains a '/', and is long enough to have a shorter parent. */
  lemma FilePathShape(directory: string, scriptName: string, compiledType: string)
    ensures |FilePath(directory, scriptName, compiledType)| >= 8
    ensures FilePath(directory, scriptName, compiledType)[|directory|] == '/'
  {
  }

  /** Every directory mkdir_p creates for a build path is shorter than that path. */
  lemma {:induction false} ParentChainBelowPath(path: string, e: string)
    requires |path| >= 2
    requires e in DirChain(Dirname(path))
    ensures |e| < |path|
  {
    DirnameShorter(path);
    DirChainBelow(Dirname(path), e);
  }

  /** Within one directory and compiled type, distinct script names get distinct build paths. */
  lemma {:induction false} FilePathInjective(directory: string, name1: string, name2: string, compiledType: string)
    requires FilePath(directory, name1, compiledType) == FilePath(directory, name2, compiledType)
    ensures name1 == name2
  {
    var p := FilePath(directory, name1, compiledType);
    var head := directory + "/build/";
    assert p == head + (name1 + "." + compiledType);
    assert p == head + (name2 + "." + compiledType);
    assert name1 + "." + compiledType == p[|head|..];
    assert name2 + "." + compiledType == p[|head|..];
    var n1 := name1 + "." + compiledType;
    var n2 := name2 + "." + compiledType;
    assert |name1| == |name2|;
    assert name1 == n1[..|name1|] == n2[..|name2|] == name2;
  }

  /** For plain names, the directory mkdir_p is asked for is `<dir>/build`. */
  lemma {:induction false} FilePathParent(directory: string, scriptName: string, compiledType: string)
    requires forall k :: 0 <= k < |scriptName| ==> scriptName[k] != '/'
    requires forall k :: 0 <= k < |compiledType| ==> compiledType[k] != '/'
    ensures Dirname(FilePath(directory, scriptName, compiledType)) == directory + "/build"
  {
    var base := scriptName + "." + compiledType;
    forall k | 0 <= k < |base| ensures base[k] != '/' {
      if k < |scriptName| {
        assert base[k] == scriptName[k];
      } else if k > |scriptName| {
        assert base[k] == compiledType[k - |scriptName| - 1];
      }
    }
    assert FilePath(directory, scriptName, compiledType) == (directory + "/build") + "/" + base;
    DirnameOfChild(directory + "/build", base);
  }

  /** A created package has the deterministic id and carries every argument verbatim. */
  lemma CreatedPackage<M, C>(fs: Fs, dir: string, project: ScriptProject, content: seq<Byte>, compiledType: string,
                             metadata: M, configUi: C)
    requires CreateOutcome(fs, dir, project, content, compiledType, metadata, configUi).1.Ok?
    ensures var pkg := CreateOutcome(fs, dir, project, content, compiledType, metadata, configUi).1.value;
            && pkg.id == dir + "/build/" + project.scriptName + "." + compiledType
            && pkg.extensionPointType == project.extensionPointType
            && pkg.scriptName == project.scriptName
            && pkg.scriptContent == content
            && pkg.compiledType == compiledType
            && pkg.metadata == metadata
            && pkg.configUi == configUi
  {
  }

  /** A package read back has the same deterministic id and carries every argument verbatim. */
  lemma ReadPackage<M, C>(fs: Fs, dir: string, project: ScriptProject, compiledType: string, metadata: M, configUi: C)
    requires GetOutcome(fs, dir, project, compiledType, metadata, configUi).Ok?
    ensures var pkg := GetOutcome(fs, dir, project, compiledType, metadata, configUi).value;
            && pkg.id == dir + "/build/" + project.scriptName + "." + compiledType
            && pkg.id in fs.files
            && pkg.scriptContent == fs.files[pkg.id]
            && pkg.extensionPointType == project.extensionPointType
            && pkg.scriptName == project.scriptName
            && pkg.compiledType == compiledType
            && pkg.metadata == metadata
            && pkg.configUi == configUi
  {
  }

  /** create fails exactly when mkdir_p meets a file, or the build path is a directory. */
  lemma CreateFailsExactly<M, C>(fs: Fs, dir: string, project: ScriptProject, content: seq<Byte>, compiledType: string,
                                 metadata: M, configUi: C)
    ensures var path := FilePath(dir, project.scriptName, compiledType);
            var chain := DirChain(Dirname(path));
            CreateOutcome(fs, dir, project, content, compiledType, metadata, configUi).1.Err?
            <==> (chain * fs.files.Keys != {} || path in fs.dirs)
  {
    var path := FilePath(dir, project.scriptName, compiledType);
    var chain := DirChain(Dirname(path));
    FilePathShape(dir, project.scriptName, compiledType);
    assert path !in chain by {
      if path in chain {
        ParentChainBelowPath(path, path);
      }
    }
    match Mkdirs(fs, Dirname(path))
    case Err(_) =>
      var e :| e in chain && e in fs.files;
      assert e in chain * fs.files.Keys;
    case Ok(made) =>
      assert chain * fs.files.Keys == {};
      assert made.dirs == fs.dirs + chain;
      assert path in made.dirs <==> path in fs.dirs;
  }

  /**
   * After a successful create the build path holds exactly the content, its
   * parent directory exists, and the file system stays well formed.
   */
  lemma CreateStoresContent<M, C>(fs: Fs, dir: string, project: ScriptProject, content: seq<Byte>, compiledType: string,
                                  metadata: M, configUi: C)
    requires fs.Valid()
    requires CreateOutcome(fs, dir, project, content, compiledType, metadata, configUi).1.Ok?
    ensures var after := CreateOutcome(fs, dir, project, content, compiledType, metadata, configUi).0;
            var path := FilePath(dir, project.scriptName, compiledType);
            && after.Valid()
            && path in after.files && after.files[path] == content
            && Dirname(path) in after.dirs
  {
    var path := FilePath(dir, project.scriptName, compiledType);
    MkdirsKeepsValid(fs, Dirname(path));
    WrittenKeepsValid(Mkdirs(fs, Dirname(path)).value, path, content);
  }

  /**
   * create changes no file but the one at the build path, removes no
   * directory and adds only the parents of the build path; on failure it
   * changes no file at all.
   */
  lemma CreateFrame<M, C>(fs: Fs, dir: string, project: ScriptProject, content: seq<Byte>, compiledType: string,
                          metadata: M, configUi: C)
    ensures var (after, r) := CreateOutcome(fs, dir, project, content, compiledType, metadata, configUi);
            var path := FilePath(dir, project.scriptName, compiledType);
            && (forall p :: p != path ==> (p in after.files <==> p in fs.files))
            && (forall p :: p != path && p in fs.files ==> after.files[p] == fs.files[p])
            && fs.dirs <= after.dirs
            && after.dirs <= fs.dirs + DirChain(Dirname(path))
            && (r.Err? ==> after.files == fs.files)
  {
    var path := FilePath(dir, project.scriptName, compiledType);
    var made := Mkdirs(fs, Dirname(path));
    if made.Ok? {
      var written := Written(made.value, path, content);
      assert made.value.files == fs.files;
      assert made.value.dirs == fs.dirs + DirChain(Dirname(path));
      if written.Ok? {
        assert WriteOutcome(fs, path, content) == (written.value, None);
      } else {
        assert WriteOutcome(fs, path, content) == (made.value, Some(written.error));
      }
    } else {
      assert WriteOutcome(fs, path, content) == (fs, Some(made.error));
    }
  }

  /** get fails with PushPackageNotFound exactly when nothing exists at the build path. */
  lemma GetNotFound<M, C>(fs: Fs, dir: string, project: ScriptProject, compiledType: string, metadata: M, configUi: C)
    ensures GetOutcome(fs, dir, project, compiledType, metadata, configUi) == Err(PushPackageNotFound)
            <==> !Exists(fs, FilePath(dir, project.scriptName, compiledType))
  {
  }

  /** Round trip: get after a successful create returns the package create returned. */
  lemma {:induction false} CreateThenGet<M, C>(fs: Fs, dir: string, project: ScriptProject, content: seq<Byte>,
                                               compiledType: string, metadata: M, configUi: C)
    requires CreateOutcome(fs, dir, project, content, compiledType, metadata, configUi).1.Ok?
    ensures var (after, r) := CreateOutcome(fs, dir, project, content, compiledType, metadata, configUi);
            GetOutcome(after, dir, project, compiledType, metadata, configUi) == r
            && r.value.scriptContent == content
  {
  }

  /**
   * Last writer wins: a second create for the same project and compiled type
   * targets the same path, succeeds, and leaves the second content there.
   */
  lemma {:induction false} CreateTwice<M, C>(fs: Fs, dir: string, project: ScriptProject, content1: seq<Byte>,
                                             content2: seq<Byte>, compiledType: string, metadata: M, configUi: C)
    requires CreateOutcome(fs, dir, project, content1, compiledType, metadata, configUi).1.Ok?
    ensures var first := CreateOutcome(fs, dir, project, content1, compiledType, metadata, configUi).0;
            var (second, r) := CreateOutcome(first, dir, project, content2, compiledType, metadata, configUi);
            var path := FilePath(dir, project.scriptName, compiledType);
            && r.Ok? && r.value.id == path
            && second.files == fs.files[path := content2]
            && second.dirs == first.dirs
  {
    var path := FilePath(dir, project.scriptName, compiledType);
    var chain := DirChain(Dirname(path));
    var first := CreateOutcome(fs, dir, project, content1, compiledType, metadata, configUi).0;
    FilePathShape(dir, project.scriptName, compiledType);
    assert path !in chain by {
      if path in chain {
        ParentChainBelowPath(path, path);
      }
    }
    assert first.files == fs.files[path := content1];
    assert chain * first.files.Keys == {} by {
      forall e | e in chain ensures e !in first.files {
        ParentChainBelowPath(path, e);
      }
    }
    assert first.dirs + chain == first.dirs;
  }

  /** Repeating a create with identical arguments leaves the same file system and package. */
  lemma {:induction false} CreateIdempotent<M, C>(fs: Fs, dir: string, project: ScriptProject, content: seq<Byte>,
                                                  compiledType: string, metadata: M, configUi: C)
    requires CreateOutcome(fs, dir, project, content, compiledType, metadata, configUi).1.Ok?
    ensures var once := CreateOutcome(fs, dir, project, content, compiledType, metadata, configUi);
            CreateOutcome(once.0, dir, project, content, compiledType, metadata, configUi) == once
  {
    CreateTwice(fs, dir, project, content, content, compiledType, metadata, configUi);
  }

  /**
   * Creating the package of one script leaves what get returns for any other
   * script of the same directory and compiled type unchanged (for names and a
   * compiled type without '/').
   */
  lemma {:induction false} CreateKeepsOtherPackages<M, C, M2, C2>(
    fs: Fs, dir: string, project: ScriptProject, content: seq<Byte>, compiledType: string, metadata: M, configUi: C,
    other: ScriptProject, otherMetadata: M2, otherConfigUi: C2)
    requires other.scriptName != project.scriptName
    requires forall k :: 0 <= k < |project.scriptName| ==> project.scriptName[k] != '/'
    requires forall k :: 0 <= k < |compiledType| ==> compiledType[k] != '/'
    ensures var after := CreateOutcome(fs, dir, project, content, compiledType, metadata, configUi).0;
            GetOutcome(after, dir, other, compiledType, otherMetadata, otherConfigUi)
            == GetOutcome(fs, dir, other, compiledType, otherMetadata, otherConfigUi)
  {
    var path := FilePath(dir, project.scriptName, compiledType);
    var otherPath := FilePath(dir, other.scriptName, compiledType);
    var after := CreateOutcome(fs, dir, project, content, compiledType, metadata, configUi).0;
    if otherPath == path {
      FilePathInjective(dir, other.scriptName, project.scriptName, compiledType);
    }
    FilePathParent(dir, project.scriptName, compiledType);
    assert otherPath !in DirChain(Dirname(path)) by {
      if otherPath in DirChain(Dirname(path)) {
        DirChainBelow(Dirname(path), otherPath);
      }
    }
    CreateFrame(fs, dir, project, content, compiledType, metadata, configUi);
    assert Exists(after, otherPath) == Exists(fs, otherPath);
    assert ReadFile(after, otherPath) == ReadFile(fs, otherPath);
  }
}
