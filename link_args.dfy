/** The command lines of the GCC-style linker and of the `ar` archiver, the
    archiver's removal of a stale archive, and the options-file writers that
    move arguments into "options.txt". */
module LinkArgs {
  import opened Wrappers
  import opened Paths

  datatype LinkError =
    | LibraryPathUnsupported         // "Library Path not yet supported on GCC"
    | CouldNotDeletePreviousArchive  // "Create static archive failed: could not delete previous archive"

  /** The operating system of the target platform, as far as the install
      name cares. */
  datatype TargetOs = Windows | MacOsX | OtherOs

  /** What the linker transformer reads of a link spec; `shared` says that
      the spec is a shared-library spec, whose install name is then read. */
  datatype LinkerSpec = LinkerSpec(
    systemArgs: seq<string>,
    shared: bool,
    installName: Option<string>,
    targetOs: TargetOs,
    outputFile: FileRef,
    objectFiles: seq<FileRef>,
    libraries: seq<FileRef>,
    libraryPath: seq<FileRef>,
    args: seq<string>)

  /** The absolute path of each file, in order. */
  function AbsolutePaths(files: seq<FileRef>): (r: seq<string>)
    ensures |r| == |files|
    ensures forall i :: 0 <= i < |files| ==> r[i] == files[i].absolutePath
  {
    if |files| == 0 then [] else AbsolutePaths(files[..|files| - 1]) + [files[|files| - 1].absolutePath]
  }

  /** `maybeSetInstallName`: nothing without an install name or on Windows,
      "-Wl,-install_name,<n>" on macOS, "-Wl,-soname,<n>" elsewhere. */
  function InstallNameFlags(installName: Option<string>, targetOs: TargetOs): (r: seq<string>)
    ensures |r| <= 1
    ensures r == [] <==> installName.None? || targetOs == Windows
    ensures installName.Some? && targetOs == MacOsX ==> r == ["-Wl,-install_name," + installName.value]
    ensures installName.Some? && targetOs == OtherOs ==> r == ["-Wl,-soname," + installName.value]
  {
    if installName.None? || targetOs == Windows then []
    else if targetOs == MacOsX then ["-Wl,-install_name," + installName.value]
    else ["-Wl,-soname," + installName.value]
  }

  /** "-shared" and the install-name flag for a shared-library spec. */
  function SharedFlags(spec: LinkerSpec): (r: seq<string>)
    ensures !spec.shared ==> r == []
    ensures spec.shared ==> r == ["-shared"] + InstallNameFlags(spec.installName, spec.targetOs)
  {
    if spec.shared then ["-shared"] + InstallNameFlags(spec.installName, spec.targetOs) else []
  }

  /** The link command line, or the exception for a non-empty library path. */
  function LinkerArgs(spec: LinkerSpec): (r: Result<seq<string>, LinkError>)
    ensures r.Err? <==> |spec.libraryPath| > 0
    ensures r.Err? ==> r.error == LibraryPathUnsupported
  {
    if |spec.libraryPath| > 0 then Err(LibraryPathUnsupported)
    else Ok(spec.systemArgs + SharedFlags(spec) + ["-o", spec.outputFile.absolutePath]
            + AbsolutePaths(spec.objectFiles) + AbsolutePaths(spec.libraries) + spec.args)
  }

  /** Six lists laid end to end can be cut back into the same six. */
  lemma ConcatSlices<T>(a: seq<T>, b: seq<T>, c: seq<T>, d: seq<T>, e: seq<T>, f: seq<T>)
    ensures var r := a + b + c + d + e + f;
      var i1 := |a|;
      var i2 := i1 + |b|;
      var i3 := i2 + |c|;
      var i4 := i3 + |d|;
      var i5 := i4 + |e|;
      && |r| == i5 + |f|
      && r[..i1] == a && r[i1..i2] == b && r[i2..i3] == c && r[i3..i4] == d && r[i4..i5] == e && r[i5..] == f
  {
  }

  /** The link command line is, in order: the system arguments, "-shared"
      and the install-name flag (shared libraries only), "-o" and the
      absolute output path, each object file, each library, and the user
      arguments last. */
  lemma LinkerArgsLayout(spec: LinkerSpec)
    requires |spec.libraryPath| == 0
    ensures var r := LinkerArgs(spec).value;
      var h := |spec.systemArgs| + |SharedFlags(spec)|;
      var o := h + 2 + |spec.objectFiles|;
      var l := o + |spec.libraries|;
      && |r| == l + |spec.args|
      && r[..|spec.systemArgs|] == spec.systemArgs
      && r[|spec.systemArgs|..h] == SharedFlags(spec)
      && r[h..h + 2] == ["-o", spec.outputFile.absolutePath]
      && r[h + 2..o] == AbsolutePaths(spec.objectFiles)
      && r[o..l] == AbsolutePaths(spec.libraries)
      && r[l..] == spec.args
  {
    var objects, libraries := AbsolutePaths(spec.objectFiles), AbsolutePaths(spec.libraries);
    assert |objects| == |spec.objectFiles| && |libraries| == |spec.libraries|;
    var output := ["-o", spec.outputFile.absolutePath];
    assert LinkerArgs(spec).value == spec.systemArgs + SharedFlags(spec) + output + objects + libraries + spec.args;
    ConcatSlices(spec.systemArgs, SharedFlags(spec), output, objects, libraries, spec.args);
  }

  /** Only a shared-library spec gets "-shared" or an install-name flag
      from the transformer, and the install-name flag is the only thing
      between "-shared" and "-o". */
  lemma SharedOnlyForSharedLibraries(spec: LinkerSpec)
    requires |spec.libraryPath| == 0
    ensures var r := LinkerArgs(spec).value;
      var h := |spec.systemArgs|;
      && (!spec.shared ==> r[h] == "-o" && r[h + 1] == spec.outputFile.absolutePath)
      && (spec.shared ==> r[h] == "-shared" && r[h + 1 + |InstallNameFlags(spec.installName, spec.targetOs)|] == "-o")
  {
    LinkerArgsLayout(spec);
    var r := LinkerArgs(spec).value;
    var h := |spec.systemArgs|;
    var o := h + |SharedFlags(spec)|;
    assert r[o] == r[o..o + 2][0];
    if spec.shared {
      assert r[h] == r[h..o][0];
    }
  }

  method MaybeSetInstallName(spec: LinkerSpec, args: seq<string>) returns (r: seq<string>)
    ensures r == args + InstallNameFlags(spec.installName, spec.targetOs)
  {
    r := args;
    if spec.installName.None? || spec.targetOs == Windows {
      return;
    }
    if spec.targetOs == MacOsX {
      r := r + ["-Wl,-install_name," + spec.installName.value];
    } else {
      r := r + ["-Wl,-soname," + spec.installName.value];
    }
  }

  method AddAbsolutePaths(files: seq<FileRef>, args: seq<string>) returns (r: seq<string>)
    ensures r == args + AbsolutePaths(files)
  {
    r := args;
    var i := 0;
    while i < |files|
      invariant 0 <= i <= |files|
      invariant r == args + AbsolutePaths(files[..i])
    {
      r := r + [files[i].absolutePath];
      i := i + 1;
      assert files[..i][..i - 1] == files[..i - 1];
    }
    assert files[..i] == files;
  }

  /** The linker transformer as it runs, growing one list. */
  method TransformLinkerSpec(spec: LinkerSpec) returns (r: Result<seq<string>, LinkError>)
    ensures r == LinkerArgs(spec)
  {
    var args := spec.systemArgs;
    if spec.shared {
      args := args + ["-shared"];
      args := MaybeSetInstallName(spec, args);
    }
    assert args == spec.systemArgs + SharedFlags(spec);
    args := args + ["-o"];
    args := args + [spec.outputFile.absolutePath];
    assert args == spec.systemArgs + SharedFlags(spec) + ["-o", spec.outputFile.absolutePath];
    args := AddAbsolutePaths(spec.objectFiles, args);
    args := AddAbsolutePaths(spec.libraries, args);
    if |spec.libraryPath| > 0 {
      return Err(LibraryPathUnsupported);
    }
    var i := 0;
    ghost var before := args;
    while i < |spec.args|
      invariant 0 <= i <= |spec.args|
      invariant args == before + spec.args[..i]
    {
      args := args + [spec.args[i]];
      i := i + 1;
      assert spec.args[..i] == spec.args[..i - 1] + [spec.args[i - 1]];
    }
    assert spec.args[..i] == spec.args;
    assert args == spec.systemArgs + SharedFlags(spec) + ["-o", spec.outputFile.absolutePath]
                   + AbsolutePaths(spec.objectFiles) + AbsolutePaths(spec.libraries) + spec.args;
    return Ok(args);
  }

  // ---------------------------------------------------------------------
  // The static-library archiver
  // ---------------------------------------------------------------------

  datatype ArchiverSpec = ArchiverSpec(allArgs: seq<string>, outputFile: FileRef, objectFiles: seq<FileRef>)

  /** The archiver never writes its arguments to an options file. */
  const ArchiverUsesCommandFile: bool := false

  /** The `ar` command line. */
  function ArchiverArgs(spec: ArchiverSpec): seq<string> {
    ["-rcs"] + spec.allArgs + [spec.outputFile.absolutePath] + AbsolutePaths(spec.objectFiles)
  }

  /** "-rcs" first, then the user arguments, the absolute archive path and
      every object file in order. */
  lemma ArchiverArgsLayout(spec: ArchiverSpec)
    ensures var r := ArchiverArgs(spec);
      var n := 1 + |spec.allArgs|;
      && |r| == n + 1 + |spec.objectFiles|
      && r[0] == "-rcs"
      && r[1..n] == spec.allArgs
      && r[n] == spec.outputFile.absolutePath
      && (forall i :: 0 <= i < |spec.objectFiles| ==> r[n + 1 + i] == spec.objectFiles[i].absolutePath)
  {
    var r := ArchiverArgs(spec);
    var n := 1 + |spec.allArgs|;
    var objects := AbsolutePaths(spec.objectFiles);
    assert r[n + 1..] == objects;
    forall i | 0 <= i < |spec.objectFiles|
      ensures r[n + 1 + i] == spec.objectFiles[i].absolutePath
    {
      assert r[n + 1 + i] == r[n + 1..][i];
    }
  }

  /** The archiver transformer as it runs. */
  method TransformArchiverSpec(spec: ArchiverSpec) returns (r: seq<string>)
    ensures r == ArchiverArgs(spec)
  {
    r := ["-rcs"];
    r := r + spec.allArgs;
    r := r + [spec.outputFile.absolutePath];
    r := AddAbsolutePaths(spec.objectFiles, r);
  }

  /** The regular files on disk, and those a delete would fail on. */
  class FileSystem {
    var regularFiles: set<string>
    const undeletable: set<string>

    constructor(regularFiles: set<string>, undeletable: set<string>)
      ensures this.regularFiles == regularFiles && this.undeletable == undeletable
    {
      this.regularFiles := regularFiles;
      this.undeletable := undeletable;
    }

    /** `File.delete()` on a regular file: true exactly when the file was
        there and could be removed. */
    method Delete(path: string) returns (deleted: bool)
      modifies this
      ensures deleted <==> path in old(regularFiles) && path !in undeletable
      ensures regularFiles == if deleted then old(regularFiles) - {path} else old(regularFiles)
    {
      deleted := path in regularFiles && path !in undeletable;
      if deleted {
        regularFiles := regularFiles - {path};
      }
    }
  }

  /** `deletePreviousOutput`: an output that is not a regular file is left
      alone; an existing one is deleted, or the archive step fails. */
  method DeletePreviousOutput(spec: ArchiverSpec, fs: FileSystem) returns (r: Outcome<LinkError>)
    modifies fs
    ensures var path := spec.outputFile.absolutePath;
      && (path !in old(fs.regularFiles) ==> r == Pass && fs.regularFiles == old(fs.regularFiles))
      && (path in old(fs.regularFiles) && path !in fs.undeletable ==> r == Pass && fs.regularFiles == old(fs.regularFiles) - {path})
      && (path in old(fs.regularFiles) && path in fs.undeletable ==>
            r == Fail(CouldNotDeletePreviousArchive) && fs.regularFiles == old(fs.regularFiles))
  {
    var path := spec.outputFile.absolutePath;
    if path !in fs.regularFiles {
      return Pass;
    }
    var deleted := fs.Delete(path);
    if !deleted {
      return Fail(CouldNotDeletePreviousArchive);
    }
    return Pass;
  }

  /** `execute`: the stale archive goes first, then the archiver is invoked
      with the transformed arguments, which are returned here. The archiver
      never runs while an old archive is still on disk. */
  method ExecuteArchiver(spec: ArchiverSpec, fs: FileSystem) returns (r: Result<seq<string>, LinkError>)
    modifies fs
    ensures r.Ok? ==> r.value == ArchiverArgs(spec) && spec.outputFile.absolutePath !in fs.regularFiles
    ensures r.Err? <==> spec.outputFile.absolutePath in old(fs.regularFiles) && spec.outputFile.absolutePath in fs.undeletable
    ensures r.Err? ==> r.error == CouldNotDeletePreviousArchive
    ensures fs.regularFiles == if r.Ok? then old(fs.regularFiles) - {spec.outputFile.absolutePath} else old(fs.regularFiles)
  {
    var deleted := DeletePreviousOutput(spec, fs);
    if deleted.Fail? {
      return Err(deleted.error);
    }
    var args := TransformArchiverSpec(spec);
    return Ok(args);
  }

  // ---------------------------------------------------------------------
  // Options files
  // ---------------------------------------------------------------------

  /** GCC options that do not work from an options file. */
  predicate IsCommandLineOnly(arg: string) {
    arg == "-m32" || arg == "-m64"
  }

  /** The arguments restricted to "-m32" and "-m64", in order. */
  function CommandLineOnly(args: seq<string>): (r: seq<string>)
    ensures |r| <= |args|
  {
    if |args| == 0 then []
    else
      var last := args[|args| - 1];
      CommandLineOnly(args[..|args| - 1]) + (if IsCommandLineOnly(last) then [last] else [])
  }

  /** An argument is kept exactly when it occurs and is "-m32" or "-m64". */
  lemma {:induction false} CommandLineOnlyMembers(args: seq<string>, a: string)
    ensures a in CommandLineOnly(args) <==> a in args && IsCommandLineOnly(a)
  {
    if |args| > 0 {
      var init := args[..|args| - 1];
      CommandLineOnlyMembers(init, a);
      assert args == init + [args[|args| - 1]];
    }
  }

  /** Each "-m32" and "-m64" is kept as often as it occurs. */
  lemma {:induction false} CommandLineOnlyKeepsRepeats(args: seq<string>)
    ensures forall a :: IsCommandLineOnly(a) ==> multiset(CommandLineOnly(args))[a] == multiset(args)[a]
  {
    if |args| > 0 {
      var init := args[..|args| - 1];
      assert args == init + [args[|args| - 1]];
      CommandLineOnlyKeepsRepeats(init);
    }
  }

  /** `getCommandLineOnlyArgs`: a copy of the arguments on which `retainAll`
      compacts the kept entries to the front in place. */
  method GetCommandLineOnlyArgs(allArgs: seq<string>) returns (r: seq<string>)
    ensures r == CommandLineOnly(allArgs)
  {
    var a := new string[|allArgs|](i requires 0 <= i < |allArgs| => allArgs[i]);
    var kept := 0;
    var next := 0;
    while next < a.Length
      invariant 0 <= kept <= next <= a.Length == |allArgs|
      invariant a[..kept] == CommandLineOnly(allArgs[..next])
      invariant forall i :: next <= i < a.Length ==> a[i] == allArgs[i]
    {
      var arg := a[next];
      ghost var done := CommandLineOnly(allArgs[..next]);
      CommandLineOnlyStep(allArgs, next);
      if IsCommandLineOnly(arg) {
        a[kept] := arg;
        kept := kept + 1;
        assert a[..kept] == done + [arg];
      }
      next := next + 1;
    }
    assert allArgs[..next] == allArgs;
    r := a[..kept];
  }

  /** One more argument extends the restriction by at most itself. */
  lemma CommandLineOnlyStep(args: seq<string>, next: nat)
    requires next < |args|
    ensures CommandLineOnly(args[..next + 1])
      == CommandLineOnly(args[..next]) + (if IsCommandLineOnly(args[next]) then [args[next]] else [])
  {
    assert args[..next + 1][..next] == args[..next];
  }

  /** What Gradle's argument-file generator returns for an options file and
      the arguments written into it. */
  type ArgsFileGenerator = (string, seq<string>) -> seq<string>

  /** The options file every writer uses: "options.txt" in the temporary
      directory. */
  function OptionsFile(tempDir: Option<string>): string {
    PathJoinOpt(tempDir, "options.txt")
  }

  /** The Clang writer used by the compilers: only the generator's output. */
  function ClangOptionsFileArgs(generator: ArgsFileGenerator, originalArgs: seq<string>, tempDir: Option<string>): seq<string> {
    generator(OptionsFile(tempDir), originalArgs)
  }

  /** The GCC writer used by the linker: the generator's output for the
      full original list, then the command-line-only arguments again. */
  function GccOptionsFileArgs(generator: ArgsFileGenerator, originalArgs: seq<string>, tempDir: Option<string>): seq<string> {
    generator(OptionsFile(tempDir), originalArgs) + CommandLineOnly(originalArgs)
  }

  /** The GCC writer is the Clang writer followed by exactly the "-m32" and
      "-m64" arguments of the original list, each as often as it occurs
      there; nothing else is repeated on the command line. */
  lemma GccWriterExtendsClangWriter(generator: ArgsFileGenerator, originalArgs: seq<string>, tempDir: Option<string>)
    ensures var clang := ClangOptionsFileArgs(generator, originalArgs, tempDir);
      var r := GccOptionsFileArgs(generator, originalArgs, tempDir);
      && r[..|clang|] == clang
      && (forall a :: a in r[|clang|..] ==> IsCommandLineOnly(a))
      && (forall a :: IsCommandLineOnly(a) ==> multiset(r[|clang|..])[a] == multiset(originalArgs)[a])
  {
    var clang := ClangOptionsFileArgs(generator, originalArgs, tempDir);
    var r := GccOptionsFileArgs(generator, originalArgs, tempDir);
    assert r[|clang|..] == CommandLineOnly(originalArgs);
    forall a | a in r[|clang|..] ensures IsCommandLineOnly(a) {
      CommandLineOnlyMembers(originalArgs, a);
    }
    CommandLineOnlyKeepsRepeats(originalArgs);
  }

  /** The GCC writer as it runs, growing `finalArgs`. */
  method TransformArgs(generator: ArgsFileGenerator, originalArgs: seq<string>, tempDir: Option<string>)
    returns (finalArgs: seq<string>)
    ensures finalArgs == GccOptionsFileArgs(generator, originalArgs, tempDir)
  {
    var commandLineOnlyArgs := GetCommandLineOnlyArgs(originalArgs);
    finalArgs := [];
    finalArgs := finalArgs + generator(PathJoinOpt(tempDir, "options.txt"), originalArgs);
    finalArgs := finalArgs + commandLineOnlyArgs;
  }
}
