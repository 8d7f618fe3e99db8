/** The compile command line shared by the NDK compilers: the GCC-style
    argument transformer, the output and precompiled-header arguments of the
    Android-compatible compiler, and the assembler's refusal of precompiled
    headers. */
module CompilerArgs {
  import opened Wrappers
  import opened Strings
  import opened Paths
  import opened AndroidTarget

  /** The `-x` language of the assembler and of the C++ precompiled-header
      compiler. */
  const AssemblerLanguage: string := "assembler"
  const CppHeaderLanguage: string := "c++-header"

  datatype CompileError =
    | NdkFolderMissing             // "NDK folder must be specified and exist."
    | PchNotSupportedForAssembler  // precompiled headers given to the assembler

  /** What the transformer reads of a compile spec. `macroArgs` is what
      Gradle's macro converter makes of the spec's macros ("NAME" or
      "NAME=value"), in its order. */
  datatype CompileSpec = CompileSpec(
    platformName: string,
    debuggable: bool,
    positionIndependent: bool,
    macroArgs: seq<string>,
    allArgs: seq<string>,
    includeRoots: seq<FileRef>,
    systemIncludeRoots: seq<FileRef>,
    prefixHeader: Option<FileRef>)

  /** The platform name decodes to an armv7 target. */
  predicate TargetsArmv7(platformName: string) {
    var info := DecodePlatformName(platformName);
    info.Some? && info.value.arch == Armv7
  }

  /** The optimisation flags: no optimisation and full debug info for a
      debuggable spec; otherwise size optimisation on armv7, "-O2" on every
      other target (and when the platform name does not decode), followed by
      "-DNDEBUG". */
  function OptimisationFlags(platformName: string, debuggable: bool): (r: seq<string>)
    ensures |r| == 2
    ensures debuggable ==> r == ["-O0", "-fno-limit-debug-info"]
    ensures !debuggable ==> r[1] == "-DNDEBUG"
    ensures !debuggable ==> (r[0] == "-Oz" <==> TargetsArmv7(platformName))
    ensures !debuggable ==> (r[0] == "-O2" <==> !TargetsArmv7(platformName))
    ensures "-DNDEBUG" in r <==> !debuggable
  {
    if debuggable then ["-O0", "-fno-limit-debug-info"]
    else if TargetsArmv7(platformName) then ["-Oz", "-DNDEBUG"]
    else ["-O2", "-DNDEBUG"]
  }

  function ToolSpecificArgs(language: string, platformName: string, debuggable: bool): seq<string> {
    ["-x", language, "-c"] + OptimisationFlags(platformName, debuggable)
  }

  /** "-D" before each converted macro. */
  function MacroFlags(macroArgs: seq<string>): (r: seq<string>)
    ensures |r| == |macroArgs|
    ensures forall i :: 0 <= i < |macroArgs| ==> r[i] == "-D" + macroArgs[i]
  {
    if |macroArgs| == 0 then []
    else MacroFlags(macroArgs[..|macroArgs| - 1]) + ["-D" + macroArgs[|macroArgs| - 1]]
  }

  /** `flag` before the canonical path of each file. */
  function FilePairs(flag: string, files: seq<FileRef>): (r: seq<string>)
    ensures |r| == 2 * |files|
    ensures forall i :: 0 <= i < |files| ==> r[2 * i] == flag && r[2 * i + 1] == files[i].canonicalPath
  {
    if |files| == 0 then []
    else FilePairs(flag, files[..|files| - 1]) + [flag, files[|files| - 1].canonicalPath]
  }

  /** The files whose canonical path starts with `prefix`, in order. */
  function KeepUnder(prefix: string, files: seq<FileRef>): (r: seq<FileRef>)
    ensures |r| <= |files|
    ensures forall f :: f in r <==> f in files && StartsWith(f.canonicalPath, prefix)
  {
    if |files| == 0 then []
    else
      var last := files[|files| - 1];
      KeepUnder(prefix, files[..|files| - 1]) + (if StartsWith(last.canonicalPath, prefix) then [last] else [])
  }

  /** Filtering keeps the input order: filtering a concatenation is the
      concatenation of the filtered parts. */
  lemma {:induction false} KeepUnderAppend(prefix: string, a: seq<FileRef>, b: seq<FileRef>)
    ensures KeepUnder(prefix, a + b) == KeepUnder(prefix, a) + KeepUnder(prefix, b)
    decreases |b|
  {
    if |b| == 0 {
      assert a + b == a;
    } else {
      var b' := b[..|b| - 1];
      assert (a + b)[..|a + b| - 1] == a + b';
      KeepUnderAppend(prefix, a, b');
    }
  }

  /** The system include roots inside the NDK. The NDK directory must be set
      and exist, even when there is nothing to filter. */
  function FilterOutNonNdk(ndkDir: Option<FileRef>, files: seq<FileRef>): (r: Result<seq<FileRef>, CompileError>)
    ensures r.Err? <==> ndkDir.None? || !ndkDir.value.present
    ensures r.Err? ==> r.error == NdkFolderMissing
    ensures r.Ok? ==> forall f :: f in r.value <==> f in files && StartsWith(f.canonicalPath, ndkDir.value.canonicalPath)
  {
    if ndkDir.None? || !ndkDir.value.present then Err(NdkFolderMissing)
    else Ok(KeepUnder(ndkDir.value.canonicalPath, files))
  }

  /** The whole compile command line, or the exception that stops it. */
  function CompilerArgs(language: string, spec: CompileSpec, ndkDir: Option<FileRef>): (r: Result<seq<string>, CompileError>)
    ensures r.Err? <==> ndkDir.None? || !ndkDir.value.present
    ensures r.Err? ==> r.error == NdkFolderMissing
  {
    var kept :- FilterOutNonNdk(ndkDir, spec.systemIncludeRoots);
    Ok(ToolSpecificArgs(language, spec.platformName, spec.debuggable)
       + MacroFlags(spec.macroArgs)
       + spec.allArgs
       + FilePairs("-I", spec.includeRoots)
       + FilePairs("-isystem", kept))
  }

  /** Five lists laid end to end can be cut back into the same five. */
  lemma ConcatSlices<T>(a: seq<T>, b: seq<T>, c: seq<T>, d: seq<T>, e: seq<T>)
    ensures var r := a + b + c + d + e;
      var m := |a| + |b|;
      var n := m + |c|;
      var k := n + |d|;
      && |r| == k + |e|
      && r[..|a|] == a && r[|a|..m] == b && r[m..n] == c && r[n..k] == d && r[k..] == e
  {
  }

  /** The command line is, in order: "-x <language> -c", the two
      optimisation flags, a "-D" per macro, the user arguments verbatim, an
      "-I" pair per include root, and an "-isystem" pair per system root
      inside the NDK, in input order. */
  lemma CompilerArgsLayout(language: string, spec: CompileSpec, ndkDir: Option<FileRef>)
    requires CompilerArgs(language, spec, ndkDir).Ok?
    ensures var r := CompilerArgs(language, spec, ndkDir).value;
      var m := 5 + |spec.macroArgs|;
      var n := m + |spec.allArgs|;
      var k := n + 2 * |spec.includeRoots|;
      var kept := KeepUnder(ndkDir.value.canonicalPath, spec.systemIncludeRoots);
      && |r| == k + 2 * |kept|
      && r[..5] == ["-x", language, "-c"] + OptimisationFlags(spec.platformName, spec.debuggable)
      && r[5..m] == MacroFlags(spec.macroArgs)
      && r[m..n] == spec.allArgs
      && r[n..k] == FilePairs("-I", spec.includeRoots)
      && r[k..] == FilePairs("-isystem", kept)
      && (forall f :: f in kept <==> f in spec.systemIncludeRoots && StartsWith(f.canonicalPath, ndkDir.value.canonicalPath))
  {
    var kept := KeepUnder(ndkDir.value.canonicalPath, spec.systemIncludeRoots);
    ConcatSlices(ToolSpecificArgs(language, spec.platformName, spec.debuggable), MacroFlags(spec.macroArgs),
                 spec.allArgs, FilePairs("-I", spec.includeRoots), FilePairs("-isystem", kept));
  }

  /** A debuggable spec never gets "-DNDEBUG" from the transformer's own
      flags, and a release spec always does. */
  lemma DebugPolicy(language: string, platformName: string, debuggable: bool)
    ensures var head := ToolSpecificArgs(language, platformName, debuggable);
      && |head| == 5
      && (debuggable ==> head[3..] == ["-O0", "-fno-limit-debug-info"] && "-DNDEBUG" !in head[3..])
      && (!debuggable ==> head[4] == "-DNDEBUG"
                          && head[3] == (if TargetsArmv7(platformName) then "-Oz" else "-O2"))
  {
    var head := ToolSpecificArgs(language, platformName, debuggable);
    assert head[3..] == OptimisationFlags(platformName, debuggable);
  }

  /** `getOutputArgs`: "-o" and the canonical output path. */
  function OutputArgs(outputFile: FileRef): (r: seq<string>)
    ensures |r| == 2 && r[0] == "-o" && r[1] == outputFile.canonicalPath
  {
    ["-o", outputFile.canonicalPath]
  }

  /** `getPCHArgs`: "-include" and the canonical header path when there is a
      prefix header, nothing otherwise. */
  function PchArgs(prefixHeader: Option<FileRef>): (r: seq<string>)
    ensures |r| == 0 || |r| == 2
    ensures |r| == 0 <==> prefixHeader.None?
    ensures prefixHeader.Some? ==> r[0] == "-include" && r[1] == prefixHeader.value.canonicalPath
  {
    if prefixHeader.Some? then ["-include", prefixHeader.value.canonicalPath] else []
  }

  /** The four argument groups handed to the base per-file builder. */
  datatype PerFileArgs = PerFileArgs(genericArgs: seq<string>, sourceArgs: seq<string>,
                                     outputArgs: seq<string>, pchArgs: Option<seq<string>>)

  /** The assembler's `buildPerFileArgs`: precompiled-header arguments that
      are present and not empty are refused; anything else goes to the base
      builder unchanged. */
  function AssemblerPerFileArgs(genericArgs: seq<string>, sourceArgs: seq<string>,
                                outputArgs: seq<string>, pchArgs: Option<seq<string>>): (r: Result<PerFileArgs, CompileError>)
    ensures r.Err? <==> pchArgs.Some? && |pchArgs.value| > 0
    ensures r.Err? ==> r.error == PchNotSupportedForAssembler
    ensures r.Ok? ==> r.value == PerFileArgs(genericArgs, sourceArgs, outputArgs, pchArgs)
  {
    if pchArgs.Some? && |pchArgs.value| > 0 then Err(PchNotSupportedForAssembler)
    else Ok(PerFileArgs(genericArgs, sourceArgs, outputArgs, pchArgs))
  }

  /** An assembler spec fails exactly when it has a prefix header. */
  lemma AssemblerRejectsPrefixHeader(spec: CompileSpec, genericArgs: seq<string>, sourceArgs: seq<string>, outputFile: FileRef)
    ensures AssemblerPerFileArgs(genericArgs, sourceArgs, OutputArgs(outputFile), Some(PchArgs(spec.prefixHeader))).Err?
            <==> spec.prefixHeader.Some?
  {
  }

  // ---------------------------------------------------------------------
  // The transformer as it runs: one list threaded through four helpers
  // ---------------------------------------------------------------------

  method AddToolSpecificArgs(language: string, spec: CompileSpec, args: seq<string>) returns (r: seq<string>)
    ensures r == args + ToolSpecificArgs(language, spec.platformName, spec.debuggable)
  {
    r := args + ["-x"];
    r := r + [language];
    r := r + ["-c"];
    if spec.debuggable {
      r := r + ["-O0", "-fno-limit-debug-info"];
    } else {
      var info := DecodePlatformName(spec.platformName);
      if info.Some? && info.value.arch == Armv7 {
        r := r + ["-Oz"];
      } else {
        r := r + ["-O2"];
      }
      r := r + ["-DNDEBUG"];
    }
  }

  method AddMacroArgs(macroArgs: seq<string>, args: seq<string>) returns (r: seq<string>)
    ensures r == args + MacroFlags(macroArgs)
  {
    r := args;
    var i := 0;
    while i < |macroArgs|
      invariant 0 <= i <= |macroArgs|
      invariant r == args + MacroFlags(macroArgs[..i])
    {
      r := r + ["-D" + macroArgs[i]];
      i := i + 1;
      assert macroArgs[..i][..i - 1] == macroArgs[..i - 1];
    }
    assert macroArgs[..i] == macroArgs;
  }

  method AddFilePairs(flag: string, files: seq<FileRef>, args: seq<string>) returns (r: seq<string>)
    ensures r == args + FilePairs(flag, files)
  {
    r := args;
    var i := 0;
    while i < |files|
      invariant 0 <= i <= |files|
      invariant r == args + FilePairs(flag, files[..i])
    {
      r := r + [flag];
      r := r + [files[i].canonicalPath];
      i := i + 1;
      assert files[..i][..i - 1] == files[..i - 1];
    }
    assert files[..i] == files;
  }

  method AddIncludeArgs(spec: CompileSpec, ndkDir: Option<FileRef>, args: seq<string>)
    returns (r: Result<seq<string>, CompileError>)
    ensures r.Err? <==> ndkDir.None? || !ndkDir.value.present
    ensures r.Err? ==> r.error == NdkFolderMissing
    ensures r.Ok? ==> r.value == args + FilePairs("-I", spec.includeRoots)
                                      + FilePairs("-isystem", FilterOutNonNdk(ndkDir, spec.systemIncludeRoots).value)
  {
    var withIncludes := AddFilePairs("-I", spec.includeRoots, args);
    var kept := FilterOutNonNdk(ndkDir, spec.systemIncludeRoots);
    if kept.Err? {
      return Err(kept.error);
    }
    var all := AddFilePairs("-isystem", kept.value, withIncludes);
    return Ok(all);
  }

  /** `transform`: the four helpers in order on one growing list. */
  method Transform(language: string, spec: CompileSpec, ndkDir: Option<FileRef>)
    returns (r: Result<seq<string>, CompileError>)
    ensures r == CompilerArgs(language, spec, ndkDir)
  {
    var args: seq<string> := [];
    args := AddToolSpecificArgs(language, spec, args);
    args := AddMacroArgs(spec.macroArgs, args);
    args := args + spec.allArgs;
    assert args == ToolSpecificArgs(language, spec.platformName, spec.debuggable) + MacroFlags(spec.macroArgs) + spec.allArgs;
    r := AddIncludeArgs(spec, ndkDir, args);
    if r.Ok? {
      var kept := KeepUnder(ndkDir.value.canonicalPath, spec.systemIncludeRoots);
      assert CompilerArgs(language, spec, ndkDir)
          == Ok(args + FilePairs("-I", spec.includeRoots) + FilePairs("-isystem", kept));
    }
  }
}
