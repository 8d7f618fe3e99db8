/** The Android Clang platform tool provider: how it names binaries, how
    it asks a compiler for its metadata, and which compilers it can create
    (and when creating one fails). */
module PlatformToolProvider {
  import opened Wrappers
  import opened Strings
  import opened ToolRegistry
  import opened ToolChainSelection

  const ObjectFileExtension: string := ".o"
  const PchFileExtension: string := ".h.gch"
  const SharedLibraryExtension: string := ".so"
  const StaticLibraryExtension: string := ".a"

  // ---------------------------------------------------------------------
  // Naming
  // ---------------------------------------------------------------------

  /** An extension as the naming rules use it: a dot followed by text with
      neither a dot nor a separator. */
  predicate SimpleExtension(ext: string) {
    |ext| >= 1 && ext[0] == '.' && '.' !in ext[1..] && '/' !in ext
  }

  /** `File.nameWithoutExtension`: the name up to its last dot, or the
      whole name without one. */
  function NameWithoutExtension(name: string): (r: string)
    ensures |r| <= |name| && r == name[..|r|]
    ensures '/' !in name ==> '/' !in r
  {
    var dot := LastIndexOfChar(name, '.');
    if dot == -1 then name else name[..dot]
  }

  /** The directory part of a path: everything up to and including its
      last '/', or nothing. Paths are taken as already normalised
      ('/'-separated, no trailing separator). */
  function DirPart(path: string): (r: string)
    ensures |r| == 0 || r[|r| - 1] == '/'
  {
    path[..LastIndexOfChar(path, '/') + 1]
  }

  /** The file name: everything after the last '/'. */
  function NamePart(path: string): (r: string)
    ensures '/' !in r
    ensures path == DirPart(path) + r
  {
    path[LastIndexOfChar(path, '/') + 1..]
  }

  /** A directory part and a name put together split back into the same
      two parts. */
  lemma SplitOfJoin(dir: string, name: string)
    requires |dir| == 0 || dir[|dir| - 1] == '/'
    requires '/' !in name
    ensures DirPart(dir + name) == dir && NamePart(dir + name) == name
  {
    var s := dir + name;
    var slash := LastIndexOfChar(s, '/');
    forall j | |dir| <= j < |s| ensures s[j] != '/' {
      assert s[j] == name[j - |dir|];
    }
    if |dir| > 0 {
      assert s[|dir| - 1] == '/';
    }
    assert slash == |dir| - 1;
    assert s[..slash + 1] == dir;
  }

  /** `File(File(path).parentFile, "${nameWithoutExtension}$ext").path`:
      the directory part is kept and the file name's extension becomes
      `ext`. */
  function ReplaceExtension(path: string, ext: string): (r: string)
    requires SimpleExtension(ext)
    ensures EndsWith(r, ext)
    ensures DirPart(r) == DirPart(path)
    ensures NamePart(r) == NameWithoutExtension(NamePart(path)) + ext
  {
    var name := NameWithoutExtension(NamePart(path)) + ext;
    assert '/' !in name by {
      forall k | 0 <= k < |name| ensures name[k] != '/' {
        var stem := NameWithoutExtension(NamePart(path));
        if k < |stem| { assert name[k] == stem[k] && stem[k] in stem; }
        else { assert name[k] == ext[k - |stem|] && ext[k - |stem|] in ext; }
      }
    }
    SplitOfJoin(DirPart(path), name);
    var r := DirPart(path) + name;
    assert r[|r| - |ext|..] == ext;
    r
  }

  /** The last dot of `stem + ext` is the one that starts `ext`. */
  lemma NameWithoutSimpleExtension(stem: string, ext: string)
    requires SimpleExtension(ext)
    ensures NameWithoutExtension(stem + ext) == stem
  {
    var s := stem + ext;
    assert s[|stem|] == '.';
    forall j | |stem| < j < |s| ensures s[j] != '.' {
      assert s[j] == ext[1..][j - |stem| - 1];
      assert ext[1..][j - |stem| - 1] in ext[1..];
    }
    var dot := LastIndexOfChar(s, '.');
    assert dot == |stem|;
    assert s[..dot] == stem;
  }

  /** Renaming twice is renaming once with the second extension: only the
      stem survives a rename. In particular renaming is idempotent. */
  lemma {:induction false} ReplaceExtensionTwice(path: string, first: string, second: string)
    requires SimpleExtension(first) && SimpleExtension(second)
    ensures ReplaceExtension(ReplaceExtension(path, first), second) == ReplaceExtension(path, second)
  {
    var once := ReplaceExtension(path, first);
    var stem := NameWithoutExtension(NamePart(path));
    NameWithoutSimpleExtension(stem, first);
    assert NameWithoutExtension(NamePart(once)) == stem;
  }

  /** `getExecutableName`: the path as given. */
  function ExecutableName(executablePath: string): (r: string)
    ensures r == executablePath
  {
    executablePath
  }

  /** `getSharedLibraryName`: the target system's own naming (`baseName`),
      then the extension replaced by ".so". */
  function SharedLibraryName(baseName: string -> string, libraryPath: string): (r: string)
    ensures EndsWith(r, SharedLibraryExtension)
    ensures ReplaceExtension(r, SharedLibraryExtension) == r
  {
    ReplaceExtensionTwice(baseName(libraryPath), SharedLibraryExtension, SharedLibraryExtension);
    ReplaceExtension(baseName(libraryPath), SharedLibraryExtension)
  }

  /** `getSharedLibraryLinkFileName`: the same as the shared library name. */
  function SharedLibraryLinkFileName(baseName: string -> string, libraryPath: string): (r: string)
    ensures r == SharedLibraryName(baseName, libraryPath)
  {
    SharedLibraryName(baseName, libraryPath)
  }

  /** `getStaticLibraryName`: the target system's own naming, then the
      extension replaced by ".a". */
  function StaticLibraryName(baseName: string -> string, libraryPath: string): (r: string)
    ensures EndsWith(r, StaticLibraryExtension)
    ensures ReplaceExtension(r, StaticLibraryExtension) == r
  {
    ReplaceExtensionTwice(baseName(libraryPath), StaticLibraryExtension, StaticLibraryExtension);
    ReplaceExtension(baseName(libraryPath), StaticLibraryExtension)
  }

  /** A shared and a static library of the same base name differ only in
      their extension: renaming one gives the other. */
  lemma SharedAndStaticShareStem(baseName: string -> string, libraryPath: string)
    ensures ReplaceExtension(SharedLibraryName(baseName, libraryPath), StaticLibraryExtension)
      == StaticLibraryName(baseName, libraryPath)
    ensures ReplaceExtension(StaticLibraryName(baseName, libraryPath), SharedLibraryExtension)
      == SharedLibraryName(baseName, libraryPath)
  {
    ReplaceExtensionTwice(baseName(libraryPath), SharedLibraryExtension, StaticLibraryExtension);
    ReplaceExtensionTwice(baseName(libraryPath), StaticLibraryExtension, SharedLibraryExtension);
  }

  // ---------------------------------------------------------------------
  // Metadata
  // ---------------------------------------------------------------------

  /** `LANGUAGE_FOR_COMPILER`: the language named to the probe. */
  function LanguageFor(toolType: ToolType): (r: Option<string>)
    ensures r.Some? <==> toolType in {CCompiler, CppCompiler}
  {
    if toolType == CCompiler then Some("c")
    else if toolType == CppCompiler then Some("c++")
    else None
  }

  /** The probe's language arguments: "-x" and the language, or nothing. */
  function LanguageArgs(toolType: ToolType): (r: seq<string>)
    ensures toolType == CCompiler ==> r == ["-x", "c"]
    ensures toolType == CppCompiler ==> r == ["-x", "c++"]
    ensures toolType !in {CCompiler, CppCompiler} ==> r == []
  {
    match LanguageFor(toolType)
    case Some(language) => ["-x", language]
    case None => []
  }

  /** The search `getGccMetadata` makes: the registered tool's own type
      and executable, or neither when no tool of that type is registered. */
  function MetadataSearch(registry: Registry, toolType: ToolType, env: Environment): (r: ToolSearch)
    ensures toolType in registry.tools ==>
      r == env.locate(registry.tools[toolType].toolType, Some(registry.tools[toolType].executable))
    ensures toolType !in registry.tools ==> r == env.locateUntyped
  {
    if toolType in registry.tools then
      env.locate(registry.tools[toolType].toolType, Some(registry.tools[toolType].executable))
    else env.locateUntyped
  }

  /** `getGccMetadata`: a tool that cannot be located is an error carrying
      the search's failure; a located one is probed with its language
      arguments. */
  function GetGccMetadata(registry: Registry, toolType: ToolType, env: Environment): (r: Result<GccMetadata, Failure>)
    ensures r.Err? <==> MetadataSearch(registry, toolType, env).NotLocated?
    ensures r.Err? ==> r.error == MetadataSearch(registry, toolType, env).failure
    ensures r.Ok? ==> r.value == env.probe(MetadataSearch(registry, toolType, env).tool, LanguageArgs(toolType))
  {
    var searchResult := MetadataSearch(registry, toolType, env);
    if searchResult.Located? then Ok(env.probe(searchResult.tool, LanguageArgs(toolType)))
    else Err(searchResult.failure)
  }

  /** For a well-formed registry (every tool stored under its own type),
      a registered tool's metadata search is the search `locateTool` makes. */
  lemma MetadataSearchOfRegistered(registry: Registry, toolType: ToolType, env: Environment)
    requires forall t :: t in registry.tools ==> registry.tools[t].toolType == t
    requires toolType in registry.tools
    ensures MetadataSearch(registry, toolType, env) == LocateRegistered(registry, toolType, env)
  { }

  /** `getSystemLibraries`: the probed system libraries, or none at all
      when the metadata is unavailable; a tool that cannot be located is
      still an error. */
  function GetSystemLibraries(registry: Registry, toolType: ToolType, env: Environment): (r: Result<SystemLibraries, Failure>)
    ensures r.Err? <==> GetGccMetadata(registry, toolType, env).Err?
    ensures r.Ok? && GetGccMetadata(registry, toolType, env).value.MetadataMissing? ==> r.value == EmptySystemLibraries
    ensures r.Ok? && GetGccMetadata(registry, toolType, env).value.MetadataFound? ==>
      r.value == GetGccMetadata(registry, toolType, env).value.systemLibraries
  {
    var metadata :- GetGccMetadata(registry, toolType, env);
    if metadata.MetadataFound? then Ok(metadata.systemLibraries) else Ok(EmptySystemLibraries)
  }

  /** The version a version-aware compiler reports. */
  datatype CompilerVersion = CompilerVersion(compilerType: string, vendor: string, version: string)

  /** `versionAwareCompiler`: the compiler type with the probed vendor and
      version; fails when the tool is not located or its metadata is
      unavailable. */
  function VersionOf(registry: Registry, toolType: ToolType, env: Environment, compilerType: string)
    : (r: Result<CompilerVersion, Failure>)
    ensures r.Ok? <==> GetGccMetadata(registry, toolType, env).Ok? && GetGccMetadata(registry, toolType, env).value.MetadataFound?
    ensures r.Ok? ==> var m := GetGccMetadata(registry, toolType, env).value;
      r.value == CompilerVersion(compilerType, m.vendor, m.version)
    ensures r.Err? && GetGccMetadata(registry, toolType, env).Ok? ==>
      r.error == MetadataUnavailable(GetGccMetadata(registry, toolType, env).value.explanation)
  {
    var metadata :- GetGccMetadata(registry, toolType, env);
    if metadata.MetadataFound? then Ok(CompilerVersion(compilerType, metadata.vendor, metadata.version))
    else Err(MetadataUnavailable(metadata.explanation))
  }

  // ---------------------------------------------------------------------
  // Creating compilers
  // ---------------------------------------------------------------------

  /** The compilers a provider is asked to create. */
  datatype CompilerKind =
    | CCompile | CppCompile | CPch | CppPch
    | ObjectiveCCompile | ObjectiveCppCompile | ObjectiveCPch | ObjectiveCppPch
    | Assemble | Link | Archive | ExtractSymbols | Strip

  predicate IsObjectiveC(kind: CompilerKind) {
    kind in {ObjectiveCCompile, ObjectiveCppCompile, ObjectiveCPch, ObjectiveCppPch}
  }

  /** The compilers wrapped with the probed version. */
  predicate IsVersionAware(kind: CompilerKind) {
    kind in {CCompile, CppCompile, CPch, CppPch, Link}
  }

  /** The registered tool each compiler runs. */
  function ToolOf(kind: CompilerKind): ToolType {
    match kind
    case CCompile => CCompiler
    case CPch => CCompiler
    case CppCompile => CppCompiler
    case CppPch => CppCompiler
    case ObjectiveCCompile => ObjectiveCCompiler
    case ObjectiveCPch => ObjectiveCCompiler
    case ObjectiveCppCompile => ObjectiveCppCompiler
    case ObjectiveCppPch => ObjectiveCppCompiler
    case Assemble => Assembler
    case Link => Linker
    case Archive => StaticLibArchiver
    case ExtractSymbols => SymbolExtractor
    case Strip => Stripper
  }

  /** The output extension a compiler is given, if any. */
  function OutputExtension(kind: CompilerKind): Option<string> {
    if kind in {CCompile, CppCompile, Assemble} then Some(ObjectFileExtension)
    else if kind in {CPch, CppPch} then Some(PchFileExtension)
    else None
  }

  /** How a tool is run: the search path, the tool's argument action, and
      DEVELOPER_DIR passed through when the build's environment has it. */
  datatype ToolContext = ToolContext(path: seq<string>, args: seq<string>, environment: map<string, string>)

  function Context(tool: ToolConfig, env: Environment, developerDir: Option<string>): (r: ToolContext)
    ensures r.path == env.searchPath && r.args == tool.args
    ensures "DEVELOPER_DIR" in r.environment <==> developerDir.Some?
    ensures developerDir.Some? ==> r.environment["DEVELOPER_DIR"] == developerDir.value
  {
    ToolContext(env.searchPath, tool.args,
      if developerDir.Some? then map["DEVELOPER_DIR" := developerDir.value] else map[])
  }

  /** A created compiler: the tool it runs and the result of locating its
      executable, its context, its output extension, whether it may use
      an options file (`None` for tools without that setting), and its
      version when it is version-aware. */
  datatype CompilerSetup = CompilerSetup(
    toolType: ToolType,
    executable: ToolSearch,
    context: ToolContext,
    outputExtension: Option<string>,
    useCommandFile: Option<bool>,
    version: Option<CompilerVersion>)

  datatype CreateError =
    | UnsupportedCompiler(toolType: ToolType)
    | ToolConfigurationMissing
    | CompilerUnavailable(failure: Failure)

  /** The `create*` methods. Objective-C compilers are refused outright; a
      tool that was never registered cannot be run; a version-aware
      compiler also needs its metadata. */
  function CreateCompiler(kind: CompilerKind, registry: Registry, env: Environment, developerDir: Option<string>, compilerType: string)
    : (r: Result<CompilerSetup, CreateError>)
  {
    if IsObjectiveC(kind) then Err(UnsupportedCompiler(ToolOf(kind)))
    else if ToolOf(kind) !in registry.tools then Err(ToolConfigurationMissing)
    else
      var tool := registry.tools[ToolOf(kind)];
      var useCommandFile :=
        if kind == Assemble then Some(false)
        else if kind in {Archive, ExtractSymbols, Strip} then None
        else Some(registry.canUseCommandFile);
      var setup := CompilerSetup(ToolOf(kind), env.locate(ToolOf(kind), Some(tool.executable)),
        Context(tool, env, developerDir), OutputExtension(kind), useCommandFile, None);
      if IsVersionAware(kind) then
        match VersionOf(registry, ToolOf(kind), env, compilerType)
        case Ok(version) => Ok(setup.(version := Some(version)))
        case Err(failure) => Err(CompilerUnavailable(failure))
      else Ok(setup)
  }

  /** Creating a compiler succeeds exactly when it is not an Objective-C
      one, its tool is registered, and, for a version-aware one, the tool
      is located and its metadata is available. */
  lemma CreateCompilerSucceedsIff(kind: CompilerKind, registry: Registry, env: Environment, developerDir: Option<string>, compilerType: string)
    ensures CreateCompiler(kind, registry, env, developerDir, compilerType).Ok? <==>
      && !IsObjectiveC(kind)
      && ToolOf(kind) in registry.tools
      && (IsVersionAware(kind) ==>
            GetGccMetadata(registry, ToolOf(kind), env).Ok? && GetGccMetadata(registry, ToolOf(kind), env).value.MetadataFound?)
  {
  }

  /** Every Objective-C compiler is refused, whatever is registered. */
  lemma ObjectiveCIsUnsupported(kind: CompilerKind, registry: Registry, env: Environment, developerDir: Option<string>, compilerType: string)
    requires IsObjectiveC(kind)
    ensures CreateCompiler(kind, registry, env, developerDir, compilerType) ==
      Err(UnsupportedCompiler(if kind in {ObjectiveCCompile, ObjectiveCPch} then ObjectiveCCompiler else ObjectiveCppCompiler))
  {
  }

  /** What a created compiler carries: its registered tool's search and
      context, object files for compilers and the assembler, ".h.gch" for
      precompiled headers, the registry's command-file flag except for the
      assembler (never) and the tools without the setting, and the probed
      version exactly for the version-aware compilers. */
  lemma CreatedCompilerSetup(kind: CompilerKind, registry: Registry, env: Environment, developerDir: Option<string>, compilerType: string)
    requires CreateCompiler(kind, registry, env, developerDir, compilerType).Ok?
    ensures var setup := CreateCompiler(kind, registry, env, developerDir, compilerType).value;
      var tool := registry.tools[ToolOf(kind)];
      && setup.toolType == ToolOf(kind)
      && setup.executable == LocateRegistered(registry, ToolOf(kind), env)
      && setup.context == Context(tool, env, developerDir)
      && (kind in {CCompile, CppCompile, Assemble} ==> setup.outputExtension == Some(".o"))
      && (kind in {CPch, CppPch} ==> setup.outputExtension == Some(".h.gch"))
      && (kind == Assemble ==> setup.useCommandFile == Some(false))
      && (kind in {CCompile, CppCompile, CPch, CppPch, Link} ==> setup.useCommandFile == Some(registry.canUseCommandFile))
      && (setup.version.Some? <==> IsVersionAware(kind))
      && (IsVersionAware(kind) ==> VersionOf(registry, ToolOf(kind), env, compilerType) == Ok(setup.version.value))
  {
  }
}
