/** The Android Clang tool chain's provider selection: a target platform
    name is decoded to an Android target, a provider is built once per
    target (configure the registry, then probe the first compiler that can
    be located) and remembered, and a provider is handed out for a source
    language only when a suitable compiler is found on the search path. */
module ToolChainSelection {
  import opened Wrappers
  import opened Strings
  import opened AndroidTarget
  import opened ToolRegistry

  const TypeName: string := "Android Clang"

  /** The source languages a tool chain is asked about: the two the
      selector knows, and every other one by name. */
  datatype NativeLanguage = AnyLanguage | CppLanguage | OtherLanguage(name: string)

  /** The target platform as the build describes it. */
  datatype TargetPlatform = TargetPlatform(architectureName: string, displayName: string)

  /** Why a tool or a tool chain is not usable. */
  datatype Failure =
    | ToolNotLocated(toolType: ToolType, message: string)
    | MetadataUnavailable(explanation: string)
    | UnsupportedTarget(message: string)

  /** What a search for a tool on the search path reports. */
  datatype ToolSearch = Located(tool: string) | NotLocated(failure: Failure)

  /** The include directories, library directories and predefined macros
      a compiler reports. */
  datatype SystemLibraries = SystemLibraries(includeDirs: seq<string>, libDirs: seq<string>, macros: map<string, string>)

  const EmptySystemLibraries: SystemLibraries := SystemLibraries([], [], map[])

  /** What probing a compiler reports: its vendor, version and system
      libraries, or why not. */
  datatype GccMetadata =
    | MetadataFound(vendor: string, version: string, systemLibraries: SystemLibraries)
    | MetadataMissing(explanation: string)

  /** A registry as configuration leaves it: the tools by type, the
      compilers it reports (in the order it reports them), the probe
      arguments and the command-file flag. */
  datatype Registry = Registry(
    tools: map<ToolType, ToolConfig>,
    compilers: seq<ToolConfig>,
    compilerProbeArgs: seq<string>,
    canUseCommandFile: bool)

  /** The three kinds of platform tool provider. */
  datatype ToolProvider =
    | Unsupported(message: string)
    | Unavailable(failure: Failure)
    | Android(info: AndroidInfo, registry: Registry)

  /** What the tool chain cannot compute itself: the fixed search path,
      the configuration of a fresh registry for a target (the NDK
      configuration followed by the user's configure actions; an exception
      becomes `Err`), the search for an executable of a tool type, and the
      compiler probe for an executable with arguments. `locateUntyped` is
      the search made with neither a tool type nor an executable. */
  datatype Environment = Environment(
    searchPath: seq<string>,
    configure: AndroidInfo -> Result<Registry, string>,
    locate: (ToolType, Option<string>) -> ToolSearch,
    locateUntyped: ToolSearch,
    probe: (string, seq<string>) -> GccMetadata)

  /** The two memo tables: providers per target (one tool chain) and
      probe results per search path (shared by the whole process). */
  datatype Caches = Caches(providers: map<AndroidInfo, ToolProvider>, compilerData: map<string, GccMetadata>)

  datatype Lookup = Lookup(provider: ToolProvider, caches: Caches)

  function UnknownPlatformMessage(displayName: string): string {
    "Don't know how to build for " + displayName + "."
  }

  function UnknownLanguageMessage(name: string): string {
    "Don't know how to compile language " + name + "."
  }

  // ---------------------------------------------------------------------
  // select
  // ---------------------------------------------------------------------

  /** The search for the executable registered for a tool type; with none
      registered, the search is made without an executable. */
  function LocateRegistered(registry: Registry, toolType: ToolType, env: Environment): (r: ToolSearch)
    ensures toolType in registry.tools ==> r == env.locate(toolType, Some(registry.tools[toolType].executable))
    ensures toolType !in registry.tools ==> r == env.locate(toolType, None)
  {
    env.locate(toolType, if toolType in registry.tools then Some(registry.tools[toolType].executable) else None)
  }

  /** `locateTool` of each provider kind: an Android provider searches for
      its registered executable, an unavailable one reports its own
      failure. */
  function LocateTool(provider: ToolProvider, toolType: ToolType, env: Environment): (r: ToolSearch)
    ensures provider.Unavailable? ==> r == NotLocated(provider.failure)
    ensures provider.Android? ==> r == LocateRegistered(provider.registry, toolType, env)
  {
    match provider
    case Unsupported(message) => NotLocated(UnsupportedTarget(message))
    case Unavailable(failure) => NotLocated(failure)
    case Android(_, registry) => LocateRegistered(registry, toolType, env)
  }

  predicate Finds(provider: ToolProvider, toolType: ToolType, env: Environment) {
    LocateTool(provider, toolType, env).Located?
  }

  /** Some compiler of the four the "any language" rule tries is found. */
  predicate AnyCompilerFound(provider: ToolProvider, env: Environment) {
    || Finds(provider, CCompiler, env)
    || Finds(provider, CppCompiler, env)
    || Finds(provider, ObjectiveCCompiler, env)
    || Finds(provider, ObjectiveCppCompiler, env)
  }

  /** The decision `select` makes once it has the platform's provider. */
  function SelectFrom(language: NativeLanguage, provider: ToolProvider, env: Environment): (r: ToolProvider)
    ensures language.OtherLanguage? ==> r == Unsupported(UnknownLanguageMessage(language.name))
    ensures !language.OtherLanguage? && provider.Unsupported? ==> r == provider
    ensures language.CppLanguage? && provider.Android? ==>
      (r.Android? <==> Finds(provider, CppCompiler, env))
    ensures language.CppLanguage? && provider.Android? && !Finds(provider, CppCompiler, env) ==>
      r == Unavailable(LocateTool(provider, CppCompiler, env).failure)
    ensures language.AnyLanguage? && provider.Android? ==>
      (r.Android? <==> AnyCompilerFound(provider, env))
    ensures language.AnyLanguage? && provider.Android? && !AnyCompilerFound(provider, env) ==>
      r == Unavailable(LocateTool(provider, CCompiler, env).failure)
    ensures r.Android? ==> r == provider
  {
    match language
    case CppLanguage =>
      if provider.Unsupported? then provider
      else
        var cppCompiler := LocateTool(provider, CppCompiler, env);
        if cppCompiler.Located? then provider else Unavailable(cppCompiler.failure)
    case AnyLanguage =>
      if provider.Unsupported? then provider
      else
        var cCompiler := LocateTool(provider, CCompiler, env);
        if cCompiler.Located? then provider
        else if LocateTool(provider, CppCompiler, env).Located? then provider
        else if LocateTool(provider, ObjectiveCCompiler, env).Located? then provider
        else if LocateTool(provider, ObjectiveCppCompiler, env).Located? then provider
        else Unavailable(cCompiler.failure)
    case OtherLanguage(name) => Unsupported(UnknownLanguageMessage(name))
  }

  /** An unavailable provider stays unavailable, with its own failure, for
      both languages the selector knows. */
  lemma SelectKeepsUnavailable(language: NativeLanguage, failure: Failure, env: Environment)
    requires !language.OtherLanguage?
    ensures SelectFrom(language, Unavailable(failure), env) == Unavailable(failure)
  {
  }

  // ---------------------------------------------------------------------
  // initTools and createPlatformToolProvider
  // ---------------------------------------------------------------------

  /** `toolSearchPath.path.joinToString { it.path }`: the only part of the
      probe's key. */
  function PathKey(searchPath: seq<string>): string {
    Join(searchPath, ", ")
  }

  predicate Locates(env: Environment, tool: ToolConfig) {
    env.locate(tool.toolType, Some(tool.executable)).Located?
  }

  /** The index of the first compiler found on the search path, or the
      length of the list when none is. */
  function FirstLocated(compilers: seq<ToolConfig>, env: Environment): (r: nat)
    ensures r <= |compilers|
    ensures forall j :: 0 <= j < r ==> !Locates(env, compilers[j])
    ensures r < |compilers| ==> Locates(env, compilers[r])
  {
    if |compilers| == 0 then 0
    else if Locates(env, compilers[0]) then 0
    else 1 + FirstLocated(compilers[1..], env)
  }

  /** What `initTools` leaves behind: `Some(explanation)` when the tool
      chain was found unavailable, and the probe cache. Only the first
      compiler found is looked at; its metadata is taken from the cache
      under the search path's key, or probed and stored. */
  function InitToolsOutcome(registry: Registry, compilerData: map<string, GccMetadata>, env: Environment)
    : (r: (Option<string>, map<string, GccMetadata>))
  {
    var i := FirstLocated(registry.compilers, env);
    if i == |registry.compilers| then (None, compilerData)
    else
      var tool := registry.compilers[i];
      var key := PathKey(env.searchPath);
      var metadata :=
        if key in compilerData then compilerData[key]
        else env.probe(env.locate(tool.toolType, Some(tool.executable)).tool, registry.compilerProbeArgs);
      (if metadata.MetadataFound? then None else Some(metadata.explanation),
       if key in compilerData then compilerData else compilerData[key := metadata])
  }

  /** With no compiler on the search path nothing is probed and the tool
      chain counts as available. */
  lemma InitToolsWithoutCompiler(registry: Registry, compilerData: map<string, GccMetadata>, env: Environment)
    requires forall tool :: tool in registry.compilers ==> !Locates(env, tool)
    ensures InitToolsOutcome(registry, compilerData, env) == (None, compilerData)
  {
  }

  /** The probe cache only ever gains the search path's entry; every other
      entry, and an existing one for that key, is kept. */
  lemma InitToolsKeepsEntries(registry: Registry, compilerData: map<string, GccMetadata>, env: Environment)
    ensures var after := InitToolsOutcome(registry, compilerData, env).1;
      && after.Keys <= compilerData.Keys + {PathKey(env.searchPath)}
      && forall k :: k in compilerData ==> k in after && after[k] == compilerData[k]
  {
  }

  /** The cache is keyed by the search path alone: once an entry exists,
      every registry with a compiler on that path gets its verdict,
      whatever executable or probe arguments it has, and nothing is
      probed. */
  lemma InitToolsKeyedByPathOnly(registry: Registry, compilerData: map<string, GccMetadata>, env: Environment)
    requires PathKey(env.searchPath) in compilerData
    requires exists tool :: tool in registry.compilers && Locates(env, tool)
    ensures var cached := compilerData[PathKey(env.searchPath)];
      InitToolsOutcome(registry, compilerData, env) ==
        (if cached.MetadataFound? then None else Some(cached.explanation), compilerData)
  {
  }

  /** `createPlatformToolProvider`: configure a fresh registry, run
      `initTools`, and hand out an Android provider unless the tool chain
      was found unavailable. */
  function CreateOutcome(info: AndroidInfo, compilerData: map<string, GccMetadata>, env: Environment)
    : (r: Result<(ToolProvider, map<string, GccMetadata>), string>)
    ensures env.configure(info).Err? ==> r == Err(env.configure(info).error)
    ensures r.Ok? ==> r.value.0.Android? || r.value.0.Unavailable?
    ensures r.Ok? && r.value.0.Android? ==> r.value.0 == Android(info, env.configure(info).value)
  {
    var registry :- env.configure(info);
    var (unavailable, data) := InitToolsOutcome(registry, compilerData, env);
    Ok((if unavailable.Some? then Unavailable(MetadataUnavailable(unavailable.value)) else Android(info, registry), data))
  }

  /** A provider is unavailable exactly when the first compiler found on
      the search path has (cached or freshly probed) metadata that is
      unavailable. */
  lemma CreateOutcomeUnavailableIff(info: AndroidInfo, compilerData: map<string, GccMetadata>, env: Environment)
    requires env.configure(info).Ok?
    ensures var registry := env.configure(info).value;
      var r := CreateOutcome(info, compilerData, env);
      var i := FirstLocated(registry.compilers, env);
      r.Ok? && (r.value.0.Unavailable? <==>
        && i < |registry.compilers|
        && (var key := PathKey(env.searchPath);
            var tool := registry.compilers[i];
            (if key in compilerData then compilerData[key]
             else env.probe(env.locate(tool.toolType, Some(tool.executable)).tool, registry.compilerProbeArgs)).MetadataMissing?))
  {
  }

  // ---------------------------------------------------------------------
  // getProviderForPlatform
  // ---------------------------------------------------------------------

  /** `getProviderForPlatform`: a name that does not decode gives an
      unsupported provider and changes nothing; a known target gives its
      remembered provider; a new one is created and remembered (unless its
      configuration throws). */
  function ProviderLookup(caches: Caches, platform: TargetPlatform, env: Environment): (r: Result<Lookup, string>)
    ensures DecodePlatformName(platform.architectureName).None? ==>
      r == Ok(Lookup(Unsupported(UnknownPlatformMessage(platform.displayName)), caches))
    ensures r.Ok? && r.value.provider.Unsupported? ==> r.value.caches == caches
  {
    match DecodePlatformName(platform.architectureName)
    case None => Ok(Lookup(Unsupported(UnknownPlatformMessage(platform.displayName)), caches))
    case Some(info) =>
      if info in caches.providers then Ok(Lookup(caches.providers[info], caches))
      else
        var (provider, data) :- CreateOutcome(info, caches.compilerData, env);
        Ok(Lookup(provider, Caches(caches.providers[info := provider], data)))
  }

  /** A repeated request for the same platform returns the same provider
      and changes nothing, even if configuring or probing would now give a
      different answer. */
  lemma ProviderLookupIsMemoised(caches: Caches, platform: TargetPlatform, env: Environment, laterEnv: Environment)
    requires ProviderLookup(caches, platform, env).Ok?
    ensures var first := ProviderLookup(caches, platform, env).value;
      ProviderLookup(first.caches, platform, laterEnv) == Ok(first)
  {
  }

  /** Only the decoded target gains a provider; others keep theirs, and a
      failing configuration caches nothing. */
  lemma ProviderLookupTouchesOneTarget(caches: Caches, platform: TargetPlatform, env: Environment)
    requires ProviderLookup(caches, platform, env).Ok?
    ensures var after := ProviderLookup(caches, platform, env).value.caches.providers;
      forall info :: info in caches.providers ==> info in after && after[info] == caches.providers[info]
    ensures var after := ProviderLookup(caches, platform, env).value.caches.providers;
      forall info :: info in after && info !in caches.providers ==>
        DecodePlatformName(platform.architectureName) == Some(info)
  {
  }

  /** The whole of `select(language, platform)`: look the provider up (and
      remember it), then decide. */
  function SelectOutcome(caches: Caches, language: NativeLanguage, platform: TargetPlatform, env: Environment)
    : (r: Result<Lookup, string>)
  {
    var found :- ProviderLookup(caches, platform, env);
    Ok(Lookup(SelectFrom(language, found.provider, env), found.caches))
  }

  /** Asking about another language still creates and remembers the
      platform's provider, and the answer is unsupported. */
  lemma SelectOtherLanguage(caches: Caches, name: string, platform: TargetPlatform, env: Environment)
    requires ProviderLookup(caches, platform, env).Ok?
    ensures SelectOutcome(caches, OtherLanguage(name), platform, env) ==
      Ok(Lookup(Unsupported(UnknownLanguageMessage(name)), ProviderLookup(caches, platform, env).value.caches))
  {
  }

  /** A platform name that does not decode is unsupported for every
      language and is not remembered. */
  lemma SelectUnknownPlatform(caches: Caches, language: NativeLanguage, platform: TargetPlatform, env: Environment)
    requires DecodePlatformName(platform.architectureName).None?
    ensures SelectOutcome(caches, language, platform, env).Ok?
    ensures SelectOutcome(caches, language, platform, env).value.caches == caches
    ensures SelectOutcome(caches, language, platform, env).value.provider.Unsupported?
  {
  }

  // ---------------------------------------------------------------------
  // The stateful tool chain
  // ---------------------------------------------------------------------

  /** The probe results shared by every tool chain of the process. */
  class CompilerDataStore {
    var entries: map<string, GccMetadata>

    constructor()
      ensures entries == map[]
    {
      entries := map[];
    }
  }

  class AndroidClangToolChain {
    var providers: map<AndroidInfo, ToolProvider>
    const compilerData: CompilerDataStore
    const env: Environment

    constructor(compilerData: CompilerDataStore, env: Environment)
      ensures providers == map[]
      ensures this.compilerData == compilerData && this.env == env
    {
      providers := map[];
      this.compilerData := compilerData;
      this.env := env;
    }

    function State(): Caches
      reads this, compilerData
    {
      Caches(providers, compilerData.entries)
    }

    function GetTypeName(): (r: string)
      ensures r == TypeName
    {
      TypeName
    }

    /** `initTools`: walks the compilers, probes (through the shared
        cache) the first one found, records whether it is unavailable and
        stops. */
    method InitTools(registry: Registry) returns (unavailable: Option<string>)
      modifies compilerData
      ensures (unavailable, compilerData.entries) == InitToolsOutcome(registry, old(compilerData.entries), env)
    {
      unavailable := None;
      var k := 0;
      while k < |registry.compilers|
        invariant 0 <= k <= |registry.compilers|
        invariant forall j :: 0 <= j < k ==> !Locates(env, registry.compilers[j])
        invariant compilerData.entries == old(compilerData.entries)
      {
        var tool := registry.compilers[k];
        var compiler := env.locate(tool.toolType, Some(tool.executable));
        if compiler.Located? {
          var key := PathKey(env.searchPath);
          var metadata;
          if key in compilerData.entries {
            metadata := compilerData.entries[key];
          } else {
            metadata := env.probe(compiler.tool, registry.compilerProbeArgs);
            compilerData.entries := compilerData.entries[key := metadata];
          }
          assert FirstLocated(registry.compilers, env) == k;
          if metadata.MetadataMissing? {
            unavailable := Some(metadata.explanation);
            return;
          }
          break;
        }
        k := k + 1;
      }
    }

    method CreatePlatformToolProvider(info: AndroidInfo) returns (r: Result<ToolProvider, string>)
      modifies compilerData
      ensures var expected := CreateOutcome(info, old(compilerData.entries), env);
        && (expected.Err? ==> r == Err(expected.error) && compilerData.entries == old(compilerData.entries))
        && (expected.Ok? ==> r == Ok(expected.value.0) && compilerData.entries == expected.value.1)
    {
      var configured := env.configure(info);
      if configured.Err? {
        return Err(configured.error);
      }
      var registry := configured.value;
      var unavailable := InitTools(registry);
      if unavailable.Some? {
        return Ok(Unavailable(MetadataUnavailable(unavailable.value)));
      }
      return Ok(Android(info, registry));
    }

    method GetProviderForPlatform(platform: TargetPlatform) returns (r: Result<ToolProvider, string>)
      modifies this, compilerData
      ensures var expected := ProviderLookup(old(State()), platform, env);
        && (expected.Err? ==> r == Err(expected.error) && State() == old(State()))
        && (expected.Ok? ==> r == Ok(expected.value.provider) && State() == expected.value.caches)
    {
      var decoded := DecodePlatformName(platform.architectureName);
      if decoded.None? {
        return Ok(Unsupported(UnknownPlatformMessage(platform.displayName)));
      }
      var info := decoded.value;
      if info in providers {
        return Ok(providers[info]);
      }
      r := CreatePlatformToolProvider(info);
      if r.Ok? {
        providers := providers[info := r.value];
      }
    }

    /** `select(sourceLanguage, targetMachine)`. */
    method Select(language: NativeLanguage, platform: TargetPlatform) returns (r: Result<ToolProvider, string>)
      modifies this, compilerData
      ensures var expected := SelectOutcome(old(State()), language, platform, env);
        && (expected.Err? ==> r == Err(expected.error) && State() == old(State()))
        && (expected.Ok? ==> r == Ok(expected.value.provider) && State() == expected.value.caches)
    {
      var toolProvider := GetProviderForPlatform(platform);
      if toolProvider.Err? {
        return toolProvider;
      }
      var provider := toolProvider.value;
      match language {
        case CppLanguage =>
          if provider.Unsupported? {
            return Ok(provider);
          }
          var cppCompiler := LocateTool(provider, CppCompiler, env);
          if cppCompiler.Located? {
            return Ok(provider);
          }
          return Ok(Unavailable(cppCompiler.failure));
        case AnyLanguage =>
          if provider.Unsupported? {
            return Ok(provider);
          }
          var cCompiler := LocateTool(provider, CCompiler, env);
          if cCompiler.Located? {
            return Ok(provider);
          }
          var compiler := LocateTool(provider, CppCompiler, env);
          if compiler.Located? {
            return Ok(provider);
          }
          compiler := LocateTool(provider, ObjectiveCCompiler, env);
          if compiler.Located? {
            return Ok(provider);
          }
          compiler := LocateTool(provider, ObjectiveCppCompiler, env);
          if compiler.Located? {
            return Ok(provider);
          }
          return Ok(Unavailable(cCompiler.failure));
        case OtherLanguage(name) =>
          return Ok(Unsupported(UnknownLanguageMessage(name)));
      }
    }

    /** `select(targetPlatform)` is `select` for any language. */
    method SelectForAnyLanguage(platform: TargetPlatform) returns (r: Result<ToolProvider, string>)
      modifies this, compilerData
      ensures var expected := SelectOutcome(old(State()), AnyLanguage, platform, env);
        && (expected.Err? ==> r == Err(expected.error) && State() == old(State()))
        && (expected.Ok? ==> r == Ok(expected.value.provider) && State() == expected.value.caches)
    {
      r := Select(AnyLanguage, platform);
    }
  }
}
