/** The second revision of the resolver: the `configure` extension on
    Gradle's GCC platform tool chain. It reads the same NDK files as the first
    revision but only records the platform bounds on the target, does not
    clamp the API level, accepts any STL name and registers a different set of
    flags. */
module ToolChainExtensions {
  import opened Wrappers
  import opened Strings
  import opened Paths
  import opened ToolRegistry
  import Ndk = NdkToolchainConfig

  /** The API bounds the extension overwrites on the target description. */
  class ApiBounds {
    var minApi: int
    var maxApi: int

    constructor(minApi: int, maxApi: int)
      ensures this.minApi == minApi && this.maxApi == maxApi
    {
      this.minApi := minApi;
      this.maxApi := maxApi;
    }
  }

  /** `platformsMap[key]?.toInt(radix = 10)`: nothing when the key is absent,
      the number when its value parses, an error otherwise. */
  function LevelOverride(platforms: map<string, string>, key: string): (r: Result<Option<int>, Ndk.ConfigError>)
    ensures key !in platforms ==> r == Ok(None)
    ensures key in platforms ==> (r.Ok? <==> ParseInt(platforms[key]).Some?)
    ensures r.Ok? && r.value.Some? ==> key in platforms && r.value.value == ParseInt(platforms[key]).value
    ensures r.Err? ==> key in platforms && r.error == Ndk.PlatformLevelNotANumber(key, platforms[key])
  {
    if key !in platforms then Ok(None)
    else match ParseInt(platforms[key])
      case None => Err(Ndk.PlatformLevelNotANumber(key, platforms[key]))
      case Some(n) => Ok(Some(n))
  }

  /** What the checks of the extension settle on: the NDK root, the bounds
      found in `platforms.cmake`, the host tag, the C++ features and the ARM
      flags. */
  datatype Settings = Settings(ndk: string, minApi: Option<int>, maxApi: Option<int>,
                               hostTag: string, features: seq<string>, armFlags: seq<string>)

  /** The checks of the extension, in the order it makes them. */
  function Settle(input: Ndk.ConfigInput): (r: Result<Settings, Ndk.ConfigError>)
    ensures r.Ok? ==> Some(r.value.ndk) == input.ndkDir
  {
    if input.ndkDir.None? then Err(Ndk.NdkNotFound)
    else
      :- Ndk.ValidateSourceProperties(input.files.description, input.files.revision);
      var platforms :- Ndk.ReadPlatformsFile(input.files.platforms);
      var minApi :- LevelOverride(platforms, Ndk.MinLevelKey);
      var maxApi :- LevelOverride(platforms, Ndk.MaxLevelKey);
      SettleOptions(Settings(input.ndkDir.value, minApi, maxApi, "", [], []), input)
  }

  /** The checks after the bounds: the host, the C++ features, the ARM mode. */
  function SettleOptions(partial: Settings, input: Ndk.ConfigInput): (r: Result<Settings, Ndk.ConfigError>)
    ensures r.Ok? ==> r.value.ndk == partial.ndk && r.value.minApi == partial.minApi && r.value.maxApi == partial.maxApi
  {
    var hostTag :- Ndk.HostTag(input.host);
    var features := Ndk.SelectCppFeatures(input.options);
    :- Ndk.CheckCppFeatures(features);
    var armFlags :- Ndk.ArmFlags(input.target.arch, Ndk.ArmMode(input.options.armMode), input.options.isNeon);
    Ok(partial.(hostTag := hostTag, features := features, armFlags := armFlags))
  }

  /** The bounds once the extension has run, whether or not it goes on to
      throw: each is overwritten only when its key is present, and the
      minimum is stored before the maximum is read. */
  function BoundsAfter(minApi: int, maxApi: int, input: Ndk.ConfigInput): (int, int) {
    if input.ndkDir.None?
       || Ndk.ValidateSourceProperties(input.files.description, input.files.revision).Fail?
       || Ndk.ReadPlatformsFile(input.files.platforms).Err?
    then (minApi, maxApi)
    else
      var platforms := Ndk.ReadPlatformsFile(input.files.platforms).value;
      match LevelOverride(platforms, Ndk.MinLevelKey)
      case Err(_) => (minApi, maxApi)
      case Ok(min) =>
        var newMin := min.GetOr(minApi);
        match LevelOverride(platforms, Ndk.MaxLevelKey)
        case Err(_) => (newMin, maxApi)
        case Ok(max) => (newMin, max.GetOr(maxApi))
  }

  /** A bound changes only when `platforms.cmake` was read and names it, and
      then it takes the value written there. */
  lemma BoundsOverwrittenOnlyWhenPresent(minApi: int, maxApi: int, input: Ndk.ConfigInput)
    ensures var after := BoundsAfter(minApi, maxApi, input);
      var read := Ndk.ReadPlatformsFile(input.files.platforms);
      && (after.0 != minApi ==>
            read.Ok? && Ndk.MinLevelKey in read.value && Some(after.0) == ParseInt(read.value[Ndk.MinLevelKey]))
      && (after.1 != maxApi ==>
            read.Ok? && Ndk.MaxLevelKey in read.value && Some(after.1) == ParseInt(read.value[Ndk.MaxLevelKey]))
  {
  }

  /** When the extension succeeds, the bounds it leaves are the ones it
      settled on, or the old ones for a key that is absent. */
  lemma BoundsOfSuccess(minApi: int, maxApi: int, input: Ndk.ConfigInput)
    requires Settle(input).Ok?
    ensures BoundsAfter(minApi, maxApi, input)
      == (Settle(input).value.minApi.GetOr(minApi), Settle(input).value.maxApi.GetOr(maxApi))
  {
  }

  // ---------------------------------------------------------------------
  // Flags and plan
  // ---------------------------------------------------------------------

  /** "-f<feature>" for each feature, then "-fPIE". */
  function CxxFlags(features: seq<string>): seq<string> {
    Ndk.FeatureFlags(features) + ["-fPIE"]
  }

  function LinkerFlags(stl: string, arch: string): seq<string> {
    ["-Wl,--exclude-libs,libgcc.a", "-Wl,--exclude-libs,libatomic.a",
     "-Wl,--build-id", "-Wl,--warn-shared-textrel", "-Wl,--fatal-warnings", "-l" + stl]
    + (if stl == "c++_static" then ["-static-libstdc++"] else [])
    + (if Ndk.ExcludesLibunwind(stl, arch) then ["-Wl,--exclude-libs,libunwind.a"] else [])
    + ["-fPIE", "-pie", "-Qunused-arguments", "-Wl,-z,noexecstack"]
  }

  /** The tail every compiling and linking tool ends with. */
  function AdditionalFlags(llvmTriple: string, sysroot: string): seq<string> {
    ["--target=" + llvmTriple, "-isysroot", sysroot]
  }

  /** The one library directory, for the requested (unclamped) api. */
  function LibraryPath(sysroot: string, toolchainName: string, api: int): seq<string> {
    [PathJoin(sysroot, "usr/lib/" + toolchainName + "/" + IntToString(api))]
  }

  /** The seven tools in registration order. */
  function Plan(root: string, toolchainName: string, suffix: string,
                compilerFlags: seq<string>, cxxFlags: seq<string>, linkerFlags: seq<string>,
                libraryFlags: seq<string>, additional: seq<string>): (r: seq<ToolConfig>)
    ensures |r| == 7
  {
    var cc := PathJoin(root, "bin/clang" + suffix);
    var cxx := PathJoin(root, "bin/clang++" + suffix);
    var prefix := "bin/" + toolchainName + "-";
    [ToolConfig(CCompiler, cc, compilerFlags + additional),
     ToolConfig(CppCompiler, cxx, compilerFlags + cxxFlags + additional),
     ToolConfig(Linker, cxx, linkerFlags + ["-Wl,--gc-sections"] + ["-v"] + libraryFlags + additional),
     ToolConfig(StaticLibArchiver, PathJoin(root, prefix + "ar" + suffix), []),
     ToolConfig(Assembler, cc, compilerFlags + additional),
     ToolConfig(SymbolExtractor, PathJoin(root, prefix + "objcopy" + suffix), []),
     ToolConfig(Stripper, PathJoin(root, prefix + "strip" + suffix), [])]
  }

  /** The seven tools the extension registers once its checks have passed. */
  function PlanFor(input: Ndk.ConfigInput, st: Settings): (r: seq<ToolConfig>)
    ensures |r| == 7
  {
    var target := input.target;
    var root := Ndk.ToolchainRoot(st.ndk, st.hostTag);
    var sysroot := Ndk.Sysroot(root);
    Plan(root, target.toolchainName, Ndk.ExeSuffix(input.host),
         Ndk.CompilerFlags(target.arch, target.api, st.armFlags, input.options.disableFormatStringChecks),
         CxxFlags(st.features),
         LinkerFlags(input.options.stl, target.arch),
         Ndk.PairFlags("-L", LibraryPath(sysroot, target.toolchainName, target.api)),
         AdditionalFlags(target.llvmTriple, sysroot))
  }

  /** What the extension registers for an input, or the exception it throws. */
  function Resolve(input: Ndk.ConfigInput): (r: Result<seq<ToolConfig>, Ndk.ConfigError>)
    ensures r.Ok? ==> |r.value| == 7
  {
    var st :- Settle(input);
    Ok(PlanFor(input, st))
  }

  // ---------------------------------------------------------------------
  // Properties
  // ---------------------------------------------------------------------

  /** The extension fails exactly when one of its checks fails. No STL name
      is refused, the level is never compared with the bounds, and the
      normalised ARM mode never fails. */
  lemma ResolveSucceeds(input: Ndk.ConfigInput)
    ensures Resolve(input).Ok? <==>
      && input.ndkDir.Some?
      && Ndk.ValidateSourceProperties(input.files.description, input.files.revision).Pass?
      && Ndk.ReadPlatformsFile(input.files.platforms).Ok?
      && LevelOverride(Ndk.ReadPlatformsFile(input.files.platforms).value, Ndk.MinLevelKey).Ok?
      && LevelOverride(Ndk.ReadPlatformsFile(input.files.platforms).value, Ndk.MaxLevelKey).Ok?
      && Ndk.HostTag(input.host).Ok?
      && Ndk.CheckCppFeatures(Ndk.SelectCppFeatures(input.options)).Pass?
  {
    Ndk.ArmFlagsNeverFail(input.target.arch, input.options.armMode, input.options.isNeon);
  }

  /** The values settled on are the ones the individual checks produce. */
  lemma SettledValues(input: Ndk.ConfigInput)
    requires Settle(input).Ok?
    ensures var st := Settle(input).value;
      && Ndk.HostTag(input.host) == Ok(st.hostTag)
      && st.features == Ndk.SelectCppFeatures(input.options)
      && Ndk.ArmFlags(input.target.arch, Ndk.ArmMode(input.options.armMode), input.options.isNeon) == Ok(st.armFlags)
  {
    var platforms := Ndk.ReadPlatformsFile(input.files.platforms).value;
    var partial := Settings(input.ndkDir.value, LevelOverride(platforms, Ndk.MinLevelKey).value,
                            LevelOverride(platforms, Ndk.MaxLevelKey).value, "", [], []);
    assert Settle(input) == SettleOptions(partial, input);
  }

  /** "-l<stl>" is always linked, "-static-libstdc++" exactly for
      "c++_static", and "-fPIE", "-pie" unconditionally. */
  lemma LinkerFlagsStl(stl: string, arch: string)
    ensures var r := LinkerFlags(stl, arch);
      && "-l" + stl in r
      && ("-static-libstdc++" in r <==> stl == "c++_static")
      && "-fPIE" in r && "-pie" in r
  {
    var r := LinkerFlags(stl, arch);
    var fixed := ["-Wl,--exclude-libs,libgcc.a", "-Wl,--exclude-libs,libatomic.a",
                  "-Wl,--build-id", "-Wl,--warn-shared-textrel", "-Wl,--fatal-warnings"];
    var staticLib: seq<string> := if stl == "c++_static" then ["-static-libstdc++"] else [];
    var unwind: seq<string> := if Ndk.ExcludesLibunwind(stl, arch) then ["-Wl,--exclude-libs,libunwind.a"] else [];
    var last := ["-fPIE", "-pie", "-Qunused-arguments", "-Wl,-z,noexecstack"];
    assert r == fixed + ["-l" + stl] + staticLib + unwind + last;
    assert r[5] == "-l" + stl;
    assert r[|r| - 4] == "-fPIE" && r[|r| - 3] == "-pie";
    if stl != "c++_static" {
      assert ("-l" + stl)[1] == 'l';
      assert "-static-libstdc++"[1] == 's';
      assert "-static-libstdc++" !in fixed + ["-l" + stl];
      assert "-static-libstdc++" !in unwind + last;
    }
  }

  /** The C++ flags are "-f<feature>" for each feature in order, then
      "-fPIE"; no "-stdlib" flag is added. */
  lemma CxxFlagsOrder(features: seq<string>)
    ensures var r := CxxFlags(features);
      && |r| == |features| + 1
      && (forall i :: 0 <= i < |features| ==> r[i] == "-f" + features[i])
      && r[|features|] == "-fPIE"
  {
  }

  /** The plan registers the seven tools in source order: the assembler runs
      clang with exactly the C compiler's arguments, the linker is clang++
      and is the only tool given the library directory, every compiling and
      linking tool ends with the same tail, and the binutils get no
      arguments. */
  lemma PlanLayout(root: string, toolchainName: string, suffix: string,
                   compilerFlags: seq<string>, cxxFlags: seq<string>, linkerFlags: seq<string>,
                   library: string, additional: seq<string>)
    ensures var p := Plan(root, toolchainName, suffix, compilerFlags, cxxFlags, linkerFlags,
                          Ndk.PairFlags("-L", [library]), additional);
      [p[0].toolType, p[1].toolType, p[2].toolType, p[3].toolType, p[4].toolType, p[5].toolType, p[6].toolType]
      == [CCompiler, CppCompiler, Linker, StaticLibArchiver, Assembler, SymbolExtractor, Stripper]
    ensures var p := Plan(root, toolchainName, suffix, compilerFlags, cxxFlags, linkerFlags,
                          Ndk.PairFlags("-L", [library]), additional);
      && p[4] == p[0].(toolType := Assembler)
      && p[2].executable == p[1].executable && EndsWith(p[1].executable, "bin/clang++" + suffix)
    ensures var p := Plan(root, toolchainName, suffix, compilerFlags, cxxFlags, linkerFlags,
                          Ndk.PairFlags("-L", [library]), additional);
      && p[0].args == compilerFlags + additional
      && p[1].args == compilerFlags + cxxFlags + additional
      && p[3].args == [] && p[5].args == [] && p[6].args == []
    ensures var p := Plan(root, toolchainName, suffix, compilerFlags, cxxFlags, linkerFlags,
                          Ndk.PairFlags("-L", [library]), additional);
      p[2].args == linkerFlags + ["-Wl,--gc-sections", "-v", "-L", library] + additional
  {
    var libraryFlags := Ndk.PairFlags("-L", [library]);
    assert libraryFlags == ["-L", library];
    var p := Plan(root, toolchainName, suffix, compilerFlags, cxxFlags, linkerFlags, libraryFlags, additional);
    var cc := PathJoin(root, "bin/clang" + suffix);
    assert p[0] == ToolConfig(CCompiler, cc, compilerFlags + additional);
    assert p[4] == ToolConfig(Assembler, cc, compilerFlags + additional);
    assert p[2].args == linkerFlags + ["-Wl,--gc-sections"] + ["-v"] + libraryFlags + additional;
    assert linkerFlags + ["-Wl,--gc-sections"] + ["-v"] + libraryFlags
      == linkerFlags + ["-Wl,--gc-sections", "-v", "-L", library];
  }

  /** The library directory and the tail are built from the requested api
      and the target triple alone: no level is appended to the triple and no
      include directory is added. */
  lemma PlanForArguments(input: Ndk.ConfigInput, st: Settings)
    ensures var root := Ndk.ToolchainRoot(st.ndk, st.hostTag);
      var sysroot := Ndk.Sysroot(root);
      var target := input.target;
      PlanFor(input, st)
      == Plan(root, target.toolchainName, Ndk.ExeSuffix(input.host),
              Ndk.CompilerFlags(target.arch, target.api, st.armFlags, input.options.disableFormatStringChecks),
              CxxFlags(st.features), LinkerFlags(input.options.stl, target.arch),
              Ndk.PairFlags("-L", [PathJoin(sysroot, "usr/lib/" + target.toolchainName + "/" + IntToString(target.api))]),
              ["--target=" + target.llvmTriple, "-isysroot", sysroot])
  {
  }

  // ---------------------------------------------------------------------
  // The extension as it runs
  // ---------------------------------------------------------------------

  /** The checks as the extension makes them, storing each bound on the
      target as soon as it is read. */
  method CheckConfiguration(input: Ndk.ConfigInput, bounds: ApiBounds) returns (r: Result<Settings, Ndk.ConfigError>)
    modifies bounds
    ensures r == Settle(input)
    ensures (bounds.minApi, bounds.maxApi) == BoundsAfter(old(bounds.minApi), old(bounds.maxApi), input)
  {
    if input.ndkDir.None? {
      return Err(Ndk.NdkNotFound);
    }
    var valid := Ndk.ValidateSourceProperties(input.files.description, input.files.revision);
    if valid.Fail? {
      return Err(valid.error);
    }
    var platforms := Ndk.ReadPlatformsFile(input.files.platforms);
    if platforms.Err? {
      return Err(platforms.error);
    }
    var minApi := LevelOverride(platforms.value, Ndk.MinLevelKey);
    if minApi.Err? {
      return Err(minApi.error);
    }
    if minApi.value.Some? {
      bounds.minApi := minApi.value.value;
    }
    var maxApi := LevelOverride(platforms.value, Ndk.MaxLevelKey);
    if maxApi.Err? {
      return Err(maxApi.error);
    }
    if maxApi.value.Some? {
      bounds.maxApi := maxApi.value.value;
    }
    var partial := Settings(input.ndkDir.value, minApi.value, maxApi.value, "", [], []);
    assert Settle(input) == SettleOptions(partial, input);
    var armMode := if input.options.armMode == "arm" then "arm" else "thumb";
    var features := Ndk.SelectCppFeatures(input.options);
    var hostTag := Ndk.HostTag(input.host);
    if hostTag.Err? {
      return Err(hostTag.error);
    }
    var invalid := Ndk.InvalidFeatures(features);
    if |invalid| > 0 {
      return Err(Ndk.InvalidCppFeatures(invalid));
    }
    var armFlags := Ndk.ArmFlags(input.target.arch, armMode, input.options.isNeon);
    if armFlags.Err? {
      // The normalised mode is "arm" or "thumb", so the ARM-mode exception
      // cannot be thrown.
      assert false;
    }
    assert Ndk.ArmMode(input.options.armMode) == armMode;
    return Ok(partial.(hostTag := hostTag.value, features := features, armFlags := armFlags.value));
  }

  /** The C++ flag list, grown one feature at a time. */
  method BuildCxxFlags(features: seq<string>) returns (flags: seq<string>)
    ensures flags == CxxFlags(features)
  {
    flags := [];
    var i := 0;
    while i < |features|
      invariant 0 <= i <= |features|
      invariant flags == Ndk.FeatureFlags(features[..i])
    {
      flags := flags + ["-f" + features[i]];
      i := i + 1;
      assert features[..i][..i - 1] == features[..i - 1];
    }
    assert features[..i] == features;
    flags := flags + ["-fPIE"];
  }

  /** The linker flag list, grown one addition at a time. */
  method BuildLinkerFlags(stl: string, arch: string) returns (flags: seq<string>)
    ensures flags == LinkerFlags(stl, arch)
  {
    flags := [];
    flags := flags + ["-Wl,--exclude-libs,libgcc.a"];
    flags := flags + ["-Wl,--exclude-libs,libatomic.a"];
    flags := flags + ["-Wl,--build-id", "-Wl,--warn-shared-textrel", "-Wl,--fatal-warnings", "-l" + stl];
    ghost var head := flags;
    if stl == "c++_static" {
      flags := flags + ["-static-libstdc++"];
    }
    ghost var afterStatic := flags;
    if stl == "c++_" && arch == "armeabi" {
      flags := flags + ["-Wl,--exclude-libs,libunwind.a"];
    }
    ghost var afterUnwind := flags;
    flags := flags + ["-fPIE"];
    flags := flags + ["-pie"];
    flags := flags + ["-Qunused-arguments"];
    flags := flags + ["-Wl,-z,noexecstack"];
    assert flags == afterUnwind + ["-fPIE", "-pie", "-Qunused-arguments", "-Wl,-z,noexecstack"];
  }

  /** The plan as the extension assembles it from the settled values. */
  method BuildPlan(input: Ndk.ConfigInput, st: Settings) returns (plan: seq<ToolConfig>)
    requires Ndk.ArmFlags(input.target.arch, Ndk.ArmMode(input.options.armMode), input.options.isNeon) == Ok(st.armFlags)
    ensures plan == PlanFor(input, st)
  {
    var options := input.options;
    var target := input.target;
    var root := Ndk.ToolchainRoot(st.ndk, st.hostTag);
    var sysroot := Ndk.Sysroot(root);
    var armMode := if options.armMode == "arm" then "arm" else "thumb";
    assert Ndk.ArmMode(options.armMode) == armMode;
    var compilerFlags := Ndk.BuildCompilerFlags(target.arch, target.api, armMode, options.isNeon,
                                                options.disableFormatStringChecks);
    var cxxFlags := BuildCxxFlags(st.features);
    var linkerFlags := BuildLinkerFlags(options.stl, target.arch);
    var libraryPath := LibraryPath(sysroot, target.toolchainName, target.api);
    var libraryFlags := Ndk.AppendPairs([], "-L", libraryPath);
    assert libraryFlags == Ndk.PairFlags("-L", libraryPath);
    plan := Plan(root, target.toolchainName, Ndk.ExeSuffix(input.host), compilerFlags, cxxFlags, linkerFlags,
                 libraryFlags, AdditionalFlags(target.llvmTriple, sysroot));
  }

  /** The extension as it runs: the checks (recording the bounds on the
      target), the plan, and the seven tools added to the receiver one by one.
      Nothing is registered when a check fails. */
  method Configure(input: Ndk.ConfigInput, bounds: ApiBounds, toolChain: PlatformToolChain)
    returns (r: Outcome<Ndk.ConfigError>)
    requires toolChain.Valid()
    modifies bounds, toolChain
    ensures toolChain.Valid()
    ensures (bounds.minApi, bounds.maxApi) == BoundsAfter(old(bounds.minApi), old(bounds.maxApi), input)
    ensures toolChain.canUseCommandFile == old(toolChain.canUseCommandFile)
    ensures toolChain.compilerProbeArgs == old(toolChain.compilerProbeArgs)
    ensures Resolve(input).Err? ==> r == Fail(Resolve(input).error) && toolChain.tools == old(toolChain.tools)
    ensures Resolve(input).Ok? ==> r == Pass && toolChain.tools == AddAll(old(toolChain.tools), Resolve(input).value)
  {
    var settled := CheckConfiguration(input, bounds);
    if settled.Err? {
      return Fail(settled.error);
    }
    SettledValues(input);
    var plan := BuildPlan(input, settled.value);
    assert Resolve(input) == Ok(plan);
    toolChain.AddEach(plan);
    return Pass;
  }
}
