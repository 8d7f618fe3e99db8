/** Where the NDK is: `ndk.dir` in the root project's `local.properties`,
    else the ANDROID_NDK_HOME environment variable; and the options of the
    `android` extension, whose NDK directory falls back to the SDK's
    side-by-side and bundled NDKs. */
module NdkLocation {
  import opened Wrappers
  import opened Paths
  import AndroidTarget
  import Ndk = NdkToolchainConfig

  const LocalPropertiesFileName: string := "local.properties"
  const NdkDirPropertyName: string := "ndk.dir"
  const AndroidNdkHomeVariable: string := "ANDROID_NDK_HOME"

  /** What the lookup reads of the machine: the root project directory,
      which paths exist, which are directories and which are regular files,
      the parsed contents of a properties file, and the environment. */
  datatype Host = Host(
    rootDir: string,
    existing: set<string>,
    directories: set<string>,
    regularFiles: set<string>,
    properties: string -> map<string, string>,
    environment: map<string, string>)

  datatype NdkLookupError =
    | NdkNotFound(message: string)
    | NotADirectory(message: string)

  const NotFoundMessage: string :=
    "NDK was not found in " + LocalPropertiesFileName + " file specified as " + NdkDirPropertyName + ". "
    + "Also there's no " + AndroidNdkHomeVariable + " environment variable specified."

  function NotADirectoryMessage(path: string): string {
    "Provided NDK location doesn't exist or isn't a directory: " + path
  }

  function LocalPropertiesFile(h: Host): string {
    PathJoin(h.rootDir, LocalPropertiesFileName)
  }

  /** `findNdkInLocalProperties`: the `ndk.dir` value, provided the
      properties file exists and is a regular file, the key is set, and the
      named path exists. */
  function FindNdkInLocalProperties(h: Host): (r: Option<string>)
    ensures r.Some? <==>
      && LocalPropertiesFile(h) in h.existing
      && LocalPropertiesFile(h) in h.regularFiles
      && NdkDirPropertyName in h.properties(LocalPropertiesFile(h))
      && h.properties(LocalPropertiesFile(h))[NdkDirPropertyName] in h.existing
    ensures r.Some? ==> r.value == h.properties(LocalPropertiesFile(h))[NdkDirPropertyName] && r.value in h.existing
  {
    var file := LocalPropertiesFile(h);
    if file in h.existing && file in h.regularFiles then
      var props := h.properties(file);
      if NdkDirPropertyName in props && props[NdkDirPropertyName] in h.existing then Some(props[NdkDirPropertyName])
      else None
    else None
  }

  /** `findNdkFile`: the local properties entry, else the environment
      variable (whose path is not checked here), else an error. */
  function FindNdkFile(h: Host): (r: Result<string, NdkLookupError>)
    ensures FindNdkInLocalProperties(h).Some? ==> r == Ok(FindNdkInLocalProperties(h).value)
    ensures FindNdkInLocalProperties(h).None? && AndroidNdkHomeVariable in h.environment ==>
      r == Ok(h.environment[AndroidNdkHomeVariable])
    ensures r.Err? <==> FindNdkInLocalProperties(h).None? && AndroidNdkHomeVariable !in h.environment
    ensures r.Err? ==> r.error == NdkNotFound(NotFoundMessage)
  {
    match FindNdkInLocalProperties(h)
    case Some(path) => Ok(path)
    case None =>
      if AndroidNdkHomeVariable in h.environment then Ok(h.environment[AndroidNdkHomeVariable])
      else Err(NdkNotFound(NotFoundMessage))
  }

  /** `findNdkDirectory`: the found path, which must exist and be a
      directory. */
  function FindNdkDirectory(h: Host): (r: Result<string, NdkLookupError>)
    ensures r.Ok? <==> FindNdkFile(h).Ok? && FindNdkFile(h).value in h.existing && FindNdkFile(h).value in h.directories
    ensures r.Ok? ==> r.value == FindNdkFile(h).value
    ensures FindNdkFile(h).Err? ==> r == FindNdkFile(h)
    ensures FindNdkFile(h).Ok? && r.Err? ==> r.error == NotADirectory(NotADirectoryMessage(FindNdkFile(h).value))
  {
    var file :- FindNdkFile(h);
    if file in h.existing && file in h.directories then Ok(file)
    else Err(NotADirectory(NotADirectoryMessage(file)))
  }

  /** A local properties entry naming a path that does not exist falls
      through to the environment variable. */
  lemma MissingLocalPathFallsThrough(h: Host)
    requires LocalPropertiesFile(h) in h.existing && LocalPropertiesFile(h) in h.regularFiles
    requires NdkDirPropertyName in h.properties(LocalPropertiesFile(h))
    requires h.properties(LocalPropertiesFile(h))[NdkDirPropertyName] !in h.existing
    requires AndroidNdkHomeVariable in h.environment
    ensures FindNdkFile(h) == Ok(h.environment[AndroidNdkHomeVariable])
  {
  }

  /** Whatever is found is a directory that exists. */
  lemma FoundNdkIsDirectory(h: Host)
    requires FindNdkDirectory(h).Ok?
    ensures FindNdkDirectory(h).value in h.existing && FindNdkDirectory(h).value in h.directories
  {
  }

  /** The `android` extension's options. */
  class CppLibraryAndroid {
    var sdkDir: Option<string>
    var ndkVersion: Option<string>
    /** The explicitly set NDK directory; the getter falls back when unset. */
    var ndkDirField: Option<string>
    var abis: seq<string>
    var apis: seq<int>
    var isNeon: bool
    var stl: string
    var disableFormatStringChecks: bool
    var armMode: string
    var forceCppFeatures: bool
    var cppFeatures: seq<string>

    /** The defaults; `sdkDir` is what the SDK lookup found, which is not
        part of this model. */
    constructor(sdkDir: Option<string>)
      ensures this.sdkDir == sdkDir && ndkVersion.None? && ndkDirField.None?
      ensures abis == [AndroidTarget.Armv7, AndroidTarget.Armv8, AndroidTarget.X86, AndroidTarget.X86_64]
      ensures apis == [] && cppFeatures == []
      ensures stl == "c++_shared" && armMode == "thumb"
      ensures !isNeon && !disableFormatStringChecks && !forceCppFeatures
    {
      this.sdkDir := sdkDir;
      ndkVersion := None;
      ndkDirField := None;
      abis := [AndroidTarget.Armv7, AndroidTarget.Armv8, AndroidTarget.X86, AndroidTarget.X86_64];
      apis := [];
      isNeon := false;
      stl := "c++_shared";
      disableFormatStringChecks := false;
      armMode := "thumb";
      forceCppFeatures := false;
      cppFeatures := [];
    }

    /** The options the tool chain resolver reads. */
    function Options(): (r: Ndk.AndroidOptions)
      reads this
      ensures r.stl == stl && r.armMode == armMode && r.isNeon == isNeon
      ensures r.disableFormatStringChecks == disableFormatStringChecks
      ensures r.forceCppFeatures == forceCppFeatures && r.cppFeatures == cppFeatures
    {
      Ndk.AndroidOptions(stl, armMode, isNeon, disableFormatStringChecks, forceCppFeatures, cppFeatures)
    }

    /** `sdkDir/ndk/<ndkVersion>` when both are set and it exists. */
    function VersionedNdk(h: Host): (r: Option<string>)
      reads this
      ensures r.Some? ==> sdkDir.Some? && ndkVersion.Some? && r.value == PathJoin(sdkDir.value, "ndk/" + ndkVersion.value)
      ensures r.Some? ==> r.value in h.existing
    {
      if ndkVersion.Some? && sdkDir.Some? && PathJoin(sdkDir.value, "ndk/" + ndkVersion.value) in h.existing then
        Some(PathJoin(sdkDir.value, "ndk/" + ndkVersion.value))
      else None
    }

    /** `sdkDir/ndk-bundle` when the SDK is known and it exists. */
    function BundledNdk(h: Host): (r: Option<string>)
      reads this
      ensures r.Some? <==> sdkDir.Some? && PathJoin(sdkDir.value, "ndk-bundle") in h.existing
      ensures r.Some? ==> r.value == PathJoin(sdkDir.value, "ndk-bundle")
    {
      if sdkDir.Some? && PathJoin(sdkDir.value, "ndk-bundle") in h.existing then Some(PathJoin(sdkDir.value, "ndk-bundle"))
      else None
    }

    /** The `ndkDir` getter as written: the project lookup throws instead of
        answering null, so the two SDK fallbacks after it are never
        reached. */
    function NdkDirAsWritten(h: Host): (r: Result<Option<string>, NdkLookupError>)
      reads this
      ensures ndkDirField.Some? ==> r == Ok(ndkDirField)
      ensures ndkDirField.None? ==> r == (match FindNdkDirectory(h) case Ok(d) => Ok(Some(d)) case Err(e) => Err(e))
    {
      if ndkDirField.Some? then Ok(ndkDirField)
      else
        var found :- FindNdkDirectory(h);
        Ok(Some(found))
    }

    /** The `ndkDir` getter as its fallback chain is meant: the explicit
        value, then the project lookup, then the versioned NDK under the
        SDK, then the bundled one, and nothing when all of them fail. */
    function NdkDir(h: Host): (r: Option<string>)
      reads this
      ensures ndkDirField.Some? ==> r == ndkDirField
      ensures ndkDirField.None? && FindNdkDirectory(h).Ok? ==> r == Some(FindNdkDirectory(h).value)
      ensures ndkDirField.None? && FindNdkDirectory(h).Err? ==>
        r == (if VersionedNdk(h).Some? then VersionedNdk(h) else BundledNdk(h))
    {
      if ndkDirField.Some? then ndkDirField
      else if FindNdkDirectory(h).Ok? then Some(FindNdkDirectory(h).value)
      else if VersionedNdk(h).Some? then VersionedNdk(h)
      else BundledNdk(h)
    }
  }

  /** The two getters agree whenever the written one answers; it differs
      only by failing where the intended chain would still fall back. */
  lemma NdkDirAsWrittenAgrees(lib: CppLibraryAndroid, h: Host)
    ensures lib.NdkDirAsWritten(h).Ok? ==> lib.NdkDirAsWritten(h).value == lib.NdkDir(h)
    ensures lib.NdkDirAsWritten(h).Err? <==> lib.ndkDirField.None? && FindNdkDirectory(h).Err?
  {
  }

  /** With no `local.properties` and no ANDROID_NDK_HOME, but a bundled NDK
      under a known SDK, the written getter fails while the intended chain
      finds the bundle. */
  lemma SdkFallbackUnreachableAsWritten(lib: CppLibraryAndroid, h: Host)
    requires lib.ndkDirField.None? && lib.ndkVersion.None? && lib.sdkDir.Some?
    requires LocalPropertiesFile(h) !in h.existing && AndroidNdkHomeVariable !in h.environment
    requires PathJoin(lib.sdkDir.value, "ndk-bundle") in h.existing
    ensures lib.NdkDirAsWritten(h) == Err(NdkNotFound(NotFoundMessage))
    ensures lib.NdkDir(h) == Some(PathJoin(lib.sdkDir.value, "ndk-bundle"))
  {
  }
}
