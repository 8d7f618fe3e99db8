/** The first revision of the NDK tool chain resolver: it reproduces what the
    NDK's `android.toolchain.cmake` computes for one target (API level, STL,
    ARM mode, C++ features, format checks) and registers a 7-tool plan, and
    it owns the helpers both revisions share (host tag, `platforms.cmake`
    bounds, `source.properties` validation). */
module NdkToolchainConfig {
  import opened Wrappers
  import opened Strings
  import opened Paths
  import opened ToolRegistry
  import AndroidTarget

  // ---------------------------------------------------------------------
  // Inputs
  // ---------------------------------------------------------------------

  datatype OsKind = Linux | Windows | MacOsX | OtherOs

  /** The host operating system as Gradle describes it. */
  datatype HostOs = HostOs(kind: OsKind, name: string, familyName: string, nativePrefix: string)

  /** The options of the `android` extension that the resolver reads. */
  datatype AndroidOptions = AndroidOptions(
    stl: string,
    armMode: string,
    isNeon: bool,
    disableFormatStringChecks: bool,
    forceCppFeatures: bool,
    cppFeatures: seq<string>)

  /** What the resolver reads of its target: api and arch, and the LLVM
      triple and tool chain name that a newer `AndroidInfo` supplies. */
  datatype TargetInfo = TargetInfo(api: int, arch: string, llvmTriple: string, toolchainName: string)

  /** The two NDK files the resolver reads: the `Pkg.Desc` and
      `Pkg.Revision` properties of `source.properties` (absent keys are
      `None`) and the text of `build/cmake/platforms.cmake`. */
  datatype NdkFiles = NdkFiles(description: Option<string>, revision: Option<string>, platforms: string)

  datatype ConfigInput = ConfigInput(
    ndkDir: Option<string>,
    files: NdkFiles,
    options: AndroidOptions,
    target: TargetInfo,
    host: HostOs)

  /** The exceptions the resolvers throw. */
  datatype ConfigError =
    | NdkNotFound
    | BadDescription
    | BadRevision(revision: Option<string>)
    | MalformedPlatformsLine(line: string)
    | MissingPlatformLevel(key: string)
    | PlatformLevelNotANumber(key: string, value: string)
    | LevelAboveMaximum(level: int, max: int)
    | InvalidStl(stl: string)
    | UnsupportedHost(name: string)
    | InvalidCppFeatures(features: seq<string>)
    | InvalidArmMode(mode: string)

  // ---------------------------------------------------------------------
  // Host
  // ---------------------------------------------------------------------

  /** The prebuilt directory tag of the host. */
  function HostTag(host: HostOs): (r: Result<string, ConfigError>)
    ensures r.Err? <==> host.kind == OtherOs
    ensures r.Err? ==> r.error == UnsupportedHost(host.name)
    ensures host.kind == Linux ==> r == Ok("linux-x86_64")
    ensures host.kind == Windows ==> r == Ok("windows-x86_64")
    ensures host.kind == MacOsX ==> r == Ok("darwin-x86_64")
  {
    match host.kind
    case Linux => Ok("linux-x86_64")
    case Windows => Ok("windows-x86_64")
    case MacOsX => Ok("darwin-x86_64")
    case OtherOs => Err(UnsupportedHost(host.name))
  }

  /** The LLVM prebuilt directory: `<ndk>/toolchains/llvm/prebuilt/<prefix>-x86_64`,
      where the prefix is the native prefix on macOS and the family name on
      Linux and Windows. */
  function LlvmToolchainLocation(ndkDir: Option<string>, host: HostOs): (r: Result<string, ConfigError>)
    ensures r.Err? <==> host.kind == OtherOs
    ensures r.Ok? ==> EndsWith(r.value, "-x86_64")
  {
    var prefix :-
      match host.kind
      case MacOsX => Ok(host.nativePrefix)
      case Linux => Ok(host.familyName)
      case Windows => Ok(host.familyName)
      case OtherOs => Err(UnsupportedHost(host.name));
    PathJoinOptEndsWith(ndkDir, "toolchains/llvm/prebuilt/" + prefix, "-x86_64");
    Ok(PathJoinOpt(ndkDir, "toolchains/llvm/prebuilt/" + prefix + "-x86_64"))
  }

  /** The tool search path: the `bin` directory of the LLVM location. */
  function ToolSearchPath(ndkDir: Option<string>, host: HostOs): (r: Result<seq<string>, ConfigError>)
    ensures r.Ok? <==> LlvmToolchainLocation(ndkDir, host).Ok?
    ensures r.Ok? ==> r.value == [PathJoin(LlvmToolchainLocation(ndkDir, host).value, "bin")]
  {
    var location :- LlvmToolchainLocation(ndkDir, host);
    Ok([PathJoin(location, "bin")])
  }

  /** The directory the tool search path points into is the tool chain root
      the resolver uses, whenever Gradle's names for the host are the usual
      ones ("darwin", "linux", "windows"). */
  lemma LocationAgreesWithToolchainRoot(ndk: string, host: HostOs)
    requires host.kind == MacOsX ==> host.nativePrefix == "darwin"
    requires host.kind == Linux ==> host.familyName == "linux"
    requires host.kind == Windows ==> host.familyName == "windows"
    ensures HostTag(host).Ok? <==> LlvmToolchainLocation(Some(ndk), host).Ok?
    ensures HostTag(host).Ok? ==>
      LlvmToolchainLocation(Some(ndk), host).value == ToolchainRoot(ndk, HostTag(host).value)
  {
    var dir := "toolchains/llvm/prebuilt/";
    match host.kind
    case Linux => assert dir + "linux" + "-x86_64" == dir + "linux-x86_64";
    case Windows => assert dir + "windows" + "-x86_64" == dir + "windows-x86_64";
    case MacOsX => assert dir + "darwin" + "-x86_64" == dir + "darwin-x86_64";
    case OtherOs =>
  }

  // ---------------------------------------------------------------------
  // source.properties
  // ---------------------------------------------------------------------

  /** The part after the second '.' of a revision: `[0-9]+(-beta[0-9]+)?`. */
  predicate IsPatchLevel(t: string) {
    IsNumber(t)
    || (var b := IndexOf(t, "-");
        b != -1 && IsNumber(t[..b]) && StartsWith(t[b..], "-beta") && IsNumber(t[b + 5..]))
  }

  /** Whole-string match of `([0-9]+)\.([0-9]+)\.([0-9]+)(-beta([0-9]+))?`. */
  predicate IsRevision(s: string) {
    var parts := Split(s, ".");
    |parts| == 3 && IsNumber(parts[0]) && IsNumber(parts[1]) && IsPatchLevel(parts[2])
  }

  /** The revision text made of three numbers and an optional beta number. */
  function RevisionText(major: string, minor: string, patch: string, beta: Option<string>): string {
    major + "." + minor + "." + patch + (if beta.Some? then "-beta" + beta.value else "")
  }

  predicate IsRevisionPart(major: string, minor: string, patch: string, beta: Option<string>) {
    IsNumber(major) && IsNumber(minor) && IsNumber(patch) && (beta.Some? ==> IsNumber(beta.value))
  }

  lemma DigitsHaveNoDot(s: string)
    requires AllDigits(s)
    ensures '.' !in s && '-' !in s
  {
    forall c | c in s
      ensures c != '.' && c != '-'
    {
      var i :| 0 <= i < |s| && s[i] == c;
      assert IsDigit(s[i]);
    }
  }

  /** Every revision text built from numbers is accepted. */
  lemma RevisionTextIsRevision(major: string, minor: string, patch: string, beta: Option<string>)
    requires IsRevisionPart(major, minor, patch, beta)
    ensures IsRevision(RevisionText(major, minor, patch, beta))
  {
    var suffix := if beta.Some? then "-beta" + beta.value else "";
    var tail := patch + suffix;
    DigitsHaveNoDot(major);
    DigitsHaveNoDot(minor);
    DigitsHaveNoDot(patch);
    if beta.Some? {
      DigitsHaveNoDot(beta.value);
    }
    assert '.' !in tail;
    var s := RevisionText(major, minor, patch, beta);
    assert s == major + ['.'] + minor + ['.'] + tail;
    SplitThree(major, minor, tail, '.');
    PatchLevelWithBeta(patch, beta);
  }

  lemma PatchLevelWithBeta(patch: string, beta: Option<string>)
    requires IsNumber(patch) && (beta.Some? ==> IsNumber(beta.value))
    ensures IsPatchLevel(patch + if beta.Some? then "-beta" + beta.value else "")
  {
    if beta.Some? {
      var b := beta.value;
      var tail := patch + ("-beta" + b);
      DigitsHaveNoDot(patch);
      assert tail == patch + ['-'] + ("beta" + b);
      CutAtChar(patch, '-', "beta" + b);
      assert tail[..|patch|] == patch;
      var rest := tail[|patch|..];
      assert rest == "-beta" + b;
      assert rest[..5] == "-beta";
      assert tail[|patch| + 5..] == b;
    } else {
      assert patch + "" == patch;
    }
  }

  /** Every accepted revision is such a text. */
  lemma IsRevisionDecomposes(s: string) returns (major: string, minor: string, patch: string, beta: Option<string>)
    requires IsRevision(s)
    ensures IsRevisionPart(major, minor, patch, beta)
    ensures s == RevisionText(major, minor, patch, beta)
  {
    var parts := Split(s, ".");
    JoinSplit(s, ".");
    JoinThree(parts, ".");
    major, minor := parts[0], parts[1];
    patch, beta := PatchLevelDecomposes(parts[2]);
  }

  lemma PatchLevelDecomposes(t: string) returns (patch: string, beta: Option<string>)
    requires IsPatchLevel(t)
    ensures IsNumber(patch) && (beta.Some? ==> IsNumber(beta.value))
    ensures t == patch + (if beta.Some? then "-beta" + beta.value else "")
  {
    if IsNumber(t) {
      patch, beta := t, None;
    } else {
      var b := IndexOf(t, "-");
      patch, beta := t[..b], Some(t[b + 5..]);
      assert t[b..][..5] == "-beta";
      assert t == t[..b] + t[b..b + 5] + t[b + 5..];
    }
  }

  /** The description check of `validateSourcePropertiesFileContent`: a
      `Pkg.Desc` other than "Android NDK" is refused, but a missing one is
      not (`null.takeUnless { ... }` is null, so nothing is thrown). */
  predicate DescriptionAccepted(description: Option<string>) {
    description.None? || description.value == "Android NDK"
  }

  /** `validateSourcePropertiesFileContent`: a present description must be
      "Android NDK", and the revision must be present and well formed. */
  function ValidateSourceProperties(description: Option<string>, revision: Option<string>): (r: Outcome<ConfigError>)
    ensures r.Pass? <==> DescriptionAccepted(description) && revision.Some? && IsRevision(revision.value)
    ensures !DescriptionAccepted(description) ==> r == Fail(BadDescription)
    ensures DescriptionAccepted(description) && r.Fail? ==> r == Fail(BadRevision(revision))
  {
    if !DescriptionAccepted(description) then Fail(BadDescription)
    else if revision.None? || !IsRevision(revision.value) then Fail(BadRevision(revision))
    else Pass
  }

  /** A `source.properties` without `Pkg.Desc` passes on its revision alone. */
  lemma MissingDescriptionAccepted(revision: string)
    requires IsRevision(revision)
    ensures ValidateSourceProperties(None, Some(revision)) == Pass
    ensures ValidateSourceProperties(Some("NDK"), Some(revision)) == Fail(BadDescription)
  {
  }

  // ---------------------------------------------------------------------
  // platforms.cmake
  // ---------------------------------------------------------------------

  /** One line of `platforms.cmake`: the text between the first '(' and the
      next ')', split on ' ', gives NAME and VALUE with '"' removed. */
  function ParsePlatformLine(line: string): (r: Result<(string, string), ConfigError>)
    ensures r.Err? ==> r.error == MalformedPlatformsLine(line)
    ensures r.Ok? ==> '"' !in r.value.1 && ' ' !in r.value.0
  {
    var parts := Split(SubstringBefore(SubstringAfter(line, "("), ")"), " ");
    if |parts| < 2 then Err(MalformedPlatformsLine(line))
    else
      assert ' ' !in parts[0] by {
        if ' ' in parts[0] {
          var i :| 0 <= i < |parts[0]| && parts[0][i] == ' ';
          SplitFirstPiece(SubstringBefore(SubstringAfter(line, "("), ")"), ' ');
        }
      }
      Ok((parts[0], RemoveChar(parts[1], '"')))
  }

  lemma SplitFirstPiece(s: string, c: char)
    ensures c !in Split(s, [c])[0]
  {
    var i := IndexOf(s, [c]);
    if i == -1 {
      forall k | 0 <= k < |s| ensures s[k] != c {
        assert !OccursAt(s, [c], k);
        assert s[k..k + 1] == [s[k]];
      }
    } else {
      forall k | 0 <= k < i ensures s[k] != c {
        assert !OccursAt(s, [c], k);
        assert s[k..k + 1] == [s[k]];
      }
    }
  }

  /** The map of the parsed lines, later lines overwriting earlier ones; the
      first malformed line fails. */
  function PlatformsMap(lines: seq<string>): Result<map<string, string>, ConfigError> {
    if |lines| == 0 then Ok(map[])
    else
      var init :- PlatformsMap(lines[..|lines| - 1]);
      var entry :- ParsePlatformLine(lines[|lines| - 1]);
      Ok(init[entry.0 := entry.1])
  }

  /** `readPlatformsFile` over the file's text. */
  function ReadPlatformsFile(text: string): Result<map<string, string>, ConfigError> {
    PlatformsMap(ReaderLines(text))
  }

  /** When every line parses, so does the file. */
  lemma {:induction false} PlatformsMapOk(lines: seq<string>)
    requires forall k :: 0 <= k < |lines| ==> ParsePlatformLine(lines[k]).Ok?
    ensures PlatformsMap(lines).Ok?
  {
    if |lines| > 0 {
      PlatformsMapOk(lines[..|lines| - 1]);
    }
  }

  /** The first line that does not split into NAME and VALUE is the one
      reported. */
  lemma {:induction false} PlatformsMapFirstError(lines: seq<string>, k: nat)
    requires k < |lines| && ParsePlatformLine(lines[k]).Err?
    requires forall j :: 0 <= j < k ==> ParsePlatformLine(lines[j]).Ok?
    ensures PlatformsMap(lines) == Err(MalformedPlatformsLine(lines[k]))
  {
    var init := lines[..|lines| - 1];
    if k == |lines| - 1 {
      PlatformsMapOk(init);
    } else {
      PlatformsMapFirstError(init, k);
    }
  }

  /** A word that survives the line format: no blank, parenthesis, quote or
      line break. */
  predicate IsPlainWord(w: string) {
    forall c :: c in w ==> c != ' ' && c != '(' && c != ')' && c != '"' && !IsLineBreak(c)
  }

  /** `set(NAME "VALUE")`, the shape of the lines of `platforms.cmake`. */
  function PlatformsLine(name: string, value: string): string {
    "set(" + name + " \"" + value + "\")"
  }

  lemma ParsePlatformsLine(name: string, value: string)
    requires IsPlainWord(name) && IsPlainWord(value)
    ensures ParsePlatformLine(PlatformsLine(name, value)) == Ok((name, value))
  {
    var quoted := "\"" + value + "\"";
    var piece := name + [' '] + quoted;
    PlatformsLineInner(name, value);
    assert ' ' !in quoted;
    SplitAtChar(name, ' ', quoted);
    SplitNoChar(quoted, ' ');
    assert Split(piece, " ") == [name, quoted];
    Unquote(value);
  }

  /** The text between the parentheses of a `set(NAME "VALUE")` line. */
  lemma PlatformsLineInner(name: string, value: string)
    requires IsPlainWord(name) && IsPlainWord(value)
    ensures SubstringBefore(SubstringAfter(PlatformsLine(name, value), "("), ")")
      == name + [' '] + ("\"" + value + "\"")
  {
    var piece := name + [' '] + ("\"" + value + "\"");
    var after := piece + [')'] + "";
    assert PlatformsLine(name, value) == "set" + ['('] + after;
    CutAtChar("set", '(', after);
    assert ')' !in piece;
    CutAtChar(piece, ')', "");
  }

  lemma Unquote(value: string)
    requires '"' !in value
    ensures RemoveChar("\"" + value + "\"", '"') == value
  {
    var q := ['"'];
    assert "\"" + value + "\"" == q + (value + q);
    assert RemoveChar(q, '"') == [];
    RemoveCharConcat(q, value + q, '"');
    RemoveCharConcat(value, q, '"');
    RemoveAbsentChar(value, '"');
    assert RemoveChar(value + q, '"') == value;
  }

  /** The map a list of (name, value) pairs describes, later pairs winning. */
  function MapOf(entries: seq<(string, string)>): map<string, string> {
    if |entries| == 0 then map[]
    else
      var last := entries[|entries| - 1];
      MapOf(entries[..|entries| - 1])[last.0 := last.1]
  }

  function PlatformsLines(entries: seq<(string, string)>): (r: seq<string>)
    ensures |r| == |entries|
    ensures forall k :: 0 <= k < |r| ==> r[k] == PlatformsLine(entries[k].0, entries[k].1)
  {
    if |entries| == 0 then []
    else
      var last := entries[|entries| - 1];
      PlatformsLines(entries[..|entries| - 1]) + [PlatformsLine(last.0, last.1)]
  }

  lemma {:induction false} PlatformsMapOfLines(entries: seq<(string, string)>)
    requires forall k :: 0 <= k < |entries| ==> IsPlainWord(entries[k].0) && IsPlainWord(entries[k].1)
    ensures PlatformsMap(PlatformsLines(entries)) == Ok(MapOf(entries))
  {
    if |entries| > 0 {
      var init := entries[..|entries| - 1];
      var last := entries[|entries| - 1];
      var lines := PlatformsLines(entries);
      assert lines[..|lines| - 1] == PlatformsLines(init);
      PlatformsMapOfLines(init);
      ParsePlatformsLine(last.0, last.1);
    }
  }

  lemma PlatformsLineIsOneLine(name: string, value: string)
    requires IsPlainWord(name) && IsPlainWord(value)
    ensures PlatformsLine(name, value) != ""
    ensures forall c :: c in PlatformsLine(name, value) ==> !IsLineBreak(c)
  {
    assert PlatformsLine(name, value) == "set(" + name + " \"" + value + "\")";
  }

  /** A `platforms.cmake` written as `set(NAME "VALUE")` lines reads back as
      the map of those pairs, a later pair overriding an earlier one. */
  lemma ReadPlatformsFileOfText(entries: seq<(string, string)>)
    requires forall k :: 0 <= k < |entries| ==> IsPlainWord(entries[k].0) && IsPlainWord(entries[k].1)
    ensures ReadPlatformsFile(Join(PlatformsLines(entries), "\n")) == Ok(MapOf(entries))
  {
    var lines := PlatformsLines(entries);
    forall k | 0 <= k < |lines|
      ensures lines[k] != "" && forall c :: c in lines[k] ==> !IsLineBreak(c)
    {
      PlatformsLineIsOneLine(entries[k].0, entries[k].1);
    }
    ReaderLinesOfJoin(lines);
    PlatformsMapOfLines(entries);
  }

  // ---------------------------------------------------------------------
  // API level
  // ---------------------------------------------------------------------

  const MinLevelKey: string := "NDK_MIN_PLATFORM_LEVEL"
  const MaxLevelKey: string := "NDK_MAX_PLATFORM_LEVEL"

  /** `platformsMap.getValue(key).toInt()`. */
  function PlatformLevel(platforms: map<string, string>, key: string): (r: Result<int, ConfigError>)
    ensures r.Ok? <==> key in platforms && ParseInt(platforms[key]).Some?
    ensures r.Ok? ==> r.value == ParseInt(platforms[key]).value
    ensures key !in platforms ==> r == Err(MissingPlatformLevel(key))
  {
    if key !in platforms then Err(MissingPlatformLevel(key))
    else match ParseInt(platforms[key])
      case None => Err(PlatformLevelNotANumber(key, platforms[key]))
      case Some(n) => Ok(n)
  }

  /** Whole-string match of "64(-v8a)?". */
  predicate Is64BitAbi(arch: string) {
    arch == "64" || arch == "64-v8a"
  }

  /** The API level the first revision builds for. */
  function EffectiveLevel(api: int, arch: string, platforms: map<string, string>): (r: Result<int, ConfigError>)
  {
    var min :- PlatformLevel(platforms, MinLevelKey);
    var raised := if min > api then min else api;
    var level := if raised < 21 && Is64BitAbi(arch) then 21 else raised;
    var max :- PlatformLevel(platforms, MaxLevelKey);
    if max < level then Err(LevelAboveMaximum(level, max)) else Ok(level)
  }

  /** With both bounds readable, the level is the api raised to the minimum
      (and to 21 for a 64-bit ABI name), and it is refused exactly when it
      exceeds the maximum. */
  lemma EffectiveLevelBounds(api: int, arch: string, platforms: map<string, string>)
    requires PlatformLevel(platforms, MinLevelKey).Ok? && PlatformLevel(platforms, MaxLevelKey).Ok?
    ensures var min, max := PlatformLevel(platforms, MinLevelKey).value, PlatformLevel(platforms, MaxLevelKey).value;
      var level := if api < min then min else api;
      var level := if level < 21 && Is64BitAbi(arch) then 21 else level;
      && (EffectiveLevel(api, arch, platforms).Ok? <==> level <= max)
      && (EffectiveLevel(api, arch, platforms).Ok? ==>
            var l := EffectiveLevel(api, arch, platforms).value;
            l == level && min <= l && api <= l && l <= max)
      && (EffectiveLevel(api, arch, platforms).Err? ==>
            EffectiveLevel(api, arch, platforms).error == LevelAboveMaximum(level, max))
  {
  }

  /** A missing or unreadable minimum fails before the maximum is read. */
  lemma EffectiveLevelNeedsMinimum(api: int, arch: string, platforms: map<string, string>)
    requires PlatformLevel(platforms, MinLevelKey).Err?
    ensures EffectiveLevel(api, arch, platforms) == Err(PlatformLevel(platforms, MinLevelKey).error)
  {
  }

  /** None of the ABI names the plugin uses is a 64-bit name in the sense of
      the "64(-v8a)?" test, so for them the level is just api raised to the
      minimum. */
  lemma PluginAbisAreNotRaisedTo21(arch: string)
    requires arch in {AndroidTarget.Armv7, AndroidTarget.Armv8, AndroidTarget.X86, AndroidTarget.X86_64}
    ensures !Is64BitAbi(arch)
  {
  }

  // ---------------------------------------------------------------------
  // Options
  // ---------------------------------------------------------------------

  /** Any ARM mode other than "arm" is normalised to "thumb". */
  function ArmMode(option: string): (r: string)
    ensures r == "arm" || r == "thumb"
    ensures r == "arm" <==> option == "arm"
  {
    if option == "arm" then "arm" else "thumb"
  }

  /** The explicit feature list, else rtti and exceptions when forced, else none. */
  function SelectCppFeatures(options: AndroidOptions): (r: seq<string>)
    ensures |options.cppFeatures| > 0 ==> r == options.cppFeatures
    ensures |options.cppFeatures| == 0 && options.forceCppFeatures ==> r == ["rtti", "exceptions"]
    ensures |options.cppFeatures| == 0 && !options.forceCppFeatures ==> r == []
  {
    if |options.cppFeatures| > 0 then options.cppFeatures
    else if options.forceCppFeatures then ["rtti", "exceptions"]
    else []
  }

  /** Whole-string match of "rtti|exceptions". */
  predicate IsCppFeature(f: string) {
    f == "rtti" || f == "exceptions"
  }

  /** The features that are neither rtti nor exceptions, in order. */
  function InvalidFeatures(features: seq<string>): (r: seq<string>)
    ensures forall f :: f in r <==> f in features && !IsCppFeature(f)
    ensures |r| == 0 <==> forall f :: f in features ==> IsCppFeature(f)
    ensures |r| <= |features|
  {
    if |features| == 0 then []
    else (if IsCppFeature(features[0]) then [] else [features[0]]) + InvalidFeatures(features[1..])
  }

  /** The check that every feature is rtti or exceptions. */
  function CheckCppFeatures(features: seq<string>): (r: Outcome<ConfigError>)
    ensures r.Pass? <==> forall f :: f in features ==> IsCppFeature(f)
    ensures r.Fail? ==> r.error == InvalidCppFeatures(InvalidFeatures(features))
  {
    var invalid := InvalidFeatures(features);
    if |invalid| > 0 then Fail(InvalidCppFeatures(invalid)) else Pass
  }

  /** "-f<feature>" for each feature, in order. */
  function FeatureFlags(features: seq<string>): (r: seq<string>)
    ensures |r| == |features|
    ensures forall i :: 0 <= i < |features| ==> r[i] == "-f" + features[i]
  {
    if |features| == 0 then [] else FeatureFlags(features[..|features| - 1]) + ["-f" + features[|features| - 1]]
  }

  /** A selection made without an explicit list always passes the check. */
  lemma DefaultFeaturesAreValid(options: AndroidOptions)
    requires |options.cppFeatures| == 0
    ensures CheckCppFeatures(SelectCppFeatures(options)).Pass?
  {
  }

  /** The C++ and linker flags the trimmed STL name selects. */
  function StlFlags(stl: string): (r: Result<(seq<string>, seq<string>), ConfigError>)
    ensures r.Ok? <==> Trim(stl) in {"c++_static", "c++_shared", ""}
    ensures Trim(stl) == "c++_static" ==> r == Ok(([], ["-static-libc++"]))
    ensures Trim(stl) == "c++_shared" || Trim(stl) == "" ==> r == Ok((["-nostdinc++"], ["-nostdlib++"]))
    ensures r.Err? ==> r.error == InvalidStl(stl)
  {
    var name := Trim(stl);
    if name == "c++_static" then Ok(([], ["-static-libc++"]))
    else if name == "c++_shared" || name == "" then Ok((["-nostdinc++"], ["-nostdlib++"]))
    else Err(InvalidStl(stl))
  }

  /** Flags every compile gets first. */
  const BaseCompilerFlags: seq<string> := [
    "-g", "-DANDROID", "-fdata-sections", "-ffunction-sections",
    "-funwind-tables", "-fstack-protector-strong", "-no-canonical-prefixes"]

  /** Flags for the "armeabi" ABI (whole-string match); the ARM mode must be
      "thumb" or "arm". */
  function ArmFlags(arch: string, armMode: string, isNeon: bool): (r: Result<seq<string>, ConfigError>)
    ensures arch != "armeabi" ==> r == Ok([])
  {
    if arch == "armeabi" then
      if armMode != "thumb" && armMode != "arm" then Err(InvalidArmMode(armMode))
      else
        Ok(["-march=armv7-a"]
           + (if armMode == "thumb" then ["-mthumb"] else [])
           + (if arch == "armeabi-v7a" && isNeon then ["-mfpu=neon"] else []))
    else Ok([])
  }

  /** After normalisation the ARM mode is never refused, and NEON is never
      requested (the "armeabi-v7a" test sits inside the "armeabi" one). */
  lemma ArmFlagsNeverFail(arch: string, option: string, isNeon: bool)
    ensures ArmFlags(arch, ArmMode(option), isNeon).Ok?
    ensures "-mfpu=neon" !in ArmFlags(arch, ArmMode(option), isNeon).value
    ensures arch == "armeabi" ==>
      ArmFlags(arch, ArmMode(option), isNeon).value
        == if option == "arm" then ["-march=armv7-a"] else ["-march=armv7-a", "-mthumb"]
  {
  }

  function FormatFlags(disableFormatStringChecks: bool): (r: seq<string>)
    ensures disableFormatStringChecks <==> "-Wno-error=format-security" in r
    ensures !disableFormatStringChecks <==> "-Werror=format-security" in r
  {
    if disableFormatStringChecks then ["-Wno-error=format-security"]
    else ["-Wformat", "-Werror=format-security"]
  }

  /** `flatMap { listOf(flag, it.path) }`. */
  function PairFlags(flag: string, paths: seq<string>): (r: seq<string>)
    ensures |r| == 2 * |paths|
    ensures forall i :: 0 <= i < |paths| ==> r[2 * i] == flag && r[2 * i + 1] == paths[i]
  {
    if |paths| == 0 then [] else PairFlags(flag, paths[..|paths| - 1]) + [flag, paths[|paths| - 1]]
  }

  // ---------------------------------------------------------------------
  // Layout of the NDK
  // ---------------------------------------------------------------------

  function ToolchainRoot(ndk: string, hostTag: string): string {
    PathJoin(ndk, "toolchains/llvm/prebuilt/" + hostTag)
  }

  function Sysroot(root: string): string {
    PathJoin(root, "sysroot")
  }

  function ExeSuffix(host: HostOs): (r: string)
    ensures r == ".exe" <==> host.kind == Windows
    ensures r == "" <==> host.kind != Windows
  {
    if host.kind == Windows then ".exe" else ""
  }

  // ---------------------------------------------------------------------
  // The first revision's flags and plan
  // ---------------------------------------------------------------------

  /** The compiler flags shared by every compiling tool. */
  function CompilerFlags(arch: string, level: int, armFlags: seq<string>, disableFormatStringChecks: bool): seq<string> {
    BaseCompilerFlags
    + (if arch == "x86" && level < 24 then ["-mstackrealign"] else [])
    + ["-fno-addrsig"]
    + armFlags
    + ["-Wa,--noexecstack"]
    + FormatFlags(disableFormatStringChecks)
  }

  function CxxFlags(stlCxx: seq<string>, features: seq<string>): seq<string> {
    ["-stdlib=libc++"] + stlCxx + FeatureFlags(features)
  }

  /** Whole-string matches of "^c\+\+_" on the STL and "^armeabi" on the ABI. */
  predicate ExcludesLibunwind(stl: string, arch: string) {
    stl == "c++_" && arch == "armeabi"
  }

  function LinkerFlags(stlLinker: seq<string>, stl: string, arch: string): seq<string> {
    ["-Wl,--exclude-libs,libgcc.a", "-Wl,--exclude-libs,libatomic.a"]
    + stlLinker
    + ["-Wl,--build-id", "-Wl,--warn-shared-textrel", "-Wl,--fatal-warnings"]
    + (if ExcludesLibunwind(stl, arch) then ["-Wl,--exclude-libs,libunwind.a"] else [])
    + ["-Qunused-arguments", "-Wl,-z,noexecstack"]
  }

  const ExeLinkerFlags: seq<string> := ["-Wl,--gc-sections"]

  function LibraryPath(sysroot: string, toolchainName: string, level: int): seq<string> {
    [PathJoin(sysroot, "usr/lib/" + toolchainName + "/" + IntToString(level)),
     PathJoin(sysroot, "/usr/lib/" + toolchainName)]
  }

  function SystemIncludes(root: string, sysroot: string, toolchainName: string): seq<string> {
    [PathJoin(sysroot, "usr/include/" + toolchainName),
     PathJoin(sysroot, "usr/include"),
     PathJoin(sysroot, "usr/include/c++/v1"),
     PathJoin(root, "include/c++/4.9.x")]
  }

  /** The arguments every compiling and linking tool ends with. */
  function AdditionalFlags(llvmTriple: string, level: int, sysroot: string, libraryPath: seq<string>, includes: seq<string>): seq<string> {
    TargetFlags(llvmTriple, level, sysroot)
    + PairFlags("-L", libraryPath)
    + PairFlags("-isystem", includes)
  }

  /** The head of the shared tail: the target with the level appended to
      the triple, "-fno-addrsig" and the sysroot. */
  function TargetFlags(llvmTriple: string, level: int, sysroot: string): (r: seq<string>)
    ensures |r| == 4
  {
    ["--target=" + llvmTriple + IntToString(level), "-fno-addrsig", "-isysroot", sysroot]
  }

  /** The seven tools in registration order. */
  function Plan(root: string, toolchainName: string, suffix: string,
                compilerFlags: seq<string>, cxxFlags: seq<string>, linkerFlags: seq<string>,
                additional: seq<string>): (r: seq<ToolConfig>)
    ensures |r| == 7
  {
    var cc := PathJoin(root, "bin/clang" + suffix);
    var cxx := PathJoin(root, "bin/clang++" + suffix);
    var prefix := "bin/" + toolchainName + "-";
    [ToolConfig(CCompiler, cc, compilerFlags + additional),
     ToolConfig(CppCompiler, cxx, compilerFlags + cxxFlags + additional),
     ToolConfig(Linker, cxx, linkerFlags + ExeLinkerFlags + ["-v"] + additional),
     ToolConfig(StaticLibArchiver, PathJoin(root, prefix + "ar" + suffix), []),
     ToolConfig(Assembler, cc, additional),
     ToolConfig(SymbolExtractor, PathJoin(root, prefix + "objcopy" + suffix), []),
     ToolConfig(Stripper, PathJoin(root, prefix + "strip" + suffix), [])]
  }

  /** What the checks of `configure` settle on: the NDK root, the API level,
      the STL's C++ and linker flags, the host tag, the C++ features and the
      ARM flags. */
  datatype Settings = Settings(ndk: string, level: int, stl: (seq<string>, seq<string>),
                               hostTag: string, features: seq<string>, armFlags: seq<string>)

  /** The checks of `configure`, in the order it makes them, and the values
      they settle on. */
  function Settle(input: ConfigInput): (r: Result<Settings, ConfigError>)
    ensures r.Ok? ==> Some(r.value.ndk) == input.ndkDir
  {
    if input.ndkDir.None? then Err(NdkNotFound)
    else
      :- ValidateSourceProperties(input.files.description, input.files.revision);
      var platforms :- ReadPlatformsFile(input.files.platforms);
      var level :- EffectiveLevel(input.target.api, input.target.arch, platforms);
      SettleOptions(input.ndkDir.value, input, level)
  }

  /** The checks `configure` makes once the level is known: the STL, the
      host, the C++ features and the ARM mode. */
  function SettleOptions(ndk: string, input: ConfigInput, level: int): (r: Result<Settings, ConfigError>)
    ensures r.Ok? ==> r.value.ndk == ndk && r.value.level == level
  {
    var options := input.options;
    var features := SelectCppFeatures(options);
    var stl :- StlFlags(options.stl);
    var hostTag :- HostTag(input.host);
    SettleFeatures(Settings(ndk, level, stl, hostTag, features, []), input)
  }

  /** The last two checks: every C++ feature is known, and the ARM flags. */
  function SettleFeatures(partial: Settings, input: ConfigInput): (r: Result<Settings, ConfigError>)
    ensures r.Ok? ==> r.value == partial.(armFlags := r.value.armFlags)
  {
    match CheckCppFeatures(partial.features)
    case Fail(e) => Err(e)
    case Pass =>
      var armFlags :- ArmFlags(input.target.arch, ArmMode(input.options.armMode), input.options.isNeon);
      Ok(partial.(armFlags := armFlags))
  }

  /** The seven tools `configure` registers once its checks have passed. */
  function PlanFor(input: ConfigInput, st: Settings): (r: seq<ToolConfig>)
    ensures |r| == 7
  {
    var target := input.target;
    var root := ToolchainRoot(st.ndk, st.hostTag);
    var sysroot := Sysroot(root);
    Plan(root, target.toolchainName, ExeSuffix(input.host),
         CompilerFlags(target.arch, st.level, st.armFlags, input.options.disableFormatStringChecks),
         CxxFlags(st.stl.0, st.features),
         LinkerFlags(st.stl.1, input.options.stl, target.arch),
         AdditionalFlags(target.llvmTriple, st.level, sysroot,
                         LibraryPath(sysroot, target.toolchainName, st.level),
                         SystemIncludes(root, sysroot, target.toolchainName)))
  }

  /** What `configure` registers for an input, or the exception it throws. */
  function Resolve(input: ConfigInput): (r: Result<seq<ToolConfig>, ConfigError>)
    ensures r.Ok? ==> |r.value| == 7
  {
    var st :- Settle(input);
    Ok(PlanFor(input, st))
  }

  /** The values settled on are the ones the individual checks produce. */
  lemma SettledValues(input: ConfigInput)
    requires Settle(input).Ok?
    ensures var st := Settle(input).value;
      && ReadPlatformsFile(input.files.platforms).Ok?
      && EffectiveLevel(input.target.api, input.target.arch, ReadPlatformsFile(input.files.platforms).value) == Ok(st.level)
      && StlFlags(input.options.stl) == Ok(st.stl)
      && HostTag(input.host) == Ok(st.hostTag)
      && st.features == SelectCppFeatures(input.options)
      && ArmFlags(input.target.arch, ArmMode(input.options.armMode), input.options.isNeon) == Ok(st.armFlags)
  {
  }

  /** `configure` fails exactly when one of its checks fails; the ARM mode,
      once normalised, never does. */
  lemma ResolveSucceeds(input: ConfigInput)
    ensures Resolve(input).Ok? <==>
      && input.ndkDir.Some?
      && ValidateSourceProperties(input.files.description, input.files.revision).Pass?
      && ReadPlatformsFile(input.files.platforms).Ok?
      && EffectiveLevel(input.target.api, input.target.arch, ReadPlatformsFile(input.files.platforms).value).Ok?
      && StlFlags(input.options.stl).Ok?
      && HostTag(input.host).Ok?
      && CheckCppFeatures(SelectCppFeatures(input.options)).Pass?
  {
    ArmFlagsNeverFail(input.target.arch, input.options.armMode, input.options.isNeon);
  }

  /** The plan registers the seven tools in source order: clang runs the C
      compiler and the assembler, clang++ the C++ compiler and the linker;
      the C++ arguments extend the C ones, every compiling and linking tool
      ends with the shared tail, the assembler gets the tail alone, and the
      binutils get no arguments. */
  lemma PlanLayout(root: string, toolchainName: string, suffix: string,
                   compilerFlags: seq<string>, cxxFlags: seq<string>, linkerFlags: seq<string>,
                   additional: seq<string>)
    ensures var p := Plan(root, toolchainName, suffix, compilerFlags, cxxFlags, linkerFlags, additional);
      [p[0].toolType, p[1].toolType, p[2].toolType, p[3].toolType, p[4].toolType, p[5].toolType, p[6].toolType]
      == [CCompiler, CppCompiler, Linker, StaticLibArchiver, Assembler, SymbolExtractor, Stripper]
    ensures var p := Plan(root, toolchainName, suffix, compilerFlags, cxxFlags, linkerFlags, additional);
      && p[4].executable == p[0].executable && p[2].executable == p[1].executable
      && EndsWith(p[0].executable, "bin/clang" + suffix) && EndsWith(p[1].executable, "bin/clang++" + suffix)
    ensures var p := Plan(root, toolchainName, suffix, compilerFlags, cxxFlags, linkerFlags, additional);
      && p[4].args == additional
      && p[0].args == compilerFlags + p[4].args
      && p[1].args == compilerFlags + cxxFlags + p[4].args
      && p[2].args == linkerFlags + ["-Wl,--gc-sections", "-v"] + p[4].args
      && p[3].args == [] && p[5].args == [] && p[6].args == []
  {
    var p := Plan(root, toolchainName, suffix, compilerFlags, cxxFlags, linkerFlags, additional);
    assert p[2].args == linkerFlags + ExeLinkerFlags + ["-v"] + additional;
    assert linkerFlags + ExeLinkerFlags + ["-v"] == linkerFlags + ["-Wl,--gc-sections", "-v"];
  }

  /** The shared tail: the target (with the level appended to the triple),
      "-fno-addrsig" and the sysroot, then a "-L" pair for each library
      directory and an "-isystem" pair for each include directory, in list
      order. */
  lemma AdditionalFlagsOrder(llvmTriple: string, level: int, sysroot: string, libraryPath: seq<string>, includes: seq<string>)
    ensures var r := AdditionalFlags(llvmTriple, level, sysroot, libraryPath, includes);
      && |r| == 4 + 2 * |libraryPath| + 2 * |includes|
      && r[..4] == ["--target=" + llvmTriple + IntToString(level), "-fno-addrsig", "-isysroot", sysroot]
      && PairsAt(r, 4, "-L", libraryPath)
      && PairsAt(r, 4 + 2 * |libraryPath|, "-isystem", includes)
  {
    PairsAfter(TargetFlags(llvmTriple, level, sysroot), "-L", libraryPath, "-isystem", includes);
  }

  /** From index `start` on, `r` holds `flag` and each of `xs` in turn. */
  ghost predicate PairsAt(r: seq<string>, start: nat, flag: string, xs: seq<string>) {
    && start + 2 * |xs| <= |r|
    && forall i :: 0 <= i < |xs| ==> r[start + 2 * i] == flag && r[start + 2 * i + 1] == xs[i]
  }

  /** Index arithmetic for a head followed by two runs of pairs. */
  lemma PairsAfter(head: seq<string>, first: string, xs: seq<string>, second: string, ys: seq<string>)
    ensures var r := head + PairFlags(first, xs) + PairFlags(second, ys);
      && |r| == |head| + 2 * |xs| + 2 * |ys|
      && r[..|head|] == head
      && PairsAt(r, |head|, first, xs)
      && PairsAt(r, |head| + 2 * |xs|, second, ys)
  {
    var front := head + PairFlags(first, xs);
    PairsBetween(head, first, xs, PairFlags(second, ys));
    PairsBetween(front, second, ys, []);
    assert front + PairFlags(second, ys) + [] == front + PairFlags(second, ys);
  }

  /** The pairs of one run sit right after what precedes them. */
  lemma PairsBetween(pre: seq<string>, flag: string, xs: seq<string>, post: seq<string>)
    ensures var r := pre + PairFlags(flag, xs) + post;
      r[..|pre|] == pre && PairsAt(r, |pre|, flag, xs)
  {
    var p := PairFlags(flag, xs);
    var r := pre + p + post;
    assert r[..|pre|] == pre;
    forall i | 0 <= i < |xs|
      ensures r[|pre| + 2 * i] == flag && r[|pre| + 2 * i + 1] == xs[i]
    {
      assert r[|pre| + 2 * i] == p[2 * i];
      assert r[|pre| + 2 * i + 1] == p[2 * i + 1];
    }
  }

  /** Every compile starts with the fixed flags; "-mstackrealign" follows
      them exactly for x86 below level 24, and the format-security flag
      closes the list. */
  lemma CompilerFlagsShape(arch: string, level: int, armFlags: seq<string>, disableFormatStringChecks: bool)
    ensures var r := CompilerFlags(arch, level, armFlags, disableFormatStringChecks);
      && BaseCompilerFlags <= r
      && (r[|BaseCompilerFlags|] == "-mstackrealign" <==> arch == "x86" && level < 24)
      && r[|r| - 1] == (if disableFormatStringChecks then "-Wno-error=format-security" else "-Werror=format-security")
  {
    var r := CompilerFlags(arch, level, armFlags, disableFormatStringChecks);
    var realign: seq<string> := if arch == "x86" && level < 24 then ["-mstackrealign"] else [];
    var rest := realign + ["-fno-addrsig"] + armFlags + ["-Wa,--noexecstack"] + FormatFlags(disableFormatStringChecks);
    assert r == BaseCompilerFlags + rest;
    assert r[|BaseCompilerFlags|] == rest[0];
  }

  /** The C++ flags start with libc++, and each feature contributes
      "-f<feature>" after the STL's own flags, in order. */
  lemma CxxFlagsOrder(stlCxx: seq<string>, features: seq<string>)
    ensures var r := CxxFlags(stlCxx, features);
      && |r| == 1 + |stlCxx| + |features|
      && r[0] == "-stdlib=libc++"
      && forall i :: 0 <= i < |features| ==> r[1 + |stlCxx| + i] == "-f" + features[i]
  {
  }

  /** The compiler flag list of `configure`, grown one addition at a time. */
  method BuildCompilerFlags(arch: string, level: int, armMode: string, isNeon: bool, disableFormatStringChecks: bool)
    returns (flags: seq<string>)
    requires armMode == "arm" || armMode == "thumb"
    ensures flags == CompilerFlags(arch, level, ArmFlags(arch, armMode, isNeon).value, disableFormatStringChecks)
  {
    flags := [];
    flags := flags + BaseCompilerFlags;
    if arch == "x86" && level < 24 {
      flags := flags + ["-mstackrealign"];
    }
    flags := flags + ["-fno-addrsig"];
    ghost var armStart := flags;
    assert armStart == BaseCompilerFlags + (if arch == "x86" && level < 24 then ["-mstackrealign"] else []) + ["-fno-addrsig"];
    if arch == "armeabi" {
      flags := flags + ["-march=armv7-a"];
      if armMode == "thumb" {
        flags := flags + ["-mthumb"];
      } else if armMode != "arm" {
        assert false;
      }
      if arch == "armeabi-v7a" && isNeon {
        flags := flags + ["-mfpu=neon"];
      }
    }
    ghost var armFlags := ArmFlags(arch, armMode, isNeon).value;
    assert flags == armStart + armFlags;
    flags := flags + ["-Wa,--noexecstack"];
    ghost var formatStart := flags;
    if disableFormatStringChecks {
      flags := flags + ["-Wno-error=format-security"];
    } else {
      flags := flags + ["-Wformat", "-Werror=format-security"];
    }
    assert flags == formatStart + FormatFlags(disableFormatStringChecks);
  }

  /** The C++ flag list: libc++, the STL's own flags, then "-f<feature>" for
      each feature in order. */
  method BuildCxxFlags(stlCxx: seq<string>, features: seq<string>) returns (flags: seq<string>)
    ensures flags == CxxFlags(stlCxx, features)
  {
    flags := ["-stdlib=libc++"] + stlCxx;
    var i := 0;
    while i < |features|
      invariant 0 <= i <= |features|
      invariant flags == ["-stdlib=libc++"] + stlCxx + FeatureFlags(features[..i])
    {
      flags := flags + ["-f" + features[i]];
      i := i + 1;
      assert features[..i][..i - 1] == features[..i - 1];
    }
    assert features[..i] == features;
  }

  /** The linker flag list of `configure`, grown one addition at a time. */
  method BuildLinkerFlags(stlLinker: seq<string>, stl: string, arch: string) returns (flags: seq<string>)
    ensures flags == LinkerFlags(stlLinker, stl, arch)
  {
    flags := [];
    flags := flags + ["-Wl,--exclude-libs,libgcc.a"];
    flags := flags + ["-Wl,--exclude-libs,libatomic.a"];
    flags := flags + stlLinker;
    flags := flags + ["-Wl,--build-id", "-Wl,--warn-shared-textrel", "-Wl,--fatal-warnings"];
    if stl == "c++_" && arch == "armeabi" {
      flags := flags + ["-Wl,--exclude-libs,libunwind.a"];
    }
    flags := flags + ["-Qunused-arguments"];
    flags := flags + ["-Wl,-z,noexecstack"];
  }

  /** `paths.flatMap { listOf(flag, it) }` appended to `flags`. */
  method AppendPairs(flags: seq<string>, flag: string, paths: seq<string>) returns (r: seq<string>)
    ensures r == flags + PairFlags(flag, paths)
  {
    r := flags;
    var j := 0;
    while j < |paths|
      invariant 0 <= j <= |paths|
      invariant r == flags + PairFlags(flag, paths[..j])
    {
      r := r + [flag, paths[j]];
      j := j + 1;
      assert paths[..j][..j - 1] == paths[..j - 1];
    }
    assert paths[..j] == paths;
  }

  /** `ANDROID_PLATFORM_LEVEL` as `configure` computes it: the api, raised in
      place to the minimum and then to 21 for a 64-bit ABI name, and refused
      above the maximum. */
  method RaiseLevel(api: int, arch: string, platforms: map<string, string>) returns (r: Result<int, ConfigError>)
    ensures r == EffectiveLevel(api, arch, platforms)
  {
    var level := api;
    var min := PlatformLevel(platforms, MinLevelKey);
    if min.Err? {
      return Err(min.error);
    }
    if min.value > level {
      level := min.value;
    }
    if level < 21 && Is64BitAbi(arch) {
      level := 21;
    }
    var max := PlatformLevel(platforms, MaxLevelKey);
    if max.Err? {
      return Err(max.error);
    }
    if max.value < level {
      return Err(LevelAboveMaximum(level, max.value));
    }
    return Ok(level);
  }

  /** The checks of `configure` as it makes them, each failure returned at the
      point where the source throws. */
  method CheckConfiguration(input: ConfigInput) returns (r: Result<Settings, ConfigError>)
    ensures r == Settle(input)
  {
    if input.ndkDir.None? {
      return Err(NdkNotFound);
    }
    var options := input.options;
    var arch := input.target.arch;
    var valid := ValidateSourceProperties(input.files.description, input.files.revision);
    if valid.Fail? {
      return Err(valid.error);
    }
    var platforms := ReadPlatformsFile(input.files.platforms);
    if platforms.Err? {
      return Err(platforms.error);
    }
    var level := RaiseLevel(input.target.api, arch, platforms.value);
    if level.Err? {
      return Err(level.error);
    }
    assert Settle(input) == SettleOptions(input.ndkDir.value, input, level.value);
    var armMode := if options.armMode == "arm" then "arm" else "thumb";
    var features := SelectCppFeatures(options);
    var stl := Trim(options.stl);
    var stlCxx: seq<string> := [];
    var stlLinker: seq<string> := [];
    if stl == "c++_static" {
      stlLinker := ["-static-libc++"];
    } else if stl == "c++_shared" || stl == "" {
      stlCxx := ["-nostdinc++"];
      stlLinker := ["-nostdlib++"];
    } else {
      return Err(InvalidStl(options.stl));
    }
    var hostTag := HostTag(input.host);
    if hostTag.Err? {
      return Err(hostTag.error);
    }
    ghost var partial := Settings(input.ndkDir.value, level.value, (stlCxx, stlLinker), hostTag.value, features, []);
    assert SettleOptions(input.ndkDir.value, input, level.value) == SettleFeatures(partial, input);
    var invalid := InvalidFeatures(features);
    if |invalid| > 0 {
      return Err(InvalidCppFeatures(invalid));
    }
    var armFlags := ArmFlags(arch, armMode, options.isNeon);
    if armFlags.Err? {
      // The normalised mode is "arm" or "thumb", so the ARM-mode exception
      // cannot be thrown.
      assert false;
    }
    assert ArmMode(options.armMode) == armMode;
    assert SettleFeatures(partial, input) == Ok(partial.(armFlags := armFlags.value));
    return Ok(Settings(input.ndkDir.value, level.value, (stlCxx, stlLinker), hostTag.value, features, armFlags.value));
  }

  /** The plan as `configure` assembles it from the settled values, each flag
      list grown one addition at a time. */
  method BuildPlan(input: ConfigInput, st: Settings) returns (plan: seq<ToolConfig>)
    requires ArmFlags(input.target.arch, ArmMode(input.options.armMode), input.options.isNeon) == Ok(st.armFlags)
    ensures plan == PlanFor(input, st)
  {
    var options := input.options;
    var target := input.target;
    var root := ToolchainRoot(st.ndk, st.hostTag);
    var sysroot := Sysroot(root);
    var armMode := if options.armMode == "arm" then "arm" else "thumb";
    assert ArmMode(options.armMode) == armMode;
    var compilerFlags := BuildCompilerFlags(target.arch, st.level, armMode, options.isNeon, options.disableFormatStringChecks);
    var cxxFlags := BuildCxxFlags(st.stl.0, st.features);
    var linkerFlags := BuildLinkerFlags(st.stl.1, options.stl, target.arch);
    var additional := ["--target=" + target.llvmTriple + IntToString(st.level), "-fno-addrsig", "-isysroot", sysroot];
    additional := AppendPairs(additional, "-L", LibraryPath(sysroot, target.toolchainName, st.level));
    additional := AppendPairs(additional, "-isystem", SystemIncludes(root, sysroot, target.toolchainName));
    plan := Plan(root, target.toolchainName, ExeSuffix(input.host), compilerFlags, cxxFlags, linkerFlags, additional);
  }

  /** `configure` as it runs: the checks, the plan, and the seven tools pushed
      into the registry one by one. Its outcome and the registry it leaves are
      those `Resolve` describes: nothing is registered when a check fails. */
  method Configure(input: ConfigInput, toolChain: PlatformToolChain) returns (r: Outcome<ConfigError>)
    requires toolChain.Valid()
    modifies toolChain
    ensures toolChain.Valid()
    ensures toolChain.canUseCommandFile == old(toolChain.canUseCommandFile)
    ensures toolChain.compilerProbeArgs == old(toolChain.compilerProbeArgs)
    ensures Resolve(input).Err? ==> r == Fail(Resolve(input).error) && toolChain.tools == old(toolChain.tools)
    ensures Resolve(input).Ok? ==> r == Pass && toolChain.tools == AddAll(old(toolChain.tools), Resolve(input).value)
  {
    var settled := CheckConfiguration(input);
    if settled.Err? {
      return Fail(settled.error);
    }
    SettledValues(input);
    var plan := BuildPlan(input, settled.value);
    assert Resolve(input) == Ok(plan);
    toolChain.AddEach(plan);
    return Pass;
  }
}
