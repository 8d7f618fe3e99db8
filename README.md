# Android C++ tool chain for Gradle — a verified model

This project models the logic of a Gradle plugin that builds C and C++
libraries for Android with the NDK's clang, the way the NDK's own
`android.toolchain.cmake` does. It also models the sample build tooling
that ships with the plugin: the Boost sample's dependency wiring, the
dummy-source symbol names and the build's calendar version. Each Dafny
module follows one source file or one small group of them:

- `AndroidTarget` (`android_info.dfy`) covers an Android target (API level and ABI). It gives its platform name and its clang and binutils target prefixes.
- `NdkToolchainConfig` (`ndk_config.dfy`) is the first revision of the resolver. It covers the NDK host tag, the `platforms.cmake` bounds parser and the `source.properties` checks. It also clamps the API level and chooses the STL, ARM-mode, C++-feature and format-check flags. The result is a plan of seven tools that goes into the tool registry. In the source, both resolvers write into Gradle's `DefaultGccPlatformToolChain`, which is not part of this model; the registry modelled here is the plugin's own `DefaultAndroidClangPlatformToolChain` (`ToolRegistry.PlatformToolChain`), standing in for it.
- `ToolChainExtensions` (`toolchain_ext.dfy`) is the second revision of the resolver: the `configure` extension on Gradle's GCC platform tool chain. It records the platform bounds on the target in place, in the `ApiBounds` class.
- `ToolRegistry` (`tool_registry.dfy`) is the per-platform tool registry, a class whose tool map, probe arguments and command-file flag change in place.
- `CompilerArgs` and `LinkArgs` (`compiler_args.dfy`, `link_args.dfy`) build command lines:
  - compile arguments, with the macro, user, include and NDK-filtered system-include parts;
  - output and precompiled-header arguments, and the assembler's refusal of precompiled headers;
  - linker and `ar` arguments;
  - the archiver's removal of a stale archive, on a `FileSystem` class;
  - the options-file rule that keeps `-m32`/`-m64` on the command line.
- `CompilerMetadata` (`metadata.dfy`) is the parser of `clang -dM -E -v -` output, and the metadata value with its getters. `MetadataCache` (`metadata_cache.dfy`) is the memoising provider, a class over a map from cache keys to probe results.
- `ToolChainSelection` (`toolchain_select.dfy`) covers tool-chain selection per source language, the per-target provider memo and the per-search-path compiler probe memo. `PlatformToolProvider` (`tool_provider.dfy`) covers the provider's file-naming rules, its probe arguments and the compilers it can create.
- `NdkLocation` (`ndk_location.dfy`) is the NDK lookup: `ndk.dir` in `local.properties`, else `ANDROID_NDK_HOME`. It also holds the options of the `android` extension, with the fallback chain of its NDK directory.
- `BoostCMake`, `GitModules`, `BoostDependencies` and `BoostPackageData` cover the Boost sample:
  - the `target_link_libraries` scraper;
  - the `.gitmodules` sub-project list;
  - upstream source paths, custom and nested dependencies, and which of them become `implementation` dependencies;
  - the earlier plugin's in-place package-data rewriting.
- `Symbols` (`symbols.dfy`) is the symbol of a generated dummy source. `CalVer` (`calver.dfy`) is the calendar version built from the branch and the HEAD commit time.
- `Strings` and `Paths` (`strings.dfy`, `paths.dfy`) state the Kotlin and Java library operations the code relies on, with their edge cases. Examples: `substringAfter`/`substringBefore` return the whole string when the delimiter is missing; `lines` and `trim` keep their Kotlin edge cases (which terminators split a line, which characters are trimmed), and `toInt` keeps its 32-bit range; `java.io.File(parent, child)` joins paths with '/' as on a Unix host, without normalisation. `Wrappers` holds `Option`, `Result` and `Outcome`.

Kotlin's `String.matches(Regex)` matches the whole string. So the model writes each fixed pattern as a literal whole-string predicate. The 64-bit raise of the API level fires only for the ABI names "64" and "64-v8a". The `armeabi` tests fire only for "armeabi". The STL test fires only for "c++_". None of these is one of the plugin's own ABI names.

The file system, the environment, the tool search path and the compiler process are inputs. Existence is a set of paths, properties files arrive already parsed as maps, and the environment is a map. Locating a tool, configuring a fresh registry and probing a compiler are functions passed in.

## Model

| member | source | states |
|---|---|---|
| AndroidTarget.AndroidInfo.PlatformName | plugin/src/main/kotlin/dev/anatolii/gradle/cpp/android/AndroidInfo.kt:12 | the platform name starts with "android" and ends with "_" followed by the arch |
| AndroidTarget.AndroidInfo.TargetPrefix | plugin/src/main/kotlin/dev/anatolii/gradle/cpp/android/AndroidInfo.kt:14-16 | the clang target prefix carries the "eabi" suffix exactly when the arch is armv7 |
| AndroidTarget.AndroidInfo.ToolsPrefix | plugin/src/main/kotlin/dev/anatolii/gradle/cpp/android/AndroidInfo.kt:18-20 | the binutils prefix carries the "eabi" suffix exactly when the arch is armv7 |
| AndroidTarget.DecodePlatformNameOfPlatformName | plugin/src/main/kotlin/dev/anatolii/gradle/cpp/android/AndroidInfo.kt:12 | a platform name with a 32-bit api decodes back to the same (api, arch) pair |
| AndroidTarget.PlatformNameInjective | plugin/src/main/kotlin/dev/anatolii/gradle/cpp/android/AndroidInfo.kt:12 | two targets with 32-bit apis and equal platform names are equal, so a platform name can key the provider memo |
| AndroidTarget.TargetPrefixTable | plugin/src/main/kotlin/dev/anatolii/gradle/cpp/android/AndroidInfo.kt:14-16 | armv8, armv7 and x86 map to aarch64-linux-android, armv7a-linux-androideabi and i686-linux-android |
| AndroidTarget.Armv8Prefix | plugin/src/main/kotlin/dev/anatolii/gradle/cpp/android/AndroidInfo.kt:14 | armv8 gets the target prefix aarch64-linux-android |
| AndroidTarget.Armv7Prefix | plugin/src/main/kotlin/dev/anatolii/gradle/cpp/android/AndroidInfo.kt:14-16 | armv7 gets the target prefix armv7a-linux-androideabi |
| AndroidTarget.X86Prefix | plugin/src/main/kotlin/dev/anatolii/gradle/cpp/android/AndroidInfo.kt:15 | x86 gets the target prefix i686-linux-android |
| AndroidTarget.UnknownArchFallsThrough | plugin/src/main/kotlin/dev/anatolii/gradle/cpp/android/AndroidInfo.kt:14-20 | every arch other than armv8, armv7 and x86 gets x86_64-linux-android as both target and tools prefix |
| AndroidTarget.ToolsPrefixVersusTargetPrefix | plugin/src/main/kotlin/dev/anatolii/gradle/cpp/android/AndroidInfo.kt:14-20 | the two prefixes are equal except for armv7, where they differ only in the stem "arm" against "armv7a" |
| ToolRegistry.AddAll | plugin/src/main/kotlin/dev/anatolii/gradle/cpp/android/toolchain/DefaultAndroidClangPlatformToolChain.kt:49-51 | after adding a list of tools, the registry's types are exactly the earlier types plus those of the added tools |
| ToolRegistry.AddAllLastWins | plugin/src/main/kotlin/dev/anatolii/gradle/cpp/android/toolchain/DefaultAndroidClangPlatformToolChain.kt:49-51 | the last tool added for a type is the one stored under it |
| ToolRegistry.PlatformToolChain.constructor | plugin/src/main/kotlin/dev/anatolii/gradle/cpp/android/toolchain/DefaultAndroidClangPlatformToolChain.kt:10-14 | a new platform tool chain has no tools, no probe arguments and may use a command file |
| ToolRegistry.PlatformToolChain.GetTool | plugin/src/main/kotlin/dev/anatolii/gradle/cpp/android/toolchain/DefaultAndroidClangPlatformToolChain.kt:16-18 | succeeds exactly when the type was registered, with the registered tool, and fails with "not registered" for that type otherwise |
| ToolRegistry.PlatformToolChain.Add | plugin/src/main/kotlin/dev/anatolii/gradle/cpp/android/toolchain/DefaultAndroidClangPlatformToolChain.kt:49-51 | stores the tool under its own type, replacing an earlier one, and changes nothing else |
| ToolRegistry.PlatformToolChain.AddEach | plugin/src/main/kotlin/dev/anatolii/gradle/cpp/android/toolchain/DefaultAndroidClangPlatformToolChain.kt:49-51 | adding tools one after the other leaves the registry that AddAll describes |
| ToolRegistry.PlatformToolChain.SetCanUseCommandFile | plugin/src/main/kotlin/dev/anatolii/gradle/cpp/android/toolchain/DefaultAndroidClangPlatformToolChain.kt:29-31 | sets the command-file flag and leaves tools and probe arguments alone |
| ToolRegistry.PlatformToolChain.AddCompilerProbeArgs | plugin/src/main/kotlin/dev/anatolii/gradle/cpp/android/toolchain/DefaultAndroidClangPlatformToolChain.kt:37-39 | appends the arguments, in order, to the probe arguments |
| ToolRegistry.PlatformToolChain.GetCompilers | plugin/src/main/kotlin/dev/anatolii/gradle/cpp/android/toolchain/DefaultAndroidClangPlatformToolChain.kt:45-47 | the C then the C++ compiler; fails naming the C compiler first when it is missing, else the C++ compiler |
| ToolRegistry.PlatformToolChain.Named | plugin/src/main/kotlin/dev/anatolii/gradle/cpp/android/toolchain/DefaultAndroidClangPlatformToolChain.kt:53-79 | each named getter succeeds exactly when its type is registered, returning the registered tool (as getTool does); otherwise it fails with "not registered" for that type |
| ToolRegistry.GetToolAfterAddAll | plugin/src/main/kotlin/dev/anatolii/gradle/cpp/android/toolchain/DefaultAndroidClangPlatformToolChain.kt:16-18 | a registry filled from a list answers each type with its last entry in the list |
| ToolChainSelection.LocateRegistered | plugin/src/main/kotlin/dev/anatolii/gradle/cpp/android/toolchain/AndroidClangToolChain.kt:64-66 | a tool is searched for under its type with its registered executable, and with no executable when none is registered |
| ToolChainSelection.LocateTool | plugin/src/main/kotlin/dev/anatolii/gradle/cpp/android/toolchain/AndroidClangToolChain.kt:79-88 | an unavailable provider reports its own failure for every tool; an Android provider searches its registry |
| ToolChainSelection.SelectFrom | plugin/src/main/kotlin/dev/anatolii/gradle/cpp/android/toolchain/AndroidClangToolChain.kt:72-107 | another language is unsupported; an unsupported provider is passed through; for C++ the provider is returned exactly when the C++ compiler is found, and otherwise is unavailable with that search's failure; for any language it is returned exactly when one of the C, C++, Objective-C and Objective-C++ compilers is found, and otherwise is unavailable with the C compiler's failure |
| ToolChainSelection.SelectKeepsUnavailable | plugin/src/main/kotlin/dev/anatolii/gradle/cpp/android/toolchain/AndroidClangToolChain.kt:72-104 | an unavailable provider stays unavailable, with the same failure, for C++ and for any language |
| ToolChainSelection.FirstLocated | plugin/src/main/kotlin/dev/anatolii/gradle/cpp/android/toolchain/AndroidClangToolChain.kt:142-144 | the index of the first compiler found on the search path: none before it is found |
| ToolChainSelection.InitToolsWithoutCompiler | plugin/src/main/kotlin/dev/anatolii/gradle/cpp/android/toolchain/AndroidClangToolChain.kt:140-159 | with no compiler on the search path nothing is probed and the tool chain is available |
| ToolChainSelection.InitToolsKeepsEntries | plugin/src/main/kotlin/dev/anatolii/gradle/cpp/android/toolchain/AndroidClangToolChain.kt:145-149 | initialising tools only ever adds the entry for the current search path to the probe cache; every earlier entry is kept unchanged |
| ToolChainSelection.InitToolsKeyedByPathOnly | plugin/src/main/kotlin/dev/anatolii/gradle/cpp/android/toolchain/AndroidClangToolChain.kt:145-153 | once the search path has a cached probe result, it is reused whichever compiler was found, and the tool chain is unavailable exactly when that result is |
| ToolChainSelection.CreateOutcome | plugin/src/main/kotlin/dev/anatolii/gradle/cpp/android/toolchain/AndroidClangToolChain.kt:116-138 | a configuration error is passed on; otherwise the provider is unavailable or is the Android provider for this target and its configured registry |
| ToolChainSelection.CreateOutcomeUnavailableIff | plugin/src/main/kotlin/dev/anatolii/gradle/cpp/android/toolchain/AndroidClangToolChain.kt:123-158 | the new provider is unavailable exactly when a compiler is found and its cached or newly probed metadata is missing |
| ToolChainSelection.ProviderLookup | plugin/src/main/kotlin/dev/anatolii/gradle/cpp/android/toolchain/AndroidClangToolChain.kt:109-114 | a platform name that does not decode gives an unsupported provider and leaves both memo tables unchanged |
| ToolChainSelection.ProviderLookupIsMemoised | plugin/src/main/kotlin/dev/anatolii/gradle/cpp/android/toolchain/AndroidClangToolChain.kt:113 | asking again for the same platform returns the remembered provider and changes nothing, even if configuring or probing would now answer differently |
| ToolChainSelection.ProviderLookupTouchesOneTarget | plugin/src/main/kotlin/dev/anatolii/gradle/cpp/android/toolchain/AndroidClangToolChain.kt:113 | a lookup keeps every remembered provider and adds at most the one for the decoded target |
| ToolChainSelection.SelectOtherLanguage | plugin/src/main/kotlin/dev/anatolii/gradle/cpp/android/toolchain/AndroidClangToolChain.kt:105-114 | a language other than C++ or any language is unsupported, yet the platform's provider is still created and remembered |
| ToolChainSelection.SelectUnknownPlatform | plugin/src/main/kotlin/dev/anatolii/gradle/cpp/android/toolchain/AndroidClangToolChain.kt:109-111 | for a platform name that does not decode, selection is unsupported and nothing is remembered |
| ToolChainSelection.CompilerDataStore.constructor | plugin/src/main/kotlin/dev/anatolii/gradle/cpp/android/toolchain/AndroidClangToolChain.kt:56 | the process-wide probe cache starts empty |
| ToolChainSelection.AndroidClangToolChain.constructor | plugin/src/main/kotlin/dev/anatolii/gradle/cpp/android/toolchain/AndroidClangToolChain.kt:31-52 | a new tool chain remembers no providers and shares the given probe cache |
| ToolChainSelection.AndroidClangToolChain.GetTypeName | plugin/src/main/kotlin/dev/anatolii/gradle/cpp/android/toolchain/AndroidClangToolChain.kt:60-62 | the type name is "Android Clang" |
| ToolChainSelection.AndroidClangToolChain.InitTools | plugin/src/main/kotlin/dev/anatolii/gradle/cpp/android/toolchain/AndroidClangToolChain.kt:140-159 | the loop leaves the availability and the probe cache that InitToolsOutcome describes |
| ToolChainSelection.AndroidClangToolChain.CreatePlatformToolProvider | plugin/src/main/kotlin/dev/anatolii/gradle/cpp/android/toolchain/AndroidClangToolChain.kt:116-138 | returns CreateOutcome's provider and stores its probe cache; a configuration error changes nothing |
| ToolChainSelection.AndroidClangToolChain.GetProviderForPlatform | plugin/src/main/kotlin/dev/anatolii/gradle/cpp/android/toolchain/AndroidClangToolChain.kt:109-114 | returns ProviderLookup's provider and leaves the memo tables as ProviderLookup describes |
| ToolChainSelection.AndroidClangToolChain.Select | plugin/src/main/kotlin/dev/anatolii/gradle/cpp/android/toolchain/AndroidClangToolChain.kt:72-107 | returns SelectOutcome's provider and leaves the memo tables as it describes |
| ToolChainSelection.AndroidClangToolChain.SelectForAnyLanguage | plugin/src/main/kotlin/dev/anatolii/gradle/cpp/android/toolchain/AndroidClangToolChain.kt:68-70 | selection without a language is selection for any language |
| PlatformToolProvider.NameWithoutExtension | plugin/src/main/kotlin/dev/anatolii/gradle/cpp/android/toolchain/AndroidClangPlatformToolProvider.kt:53-64 | a file name without its extension is a prefix of the name and has no '/' when the name has none |
| PlatformToolProvider.NamePart | plugin/src/main/kotlin/dev/anatolii/gradle/cpp/android/toolchain/AndroidClangPlatformToolProvider.kt:53-64 | the file name has no '/' and the directory part followed by the name gives back the path |
| PlatformToolProvider.SplitOfJoin | plugin/src/main/kotlin/dev/anatolii/gradle/cpp/android/toolchain/AndroidClangPlatformToolProvider.kt:53-64 | splitting a directory (empty or ending in '/') joined to a plain name gives back both |
| PlatformToolProvider.ReplaceExtension | plugin/src/main/kotlin/dev/anatolii/gradle/cpp/android/toolchain/AndroidClangPlatformToolProvider.kt:52-65 | the result ends in the new extension, keeps the directory, and its name is the old stem followed by the new extension |
| PlatformToolProvider.NameWithoutSimpleExtension | plugin/src/main/kotlin/dev/anatolii/gradle/cpp/android/toolchain/AndroidClangPlatformToolProvider.kt:53-64 | stripping a simple extension from stem plus extension gives back the stem |
| PlatformToolProvider.ReplaceExtensionTwice | plugin/src/main/kotlin/dev/anatolii/gradle/cpp/android/toolchain/AndroidClangPlatformToolProvider.kt:52-65 | replacing the extension twice is the same as replacing it once with the second one |
| PlatformToolProvider.ExecutableName | plugin/src/main/kotlin/dev/anatolii/gradle/cpp/android/toolchain/AndroidClangPlatformToolProvider.kt:49 | an executable's name is its path unchanged |
| PlatformToolProvider.SharedLibraryName | plugin/src/main/kotlin/dev/anatolii/gradle/cpp/android/toolchain/AndroidClangPlatformToolProvider.kt:51-54 | a shared library name ends in ".so" and is unchanged when its extension is replaced by ".so" again |
| PlatformToolProvider.SharedLibraryLinkFileName | plugin/src/main/kotlin/dev/anatolii/gradle/cpp/android/toolchain/AndroidClangPlatformToolProvider.kt:58-60 | the link file of a shared library is the shared library itself |
| PlatformToolProvider.StaticLibraryName | plugin/src/main/kotlin/dev/anatolii/gradle/cpp/android/toolchain/AndroidClangPlatformToolProvider.kt:62-65 | a static library name ends in ".a" and is unchanged when its extension is replaced by ".a" again |
| PlatformToolProvider.SharedAndStaticShareStem | plugin/src/main/kotlin/dev/anatolii/gradle/cpp/android/toolchain/AndroidClangPlatformToolProvider.kt:51-65 | the shared and static library names of one library differ only in the extension: each becomes the other when its extension is replaced |
| PlatformToolProvider.LanguageFor | plugin/src/main/kotlin/dev/anatolii/gradle/cpp/android/toolchain/AndroidClangPlatformToolProvider.kt:42-47 | only the C and C++ compilers have a language |
| PlatformToolProvider.LanguageArgs | plugin/src/main/kotlin/dev/anatolii/gradle/cpp/android/toolchain/AndroidClangPlatformToolProvider.kt:266-267 | the probe gets "-x c" for the C compiler, "-x c++" for the C++ compiler and nothing for other tools |
| PlatformToolProvider.GetGccMetadata | plugin/src/main/kotlin/dev/anatolii/gradle/cpp/android/toolchain/AndroidClangPlatformToolProvider.kt:263-278 | fails, with the search's failure, exactly when the metadata search (MetadataSearch) finds nothing; otherwise it is the probe of the found executable with the language arguments |
| PlatformToolProvider.MetadataSearch | plugin/src/main/kotlin/dev/anatolii/gradle/cpp/android/toolchain/AndroidClangPlatformToolProvider.kt:264-265 | a registered tool is searched for under its own type and executable; with no tool of that type registered, the search has neither a type nor an executable |
| PlatformToolProvider.MetadataSearchOfRegistered | plugin/src/main/kotlin/dev/anatolii/gradle/cpp/android/toolchain/AndroidClangPlatformToolProvider.kt:264-265 | for a registry storing each tool under its own type, the metadata search of a registered tool is the search locateTool makes (lines 67-68) |
| PlatformToolProvider.GetSystemLibraries | plugin/src/main/kotlin/dev/anatolii/gradle/cpp/android/toolchain/AndroidClangPlatformToolProvider.kt:71-76 | the system libraries of a compiler whose metadata was found, empty libraries when it is missing, and a failure when the compiler is not found |
| PlatformToolProvider.VersionOf | plugin/src/main/kotlin/dev/anatolii/gradle/cpp/android/toolchain/AndroidClangPlatformToolProvider.kt:112-129 | a version exists exactly when the compiler is found and its metadata is available, and carries the compiler type, vendor and version; otherwise the metadata's explanation is the error |
| PlatformToolProvider.Context | plugin/src/main/kotlin/dev/anatolii/gradle/cpp/android/toolchain/AndroidClangPlatformToolProvider.kt:247-257 | a tool context has the search path and the tool's arguments, and sets DEVELOPER_DIR exactly when it is set in the environment, to the same value |
| PlatformToolProvider.CreateCompilerSucceedsIff | plugin/src/main/kotlin/dev/anatolii/gradle/cpp/android/toolchain/AndroidClangPlatformToolProvider.kt:78-233 | a compiler is created exactly when it is not Objective-C, its tool is registered and, for the version-aware compilers and the linker, its metadata is available |
| PlatformToolProvider.ObjectiveCIsUnsupported | plugin/src/main/kotlin/dev/anatolii/gradle/cpp/android/toolchain/AndroidClangPlatformToolProvider.kt:165-179 | every Objective-C and Objective-C++ compiler fails as unsupported, naming its own tool type |
| PlatformToolProvider.CreatedCompilerSetup | plugin/src/main/kotlin/dev/anatolii/gradle/cpp/android/toolchain/AndroidClangPlatformToolProvider.kt:78-233 | a created tool uses the registered tool's type, the located executable and its context; compilers and the assembler write ".o", PCH compilers ".h.gch"; the assembler never uses a command file and the compilers and linker follow the registry; exactly the version-aware tools carry the probed version |
| CompilerMetadata.SkipSpaces | plugin/src/main/kotlin/dev/anatolii/gradle/cpp/android/metadata/AndroidClangMetaDataProvider.kt:21 | the index after the run of regex white space starting at a position: everything skipped is white space and the next character is not |
| CompilerMetadata.SkipNonSpaces | plugin/src/main/kotlin/dev/anatolii/gradle/cpp/android/metadata/AndroidClangMetaDataProvider.kt:21 | the index after the run of non-white-space starting at a position: nothing skipped is white space and the next character is |
| CompilerMetadata.MatchDefine | plugin/src/main/kotlin/dev/anatolii/gradle/cpp/android/metadata/AndroidClangMetaDataProvider.kt:21-100 | a matched #define line gives a non-empty name without white space, and a value with no line terminator that does not start with white space |
| CompilerMetadata.MatchDefineOfRendering | plugin/src/main/kotlin/dev/anatolii/gradle/cpp/android/metadata/AndroidClangMetaDataProvider.kt:21-100 | the line "#define NAME VALUE" matches and gives back exactly that name and value, for every name and value the pattern can give |
| CompilerMetadata.SkipNonSpacesRun | plugin/src/main/kotlin/dev/anatolii/gradle/cpp/android/metadata/AndroidClangMetaDataProvider.kt:21 | the non-space run from a position ends at the first white-space character |
| CompilerMetadata.MatchAll | plugin/src/main/kotlin/dev/anatolii/gradle/cpp/android/metadata/AndroidClangMetaDataProvider.kt:92-102 | no lines fail to match exactly when some line fails; otherwise every line's name and value, in order |
| CompilerMetadata.CollectLastWins | plugin/src/main/kotlin/dev/anatolii/gradle/cpp/android/metadata/AndroidClangMetaDataProvider.kt:100 | storing pairs one after the other keeps every name, each with the value of its last pair |
| CompilerMetadata.DefinesOf | plugin/src/main/kotlin/dev/anatolii/gradle/cpp/android/metadata/AndroidClangMetaDataProvider.kt:92-102 | fails with "unexpected output" exactly when some output line is not a #define line |
| CompilerMetadata.DefinesLastWins | plugin/src/main/kotlin/dev/anatolii/gradle/cpp/android/metadata/AndroidClangMetaDataProvider.kt:92-102 | every #define line's name is in the map, and each name maps to the value of its last #define line |
| CompilerMetadata.Defines | plugin/src/main/kotlin/dev/anatolii/gradle/cpp/android/metadata/AndroidClangMetaDataProvider.kt:90-109 | succeeds exactly when every line is a #define (DefinesOf) and __GNUC__ or __clang__ is defined, and a success is DefinesOf's last-wins map; every failure is "unexpected output" |
| CompilerMetadata.ParseDefines | plugin/src/main/kotlin/dev/anatolii/gradle/cpp/android/metadata/AndroidClangMetaDataProvider.kt:90-109 | the line-by-line loop gives the macros Defines describes, or its error |
| CompilerMetadata.MatchAllStep | plugin/src/main/kotlin/dev/anatolii/gradle/cpp/android/metadata/AndroidClangMetaDataProvider.kt:94-101 | matching one more line extends the matches by that line's pair, or fails when that line does not match |
| CompilerMetadata.MatchAllOfPrefix | plugin/src/main/kotlin/dev/anatolii/gradle/cpp/android/metadata/AndroidClangMetaDataProvider.kt:97-98 | a line that fails to match makes the whole output fail, whatever follows it |
| CompilerMetadata.ToInt | plugin/src/main/kotlin/dev/anatolii/gradle/cpp/android/metadata/AndroidClangMetaDataProvider.kt:128-138 | a missing or unparseable value gives 0; every result fits in 32 bits |
| CompilerMetadata.ToIntOfRendering | plugin/src/main/kotlin/dev/anatolii/gradle/cpp/android/metadata/AndroidClangMetaDataProvider.kt:128-138 | the decimal rendering of a 32-bit integer reads back as that integer |
| CompilerMetadata.DetermineVersion | plugin/src/main/kotlin/dev/anatolii/gradle/cpp/android/metadata/AndroidClangMetaDataProvider.kt:111-126 | fails with "appears to be GCC" exactly when __clang__ is not defined |
| CompilerMetadata.DetermineVersionOfMacros | plugin/src/main/kotlin/dev/anatolii/gradle/cpp/android/metadata/AndroidClangMetaDataProvider.kt:111-126 | with __clang__ defined and __clang_major__, __clang_minor__ and __clang_patchlevel__ defined as decimal 32-bit numbers, the version is exactly (major, minor, patch) |
| CompilerMetadata.DetermineVersionWithoutPatchLevel | plugin/src/main/kotlin/dev/anatolii/gradle/cpp/android/metadata/AndroidClangMetaDataProvider.kt:111-126 | with the major and minor macros in decimal and no __clang_patchlevel__, the version is (major, minor, 0), since toInt of a missing macro is 0 |
| CompilerMetadata.FirstSet | plugin/src/main/kotlin/dev/anatolii/gradle/cpp/android/metadata/AndroidClangMetaDataProvider.kt:49-53 | the first set flag from a position, or none exactly when no flag from there on is set |
| CompilerMetadata.FirstVendorLine | plugin/src/main/kotlin/dev/anatolii/gradle/cpp/android/metadata/AndroidClangMetaDataProvider.kt:49-53 | the index of the first vendor line, or none exactly when no line is a vendor line |
| CompilerMetadata.DetermineVendor | plugin/src/main/kotlin/dev/anatolii/gradle/cpp/android/metadata/AndroidClangMetaDataProvider.kt:44-56 | the first line of standard error that contains "major.minor" and " version " but not " default target "; fails with "vendor not found" exactly when there is none |
| CompilerMetadata.FirstLine | plugin/src/main/kotlin/dev/anatolii/gradle/cpp/android/metadata/AndroidClangMetaDataProvider.kt:68-70 | the index of the first line equal to a marker, every line before it being different |
| CompilerMetadata.KeptIncludes | plugin/src/main/kotlin/dev/anatolii/gradle/cpp/android/metadata/AndroidClangMetaDataProvider.kt:75-82 | the kept include lines are never more than the lines scanned |
| CompilerMetadata.ScanStarted | plugin/src/main/kotlin/dev/anatolii/gradle/cpp/android/metadata/AndroidClangMetaDataProvider.kt:66-83 | once the section has started, the scan keeps the trimmed non-framework lines up to the first end marker |
| CompilerMetadata.ScanFindsSection | plugin/src/main/kotlin/dev/anatolii/gradle/cpp/android/metadata/AndroidClangMetaDataProvider.kt:62-83 | the loop's result is the include section: from the first start marker to the first end marker, unless the end comes first |
| CompilerMetadata.EndBeforeStart | plugin/src/main/kotlin/dev/anatolii/gradle/cpp/android/metadata/AndroidClangMetaDataProvider.kt:68-70 | an end marker before any start marker gives no include directories |
| CompilerMetadata.KeepPrefixed | plugin/src/main/kotlin/dev/anatolii/gradle/cpp/android/metadata/AndroidClangMetaDataProvider.kt:84-86 | keeps exactly the paths that start with the NDK path |
| CompilerMetadata.DetermineSystemIncludes | plugin/src/main/kotlin/dev/anatolii/gradle/cpp/android/metadata/AndroidClangMetaDataProvider.kt:58-88 | the loop gives the NDK include directories that SystemIncludes describes |
| CompilerMetadata.ScanStep | plugin/src/main/kotlin/dev/anatolii/gradle/cpp/android/metadata/AndroidClangMetaDataProvider.kt:66-83 | one loop step: stop at the end marker, start at the start marker, keep a trimmed line once started unless it is a framework directory |
| CompilerMetadata.ClangMetadata.GetVersion | plugin/src/main/kotlin/dev/anatolii/gradle/cpp/android/metadata/AndroidClangMetaData.kt:14-16 | the version is the scraped one |
| CompilerMetadata.ClangMetadata.GetIncludeDirs | plugin/src/main/kotlin/dev/anatolii/gradle/cpp/android/metadata/AndroidClangMetaData.kt:18-20 | the include directories are the scraped system includes |
| CompilerMetadata.ClangMetadata.GetLibDirs | plugin/src/main/kotlin/dev/anatolii/gradle/cpp/android/metadata/AndroidClangMetaData.kt:22-24 | there are no library directories |
| CompilerMetadata.ClangMetadata.GetPreprocessorMacros | plugin/src/main/kotlin/dev/anatolii/gradle/cpp/android/metadata/AndroidClangMetaData.kt:26-28 | there are no preprocessor macros |
| CompilerMetadata.ClangMetadata.GetVendor | plugin/src/main/kotlin/dev/anatolii/gradle/cpp/android/metadata/AndroidClangMetaData.kt:30-32 | the vendor is the scraped one |
| CompilerMetadata.ClangMetadata.GetSystemLibraries | plugin/src/main/kotlin/dev/anatolii/gradle/cpp/android/metadata/AndroidClangMetaData.kt:34 | the metadata is its own system libraries |
| CompilerMetadata.ParseCompilerOutputSucceeds | plugin/src/main/kotlin/dev/anatolii/gradle/cpp/android/metadata/AndroidClangMetaDataProvider.kt:35-42 | parsing succeeds exactly when the macros parse, __clang__ is defined and a vendor line is found; every include directory lies under the NDK; the version is the one from the macros |
| CompilerMetadata.ProbeResult | plugin/src/main/kotlin/dev/anatolii/gradle/cpp/android/metadata/AndroidClangMetaDataProvider.kt:35-42 | the probe is available exactly when parsing the compiler output succeeds |
| MetadataCache.KeyOf | plugin/src/main/kotlin/dev/anatolii/gradle/cpp/android/metadata/AndroidClangCachingCompilerMetaDataProvider.kt:17-19 | no key when the configure action sets no executable (the key's non-null compiler file cannot be built); otherwise the key is the configured executable, arguments and environment together with the search path |
| MetadataCache.KeyOfIdentifiesRequests | plugin/src/main/kotlin/dev/anatolii/gradle/cpp/android/metadata/AndroidClangCachingCompilerMetaDataProvider.kt:17-19 | two requests that both have an executable share a key exactly when their search paths and configured specs are equal |
| MetadataCache.CachedLookup | plugin/src/main/kotlin/dev/anatolii/gradle/cpp/android/metadata/AndroidClangCachingCompilerMetaDataProvider.kt:20-25 | a stored key answers from the map and changes nothing; a new key stores the probe's answer, failures included |
| MetadataCache.CachedLookupIsStable | plugin/src/main/kotlin/dev/anatolii/gradle/cpp/android/metadata/AndroidClangCachingCompilerMetaDataProvider.kt:20-25 | a second lookup of the same key returns the first answer and leaves the map alone, whatever a new probe would say |
| MetadataCache.CachedLookupKeepsEntries | plugin/src/main/kotlin/dev/anatolii/gradle/cpp/android/metadata/AndroidClangCachingCompilerMetaDataProvider.kt:20-25 | a lookup keeps every stored entry unchanged |
| MetadataCache.CachingMetadataProvider.constructor | plugin/src/main/kotlin/dev/anatolii/gradle/cpp/android/metadata/AndroidClangCachingCompilerMetaDataProvider.kt:11-13 | a new cache is empty and has asked its delegate nothing |
| MetadataCache.CachingMetadataProvider.GetCompilerType | plugin/src/main/kotlin/dev/anatolii/gradle/cpp/android/metadata/AndroidClangCachingCompilerMetaDataProvider.kt:28-30 | the compiler type is the delegate's |
| MetadataCache.CachingMetadataProvider.GetCompilerMetaData | plugin/src/main/kotlin/dev/anatolii/gradle/cpp/android/metadata/AndroidClangCachingCompilerMetaDataProvider.kt:15-26 | a request without an executable fails and leaves the cache and the delegate untouched; otherwise it answers as CachedLookup does, and asks the delegate once, only on a miss, so that each key is probed at most once |
| CompilerArgs.OptimisationFlags | plugin/src/main/kotlin/dev/anatolii/gradle/cpp/android/compiler/GccCompilerArgsTransformer.kt:53-62 | a debuggable build gets "-O0 -fno-limit-debug-info"; otherwise "-Oz" exactly for armv7 targets and "-O2" for the rest, followed by "-DNDEBUG"; "-DNDEBUG" appears exactly when the build is not debuggable |
| CompilerArgs.MacroFlags | plugin/src/main/kotlin/dev/anatolii/gradle/cpp/android/compiler/GccCompilerArgsTransformer.kt:81-85 | one "-D" argument per converted macro, in order |
| CompilerArgs.FilePairs | plugin/src/main/kotlin/dev/anatolii/gradle/cpp/android/compiler/GccCompilerArgsTransformer.kt:70-78 | each file gives the flag followed by its canonical path, in order |
| CompilerArgs.KeepUnder | plugin/src/main/kotlin/dev/anatolii/gradle/cpp/android/compiler/GccCompilerArgsTransformer.kt:98-100 | keeps exactly the files whose canonical path starts with the prefix |
| CompilerArgs.KeepUnderAppend | plugin/src/main/kotlin/dev/anatolii/gradle/cpp/android/compiler/GccCompilerArgsTransformer.kt:98-100 | the filter keeps order: filtering a concatenation concatenates the filtered parts |
| CompilerArgs.FilterOutNonNdk | plugin/src/main/kotlin/dev/anatolii/gradle/cpp/android/compiler/GccCompilerArgsTransformer.kt:95-101 | fails with "NDK folder must be specified and exist" exactly when the NDK directory is unset or missing; otherwise keeps exactly the roots under its canonical path |
| CompilerArgs.CompilerArgs | plugin/src/main/kotlin/dev/anatolii/gradle/cpp/android/compiler/GccCompilerArgsTransformer.kt:36-43 | the arguments fail, with the NDK-folder error, exactly when the NDK directory is unset or missing |
| CompilerArgs.CompilerArgsLayout | plugin/src/main/kotlin/dev/anatolii/gradle/cpp/android/compiler/GccCompilerArgsTransformer.kt:36-101 | the arguments are "-x language -c" and the optimisation flags, then the macros, then the user arguments, then "-I" pairs for every include root, then "-isystem" pairs for exactly the system roots under the NDK |
| CompilerArgs.DebugPolicy | plugin/src/main/kotlin/dev/anatolii/gradle/cpp/android/compiler/GccCompilerArgsTransformer.kt:45-63 | the tool-specific head has five arguments; a debug build never gets "-DNDEBUG" and a release build gets "-Oz" on armv7, "-O2" elsewhere, then "-DNDEBUG" |
| CompilerArgs.OutputArgs | plugin/src/main/kotlin/dev/anatolii/gradle/cpp/android/compiler/AndroidCompatibleNativeCompiler.kt:36-38 | the output arguments are "-o" and the output file's canonical path |
| CompilerArgs.PchArgs | plugin/src/main/kotlin/dev/anatolii/gradle/cpp/android/compiler/AndroidCompatibleNativeCompiler.kt:44-51 | no prefix header gives no arguments; a prefix header gives "-include" and its canonical path |
| CompilerArgs.AssemblerPerFileArgs | plugin/src/main/kotlin/dev/anatolii/gradle/cpp/android/compiler/Assembler.kt:50-55 | the assembler fails exactly when it is given non-empty precompiled-header arguments, and otherwise passes the arguments on unchanged |
| CompilerArgs.AssemblerRejectsPrefixHeader | plugin/src/main/kotlin/dev/anatolii/gradle/cpp/android/compiler/Assembler.kt:50-55 | assembling fails exactly when the spec has a prefix header |
| CompilerArgs.AddToolSpecificArgs | plugin/src/main/kotlin/dev/anatolii/gradle/cpp/android/compiler/GccCompilerArgsTransformer.kt:45-63 | appends "-x language -c" and the optimisation flags to the argument list |
| CompilerArgs.AddMacroArgs | plugin/src/main/kotlin/dev/anatolii/gradle/cpp/android/compiler/GccCompilerArgsTransformer.kt:81-85 | appends the "-D" macro arguments to the argument list |
| CompilerArgs.AddFilePairs | plugin/src/main/kotlin/dev/anatolii/gradle/cpp/android/compiler/GccCompilerArgsTransformer.kt:70-78 | appends the flag and path pairs to the argument list |
| CompilerArgs.AddIncludeArgs | plugin/src/main/kotlin/dev/anatolii/gradle/cpp/android/compiler/GccCompilerArgsTransformer.kt:65-79 | fails exactly when the NDK directory is unset or missing; otherwise appends the "-I" pairs and then the "-isystem" pairs of the NDK system roots |
| CompilerArgs.Transform | plugin/src/main/kotlin/dev/anatolii/gradle/cpp/android/compiler/GccCompilerArgsTransformer.kt:36-43 | the argument list built step by step is the one CompilerArgs describes |
| LinkArgs.AbsolutePaths | plugin/src/main/kotlin/dev/anatolii/gradle/cpp/android/compiler/GccLinker.kt:74-79 | one absolute path per file, in order |
| LinkArgs.InstallNameFlags | plugin/src/main/kotlin/dev/anatolii/gradle/cpp/android/compiler/GccLinker.kt:91-103 | no flag without an install name or on Windows; "-Wl,-install_name,NAME" on macOS and "-Wl,-soname,NAME" elsewhere |
| LinkArgs.SharedFlags | plugin/src/main/kotlin/dev/anatolii/gradle/cpp/android/compiler/GccLinker.kt:68-71 | only a shared library gets "-shared", followed by its install-name flag |
| LinkArgs.LinkerArgs | plugin/src/main/kotlin/dev/anatolii/gradle/cpp/android/compiler/GccLinker.kt:63-89 | linking fails with "Library Path not yet supported" exactly when a library path is given |
| LinkArgs.LinkerArgsLayout | plugin/src/main/kotlin/dev/anatolii/gradle/cpp/android/compiler/GccLinker.kt:63-89 | the linker arguments are the system arguments, the shared flags, "-o" and the output path, the object files, the libraries and the user arguments, in that order |
| LinkArgs.SharedOnlyForSharedLibraries | plugin/src/main/kotlin/dev/anatolii/gradle/cpp/android/compiler/GccLinker.kt:66-73 | after the system arguments an executable goes straight to "-o"; a shared library has "-shared" and its install-name flag before "-o" |
| LinkArgs.MaybeSetInstallName | plugin/src/main/kotlin/dev/anatolii/gradle/cpp/android/compiler/GccLinker.kt:91-103 | appends the install-name flag that InstallNameFlags gives |
| LinkArgs.AddAbsolutePaths | plugin/src/main/kotlin/dev/anatolii/gradle/cpp/android/compiler/GccLinker.kt:74-79 | appends the files' absolute paths in order |
| LinkArgs.TransformLinkerSpec | plugin/src/main/kotlin/dev/anatolii/gradle/cpp/android/compiler/GccLinker.kt:63-89 | the argument list built step by step is the one LinkerArgs describes, including the library-path error |
| LinkArgs.ArchiverArgsLayout | plugin/src/main/kotlin/dev/anatolii/gradle/cpp/android/compiler/ArStaticLibraryArchiver.kt:70-82 | the archiver arguments are "-rcs", the spec's arguments, the output path and the object files' absolute paths |
| LinkArgs.TransformArchiverSpec | plugin/src/main/kotlin/dev/anatolii/gradle/cpp/android/compiler/ArStaticLibraryArchiver.kt:69-83 | the loop gives the archiver arguments ArchiverArgsLayout describes |
| LinkArgs.DeletePreviousOutput | plugin/src/main/kotlin/dev/anatolii/gradle/cpp/android/compiler/ArStaticLibraryArchiver.kt:45-53 | no previous archive: nothing happens; a deletable one is deleted; one that cannot be deleted fails with "could not delete previous archive" and stays |
| LinkArgs.ExecuteArchiver | plugin/src/main/kotlin/dev/anatolii/gradle/cpp/android/compiler/ArStaticLibraryArchiver.kt:39-43 | archiving fails, with the could-not-delete error, exactly when the previous archive cannot be deleted, and then leaves the files untouched; on success the previous archive is gone, nothing else changes, and the arguments are the archiver arguments |
| LinkArgs.CommandLineOnly | plugin/src/main/kotlin/dev/anatolii/gradle/cpp/android/compiler/GccOptionsFileArgsWriter.kt:38-42 | keeping only "-m32" and "-m64" never gives more arguments than there were |
| LinkArgs.CommandLineOnlyMembers | plugin/src/main/kotlin/dev/anatolii/gradle/cpp/android/compiler/GccOptionsFileArgsWriter.kt:38-45 | an argument is kept exactly when it occurs and is "-m32" or "-m64" |
| LinkArgs.CommandLineOnlyKeepsRepeats | plugin/src/main/kotlin/dev/anatolii/gradle/cpp/android/compiler/GccOptionsFileArgsWriter.kt:38-45 | each of "-m32" and "-m64" is kept as many times as it occurs |
| LinkArgs.GetCommandLineOnlyArgs | plugin/src/main/kotlin/dev/anatolii/gradle/cpp/android/compiler/GccOptionsFileArgsWriter.kt:38-42 | the array loop keeps the arguments CommandLineOnly describes, in order |
| LinkArgs.CommandLineOnlyStep | plugin/src/main/kotlin/dev/anatolii/gradle/cpp/android/compiler/GccOptionsFileArgsWriter.kt:38-42 | looking at one more argument appends it exactly when it is "-m32" or "-m64" |
| LinkArgs.GccWriterExtendsClangWriter | plugin/src/main/kotlin/dev/anatolii/gradle/cpp/android/compiler/GccOptionsFileArgsWriter.kt:30-36 | the GCC options-file arguments start with the Clang writer's and then repeat on the command line exactly the "-m32" and "-m64" arguments, as often as they occur |
| LinkArgs.TransformArgs | plugin/src/main/kotlin/dev/anatolii/gradle/cpp/android/compiler/GccOptionsFileArgsWriter.kt:30-36 | the final arguments are the options-file arguments followed by the command-line-only ones |
| NdkToolchainConfig.HostTag | plugin/src/main/kotlin/dev/anatolii/gradle/cpp/android/ndk/NdkToolchainConfig.kt:250-257 | Linux, Windows and macOS hosts get linux-x86_64, windows-x86_64 and darwin-x86_64; every other host fails with "Unsupported host OS" naming it |
| NdkToolchainConfig.LlvmToolchainLocation | plugin/src/main/kotlin/dev/anatolii/gradle/cpp/android/ndk/NdkToolchainConfig.kt:18-36 | the prebuilt LLVM directory exists exactly for macOS, Linux and Windows hosts and always ends in "-x86_64" |
| NdkToolchainConfig.ToolSearchPath | plugin/src/main/kotlin/dev/anatolii/gradle/cpp/android/ndk/NdkToolchainConfig.kt:30-33 | the search path is the single "bin" directory under the LLVM location, and fails exactly when the location does |
| NdkToolchainConfig.LocationAgreesWithToolchainRoot | plugin/src/main/kotlin/dev/anatolii/gradle/cpp/android/ndk/NdkToolchainConfig.kt:35-102 | for hosts whose native prefix or family name is darwin, linux or windows, the search-path location and the configured toolchain root are the same directory |
| NdkToolchainConfig.DigitsHaveNoDot | plugin/src/main/kotlin/dev/anatolii/gradle/cpp/android/ndk/NdkToolchainConfig.kt:280 | a run of digits contains neither '.' nor '-', which is what lets a revision be split at them |
| NdkToolchainConfig.RevisionTextIsRevision | plugin/src/main/kotlin/dev/anatolii/gradle/cpp/android/ndk/NdkToolchainConfig.kt:280 | "major.minor.patch" with an optional "-betaN", all numbers, matches the revision pattern |
| NdkToolchainConfig.PatchLevelWithBeta | plugin/src/main/kotlin/dev/anatolii/gradle/cpp/android/ndk/NdkToolchainConfig.kt:280 | a patch number with an optional "-betaN" suffix is a valid patch level |
| NdkToolchainConfig.IsRevisionDecomposes | plugin/src/main/kotlin/dev/anatolii/gradle/cpp/android/ndk/NdkToolchainConfig.kt:280 | every string the revision pattern accepts is "major.minor.patch" with an optional "-betaN", all numbers |
| NdkToolchainConfig.PatchLevelDecomposes | plugin/src/main/kotlin/dev/anatolii/gradle/cpp/android/ndk/NdkToolchainConfig.kt:280 | every valid patch level is a number with an optional "-betaN" suffix |
| NdkToolchainConfig.ValidateSourceProperties | plugin/src/main/kotlin/dev/anatolii/gradle/cpp/android/ndk/NdkToolchainConfig.kt:271-284 | passes exactly when Pkg.Desc is absent or "Android NDK" and Pkg.Revision is present and matches the pattern; a present wrong description is refused first |
| NdkToolchainConfig.MissingDescriptionAccepted | plugin/src/main/kotlin/dev/anatolii/gradle/cpp/android/ndk/NdkToolchainConfig.kt:276-279 | a file without Pkg.Desc passes on a valid revision, while a present description other than "Android NDK" is refused |
| NdkToolchainConfig.ParsePlatformLine | plugin/src/main/kotlin/dev/anatolii/gradle/cpp/android/ndk/NdkToolchainConfig.kt:263-267 | a line without a second word fails as malformed; a parsed value has no quotes and a parsed name no space |
| NdkToolchainConfig.SplitFirstPiece | plugin/src/main/kotlin/dev/anatolii/gradle/cpp/android/ndk/NdkToolchainConfig.kt:267 | the first piece of a split never contains the separator |
| NdkToolchainConfig.PlatformsMapOk | plugin/src/main/kotlin/dev/anatolii/gradle/cpp/android/ndk/NdkToolchainConfig.kt:260-269 | reading succeeds when every line parses |
| NdkToolchainConfig.PlatformsMapFirstError | plugin/src/main/kotlin/dev/anatolii/gradle/cpp/android/ndk/NdkToolchainConfig.kt:260-269 | reading fails with the first line that does not parse |
| NdkToolchainConfig.ParsePlatformsLine | plugin/src/main/kotlin/dev/anatolii/gradle/cpp/android/ndk/NdkToolchainConfig.kt:263-267 | a line set(NAME "VALUE") of plain words parses back to NAME and VALUE |
| NdkToolchainConfig.PlatformsLineInner | plugin/src/main/kotlin/dev/anatolii/gradle/cpp/android/ndk/NdkToolchainConfig.kt:264-265 | the text between the parentheses of set(NAME "VALUE") is NAME followed by the quoted value |
| NdkToolchainConfig.Unquote | plugin/src/main/kotlin/dev/anatolii/gradle/cpp/android/ndk/NdkToolchainConfig.kt:267 | removing the quotes from a quoted value without quotes gives the value |
| NdkToolchainConfig.PlatformsLines | plugin/src/main/kotlin/dev/anatolii/gradle/cpp/android/ndk/NdkToolchainConfig.kt:260-269 | one set(NAME "VALUE") line per entry, in order |
| NdkToolchainConfig.PlatformsMapOfLines | plugin/src/main/kotlin/dev/anatolii/gradle/cpp/android/ndk/NdkToolchainConfig.kt:260-269 | the lines written for a list of entries read back as the map of those entries, the last one winning |
| NdkToolchainConfig.PlatformsLineIsOneLine | plugin/src/main/kotlin/dev/anatolii/gradle/cpp/android/ndk/NdkToolchainConfig.kt:262 | a written platforms line is non-empty and holds no line break |
| NdkToolchainConfig.ReadPlatformsFileOfText | plugin/src/main/kotlin/dev/anatolii/gradle/cpp/android/ndk/NdkToolchainConfig.kt:260-269 | a platforms file made of set(NAME "VALUE") lines reads back as the map of its entries |
| NdkToolchainConfig.PlatformLevel | plugin/src/main/kotlin/dev/anatolii/gradle/cpp/android/ndk/NdkToolchainConfig.kt:52-56 | a level is read exactly when its key is present and its value is a 32-bit number; a missing key is its own error |
| NdkToolchainConfig.EffectiveLevelBounds | plugin/src/main/kotlin/dev/anatolii/gradle/cpp/android/ndk/NdkToolchainConfig.kt:49-57 | the level is the api raised to the minimum, and to 21 for a 64-bit ABI name; it is at least the minimum and the api, and it is refused, naming both numbers, exactly when it is above the maximum |
| NdkToolchainConfig.EffectiveLevelNeedsMinimum | plugin/src/main/kotlin/dev/anatolii/gradle/cpp/android/ndk/NdkToolchainConfig.kt:52 | an unreadable minimum level is the error, before anything else |
| NdkToolchainConfig.PluginAbisAreNotRaisedTo21 | plugin/src/main/kotlin/dev/anatolii/gradle/cpp/android/ndk/NdkToolchainConfig.kt:54 | none of armv7, armv8, x86 and x86_64 matches the whole-string pattern "64(-v8a)?", so none is raised to level 21 |
| NdkToolchainConfig.ArmMode | plugin/src/main/kotlin/dev/anatolii/gradle/cpp/android/ndk/NdkToolchainConfig.kt:62 | the ARM mode is "arm" exactly when the option is "arm", and "thumb" otherwise |
| NdkToolchainConfig.SelectCppFeatures | plugin/src/main/kotlin/dev/anatolii/gradle/cpp/android/ndk/NdkToolchainConfig.kt:66-69 | the configured features when there are any; otherwise rtti and exceptions when they are forced, else none |
| NdkToolchainConfig.InvalidFeatures | plugin/src/main/kotlin/dev/anatolii/gradle/cpp/android/ndk/NdkToolchainConfig.kt:161-163 | exactly the features other than rtti and exceptions |
| NdkToolchainConfig.CheckCppFeatures | plugin/src/main/kotlin/dev/anatolii/gradle/cpp/android/ndk/NdkToolchainConfig.kt:161-163 | passes exactly when every feature is rtti or exceptions, and otherwise names the invalid ones |
| NdkToolchainConfig.FeatureFlags | plugin/src/main/kotlin/dev/anatolii/gradle/cpp/android/ndk/NdkToolchainConfig.kt:165-167 | one "-f" flag per feature, in order |
| NdkToolchainConfig.DefaultFeaturesAreValid | plugin/src/main/kotlin/dev/anatolii/gradle/cpp/android/ndk/NdkToolchainConfig.kt:66-163 | the default features always pass the feature check |
| NdkToolchainConfig.StlFlags | plugin/src/main/kotlin/dev/anatolii/gradle/cpp/android/ndk/NdkToolchainConfig.kt:90-97 | after trimming: c++_static adds "-static-libc++" to the linker; c++_shared and the empty STL add "-nostdinc++" and "-nostdlib++"; every other STL is invalid |
| NdkToolchainConfig.ArmFlags | plugin/src/main/kotlin/dev/anatolii/gradle/cpp/android/ndk/NdkToolchainConfig.kt:168-178 | every ABI other than armeabi gets no ARM flags |
| NdkToolchainConfig.ArmFlagsNeverFail | plugin/src/main/kotlin/dev/anatolii/gradle/cpp/android/ndk/NdkToolchainConfig.kt:62-178 | with the normalised ARM mode the mode error cannot happen, "-mfpu=neon" is never added, and armeabi gets "-march=armv7-a", plus "-mthumb" unless the mode is arm |
| NdkToolchainConfig.FormatFlags | plugin/src/main/kotlin/dev/anatolii/gradle/cpp/android/ndk/NdkToolchainConfig.kt:184-186 | "-Wno-error=format-security" exactly when format checks are disabled, "-Werror=format-security" exactly when they are not |
| NdkToolchainConfig.PairFlags | plugin/src/main/kotlin/dev/anatolii/gradle/cpp/android/ndk/NdkToolchainConfig.kt:223-224 | each path gives the flag followed by the path, in order |
| NdkToolchainConfig.ExeSuffix | plugin/src/main/kotlin/dev/anatolii/gradle/cpp/android/ndk/NdkToolchainConfig.kt:101 | executables end in ".exe" exactly on a Windows host and have no suffix elsewhere |
| NdkToolchainConfig.Settle | plugin/src/main/kotlin/dev/anatolii/gradle/cpp/android/ndk/NdkToolchainConfig.kt:38-178 | the checks of configure, in source order; a success keeps the configured NDK directory |
| NdkToolchainConfig.SettledValues | plugin/src/main/kotlin/dev/anatolii/gradle/cpp/android/ndk/NdkToolchainConfig.kt:38-178 | a successful configuration's level, STL flags, host tag, features and ARM flags are the ones each check computes |
| NdkToolchainConfig.Resolve | plugin/src/main/kotlin/dev/anatolii/gradle/cpp/android/ndk/NdkToolchainConfig.kt:38-248 | a successful configuration registers seven tools |
| NdkToolchainConfig.ResolveSucceeds | plugin/src/main/kotlin/dev/anatolii/gradle/cpp/android/ndk/NdkToolchainConfig.kt:38-178 | configuration succeeds exactly when the NDK is known, its source properties are valid, the platforms file reads, the level is within bounds, the STL is valid, the host is supported and every C++ feature is valid |
| NdkToolchainConfig.PlanLayout | plugin/src/main/kotlin/dev/anatolii/gradle/cpp/android/ndk/NdkToolchainConfig.kt:188-248 | the tools are the C, C++ compiler, linker, archiver, assembler, symbol extractor and stripper; the assembler runs clang and the linker clang++; the C, C++ and linker arguments end in the assembler's additional flags; the other three tools get none |
| NdkToolchainConfig.AdditionalFlagsOrder | plugin/src/main/kotlin/dev/anatolii/gradle/cpp/android/ndk/NdkToolchainConfig.kt:221-225 | the additional flags are "--target=" with the triple and level, "-fno-addrsig", "-isysroot" and the sysroot, then a "-L" pair per library path and an "-isystem" pair per system include |
| NdkToolchainConfig.PairsAfter | plugin/src/main/kotlin/dev/anatolii/gradle/cpp/android/ndk/NdkToolchainConfig.kt:223-225 | a head followed by two pair lists keeps the head and places each pair list right after the previous part |
| NdkToolchainConfig.PairsBetween | plugin/src/main/kotlin/dev/anatolii/gradle/cpp/android/ndk/NdkToolchainConfig.kt:223-225 | a pair list between two parts keeps the first part and starts right after it |
| NdkToolchainConfig.CompilerFlagsShape | plugin/src/main/kotlin/dev/anatolii/gradle/cpp/android/ndk/NdkToolchainConfig.kt:122-186 | the compiler flags start with the seven base flags; "-mstackrealign" follows exactly for x86 below level 24; the last flag is the format-security one |
| NdkToolchainConfig.CxxFlagsOrder | plugin/src/main/kotlin/dev/anatolii/gradle/cpp/android/ndk/NdkToolchainConfig.kt:85-167 | the C++ flags are "-stdlib=libc++", the STL's C++ flags, then one "-f" flag per feature |
| NdkToolchainConfig.BuildCompilerFlags | plugin/src/main/kotlin/dev/anatolii/gradle/cpp/android/ndk/NdkToolchainConfig.kt:122-186 | the compiler flags built step by step are those CompilerFlags describes |
| NdkToolchainConfig.BuildCxxFlags | plugin/src/main/kotlin/dev/anatolii/gradle/cpp/android/ndk/NdkToolchainConfig.kt:85-167 | the C++ flags built step by step are those CxxFlags describes |
| NdkToolchainConfig.BuildLinkerFlags | plugin/src/main/kotlin/dev/anatolii/gradle/cpp/android/ndk/NdkToolchainConfig.kt:82-182 | the linker flags built step by step are those LinkerFlags describes |
| NdkToolchainConfig.AppendPairs | plugin/src/main/kotlin/dev/anatolii/gradle/cpp/android/ndk/NdkToolchainConfig.kt:223-224 | appends the flag and path pairs to the flags |
| NdkToolchainConfig.RaiseLevel | plugin/src/main/kotlin/dev/anatolii/gradle/cpp/android/ndk/NdkToolchainConfig.kt:49-57 | the level computed step by step is the one EffectiveLevel describes |
| NdkToolchainConfig.CheckConfiguration | plugin/src/main/kotlin/dev/anatolii/gradle/cpp/android/ndk/NdkToolchainConfig.kt:38-178 | the checks made step by step give what Settle describes |
| NdkToolchainConfig.BuildPlan | plugin/src/main/kotlin/dev/anatolii/gradle/cpp/android/ndk/NdkToolchainConfig.kt:188-247 | the tools built step by step are the plan PlanFor describes |
| NdkToolchainConfig.Configure | plugin/src/main/kotlin/dev/anatolii/gradle/cpp/android/ndk/NdkToolchainConfig.kt:38-248 | on an error nothing is registered; on success the seven planned tools are added to the registry, and the command-file flag and probe arguments are untouched |
| ToolChainExtensions.ApiBounds.constructor | plugin/src/main/kotlin/dev/anatolii/gradle/cpp/android/toolchain/ToolChainExtansions.kt:31-32 | a target's API bounds start at the given minimum and maximum |
| ToolChainExtensions.LevelOverride | plugin/src/main/kotlin/dev/anatolii/gradle/cpp/android/toolchain/ToolChainExtansions.kt:31-32 | a missing key leaves the bound alone; a present key overrides it with its value when that is a 32-bit number, and fails naming the key and value when it is not |
| ToolChainExtensions.Settle | plugin/src/main/kotlin/dev/anatolii/gradle/cpp/android/toolchain/ToolChainExtansions.kt:21-121 | the checks of this revision of configure, in source order; a success keeps the configured NDK directory |
| ToolChainExtensions.SettleOptions | plugin/src/main/kotlin/dev/anatolii/gradle/cpp/android/toolchain/ToolChainExtansions.kt:51-121 | the checks after the bounds leave the NDK directory and both bounds as they were |
| ToolChainExtensions.BoundsOverwrittenOnlyWhenPresent | plugin/src/main/kotlin/dev/anatolii/gradle/cpp/android/toolchain/ToolChainExtansions.kt:30-32 | a bound changes only when the platforms file reads and has that key, and then to the key's value |
| ToolChainExtensions.BoundsOfSuccess | plugin/src/main/kotlin/dev/anatolii/gradle/cpp/android/toolchain/ToolChainExtansions.kt:21-32 | after a successful configuration the bounds are the file's values where present and the old bounds elsewhere |
| ToolChainExtensions.Resolve | plugin/src/main/kotlin/dev/anatolii/gradle/cpp/android/toolchain/ToolChainExtansions.kt:21-156 | a successful configuration registers seven tools |
| ToolChainExtensions.ResolveSucceeds | plugin/src/main/kotlin/dev/anatolii/gradle/cpp/android/toolchain/ToolChainExtansions.kt:21-121 | configuration succeeds exactly when the NDK is known, its source properties are valid, the platforms file reads, both bounds present are numbers, the host is supported and every C++ feature is valid; the STL is no longer checked |
| ToolChainExtensions.SettledValues | plugin/src/main/kotlin/dev/anatolii/gradle/cpp/android/toolchain/ToolChainExtansions.kt:34-121 | a successful configuration's host tag, features and ARM flags are the ones each check computes |
| ToolChainExtensions.LinkerFlagsStl | plugin/src/main/kotlin/dev/anatolii/gradle/cpp/android/toolchain/ToolChainExtansions.kt:75-109 | the linker always links "-l" followed by the STL, adds "-static-libstdc++" exactly for c++_static, and always has "-fPIE" and "-pie" |
| ToolChainExtensions.CxxFlagsOrder | plugin/src/main/kotlin/dev/anatolii/gradle/cpp/android/toolchain/ToolChainExtansions.kt:104-107 | the C++ flags are one "-f" flag per feature followed by "-fPIE" |
| ToolChainExtensions.PlanLayout | plugin/src/main/kotlin/dev/anatolii/gradle/cpp/android/toolchain/ToolChainExtansions.kt:131-156 | the same seven tools in the same order; the assembler is the C compiler with the same executable and arguments; the linker runs clang++ with "-Wl,--gc-sections -v" and one "-L" pair before the additional flags |
| ToolChainExtensions.PlanForArguments | plugin/src/main/kotlin/dev/anatolii/gradle/cpp/android/toolchain/ToolChainExtansions.kt:53-148 | the plan uses the target's own api, with no level appended to the triple, a single library path, and "--target" and "-isysroot" as the only additional flags |
| ToolChainExtensions.CheckConfiguration | plugin/src/main/kotlin/dev/anatolii/gradle/cpp/android/toolchain/ToolChainExtansions.kt:21-121 | the checks made step by step give what Settle describes, and the target's bounds end as BoundsAfter describes |
| ToolChainExtensions.BuildCxxFlags | plugin/src/main/kotlin/dev/anatolii/gradle/cpp/android/toolchain/ToolChainExtansions.kt:104-107 | the C++ flags built step by step are those CxxFlags describes |
| ToolChainExtensions.BuildLinkerFlags | plugin/src/main/kotlin/dev/anatolii/gradle/cpp/android/toolchain/ToolChainExtansions.kt:48-125 | the linker flags built step by step are those LinkerFlags describes |
| ToolChainExtensions.BuildPlan | plugin/src/main/kotlin/dev/anatolii/gradle/cpp/android/toolchain/ToolChainExtansions.kt:131-153 | the tools built step by step are the plan PlanFor describes |
| ToolChainExtensions.Configure | plugin/src/main/kotlin/dev/anatolii/gradle/cpp/android/toolchain/ToolChainExtansions.kt:21-157 | the bounds are updated as BoundsAfter describes; on an error nothing is registered; on success the seven planned tools are added, and nothing else in the registry changes |
| NdkLocation.FindNdkInLocalProperties | plugin/src/main/kotlin/dev/anatolii/gradle/cpp/android/ndk/NdkProjectExtensions.kt:22-31 | a directory is found exactly when local.properties exists as a file, sets ndk.dir, and that path exists; it is that path |
| NdkLocation.FindNdkFile | plugin/src/main/kotlin/dev/anatolii/gradle/cpp/android/ndk/NdkProjectExtensions.kt:16-20 | local.properties wins, then ANDROID_NDK_HOME; it fails with the not-found message exactly when neither gives a path |
| NdkLocation.FindNdkDirectory | plugin/src/main/kotlin/dev/anatolii/gradle/cpp/android/ndk/NdkProjectExtensions.kt:12-14 | succeeds exactly when the found path exists and is a directory, giving that path; a lookup failure is passed on and a path that is not a directory is its own error |
| NdkLocation.MissingLocalPathFallsThrough | plugin/src/main/kotlin/dev/anatolii/gradle/cpp/android/ndk/NdkProjectExtensions.kt:16-31 | an ndk.dir naming a missing path is ignored and ANDROID_NDK_HOME is used |
| NdkLocation.FoundNdkIsDirectory | plugin/src/main/kotlin/dev/anatolii/gradle/cpp/android/ndk/NdkProjectExtensions.kt:12-14 | a found NDK directory exists and is a directory |
| NdkLocation.CppLibraryAndroid.constructor | plugin/src/main/kotlin/dev/anatolii/gradle/cpp/android/CppLibraryAndroid.kt:14-29 | a new extension has the given SDK directory, no NDK version or directory, and the default ABIs, "c++_shared", "thumb" and the other defaults |
| NdkLocation.CppLibraryAndroid.Options | plugin/src/main/kotlin/dev/anatolii/gradle/cpp/android/CppLibraryAndroid.kt:24-29 | the options handed to configuration are the extension's own STL, ARM mode, NEON, format-check and C++ feature settings |
| NdkLocation.CppLibraryAndroid.VersionedNdk | plugin/src/main/kotlin/dev/anatolii/gradle/cpp/android/CppLibraryAndroid.kt:19 | the versioned NDK is "ndk/VERSION" under the SDK directory, only when both are set and it exists |
| NdkLocation.CppLibraryAndroid.BundledNdk | plugin/src/main/kotlin/dev/anatolii/gradle/cpp/android/CppLibraryAndroid.kt:20 | the bundled NDK is "ndk-bundle" under the SDK directory, exactly when it exists |
| NdkLocation.CppLibraryAndroid.NdkDirAsWritten | plugin/src/main/kotlin/dev/anatolii/gradle/cpp/android/CppLibraryAndroid.kt:16-20 | an explicitly set directory wins; otherwise the project lookup's directory or its error, which the later fallbacks never get to see |
| NdkLocation.CppLibraryAndroid.NdkDir | plugin/src/main/kotlin/dev/anatolii/gradle/cpp/android/CppLibraryAndroid.kt:16-20 | an explicitly set directory wins, then the project lookup, then the versioned NDK, then ndk-bundle |
| NdkLocation.NdkDirAsWrittenAgrees | plugin/src/main/kotlin/dev/anatolii/gradle/cpp/android/CppLibraryAndroid.kt:16-20 | the getter as written agrees with the intended one whenever it returns, and it fails exactly when nothing is set and the project lookup fails |
| NdkLocation.SdkFallbackUnreachableAsWritten | plugin/src/main/kotlin/dev/anatolii/gradle/cpp/android/CppLibraryAndroid.kt:16-20 | with only an SDK directory holding ndk-bundle, the getter as written fails with the not-found error while the intended one finds ndk-bundle |
| CalVer.PadZeros | buildSrc/src/main/kotlin/dev/anatolii/internal/GitRepository.kt:37 | the padded text is the decimal rendering of the number, preceded by just enough '0' characters to reach width two (never shortened) |
| CalVer.PadZerosTwoDigits | buildSrc/src/main/kotlin/dev/anatolii/internal/GitRepository.kt:37 | a field value below 100 pads to exactly two digits that read back as that value |
| CalVer.PadZerosAllDigits | buildSrc/src/main/kotlin/dev/anatolii/internal/GitRepository.kt:37 | a non-negative field pads to decimal digits only |
| CalVer.DecimalValueOfPair | buildSrc/src/main/kotlin/dev/anatolii/internal/GitRepository.kt:37 | two digit characters read back as tens and units |
| CalVer.AllDigitsConcat | buildSrc/src/main/kotlin/dev/anatolii/internal/GitRepository.kt:38-39 | joining two all-digit fields gives an all-digit text |
| CalVer.FullPaddedDateTime | buildSrc/src/main/kotlin/dev/anatolii/internal/GitRepository.kt:40 | the stamp is the padded date, a '.', then the padded time |
| CalVer.YearHasFourDigits | buildSrc/src/main/kotlin/dev/anatolii/internal/GitRepository.kt:38 | a year from 1000 to 9999 renders as four digits, so the date part is yyyyMMdd |
| CalVer.StampSlices | buildSrc/src/main/kotlin/dev/anatolii/internal/GitRepository.kt:38-40 | the 4+2+2 date and 2+2+2 time pieces sit at fixed offsets of a 15-character stamp with '.' at index 8 |
| CalVer.FullPaddedDateTimeLayout | buildSrc/src/main/kotlin/dev/anatolii/internal/GitRepository.kt:38-40 | for a four-digit year the stamp is yyyyMMdd.HHmmss: each slice is that field's rendering |
| CalVer.FullPaddedDateTimeFields | buildSrc/src/main/kotlin/dev/anatolii/internal/GitRepository.kt:38-40 | each slice of the stamp is all digits and reads back as the year, month, day, hour, minute and second it came from |
| CalVer.FullPaddedDateAllDigits | buildSrc/src/main/kotlin/dev/anatolii/internal/GitRepository.kt:38 | the date part is digits only |
| CalVer.FullPaddedTimeAllDigits | buildSrc/src/main/kotlin/dev/anatolii/internal/GitRepository.kt:39 | the time part is digits only |
| CalVer.DigitsDotDigits | buildSrc/src/main/kotlin/dev/anatolii/internal/GitRepository.kt:40 | two digit strings joined by '.' hold neither '/' nor '-' |
| CalVer.FullPaddedDateTimeHasNoSeparators | buildSrc/src/main/kotlin/dev/anatolii/internal/GitRepository.kt:40 | the stamp holds neither '/' nor '-', so it cannot be mistaken for a branch suffix |
| CalVer.GenerateCalVer | buildSrc/src/main/kotlin/dev/anatolii/internal/GitRepository.kt:15-19 | the version never contains '/', whatever the branch name |
| CalVer.ReplaceCharConcat | buildSrc/src/main/kotlin/dev/anatolii/internal/GitRepository.kt:17 | replacing '/' by '-' works piecewise over a concatenation |
| CalVer.ReplaceAbsentCharIsIdentity | buildSrc/src/main/kotlin/dev/anatolii/internal/GitRepository.kt:17 | replacing a character that does not occur leaves the text unchanged |
| CalVer.CalVerOnMaster | buildSrc/src/main/kotlin/dev/anatolii/internal/GitRepository.kt:15-33 | on the master branch the version is the commit stamp alone |
| CalVer.CalVerOffMaster | buildSrc/src/main/kotlin/dev/anatolii/internal/GitRepository.kt:15-33 | on another branch the version is the branch name with '/' turned into '-', a '-', then the commit stamp |
| CalVer.CalVerWithoutCommit | buildSrc/src/main/kotlin/dev/anatolii/internal/GitRepository.kt:15-19 | without a head commit the stamp is empty: the sanitised branch name off master, the empty text on it |
| Symbols.ToSymbol | samples/buildSrc/src/main/kotlin/dev/anatolii/internal/Utils.kt:15-17 | same length as the input; every ':' and '-' becomes '_', every other character is kept |
| Symbols.ToSymbolHasNoSeparators | samples/buildSrc/src/main/kotlin/dev/anatolii/internal/Utils.kt:15-17 | the result holds no ':' and no '-' |
| Symbols.ToSymbolIdempotent | samples/buildSrc/src/main/kotlin/dev/anatolii/internal/Utils.kt:15-17 | applying the conversion twice is the same as once |
| Symbols.SymbolName | samples/buildSrc/src/main/kotlin/dev/anatolii/internal/Utils.kt:11 | the symbol is "__", the converted project path, "_", the converted project name, "__", each at its own offset |
| Symbols.ToSymbolIsIdentifier | samples/buildSrc/src/main/kotlin/dev/anatolii/internal/Utils.kt:15-17 | a path of identifier characters, ':' and '-' converts to identifier characters only |
| Symbols.IdentifierConcat | samples/buildSrc/src/main/kotlin/dev/anatolii/internal/Utils.kt:11 | joining identifier texts gives an identifier text |
| Symbols.SymbolNameIsIdentifier | samples/buildSrc/src/main/kotlin/dev/anatolii/internal/Utils.kt:11 | for Gradle project paths and names the generated symbol starts with '_' and is a valid C identifier (the same code: samples/buildSrc/src/main/kotlin/dev/anatolii/internal/DummyCpp.kt:13-19) |
| GitModules.SubmoduleName | samples/buildSrc/src/main/kotlin/dev/anatolii/internal/boost/BoostPlugin.kt:54-55 | the name taken from a line never holds '"' |
| GitModules.SubmoduleNames | samples/buildSrc/src/main/kotlin/dev/anatolii/internal/boost/BoostPlugin.kt:52-55 | at most one name per line, none holding '"' |
| GitModules.ContainsIgnoreCaseExact | samples/buildSrc/src/main/kotlin/dev/anatolii/internal/boost/BoostPlugin.kt:53 | a line holding "submodule " verbatim passes the case-insensitive filter |
| GitModules.SubmoduleNameOfHeader | samples/buildSrc/src/main/kotlin/dev/anatolii/internal/boost/BoostPlugin.kt:53-55 | a header line [submodule "name"] is kept and yields exactly its quoted name (the same code: samples/buildSrc/src/main/kotlin/dev/anatolii/internal/plugin/boost/BoostPlugin.kt:161-163) |
| GitModules.HeaderName | samples/buildSrc/src/main/kotlin/dev/anatolii/internal/boost/BoostPlugin.kt:54-55 | cutting after the first '"' and before the next '"' of a header line yields the name |
| GitModules.BetweenDelimiters | samples/buildSrc/src/main/kotlin/dev/anatolii/internal/boost/BoostPlugin.kt:54-55 | the text between the first two occurrences of a delimiter is recovered exactly |
| GitModules.SubmoduleNamesSkip | samples/buildSrc/src/main/kotlin/dev/anatolii/internal/boost/BoostPlugin.kt:53 | a line without "submodule " contributes no name |
| GitModules.SubmoduleNamesCons | samples/buildSrc/src/main/kotlin/dev/anatolii/internal/boost/BoostPlugin.kt:53-55 | a submodule line contributes its name, in file order |
| GitModules.SubmoduleNamesOfHeaders | samples/buildSrc/src/main/kotlin/dev/anatolii/internal/boost/BoostPlugin.kt:52-55 | a file made of header lines yields back exactly the list of names, in order (the same code: samples/buildSrc/src/main/kotlin/dev/anatolii/internal/plugin/boost/BoostPlugin.kt:160-163) |
| GitModules.SubmoduleNameChars | samples/buildSrc/src/main/kotlin/dev/anatolii/internal/boost/BoostPlugin.kt:54-55 | every character of an extracted name occurs in its line |
| GitModules.SubmoduleNamesHaveNoBreaks | samples/buildSrc/src/main/kotlin/dev/anatolii/internal/boost/BoostPlugin.kt:52-55 | names taken from lines hold no line break |
| GitModules.SubProjectsListReadsBack | samples/buildSrc/src/main/kotlin/dev/anatolii/internal/boost/BoostPlugin.kt:52-57 | reading the written list back line by line yields the extracted names, when none is empty (the same code: samples/buildSrc/src/main/kotlin/dev/anatolii/internal/plugin/boost/BoostPlugin.kt:160-165) |
| BoostCMake.LinkedLibrary | samples/buildSrc/src/main/kotlin/dev/anatolii/internal/boost/CMake.kt:36-40 | a line yields a library exactly when, trimmed, it starts with "Boost::"; the library is the trimmed line's tail after its last ':' and holds no ':' |
| BoostCMake.LinkedLibraryOfName | samples/buildSrc/src/main/kotlin/dev/anatolii/internal/boost/CMake.kt:39-40 | "Boost::name" yields exactly name |
| BoostCMake.LastIndexOfCharIs | samples/buildSrc/src/main/kotlin/dev/anatolii/internal/boost/CMake.kt:40 | the last occurrence of a character is the index after which it does not occur again |
| BoostCMake.MapUnionMembers | samples/buildSrc/src/main/kotlin/dev/anatolii/internal/boost/CMake.kt:27 | a name is in the flattened result exactly when some segment yields it |
| BoostCMake.MapUnionConcat | samples/buildSrc/src/main/kotlin/dev/anatolii/internal/boost/CMake.kt:27 | flattening distributes over concatenated segments |
| BoostCMake.MapUnionOne | samples/buildSrc/src/main/kotlin/dev/anatolii/internal/boost/CMake.kt:27 | flattening one segment gives that segment's set |
| BoostCMake.LibrariesOfLinesMembers | samples/buildSrc/src/main/kotlin/dev/anatolii/internal/boost/CMake.kt:34-40 | a library is listed exactly when some line of the call names it |
| BoostCMake.LibrariesOfLinesConcat | samples/buildSrc/src/main/kotlin/dev/anatolii/internal/boost/CMake.kt:34-40 | the libraries of joined line lists are the union of each list's |
| BoostCMake.LibrariesOfSegmentsMembers | samples/buildSrc/src/main/kotlin/dev/anatolii/internal/boost/CMake.kt:26-41 | a library is found exactly when some target_link_libraries call links it |
| BoostCMake.NoColonInLibraries | samples/buildSrc/src/main/kotlin/dev/anatolii/internal/boost/CMake.kt:40 | no found library holds ':' |
| BoostCMake.NoColonInLines | samples/buildSrc/src/main/kotlin/dev/anatolii/internal/boost/CMake.kt:40 | no library taken from lines holds ':' |
| BoostCMake.FetchDependencies | samples/buildSrc/src/main/kotlin/dev/anatolii/internal/boost/CMake.kt:21-45 | a file without "\ntarget_link_libraries" has no dependencies; otherwise they are the libraries of the calls after its first occurrence, none holding ':' (the same code: samples/buildSrc/src/main/kotlin/dev/anatolii/internal/boost/BoostPlugin.kt:222-246) |
| BoostCMake.SubstringAfterLeading | samples/buildSrc/src/main/kotlin/dev/anatolii/internal/boost/CMake.kt:25 | the text after a leading delimiter is the rest |
| BoostCMake.LibrariesOfOneSegment | samples/buildSrc/src/main/kotlin/dev/anatolii/internal/boost/CMake.kt:26-27 | a single call's libraries are that call's own |
| BoostCMake.FetchSingleCall | samples/buildSrc/src/main/kotlin/dev/anatolii/internal/boost/CMake.kt:21-45 | a file holding one target_link_libraries call yields the libraries of that call |
| BoostCMake.DependenciesFromCMakeFile | samples/buildSrc/src/main/kotlin/dev/anatolii/internal/boost/CMake.kt:8-19 | no upstream sources or no CMakeLists.txt in them gives the empty set; otherwise the dependencies are read from that file (the same code: samples/buildSrc/src/main/kotlin/dev/anatolii/internal/boost/BoostPlugin.kt:210-220) |
| BoostDependencies.UpstreamSources | samples/buildSrc/src/main/kotlin/dev/anatolii/internal/plugin/boost/BoostPlugin.kt:147-152 | present exactly when the directory upstream/version/name-boost-version exists, and then it is that directory (the same code: samples/buildSrc/src/main/kotlin/dev/anatolii/internal/boost/BoostPlugin.kt:156-158) |
| BoostDependencies.UpstreamSourcesLayout | samples/buildSrc/src/main/kotlin/dev/anatolii/internal/plugin/boost/BoostPlugin.kt:147-152 | the sources directory is projectDir/upstream/version/name-boost-version |
| BoostDependencies.CustomDependencies | samples/buildSrc/src/main/kotlin/dev/anatolii/internal/plugin/boost/BoostPlugin.kt:76-85 | the fixed extra dependencies of container_hash, function_types, io and locale; none for any other module |
| BoostDependencies.LegacyCustomDependencies | samples/buildSrc/src/main/kotlin/dev/anatolii/internal/boost/BoostPlugin.kt:131-138 | the same table without the locale entry |
| BoostDependencies.CustomDependenciesDifferOnlyAtLocale | samples/buildSrc/src/main/kotlin/dev/anatolii/internal/plugin/boost/BoostPlugin.kt:76-85 | the new table and the earlier one at samples/buildSrc/src/main/kotlin/dev/anatolii/internal/boost/BoostPlugin.kt:131-138 agree on every module but locale |
| BoostDependencies.CMakeDependenciesOf | samples/buildSrc/src/main/kotlin/dev/anatolii/internal/plugin/boost/BoostPlugin.kt:56-69 | a module without upstream sources has no CMake dependencies |
| BoostDependencies.DirectDependencies | samples/buildSrc/src/main/kotlin/dev/anatolii/internal/plugin/boost/BoostPlugin.kt:56-57 | a module's direct dependencies are its CMake dependencies together with its custom ones |
| BoostDependencies.ChainCons | samples/buildSrc/src/main/kotlin/dev/anatolii/internal/plugin/boost/BoostPlugin.kt:63-74 | a sibling dependency followed by a chain from its own dependencies is a chain |
| BoostDependencies.ChainTail | samples/buildSrc/src/main/kotlin/dev/anatolii/internal/plugin/boost/BoostPlugin.kt:63-74 | the tail of a chain is a chain from its head's dependencies |
| BoostDependencies.NestedDependenciesReached | samples/buildSrc/src/main/kotlin/dev/anatolii/internal/plugin/boost/BoostPlugin.kt:63-74 | every nested dependency is reached along a chain of sibling projects within the depth bound |
| BoostDependencies.ReachedIsNested | samples/buildSrc/src/main/kotlin/dev/anatolii/internal/plugin/boost/BoostPlugin.kt:63-74 | every dependency reached along such a chain is a nested dependency |
| BoostDependencies.NestedDependenciesAreChains | samples/buildSrc/src/main/kotlin/dev/anatolii/internal/plugin/boost/BoostPlugin.kt:63-74 | a name is a nested dependency exactly when a chain of sibling projects reaches it (the same code: samples/buildSrc/src/main/kotlin/dev/anatolii/internal/boost/BoostPlugin.kt:118-129) |
| BoostDependencies.NestedDependenciesGrowWithDepth | samples/buildSrc/src/main/kotlin/dev/anatolii/internal/plugin/boost/BoostPlugin.kt:63-74 | a deeper bound finds at least the same nested dependencies |
| BoostDependencies.NestedDependenciesIgnoreUnknown | samples/buildSrc/src/main/kotlin/dev/anatolii/internal/plugin/boost/BoostPlugin.kt:64-67 | names that are not sibling projects contribute nothing |
| BoostDependencies.NestedDependenciesIncludeFirstLevel | samples/buildSrc/src/main/kotlin/dev/anatolii/internal/plugin/boost/BoostPlugin.kt:68-71 | the CMake dependencies of each sibling dependency are nested dependencies |
| BoostDependencies.ApplyDependencies | samples/buildSrc/src/main/kotlin/dev/anatolii/internal/plugin/boost/BoostPlugin.kt:127-135 | exactly the dependencies that name a sibling project are added as implementation dependencies |
| BoostDependencies.ModuleImplementation | samples/buildSrc/src/main/kotlin/dev/anatolii/internal/plugin/boost/BoostPlugin.kt:52-61 | a module without upstream sources depends on nothing (no CppLibrary extension is found, as at lines 131-132); otherwise it only ever depends on sibling projects |
| BoostDependencies.ModuleImplementationMembers | samples/buildSrc/src/main/kotlin/dev/anatolii/internal/plugin/boost/BoostPlugin.kt:52-61 | a module depends on a sibling exactly when it has upstream sources and the sibling is a direct dependency or reached through nested ones |
| BoostPackageData.SetOf | samples/buildSrc/src/main/kotlin/dev/anatolii/internal/boost/BoostPlugin.kt:82 | the set holds exactly the listed names |
| BoostPackageData.Substituted | samples/buildSrc/src/main/kotlin/dev/anatolii/internal/boost/BoostPlugin.kt:89-94 | keys are kept; every set naming the dependency loses it and gains its requirements; the others are unchanged |
| BoostPackageData.SubstituteInPlace | samples/buildSrc/src/main/kotlin/dev/anatolii/internal/boost/BoostPlugin.kt:89-94 | the in-place update yields the substituted map |
| BoostPackageData.ResolvePackageData | samples/buildSrc/src/main/kotlin/dev/anatolii/internal/boost/BoostPlugin.kt:76-98 | the mutable two-pass resolution yields the resolved package data or the same missing-requirements error |
| BoostPackageData.ResolveWithoutData | samples/buildSrc/src/main/kotlin/dev/anatolii/internal/boost/BoostPlugin.kt:76-97 | no package data resolves to the empty map |
| BoostPackageData.ChildNames | samples/buildSrc/src/main/kotlin/dev/anatolii/internal/boost/BoostPlugin.kt:78 | the module names of the data that are child projects |
| BoostPackageData.FirstPassKeys | samples/buildSrc/src/main/kotlin/dev/anatolii/internal/boost/BoostPlugin.kt:78-83 | the first pass adds exactly the child modules as keys |
| BoostPackageData.SecondPassKeys | samples/buildSrc/src/main/kotlin/dev/anatolii/internal/boost/BoostPlugin.kt:84-96 | the second pass changes no keys |
| BoostPackageData.ResolvedKeys | samples/buildSrc/src/main/kotlin/dev/anatolii/internal/boost/BoostPlugin.kt:76-98 | the resolved data is keyed by exactly the child modules present in the data |
| BoostPackageData.FirstPassFails | samples/buildSrc/src/main/kotlin/dev/anatolii/internal/boost/BoostPlugin.kt:78-83 | the first pass fails exactly when a child module has no requirement list |
| BoostPackageData.SecondPassFails | samples/buildSrc/src/main/kotlin/dev/anatolii/internal/boost/BoostPlugin.kt:84-87 | the second pass fails exactly when a non-resolved module has no requirement list |
| BoostPackageData.ResolveFails | samples/buildSrc/src/main/kotlin/dev/anatolii/internal/boost/BoostPlugin.kt:76-98 | resolution fails exactly when some module of the data has no requirement list |
| BoostPackageData.SubstitutedRemovesName | samples/buildSrc/src/main/kotlin/dev/anatolii/internal/boost/BoostPlugin.kt:89-94 | when a dependency does not require itself, no set still names it after substitution |

## Left out

- Gradle wiring is not modelled: plugin application, variant and dimension setup, task registration and configuration actions. This includes the parts of the Boost plugins that configure `cpp-library` projects and register download tasks.
- Downloads, zip extraction and file writes are not modelled. For the sub-project list, the model states the text written, not the write.
- The file system, environment variables, `local.properties` loading and process execution are inputs: a set of existing paths, parsed property maps, an environment map, and probe results. `Properties.load` parsing is not modelled.
- Canonical and absolute path resolution (links, "..") is not modelled; a file's two path strings are given fields of `Paths.FileRef`.
- `setExecutable`/`canExecute` permission handling is left out: it changes nothing that the model's results depend on.
- Logging is left out: debug and lifecycle messages.
- `MacroArgsConverter` is not part of this model; converted macros are an input list.
- `ArgWriter.argsFileGenerator` is not part of this model; the generator is a function parameter of the options-file writer.
- `ToolSearchPath.locate`, the registry's configure actions and the compiler probe are not part of this model; they are the functions of `ToolChainSelection.Environment`.
- The NativeCompiler, AbstractCompiler and AbstractPlatformToolProvider base classes are not part of this model; only the overrides in the modelled files are.
- `AndroidInfo.fromPlatformName` is not defined in AndroidInfo.kt; `AndroidTarget.DecodePlatformName` is written as the inverse of `platformName`. `llvmTriple`, `toolchainName`, `sysrootAbi`, `minApi` and `maxApi` are not defined there either; they are fields of the resolver's input.
- ToolChainExtansions.kt calls `validateSourcePropertiesFileContent`, `readPlatformsFile` and `generateAndroidHostTag` as companion functions of NdkToolchainConfig. It also imports constants (`androidSdkHomeEnvironmentVariableName`, `sdkDirPropertyName`) that neither NdkToolchainConfig.kt nor NdkProjectExtensions.kt defines. In NdkToolchainConfig.kt these three are private members of the class. Both resolvers here share one model of them, taken from their bodies there.
- `findSdkDirectory` is not part of this model; the SDK directory is a field of `NdkLocation.CppLibraryAndroid`.
- `b2RequiresString` is used at samples/buildSrc/src/main/kotlin/dev/anatolii/internal/boost/BoostPlugin.kt:80 and :86 but defined in none of the modelled files; the model reads each entry's requirement list directly. JSON parsing is not modelled. Among the failed casts, only an entry without a requirement list is modelled (`MissingRequirements`).
- The earlier Boost plugin's copy of `fetchDependenciesFromCMakeListsFile` is the same code as CMake.kt; `BoostCMake` models both.
- The new Boost plugin's `applyCppLibrary`, `setupHeadersOnlyLibrary` and the compatibility-header include are Gradle configuration and are left out.
- Concurrency is not modelled: the memo tables are plain maps used sequentially.
- java.time's conversion of the commit time to UTC fields and JGit's repository access are not modelled; `CalVer.Repository` carries the branch and the converted time.
- The date and time fields are unbounded integers limited by `CalVer.ValidDateTime`. API levels and the other Kotlin `Int` values are unbounded too. Only parsing (`Strings.ParseInt`) enforces the 32-bit range where the JVM would throw.
- BoostDependencies.NestedDependencies: the source recursion has no visited set and does not terminate on a dependency cycle. The model takes a depth bound `fuel` and proves what every bound finds; it does not model the overflow a cycle would cause.
- NdkToolchainConfig.Resolve: its own contract says only that a success has seven tools. The content of the plan is stated by `ResolveSucceeds` and `PlanLayout`.
- NdkToolchainConfig.Settle: its own contract says only that a success keeps the NDK directory. The settled values are stated by `SettledValues`.
- ToolChainExtensions.Resolve: its own contract says only that a success has seven tools. The content of the plan is stated by `ResolveSucceeds` and `PlanLayout`.
- ToolChainExtensions.Settle: its own contract says only that a success keeps the NDK directory. The settled values are stated by `SettledValues`.
- Paths.PathJoin: models '/' joining on a Unix host only. java.io.File's normalisation is not modelled: repeated separators are not collapsed, a trailing one is not dropped, and File("", "") is "" rather than "/". Windows '\' separators are not modelled either. So an `sdkDir` ending in '/' gives a path with "//", which the model's set of existing paths must contain literally.
- Strings.ParseInt: accepts ASCII digits only; Integer.parseInt also accepts other Unicode decimal digits.
- NdkToolchainConfig.ValidateSourceProperties: a file without Pkg.Revision makes the source throw a NullPointerException from `matches`; the model reports it as `BadRevision(None)`, the same failure as a malformed revision.
- NdkToolchainConfig.Configure: the source's receiver is Gradle's `DefaultGccPlatformToolChain`, which is not part of this model. The model registers the plan in `ToolRegistry.PlatformToolChain` and assumes that Gradle's `add` replaces an earlier tool of the same type, as the plugin's own registry does.
- ToolChainExtensions.Configure: the same substitution. The receiver is Gradle's `DefaultGccPlatformToolChain`, modelled by `ToolRegistry.PlatformToolChain`, with `add` assumed to replace by tool type.
- BoostPackageData.Resolve: the parsed JSON map is a sequence of entries, read as having no repeated module name, as a map has. With a repeated name the model would fail on an entry the map had overwritten, and substitute the name twice.
- The debug/release and standard-library flag lists that NdkToolchainConfig.kt computes but never places in the plan are not modelled. They do not affect the result.

## Findings

| source | as written | input that shows it | evidently intended | confidence | as-written member | corrected member |
|---|---|---|---|---|---|---|
| plugin/src/main/kotlin/dev/anatolii/gradle/cpp/android/CppLibraryAndroid.kt:16-20 | the `ndkDir` getter falls back with `?:` to the versioned NDK and to `ndk-bundle` after `project.findNdkDirectory()`. That function (ndk/NdkProjectExtensions.kt:12-20) never returns null: it throws when no NDK is configured. So both SDK fallbacks are unreachable | no `ndkDir` set, no `local.properties`, no `ANDROID_NDK_HOME`, `sdkDir` "/sdk" with "/sdk/ndk-bundle" present: the getter throws "NDK was not found" | a failed project lookup falls through to `sdkDir/ndk/<ndkVersion>`, then to `sdkDir/ndk-bundle` | not executed; CppLibraryAndroid.kt imports `findSdkDirectory`, which NdkProjectExtensions.kt does not define, so the two files may come from different revisions | NdkLocation.CppLibraryAndroid.NdkDirAsWritten, NdkLocation.SdkFallbackUnreachableAsWritten | NdkLocation.CppLibraryAndroid.NdkDir |
