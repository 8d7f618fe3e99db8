/** The metadata probe of the NDK clang: the arguments it runs the compiler
    with, and the parser that turns the compiler's standard output (the
    predefined macros) and standard error (the banner and the include search
    list) into a version, a vendor string and the system include
    directories inside the NDK. */
module CompilerMetadata {
  import opened Wrappers
  import opened Strings

  /** The compiler is run as `clang -dM -E -v -`. */
  const ProbeArgs: seq<string> := ["-dM", "-E", "-v", "-"]

  /** The compiler type the provider reports. */
  const ClangIdentifier: string := "clang-android"
  const ClangDescription: string := "Android Clang"

  const IncludesStart: string := "#include <...> search starts here:"
  const IncludesEnd: string := "End of search list."
  const FrameworkInclude: string := " (framework directory)"

  /** The reasons a probe is broken, with the binary's name. */
  datatype MetadataError =
    | UnexpectedOutput(binaryName: string)  // a line is not a #define, or no compiler macro is defined
    | AppearsToBeGcc(binaryName: string)    // "__clang__" is not defined
    | VendorNotFound(binaryName: string)    // no banner line names the version

  datatype Version = Version(major: int, minor: int, patch: int)

  // ---------------------------------------------------------------------
  // One #define line
  // ---------------------------------------------------------------------

  /** `\s` of a Java regular expression. */
  predicate IsRegexSpace(c: char) {
    c == ' ' || c == '\t' || c == '\n' || c == '\U{000B}' || c == '\U{000C}' || c == '\r'
  }

  /** The characters `.` of a Java regular expression does not match. */
  predicate IsRegexLineTerminator(c: char) {
    c == '\n' || c == '\r' || c == '\U{0085}' || c == '\U{2028}' || c == '\U{2029}'
  }

  /** Text that `.*` matches whole. */
  predicate NoLineTerminator(s: string) {
    forall c :: c in s ==> !IsRegexLineTerminator(c)
  }

  /** The end of the run of `\s` starting at `from`. */
  function SkipSpaces(s: string, from: nat): (r: nat)
    requires from <= |s|
    ensures from <= r <= |s|
    ensures forall j :: from <= j < r ==> IsRegexSpace(s[j])
    ensures r < |s| ==> !IsRegexSpace(s[r])
    decreases |s| - from
  {
    if from == |s| || !IsRegexSpace(s[from]) then from else SkipSpaces(s, from + 1)
  }

  /** The end of the run of `\S` starting at `from`. */
  function SkipNonSpaces(s: string, from: nat): (r: nat)
    requires from <= |s|
    ensures from <= r <= |s|
    ensures forall j :: from <= j < r ==> !IsRegexSpace(s[j])
    ensures r < |s| ==> IsRegexSpace(s[r])
    decreases |s| - from
  {
    if from == |s| || IsRegexSpace(s[from]) then from else SkipNonSpaces(s, from + 1)
  }

  /** A whole-line match of `\s*#define\s+(\S+)\s+(.*)`, giving the two
      groups: the name is the whole run of non-spaces after "#define" and
      its spaces, the value everything after the spaces that follow the
      name, which must hold no line terminator. */
  function MatchDefine(line: string): (r: Option<(string, string)>)
    ensures r.Some? ==> r.value.0 != [] && forall c :: c in r.value.0 ==> !IsRegexSpace(c)
    ensures r.Some? ==> NoLineTerminator(r.value.1)
    ensures r.Some? ==> r.value.1 == [] || !IsRegexSpace(r.value.1[0])
  {
    var a := SkipSpaces(line, 0);
    if !(a + 7 <= |line| && line[a..a + 7] == "#define") then None
    else
      var b := SkipSpaces(line, a + 7);
      var c := SkipNonSpaces(line, b);
      var d := SkipSpaces(line, c);
      if b == a + 7 || c == b || d == c || !NoLineTerminator(line[d..]) then None
      else Some((line[b..c], line[d..]))
  }

  /** A line written as "#define NAME VALUE" reads back as (NAME, VALUE). */
  lemma MatchDefineOfRendering(name: string, value: string)
    requires name != [] && forall c :: c in name ==> !IsRegexSpace(c)
    requires NoLineTerminator(value)
    requires value == [] || !IsRegexSpace(value[0])
    ensures MatchDefine("#define " + name + " " + value) == Some((name, value))
  {
    var line := "#define " + name + " " + value;
    var n := |name|;
    DefineLineSlices("#define ", name, value);
    assert line[0..7] == "#define" by { assert line[0..7] == line[..8][..7]; }
    assert SkipSpaces(line, 0) == 0 by { assert line[0] == '#'; }
    assert SkipSpaces(line, 7) == 8 by { assert line[8] == name[0]; }
    assert forall j :: 8 <= j < 8 + n ==> !IsRegexSpace(line[j]) by {
      forall j | 8 <= j < 8 + n ensures !IsRegexSpace(line[j]) {
        assert name[j - 8] in name;
      }
    }
    SkipNonSpacesRun(line, 8, 8 + n);
    assert SkipSpaces(line, 8 + n) == 9 + n by {
      assert value != [] ==> line[9 + n] == value[0];
    }
  }

  lemma DefineLineSlices(head: string, name: string, value: string)
    ensures var line := head + name + " " + value;
      var h, n := |head|, |name|;
      && line[..h] == head && line[h..h + n] == name && line[h + n] == ' ' && line[h + n + 1..] == value
      && forall j :: h <= j < h + n ==> line[j] == name[j - h]
  {
  }

  /** A run of non-spaces ended by a space is skipped exactly. */
  lemma {:induction false} SkipNonSpacesRun(s: string, from: nat, to: nat)
    requires from <= to < |s|
    requires forall j :: from <= j < to ==> !IsRegexSpace(s[j])
    requires IsRegexSpace(s[to])
    ensures SkipNonSpaces(s, from) == to
    decreases |s| - from
  {
    if from < to {
      SkipNonSpacesRun(s, from + 1, to);
    }
  }

  // ---------------------------------------------------------------------
  // All #define lines
  // ---------------------------------------------------------------------

  /** The (name, value) pair of every line, or nothing as soon as one line
      is not a #define. */
  function MatchAll(lines: seq<string>): (r: Option<seq<(string, string)>>)
    ensures r.None? <==> exists i :: 0 <= i < |lines| && MatchDefine(lines[i]).None?
    ensures r.Some? ==> |r.value| == |lines| && forall i :: 0 <= i < |lines| ==> MatchDefine(lines[i]) == Some(r.value[i])
    decreases |lines|
  {
    if |lines| == 0 then Some([])
    else
      var init := lines[..|lines| - 1];
      match MatchAll(init)
      case None => assert init[..] == init; None
      case Some(pairs) =>
        match MatchDefine(lines[|lines| - 1])
        case None => None
        case Some(define) =>
          assert forall i :: 0 <= i < |init| ==> lines[i] == init[i];
          Some(pairs + [define])
  }

  /** The definitions in order, a later one replacing an earlier one. */
  function Collect(pairs: seq<(string, string)>): map<string, string> {
    if |pairs| == 0 then map[]
    else Collect(pairs[..|pairs| - 1])[pairs[|pairs| - 1].0 := pairs[|pairs| - 1].1]
  }

  /** Each defined name maps to the value of its last definition, and
      nothing else is defined. */
  lemma {:induction false} CollectLastWins(pairs: seq<(string, string)>)
    ensures var m := Collect(pairs);
      && (forall i :: 0 <= i < |pairs| ==> pairs[i].0 in m)
      && (forall n :: n in m ==>
            exists i :: 0 <= i < |pairs| && pairs[i] == (n, m[n]) && forall j :: i < j < |pairs| ==> pairs[j].0 != n)
  {
    if |pairs| > 0 {
      var init := pairs[..|pairs| - 1];
      var last := |pairs| - 1;
      CollectLastWins(init);
      var m0 := Collect(init);
      var m := Collect(pairs);
      forall i | 0 <= i < |pairs|
        ensures pairs[i].0 in m
      {
        if i < last {
          assert pairs[i] == init[i];
        }
      }
      forall n | n in m
        ensures exists i :: 0 <= i < |pairs| && pairs[i] == (n, m[n]) && forall j :: i < j < |pairs| ==> pairs[j].0 != n
      {
        if n == pairs[last].0 {
          assert pairs[last] == (n, m[n]);
        } else {
          var i :| 0 <= i < |init| && init[i] == (n, m0[n]) && forall j :: i < j < |init| ==> init[j].0 != n;
          assert pairs[i] == init[i];
          forall j | i < j < |pairs|
            ensures pairs[j].0 != n
          {
            if j < last {
              assert pairs[j] == init[j];
            }
          }
        }
      }
    }
  }

  /** The macros of the given lines, or the error for a line that is not a
      #define. */
  function DefinesOf(lines: seq<string>, binaryName: string): (r: Result<map<string, string>, MetadataError>)
    ensures r.Err? <==> exists i :: 0 <= i < |lines| && MatchDefine(lines[i]).None?
    ensures r.Err? ==> r.error == UnexpectedOutput(binaryName)
  {
    match MatchAll(lines)
    case None => Err(UnexpectedOutput(binaryName))
    case Some(pairs) => Ok(Collect(pairs))
  }

  /** When every line is a #define, each name maps to the value of the last
      line that defines it, and nothing else is defined. */
  lemma DefinesLastWins(lines: seq<string>, binaryName: string)
    requires DefinesOf(lines, binaryName).Ok?
    ensures var m := DefinesOf(lines, binaryName).value;
      && (forall i :: 0 <= i < |lines| ==> MatchDefine(lines[i]).Some? && MatchDefine(lines[i]).value.0 in m)
      && (forall n :: n in m ==>
            exists i :: 0 <= i < |lines| && MatchDefine(lines[i]) == Some((n, m[n]))
                        && forall j :: i < j < |lines| ==> MatchDefine(lines[j]).value.0 != n)
  {
    var pairs := MatchAll(lines).value;
    CollectLastWins(pairs);
    var m := Collect(pairs);
    forall n | n in m
      ensures exists i :: 0 <= i < |lines| && MatchDefine(lines[i]) == Some((n, m[n]))
                          && forall j :: i < j < |lines| ==> MatchDefine(lines[j]).value.0 != n
    {
      var i :| 0 <= i < |pairs| && pairs[i] == (n, m[n]) && forall j :: i < j < |pairs| ==> pairs[j].0 != n;
      assert MatchDefine(lines[i]) == Some((n, m[n]));
    }
  }

  /** `parseDefines`: every line of standard output is a #define, and the
      compiler defines "__GNUC__" or "__clang__". */
  function Defines(output: string, binaryName: string): (r: Result<map<string, string>, MetadataError>)
    ensures r.Ok? ==> "__GNUC__" in r.value || "__clang__" in r.value
    ensures r.Ok? <==>
      && DefinesOf(ReaderLines(output), binaryName).Ok?
      && ("__GNUC__" in DefinesOf(ReaderLines(output), binaryName).value
          || "__clang__" in DefinesOf(ReaderLines(output), binaryName).value)
    ensures r.Ok? ==> r.value == DefinesOf(ReaderLines(output), binaryName).value
    ensures r.Err? ==> r.error == UnexpectedOutput(binaryName)
  {
    var defines :- DefinesOf(ReaderLines(output), binaryName);
    if "__GNUC__" !in defines && "__clang__" !in defines then Err(UnexpectedOutput(binaryName))
    else Ok(defines)
  }

  /** `parseDefines` as it runs: one map filled line by line. */
  method ParseDefines(output: string, binaryName: string) returns (r: Result<map<string, string>, MetadataError>)
    ensures r == Defines(output, binaryName)
  {
    var lines := ReaderLines(output);
    var defines: map<string, string> := map[];
    ghost var pairs: seq<(string, string)> := [];
    var i := 0;
    while i < |lines|
      invariant 0 <= i <= |lines|
      invariant MatchAll(lines[..i]) == Some(pairs) && defines == Collect(pairs)
    {
      var matched := MatchDefine(lines[i]);
      MatchAllStep(lines, i);
      if matched.None? {
        MatchAllOfPrefix(lines, i + 1);
        return Err(UnexpectedOutput(binaryName));
      }
      defines := defines[matched.value.0 := matched.value.1];
      pairs := pairs + [matched.value];
      assert pairs[..|pairs| - 1] == pairs[..i];
      i := i + 1;
    }
    assert lines[..i] == lines;
    if "__GNUC__" !in defines && "__clang__" !in defines {
      return Err(UnexpectedOutput(binaryName));
    }
    return Ok(defines);
  }

  /** Matching one more line. */
  lemma MatchAllStep(lines: seq<string>, i: nat)
    requires i < |lines| && MatchAll(lines[..i]).Some?
    ensures MatchAll(lines[..i + 1])
            == match MatchDefine(lines[i])
               case None => None
               case Some(define) => Some(MatchAll(lines[..i]).value + [define])
  {
    assert lines[..i + 1][..i] == lines[..i];
  }

  /** A line that fails in a prefix fails the whole output. */
  lemma MatchAllOfPrefix(lines: seq<string>, k: nat)
    requires k <= |lines|
    requires MatchAll(lines[..k]).None?
    ensures MatchAll(lines).None?
  {
    var i :| 0 <= i < k && MatchDefine(lines[..k][i]).None?;
    assert lines[..k][i] == lines[i];
  }

  // ---------------------------------------------------------------------
  // Version and vendor
  // ---------------------------------------------------------------------

  /** `toInt`: the value parsed as a 32-bit decimal integer, 0 when it is
      missing or does not parse. */
  function ToInt(value: Option<string>): (r: int)
    ensures IntMin <= r <= IntMax
    ensures value.None? || ParseInt(value.value).None? ==> r == 0
  {
    if value.None? then 0
    else match ParseInt(value.value)
      case None => 0
      case Some(n) => n
  }

  /** A number written in decimal reads back as itself. */
  lemma ToIntOfRendering(n: int)
    requires IntMin <= n <= IntMax
    ensures ToInt(Some(IntToString(n))) == n
  {
    ParseIntOfIntToString(n);
  }

  function Lookup(defines: map<string, string>, name: string): Option<string> {
    if name in defines then Some(defines[name]) else None
  }

  /** `determineVersion` for the clang type: the binary must define
      "__clang__"; the version is read from the three clang macros. */
  function DetermineVersion(defines: map<string, string>, binaryName: string): (r: Result<Version, MetadataError>)
    ensures r.Err? <==> "__clang__" !in defines
    ensures r.Err? ==> r.error == AppearsToBeGcc(binaryName)
  {
    if "__clang__" !in defines then Err(AppearsToBeGcc(binaryName))
    else Ok(Version(ToInt(Lookup(defines, "__clang_major__")),
                    ToInt(Lookup(defines, "__clang_minor__")),
                    ToInt(Lookup(defines, "__clang_patchlevel__"))))
  }

  /** The version of a clang that defines its three version macros in
      decimal is exactly those numbers. */
  lemma DetermineVersionOfMacros(defines: map<string, string>, binaryName: string, major: int, minor: int, patch: int)
    requires "__clang__" in defines
    requires IntMin <= major <= IntMax && IntMin <= minor <= IntMax && IntMin <= patch <= IntMax
    requires Lookup(defines, "__clang_major__") == Some(IntToString(major))
    requires Lookup(defines, "__clang_minor__") == Some(IntToString(minor))
    requires Lookup(defines, "__clang_patchlevel__") == Some(IntToString(patch))
    ensures DetermineVersion(defines, binaryName) == Ok(Version(major, minor, patch))
  {
    ToIntOfRendering(major);
    ToIntOfRendering(minor);
    ToIntOfRendering(patch);
  }

  /** A missing patch-level macro counts as 0. */
  lemma DetermineVersionWithoutPatchLevel(defines: map<string, string>, binaryName: string, major: int, minor: int)
    requires "__clang__" in defines
    requires IntMin <= major <= IntMax && IntMin <= minor <= IntMax
    requires Lookup(defines, "__clang_major__") == Some(IntToString(major))
    requires Lookup(defines, "__clang_minor__") == Some(IntToString(minor))
    requires "__clang_patchlevel__" !in defines
    ensures DetermineVersion(defines, binaryName) == Ok(Version(major, minor, 0))
  {
    ToIntOfRendering(major);
    ToIntOfRendering(minor);
  }

  /** "major.minor" of a version. */
  function MajorMinor(version: Version): string {
    IntToString(version.major) + "." + IntToString(version.minor)
  }

  predicate IsVendorLine(line: string, majorMinor: string) {
    Contains(line, majorMinor) && Contains(line, " version ") && !Contains(line, " default target ")
  }

  /** The first index at or after `k` whose flag is set, if there is one. */
  function FirstSet(flags: seq<bool>, k: nat): (r: Option<nat>)
    requires k <= |flags|
    ensures r.None? <==> forall i :: k <= i < |flags| ==> !flags[i]
    ensures r.Some? ==> k <= r.value < |flags| && flags[r.value]
    ensures r.Some? ==> forall j :: k <= j < r.value ==> !flags[j]
    decreases |flags| - k
  {
    if k == |flags| then None
    else if flags[k] then Some(k)
    else FirstSet(flags, k + 1)
  }

  /** The first vendor line, if there is one. */
  function FirstVendorLine(lines: seq<string>, majorMinor: string): (r: Option<nat>)
    ensures r.None? <==> forall i :: 0 <= i < |lines| ==> !IsVendorLine(lines[i], majorMinor)
    ensures r.Some? ==> r.value < |lines| && IsVendorLine(lines[r.value], majorMinor)
    ensures r.Some? ==> forall j :: 0 <= j < r.value ==> !IsVendorLine(lines[j], majorMinor)
  {
    var flags := seq(|lines|, i requires 0 <= i < |lines| => IsVendorLine(lines[i], majorMinor));
    assert forall i :: 0 <= i < |lines| ==> flags[i] == IsVendorLine(lines[i], majorMinor);
    FirstSet(flags, 0)
  }

  /** `determineVendor`: the first line of standard error that names
      "major.minor" and " version " but not " default target ". */
  function DetermineVendor(error: string, version: Version, binaryName: string): (r: Result<string, MetadataError>)
    ensures var lines := ReaderLines(error);
      && (r.Err? <==> forall i :: 0 <= i < |lines| ==> !IsVendorLine(lines[i], MajorMinor(version)))
      && (r.Err? ==> r.error == VendorNotFound(binaryName))
      && (r.Ok? ==> exists i :: 0 <= i < |lines| && lines[i] == r.value
                               && IsVendorLine(lines[i], MajorMinor(version))
                               && forall j :: 0 <= j < i ==> !IsVendorLine(lines[j], MajorMinor(version)))
  {
    var lines := ReaderLines(error);
    match FirstVendorLine(lines, MajorMinor(version))
    case None => Err(VendorNotFound(binaryName))
    case Some(i) => Ok(lines[i])
  }

  // ---------------------------------------------------------------------
  // System include directories
  // ---------------------------------------------------------------------

  /** The loop over standard error, from a point where the start marker has
      or has not been seen: stop at the end marker, switch on at the start
      marker, and keep every other line once switched on, trimmed, unless it
      is a framework directory. */
  function ScanIncludes(lines: seq<string>, started: bool): seq<string> {
    if |lines| == 0 then []
    else if lines[0] == IncludesEnd then []
    else if lines[0] == IncludesStart then ScanIncludes(lines[1..], true)
    else if started && !Contains(lines[0], FrameworkInclude) then [TrimControl(lines[0])] + ScanIncludes(lines[1..], started)
    else ScanIncludes(lines[1..], started)
  }

  /** The index of the first line equal to `marker`, or the number of lines. */
  function FirstLine(lines: seq<string>, marker: string): (r: nat)
    ensures r <= |lines|
    ensures r < |lines| ==> lines[r] == marker
    ensures forall j :: 0 <= j < r ==> lines[j] != marker
  {
    if |lines| == 0 || lines[0] == marker then 0 else FirstLine(lines[1..], marker) + 1
  }

  /** The trimmed lines that are neither a start marker nor a framework
      directory. */
  function KeptIncludes(lines: seq<string>): (r: seq<string>)
    ensures |r| <= |lines|
  {
    if |lines| == 0 then []
    else if lines[0] == IncludesStart || Contains(lines[0], FrameworkInclude) then KeptIncludes(lines[1..])
    else [TrimControl(lines[0])] + KeptIncludes(lines[1..])
  }

  /** The include section: the lines strictly after the first start marker
      and before the first end marker, kept as above; nothing when an end
      marker comes first or there is no start marker. */
  function IncludeSection(lines: seq<string>): seq<string> {
    var e := FirstLine(lines, IncludesEnd);
    var s := FirstLine(lines[..e], IncludesStart);
    if s == e then [] else KeptIncludes(lines[s + 1..e])
  }

  /** Once started, the loop keeps the lines up to the first end marker. */
  lemma {:induction false} ScanStarted(lines: seq<string>)
    ensures ScanIncludes(lines, true) == KeptIncludes(lines[..FirstLine(lines, IncludesEnd)])
  {
    if |lines| > 0 && lines[0] != IncludesEnd {
      ScanStarted(lines[1..]);
      var e := FirstLine(lines, IncludesEnd);
      assert lines[..e][1..] == lines[1..][..e - 1];
    }
  }

  /** The loop finds exactly the include section. */
  lemma {:induction false} ScanFindsSection(lines: seq<string>)
    ensures ScanIncludes(lines, false) == IncludeSection(lines)
  {
    if |lines| == 0 {
    } else if lines[0] == IncludesEnd {
      assert FirstLine(lines, IncludesEnd) == 0;
    } else if lines[0] == IncludesStart {
      ScanStarted(lines[1..]);
      var e := FirstLine(lines, IncludesEnd);
      assert FirstLine(lines[..e], IncludesStart) == 0;
      assert lines[1..e] == lines[1..][..e - 1];
    } else {
      ScanFindsSection(lines[1..]);
      var e := FirstLine(lines, IncludesEnd);
      assert e == FirstLine(lines[1..], IncludesEnd) + 1;
      assert lines[..e][1..] == lines[1..][..e - 1];
      var s := FirstLine(lines[..e], IncludesStart);
      assert s == FirstLine(lines[1..][..e - 1], IncludesStart) + 1;
      if s != e {
        assert lines[s + 1..e] == lines[1..][s..e - 1];
      }
    }
  }

  /** An end marker before any start marker gives no include directory. */
  lemma EndBeforeStart(lines: seq<string>, k: nat)
    requires k < |lines| && lines[k] == IncludesEnd
    requires forall j :: 0 <= j < k ==> lines[j] != IncludesStart
    ensures ScanIncludes(lines, false) == []
  {
    ScanFindsSection(lines);
    var e := FirstLine(lines, IncludesEnd);
    assert FirstLine(lines[..e], IncludesStart) == e;
  }

  /** The paths that start with `prefix`, in order. */
  function KeepPrefixed(paths: seq<string>, prefix: string): (r: seq<string>)
    ensures |r| <= |paths|
    ensures forall p :: p in r <==> p in paths && StartsWith(p, prefix)
  {
    if |paths| == 0 then []
    else (if StartsWith(paths[0], prefix) then [paths[0]] else []) + KeepPrefixed(paths[1..], prefix)
  }

  /** `determineSystemIncludes`: the include section of standard error,
      restricted to the directories under the NDK. */
  function SystemIncludes(error: string, ndkPath: string): seq<string> {
    KeepPrefixed(IncludeSection(ReaderLines(error)), ndkPath)
  }

  /** `determineSystemIncludes` as it runs: a flag, a `break` at the end
      marker and a `continue` at the start marker and at framework lines. */
  method DetermineSystemIncludes(error: string, ndkPath: string) returns (r: seq<string>)
    ensures r == SystemIncludes(error, ndkPath)
  {
    var lines := ReaderLines(error);
    var builder: seq<string> := [];
    var started := false;
    var i := 0;
    while i < |lines|
      invariant 0 <= i <= |lines|
      invariant builder + ScanIncludes(lines[i..], started) == ScanIncludes(lines, false)
    {
      var line := lines[i];
      ScanStep(lines, i, started);
      if IncludesEnd == line {
        break;
      }
      if IncludesStart == line {
        started := true;
        i := i + 1;
        continue;
      }
      if started {
        if Contains(line, FrameworkInclude) {
          i := i + 1;
          continue;
        }
        builder := builder + [TrimControl(line)];
      }
      i := i + 1;
    }
    if i == |lines| {
      assert lines[i..] == [];
    }
    assert builder == ScanIncludes(lines, false);
    ScanFindsSection(lines);
    r := KeepPrefixed(builder, ndkPath);
  }

  /** One turn of the loop. */
  lemma ScanStep(lines: seq<string>, i: nat, started: bool)
    requires i < |lines|
    ensures var line := lines[i];
      ScanIncludes(lines[i..], started)
      == if line == IncludesEnd then []
         else if line == IncludesStart then ScanIncludes(lines[i + 1..], true)
         else if started && !Contains(line, FrameworkInclude) then [TrimControl(line)] + ScanIncludes(lines[i + 1..], started)
         else ScanIncludes(lines[i + 1..], started)
  {
    assert lines[i..][0] == lines[i];
    assert lines[i..][1..] == lines[i + 1..];
  }

  // ---------------------------------------------------------------------
  // The metadata value
  // ---------------------------------------------------------------------

  /** What a successful probe found. It has no library directories and no
      preprocessor macros of its own. */
  datatype ClangMetadata = ClangMetadata(scrapedVersion: Version, scrapedVendor: string, systemIncludes: seq<string>) {
    function GetVersion(): (r: Version)
      ensures r == scrapedVersion
    {
      scrapedVersion
    }

    function GetIncludeDirs(): (r: seq<string>)
      ensures r == systemIncludes
    {
      systemIncludes
    }

    function GetLibDirs(): (r: seq<string>)
      ensures r == []
    {
      []
    }

    function GetPreprocessorMacros(): (r: map<string, string>)
      ensures r == map[]
    {
      map[]
    }

    function GetVendor(): (r: string)
      ensures r == scrapedVendor
    {
      scrapedVendor
    }

    function GetSystemLibraries(): (r: ClangMetadata)
      ensures r == this
    {
      this
    }
  }

  /** `parseCompilerOutput`: the macros, then the version, then the vendor,
      then the include directories under the NDK. */
  function ParseCompilerOutput(output: string, error: string, ndkPath: string, binaryName: string)
    : (r: Result<ClangMetadata, MetadataError>)
  {
    var defines :- Defines(output, binaryName);
    var version :- DetermineVersion(defines, binaryName);
    var vendor :- DetermineVendor(error, version, binaryName);
    Ok(ClangMetadata(version, vendor, SystemIncludes(error, ndkPath)))
  }

  /** A probe succeeds exactly when standard output is all #define lines
      with "__clang__" among them and standard error names the version;
      every include directory it reports lies under the NDK. */
  lemma ParseCompilerOutputSucceeds(output: string, error: string, ndkPath: string, binaryName: string)
    ensures var r := ParseCompilerOutput(output, error, ndkPath, binaryName);
      var defines := Defines(output, binaryName);
      && (r.Ok? <==> defines.Ok? && "__clang__" in defines.value
                     && DetermineVendor(error, DetermineVersion(defines.value, binaryName).value, binaryName).Ok?)
      && (r.Ok? ==> forall p :: p in r.value.GetIncludeDirs() ==> StartsWith(p, ndkPath))
      && (r.Ok? ==> r.value.GetVersion() == DetermineVersion(defines.value, binaryName).value)
  {
  }

  /** What the metadata provider answers: the metadata, or why it is
      unavailable. */
  datatype SearchResult = Available(metadata: ClangMetadata) | Unavailable(reason: MetadataError)

  function ProbeResult(output: string, error: string, ndkPath: string, binaryName: string): (r: SearchResult)
    ensures r.Available? <==> ParseCompilerOutput(output, error, ndkPath, binaryName).Ok?
  {
    match ParseCompilerOutput(output, error, ndkPath, binaryName)
    case Ok(m) => Available(m)
    case Err(e) => Unavailable(e)
  }
}
