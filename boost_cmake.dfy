/** The Boost libraries a Boost module's CMakeLists.txt links against: the
    `Boost::<name>` lines of its `target_link_libraries(...)` calls. */
module BoostCMake {
  import opened Wrappers
  import opened Strings

  const TargetLinkLibraries: string := "\ntarget_link_libraries"
  const CMakeListsFileName: string := "CMakeLists.txt"
  const BoostNamespace: string := "Boost::"

  /** The argument text of one call: after its '(', before its ')', and
      after the target name and each visibility keyword in turn. */
  function CallArguments(segment: string, projectName: string): string {
    SubstringAfter(SubstringAfter(SubstringAfter(SubstringAfter(
      SubstringBefore(SubstringAfter(segment, "("), ")"),
      projectName), "INTERFACE"), "PUBLIC"), "PRIVATE")
  }

  /** The library one argument line names: a trimmed, non-empty,
      non-comment line in the Boost namespace gives what follows its last
      ':'. */
  function LinkedLibrary(line: string): (r: Option<string>)
    ensures r.Some? <==> StartsWith(Trim(line), BoostNamespace)
    ensures r.Some? ==> ':' !in r.value
    ensures r.Some? ==> EndsWith(Trim(line), r.value)
  {
    var t := Trim(line);
    if t != "" && !StartsWith(t, "#") && StartsWith(t, BoostNamespace) then
      var name := SubstringAfterLastChar(t, ':');
      assert t[|t| - |name|..] == name;
      Some(name)
    else None
  }

  /** A Boost name without ':' and without surrounding whitespace reads
      back from its line. */
  lemma LinkedLibraryOfName(name: string)
    requires ':' !in name
    requires name == [] || !IsWhitespace(name[|name| - 1])
    ensures LinkedLibrary(BoostNamespace + name) == Some(name)
  {
    var t := BoostNamespace + name;
    assert t[0] == 'B' && t[|t| - 1] == (if name == [] then ':' else name[|name| - 1]);
    assert Trim(t) == t;
    assert t[..|BoostNamespace|] == BoostNamespace;
    assert LastIndexOfChar(t, ':') == 6 by {
      forall j | 6 < j < |t| ensures t[j] != ':' {
        assert t[j] == name[j - 7] && name[j - 7] in name;
      }
      assert t[6] == ':';
      LastIndexOfCharIs(t, ':', 6);
    }
    assert t[7..] == name;
  }

  lemma LastIndexOfCharIs(s: string, c: char, k: int)
    requires 0 <= k < |s| && s[k] == c
    requires forall j :: k < j < |s| ==> s[j] != c
    ensures LastIndexOfChar(s, c) == k
  {
  }

  /** Everything `f` gives for any of the texts. */
  function MapUnion(f: string -> set<string>, xs: seq<string>): set<string> {
    if |xs| == 0 then {} else f(xs[0]) + MapUnion(f, xs[1..])
  }

  predicate InSome(f: string -> set<string>, xs: seq<string>, x: string) {
    exists k :: 0 <= k < |xs| && x in f(xs[k])
  }

  lemma {:induction false} MapUnionMembers(f: string -> set<string>, xs: seq<string>, x: string)
    ensures x in MapUnion(f, xs) <==> InSome(f, xs, x)
  {
    if |xs| > 0 {
      var rest := xs[1..];
      MapUnionMembers(f, rest, x);
      if InSome(f, rest, x) {
        var k :| 0 <= k < |rest| && x in f(rest[k]);
        assert xs[k + 1] == rest[k];
      }
      if InSome(f, xs, x) && x !in f(xs[0]) {
        var k :| 0 <= k < |xs| && x in f(xs[k]);
        assert rest[k - 1] == xs[k];
      }
    }
  }

  lemma {:induction false} MapUnionConcat(f: string -> set<string>, xs: seq<string>, ys: seq<string>)
    ensures MapUnion(f, xs + ys) == MapUnion(f, xs) + MapUnion(f, ys)
  {
    if |xs| > 0 {
      MapUnionConcat(f, xs[1..], ys);
      assert (xs + ys)[1..] == xs[1..] + ys;
    } else {
      assert xs + ys == ys;
    }
  }

  lemma MapUnionOne(f: string -> set<string>, a: string)
    ensures MapUnion(f, [a]) == f(a)
  {
    assert [a][1..] == [];
  }

  /** The library one line names, as a set of at most one name. */
  function LineLibraries(line: string): set<string> {
    match LinkedLibrary(line)
    case Some(x) => {x}
    case None => {}
  }

  /** The libraries named by a sequence of lines. */
  function LibrariesOfLines(lines: seq<string>): set<string> {
    MapUnion(LineLibraries, lines)
  }

  predicate NamedByLine(lines: seq<string>, x: string) {
    exists k :: 0 <= k < |lines| && LinkedLibrary(lines[k]) == Some(x)
  }

  /** A library is collected exactly when some line names it. */
  lemma LibrariesOfLinesMembers(lines: seq<string>, x: string)
    ensures x in LibrariesOfLines(lines) <==> NamedByLine(lines, x)
  {
    MapUnionMembers(LineLibraries, lines, x);
    if InSome(LineLibraries, lines, x) {
      var k :| 0 <= k < |lines| && x in LineLibraries(lines[k]);
      assert LinkedLibrary(lines[k]) == Some(x);
    }
    if NamedByLine(lines, x) {
      var k :| 0 <= k < |lines| && LinkedLibrary(lines[k]) == Some(x);
      assert x in LineLibraries(lines[k]);
    }
  }

  /** Lines appended after others add their libraries and remove none. */
  lemma LibrariesOfLinesConcat(a: seq<string>, b: seq<string>)
    ensures LibrariesOfLines(a + b) == LibrariesOfLines(a) + LibrariesOfLines(b)
  {
    MapUnionConcat(LineLibraries, a, b);
  }

  /** The libraries of one call segment. */
  function SegmentLibraries(segment: string, projectName: string): set<string> {
    LibrariesOfLines(Lines(CallArguments(segment, projectName)))
  }

  /** The libraries linked by each call segment, flattened into one set. */
  function LibrariesOfSegments(segments: seq<string>, projectName: string): set<string> {
    MapUnion(s => SegmentLibraries(s, projectName), segments)
  }

  predicate LinkedBySegment(segments: seq<string>, projectName: string, x: string) {
    exists k :: 0 <= k < |segments| && x in SegmentLibraries(segments[k], projectName)
  }

  /** A library is collected exactly when some call links it. */
  lemma LibrariesOfSegmentsMembers(segments: seq<string>, projectName: string, x: string)
    ensures x in LibrariesOfSegments(segments, projectName) <==> LinkedBySegment(segments, projectName, x)
  {
    var f := s => SegmentLibraries(s, projectName);
    MapUnionMembers(f, segments, x);
    if InSome(f, segments, x) {
      var k :| 0 <= k < |segments| && x in f(segments[k]);
      assert x in SegmentLibraries(segments[k], projectName);
    }
    if LinkedBySegment(segments, projectName, x) {
      var k :| 0 <= k < |segments| && x in SegmentLibraries(segments[k], projectName);
      assert x in f(segments[k]);
    }
  }

  /** No collected name holds ':'. */
  lemma NoColonInLibraries(segments: seq<string>, projectName: string, x: string)
    requires x in LibrariesOfSegments(segments, projectName)
    ensures ':' !in x
  {
    LibrariesOfSegmentsMembers(segments, projectName, x);
    var k :| 0 <= k < |segments| && x in SegmentLibraries(segments[k], projectName);
    NoColonInLines(Lines(CallArguments(segments[k], projectName)), x);
  }

  lemma NoColonInLines(lines: seq<string>, x: string)
    requires x in LibrariesOfLines(lines)
    ensures ':' !in x
  {
    LibrariesOfLinesMembers(lines, x);
    var j :| 0 <= j < |lines| && LinkedLibrary(lines[j]) == Some(x);
  }

  /** `fetchDependenciesFromCMakeListsFile`: nothing without a
      `target_link_libraries` call at the start of a line; otherwise the
      libraries of every call after the first marker. */
  function FetchDependencies(text: string, projectName: string): (r: set<string>)
    ensures !Contains(text, TargetLinkLibraries) ==> r == {}
    ensures Contains(text, TargetLinkLibraries) ==>
      r == LibrariesOfSegments(Split(SubstringAfter(text, TargetLinkLibraries), TargetLinkLibraries), projectName)
    ensures forall x :: x in r ==> ':' !in x
  {
    var segments := Split(SubstringAfter(text, TargetLinkLibraries), TargetLinkLibraries);
    assert forall x :: x in LibrariesOfSegments(segments, projectName) ==> ':' !in x by {
      forall x | x in LibrariesOfSegments(segments, projectName) ensures ':' !in x {
        NoColonInLibraries(segments, projectName, x);
      }
    }
    if !Contains(text, TargetLinkLibraries) then {}
    else LibrariesOfSegments(segments, projectName)
  }

  /** Text that starts with a delimiter holds it, and what follows it is
      the text after its first occurrence. */
  lemma SubstringAfterLeading(d: string, rest: string)
    requires |d| > 0
    ensures Contains(d + rest, d) && SubstringAfter(d + rest, d) == rest
  {
    var text := d + rest;
    assert text[..|d|] == d;
    assert OccursAt(text, d, 0);
    assert text[|d|..] == rest;
  }

  lemma LibrariesOfOneSegment(segment: string, projectName: string)
    ensures LibrariesOfSegments([segment], projectName) == SegmentLibraries(segment, projectName)
  {
    MapUnionOne(s => SegmentLibraries(s, projectName), segment);
  }

  /** A text holding one call reads its libraries from that call. */
  lemma FetchSingleCall(segment: string, projectName: string)
    requires !Contains(segment, TargetLinkLibraries)
    ensures FetchDependencies(TargetLinkLibraries + segment, projectName) == SegmentLibraries(segment, projectName)
  {
    SubstringAfterLeading(TargetLinkLibraries, segment);
    assert Split(segment, TargetLinkLibraries) == [segment];
    LibrariesOfOneSegment(segment, projectName);
  }

  /** `dependenciesFromCMakeFile`: the libraries of `CMakeLists.txt` in the
      upstream sources when that file exists, and none otherwise. */
  function DependenciesFromCMakeFile(
    upstreamSources: Option<string>, projectName: string,
    existing: set<string>, readText: string -> string): (r: set<string>)
    ensures upstreamSources.None? ==> r == {}
    ensures upstreamSources.Some? && upstreamSources.value + "/" + CMakeListsFileName !in existing ==> r == {}
    ensures upstreamSources.Some? && upstreamSources.value + "/" + CMakeListsFileName in existing ==>
      r == FetchDependencies(readText(upstreamSources.value + "/" + CMakeListsFileName), projectName)
  {
    match upstreamSources
    case None => {}
    case Some(dir) =>
      var file := dir + "/" + CMakeListsFileName;
      if file in existing then FetchDependencies(readText(file), projectName) else {}
  }
}
