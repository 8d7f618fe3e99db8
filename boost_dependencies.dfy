/** How the Boost sample wires its sub-projects together: where a module's
    upstream sources live, the hand-written extra dependencies, the direct
    and nested dependencies, and which of them become `implementation`
    dependencies. */
module BoostDependencies {
  import opened Wrappers
  import opened Paths
  import BoostCMake

  // ---------------------------------------------------------------------
  // Upstream sources
  // ---------------------------------------------------------------------

  /** `upstreamDir`: `<projectDir>/upstream/<version>`. */
  function UpstreamDir(projectDir: string, version: string): string {
    PathJoin(projectDir, "upstream/" + version)
  }

  /** `upstreamSources`: `<upstreamDir>/<name>-boost-<version>`, when that
      path exists. */
  function UpstreamSources(projectDir: string, name: string, version: string, existing: set<string>): (r: Option<string>)
    ensures r.Some? <==> UpstreamDir(projectDir, version) + "/" + name + "-boost-" + version in existing
    ensures r.Some? ==> r.value == UpstreamDir(projectDir, version) + "/" + name + "-boost-" + version
  {
    var path := UpstreamDir(projectDir, version) + "/" + name + "-boost-" + version;
    if path in existing then Some(path) else None
  }

  /** A project directory not ending in '/' and a version give the
      expected layout. */
  lemma UpstreamSourcesLayout(projectDir: string, name: string, version: string, existing: set<string>)
    requires projectDir != "" && projectDir != "/"
    requires UpstreamSources(projectDir, name, version, existing).Some?
    ensures UpstreamSources(projectDir, name, version, existing).value ==
      projectDir + "/upstream/" + version + "/" + name + "-boost-" + version
  {
    assert ("upstream/" + version)[0] == 'u';
  }

  // ---------------------------------------------------------------------
  // Extra dependencies
  // ---------------------------------------------------------------------

  /** `customDependencies` of the current plugin. */
  function CustomDependencies(name: string): (r: set<string>)
    ensures name == "container_hash" ==> r == {"assert", "config", "core", "detail", "integer", "static_assert", "type_traits"}
    ensures name == "function_types" ==> r == {"config", "core", "detail", "mpl", "preprocessor", "type_traits"}
    ensures name == "io" || name == "locale" ==> r == {"config"}
    ensures name !in {"container_hash", "function_types", "io", "locale"} ==> r == {}
  {
    var table := map[
      "container_hash" := {"assert", "config", "core", "detail", "integer", "static_assert", "type_traits"},
      "function_types" := {"config", "core", "detail", "mpl", "preprocessor", "type_traits"},
      "io" := {"config"},
      "locale" := {"config"}];
    if name in table then table[name] else {}
  }

  /** `customDependencies` of the earlier plugin: the same table without
      "locale". */
  function LegacyCustomDependencies(name: string): (r: set<string>)
    ensures name == "container_hash" ==> r == {"assert", "config", "core", "detail", "integer", "static_assert", "type_traits"}
    ensures name == "function_types" ==> r == {"config", "core", "detail", "mpl", "preprocessor", "type_traits"}
    ensures name == "io" ==> r == {"config"}
    ensures name !in {"container_hash", "function_types", "io"} ==> r == {}
  {
    var table := map[
      "container_hash" := {"assert", "config", "core", "detail", "integer", "static_assert", "type_traits"},
      "function_types" := {"config", "core", "detail", "mpl", "preprocessor", "type_traits"},
      "io" := {"config"}];
    if name in table then table[name] else {}
  }

  /** The two tables differ only at "locale". */
  lemma CustomDependenciesDifferOnlyAtLocale(name: string)
    ensures name != "locale" ==> CustomDependencies(name) == LegacyCustomDependencies(name)
    ensures CustomDependencies("locale") == {"config"} && LegacyCustomDependencies("locale") == {}
  {
  }

  // ---------------------------------------------------------------------
  // Direct and nested dependencies
  // ---------------------------------------------------------------------

  /** The sub-projects of the "boost" project as a dependency search sees
      them: the names of the sibling projects, and the CMake dependencies
      of each (what `dependenciesFromCMakeFile` reads for it). */
  datatype Family = Family(siblings: set<string>, cmakeDependencies: string -> set<string>)

  /** The CMake dependencies a module reads from its upstream
      `CMakeLists.txt`. */
  function CMakeDependenciesOf(
    projectDir: string, name: string, version: string,
    existing: set<string>, readText: string -> string): (r: set<string>)
    ensures UpstreamSources(projectDir, name, version, existing).None? ==> r == {}
  {
    BoostCMake.DependenciesFromCMakeFile(UpstreamSources(projectDir, name, version, existing), name, existing, readText)
  }

  /** A module's direct dependencies: its CMake dependencies and its
      custom ones. */
  function DirectDependencies(family: Family, name: string): (r: set<string>)
    ensures forall x :: x in r <==> x in family.cmakeDependencies(name) || x in CustomDependencies(name)
  {
    family.cmakeDependencies(name) + CustomDependencies(name)
  }

  /** `nestedDependencies`, with the depth of its recursion bounded by
      `fuel`: for each dependency that is a sibling project, what the
      search finds from it one level down. */
  function NestedDependencies(family: Family, dependencies: set<string>, fuel: nat): set<string>
    decreases fuel, 1
  {
    if fuel == 0 then {}
    else
      var depth := fuel - 1;
      set d, x | d in dependencies && d in family.siblings && x in FoundFrom(family, d, depth) :: x
  }

  /** What the search finds from one sibling project: its CMake
      dependencies and their nested dependencies. */
  function FoundFrom(family: Family, project: string, fuel: nat): set<string>
    decreases fuel, 2
  {
    family.cmakeDependencies(project) + NestedDependencies(family, family.cmakeDependencies(project), fuel)
  }

  /** A chain of sibling projects starting at one of `dependencies`, each
      a CMake dependency of the one before. */
  predicate IsChain(family: Family, dependencies: set<string>, chain: seq<string>) {
    && |chain| >= 1
    && chain[0] in dependencies
    && (forall i :: 0 <= i < |chain| ==> chain[i] in family.siblings)
    && (forall i :: 0 < i < |chain| ==> chain[i] in family.cmakeDependencies(chain[i - 1]))
  }

  ghost predicate ReachedBy(family: Family, dependencies: set<string>, x: string, depth: nat) {
    exists chain :: |chain| <= depth && IsChain(family, dependencies, chain)
      && x in family.cmakeDependencies(chain[|chain| - 1])
  }

  /** A chain from a project's own CMake dependencies extends by that
      project in front. */
  lemma ChainCons(family: Family, dependencies: set<string>, d: string, tail: seq<string>)
    requires d in dependencies && d in family.siblings
    requires IsChain(family, family.cmakeDependencies(d), tail)
    ensures IsChain(family, dependencies, [d] + tail)
    ensures ([d] + tail)[|[d] + tail| - 1] == tail[|tail| - 1]
  {
    var chain := [d] + tail;
    forall i | 0 < i < |chain| ensures chain[i] in family.cmakeDependencies(chain[i - 1]) {
      assert chain[i] == tail[i - 1];
    }
    forall i | 0 <= i < |chain| ensures chain[i] in family.siblings {
      if i > 0 {
        assert chain[i] == tail[i - 1];
      }
    }
  }

  /** A chain longer than one continues from the CMake dependencies of its
      first project. */
  lemma ChainTail(family: Family, dependencies: set<string>, chain: seq<string>)
    requires IsChain(family, dependencies, chain) && |chain| > 1
    ensures IsChain(family, family.cmakeDependencies(chain[0]), chain[1..])
    ensures chain[1..][|chain[1..]| - 1] == chain[|chain| - 1]
  {
    var tail := chain[1..];
    forall i | 0 < i < |tail| ensures tail[i] in family.cmakeDependencies(tail[i - 1]) {
      assert tail[i] == chain[i + 1] && tail[i - 1] == chain[i];
    }
    forall i | 0 <= i < |tail| ensures tail[i] in family.siblings {
      assert tail[i] == chain[i + 1];
    }
  }

  /** Every nested dependency ends a chain within the depth bound. */
  lemma {:induction false} NestedDependenciesReached(family: Family, dependencies: set<string>, fuel: nat, x: string)
    requires x in NestedDependencies(family, dependencies, fuel)
    ensures ReachedBy(family, dependencies, x, fuel)
    decreases fuel
  {
    var d :| d in dependencies && d in family.siblings && x in FoundFrom(family, d, fuel - 1);
    if x in family.cmakeDependencies(d) {
      assert IsChain(family, dependencies, [d]);
      assert [d][|[d]| - 1] == d;
    } else {
      NestedDependenciesReached(family, family.cmakeDependencies(d), fuel - 1, x);
      var tail :| |tail| <= fuel - 1 && IsChain(family, family.cmakeDependencies(d), tail)
        && x in family.cmakeDependencies(tail[|tail| - 1]);
      ChainCons(family, dependencies, d, tail);
      assert |[d] + tail| <= fuel;
    }
  }

  /** The end of every chain within the depth bound is a nested
      dependency. */
  lemma {:induction false} ReachedIsNested(family: Family, dependencies: set<string>, fuel: nat, x: string, chain: seq<string>)
    requires |chain| <= fuel && IsChain(family, dependencies, chain)
    requires x in family.cmakeDependencies(chain[|chain| - 1])
    ensures x in NestedDependencies(family, dependencies, fuel)
    decreases fuel
  {
    var d := chain[0];
    if |chain| > 1 {
      ChainTail(family, dependencies, chain);
      ReachedIsNested(family, family.cmakeDependencies(d), fuel - 1, x, chain[1..]);
    }
    assert x in FoundFrom(family, d, fuel - 1);
  }

  /** A name is a nested dependency exactly when it is a CMake dependency
      of the last project on a chain no longer than the depth bound. */
  lemma NestedDependenciesAreChains(family: Family, dependencies: set<string>, fuel: nat, x: string)
    ensures x in NestedDependencies(family, dependencies, fuel) <==> ReachedBy(family, dependencies, x, fuel)
  {
    if x in NestedDependencies(family, dependencies, fuel) {
      NestedDependenciesReached(family, dependencies, fuel, x);
    }
    if ReachedBy(family, dependencies, x, fuel) {
      var chain :| |chain| <= fuel && IsChain(family, dependencies, chain)
        && x in family.cmakeDependencies(chain[|chain| - 1]);
      ReachedIsNested(family, dependencies, fuel, x, chain);
    }
  }

  /** A deeper bound finds everything a shallower one finds. */
  lemma NestedDependenciesGrowWithDepth(family: Family, dependencies: set<string>, fuel: nat, more: nat)
    requires fuel <= more
    ensures NestedDependencies(family, dependencies, fuel) <= NestedDependencies(family, dependencies, more)
  {
    forall x | x in NestedDependencies(family, dependencies, fuel)
      ensures x in NestedDependencies(family, dependencies, more)
    {
      NestedDependenciesAreChains(family, dependencies, fuel, x);
      NestedDependenciesAreChains(family, dependencies, more, x);
    }
  }

  /** Names that are no sibling project contribute nothing. */
  lemma NestedDependenciesIgnoreUnknown(family: Family, dependencies: set<string>, fuel: nat)
    ensures NestedDependencies(family, dependencies, fuel) == NestedDependencies(family, dependencies * family.siblings, fuel)
  {
  }

  /** A sibling dependency's own CMake dependencies are all nested ones. */
  lemma NestedDependenciesIncludeFirstLevel(family: Family, dependencies: set<string>, fuel: nat, d: string)
    requires fuel >= 1 && d in dependencies && d in family.siblings
    ensures family.cmakeDependencies(d) <= NestedDependencies(family, dependencies, fuel)
  {
    forall x | x in family.cmakeDependencies(d) ensures x in NestedDependencies(family, dependencies, fuel) {
      assert x in FoundFrom(family, d, fuel - 1);
    }
  }

  // ---------------------------------------------------------------------
  // Linking
  // ---------------------------------------------------------------------

  /** `applyDependencies`: the `implementation` dependencies after linking
      every listed name that is a sibling project. */
  function ApplyDependencies(implementation: set<string>, dependencies: set<string>, siblings: set<string>): (r: set<string>)
    ensures forall x :: x in r <==> x in implementation || (x in dependencies && x in siblings)
  {
    implementation + (dependencies * siblings)
  }

  /** `setupWithUpstreamSources`: a module's `implementation` dependencies
      are its direct and nested dependencies that are sibling projects.
      `applyDependencies` links through the module's `CppLibrary`
      extension, which only `applyCppLibrary` adds, and only when the
      module has upstream sources; without them nothing is linked. */
  function ModuleImplementation(family: Family, name: string, hasUpstreamSources: bool, fuel: nat): (r: set<string>)
    ensures r <= family.siblings
    ensures !hasUpstreamSources ==> r == {}
  {
    if !hasUpstreamSources then {}
    else
      var direct := DirectDependencies(family, name);
      ApplyDependencies(ApplyDependencies({}, direct, family.siblings),
        NestedDependencies(family, direct, fuel), family.siblings)
  }

  /** A module with upstream sources links a sibling exactly when it is a
      direct dependency or is reached through a chain of CMake dependencies
      from one; a module without them links nothing. */
  lemma ModuleImplementationMembers(family: Family, name: string, hasUpstreamSources: bool, fuel: nat, x: string)
    ensures x in ModuleImplementation(family, name, hasUpstreamSources, fuel) <==>
      hasUpstreamSources && x in family.siblings &&
      (x in DirectDependencies(family, name) || ReachedBy(family, DirectDependencies(family, name), x, fuel))
  {
    NestedDependenciesAreChains(family, DirectDependencies(family, name), fuel, x);
  }
}
