/** The earlier Boost plugin's `resolvePackageData`: the b2 requirements
    of every sub-project, with the requirements of modules that are not
    sub-projects substituted in their place. */
module BoostPackageData {
  import opened Wrappers

  /** One entry of the package data file: a module name and its b2
      requirements (`None` when the entry has no such list, where the
      source's cast throws). The file is a JSON object, so a sequence of
      entries stands for it only when no module name repeats. */
  datatype PackageEntry = PackageEntry(name: string, requirements: Option<seq<string>>)

  datatype ResolveError = MissingRequirements(moduleName: string)

  function SetOf(names: seq<string>): (r: set<string>)
    ensures forall x :: x in r <==> x in names
  {
    set x | x in names
  }

  /** The first pass from entry `i` on: every entry naming a child project
      maps to the set of its requirements. */
  function FirstPass(children: set<string>, entries: seq<PackageEntry>, i: nat, resolved: map<string, set<string>>)
    : Result<map<string, set<string>>, ResolveError>
    requires i <= |entries|
    decreases |entries| - i
  {
    if i == |entries| then Ok(resolved)
    else
      var e := entries[i];
      if e.name !in children then FirstPass(children, entries, i + 1, resolved)
      else if e.requirements.None? then Err(MissingRequirements(e.name))
      else FirstPass(children, entries, i + 1, resolved[e.name := SetOf(e.requirements.value)])
  }

  /** Every set holding `name` loses it and gains `requirements`; the
      other sets and the keys stay as they are. */
  function Substituted(resolved: map<string, set<string>>, name: string, requirements: set<string>)
    : (r: map<string, set<string>>)
    ensures r.Keys == resolved.Keys
    ensures forall k :: k in resolved && name !in resolved[k] ==> r[k] == resolved[k]
    ensures forall k :: k in resolved && name in resolved[k] ==>
      forall x :: x in r[k] <==> (x in resolved[k] && x != name) || x in requirements
  {
    map k | k in resolved :: if name in resolved[k] then (resolved[k] - {name}) + requirements else resolved[k]
  }

  /** The second pass from entry `i` on: each entry whose name was not
      resolved substitutes its requirements for its name. */
  function SecondPass(resolvedNames: set<string>, entries: seq<PackageEntry>, i: nat, resolved: map<string, set<string>>)
    : Result<map<string, set<string>>, ResolveError>
    requires i <= |entries|
    decreases |entries| - i
  {
    if i == |entries| then Ok(resolved)
    else
      var e := entries[i];
      if e.name in resolvedNames then SecondPass(resolvedNames, entries, i + 1, resolved)
      else if e.requirements.None? then Err(MissingRequirements(e.name))
      else SecondPass(resolvedNames, entries, i + 1, Substituted(resolved, e.name, SetOf(e.requirements.value)))
  }

  /** What `resolvePackageData` returns, or the entry whose requirements
      are missing. */
  function Resolve(children: set<string>, packageData: Option<seq<PackageEntry>>)
    : Result<map<string, set<string>>, ResolveError>
  {
    match packageData
    case None => Ok(map[])
    case Some(entries) =>
      var first :- FirstPass(children, entries, 0, map[]);
      SecondPass(first.Keys, entries, 0, first)
  }

  /** `resolvePackageData`, updating one map (and its sets) in place. */
  method ResolvePackageData(children: set<string>, packageData: Option<seq<PackageEntry>>)
    returns (r: Result<map<string, set<string>>, ResolveError>)
    ensures r == Resolve(children, packageData)
  {
    if packageData.None? {
      return Ok(map[]);
    }
    var entries := packageData.value;
    var resolved: map<string, set<string>> := map[];
    var i := 0;
    while i < |entries|
      invariant i <= |entries|
      invariant FirstPass(children, entries, 0, map[]) == FirstPass(children, entries, i, resolved)
    {
      var e := entries[i];
      if e.name in children {
        if e.requirements.None? {
          return Err(MissingRequirements(e.name));
        }
        resolved := resolved[e.name := SetOf(e.requirements.value)];
      }
      i := i + 1;
    }
    var first := resolved;
    i := 0;
    while i < |entries|
      invariant i <= |entries|
      invariant SecondPass(first.Keys, entries, 0, first) == SecondPass(first.Keys, entries, i, resolved)
    {
      var e := entries[i];
      if e.name !in first.Keys {
        if e.requirements.None? {
          return Err(MissingRequirements(e.name));
        }
        resolved := SubstituteInPlace(resolved, e.name, SetOf(e.requirements.value));
      }
      i := i + 1;
    }
    return Ok(resolved);
  }

  /** The inner loop: every set that holds `name` drops it and takes the
      requirements. */
  method SubstituteInPlace(resolved: map<string, set<string>>, name: string, requirements: set<string>)
    returns (r: map<string, set<string>>)
    ensures r == Substituted(resolved, name, requirements)
  {
    r := resolved;
    var pending := resolved.Keys;
    while pending != {}
      invariant pending <= resolved.Keys && r.Keys == resolved.Keys
      invariant forall k :: k in pending ==> r[k] == resolved[k]
      invariant forall k :: k in resolved && k !in pending ==> r[k] == Substituted(resolved, name, requirements)[k]
      decreases pending
    {
      var k :| k in pending;
      if name in r[k] {
        r := r[k := (r[k] - {name}) + requirements];
      }
      pending := pending - {k};
    }
  }

  // ---------------------------------------------------------------------
  // Properties
  // ---------------------------------------------------------------------

  /** No package data gives an empty map. */
  lemma ResolveWithoutData(children: set<string>)
    ensures Resolve(children, None) == Ok(map[])
  {
  }

  /** The names of the entries from `i` on that are child projects. */
  function ChildNames(children: set<string>, entries: seq<PackageEntry>, i: nat): (r: set<string>)
    requires i <= |entries|
    ensures forall x :: x in r <==> exists j :: i <= j < |entries| && entries[j].name == x && x in children
  {
    set j | i <= j < |entries| && entries[j].name in children :: entries[j].name
  }

  /** The first pass adds exactly the child entries' names as keys. */
  lemma {:induction false} FirstPassKeys(children: set<string>, entries: seq<PackageEntry>, i: nat, resolved: map<string, set<string>>)
    requires i <= |entries|
    requires FirstPass(children, entries, i, resolved).Ok?
    ensures FirstPass(children, entries, i, resolved).value.Keys == resolved.Keys + ChildNames(children, entries, i)
    decreases |entries| - i
  {
    if i < |entries| {
      var e := entries[i];
      var next := if e.name in children then resolved[e.name := SetOf(e.requirements.value)] else resolved;
      FirstPassKeys(children, entries, i + 1, next);
      assert ChildNames(children, entries, i) ==
        ChildNames(children, entries, i + 1) + (if e.name in children then {e.name} else {});
    }
  }

  /** The second pass never adds or removes keys. */
  lemma {:induction false} SecondPassKeys(resolvedNames: set<string>, entries: seq<PackageEntry>, i: nat, resolved: map<string, set<string>>)
    requires i <= |entries|
    requires SecondPass(resolvedNames, entries, i, resolved).Ok?
    ensures SecondPass(resolvedNames, entries, i, resolved).value.Keys == resolved.Keys
    decreases |entries| - i
  {
    if i < |entries| {
      var e := entries[i];
      if e.name in resolvedNames {
        SecondPassKeys(resolvedNames, entries, i + 1, resolved);
      } else {
        SecondPassKeys(resolvedNames, entries, i + 1, Substituted(resolved, e.name, SetOf(e.requirements.value)));
      }
    }
  }

  /** The result's keys are exactly the child projects present in the
      package data. */
  lemma ResolvedKeys(children: set<string>, entries: seq<PackageEntry>)
    requires Resolve(children, Some(entries)).Ok?
    ensures Resolve(children, Some(entries)).value.Keys == ChildNames(children, entries, 0)
  {
    var first := FirstPass(children, entries, 0, map[]).value;
    FirstPassKeys(children, entries, 0, map[]);
    SecondPassKeys(first.Keys, entries, 0, first);
  }

  /** The first pass fails exactly when a child entry from `i` on has no
      requirements. */
  lemma {:induction false} FirstPassFails(children: set<string>, entries: seq<PackageEntry>, i: nat, resolved: map<string, set<string>>)
    requires i <= |entries|
    ensures FirstPass(children, entries, i, resolved).Err? <==>
      exists j :: i <= j < |entries| && entries[j].name in children && entries[j].requirements.None?
    decreases |entries| - i
  {
    if i < |entries| {
      var e := entries[i];
      if e.name !in children {
        FirstPassFails(children, entries, i + 1, resolved);
      } else if e.requirements.Some? {
        FirstPassFails(children, entries, i + 1, resolved[e.name := SetOf(e.requirements.value)]);
      }
    }
  }

  /** The second pass fails exactly when an unresolved entry from `i` on
      has no requirements. */
  lemma {:induction false} SecondPassFails(resolvedNames: set<string>, entries: seq<PackageEntry>, i: nat, resolved: map<string, set<string>>)
    requires i <= |entries|
    ensures SecondPass(resolvedNames, entries, i, resolved).Err? <==>
      exists j :: i <= j < |entries| && entries[j].name !in resolvedNames && entries[j].requirements.None?
    decreases |entries| - i
  {
    if i < |entries| {
      var e := entries[i];
      if e.name in resolvedNames {
        SecondPassFails(resolvedNames, entries, i + 1, resolved);
      } else if e.requirements.Some? {
        SecondPassFails(resolvedNames, entries, i + 1, Substituted(resolved, e.name, SetOf(e.requirements.value)));
      }
    }
  }

  /** Resolution fails exactly when some entry, child project or not, has
      no requirements list. */
  lemma ResolveFails(children: set<string>, entries: seq<PackageEntry>)
    ensures Resolve(children, Some(entries)).Err? <==> exists j :: 0 <= j < |entries| && entries[j].requirements.None?
  {
    FirstPassFails(children, entries, 0, map[]);
    if FirstPass(children, entries, 0, map[]).Ok? {
      var first := FirstPass(children, entries, 0, map[]).value;
      FirstPassKeys(children, entries, 0, map[]);
      SecondPassFails(first.Keys, entries, 0, first);
    }
  }

  /** After substituting a name that is not among its own requirements,
      no set holds it any more. */
  lemma SubstitutedRemovesName(resolved: map<string, set<string>>, name: string, requirements: set<string>)
    requires name !in requirements
    ensures forall k :: k in Substituted(resolved, name, requirements) ==> name !in Substituted(resolved, name, requirements)[k]
  {
  }
}
