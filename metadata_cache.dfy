/** The memoising metadata provider: the first probe for a key is stored,
    and every later request with an equal key gets the stored result
    without probing again, whether the probe succeeded or failed. */
module MetadataCache {
  import opened Wrappers
  import opened CompilerMetadata

  /** What a configure action sets on an exec spec. */
  datatype ExecSpec = ExecSpec(executable: Option<string>, args: seq<string>, environment: map<string, string>)

  /** The fresh spec each request configures. */
  const FreshExecSpec: ExecSpec := ExecSpec(None, [], map[])

  /** The cache key: compared by value on all four parts. The executable
      is not nullable. */
  datatype Key = Key(gccBinary: string, args: seq<string>, path: seq<string>, environment: map<string, string>)

  /** Building a key from a spec whose configure action set no executable
      throws, since `Key`'s `gccBinary` is not nullable. */
  datatype CacheError = MissingExecutable

  /** The key of a request: the configure action is run on a fresh spec
      and its executable, arguments and environment are combined with the
      search path; without an executable there is no key. */
  function KeyOf(path: seq<string>, configure: ExecSpec -> ExecSpec): (k: Result<Key, CacheError>)
    ensures k.Err? <==> configure(FreshExecSpec).executable.None?
    ensures k.Ok? ==> k.value.path == path
    ensures k.Ok? ==> Some(k.value.gccBinary) == configure(FreshExecSpec).executable
    ensures k.Ok? ==> k.value.args == configure(FreshExecSpec).args && k.value.environment == configure(FreshExecSpec).environment
  {
    var spec := configure(FreshExecSpec);
    if spec.executable.None? then Err(MissingExecutable)
    else Ok(Key(spec.executable.value, spec.args, path, spec.environment))
  }

  /** Two requests share a cache entry exactly when their configure actions
      set the same executable, arguments and environment on a fresh spec
      and they search the same path. */
  lemma KeyOfIdentifiesRequests(path1: seq<string>, configure1: ExecSpec -> ExecSpec,
                                path2: seq<string>, configure2: ExecSpec -> ExecSpec)
    requires KeyOf(path1, configure1).Ok? && KeyOf(path2, configure2).Ok?
    ensures KeyOf(path1, configure1) == KeyOf(path2, configure2) <==>
      path1 == path2 && configure1(FreshExecSpec) == configure2(FreshExecSpec)
  {
  }

  /** One lookup in `resultMap`: the stored result on a hit, the probe's
      result (then stored) on a miss. */
  function CachedLookup(resultMap: map<Key, SearchResult>, key: Key, probe: SearchResult)
    : (r: (SearchResult, map<Key, SearchResult>))
    ensures key in resultMap ==> r == (resultMap[key], resultMap)
    ensures key !in resultMap ==> r == (probe, resultMap[key := probe])
    ensures r.1[key] == r.0 && resultMap.Keys <= r.1.Keys
  {
    if key in resultMap then (resultMap[key], resultMap) else (probe, resultMap[key := probe])
  }

  /** A second lookup of the same key returns the first answer and changes
      nothing, whatever the second probe would have said. */
  lemma CachedLookupIsStable(resultMap: map<Key, SearchResult>, key: Key, probe: SearchResult, laterProbe: SearchResult)
    ensures var (first, after) := CachedLookup(resultMap, key, probe);
      CachedLookup(after, key, laterProbe) == (first, after)
  {
  }

  /** Lookups never remove or replace an entry: every key keeps its first
      result. */
  lemma CachedLookupKeepsEntries(resultMap: map<Key, SearchResult>, key: Key, probe: SearchResult)
    ensures var after := CachedLookup(resultMap, key, probe).1;
      forall k :: k in resultMap ==> k in after && after[k] == resultMap[k]
  {
  }

  class CachingMetadataProvider {
    var resultMap: map<Key, SearchResult>
    /** The keys the delegate has been asked about, in order. */
    var delegateCalls: seq<Key>
    /** The compiler type of the delegate. */
    const compilerType: string

    /** Every stored key was probed exactly once, and only stored keys
        were probed. */
    ghost predicate Valid()
      reads this
    {
      && (forall k :: k in resultMap <==> k in delegateCalls)
      && (forall i, j :: 0 <= i < j < |delegateCalls| ==> delegateCalls[i] != delegateCalls[j])
    }

    constructor(delegateType: string)
      ensures Valid()
      ensures resultMap == map[] && delegateCalls == [] && compilerType == delegateType
    {
      resultMap := map[];
      delegateCalls := [];
      compilerType := delegateType;
    }

    /** `getCompilerType`: the delegate's type. */
    function GetCompilerType(): (r: string)
      reads this
      ensures r == compilerType
    {
      compilerType
    }

    /** `getCompilerMetaData`: `delegate` stands for the wrapped provider,
        which probes the compiler the key describes. It is asked only on a
        miss, once, and its answer is stored even when it is a failure. */
    method GetCompilerMetaData(path: seq<string>, configure: ExecSpec -> ExecSpec, delegate: Key -> SearchResult)
      returns (r: Result<SearchResult, CacheError>)
      requires Valid()
      modifies this
      ensures Valid()
      ensures KeyOf(path, configure).Err? ==>
        r == Err(MissingExecutable) && resultMap == old(resultMap) && delegateCalls == old(delegateCalls)
      ensures KeyOf(path, configure).Ok? ==> var key := KeyOf(path, configure).value;
        && r.Ok?
        && (r.value, resultMap) == CachedLookup(old(resultMap), key, delegate(key))
        && (key in old(resultMap) ==> delegateCalls == old(delegateCalls))
        && (key !in old(resultMap) ==> delegateCalls == old(delegateCalls) + [key])
    {
      var execSpec := configure(FreshExecSpec);
      if execSpec.executable.None? {
        return Err(MissingExecutable);
      }
      var key := Key(execSpec.executable.value, execSpec.args, path, execSpec.environment);
      if key in resultMap {
        r := Ok(resultMap[key]);
      } else {
        var result := delegate(key);
        resultMap := resultMap[key := result];
        delegateCalls := delegateCalls + [key];
        r := Ok(result);
      }
    }
  }
}
