/** The per-platform tool registry: one command-line tool configuration per
    tool type, the compiler probe arguments and the command-file flag. */
module ToolRegistry {
  import opened Wrappers

  /** The tool kinds a native tool chain knows about. */
  datatype ToolType =
    | CCompiler | CppCompiler | ObjectiveCCompiler | ObjectiveCppCompiler
    | Assembler | Linker | StaticLibArchiver | SymbolExtractor | Stripper

  /** A tool configuration: its type, the executable path and the arguments
      added to every invocation. */
  datatype ToolConfig = ToolConfig(toolType: ToolType, executable: string, args: seq<string>)

  datatype RegistryError = ToolNotRegistered(toolType: ToolType)

  /** The registry after adding `entries` one after the other. */
  function AddAll(tools: map<ToolType, ToolConfig>, entries: seq<ToolConfig>): (r: map<ToolType, ToolConfig>)
    ensures forall e :: e in entries ==> e.toolType in r
    ensures forall t :: t in tools ==> t in r
    ensures forall t :: t in r ==> t in tools || exists e :: e in entries && e.toolType == t
  {
    if |entries| == 0 then tools
    else
      var last := entries[|entries| - 1];
      AddAll(tools, entries[..|entries| - 1])[last.toolType := last]
  }

  /** The last entry of each type wins, and types no entry names keep their
      earlier configuration. */
  lemma {:induction false} AddAllLastWins(tools: map<ToolType, ToolConfig>, entries: seq<ToolConfig>, k: nat)
    requires k < |entries|
    requires forall j :: k < j < |entries| ==> entries[j].toolType != entries[k].toolType
    ensures AddAll(tools, entries)[entries[k].toolType] == entries[k]
    decreases |entries|
  {
    if k < |entries| - 1 {
      AddAllLastWins(tools, entries[..|entries| - 1], k);
    }
  }

  class PlatformToolChain {
    var canUseCommandFile: bool
    var compilerProbeArgs: seq<string>
    var tools: map<ToolType, ToolConfig>

    /** Every configuration is stored under its own type. */
    ghost predicate Valid()
      reads this
    {
      forall t :: t in tools ==> tools[t].toolType == t
    }

    constructor()
      ensures Valid()
      ensures canUseCommandFile && compilerProbeArgs == [] && tools == map[]
    {
      canUseCommandFile := true;
      compilerProbeArgs := [];
      tools := map[];
    }

    /** The registered configuration, or an error when none was added. */
    function GetTool(toolType: ToolType): (r: Result<ToolConfig, RegistryError>)
      reads this
      requires Valid()
      ensures r.Ok? <==> toolType in tools
      ensures r.Ok? ==> r.value == tools[toolType] && r.value.toolType == toolType
      ensures r.Err? ==> r.error == ToolNotRegistered(toolType)
    {
      if toolType in tools then Ok(tools[toolType]) else Err(ToolNotRegistered(toolType))
    }

    /** Stores `tool` under its type, replacing an earlier one. */
    method Add(tool: ToolConfig)
      requires Valid()
      modifies this
      ensures Valid()
      ensures tools == old(tools)[tool.toolType := tool]
      ensures canUseCommandFile == old(canUseCommandFile)
      ensures compilerProbeArgs == old(compilerProbeArgs)
    {
      tools := tools[tool.toolType := tool];
    }

    /** `onEach { add(it) }`: stores the entries one after the other. */
    method AddEach(entries: seq<ToolConfig>)
      requires Valid()
      modifies this
      ensures Valid()
      ensures tools == AddAll(old(tools), entries)
      ensures canUseCommandFile == old(canUseCommandFile)
      ensures compilerProbeArgs == old(compilerProbeArgs)
    {
      var k := 0;
      while k < |entries|
        invariant 0 <= k <= |entries|
        invariant Valid()
        invariant tools == AddAll(old(tools), entries[..k])
        invariant canUseCommandFile == old(canUseCommandFile)
        invariant compilerProbeArgs == old(compilerProbeArgs)
      {
        Add(entries[k]);
        k := k + 1;
        assert entries[..k][..k - 1] == entries[..k - 1];
      }
      assert entries[..k] == entries;
    }

    method SetCanUseCommandFile(value: bool)
      modifies this
      ensures canUseCommandFile == value
      ensures tools == old(tools) && compilerProbeArgs == old(compilerProbeArgs)
    {
      canUseCommandFile := value;
    }

    /** Appends `args`, in order, to the probe arguments. */
    method AddCompilerProbeArgs(args: seq<string>)
      modifies this
      ensures compilerProbeArgs == old(compilerProbeArgs) + args
      ensures tools == old(tools) && canUseCommandFile == old(canUseCommandFile)
    {
      compilerProbeArgs := compilerProbeArgs + args;
    }

    /** The C and the C++ compiler, in that order; fails if either is missing. */
    function GetCompilers(): (r: Result<seq<ToolConfig>, RegistryError>)
      reads this
      requires Valid()
      ensures r.Ok? <==> CCompiler in tools && CppCompiler in tools
      ensures r.Ok? ==> r.value == [tools[CCompiler], tools[CppCompiler]]
      ensures r.Err? ==> r.error == ToolNotRegistered(if CCompiler !in tools then CCompiler else CppCompiler)
    {
      var c :- GetTool(CCompiler);
      var cpp :- GetTool(CppCompiler);
      Ok([c, cpp])
    }

    /** The named getters of the registry (C and C++ compiler, assembler,
        linker, archiver, symbol extractor, stripper): each is `GetTool` on
        its own type, so it fails exactly when that type is missing. */
    function Named(toolType: ToolType): (r: Result<ToolConfig, RegistryError>)
      reads this
      requires Valid()
      requires toolType !in {ObjectiveCCompiler, ObjectiveCppCompiler}
      ensures r.Ok? <==> toolType in tools
      ensures r.Ok? ==> r.value == tools[toolType] && r.value.toolType == toolType
      ensures r.Err? ==> r.error == ToolNotRegistered(toolType)
    {
      GetTool(toolType)
    }
  }

  /** Once a registry is filled from a list of distinct types, each type
      reads back its own configuration. */
  lemma GetToolAfterAddAll(chain: PlatformToolChain, before: map<ToolType, ToolConfig>, entries: seq<ToolConfig>, k: nat)
    requires chain.Valid()
    requires k < |entries|
    requires chain.tools == AddAll(before, entries)
    requires forall j :: k < j < |entries| ==> entries[j].toolType != entries[k].toolType
    ensures chain.GetTool(entries[k].toolType) == Ok(entries[k])
  {
    AddAllLastWins(before, entries, k);
  }
}
