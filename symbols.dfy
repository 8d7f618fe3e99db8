/** The symbol a generated dummy C++ source defines for a header-only
    library: the project path and name with ':' and '-' made into '_'. */
module Symbols {
  import opened Strings

  /** `s.replace(":", "_").replace("-", "_")`. */
  function ToSymbol(s: string): (r: string)
    ensures |r| == |s|
    ensures forall i :: 0 <= i < |s| ==> r[i] == (if s[i] == ':' || s[i] == '-' then '_' else s[i])
  {
    ReplaceChar(ReplaceChar(s, ':', '_'), '-', '_')
  }

  /** Neither separator survives. */
  lemma ToSymbolHasNoSeparators(s: string)
    ensures ':' !in ToSymbol(s) && '-' !in ToSymbol(s)
  {
    var r := ToSymbol(s);
    forall i | 0 <= i < |r| ensures r[i] != ':' && r[i] != '-' {
    }
  }

  /** Applying it again changes nothing. */
  lemma ToSymbolIdempotent(s: string)
    ensures ToSymbol(ToSymbol(s)) == ToSymbol(s)
  {
    ToSymbolHasNoSeparators(s);
    var r := ToSymbol(s);
    assert forall i :: 0 <= i < |r| ==> r[i] != ':' && r[i] != '-' by {
      forall i | 0 <= i < |r| ensures r[i] != ':' && r[i] != '-' {
        assert r[i] in r;
      }
    }
  }

  /** "__" + path + "_" + name + "__", both made into symbols. */
  function SymbolName(projectPath: string, projectName: string): (r: string)
    ensures |r| == |projectPath| + |projectName| + 5
    ensures StartsWith(r, "__") && EndsWith(r, "__")
    ensures r[2..2 + |projectPath|] == ToSymbol(projectPath)
    ensures r[3 + |projectPath|..|r| - 2] == ToSymbol(projectName)
  {
    var r := "__" + ToSymbol(projectPath) + "_" + ToSymbol(projectName) + "__";
    assert r[2..2 + |projectPath|] == ToSymbol(projectPath);
    assert r[3 + |projectPath|..|r| - 2] == ToSymbol(projectName);
    r
  }

  predicate IsIdentifierChar(c: char) {
    c == '_' || ('a' <= c <= 'z') || ('A' <= c <= 'Z') || ('0' <= c <= '9')
  }

  predicate IsIdentifierText(s: string) {
    forall i :: 0 <= i < |s| ==> IsIdentifierChar(s[i])
  }

  /** Project paths and names made of letters, digits, '_', ':' and '-'
      give a valid C identifier (it starts with '_'). */
  lemma SymbolNameIsIdentifier(projectPath: string, projectName: string)
    requires forall c :: c in projectPath ==> IsIdentifierChar(c) || c == ':' || c == '-'
    requires forall c :: c in projectName ==> IsIdentifierChar(c) || c == ':' || c == '-'
    ensures var r := SymbolName(projectPath, projectName);
      r[0] == '_' && forall i :: 0 <= i < |r| ==> IsIdentifierChar(r[i])
  {
    var p := ToSymbol(projectPath);
    var n := ToSymbol(projectName);
    ToSymbolIsIdentifier(projectPath);
    ToSymbolIsIdentifier(projectName);
    assert IsIdentifierText("__") && IsIdentifierText("_");
    IdentifierConcat("__", p);
    IdentifierConcat("__" + p, "_");
    IdentifierConcat("__" + p + "_", n);
    IdentifierConcat("__" + p + "_" + n, "__");
    assert SymbolName(projectPath, projectName) == "__" + p + "_" + n + "__";
  }

  lemma ToSymbolIsIdentifier(s: string)
    requires forall c :: c in s ==> IsIdentifierChar(c) || c == ':' || c == '-'
    ensures IsIdentifierText(ToSymbol(s))
  {
    var r := ToSymbol(s);
    forall i | 0 <= i < |r| ensures IsIdentifierChar(r[i]) {
      assert s[i] in s;
    }
  }

  lemma IdentifierConcat(a: string, b: string)
    requires IsIdentifierText(a) && IsIdentifierText(b)
    ensures IsIdentifierText(a + b)
  {
    forall i | 0 <= i < |a + b| ensures IsIdentifierChar((a + b)[i]) {
      if i >= |a| {
        assert (a + b)[i] == b[i - |a|];
      }
    }
  }
}
