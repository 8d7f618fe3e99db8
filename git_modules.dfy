/** The list of Boost sub-projects read from Boost's `.gitmodules`: the
    quoted name of every `[submodule "..."]` line, one per line. */
module GitModules {
  import opened Strings

  const SubmoduleKeyword: string := "submodule "

  /** Kotlin's `Char.equals(other, ignoreCase = true)` for a pattern
      character `p` that is a lower-case ASCII letter or a space: the
      character itself, its upper-case form, and for 's' also the long s
      (U+017F), whose upper case is 'S'. */
  predicate MatchesIgnoreCase(c: char, p: char) {
    || c == p
    || ('a' <= p <= 'z' && c as int == p as int - 32)
    || (p == 's' && c == 'ſ')
  }

  predicate MatchesIgnoreCaseAt(s: string, p: string, i: nat)
    requires i + |p| <= |s|
  {
    forall j :: 0 <= j < |p| ==> MatchesIgnoreCase(s[i + j], p[j])
  }

  /** `s.contains(p, ignoreCase = true)` for such a pattern. */
  predicate ContainsIgnoreCase(s: string, p: string) {
    exists i: nat :: i + |p| <= |s| && MatchesIgnoreCaseAt(s, p, i)
  }

  predicate IsSubmoduleLine(line: string) {
    ContainsIgnoreCase(line, SubmoduleKeyword)
  }

  /** The text between the first and the second '"' of a line (the rest of
      the line when there is no second one, the whole line when there is
      no first one). */
  function SubmoduleName(line: string): (r: string)
    ensures '"' !in r
  {
    var name := SubstringBefore(SubstringAfter(line, "\""), "\"");
    ContainsChar(name, '"');
    name
  }

  /** The names of the submodule lines, in order. */
  function SubmoduleNames(lines: seq<string>): (r: seq<string>)
    ensures |r| <= |lines|
    ensures forall k :: 0 <= k < |r| ==> '"' !in r[k]
  {
    if |lines| == 0 then []
    else if IsSubmoduleLine(lines[0]) then [SubmoduleName(lines[0])] + SubmoduleNames(lines[1..])
    else SubmoduleNames(lines[1..])
  }

  /** `writeListOfSubprojects`: the text written to the sub-project list. */
  function SubProjectsList(gitModules: string): string {
    Join(SubmoduleNames(ReaderLines(gitModules)), "\n")
  }

  /** The header line git writes for a submodule. */
  function SubmoduleHeader(name: string): string {
    "[submodule \"" + name + "\"]"
  }

  /** Any text holding the pattern as is holds it ignoring case. */
  lemma ContainsIgnoreCaseExact(a: string, p: string, b: string)
    ensures ContainsIgnoreCase(a + p + b, p)
  {
    var s := a + p + b;
    forall j | 0 <= j < |p| ensures MatchesIgnoreCase(s[|a| + j], p[j]) {
      assert s[|a| + j] == p[j];
    }
    assert MatchesIgnoreCaseAt(s, p, |a|);
  }

  /** A header line is a submodule line and gives its name back. */
  lemma SubmoduleNameOfHeader(name: string)
    requires '"' !in name
    ensures IsSubmoduleLine(SubmoduleHeader(name))
    ensures SubmoduleName(SubmoduleHeader(name)) == name
  {
    var rest := name + "\"]";
    assert SubmoduleHeader(name) == "[" + SubmoduleKeyword + ("\"" + rest);
    ContainsIgnoreCaseExact("[", SubmoduleKeyword, "\"" + rest);
    HeaderName(name);
  }

  lemma HeaderName(name: string)
    requires '"' !in name
    ensures SubstringBefore(SubstringAfter(SubmoduleHeader(name), "\""), "\"") == name
  {
    assert '"' !in "[submodule ";
    assert SubmoduleHeader(name) == "[submodule " + ['"'] + name + ['"'] + "]";
    BetweenDelimiters("[submodule ", name, "]", '"');
  }

  /** The text between the first two occurrences of a delimiter. */
  lemma BetweenDelimiters(prefix: string, middle: string, suffix: string, c: char)
    requires c !in prefix && c !in middle
    ensures SubstringBefore(SubstringAfter(prefix + [c] + middle + [c] + suffix, [c]), [c]) == middle
  {
    CutAtChar(prefix, c, middle + [c] + suffix);
    assert prefix + [c] + middle + [c] + suffix == prefix + [c] + (middle + [c] + suffix);
    CutAtChar(middle, c, suffix);
  }

  /** A line that is no submodule line contributes nothing. */
  lemma SubmoduleNamesSkip(line: string, rest: seq<string>)
    requires !IsSubmoduleLine(line)
    ensures SubmoduleNames([line] + rest) == SubmoduleNames(rest)
  {
    assert ([line] + rest)[1..] == rest;
  }

  /** The header lines of a `.gitmodules` file listing `names`. */
  function Headers(names: seq<string>): (r: seq<string>)
    ensures |r| == |names|
  {
    if |names| == 0 then [] else [SubmoduleHeader(names[0])] + Headers(names[1..])
  }

  /** A header line in front contributes its name in front. */
  lemma SubmoduleNamesCons(line: string, rest: seq<string>)
    requires IsSubmoduleLine(line)
    ensures SubmoduleNames([line] + rest) == [SubmoduleName(line)] + SubmoduleNames(rest)
  {
    assert ([line] + rest)[0] == line && ([line] + rest)[1..] == rest;
  }

  /** Lines of headers give the names back, in order. */
  lemma {:induction false} SubmoduleNamesOfHeaders(names: seq<string>)
    requires forall k :: 0 <= k < |names| ==> '"' !in names[k]
    ensures SubmoduleNames(Headers(names)) == names
  {
    if |names| > 0 {
      SubmoduleNameOfHeader(names[0]);
      SubmoduleNamesOfHeaders(names[1..]);
      SubmoduleNamesCons(SubmoduleHeader(names[0]), Headers(names[1..]));
      assert names == [names[0]] + names[1..];
    }
  }

  /** Every character of a submodule name comes from its line. */
  lemma SubmoduleNameChars(line: string)
    ensures forall c :: c in SubmoduleName(line) ==> c in line
  {
    var after := SubstringAfter(line, "\"");
    var name := SubmoduleName(line);
    assert forall c :: c in after ==> c in line by {
      if IndexOf(line, "\"") != -1 {
        assert line == line[..IndexOf(line, "\"")] + "\"" + after;
      }
    }
    assert forall c :: c in name ==> c in after by {
      if IndexOf(after, "\"") != -1 {
        assert name == after[..IndexOf(after, "\"")];
      }
    }
  }

  /** Names read from lines hold no line break. */
  lemma {:induction false} SubmoduleNamesHaveNoBreaks(lines: seq<string>)
    requires forall k :: 0 <= k < |lines| ==> forall c :: c in lines[k] ==> !IsLineBreak(c)
    ensures forall k :: 0 <= k < |SubmoduleNames(lines)| ==>
      forall c :: c in SubmoduleNames(lines)[k] ==> !IsLineBreak(c)
  {
    if |lines| > 0 {
      SubmoduleNamesHaveNoBreaks(lines[1..]);
      SubmoduleNameChars(lines[0]);
    }
  }

  /** Reading the written list back line by line gives the submodule names,
      provided none of them is empty. */
  lemma SubProjectsListReadsBack(gitModules: string)
    requires forall k :: 0 <= k < |SubmoduleNames(ReaderLines(gitModules))| ==>
      SubmoduleNames(ReaderLines(gitModules))[k] != ""
    ensures ReaderLines(SubProjectsList(gitModules)) == SubmoduleNames(ReaderLines(gitModules))
  {
    SubmoduleNamesHaveNoBreaks(ReaderLines(gitModules));
    ReaderLinesOfJoin(SubmoduleNames(ReaderLines(gitModules)));
  }
}
