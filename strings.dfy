/** The Kotlin and Java string operations the plugin relies on, stated over
    `seq<char>` with the library's own edge cases (a missing delimiter, an
    empty input, a trailing line terminator). */
module Strings {
  import opened Wrappers

  // ---------------------------------------------------------------------
  // Searching
  // ---------------------------------------------------------------------

  /** `p` occurs in `s` starting at index `i`. */
  ghost predicate OccursAt(s: string, p: string, i: int) {
    0 <= i && i + |p| <= |s| && s[i..i + |p|] == p
  }

  /** First index at or after `from` where `p` occurs in `s`, or -1
      (`String.indexOf(String, Int)`). */
  function IndexOfFrom(s: string, p: string, from: nat): (r: int)
    requires from <= |s|
    ensures r == -1 || (from <= r && OccursAt(s, p, r))
    ensures r == -1 ==> forall j :: from <= j ==> !OccursAt(s, p, j)
    ensures r != -1 ==> forall j :: from <= j < r ==> !OccursAt(s, p, j)
    decreases |s| - from
  {
    if from + |p| > |s| then -1
    else if s[from..from + |p|] == p then from
    else IndexOfFrom(s, p, from + 1)
  }

  /** `String.indexOf(String)`. */
  function IndexOf(s: string, p: string): (r: int)
    ensures r == -1 || OccursAt(s, p, r)
    ensures r == -1 <==> forall j :: !OccursAt(s, p, j)
    ensures r != -1 ==> forall j :: 0 <= j < r ==> !OccursAt(s, p, j)
  {
    IndexOfFrom(s, p, 0)
  }

  /** `CharSequence.contains(CharSequence)`. */
  predicate Contains(s: string, p: string) {
    IndexOf(s, p) != -1
  }

  /** `String.startsWith(String)`. */
  predicate StartsWith(s: string, p: string) {
    |p| <= |s| && s[..|p|] == p
  }

  /** `String.endsWith(String)`. */
  predicate EndsWith(s: string, p: string) {
    |p| <= |s| && s[|s| - |p|..] == p
  }

  /** `String.lastIndexOf(Char)`, or -1. */
  function LastIndexOfChar(s: string, c: char): (r: int)
    ensures -1 <= r < |s|
    ensures r != -1 ==> s[r] == c
    ensures forall j :: r < j < |s| ==> s[j] != c
  {
    if |s| == 0 then -1
    else if s[|s| - 1] == c then |s| - 1
    else LastIndexOfChar(s[..|s| - 1], c)
  }

  /** The first occurrence of a one-character pattern is the first index
      holding that character. */
  lemma IndexOfChar(s: string, c: char, k: nat)
    requires k < |s| && s[k] == c
    requires forall j :: 0 <= j < k ==> s[j] != c
    ensures IndexOf(s, [c]) == k
  {
    assert s[k..k + 1] == [c];
    forall j | 0 <= j < k
      ensures !OccursAt(s, [c], j)
    {
      assert s[j..j + 1] == [s[j]];
    }
    assert OccursAt(s, [c], k);
  }

  /** A one-character pattern that does not occur is not found. */
  lemma IndexOfAbsentChar(s: string, c: char)
    requires c !in s
    ensures IndexOf(s, [c]) == -1
  {
    forall j | 0 <= j && j + 1 <= |s|
      ensures !OccursAt(s, [c], j)
    {
      assert s[j] in s;
    }
  }

  // ---------------------------------------------------------------------
  // Cutting
  // ---------------------------------------------------------------------

  /** Text holding a character contains the one-character pattern. */
  lemma ContainsChar(s: string, c: char)
    ensures c in s ==> Contains(s, [c])
  {
    if c in s {
      var i :| 0 <= i < |s| && s[i] == c;
      assert OccursAt(s, [c], i);
    }
  }

  /** `String.substringAfter(delimiter)`: the text after the first
      occurrence, or the whole string when the delimiter is absent. */
  function SubstringAfter(s: string, d: string): (r: string)
    ensures IndexOf(s, d) == -1 ==> r == s
    ensures IndexOf(s, d) != -1 ==> s == s[..IndexOf(s, d)] + d + r
  {
    var i := IndexOf(s, d);
    if i == -1 then s else s[i + |d|..]
  }

  /** `String.substringBefore(delimiter)`: the text before the first
      occurrence, or the whole string when the delimiter is absent. */
  function SubstringBefore(s: string, d: string): (r: string)
    ensures IndexOf(s, d) == -1 ==> r == s
    ensures IndexOf(s, d) != -1 ==> r == s[..IndexOf(s, d)]
    ensures |d| > 0 ==> !Contains(r, d)
  {
    var i := IndexOf(s, d);
    if i == -1 then s
    else
      assert |d| > 0 ==> !Contains(s[..i], d) by {
        if |d| > 0 && Contains(s[..i], d) {
          var j := IndexOf(s[..i], d);
          assert s[..i][j..j + |d|] == s[j..j + |d|];
          assert OccursAt(s, d, j);
        }
      }
      s[..i]
  }

  /** `String.substringAfterLast(Char)`: the text after the last occurrence
      of `c`, or the whole string when `c` is absent. */
  function SubstringAfterLastChar(s: string, c: char): (r: string)
    ensures c !in r
    ensures LastIndexOfChar(s, c) == -1 ==> r == s
  {
    var i := LastIndexOfChar(s, c);
    if i == -1 then s else s[i + 1..]
  }

  /** Cutting at the first occurrence of a one-character delimiter. */
  lemma CutAtChar(a: string, c: char, b: string)
    requires c !in a
    ensures IndexOf(a + [c] + b, [c]) == |a|
    ensures SubstringAfter(a + [c] + b, [c]) == b
    ensures SubstringBefore(a + [c] + b, [c]) == a
  {
    var s := a + [c] + b;
    forall j | 0 <= j < |a| ensures s[j] != c {
      assert s[j] == a[j] && a[j] in a;
    }
    IndexOfChar(s, c, |a|);
    assert s[..|a|] == a && s[|a| + 1..] == b;
  }

  /** `CharSequence.split(delimiter)` / `splitToSequence(delimiter)` for a
      non-empty delimiter: every piece, empty ones included. */
  function Split(s: string, d: string): (r: seq<string>)
    requires |d| > 0
    ensures |r| >= 1
    ensures !Contains(s, d) ==> r == [s]
    decreases |s|
  {
    var i := IndexOf(s, d);
    if i == -1 then [s] else [s[..i]] + Split(s[i + |d|..], d)
  }

  /** Splitting at a one-character delimiter absent from the first piece. */
  lemma SplitAtChar(a: string, c: char, b: string)
    requires c !in a
    ensures Split(a + [c] + b, [c]) == [a] + Split(b, [c])
  {
    CutAtChar(a, c, b);
    assert (a + [c] + b)[..|a|] == a && (a + [c] + b)[|a| + 1..] == b;
  }

  /** Text without the delimiter splits into itself. */
  lemma SplitNoChar(a: string, c: char)
    requires c !in a
    ensures Split(a, [c]) == [a]
  {
    IndexOfAbsentChar(a, c);
  }

  /** Three pieces free of a one-character delimiter split back apart. */
  lemma SplitThree(a: string, b: string, t: string, c: char)
    requires c !in a && c !in b && c !in t
    ensures Split(a + [c] + b + [c] + t, [c]) == [a, b, t]
  {
    var bt := b + [c] + t;
    var s := a + [c] + b + [c] + t;
    assert s == a + [c] + bt;
    SplitNoChar(t, c);
    SplitAtChar(b, c, t);
    var tail := Split(bt, [c]);
    assert tail == [b] + [t];
    SplitAtChar(a, c, bt);
    assert Split(s, [c]) == [a] + tail;
  }

  /** `joinToString(separator)`. */
  function Join(parts: seq<string>, sep: string): string {
    if |parts| == 0 then ""
    else if |parts| == 1 then parts[0]
    else parts[0] + sep + Join(parts[1..], sep)
  }

  lemma JoinThree(parts: seq<string>, sep: string)
    requires |parts| == 3
    ensures Join(parts, sep) == parts[0] + sep + parts[1] + sep + parts[2]
  {
    var rest := parts[1..];
    assert rest[0] == parts[1] && rest[1..] == [parts[2]];
    assert Join(rest, sep) == parts[1] + sep + parts[2];
  }

  /** Splitting and joining back with the same delimiter gives the text back. */
  lemma {:induction false} JoinSplit(s: string, d: string)
    requires |d| > 0
    ensures Join(Split(s, d), d) == s
    decreases |s|
  {
    var i := IndexOf(s, d);
    if i != -1 {
      var rest := s[i + |d|..];
      JoinSplit(rest, d);
      JoinCons(s[..i], Split(rest, d), d);
      Reassemble(s, d, i);
    }
  }

  lemma JoinCons(head: string, tail: seq<string>, sep: string)
    requires |tail| >= 1
    ensures Join([head] + tail, sep) == head + sep + Join(tail, sep)
  {
    assert ([head] + tail)[1..] == tail;
  }

  lemma Reassemble(s: string, d: string, i: int)
    requires OccursAt(s, d, i)
    ensures s == s[..i] + d + s[i + |d|..]
  {
    assert s == s[..i] + s[i..i + |d|] + s[i + |d|..];
  }

  // ---------------------------------------------------------------------
  // Lines
  // ---------------------------------------------------------------------

  predicate IsLineBreak(c: char) { c == '\n' || c == '\r' }

  /** Index of the first '\n' or '\r' at or after `from`, or |s|. */
  function LineEnd(s: string, from: nat): (r: nat)
    requires from <= |s|
    ensures from <= r <= |s|
    ensures r < |s| ==> IsLineBreak(s[r])
    ensures forall j :: from <= j < r ==> !IsLineBreak(s[j])
    decreases |s| - from
  {
    if from == |s| || IsLineBreak(s[from]) then from else LineEnd(s, from + 1)
  }

  /** Length of the terminator at `i`: 2 for "\r\n", 1 for a lone '\n' or '\r'. */
  function BreakLength(s: string, i: nat): (n: nat)
    requires i < |s| && IsLineBreak(s[i])
    ensures 1 <= n <= 2 && i + n <= |s|
  {
    if s[i] == '\r' && i + 1 < |s| && s[i + 1] == '\n' then 2 else 1
  }

  /** Kotlin `CharSequence.lines()`: split on "\r\n", "\n" and "\r"; a
      trailing terminator yields a final empty line. */
  function Lines(s: string): (r: seq<string>)
    ensures |r| >= 1
    ensures forall k :: 0 <= k < |r| ==> forall c :: c in r[k] ==> !IsLineBreak(c)
    decreases |s|
  {
    var e := LineEnd(s, 0);
    if e == |s| then [s] else [s[..e]] + Lines(s[e + BreakLength(s, e)..])
  }

  /** `BufferedReader.readLine` until end of input (`File.readLines`,
      `useLines`): like `Lines`, but an empty input has no line and a
      terminator at the very end does not start one. */
  function ReaderLines(s: string): (r: seq<string>)
    ensures s == "" <==> r == []
    ensures forall k :: 0 <= k < |r| ==> forall c :: c in r[k] ==> !IsLineBreak(c)
    decreases |s|
  {
    if s == "" then []
    else
      var e := LineEnd(s, 0);
      if e == |s| then [s] else [s[..e]] + ReaderLines(s[e + BreakLength(s, e)..])
  }

  /** Text without line breaks reads back as itself. */
  lemma ReaderLinesOfOneLine(s: string)
    requires s != "" && forall c :: c in s ==> !IsLineBreak(c)
    ensures ReaderLines(s) == [s]
  {
  }

  /** Non-empty lines without terminators, joined with "\n", read back as
      the same lines. */
  lemma {:induction false} ReaderLinesOfJoin(lines: seq<string>)
    requires forall k :: 0 <= k < |lines| ==> lines[k] != "" && forall c :: c in lines[k] ==> !IsLineBreak(c)
    ensures ReaderLines(Join(lines, "\n")) == lines
  {
    if |lines| == 1 {
      ReaderLinesOfOneLine(lines[0]);
    } else if |lines| > 1 {
      var l := lines[0];
      var rest := Join(lines[1..], "\n");
      var s := Join(lines, "\n");
      assert s == l + "\n" + rest;
      forall j | 0 <= j < |l|
        ensures !IsLineBreak(s[j])
      {
        assert s[j] == l[j] && l[j] in l;
      }
      assert s[|l|] == '\n';
      assert LineEnd(s, 0) == |l|;
      assert BreakLength(s, |l|) == 1;
      assert s[..|l|] == l && s[|l| + 1..] == rest;
      ReaderLinesOfJoin(lines[1..]);
      assert ReaderLines(s) == [l] + ReaderLines(rest);
      assert lines == [l] + lines[1..];
    }
  }

  // ---------------------------------------------------------------------
  // Trimming and replacing
  // ---------------------------------------------------------------------

  /** Kotlin `Char.isWhitespace()` on the JVM: Java's `isWhitespace` or
      `isSpaceChar`. */
  predicate IsWhitespace(c: char) {
    c == '\t' || c == '\n' || c == '\U{000B}' || c == '\U{000C}' || c == '\r'
    || ('\U{001C}' <= c <= '\U{001F}') || c == ' ' || c == '\U{00A0}'
    || c == '\U{1680}' || ('\U{2000}' <= c <= '\U{200A}') || c == '\U{2028}'
    || c == '\U{2029}' || c == '\U{202F}' || c == '\U{205F}' || c == '\U{3000}'
  }

  /** Kotlin `String.trim()`: drop leading and trailing whitespace. */
  function Trim(s: string): (r: string)
    ensures |r| <= |s|
    ensures r == [] || (!IsWhitespace(r[0]) && !IsWhitespace(r[|r| - 1]))
    ensures forall c :: c in s && !IsWhitespace(c) ==> c in r
    ensures forall c :: c in r ==> c in s
    decreases |s|
  {
    if |s| > 0 && IsWhitespace(s[0]) then Trim(s[1..])
    else if |s| > 0 && IsWhitespace(s[|s| - 1]) then
      assert forall c :: c in s && !IsWhitespace(c) ==> c in s[..|s| - 1];
      Trim(s[..|s| - 1])
    else s
  }

  /** `trim { it <= ' ' }`: drop leading and trailing characters whose code
      is at most that of the space. */
  function TrimControl(s: string): (r: string)
    ensures |r| <= |s|
    ensures r == [] || (r[0] > ' ' && r[|r| - 1] > ' ')
    decreases |s|
  {
    if |s| > 0 && s[0] <= ' ' then TrimControl(s[1..])
    else if |s| > 0 && s[|s| - 1] <= ' ' then TrimControl(s[..|s| - 1])
    else s
  }

  /** `String.replace(oldChar, newChar)`, also `replace(":", "_")` for
      one-character strings. */
  function ReplaceChar(s: string, a: char, b: char): (r: string)
    ensures |r| == |s|
    ensures forall i :: 0 <= i < |s| ==> r[i] == if s[i] == a then b else s[i]
  {
    if |s| == 0 then [] else [if s[0] == a then b else s[0]] + ReplaceChar(s[1..], a, b)
  }

  /** Replacing a character by another leaves none of it. */
  lemma ReplaceCharRemoves(s: string, a: char, b: char)
    requires a != b
    ensures a !in ReplaceChar(s, a, b)
  {
  }

  /** `String.replace(c.toString(), "")`: every occurrence of `c` removed. */
  function RemoveChar(s: string, c: char): (r: string)
    ensures c !in r
    ensures forall x :: x in r <==> x in s && x != c
  {
    if |s| == 0 then []
    else (if s[0] == c then [] else [s[0]]) + RemoveChar(s[1..], c)
  }

  lemma {:induction false} RemoveCharConcat(a: string, b: string, c: char)
    ensures RemoveChar(a + b, c) == RemoveChar(a, c) + RemoveChar(b, c)
    decreases |a|
  {
    if |a| > 0 {
      assert (a + b)[1..] == a[1..] + b;
      RemoveCharConcat(a[1..], b, c);
    } else {
      assert a + b == b;
    }
  }

  lemma {:induction false} RemoveAbsentChar(s: string, c: char)
    requires c !in s
    ensures RemoveChar(s, c) == s
    decreases |s|
  {
    if |s| > 0 {
      assert s[0] != c && s == [s[0]] + s[1..];
      assert forall x :: x in s[1..] ==> x in s;
      RemoveAbsentChar(s[1..], c);
    }
  }

  /** `String.padStart(length, padChar)`. */
  function PadStart(s: string, length: nat, c: char): (r: string)
    ensures |r| == if |s| >= length then |s| else length
    ensures r[|r| - |s|..] == s
    ensures forall i :: 0 <= i < |r| - |s| ==> r[i] == c
  {
    if |s| >= length then s else seq(length - |s|, _ => c) + s
  }

  // ---------------------------------------------------------------------
  // Decimal numbers
  // ---------------------------------------------------------------------

  predicate IsDigit(c: char) { '0' <= c <= '9' }

  predicate AllDigits(s: string) {
    forall i :: 0 <= i < |s| ==> IsDigit(s[i])
  }

  /** One or more decimal digits (the regular expression `[0-9]+`). */
  predicate IsNumber(s: string) {
    |s| > 0 && AllDigits(s)
  }

  function DigitChar(d: nat): (c: char)
    requires d < 10
    ensures IsDigit(c)
  {
    ['0', '1', '2', '3', '4', '5', '6', '7', '8', '9'][d]
  }

  function DigitValue(c: char): (d: nat)
    requires IsDigit(c)
    ensures d < 10
  {
    (c as int - '0' as int) as nat
  }

  /** The value of a string of decimal digits. */
  function DecimalValue(s: string): nat
    requires AllDigits(s)
  {
    if |s| == 0 then 0 else DecimalValue(s[..|s| - 1]) * 10 + DigitValue(s[|s| - 1])
  }

  /** `Int.toString()` of a non-negative number. */
  function NatToString(n: nat): (r: string)
    ensures |r| >= 1 && AllDigits(r)
    ensures r[0] != '0' || n == 0
  {
    if n < 10 then [DigitChar(n)] else NatToString(n / 10) + [DigitChar(n % 10)]
  }

  /** `Int.toString()`: a '-' sign, then the digits of the magnitude. */
  function IntToString(n: int): (r: string)
    ensures |r| >= 1
    ensures n >= 0 ==> r == NatToString(n)
    ensures n < 0 ==> r == "-" + NatToString(-n)
  {
    if n >= 0 then NatToString(n) else "-" + NatToString(-n)
  }

  lemma {:induction false} DecimalValueOfNatToString(n: nat)
    ensures DecimalValue(NatToString(n)) == n
  {
    if n >= 10 {
      DecimalValueOfNatToString(n / 10);
      var s := NatToString(n);
      assert s[..|s| - 1] == NatToString(n / 10);
    } else {
      assert DigitValue(DigitChar(n)) == n;
    }
  }

  /** No decimal rendering of an integer holds a character outside '-' and
      the digits. */
  lemma IntToStringChars(n: int)
    ensures forall c :: c in IntToString(n) ==> c == '-' || IsDigit(c)
  {
    var s := NatToString(if n >= 0 then n else -n);
    assert forall c :: c in s ==> IsDigit(c) by {
      forall c | c in s ensures IsDigit(c) {
        var i :| 0 <= i < |s| && s[i] == c;
      }
    }
  }

  const IntMin: int := -0x8000_0000
  const IntMax: int := 0x7fff_ffff

  /** `Integer.parseInt` / Kotlin `String.toInt()` for radix 10: an optional
      '+' or '-', at least one digit, and a value within 32 bits; `None`
      where the JVM throws `NumberFormatException`. */
  function ParseInt(s: string): (r: Option<int>)
    ensures r.Some? ==> IntMin <= r.value <= IntMax
  {
    var neg := |s| > 0 && s[0] == '-';
    var signed := |s| > 0 && (s[0] == '-' || s[0] == '+');
    var digits := if signed then s[1..] else s;
    if |digits| == 0 || !AllDigits(digits) then None
    else
      var m: int := DecimalValue(digits);
      var v := if neg then -m else m;
      if IntMin <= v <= IntMax then Some(v) else None
  }

  /** Parsing the rendering of a 32-bit integer gives the integer back. */
  lemma ParseIntOfIntToString(n: int)
    requires IntMin <= n <= IntMax
    ensures ParseInt(IntToString(n)) == Some(n)
  {
    var m: nat := if n >= 0 then n else -n;
    DecimalValueOfNatToString(m);
    var s := IntToString(n);
    if n < 0 {
      assert s[1..] == NatToString(m);
    } else {
      assert s[0] != '-' && s[0] != '+' by { assert IsDigit(s[0]); }
    }
  }

  /** The decimal rendering is injective. */
  lemma IntToStringInjective(a: int, b: int)
    requires IntToString(a) == IntToString(b)
    ensures a == b
  {
    var sa, sb := NatToString(if a >= 0 then a else -a), NatToString(if b >= 0 then b else -b);
    DecimalValueOfNatToString(if a >= 0 then a else -a);
    DecimalValueOfNatToString(if b >= 0 then b else -b);
    if a < 0 && b < 0 {
      assert IntToString(a)[1..] == sa && IntToString(b)[1..] == sb;
    }
  }
}
