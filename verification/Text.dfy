/** Strings as the Python sources treat them. */
module Text {
  function UpperChar(c: char): char {
    if 'a' <= c <= 'z' then (c as int - 32) as char else c
  }

  /** `str.upper` on ASCII text (session ids are ASCII UUIDs). */
  function Upper(s: string): (u: string)
    ensures |u| == |s|
    ensures forall i :: 0 <= i < |s| ==> u[i] == UpperChar(s[i])
  {
    if s == "" then "" else [UpperChar(s[0])] + Upper(s[1..])
  }

  /** Python's whitespace, for `str.strip`, `str.isspace` and `\\s` alike. */
  predicate IsSpace(c: char) {
    var n := c as int;
    9 <= n <= 13 || 28 <= n <= 32 || n == 0x85 || n == 0xA0 || n == 0x1680 || 0x2000 <= n <= 0x200A ||
    n == 0x2028 || n == 0x2029 || n == 0x202F || n == 0x205F || n == 0x3000
  }

  function LStrip(s: string): (r: string)
    ensures r == "" || !IsSpace(r[0])
  {
    if s != "" && IsSpace(s[0]) then LStrip(s[1..]) else s
  }

  function RStrip(s: string): (r: string)
    ensures r == "" || !IsSpace(r[|r| - 1])
  {
    if s != "" && IsSpace(s[|s| - 1]) then RStrip(s[..|s| - 1]) else s
  }

  function Strip(s: string): string {
    RStrip(LStrip(s))
  }

  // ---- lines -----------------------------------------------------------

  /** The characters `str.splitlines` breaks at. */
  predicate IsBreak(c: char) {
    var n := c as int;
    10 <= n <= 13 || 28 <= n <= 30 || n == 0x85 || n == 0x2028 || n == 0x2029
  }

  predicate Plain(line: string) {
    forall i :: 0 <= i < |line| ==> !IsBreak(line[i])
  }

  /** Length of the first line. */
  function LineLength(s: string): (n: nat)
    ensures n <= |s| && Plain(s[..n])
    ensures n < |s| ==> IsBreak(s[n])
  {
    if s == "" || IsBreak(s[0]) then 0 else 1 + LineLength(s[1..])
  }

  /** Length of the line break at position n. */
  function BreakLength(s: string, n: nat): (k: nat)
    requires n < |s|
    ensures 1 <= k <= |s| - n
  {
    if s[n] == '\r' && n + 1 < |s| && s[n + 1] == '\n' then 2 else 1
  }

  /** `str.splitlines` */
  function SplitLines(s: string): seq<string>
    decreases |s|
  {
    if s == "" then []
    else
      var n := LineLength(s);
      if n == |s| then [s] else [s[..n]] + SplitLines(s[n + BreakLength(s, n)..])
  }

  /** `"\n".join` */
  function JoinLines(lines: seq<string>): string {
    if lines == [] then ""
    else if |lines| == 1 then lines[0]
    else lines[0] + "\n" + JoinLines(lines[1..])
  }

  lemma {:induction false} LineLengthIs(line: string, rest: string)
    requires Plain(line) && rest != "" && IsBreak(rest[0])
    ensures LineLength(line + rest) == |line|
  {
    if line == "" {
      assert line + rest == rest;
    } else {
      assert (line + rest)[1..] == line[1..] + rest;
      LineLengthIs(line[1..], rest);
    }
  }

  lemma SplitFirst(line: string, rest: string)
    requires Plain(line)
    ensures SplitLines(line + "\n" + rest) == [line] + SplitLines(rest)
  {
    var s := line + "\n" + rest;
    assert s == line + ("\n" + rest);
    LineLengthIs(line, "\n" + rest);
    assert s[..|line|] == line && s[|line| + 1..] == rest;
  }

  lemma {:induction false} LineLengthAppend(a: string, b: string)
    requires LineLength(a) < |a|
    ensures LineLength(a + b) == LineLength(a)
  {
    if !IsBreak(a[0]) {
      assert (a + b)[1..] == a[1..] + b;
      LineLengthAppend(a[1..], b);
    }
  }

  /** The first line of a text that ends a line is complete. */
  lemma FirstLineEnds(a: string)
    requires a != "" && a[|a| - 1] == '\n'
    ensures LineLength(a) < |a|
  {
    assert IsBreak(a[|a| - 1]);
    assert a[..|a|] == a;
  }

  lemma SplitStep(a: string, b: string) returns (line: string, rest: string)
    requires a != "" && a[|a| - 1] == '\n'
    ensures |rest| < |a| && (rest == "" || rest[|rest| - 1] == '\n')
    ensures SplitLines(a) == [line] + SplitLines(rest)
    ensures SplitLines(a + b) == [line] + SplitLines(rest + b)
  {
    FirstLineEnds(a);
    LineLengthAppend(a, b);
    var n := LineLength(a);
    assert BreakLength(a + b, n) == BreakLength(a, n);
    var k := n + BreakLength(a, n);
    line, rest := a[..n], a[k..];
    assert (a + b)[..n] == line;
    assert (a + b)[k..] == rest + b;
  }

  lemma Reassociate<T>(x: T, r: seq<T>, t: seq<T>)
    ensures [x] + (r + t) == ([x] + r) + t
  {
  }

  /** Text that ends a line can be split from what follows. */
  lemma {:induction false} SplitAppend(a: string, b: string)
    requires a == "" || a[|a| - 1] == '\n'
    ensures SplitLines(a + b) == SplitLines(a) + SplitLines(b)
    decreases |a|
  {
    if a == "" {
      assert a + b == b;
      assert SplitLines(a) == [];
    } else {
      var line, rest := SplitStep(a, b);
      SplitAppend(rest, b);
      Reassociate(line, SplitLines(rest), SplitLines(b));
    }
  }

  /** Text whose only line breaks are newlines. */
  predicate NewlinesOnly(s: string) {
    forall i :: 0 <= i < |s| && IsBreak(s[i]) ==> s[i] == '\n'
  }

  /** Printing such a text as lines and joining them again changes nothing. */
  lemma {:induction false} JoinSplit(s: string)
    requires NewlinesOnly(s)
    ensures SplitLines(s + "\n") != [] && JoinLines(SplitLines(s + "\n")) == s
    decreases |s|
  {
    var n := LineLength(s);
    var line := s[..n];
    if n == |s| {
      assert line == s;
      SplitFirst(s, "");
      assert s + "\n" + "" == s + "\n";
    } else {
      var rest := s[n + 1..];
      assert s == line + "\n" + rest;
      assert s + "\n" == line + "\n" + (rest + "\n");
      SplitFirst(line, rest + "\n");
      JoinSplit(rest);
      JoinCons(line, SplitLines(rest + "\n"));
    }
  }

  lemma JoinCons(line: string, lines: seq<string>)
    requires lines != []
    ensures JoinLines([line] + lines) == line + "\n" + JoinLines(lines)
  {
    assert ([line] + lines)[1..] == lines;
  }
}
