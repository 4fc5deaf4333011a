/** What the line tests and cleaners of `Compose` mean, character by character, and
    what extraction makes of the screens they are there for. */
module ComposeLines {
  import opened Text
  import opened Compose

  // ---- looking for text --------------------------------------------------

  predicate At(part: string, s: string, k: int) {
    0 <= k <= |s| - |part| && s[k..k + |part|] == part
  }

  predicate Occurs(part: string, s: string) {
    exists k :: 0 <= k <= |s| && At(part, s, k)
  }

  lemma AtTail(part: string, s: string, k: int)
    requires s != "" && k >= 0
    ensures At(part, s[1..], k) <==> At(part, s, k + 1)
  {
    if 0 <= k <= |s| - 1 - |part| {
      assert s[1..][k..k + |part|] == s[k + 1..k + 1 + |part|];
    }
  }

  lemma {:induction false} StartsIff(s: string, prefix: string)
    ensures StartsWith(s, prefix) <==> |prefix| <= |s| && s[..|prefix|] == prefix
    decreases |prefix|
  {
    if prefix != "" && s != "" {
      StartsIff(s[1..], prefix[1..]);
      if |prefix| <= |s| {
        assert s[..|prefix|] == [s[0]] + s[1..][..|prefix| - 1];
        assert prefix == [prefix[0]] + prefix[1..];
      }
    }
  }

  lemma {:induction false} ContainsIff(s: string, part: string)
    ensures Contains(s, part) <==> Occurs(part, s)
    decreases |s|
  {
    StartsIff(s, part);
    assert StartsWith(s, part) <==> At(part, s, 0);
    if s != "" {
      ContainsIff(s[1..], part);
      OccursLater(part, s);
    }
  }

  lemma OccursLater(part: string, s: string)
    requires s != ""
    ensures Occurs(part, s) <==> At(part, s, 0) || Occurs(part, s[1..])
  {
    if Occurs(part, s[1..]) {
      var k :| 0 <= k <= |s[1..]| && At(part, s[1..], k);
      AtTail(part, s, k);
    }
    if Occurs(part, s) && !At(part, s, 0) {
      var k :| 0 <= k <= |s| && At(part, s, k);
      AtTail(part, s, k - 1);
    }
  }

  predicate OneOccurs(parts: seq<string>, s: string) {
    exists i :: 0 <= i < |parts| && Occurs(parts[i], s)
  }

  lemma {:induction false} AnyIff(s: string, parts: seq<string>)
    ensures ContainsAny(s, parts) <==> OneOccurs(parts, s)
  {
    if parts != [] {
      var rest := parts[1..];
      ContainsIff(s, parts[0]);
      AnyIff(s, rest);
      if OneOccurs(rest, s) {
        var i :| 0 <= i < |rest| && Occurs(rest[i], s);
        assert parts[i + 1] == rest[i];
      }
      if OneOccurs(parts, s) && !Occurs(parts[0], s) {
        var i :| 0 <= i < |parts| && Occurs(parts[i], s);
        assert rest[i - 1] == parts[i];
      }
    }
  }

  lemma LowerIs(c: char)
    ensures LowerChar(c) == if 'A' <= c <= 'Z' then "abcdefghijklmnopqrstuvwxyz"[c as int - 'A' as int] else c
  {
    assert "abcdefghijklmnopqrstuvwxyz"[0] as int == 'a' as int;
  }

  function StatusMarks(): seq<string> { ["bypass permissions", "shift+tab", "[claude", "[codex"] }

  /** A status line is one with any of four marks, in letters of either case. */
  lemma StatusIff(line: string)
    ensures IsStatus(line) <==> OneOccurs(StatusMarks(), Lower(line))
  {
    AnyIff(Lower(line), ["bypass permissions", "shift+tab", "[claude", "[codex"]);
  }

  function EchoMarks(): seq<string> {
    ["[teammate-mcp ASK", "teammate-mcp ASK ", "Reply when you can by calling", "no marker required", "tmdone-"]
  }

  /** The text of an injected message is recognised by any of five marks. */
  lemma EchoIff(text: string)
    ensures IsEcho(text) <==> OneOccurs(EchoMarks(), text)
  {
    AnyIff(text, ["[teammate-mcp ASK", "teammate-mcp ASK ", "Reply when you can by calling",
                  "no marker required", "tmdone-"]);
  }

  // ---- line tests --------------------------------------------------------

  predicate Spaces(s: string, k: nat)
    requires k <= |s|
  {
    forall i :: 0 <= i < k ==> IsSpace(s[i])
  }

  lemma {:induction false} LStripIs(s: string) returns (k: nat)
    ensures k <= |s| && Spaces(s, k) && LStrip(s) == s[k..]
    ensures k < |s| ==> !IsSpace(s[k])
  {
    if s != "" && IsSpace(s[0]) {
      k := LStripIs(s[1..]);
      k := k + 1;
      assert s[1..][k - 1..] == s[k..];
      assert forall i :: 1 <= i < k ==> s[i] == s[1..][i - 1];
    } else {
      k := 0;
      assert s[0..] == s;
    }
  }

  /** Behind nothing but white space. */
  predicate Leads(part: string, s: string) {
    exists k :: 0 <= k <= |s| && Spaces(s, k) && At(part, s, k)
  }

  /** What follows leading white space is found by its first character. */
  lemma AfterSpaces(s: string, part: string)
    requires part != "" && !IsSpace(part[0])
    ensures StartsWith(LStrip(s), part) <==> Leads(part, s)
  {
    var n := LStripIs(s);
    StartsIff(s[n..], part);
    AtStart(part, s, n);
    if Leads(part, s) {
      var k :| 0 <= k <= |s| && Spaces(s, k) && At(part, s, k);
      FirstVisible(part, s, k, n);
    }
  }

  lemma AtStart(part: string, s: string, n: nat)
    requires n <= |s|
    ensures At(part, s, n) <==> |part| <= |s[n..]| && s[n..][..|part|] == part
  {
    if n + |part| <= |s| {
      assert s[n..][..|part|] == s[n..n + |part|];
    }
  }

  lemma FirstVisible(part: string, s: string, k: nat, n: nat)
    requires n <= |s| && Spaces(s, n) && (n < |s| ==> !IsSpace(s[n]))
    requires k <= |s| && Spaces(s, k) && part != "" && At(part, s, k) && !IsSpace(part[0])
    ensures n == k
  {
    assert s[k..k + |part|][0] == s[k];
  }

  lemma RuleIff(line: string)
    ensures IsRule(line) <==> Leads([DASH, DASH, DASH, DASH, DASH], line)
  {
    AfterSpaces(line, [DASH, DASH, DASH, DASH, DASH]);
  }

  lemma PromptIff(line: string)
    ensures IsPromptLine(line) <==> Leads([PROMPT], line)
  {
    AfterSpaces(line, [PROMPT]);
  }

  lemma NextPromptIff(line: string)
    ensures IsNextPrompt(line) <==> Leads([PROMPT], line) || Leads([BAR], line)
  {
    AfterSpaces(line, [PROMPT]);
    AfterSpaces(line, [BAR]);
  }

  lemma BlankIff(line: string)
    ensures Blank(line) <==> Spaces(line, |line|)
  {
    var k := LStripIs(line);
  }

  // ---- cleaning ----------------------------------------------------------

  /** Trailing cell padding goes, all of it and nothing else. */
  lemma {:induction false} PaddingGoes(s: string, pad: string)
    requires Unpadded(s) && forall i :: 0 <= i < |pad| ==> pad[i] in {' ', '\U{00A0}', '\0', '\t'}
    ensures StripPadding(s + pad) == s
    decreases |pad|
  {
    if pad == "" {
      NotPadded(s);
      assert s + pad == s;
    } else {
      var init := pad[..|pad| - 1];
      assert (s + pad)[|s + pad| - 1] == pad[|pad| - 1];
      assert (s + pad)[..|s + pad| - 1] == s + init;
      PaddingGoes(s, init);
    }
  }

  lemma {:induction false} ParamsSkipped(params: string, rest: string)
    requires forall i :: 0 <= i < |params| ==> IsParam(params[i])
    requires rest == "" || !IsParam(rest[0])
    ensures SkipParams(params + rest) == rest
  {
    if params == "" {
      assert params + rest == rest;
    } else {
      assert (params + rest)[1..] == params[1..] + rest;
      ParamsSkipped(params[1..], rest);
    }
  }

  lemma LetterIff(c: char)
    ensures IsLetter(c) <==> IsAsciiLetter(c)
  {
  }

  /** Escape sequences go, all of them and nothing else. */
  lemma {:induction false} EscapeGoes(before: string, params: string, letter: char, after: string)
    requires NoEscape(before) && IsAsciiLetter(letter) && forall i :: 0 <= i < |params| ==> IsParameter(params[i])
    ensures StripAnsi(before + ([ESC, '['] + params + [letter] + after)) == before + StripAnsi(after)
    decreases |before|
  {
    LetterIff(letter);
    var escape := [ESC, '['] + params + [letter] + after;
    if before == "" {
      assert before + escape == escape;
      EscapeFirst(params, letter, after);
    } else {
      assert (before + escape)[1..] == before[1..] + escape;
      EscapeGoes(before[1..], params, letter, after);
    }
  }

  lemma EscapeFirst(params: string, letter: char, after: string)
    requires IsLetter(letter) && forall i :: 0 <= i < |params| ==> IsParam(params[i])
    ensures StripAnsi([ESC, '['] + params + [letter] + after) == StripAnsi(after)
  {
    var escape := [ESC, '['] + params + [letter] + after;
    assert escape[2..] == params + ([letter] + after);
    ParamsSkipped(params, [letter] + after);
    assert ([letter] + after)[1..] == after;
  }

  /** What only looks like an escape sequence stays. */
  lemma {:induction false} UnfinishedEscapeStays(params: string, rest: string)
    requires forall i :: 0 <= i < |params| ==> IsParam(params[i])
    requires NoEscape(rest) && (rest == "" || (!IsParam(rest[0]) && !IsAsciiLetter(rest[0])))
    ensures StripAnsi([ESC, '['] + params + rest) == [ESC, '['] + params + rest
  {
    var all := [ESC, '['] + params + rest;
    assert all[2..] == params + rest;
    if rest != "" {
      LetterIff(rest[0]);
    }
    ParamsSkipped(params, rest);
    assert NoEscape(all[1..]) by {
      assert all[1..] == ['['] + params + rest;
    }
    NoAnsi(all[1..]);
  }

  /** By code: the letters, and the digits, semicolon and question mark. */
  predicate IsAsciiLetter(c: char) {
    65 <= c as int <= 90 || 97 <= c as int <= 122
  }

  predicate IsParameter(c: char) {
    48 <= c as int <= 57 || c as int == 59 || c as int == 63
  }

  /** The end of the text loses spaces and newlines, all of them and nothing else. */
  lemma {:induction false} EndGoes(s: string, end: string)
    requires EndsClean(s) && forall i :: 0 <= i < |end| ==> end[i] == ' ' || end[i] == '\n'
    ensures StripEnd(s + end) == s
    decreases |end|
  {
    if end == "" {
      StripEndClean(s);
      assert s + end == s;
    } else {
      var init := end[..|end| - 1];
      assert (s + end)[|s + end| - 1] == end[|end| - 1];
      assert (s + end)[..|s + end| - 1] == s + init;
      EndGoes(s, init);
    }
  }

  /** Text right behind the prompt character is read whole. */
  lemma PromptWithoutSpace(first: string)
    requires first == "" || !IsSpace(first[0])
    ensures IsPromptLine([PROMPT] + first) && AfterPrompt([PROMPT] + first) == first
  {
    var line := [PROMPT] + first;
    assert LStrip(line) == line;
    assert line[1..] == first;
  }

  // ---- what extraction makes of it ---------------------------------------

  lemma StatusIsVisible(line: string)
    requires IsStatus(line)
    ensures !Blank(line)
  {
    StatusIff(line);
    BlankIff(line);
    var marks := StatusMarks();
    var i :| 0 <= i < |marks| && Occurs(marks[i], Lower(line));
    Visible1(line, marks[i]);
  }

  lemma FirstChar(part: string, s: string, k: nat)
    requires part != "" && At(part, s, k)
    ensures k < |s| && s[k] == part[0]
  {
    assert s[k..k + |part|][0] == s[k];
  }

  lemma VisibleChar(c: char)
    requires LowerChar(c) == 'b' || LowerChar(c) == 's' || LowerChar(c) == '['
    ensures !IsSpace(c)
  {
  }

  lemma Visible1(line: string, part: string)
    requires part != "" && Occurs(part, Lower(line)) && (part[0] == 'b' || part[0] == 's' || part[0] == '[')
    ensures !Spaces(line, |line|)
  {
    var k :| 0 <= k <= |Lower(line)| && At(part, Lower(line), k);
    FirstChar(part, Lower(line), k);
    VisibleChar(line[k]);
  }

  /** A rule and a status line end the typed text alike. */
  lemma RuleOrStatusCloses(line: string)
    ensures IsRule(line) || (IsStatus(line) && !IsPromptLine(line)) ==> Closes(line)
  {
    if IsRule(line) {
      assert LStrip(line)[0] == DASH;
    } else if IsStatus(line) {
      StatusIsVisible(line);
    }
  }

  /** An injected message still on screen reads as no typing at all. */
  lemma EchoReadsEmpty(before: seq<string>, first: string, more: seq<string>, rule: string, after: seq<string>)
    requires Screen(first, more, rule, after)
    requires OneOccurs(EchoMarks(), JoinLines([first] + Visibly(more)))
    ensures Extract(Rendered(before, first, more, rule, after)) == ""
  {
    ExtractRendered(before, first, more, rule, after);
    EchoIff(JoinLines([first] + Visibly(more)));
  }

  /** Only the last forty lines count. */
  lemma OldPromptIgnored(lines: seq<string>)
    requires forall k :: 0 <= k < |lines| && k >= |lines| - 40 ==> !IsPromptLine(lines[k])
    ensures Extract(lines) == ""
  {
    var window := Visible(lines);
    forall k | 0 <= k < |window| ensures !IsPromptLine(window[k]) {
      assert window[k] == lines[|lines| - |window| + k];
    }
  }
}
