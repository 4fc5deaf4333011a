/** Reading the typed, unsubmitted text back from a pane's visible lines. */
module Compose {
  import opened Prelude
  import opened Text

  const PROMPT: char := '\U{276F}'
  const BAR: char := '\U{258C}'
  const DASH: char := '\U{2500}'
  const ESC: char := '\U{001B}'
  const WINDOW: nat := 40

  // ---- line tests ------------------------------------------------------

  predicate StartsWith(s: string, prefix: string): (yes: bool)
    ensures yes ==> |s| >= |prefix|
  {
    prefix == "" || (s != "" && s[0] == prefix[0] && StartsWith(s[1..], prefix[1..]))
  }

  predicate Contains(s: string, part: string) {
    StartsWith(s, part) || (s != "" && Contains(s[1..], part))
  }

  predicate ContainsAny(s: string, parts: seq<string>) {
    parts != [] && (Contains(s, parts[0]) || ContainsAny(s, parts[1..]))
  }

  function LowerChar(c: char): char {
    if 'A' <= c <= 'Z' then (c as int + 32) as char else c
  }

  function Lower(s: string): (l: string)
    ensures |l| == |s|
    ensures forall i :: 0 <= i < |s| ==> l[i] == LowerChar(s[i])
  {
    if s == "" then "" else [LowerChar(s[0])] + Lower(s[1..])
  }

  predicate Blank(line: string) { LStrip(line) == "" }

  /** Five or more rule characters after optional white space. */
  predicate IsRule(line: string) { StartsWith(LStrip(line), [DASH, DASH, DASH, DASH, DASH]) }

  predicate IsPromptLine(line: string) { StartsWith(LStrip(line), [PROMPT]) }

  predicate IsNextPrompt(line: string) { IsPromptLine(line) || StartsWith(LStrip(line), [BAR]) }

  predicate IsStatus(line: string) {
    ContainsAny(Lower(line), ["bypass permissions", "shift+tab", "[claude", "[codex"])
  }

  predicate Stops(line: string) { IsRule(line) || IsNextPrompt(line) || IsStatus(line) }

  predicate IsEcho(text: string) {
    ContainsAny(text, ["[teammate-mcp ASK", "teammate-mcp ASK ", "Reply when you can by calling",
                       "no marker required", "tmdone-"])
  }

  // ---- cleaning --------------------------------------------------------

  predicate IsParam(c: char) { '0' <= c <= '9' || c == ';' || c == '?' }

  predicate IsLetter(c: char) { 'a' <= c <= 'z' || 'A' <= c <= 'Z' }

  function SkipParams(s: string): (r: string)
    ensures |r| <= |s|
  {
    if s != "" && IsParam(s[0]) then SkipParams(s[1..]) else s
  }

  /** Removing every `ESC [ params letter`. */
  function StripAnsi(s: string): string
    decreases |s|
  {
    if s == "" then ""
    else if s[0] == ESC && |s| >= 2 && s[1] == '[' then
      var r := SkipParams(s[2..]);
      if r != "" && IsLetter(r[0]) then StripAnsi(r[1..]) else [s[0]] + StripAnsi(s[1..])
    else [s[0]] + StripAnsi(s[1..])
  }

  predicate IsPadding(c: char) { c == ' ' || c == '\U{00A0}' || c == '\0' || c == '\t' }

  /** `_strip_compose_padding` */
  function StripPadding(s: string): string {
    if s != "" && IsPadding(s[|s| - 1]) then StripPadding(s[..|s| - 1]) else s
  }

  function StripEnd(s: string): string {
    if s != "" && (s[|s| - 1] == '\n' || s[|s| - 1] == ' ') then StripEnd(s[..|s| - 1]) else s
  }

  /** What stands behind the prompt character and one optional space. */
  function AfterPrompt(line: string): string
    requires IsPromptLine(line)
  {
    var rest := LStrip(line)[1..];
    if rest != "" && IsSpace(rest[0]) then rest[1..] else rest
  }

  /** A continuation line without its two-space indent. */
  function Continuation(line: string): string {
    var s := StripAnsi(line);
    StripPadding(if StartsWith(s, "  ") then s[2..] else s)
  }

  // ---- extraction ------------------------------------------------------

  function Ahead(lines: seq<string>): string {
    if lines == [] then "" else if !Blank(lines[0]) then lines[0] else Ahead(lines[1..])
  }

  /** The continuation lines below the prompt line. */
  function Collect(lines: seq<string>): seq<string> {
    if lines == [] then []
    else if Blank(lines[0]) then
      if Stops(Ahead(lines[1..])) then [] else Collect(lines[1..])
    else if Stops(lines[0]) then []
    else [Continuation(lines[0])] + Collect(lines[1..])
  }

  /** The last index with a property, -1 when there is none. */
  function LastIndex<T>(s: seq<T>, p: T -> bool): (i: int)
    ensures -1 <= i < |s|
    ensures i >= 0 ==> p(s[i])
    ensures forall k :: i < k < |s| ==> !p(s[k])
  {
    if s == [] then -1 else if p(s[|s| - 1]) then |s| - 1 else LastIndex(s[..|s| - 1], p)
  }

  function Visible(lines: seq<string>): seq<string> {
    if |lines| <= WINDOW then lines else lines[|lines| - WINDOW..]
  }

  /** Our own injected text, still on screen, is nobody's typing. */
  function Quiet(text: string): string {
    if IsEcho(text) then "" else text
  }

  function Settle(parts: seq<string>): string {
    Quiet(StripEnd(JoinLines(parts)))
  }

  function ReadAt(line: string, below: seq<string>): string
    requires IsPromptLine(line)
  {
    Settle([StripPadding(StripAnsi(AfterPrompt(line)))] + Collect(below))
  }

  function ReadWindow(window: seq<string>): string {
    var i := LastIndex(window, IsPromptLine);
    if i < 0 then "" else ReadAt(window[i], window[i + 1..])
  }

  function Extract(lines: seq<string>): string {
    ReadWindow(Visible(lines))
  }

  method FindPrompt(window: seq<string>) returns (i: int)
    ensures i == LastIndex(window, IsPromptLine)
  {
    i := |window| - 1;
    while i >= 0 && !IsPromptLine(window[i])
      invariant -1 <= i < |window|
      invariant LastIndex(window[..i + 1], IsPromptLine) == LastIndex(window, IsPromptLine)
    {
      assert window[..i + 1][..i] == window[..i];
      i := i - 1;
    }
  }

  method LookAhead(below: seq<string>) returns (ahead: string)
    ensures ahead == Ahead(below)
  {
    var rest := below;
    while rest != [] && Blank(rest[0])
      invariant Ahead(rest) == Ahead(below)
      decreases |rest|
    {
      rest := rest[1..];
    }
    ahead := if rest != [] then rest[0] else "";
  }

  /** The same with the parts found so far. */
  function CollectOnto(parts: seq<string>, lines: seq<string>): seq<string>
    decreases lines
  {
    if lines == [] then parts
    else if Blank(lines[0]) then
      if Stops(Ahead(lines[1..])) then parts else CollectOnto(parts, lines[1..])
    else if Stops(lines[0]) then parts
    else CollectOnto(parts + [Continuation(lines[0])], lines[1..])
  }

  lemma Shift<T>(parts: seq<T>, x: T, rest: seq<T>)
    ensures (parts + [x]) + rest == parts + ([x] + rest)
  {
  }

  lemma {:induction false} CollectOntoIs(parts: seq<string>, lines: seq<string>)
    ensures CollectOnto(parts, lines) == parts + Collect(lines)
    decreases lines
  {
    if lines != [] {
      CollectOntoIs(parts, lines[1..]);
      CollectOntoIs(parts + [Continuation(lines[0])], lines[1..]);
      Shift(parts, Continuation(lines[0]), Collect(lines[1..]));
    }
  }

  method CollectParts(below: seq<string>) returns (parts: seq<string>)
    ensures parts == Collect(below)
  {
    parts := [];
    CollectOntoIs(parts, below);
    var rest := below;
    while rest != []
      invariant CollectOnto(parts, rest) == CollectOnto([], below)
      decreases |rest|
    {
      var line := rest[0];
      rest := rest[1..];
      if Blank(line) {
        var ahead := LookAhead(rest);
        if Stops(ahead) {
          break;
        }
      } else if Stops(line) {
        break;
      } else {
        parts := parts + [Continuation(line)];
      }
    }
  }

  /** The parsing part of `osa_extract_compose`. */
  method ExtractCompose(screen: string) returns (text: string)
    ensures text == Extract(SplitLines(screen))
  {
    var lines := SplitLines(screen);
    text := ExtractWindow(Visible(lines));
  }

  method ExtractWindow(window: seq<string>) returns (text: string)
    ensures text == ReadWindow(window)
  {
    var i := FindPrompt(window);
    if i < 0 {
      return "";
    }
    text := ReadFrom(window, i);
  }

  method ReadFrom(window: seq<string>, i: nat) returns (text: string)
    requires i < |window| && IsPromptLine(window[i])
    ensures text == ReadAt(window[i], window[i + 1..])
  {
    var first := StripPadding(StripAnsi(AfterPrompt(window[i])));
    var parts := CollectParts(window[i + 1..]);
    var rest := StripEnd(JoinLines([first] + parts));
    text := Quiet(rest);
  }

  // ---- round trip ------------------------------------------------------

  /** A pane showing typed text: the prompt line, indented continuation lines and
      the closing rule, between whatever else is on screen. */
  function Rendered(before: seq<string>, first: string, more: seq<string>, rule: string, after: seq<string>): seq<string> {
    before + [[PROMPT] + " " + first] + Indented(more) + [rule] + after
  }

  function Indented(more: seq<string>): seq<string> {
    if more == [] then [] else ["  " + more[0]] + Indented(more[1..])
  }

  /** Typed lines that are not blank. */
  function Visibly(more: seq<string>): seq<string> {
    if more == [] then [] else if Blank(more[0]) then Visibly(more[1..]) else [more[0]] + Visibly(more[1..])
  }

  predicate Unpadded(line: string) {
    line == "" || !IsPadding(line[|line| - 1])
  }

  predicate NoEscape(line: string) { ESC !in line }

  /** A line that ends the typed text: a rule, a status line or the like, and not
      itself a prompt. */
  predicate Closes(line: string) { Stops(line) && !Blank(line) && !IsPromptLine(line) }

  /** A continuation line somebody may type: blank, or unpadded and not looking
      like a rule, a prompt or a status line. */
  predicate Typable(line: string) {
    NoEscape(line) && (Blank(line) || (Unpadded(line) && !Stops("  " + line)))
  }

  lemma {:induction false} NoAnsi(s: string)
    requires NoEscape(s)
    ensures StripAnsi(s) == s
  {
    if s != "" {
      NoAnsi(s[1..]);
    }
  }

  lemma IndentBlank(line: string)
    ensures Blank("  " + line) <==> Blank(line)
  {
    var s := "  " + line;
    assert s[1..] == " " + line;
    assert s[1..][1..] == line;
    assert LStrip(s) == LStrip(s[1..]) == LStrip(line);
  }

  lemma ContinuationIs(line: string)
    requires NoEscape(line) && Unpadded(line)
    ensures Continuation("  " + line) == line
  {
    var s := "  " + line;
    NoAnsi(s);
    assert StartsWith(s[1..], " ") && s[2..] == line;
  }

  lemma {:induction false} AheadIndented(more: seq<string>, rule: string, after: seq<string>)
    requires Closes(rule)
    requires forall i :: 0 <= i < |more| ==> Typable(more[i])
    ensures Stops(Ahead(Indented(more) + [rule] + after)) <==> Visibly(more) == []
    decreases more
  {
    var lines := Indented(more) + [rule] + after;
    if more == [] {
      assert lines[0] == rule;
    } else {
      IndentBlank(more[0]);
      assert lines[0] == "  " + more[0];
      assert lines[1..] == Indented(more[1..]) + [rule] + after;
      AheadIndented(more[1..], rule, after);
    }
  }

  lemma {:induction false} CollectIndented(more: seq<string>, rule: string, after: seq<string>)
    requires Closes(rule)
    requires forall i :: 0 <= i < |more| ==> Typable(more[i])
    ensures Collect(Indented(more) + [rule] + after) == Visibly(more)
    decreases more
  {
    var lines := Indented(more) + [rule] + after;
    if more == [] {
      assert lines[0] == rule;
    } else {
      IndentBlank(more[0]);
      assert lines[0] == "  " + more[0];
      assert lines[1..] == Indented(more[1..]) + [rule] + after;
      AheadIndented(more[1..], rule, after);
      CollectIndented(more[1..], rule, after);
      if !Blank(more[0]) {
        ContinuationIs(more[0]);
      }
    }
  }

  // ---- the prompt line -------------------------------------------------

  lemma {:induction false} LastIs<T>(pre: seq<T>, x: T, post: seq<T>, p: T -> bool)
    requires p(x) && forall k :: 0 <= k < |post| ==> !p(post[k])
    ensures LastIndex(pre + [x] + post, p) == |pre|
    decreases |post|
  {
    var all := pre + [x] + post;
    if post != [] {
      var rest := post[..|post| - 1];
      assert all[|all| - 1] == post[|post| - 1];
      assert all[..|all| - 1] == pre + [x] + rest;
      LastIs(pre, x, rest, p);
    }
  }

  lemma {:induction false} NotPadded(s: string)
    requires Unpadded(s)
    ensures StripPadding(s) == s
  {
  }

  lemma PromptLine(first: string)
    ensures IsPromptLine([PROMPT] + " " + first)
    ensures AfterPrompt([PROMPT] + " " + first) == first
  {
    var line := [PROMPT] + " " + first;
    assert LStrip(line) == line;
    assert line[1..] == " " + first;
  }

  // ---- joining ---------------------------------------------------------

  predicate EndsClean(s: string) {
    s == "" || (s[|s| - 1] != '\n' && s[|s| - 1] != ' ')
  }

  lemma {:induction false} JoinEndsClean(parts: seq<string>)
    requires forall i :: 0 <= i < |parts| ==> EndsClean(parts[i])
    requires forall i :: 1 <= i < |parts| ==> parts[i] != ""
    ensures EndsClean(JoinLines(parts))
    ensures parts != [] && parts[0] != "" ==> JoinLines(parts) != ""
  {
    if |parts| > 1 {
      JoinEndsClean(parts[1..]);
    }
  }

  lemma {:induction false} VisiblyKeeps(more: seq<string>)
    requires forall i :: 0 <= i < |more| ==> Typable(more[i]) && Plain(more[i])
    ensures forall i :: 0 <= i < |Visibly(more)| ==> Visibly(more)[i] != "" && EndsClean(Visibly(more)[i])
  {
    if more != [] {
      VisiblyKeeps(more[1..]);
      if !Blank(more[0]) {
        assert IsBreak('\n');
      }
    }
  }

  lemma {:induction false} IndentedPrompts(more: seq<string>)
    requires forall i :: 0 <= i < |more| ==> Typable(more[i])
    ensures |Indented(more)| == |more|
    ensures forall k :: 0 <= k < |more| ==> !IsPromptLine(Indented(more)[k])
  {
    if more != [] {
      IndentBlank(more[0]);
      if Blank(more[0]) {
        assert LStrip("  " + more[0]) == "";
      }
      IndentedPrompts(more[1..]);
    }
  }

  // ---- the results -----------------------------------------------------

  /** What the round trip assumes of the screen. */
  predicate Screen(first: string, more: seq<string>, rule: string, after: seq<string>) {
    Plain(first) && NoEscape(first) && Unpadded(first) &&
    (forall i :: 0 <= i < |more| ==> Plain(more[i]) && Typable(more[i])) &&
    Closes(rule) && (forall k :: 0 <= k < |after| ==> !IsPromptLine(after[k])) &&
    |more| + 2 + |after| <= 40
  }

  lemma VisibleSplit(before: seq<string>, line: string, post: seq<string>) returns (pre: seq<string>)
    requires |post| < WINDOW
    ensures Visible(before + [line] + post) == pre + [line] + post
  {
    var lines := before + [line] + post;
    pre := if |lines| <= WINDOW then before else before[|lines| - WINDOW..];
  }

  /** Extraction starts at the last prompt line, if the window reaches it. */
  lemma ExtractFrom(before: seq<string>, line: string, post: seq<string>)
    requires IsPromptLine(line) && |post| < WINDOW
    requires forall k :: 0 <= k < |post| ==> !IsPromptLine(post[k])
    ensures Extract(before + [line] + post) == ReadAt(line, post)
  {
    var pre := VisibleSplit(before, line, post);
    LastIs(pre, line, post, IsPromptLine);
    PromptSplit(pre, line, post);
  }

  lemma PromptSplit<T>(pre: seq<T>, line: T, post: seq<T>)
    ensures var window := pre + [line] + post;
            window[|pre|] == line && window[|pre| + 1..] == post
  {
  }

  lemma NoPromptBelow(more: seq<string>, rule: string, after: seq<string>)
    requires Closes(rule)
    requires forall i :: 0 <= i < |more| ==> Typable(more[i])
    requires forall k :: 0 <= k < |after| ==> !IsPromptLine(after[k])
    ensures var post := Indented(more) + [rule] + after;
            |post| == |more| + 1 + |after| && forall k :: 0 <= k < |post| ==> !IsPromptLine(post[k])
  {
    IndentedPrompts(more);
  }

  lemma SettleIs(first: string, rest: seq<string>)
    requires EndsClean(first) && forall i :: 0 <= i < |rest| ==> rest[i] != "" && EndsClean(rest[i])
    ensures Settle([first] + rest) == Quiet(JoinLines([first] + rest))
  {
    JoinEndsClean([first] + rest);
    StripEndClean(JoinLines([first] + rest));
  }

  lemma SettleClean(first: string, more: seq<string>)
    requires Plain(first) && Unpadded(first)
    requires forall i :: 0 <= i < |more| ==> Plain(more[i]) && Typable(more[i])
    ensures Settle([first] + Visibly(more)) == Quiet(JoinLines([first] + Visibly(more)))
  {
    VisiblyKeeps(more);
    CleanLine(first);
    SettleIs(first, Visibly(more));
  }

  lemma CleanLine(line: string)
    requires Plain(line) && Unpadded(line)
    ensures EndsClean(line)
  {
    assert IsBreak('\n');
  }

  lemma {:induction false} StripEndClean(s: string)
    requires EndsClean(s)
    ensures StripEnd(s) == s
  {
  }

  lemma ReadPrompt(first: string, more: seq<string>, post: seq<string>)
    requires Plain(first) && NoEscape(first) && Unpadded(first)
    requires forall i :: 0 <= i < |more| ==> Plain(more[i]) && Typable(more[i])
    requires Collect(post) == Visibly(more) && IsPromptLine([PROMPT] + " " + first)
    ensures ReadAt([PROMPT] + " " + first, post) == Quiet(JoinLines([first] + Visibly(more)))
  {
    PromptLine(first);
    NoAnsi(first);
    NotPadded(first);
    SettleClean(first, more);
  }

  /** Extraction reads the typed text from the screen, without its blank lines. */
  lemma ExtractRendered(before: seq<string>, first: string, more: seq<string>, rule: string, after: seq<string>)
    requires Screen(first, more, rule, after)
    ensures Extract(Rendered(before, first, more, rule, after)) ==
            Quiet(JoinLines([first] + Visibly(more)))
  {
    var line := [PROMPT] + " " + first;
    var post := Indented(more) + [rule] + after;
    PromptLine(first);
    NoPromptBelow(more, rule, after);
    CollectIndented(more, rule, after);
    ExtractFrom(before, line, post);
    assert Rendered(before, first, more, rule, after) == before + [line] + post;
    ReadPrompt(first, more, post);
  }

  lemma {:induction false} VisiblyShorter(more: seq<string>)
    ensures |JoinLines([""] + Visibly(more))| <= |JoinLines([""] + more)|
    ensures |JoinLines([""] + Visibly(more))| == |JoinLines([""] + more)| <==> Visibly(more) == more
  {
    if more != [] {
      VisiblyShorter(more[1..]);
      JoinHead("", more);
      JoinHead(more[0], more[1..]);
      JoinHead("", more[1..]);
      assert [more[0]] + more[1..] == more;
      var kept := Visibly(more[1..]);
      if !Blank(more[0]) {
        JoinHead("", [more[0]] + kept);
        JoinHead(more[0], kept);
        JoinHead("", kept);
      }
    }
  }

  /** A first line adds its own length to whatever is joined below it. */
  lemma JoinHead(first: string, lines: seq<string>)
    ensures |JoinLines([first] + lines)| == |first| + (if lines == [] then 0 else 1 + |JoinLines(lines)|)
    ensures JoinLines([first] + lines) == first + (if lines == [] then "" else "\n" + JoinLines(lines))
  {
    assert ([first] + lines)[1..] == lines;
  }

  predicate NoBlank(more: seq<string>) {
    forall i :: 0 <= i < |more| ==> !Blank(more[i])
  }

  lemma {:induction false} VisiblyAll(more: seq<string>)
    ensures Visibly(more) == more <==> NoBlank(more)
    ensures |Visibly(more)| <= |more|
  {
    if more != [] {
      VisiblyAll(more[1..]);
    }
  }

  /** The text comes back unchanged exactly if it has no blank continuation line. */
  lemma ComposeRoundTrip(before: seq<string>, first: string, more: seq<string>, rule: string, after: seq<string>)
    requires Screen(first, more, rule, after)
    requires !IsEcho(JoinLines([first] + Visibly(more)))
    ensures Extract(Rendered(before, first, more, rule, after)) == JoinLines([first] + more) <==> NoBlank(more)
  {
    ExtractRendered(before, first, more, rule, after);
    VisiblyAll(more);
    VisiblyShorter(more);
    JoinHead(first, more);
    JoinHead("", more);
    JoinHead(first, Visibly(more));
    JoinHead("", Visibly(more));
  }

  /** Lines as a terminal shows them. */
  function Print(lines: seq<string>): string {
    if lines == [] then "" else lines[0] + "\n" + Print(lines[1..])
  }

  lemma {:induction false} PrintedLines(lines: seq<string>)
    requires forall i :: 0 <= i < |lines| ==> Plain(lines[i])
    ensures SplitLines(Print(lines)) == lines
  {
    if lines != [] {
      SplitFirst(lines[0], Print(lines[1..]));
      PrintedLines(lines[1..]);
    }
  }

  /** The text as the terminal prints it, split and read, is the text as typed. */
  lemma PrintedRoundTrip(before: seq<string>, first: string, more: seq<string>, rule: string, after: seq<string>)
    requires Screen(first, more, rule, after) && NoBlank(more) && !IsEcho(JoinLines([first] + more))
    requires forall i :: 0 <= i < |before| ==> Plain(before[i])
    requires Plain(rule) && forall i :: 0 <= i < |after| ==> Plain(after[i])
    ensures Extract(SplitLines(Print(Rendered(before, first, more, rule, after)))) == JoinLines([first] + more)
  {
    RenderedPlain(before, first, more, rule, after);
    PrintedLines(Rendered(before, first, more, rule, after));
    VisiblyAll(more);
    ComposeRoundTrip(before, first, more, rule, after);
  }

  lemma {:induction false} IndentedPlain(more: seq<string>)
    requires forall i :: 0 <= i < |more| ==> Plain(more[i])
    ensures forall i :: 0 <= i < |Indented(more)| ==> Plain(Indented(more)[i])
  {
    if more != [] {
      IndentedPlain(more[1..]);
    }
  }

  lemma RenderedPlain(before: seq<string>, first: string, more: seq<string>, rule: string, after: seq<string>)
    requires Plain(first) && forall i :: 0 <= i < |more| ==> Plain(more[i])
    requires forall i :: 0 <= i < |before| ==> Plain(before[i])
    requires Plain(rule) && forall i :: 0 <= i < |after| ==> Plain(after[i])
    ensures var lines := Rendered(before, first, more, rule, after);
            forall i :: 0 <= i < |lines| ==> Plain(lines[i])
  {
    IndentedPlain(more);
  }
}
