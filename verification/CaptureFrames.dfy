/** The framed dump of every open session and the loop that parses it. */
module CaptureFrames {
  import opened Text

  const HEAD: string := "<<<TM_SESSION:"
  const CLOSE: string := ">>>"
  const END: string := "<<<TM_END>>>"

  datatype Session = Session(id: string, content: string)

  /** What the capture script prints. */
  function Frame(s: Session): string {
    HEAD + s.id + CLOSE + "\n" + s.content + "\n" + END + "\n"
  }

  function Dump(sessions: seq<Session>): string {
    if sessions == [] then "" else Frame(sessions[0]) + Dump(sessions[1..])
  }

  // ---- the parser ------------------------------------------------------

  predicate OpensFrame(line: string) {
    |line| >= |HEAD| + |CLOSE| && line[..|HEAD|] == HEAD && line[|line| - |CLOSE|..] == CLOSE
  }

  predicate IsFrameLine(line: string) {
    OpensFrame(line) || line == END
  }

  datatype Parser = Parser(screens: map<string, string>, sid: string, buf: seq<string>)

  function Flush(p: Parser): map<string, string> {
    if p.sid != "" then p.screens[p.sid := JoinLines(p.buf)] else p.screens
  }

  function Feed(p: Parser, line: string): Parser {
    if OpensFrame(line) then Parser(Flush(p), Upper(line[|HEAD|..|line| - |CLOSE|]), [])
    else if line == END then Parser(Flush(p), "", [])
    else if p.sid != "" then p.(buf := p.buf + [line])
    else p
  }

  function FeedAll(p: Parser, lines: seq<string>): Parser
    decreases lines
  {
    if lines == [] then p else FeedAll(Feed(p, lines[0]), lines[1..])
  }

  /** The map the printed text stands for. */
  function Captured(stdout: string): map<string, string> {
    Flush(FeedAll(Parser(map[], "", []), SplitLines(stdout)))
  }

  /** The loop of `_capture_all`. */
  method Parse(stdout: string) returns (screens: map<string, string>)
    ensures screens == Captured(stdout)
  {
    screens := map[];
    var sid := "";
    var buf: seq<string> := [];
    var lines := SplitLines(stdout);
    var i := 0;
    while i < |lines|
      invariant 0 <= i <= |lines|
      invariant FeedAll(Parser(screens, sid, buf), lines[i..]) == FeedAll(Parser(map[], "", []), lines)
    {
      var line := lines[i];
      assert lines[i..][0] == line && lines[i..][1..] == lines[i + 1..];
      if OpensFrame(line) {
        if sid != "" {
          screens := screens[sid := JoinLines(buf)];
        }
        sid := Upper(line[|HEAD|..|line| - |CLOSE|]);
        buf := [];
      } else if line == END {
        if sid != "" {
          screens := screens[sid := JoinLines(buf)];
        }
        sid := "";
        buf := [];
      } else if sid != "" {
        buf := buf + [line];
      }
      i := i + 1;
    }
    if sid != "" {
      screens := screens[sid := JoinLines(buf)];
    }
  }

  // ---- round trip ------------------------------------------------------

  /** A session as iTerm can print it: a non-empty id on one line, and content
      none of whose lines looks like a frame. */
  ghost predicate Printable(s: Session) {
    s.id != "" && Plain(s.id) && NewlinesOnly(s.content) &&
    forall i :: 0 <= i < |SplitLines(s.content + "\n")| ==> !LooksLikeFrame(SplitLines(s.content + "\n")[i])
  }

  ghost predicate LooksLikeFrame(line: string) {
    line == "<<<TM_END>>>" || exists id :: line == HeadOf(id)
  }

  function HeadOf(id: string): string { "<<<TM_SESSION:" + id + ">>>" }

  /** Which lines the parser takes for a frame. */
  lemma FrameLineIff(line: string)
    ensures IsFrameLine(line) <==> LooksLikeFrame(line)
  {
    if OpensFrame(line) {
      assert line == HeadOf(line[|HEAD|..|line| - |CLOSE|]);
    }
    if id :| line == HeadOf(id) {
      assert line[..|HEAD|] == HEAD && line[|line| - |CLOSE|..] == CLOSE;
    }
  }

  lemma {:induction false} FeedAppend(p: Parser, a: seq<string>, b: seq<string>)
    ensures FeedAll(p, a + b) == FeedAll(FeedAll(p, a), b)
    decreases a
  {
    if a == [] {
      assert a + b == b;
    } else {
      assert (a + b)[1..] == a[1..] + b;
      FeedAppend(Feed(p, a[0]), a[1..], b);
    }
  }

  lemma {:induction false} FeedContent(p: Parser, lines: seq<string>)
    requires p.sid != "" && forall i :: 0 <= i < |lines| ==> !LooksLikeFrame(lines[i])
    ensures FeedAll(p, lines) == p.(buf := p.buf + lines)
    decreases lines
  {
    if lines == [] {
      assert p.buf + lines == p.buf;
    } else {
      FrameLineIff(lines[0]);
      FeedContent(Feed(p, lines[0]), lines[1..]);
      assert p.buf + [lines[0]] + lines[1..] == p.buf + lines;
    }
  }

  lemma HeadLine(id: string)
    requires Plain(id)
    ensures var line := HEAD + id + CLOSE;
            Plain(line) && OpensFrame(line) && line[|HEAD|..|line| - |CLOSE|] == id
  {
    var line := HEAD + id + CLOSE;
    assert line[..|HEAD|] == HEAD;
    assert line[|line| - |CLOSE|..] == CLOSE;
    assert line[|HEAD|..|line| - |CLOSE|] == id;
    forall i | 0 <= i < |line|
      ensures !IsBreak(line[i])
    {
      if |HEAD| <= i < |HEAD| + |id| {
        assert line[i] == id[i - |HEAD|];
      } else if i < |HEAD| {
        assert line[i] == HEAD[i];
      } else {
        assert line[i] == CLOSE[i - |HEAD| - |id|];
      }
    }
  }

  lemma EndLine()
    ensures SplitLines(END + "\n") == [END]
  {
    SplitFirst(END, "");
    assert END + "\n" + "" == END + "\n";
  }

  lemma ContentLines(content: string)
    ensures SplitLines(content + "\n" + (END + "\n")) == SplitLines(content + "\n") + [END]
  {
    SplitAppend(content + "\n", END + "\n");
    EndLine();
  }

  /** The lines of one frame. */
  lemma FrameLines(s: Session)
    requires Plain(s.id)
    ensures SplitLines(Frame(s)) == [HEAD + s.id + CLOSE] + (SplitLines(s.content + "\n") + [END])
  {
    HeadLine(s.id);
    var head := HEAD + s.id + CLOSE;
    var tail := s.content + "\n" + (END + "\n");
    assert Frame(s) == head + "\n" + tail;
    SplitFirst(head, tail);
    ContentLines(s.content);
  }

  lemma FrameParses(screens: map<string, string>, s: Session)
    requires Printable(s)
    ensures FeedAll(Parser(screens, "", []), SplitLines(Frame(s))) ==
            Parser(screens[Upper(s.id) := s.content], "", [])
  {
    var p := Parser(screens, "", []);
    var head := HEAD + s.id + CLOSE;
    var body := SplitLines(s.content + "\n");
    HeadLine(s.id);
    FrameLines(s);
    FeedAppend(p, [head], body + [END]);
    var q := Parser(screens, Upper(s.id), []);
    assert Feed(p, head) == q;
    assert FeedAll(p, [head]) == FeedAll(q, []) == q;
    FeedAppend(q, body, [END]);
    FeedContent(q, body);
    assert [] + body == body;
    JoinSplit(s.content);
    var r := q.(buf := body);
    assert FeedAll(r, [END]) == FeedAll(Feed(r, END), []) == Feed(r, END);
  }

  /** The printed map: the last session of an id wins. */
  function Screens(base: map<string, string>, sessions: seq<Session>): map<string, string>
    decreases sessions
  {
    if sessions == [] then base
    else Screens(base[Upper(sessions[0].id) := sessions[0].content], sessions[1..])
  }

  lemma FrameEndsLine(s: Session)
    ensures Frame(s) != "" && Frame(s)[|Frame(s)| - 1] == '\n'
  {
  }

  lemma {:induction false} DumpParses(base: map<string, string>, sessions: seq<Session>)
    requires forall i :: 0 <= i < |sessions| ==> Printable(sessions[i])
    ensures FeedAll(Parser(base, "", []), SplitLines(Dump(sessions))) == Parser(Screens(base, sessions), "", [])
    decreases sessions
  {
    if sessions != [] {
      var first, rest := sessions[0], sessions[1..];
      FrameEndsLine(first);
      SplitAppend(Frame(first), Dump(rest));
      FeedAppend(Parser(base, "", []), SplitLines(Frame(first)), SplitLines(Dump(rest)));
      FrameParses(base, first);
      DumpParses(base[Upper(first.id) := first.content], rest);
    }
  }

  lemma {:induction false} ScreensHold(base: map<string, string>, sessions: seq<Session>)
    requires forall i, j :: 0 <= i < j < |sessions| ==> Upper(sessions[i].id) != Upper(sessions[j].id)
    ensures forall i :: 0 <= i < |sessions| ==>
              Upper(sessions[i].id) in Screens(base, sessions) &&
              Screens(base, sessions)[Upper(sessions[i].id)] == sessions[i].content
    ensures forall k :: k in Screens(base, sessions) && !(exists i :: 0 <= i < |sessions| && Upper(sessions[i].id) == k) ==>
              k in base && Screens(base, sessions)[k] == base[k]
    ensures forall k :: k in base && (forall i :: 0 <= i < |sessions| ==> Upper(sessions[i].id) != k) ==>
              k in Screens(base, sessions) && Screens(base, sessions)[k] == base[k]
    decreases sessions
  {
    if sessions != [] {
      var rest := sessions[1..];
      assert forall i :: 0 <= i < |rest| ==> rest[i] == sessions[i + 1];
      ScreensHold(base[Upper(sessions[0].id) := sessions[0].content], rest);
    }
  }

  /** Round trip: parsing the dump gives back, under the upper-cased id, exactly the
      content of every session, and nothing else. */
  lemma RoundTrip(sessions: seq<Session>)
    requires forall i :: 0 <= i < |sessions| ==> Printable(sessions[i])
    requires forall i, j :: 0 <= i < j < |sessions| ==> Upper(sessions[i].id) != Upper(sessions[j].id)
    ensures var screens := Captured(Dump(sessions));
            (forall i :: 0 <= i < |sessions| ==>
               Upper(sessions[i].id) in screens && screens[Upper(sessions[i].id)] == sessions[i].content) &&
            (forall k :: k in screens ==> exists i :: 0 <= i < |sessions| && Upper(sessions[i].id) == k)
  {
    DumpParses(map[], sessions);
    ScreensHold(map[], sessions);
  }
}
