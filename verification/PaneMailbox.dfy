/** A pane's mailbox with many messages: the two drain hooks and the watchdog's
    wake, each holding the pane's send lock for its whole run. */
module PaneMailbox {
  import opened Prelude
  import Utf8

  /** An inbox file: `channel` stands for `delivery_mode` "claude-channel", `leased`
      for the answer of the lease check, `pane` for the state under
      `pane_delivery`, empty when absent. */
  datatype Mail = Mail(name: string, body: string, channel: bool, leased: bool, pane: string)

  const MAX_ATTACH: nat := 5

  predicate Claimed(m: Mail) {
    m.pane == "dispatching" || m.pane == "submitted" || m.pane == "uncertain"
  }

  /** `available_to_hook`, and `eligible_for_watch` on records with a delivery mode */
  predicate Available(m: Mail) { !m.channel && !m.leased && !Claimed(m) }

  /** Neither a native channel's, nor under a sender's lease, nor claimed before. */
  predicate MayBeSurfaced(m: Mail) {
    !m.channel && !m.leased && m.pane !in {"dispatching", "submitted", "uncertain"}
  }

  predicate Distinct(inbox: seq<Mail>) {
    forall i, j :: 0 <= i < j < |inbox| ==> inbox[i].name != inbox[j].name
  }

  lemma DistinctCons(head: Mail, tail: seq<Mail>)
    requires Distinct(tail) && forall m :: m in tail ==> m.name != head.name
    ensures Distinct([head] + tail)
  {
  }

  // ---- drains ----------------------------------------------------------

  /** The first k available messages. */
  function Taken(inbox: seq<Mail>, k: nat): (r: seq<Mail>)
    ensures |r| <= k && |r| <= |inbox|
    decreases inbox
  {
    if inbox == [] || k == 0 then []
    else if Available(inbox[0]) then [inbox[0]] + Taken(inbox[1..], k - 1)
    else Taken(inbox[1..], k)
  }

  /** What remains without them. */
  function Left(inbox: seq<Mail>, k: nat): seq<Mail>
    decreases inbox
  {
    if inbox == [] || k == 0 then inbox
    else if Available(inbox[0]) then Left(inbox[1..], k - 1)
    else [inbox[0]] + Left(inbox[1..], k)
  }

  /** All available messages, in listing order. */
  function Ready(inbox: seq<Mail>): seq<Mail> {
    if inbox == [] then []
    else if Available(inbox[0]) then [inbox[0]] + Ready(inbox[1..])
    else Ready(inbox[1..])
  }

  function Remove(inbox: seq<Mail>, name: string): seq<Mail> {
    if inbox == [] then []
    else if inbox[0].name == name then Remove(inbox[1..], name)
    else [inbox[0]] + Remove(inbox[1..], name)
  }

  lemma {:induction false} TakenIsReady(inbox: seq<Mail>, k: nat)
    ensures Taken(inbox, k) == if k <= |Ready(inbox)| then Ready(inbox)[..k] else Ready(inbox)
    decreases inbox
  {
    if inbox != [] && k > 0 {
      TakenIsReady(inbox[1..], if Available(inbox[0]) then k - 1 else k);
    }
  }

  lemma {:induction false} RemoveAbsent(inbox: seq<Mail>, name: string)
    requires forall i :: 0 <= i < |inbox| ==> inbox[i].name != name
    ensures Remove(inbox, name) == inbox
  {
    if inbox != [] {
      RemoveAbsent(inbox[1..], name);
    }
  }

  lemma {:induction false} RemoveAt(inbox: seq<Mail>, i: nat)
    requires Distinct(inbox) && i < |inbox|
    ensures Remove(inbox, inbox[i].name) == inbox[..i] + inbox[i + 1..]
  {
    if i == 0 {
      RemoveAbsent(inbox[1..], inbox[0].name);
    } else {
      RemoveAt(inbox[1..], i - 1);
      assert inbox[1..][..i - 1] == inbox[1..i];
      assert inbox[..i] == [inbox[0]] + inbox[1..i];
      assert inbox[1..][i..] == inbox[i + 1..];
    }
  }

  /** Everything left after a drain was there before, in the same order. */
  lemma {:induction false} LeftFrom(inbox: seq<Mail>, k: nat)
    requires Distinct(inbox)
    ensures Distinct(Left(inbox, k))
    ensures forall m :: m in Left(inbox, k) ==> m in inbox
    ensures forall m :: m in Taken(inbox, k) ==> m in inbox && Available(m)
    ensures forall m :: m in inbox ==> m in Left(inbox, k) || m in Taken(inbox, k)
    decreases inbox
  {
    if inbox != [] && k > 0 {
      LeftFrom(inbox[1..], if Available(inbox[0]) then k - 1 else k);
      if !Available(inbox[0]) {
        DistinctCons(inbox[0], Left(inbox[1..], k));
      }
    }
  }

  /** What a drain takes and what it leaves, message by message: only what may be
      surfaced is taken, everything else stays, and nothing that may be surfaced stays
      as long as fewer than k were taken. */
  lemma {:induction false} DrainTakes(inbox: seq<Mail>, k: nat)
    requires Distinct(inbox)
    ensures forall m :: m in Taken(inbox, k) ==> m in inbox && MayBeSurfaced(m)
    ensures forall m :: m in inbox && !MayBeSurfaced(m) ==> m in Left(inbox, k)
    ensures |Taken(inbox, k)| < k ==> forall m :: m in inbox ==> (m in Taken(inbox, k) <==> MayBeSurfaced(m))
    decreases inbox
  {
    if inbox != [] && k > 0 {
      DrainTakes(inbox[1..], if Available(inbox[0]) then k - 1 else k);
    }
  }

  /** Taking one more removes exactly the next available message. */
  lemma {:induction false} LeftNext(inbox: seq<Mail>, k: nat)
    requires Distinct(inbox) && k < |Ready(inbox)|
    ensures Left(inbox, k + 1) == Remove(Left(inbox, k), Ready(inbox)[k].name)
    decreases inbox
  {
    var head, tail := inbox[0], inbox[1..];
    if Available(head) && k == 0 {
      RemoveAbsent(tail, head.name);
      assert Left(tail, 0) == tail;
    } else {
      var before := if Available(head) then k - 1 else k;
      LeftNext(tail, before);
      ReadyFrom(tail);
      assert Ready(tail)[before] in tail;
      if !Available(head) {
        if k == 0 {
          assert Left(inbox, 0) == [head] + tail;
        }
        var rest := Left(tail, k);
        assert ([head] + rest)[1..] == rest;
      }
    }
  }

  lemma {:induction false} ReadyFrom(inbox: seq<Mail>)
    ensures forall m :: m in Ready(inbox) <==> m in inbox && Available(m)
  {
    if inbox != [] {
      ReadyFrom(inbox[1..]);
    }
  }

  /** Draining a and then b messages is draining a + b. */
  lemma {:induction false} DrainsAdd(inbox: seq<Mail>, a: nat, b: nat)
    ensures Taken(inbox, a) + Taken(Left(inbox, a), b) == Taken(inbox, a + b)
    ensures Left(Left(inbox, a), b) == Left(inbox, a + b)
    decreases inbox
  {
    if inbox != [] && a > 0 {
      DrainsAdd(inbox[1..], if Available(inbox[0]) then a - 1 else a, b);
      if !Available(inbox[0]) {
        var rest := Left(inbox[1..], a);
        assert ([inbox[0]] + rest)[1..] == rest;
        if b == 0 {
          assert Left(rest, 0) == rest;
        }
      }
    }
  }

  /** n drains in a row, and what they showed. */
  function Drained(inbox: seq<Mail>, n: nat, bound: nat): (seq<Mail>, seq<Mail>) {
    if n == 0 then ([], inbox)
    else
      var (shown, rest) := Drained(inbox, n - 1, bound);
      (shown + Taken(rest, bound), Left(rest, bound))
  }

  /** n drains show the first n * bound available messages, each once and in listing
      order; enough of them show every available message and leave exactly the
      unavailable ones. */
  lemma {:induction false} DrainsShowAll(inbox: seq<Mail>, n: nat, bound: nat)
    ensures Drained(inbox, n, bound) == (Taken(inbox, n * bound), Left(inbox, n * bound))
    ensures n * bound >= |Ready(inbox)| ==>
              Drained(inbox, n, bound).0 == Ready(inbox) && Ready(Drained(inbox, n, bound).1) == []
  {
    if n > 0 {
      DrainsShowAll(inbox, n - 1, bound);
      DrainsAdd(inbox, (n - 1) * bound, bound);
      assert (n - 1) * bound + bound == n * bound;
    }
    TakenIsReady(inbox, n * bound);
    if n * bound >= |Ready(inbox)| {
      NothingLeft(inbox, n * bound);
    }
  }

  lemma {:induction false} NothingLeft(inbox: seq<Mail>, k: nat)
    requires k >= |Ready(inbox)|
    ensures Ready(Left(inbox, k)) == []
    decreases inbox
  {
    if inbox != [] && k > 0 {
      NothingLeft(inbox[1..], if Available(inbox[0]) then k - 1 else k);
    }
  }

  // ---- wake ------------------------------------------------------------

  /** How an injection went; `Errors` may or may not have reached the pane. */
  datatype Injection = Works | Errors

  /** What the wake finds when it looks at the pane and again at the registry. */
  datatype Sight = Sight(owner: bool, typing: bool, same: bool, injection: Injection)

  function FirstAvailable(inbox: seq<Mail>): (i: nat)
    ensures i <= |inbox|
    ensures i < |inbox| ==> Available(inbox[i])
    ensures forall k :: 0 <= k < i ==> !Available(inbox[k])
  {
    if inbox == [] || Available(inbox[0]) then 0 else 1 + FirstAvailable(inbox[1..])
  }

  predicate Wakes(inbox: seq<Mail>, sight: Sight) {
    sight.owner && FirstAvailable(inbox) < |inbox| && !sight.typing && sight.same
  }

  function Marked(m: Mail): Mail { m.(pane := "dispatching", leased := true) }

  function Uncertain(m: Mail): Mail { m.(pane := "uncertain", leased := false) }

  function Woken(inbox: seq<Mail>, sight: Sight): seq<Mail> {
    if !Wakes(inbox, sight) then inbox
    else
      var i := FirstAvailable(inbox);
      if sight.injection.Works? then inbox[..i] + inbox[i + 1..] else inbox[i := Uncertain(inbox[i])]
  }

  /** Bodies as attached, without the notices about cuts. */
  method Attach(blocks: seq<Mail>, maxBytes: nat) returns (shown: seq<string>)
    ensures |shown| == |blocks| && forall i :: 0 <= i < |shown| ==> shown[i] == Utf8.Preview(blocks[i].body, maxBytes)
  {
    shown := [];
    while |shown| < |blocks|
      invariant |shown| <= |blocks|
      invariant forall i :: 0 <= i < |shown| ==> shown[i] == Utf8.Preview(blocks[i].body, maxBytes)
    {
      shown := shown + [Utf8.Preview(blocks[|shown|].body, maxBytes)];
    }
  }

  /** What a wake does, given what it saw. While the user types, or if the label or the
      message is no longer what it was, it touches nothing. Otherwise it injects the
      first message that may be surfaced, if there is one, and files it under processed,
      or, after an error, leaves it marked as uncertain. */
  predicate WakeOutcome(sight: Sight, before: seq<Mail>, stored: map<string, Mail>,
                        injected: Option<Mail>, ok: bool, after: seq<Mail>, archive: map<string, Mail>)
  {
    match injected
    case None =>
      !ok && after == before && archive == stored &&
      (sight.typing || !sight.owner || !sight.same || forall m :: m in before ==> !MayBeSurfaced(m))
    case Some(message) =>
      !sight.typing && sight.owner && sight.same &&
      exists i :: 0 <= i < |before| && message == before[i] && MayBeSurfaced(message) &&
        (forall k :: 0 <= k < i ==> !MayBeSurfaced(before[k])) &&
        ok == sight.injection.Works? &&
        after == (if ok then before[..i] + before[i + 1..]
                  else before[i := message.(pane := "uncertain", leased := false)]) &&
        archive == if ok then stored[message.name := message.(pane := "dispatching", leased := true)] else stored
  }

  lemma WokenMeans(sight: Sight, before: seq<Mail>, stored: map<string, Mail>)
    ensures var injected := if Wakes(before, sight) then Some(before[FirstAvailable(before)]) else None;
            var ok := Wakes(before, sight) && sight.injection.Works?;
            var archive := if ok then stored[injected.value.name := Marked(injected.value)] else stored;
            WakeOutcome(sight, before, stored, injected, ok, Woken(before, sight), archive)
  {
    var i := FirstAvailable(before);
    assert i < |before| ==> MayBeSurfaced(before[i]);
    assert forall k :: 0 <= k < i ==> !MayBeSurfaced(before[k]);
  }

  // ---- the program -----------------------------------------------------

  /** Files after writing these messages, one by one. */
  function Stored(files: map<string, Mail>, shown: seq<Mail>): map<string, Mail> {
    if shown == [] then files
    else Stored(files, shown[..|shown| - 1])[shown[|shown| - 1].name := shown[|shown| - 1]]
  }

  lemma {:induction false} StoredHolds(files: map<string, Mail>, shown: seq<Mail>)
    requires Distinct(shown)
    ensures forall m :: m in shown ==> m.name in Stored(files, shown) && Stored(files, shown)[m.name] == m
    ensures forall n :: n in files ==> n in Stored(files, shown)
  {
    if shown != [] {
      var init := shown[..|shown| - 1];
      StoredHolds(files, init);
      assert shown == init + [shown[|shown| - 1]];
    }
  }

  class Pane {
    /** The inbox directory in sorted order, and the processed one. */
    var inbox: seq<Mail>
    var processed: map<string, Mail>

    method List() returns (files: seq<Mail>)
      ensures files == Ready(inbox)
    {
      files := [];
      var k := 0;
      while k < |inbox|
        invariant 0 <= k <= |inbox|
        invariant files + Ready(inbox[k..]) == Ready(inbox)
      {
        assert inbox[k..][1..] == inbox[k + 1..];
        if Available(inbox[k]) {
          files := files + [inbox[k]];
        }
        k := k + 1;
      }
    }

    method Process(m: Mail)
      modifies this
      ensures inbox == Remove(old(inbox), m.name) && processed == old(processed)[m.name := m]
    {
      processed := processed[m.name := m];
      inbox := Remove(inbox, m.name);
    }

    /** Moving the i-th message of a drain that began with `before`. */
    method ProcessNext(shown: seq<Mail>, i: nat, ghost before: seq<Mail>, ghost stored: map<string, Mail>)
      requires Distinct(before) && i < |shown| <= |Ready(before)| && shown == Ready(before)[..|shown|]
      requires inbox == Left(before, i) && processed == Stored(stored, shown[..i])
      modifies this
      ensures inbox == Left(before, i + 1) && processed == Stored(stored, shown[..i + 1])
    {
      LeftNext(before, i);
      assert shown[..i + 1][..i] == shown[..i];
      Process(shown[i]);
    }

    /** Moving all messages of a drain. */
    method ProcessAll(shown: seq<Mail>)
      requires Distinct(inbox) && |shown| <= |Ready(inbox)| && shown == Ready(inbox)[..|shown|]
      modifies this
      ensures inbox == Left(old(inbox), |shown|) && processed == Stored(old(processed), shown)
    {
      var i := 0;
      while i < |shown|
        invariant 0 <= i <= |shown|
        invariant inbox == Left(old(inbox), i) && processed == Stored(old(processed), shown[..i])
      {
        ProcessNext(shown, i, old(inbox), old(processed));
        i := i + 1;
      }
      assert shown[..|shown|] == shown;
    }

    /** The Stop hook, given the loop guard of its event: what makes the pane go on. */
    method StopDrain(stopHookActive: bool) returns (reason: seq<Mail>)
      requires Distinct(inbox)
      modifies this
      ensures reason == if stopHookActive then [] else Taken(old(inbox), 5)
      ensures inbox == if stopHookActive then old(inbox) else Left(old(inbox), 5)
      ensures processed == Stored(old(processed), reason)
    {
      reason := [];
      var files := List();
      if |files| == 0 {
        NothingTaken(inbox, MAX_ATTACH);
        return;
      }
      if stopHookActive {
        return;
      }
      reason := files[..if |files| <= MAX_ATTACH then |files| else MAX_ATTACH];
      TakenIsReady(inbox, MAX_ATTACH);
      LeftAll(inbox, MAX_ATTACH);
      ProcessAll(reason);
    }

    /** The prompt hook: at most `maxAttach` bodies, each cut to `maxBytes` bytes. */
    method PromptDrain(maxAttach: nat, maxBytes: nat) returns (blocks: seq<Mail>, shown: seq<string>)
      requires Distinct(inbox)
      modifies this
      ensures blocks == Taken(old(inbox), maxAttach) && inbox == Left(old(inbox), maxAttach)
      ensures processed == Stored(old(processed), blocks)
      ensures |shown| == |blocks| && forall i :: 0 <= i < |shown| ==> shown[i] == Utf8.Preview(blocks[i].body, maxBytes)
    {
      var files := List();
      blocks := files[..if |files| <= maxAttach then |files| else maxAttach];
      TakenIsReady(inbox, maxAttach);
      LeftAll(inbox, maxAttach);
      ProcessAll(blocks);
      shown := Attach(blocks, maxBytes);
    }

    /** One wake of the watchdog: the message injected into the pane, if any. */
    method Wake(sight: Sight) returns (injected: Option<Mail>, ok: bool)
      requires Distinct(inbox)
      modifies this
      ensures inbox == Woken(old(inbox), sight)
      ensures injected == if Wakes(old(inbox), sight) then Some(old(inbox)[FirstAvailable(old(inbox))]) else None
      ensures ok <==> Wakes(old(inbox), sight) && sight.injection.Works?
      ensures processed == if ok then old(processed)[injected.value.name := Marked(injected.value)] else old(processed)
      ensures WakeOutcome(sight, old(inbox), old(processed), injected, ok, inbox, processed)
    {
      injected, ok := None, false;
      WokenMeans(sight, inbox, processed);
      if !sight.owner {
        return;
      }
      var i := 0;
      while i < |inbox| && !Available(inbox[i])
        invariant 0 <= i <= |inbox|
        invariant i + FirstAvailable(inbox[i..]) == FirstAvailable(inbox)
      {
        assert inbox[i..][1..] == inbox[i + 1..];
        i := i + 1;
      }
      if i == |inbox| || sight.typing || !sight.same {
        return;
      }
      var message := inbox[i];
      inbox := inbox[i := Marked(message)];
      injected := Some(message);
      match sight.injection
      case Works =>
        RemoveAt(inbox, i);
        Process(inbox[i]);
        ok := true;
      case Errors =>
        inbox := inbox[i := Uncertain(message)];
    }
  }

  lemma {:induction false} NothingTaken(inbox: seq<Mail>, k: nat)
    requires Ready(inbox) == []
    ensures Taken(inbox, k) == [] && Left(inbox, k) == inbox
  {
    if inbox != [] {
      NothingTaken(inbox[1..], k);
    }
  }

  lemma {:induction false} LeftAll(inbox: seq<Mail>, k: nat)
    ensures Left(inbox, |Taken(inbox, k)|) == Left(inbox, k)
    decreases inbox
  {
    if inbox != [] && k > 0 {
      LeftAll(inbox[1..], if Available(inbox[0]) then k - 1 else k);
      if !Available(inbox[0]) && |Taken(inbox, k)| == 0 {
        assert Left(inbox, 0) == [inbox[0]] + inbox[1..];
      }
    }
  }

  lemma {:induction false} ReadyDistinct(inbox: seq<Mail>)
    requires Distinct(inbox)
    ensures Distinct(Ready(inbox))
  {
    if inbox != [] {
      ReadyDistinct(inbox[1..]);
      ReadyFrom(inbox[1..]);
      if Available(inbox[0]) {
        DistinctCons(inbox[0], Ready(inbox[1..]));
      }
    }
  }

  // ---- runs ------------------------------------------------------------

  /** `shown` lists the names of messages in the order the pane saw them. */
  datatype State = State(inbox: seq<Mail>, processed: set<string>, arrived: set<string>, shown: seq<string>)

  const START := State([], {}, {}, [])

  datatype Event =
    | Arrive(m: Mail, at: nat)
    | Lease(i: nat, leased: bool)
    | Drain(bound: nat)
    | DrainDies(moved: nat)                // between moving messages and printing them
    | Woke(sight: Sight)
    | WakeDies(reached: bool)              // around the injection

  predicate Enabled(s: State, e: Event) {
    match e
    case Arrive(m, at) => m.name !in s.arrived && at <= |s.inbox|
    case Lease(i, _) => i < |s.inbox|
    case WakeDies(_) => FirstAvailable(s.inbox) < |s.inbox|
    case _ => true
  }

  function Names(ms: seq<Mail>): seq<string> {
    if ms == [] then [] else [ms[0].name] + Names(ms[1..])
  }

  function NameSet(ms: seq<Mail>): set<string> {
    set m | m in ms :: m.name
  }

  function Next(s: State, e: Event): State
    requires Enabled(s, e)
  {
    match e
    case Arrive(m, at) => s.(inbox := s.inbox[..at] + [m] + s.inbox[at..], arrived := s.arrived + {m.name})
    case Lease(i, leased) => s.(inbox := s.inbox[i := s.inbox[i].(leased := leased)])
    case Drain(bound) => Moved(s, bound).(shown := s.shown + Names(Taken(s.inbox, bound)))
    case DrainDies(moved) => Moved(s, moved)
    case Woke(sight) =>
      if !Wakes(s.inbox, sight) then s
      else
        var name := s.inbox[FirstAvailable(s.inbox)].name;
        s.(inbox := Woken(s.inbox, sight), shown := s.shown + [name],
           processed := if sight.injection.Works? then s.processed + {name} else s.processed)
    case WakeDies(reached) =>
      var i := FirstAvailable(s.inbox);
      s.(inbox := s.inbox[i := Marked(s.inbox[i])], shown := if reached then s.shown + [s.inbox[i].name] else s.shown)
  }

  function Moved(s: State, k: nat): State {
    s.(inbox := Left(s.inbox, k), processed := s.processed + NameSet(Taken(s.inbox, k)))
  }

  predicate Valid(s: State, es: seq<Event>)
    decreases es
  {
    es == [] || (Enabled(s, es[0]) && Valid(Next(s, es[0]), es[1..]))
  }

  function Exec(s: State, es: seq<Event>): State
    requires Valid(s, es)
    decreases es
  {
    if es == [] then s else Exec(Next(s, es[0]), es[1..])
  }

  predicate NoRepeat(names: seq<string>) {
    forall i, j :: 0 <= i < j < |names| ==> names[i] != names[j]
  }

  /** A message still in the inbox was shown only if it is marked as claimed. */
  predicate Inv(s: State) {
    Distinct(s.inbox) && NoRepeat(s.shown) &&
    (forall n :: n in s.shown ==> n in s.arrived) &&
    (forall m :: m in s.inbox ==> m.name in s.arrived && (m.name in s.shown ==> Claimed(m))) &&
    (forall n :: n in s.arrived ==> n in s.processed || n in NameSet(s.inbox))
  }

  lemma {:induction false} NamesAre(ms: seq<Mail>)
    ensures |Names(ms)| == |ms| && forall i :: 0 <= i < |ms| ==> Names(ms)[i] == ms[i].name
  {
    if ms != [] {
      NamesAre(ms[1..]);
    }
  }

  lemma {:induction false} TakenDistinct(inbox: seq<Mail>, k: nat)
    requires Distinct(inbox)
    ensures Distinct(Taken(inbox, k))
    ensures forall m, n :: m in Taken(inbox, k) && n in Left(inbox, k) ==> m.name != n.name
    decreases inbox
  {
    if inbox != [] && k > 0 {
      var rest := if Available(inbox[0]) then k - 1 else k;
      TakenDistinct(inbox[1..], rest);
      LeftFrom(inbox[1..], rest);
      if Available(inbox[0]) {
        DistinctCons(inbox[0], Taken(inbox[1..], rest));
      }
    }
  }

  lemma MovedKeeps(s: State, k: nat)
    requires Inv(s)
    ensures Inv(Moved(s, k))
    ensures forall m :: m in Left(s.inbox, k) ==> m.name !in NameSet(Taken(s.inbox, k))
  {
    LeftFrom(s.inbox, k);
    TakenDistinct(s.inbox, k);
    forall n | n in s.arrived ensures n in Moved(s, k).processed || n in NameSet(Left(s.inbox, k)) {
      if n !in s.processed {
        var m :| m in s.inbox && m.name == n;
        assert m in Left(s.inbox, k) || m in Taken(s.inbox, k);
      }
    }
  }

  lemma DrainKeeps(s: State, bound: nat)
    requires Inv(s)
    ensures Inv(Next(s, Drain(bound)))
  {
    MovedKeeps(s, bound);
    var taken := Taken(s.inbox, bound);
    TakenDistinct(s.inbox, bound);
    LeftFrom(s.inbox, bound);
    NamesAre(taken);
    assert forall i :: 0 <= i < |taken| ==> taken[i] in taken;
  }

  lemma ArriveKeeps(s: State, m: Mail, at: nat)
    requires Inv(s) && Enabled(s, Arrive(m, at))
    ensures Inv(Next(s, Arrive(m, at)))
  {
    var t := Next(s, Arrive(m, at));
    assert forall n :: n in t.inbox <==> n == m || n in s.inbox by {
      assert s.inbox == s.inbox[..at] + s.inbox[at..];
    }
    assert t.inbox[at] == m;
  }

  lemma ReplaceKeeps(s: State, i: nat, m: Mail)
    requires Inv(s) && i < |s.inbox| && m.name == s.inbox[i].name && (Claimed(s.inbox[i]) ==> Claimed(m))
    ensures Inv(s.(inbox := s.inbox[i := m]))
  {
    var inbox := s.inbox[i := m];
    assert forall k :: 0 <= k < |inbox| ==> inbox[k].name == s.inbox[k].name;
    forall n | n in NameSet(s.inbox) ensures n in NameSet(inbox) {
      var k :| 0 <= k < |s.inbox| && s.inbox[k].name == n;
      assert inbox[k] in inbox;
    }
  }

  /** Showing a message is recorded once, provided it is marked or gone. */
  lemma ShowKeeps(s: State, name: string)
    requires Inv(s) && name in s.arrived && name !in s.shown
    requires forall m :: m in s.inbox && m.name == name ==> Claimed(m)
    ensures Inv(s.(shown := s.shown + [name]))
  {
  }

  lemma RemoveKeeps(s: State, i: nat)
    requires Inv(s) && i < |s.inbox|
    ensures var rest := s.inbox[..i] + s.inbox[i + 1..];
            Inv(s.(inbox := rest, processed := s.processed + {s.inbox[i].name})) &&
            forall m :: m in rest ==> m.name != s.inbox[i].name
  {
    var rest := s.inbox[..i] + s.inbox[i + 1..];
    forall n | n in NameSet(s.inbox) && n != s.inbox[i].name ensures n in NameSet(rest) {
      var k :| 0 <= k < |s.inbox| && s.inbox[k].name == n;
      assert s.inbox[k] == rest[if k < i then k else k - 1];
    }
  }

  lemma WakeKeeps(s: State, sight: Sight)
    requires Inv(s) && Wakes(s.inbox, sight)
    ensures Inv(Next(s, Woke(sight)))
  {
    var i := FirstAvailable(s.inbox);
    assert s.inbox[i] in s.inbox;
    if sight.injection.Works? {
      RemoveKeeps(s, i);
      ShowKeeps(s.(inbox := Woken(s.inbox, sight), processed := s.processed + {s.inbox[i].name}), s.inbox[i].name);
    } else {
      ReplaceKeeps(s, i, Uncertain(s.inbox[i]));
      ShowKeeps(s.(inbox := Woken(s.inbox, sight)), s.inbox[i].name);
    }
  }

  lemma WakeDiesKeeps(s: State, reached: bool)
    requires Inv(s) && Enabled(s, WakeDies(reached))
    ensures Inv(Next(s, WakeDies(reached)))
  {
    var i := FirstAvailable(s.inbox);
    assert s.inbox[i] in s.inbox;
    ReplaceKeeps(s, i, Marked(s.inbox[i]));
    if reached {
      ShowKeeps(s.(inbox := s.inbox[i := Marked(s.inbox[i])]), s.inbox[i].name);
    }
  }

  lemma StepKeeps(s: State, e: Event)
    requires Inv(s) && Enabled(s, e)
    ensures Inv(Next(s, e))
  {
    match e
    case Arrive(m, at) => ArriveKeeps(s, m, at);
    case Lease(i, leased) => ReplaceKeeps(s, i, s.inbox[i].(leased := leased));
    case Drain(bound) => DrainKeeps(s, bound);
    case DrainDies(moved) => MovedKeeps(s, moved);
    case Woke(sight) =>
      if Wakes(s.inbox, sight) {
        WakeKeeps(s, sight);
      }
    case WakeDies(reached) => WakeDiesKeeps(s, reached);
  }

  lemma {:induction false} RunKeeps(s: State, es: seq<Event>)
    requires Inv(s) && Valid(s, es)
    ensures Inv(Exec(s, es))
    decreases es
  {
    if es != [] {
      StepKeeps(s, es[0]);
      RunKeeps(Next(s, es[0]), es[1..]);
    }
  }

  predicate HasNative(inbox: seq<Mail>, name: string) {
    exists i :: 0 <= i < |inbox| && inbox[i].name == name && inbox[i].channel
  }

  lemma NativeStep(s: State, e: Event, name: string)
    requires Inv(s) && Enabled(s, e) && HasNative(s.inbox, name)
    ensures HasNative(Next(s, e).inbox, name) && (name in Next(s, e).shown ==> name in s.shown)
  {
    var j :| 0 <= j < |s.inbox| && s.inbox[j].name == name && s.inbox[j].channel;
    match e
    case Arrive(m, at) =>
      assert Next(s, e).inbox[if j < at then j else j + 1] == s.inbox[j];
    case Lease(i, leased) =>
      assert Next(s, e).inbox[j].name == name && Next(s, e).inbox[j].channel;
    case Drain(bound) => NativeStays(s, bound, j);
    case DrainDies(moved) => NativeStays(s, moved, j);
    case Woke(sight) =>
      if Wakes(s.inbox, sight) {
        NativeNotWoken(s, sight, j);
      }
    case WakeDies(reached) =>
      assert FirstAvailable(s.inbox) != j;
      assert Next(s, e).inbox[j] == s.inbox[j];
  }

  lemma NativeStays(s: State, k: nat, j: nat)
    requires Inv(s) && j < |s.inbox| && s.inbox[j].channel
    ensures HasNative(Left(s.inbox, k), s.inbox[j].name) && s.inbox[j].name !in Names(Taken(s.inbox, k))
  {
    DrainTakes(s.inbox, k);
    TakenDistinct(s.inbox, k);
    NamesAre(Taken(s.inbox, k));
    assert s.inbox[j] in Left(s.inbox, k);
  }

  lemma NativeNotWoken(s: State, sight: Sight, j: nat)
    requires Inv(s) && j < |s.inbox| && s.inbox[j].channel && Wakes(s.inbox, sight)
    ensures HasNative(Woken(s.inbox, sight), s.inbox[j].name)
    ensures s.inbox[FirstAvailable(s.inbox)].name != s.inbox[j].name
  {
    var i := FirstAvailable(s.inbox);
    assert i != j;
    var t := Woken(s.inbox, sight);
    if sight.injection.Works? {
      assert t[if j < i then j else j - 1] == s.inbox[j];
    } else {
      assert t[j] == s.inbox[j];
    }
  }

  /** Over any run a native-channel message stays in the inbox and is never shown by
      a drain or a wake. */
  lemma {:induction false} NativeMailUntouched(s: State, es: seq<Event>, name: string)
    requires Inv(s) && Valid(s, es) && HasNative(s.inbox, name) && name !in s.shown
    ensures HasNative(Exec(s, es).inbox, name) && name !in Exec(s, es).shown
    decreases es
  {
    if es != [] {
      NativeStep(s, es[0], name);
      StepKeeps(s, es[0]);
      NativeMailUntouched(Next(s, es[0]), es[1..], name);
    }
  }

  /** Over any run of arrivals, lease changes, drains of any size, wakes and crashes
      the pane sees every message at most once, and none is ever lost from disk. */
  lemma ShownAtMostOnce(es: seq<Event>, i: nat, j: nat, name: string)
    requires Valid(START, es) && i < j < |Exec(START, es).shown|
    ensures Exec(START, es).shown[i] != Exec(START, es).shown[j]
    ensures name in Exec(START, es).arrived ==>
              name in Exec(START, es).processed || exists m :: m in Exec(START, es).inbox && m.name == name
  {
    RunKeeps(START, es);
  }
}
