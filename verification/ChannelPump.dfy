/** Native channel delivery for one label: pumps connect, are confirmed by a
    nonce, scan the inbox and notify; receipts, reconnects, re-registration and
    crashes happen at any point. */
module ChannelPump {
  import opened Prelude

  datatype Mark = Unmarked | Dispatching | Sent | Uncertain | Failed

  /** The session and the process a label belongs to, or a message was accepted for;
      empty strings stand for absent fields. */
  datatype Owner = Owner(session: string, process: string)

  const NOBODY := Owner("", "")

  datatype Job = Job(inbox: bool, mark: Mark, recipient: Owner)

  /** `owner` is the label's owner when the record was read. */
  datatype Pc =
    | Idle
    | Scanning
    | Read(job: string, owner: Owner)     // record read outside the locks, no channel state on it
    | Marked(job: string, owner: Owner)   // `dispatching` written under the locks
    | Notified(job: string)
    | Erred(job: string)                  // the notification raised

  datatype Pump = Pump(nonce: string, ready: bool, pc: Pc)

  datatype Notice = Notice(connection: string, job: string, owner: Owner)

  datatype State = State(
    exclusive: bool,              // whether scans of different pumps are kept apart
    recorded: Option<string>,     // the connection in the registry entry
    owner: Owner,                 // session and process in the registry entry
    pumps: map<string, Pump>,
    jobs: map<string, Job>,
    scanner: Option<string>,
    // history
    started: set<string>,
    notices: seq<Notice>)

  function Create(exclusive: bool): State {
    State(exclusive, None, NOBODY, map[], map[], None, {}, [])
  }

  datatype Action =
    | Arrive(job: string, named: bool)  // whether the sender recorded the recipient
    | Receipt(job: string)
    | Start(c: string, nonce: string)
    | Connect(c: string)
    | Confirm(c: string, nonce: string)
    | Register(owner: Owner, keeps: bool)   // label re-registered or removed
    | BeginScan(c: string)
    | ReadJob(c: string, job: string)
    | RejectJob(c: string, job: string, locked: bool)   // the recipient's process is another one
    | MarkJob(c: string, locked: bool)  // whether both locks were free
    | Notify(c: string)
    | NotifyRaises(c: string, delivered: bool)
    | Update(c: string, locked: bool)
    | EndScan(c: string)
    | Close(c: string)
    | Crash(c: string)

  predicate AtPc(s: State, c: string, pc: Pc) {
    c in s.pumps && s.pumps[c].pc == pc
  }

  predicate Pending(s: State, job: string) {
    job in s.jobs && s.jobs[job].inbox
  }

  predicate SameSession(recipient: Owner, owner: Owner) {
    recipient.session != "" ==> recipient.session == owner.session
  }

  predicate SameProcess(recipient: Owner, owner: Owner) {
    recipient.process != "" ==> recipient.process == owner.process
  }

  /** Pending, and without channel state. */
  predicate Open(s: State, job: string) {
    Pending(s, job) && s.jobs[job].mark.Unmarked?
  }

  predicate Enabled(s: State, a: Action) {
    match a
    case Arrive(job, _) => job !in s.jobs
    case Receipt(job) => job in s.jobs
    case Start(c, _) => c !in s.started
    case Connect(c) => c in s.pumps
    case Confirm(c, _) => c in s.pumps
    case Register(_, _) => true
    case BeginScan(c) =>
      AtPc(s, c, Idle) && s.pumps[c].ready && s.recorded == Some(c) && (s.exclusive ==> s.scanner.None?)
    case ReadJob(c, job) =>
      AtPc(s, c, Scanning) && s.recorded == Some(c) && Open(s, job) &&
      SameSession(s.jobs[job].recipient, s.owner) && SameProcess(s.jobs[job].recipient, s.owner)
    case RejectJob(c, job, _) =>
      AtPc(s, c, Scanning) && s.recorded == Some(c) && Open(s, job) &&
      SameSession(s.jobs[job].recipient, s.owner) && !SameProcess(s.jobs[job].recipient, s.owner)
    case MarkJob(c, _) => c in s.pumps && s.pumps[c].pc.Read?
    case Notify(c) => c in s.pumps && s.pumps[c].pc.Marked?
    case NotifyRaises(c, _) => c in s.pumps && s.pumps[c].pc.Marked?
    case Update(c, _) => c in s.pumps && (s.pumps[c].pc.Notified? || s.pumps[c].pc.Erred?)
    case EndScan(c) => AtPc(s, c, Scanning)
    case Close(c) => c in s.pumps
    case Crash(c) => c in s.pumps
  }

  function To(s: State, c: string, pc: Pc): State
    requires c in s.pumps
  {
    s.(pumps := s.pumps[c := s.pumps[c].(pc := pc)])
  }

  function Gone(s: State, c: string): State {
    s.(pumps := s.pumps - {c}, scanner := if s.scanner == Some(c) then None else s.scanner)
  }

  function Marking(s: State, job: string, mark: Mark): State {
    if Pending(s, job) then s.(jobs := s.jobs[job := Job(true, mark, s.jobs[job].recipient)]) else s
  }

  function DoMark(s: State, c: string, locked: bool): State
    requires c in s.pumps && s.pumps[c].pc.Read?
  {
    var Read(job, owner) := s.pumps[c].pc;
    if locked && Pending(s, job) then Marking(To(s, c, Marked(job, owner)), job, Dispatching)
    else To(s, c, Scanning)
  }

  /** After the notification: `sent`, or `uncertain` and the pump ends. */
  function DoUpdate(s: State, c: string, locked: bool): State
    requires c in s.pumps && (s.pumps[c].pc.Notified? || s.pumps[c].pc.Erred?)
  {
    var pc := s.pumps[c].pc;
    var t := if locked then Marking(s, pc.job, if pc.Erred? then Uncertain else Sent) else s;
    if pc.Erred? then Gone(t, c) else To(t, c, Scanning)
  }

  function NoticeOf(s: State, c: string): Notice
    requires c in s.pumps && s.pumps[c].pc.Marked?
  {
    Notice(c, s.pumps[c].pc.job, s.pumps[c].pc.owner)
  }

  function Next(s: State, a: Action): State
    requires Enabled(s, a)
  {
    match a
    case Arrive(job, named) =>
      s.(jobs := s.jobs[job := Job(true, Unmarked, if named then s.owner else NOBODY)])
    case Receipt(job) => s.(jobs := s.jobs[job := s.jobs[job].(inbox := false)])
    case Start(c, nonce) => s.(pumps := s.pumps[c := Pump(nonce, false, Idle)], started := s.started + {c})
    case Connect(c) => s.(recorded := Some(c))
    case Confirm(c, nonce) =>
      if nonce == s.pumps[c].nonce && s.recorded == Some(c)
      then s.(pumps := s.pumps[c := s.pumps[c].(ready := true)])
      else s
    case Register(owner, keeps) => s.(owner := owner, recorded := if keeps then s.recorded else None)
    case BeginScan(c) => To(s, c, Scanning).(scanner := Some(c))
    case ReadJob(c, job) => To(s, c, Read(job, s.owner))
    case RejectJob(c, job, locked) => if locked then Marking(s, job, Failed) else s
    case MarkJob(c, locked) => DoMark(s, c, locked)
    case Notify(c) => To(s, c, Notified(s.pumps[c].pc.job)).(notices := s.notices + [NoticeOf(s, c)])
    case NotifyRaises(c, delivered) =>
      To(s, c, Erred(s.pumps[c].pc.job)).(notices := s.notices + if delivered then [NoticeOf(s, c)] else [])
    case Update(c, locked) => DoUpdate(s, c, locked)
    case EndScan(c) => To(s, c, Idle).(scanner := if s.scanner == Some(c) then None else s.scanner)
    case Close(c) => s.(pumps := s.pumps[c := s.pumps[c].(ready := false)])
    case Crash(c) => Gone(s, c)
  }

  predicate Valid(s: State, acts: seq<Action>)
    decreases acts
  {
    acts == [] || (Enabled(s, acts[0]) && Valid(Next(s, acts[0]), acts[1..]))
  }

  function Exec(s: State, acts: seq<Action>): State
    requires Valid(s, acts)
    decreases acts
  {
    if acts == [] then s else Exec(Next(s, acts[0]), acts[1..])
  }

  // ---- nothing is sent before the handshake ----------------------------

  /** Among these steps the connection was started with a nonce, recorded in the
      registry, and then confirmed by that very nonce. */
  predicate Handshaken(acts: seq<Action>, c: string) {
    exists k :: 0 <= k < |acts| && acts[k].Confirm? && acts[k].c == c &&
                Start(c, acts[k].nonce) in acts[..k] && Connect(c) in acts[..k]
  }

  /** What steps say about connections: the nonces they started with, which were
      recorded, and which were confirmed by their nonce after both. */
  datatype Past = Past(starts: set<(string, string)>, connects: set<string>, shaken: set<string>)

  function Since(h: Past, a: Action): Past {
    match a
    case Start(c, nonce) => h.(starts := h.starts + {(c, nonce)})
    case Connect(c) => h.(connects := h.connects + {c})
    case Confirm(c, nonce) => if (c, nonce) in h.starts && c in h.connects then h.(shaken := h.shaken + {c}) else h
    case _ => h
  }

  function PastOf(acts: seq<Action>): Past {
    if acts == [] then Past({}, {}, {}) else Since(PastOf(acts[..|acts| - 1]), acts[|acts| - 1])
  }

  lemma {:induction false} PastHappened(acts: seq<Action>)
    ensures forall c, nonce :: (c, nonce) in PastOf(acts).starts ==> Start(c, nonce) in acts
    ensures forall c :: c in PastOf(acts).connects ==> Connect(c) in acts
  {
    if acts != [] {
      PastHappened(acts[..|acts| - 1]);
      assert acts[|acts| - 1] in acts && forall b :: b in acts[..|acts| - 1] ==> b in acts;
    }
  }

  lemma {:induction false} ShakenIsHandshaken(acts: seq<Action>, c: string)
    requires c in PastOf(acts).shaken
    ensures Handshaken(acts, c)
  {
    var before, a := acts[..|acts| - 1], acts[|acts| - 1];
    assert acts == before + [a];
    if c in PastOf(before).shaken {
      ShakenIsHandshaken(before, c);
      HandshakeStays(before, a, c);
    } else {
      PastHappened(before);
      assert acts[|before|] == a && acts[..|before|] == before;
    }
  }

  lemma HandshakeStays(done: seq<Action>, a: Action, c: string)
    requires Handshaken(done, c)
    ensures Handshaken(done + [a], c)
  {
    var k :| 0 <= k < |done| && done[k].Confirm? && done[k].c == c &&
             Start(c, done[k].nonce) in done[..k] && Connect(c) in done[..k];
    assert (done + [a])[k] == done[k] && (done + [a])[..k] == done[..k];
  }

  predicate TraceInv(s: State, h: Past) {
    (s.recorded.Some? ==> s.recorded.value in h.connects) &&
    (forall c :: c in s.pumps ==> (c, s.pumps[c].nonce) in h.starts) &&
    (forall c :: c in s.pumps && (s.pumps[c].ready || s.pumps[c].pc != Idle) ==> c in h.shaken) &&
    (forall i :: 0 <= i < |s.notices| ==> s.notices[i].connection in h.shaken)
  }

  lemma NoticeTraced(s: State, h: Past, a: Action)
    requires TraceInv(s, h) && Enabled(s, a) && (a.Notify? || a.NotifyRaises?)
    ensures TraceInv(Next(s, a), h)
  {
  }

  lemma ShakeTraced(s: State, h: Past, a: Action)
    requires TraceInv(s, h) && Enabled(s, a) && (a.Start? || a.Connect? || a.Confirm?)
    ensures TraceInv(Next(s, a), Since(h, a))
  {
  }

  lemma TraceStep(s: State, h: Past, a: Action)
    requires TraceInv(s, h) && Enabled(s, a)
    ensures TraceInv(Next(s, a), Since(h, a))
  {
    if a.Notify? || a.NotifyRaises? {
      NoticeTraced(s, h, a);
    } else if a.Start? || a.Connect? || a.Confirm? {
      ShakeTraced(s, h, a);
    } else {
      assert Next(s, a).notices == s.notices;
    }
  }

  lemma {:induction false} TraceRun(s: State, done: seq<Action>, acts: seq<Action>)
    requires TraceInv(s, PastOf(done)) && Valid(s, acts)
    ensures TraceInv(Exec(s, acts), PastOf(done + acts))
    decreases acts
  {
    if acts != [] {
      TraceStep(s, PastOf(done), acts[0]);
      assert (done + [acts[0]])[..|done|] == done;
      TraceRun(Next(s, acts[0]), done + [acts[0]], acts[1..]);
      assert done + [acts[0]] + acts[1..] == done + acts;
    } else {
      assert done + acts == done;
    }
  }

  // ---- nobody gets another owner's message -------------------------------

  /** The message was accepted for nobody in particular, or for this owner. */
  predicate MeantFor(recipient: Owner, owner: Owner) {
    (recipient.session == "" || recipient.session == owner.session) &&
    (recipient.process == "" || recipient.process == owner.process)
  }

  predicate OwnerInv(s: State) {
    (forall c :: c in s.pumps && (s.pumps[c].pc.Read? || s.pumps[c].pc.Marked?) ==>
       s.pumps[c].pc.job in s.jobs && MeantFor(s.jobs[s.pumps[c].pc.job].recipient, s.pumps[c].pc.owner)) &&
    (forall i :: 0 <= i < |s.notices| ==>
       s.notices[i].job in s.jobs && MeantFor(s.jobs[s.notices[i].job].recipient, s.notices[i].owner))
  }

  lemma NoticeOwned(s: State, a: Action)
    requires OwnerInv(s) && Enabled(s, a) && (a.Notify? || a.NotifyRaises?)
    ensures OwnerInv(Next(s, a))
  {
  }

  lemma ReadOwned(s: State, a: Action)
    requires OwnerInv(s) && Enabled(s, a) && (a.ReadJob? || a.MarkJob?)
    ensures OwnerInv(Next(s, a))
  {
  }

  lemma OwnerStep(s: State, a: Action)
    requires OwnerInv(s) && Enabled(s, a)
    ensures OwnerInv(Next(s, a))
  {
    if a.Notify? || a.NotifyRaises? {
      NoticeOwned(s, a);
    } else if a.ReadJob? || a.MarkJob? {
      ReadOwned(s, a);
    } else {
      assert Next(s, a).notices == s.notices;
    }
  }

  lemma {:induction false} OwnerRun(s: State, acts: seq<Action>)
    requires OwnerInv(s) && Valid(s, acts)
    ensures OwnerInv(Exec(s, acts))
    decreases acts
  {
    if acts != [] {
      OwnerStep(s, acts[0]);
      OwnerRun(Next(s, acts[0]), acts[1..]);
    }
  }

  // ---- at most one notification per message ----------------------------

  predicate Noticed(s: State, job: string) {
    exists i :: 0 <= i < |s.notices| && s.notices[i].job == job
  }

  predicate OncePerJob(notices: seq<Notice>) {
    forall i, j :: 0 <= i < j < |notices| ==> notices[i].job != notices[j].job
  }

  /** Somebody else has notified the job, or has marked it and is about to. */
  predicate Rival(s: State, c: string, job: string) {
    Noticed(s, job) || exists d :: d in s.pumps && d != c && s.pumps[d].pc.Marked? && s.pumps[d].pc.job == job
  }

  /** A step that puts a mark on a pending job. */
  predicate Marks(s: State, a: Action)
    requires Enabled(s, a)
  {
    a.MarkJob? && a.locked && Pending(s, s.pumps[a.c].pc.job)
  }

  predicate Unrivalled(s: State, a: Action)
    requires Enabled(s, a)
  {
    Marks(s, a) ==> !Rival(s, a.c, s.pumps[a.c].pc.job)
  }

  predicate AllUnrivalled(s: State, acts: seq<Action>)
    requires Valid(s, acts)
    decreases acts
  {
    acts == [] || (Unrivalled(s, acts[0]) && AllUnrivalled(Next(s, acts[0]), acts[1..]))
  }

  /** A mark is fresh when the record it overwrites carries no channel state: the
      check made at reading time still holds at writing time. */
  predicate FreshMark(s: State, a: Action)
    requires Enabled(s, a)
  {
    Marks(s, a) ==> s.jobs[s.pumps[a.c].pc.job].mark.Unmarked?
  }

  predicate AllMarksFresh(s: State, acts: seq<Action>)
    requires Valid(s, acts)
    decreases acts
  {
    acts == [] || (FreshMark(s, acts[0]) && AllMarksFresh(Next(s, acts[0]), acts[1..]))
  }

  predicate OnceInv(s: State) {
    OncePerJob(s.notices) &&
    (forall job :: job in s.jobs && s.jobs[job].mark.Unmarked? ==> !Noticed(s, job)) &&
    (forall i :: 0 <= i < |s.notices| ==> s.notices[i].job in s.jobs) &&
    (forall c :: c in s.pumps && s.pumps[c].pc.Marked? ==>
       s.pumps[c].pc.job in s.jobs && !s.jobs[s.pumps[c].pc.job].mark.Unmarked? && !Noticed(s, s.pumps[c].pc.job)) &&
    (forall c, d :: c in s.pumps && d in s.pumps && c != d && s.pumps[c].pc.Marked? && s.pumps[d].pc.Marked? ==>
       s.pumps[c].pc.job != s.pumps[d].pc.job)
  }

  lemma NoticeAppend(s: State, t: State, n: Notice)
    requires t.notices == s.notices + [n]
    ensures forall job :: Noticed(t, job) <==> Noticed(s, job) || job == n.job
  {
    forall job
      ensures Noticed(t, job) <==> Noticed(s, job) || job == n.job
    {
      if i :| 0 <= i < |s.notices| && s.notices[i].job == job {
        assert t.notices[i].job == job;
      }
      assert t.notices[|s.notices|].job == n.job;
    }
  }

  lemma NotifyKeepsOnce(s: State, c: string, pc: Pc)
    requires OnceInv(s) && c in s.pumps && s.pumps[c].pc.Marked? && !pc.Marked?
    ensures OnceInv(To(s, c, pc).(notices := s.notices + [NoticeOf(s, c)]))
  {
    var n := NoticeOf(s, c);
    var t := To(s, c, pc).(notices := s.notices + [n]);
    NoticeAppend(s, t, n);
    assert forall i :: 0 <= i < |s.notices| ==> Noticed(s, s.notices[i].job);
  }

  lemma MarkKeepsOnce(s: State, c: string, locked: bool)
    requires OnceInv(s) && Enabled(s, MarkJob(c, locked)) && Unrivalled(s, MarkJob(c, locked))
    ensures OnceInv(DoMark(s, c, locked))
  {
    var t := DoMark(s, c, locked);
    assert t.notices == s.notices;
    assert forall job :: Noticed(t, job) <==> Noticed(s, job);
  }

  lemma UpdateKeepsOnce(s: State, c: string, locked: bool)
    requires OnceInv(s) && Enabled(s, Update(c, locked))
    ensures OnceInv(DoUpdate(s, c, locked))
  {
    var t := DoUpdate(s, c, locked);
    assert t.notices == s.notices;
    assert forall job :: Noticed(t, job) <==> Noticed(s, job);
  }

  lemma OnceStep(s: State, a: Action)
    requires OnceInv(s) && Enabled(s, a) && Unrivalled(s, a)
    ensures OnceInv(Next(s, a))
  {
    match a {
      case MarkJob(c, locked) => MarkKeepsOnce(s, c, locked);
      case Update(c, locked) => UpdateKeepsOnce(s, c, locked);
      case Arrive(job, named) => ArriveKeepsOnce(s, job, named);
      case Notify(c) => NotifyKeepsOnce(s, c, Notified(s.pumps[c].pc.job));
      case NotifyRaises(c, delivered) =>
        if delivered {
          NotifyKeepsOnce(s, c, Erred(s.pumps[c].pc.job));
        } else {
          assert s.notices + [] == s.notices;
          SameNoticesKeepOnce(s, a);
        }
      case _ => SameNoticesKeepOnce(s, a);
    }
  }

  lemma ArriveKeepsOnce(s: State, job: string, named: bool)
    requires OnceInv(s) && Enabled(s, Arrive(job, named))
    ensures OnceInv(Next(s, Arrive(job, named)))
  {
    var t := Next(s, Arrive(job, named));
    assert forall j :: Noticed(t, j) <==> Noticed(s, j);
    assert !Noticed(s, job);
  }

  lemma JobsKeepOnce(s: State, a: Action)
    requires OnceInv(s) && Enabled(s, a) && (a.Receipt? || a.RejectJob?)
    ensures OnceInv(Next(s, a))
  {
    var t := Next(s, a);
    assert forall job :: Noticed(t, job) <==> Noticed(s, job);
  }

  lemma SameNoticesKeepOnce(s: State, a: Action)
    requires OnceInv(s) && Enabled(s, a) && Next(s, a).notices == s.notices
    requires !a.MarkJob? && !a.Update? && !a.Arrive?
    ensures OnceInv(Next(s, a))
  {
    if a.Receipt? || a.RejectJob? {
      JobsKeepOnce(s, a);
    } else {
      var t := Next(s, a);
      assert t.jobs == s.jobs;
      assert forall job :: Noticed(t, job) <==> Noticed(s, job);
    }
  }

  /** As long as no mark has a rival, each message is notified at most once, across
      crashes, reconnects and any overlap of scans. */
  lemma {:induction false} UnrivalledMarksNotifyOnce(s: State, acts: seq<Action>)
    requires OnceInv(s) && Valid(s, acts) && AllUnrivalled(s, acts)
    ensures OnceInv(Exec(s, acts))
    decreases acts
  {
    if acts != [] {
      OnceStep(s, acts[0]);
      UnrivalledMarksNotifyOnce(Next(s, acts[0]), acts[1..]);
    }
  }

  /** A pump that looked at the record again under the locks would have no rival. */
  lemma {:induction false} FreshMarksNotifyOnce(s: State, acts: seq<Action>)
    requires OnceInv(s) && Valid(s, acts) && AllMarksFresh(s, acts)
    ensures AllUnrivalled(s, acts) && OnceInv(Exec(s, acts))
    decreases acts
  {
    if acts != [] {
      OnceStep(s, acts[0]);
      FreshMarksNotifyOnce(Next(s, acts[0]), acts[1..]);
    }
  }

  predicate ExclusiveInv(s: State) {
    s.exclusive &&
    (forall c :: c in s.pumps && s.pumps[c].pc != Idle ==> s.scanner == Some(c)) &&
    (forall c :: c in s.pumps && s.pumps[c].pc.Read? ==>
       s.pumps[c].pc.job in s.jobs && s.jobs[s.pumps[c].pc.job].mark.Unmarked?)
  }

  lemma ExclusiveStep(s: State, a: Action)
    requires ExclusiveInv(s) && Enabled(s, a)
    ensures ExclusiveInv(Next(s, a)) && FreshMark(s, a)
  {
  }

  lemma {:induction false} ExclusiveRunsMarkFresh(s: State, acts: seq<Action>)
    requires ExclusiveInv(s) && Valid(s, acts)
    ensures AllMarksFresh(s, acts)
    decreases acts
  {
    if acts != [] {
      ExclusiveStep(s, acts[0]);
      ExclusiveRunsMarkFresh(Next(s, acts[0]), acts[1..]);
    }
  }

  // ---- what every run guarantees ---------------------------------------

  /** No message is sent on a connection before the connection was recorded and its
      own nonce confirmed: every notice of every run, and so of every prefix of it,
      has its handshake behind it. */
  lemma NothingBeforeHandshake(exclusive: bool, acts: seq<Action>, i: int)
    requires Valid(Create(exclusive), acts)
    requires 0 <= i < |Exec(Create(exclusive), acts).notices|
    ensures Handshaken(acts, Exec(Create(exclusive), acts).notices[i].connection)
  {
    TraceRun(Create(exclusive), [], acts);
    assert [] + acts == acts;
    ShakenIsHandshaken(acts, Exec(Create(exclusive), acts).notices[i].connection);
  }

  /** Nobody is notified of another owner's message: whatever registrations happen
      meanwhile, a message accepted for a session or a process is only ever sent
      where the label belonged to that session and process when it was read. */
  lemma NoticesReachTheOwner(exclusive: bool, acts: seq<Action>, i: int)
    requires Valid(Create(exclusive), acts)
    requires 0 <= i < |Exec(Create(exclusive), acts).notices|
    ensures var s := Exec(Create(exclusive), acts);
            s.notices[i].job in s.jobs && MeantFor(s.jobs[s.notices[i].job].recipient, s.notices[i].owner)
  {
    OwnerRun(Create(exclusive), acts);
  }

  /** With scans that do not overlap, every message is notified at most once. */
  lemma NotifiedAtMostOnce(acts: seq<Action>)
    requires Valid(Create(true), acts)
    ensures OncePerJob(Exec(Create(true), acts).notices)
  {
    ExclusiveRunsMarkFresh(Create(true), acts);
    FreshMarksNotifyOnce(Create(true), acts);
  }

  lemma {:induction false} RunAppend(s: State, first: seq<Action>, second: seq<Action>)
    requires Valid(s, first) && Valid(Exec(s, first), second)
    ensures Valid(s, first + second)
    ensures Exec(s, first + second) == Exec(Exec(s, first), second)
    decreases first
  {
    if first == [] {
      assert first + second == second;
    } else {
      RunAppend(Next(s, first[0]), first[1..], second);
      assert (first + second)[0] == first[0] && (first + second)[1..] == first[1..] + second;
    }
  }

  lemma RunThen(s: State, acts: seq<Action>, a: Action)
    requires Valid(s, acts) && Enabled(Exec(s, acts), a)
    ensures Valid(s, acts + [a]) && Exec(s, acts + [a]) == Next(Exec(s, acts), a)
  {
    var t := Exec(s, acts);
    assert [a][1..] == [];
    assert Valid(t, [a]);
    RunAppend(s, acts, [a]);
  }

  // ---- exactly when a mark is safe ---------------------------------------

  /** Some continuation without further rivalry notifies a message twice. */
  ghost predicate Repeats(s: State) {
    exists acts :: Valid(s, acts) && AllUnrivalled(s, acts) && !OncePerJob(Exec(s, acts).notices)
  }

  lemma RepeatsHere(s: State, i: nat, j: nat)
    requires i < j < |s.notices| && s.notices[i].job == s.notices[j].job
    ensures Repeats(s)
  {
    assert Valid(s, []) && AllUnrivalled(s, []) && Exec(s, []) == s;
  }

  lemma NotifyFirst(s: State, c: string)
    requires Enabled(s, Notify(c)) && Repeats(Next(s, Notify(c)))
    ensures Repeats(s)
  {
    var t := Next(s, Notify(c));
    var rest :| Valid(t, rest) && AllUnrivalled(t, rest) && !OncePerJob(Exec(t, rest).notices);
    var acts := [Notify(c)] + rest;
    assert acts[0] == Notify(c) && acts[1..] == rest;
    assert Valid(s, acts) && AllUnrivalled(s, acts) && Exec(s, acts) == Exec(t, rest);
  }

  /** Two pumps are about to notify the same job, or one is and it was notified. */
  lemma RivalsRepeat(s: State, c: string)
    requires c in s.pumps && s.pumps[c].pc.Marked? && Rival(s, c, s.pumps[c].pc.job)
    ensures Repeats(s)
  {
    var job := s.pumps[c].pc.job;
    var last := NoticeOf(s, c);
    if Noticed(s, job) {
      var i :| 0 <= i < |s.notices| && s.notices[i].job == job;
      var t := Next(s, Notify(c));
      assert t.notices[i] == s.notices[i] && t.notices[|s.notices|] == last;
      RepeatsHere(t, i, |s.notices|);
    } else {
      var d :| d in s.pumps && d != c && s.pumps[d].pc.Marked? && s.pumps[d].pc.job == job;
      var t := Next(s, Notify(d));
      var u := Next(t, Notify(c));
      var n := |s.notices|;
      assert u.notices[n] == NoticeOf(s, d) && u.notices[n + 1] == last;
      RepeatsHere(u, n, n + 1);
      NotifyFirst(t, c);
      NotifyFirst(s, d);
      return;
    }
    NotifyFirst(s, c);
  }

  /** A pump that puts its mark in spite of a rival notifies a second time. */
  lemma RivalMarkRepeats(s: State, c: string)
    requires Enabled(s, MarkJob(c, true)) && Marks(s, MarkJob(c, true)) && Rival(s, c, s.pumps[c].pc.job)
    ensures Repeats(Next(s, MarkJob(c, true)))
  {
    var job := s.pumps[c].pc.job;
    var t := Next(s, MarkJob(c, true));
    assert t.pumps[c].pc.Marked? && t.pumps[c].pc.job == job && t.notices == s.notices;
    if Noticed(s, job) {
      assert Noticed(t, job);
    } else {
      var d :| d in s.pumps && d != c && s.pumps[d].pc.Marked? && s.pumps[d].pc.job == job;
      assert d in t.pumps && t.pumps[d].pc == s.pumps[d].pc;
    }
    RivalsRepeat(t, c);
  }

  lemma InvariantNeverRepeats(s: State)
    requires OnceInv(s)
    ensures !Repeats(s)
  {
    forall acts | Valid(s, acts) && AllUnrivalled(s, acts) ensures OncePerJob(Exec(s, acts).notices) {
      UnrivalledMarksNotifyOnce(s, acts);
    }
  }

  /** Exactly when a mark is safe, however scans overlap. After any run without
      rivalry, no continuation without rivalry of a mark notifies a message twice
      if and only if the mark has no rival itself. */
  lemma MarkIsSafeIffUnrivalled(acts: seq<Action>, c: string)
    requires Valid(Create(false), acts) && AllUnrivalled(Create(false), acts)
    requires var s := Exec(Create(false), acts); Enabled(s, MarkJob(c, true)) && Marks(s, MarkJob(c, true))
    ensures var s := Exec(Create(false), acts);
            !Repeats(Next(s, MarkJob(c, true))) <==> !Rival(s, c, s.pumps[c].pc.job)
  {
    UnrivalledMarksNotifyOnce(Create(false), acts);
    var s := Exec(Create(false), acts);
    if Rival(s, c, s.pumps[c].pc.job) {
      RivalMarkRepeats(s, c);
    } else {
      OnceStep(s, MarkJob(c, true));
      InvariantNeverRepeats(Next(s, MarkJob(c, true)));
    }
  }

  /** The same for the invariant itself, in any state that keeps it. */
  lemma MarkKeepsOnceIffUnrivalled(s: State, c: string)
    requires OnceInv(s) && Enabled(s, MarkJob(c, true)) && Marks(s, MarkJob(c, true))
    ensures OnceInv(Next(s, MarkJob(c, true))) <==> !Rival(s, c, s.pumps[c].pc.job)
  {
    var job := s.pumps[c].pc.job;
    var t := Next(s, MarkJob(c, true));
    assert t.pumps[c].pc.Marked? && t.pumps[c].pc.job == job && t.notices == s.notices;
    if !Rival(s, c, job) {
      MarkKeepsOnce(s, c, true);
    } else if Noticed(s, job) {
      assert Noticed(t, job);
    } else {
      var d :| d in s.pumps && d != c && s.pumps[d].pc.Marked? && s.pumps[d].pc.job == job;
      assert d in t.pumps && t.pumps[d].pc == s.pumps[d].pc;
    }
  }

  /** A fresh pump connects, is confirmed and reads a pending job. */
  lemma ReaderJoins(s: State, acts: seq<Action>, c: string, job: string) returns (more: seq<Action>)
    requires Valid(s, acts) && !Exec(s, acts).exclusive
    requires c !in Exec(s, acts).started && c !in Exec(s, acts).pumps
    requires Open(Exec(s, acts), job) && Exec(s, acts).jobs[job].recipient == NOBODY
    ensures Valid(s, more)
    ensures var t := Exec(s, acts);
            Exec(s, more) == t.(recorded := Some(c), scanner := Some(c),
                                pumps := t.pumps[c := Pump("nonce", true, Read(job, t.owner))],
                                started := t.started + {c})
  {
    more := acts;
    RunThen(s, more, Start(c, "nonce"));
    more := more + [Start(c, "nonce")];
    RunThen(s, more, Connect(c));
    more := more + [Connect(c)];
    RunThen(s, more, Confirm(c, "nonce"));
    more := more + [Confirm(c, "nonce")];
    RunThen(s, more, BeginScan(c));
    more := more + [BeginScan(c)];
    RunThen(s, more, ReadJob(c, job));
    more := more + [ReadJob(c, job)];
  }

  /** Without that exclusion the promise fails: two pumps that read the same job
      before either marks it both notify. */
  lemma OverlapDuplicates() returns (acts: seq<Action>)
    ensures Valid(Create(false), acts)
    ensures !OncePerJob(Exec(Create(false), acts).notices)
  {
    var s := Create(false);
    assert Exec(s, []) == s;
    RunThen(s, [], Arrive("job", false));
    acts := [] + [Arrive("job", false)];
    acts := ReaderJoins(s, acts, "old", "job");
    acts := ReaderJoins(s, acts, "new", "job");
    RunThen(s, acts, MarkJob("new", true));
    acts := acts + [MarkJob("new", true)];
    RunThen(s, acts, Notify("new"));
    acts := acts + [Notify("new")];
    var t := Exec(s, acts);
    assert t.notices[0].job == "job";
    assert Noticed(t, "job");
    RivalMarkRepeats(t, "old");
    RunThen(s, acts, MarkJob("old", true));
    acts := acts + [MarkJob("old", true)];
    var later :| Valid(Exec(s, acts), later) && !OncePerJob(Exec(Exec(s, acts), later).notices);
    RunAppend(s, acts, later);
    acts := acts + later;
  }

  // ---- a processed message is final ---------------------------------------

  predicate AboutToNotify(s: State, job: string) {
    exists c :: c in s.pumps && s.pumps[c].pc.Marked? && s.pumps[c].pc.job == job
  }

  predicate Processed(s: State, job: string) {
    job in s.jobs && !s.jobs[job].inbox && !AboutToNotify(s, job)
  }

  lemma ProcessedPumps(s: State, a: Action, job: string)
    requires Processed(s, job) && Enabled(s, a)
    ensures !AboutToNotify(Next(s, a), job)
  {
    assert forall c :: c in s.pumps && s.pumps[c].pc.Marked? ==> s.pumps[c].pc.job != job;
  }

  lemma ProcessedNotices(s: State, a: Action, job: string)
    requires Processed(s, job) && Enabled(s, a)
    ensures Next(s, a).notices == s.notices ||
            exists n: Notice :: n.job != job && Next(s, a).notices == s.notices + [n]
  {
    assert forall c :: c in s.pumps && s.pumps[c].pc.Marked? ==> s.pumps[c].pc.job != job;
    if a.Notify? {
      assert NoticeOf(s, a.c).job != job;
    } else if a.NotifyRaises? {
      assert NoticeOf(s, a.c).job != job;
      assert s.notices + [] == s.notices;
    }
  }

  lemma ProcessedStep(s: State, a: Action, job: string)
    requires Processed(s, job) && Enabled(s, a)
    ensures var t := Next(s, a);
            Processed(t, job) && t.jobs[job] == s.jobs[job] && (Noticed(t, job) <==> Noticed(s, job))
  {
    var t := Next(s, a);
    ProcessedPumps(s, a, job);
    ProcessedNotices(s, a, job);
    if t.notices != s.notices {
      var n: Notice :| n.job != job && t.notices == s.notices + [n];
      NoticeAppend(s, t, n);
    }
  }

  /** Once a receipt has removed a message and no pump has it marked, it is never
      marked nor notified again, whatever scans had read it before. */
  lemma {:induction false} ProcessedIsFinal(s: State, acts: seq<Action>, job: string)
    requires Processed(s, job) && Valid(s, acts)
    ensures var t := Exec(s, acts);
            job in t.jobs && t.jobs[job] == s.jobs[job] && (Noticed(t, job) <==> Noticed(s, job))
    decreases acts
  {
    if acts != [] {
      ProcessedStep(s, acts[0], job);
      ProcessedIsFinal(Next(s, acts[0]), acts[1..], job);
    }
  }
}
