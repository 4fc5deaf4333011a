/** `deliver_record` as the program it is, run among any other actors: every
    execution of it is a run of the delivery protocol. */
module MailboxWorker {
  import opened Prelude
  import opened CodexDelivery
  import CodexTransport

  lemma {:induction false} RunAppend(s: State, first: seq<Action>, second: seq<Action>)
    requires Valid(s, first) && Valid(Exec(s, first), second)
    ensures Valid(s, first + second)
    ensures Exec(s, first + second) == Exec(Exec(s, first), second)
    decreases first
  {
    if first == [] {
      assert first + second == second;
    } else {
      RunAppend(Next(s, first[0]), first[1..], second);
      assert (first + second)[0] == first[0] && (first + second)[1..] == first[1..] + second;
    }
  }

  lemma RunThen(s: State, acts: seq<Action>, a: Action)
    requires Valid(s, acts) && Enabled(Exec(s, acts), a)
    ensures Valid(s, acts + [a]) && Exec(s, acts + [a]) == Next(Exec(s, acts), a)
  {
    var t := Exec(s, acts);
    assert [a][1..] == [];
    assert Valid(t, [a]);
    RunAppend(s, acts, [a]);
  }

  /** The worker that takes a step, if a worker does. */
  function Mover(a: Action): Option<int> {
    if ByWorker(a) then Some(a.w)
    else if a.Crash? && a.who.WorkerId? then Some(a.who.id)
    else None
  }

  predicate Departs(a: Action) {
    a.Inspect? || a.Load? || a.Store?
  }

  lemma LeaverSpares(s: State, a: Action, w: int)
    requires Enabled(s, a) && ByWorker(a) && a.w != w && Departs(a)
    ensures w in Next(s, a).workers <==> w in s.workers
    ensures w in s.workers ==> Next(s, a).workers[w] == s.workers[w]
  {
  }

  lemma StayerSpares(s: State, a: Action, w: int)
    requires Enabled(s, a) && ByWorker(a) && a.w != w && !Departs(a)
    ensures w in Next(s, a).workers <==> w in s.workers
    ensures w in s.workers ==> Next(s, a).workers[w] == s.workers[w]
  {
    assert Next(s, a).workers.Keys == s.workers.Keys + {a.w};
  }

  lemma OthersSpare(s: State, a: Action, w: int)
    requires Enabled(s, a) && Mover(a) != Some(w)
    ensures w in Next(s, a).workers <==> w in s.workers
    ensures w in s.workers ==> Next(s, a).workers[w] == s.workers[w]
  {
    if ByWorker(a) && Departs(a) {
      LeaverSpares(s, a, w);
    } else if ByWorker(a) {
      StayerSpares(s, a, w);
    }
  }

  lemma SentIsLogged(s: State, acts: seq<Action>, w: int)
    requires Inv(s) && Valid(s, acts)
    requires w in Exec(s, acts).workers && Exec(s, acts).workers[w].pc.Sent?
    ensures Exec(s, acts).log != []
  {
    RunKeeps(s, acts);
    assert WorkerInv(Exec(s, acts), Exec(s, acts).workers[w]);
  }

  /** What the invariant says of a worker between its claim and its request. */
  lemma WorkerFacts(s: State, w: int)
    requires Inv(s) && w in s.workers
    ensures HoldsReceipt(s.workers[w].pc) ==> s.receiptLock == Some(WorkerId(w))
    ensures s.workers[w].pc.Checked? || s.workers[w].pc.Marked? ==> s.inbox || s.archived
  {
    assert WorkerInv(s, s.workers[w]);
  }

  /** What the read-only probe of the thread comes back with. */
  datatype Probe = ProbeFails | ProbeAnswers(info: CodexTransport.ThreadInfo, turns: seq<CodexTransport.Turn>)

  /** What the mutating request comes back with. */
  datatype Answer = Answer(fate: Fate, hasTurn: bool)

  datatype Claimed = Free | Taken | Gone | Changed

  /** No other actor moves during the call. */
  predicate Undisturbed(gaps: seq<seq<Action>>) {
    forall i :: 0 <= i < |gaps| ==> gaps[i] == []
  }

  lemma Slices(gaps: seq<seq<Action>>, k: nat, n: nat)
    requires k <= n == |gaps|
    ensures Undisturbed(gaps) ==> Undisturbed(gaps[..k]) && Undisturbed(gaps[k..])
  {
  }

  /** The parts of the world an attempt looks at. */
  predicate SameWorld(s: State, t: State) {
    s.recipient == t.recipient && s.inbox == t.inbox && s.delivery == t.delivery &&
    s.receiptLock == t.receiptLock && s.now == t.now && s.log == t.log
  }

  /** Whether a call looks at the question at all. */
  predicate Due(s: State) {
    s.deliveryLock.None? && !s.archived && s.inbox &&
    !Terminal(s.delivery.kind) && s.now >= s.delivery.retryAt
  }

  /** How an undisturbed attempt ends: with a file and no request, or with one
      request and its answer. */
  datatype Judgement = Held(file: Delivery) | Answered

  function Fails(s: State, valueError: bool): Judgement {
    var n := s.delivery.attempts + 1;
    Held(Delivery(if valueError || n >= 3 then Failed else Retry, n, s.now + Pow2(n) * SECOND))
  }

  /** The verdict on a thread that would accept the message. */
  function Verdict(s: State, changed: bool): Judgement {
    if s.receiptLock.Some? then Fails(s, false)
    else if changed then Fails(s, true)
    else Answered
  }

  function Judge(s: State, thread: Thread, policy: string, probe: Probe, changed: bool): Judgement {
    if s.recipient != thread then Held(Delivery(Failed, 0, 0))
    else if probe.ProbeFails? then Fails(s, false)
    else match CodexTransport.Decide(policy, thread, probe.info, probe.turns)
      case Wait => Held(Delivery(Waiting, 0, 0))
      case Refuse => Fails(s, true)
      case _ => Verdict(s, changed)
  }

  /** The state file after a request whose answer came back, or never did. */
  function AfterAnswer(s: State, answer: Answer): Delivery {
    var n := s.delivery.attempts + 1;
    if answer.fate.Accepted? && answer.hasTurn then Delivery(Delivered, 0, 0)
    else Delivery(if !answer.fate.Rejected? then Uncertain else if n >= 3 then Failed else Retry,
                  n, s.now + Pow2(n) * SECOND)
  }

  /** The state file and the log an undisturbed attempt leaves. */
  predicate Concludes(j: Judgement, s: State, thread: Thread, answer: Answer, file: Delivery, log: seq<Dispatch>) {
    match j
    case Held(held) => file == held && log == s.log
    case Answered => file == AfterAnswer(s, answer) && log == s.log + [Dispatch(thread, answer.fate)]
  }

  /** What a claim and its answer store, given the state file at that moment. */
  function Response(claimed: Claimed, disk: Delivery, prior: Delivery, now: int, answer: Answer): Delivery {
    if !claimed.Free? then OnError(disk, prior, now, false, claimed.Changed?).file
    else if answer.fate.Accepted? && answer.hasTurn then Delivery(Delivered, 0, 0)
    else OnError(disk, prior, now, answer.fate.Rejected?, false).file
  }

  /** What an undisturbed claim comes to. */
  function Claims(s: State, changed: bool): Claimed {
    if s.receiptLock.Some? then Taken else if !s.inbox then Claimed.Gone else if changed then Changed else Free
  }

  lemma VerdictConcludes(s: State, changed: bool, thread: Thread, answer: Answer, disk: Delivery)
    requires s.inbox && !Terminal(s.delivery.kind)
    requires if Claims(s, changed).Free? then disk.kind.Dispatching? else disk == s.delivery
    ensures var claimed := Claims(s, changed);
            Concludes(Verdict(s, changed), s, thread, answer, Response(claimed, disk, s.delivery, s.now, answer),
                      if claimed.Free? then s.log + [Dispatch(thread, answer.fate)] else s.log)
  {
  }

  lemma JudgeSame(s: State, t: State, thread: Thread, policy: string, probe: Probe, changed: bool, answer: Answer)
    ensures SameWorld(s, t) ==>
              Judge(s, thread, policy, probe, changed) == Judge(t, thread, policy, probe, changed) &&
              AfterAnswer(s, answer) == AfterAnswer(t, answer) && s.log == t.log
  {
  }

  // ---- what is stored, in terms of what the call met ---------------------

  predicate KnownPolicy(policy: string) { policy == "idle" || policy == "immediate" }

  predicate TakesInput(thread: Thread, info: CodexTransport.ThreadInfo) {
    info.id == thread && info.canAcceptDirectInput
  }

  predicate HasTurn(turns: seq<CodexTransport.Turn>) {
    exists i :: 0 <= i < |turns| && turns[i].status == "inProgress"
  }

  /** The probe found a thread that takes the message now. */
  predicate Ready(policy: string, thread: Thread, probe: Probe) {
    probe.ProbeAnswers? && KnownPolicy(policy) && TakesInput(thread, probe.info) &&
    (probe.info.status == "idle" ||
     (probe.info.status == "active" && policy == "immediate" && HasTurn(probe.turns)))
  }

  /** It found one that takes messages, but not now. */
  predicate Busy(policy: string, thread: Thread, probe: Probe) {
    probe.ProbeAnswers? && KnownPolicy(policy) && TakesInput(thread, probe.info) && probe.info.status == "active" &&
    (policy == "idle" || !HasTurn(probe.turns))
  }

  /** It found one that takes none: a ValueError. */
  predicate Unfit(policy: string, thread: Thread, probe: Probe) {
    probe.ProbeAnswers? &&
    (!KnownPolicy(policy) || !TakesInput(thread, probe.info) ||
     (probe.info.status != "active" && probe.info.status != "idle"))
  }

  lemma ProbeIsOneOf(policy: string, thread: Thread, probe: Probe)
    requires probe.ProbeAnswers?
    ensures var plan := CodexTransport.Decide(policy, thread, probe.info, probe.turns);
            (Ready(policy, thread, probe) <==> plan.Start? || plan.Steer?) &&
            (Busy(policy, thread, probe) <==> plan.Wait?) && (Unfit(policy, thread, probe) <==> plan.Refuse?)
  {
    var plan := CodexTransport.Decide(policy, thread, probe.info, probe.turns);
    CodexTransport.PlanIff(policy, thread, probe.info, probe.turns, if plan.Steer? then plan.turn else "");
    CodexTransport.InProgressIsFirst(probe.turns);
  }

  /** An error nobody's input caused and nothing was sent by: the probe failed, the
      receipt lock was taken, or the app-server explicitly rejected the request. */
  predicate Transient(s: State, policy: string, thread: Thread, probe: Probe, changed: bool, answer: Answer) {
    probe.ProbeFails? ||
    (Ready(policy, thread, probe) && (s.receiptLock.Some? || (!changed && answer.fate.Rejected?)))
  }

  /** A ValueError: the thread takes no messages, or the endpoint has changed. */
  predicate Misfit(s: State, policy: string, thread: Thread, probe: Probe, changed: bool) {
    Unfit(policy, thread, probe) || (Ready(policy, thread, probe) && s.receiptLock.None? && changed)
  }

  /** Exactly what an undisturbed attempt stores and sends, case by case. */
  lemma StoredOutcome(s: State, thread: Thread, policy: string, probe: Probe, changed: bool, answer: Answer,
                      file: Delivery, log: seq<Dispatch>)
    requires Concludes(Judge(s, thread, policy, probe, changed), s, thread, answer, file, log)
    ensures var n := s.delivery.attempts + 1;
            var later := s.now + Pow2(n) * SECOND;
            var sends := s.recipient == thread && Ready(policy, thread, probe) && s.receiptLock.None? && !changed;
            log == (if sends then s.log + [Dispatch(thread, answer.fate)] else s.log) &&
            (s.recipient != thread ==> file == Delivery(Failed, 0, 0)) &&
            (s.recipient == thread && Busy(policy, thread, probe) ==> file == Delivery(Waiting, 0, 0)) &&
            (s.recipient == thread && Misfit(s, policy, thread, probe, changed) ==> file == Delivery(Failed, n, later)) &&
            (s.recipient == thread && Transient(s, policy, thread, probe, changed, answer) ==>
               file == Delivery(if n >= 3 then Failed else Retry, n, later)) &&
            (sends && !answer.fate.Rejected? ==>
               file == if answer.fate.Accepted? && answer.hasTurn then Delivery(Delivered, 0, 0)
                       else Delivery(Uncertain, n, later))
  {
    if probe.ProbeAnswers? {
      ProbeIsOneOf(policy, thread, probe);
    }
  }

  /** A question is stored as failed exactly if its owner is another thread, a
      ValueError was raised, or an error that was not ambiguous was the third. */
  lemma FailedIff(s: State, thread: Thread, policy: string, probe: Probe, changed: bool, answer: Answer,
                  file: Delivery, log: seq<Dispatch>)
    requires Concludes(Judge(s, thread, policy, probe, changed), s, thread, answer, file, log)
    ensures file.kind.Failed? <==>
            s.recipient != thread || Misfit(s, policy, thread, probe, changed) ||
            (s.delivery.attempts + 1 >= 3 && Transient(s, policy, thread, probe, changed, answer))
  {
    StoredOutcome(s, thread, policy, probe, changed, answer, file, log);
    if probe.ProbeAnswers? {
      ProbeIsOneOf(policy, thread, probe);
    }
  }

  /** When a call looks at the question at all. */
  lemma DueIff(s: State)
    ensures Due(s) <==>
            s.deliveryLock == None && !s.archived && s.inbox && s.now >= s.delivery.retryAt &&
            s.delivery.kind in {Absent, Queued, Waiting, Retry}
  {
  }

  /** A transient error before the third costs nothing but time: once its delay is
      over, a call that meets an idle thread and is accepted delivers the question. */
  lemma TransientErrorIsRetried(s: State, thread: Thread, policy: string, probe: Probe, changed: bool, answer: Answer,
                                file: Delivery, log: seq<Dispatch>,
                                t: State, again: Probe, reply: Answer, file': Delivery, log': seq<Dispatch>)
    requires s.recipient == thread && Transient(s, policy, thread, probe, changed, answer) && s.delivery.attempts < 2
    requires Concludes(Judge(s, thread, policy, probe, changed), s, thread, answer, file, log)
    requires t.recipient == thread && t.delivery == file && t.inbox && !t.archived
    requires t.deliveryLock.None? && t.receiptLock.None?
    requires t.now >= s.now + Pow2(s.delivery.attempts + 1) * SECOND
    requires KnownPolicy(policy) && again.ProbeAnswers? && TakesInput(thread, again.info) && again.info.status == "idle"
    requires reply.fate.Accepted? && reply.hasTurn
    requires Concludes(Judge(t, thread, policy, again, false), t, thread, reply, file', log')
    ensures Due(t) && file' == Delivery(Delivered, 0, 0) && log' == t.log + [Dispatch(thread, Fate.Accepted)]
  {
    StoredOutcome(s, thread, policy, probe, changed, answer, file, log);
    StoredOutcome(t, thread, policy, again, false, reply, file', log');
  }

  /** The files and locks of one question, and everybody working on them. */
  class Job {
    var s: State

    constructor (recipient: Thread, now: int)
      ensures s == Accept(recipient, now)
    {
      s := Accept(recipient, now);
    }

    /** Whatever the other actors do between two lines of worker `w`. */
    method Others(w: int, steps: seq<Action>) returns (ghost acts: seq<Action>)
      modifies this
      ensures Valid(old(s), acts) && s == Exec(old(s), acts)
      ensures w in s.workers <==> w in old(s).workers
      ensures w in s.workers ==> s.workers[w] == old(s).workers[w]
      ensures steps == [] ==> s == old(s)
    {
      acts := [];
      ghost var start := s;
      for i := 0 to |steps|
        invariant Valid(start, acts) && s == Exec(start, acts)
        invariant w in s.workers <==> w in start.workers
        invariant w in s.workers ==> s.workers[w] == start.workers[w]
        invariant steps == [] ==> s == start
      {
        var a := steps[i];
        if Enabled(s, a) && Mover(a) != Some(w) {
          OthersSpare(s, a, w);
          RunThen(start, acts, a);
          acts := acts + [a];
          s := Next(s, a);
        }
      }
    }

    /** The receipt lock and the inbox check of `dispatching()`. */
    method LockReceipt(w: int, gaps: seq<seq<Action>>) returns (claimed: Claimed, ghost acts: seq<Action>)
      requires Inv(s) && w in s.workers && s.workers[w].pc.Probing? && |gaps| == 2
      modifies this
      ensures Valid(old(s), acts) && s == Exec(old(s), acts) && Inv(s)
      ensures w in s.workers && !claimed.Changed?
      ensures claimed.Free? <==> s.workers[w].pc.Checked?
      ensures claimed.Gone? <==> s.workers[w].pc.Returning?
      ensures claimed.Taken? ==> s.workers[w].pc.Probing?
      ensures claimed.Free? ==> s.receiptLock == Some(WorkerId(w)) && (s.inbox || s.archived)
      ensures claimed.Gone? ==> !s.inbox && s.workers[w].pc.result.file == Delivery(Processed, 0, 0)
      ensures Undisturbed(gaps) ==>
                claimed == (if old(s).receiptLock.Some? then Taken else if !old(s).inbox then Claimed.Gone else Free) &&
                s.now == old(s).now && s.log == old(s).log && s.delivery == old(s).delivery &&
                s.workers[w].thread == old(s).workers[w].thread &&
                (!claimed.Gone? ==> s.workers[w].pc.prior == old(s).workers[w].pc.prior)
    {
      ghost var start := s;
      acts := Others(w, gaps[0]);
      RunKeeps(start, acts);
      if s.receiptLock.Some? {
        return Taken, acts;
      }
      RunThen(start, acts, Claim(w));
      acts := acts + [Claim(w)];
      s := s.(receiptLock := Some(WorkerId(w)),
              workers := s.workers[w := s.workers[w].(pc := WorkerPc.Claimed(s.workers[w].pc.prior))]);
      ghost var more;
      claimed, more := CheckInbox(w, gaps[1]);
      RunAppend(start, acts, more);
      acts := acts + more;
      RunKeeps(start, acts);
      WorkerFacts(s, w);
    }

    method CheckInbox(w: int, gap: seq<Action>) returns (claimed: Claimed, ghost acts: seq<Action>)
      requires w in s.workers && s.workers[w].pc.Claimed?
      modifies this
      ensures Valid(old(s), acts) && s == Exec(old(s), acts)
      ensures w in s.workers && (claimed.Free? || claimed.Gone?)
      ensures claimed.Free? <==> s.workers[w].pc.Checked?
      ensures claimed.Gone? <==> s.workers[w].pc.Returning?
      ensures claimed.Gone? <==> !s.inbox
      ensures claimed.Gone? ==> s.workers[w].pc.result.file == Delivery(Processed, 0, 0)
      ensures gap == [] ==>
                s.inbox == old(s).inbox && s.now == old(s).now && s.log == old(s).log &&
                s.delivery == old(s).delivery && s.workers[w].thread == old(s).workers[w].thread &&
                (claimed.Free? ==> s.workers[w].pc.prior == old(s).workers[w].pc.prior)
    {
      ghost var start := s;
      acts := Others(w, gap);
      RunThen(start, acts, Check(w));
      acts := acts + [Check(w)];
      if !s.inbox {
        var processed := Result(Delivery(Processed, 0, 0), None);
        s := s.(workers := s.workers[w := s.workers[w].(pc := Returning(processed, true))]);
        return Claimed.Gone, acts;
      }
      s := s.(workers := s.workers[w := s.workers[w].(pc := Checked(s.workers[w].pc.prior))]);
      return Free, acts;
    }

    /** The inner `dispatching()` callback: receipt lock, inbox check, endpoint
        recheck, and only then the durable mark. Whatever others do meanwhile, no
        mark is written without all three. */
    method Dispatching(w: int, changed: bool, gaps: seq<seq<Action>>)
      returns (claimed: Claimed, ghost acts: seq<Action>)
      requires Inv(s) && w in s.workers && s.workers[w].pc.Probing? && |gaps| == 3
      modifies this
      ensures Valid(old(s), acts) && s == Exec(old(s), acts) && Inv(s)
      ensures w in s.workers
      ensures claimed.Free? <==> s.workers[w].pc.Marked?
      ensures claimed.Gone? <==> s.workers[w].pc.Returning?
      ensures claimed.Taken? || claimed.Changed? ==> MayRaise(s.workers[w].pc)
      ensures claimed.Free? ==>
                !changed && s.receiptLock == Some(WorkerId(w)) && (s.inbox || s.archived) &&
                s.delivery == Delivery(Kind.Dispatching, 0, 0)
      ensures claimed.Changed? ==> changed
      ensures Undisturbed(gaps) ==>
                claimed == Claims(old(s), changed) && s.now == old(s).now && s.log == old(s).log &&
                s.workers[w].thread == old(s).workers[w].thread &&
                (!claimed.Gone? ==> s.workers[w].pc.prior == old(s).workers[w].pc.prior) &&
                (!claimed.Free? ==> s.delivery == old(s).delivery)
    {
      ghost var start := s;
      Slices(gaps, 2, 3);
      claimed, acts := LockReceipt(w, gaps[..2]);
      if !claimed.Free? {
        return;
      }
      ghost var more := Others(w, gaps[2]);
      RunAppend(start, acts, more);
      acts := acts + more;
      RunKeeps(start, acts);
      if changed {
        return Changed, acts;
      }
      RunThen(start, acts, Mark(w));
      acts := acts + [Mark(w)];
      RunKeeps(start, acts);
      s := s.(delivery := Delivery(Kind.Dispatching, 0, 0),
              workers := s.workers[w := s.workers[w].(pc := Marked(s.workers[w].pc.prior))]);
      WorkerFacts(s, w);
    }

    /** The non-blocking delivery lock. */
    method TryLock(w: int, thread: Thread, gap: seq<Action>) returns (go: bool, ghost acts: seq<Action>)
      requires w !in s.workers
      modifies this
      ensures Valid(old(s), acts) && s == Exec(old(s), acts)
      ensures go <==> w in s.workers
      ensures go ==> s.workers[w].pc.Locked?
      ensures gap == [] ==>
                go == (old(s).deliveryLock.None? && !old(s).archived) && SameWorld(old(s), s) &&
                (go ==> s.workers[w].thread == thread)
    {
      ghost var start := s;
      acts := Others(w, gap);
      if s.deliveryLock.Some? || s.archived {
        return false, acts;
      }
      RunThen(start, acts, Open(w, thread));
      acts := acts + [Open(w, thread)];
      s := s.(deliveryLock := Some(WorkerId(w)), workers := s.workers[w := Worker(thread, Locked)]);
      return true, acts;
    }

    /** Under the lock: does the state file allow an attempt now? */
    method ReadState(w: int, gap: seq<Action>) returns (go: bool, ghost acts: seq<Action>)
      requires w in s.workers && s.workers[w].pc.Locked?
      modifies this
      ensures Valid(old(s), acts) && s == Exec(old(s), acts)
      ensures go <==> w in s.workers
      ensures go ==> s.workers[w].pc.Read?
      ensures gap == [] ==>
                go == (!Terminal(old(s).delivery.kind) && old(s).now >= old(s).delivery.retryAt) &&
                s.delivery == old(s).delivery && s.log == old(s).log &&
                (go ==> SameWorld(old(s), s) && s.workers[w] == Worker(old(s).workers[w].thread, Read(s.delivery)))
    {
      ghost var start := s;
      acts := Others(w, gap);
      RunThen(start, acts, Inspect(w));
      acts := acts + [Inspect(w)];
      if Terminal(s.delivery.kind) || s.now < s.delivery.retryAt {
        s := CodexDelivery.Gone(s, WorkerId(w));
        return false, acts;
      }
      s := s.(workers := s.workers[w := s.workers[w].(pc := Read(s.delivery))]);
      return true, acts;
    }

    /** Inbox check and owner check. */
    method Screen(w: int, gap: seq<Action>) returns (go: bool, ghost acts: seq<Action>)
      requires w in s.workers && s.workers[w].pc.Read?
      modifies this
      ensures Valid(old(s), acts) && s == Exec(old(s), acts)
      ensures go <==> w in s.workers
      ensures go ==> s.workers[w].pc.Probing? || s.workers[w].pc.Writing?
      ensures gap == [] ==>
                go == old(s).inbox && s.delivery == old(s).delivery && s.log == old(s).log &&
                (go ==> SameWorld(old(s), s) &&
                        s.workers[w].thread == old(s).workers[w].thread &&
                        s.workers[w].pc ==
                          if s.recipient != s.workers[w].thread then Writing(Result(Delivery(Failed, 0, 0), None))
                          else Probing(old(s).workers[w].pc.prior))
    {
      ghost var start := s;
      acts := Others(w, gap);
      RunThen(start, acts, Load(w));
      acts := acts + [Load(w)];
      if !s.inbox {
        s := CodexDelivery.Gone(s, WorkerId(w));
        return false, acts;
      }
      if s.recipient != s.workers[w].thread {
        var mismatch := Result(Delivery(Failed, 0, 0), None);
        s := s.(workers := s.workers[w := s.workers[w].(pc := Writing(mismatch))]);
        return true, acts;
      }
      s := s.(workers := s.workers[w := s.workers[w].(pc := Probing(s.workers[w].pc.prior))],
              events := s.events + [Attempt(s.now)]);
      return true, acts;
    }

    /** An exception other than an explicit rejection of the mutating request. */
    method Caught(w: int, valueError: bool) returns (ghost acts: seq<Action>)
      requires w in s.workers && MayRaise(s.workers[w].pc)
      modifies this
      ensures Valid(old(s), acts) && s == Exec(old(s), acts)
      ensures w in s.workers && s.workers[w].pc.Returning?
      ensures s.log == old(s).log
      ensures s.workers[w].pc.result ==
              OnError(old(s).delivery, old(s).workers[w].pc.prior, old(s).now, false, valueError)
      ensures var file := s.workers[w].pc.result.file;
              var n := old(s).workers[w].pc.prior.attempts + 1;
              file.attempts == n && file.retryAt == old(s).now + Pow2(n) * SECOND &&
              (file.kind.Uncertain? <==> old(s).delivery.kind.Dispatching?) &&
              (file.kind.Failed? <==> !old(s).delivery.kind.Dispatching? && (valueError || n >= 3)) &&
              (file.kind.Retry? <==> !old(s).delivery.kind.Dispatching? && !valueError && n < 3)
    {
      RunThen(s, [], Raise(w, valueError));
      acts := [Raise(w, valueError)];
      assert [] + acts == acts;
      var pc := s.workers[w].pc;
      var result := OnError(s.delivery, pc.prior, s.now, false, valueError);
      s := s.(workers := s.workers[w := s.workers[w].(pc := Returning(result, !pc.Probing?))]);
    }

    /** The mutating request goes out. */
    method Transmit(w: int, gap: seq<Action>) returns (ghost acts: seq<Action>)
      requires w in s.workers && s.workers[w].pc.Marked?
      modifies this
      ensures Valid(old(s), acts) && s == Exec(old(s), acts)
      ensures w in s.workers && s.workers[w].pc.Sent?
      ensures gap == [] ==>
                s.log == old(s).log + [Dispatch(old(s).workers[w].thread, Unknown)] &&
                s.delivery == old(s).delivery && s.now == old(s).now &&
                s.workers[w].pc.prior == old(s).workers[w].pc.prior
    {
      ghost var start := s;
      acts := Others(w, gap);
      RunThen(start, acts, Send(w));
      acts := acts + [Send(w)];
      s := s.(workers := s.workers[w := s.workers[w].(pc := Sent(s.workers[w].pc.prior))],
              log := s.log + [Dispatch(s.workers[w].thread, Unknown)]);
    }

    /** The answer to the request in flight, or its failure to come. */
    method Await(w: int, answer: Answer, gap: seq<Action>) returns (ghost acts: seq<Action>)
      requires Inv(s) && w in s.workers && s.workers[w].pc.Sent?
      modifies this
      ensures Valid(old(s), acts) && s == Exec(old(s), acts)
      ensures w in s.workers && s.workers[w].pc.Returning?
      ensures gap == [] ==>
                old(s).log != [] &&
                s.log == old(s).log[|old(s).log| - 1 := old(s).log[|old(s).log| - 1].(fate := answer.fate)] &&
                s.workers[w].pc.result ==
                  if answer.fate.Accepted? && answer.hasTurn then Result(Delivery(Delivered, 0, 0), None)
                  else OnError(old(s).delivery, old(s).workers[w].pc.prior, old(s).now, answer.fate.Rejected?, false)
    {
      ghost var start := s;
      acts := Others(w, gap);
      SentIsLogged(start, acts, w);
      RunThen(start, acts, Settle(w, answer.fate, answer.hasTurn));
      acts := acts + [Settle(w, answer.fate, answer.hasTurn)];
      var result :=
        if answer.fate.Accepted? && answer.hasTurn then Result(Delivery(Delivered, 0, 0), None)
        else OnError(s.delivery, s.workers[w].pc.prior, s.now, answer.fate.Rejected?, false);
      s := s.(workers := s.workers[w := s.workers[w].(pc := Returning(result, true))],
              log := s.log[|s.log| - 1 := s.log[|s.log| - 1].(fate := answer.fate)]);
    }

    /** The mutating request, sent once, and its answer. */
    method Request(w: int, answer: Answer, gaps: seq<seq<Action>>) returns (ghost acts: seq<Action>)
      requires Inv(s) && w in s.workers && s.workers[w].pc.Marked? && |gaps| == 2
      modifies this
      ensures Valid(old(s), acts) && s == Exec(old(s), acts)
      ensures w in s.workers && s.workers[w].pc.Returning?
      ensures Undisturbed(gaps) ==>
                s.log == old(s).log + [Dispatch(old(s).workers[w].thread, answer.fate)] &&
                s.workers[w].pc.result ==
                  if answer.fate.Accepted? && answer.hasTurn then Result(Delivery(Delivered, 0, 0), None)
                  else OnError(old(s).delivery, old(s).workers[w].pc.prior, old(s).now, answer.fate.Rejected?, false)
    {
      ghost var start := s;
      acts := Transmit(w, gaps[0]);
      RunKeeps(start, acts);
      ghost var more := Await(w, answer, gaps[1]);
      RunAppend(start, acts, more);
      acts := acts + more;
    }

    /** The `finally` clause and the final state write. */
    method Finish(w: int, gaps: seq<seq<Action>>) returns (ghost acts: seq<Action>)
      requires w in s.workers && (s.workers[w].pc.Returning? || s.workers[w].pc.Writing?) && |gaps| == 2
      modifies this
      ensures Valid(old(s), acts) && s == Exec(old(s), acts)
      ensures w !in s.workers
      ensures s.delivery == old(s).workers[w].pc.result.file
      ensures s.receiptLock != Some(WorkerId(w)) && s.deliveryLock != Some(WorkerId(w))
      ensures Undisturbed(gaps) ==> s.log == old(s).log
    {
      ghost var start := s;
      acts := Others(w, gaps[0]);
      if s.workers[w].pc.Returning? {
        RunThen(start, acts, Release(w));
        acts := acts + [Release(w)];
        s := s.(workers := s.workers[w := s.workers[w].(pc := Writing(s.workers[w].pc.result))],
                receiptLock := Freed(s.receiptLock, WorkerId(w)));
      }
      ghost var more := Others(w, gaps[1]);
      RunAppend(start, acts, more);
      acts := acts + more;
      RunThen(start, acts, Store(w));
      acts := acts + [Store(w)];
      var r := s.workers[w].pc.result;
      s := CodexDelivery.Gone(s, WorkerId(w)).(delivery := r.file, events := s.events + Recorded(r));
    }

    /** What follows the claim: the request if it succeeded, else the error it raised. */
    method Respond(w: int, claimed: Claimed, answer: Answer, gaps: seq<seq<Action>>)
      returns (ghost acts: seq<Action>)
      requires Inv(s) && w in s.workers && |gaps| == 2 && !claimed.Gone?
      requires if claimed.Free? then s.workers[w].pc.Marked? && s.delivery.kind.Dispatching?
               else MayRaise(s.workers[w].pc)
      modifies this
      ensures Valid(old(s), acts) && s == Exec(old(s), acts)
      ensures w in s.workers && s.workers[w].pc.Returning?
      ensures Undisturbed(gaps) ==>
                s.workers[w].pc.result.file ==
                  Response(claimed, old(s).delivery, old(s).workers[w].pc.prior, old(s).now, answer) &&
                s.log == if claimed.Free? then old(s).log + [Dispatch(old(s).workers[w].thread, answer.fate)]
                         else old(s).log
    {
      if claimed.Free? {
        acts := Request(w, answer, gaps);
      } else {
        acts := Caught(w, claimed.Changed?);
      }
    }

    /** The claim and, if it succeeds, the request. */
    method Deliver(w: int, changed: bool, answer: Answer, gaps: seq<seq<Action>>)
      returns (ghost acts: seq<Action>)
      requires Inv(s) && w in s.workers && s.workers[w].pc.Probing? && |gaps| == 5
      modifies this
      ensures Valid(old(s), acts) && s == Exec(old(s), acts)
      ensures w in s.workers && s.workers[w].pc.Returning?
      ensures Undisturbed(gaps) && old(s).inbox &&
              old(s).workers[w].pc.prior == old(s).delivery && !Terminal(old(s).delivery.kind) ==>
                Concludes(Verdict(old(s), changed), old(s),
                          old(s).workers[w].thread, answer, s.workers[w].pc.result.file, s.log)
    {
      ghost var start := s;
      Slices(gaps, 3, 5);
      var claimed;
      claimed, acts := Dispatching(w, changed, gaps[..3]);
      if !claimed.Gone? {
        ghost var disk := s.delivery;
        ghost var more := Respond(w, claimed, answer, gaps[3..]);
        if Undisturbed(gaps) && start.inbox && start.workers[w].pc.prior == start.delivery &&
           !Terminal(start.delivery.kind) {
          VerdictConcludes(start, changed, start.workers[w].thread, answer, disk);
        }
        RunAppend(start, acts, more);
        acts := acts + more;
      }
    }

    /** Everything between the probe and the `finally` clause. */
    method Try(w: int, policy: string, probe: Probe, changed: bool, answer: Answer, gaps: seq<seq<Action>>)
      returns (ghost acts: seq<Action>)
      requires Inv(s) && w in s.workers && s.workers[w].pc.Probing? && |gaps| == 6
      modifies this
      ensures Valid(old(s), acts) && s == Exec(old(s), acts)
      ensures w in s.workers && s.workers[w].pc.Returning?
      ensures Undisturbed(gaps) && old(s).inbox && old(s).recipient == old(s).workers[w].thread &&
              old(s).workers[w].pc.prior == old(s).delivery && !Terminal(old(s).delivery.kind) ==>
                Concludes(Judge(old(s), old(s).workers[w].thread, policy, probe, changed), old(s),
                          old(s).workers[w].thread, answer, s.workers[w].pc.result.file, s.log)
    {
      ghost var start := s;
      acts := Others(w, gaps[0]);
      ghost var more: seq<Action>;
      var plan :=
        if probe.ProbeFails? then CodexTransport.Refuse
        else CodexTransport.Decide(policy, s.workers[w].thread, probe.info, probe.turns);
      if plan.Wait? {
        RunThen(start, acts, ProbeWaits(w));
        acts := acts + [ProbeWaits(w)];
        var waiting := Result(Delivery(Waiting, 0, 0), None);
        s := s.(workers := s.workers[w := s.workers[w].(pc := Returning(waiting, false))]);
        return;
      }
      if plan.Refuse? {
        more := Caught(w, !probe.ProbeFails?);
      } else {
        RunKeeps(start, acts);
        more := Deliver(w, changed, answer, gaps[1..]);
      }
      RunAppend(start, acts, more);
      acts := acts + more;
    }

    /** The locked part of the call, once the state file allows an attempt. */
    method Proceed(w: int, policy: string, probe: Probe, changed: bool, answer: Answer, gaps: seq<seq<Action>>)
      returns (ghost acts: seq<Action>)
      requires Inv(s) && w in s.workers && |gaps| == 8
      requires s.workers[w].pc.Probing? || s.workers[w].pc.Writing?
      modifies this
      ensures Valid(old(s), acts) && s == Exec(old(s), acts)
      ensures w !in s.workers
      ensures Undisturbed(gaps) && old(s).workers[w].pc.Writing? ==>
                s.delivery == old(s).workers[w].pc.result.file && s.log == old(s).log
      ensures Undisturbed(gaps) && old(s).inbox && old(s).workers[w].pc == Probing(old(s).delivery) &&
              !Terminal(old(s).delivery.kind) && old(s).recipient == old(s).workers[w].thread ==>
                Concludes(Judge(old(s), old(s).workers[w].thread, policy, probe, changed), old(s),
                          old(s).workers[w].thread, answer, s.delivery, s.log)
    {
      ghost var start := s;
      ghost var more: seq<Action>;
      Slices(gaps, 6, 8);
      acts := [];
      if s.workers[w].pc.Probing? {
        acts := Try(w, policy, probe, changed, answer, gaps[..6]);
      }
      more := Finish(w, gaps[6..]);
      RunAppend(start, acts, more);
      acts := acts + more;
    }

    /** Everything up to the decision to try. */
    method Begin(w: int, thread: Thread, gaps: seq<seq<Action>>) returns (go: bool, ghost acts: seq<Action>)
      requires w !in s.workers && |gaps| == 3
      modifies this
      ensures Valid(old(s), acts) && s == Exec(old(s), acts)
      ensures go <==> w in s.workers
      ensures go ==> s.workers[w].pc.Probing? || s.workers[w].pc.Writing?
      ensures Undisturbed(gaps) ==>
                go == Due(old(s)) && s.delivery == old(s).delivery && s.log == old(s).log &&
                (go ==> SameWorld(old(s), s) && s.workers[w].thread == thread &&
                        s.workers[w].pc ==
                          if s.recipient != thread then Writing(Result(Delivery(Failed, 0, 0), None))
                          else Probing(s.delivery))
    {
      ghost var start := s;
      ghost var more: seq<Action>;
      go, acts := TryLock(w, thread, gaps[0]);
      if go {
        go, more := ReadState(w, gaps[1]);
        RunAppend(start, acts, more);
        acts := acts + more;
      }
      if go {
        go, more := Screen(w, gaps[2]);
        RunAppend(start, acts, more);
        acts := acts + more;
      }
    }

    /** One call of `deliver_record` by worker `w`, with arbitrary steps of other
        actors in every gap, any probe, any answer: a run of the protocol, so it
        keeps the invariant and with it every guarantee proved of runs. A call
        nobody disturbs stores exactly the verdict. */
    method DeliverRecord(w: int, thread: Thread, policy: string, probe: Probe, changed: bool,
                         answer: Answer, gaps: seq<seq<Action>>)
      returns (ghost acts: seq<Action>)
      requires Inv(s) && w !in s.workers && |gaps| == 11
      modifies this
      ensures Valid(old(s), acts) && s == Exec(old(s), acts)
      ensures Inv(s) && w !in s.workers
      ensures Undisturbed(gaps) && !Due(old(s)) ==>
                s.delivery == old(s).delivery && s.log == old(s).log
      ensures Undisturbed(gaps) && Due(old(s)) ==>
                Concludes(Judge(old(s), thread, policy, probe, changed), old(s), thread, answer,
                          s.delivery, s.log)
    {
      ghost var start := s;
      Slices(gaps, 3, 11);
      var go;
      go, acts := Begin(w, thread, gaps[..3]);
      RunKeeps(start, acts);
      if go {
        JudgeSame(old(s), s, thread, policy, probe, changed, answer);
        ghost var more := Proceed(w, policy, probe, changed, answer, gaps[3..]);
        RunAppend(start, acts, more);
        acts := acts + more;
        RunKeeps(start, acts);
      }
    }
  }
}
