/** How often delivery of one question can fail over its whole life, and what makes
    the count start over. */
module CodexLifetime {
  import opened Prelude
  import opened CodexDelivery

  function ResetCount(es: seq<Event>): nat {
    if es == [] then 0
    else ResetCount(es[..|es| - 1]) + (if es[|es| - 1].Reset? then 1 else 0)
  }

  lemma {:induction false} FailuresPerReset(es: seq<Event>)
    requires Paced(es)
    ensures FailureCount(es) <= 3 * ResetCount(es) + Failures(es) && Failures(es) <= 3
  {
    if es != [] {
      FailuresPerReset(es[..|es| - 1]);
    }
  }

  /** A question fails at most three times more than three times the number of its resets. */
  lemma LifetimeBound(recipient: Thread, now: int, acts: seq<Action>)
    requires Valid(Accept(recipient, now), acts)
    ensures var es := Exec(Accept(recipient, now), acts).events; FailureCount(es) <= 3 * (ResetCount(es) + 1)
  {
    Reached(recipient, now, acts);
    FailuresPerReset(Exec(Accept(recipient, now), acts).events);
  }

  predicate ResetBetween(es: seq<Event>, i: int, j: int)
    requires 0 <= i <= j <= |es|
  {
    exists k :: i < k < j && es[k].Reset?
  }

  lemma {:induction false} CounterBetween(es: seq<Event>, i: int, j: int)
    requires 0 <= i < j <= |es| && es[i].Failure? && forall k :: i < k < j ==> !es[k].Failure?
    ensures Failures(es[..j]) == if ResetBetween(es, i, j) then 0 else es[i].n
    decreases j
  {
    assert es[..j][..j - 1] == es[..j - 1];
    if i < j - 1 {
      CounterBetween(es, i, j - 1);
      assert ResetBetween(es, i, j) <==> ResetBetween(es, i, j - 1) || es[j - 1].Reset?;
    }
  }

  /** Of two failures in a row the second carries on the count if and only if no
      reset lies between them; otherwise the count starts over. */
  lemma CountContinuesIffNoReset(recipient: Thread, now: int, acts: seq<Action>, i: int, j: int)
    requires Valid(Accept(recipient, now), acts)
    requires var es := Exec(Accept(recipient, now), acts).events;
             0 <= i < j < |es| && es[i].Failure? && es[j].Failure? && forall k :: i < k < j ==> !es[k].Failure?
    ensures var es := Exec(Accept(recipient, now), acts).events;
            (es[j].n == es[i].n + 1 <==> !ResetBetween(es, i, j)) && (ResetBetween(es, i, j) ==> es[j].n == 1)
  {
    Reached(recipient, now, acts);
    CountContinues(Exec(Accept(recipient, now), acts).events, i, j);
  }

  lemma CountContinues(es: seq<Event>, i: int, j: int)
    requires Paced(es) && 0 <= i < j < |es| && es[i].Failure? && es[j].Failure?
    requires forall k :: i < k < j ==> !es[k].Failure?
    ensures es[j].n == if ResetBetween(es, i, j) then 1 else es[i].n + 1
    ensures es[i].n >= 1
  {
    PacedPrefix(es, i + 1);
    PacedPrefix(es, j + 1);
    assert es[..i + 1][..i] == es[..i] && es[..j + 1][..j] == es[..j];
    CounterBetween(es, i, j);
  }

  // ---- only the third error is final --------------------------------------

  /** A step that raises no ValueError, for a worker started with the owner's thread. */
  predicate Soft(s: State, a: Action) {
    (a.Open? ==> a.thread == s.recipient) && (a.Raise? ==> !a.valueError)
  }

  predicate AllSoft(s: State, acts: seq<Action>)
    requires Valid(s, acts)
    decreases acts
  {
    acts == [] || (Soft(s, acts[0]) && AllSoft(Next(s, acts[0]), acts[1..]))
  }

  predicate SoftResult(r: Result) {
    r.file.kind.Failed? ==> r.failedAt.Some? && r.file.attempts == 3
  }

  predicate SoftInv(s: State) {
    Inv(s) &&
    (!s.archived && s.delivery.kind.Failed? ==> Failures(s.events) == 3) &&
    (forall w :: w in s.workers ==>
       s.workers[w].thread == s.recipient &&
       (s.workers[w].pc.Returning? || s.workers[w].pc.Writing? ==> SoftResult(s.workers[w].pc.result)))
  }

  lemma AttemptsSoFar(s: State, w: int)
    requires Inv(s) && w in s.workers && (MayRaise(s.workers[w].pc) || s.workers[w].pc.Sent?)
    ensures s.workers[w].pc.prior.attempts <= 2
  {
    assert WorkerInv(s, s.workers[w]);
  }

  lemma StoreSoft(s: State, w: int)
    requires SoftInv(s) && Enabled(s, Store(w))
    ensures SoftInv(Next(s, Store(w)))
  {
    StepKeeps(s, Store(w));
    var r := s.workers[w].pc.result;
    if r.failedAt.Some? {
      EventAppend(s.events, Failure(r.file.attempts, r.failedAt.value));
    }
  }

  lemma LoadSoft(s: State, w: int)
    requires SoftInv(s) && Enabled(s, Load(w))
    ensures SoftInv(Next(s, Load(w)))
  {
    StepKeeps(s, Load(w));
    EventAppend(s.events, Attempt(s.now));
  }

  lemma ErrorSoft(s: State, a: Action)
    requires SoftInv(s) && Enabled(s, a) && Soft(s, a) && (a.Raise? || a.Settle?)
    ensures SoftInv(Next(s, a))
  {
    StepKeeps(s, a);
    AttemptsSoFar(s, a.w);
  }

  lemma WorkerSoft(s: State, a: Action)
    requires SoftInv(s) && Enabled(s, a) && Soft(s, a) && ByWorker(a)
    requires !a.Store? && !a.Load? && !a.Raise? && !a.Settle?
    ensures SoftInv(Next(s, a))
  {
    StepKeeps(s, a);
  }

  lemma OtherSoft(s: State, a: Action)
    requires SoftInv(s) && Enabled(s, a) && !ByWorker(a)
    ensures SoftInv(Next(s, a))
  {
    StepKeeps(s, a);
  }

  lemma SoftStep(s: State, a: Action)
    requires SoftInv(s) && Enabled(s, a) && Soft(s, a)
    ensures SoftInv(Next(s, a))
  {
    if a.Store? {
      StoreSoft(s, a.w);
    } else if a.Load? {
      LoadSoft(s, a.w);
    } else if a.Raise? || a.Settle? {
      ErrorSoft(s, a);
    } else if ByWorker(a) {
      WorkerSoft(s, a);
    } else {
      OtherSoft(s, a);
    }
  }

  lemma {:induction false} SoftRun(s: State, acts: seq<Action>)
    requires SoftInv(s) && Valid(s, acts) && AllSoft(s, acts)
    ensures SoftInv(Exec(s, acts))
    decreases acts
  {
    if acts != [] {
      SoftStep(s, acts[0]);
      SoftRun(Next(s, acts[0]), acts[1..]);
    }
  }

  /** As long as no ValueError is raised and workers know the owner, a question is
      stored as failed only after its third failure since the last reset: no
      transient error before the third is final. */
  lemma OnlyThirdErrorFails(recipient: Thread, now: int, acts: seq<Action>)
    requires Valid(Accept(recipient, now), acts) && AllSoft(Accept(recipient, now), acts)
    ensures var s := Exec(Accept(recipient, now), acts);
            !s.archived && s.delivery.kind.Failed? ==> Failures(s.events) == 3
  {
    Reached(recipient, now, []);
    SoftRun(Accept(recipient, now), acts);
  }

  // ---- `waiting` alone resets for ever -----------------------------------

  predicate Manual(a: Action) { a.RetryOpen? || a.RetryCheck? || a.RetryStore? }

  /** These steps, none of them a manual retry, lead to k failures in all. */
  predicate Ends(s: State, acts: seq<Action>, k: nat)
    decreases acts
  {
    if acts == [] then FailureCount(s.events) == k
    else Enabled(s, acts[0]) && !Manual(acts[0]) && Ends(Next(s, acts[0]), acts[1..], k)
  }

  ghost predicate CanFail(s: State, k: nat) {
    exists acts :: Ends(s, acts, k)
  }

  lemma {:induction false} EndsIsRun(s: State, acts: seq<Action>, k: nat)
    requires Ends(s, acts, k)
    ensures Valid(s, acts) && FailureCount(Exec(s, acts).events) == k
    ensures forall i :: 0 <= i < |acts| ==> !Manual(acts[i])
    decreases acts
  {
    if acts != [] {
      EndsIsRun(Next(s, acts[0]), acts[1..], k);
      assert forall i :: 0 < i < |acts| ==> acts[i] == acts[1..][i - 1];
    }
  }

  lemma StepFirst(s: State, a: Action, k: nat)
    requires Enabled(s, a) && !Manual(a) && CanFail(Next(s, a), k)
    ensures CanFail(s, k)
  {
    var rest :| Ends(Next(s, a), rest, k);
    var acts := [a] + rest;
    assert acts[0] == a && acts[1..] == rest;
    assert Ends(s, acts, k);
  }

  /** Nobody is at work on a pending question. */
  predicate Idle(s: State) {
    s.workers == map[] && s.deliveryLock.None? && s.receiptLock.None? && !s.archived && s.inbox
  }

  /** Worker 0, the only actor, at some place in the program. */
  function With(s: State, pc: WorkerPc): State {
    s.(deliveryLock := Some(WorkerId(0)), workers := map[0 := Worker(s.recipient, pc)])
  }

  /** It has read the state and the question and is about to probe. */
  function Begun(s: State): State {
    With(s, Probing(s.delivery)).(events := s.events + [Attempt(s.now)])
  }

  lemma OpenLeads(s: State, k: nat)
    requires Idle(s) && CanFail(With(s, Locked), k)
    ensures CanFail(s, k)
  {
    assert s.workers[0 := Worker(s.recipient, Locked)] == map[0 := Worker(s.recipient, Locked)];
    StepFirst(s, Open(0, s.recipient), k);
  }

  lemma InspectLeads(s: State, k: nat)
    requires !Terminal(s.delivery.kind) && s.now >= s.delivery.retryAt && CanFail(With(s, Read(s.delivery)), k)
    ensures CanFail(With(s, Locked), k)
  {
    var t := With(s, Locked);
    assert Next(t, Inspect(0)).workers == map[0 := Worker(s.recipient, Read(s.delivery))];
    StepFirst(t, Inspect(0), k);
  }

  lemma LoadLeads(s: State, k: nat)
    requires s.inbox && CanFail(Begun(s), k)
    ensures CanFail(With(s, Read(s.delivery)), k)
  {
    var t := With(s, Read(s.delivery));
    assert Next(t, Load(0)).workers == map[0 := Worker(s.recipient, Probing(s.delivery))];
    StepFirst(t, Load(0), k);
  }

  lemma WorkerBegins(s: State, k: nat)
    requires Idle(s) && !Terminal(s.delivery.kind) && s.now >= s.delivery.retryAt && CanFail(Begun(s), k)
    ensures CanFail(s, k)
  {
    LoadLeads(s, k);
    InspectLeads(s, k);
    OpenLeads(s, k);
  }

  /** The attempt ends with a result and without a dispatch. */
  function Ended(s: State, r: Result): State {
    s.(delivery := r.file, events := s.events + [Attempt(s.now)] + Recorded(r))
  }

  /** Worker 0 with a result in hand. */
  function Holding(s: State, pc: WorkerPc): State {
    Begun(s).(workers := map[0 := Worker(s.recipient, pc)])
  }

  lemma EndLeads(s: State, r: Result, k: nat)
    requires Idle(s) && CanFail(Ended(s, r), k)
    ensures CanFail(Holding(s, Returning(r, false)), k)
  {
    var t, u := Holding(s, Returning(r, false)), Holding(s, Writing(r));
    assert u.workers - {0} == s.workers;
    StepFirst(u, Store(0), k);
    assert Next(t, Release(0)).workers == u.workers;
    StepFirst(t, Release(0), k);
  }

  lemma ProbeFailsOnce(s: State, k: nat)
    requires Idle(s) && (s.delivery.kind.Absent? || s.delivery.kind.Waiting?) && s.delivery.attempts == 0
    requires s.now >= s.delivery.retryAt
    requires CanFail(Ended(s, Result(Delivery(Retry, 1, s.now + 2 * SECOND), Some(s.now))), k)
    ensures CanFail(s, k)
  {
    var r := Result(Delivery(Retry, 1, s.now + 2 * SECOND), Some(s.now));
    EndLeads(s, r, k);
    RaiseLeads(s, r, k);
    WorkerBegins(s, k);
  }

  lemma RaiseLeads(s: State, r: Result, k: nat)
    requires !s.delivery.kind.Dispatching? && s.delivery.attempts == 0
    requires r == Result(Delivery(Retry, 1, s.now + 2 * SECOND), Some(s.now))
    requires CanFail(Holding(s, Returning(r, false)), k)
    ensures CanFail(Begun(s), k)
  {
    assert Pow2(1) == 2;
    assert Next(Begun(s), Raise(0, false)).workers == Holding(s, Returning(r, false)).workers;
    StepFirst(Begun(s), Raise(0, false), k);
  }

  lemma WaitLeads(s: State, k: nat)
    requires CanFail(Holding(s, Returning(Result(Delivery(Waiting, 0, 0), None), false)), k)
    ensures CanFail(Begun(s), k)
  {
    var pc := Returning(Result(Delivery(Waiting, 0, 0), None), false);
    assert Next(Begun(s), ProbeWaits(0)).workers == Holding(s, pc).workers;
    StepFirst(Begun(s), ProbeWaits(0), k);
  }

  lemma ProbeWaitsOnce(s: State, k: nat)
    requires Idle(s) && s.delivery.kind.Retry? && s.now >= s.delivery.retryAt
    requires CanFail(Ended(s, Result(Delivery(Waiting, 0, 0), None)), k)
    ensures CanFail(s, k)
  {
    EndLeads(s, Result(Delivery(Waiting, 0, 0), None), k);
    WaitLeads(s, k);
    WorkerBegins(s, k);
  }

  lemma CountAppend(es: seq<Event>, e: Event)
    ensures FailureCount(es + [e]) == FailureCount(es) + if e.Failure? then 1 else 0
  {
    assert (es + [e])[..|es|] == es;
  }

  /** A thread that fails its probe once and is then found busy, over and over,
      makes a question fail any number of times, no manual retry needed: the
      bound of three holds between resets and no further. */
  lemma WaitingResetsForEver(recipient: Thread, now: nat, n: nat) returns (acts: seq<Action>)
    ensures Valid(Accept(recipient, now), acts)
    ensures FailureCount(Exec(Accept(recipient, now), acts).events) == n
    ensures forall i :: 0 <= i < |acts| ==> !Manual(acts[i])
  {
    var s := Accept(recipient, now);
    FailAgain(s, n);
    acts :| Ends(s, acts, n);
    EndsIsRun(s, acts, n);
  }

  /** A thread that fails its probe now and is found busy two seconds later. */
  function Failed1(s: State): State {
    Ended(s, Result(Delivery(Retry, 1, s.now + 2 * SECOND), Some(s.now)))
  }

  function Round(s: State): State {
    Ended(Failed1(s).(now := s.now + 2 * SECOND), Result(Delivery(Waiting, 0, 0), None))
  }

  predicate Unhurt(s: State) {
    Idle(s) && (s.delivery.kind.Absent? || s.delivery.kind.Waiting?) && s.delivery.attempts == 0 &&
    s.now >= s.delivery.retryAt && s.now >= 0
  }

  lemma RoundLeads(s: State, k: nat)
    requires Unhurt(s) && CanFail(Round(s), k)
    ensures CanFail(s, k)
  {
    var later := Failed1(s).(now := s.now + 2 * SECOND);
    ProbeWaitsOnce(later, k);
    StepFirst(Failed1(s), Tick(later.now), k);
    ProbeFailsOnce(s, k);
  }

  lemma RoundFails(s: State)
    requires Unhurt(s)
    ensures Unhurt(Round(s)) && FailureCount(Round(s).events) == FailureCount(s.events) + 1
  {
    var es := s.events + [Attempt(s.now)];
    CountAppend(s.events, Attempt(s.now));
    CountAppend(es, Failure(1, s.now));
    CountAppend(Failed1(s).events, Attempt(s.now + 2 * SECOND));
    CountAppend(Failed1(s).events + [Attempt(s.now + 2 * SECOND)], Reset);
  }

  lemma {:induction false} FailAgain(s: State, n: nat)
    requires Unhurt(s)
    ensures CanFail(s, FailureCount(s.events) + n)
    decreases n
  {
    if n == 0 {
      assert Ends(s, [], FailureCount(s.events));
    } else {
      RoundFails(s);
      FailAgain(Round(s), n - 1);
      RoundLeads(s, FailureCount(s.events) + n);
    }
  }
}
