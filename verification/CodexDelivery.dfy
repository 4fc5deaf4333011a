/** The Codex delivery protocol of one accepted question: any number of worker
    processes, manual retries and receipt writers share one delivery state file,
    one inbox file and two `flock` locks, and each of them may crash between any
    two file operations. */
module CodexDelivery {
  import opened Prelude

  /** Clock readings are in microseconds. */
  const SECOND: int := 1_000_000

  type Thread = string

  // ---- what is on disk -------------------------------------------------

  datatype Kind =
    | Absent | Queued | Waiting | Retry | Failed
    | Dispatching | Uncertain | Delivered | Processed

  /** The delivery state file; a missing `attempts` or `retry_at` reads as 0. */
  datatype Delivery = Delivery(kind: Kind, attempts: nat, retryAt: int)

  predicate Terminal(k: Kind) {
    k.Delivered? || k.Dispatching? || k.Uncertain? || k.Failed? || k.Processed?
  }

  // ---- history ---------------------------------------------------------

  datatype Fate = Unknown | Accepted | Rejected
  datatype Dispatch = Dispatch(thread: Thread, fate: Fate)

  datatype Event = Attempt(at: int) | Failure(n: nat, at: int) | Reset

  /** Dispatches the app-server did not explicitly reject. */
  function Unrejected(log: seq<Dispatch>): nat {
    if log == [] then 0
    else Unrejected(log[..|log| - 1]) + (if log[|log| - 1].fate.Rejected? then 0 else 1)
  }

  /** Number of the last failure since the last reset, 0 when there is none. */
  function Failures(es: seq<Event>): nat {
    if es == [] then 0
    else match es[|es| - 1]
      case Attempt(_) => Failures(es[..|es| - 1])
      case Failure(n, _) => n
      case Reset => 0
  }

  /** When that failure happened. */
  function FailedAt(es: seq<Event>): int {
    if es == [] then 0
    else match es[|es| - 1]
      case Attempt(_) => FailedAt(es[..|es| - 1])
      case Failure(_, t) => t
      case Reset => 0
  }

  /** The retry schedule: failures since a reset are numbered 1, 2, 3 and no
      further; no attempt follows the third; an attempt after failure n starts
      at least 2^n seconds later. */
  predicate Paced(es: seq<Event>) {
    es == [] ||
    var before := es[..|es| - 1];
    Paced(before) &&
    match es[|es| - 1]
    case Attempt(t) =>
      Failures(before) < 3 &&
      (Failures(before) > 0 ==> t >= FailedAt(before) + Pow2(Failures(before)) * SECOND)
    case Failure(n, _) => n == Failures(before) + 1 && n <= 3
    case Reset => true
  }

  // ---- actors ----------------------------------------------------------

  datatype Actor = WorkerId(id: int) | RetryId(id: int) | ReceiptId(id: int)

  /** What a finished `send` will store; `failedAt` is set for counted failures. */
  datatype Result = Result(file: Delivery, failedAt: Option<int>)

  datatype WorkerPc =
    | Locked
    | Read(prior: Delivery)
    | Probing(prior: Delivery)
    | Claimed(prior: Delivery)
    | Checked(prior: Delivery)
    | Marked(prior: Delivery)
    | Sent(prior: Delivery)
    | Returning(result: Result, holds: bool)
    | Writing(result: Result)

  datatype Worker = Worker(thread: Thread, pc: WorkerPc)
  datatype RetryPc = RetryLocked | RetryApproved
  datatype ReceiptPc = ReceiptLocked | ReceiptSaved

  datatype State = State(
    recipient: Thread,
    inbox: bool,
    delivery: Delivery,
    deliveryLock: Option<Actor>,
    receiptLock: Option<Actor>,
    workers: map<int, Worker>,
    retries: map<int, RetryPc>,
    receipts: map<int, ReceiptPc>,
    now: int,
    archived: bool,
    // history
    receipted: bool,
    log: seq<Dispatch>,
    events: seq<Event>)

  /** A question just accepted for `recipient`. */
  function Accept(recipient: Thread, now: int): State {
    State(recipient, true, Delivery(Absent, 0, 0), None, None,
          map[], map[], map[], now, false, false, [], [])
  }

  // ---- steps -----------------------------------------------------------

  datatype Action =
    | Open(w: int, thread: Thread)
    | Inspect(w: int)
    | Load(w: int)
    | ProbeWaits(w: int)
    | Raise(w: int, valueError: bool)
    | Claim(w: int)
    | Check(w: int)
    | Mark(w: int)
    | Send(w: int)
    | Settle(w: int, fate: Fate, hasTurn: bool)
    | Release(w: int)
    | Store(w: int)
    | RetryOpen(m: int)
    | RetryCheck(m: int, owner: Thread)
    | RetryStore(m: int)
    | ReceiptOpen(r: int)
    | ReceiptSave(r: int)
    | ReceiptUnlink(r: int)
    | Crash(who: Actor)
    | Tick(to: int)
    | Archive

  predicate HoldsReceipt(pc: WorkerPc) {
    pc.Claimed? || pc.Checked? || pc.Marked? || pc.Sent? || (pc.Returning? && pc.holds)
  }

  predicate MayRaise(pc: WorkerPc) {
    pc.Probing? || pc.Claimed? || pc.Checked? || pc.Marked?
  }

  predicate Enabled(s: State, a: Action) {
    match a
    case Open(w, _) => w !in s.workers && s.deliveryLock.None? && !s.archived
    case Inspect(w) => w in s.workers && s.workers[w].pc.Locked?
    case Load(w) => w in s.workers && s.workers[w].pc.Read?
    case ProbeWaits(w) => w in s.workers && s.workers[w].pc.Probing?
    case Raise(w, _) => w in s.workers && MayRaise(s.workers[w].pc)
    case Claim(w) => w in s.workers && s.workers[w].pc.Probing? && s.receiptLock.None?
    case Check(w) => w in s.workers && s.workers[w].pc.Claimed?
    case Mark(w) => w in s.workers && s.workers[w].pc.Checked?
    case Send(w) => w in s.workers && s.workers[w].pc.Marked?
    case Settle(w, _, _) => w in s.workers && s.workers[w].pc.Sent? && s.log != []
    case Release(w) => w in s.workers && s.workers[w].pc.Returning?
    case Store(w) => w in s.workers && s.workers[w].pc.Writing?
    case RetryOpen(m) => m !in s.retries && s.deliveryLock.None? && !s.archived
    case RetryCheck(m, _) => m in s.retries && s.retries[m].RetryLocked?
    case RetryStore(m) => m in s.retries && s.retries[m].RetryApproved?
    case ReceiptOpen(r) => r !in s.receipts && s.receiptLock.None? && !s.archived
    case ReceiptSave(r) => r in s.receipts && s.receipts[r].ReceiptLocked?
    case ReceiptUnlink(r) => r in s.receipts && s.receipts[r].ReceiptSaved?
    case Crash(_) => true
    case Tick(to) => to >= s.now
    case Archive => !s.archived
  }

  function Freed(lock: Option<Actor>, who: Actor): Option<Actor> {
    if lock == Some(who) then None else lock
  }

  /** An actor that returns, or dies: its locks are released, the files stay. */
  function Gone(s: State, who: Actor): State {
    s.(deliveryLock := Freed(s.deliveryLock, who),
       receiptLock := Freed(s.receiptLock, who),
       workers := if who.WorkerId? then s.workers - {who.id} else s.workers,
       retries := if who.RetryId? then s.retries - {who.id} else s.retries,
       receipts := if who.ReceiptId? then s.receipts - {who.id} else s.receipts)
  }

  function To(s: State, w: int, pc: WorkerPc): State
    requires w in s.workers
  {
    s.(workers := s.workers[w := s.workers[w].(pc := pc)])
  }

  /** The `except Exception` branch: what an error stores, given the state file
      on disk, the state read before the attempt and the kind of error. */
  function OnError(disk: Delivery, prior: Delivery, now: int, rpcError: bool, valueError: bool): Result {
    var attempts := prior.attempts + 1;
    var kind :=
      if disk.kind.Dispatching? && !rpcError then Uncertain
      else if valueError || attempts >= 3 then Failed
      else Retry;
    Result(Delivery(kind, attempts, now + Pow2(attempts) * SECOND), Some(now))
  }

  function DoInspect(s: State, w: int): State
    requires w in s.workers
  {
    if Terminal(s.delivery.kind) || s.now < s.delivery.retryAt then Gone(s, WorkerId(w))
    else To(s, w, Read(s.delivery))
  }

  function DoLoad(s: State, w: int): State
    requires w in s.workers && s.workers[w].pc.Read?
  {
    if !s.inbox then Gone(s, WorkerId(w))
    else if s.recipient != s.workers[w].thread then
      To(s, w, Writing(Result(Delivery(Failed, 0, 0), None)))
    else To(s, w, Probing(s.workers[w].pc.prior)).(events := s.events + [Attempt(s.now)])
  }

  function DoRaise(s: State, w: int, valueError: bool): State
    requires w in s.workers && MayRaise(s.workers[w].pc)
  {
    var pc := s.workers[w].pc;
    To(s, w, Returning(OnError(s.delivery, pc.prior, s.now, false, valueError), !pc.Probing?))
  }

  function DoCheck(s: State, w: int): State
    requires w in s.workers && s.workers[w].pc.Claimed?
  {
    if s.inbox then To(s, w, Checked(s.workers[w].pc.prior))
    else To(s, w, Returning(Result(Delivery(Processed, 0, 0), None), true))
  }

  function DoSend(s: State, w: int): State
    requires w in s.workers && s.workers[w].pc.Marked?
  {
    To(s, w, Sent(s.workers[w].pc.prior)).(log := s.log + [Dispatch(s.workers[w].thread, Unknown)])
  }

  function DoSettle(s: State, w: int, fate: Fate, hasTurn: bool): State
    requires w in s.workers && s.workers[w].pc.Sent? && s.log != []
  {
    var last := |s.log| - 1;
    var result :=
      if fate.Accepted? && hasTurn then Result(Delivery(Delivered, 0, 0), None)
      else OnError(s.delivery, s.workers[w].pc.prior, s.now, fate.Rejected?, false);
    To(s, w, Returning(result, true)).(log := s.log[last := s.log[last].(fate := fate)])
  }

  function Recorded(r: Result): seq<Event> {
    if r.failedAt.Some? then [Failure(r.file.attempts, r.failedAt.value)]
    else if r.file.kind.Waiting? then [Reset]
    else []
  }

  function DoStore(s: State, w: int): State
    requires w in s.workers && s.workers[w].pc.Writing?
  {
    var r := s.workers[w].pc.result;
    Gone(s, WorkerId(w)).(delivery := r.file, events := s.events + Recorded(r))
  }

  function DoRetryCheck(s: State, m: int, owner: Thread): State {
    if (s.delivery.kind.Failed? || s.delivery.kind.Retry?) && s.inbox && owner == s.recipient
    then s.(retries := s.retries[m := RetryApproved])
    else Gone(s, RetryId(m))
  }

  function Next(s: State, a: Action): State
    requires Enabled(s, a)
  {
    match a
    case Open(w, thread) =>
      s.(deliveryLock := Some(WorkerId(w)), workers := s.workers[w := Worker(thread, Locked)])
    case Inspect(w) => DoInspect(s, w)
    case Load(w) => DoLoad(s, w)
    case ProbeWaits(w) => To(s, w, Returning(Result(Delivery(Waiting, 0, 0), None), false))
    case Raise(w, valueError) => DoRaise(s, w, valueError)
    case Claim(w) => To(s, w, Claimed(s.workers[w].pc.prior)).(receiptLock := Some(WorkerId(w)))
    case Check(w) => DoCheck(s, w)
    case Mark(w) => To(s, w, Marked(s.workers[w].pc.prior)).(delivery := Delivery(Dispatching, 0, 0))
    case Send(w) => DoSend(s, w)
    case Settle(w, fate, hasTurn) => DoSettle(s, w, fate, hasTurn)
    case Release(w) =>
      To(s, w, Writing(s.workers[w].pc.result)).(receiptLock := Freed(s.receiptLock, WorkerId(w)))
    case Store(w) => DoStore(s, w)
    case RetryOpen(m) =>
      s.(deliveryLock := Some(RetryId(m)), retries := s.retries[m := RetryLocked])
    case RetryCheck(m, owner) => DoRetryCheck(s, m, owner)
    case RetryStore(m) =>
      Gone(s, RetryId(m)).(delivery := Delivery(Queued, 0, 0), events := s.events + [Reset])
    case ReceiptOpen(r) =>
      s.(receiptLock := Some(ReceiptId(r)), receipts := s.receipts[r := ReceiptLocked])
    case ReceiptSave(r) => s.(receipts := s.receipts[r := ReceiptSaved])
    case ReceiptUnlink(r) => Gone(s, ReceiptId(r)).(inbox := false, receipted := true)
    case Crash(who) => Gone(s, who)
    case Tick(to) => s.(now := to)
    case Archive =>
      s.(archived := true, inbox := false, delivery := Delivery(Absent, 0, 0))
  }

  predicate Valid(s: State, acts: seq<Action>)
    decreases acts
  {
    acts == [] || (Enabled(s, acts[0]) && Valid(Next(s, acts[0]), acts[1..]))
  }

  function Exec(s: State, acts: seq<Action>): State
    requires Valid(s, acts)
    decreases acts
  {
    if acts == [] then s else Exec(Next(s, acts[0]), acts[1..])
  }

  // ---- the inductive invariant ----------------------------------------

  predicate Quiet(s: State) { Unrejected(s.log) == 0 }

  predicate LockInv(s: State) {
    (forall w :: w in s.workers ==> s.deliveryLock == Some(WorkerId(w))) &&
    (forall m :: m in s.retries ==> s.deliveryLock == Some(RetryId(m))) &&
    (forall w :: w in s.workers && HoldsReceipt(s.workers[w].pc) ==> s.receiptLock == Some(WorkerId(w))) &&
    (forall r :: r in s.receipts ==> s.receiptLock == Some(ReceiptId(r)))
  }

  /** What a stored state means for the history. */
  predicate Truthful(d: Delivery, log: seq<Dispatch>, inbox: bool) {
    match d.kind
    case Delivered => exists i :: 0 <= i < |log| && log[i].fate.Accepted?
    case Processed => !inbox && Unrejected(log) == 0
    case Dispatching => Unrejected(log) <= 1
    case Uncertain => Unrejected(log) <= 1
    case _ => Unrejected(log) == 0
  }

  /** The stored attempt counter and retry time agree with the history. */
  predicate Counted(d: Delivery, es: seq<Event>) {
    match d.kind
    case Retry =>
      1 <= d.attempts <= 2 && d.attempts == Failures(es) &&
      d.retryAt == FailedAt(es) + Pow2(d.attempts) * SECOND
    case Absent => d.attempts == 0 && Failures(es) == 0
    case Queued => d.attempts == 0 && Failures(es) == 0
    case Waiting => d.attempts == 0 && Failures(es) == 0
    case _ => true
  }

  /** A worker between its state check and its request. */
  predicate Undispatched(s: State, wk: Worker, prior: Delivery) {
    wk.thread == s.recipient && Quiet(s) && prior.attempts == Failures(s.events) <= 2
  }

  predicate ResultInv(s: State, r: Result) {
    (!s.archived ==> Truthful(r.file, s.log, s.inbox)) &&
    !r.file.kind.Absent? && !r.file.kind.Queued? && !r.file.kind.Dispatching? &&
    (r.failedAt.Some? ==>
      r.file.attempts == Failures(s.events) + 1 <= 3 &&
      r.file.retryAt == r.failedAt.value + Pow2(r.file.attempts) * SECOND &&
      (r.file.kind.Retry? || r.file.kind.Failed? || r.file.kind.Uncertain?) &&
      (r.file.attempts == 3 ==> !r.file.kind.Retry?)) &&
    (r.failedAt.None? ==>
      !r.file.kind.Retry? && r.file.attempts == 0)
  }

  predicate WorkerInv(s: State, wk: Worker) {
    match wk.pc
    case Locked => true
    case Read(p) =>
      !Terminal(p.kind) && p.retryAt <= s.now && (!s.archived ==> s.delivery == p)
    case Probing(p) =>
      Undispatched(s, wk, p) && !Terminal(p.kind) && (!s.archived ==> s.delivery == p)
    case Claimed(p) =>
      Undispatched(s, wk, p) && !Terminal(p.kind) && (!s.archived ==> s.delivery == p)
    case Checked(p) =>
      Undispatched(s, wk, p) && !Terminal(p.kind) &&
      (!s.archived ==> s.delivery == p && s.inbox && !s.receipted)
    case Marked(p) =>
      Undispatched(s, wk, p) &&
      (!s.archived ==> s.delivery.kind.Dispatching? && s.inbox && !s.receipted)
    case Sent(p) =>
      p.attempts == Failures(s.events) <= 2 &&
      s.log != [] && s.log[|s.log| - 1].fate.Unknown? && Unrejected(s.log[..|s.log| - 1]) == 0 &&
      (!s.archived ==> s.delivery.kind.Dispatching? && s.inbox && !s.receipted)
    case Returning(r, _) => ResultInv(s, r)
    case Writing(r) => ResultInv(s, r)
  }

  predicate HistoryInv(s: State) {
    Unrejected(s.log) <= 1 &&
    (forall i :: 0 <= i < |s.log| ==> s.log[i].thread == s.recipient) &&
    (!s.archived ==> Truthful(s.delivery, s.log, s.inbox) && Counted(s.delivery, s.events)) &&
    (s.archived || s.receipted ==> !s.inbox) &&
    Paced(s.events)
  }

  predicate ActorInv(s: State) {
    (forall w :: w in s.workers ==> WorkerInv(s, s.workers[w])) &&
    (forall m :: m in s.retries && s.retries[m].RetryApproved? && !s.archived ==>
       s.delivery.kind.Failed? || s.delivery.kind.Retry?)
  }

  predicate Inv(s: State) {
    LockInv(s) && HistoryInv(s) && ActorInv(s)
  }

  // ---- every step keeps it ---------------------------------------------

  lemma LogAppend(log: seq<Dispatch>, d: Dispatch)
    ensures Unrejected(log + [d]) == Unrejected(log) + (if d.fate.Rejected? then 0 else 1)
  {
    assert (log + [d])[..|log|] == log;
  }

  lemma LogSettle(log: seq<Dispatch>, d: Dispatch)
    requires log != []
    ensures Unrejected(log[|log| - 1 := d]) ==
            Unrejected(log[..|log| - 1]) + (if d.fate.Rejected? then 0 else 1)
  {
    assert log[|log| - 1 := d][..|log| - 1] == log[..|log| - 1];
  }

  lemma EventAppend(es: seq<Event>, e: Event)
    ensures Failures(es + [e]) == (match e case Attempt(_) => Failures(es) case Failure(n, _) => n case Reset => 0)
    ensures FailedAt(es + [e]) == (match e case Attempt(_) => FailedAt(es) case Failure(_, t) => t case Reset => 0)
    ensures Paced(es + [e]) <==> Paced(es) && match e
              case Attempt(t) =>
                Failures(es) < 3 &&
                (Failures(es) > 0 ==> t >= FailedAt(es) + Pow2(Failures(es)) * SECOND)
              case Failure(n, _) => n == Failures(es) + 1 && n <= 3
              case Reset => true
  {
    assert (es + [e])[..|es|] == es;
  }

  /** The delivery lock excludes: while a worker runs, no other worker and no
      manual retry does. */
  lemma Alone(s: State, w: int)
    requires LockInv(s) && w in s.workers
    ensures s.workers == map[w := s.workers[w]] && s.retries == map[]
  {
    assert forall v :: v in s.workers ==> v == w;
    assert forall m :: m !in s.retries;
  }

  /** Moving the one running worker to another program point. */
  lemma WorkerMoves(s: State, w: int, t: State, pc: WorkerPc)
    requires Inv(s) && w in s.workers
    requires t.workers == s.workers[w := s.workers[w].(pc := pc)]
    requires t.deliveryLock == s.deliveryLock && t.retries == s.retries && t.receipts == s.receipts
    requires t.receiptLock == s.receiptLock || t.receipts == map[]
    requires HoldsReceipt(pc) ==> t.receiptLock == Some(WorkerId(w))
    requires HistoryInv(t) && WorkerInv(t, s.workers[w].(pc := pc))
    ensures Inv(t)
  {
    Alone(s, w);
  }

  /** An actor leaving by return or crash releases only what it held. */
  lemma GoneKeeps(s: State, who: Actor)
    requires Inv(s)
    ensures Inv(Gone(s, who))
  {
    var t := Gone(s, who);
    assert LockInv(t);
    assert forall w :: w in t.workers ==> WorkerInv(t, s.workers[w]);
  }

  lemma InspectKeeps(s: State, w: int)
    requires Inv(s) && Enabled(s, Inspect(w))
    ensures Inv(DoInspect(s, w))
  {
    GoneKeeps(s, WorkerId(w));
    if !(Terminal(s.delivery.kind) || s.now < s.delivery.retryAt) {
      WorkerMoves(s, w, DoInspect(s, w), Read(s.delivery));
    }
  }

  lemma LoadMatching(s: State, w: int)
    requires Inv(s) && w in s.workers && s.workers[w].pc.Read?
    requires s.inbox && s.recipient == s.workers[w].thread
    ensures Inv(DoLoad(s, w))
  {
    EventAppend(s.events, Attempt(s.now));
    var t := DoLoad(s, w);
    assert !s.archived;
    assert HistoryInv(t);
    WorkerMoves(s, w, t, Probing(s.workers[w].pc.prior));
  }

  lemma LoadKeeps(s: State, w: int)
    requires Inv(s) && w in s.workers && s.workers[w].pc.Read?
    ensures Inv(DoLoad(s, w))
  {
    if !s.inbox {
      GoneKeeps(s, WorkerId(w));
    } else if s.recipient != s.workers[w].thread {
      WorkerMoves(s, w, DoLoad(s, w), Writing(Result(Delivery(Failed, 0, 0), None)));
    } else {
      LoadMatching(s, w);
    }
  }

  lemma RaiseKeeps(s: State, w: int, valueError: bool)
    requires Inv(s) && w in s.workers && MayRaise(s.workers[w].pc)
    ensures Inv(DoRaise(s, w, valueError))
  {
    var t := DoRaise(s, w, valueError);
    WorkerMoves(s, w, t, t.workers[w].pc);
  }

  lemma ClaimKeeps(s: State, w: int)
    requires Inv(s) && Enabled(s, Claim(w))
    ensures Inv(Next(s, Claim(w)))
  {
    assert s.receipts == map[] by {
      assert forall r :: r !in s.receipts;
    }
    WorkerMoves(s, w, Next(s, Claim(w)), Claimed(s.workers[w].pc.prior));
  }

  lemma CheckKeeps(s: State, w: int)
    requires Inv(s) && w in s.workers && s.workers[w].pc.Claimed?
    ensures Inv(DoCheck(s, w))
  {
    var t := DoCheck(s, w);
    WorkerMoves(s, w, t, t.workers[w].pc);
  }

  lemma MarkKeeps(s: State, w: int)
    requires Inv(s) && Enabled(s, Mark(w))
    ensures Inv(Next(s, Mark(w)))
  {
    WorkerMoves(s, w, Next(s, Mark(w)), Marked(s.workers[w].pc.prior));
  }

  lemma SendKeeps(s: State, w: int)
    requires Inv(s) && w in s.workers && s.workers[w].pc.Marked?
    ensures Inv(DoSend(s, w))
  {
    LogAppend(s.log, Dispatch(s.workers[w].thread, Unknown));
    var t := DoSend(s, w);
    assert t.log[..|t.log| - 1] == s.log;
    WorkerMoves(s, w, t, t.workers[w].pc);
  }

  lemma SettleKeeps(s: State, w: int, fate: Fate, hasTurn: bool)
    requires Inv(s) && Enabled(s, Settle(w, fate, hasTurn))
    ensures Inv(DoSettle(s, w, fate, hasTurn))
  {
    LogSettle(s.log, s.log[|s.log| - 1].(fate := fate));
    var t := DoSettle(s, w, fate, hasTurn);
    WorkerMoves(s, w, t, t.workers[w].pc);
  }

  lemma ReleaseKeeps(s: State, w: int)
    requires Inv(s) && Enabled(s, Release(w))
    ensures Inv(Next(s, Release(w)))
  {
    assert s.receiptLock == Some(WorkerId(w)) ==> s.receipts == map[] by {
      if s.receiptLock == Some(WorkerId(w)) {
        assert forall r :: r !in s.receipts;
      }
    }
    WorkerMoves(s, w, Next(s, Release(w)), Writing(s.workers[w].pc.result));
  }

  /** The last step of a lock holder: only the history facts remain to check. */
  lemma HolderLeaves(s: State, who: Actor, t: State)
    requires Inv(s) && s.deliveryLock == Some(who) && !who.ReceiptId?
    requires t.workers == Gone(s, who).workers && t.retries == Gone(s, who).retries
    requires t.receipts == s.receipts && t.receiptLock == Freed(s.receiptLock, who)
    requires HistoryInv(t)
    ensures Inv(t)
  {
    assert forall w :: w !in t.workers;
    assert forall m :: m !in t.retries;
  }

  lemma StoredCounts(es: seq<Event>, r: Result)
    requires Paced(es)
    requires r.failedAt.Some? ==> r.file.attempts == Failures(es) + 1 <= 3 &&
                                  r.file.retryAt == r.failedAt.value + Pow2(r.file.attempts) * SECOND &&
                                  (r.file.attempts == 3 ==> !r.file.kind.Retry?)
    requires r.failedAt.Some? ==> r.file.kind.Retry? || r.file.kind.Failed? || r.file.kind.Uncertain?
    requires r.failedAt.None? ==> !r.file.kind.Retry? && r.file.attempts == 0
    requires !r.file.kind.Absent? && !r.file.kind.Queued?
    ensures Paced(es + Recorded(r)) && Counted(r.file, es + Recorded(r))
  {
    if r.failedAt.Some? {
      EventAppend(es, Failure(r.file.attempts, r.failedAt.value));
    } else if r.file.kind.Waiting? {
      EventAppend(es, Reset);
    } else {
      assert es + [] == es;
    }
  }

  lemma StoreKeeps(s: State, w: int)
    requires Inv(s) && w in s.workers && s.workers[w].pc.Writing?
    ensures Inv(DoStore(s, w))
  {
    var r := s.workers[w].pc.result;
    assert ResultInv(s, r) by {
      assert WorkerInv(s, s.workers[w]);
    }
    StoredCounts(s.events, r);
    HolderLeaves(s, WorkerId(w), DoStore(s, w));
  }

  lemma OpenKeeps(s: State, w: int, thread: Thread)
    requires Inv(s) && Enabled(s, Open(w, thread))
    ensures Inv(Next(s, Open(w, thread)))
  {
    assert forall v :: v !in s.workers;
    assert forall m :: m !in s.retries;
  }

  lemma RetryOpenKeeps(s: State, m: int)
    requires Inv(s) && Enabled(s, RetryOpen(m))
    ensures Inv(Next(s, RetryOpen(m)))
  {
    assert forall v :: v !in s.workers;
    assert forall v :: v !in s.retries;
  }

  lemma RetryCheckKeeps(s: State, m: int, owner: Thread)
    requires Inv(s) && m in s.retries
    ensures Inv(DoRetryCheck(s, m, owner))
  {
    GoneKeeps(s, RetryId(m));
    assert forall v :: v !in s.workers;
    assert forall v :: v in s.retries ==> v == m;
  }

  lemma RetryStoreKeeps(s: State, m: int)
    requires Inv(s) && Enabled(s, RetryStore(m))
    ensures Inv(Next(s, RetryStore(m)))
  {
    EventAppend(s.events, Reset);
    HolderLeaves(s, RetryId(m), Next(s, RetryStore(m)));
  }

  lemma ReceiptOpenKeeps(s: State, r: int)
    requires Inv(s) && Enabled(s, ReceiptOpen(r))
    ensures Inv(Next(s, ReceiptOpen(r)))
  {
    assert forall v :: v in s.workers ==> !HoldsReceipt(s.workers[v].pc);
    assert forall v :: v !in s.receipts;
    var t := Next(s, ReceiptOpen(r));
    assert forall v :: v in t.workers ==> WorkerInv(t, s.workers[v]);
  }

  lemma ReceiptSaveKeeps(s: State, r: int)
    requires Inv(s) && Enabled(s, ReceiptSave(r))
    ensures Inv(Next(s, ReceiptSave(r)))
  {
    var t := Next(s, ReceiptSave(r));
    assert LockInv(t);
    assert forall v :: v in t.workers ==> WorkerInv(t, s.workers[v]);
  }

  /** Removing the inbox file is safe while no worker is between its own inbox
      check and the end of its dispatch. */
  lemma UnlinkKeeps(s: State)
    requires Inv(s) && forall w :: w in s.workers ==> !HoldsReceipt(s.workers[w].pc)
    ensures Inv(s.(inbox := false, receipted := true))
  {
    var t := s.(inbox := false, receipted := true);
    assert forall w :: w in t.workers ==> WorkerInv(t, s.workers[w]);
  }

  lemma ReceiptUnlinkKeeps(s: State, r: int)
    requires Inv(s) && Enabled(s, ReceiptUnlink(r))
    ensures Inv(Next(s, ReceiptUnlink(r)))
  {
    GoneKeeps(s, ReceiptId(r));
    UnlinkKeeps(Gone(s, ReceiptId(r)));
  }

  lemma ArchiveKeeps(s: State)
    requires Inv(s) && Enabled(s, Archive)
    ensures Inv(Next(s, Archive))
  {
    var t := Next(s, Archive);
    assert forall w :: w in t.workers ==> WorkerInv(t, s.workers[w]);
  }

  lemma TickKeeps(s: State, to: int)
    requires Inv(s) && s.now <= to
    ensures Inv(s.(now := to))
  {
    assert forall w :: w in s.workers ==> WorkerInv(s.(now := to), s.workers[w]);
  }

  predicate ByWorker(a: Action) {
    a.Open? || a.Inspect? || a.Load? || a.ProbeWaits? || a.Raise? || a.Claim? ||
    a.Check? || a.Mark? || a.Send? || a.Settle? || a.Release? || a.Store?
  }

  lemma ProbeKeeps(s: State, w: int)
    requires Inv(s) && Enabled(s, ProbeWaits(w))
    ensures Inv(Next(s, ProbeWaits(w)))
  {
    WorkerMoves(s, w, Next(s, ProbeWaits(w)), Returning(Result(Delivery(Waiting, 0, 0), None), false));
  }

  lemma WorkerStepKeeps(s: State, a: Action)
    requires Inv(s) && Enabled(s, a) && ByWorker(a)
    ensures Inv(Next(s, a))
  {
    match a {
      case Open(w, thread) => OpenKeeps(s, w, thread);
      case Inspect(w) => InspectKeeps(s, w);
      case Load(w) => LoadKeeps(s, w);
      case ProbeWaits(w) => ProbeKeeps(s, w);
      case Raise(w, valueError) => RaiseKeeps(s, w, valueError);
      case Claim(w) => ClaimKeeps(s, w);
      case Check(w) => CheckKeeps(s, w);
      case Mark(w) => MarkKeeps(s, w);
      case Send(w) => SendKeeps(s, w);
      case Settle(w, fate, hasTurn) => SettleKeeps(s, w, fate, hasTurn);
      case Release(w) => ReleaseKeeps(s, w);
      case Store(w) => StoreKeeps(s, w);
    }
  }

  lemma StepKeeps(s: State, a: Action)
    requires Inv(s) && Enabled(s, a)
    ensures Inv(Next(s, a))
  {
    match a {
      case RetryOpen(m) => RetryOpenKeeps(s, m);
      case RetryCheck(m, owner) => RetryCheckKeeps(s, m, owner);
      case RetryStore(m) => RetryStoreKeeps(s, m);
      case ReceiptOpen(r) => ReceiptOpenKeeps(s, r);
      case ReceiptSave(r) => ReceiptSaveKeeps(s, r);
      case ReceiptUnlink(r) => ReceiptUnlinkKeeps(s, r);
      case Crash(who) => GoneKeeps(s, who);
      case Tick(to) => TickKeeps(s, to);
      case Archive => ArchiveKeeps(s);
      case _ => WorkerStepKeeps(s, a);
    }
  }

  lemma {:induction false} RunKeeps(s: State, acts: seq<Action>)
    requires Inv(s) && Valid(s, acts)
    ensures Inv(Exec(s, acts))
    decreases acts
  {
    if acts != [] {
      StepKeeps(s, acts[0]);
      RunKeeps(Next(s, acts[0]), acts[1..]);
    }
  }

  // ---- what every run guarantees ----------------------------------------

  lemma Reached(recipient: Thread, now: int, acts: seq<Action>)
    requires Valid(Accept(recipient, now), acts)
    ensures Inv(Exec(Accept(recipient, now), acts))
  {
    RunKeeps(Accept(recipient, now), acts);
  }

  lemma {:induction false} NoneUnrejected(log: seq<Dispatch>)
    ensures Unrejected(log) == 0 <==> forall i :: 0 <= i < |log| ==> log[i].fate.Rejected?
  {
    if log != [] {
      var before := log[..|log| - 1];
      NoneUnrejected(before);
      assert forall i :: 0 <= i < |before| ==> before[i] == log[i];
      if forall i :: 0 <= i < |log| ==> log[i].fate.Rejected? {
        assert forall i :: 0 <= i < |before| ==> before[i].fate.Rejected?;
      }
    }
  }

  lemma {:induction false} OneUnrejected(log: seq<Dispatch>, i: int, j: int)
    requires Unrejected(log) <= 1 && 0 <= i < j < |log|
    ensures log[i].fate.Rejected? || log[j].fate.Rejected?
  {
    var before := log[..|log| - 1];
    if j < |log| - 1 {
      OneUnrejected(before, i, j);
      assert before[i] == log[i] && before[j] == log[j];
    } else if !log[j].fate.Rejected? {
      NoneUnrejected(before);
      assert before[i] == log[i];
    }
  }

  /** At most once: in every run, of any two dispatches of the question at least
      one was explicitly rejected by the app-server. */
  lemma AtMostOneDispatch(recipient: Thread, now: int, acts: seq<Action>, i: int, j: int)
    requires Valid(Accept(recipient, now), acts)
    requires 0 <= i < j < |Exec(Accept(recipient, now), acts).log|
    ensures var log := Exec(Accept(recipient, now), acts).log;
            log[i].fate.Rejected? || log[j].fate.Rejected?
  {
    Reached(recipient, now, acts);
    OneUnrejected(Exec(Accept(recipient, now), acts).log, i, j);
  }

  /** Until the mailbox is archived the stored state tells the truth about what
      was sent: see `Truthful`; in particular a state that permits another
      attempt means that every dispatch so far was rejected. */
  lemma StoredStateIsTruthful(recipient: Thread, now: int, acts: seq<Action>)
    requires Valid(Accept(recipient, now), acts)
    ensures var s := Exec(Accept(recipient, now), acts);
            !s.archived ==>
              Truthful(s.delivery, s.log, s.inbox) &&
              (!Terminal(s.delivery.kind) || s.delivery.kind.Failed? ==>
                 forall i :: 0 <= i < |s.log| ==> s.log[i].fate.Rejected?)
  {
    Reached(recipient, now, acts);
    NoneUnrejected(Exec(Accept(recipient, now), acts).log);
  }

  /** Every dispatch goes to the thread that owned the label when the question
      was accepted, whatever endpoint the worker was started for. */
  lemma DispatchesGoToTheOwner(recipient: Thread, now: int, acts: seq<Action>, i: int)
    requires Valid(Accept(recipient, now), acts)
    requires 0 <= i < |Exec(Accept(recipient, now), acts).log|
    ensures Exec(Accept(recipient, now), acts).log[i].thread == recipient
  {
    Reached(recipient, now, acts);
    RecipientFixed(Accept(recipient, now), acts);
  }

  lemma WorkerRecipient(s: State, a: Action)
    requires Enabled(s, a) && ByWorker(a)
    ensures Next(s, a).recipient == s.recipient
  {
  }

  lemma RecipientStep(s: State, a: Action)
    requires Enabled(s, a)
    ensures Next(s, a).recipient == s.recipient
  {
    if ByWorker(a) {
      WorkerRecipient(s, a);
    }
  }

  lemma {:induction false} RecipientFixed(s: State, acts: seq<Action>)
    requires Valid(s, acts)
    ensures Exec(s, acts).recipient == s.recipient
    decreases acts
  {
    if acts != [] {
      RecipientStep(s, acts[0]);
      RecipientFixed(Next(s, acts[0]), acts[1..]);
    }
  }

  /** Receipts and dispatches exclude one another: when a request goes out, and
      while its outcome is pending, no receipt of the question is in progress
      and none has completed. */
  lemma ReceiptsExcludeDispatches(recipient: Thread, now: int, acts: seq<Action>, w: int)
    requires Valid(Accept(recipient, now), acts)
    requires var s := Exec(Accept(recipient, now), acts);
             !s.archived && w in s.workers && (s.workers[w].pc.Marked? || s.workers[w].pc.Sent?)
    ensures var s := Exec(Accept(recipient, now), acts);
            s.receipts == map[] && !s.receipted && s.inbox && s.workers.Keys == {w}
  {
    Reached(recipient, now, acts);
    var s := Exec(Accept(recipient, now), acts);
    Alone(s, w);
    assert WorkerInv(s, s.workers[w]);
    assert forall r :: r !in s.receipts;
  }

  /** The retry schedule holds of the whole history; `AtMostThreeFailures` reads
      it as a bound on every stretch between two resets. */
  lemma AttemptsArePaced(recipient: Thread, now: int, acts: seq<Action>)
    requires Valid(Accept(recipient, now), acts)
    ensures var s := Exec(Accept(recipient, now), acts);
            Paced(s.events) &&
            (!s.archived && Failures(s.events) == 3 ==> Terminal(s.delivery.kind))
  {
    Reached(recipient, now, acts);
  }

  function FailureCount(es: seq<Event>): nat {
    if es == [] then 0
    else FailureCount(es[..|es| - 1]) + (if es[|es| - 1].Failure? then 1 else 0)
  }

  lemma {:induction false} FailuresCounted(before: seq<Event>, run: seq<Event>)
    requires Paced(before + run) && forall i :: 0 <= i < |run| ==> !run[i].Reset?
    ensures Failures(before + run) == Failures(before) + FailureCount(run)
    ensures Failures(before + run) <= 3 || FailureCount(run) == 0
    decreases run
  {
    if run == [] {
      assert before + run == before;
    } else {
      var shorter := run[..|run| - 1];
      assert before + run == (before + shorter) + [run[|run| - 1]];
      EventAppend(before + shorter, run[|run| - 1]);
      FailuresCounted(before, shorter);
    }
  }

  /** Between two resets (a `waiting` result or a manual retry) no more than
      three attempts fail. */
  lemma AtMostThreeFailures(es: seq<Event>, i: int, j: int)
    requires Paced(es) && 0 <= i <= j <= |es|
    requires forall k :: i <= k < j ==> !es[k].Reset?
    ensures FailureCount(es[i..j]) <= 3
  {
    PacedPrefix(es, j);
    assert es[..i] + es[i..j] == es[..j];
    FailuresCounted(es[..i], es[i..j]);
  }

  lemma {:induction false} PacedPrefix(es: seq<Event>, j: int)
    requires Paced(es) && 0 <= j <= |es|
    ensures Paced(es[..j])
    decreases |es|
  {
    if j < |es| {
      PacedPrefix(es[..|es| - 1], j);
      assert es[..|es| - 1][..j] == es[..j];
    } else {
      assert es[..j] == es;
    }
  }

  /** Back-off: an attempt after failure n, with no reset in between, starts at
      least 2^n seconds after that failure. */
  lemma AttemptsBackOff(es: seq<Event>, i: int, j: int)
    requires Paced(es) && 0 <= i < j < |es|
    requires es[i].Failure? && es[j].Attempt?
    requires forall k :: i < k < j ==> es[k].Attempt?
    ensures es[i].n >= 1 && es[j].at >= es[i].at + Pow2(es[i].n) * SECOND
  {
    PacedPrefix(es, i + 1);
    assert es[..i + 1][..i] == es[..i];
    PacedPrefix(es, j + 1);
    assert es[..j + 1][..j] == es[..j];
    LastFailure(es, i, j);
  }

  lemma {:induction false} LastFailure(es: seq<Event>, i: int, j: int)
    requires 0 <= i < j <= |es| && es[i].Failure?
    requires forall k :: i < k < j ==> es[k].Attempt?
    ensures Failures(es[..j]) == es[i].n && FailedAt(es[..j]) == es[i].at
    decreases j
  {
    assert es[..j][..j - 1] == es[..j - 1];
    if i < j - 1 {
      LastFailure(es, i, j - 1);
    }
  }
}
