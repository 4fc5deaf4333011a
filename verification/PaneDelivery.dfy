/** Legacy pane delivery of one message: the direct sender, any number of
    watchdogs and drain hooks share a send lock, a lease on the record and the
    `pane_delivery` state; any of them may crash anywhere. */
module PaneDelivery {
  import opened Prelude

  datatype PaneState = Clear | Dispatching | Uncertain

  /** The inbox record as far as delivery reads it. */
  datatype Rec = Rec(lease: Option<int>, pane: PaneState)

  /** The one sender of the message. */
  const SENDER: int := 0

  datatype Pc =
    // direct sender
    | Created                       // record written with a lease
    | Locked
    | Leased                        // lease renewed under the send lock
    | Marked                        // `dispatching` written
    | Injected
    | Unlinked
    | Tail(delivered: bool, pane: PaneState)   // lock released
    | Rewriting(pane: PaneState)
    // watchdog
    | WatchLocked
    | WatchPicked
    | WatchMarked
    | WatchInjected
    | WatchSaved
    | WatchFailed
    // drain hook
    | HookLocked
    | HookListed
    | HookSaved
    | HookUnlinked

  datatype State = State(
    leasesHold: bool,   // leases outlive their running owners
    file: Option<Rec>,
    processed: bool,
    sendLock: Option<int>,
    actors: map<int, Pc>,
    // history
    attempts: nat,      // injections begun and hook outputs printed
    surfaced: nat)      // times the body reached the receiver

  function Submit(leasesHold: bool, mailboxOnly: bool): State {
    if mailboxOnly then State(leasesHold, Some(Rec(None, Clear)), false, None, map[], 0, 0)
    else State(leasesHold, Some(Rec(Some(SENDER), Clear)), false, None, map[SENDER := Created], 0, 0)
  }

  datatype Action =
    | Lock
    | LockTimeout
    | Renew
    | GiveUp                          // user typing, or an error before the mark
    | Mark
    | Inject(reached: bool, raises: bool)
    | Unlink(works: bool)
    | Verify(stuck: bool)
    | TailCheck
    | TailWrite
    | WatchLock(w: int)
    | WatchPick(w: int, active: bool)
    | WatchMark(w: int, same: bool)
    | WatchInject(w: int, reached: bool, raises: bool)
    | WatchStuck(w: int)
    | WatchSave(w: int)
    | WatchUnlink(w: int)
    | WatchRecord(w: int)
    | HookLock(h: int)
    | HookList(h: int, active: bool)
    | HookSave(h: int)
    | HookUnlink(h: int)
    | HookPrint(h: int)
    | Leave(a: int)                   // an early return of a watchdog or hook, or a crash

  predicate AtPc(s: State, a: int, pc: Pc) {
    a in s.actors && s.actors[a] == pc
  }

  /** A lease check may answer `active` for a lease whose owner is running and may
      not answer otherwise; once the owner is gone either answer is possible until
      the lease runs out. */
  predicate LeaseAnswer(s: State, active: bool) {
    s.file.Some? ==>
      var lease := s.file.value.lease;
      (lease.None? ==> !active) && (lease.Some? && lease.value in s.actors && s.leasesHold ==> active)
  }

  predicate Enabled(s: State, act: Action) {
    match act
    case Lock => AtPc(s, SENDER, Created) && s.sendLock.None?
    case LockTimeout => AtPc(s, SENDER, Created)
    case Renew => AtPc(s, SENDER, Locked)
    case GiveUp => AtPc(s, SENDER, Locked) || AtPc(s, SENDER, Leased)
    case Mark => AtPc(s, SENDER, Leased)
    case Inject(_, _) => AtPc(s, SENDER, Marked)
    case Unlink(_) => AtPc(s, SENDER, Injected)
    case Verify(_) => AtPc(s, SENDER, Unlinked)
    case TailCheck => SENDER in s.actors && s.actors[SENDER].Tail?
    case TailWrite => SENDER in s.actors && s.actors[SENDER].Rewriting?
    case WatchLock(w) => w != SENDER && w !in s.actors && s.sendLock.None?
    case WatchPick(w, active) => AtPc(s, w, WatchLocked) && LeaseAnswer(s, active)
    case WatchMark(w, _) => AtPc(s, w, WatchPicked)
    case WatchInject(w, _, _) => AtPc(s, w, WatchMarked)
    case WatchStuck(w) => AtPc(s, w, WatchInjected)
    case WatchSave(w) => AtPc(s, w, WatchInjected)
    case WatchUnlink(w) => AtPc(s, w, WatchSaved)
    case WatchRecord(w) => AtPc(s, w, WatchFailed)
    case HookLock(h) => h != SENDER && h !in s.actors && s.sendLock.None?
    case HookList(h, active) => AtPc(s, h, HookLocked) && LeaseAnswer(s, active)
    case HookSave(h) => AtPc(s, h, HookListed)
    case HookUnlink(h) => AtPc(s, h, HookSaved)
    case HookPrint(h) => AtPc(s, h, HookUnlinked)
    case Leave(a) => a in s.actors
  }

  function Unlocked(s: State, a: int): State {
    s.(sendLock := if s.sendLock == Some(a) then None else s.sendLock)
  }

  function Gone(s: State, a: int): State {
    Unlocked(s, a).(actors := s.actors - {a})
  }

  function To(s: State, a: int, pc: Pc): State {
    s.(actors := s.actors[a := pc])
  }

  function Count(s: State, reached: bool): State {
    s.(attempts := s.attempts + 1, surfaced := s.surfaced + if reached then 1 else 0)
  }

  predicate MayTake(s: State, active: bool) {
    s.file.Some? && s.file.value.pane.Clear? && !active
  }

  function SenderStep(s: State, act: Action): State
    requires Enabled(s, act)
  {
    match act
    case Lock => To(s, SENDER, Locked).(sendLock := Some(SENDER))
    case LockTimeout => To(s, SENDER, Tail(false, Clear))
    case Renew =>
      if s.file.None? then To(Unlocked(s, SENDER), SENDER, Tail(true, Clear))
      else To(s, SENDER, Leased).(file := Some(Rec(Some(SENDER), Clear)))
    case GiveUp => To(Unlocked(s, SENDER), SENDER, Tail(false, Clear))
    case Mark => To(s, SENDER, Marked).(file := Some(Rec(Some(SENDER), Dispatching)))
    case Inject(reached, raises) =>
      if raises then To(Unlocked(Count(s, reached), SENDER), SENDER, Tail(false, Uncertain))
      else To(Count(s, reached), SENDER, Injected)
    case Unlink(works) => To(s, SENDER, Unlinked).(file := if works then None else s.file)
    case Verify(stuck) =>
      if stuck
      then To(Unlocked(s, SENDER), SENDER, Tail(false, Dispatching)).(file := Some(Rec(Some(SENDER), Dispatching)))
      else To(Unlocked(s, SENDER), SENDER, Tail(true, Dispatching))
    case TailCheck =>
      var pc := s.actors[SENDER];
      if pc.delivered then Gone(s, SENDER).(file := None)
      else if s.file.None? then Gone(s, SENDER)
      else To(s, SENDER, Rewriting(pc.pane))
    case TailWrite => Gone(s, SENDER).(file := Some(Rec(None, s.actors[SENDER].pane)))
    case _ => s
  }

  function WatchStep(s: State, act: Action): State
    requires Enabled(s, act)
  {
    match act
    case WatchLock(w) => To(s, w, WatchLocked).(sendLock := Some(w))
    case WatchPick(w, active) => if MayTake(s, active) then To(s, w, WatchPicked) else Gone(s, w)
    case WatchMark(w, same) =>
      if s.file.None? || !same then Gone(s, w)
      else To(s, w, WatchMarked).(file := Some(Rec(Some(w), Dispatching)))
    case WatchInject(w, reached, raises) =>
      To(Count(s, reached), w, if raises then WatchFailed else WatchInjected)
    case WatchStuck(w) => To(s, w, WatchFailed)
    case WatchSave(w) => To(s, w, WatchSaved).(processed := true)
    case WatchUnlink(w) => Gone(s, w).(file := None)
    case WatchRecord(w) =>
      if s.file.None? then Gone(s, w) else Gone(s, w).(file := Some(Rec(None, Uncertain)))
    case _ => s
  }

  function HookStep(s: State, act: Action): State
    requires Enabled(s, act)
  {
    match act
    case HookLock(h) => To(s, h, HookLocked).(sendLock := Some(h))
    case HookList(h, active) => if MayTake(s, active) then To(s, h, HookListed) else Gone(s, h)
    case HookSave(h) => To(s, h, HookSaved).(processed := true)
    case HookUnlink(h) => To(s, h, HookUnlinked).(file := None)
    case HookPrint(h) => Gone(Count(s, true), h)
    case Leave(a) => Gone(s, a)
    case _ => s
  }

  predicate BySender(act: Action) {
    act.Lock? || act.LockTimeout? || act.Renew? || act.GiveUp? || act.Mark? || act.Inject? ||
    act.Unlink? || act.Verify? || act.TailCheck? || act.TailWrite?
  }

  predicate ByWatch(act: Action) {
    act.WatchLock? || act.WatchPick? || act.WatchMark? || act.WatchInject? || act.WatchStuck? ||
    act.WatchSave? || act.WatchUnlink? || act.WatchRecord?
  }

  function Next(s: State, act: Action): State
    requires Enabled(s, act)
  {
    if BySender(act) then SenderStep(s, act)
    else if ByWatch(act) then WatchStep(s, act)
    else HookStep(s, act)
  }

  predicate Valid(s: State, acts: seq<Action>)
    decreases acts
  {
    acts == [] || (Enabled(s, acts[0]) && Valid(Next(s, acts[0]), acts[1..]))
  }

  function Exec(s: State, acts: seq<Action>): State
    requires Valid(s, acts)
    decreases acts
  {
    if acts == [] then s else Exec(Next(s, acts[0]), acts[1..])
  }

  // ---- careful claims --------------------------------------------------

  /** A watchdog or a hook that finds the message free and takes it. */
  predicate Takes(s: State, act: Action) {
    (act.WatchPick? || act.HookList?) && MayTake(s, act.active)
  }

  /** The guard the lease stands for: nobody takes the message of a direct sender
      that has neither finished nor died. */
  predicate Careful(s: State, act: Action) {
    Takes(s, act) ==> SENDER !in s.actors
  }

  predicate AllCareful(s: State, acts: seq<Action>)
    requires Valid(s, acts)
    decreases acts
  {
    acts == [] || (Careful(s, acts[0]) && AllCareful(Next(s, acts[0]), acts[1..]))
  }

  // ---- invariant -------------------------------------------------------

  predicate IsSender(pc: Pc) {
    pc.Created? || pc.Locked? || pc.Leased? || pc.Marked? || pc.Injected? || pc.Unlinked? || pc.Tail? || pc.Rewriting?
  }

  predicate NeedsLock(pc: Pc) {
    !pc.Created? && !pc.Tail? && !pc.Rewriting?
  }

  predicate Untouched(s: State) {
    s.file.Some? && s.file.value.pane.Clear? && s.attempts == 0
  }

  predicate Claimed(s: State) {
    s.file.Some? ==> !s.file.value.pane.Clear?
  }

  /** The sender's lease keeps everybody else away while it runs. */
  predicate Guarded(s: State) {
    Untouched(s) && s.file.value.lease == Some(SENDER)
  }

  predicate PcInv(s: State, pc: Pc) {
    match pc
    case Created => Guarded(s)
    case Locked => Guarded(s)
    case Leased => Guarded(s)
    case Marked => s.attempts == 0 && s.file.Some? && Claimed(s)
    case Injected => s.file.Some? && Claimed(s)
    case Unlinked => Claimed(s)
    case Tail(delivered, pane) =>
      if pane.Clear? then !delivered && Guarded(s) else Claimed(s)
    case Rewriting(pane) =>
      if pane.Clear? then Guarded(s) else s.file.Some? && Claimed(s)
    case WatchLocked => true
    case WatchPicked => Untouched(s) && SENDER !in s.actors
    case WatchMarked => s.attempts == 0 && s.file.Some? && Claimed(s) && SENDER !in s.actors
    case WatchInjected => s.file.Some? && Claimed(s) && SENDER !in s.actors
    case WatchSaved => s.file.Some? && Claimed(s) && SENDER !in s.actors
    case WatchFailed => Claimed(s) && SENDER !in s.actors
    case HookLocked => true
    case HookListed => Untouched(s) && SENDER !in s.actors
    case HookSaved => Untouched(s) && SENDER !in s.actors
    case HookUnlinked => s.file.None? && s.attempts == 0 && SENDER !in s.actors
  }

  predicate Inv(s: State) {
    s.surfaced <= s.attempts <= 1 &&
    (s.file.Some? && s.file.value.pane.Clear? ==> s.attempts == 0) &&
    (forall a :: a in s.actors ==> (IsSender(s.actors[a]) <==> a == SENDER)) &&
    (forall a :: a in s.actors && NeedsLock(s.actors[a]) ==> s.sendLock == Some(a)) &&
    (forall a :: a in s.actors ==> PcInv(s, s.actors[a]))
  }

  lemma GoneKeeps(s: State, a: int)
    requires Inv(s)
    ensures Inv(Gone(s, a))
  {
    assert forall b :: b in Gone(s, a).actors ==> PcInv(Gone(s, a), s.actors[b]);
  }

  predicate SenderMoves(act: Action) { act.Lock? || act.LockTimeout? || act.Renew? || act.GiveUp? || act.Mark? }

  lemma SenderClaims(s: State, act: Action)
    requires Inv(s) && Enabled(s, act) && SenderMoves(act)
    ensures Inv(SenderStep(s, act))
  {
    assert PcInv(s, s.actors[SENDER]);
  }

  lemma InjectKeeps(s: State, reached: bool, raises: bool)
    requires Inv(s) && Enabled(s, Inject(reached, raises))
    ensures Inv(SenderStep(s, Inject(reached, raises)))
  {
    assert PcInv(s, s.actors[SENDER]);
  }

  lemma SenderSends(s: State, act: Action)
    requires Inv(s) && Enabled(s, act) && (act.Unlink? || act.Verify?)
    ensures Inv(SenderStep(s, act))
  {
    assert PcInv(s, s.actors[SENDER]);
  }

  lemma SenderTails(s: State, act: Action)
    requires Inv(s) && Enabled(s, act) && (act.TailCheck? || act.TailWrite?)
    ensures Inv(SenderStep(s, act))
  {
    assert PcInv(s, s.actors[SENDER]);
  }

  lemma WatchClaims(s: State, act: Action)
    requires Inv(s) && Enabled(s, act) && Careful(s, act) && (act.WatchLock? || act.WatchPick? || act.WatchMark?)
    ensures Inv(WatchStep(s, act))
  {
    GoneKeeps(s, act.w);
  }

  lemma WatchSends(s: State, act: Action)
    requires Inv(s) && Enabled(s, act)
    requires act.WatchInject? || act.WatchStuck? || act.WatchSave? || act.WatchUnlink? || act.WatchRecord?
    ensures Inv(WatchStep(s, act))
  {
    assert PcInv(s, s.actors[act.w]);
  }

  lemma HookClaims(s: State, act: Action)
    requires Inv(s) && Enabled(s, act) && Careful(s, act) && (act.HookLock? || act.HookList?)
    ensures Inv(HookStep(s, act))
  {
    GoneKeeps(s, act.h);
  }

  lemma HookDrains(s: State, act: Action)
    requires Inv(s) && Enabled(s, act) && (act.HookSave? || act.HookUnlink? || act.HookPrint?)
    ensures Inv(HookStep(s, act))
  {
    assert PcInv(s, s.actors[act.h]);
  }

  lemma StepKeeps(s: State, act: Action)
    requires Inv(s) && Enabled(s, act) && Careful(s, act)
    ensures Inv(Next(s, act))
  {
    if SenderMoves(act) {
      SenderClaims(s, act);
    } else if act.TailCheck? || act.TailWrite? {
      SenderTails(s, act);
    } else if act.Inject? {
      InjectKeeps(s, act.reached, act.raises);
    } else if BySender(act) {
      SenderSends(s, act);
    } else if act.WatchLock? || act.WatchPick? || act.WatchMark? {
      WatchClaims(s, act);
    } else if ByWatch(act) {
      WatchSends(s, act);
    } else if act.Leave? {
      GoneKeeps(s, act.a);
    } else if act.HookLock? || act.HookList? {
      HookClaims(s, act);
    } else {
      HookDrains(s, act);
    }
  }

  lemma {:induction false} RunKeeps(s: State, acts: seq<Action>)
    requires Inv(s) && Valid(s, acts) && AllCareful(s, acts)
    ensures Inv(Exec(s, acts))
    decreases acts
  {
    if acts != [] {
      StepKeeps(s, acts[0]);
      RunKeeps(Next(s, acts[0]), acts[1..]);
    }
  }

  // ---- what makes claims careful ----------------------------------------

  lemma LeaseGuards(s: State, act: Action)
    requires Inv(s) && s.leasesHold && Enabled(s, act)
    ensures Careful(s, act) && Next(s, act).leasesHold
  {
    if SENDER in s.actors {
      assert PcInv(s, s.actors[SENDER]);
    }
  }

  /** Leases that outlive their running owners make every claim careful. */
  lemma {:induction false} LeasesMakeCareful(s: State, acts: seq<Action>)
    requires Inv(s) && s.leasesHold && Valid(s, acts)
    ensures AllCareful(s, acts)
    decreases acts
  {
    if acts != [] {
      LeaseGuards(s, acts[0]);
      StepKeeps(s, acts[0]);
      LeasesMakeCareful(Next(s, acts[0]), acts[1..]);
    }
  }

  lemma NoSenderJoins(s: State, act: Action)
    requires SENDER !in s.actors && Enabled(s, act)
    ensures SENDER !in Next(s, act).actors
  {
  }

  /** A message without a direct sender needs no lease. */
  lemma {:induction false} AbsenceMakesCareful(s: State, acts: seq<Action>)
    requires SENDER !in s.actors && Valid(s, acts)
    ensures AllCareful(s, acts)
    decreases acts
  {
    if acts != [] {
      NoSenderJoins(s, acts[0]);
      AbsenceMakesCareful(Next(s, acts[0]), acts[1..]);
    }
  }

  // ---- a claimed message is never injected again ------------------------

  predicate Surfacing(act: Action) { act.Inject? || act.WatchInject? || act.HookPrint? }

  /** The record is marked `dispatching` or `uncertain` and whoever marked it is
      past its own injection, or dead. */
  predicate Spent(s: State) {
    Claimed(s) &&
    forall a :: a in s.actors ==>
      var pc := s.actors[a];
      pc.Injected? || pc.Unlinked? || (pc.Tail? && !pc.pane.Clear?) || (pc.Rewriting? && !pc.pane.Clear?) ||
      pc.WatchLocked? || pc.WatchInjected? || pc.WatchSaved? || pc.WatchFailed? || pc.HookLocked?
  }

  lemma SpentSender(s: State, act: Action)
    requires Spent(s) && Enabled(s, act) && BySender(act)
    ensures Spent(SenderStep(s, act)) && !Surfacing(act)
  {
  }

  lemma SpentWatch(s: State, act: Action)
    requires Spent(s) && Enabled(s, act) && ByWatch(act)
    ensures Spent(WatchStep(s, act)) && !Surfacing(act)
  {
  }

  lemma SpentStep(s: State, act: Action)
    requires Spent(s) && Enabled(s, act)
    ensures Spent(Next(s, act)) && !Surfacing(act)
  {
    if BySender(act) {
      SpentSender(s, act);
    } else if ByWatch(act) {
      SpentWatch(s, act);
    }
  }

  lemma {:induction false} SpentRun(s: State, acts: seq<Action>)
    requires Spent(s) && Valid(s, acts)
    ensures Exec(s, acts).attempts == s.attempts && Exec(s, acts).surfaced == s.surfaced
    decreases acts
  {
    if acts != [] {
      SpentStep(s, acts[0]);
      CountsChangeOnlyBySurfacing(s, acts[0]);
      SpentRun(Next(s, acts[0]), acts[1..]);
    }
  }

  lemma CountsChangeOnlyBySurfacing(s: State, act: Action)
    requires Enabled(s, act) && !Surfacing(act)
    ensures Next(s, act).attempts == s.attempts && Next(s, act).surfaced == s.surfaced
  {
  }

  // ---- what every run guarantees ---------------------------------------

  /** Over every run of sender, watchdogs and hooks, crashes included and leases of
      any length, in which no claim is taken while the direct sender runs, the body
      reaches the receiver at most once, and is injected or printed at most once. */
  lemma CarefulClaimsSurfaceOnce(leasesHold: bool, mailboxOnly: bool, acts: seq<Action>)
    requires Valid(Submit(leasesHold, mailboxOnly), acts) && AllCareful(Submit(leasesHold, mailboxOnly), acts)
    ensures var s := Exec(Submit(leasesHold, mailboxOnly), acts); s.surfaced <= 1 && s.attempts <= 1
  {
    RunKeeps(Submit(leasesHold, mailboxOnly), acts);
  }

  /** Hence at most once in every run whatever, if leases outlive their running
      owners or if there is no direct sender. */
  lemma SurfacedAtMostOnce(leasesHold: bool, mailboxOnly: bool, acts: seq<Action>)
    requires leasesHold || mailboxOnly
    requires Valid(Submit(leasesHold, mailboxOnly), acts)
    ensures var s := Exec(Submit(leasesHold, mailboxOnly), acts); s.surfaced <= 1 && s.attempts <= 1
  {
    var s := Submit(leasesHold, mailboxOnly);
    if leasesHold {
      LeasesMakeCareful(s, acts);
    } else {
      AbsenceMakesCareful(s, acts);
    }
    RunKeeps(s, acts);
  }

  /** Once the record says `dispatching` or `uncertain` and the injection it
      announced is over, whatever its outcome, no later step surfaces the body,
      careful or not. */
  lemma NeverInjectedAgain(leasesHold: bool, mailboxOnly: bool, acts: seq<Action>, later: seq<Action>)
    requires Valid(Submit(leasesHold, mailboxOnly), acts) && AllCareful(Submit(leasesHold, mailboxOnly), acts)
    requires var s := Exec(Submit(leasesHold, mailboxOnly), acts);
             s.file.Some? && !s.file.value.pane.Clear? && Valid(s, later) &&
             forall a :: a in s.actors ==> !s.actors[a].Marked? && !s.actors[a].WatchMarked?
    ensures var s := Exec(Submit(leasesHold, mailboxOnly), acts);
            Exec(s, later).attempts == s.attempts && Exec(s, later).surfaced == s.surfaced
  {
    RunKeeps(Submit(leasesHold, mailboxOnly), acts);
    var s := Exec(Submit(leasesHold, mailboxOnly), acts);
    assert forall a :: a in s.actors ==> PcInv(s, s.actors[a]);
    SpentRun(s, later);
  }

  // ---- a careless claim is never harmless --------------------------------

  /** Some careful continuation ends with the body surfaced k times in all. */
  ghost predicate Leads(s: State, k: nat) {
    exists acts :: Valid(s, acts) && AllCareful(s, acts) && Exec(s, acts).surfaced == k
  }

  lemma RunFirst(s: State, a: Action, rest: seq<Action>)
    requires Enabled(s, a) && Valid(Next(s, a), rest)
    ensures Valid(s, [a] + rest) && Exec(s, [a] + rest) == Exec(Next(s, a), rest)
    ensures Careful(s, a) && AllCareful(Next(s, a), rest) ==> AllCareful(s, [a] + rest)
  {
    assert ([a] + rest)[1..] == rest;
  }

  lemma LeadsHere(s: State)
    ensures Leads(s, s.surfaced)
  {
    assert Valid(s, []) && AllCareful(s, []) && Exec(s, []) == s;
  }

  lemma Step(s: State, a: Action, k: nat)
    requires Enabled(s, a) && Careful(s, a) && Leads(Next(s, a), k)
    ensures Leads(s, k)
  {
    var t := Next(s, a);
    var rest :| Valid(t, rest) && AllCareful(t, rest) && Exec(t, rest).surfaced == k;
    RunFirst(s, a, rest);
  }

  /** A sender that has not marked the message and does not hold the send lock. */
  predicate Waits(pc: Pc) {
    pc.Created? || pc == Tail(false, Clear) || pc == Rewriting(Clear)
  }

  predicate Holds(pc: Pc) { pc.HookListed? || pc.WatchPicked? }

  /** Such a sender can run into its lock timeout and get as far as the decision to
      write its fallback copy. */
  lemma SenderStalls(s: State, k: nat)
    requires s.file.Some? && SENDER in s.actors && Waits(s.actors[SENDER])
    requires Leads(s.(actors := s.actors[SENDER := Rewriting(Clear)]), k)
    ensures Leads(s, k)
  {
    if s.actors[SENDER].Created? {
      var t := Next(s, LockTimeout);
      assert t.actors[SENDER := Rewriting(Clear)] == s.actors[SENDER := Rewriting(Clear)];
      Step(t, TailCheck, k);
      Step(s, LockTimeout, k);
    } else if s.actors[SENDER].Tail? {
      Step(s, TailCheck, k);
    } else {
      assert s.actors == s.actors[SENDER := Rewriting(Clear)];
    }
  }

  /** What is left when a claim was carried through. */
  function Delivered(s: State, a: int): State {
    s.(actors := s.actors - {a}, sendLock := None, file := None, processed := true,
       attempts := s.attempts + 1, surfaced := s.surfaced + 1)
  }

  lemma HookFinishes(s: State, h: int, k: nat)
    requires AtPc(s, h, HookListed) && s.sendLock == Some(h) && Leads(Delivered(s, h), k)
    ensures Leads(s, k)
  {
    var t := Next(s, HookSave(h));
    var u := Next(t, HookUnlink(h));
    assert u.actors - {h} == s.actors - {h};
    Step(u, HookPrint(h), k);
    Step(t, HookUnlink(h), k);
    Step(s, HookSave(h), k);
  }

  lemma WatchArchives(s: State, w: int, k: nat)
    requires AtPc(s, w, WatchInjected)
    requires Leads(Gone(s, w).(file := None, processed := true), k)
    ensures Leads(s, k)
  {
    var t := Next(s, WatchSave(w));
    assert t.actors - {w} == s.actors - {w};
    Step(t, WatchUnlink(w), k);
    Step(s, WatchSave(w), k);
  }

  lemma WatchFinishes(s: State, w: int, k: nat)
    requires AtPc(s, w, WatchPicked) && s.sendLock == Some(w) && s.file.Some? && Leads(Delivered(s, w), k)
    ensures Leads(s, k)
  {
    var t := Next(s, WatchMark(w, true));
    var u := Next(t, WatchInject(w, true, false));
    assert u.actors - {w} == s.actors - {w};
    WatchArchives(u, w, k);
    Step(t, WatchInject(w, true, false), k);
    Step(s, WatchMark(w, true), k);
  }

  lemma HookDrainsAgain(s: State, h: int)
    requires s.actors == map[] && s.sendLock.None? && s.file == Some(Rec(None, Clear)) && h != SENDER
    ensures Leads(s, s.surfaced + 1)
  {
    var t := Next(s, HookLock(h));
    var u := Next(t, HookList(h, false));
    LeadsHere(Delivered(u, h));
    HookFinishes(u, h, s.surfaced + 1);
    Step(t, HookList(h, false), s.surfaced + 1);
    Step(s, HookLock(h), s.surfaced + 1);
  }

  /** The fallback copy brings the message back, and any hook drains it. */
  lemma FallbackIsDrained(s: State, h: int)
    requires s.actors == map[SENDER := Rewriting(Clear)] && s.sendLock.None? && h != SENDER
    ensures Leads(s, s.surfaced + 1)
  {
    HookDrainsAgain(Next(s, TailWrite), h);
    Step(s, TailWrite, s.surfaced + 1);
  }

  /** From any claim taken while the sender waits, careful claims alone lead on to
      the body being surfaced twice. */
  lemma CarelessClaimDuplicates(s: State, a: int)
    requires a != SENDER && s.actors.Keys == {SENDER, a} && s.sendLock == Some(a) && s.file.Some?
    requires Waits(s.actors[SENDER]) && Holds(s.actors[a])
    ensures Leads(s, s.surfaced + 2)
  {
    var t := s.(actors := s.actors[SENDER := Rewriting(Clear)]);
    assert t.actors - {a} == map[SENDER := Rewriting(Clear)];
    FallbackIsDrained(Delivered(t, a), a);
    if t.actors[a].HookListed? {
      HookFinishes(t, a, s.surfaced + 2);
    } else {
      WatchFinishes(t, a, s.surfaced + 2);
    }
    SenderStalls(s, s.surfaced + 2);
  }

  function Claimer(claim: Action): int
    requires claim.WatchPick? || claim.HookList?
  {
    if claim.WatchPick? then claim.w else claim.h
  }

  lemma ClaimOfWaiting(s: State, claim: Action)
    requires Inv(s) && Enabled(s, claim) && Takes(s, claim) && SENDER in s.actors
    ensures var a, t := Claimer(claim), Next(s, claim);
            a != SENDER && t.actors.Keys == {SENDER, a} && t.sendLock == Some(a) && t.file.Some? &&
            Waits(t.actors[SENDER]) && Holds(t.actors[a]) && t.surfaced == 0
  {
    var a := Claimer(claim);
    assert PcInv(s, s.actors[SENDER]);
    assert forall b :: b in s.actors && b != SENDER ==> NeedsLock(s.actors[b]);
    assert forall b :: b in s.actors ==> b == SENDER || b == a;
    assert Next(s, claim).actors.Keys == s.actors.Keys;
  }

  /** Exactly when a claim is safe. After any careful run, a claim that takes the
      message leaves it surfaced at most once in all careful continuations if and
      only if the direct sender has finished or died. */
  lemma ClaimIsSafeIffSenderGone(leasesHold: bool, mailboxOnly: bool, acts: seq<Action>, claim: Action)
    requires Valid(Submit(leasesHold, mailboxOnly), acts) && AllCareful(Submit(leasesHold, mailboxOnly), acts)
    requires var s := Exec(Submit(leasesHold, mailboxOnly), acts); Enabled(s, claim) && Takes(s, claim)
    ensures var s := Exec(Submit(leasesHold, mailboxOnly), acts);
            SENDER !in s.actors <==>
            forall later :: Valid(Next(s, claim), later) && AllCareful(Next(s, claim), later) ==>
              Exec(Next(s, claim), later).surfaced <= 1
  {
    RunKeeps(Submit(leasesHold, mailboxOnly), acts);
    var s := Exec(Submit(leasesHold, mailboxOnly), acts);
    var t := Next(s, claim);
    if SENDER !in s.actors {
      StepKeeps(s, claim);
      forall later | Valid(t, later) && AllCareful(t, later) ensures Exec(t, later).surfaced <= 1 {
        RunKeeps(t, later);
      }
    } else {
      ClaimOfWaiting(s, claim);
      CarelessClaimDuplicates(t, Claimer(claim));
      var later :| Valid(t, later) && AllCareful(t, later) && Exec(t, later).surfaced == 2;
      assert !(Exec(t, later).surfaced <= 1);
    }
  }

  /** A run in which a lease runs out under its owner and the body is surfaced twice. */
  lemma ExpiredLeaseDuplicates() returns (acts: seq<Action>)
    ensures Valid(Submit(false, false), acts)
    ensures Exec(Submit(false, false), acts).surfaced == 2
  {
    var s := Submit(false, false);
    var t := Next(s, HookLock(1));
    var u := Next(t, HookList(1, false));
    CarelessClaimDuplicates(u, 1);
    acts :| Valid(u, acts) && AllCareful(u, acts) && Exec(u, acts).surfaced == 2;
    RunFirst(t, HookList(1, false), acts);
    RunFirst(s, HookLock(1), [HookList(1, false)] + acts);
    acts := [HookLock(1)] + ([HookList(1, false)] + acts);
  }
}
