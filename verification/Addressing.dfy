/** Pane-free labels, their mailboxes and their owners: senders, registrations,
    unregistrations and workers of any number of labels interleave freely, may
    crash after every file operation, and share nothing but the registry lock. */
module Addressing {
  import opened Prelude
  import Registry

  /** A registry entry: the owning thread, and everything else in the record. */
  datatype Endpoint = Endpoint(thread: string, settings: int)

  datatype Slot = Slot(owner_label: string, job: string)

  datatype Pc =
    // `_ask_async` on a mailbox endpoint
    | Resolved(slot: Slot, endpoint: Endpoint)
    | SendLocked(slot: Slot, endpoint: Endpoint)
    | Checked(slot: Slot, endpoint: Endpoint)
    | Recorded(slot: Slot, endpoint: Endpoint)
    // `register_mailbox`, `configure_mailbox_delivery`
    | Registering(name: string, endpoint: Endpoint)
    // `unregister`
    | Unregistering(name: string)
    | Archived(name: string)
    // `scan_once` and `deliver_record`
    | Scanned(name: string, endpoint: Endpoint)
    | Read(slot: Slot, endpoint: Endpoint)
    | Dispatching(slot: Slot, endpoint: Endpoint)

  /** `inbox` and `records` map a message's file to the `recipient_thread_id`
      in it; `records` are the copies under history. */
  datatype State = State(
    registry: map<string, Endpoint>,
    inbox: map<Slot, string>,
    records: map<Slot, string>,
    lock: Option<int>,
    actors: map<int, Pc>,
    // history: who owned the label when a message was accepted, what was archived,
    // and which thread each dispatch went to
    used: set<string>,
    accepted: map<Slot, string>,
    archived: set<Slot>,
    dispatches: seq<(Slot, string)>)

  const START := State(map[], map[], map[], None, map[], {}, map[], {}, [])

  datatype Action =
    | Resolve(a: int, slot: Slot) | LockSend(a: int) | Check(a: int) | WriteRecord(a: int) | WriteInbox(a: int)
    | LockRegister(a: int, name: string, endpoint: Endpoint) | Register(a: int)
    | LockUnregister(a: int, name: string) | ArchiveMailbox(a: int) | RemoveLabel(a: int)
    | Scan(a: int, name: string) | ReadMessage(a: int, slot: Slot) | Recheck(a: int) | Dispatch(a: int)
    | Take(a: int, slot: Slot)
    | Stop(a: int)

  predicate At(s: State, a: int) { a in s.actors }

  predicate Enabled(s: State, act: Action) {
    match act
    case Resolve(a, slot) => !At(s, a) && slot.owner_label in s.registry && slot.job !in s.used
    case LockSend(a) => At(s, a) && s.actors[a].Resolved? && s.lock.None?
    case Check(a) => At(s, a) && s.actors[a].SendLocked?
    case WriteRecord(a) => At(s, a) && s.actors[a].Checked?
    case WriteInbox(a) => At(s, a) && s.actors[a].Recorded?
    case LockRegister(a, _, _) => !At(s, a) && s.lock.None?
    case Register(a) => At(s, a) && s.actors[a].Registering?
    case LockUnregister(a, _) => !At(s, a) && s.lock.None?
    case ArchiveMailbox(a) => At(s, a) && s.actors[a].Unregistering?
    case RemoveLabel(a) => At(s, a) && s.actors[a].Archived?
    case Scan(a, name) => !At(s, a) && name in s.registry
    case ReadMessage(a, slot) =>
      At(s, a) && s.actors[a].Scanned? && s.actors[a].name == slot.owner_label && slot in s.inbox
    case Recheck(a) => At(s, a) && s.actors[a].Read?
    case Dispatch(a) => At(s, a) && s.actors[a].Dispatching?
    case Take(_, _) => true
    case Stop(a) => At(s, a)
  }

  function To(s: State, a: int, pc: Pc): State { s.(actors := s.actors[a := pc]) }

  /** Return, refusal or crash: the lock goes, files stay. */
  function Gone(s: State, a: int): State {
    s.(actors := s.actors - {a}, lock := if s.lock == Some(a) then None else s.lock)
  }

  /** The registry has exactly this entry under the label. */
  predicate Current(s: State, name: string, endpoint: Endpoint) {
    name in s.registry && s.registry[name] == endpoint
  }

  /** `register_mailbox` refuses a label of another thread and a second label. */
  predicate MayClaim(registry: map<string, Endpoint>, name: string, thread: string) {
    (forall l :: l in registry && l != name ==> registry[l].thread != thread) &&
    (name in registry ==> registry[name].thread == thread)
  }

  /** The owners in a registry whose labels are all mailboxes. */
  function Endpoints(m: Registry.Labels): map<string, Endpoint> {
    map l | l in m :: Endpoint(m[l].threadId, m[l].registeredAt)
  }

  /** It is the rule of the registry itself, as far as labels are mailboxes. */
  lemma ClaimRuleIsRegistrys(m: Registry.Labels, name: string, thread: string)
    requires forall l :: l in m ==> m[l].transport.Mailbox?
    ensures MayClaim(Endpoints(m), name, thread) <==> Registry.MayClaimMailbox(m, name, thread)
  {
    assert forall l :: l in m ==> Endpoints(m)[l].thread == m[l].threadId;
  }

  function Without(files: map<Slot, string>, name: string): map<Slot, string> {
    map f | f in files && f.owner_label != name :: files[f]
  }

  function Next(s: State, act: Action): State
    requires Enabled(s, act)
  {
    match act
    case Resolve(a, slot) => To(s, a, Resolved(slot, s.registry[slot.owner_label])).(used := s.used + {slot.job})
    case LockSend(a) => To(s, a, SendLocked(s.actors[a].slot, s.actors[a].endpoint)).(lock := Some(a))
    case Check(a) =>
      var pc := s.actors[a];
      if Current(s, pc.slot.owner_label, pc.endpoint) then To(s, a, Checked(pc.slot, pc.endpoint)) else Gone(s, a)
    case WriteRecord(a) => DoWriteRecord(s, a)
    case WriteInbox(a) => DoWriteInbox(s, a)
    case LockRegister(a, name, endpoint) => To(s, a, Registering(name, endpoint)).(lock := Some(a))
    case Register(a) =>
      var pc := s.actors[a];
      if MayClaim(s.registry, pc.name, pc.endpoint.thread)
      then Gone(s, a).(registry := s.registry[pc.name := pc.endpoint]) else Gone(s, a)
    case LockUnregister(a, name) => To(s, a, Unregistering(name)).(lock := Some(a))
    case ArchiveMailbox(a) => DoArchive(s, a)
    case RemoveLabel(a) => Gone(s, a).(registry := s.registry - {s.actors[a].name})
    case Scan(a, name) => To(s, a, Scanned(name, s.registry[name]))
    case ReadMessage(a, slot) =>
      var e := s.actors[a].endpoint;
      if s.inbox[slot] == e.thread then To(s, a, Read(slot, e)) else s
    case Recheck(a) =>
      var pc := s.actors[a];
      if pc.slot in s.inbox && Current(s, pc.slot.owner_label, pc.endpoint)
      then To(s, a, Dispatching(pc.slot, pc.endpoint))
      else To(s, a, Scanned(pc.slot.owner_label, pc.endpoint))
    case Dispatch(a) =>
      var pc := s.actors[a];
      To(s, a, Scanned(pc.slot.owner_label, pc.endpoint)).(dispatches := s.dispatches + [(pc.slot, pc.endpoint.thread)])
    case Take(_, slot) => s.(inbox := s.inbox - {slot})
    case Stop(a) => Gone(s, a)
  }

  function DoWriteRecord(s: State, a: int): State
    requires Enabled(s, WriteRecord(a))
  {
    var pc := s.actors[a];
    To(s, a, Recorded(pc.slot, pc.endpoint)).(records := s.records[pc.slot := pc.endpoint.thread])
  }

  /** The message is accepted; the ghost part notes who owns the label right now. */
  function DoWriteInbox(s: State, a: int): State
    requires Enabled(s, WriteInbox(a))
  {
    var pc := s.actors[a];
    var name := pc.slot.owner_label;
    Gone(s, a).(inbox := s.inbox[pc.slot := pc.endpoint.thread],
                accepted := s.accepted[pc.slot := if name in s.registry then s.registry[name].thread else ""])
  }

  /** The whole mailbox directory is renamed away in one step. */
  function DoArchive(s: State, a: int): State
    requires Enabled(s, ArchiveMailbox(a))
  {
    var name := s.actors[a].name;
    To(s, a, Archived(name)).(inbox := Without(s.inbox, name), records := Without(s.records, name),
                             archived := s.archived + set f | f in s.records && f.owner_label == name)
  }

  predicate Valid(s: State, acts: seq<Action>)
    decreases acts
  {
    acts == [] || (Enabled(s, acts[0]) && Valid(Next(s, acts[0]), acts[1..]))
  }

  function Exec(s: State, acts: seq<Action>): State
    requires Valid(s, acts)
    decreases acts
  {
    if acts == [] then s else Exec(Next(s, acts[0]), acts[1..])
  }

  // ---- invariant -------------------------------------------------------

  predicate Owns(s: State, name: string, thread: string) {
    name in s.registry && s.registry[name].thread == thread
  }

  predicate Accepted(s: State, slot: Slot, thread: string) {
    slot in s.accepted && s.accepted[slot] == thread
  }

  predicate NeedsLock(pc: Pc) {
    pc.SendLocked? || pc.Checked? || pc.Recorded? || pc.Registering? || pc.Unregistering? || pc.Archived?
  }

  predicate Sends(pc: Pc) { pc.Resolved? || pc.SendLocked? || pc.Checked? || pc.Recorded? }

  predicate PcInv(s: State, pc: Pc) {
    match pc
    case Resolved(slot, _) => Fresh(s, slot)
    case SendLocked(slot, _) => Fresh(s, slot)
    case Checked(slot, endpoint) => Fresh(s, slot) && Current(s, slot.owner_label, endpoint)
    case Recorded(slot, endpoint) =>
      Current(s, slot.owner_label, endpoint) && slot.job in s.used && slot !in s.accepted &&
      slot in s.records && slot !in s.archived
    case Archived(name) =>
      (forall f :: f in s.records ==> f.owner_label != name) && (forall f :: f in s.inbox ==> f.owner_label != name)
    case Read(slot, endpoint) => Accepted(s, slot, endpoint.thread)
    case Dispatching(slot, endpoint) => Accepted(s, slot, endpoint.thread)
    case _ => true
  }

  /** A message whose sender has not written anything yet. */
  predicate Fresh(s: State, slot: Slot) {
    slot.job in s.used && slot !in s.accepted && slot !in s.records && slot !in s.archived
  }

  predicate FilesInv(s: State) {
    (forall f :: f in s.inbox ==> f in s.accepted && s.inbox[f] == s.accepted[f] && f in s.records) &&
    (forall f :: f in s.records ==> Owns(s, f.owner_label, s.records[f]) && f !in s.archived && f.job in s.used) &&
    (forall f :: f in s.accepted ==> f in s.archived || (f in s.records && s.records[f] == s.accepted[f])) &&
    (forall f :: f in s.archived ==> f.job in s.used)
  }

  predicate ActorsInv(s: State) {
    (forall a :: a in s.actors && NeedsLock(s.actors[a]) ==> s.lock == Some(a)) &&
    (forall a, b :: a in s.actors && b in s.actors && a != b && Sends(s.actors[a]) && Sends(s.actors[b]) ==>
       s.actors[a].slot.job != s.actors[b].slot.job) &&
    (forall a :: a in s.actors ==> PcInv(s, s.actors[a]))
  }

  predicate Inv(s: State) {
    FilesInv(s) && ActorsInv(s) &&
    (forall d :: 0 <= d < |s.dispatches| ==> Accepted(s, s.dispatches[d].0, s.dispatches[d].1))
  }

  lemma GoneKeeps(s: State, a: int)
    requires Inv(s)
    ensures Inv(Gone(s, a))
  {
    assert forall b :: b in Gone(s, a).actors ==> PcInv(Gone(s, a), s.actors[b]);
  }

  /** An actor moves on while all files stay as they are. */
  lemma Moves(s: State, a: int, pc: Pc)
    requires Inv(s) && PcInv(s, pc) && (NeedsLock(pc) ==> s.lock == Some(a))
    requires Sends(pc) ==> a in s.actors && Sends(s.actors[a]) && s.actors[a].slot == pc.slot
    ensures Inv(To(s, a, pc))
  {
    assert forall b :: b in To(s, a, pc).actors ==> PcInv(To(s, a, pc), To(s, a, pc).actors[b]);
  }

  lemma Locks(s: State, a: int)
    requires Inv(s) && s.lock.None?
    ensures Inv(s.(lock := Some(a)))
  {
    assert forall b :: b in s.actors ==> PcInv(s.(lock := Some(a)), s.actors[b]);
  }

  lemma ResolveKeeps(s: State, a: int, slot: Slot)
    requires Inv(s) && Enabled(s, Resolve(a, slot))
    ensures Inv(Next(s, Resolve(a, slot)))
  {
  }

  lemma SendKeeps(s: State, act: Action)
    requires Inv(s) && Enabled(s, act) && (act.LockSend? || act.Check?)
    ensures Inv(Next(s, act))
  {
    var a := act.a;
    var pc := s.actors[a];
    assert PcInv(s, pc);
    if act.LockSend? {
      Locks(s, a);
      Moves(s.(lock := Some(a)), a, SendLocked(pc.slot, pc.endpoint));
    } else if Current(s, pc.slot.owner_label, pc.endpoint) {
      Moves(s, a, Checked(pc.slot, pc.endpoint));
    } else {
      GoneKeeps(s, a);
    }
  }

  lemma RecordKeeps(s: State, a: int)
    requires Inv(s) && Enabled(s, WriteRecord(a))
    ensures Inv(Next(s, WriteRecord(a)))
  {
    assert PcInv(s, s.actors[a]);
  }

  /** A message is accepted while nobody else is writing under its id. */
  lemma Accepts(s: State, slot: Slot, thread: string)
    requires Inv(s) && slot in s.records && s.records[slot] == thread && slot !in s.accepted
    requires forall b :: b in s.actors && Sends(s.actors[b]) ==> s.actors[b].slot != slot
    ensures Inv(s.(accepted := s.accepted[slot := thread]))
  {
    var t := s.(accepted := s.accepted[slot := thread]);
    assert forall b :: b in s.actors ==> PcInv(s, s.actors[b]) && PcInv(t, s.actors[b]);
  }

  lemma Enters(s: State, slot: Slot, thread: string)
    requires Inv(s) && Accepted(s, slot, thread) && slot in s.records
    requires forall b :: b in s.actors && s.actors[b].Archived? ==> s.actors[b].name != slot.owner_label
    ensures Inv(s.(inbox := s.inbox[slot := thread]))
  {
    var t := s.(inbox := s.inbox[slot := thread]);
    assert forall b :: b in s.actors ==> PcInv(s, s.actors[b]) && PcInv(t, s.actors[b]);
  }

  lemma InboxKeeps(s: State, a: int)
    requires Inv(s) && Enabled(s, WriteInbox(a))
    ensures Inv(Next(s, WriteInbox(a)))
  {
    assert PcInv(s, s.actors[a]);
    HolderLeaves(s, a);
    var slot, thread := s.actors[a].slot, s.actors[a].endpoint.thread;
    var t := Gone(s, a);
    Accepts(t, slot, thread);
    Enters(t.(accepted := t.accepted[slot := thread]), slot, thread);
  }

  lemma LockKeeps(s: State, act: Action)
    requires Inv(s) && Enabled(s, act) && (act.LockRegister? || act.LockUnregister?)
    ensures Inv(Next(s, act))
  {
    Locks(s, act.a);
    var t := s.(lock := Some(act.a));
    if act.LockRegister? {
      Moves(t, act.a, Registering(act.name, act.endpoint));
    } else {
      Moves(t, act.a, Unregistering(act.name));
    }
  }

  /** The holder of the lock is the only actor that relies on registry entries. */
  predicate Unlocked(s: State) {
    forall b :: b in s.actors ==> !NeedsLock(s.actors[b])
  }

  lemma HolderLeaves(s: State, a: int)
    requires Inv(s) && a in s.actors && NeedsLock(s.actors[a])
    ensures Inv(Gone(s, a)) && Unlocked(Gone(s, a))
  {
    GoneKeeps(s, a);
  }

  lemma SetEntry(s: State, name: string, endpoint: Endpoint)
    requires Inv(s) && Unlocked(s) && MayClaim(s.registry, name, endpoint.thread)
    ensures Inv(s.(registry := s.registry[name := endpoint]))
  {
    var t := s.(registry := s.registry[name := endpoint]);
    assert forall b :: b in s.actors ==> PcInv(s, s.actors[b]) && PcInv(t, s.actors[b]);
  }

  lemma DropEntry(s: State, name: string)
    requires Inv(s) && Unlocked(s)
    requires forall f :: f in s.records ==> f.owner_label != name
    ensures Inv(s.(registry := s.registry - {name}))
  {
    var t := s.(registry := s.registry - {name});
    assert forall b :: b in s.actors ==> PcInv(s, s.actors[b]) && PcInv(t, s.actors[b]);
  }

  lemma RegisterKeeps(s: State, a: int)
    requires Inv(s) && Enabled(s, Register(a))
    ensures Inv(Next(s, Register(a)))
  {
    var pc := s.actors[a];
    HolderLeaves(s, a);
    if MayClaim(s.registry, pc.name, pc.endpoint.thread) {
      SetEntry(Gone(s, a), pc.name, pc.endpoint);
    }
  }

  lemma RemoveKeeps(s: State, a: int)
    requires Inv(s) && Enabled(s, RemoveLabel(a))
    ensures Inv(Next(s, RemoveLabel(a)))
  {
    assert PcInv(s, s.actors[a]);
    HolderLeaves(s, a);
    DropEntry(Gone(s, a), s.actors[a].name);
  }

  lemma ArchiveKeeps(s: State, a: int)
    requires Inv(s) && Enabled(s, ArchiveMailbox(a))
    ensures Inv(Next(s, ArchiveMailbox(a)))
  {
  }

  lemma WorkerKeeps(s: State, act: Action)
    requires Inv(s) && Enabled(s, act) && (act.Scan? || act.ReadMessage? || act.Recheck?)
    ensures Inv(Next(s, act))
  {
    var t := Next(s, act);
    if act.a in s.actors {
      assert PcInv(s, s.actors[act.a]);
    }
    if t != s {
      Moves(s, act.a, t.actors[act.a]);
    }
  }

  lemma Logs(s: State, slot: Slot, thread: string)
    requires Inv(s) && Accepted(s, slot, thread)
    ensures Inv(s.(dispatches := s.dispatches + [(slot, thread)]))
  {
    var t := s.(dispatches := s.dispatches + [(slot, thread)]);
    assert forall b :: b in s.actors ==> PcInv(s, s.actors[b]) && PcInv(t, s.actors[b]);
  }

  lemma DispatchKeeps(s: State, a: int)
    requires Inv(s) && Enabled(s, Dispatch(a))
    ensures Inv(Next(s, Dispatch(a)))
  {
    var pc := s.actors[a];
    assert PcInv(s, pc);
    var next := Scanned(pc.slot.owner_label, pc.endpoint);
    Moves(s, a, next);
    Logs(To(s, a, next), pc.slot, pc.endpoint.thread);
  }

  lemma TakeKeeps(s: State, a: int, slot: Slot)
    requires Inv(s)
    ensures Inv(Next(s, Take(a, slot)))
  {
    assert forall b :: b in s.actors ==> PcInv(s, s.actors[b]);
    assert forall b :: b in s.actors ==> PcInv(Next(s, Take(a, slot)), s.actors[b]);
  }

  lemma StepKeeps(s: State, act: Action)
    requires Inv(s) && Enabled(s, act)
    ensures Inv(Next(s, act))
  {
    match act
    case Resolve(a, slot) => ResolveKeeps(s, a, slot);
    case WriteRecord(a) => RecordKeeps(s, a);
    case WriteInbox(a) => InboxKeeps(s, a);
    case Register(a) => RegisterKeeps(s, a);
    case ArchiveMailbox(a) => ArchiveKeeps(s, a);
    case RemoveLabel(a) => RemoveKeeps(s, a);
    case Dispatch(a) => DispatchKeeps(s, a);
    case Take(a, slot) => TakeKeeps(s, a, slot);
    case Stop(a) => GoneKeeps(s, a);
    case _ =>
      if act.LockSend? || act.Check? {
        SendKeeps(s, act);
      } else if act.LockRegister? || act.LockUnregister? {
        LockKeeps(s, act);
      } else {
        WorkerKeeps(s, act);
      }
  }

  lemma {:induction false} RunKeeps(s: State, acts: seq<Action>)
    requires Inv(s) && Valid(s, acts)
    ensures Inv(Exec(s, acts))
    decreases acts
  {
    if acts != [] {
      StepKeeps(s, acts[0]);
      RunKeeps(Next(s, acts[0]), acts[1..]);
    }
  }

  // ---- what every run guarantees ---------------------------------------

  /** Whatever is in a mailbox was sent to the thread that owns the label now. */
  lemma MailIsForTheOwner(acts: seq<Action>, slot: Slot)
    requires Valid(START, acts)
    requires var s := Exec(START, acts); slot in s.inbox || slot in s.records
    ensures var s := Exec(START, acts);
            slot.owner_label in s.registry &&
            (slot in s.inbox ==> s.inbox[slot] == s.registry[slot.owner_label].thread) &&
            (slot in s.records ==> s.records[slot] == s.registry[slot.owner_label].thread)
  {
    RunKeeps(START, acts);
  }

  /** Every dispatch goes to the thread that owned the label when the message was
      accepted, however often the label changed hands since. */
  lemma DispatchesReachTheAcceptingOwner(acts: seq<Action>, d: nat)
    requires Valid(START, acts) && d < |Exec(START, acts).dispatches|
    ensures var s := Exec(START, acts);
            s.dispatches[d].0 in s.accepted && s.dispatches[d].1 == s.accepted[s.dispatches[d].0]
  {
    RunKeeps(START, acts);
  }

  lemma StepRemembers(s: State, act: Action)
    requires Inv(s) && Enabled(s, act)
    ensures var t := Next(s, act);
            (forall f :: f in s.accepted ==> f in t.accepted && t.accepted[f] == s.accepted[f]) &&
            s.archived <= t.archived
  {
    if act.WriteInbox? {
      assert PcInv(s, s.actors[act.a]);
    }
  }

  lemma {:induction false} RunRemembers(s: State, acts: seq<Action>)
    requires Inv(s) && Valid(s, acts)
    ensures var t := Exec(s, acts);
            (forall f :: f in s.accepted ==> f in t.accepted && t.accepted[f] == s.accepted[f]) &&
            s.archived <= t.archived
    decreases acts
  {
    if acts != [] {
      StepRemembers(s, acts[0]);
      StepKeeps(s, acts[0]);
      RunRemembers(Next(s, acts[0]), acts[1..]);
    }
  }

  /** An accepted message is either in the live mailbox's history or archived with
      the mailbox it was accepted into, and once archived it is in no live mailbox
      again, not even if the same thread takes the label back. */
  lemma ArchivedMailStaysAway(acts: seq<Action>, later: seq<Action>, slot: Slot)
    requires Valid(START, acts) && Valid(Exec(START, acts), later) && slot in Exec(START, acts).accepted
    ensures var s, t := Exec(START, acts), Exec(Exec(START, acts), later);
            (slot in s.records) != (slot in s.archived) &&
            (slot in s.archived ==> slot !in t.inbox && slot !in t.records)
  {
    RunKeeps(START, acts);
    RunKeeps(Exec(START, acts), later);
    RunRemembers(Exec(START, acts), later);
  }

  /** When a label has passed to another thread, none of the previous owner's
      messages is in the new owner's mailbox. */
  lemma NothingInherited(acts: seq<Action>, later: seq<Action>, slot: Slot)
    requires Valid(START, acts) && Valid(Exec(START, acts), later)
    requires var s, t := Exec(START, acts), Exec(Exec(START, acts), later);
             slot in s.accepted && Owns(s, slot.owner_label, s.accepted[slot]) &&
             slot.owner_label in t.registry &&
             t.registry[slot.owner_label].thread != s.registry[slot.owner_label].thread
    ensures var t := Exec(Exec(START, acts), later);
            slot !in t.inbox && slot !in t.records && slot in t.archived
  {
    RunKeeps(START, acts);
    RunKeeps(Exec(START, acts), later);
    RunRemembers(Exec(START, acts), later);
  }

  // ---- undisturbed calls do their work -----------------------------------

  lemma RunFirst(s: State, act: Action, rest: seq<Action>)
    requires Enabled(s, act) && Valid(Next(s, act), rest)
    ensures Valid(s, [act] + rest) && Exec(s, [act] + rest) == Exec(Next(s, act), rest)
  {
    assert ([act] + rest)[1..] == rest;
  }

  lemma SendFinishes(s: State, a: int) returns (acts: seq<Action>)
    requires a in s.actors && s.actors[a].Checked? && s.lock == Some(a)
    requires Current(s, s.actors[a].slot.owner_label, s.actors[a].endpoint)
    ensures Valid(s, acts)
    ensures var t := Exec(s, acts);
            var slot, thread := s.actors[a].slot, s.actors[a].endpoint.thread;
            t.registry == s.registry && t.inbox == s.inbox[slot := thread] && t.records == s.records[slot := thread] &&
            t.accepted == s.accepted[slot := thread] && t.lock.None? && t.actors == s.actors - {a}
  {
    var t := Next(s, WriteRecord(a));
    assert Valid(Next(t, WriteInbox(a)), []);
    assert t.actors - {a} == s.actors - {a};
    RunFirst(t, WriteInbox(a), []);
    RunFirst(s, WriteRecord(a), [WriteInbox(a)] + []);
    acts := [WriteRecord(a)] + ([WriteInbox(a)] + []);
  }

  /** A send nobody disturbs is accepted for the label's owner. */
  lemma SendArrives(s: State, a: int, slot: Slot) returns (acts: seq<Action>)
    requires a !in s.actors && slot.owner_label in s.registry && slot.job !in s.used && s.lock.None?
    ensures Valid(s, acts)
    ensures var t := Exec(s, acts);
            var thread := s.registry[slot.owner_label].thread;
            t.registry == s.registry && t.inbox == s.inbox[slot := thread] && t.records == s.records[slot := thread] &&
            t.accepted == s.accepted[slot := thread] && t.lock.None? && t.actors == s.actors - {a}
  {
    var t := Next(s, Resolve(a, slot));
    var u := Next(t, LockSend(a));
    var v := Next(u, Check(a));
    acts := SendFinishes(v, a);
    assert v.actors - {a} == s.actors - {a};
    RunFirst(u, Check(a), acts);
    RunFirst(t, LockSend(a), [Check(a)] + acts);
    RunFirst(s, Resolve(a, slot), [LockSend(a)] + ([Check(a)] + acts));
    acts := [Resolve(a, slot)] + ([LockSend(a)] + ([Check(a)] + acts));
  }

  /** A worker nobody disturbs dispatches a pending message of the owner. */
  lemma WorkerDispatches(s: State, a: int, slot: Slot) returns (acts: seq<Action>)
    requires a !in s.actors && slot in s.inbox && Owns(s, slot.owner_label, s.inbox[slot])
    ensures Valid(s, acts) && Exec(s, acts).dispatches == s.dispatches + [(slot, s.inbox[slot])]
  {
    var s1 := Next(s, Scan(a, slot.owner_label));
    var s2 := Next(s1, ReadMessage(a, slot));
    var s3 := Next(s2, Recheck(a));
    assert Valid(Next(s3, Dispatch(a)), []);
    RunFirst(s3, Dispatch(a), []);
    RunFirst(s2, Recheck(a), [Dispatch(a)] + []);
    RunFirst(s1, ReadMessage(a, slot), [Recheck(a)] + ([Dispatch(a)] + []));
    RunFirst(s, Scan(a, slot.owner_label), [ReadMessage(a, slot)] + ([Recheck(a)] + ([Dispatch(a)] + [])));
    acts := [Scan(a, slot.owner_label)] + ([ReadMessage(a, slot)] + ([Recheck(a)] + ([Dispatch(a)] + [])));
  }

  /** An unregistration nobody disturbs frees the label and archives its mailbox. */
  lemma UnregisterArchives(s: State, a: int, name: string) returns (acts: seq<Action>)
    requires a !in s.actors && s.lock.None?
    ensures Valid(s, acts)
    ensures var t := Exec(s, acts);
            name !in t.registry && (forall f :: f in s.records && f.owner_label == name ==> f in t.archived) &&
            (forall f :: f in t.inbox || f in t.records ==> f.owner_label != name) &&
            (forall l :: l != name ==> (l in t.registry <==> l in s.registry) && (l in s.registry ==> t.registry[l] == s.registry[l]))
  {
    var s1 := Next(s, LockUnregister(a, name));
    var s2 := Next(s1, ArchiveMailbox(a));
    assert Valid(Next(s2, RemoveLabel(a)), []);
    RunFirst(s2, RemoveLabel(a), []);
    RunFirst(s1, ArchiveMailbox(a), [RemoveLabel(a)] + []);
    RunFirst(s, LockUnregister(a, name), [ArchiveMailbox(a)] + ([RemoveLabel(a)] + []));
    acts := [LockUnregister(a, name)] + ([ArchiveMailbox(a)] + ([RemoveLabel(a)] + []));
  }

  /** A worker goes on to dispatch if and only if the message is still pending and the
      label's entry is exactly the one it was started with. */
  lemma RecheckIff(s: State, a: int)
    requires Enabled(s, Recheck(a))
    ensures var Read(slot, endpoint) := s.actors[a];
            var t := Next(s, Recheck(a));
            t.actors[a] == (if slot in s.inbox && slot.owner_label in s.registry &&
                               s.registry[slot.owner_label] == endpoint
                            then Dispatching(slot, endpoint) else Scanned(slot.owner_label, endpoint)) &&
            t.dispatches == s.dispatches
  {
  }
}
