/** What any sequence of registry mutations by the production callers keeps. */
module RegistryRuns {
  import opened Prelude
  import opened Text
  import opened Registry

  /** One call under the registry lock. A refused call changes nothing; a crash
      before the atomic save is a call that did not happen. */
  datatype Op =
    | RegisterPane(name: string, sessionId: string, job: string, now: int)   // always with de-duplication
    | RegisterChannel(name: string, owner: string, job: string, now: int)    // no session id
    | RegisterMailbox(name: string, thread: string, now: int)
    | Unregister(name: string)
    | Prune(alive: set<string>, now: int, grace: int)
    | BindThread(name: string, pane: Entry, thread: string)
    | Configure(name: string, seen: Entry, owner: string, enabled: bool)
    | SetupFailed(name: string, thread: string)
    | Connect(name: string, connection: string)
    | ChannelState(name: string, connection: string, state: string)

  /** `connect` of a channel pump. */
  function Connected(m: Labels, name: string, connection: string): Labels {
    if name in m
    then m[name := m[name].(channel := Some(Channel(connection, "awaiting_handshake")))]
    else m
  }

  /** `_state` of a channel pump: only the recorded connection, or the first. */
  function StateSet(m: Labels, name: string, connection: string, state: string): Labels {
    if name in m && (m[name].channel.None? || m[name].channel.value.connection == connection)
    then m[name := m[name].(channel := Some(Channel(connection, state)))]
    else m
  }

  function Apply(m: Labels, op: Op): Labels {
    match op
    case RegisterPane(name, sessionId, job, now) =>
      if sessionId != "" && MayRegister(m, name, sessionId, "")
      then Registered(m, name, sessionId, job, "", true, now) else m
    case RegisterChannel(name, owner, job, now) =>
      if owner != "" && MayRegister(m, name, "", owner)
      then Registered(m, name, "", job, owner, false, now) else m
    case RegisterMailbox(name, thread, now) =>
      if thread != "" && MayClaimMailbox(m, name, thread) then MailboxRegistered(m, name, thread, now) else m
    case Unregister(name) => m - {name}
    case Prune(alive, now, grace) => Pruned(m, alive, now, grace)
    case BindThread(name, pane, thread) =>
      if name in m && m[name] == pane && pane.sessionId != "" && pane.threadId == ""
      then m[name := pane.(threadId := thread)] else m
    case Configure(name, seen, owner, enabled) =>
      if name in m && m[name] == seen && owner != "" && seen.threadId == owner
      then m[name := seen.(autoDelivery := Some(enabled), setupError := seen.setupError && !enabled)] else m
    case SetupFailed(name, thread) =>
      if name in m && m[name].threadId == thread && m[name].autoDelivery.None?
      then m[name := m[name].(setupError := true)] else m
    case Connect(name, connection) => Connected(m, name, connection)
    case ChannelState(name, connection, state) => StateSet(m, name, connection, state)
  }

  function Run(m: Labels, ops: seq<Op>): Labels
    decreases ops
  {
    if ops == [] then m else Run(Apply(m, ops[0]), ops[1..])
  }

  // ---- invariants ------------------------------------------------------

  predicate Inv(m: Labels) {
    // an open pane has at most one label
    (forall k, l :: k in m && l in m && k != l && m[k].sessionId != "" ==>
       Upper(m[k].sessionId) != Upper(m[l].sessionId)) &&
    // mailbox addresses have no pane and an owner
    (forall k :: k in m && m[k].transport.Mailbox? ==> m[k].sessionId == "" && m[k].threadId != "") &&
    // a thread owns at most one mailbox address
    (forall k, l :: k in m && l in m && k != l && m[k].transport.Mailbox? && m[l].transport.Mailbox? ==>
       m[k].threadId != m[l].threadId)
  }

  /** Changing one entry without touching its pane, its transport or, for a
      mailbox, its owner. */
  lemma EntryKeeps(m: Labels, name: string, e: Entry)
    requires Inv(m) && name in m
    requires e.sessionId == m[name].sessionId && e.transport == m[name].transport
    requires e.transport.Mailbox? ==> e.threadId == m[name].threadId
    ensures Inv(m[name := e])
  {
  }

  lemma DedupedKeeps(m: Labels, name: string, sessionId: string)
    requires Inv(m) && sessionId != ""
    ensures Inv(Deduped(m, name, sessionId))
    ensures forall l :: l in Deduped(m, name, sessionId) && l != name ==> Upper(m[l].sessionId) != Upper(sessionId)
  {
    EmptyUpper(m);
  }

  /** An entry for a pane that no other label has. */
  lemma PaneEntryKeeps(m: Labels, name: string, e: Entry)
    requires Inv(m) && !e.transport.Mailbox?
    requires forall l :: l in m && l != name ==> Upper(m[l].sessionId) != Upper(e.sessionId)
    ensures Inv(m[name := e])
  {
  }

  lemma PaneKeeps(m: Labels, name: string, sessionId: string, job: string, now: int)
    requires Inv(m) && sessionId != "" && MayRegister(m, name, sessionId, "")
    ensures Inv(Registered(m, name, sessionId, job, "", true, now))
  {
    DedupedKeeps(m, name, sessionId);
    PaneEntryKeeps(Deduped(m, name, sessionId), name, NewEntry(m, name, sessionId, job, "", now));
  }

  lemma ChannelKeeps(m: Labels, name: string, owner: string, job: string, now: int)
    requires Inv(m) && owner != "" && MayRegister(m, name, "", owner)
    ensures Inv(Registered(m, name, "", job, owner, false, now))
  {
    EmptyUpper(m);
  }

  lemma EmptyUpper(m: Labels)
    ensures forall l :: l in m && m[l].sessionId != "" ==> Upper(m[l].sessionId) != Upper("")
  {
    assert Upper("") == "";
  }

  lemma MailboxKeeps(m: Labels, name: string, thread: string, now: int)
    requires Inv(m) && thread != "" && MayClaimMailbox(m, name, thread)
    ensures Inv(MailboxRegistered(m, name, thread, now))
  {
    EmptyUpper(m);
  }

  lemma StepKeeps(m: Labels, op: Op)
    requires Inv(m)
    ensures Inv(Apply(m, op))
  {
    match op {
      case RegisterPane(name, sessionId, job, now) =>
        if sessionId != "" && MayRegister(m, name, sessionId, "") {
          PaneKeeps(m, name, sessionId, job, now);
        }
      case RegisterChannel(name, owner, job, now) =>
        if owner != "" && MayRegister(m, name, "", owner) {
          ChannelKeeps(m, name, owner, job, now);
        }
      case RegisterMailbox(name, thread, now) =>
        if thread != "" && MayClaimMailbox(m, name, thread) {
          MailboxKeeps(m, name, thread, now);
        }
      case BindThread(name, pane, thread) =>
        if Apply(m, op) != m {
          EntryKeeps(m, name, pane.(threadId := thread));
        }
      case Configure(name, seen, owner, enabled) =>
        if Apply(m, op) != m {
          EntryKeeps(m, name, Apply(m, op)[name]);
        }
      case SetupFailed(name, thread) =>
        if Apply(m, op) != m {
          EntryKeeps(m, name, m[name].(setupError := true));
        }
      case Connect(name, connection) =>
        if name in m {
          EntryKeeps(m, name, Connected(m, name, connection)[name]);
        }
      case ChannelState(name, connection, state) =>
        if StateSet(m, name, connection, state) != m {
          EntryKeeps(m, name, StateSet(m, name, connection, state)[name]);
        }
      case _ =>
    }
  }

  /** Over every run: pane ids are unique ignoring case, and each thread owns at
      most one mailbox address. */
  lemma {:induction false} RunKeeps(m: Labels, ops: seq<Op>)
    requires Inv(m)
    ensures Inv(Run(m, ops))
    decreases ops
  {
    if ops != [] {
      StepKeeps(m, ops[0]);
      RunKeeps(Apply(m, ops[0]), ops[1..]);
    }
  }

  // ---- a mailbox address changes hands only through unregister ----------

  lemma NoPaneNoLoss(m: Labels, op: Op, name: string)
    requires name in m && m[name].sessionId == "" && op != Unregister(name)
    ensures name in Apply(m, op)
  {
    assert Strip("") == "" && Upper("") == "";
  }

  lemma OwnerStep(m: Labels, op: Op, name: string)
    requires Inv(m) && name in m && m[name].transport.Mailbox? && op != Unregister(name)
    ensures var t := Apply(m, op);
            name in t && t[name].transport.Mailbox? && t[name].threadId == m[name].threadId
  {
    NoPaneNoLoss(m, op, name);
  }

  /** The owner of a mailbox address is fixed until the address is unregistered. */
  lemma {:induction false} OwnerFixed(m: Labels, ops: seq<Op>, name: string)
    requires Inv(m) && name in m && m[name].transport.Mailbox?
    requires Unregister(name) !in ops
    ensures var t := Run(m, ops);
            name in t && t[name].transport.Mailbox? && t[name].threadId == m[name].threadId
    decreases ops
  {
    if ops != [] {
      StepKeeps(m, ops[0]);
      OwnerStep(m, ops[0], name);
      OwnerFixed(Apply(m, ops[0]), ops[1..], name);
    }
  }

  // ---- how an entry goes -------------------------------------------------

  /** The calls that remove an entry: unregister, a registration of its pane under
      another label, and pruning while its pane is known to be closed and its
      registration is past the grace period. */
  predicate Removes(m: Labels, op: Op, name: string) {
    name in m &&
    match op
    case Unregister(n) => n == name
    case RegisterPane(n, sessionId, _, _) =>
      n != name && sessionId != "" && MayRegister(m, n, sessionId, "") && SamePane(m[name], sessionId)
    case Prune(alive, now, grace) => alive != {} && Dead(m[name], alive, now, grace)
    case _ => false
  }

  lemma RemovedIff(m: Labels, op: Op, name: string)
    requires name in m
    ensures name !in Apply(m, op) <==> Removes(m, op, name)
    ensures op.Prune? && name in Apply(m, op) ==> Apply(m, op)[name] == m[name]
  {
  }

  lemma {:induction false} RunThen(m: Labels, ops: seq<Op>, i: nat)
    requires i < |ops|
    ensures Run(m, ops[..i + 1]) == Apply(Run(m, ops[..i]), ops[i])
    decreases ops
  {
    if i > 0 {
      RunThen(Apply(m, ops[0]), ops[1..], i - 1);
      assert ops[..i][1..] == ops[1..][..i - 1] && ops[..i + 1][1..] == ops[1..][..i];
    }
  }

  predicate AlwaysThere(m: Labels, ops: seq<Op>, name: string) {
    forall i :: 0 <= i <= |ops| ==> name in Run(m, ops[..i])
  }

  predicate NeverRemoved(m: Labels, ops: seq<Op>, name: string) {
    forall i :: 0 <= i < |ops| ==> !Removes(Run(m, ops[..i]), ops[i], name)
  }

  lemma {:induction false} StaysUnlessRemoved(m: Labels, ops: seq<Op>, name: string, i: nat)
    requires name in m && NeverRemoved(m, ops, name) && i <= |ops|
    ensures name in Run(m, ops[..i])
    decreases i
  {
    if i > 0 {
      StaysUnlessRemoved(m, ops, name, i - 1);
      RunThen(m, ops, i - 1);
      RemovedIff(Run(m, ops[..i - 1]), ops[i - 1], name);
    } else {
      assert ops[..0] == [];
    }
  }

  /** Over every run an entry stays all the time if and only if no call unregisters
      it, registers its pane under another label or prunes it while it is dead. So
      pruning never removes a live, a fresh or a pane-free entry. */
  lemma EntryStaysIffNotRemoved(m: Labels, ops: seq<Op>, name: string)
    requires name in m
    ensures AlwaysThere(m, ops, name) <==> NeverRemoved(m, ops, name)
  {
    if NeverRemoved(m, ops, name) {
      forall i | 0 <= i <= |ops| ensures name in Run(m, ops[..i]) {
        StaysUnlessRemoved(m, ops, name, i);
      }
    }
    if AlwaysThere(m, ops, name) {
      forall i | 0 <= i < |ops| ensures !Removes(Run(m, ops[..i]), ops[i], name) {
        RunThen(m, ops, i);
        assert name in Run(m, ops[..i + 1]);
        RemovedIff(Run(m, ops[..i]), ops[i], name);
      }
    }
  }

  /** A call that leaves an open pane's label to that pane: no unregister, no other
      pane or channel under the label, the pane under no other label, and pruning
      only with a list of open panes that has the pane on it, or none. */
  predicate Spares(op: Op, name: string, sessionId: string) {
    match op
    case Unregister(n) => n != name
    case RegisterPane(n, id, _, _) => if n == name then id == sessionId else Upper(id) != Upper(sessionId)
    case RegisterChannel(n, _, _, _) => n != name
    case Prune(alive, _, _) => alive == {} || Upper(Strip(sessionId)) in alive
    case _ => true
  }

  /** A pane's label stays with its pane, however old its registration and however
      many calls are made, while the pane is open and nobody claims either. */
  lemma {:induction false} OpenPaneStays(m: Labels, ops: seq<Op>, name: string, sessionId: string)
    requires Inv(m) && name in m && m[name].sessionId == sessionId != ""
    requires forall i :: 0 <= i < |ops| ==> Spares(ops[i], name, sessionId)
    ensures name in Run(m, ops) && Run(m, ops)[name].sessionId == sessionId
    decreases ops
  {
    if ops != [] {
      StepKeeps(m, ops[0]);
      OpenPaneStep(m, ops[0], name, sessionId);
      OpenPaneStays(Apply(m, ops[0]), ops[1..], name, sessionId);
    }
  }

  lemma OpenPaneStep(m: Labels, op: Op, name: string, sessionId: string)
    requires Inv(m) && name in m && m[name].sessionId == sessionId != "" && Spares(op, name, sessionId)
    ensures name in Apply(m, op) && Apply(m, op)[name].sessionId == sessionId
  {
    RemovedIff(m, op, name);
  }

  /** The same for a fresh registration, whatever list of open panes pruning has:
      nothing registered less than the grace period ago is pruned. */
  predicate SparesFresh(op: Op, name: string, e: Entry) {
    match op
    case Unregister(n) => n != name
    case RegisterPane(n, id, _, _) => n != name && Upper(id) != Upper(e.sessionId)
    case RegisterChannel(n, _, _, _) => n != name
    case Prune(_, now, grace) => now - e.registeredAt < grace
    case _ => true
  }

  lemma {:induction false} FreshPaneStays(m: Labels, ops: seq<Op>, name: string)
    requires Inv(m) && name in m && m[name].sessionId != "" && m[name].registeredAt != 0
    requires forall i :: 0 <= i < |ops| ==> SparesFresh(ops[i], name, m[name])
    ensures var t := Run(m, ops);
            name in t && t[name].sessionId == m[name].sessionId && t[name].registeredAt == m[name].registeredAt
    decreases ops
  {
    if ops != [] {
      StepKeeps(m, ops[0]);
      FreshPaneStep(m, ops[0], name);
      FreshPaneStays(Apply(m, ops[0]), ops[1..], name);
    }
  }

  lemma FreshPaneStep(m: Labels, op: Op, name: string)
    requires Inv(m) && name in m && m[name].sessionId != "" && m[name].registeredAt != 0
    requires SparesFresh(op, name, m[name])
    ensures var t := Apply(m, op);
            name in t && t[name].sessionId == m[name].sessionId && t[name].registeredAt == m[name].registeredAt
  {
    RemovedIff(m, op, name);
  }

  /** A closed pane's entry does go, once its registration is old enough. */
  lemma ClosedPaneGoes(m: Labels, name: string, alive: set<string>, now: int, grace: int)
    requires name in m && Strip(m[name].sessionId) != "" && alive != {} && Upper(Strip(m[name].sessionId)) !in alive
    ensures name !in Apply(m, Prune(alive, now, grace)) <==>
            m[name].registeredAt == 0 || now - m[name].registeredAt >= grace
  {
  }

  // ---- who may take a label ----------------------------------------------

  /** A label that a channel session owns. */
  predicate ChannelSession(e: Entry) { e.transport.ClaudeChannel? || e.channel.Some? }

  /** A pane gets a label that is free, its own, or another plain pane's; it never
      gets a mailbox address nor another channel session's label. A refused call
      changes nothing; an accepted one keeps what is known of the same pane and
      forgets what was known of any other. */
  lemma PaneRegistration(m: Labels, name: string, sessionId: string, job: string, now: int)
    requires sessionId != ""
    ensures var t := Apply(m, RegisterPane(name, sessionId, job, now));
            if name !in m || (!m[name].transport.Mailbox? &&
                              (!ChannelSession(m[name]) || m[name].sessionId == sessionId)) then
              name in t && t[name].sessionId == sessionId && t[name].job == job && t[name].registeredAt == now &&
              if name in m && Upper(m[name].sessionId) == Upper(sessionId)
              then t[name] == m[name].(sessionId := sessionId, job := job, registeredAt := now)
              else t[name].threadId == "" && t[name].claudeOwner == "" && t[name].channel == None &&
                   t[name].autoDelivery == None && t[name].transport.Pane? && !t[name].setupError
            else t == m
  {
    EmptyUpper(m);
  }

  /** A channel process gets a label that is free, its own, or a plain pane's. */
  lemma ChannelRegistration(m: Labels, name: string, owner: string, job: string, now: int)
    requires owner != ""
    ensures var t := Apply(m, RegisterChannel(name, owner, job, now));
            if name !in m || (!m[name].transport.Mailbox? &&
                              (!ChannelSession(m[name]) || m[name].claudeOwner == owner))
            then t == m[name := BLANK.(transport := ClaudeChannel, claudeOwner := owner, job := job, registeredAt := now)]
            else t == m
  {
  }

  /** A thread gets a label that is free or its own, unless it has another one. */
  lemma MailboxRegistration(m: Labels, name: string, thread: string, now: int)
    requires thread != ""
    ensures var t := Apply(m, RegisterMailbox(name, thread, now));
            if (forall l :: l in m && l != name && m[l].transport.Mailbox? ==> m[l].threadId != thread) &&
               (name in m ==> m[name].transport.Mailbox? && m[name].threadId == thread)
            then name in t && t[name].transport.Mailbox? && t[name].threadId == thread && t[name].sessionId == "" &&
                 t[name].registeredAt == now &&
                 (name in m ==> t[name] == m[name].(sessionId := "", job := "codex", registeredAt := now)) &&
                 forall l :: l != name ==> (l in t <==> l in m) && (l in m ==> t[l] == m[l])
            else t == m
  {
  }

  /** A registration of a channel session's label by that very pane or process. */
  predicate OwnRegistration(op: Op, name: string, e: Entry) {
    (op.RegisterPane? && op.name == name && op.sessionId == e.sessionId) ||
    (op.RegisterChannel? && op.name == name && op.owner == e.claudeOwner)
  }

  predicate SameSession(m: Labels, name: string, e: Entry) {
    name in m && ChannelSession(m[name]) && m[name].sessionId == e.sessionId && m[name].claudeOwner == e.claudeOwner
  }

  lemma SessionStep(m: Labels, op: Op, name: string, e: Entry)
    requires Inv(m) && SameSession(m, name, e) && !Removes(m, op, name) && !OwnRegistration(op, name, e)
    ensures SameSession(Apply(m, op), name, e)
  {
    RemovedIff(m, op, name);
    if op.RegisterPane? && op.name == name && op.sessionId != "" {
      PaneRegistration(m, name, op.sessionId, op.job, op.now);
    } else if op.RegisterChannel? && op.name == name && op.owner != "" {
      ChannelRegistration(m, name, op.owner, op.job, op.now);
    } else if op.RegisterMailbox? && op.name == name && op.thread != "" {
      MailboxRegistration(m, name, op.thread, op.now);
    }
  }

  /** Over every run a channel session keeps its label: session and process in the
      entry change only by a registration of that very session or process, however
      often others try to register, connect, configure or prune. */
  lemma {:induction false} ChannelSessionKeepsLabel(m: Labels, ops: seq<Op>, name: string, i: nat)
    requires Inv(m) && name in m && ChannelSession(m[name]) && i <= |ops|
    requires NeverRemoved(m, ops, name) && forall k :: 0 <= k < |ops| ==> !OwnRegistration(ops[k], name, m[name])
    ensures SameSession(Run(m, ops[..i]), name, m[name])
    decreases i
  {
    if i > 0 {
      ChannelSessionKeepsLabel(m, ops, name, i - 1);
      RunThen(m, ops, i - 1);
      RunKeeps(m, ops[..i - 1]);
      SessionStep(Run(m, ops[..i - 1]), ops[i - 1], name, m[name]);
    } else {
      assert ops[..0] == [];
    }
  }

  // ---- channel fencing -------------------------------------------------

  /** While connection c is recorded for an address, the recorded channel changes
      only by c itself, by a new connect, by a registration of the address, or by
      its removal; and it is removed only by unregister, by pruning of a dead
      pane, or because its pane was registered under another label. */
  lemma ChannelFencing(m: Labels, op: Op, name: string)
    requires name in m && m[name].channel.Some?
    ensures var t := Apply(m, op);
            name !in t ==>
              op == Unregister(name) ||
              (op.Prune? && Dead(m[name], op.alive, op.now, op.grace)) ||
              (op.RegisterPane? && op.name != name && SamePane(m[name], op.sessionId))
    ensures var t := Apply(m, op);
            name in t && t[name].channel != m[name].channel ==>
              op.name == name &&
              (op.RegisterPane? || op.RegisterChannel? || op.Connect? ||
               (op.ChannelState? && op.connection == m[name].channel.value.connection &&
                t[name].channel == Some(Channel(op.connection, op.state))))
  {
  }

  /** The recorded connection, or the first, does set the channel's state, and a new
      connection always takes over. */
  lemma ChannelUpdates(m: Labels, name: string, connection: string, state: string)
    requires name in m
    ensures Apply(m, Connect(name, connection))[name].channel == Some(Channel(connection, "awaiting_handshake"))
    ensures m[name].channel.None? || m[name].channel.value.connection == connection ==>
              Apply(m, ChannelState(name, connection, state))[name].channel == Some(Channel(connection, state))
  {
  }

  // ---- threads and their settings ----------------------------------------

  /** A registration that starts a new entry under the label. */
  predicate StartsOver(m: Labels, op: Op, name: string)
    requires name in m
  {
    (op.RegisterPane? && op.name == name && Upper(op.sessionId) != Upper(m[name].sessionId)) ||
    (op.RegisterChannel? && op.name == name)
  }

  lemma ThreadRegistered(m: Labels, op: Op, name: string)
    requires Inv(m) && name in m && m[name].threadId != "" && name in Apply(m, op)
    requires Registers(op) && !StartsOver(m, op, name)
    ensures Apply(m, op)[name].threadId == m[name].threadId
  {
    EmptyUpper(m);
  }

  lemma ThreadStep(m: Labels, op: Op, name: string)
    requires Inv(m) && name in m && m[name].threadId != "" && !Removes(m, op, name) && !StartsOver(m, op, name)
    ensures name in Apply(m, op) && Apply(m, op)[name].threadId == m[name].threadId
  {
    RemovedIff(m, op, name);
    if Registers(op) {
      ThreadRegistered(m, op, name);
    }
  }

  predicate NeverStartsOver(m: Labels, ops: seq<Op>, name: string) {
    forall i :: 0 <= i < |ops| && name in Run(m, ops[..i]) ==> !StartsOver(Run(m, ops[..i]), ops[i], name)
  }

  /** A thread bound to a label, as owner of a mailbox or of a pane, stays bound
      over every run until the entry is removed or started over: no later binding,
      configuration or connection replaces it. */
  lemma {:induction false} ThreadStaysBound(m: Labels, ops: seq<Op>, name: string, i: nat)
    requires Inv(m) && name in m && m[name].threadId != "" && i <= |ops|
    requires NeverRemoved(m, ops, name) && NeverStartsOver(m, ops, name)
    ensures name in Run(m, ops[..i]) && Run(m, ops[..i])[name].threadId == m[name].threadId
    decreases i
  {
    if i > 0 {
      ThreadStaysBound(m, ops, name, i - 1);
      RunThen(m, ops, i - 1);
      RunKeeps(m, ops[..i - 1]);
      ThreadStep(Run(m, ops[..i - 1]), ops[i - 1], name);
    } else {
      assert ops[..0] == [];
    }
  }

  /** A pane without a thread is bound, provided nothing about it has changed. */
  lemma PaneIsBound(m: Labels, name: string, pane: Entry, thread: string)
    ensures var t := Apply(m, BindThread(name, pane, thread));
            if name in m && m[name] == pane && pane.sessionId != "" && pane.threadId == ""
            then t == m[name := pane.(threadId := thread)] else t == m
  {
  }

  /** Automatic delivery is set only for a label with a thread, and no setup error
      stands beside delivery that is switched on. */
  predicate SettingsInv(m: Labels) {
    forall l :: l in m ==>
      (m[l].autoDelivery.Some? ==> m[l].threadId != "") && (m[l].autoDelivery == Some(true) ==> !m[l].setupError)
  }

  predicate Registers(op: Op) { op.RegisterPane? || op.RegisterChannel? || op.RegisterMailbox? }

  lemma RegisteredSettings(m: Labels, op: Op)
    requires SettingsInv(m) && Registers(op)
    ensures SettingsInv(Apply(m, op))
  {
  }

  lemma SettingsStep(m: Labels, op: Op)
    requires SettingsInv(m)
    ensures SettingsInv(Apply(m, op))
  {
    if Registers(op) {
      RegisteredSettings(m, op);
    }
  }

  lemma {:induction false} SettingsKept(m: Labels, ops: seq<Op>)
    requires SettingsInv(m)
    ensures SettingsInv(Run(m, ops))
    decreases ops
  {
    if ops != [] {
      SettingsStep(m, ops[0]);
      SettingsKept(Apply(m, ops[0]), ops[1..]);
    }
  }

  /** Only the owning thread configures a label's delivery, and what it sets is set;
      apart from that the setting only goes with an entry that is started over. */
  lemma OnlyTheOwnerConfigures(m: Labels, op: Op, name: string)
    requires name in m && name in Apply(m, op) && Apply(m, op)[name].autoDelivery != m[name].autoDelivery
    ensures StartsOver(m, op, name) ||
            (op.Configure? && op.name == name && op.owner == m[name].threadId != "" && op.seen == m[name] &&
             Apply(m, op)[name].autoDelivery == Some(op.enabled))
  {
    EmptyUpper(m);
  }

  lemma OwnerConfigures(m: Labels, name: string, enabled: bool)
    requires name in m && m[name].threadId != ""
    ensures var t := Apply(m, Configure(name, m[name], m[name].threadId, enabled));
            name in t && t[name].autoDelivery == Some(enabled) && (enabled ==> !t[name].setupError)
  {
  }

  /** A failed setup is noted once by the label's own thread, and only before any
      configuration. */
  lemma SetupErrorIff(m: Labels, name: string, thread: string)
    requires name in m && !m[name].setupError
    ensures Apply(m, SetupFailed(name, thread))[name].setupError <==>
            m[name].threadId == thread && m[name].autoDelivery.None?
  {
  }

  // ---- resolving the caller --------------------------------------------

  function MailboxesOf(m: Labels, thread: string): set<string> {
    set l | l in m && m[l].transport.Mailbox? && m[l].threadId == thread
  }

  function LabelsOf(m: Labels, thread: string): set<string> {
    set l | l in m && m[l].threadId == thread
  }

  /** Each thread has at most one mailbox address. */
  lemma AtMostOneMailbox(m: Labels, thread: string)
    requires Inv(m)
    ensures |MailboxesOf(m, thread)| <= 1
  {
    var s := MailboxesOf(m, thread);
    if s != {} {
      var l :| l in s;
      assert s == {l};
    }
  }

  lemma {:induction false} DistinctBound(matches: seq<string>, s: set<string>)
    requires forall i :: 0 <= i < |matches| ==> matches[i] in s
    requires forall i, j :: 0 <= i < j < |matches| ==> matches[i] != matches[j]
    ensures |matches| <= |s|
  {
    if matches != [] {
      var last := |matches| - 1;
      DistinctBound(matches[..last], s - {matches[last]});
    }
  }

  /** The list comprehension both resolvers start from. */
  method Matching(m: Labels, thread: string, mailboxOnly: bool) returns (matches: seq<string>)
    ensures forall i :: 0 <= i < |matches| ==> matches[i] in Wanted(m, thread, mailboxOnly)
    ensures forall l :: l in Wanted(m, thread, mailboxOnly) ==> l in matches
    ensures forall i, j :: 0 <= i < j < |matches| ==> matches[i] != matches[j]
  {
    matches := [];
    ghost var wanted := Wanted(m, thread, mailboxOnly);
    var rest := m.Keys;
    while rest != {}
      invariant rest <= m.Keys
      invariant forall i :: 0 <= i < |matches| ==> matches[i] in wanted && matches[i] !in rest
      invariant forall l :: l in wanted && l !in rest ==> l in matches
      invariant forall i, j :: 0 <= i < j < |matches| ==> matches[i] != matches[j]
      decreases |rest|
    {
      var l :| l in rest;
      rest := rest - {l};
      if m[l].threadId == thread && (m[l].transport.Mailbox? || !mailboxOnly) {
        matches := matches + [l];
      }
    }
  }

  function Wanted(m: Labels, thread: string, mailboxOnly: bool): set<string> {
    if mailboxOnly then MailboxesOf(m, thread) else LabelsOf(m, thread)
  }

  /** `_caller_mailbox_label`: the thread's own mailbox address whenever it has one. */
  method CallerMailboxLabel(m: Labels, thread: string) returns (r: Option<string>)
    requires Inv(m)
    ensures r.Some? ==> MailboxesOf(m, thread) == {r.value} && thread != ""
    ensures r.None? ==> MailboxesOf(m, thread) == {} || thread == ""
  {
    if thread == "" {
      return None;
    }
    var matches := Matching(m, thread, true);
    if |matches| == 1 {
      assert forall l :: l in MailboxesOf(m, thread) ==> l == matches[0];
      return Some(matches[0]);
    }
    AtMostOneMailbox(m, thread);
    DistinctBound(matches, MailboxesOf(m, thread));
    assert forall l :: l in MailboxesOf(m, thread) ==> l in matches;
    r := None;
  }

  /** `_caller_label` for a call that carries its thread: the only address of the
      thread if it has just one, otherwise its mailbox address; a thread that owns
      a mailbox is always resolved, and never to a label of another thread. */
  method CallerLabel(m: Labels, thread: string) returns (r: Option<string>)
    requires Inv(m) && thread != ""
    ensures r.Some? ==> r.value in m && m[r.value].threadId == thread
    ensures r.Some? ==> LabelsOf(m, thread) == {r.value} || MailboxesOf(m, thread) == {r.value}
    ensures r.None? ==> MailboxesOf(m, thread) == {} && |LabelsOf(m, thread)| != 1
  {
    var matches := Matching(m, thread, false);
    if |matches| == 1 {
      assert LabelsOf(m, thread) == {matches[0]};
      return Some(matches[0]);
    }
    assert forall l :: l in Wanted(m, thread, false) ==> l in matches;
    DistinctBound(matches, LabelsOf(m, thread));
    r := CallerMailboxLabel(m, thread);
  }
}
