/** The label registry: every mutation is one read-modify-write of the name
    dictionary under an exclusive lock. */
module Registry {
  import opened Prelude
  import opened Text

  datatype Transport = Pane | Mailbox | ClaudeChannel

  datatype Channel = Channel(connection: string, state: string)

  /** One registry entry; empty strings stand for absent fields. */
  datatype Entry = Entry(
    sessionId: string,
    transport: Transport,
    threadId: string,
    claudeOwner: string,
    channel: Option<Channel>,
    autoDelivery: Option<bool>,
    setupError: bool,
    job: string,
    registeredAt: int)

  const BLANK: Entry := Entry("", Pane, "", "", None, None, false, "", 0)

  type Labels = map<string, Entry>

  // ---- the mutations as functions --------------------------------------

  predicate SamePane(e: Entry, sessionId: string) {
    sessionId != "" && Upper(e.sessionId) == Upper(sessionId)
  }

  /** Whether `register` accepts the label: never a mailbox address, and a channel
      session's address only for its own pane or its own process. */
  predicate MayRegister(m: Labels, name: string, sessionId: string, owner: string) {
    name in m ==>
      var e := m[name];
      !e.transport.Mailbox? &&
      (e.transport.ClaudeChannel? || e.channel.Some? ==>
         (sessionId != "" && e.sessionId == sessionId) || (owner != "" && e.claudeOwner == owner))
  }

  /** The dictionary without the other labels of the same pane. */
  function Deduped(m: Labels, name: string, sessionId: string): Labels {
    map l | l in m && (l == name || !SamePane(m[l], sessionId)) :: m[l]
  }

  function NewEntry(m: Labels, name: string, sessionId: string, job: string, owner: string, now: int): Entry {
    var e := if name in m && SamePane(m[name], sessionId) then m[name] else BLANK;
    var e := e.(sessionId := sessionId, job := job, registeredAt := now);
    if owner != "" then e.(transport := ClaudeChannel, claudeOwner := owner) else e
  }

  function Registered(m: Labels, name: string, sessionId: string, job: string, owner: string,
                      dedupe: bool, now: int): Labels
  {
    var kept := if dedupe && sessionId != "" then Deduped(m, name, sessionId) else m;
    kept[name := NewEntry(m, name, sessionId, job, owner, now)]
  }

  predicate MayClaimMailbox(m: Labels, name: string, thread: string) {
    (forall l :: l in m && l != name ==> !(m[l].transport.Mailbox? && m[l].threadId == thread)) &&
    (name in m ==> m[name].transport.Mailbox? && m[name].threadId == thread)
  }

  function MailboxRegistered(m: Labels, name: string, thread: string, now: int): Labels {
    var e := if name in m then m[name] else BLANK;
    m[name := e.(sessionId := "", transport := Mailbox, threadId := thread, job := "codex", registeredAt := now)]
  }

  /** An entry pruning may drop: it names a pane, the pane is not open, and the
      registration is older than the grace period. */
  predicate Dead(e: Entry, alive: set<string>, now: int, grace: int) {
    Strip(e.sessionId) != "" && Upper(Strip(e.sessionId)) !in alive &&
    (e.registeredAt == 0 || now - e.registeredAt >= grace)
  }

  function Pruned(m: Labels, alive: set<string>, now: int, grace: int): Labels {
    if alive == {} then m else map l | l in m && !Dead(m[l], alive, now, grace) :: m[l]
  }

  // ---- the registry as a program ---------------------------------------

  class Registry {
    var labels: Labels

    constructor ()
      ensures labels == map[]
    {
      labels := map[];
    }

    /** `register`: refused, or the entry is written and, with `dedupe`, every
        other name of the same pane is dropped. */
    method Register(name: string, sessionId: string, job: string, owner: string, dedupe: bool, now: int)
      returns (ok: bool)
      modifies this
      ensures ok == MayRegister(old(labels), name, sessionId, owner)
      ensures labels == if ok then Registered(old(labels), name, sessionId, job, owner, dedupe, now)
                        else old(labels)
    {
      if name in labels && labels[name].transport.Mailbox? {
        return false;
      }
      if name in labels && (labels[name].transport.ClaudeChannel? || labels[name].channel.Some?) {
        var previous := labels[name];
        var samePane := sessionId != "" && previous.sessionId == sessionId;
        var sameOwner := owner != "" && previous.claudeOwner == owner;
        if !samePane && !sameOwner {
          return false;
        }
      }
      var entry := NewEntry(labels, name, sessionId, job, owner, now);
      if dedupe && sessionId != "" {
        DropCollisions(name, sessionId);
      }
      labels := labels[name := entry];
      ok := true;
    }

    method DropCollisions(name: string, sessionId: string)
      requires sessionId != ""
      modifies this
      ensures labels == Deduped(old(labels), name, sessionId)
    {
      var target := Upper(sessionId);
      var rest := labels.Keys;
      while rest != {}
        invariant rest <= labels.Keys <= old(labels).Keys
        invariant forall l :: l in labels ==> labels[l] == old(labels)[l]
        invariant forall l :: l in old(labels) && l !in rest ==>
                    (l in labels <==> l == name || !SamePane(old(labels)[l], sessionId))
        invariant forall l :: l in rest ==> l in labels
        decreases |rest|
      {
        var l :| l in rest;
        if l != name && Upper(labels[l].sessionId) == target {
          labels := labels - {l};
        }
        rest := rest - {l};
      }
    }

    /** `register_mailbox`: refused when the thread has another mailbox label or
        the label is anybody else's. */
    method RegisterMailbox(name: string, thread: string, now: int) returns (ok: bool)
      modifies this
      ensures ok == MayClaimMailbox(old(labels), name, thread)
      ensures labels == if ok then MailboxRegistered(old(labels), name, thread, now) else old(labels)
    {
      var rest := labels.Keys;
      while rest != {}
        invariant rest <= labels.Keys
        invariant forall l :: l in labels && l !in rest && l != name ==>
                    !(labels[l].transport.Mailbox? && labels[l].threadId == thread)
        decreases |rest|
      {
        var l :| l in rest;
        if l != name && labels[l].transport.Mailbox? && labels[l].threadId == thread {
          return false;
        }
        rest := rest - {l};
      }
      if name in labels && (!labels[name].transport.Mailbox? || labels[name].threadId != thread) {
        return false;
      }
      var entry := if name in labels then labels[name] else BLANK;
      labels := labels[name := entry.(sessionId := "", transport := Mailbox, threadId := thread,
                                       job := "codex", registeredAt := now)];
      ok := true;
    }

    method Unregister(name: string)
      modifies this
      ensures labels == old(labels) - {name}
    {
      labels := labels - {name};
    }

    /** No pane named, or an open one, or a fresh registration: the entry stays. */
    method IsDead(entry: Entry, alive: set<string>, now: int, grace: int) returns (dead: bool)
      ensures dead == Dead(entry, alive, now, grace)
    {
      var sid := Strip(entry.sessionId);
      if sid == "" || Upper(sid) in alive {
        return false;
      }
      dead := entry.registeredAt == 0 || now - entry.registeredAt >= grace;
    }

    /** `prune_dead`: exactly the dead entries go, and nothing at all when the set
        of open panes is unknown. */
    method PruneDead(alive: set<string>, now: int, grace: int) returns (removed: seq<string>)
      modifies this
      ensures labels == Pruned(old(labels), alive, now, grace)
      ensures forall l :: l in removed <==>
                alive != {} && l in old(labels) && Dead(old(labels)[l], alive, now, grace)
    {
      removed := [];
      if alive == {} {
        return;
      }
      var rest := labels.Keys;
      while rest != {}
        invariant rest <= labels.Keys <= old(labels).Keys
        invariant forall l :: l in labels ==> labels[l] == old(labels)[l]
        invariant forall l :: l in rest ==> l in labels
        invariant forall l :: l in old(labels) && l !in rest ==>
                    (l in labels <==> !Dead(old(labels)[l], alive, now, grace))
        invariant forall l :: l in removed <==>
                    l in old(labels) && l !in rest && Dead(old(labels)[l], alive, now, grace)
        decreases |rest|
      {
        var l :| l in rest;
        rest := rest - {l};
        var dead := IsDead(labels[l], alive, now, grace);
        if !dead {
          continue;
        }
        removed := removed + [l];
        labels := labels - {l};
      }
    }
  }
}
