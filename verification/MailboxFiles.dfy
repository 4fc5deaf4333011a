/** The files of one job on the mailbox and native-channel transports, operation
    by operation: the sender's write, receipt writers and channel-pump updates
    interleave freely and may crash after every single file operation. */
module MailboxFiles {
  import opened Prelude
  import opened Mail
  import Receipts

  datatype Pc =
    // sender (`_write_inbox` of a new job)
    | Sending | SentHistory
    // receipt writer (`_move_to_processed`)
    | ReceiptLocked(terminal: Terminal)
    | ReceiptMerged(terminal: Terminal, merged: Record)
    | ReceiptStored
    | ReceiptUnlinked
    // channel pump (`_update_pending`)
    | PumpSendLocked(mark: string)
    | PumpLocked(mark: string)
    | PumpRead(current: Record)
    | PumpHistory(current: Record)

  datatype State = State(
    original: Record,
    inbox: File, processed: File, history: File,
    jobLock: Option<int>, sendLock: Option<int>,
    actors: map<int, Pc>,
    // history
    accepted: bool, receipted: bool)

  /** A job its sender is about to persist; nobody else knows its id yet. */
  function Create(original: Record, sender: int): State {
    State(original, Missing, Missing, Missing, None, None, map[sender := Sending], false, false)
  }

  datatype Action =
    | WriteHistory(a: int) | WriteInbox(a: int)
    | LockReceipt(a: int, terminal: Terminal) | MergeReceipt(a: int) | StoreReceipt(a: int)
    | UnlinkInbox(a: int) | CloseReceipt(a: int)
    | LockSend(a: int, mark: string) | LockJob(a: int) | ReadPending(a: int)
    | UpdateHistory(a: int) | UpdateInbox(a: int)
    | Stop(a: int)

  predicate Enabled(s: State, act: Action) {
    match act
    case WriteHistory(a) => a in s.actors && s.actors[a].Sending?
    case WriteInbox(a) => a in s.actors && s.actors[a].SentHistory?
    case LockReceipt(a, _) => a !in s.actors && s.accepted && s.jobLock.None?
    case MergeReceipt(a) => a in s.actors && s.actors[a].ReceiptLocked?
    case StoreReceipt(a) => a in s.actors && s.actors[a].ReceiptMerged?
    case UnlinkInbox(a) => a in s.actors && s.actors[a].ReceiptStored?
    case CloseReceipt(a) => a in s.actors && s.actors[a].ReceiptUnlinked?
    case LockSend(a, _) => a !in s.actors && s.accepted && s.sendLock.None?
    case LockJob(a) => a in s.actors && s.actors[a].PumpSendLocked? && s.jobLock.None?
    case ReadPending(a) => a in s.actors && s.actors[a].PumpLocked?
    case UpdateHistory(a) => a in s.actors && s.actors[a].PumpRead?
    case UpdateInbox(a) => a in s.actors && s.actors[a].PumpHistory?
    case Stop(a) => a in s.actors
  }

  function Freed(lock: Option<int>, a: int): Option<int> {
    if lock == Some(a) then None else lock
  }

  /** Return, refusal or crash: locks go, files stay. */
  function Gone(s: State, a: int): State {
    s.(actors := s.actors - {a}, jobLock := Freed(s.jobLock, a), sendLock := Freed(s.sendLock, a))
  }

  function To(s: State, a: int, pc: Pc): State {
    s.(actors := s.actors[a := pc])
  }

  function FilesOf(s: State): Receipts.Files {
    Receipts.Files(s.inbox, s.processed)
  }

  function Next(s: State, act: Action): State
    requires Enabled(s, act)
  {
    match act
    case WriteHistory(a) => To(s, a, SentHistory).(history := Holds(s.original))
    case WriteInbox(a) => Gone(s, a).(inbox := Holds(s.original), accepted := true)
    case LockReceipt(a, terminal) => To(s, a, ReceiptLocked(terminal)).(jobLock := Some(a))
    case MergeReceipt(a) =>
      var t := s.actors[a].terminal;
      To(s, a, ReceiptMerged(t, Receipts.Receipt(FilesOf(s), s.original.jobId, t)))
    case StoreReceipt(a) => To(s, a, ReceiptStored).(processed := Holds(s.actors[a].merged))
    case UnlinkInbox(a) => To(s, a, ReceiptUnlinked).(inbox := Missing, receipted := true)
    case CloseReceipt(a) => Gone(s, a)
    case LockSend(a, mark) => To(s, a, PumpSendLocked(mark)).(sendLock := Some(a))
    case LockJob(a) => To(s, a, PumpLocked(s.actors[a].mark)).(jobLock := Some(a))
    case ReadPending(a) =>
      if s.inbox.Holds? then To(s, a, PumpRead(s.inbox.record.(channel := s.actors[a].mark)))
      else Gone(s, a)
    case UpdateHistory(a) =>
      To(s, a, PumpHistory(s.actors[a].current)).(history := Holds(s.actors[a].current))
    case UpdateInbox(a) => Gone(s, a).(inbox := Holds(s.actors[a].current))
    case Stop(a) => Gone(s, a)
  }

  predicate Valid(s: State, acts: seq<Action>)
    decreases acts
  {
    acts == [] || (Enabled(s, acts[0]) && Valid(Next(s, acts[0]), acts[1..]))
  }

  function Exec(s: State, acts: seq<Action>): State
    requires Valid(s, acts)
    decreases acts
  {
    if acts == [] then s else Exec(Next(s, acts[0]), acts[1..])
  }

  // ---- invariant -------------------------------------------------------

  /** A copy that still carries everything the sender wrote. */
  predicate Whole(s: State, r: Record) {
    r.jobId == s.original.jobId && r.envelope == s.original.envelope
  }

  predicate WholeFile(s: State, f: File) {
    f.Holds? && Whole(s, f.record)
  }

  predicate NeedsJobLock(pc: Pc) {
    !pc.Sending? && !pc.SentHistory? && !pc.PumpSendLocked?
  }

  predicate FileInv(s: State) {
    (s.inbox.Missing? || (WholeFile(s, s.inbox) && s.inbox.record.terminal.None?)) &&
    (s.processed.Missing? || WholeFile(s, s.processed)) &&
    (s.accepted ==> WholeFile(s, s.history) && (s.inbox.Missing? ==> WholeFile(s, s.processed))) &&
    (!s.accepted ==> s.inbox.Missing? && s.processed.Missing?) &&
    (s.receipted ==> s.accepted && s.inbox.Missing?)
  }

  predicate PcInv(s: State, pc: Pc) {
    match pc
    case Sending => !s.accepted
    case SentHistory => !s.accepted && WholeFile(s, s.history)
    case ReceiptMerged(_, merged) =>
      s.accepted && Whole(s, merged) &&
      merged == Receipts.Receipt(FilesOf(s), s.original.jobId, pc.terminal)
    case ReceiptStored => s.accepted && WholeFile(s, s.processed)
    case PumpRead(current) =>
      s.accepted && Whole(s, current) && current.terminal.None? && !s.inbox.Missing?
    case PumpHistory(current) =>
      s.accepted && Whole(s, current) && current.terminal.None? && !s.inbox.Missing?
    case _ => s.accepted
  }

  predicate Inv(s: State) {
    s.original.terminal.None? &&
    FileInv(s) &&
    (forall a :: a in s.actors && NeedsJobLock(s.actors[a]) ==> s.jobLock == Some(a)) &&
    (forall a, b :: a in s.actors && b in s.actors && !s.accepted ==> a == b) &&
    (forall a :: a in s.actors ==> PcInv(s, s.actors[a]))
  }

  lemma GoneKeeps(s: State, a: int)
    requires Inv(s)
    ensures Inv(Gone(s, a))
  {
    assert forall b :: b in Gone(s, a).actors ==> PcInv(Gone(s, a), s.actors[b]);
  }

  lemma StepKeeps(s: State, act: Action)
    requires Inv(s) && Enabled(s, act)
    ensures Inv(Next(s, act))
  {
    GoneKeeps(s, act.a);
  }

  lemma {:induction false} RunKeeps(s: State, acts: seq<Action>)
    requires Inv(s) && Valid(s, acts)
    ensures Inv(Exec(s, acts))
    decreases acts
  {
    if acts != [] {
      StepKeeps(s, acts[0]);
      RunKeeps(Next(s, acts[0]), acts[1..]);
    }
  }

  lemma {:induction false} OriginalFixed(s: State, acts: seq<Action>)
    requires Valid(s, acts)
    ensures Exec(s, acts).original == s.original
    decreases acts
  {
    if acts != [] {
      OriginalFixed(Next(s, acts[0]), acts[1..]);
    }
  }

  // ---- what every run guarantees ---------------------------------------

  predicate Carries(f: File, original: Record) {
    f.Holds? && f.record.jobId == original.jobId && f.record.envelope == original.envelope
  }

  /** Conservation: after every single file operation of every run an accepted
      job is in the inbox or processed, and in history as well, each time with
      all the fields its sender wrote. */
  lemma Conservation(original: Record, sender: int, acts: seq<Action>)
    requires original.terminal.None? && Valid(Create(original, sender), acts)
    ensures var s := Exec(Create(original, sender), acts);
            s.accepted ==>
              Carries(s.history, original) && (Carries(s.inbox, original) || Carries(s.processed, original))
  {
    RunKeeps(Create(original, sender), acts);
    OriginalFixed(Create(original, sender), acts);
  }

  lemma {:induction false} StaysReceipted(s: State, acts: seq<Action>)
    requires Inv(s) && Valid(s, acts) && s.receipted
    ensures Exec(s, acts).receipted && Exec(s, acts).inbox.Missing?
    decreases acts
  {
    if acts != [] {
      StepKeeps(s, acts[0]);
      StaysReceipted(Next(s, acts[0]), acts[1..]);
    }
  }

  /** A processed job never reappears: from the moment a receipt removed the inbox
      copy it stays removed, whatever pump updates were already under way. */
  lemma NeverReappears(original: Record, sender: int, acts: seq<Action>, later: seq<Action>)
    requires original.terminal.None? && Valid(Create(original, sender), acts)
    requires Exec(Create(original, sender), acts).receipted
    requires Valid(Exec(Create(original, sender), acts), later)
    ensures Exec(Exec(Create(original, sender), acts), later).inbox.Missing?
  {
    RunKeeps(Create(original, sender), acts);
    StaysReceipted(Exec(Create(original, sender), acts), later);
  }

  predicate Answered(s: State) {
    s.processed.Holds? && s.processed.record.terminal.Some? && Answer(s.processed.record.terminal.value)
  }

  lemma {:induction false} StaysAnswered(s: State, acts: seq<Action>)
    requires Inv(s) && Valid(s, acts) && s.receipted && Answered(s)
    ensures Answered(Exec(s, acts))
    decreases acts
  {
    if acts != [] {
      StepKeeps(s, acts[0]);
      StaysAnswered(Next(s, acts[0]), acts[1..]);
    }
  }

  /** Once one receipt has run to completion, a stored answer survives every
      duplicate, weaker or crashing receipt that follows. */
  lemma AnswerSurvives(original: Record, sender: int, acts: seq<Action>, later: seq<Action>)
    requires original.terminal.None? && Valid(Create(original, sender), acts)
    requires Exec(Create(original, sender), acts).receipted
    requires Answered(Exec(Create(original, sender), acts))
    requires Valid(Exec(Create(original, sender), acts), later)
    ensures Answered(Exec(Exec(Create(original, sender), acts), later))
  {
    RunKeeps(Create(original, sender), acts);
    StaysAnswered(Exec(Create(original, sender), acts), later);
  }

  /** Exactly when a weaker receipt keeps a stored answer: when the inbox copy is
      gone. Otherwise a receipt crashed after storing and before removing it, and
      the next one starts over from the inbox copy. */
  lemma AnswerKeptIffInboxGone(original: Record, sender: int, acts: seq<Action>, a: int)
    requires original.terminal.None? && Valid(Create(original, sender), acts)
    requires var s := Exec(Create(original, sender), acts);
             Answered(s) && a in s.actors && s.actors[a].ReceiptMerged? && !Answer(s.actors[a].terminal)
    ensures var s := Exec(Create(original, sender), acts);
            Answered(Next(s, StoreReceipt(a))) <==> s.inbox.Missing?
  {
    RunKeeps(Create(original, sender), acts);
    var s := Exec(Create(original, sender), acts);
    assert PcInv(s, s.actors[a]);
  }
}
