/** Replying to one question: any number of `reply` calls and other receipt
    writers, errors of the send and crashes anywhere. */
module Reply {
  import opened Prelude
  import opened Mail
  import Receipts

  /** The response file of the question. */
  datatype Response = NoResponse | Dispatching(text: string) | Sent(text: string) | SendFailed

  datatype Pc =
    | Locked(text: string)
    | Cleared(text: string)                 // no earlier dispatch on file
    | Found(text: string)                   // sender of the question known
    | Marked(text: string)                  // `dispatching` on file, nothing enqueued yet
    | Enqueued(text: string)                // the answer is in the asker's inbox
    | Refused(text: string)                 // `_ask_async` returned an error
    | Saved(text: string)                   // `sent` on file; receipt still to write
    | ReceiptLocked(terminal: Terminal, replying: bool)
    | ReceiptMerged(merged: Record, terminal: Terminal, replying: bool)
    | ReceiptStored(terminal: Terminal, replying: bool)

  datatype State = State(
    job: string,
    files: Receipts.Files,
    response: Response,
    replyLock: Option<int>,
    jobLock: Option<int>,
    actors: map<int, Pc>,
    // history: the answers put into the asker's inbox
    sent: seq<string>)

  function Create(job: string, files: Receipts.Files): State {
    State(job, files, NoResponse, None, None, map[], [])
  }

  datatype Action =
    | Open(a: int, text: string)     // non-empty text, reply lock taken
    | Inspect(a: int)
    | Find(a: int, found: bool)
    | Mark(a: int)
    | Enqueue(a: int)
    | Refuse(a: int)                 // error returned before anything was written
    | SaveSent(a: int)
    | SaveFailed(a: int)
    | LockForReply(a: int)
    | LockReceipt(a: int, terminal: Terminal)     // mark_processed and the like
    | Merge(a: int)
    | Store(a: int)
    | Unlink(a: int)
    | Stop(a: int)                   // return, exception or crash

  predicate Enabled(s: State, act: Action) {
    match act
    case Open(a, text) => a !in s.actors && s.replyLock.None? && text != ""
    case Inspect(a) => a in s.actors && s.actors[a].Locked?
    case Find(a, _) => a in s.actors && s.actors[a].Cleared?
    case Mark(a) => a in s.actors && s.actors[a].Found?
    case Enqueue(a) => a in s.actors && s.actors[a].Marked?
    case Refuse(a) => a in s.actors && s.actors[a].Marked?
    case SaveSent(a) => a in s.actors && s.actors[a].Enqueued?
    case SaveFailed(a) => a in s.actors && s.actors[a].Refused?
    case LockForReply(a) => a in s.actors && s.actors[a].Saved? && s.jobLock.None?
    case LockReceipt(a, _) => a !in s.actors && s.jobLock.None?
    case Merge(a) => a in s.actors && s.actors[a].ReceiptLocked?
    case Store(a) => a in s.actors && s.actors[a].ReceiptMerged?
    case Unlink(a) => a in s.actors && s.actors[a].ReceiptStored?
    case Stop(a) => a in s.actors
  }

  function Freed(lock: Option<int>, a: int): Option<int> {
    if lock == Some(a) then None else lock
  }

  function Gone(s: State, a: int): State {
    s.(actors := s.actors - {a}, replyLock := Freed(s.replyLock, a), jobLock := Freed(s.jobLock, a))
  }

  function To(s: State, a: int, pc: Pc): State {
    s.(actors := s.actors[a := pc])
  }

  function DoInspect(s: State, a: int): State
    requires a in s.actors && s.actors[a].Locked?
  {
    match s.response
    case Sent(text) => To(s, a, Saved(text))
    case Dispatching(_) => Gone(s, a)
    case _ => To(s, a, Cleared(s.actors[a].text))
  }

  function Next(s: State, act: Action): State
    requires Enabled(s, act)
  {
    match act
    case Open(a, text) => To(s, a, Locked(text)).(replyLock := Some(a))
    case Inspect(a) => DoInspect(s, a)
    case Find(a, found) => if found then To(s, a, Found(s.actors[a].text)) else Gone(s, a)
    case Mark(a) => To(s, a, Marked(s.actors[a].text)).(response := Dispatching(s.actors[a].text))
    case Enqueue(a) => To(s, a, Enqueued(s.actors[a].text)).(sent := s.sent + [s.actors[a].text])
    case Refuse(a) => To(s, a, Refused(s.actors[a].text))
    case SaveSent(a) => To(s, a, Saved(s.actors[a].text)).(response := Sent(s.actors[a].text))
    case SaveFailed(a) => Gone(s, a).(response := SendFailed)
    case LockForReply(a) =>
      To(s, a, ReceiptLocked(Terminal("completed", s.actors[a].text), true)).(jobLock := Some(a))
    case LockReceipt(a, terminal) => To(s, a, ReceiptLocked(terminal, false)).(jobLock := Some(a))
    case Merge(a) =>
      var pc := s.actors[a];
      To(s, a, ReceiptMerged(Receipts.Receipt(s.files, s.job, pc.terminal), pc.terminal, pc.replying))
    case Store(a) =>
      var pc := s.actors[a];
      To(s, a, ReceiptStored(pc.terminal, pc.replying)).(files := s.files.(processed := Holds(pc.merged)))
    case Unlink(a) => Gone(s, a).(files := s.files.(inbox := Missing))
    case Stop(a) => Gone(s, a)
  }

  predicate Valid(s: State, acts: seq<Action>)
    decreases acts
  {
    acts == [] || (Enabled(s, acts[0]) && Valid(Next(s, acts[0]), acts[1..]))
  }

  function Exec(s: State, acts: seq<Action>): State
    requires Valid(s, acts)
    decreases acts
  {
    if acts == [] then s else Exec(Next(s, acts[0]), acts[1..])
  }

  // ---- invariant -------------------------------------------------------

  predicate Replying(pc: Pc) {
    pc.Locked? || pc.Cleared? || pc.Found? || pc.Marked? || pc.Enqueued? || pc.Refused? || pc.Saved? ||
    (pc.ReceiptLocked? && pc.replying) || (pc.ReceiptMerged? && pc.replying) || (pc.ReceiptStored? && pc.replying)
  }

  predicate Receipting(pc: Pc) { pc.ReceiptLocked? || pc.ReceiptMerged? || pc.ReceiptStored? }

  /** What the response file says about the answers sent. */
  predicate ResponseInv(s: State) {
    match s.response
    case NoResponse => s.sent == []
    case SendFailed => s.sent == []
    case Dispatching(text) => s.sent == [] || s.sent == [text]
    case Sent(text) => s.sent == [text] && text != ""
  }

  predicate SentIs(s: State, text: string) {
    s.response == Sent(text)
  }

  predicate PcInv(s: State, pc: Pc) {
    match pc
    case Locked(text) => text != ""
    case Cleared(text) => text != "" && (s.response.NoResponse? || s.response.SendFailed?)
    case Found(text) => text != "" && (s.response.NoResponse? || s.response.SendFailed?)
    case Marked(text) => text != "" && s.response == Dispatching(text) && s.sent == []
    case Enqueued(text) => text != "" && s.response == Dispatching(text) && s.sent == [text]
    case Refused(text) => s.response == Dispatching(text) && s.sent == []
    case Saved(text) => SentIs(s, text)
    case ReceiptLocked(t, replying) => replying ==> Completed(t) && SentIs(s, t.reply)
    case ReceiptMerged(merged, t, replying) =>
      (replying ==> Completed(t) && SentIs(s, t.reply) && merged.terminal == Some(t))
    case ReceiptStored(t, replying) =>
      (replying ==> Completed(t) && SentIs(s, t.reply) &&
                    s.files.processed.Holds? && s.files.processed.record.terminal == Some(t))
  }

  predicate Inv(s: State) {
    ResponseInv(s) &&
    (forall a :: a in s.actors && Replying(s.actors[a]) ==> s.replyLock == Some(a)) &&
    (forall a :: a in s.actors && Receipting(s.actors[a]) ==> s.jobLock == Some(a)) &&
    (forall a :: a in s.actors ==> PcInv(s, s.actors[a]))
  }

  lemma GoneKeeps(s: State, a: int)
    requires Inv(s)
    ensures Inv(Gone(s, a))
  {
    assert forall b :: b in Gone(s, a).actors ==> PcInv(Gone(s, a), s.actors[b]);
  }

  predicate IsReceipt(act: Action) {
    act.LockForReply? || act.LockReceipt? || act.Merge? || act.Store? || act.Unlink?
  }

  lemma ReceiptStepKeeps(s: State, act: Action)
    requires Inv(s) && Enabled(s, act) && IsReceipt(act)
    ensures Inv(Next(s, act))
  {
    GoneKeeps(s, act.a);
  }

  lemma ReplyStepKeeps(s: State, act: Action)
    requires Inv(s) && Enabled(s, act) && !IsReceipt(act)
    ensures Inv(Next(s, act))
  {
    GoneKeeps(s, act.a);
  }

  lemma StepKeeps(s: State, act: Action)
    requires Inv(s) && Enabled(s, act)
    ensures Inv(Next(s, act))
  {
    if IsReceipt(act) {
      ReceiptStepKeeps(s, act);
    } else {
      ReplyStepKeeps(s, act);
    }
  }

  lemma {:induction false} RunKeeps(s: State, acts: seq<Action>)
    requires Inv(s) && Valid(s, acts)
    ensures Inv(Exec(s, acts))
    decreases acts
  {
    if acts != [] {
      StepKeeps(s, acts[0]);
      RunKeeps(Next(s, acts[0]), acts[1..]);
    }
  }

  // ---- what every run guarantees ---------------------------------------

  /** At most one answer to the question is ever enqueued. */
  lemma AtMostOneAnswer(job: string, files: Receipts.Files, acts: seq<Action>)
    requires Valid(Create(job, files), acts)
    ensures |Exec(Create(job, files), acts).sent| <= 1
  {
    RunKeeps(Create(job, files), acts);
  }

  /** The response file never claims more, or less, than was sent: `sent` means
      exactly that text went out, `failed` that nothing did. */
  lemma ResponseIsTruthful(job: string, files: Receipts.Files, acts: seq<Action>)
    requires Valid(Create(job, files), acts)
    ensures ResponseInv(Exec(Create(job, files), acts))
  {
    RunKeeps(Create(job, files), acts);
  }

  lemma {:induction false} SentStays(s: State, acts: seq<Action>)
    requires Inv(s) && Valid(s, acts) && s.response.Sent?
    ensures Exec(s, acts).response == s.response && Exec(s, acts).sent == s.sent
    decreases acts
  {
    if acts != [] {
      StepKeeps(s, acts[0]);
      SentStep(s, acts[0]);
      SentStays(Next(s, acts[0]), acts[1..]);
    }
  }

  lemma SentStep(s: State, act: Action)
    requires Inv(s) && Enabled(s, act) && s.response.Sent?
    ensures Next(s, act).response == s.response && Next(s, act).sent == s.sent
  {
    if act.a in s.actors {
      assert PcInv(s, s.actors[act.a]);
    }
  }

  /** Once the file says `sent`, no later call enqueues anything or changes it. */
  lemma SentIsFinal(job: string, files: Receipts.Files, acts: seq<Action>, later: seq<Action>)
    requires Valid(Create(job, files), acts)
    requires var s := Exec(Create(job, files), acts); s.response.Sent? && Valid(s, later)
    ensures var s := Exec(Create(job, files), acts);
            Exec(s, later).response == s.response && Exec(s, later).sent == s.sent == [s.response.text]
  {
    RunKeeps(Create(job, files), acts);
    SentStays(Exec(Create(job, files), acts), later);
  }

  /** A reply, first or repeated, that runs to completion leaves a completed
      receipt holding exactly the text that was sent, and no inbox copy. */
  lemma CompletedReplyLeavesReceipt(job: string, files: Receipts.Files, acts: seq<Action>, a: int)
    requires Valid(Create(job, files), acts)
    requires var s := Exec(Create(job, files), acts);
             a in s.actors && s.actors[a].ReceiptStored? && s.actors[a].replying
    ensures var s := Exec(Create(job, files), acts);
            var t := Next(s, Unlink(a));
            |t.sent| == 1 && t.sent == s.sent && t.files.inbox.Missing? && t.files.processed.Holds? &&
            t.files.processed.record.terminal == Some(Terminal("completed", t.sent[0]))
  {
    RunKeeps(Create(job, files), acts);
    var s := Exec(Create(job, files), acts);
    assert PcInv(s, s.actors[a]);
  }
}
