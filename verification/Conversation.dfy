/** Which conversation a message belongs to, along reply chains of any length.

    Only single file reads and writes are steps here, and no step waits for a
    lock: senders, replies, drains, receipts and pump updates interleave in every
    way the program allows and in more. */
module Conversation {
  import opened Prelude

  /** What a message file says. `Bare` is the receipt of a job whose message was
      not found: it has a job id and nothing else. */
  datatype Content =
    | Bare
    | Message(from_: string, to: string, conversation: string, inReplyTo: Option<string>)

  datatype Slot = Slot(mailbox: string, job: string)

  datatype Folder = InInbox | InProcessed | InHistory

  datatype Pc =
    // `reply`, looking for the question, and having found it
    | Looking(slot: Slot, folder: Folder)
    | Found(slot: Slot, question: Content)
    // `_ask_async` and `_write_inbox`
    | Sending(slot: Slot, content: Content)
    | Recorded(slot: Slot, content: Content)
    // `_save_processed_receipt`, a hook's drain or `_update_pending`
    | Holding(slot: Slot, content: Content)

  /** A sent message; `rank` counts the messages sent before it. */
  datatype Sent = Sent(slot: Slot, content: Content, rank: nat)

  datatype State = State(
    inbox: map<Slot, Content>, processed: map<Slot, Content>, history: map<Slot, Content>,
    actors: map<int, Pc>,
    // history
    used: set<string>,
    sent: map<string, Sent>)

  const START := State(map[], map[], map[], map[], {}, map[])

  datatype Action =
    | Ask(a: int, job: string, from_: string, to: string)
    | StartReply(a: int, slot: Slot) | Look(a: int) | Answer(a: int, job: string, from_: string)
    | WriteHistory(a: int) | WriteInbox(a: int)
    | ReadRecord(a: int, slot: Slot) | WriteProcessed(a: int) | WriteBack(a: int)
    | RemoveInbox(a: int, slot: Slot) | ArchiveMailbox(a: int, mailbox: string)
    | Stop(a: int)

  predicate At(s: State, a: int) { a in s.actors }

  predicate Enabled(s: State, act: Action) {
    match act
    case Ask(a, job, from_, _) => !At(s, a) && job !in s.used && from_ != "" && job != ""
    case StartReply(a, _) => !At(s, a)
    case Look(a) => At(s, a) && s.actors[a].Looking?
    case Answer(a, job, from_) => At(s, a) && s.actors[a].Found? && job !in s.used && from_ != "" && job != ""
    case WriteHistory(a) => At(s, a) && (s.actors[a].Sending? || s.actors[a].Recorded?)
    case WriteInbox(a) => At(s, a) && s.actors[a].Recorded?
    case ReadRecord(a, _) => !At(s, a)
    case WriteProcessed(a) => At(s, a) && s.actors[a].Holding?
    case WriteBack(a) => At(s, a) && s.actors[a].Holding? && s.actors[a].content.Message?
    case RemoveInbox(_, _) => true
    case ArchiveMailbox(_, _) => true
    case Stop(a) => At(s, a)
  }

  function To(s: State, a: int, pc: Pc): State { s.(actors := s.actors[a := pc]) }

  /** Return, refusal or crash. */
  function Gone(s: State, a: int): State { s.(actors := s.actors - {a}) }

  function FilesIn(s: State, folder: Folder): map<Slot, Content> {
    match folder
    case InInbox => s.inbox
    case InProcessed => s.processed
    case InHistory => s.history
  }

  predicate Names(s: State, slot: Slot, folder: Folder) {
    slot in FilesIn(s, folder) && FilesIn(s, folder)[slot].Message? && FilesIn(s, folder)[slot].from_ != ""
  }

  /** One round of the search through inbox, processed and history. A record with
      no sender does not end it; a sender called "unknown" ends it in vain. */
  function DoLook(s: State, a: int): State
    requires Enabled(s, Look(a))
  {
    var Looking(slot, folder) := s.actors[a];
    if Names(s, slot, folder) then
      if FilesIn(s, folder)[slot].from_ == "unknown" then Gone(s, a)
      else To(s, a, Found(slot, FilesIn(s, folder)[slot]))
    else if folder.InHistory? then Gone(s, a)
    else To(s, a, Looking(slot, if folder.InInbox? then InProcessed else InHistory))
  }

  /** The envelope of a reply: addressed to the asker, in the same conversation. */
  function ReplyTo(slot: Slot, question: Content, from_: string): Content
    requires question.Message?
  {
    Message(from_, question.from_, if question.conversation != "" then question.conversation else slot.job, Some(slot.job))
  }

  function DoAnswer(s: State, a: int, job: string, from_: string): State
    requires Enabled(s, Answer(a, job, from_))
  {
    var Found(slot, question) := s.actors[a];
    if question.Message? then
      To(s, a, Sending(Slot(question.from_, job), ReplyTo(slot, question, from_))).(used := s.used + {job})
    else Gone(s, a)
  }

  function DoWriteHistory(s: State, a: int): State
    requires Enabled(s, WriteHistory(a))
  {
    var slot, content := s.actors[a].slot, s.actors[a].content;
    To(s, a, Recorded(slot, content)).(
      history := s.history[slot := content],
      sent := if slot.job in s.sent then s.sent else s.sent[slot.job := Sent(slot, content, |s.sent|)])
  }

  /** What a receipt starts from: the inbox record, else the processed one, else nothing. */
  function Known(s: State, slot: Slot): Content {
    if slot in s.inbox then s.inbox[slot] else if slot in s.processed then s.processed[slot] else Bare
  }

  function Without(files: map<Slot, Content>, mailbox: string): map<Slot, Content> {
    map f | f in files && f.mailbox != mailbox :: files[f]
  }

  function Next(s: State, act: Action): State
    requires Enabled(s, act)
  {
    match act
    case Ask(a, job, from_, to) =>
      To(s, a, Sending(Slot(to, job), Message(from_, to, job, None))).(used := s.used + {job})
    case StartReply(a, slot) => To(s, a, Looking(slot, InInbox))
    case Look(a) => DoLook(s, a)
    case Answer(a, job, from_) => DoAnswer(s, a, job, from_)
    case WriteHistory(a) => DoWriteHistory(s, a)
    case WriteInbox(a) => s.(inbox := s.inbox[s.actors[a].slot := s.actors[a].content])
    case ReadRecord(a, slot) => To(s, a, Holding(slot, Known(s, slot)))
    case WriteProcessed(a) => s.(processed := s.processed[s.actors[a].slot := s.actors[a].content])
    case WriteBack(a) =>
      var slot, content := s.actors[a].slot, s.actors[a].content;
      s.(history := s.history[slot := content], inbox := s.inbox[slot := content])
    case RemoveInbox(_, slot) => s.(inbox := s.inbox - {slot})
    case ArchiveMailbox(_, mailbox) =>
      s.(inbox := Without(s.inbox, mailbox), processed := Without(s.processed, mailbox),
         history := Without(s.history, mailbox))
    case Stop(a) => Gone(s, a)
  }

  predicate Valid(s: State, acts: seq<Action>)
    decreases acts
  {
    acts == [] || (Enabled(s, acts[0]) && Valid(Next(s, acts[0]), acts[1..]))
  }

  function Exec(s: State, acts: seq<Action>): State
    requires Valid(s, acts)
    decreases acts
  {
    if acts == [] then s else Exec(Next(s, acts[0]), acts[1..])
  }

  // ---- invariant -------------------------------------------------------

  type Log = map<string, Sent>

  /** Any copy of a message is the message that was sent. */
  predicate Genuine(sent: Log, slot: Slot, content: Content) {
    content.Message? ==> slot.job in sent && sent[slot.job].slot == slot && sent[slot.job].content == content
  }

  /** A root starts its own conversation; a reply answers an earlier message, goes
      to its sender and stays in its conversation. */
  predicate Grounded(sent: Log, slot: Slot, content: Content, rank: nat) {
    content.Message? && content.from_ != "" && content.to == slot.mailbox && content.conversation != "" &&
    (content.inReplyTo.None? ==> content.conversation == slot.job) &&
    (content.inReplyTo.Some? ==> Follows(sent, content.inReplyTo.value, content, rank))
  }

  predicate Follows(sent: Log, parent: string, content: Content, rank: nat)
    requires content.Message?
  {
    parent in sent && sent[parent].rank < rank && sent[parent].content.Message? &&
    content.conversation == sent[parent].content.conversation && content.to == sent[parent].content.from_
  }

  predicate PcInv(sent: Log, used: set<string>, pc: Pc) {
    match pc
    case Looking(_, _) => true
    case Found(slot, question) => question.Message? && Genuine(sent, slot, question)
    case Sending(slot, content) => slot.job in used && slot.job !in sent && Grounded(sent, slot, content, |sent|)
    case Recorded(slot, content) => content.Message? && Genuine(sent, slot, content)
    case Holding(slot, content) => Genuine(sent, slot, content)
  }

  predicate FolderInv(sent: Log, files: map<Slot, Content>) {
    forall f :: f in files ==> Genuine(sent, f, files[f])
  }

  predicate SentInv(sent: Log, used: set<string>) {
    forall j :: j in sent ==>
      j in used && sent[j].slot.job == j && sent[j].rank < |sent| &&
      Grounded(sent, sent[j].slot, sent[j].content, sent[j].rank)
  }

  predicate Apart(actors: map<int, Pc>) {
    forall a, b :: a in actors && b in actors && a != b && actors[a].Sending? && actors[b].Sending? ==>
      actors[a].slot.job != actors[b].slot.job
  }

  predicate ActorsInv(sent: Log, used: set<string>, actors: map<int, Pc>) {
    Apart(actors) && forall a :: a in actors ==> PcInv(sent, used, actors[a])
  }

  predicate Inv(s: State) {
    FolderInv(s.sent, s.inbox) && FolderInv(s.sent, s.processed) && FolderInv(s.sent, s.history) &&
    (forall f :: f in s.history ==> s.history[f].Message?) &&
    SentInv(s.sent, s.used) && ActorsInv(s.sent, s.used, s.actors)
  }

  /** An actor moves on without starting to send. */
  lemma Moves(s: State, a: int, pc: Pc)
    requires Inv(s) && PcInv(s.sent, s.used, pc) && !pc.Sending?
    ensures Inv(To(s, a, pc))
  {
  }

  /** A message under a new id is about to be written. */
  lemma Starts(s: State, a: int, slot: Slot, content: Content)
    requires Inv(s) && slot.job !in s.used && Grounded(s.sent, slot, content, |s.sent|)
    ensures Inv(To(s, a, Sending(slot, content)).(used := s.used + {slot.job}))
  {
    var actors, used := s.actors[a := Sending(slot, content)], s.used + {slot.job};
    assert forall b :: b in s.actors ==> PcInv(s.sent, s.used, s.actors[b]);
    assert forall b :: b in actors ==> PcInv(s.sent, used, actors[b]);
  }

  lemma AnswerKeeps(s: State, a: int, job: string, from_: string)
    requires Inv(s) && Enabled(s, Answer(a, job, from_))
    ensures Inv(Next(s, Answer(a, job, from_)))
  {
    var pc := s.actors[a];
    assert PcInv(s.sent, s.used, pc);
    var q := s.sent[pc.slot.job];
    assert Grounded(s.sent, q.slot, q.content, q.rank);
    Starts(s, a, Slot(pc.question.from_, job), ReplyTo(pc.slot, pc.question, from_));
  }

  lemma Leaves(s: State, a: int)
    requires Inv(s)
    ensures Inv(Gone(s, a))
  {
  }

  lemma FilesGenuine(s: State, slot: Slot, folder: Folder)
    requires Inv(s) && slot in FilesIn(s, folder)
    ensures Genuine(s.sent, slot, FilesIn(s, folder)[slot])
  {
  }

  lemma LookKeeps(s: State, a: int)
    requires Inv(s) && Enabled(s, Look(a))
    ensures Inv(Next(s, Look(a)))
  {
    var Looking(slot, folder) := s.actors[a];
    Leaves(s, a);
    if Names(s, slot, folder) {
      FilesGenuine(s, slot, folder);
      Moves(s, a, Found(slot, FilesIn(s, folder)[slot]));
    } else if !folder.InHistory? {
      Moves(s, a, Looking(slot, if folder.InInbox? then InProcessed else InHistory));
    }
  }

  predicate Extends(sent: Log, more: Log) {
    |sent| <= |more| && forall j :: j in sent ==> j in more && more[j] == sent[j]
  }

  lemma GenuineStays(sent: Log, more: Log, slot: Slot, content: Content)
    requires Extends(sent, more) && Genuine(sent, slot, content)
    ensures Genuine(more, slot, content)
  {
  }

  lemma GroundedStays(sent: Log, more: Log, slot: Slot, content: Content, rank: nat, later: nat)
    requires Extends(sent, more) && Grounded(sent, slot, content, rank) && rank <= later
    ensures Grounded(more, slot, content, later)
  {
  }

  lemma FolderStays(sent: Log, more: Log, files: map<Slot, Content>)
    requires Extends(sent, more) && FolderInv(sent, files)
    ensures FolderInv(more, files)
  {
    forall f | f in files ensures Genuine(more, f, files[f]) {
      GenuineStays(sent, more, f, files[f]);
    }
  }

  lemma ActorsStay(sent: Log, more: Log, used: set<string>, actors: map<int, Pc>)
    requires Extends(sent, more) && ActorsInv(sent, used, actors)
    requires forall b :: b in actors && actors[b].Sending? ==> actors[b].slot.job !in more
    ensures ActorsInv(more, used, actors)
  {
    forall b | b in actors ensures PcInv(more, used, actors[b]) {
      assert PcInv(sent, used, actors[b]);
      match actors[b]
      case Sending(slot, content) => GroundedStays(sent, more, slot, content, |sent|, |more|);
      case _ =>
    }
  }

  lemma SentGrows(sent: Log, used: set<string>, slot: Slot, content: Content)
    requires SentInv(sent, used) && slot.job in used && slot.job !in sent && Grounded(sent, slot, content, |sent|)
    ensures var more := sent[slot.job := Sent(slot, content, |sent|)]; Extends(sent, more) && SentInv(more, used)
  {
    var more := sent[slot.job := Sent(slot, content, |sent|)];
    assert |more| == |sent| + 1;
    forall j | j in more ensures Grounded(more, more[j].slot, more[j].content, more[j].rank) {
      GroundedStays(sent, more, more[j].slot, more[j].content, more[j].rank, more[j].rank);
    }
  }

  /** The first write of a message makes it sent. */
  lemma Sends(s: State, a: int)
    requires Inv(s) && a in s.actors && s.actors[a].Sending?
    ensures var slot, content := s.actors[a].slot, s.actors[a].content;
            slot.job !in s.sent && content.Message? &&
            var more := s.sent[slot.job := Sent(slot, content, |s.sent|)];
            Inv(Gone(s, a).(sent := more)) && Genuine(more, slot, content)
  {
    var slot, content := s.actors[a].slot, s.actors[a].content;
    assert PcInv(s.sent, s.used, s.actors[a]);
    var more := s.sent[slot.job := Sent(slot, content, |s.sent|)];
    SentGrows(s.sent, s.used, slot, content);
    FolderStays(s.sent, more, s.inbox);
    FolderStays(s.sent, more, s.processed);
    FolderStays(s.sent, more, s.history);
    ActorsStay(s.sent, more, s.used, s.actors - {a});
  }

  lemma Records(s: State, a: int, slot: Slot, content: Content)
    requires Inv(s) && content.Message? && Genuine(s.sent, slot, content)
    ensures Inv(To(s, a, Recorded(slot, content)).(history := s.history[slot := content]))
  {
    Moves(s, a, Recorded(slot, content));
    assert FolderInv(s.sent, s.history[slot := content]);
  }

  lemma Rejoins(actors: map<int, Pc>, a: int, pc: Pc)
    ensures (actors - {a})[a := pc] == actors[a := pc]
  {
  }

  lemma FirstRecord(s: State, a: int)
    requires Inv(s) && Enabled(s, WriteHistory(a)) && s.actors[a].Sending?
    ensures Inv(DoWriteHistory(s, a))
  {
    var pc := s.actors[a];
    Sends(s, a);
    var more := s.sent[pc.slot.job := Sent(pc.slot, pc.content, |s.sent|)];
    Records(Gone(s, a).(sent := more), a, pc.slot, pc.content);
    var t := Gone(s, a).(sent := more);
    Rejoins(s.actors, a, Recorded(pc.slot, pc.content));
  }

  lemma HistoryKeeps(s: State, a: int)
    requires Inv(s) && Enabled(s, WriteHistory(a))
    ensures Inv(DoWriteHistory(s, a))
  {
    if s.actors[a].Sending? {
      FirstRecord(s, a);
    } else {
      assert PcInv(s.sent, s.used, s.actors[a]);
      Records(s, a, s.actors[a].slot, s.actors[a].content);
    }
  }

  lemma FilesKeep(s: State, act: Action)
    requires Inv(s) && Enabled(s, act)
    requires act.WriteInbox? || act.WriteProcessed? || act.WriteBack? || act.RemoveInbox? || act.ArchiveMailbox?
    ensures Inv(Next(s, act))
  {
    if act.a in s.actors {
      assert PcInv(s.sent, s.used, s.actors[act.a]);
    }
  }

  lemma StepKeeps(s: State, act: Action)
    requires Inv(s) && Enabled(s, act)
    ensures Inv(Next(s, act))
  {
    match act
    case Ask(a, job, from_, to) => Starts(s, a, Slot(to, job), Message(from_, to, job, None));
    case Answer(a, job, from_) => AnswerKeeps(s, a, job, from_);
    case Look(a) => LookKeeps(s, a);
    case WriteHistory(a) => HistoryKeeps(s, a);
    case StartReply(a, slot) => Moves(s, a, Looking(slot, InInbox));
    case ReadRecord(a, slot) => Moves(s, a, Holding(slot, Known(s, slot)));
    case Stop(a) =>
    case _ => FilesKeep(s, act);
  }

  lemma {:induction false} RunKeeps(s: State, acts: seq<Action>)
    requires Inv(s) && Valid(s, acts)
    ensures Inv(Exec(s, acts))
    decreases acts
  {
    if acts != [] {
      StepKeeps(s, acts[0]);
      RunKeeps(Next(s, acts[0]), acts[1..]);
    }
  }

  // ---- conversations ---------------------------------------------------

  /** A chain of sent messages, each answering the one before, from a question
      that answers nothing. */
  predicate Chain(s: State, jobs: seq<string>)
    decreases jobs
  {
    jobs != [] &&
    (forall i :: 0 <= i < |jobs| ==> jobs[i] in s.sent && s.sent[jobs[i]].content.Message?) &&
    s.sent[jobs[0]].content.inReplyTo == None &&
    forall i :: 0 < i < |jobs| ==> s.sent[jobs[i]].content.inReplyTo == Some(jobs[i - 1])
  }

  lemma {:induction false} ChainKeepsConversation(s: State, jobs: seq<string>)
    requires Inv(s) && Chain(s, jobs)
    ensures s.sent[jobs[|jobs| - 1]].content.conversation == jobs[0]
    decreases |jobs|
  {
    var last := jobs[|jobs| - 1];
    assert Grounded(s.sent, s.sent[last].slot, s.sent[last].content, s.sent[last].rank);
    if |jobs| > 1 {
      var rest := jobs[..|jobs| - 1];
      assert Chain(s, rest);
      ChainKeepsConversation(s, rest);
    }
  }

  lemma {:induction false} ChainExists(s: State, job: string) returns (jobs: seq<string>)
    requires Inv(s) && job in s.sent
    ensures Chain(s, jobs) && jobs[|jobs| - 1] == job
    decreases s.sent[job].rank
  {
    var m := s.sent[job];
    assert Grounded(s.sent, m.slot, m.content, m.rank);
    if m.content.inReplyTo.None? {
      jobs := [job];
    } else {
      var before := ChainExists(s, m.content.inReplyTo.value);
      jobs := before + [job];
    }
  }

  /** Every sent message ends a reply chain, of whatever length, and carries the
      id of the chain's first question; every copy of it in inbox, processed or
      history says so, unless it is a bare receipt. */
  lemma ConversationIsTheRoot(acts: seq<Action>, slot: Slot, folder: Folder) returns (jobs: seq<string>)
    requires Valid(START, acts) && slot in FilesIn(Exec(START, acts), folder)
    requires FilesIn(Exec(START, acts), folder)[slot].Message?
    ensures var s := Exec(START, acts);
            Chain(s, jobs) && jobs[|jobs| - 1] == slot.job &&
            FilesIn(s, folder)[slot].conversation == jobs[0]
  {
    RunKeeps(START, acts);
    jobs := ChainExists(Exec(START, acts), slot.job);
    ChainKeepsConversation(Exec(START, acts), jobs);
  }

  /** All messages of a chain agree, whichever two are compared. */
  lemma ChainAgrees(acts: seq<Action>, jobs: seq<string>, i: nat)
    requires Valid(START, acts) && Chain(Exec(START, acts), jobs) && i < |jobs|
    ensures Exec(START, acts).sent[jobs[i]].content.conversation == jobs[0]
    ensures i > 0 ==> Exec(START, acts).sent[jobs[i]].content.to == Exec(START, acts).sent[jobs[i - 1]].content.from_
  {
    var s := Exec(START, acts);
    RunKeeps(START, acts);
    assert Chain(s, jobs[..i + 1]);
    ChainKeepsConversation(s, jobs[..i + 1]);
    assert Grounded(s.sent, s.sent[jobs[i]].slot, s.sent[jobs[i]].content, s.sent[jobs[i]].rank);
  }

  lemma LookFinds(s: State, a: int)
    requires Inv(s) && Enabled(s, Look(a)) && s.actors[a].slot in s.history
    ensures var Looking(slot, folder) := s.actors[a];
            var t := Next(s, Look(a));
            slot.job in s.sent && s.sent[slot.job].content.Message? &&
            (a !in t.actors <==> Names(s, slot, folder) && s.sent[slot.job].content.from_ == "unknown") &&
            (a in t.actors && folder.InHistory? ==> t.actors[a].Found?) &&
            (a in t.actors && t.actors[a].Found? ==> t.actors[a] == Found(slot, s.sent[slot.job].content))
  {
    var Looking(slot, folder) := s.actors[a];
    assert Genuine(s.sent, slot, s.history[slot]);
    assert Grounded(s.sent, slot, s.history[slot], s.sent[slot.job].rank);
    if slot in FilesIn(s, folder) {
      FilesGenuine(s, slot, folder);
    }
  }

  /** The question is recoverable whichever drains and receipts ran first: while
      the mailbox's history stands, a search fails if and only if it meets a record
      whose sender is called "unknown"; the last folder always settles it, and what
      it finds is the question as sent, carrying its chain's conversation. */
  lemma SearchSucceeds(acts: seq<Action>, a: int) returns (jobs: seq<string>)
    requires Valid(START, acts) && Enabled(Exec(START, acts), Look(a))
    requires Exec(START, acts).actors[a].slot in Exec(START, acts).history
    ensures var s := Exec(START, acts);
            var Looking(slot, folder) := s.actors[a];
            var t := Next(s, Look(a));
            Chain(s, jobs) && jobs[|jobs| - 1] == slot.job &&
            (a !in t.actors <==> Names(s, slot, folder) && s.sent[slot.job].content.from_ == "unknown") &&
            (a in t.actors && folder.InHistory? ==> t.actors[a].Found?) &&
            (a in t.actors && t.actors[a].Found? ==>
               t.actors[a] == Found(slot, s.sent[slot.job].content) &&
               t.actors[a].question.Message? && t.actors[a].question.conversation == jobs[0])
  {
    RunKeeps(START, acts);
    var s := Exec(START, acts);
    LookFinds(s, a);
    jobs := ChainExists(s, s.actors[a].slot.job);
    ChainKeepsConversation(s, jobs);
  }

  // ---- the whole search ------------------------------------------------

  /** While `a` searches, it only looks, and nobody archives the mailbox; whatever
      else others do goes on between the looks. */
  predicate DuringSearch(act: Action, a: int, slot: Slot) {
    act == Look(a) || (act.a != a && (act.ArchiveMailbox? ==> act.mailbox != slot.mailbox))
  }

  function Looks(acts: seq<Action>, a: int): nat {
    if acts == [] then 0 else (if acts[0] == Look(a) then 1 else 0) + Looks(acts[1..], a)
  }

  predicate Searching(s: State, a: int, slot: Slot) {
    a in s.actors && s.actors[a].Looking? && s.actors[a].slot == slot
  }

  /** The search is over: the question was found as sent, or given up because its
      sender is called "unknown". */
  predicate Settled(s: State, a: int, slot: Slot) {
    slot.job in s.sent && s.sent[slot.job].content.Message? &&
    if s.sent[slot.job].content.from_ == "unknown" then a !in s.actors
    else a in s.actors && s.actors[a] == Found(slot, s.sent[slot.job].content)
  }

  /** Looks it can still take. */
  function Ahead(s: State, a: int): nat {
    if a in s.actors && s.actors[a].Looking? then
      match s.actors[a].folder
      case InInbox => 3
      case InProcessed => 2
      case InHistory => 1
    else 0
  }

  lemma SentStays(s: State, act: Action)
    requires Enabled(s, act)
    ensures forall j :: j in s.sent ==> j in Next(s, act).sent && Next(s, act).sent[j] == s.sent[j]
  {
  }

  lemma LookSearches(s: State, a: int, slot: Slot)
    requires Inv(s) && Enabled(s, Look(a)) && slot in s.history && Searching(s, a, slot)
    ensures var t := Next(s, Look(a));
            slot in t.history && (Searching(t, a, slot) || Settled(t, a, slot)) && Ahead(t, a) < Ahead(s, a)
  {
    LookFinds(s, a);
  }

  lemma OthersSearch(s: State, act: Action, a: int, slot: Slot)
    requires Enabled(s, act) && act.a != a && DuringSearch(act, a, slot) && slot in s.history
    requires Searching(s, a, slot) || Settled(s, a, slot)
    ensures var t := Next(s, act);
            slot in t.history && (Searching(t, a, slot) || Settled(t, a, slot)) && Ahead(t, a) == Ahead(s, a)
  {
    SentStays(s, act);
    assert (a in Next(s, act).actors <==> a in s.actors) &&
           (a in s.actors ==> Next(s, act).actors[a] == s.actors[a]);
  }

  lemma {:induction false} SearchRun(s: State, acts: seq<Action>, a: int, slot: Slot)
    requires Inv(s) && Valid(s, acts) && slot in s.history
    requires Searching(s, a, slot) || Settled(s, a, slot)
    requires forall i :: 0 <= i < |acts| ==> DuringSearch(acts[i], a, slot)
    ensures var t := Exec(s, acts);
            (Searching(t, a, slot) || Settled(t, a, slot)) && Looks(acts, a) + Ahead(t, a) <= Ahead(s, a)
    decreases acts
  {
    if acts != [] {
      StepKeeps(s, acts[0]);
      if acts[0] == Look(a) {
        LookSearches(s, a, slot);
      } else {
        OthersSearch(s, acts[0], a, slot);
      }
      SearchRun(Next(s, acts[0]), acts[1..], a, slot);
    }
  }

  /** The question is recoverable whichever drains and receipts run before the search
      or between its looks. While the mailbox's history stands, a search just begun takes at most
      three looks, and when it is over it has found the question as it was sent, with
      the conversation of its chain, unless the sender is called "unknown". */
  lemma SearchEnds(acts: seq<Action>, a: int, slot: Slot, search: seq<Action>) returns (jobs: seq<string>)
    requires Valid(START, acts) && slot in Exec(START, acts).history
    requires a in Exec(START, acts).actors && Exec(START, acts).actors[a] == Looking(slot, InInbox)
    requires Valid(Exec(START, acts), search)
    requires forall i :: 0 <= i < |search| ==> DuringSearch(search[i], a, slot)
    ensures var t := Exec(Exec(START, acts), search);
            Looks(search, a) <= 3 && (Looks(search, a) == 3 ==> Settled(t, a, slot)) &&
            (Searching(t, a, slot) || Settled(t, a, slot)) &&
            Chain(t, jobs) && jobs[|jobs| - 1] == slot.job && t.sent[slot.job].content.conversation == jobs[0]
  {
    RunKeeps(START, acts);
    jobs := SearchEndsFrom(Exec(START, acts), a, slot, search);
  }

  lemma SearchEndsFrom(s: State, a: int, slot: Slot, search: seq<Action>) returns (jobs: seq<string>)
    requires Inv(s) && slot in s.history && a in s.actors && s.actors[a] == Looking(slot, InInbox)
    requires Valid(s, search) && forall i :: 0 <= i < |search| ==> DuringSearch(search[i], a, slot)
    ensures var t := Exec(s, search);
            Looks(search, a) <= 3 && (Looks(search, a) == 3 ==> Settled(t, a, slot)) &&
            (Searching(t, a, slot) || Settled(t, a, slot)) &&
            Chain(t, jobs) && jobs[|jobs| - 1] == slot.job && t.sent[slot.job].content.conversation == jobs[0]
  {
    SearchRun(s, search, a, slot);
    jobs := QuestionHasChain(s, search, slot);
  }

  lemma QuestionHasChain(s: State, acts: seq<Action>, slot: Slot) returns (jobs: seq<string>)
    requires Inv(s) && Valid(s, acts) && slot in s.history
    ensures var t := Exec(s, acts);
            Chain(t, jobs) && jobs[|jobs| - 1] == slot.job && t.sent[slot.job].content.conversation == jobs[0]
  {
    RunKeeps(s, acts);
    assert Genuine(s.sent, slot, s.history[slot]);
    SentStaysRun(s, acts);
    jobs := ChainExists(Exec(s, acts), slot.job);
    ChainKeepsConversation(Exec(s, acts), jobs);
  }

  lemma {:induction false} SentStaysRun(s: State, acts: seq<Action>)
    requires Valid(s, acts)
    ensures forall j :: j in s.sent ==> j in Exec(s, acts).sent && Exec(s, acts).sent[j] == s.sent[j]
    decreases acts
  {
    if acts != [] {
      SentStays(s, acts[0]);
      SentStaysRun(Next(s, acts[0]), acts[1..]);
    }
  }
}
