/** Receipts: merging the outcome of a job into its processed record. */
module Receipts {
  import opened Prelude
  import opened Mail

  datatype Files = Files(inbox: File, processed: File)

  /** A completed terminal yields only to another actual answer. */
  function Merge(previous: Option<Terminal>, t: Terminal): Terminal {
    if previous.Some? && Completed(previous.value) && !Answer(t) then previous.value else t
  }

  /** The record a receipt starts from: the inbox copy when there is one. */
  function Base(f: Files, job: string): Record {
    var source := if f.inbox.Missing? then f.processed else f.inbox;
    if source.Holds? then source.record else Record(job, None, "", None)
  }

  function Receipt(f: Files, job: string, t: Terminal): Record {
    var data := Base(f, job);
    data.(terminal := Some(Merge(data.terminal, t)))
  }

  /** A receipt write that runs to completion. */
  function Save(f: Files, job: string, t: Terminal): Files {
    Files(Missing, Holds(Receipt(f, job, t)))
  }

  class Mailbox {
    var inbox: map<string, File>
    var processed: map<string, File>

    function At(dir: map<string, File>, job: string): File {
      if job in dir then dir[job] else Missing
    }

    function FilesOf(job: string): Files
      reads this
    {
      Files(At(inbox, job), At(processed, job))
    }

    constructor ()
      ensures inbox == map[] && processed == map[]
    {
      inbox, processed := map[], map[];
    }

    /** `_save_processed_receipt`, without a crash: the files of the job become
        those of the specification, the files of every other job stay. */
    method SaveProcessedReceipt(job: string, terminal: Terminal)
      modifies this
      ensures FilesOf(job) == Save(old(FilesOf(job)), job, terminal)
      ensures forall other :: other != job ==> FilesOf(other) == old(FilesOf(other))
    {
      var data := Record(job, None, "", None);
      var source := if job in inbox && !inbox[job].Missing? then At(inbox, job) else At(processed, job);
      if !source.Missing? {
        if source.Holds? {
          data := source.record;
        } else {
          data := Record(job, None, "", None);
        }
      }
      var chosen := terminal;
      if data.terminal.Some? {
        var previous := data.terminal.value;
        if previous.status == "completed" && (terminal.status != "completed" || terminal.reply == "") {
          chosen := previous;
        }
      }
      data := data.(terminal := Some(chosen));
      processed := processed[job := Holds(data)];
      inbox := inbox - {job};
    }
  }

  // ---- sequences of receipts -------------------------------------------

  function SaveAll(f: Files, job: string, ts: seq<Terminal>): Files {
    if ts == [] then f else Save(SaveAll(f, job, ts[..|ts| - 1]), job, ts[|ts| - 1])
  }

  /** Which of the terminals offered so far is to be kept: the last answer, else
      the first completion, else the last of all. */
  predicate Kept(offered: seq<Terminal>, kept: Terminal) {
    if exists i :: 0 <= i < |offered| && Answer(offered[i]) then LastAnswer(offered, kept)
    else if exists i :: 0 <= i < |offered| && Completed(offered[i]) then FirstCompletion(offered, kept)
    else
      offered != [] && kept == offered[|offered| - 1]
  }

  predicate LastAnswer(offered: seq<Terminal>, kept: Terminal) {
    exists i :: 0 <= i < |offered| && Answer(offered[i]) && kept == offered[i] &&
                forall k :: i < k < |offered| ==> !Answer(offered[k])
  }

  predicate FirstCompletion(offered: seq<Terminal>, kept: Terminal) {
    exists i :: 0 <= i < |offered| && Completed(offered[i]) && kept == offered[i] &&
                forall k :: 0 <= k < i ==> !Completed(offered[k])
  }

  lemma LastAnswerStays(offered: seq<Terminal>, kept: Terminal, t: Terminal)
    requires LastAnswer(offered, kept) && !Answer(t)
    ensures LastAnswer(offered + [t], kept) && Answer(kept)
  {
    var all := offered + [t];
    var j :| 0 <= j < |offered| && Answer(offered[j]) && kept == offered[j] &&
             forall k :: j < k < |offered| ==> !Answer(offered[k]);
    assert all[j] == kept && forall k :: j < k < |all| ==> !Answer(all[k]);
  }

  lemma FirstCompletionStays(offered: seq<Terminal>, kept: Terminal, t: Terminal)
    requires FirstCompletion(offered, kept)
    ensures FirstCompletion(offered + [t], kept) && Completed(kept)
  {
    var all := offered + [t];
    var j :| 0 <= j < |offered| && Completed(offered[j]) && kept == offered[j] &&
             forall k :: 0 <= k < j ==> !Completed(offered[k]);
    assert all[j] == kept && forall k :: 0 <= k < j ==> !Completed(all[k]);
  }

  lemma NewLast(offered: seq<Terminal>, t: Terminal)
    ensures Answer(t) ==> LastAnswer(offered + [t], t)
    ensures Completed(t) && (forall k :: 0 <= k < |offered| ==> !Completed(offered[k])) ==>
              FirstCompletion(offered + [t], t)
  {
    assert (offered + [t])[|offered|] == t;
  }

  lemma KeptNext(offered: seq<Terminal>, kept: Terminal, t: Terminal)
    requires offered != [] && Kept(offered, kept)
    ensures Kept(offered + [t], Merge(Some(kept), t))
  {
    var all := offered + [t];
    assert all[|offered|] == t && forall i :: 0 <= i < |offered| ==> all[i] == offered[i];
    NewLast(offered, t);
    if Answer(t) {
    } else if exists i :: 0 <= i < |offered| && Answer(offered[i]) {
      LastAnswerStays(offered, kept, t);
    } else if exists i :: 0 <= i < |offered| && Completed(offered[i]) {
      FirstCompletionStays(offered, kept, t);
    }
  }

  function Offered(f: Files, job: string): seq<Terminal> {
    match Base(f, job).terminal
    case None => []
    case Some(t) => [t]
  }

  /** The receipt fold: after any sequence of completed receipts the inbox copy is
      gone, the message fields are those the job had, and the stored terminal is
      the one `Kept` picks among everything offered. */
  lemma {:induction false} ReceiptFold(f: Files, job: string, ts: seq<Terminal>)
    requires ts != []
    ensures var g := SaveAll(f, job, ts);
            g.inbox.Missing? && g.processed.Holds? && g.processed.record.terminal.Some? &&
            g.processed.record.(terminal := None) == Base(f, job).(terminal := None) &&
            Kept(Offered(f, job) + ts, g.processed.record.terminal.value)
  {
    var before := ts[..|ts| - 1];
    var t := ts[|ts| - 1];
    assert Offered(f, job) + ts == (Offered(f, job) + before) + [t];
    if before != [] {
      ReceiptFold(f, job, before);
      var g := SaveAll(f, job, before);
      KeptNext(Offered(f, job) + before, g.processed.record.terminal.value, t);
    } else {
      assert SaveAll(f, job, before) == f;
      match Base(f, job).terminal {
        case None =>
          assert Offered(f, job) + ts == [t];
          OnlyOffer(t);
        case Some(p) =>
          OnlyOffer(p);
          KeptNext([p], p, t);
          assert Offered(f, job) + before == [p];
      }
    }
  }

  lemma OnlyOffer(t: Terminal)
    ensures Kept([t], t)
  {
    assert [t][0] == t;
  }

  // ---- where the promise stops -----------------------------------------

  /** Exactly when a weaker acknowledgement leaves a stored answer alone: when no
      inbox copy is left to be read instead, or that copy carries the same answer. */
  lemma WeakReceiptKeepsAnswer(f: Files, job: string, answer: Terminal, t: Terminal)
    requires f.processed.Holds? && f.processed.record.terminal == Some(answer) && Answer(answer)
    requires !Answer(t)
    ensures Save(f, job, t).processed.record.terminal == Some(answer) <==>
            f.inbox.Missing? || (f.inbox.Holds? && f.inbox.record.terminal == Some(answer))
  {
  }

  /** A receipt that crashed between its two file operations leaves both copies;
      the next acknowledgement then reads the inbox copy and drops the answer. */
  lemma CrashedReceiptLosesAnswer()
    ensures var message := Record("job", Some(Envelope("asker", "question", None, None)), "", None);
            var answered := message.(terminal := Some(Terminal("completed", "actual answer")));
            var crashed := Files(Holds(message), Holds(answered));
            crashed.processed == Save(Files(Holds(message), Missing), "job", Terminal("completed", "actual answer")).processed &&
            Save(crashed, "job", Terminal("completed", "")).processed.record.terminal == Some(Terminal("completed", ""))
  {
  }
}
