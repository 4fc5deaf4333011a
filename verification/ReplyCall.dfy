/** The `reply` tool as the program it is, run among any other actors: every
    execution of it is a run of the reply protocol. */
module ReplyCall {
  import opened Prelude
  import opened Mail
  import opened Reply
  import Receipts

  lemma {:induction false} RunAppend(s: State, first: seq<Action>, second: seq<Action>)
    requires Valid(s, first) && Valid(Exec(s, first), second)
    ensures Valid(s, first + second)
    ensures Exec(s, first + second) == Exec(Exec(s, first), second)
    decreases first
  {
    if first == [] {
      assert first + second == second;
    } else {
      RunAppend(Next(s, first[0]), first[1..], second);
      assert (first + second)[0] == first[0] && (first + second)[1..] == first[1..] + second;
    }
  }

  lemma RunThen(s: State, acts: seq<Action>, a: Action)
    requires Valid(s, acts) && Enabled(Exec(s, acts), a)
    ensures Valid(s, acts + [a]) && Exec(s, acts + [a]) == Next(Exec(s, acts), a)
  {
    var t := Exec(s, acts);
    assert [a][1..] == [];
    assert Valid(t, [a]);
    RunAppend(s, acts, [a]);
  }

  lemma OthersSpare(s: State, act: Action, me: int)
    requires Enabled(s, act) && act.a != me
    ensures me in Next(s, act).actors <==> me in s.actors
    ensures me in s.actors ==> Next(s, act).actors[me] == s.actors[me]
  {
  }

  /** The job lock keeps the files still. */
  lemma OthersLeaveFiles(s: State, act: Action, me: int)
    requires Inv(s) && me in s.actors && Receipting(s.actors[me]) && Enabled(s, act) && act.a != me
    ensures Next(s, act).files == s.files
  {
  }

  /** What the inner `_ask_async` does: it raises before or after its message is
      in the asker's inbox, returns an error (nothing written), or succeeds. */
  datatype Ask = Raises(written: bool) | ReturnsError | Succeeds

  datatype Outcome = Busy | Uncertain | NoSender | AskFailed | AskRaised | Killed | Replied | AlreadyReplied

  predicate Undisturbed(gaps: seq<seq<Action>>) {
    forall i :: 0 <= i < |gaps| ==> gaps[i] == []
  }

  lemma Slices(gaps: seq<seq<Action>>, k: nat)
    requires k <= |gaps|
    ensures Undisturbed(gaps) ==> Undisturbed(gaps[..k]) && Undisturbed(gaps[k..])
  {
  }

  /** One question, its files, and everybody working on them. */
  class Question {
    var s: State

    constructor (job: string, files: Receipts.Files)
      ensures s == Create(job, files)
    {
      s := Create(job, files);
    }

    /** Whatever other actors do between two lines of caller `me`. */
    method Others(me: int, steps: seq<Action>) returns (ghost acts: seq<Action>)
      modifies this
      ensures Valid(old(s), acts) && s == Exec(old(s), acts)
      ensures me in s.actors <==> me in old(s).actors
      ensures me in s.actors ==> s.actors[me] == old(s).actors[me]
      ensures steps == [] ==> s == old(s)
      ensures s.job == old(s).job
      ensures Inv(old(s)) ==> Inv(s) && (me in s.actors && Receipting(s.actors[me]) ==> s.files == old(s).files)
    {
      acts := [];
      ghost var start := s;
      ghost var held := Inv(s) && me in s.actors && Receipting(s.actors[me]);
      for i := 0 to |steps|
        invariant Valid(start, acts) && s == Exec(start, acts)
        invariant me in s.actors <==> me in start.actors
        invariant me in s.actors ==> s.actors[me] == start.actors[me]
        invariant steps == [] ==> s == start
        invariant s.job == start.job && (Inv(start) ==> Inv(s)) && (held ==> s.files == start.files)
      {
        var act := steps[i];
        if Enabled(s, act) && act.a != me {
          if Inv(s) {
            StepKeeps(s, act);
            if held {
              OthersLeaveFiles(s, act, me);
            }
          }
          OthersSpare(s, act, me);
          RunThen(start, acts, act);
          acts := acts + [act];
          s := Next(s, act);
        }
      }
    }

    /** The caller ends: by return, by exception or by crash. */
    method Leave(me: int) returns (ghost acts: seq<Action>)
      requires me in s.actors
      modifies this
      ensures Valid(old(s), acts) && s == Exec(old(s), acts)
      ensures me !in s.actors
      ensures s.response == old(s).response && s.files == old(s).files && s.sent == old(s).sent
    {
      RunThen(s, [], Stop(me));
      acts := [Stop(me)];
      assert [] + acts == acts;
      s := s.(actors := s.actors - {me}, replyLock := Freed(s.replyLock, me), jobLock := Freed(s.jobLock, me));
    }

    /** `_move_to_processed` on behalf of a reply whose text is on file as sent. What
        it leaves is the merge of the files as they were when it got the job lock,
        after the steps `before`. */
    method WriteReceipt(me: int, gaps: seq<seq<Action>>)
      returns (done: bool, ghost acts: seq<Action>, ghost before: seq<Action>)
      requires Inv(s) && me in s.actors && s.actors[me].Saved? && |gaps| == 4
      modifies this
      ensures Valid(old(s), acts) && s == Exec(old(s), acts)
      ensures me !in s.actors
      ensures before <= acts && Valid(old(s), before)
      ensures done ==> s.files == Receipts.Save(Exec(old(s), before).files, old(s).job,
                                                Terminal("completed", old(s).actors[me].text))
      ensures Undisturbed(gaps) ==>
                done == old(s).jobLock.None? && s.sent == old(s).sent && s.response == old(s).response &&
                s.files == if done then Receipts.Save(old(s).files, old(s).job, Terminal("completed", old(s).actors[me].text))
                           else old(s).files
    {
      ghost var start := s;
      acts := Others(me, gaps[0]);
      before := acts;
      ghost var more: seq<Action>;
      if s.jobLock.Some? {
        more := Leave(me);
        RunAppend(start, acts, more);
        return false, acts + more, before;
      }
      more := MergeAndStore(me, gaps[1..]);
      RunAppend(start, acts, more);
      acts := acts + more;
      assert before <= acts;
      done := true;
    }

    method MergeAndStore(me: int, gaps: seq<seq<Action>>) returns (ghost acts: seq<Action>)
      requires Inv(s) && me in s.actors && s.actors[me].Saved? && s.jobLock.None? && |gaps| == 3
      modifies this
      ensures Valid(old(s), acts) && s == Exec(old(s), acts)
      ensures me !in s.actors
      ensures s.files == Receipts.Save(old(s).files, old(s).job, Terminal("completed", old(s).actors[me].text))
      ensures Undisturbed(gaps) ==> s.sent == old(s).sent && s.response == old(s).response
    {
      ghost var start := s;
      assert Exec(s, []) == s;
      RunThen(start, [], LockForReply(me));
      acts := [] + [LockForReply(me)];
      StepKeeps(s, LockForReply(me));
      var terminal := Terminal("completed", s.actors[me].text);
      s := s.(actors := s.actors[me := ReceiptLocked(terminal, true)], jobLock := Some(me));

      ghost var more := Others(me, gaps[0]);
      RunAppend(start, acts, more);
      acts := acts + more;
      RunThen(start, acts, Merge(me));
      acts := acts + [Merge(me)];
      StepKeeps(s, Merge(me));
      var merged := Receipts.Receipt(s.files, s.job, terminal);
      s := s.(actors := s.actors[me := ReceiptMerged(merged, terminal, true)]);

      more := StoreAndUnlink(me, gaps[1..]);
      RunAppend(start, acts, more);
      acts := acts + more;
    }

    method StoreAndUnlink(me: int, gaps: seq<seq<Action>>) returns (ghost acts: seq<Action>)
      requires Inv(s) && me in s.actors && s.actors[me].ReceiptMerged? && |gaps| == 2
      modifies this
      ensures Valid(old(s), acts) && s == Exec(old(s), acts)
      ensures me !in s.actors
      ensures s.files == Receipts.Files(Missing, Holds(old(s).actors[me].merged))
      ensures Undisturbed(gaps) ==> s.sent == old(s).sent && s.response == old(s).response
    {
      ghost var start := s;
      acts := Others(me, gaps[0]);
      RunThen(start, acts, Store(me));
      acts := acts + [Store(me)];
      StepKeeps(s, Store(me));
      var pc := s.actors[me];
      s := s.(actors := s.actors[me := ReceiptStored(pc.terminal, pc.replying)],
              files := s.files.(processed := Holds(pc.merged)));

      ghost var more := Others(me, gaps[1]);
      RunAppend(start, acts, more);
      acts := acts + more;
      RunThen(start, acts, Unlink(me));
      acts := acts + [Unlink(me)];
      s := s.(actors := s.actors - {me}, replyLock := Freed(s.replyLock, me), jobLock := Freed(s.jobLock, me),
              files := s.files.(inbox := Missing));
    }

    /** Reply lock and response file: what was sent before decides how to go on. */
    method Begin(me: int, text: string, gaps: seq<seq<Action>>) returns (busy: bool, ghost acts: seq<Action>)
      requires me !in s.actors && text != "" && |gaps| == 2
      modifies this
      ensures Valid(old(s), acts) && s == Exec(old(s), acts)
      ensures busy ==> me !in s.actors
      ensures !busy && me in s.actors ==> s.actors[me].Saved? || s.actors[me].Cleared?
      ensures Undisturbed(gaps) ==>
                busy == old(s).replyLock.Some? && s.files == old(s).files && s.response == old(s).response &&
                s.sent == old(s).sent && s.job == old(s).job &&
                (!busy ==> (me in s.actors <==> !s.response.Dispatching?)) &&
                (me in s.actors ==> s.jobLock == old(s).jobLock &&
                                    s.actors[me] == if s.response.Sent? then Saved(s.response.text) else Cleared(text))
    {
      ghost var start := s;
      acts := Others(me, gaps[0]);
      if s.replyLock.Some? {
        return true, acts;
      }
      RunThen(start, acts, Open(me, text));
      acts := acts + [Open(me, text)];
      s := s.(actors := s.actors[me := Locked(text)], replyLock := Some(me));

      ghost var more := Others(me, gaps[1]);
      RunAppend(start, acts, more);
      acts := acts + more;
      RunThen(start, acts, Inspect(me));
      acts := acts + [Inspect(me)];
      if s.response.Sent? {
        s := s.(actors := s.actors[me := Saved(s.response.text)]);
      } else if s.response.Dispatching? {
        s := s.(actors := s.actors - {me}, replyLock := Freed(s.replyLock, me), jobLock := Freed(s.jobLock, me));
      } else {
        s := s.(actors := s.actors[me := Cleared(s.actors[me].text)]);
      }
      busy := false;
    }

    /** The question's sender, then the durable `dispatching` mark. */
    method MarkDispatching(me: int, found: bool, gaps: seq<seq<Action>>) returns (ghost acts: seq<Action>)
      requires me in s.actors && s.actors[me].Cleared? && |gaps| == 2
      modifies this
      ensures Valid(old(s), acts) && s == Exec(old(s), acts)
      ensures me in s.actors <==> found
      ensures me in s.actors ==> s.actors[me].Marked?
      ensures Undisturbed(gaps) ==>
                s.files == old(s).files && s.sent == old(s).sent && s.job == old(s).job &&
                (found ==> s.actors[me] == Marked(old(s).actors[me].text) && s.jobLock == old(s).jobLock) &&
                s.response == if found then Dispatching(old(s).actors[me].text) else old(s).response
    {
      ghost var start := s;
      acts := Others(me, gaps[0]);
      RunThen(start, acts, Find(me, found));
      acts := acts + [Find(me, found)];
      if !found {
        s := s.(actors := s.actors - {me}, replyLock := Freed(s.replyLock, me), jobLock := Freed(s.jobLock, me));
        return;
      }
      s := s.(actors := s.actors[me := Found(s.actors[me].text)]);

      ghost var more := Others(me, gaps[1]);
      RunAppend(start, acts, more);
      acts := acts + more;
      RunThen(start, acts, Mark(me));
      acts := acts + [Mark(me)];
      s := s.(actors := s.actors[me := Marked(s.actors[me].text)], response := Dispatching(s.actors[me].text));
    }

    method Put(me: int, gap: seq<Action>) returns (ghost acts: seq<Action>)
      requires me in s.actors && s.actors[me].Marked?
      modifies this
      ensures Valid(old(s), acts) && s == Exec(old(s), acts)
      ensures me in s.actors && s.actors[me].Enqueued?
      ensures gap == [] ==>
                s.files == old(s).files && s.response == old(s).response && s.job == old(s).job &&
                s.jobLock == old(s).jobLock && s.actors[me].text == old(s).actors[me].text &&
                s.sent == old(s).sent + [old(s).actors[me].text]
    {
      ghost var start := s;
      acts := Others(me, gap);
      RunThen(start, acts, Enqueue(me));
      acts := acts + [Enqueue(me)];
      s := s.(actors := s.actors[me := Enqueued(s.actors[me].text)], sent := s.sent + [s.actors[me].text]);
    }

    method RecordSent(me: int, gap: seq<Action>) returns (ghost acts: seq<Action>)
      requires me in s.actors && s.actors[me].Enqueued?
      modifies this
      ensures Valid(old(s), acts) && s == Exec(old(s), acts)
      ensures me in s.actors && s.actors[me].Saved?
      ensures gap == [] ==>
                s.files == old(s).files && s.sent == old(s).sent && s.job == old(s).job &&
                s.jobLock == old(s).jobLock && s.actors[me].text == old(s).actors[me].text &&
                s.response == Sent(old(s).actors[me].text)
    {
      ghost var start := s;
      acts := Others(me, gap);
      RunThen(start, acts, SaveSent(me));
      acts := acts + [SaveSent(me)];
      s := s.(actors := s.actors[me := Saved(s.actors[me].text)], response := Sent(s.actors[me].text));
    }

    method RecordFailed(me: int, gaps: seq<seq<Action>>) returns (ghost acts: seq<Action>)
      requires me in s.actors && s.actors[me].Marked? && |gaps| == 2
      modifies this
      ensures Valid(old(s), acts) && s == Exec(old(s), acts)
      ensures me !in s.actors
      ensures Undisturbed(gaps) ==>
                s.files == old(s).files && s.sent == old(s).sent && s.response == SendFailed
    {
      ghost var start := s;
      acts := Others(me, gaps[0]);
      RunThen(start, acts, Refuse(me));
      acts := acts + [Refuse(me)];
      s := s.(actors := s.actors[me := Refused(s.actors[me].text)]);
      ghost var more := Others(me, gaps[1]);
      RunAppend(start, acts, more);
      acts := acts + more;
      RunThen(start, acts, SaveFailed(me));
      acts := acts + [SaveFailed(me)];
      s := s.(actors := s.actors - {me}, replyLock := Freed(s.replyLock, me), jobLock := Freed(s.jobLock, me),
              response := SendFailed);
    }

    /** The send and everything after it. */
    method AskAndRecord(me: int, ask: Ask, gaps: seq<seq<Action>>) returns (outcome: Outcome, ghost acts: seq<Action>)
      requires Inv(s) && me in s.actors && s.actors[me].Marked? && |gaps| == 6
      modifies this
      ensures Valid(old(s), acts) && s == Exec(old(s), acts)
      ensures me !in s.actors
      ensures Undisturbed(gaps) ==>
                var text := old(s).actors[me].text;
                outcome == (match ask
                            case Raises(_) => AskRaised
                            case ReturnsError => AskFailed
                            case Succeeds => if old(s).jobLock.None? then Replied else Killed) &&
                s.sent == old(s).sent + (if ask.Succeeds? || (ask.Raises? && ask.written) then [text] else []) &&
                s.response == (match ask
                               case Raises(_) => old(s).response
                               case ReturnsError => SendFailed
                               case Succeeds => Sent(text)) &&
                s.files == if outcome.Replied?
                           then Receipts.Save(old(s).files, old(s).job, Terminal("completed", text))
                           else old(s).files
    {
      ghost var start := s;
      ghost var more: seq<Action>;
      match ask
      case ReturnsError =>
        acts := RecordFailed(me, gaps[..2]);
        outcome := AskFailed;
      case Raises(written) =>
        acts := [];
        if written {
          acts := Put(me, gaps[0]);
        }
        more := Leave(me);
        RunAppend(start, acts, more);
        acts := acts + more;
        outcome := AskRaised;
      case Succeeds =>
        acts := Put(me, gaps[0]);
        more := RecordSent(me, gaps[1]);
        RunAppend(start, acts, more);
        acts := acts + more;
        Slices(gaps, 2);
        RunKeeps(start, acts);
        var done;
        ghost var before;
        done, more, before := WriteReceipt(me, gaps[2..]);
        RunAppend(start, acts, more);
        acts := acts + more;
        outcome := if done then Replied else Killed;
    }

    /** One `reply` call, with arbitrary steps of others in every gap and any
        behaviour of the send: a run of the protocol, so at most one answer ever
        goes out. A call nobody disturbs does exactly what the response file and
        the send dictate. */
    method Reply(me: int, text: string, found: bool, ask: Ask, gaps: seq<seq<Action>>)
      returns (outcome: Outcome, ghost acts: seq<Action>)
      requires Inv(s) && me !in s.actors && text != "" && |gaps| == 10
      modifies this
      ensures Valid(old(s), acts) && s == Exec(old(s), acts)
      ensures Inv(s) && |s.sent| <= 1 && me !in s.actors
      ensures Undisturbed(gaps) && old(s).replyLock.Some? ==>
                outcome == Busy && s.response == old(s).response && s.sent == old(s).sent && s.files == old(s).files
      ensures Undisturbed(gaps) && old(s).replyLock.None? ==>
                match old(s).response
                case Sent(earlier) =>
                  outcome == (if old(s).jobLock.None? then AlreadyReplied else Killed) &&
                  s.response == old(s).response && s.sent == old(s).sent == [earlier] &&
                  s.files == if outcome.AlreadyReplied?
                             then Receipts.Save(old(s).files, old(s).job, Terminal("completed", earlier))
                             else old(s).files
                case Dispatching(_) =>
                  outcome == Uncertain && s.response == old(s).response && s.sent == old(s).sent &&
                  s.files == old(s).files
                case _ =>
                  if !found then
                    outcome == NoSender && s.response == old(s).response && s.sent == old(s).sent == [] &&
                    s.files == old(s).files
                  else
                    outcome == (match ask
                                case Raises(_) => AskRaised
                                case ReturnsError => AskFailed
                                case Succeeds => if old(s).jobLock.None? then Replied else Killed) &&
                    s.sent == (if ask.Succeeds? || (ask.Raises? && ask.written) then [text] else []) &&
                    s.response == (match ask
                                   case Raises(_) => Dispatching(text)
                                   case ReturnsError => SendFailed
                                   case Succeeds => Sent(text)) &&
                    s.files == if outcome.Replied?
                               then Receipts.Save(old(s).files, old(s).job, Terminal("completed", text))
                               else old(s).files
    {
      ghost var start := s;
      ghost var more: seq<Action>;
      Slices(gaps, 2);
      var busy;
      busy, acts := Begin(me, text, gaps[..2]);
      RunKeeps(start, acts);
      if busy {
        return Busy, acts;
      }
      if me !in s.actors {
        return Uncertain, acts;
      }
      outcome, more := Continue(me, found, ask, gaps[2..]);
      RunAppend(start, acts, more);
      acts := acts + more;
      RunKeeps(start, acts);
    }

    /** The call once the reply lock is held and the response file allows it. */
    method Continue(me: int, found: bool, ask: Ask, gaps: seq<seq<Action>>)
      returns (outcome: Outcome, ghost acts: seq<Action>)
      requires Inv(s) && me in s.actors && (s.actors[me].Saved? || s.actors[me].Cleared?) && |gaps| == 8
      modifies this
      ensures Valid(old(s), acts) && s == Exec(old(s), acts)
      ensures me !in s.actors
      ensures Undisturbed(gaps) ==>
                var text := old(s).actors[me].text;
                if old(s).actors[me].Saved? then
                  outcome == (if old(s).jobLock.None? then AlreadyReplied else Killed) &&
                  s.response == old(s).response && s.sent == old(s).sent &&
                  s.files == if outcome.AlreadyReplied?
                             then Receipts.Save(old(s).files, old(s).job, Terminal("completed", text))
                             else old(s).files
                else if !found then
                  outcome == NoSender && s.response == old(s).response && s.sent == old(s).sent &&
                  s.files == old(s).files
                else
                  outcome == (match ask
                              case Raises(_) => AskRaised
                              case ReturnsError => AskFailed
                              case Succeeds => if old(s).jobLock.None? then Replied else Killed) &&
                  s.sent == old(s).sent + (if ask.Succeeds? || (ask.Raises? && ask.written) then [text] else []) &&
                  s.response == (match ask
                                 case Raises(_) => Dispatching(text)
                                 case ReturnsError => SendFailed
                                 case Succeeds => Sent(text)) &&
                  s.files == if outcome.Replied?
                             then Receipts.Save(old(s).files, old(s).job, Terminal("completed", text))
                             else old(s).files
    {
      ghost var start := s;
      ghost var more: seq<Action>;
      if s.actors[me].Saved? {
        var done;
        ghost var before;
        done, acts, before := WriteReceipt(me, gaps[..4]);
        return if done then AlreadyReplied else Killed, acts;
      }
      acts := MarkDispatching(me, found, gaps[..2]);
      outcome := NoSender;
      if found {
        RunKeeps(start, acts);
        outcome, more := AskAndRecord(me, ask, gaps[2..]);
        RunAppend(start, acts, more);
        acts := acts + more;
      }
    }
  }
}
