/** `retry_delivery` as the program it is, run among any other actors: every
    execution of it is a run of the delivery protocol. */
module ManualRetry {
  import opened Prelude
  import opened CodexDelivery
  import MailboxWorker

  predicate By(a: Action, m: int) {
    a == RetryOpen(m) || (a.RetryCheck? && a.m == m) || a == RetryStore(m) || a == Crash(RetryId(m))
  }

  lemma OthersSpare(s: State, a: Action, m: int)
    requires Enabled(s, a) && !By(a, m)
    ensures m in Next(s, a).retries <==> m in s.retries
    ensures m in s.retries ==> Next(s, a).retries[m] == s.retries[m]
  {
    if !(a.RetryOpen? || a.RetryCheck? || a.RetryStore?) && !a.Crash? {
      assert Next(s, a).retries == s.retries;
    }
  }

  datatype Outcome = InProgress | NotRetryable | Queued

  class Tool {
    var s: State

    constructor (recipient: Thread, now: int)
      ensures s == Accept(recipient, now)
    {
      s := Accept(recipient, now);
    }

    /** Whatever the other actors do between two lines of caller `m`. */
    method Others(m: int, steps: seq<Action>) returns (ghost acts: seq<Action>)
      modifies this
      ensures Valid(old(s), acts) && s == Exec(old(s), acts)
      ensures m in s.retries <==> m in old(s).retries
      ensures m in s.retries ==> s.retries[m] == old(s).retries[m]
      ensures steps == [] ==> s == old(s)
    {
      acts := [];
      ghost var start := s;
      for i := 0 to |steps|
        invariant Valid(start, acts) && s == Exec(start, acts)
        invariant m in s.retries <==> m in start.retries
        invariant m in s.retries ==> s.retries[m] == start.retries[m]
        invariant steps == [] ==> s == start
      {
        var a := steps[i];
        if Enabled(s, a) && !By(a, m) {
          OthersSpare(s, a, m);
          MailboxWorker.RunThen(start, acts, a);
          acts := acts + [a];
          s := Next(s, a);
        }
      }
    }

    /** Under the lock: may this question be retried by the thread `owner`? */
    method Check(m: int, owner: Thread, gap: seq<Action>) returns (approved: bool, ghost acts: seq<Action>)
      requires m in s.retries && s.retries[m].RetryLocked?
      modifies this
      ensures Valid(old(s), acts) && s == Exec(old(s), acts)
      ensures approved <==> m in s.retries
      ensures approved ==>
                s.retries[m].RetryApproved? && s.inbox && owner == s.recipient &&
                s.delivery.kind in {Failed, Retry}
      ensures gap == [] ==>
                approved == (old(s).delivery.kind in {Failed, Retry} && old(s).inbox && owner == old(s).recipient) &&
                s.delivery == old(s).delivery && s.log == old(s).log
    {
      ghost var start := s;
      acts := Others(m, gap);
      MailboxWorker.RunThen(start, acts, RetryCheck(m, owner));
      acts := acts + [RetryCheck(m, owner)];
      if !s.delivery.kind.Failed? && !s.delivery.kind.Retry? {
        s := Gone(s, RetryId(m));
        return false, acts;
      }
      if !s.inbox || owner != s.recipient {
        s := Gone(s, RetryId(m));
        return false, acts;
      }
      s := s.(retries := s.retries[m := RetryApproved]);
      approved := true;
    }

    /** One call of `retry_delivery` by a session whose label now belongs to `owner`.
        Nothing but a known failure of a pending question of that very owner is put
        back, and with it the attempt counter and the retry time go. */
    method RetryDelivery(m: int, owner: Thread, gaps: seq<seq<Action>>)
      returns (outcome: Outcome, ghost acts: seq<Action>)
      requires Inv(s) && m !in s.retries && |gaps| == 3
      modifies this
      ensures Valid(old(s), acts) && s == Exec(old(s), acts)
      ensures Inv(s) && m !in s.retries
      ensures outcome.Queued? ==> s.delivery == Delivery(Kind.Queued, 0, 0)
      ensures MailboxWorker.Undisturbed(gaps) ==>
                outcome == (if old(s).deliveryLock.Some? || old(s).archived then InProgress
                            else if old(s).delivery.kind in {Failed, Retry} && old(s).inbox && owner == old(s).recipient
                            then Outcome.Queued else NotRetryable) &&
                s.log == old(s).log &&
                s.delivery == if outcome.Queued? then Delivery(Kind.Queued, 0, 0) else old(s).delivery
    {
      ghost var start := s;
      acts := Others(m, gaps[0]);
      if s.deliveryLock.Some? || s.archived {
        RunKeeps(start, acts);
        return InProgress, acts;
      }
      MailboxWorker.RunThen(start, acts, RetryOpen(m));
      acts := acts + [RetryOpen(m)];
      s := s.(deliveryLock := Some(RetryId(m)), retries := s.retries[m := RetryLocked]);

      var approved;
      ghost var more;
      approved, more := Check(m, owner, gaps[1]);
      MailboxWorker.RunAppend(start, acts, more);
      acts := acts + more;
      if !approved {
        RunKeeps(start, acts);
        return NotRetryable, acts;
      }
      more := Others(m, gaps[2]);
      MailboxWorker.RunAppend(start, acts, more);
      acts := acts + more;
      MailboxWorker.RunThen(start, acts, RetryStore(m));
      acts := acts + [RetryStore(m)];
      s := Gone(s, RetryId(m)).(delivery := Delivery(Kind.Queued, 0, 0), events := s.events + [Reset]);
      RunKeeps(start, acts);
      outcome := Outcome.Queued;
    }
  }
}
