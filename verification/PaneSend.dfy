/** The direct sender of a pane message as the program it is, run among watchdogs
    and hooks: every execution of it is a run of pane delivery. */
module PaneSend {
  import opened Prelude
  import opened PaneDelivery

  lemma {:induction false} RunThen(s: State, acts: seq<Action>, a: Action)
    requires Valid(s, acts) && Enabled(Exec(s, acts), a)
    ensures Valid(s, acts + [a]) && Exec(s, acts + [a]) == Next(Exec(s, acts), a)
    decreases acts
  {
    if acts == [] {
      assert Exec(Next(s, a), []) == Next(s, a);
      RunFirst(s, a, []);
      assert acts + [a] == [a] + [];
    } else {
      RunThen(Next(s, acts[0]), acts[1..], a);
      RunFirst(s, acts[0], acts[1..] + [a]);
      assert acts + [a] == [acts[0]] + (acts[1..] + [a]);
    }
  }

  lemma {:induction false} RunAppend(s: State, first: seq<Action>, second: seq<Action>)
    requires Valid(s, first) && Valid(Exec(s, first), second)
    ensures Valid(s, first + second) && Exec(s, first + second) == Exec(Exec(s, first), second)
    decreases first
  {
    if first == [] {
      assert first + second == second;
    } else {
      RunAppend(Next(s, first[0]), first[1..], second);
      RunFirst(s, first[0], first[1..] + second);
      assert first + second == [first[0]] + (first[1..] + second);
    }
  }

  predicate ByOthers(a: Action) {
    !BySender(a) && a != Leave(SENDER)
  }

  lemma OthersSpare(s: State, a: Action)
    requires Enabled(s, a) && ByOthers(a) && SENDER in s.actors && IsSender(s.actors[SENDER])
    ensures SENDER in Next(s, a).actors && Next(s, a).actors[SENDER] == s.actors[SENDER]
  {
  }

  predicate Undisturbed(gaps: seq<seq<Action>>) {
    forall i :: 0 <= i < |gaps| ==> gaps[i] == []
  }

  class Message {
    var s: State

    constructor (leasesHold: bool)
      ensures s == Submit(leasesHold, false)
    {
      s := Submit(leasesHold, false);
    }

    /** Whatever watchdogs and hooks do between two lines of the sender. */
    method Others(steps: seq<Action>) returns (ghost acts: seq<Action>)
      requires SENDER in s.actors && IsSender(s.actors[SENDER])
      modifies this
      ensures Valid(old(s), acts) && s == Exec(old(s), acts)
      ensures SENDER in s.actors && s.actors[SENDER] == old(s).actors[SENDER]
      ensures steps == [] ==> s == old(s)
    {
      acts := [];
      ghost var start := s;
      for i := 0 to |steps|
        invariant Valid(start, acts) && s == Exec(start, acts)
        invariant SENDER in s.actors && s.actors[SENDER] == start.actors[SENDER]
        invariant steps == [] ==> s == start
      {
        var a := steps[i];
        if Enabled(s, a) && ByOthers(a) {
          OthersSpare(s, a);
          RunThen(start, acts, a);
          acts := acts + [a];
          s := Next(s, a);
        }
      }
    }

    /** Send lock, inbox check and lease; without the lock or the file the call is
        already decided. */
    method Claim(gaps: seq<seq<Action>>) returns (ghost acts: seq<Action>)
      requires AtPc(s, SENDER, Created) && |gaps| == 2
      modifies this
      ensures Valid(old(s), acts) && s == Exec(old(s), acts)
      ensures SENDER in s.actors && (s.actors[SENDER].Leased? || s.actors[SENDER].Tail?)
      ensures Undisturbed(gaps) ==>
                s.attempts == old(s).attempts && s.surfaced == old(s).surfaced &&
                if old(s).sendLock.Some? then
                  s.actors[SENDER] == Tail(false, Clear) && s.file == old(s).file && s.sendLock == old(s).sendLock
                else if old(s).file.None? then
                  s.actors[SENDER] == Tail(true, Clear) && s.file.None? && s.sendLock.None?
                else
                  s.actors[SENDER].Leased? && s.file == Some(Rec(Some(SENDER), Clear)) && s.sendLock == Some(SENDER)
    {
      ghost var start := s;
      acts := Others(gaps[0]);
      if s.sendLock.Some? {
        RunThen(start, acts, LockTimeout);
        acts := acts + [LockTimeout];
        s := s.(actors := s.actors[SENDER := Tail(false, Clear)]);
        return;
      }
      RunThen(start, acts, Lock);
      acts := acts + [Lock];
      s := s.(actors := s.actors[SENDER := Locked], sendLock := Some(SENDER));

      ghost var more := Others(gaps[1]);
      RunAppend(start, acts, more);
      acts := acts + more;
      RunThen(start, acts, Renew);
      acts := acts + [Renew];
      if s.file.None? {
        s := Unlocked(s, SENDER).(actors := s.actors[SENDER := Tail(true, Clear)]);
      } else {
        s := s.(actors := s.actors[SENDER := Leased], file := Some(Rec(Some(SENDER), Clear)));
      }
    }

    /** Unless the user keeps typing: the durable mark, then one injection. */
    method Inject(typing: bool, reached: bool, raises: bool, gaps: seq<seq<Action>>) returns (ghost acts: seq<Action>)
      requires AtPc(s, SENDER, Leased) && |gaps| == 2
      modifies this
      ensures Valid(old(s), acts) && s == Exec(old(s), acts)
      ensures SENDER in s.actors
      ensures if typing then s.actors[SENDER] == Tail(false, Clear)
              else if raises then s.actors[SENDER] == Tail(false, Uncertain)
              else s.actors[SENDER].Injected?
      ensures Undisturbed(gaps) && old(s).sendLock == Some(SENDER) ==>
                if typing then
                  s.attempts == old(s).attempts && s.surfaced == old(s).surfaced && s.file == old(s).file &&
                  s.sendLock.None?
                else
                  s.attempts == old(s).attempts + 1 && s.surfaced == old(s).surfaced + (if reached then 1 else 0) &&
                  s.file == Some(Rec(Some(SENDER), Dispatching)) &&
                  s.sendLock == if raises then None else Some(SENDER)
    {
      ghost var start := s;
      acts := Others(gaps[0]);
      if typing {
        RunThen(start, acts, GiveUp);
        acts := acts + [GiveUp];
        s := Unlocked(s, SENDER).(actors := s.actors[SENDER := Tail(false, Clear)]);
        return;
      }
      RunThen(start, acts, Mark);
      acts := acts + [Mark];
      s := s.(actors := s.actors[SENDER := Marked], file := Some(Rec(Some(SENDER), Dispatching)));

      ghost var more := Others(gaps[1]);
      RunAppend(start, acts, more);
      acts := acts + more;
      RunThen(start, acts, Action.Inject(reached, raises));
      acts := acts + [Action.Inject(reached, raises)];
      s := s.(attempts := s.attempts + 1, surfaced := s.surfaced + if reached then 1 else 0);
      if raises {
        s := Unlocked(s, SENDER).(actors := s.actors[SENDER := Tail(false, Uncertain)]);
      } else {
        s := s.(actors := s.actors[SENDER := Injected]);
      }
    }

    /** The eager unlink, and putting the copy back if the body is stuck in the pane. */
    method Verify(works: bool, stuck: bool, gaps: seq<seq<Action>>) returns (ghost acts: seq<Action>)
      requires AtPc(s, SENDER, Injected) && |gaps| == 2
      modifies this
      ensures Valid(old(s), acts) && s == Exec(old(s), acts)
      ensures SENDER in s.actors && s.actors[SENDER] == Tail(!stuck, Dispatching)
      ensures Undisturbed(gaps) && old(s).sendLock == Some(SENDER) ==>
                s.attempts == old(s).attempts && s.surfaced == old(s).surfaced && s.sendLock.None? &&
                (stuck ==> s.file == Some(Rec(Some(SENDER), Dispatching)))
    {
      ghost var start := s;
      acts := Others(gaps[0]);
      RunThen(start, acts, Unlink(works));
      acts := acts + [Unlink(works)];
      s := s.(actors := s.actors[SENDER := Unlinked], file := if works then None else s.file);

      ghost var more := Others(gaps[1]);
      RunAppend(start, acts, more);
      acts := acts + more;
      RunThen(start, acts, Action.Verify(stuck));
      acts := acts + [Action.Verify(stuck)];
      if stuck {
        s := s.(file := Some(Rec(Some(SENDER), Dispatching)));
      }
      s := Unlocked(s, SENDER).(actors := s.actors[SENDER := Tail(!stuck, Dispatching)]);
    }

    /** After the lock: the copy goes if the body was delivered; else, if it is still
        there, it is written again without the lease. */
    method Finish(gaps: seq<seq<Action>>) returns (ghost acts: seq<Action>)
      requires SENDER in s.actors && s.actors[SENDER].Tail? && |gaps| == 2
      modifies this
      ensures Valid(old(s), acts) && s == Exec(old(s), acts)
      ensures SENDER !in s.actors
      ensures Undisturbed(gaps) && old(s).sendLock != Some(SENDER) ==>
                s.attempts == old(s).attempts && s.surfaced == old(s).surfaced && s.sendLock == old(s).sendLock &&
                s.file == if old(s).actors[SENDER].delivered || old(s).file.None? then None
                          else Some(Rec(None, old(s).actors[SENDER].pane))
    {
      ghost var start := s;
      acts := Others(gaps[0]);
      RunThen(start, acts, TailCheck);
      acts := acts + [TailCheck];
      var pc := s.actors[SENDER];
      if pc.delivered {
        s := Gone(s, SENDER).(file := None);
        return;
      }
      if s.file.None? {
        s := Gone(s, SENDER);
        return;
      }
      s := s.(actors := s.actors[SENDER := Rewriting(pc.pane)]);

      ghost var more := Others(gaps[1]);
      RunAppend(start, acts, more);
      acts := acts + more;
      RunThen(start, acts, TailWrite);
      acts := acts + [TailWrite];
      s := Gone(s, SENDER).(file := Some(Rec(None, pc.pane)));
    }

    /** The direct send. Undisturbed: without the lock, or while the user types, the
        message is left free for watchdogs and hooks; a message already gone is left
        gone; else it is injected once, and then gone, or kept marked as uncertain
        after an error, or as dispatching if it is stuck in the pane. */
    method Send(typing: bool, reached: bool, raises: bool, works: bool, stuck: bool, gaps: seq<seq<Action>>)
      returns (ghost acts: seq<Action>)
      requires AtPc(s, SENDER, Created) && |gaps| == 8
      modifies this
      ensures Valid(old(s), acts) && s == Exec(old(s), acts)
      ensures SENDER !in s.actors
      ensures Undisturbed(gaps) && old(s).sendLock != Some(SENDER) ==>
                s.sendLock == old(s).sendLock &&
                if old(s).file.None? || old(s).sendLock.Some? || typing then
                  s.attempts == old(s).attempts && s.surfaced == old(s).surfaced &&
                  s.file == if old(s).file.None? then None else Some(Rec(None, Clear))
                else
                  s.attempts == old(s).attempts + 1 && s.surfaced == old(s).surfaced + (if reached then 1 else 0) &&
                  s.file == if raises then Some(Rec(None, Uncertain))
                            else if stuck then Some(Rec(None, Dispatching)) else None
    {
      ghost var start := s;
      ghost var more: seq<Action>;
      acts := Claim(gaps[..2]);
      if s.actors[SENDER].Leased? {
        more := Inject(typing, reached, raises, gaps[2..4]);
        RunAppend(start, acts, more);
        acts := acts + more;
      }
      if s.actors[SENDER].Injected? {
        more := Verify(works, stuck, gaps[4..6]);
        RunAppend(start, acts, more);
        acts := acts + more;
      }
      more := Finish(gaps[6..]);
      RunAppend(start, acts, more);
      acts := acts + more;
    }
  }
}
