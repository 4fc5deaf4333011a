/** One inbox scan of a channel pump as the program it is, run among any other
    actors: every execution is a run of the channel protocol. */
module ChannelScan {
  import opened Prelude
  import opened ChannelPump

  function Mover(a: Action): Option<string> {
    match a
    case Start(c, _) => Some(c)
    case Confirm(c, _) => Some(c)
    case BeginScan(c) => Some(c)
    case ReadJob(c, _) => Some(c)
    case RejectJob(c, _, _) => Some(c)
    case MarkJob(c, _) => Some(c)
    case Notify(c) => Some(c)
    case NotifyRaises(c, _) => Some(c)
    case Update(c, _) => Some(c)
    case EndScan(c) => Some(c)
    case Close(c) => Some(c)
    case Crash(c) => Some(c)
    case _ => None
  }

  lemma OthersSpare(s: State, a: Action, me: string)
    requires Enabled(s, a) && Mover(a) != Some(me)
    ensures me in Next(s, a).pumps <==> me in s.pumps
    ensures me in s.pumps ==> Next(s, a).pumps[me] == s.pumps[me]
  {
  }

  /** What happens around one file of the scan. */
  datatype File = File(job: string, lockedBefore: bool, raises: bool, delivered: bool, lockedAfter: bool,
                       gaps: seq<seq<Action>>)

  /** A file handled while nobody else moves. */
  predicate Quiet(f: File) {
    forall i :: 0 <= i < |f.gaps| ==> f.gaps[i] == []
  }

  predicate AllQuiet(files: seq<File>) {
    forall i :: 0 <= i < |files| ==> Quiet(files[i])
  }

  /** A file the scan neither skips nor rejects. */
  predicate Wanted(s: State, job: string) {
    Open(s, job) && SameSession(s.jobs[job].recipient, s.owner) && SameProcess(s.jobs[job].recipient, s.owner)
  }

  /** The notices an undisturbed scan owes: one for each open job of the label's owner
      whose locks are free, in the order of the files, up to a notification that raises. */
  function Owed(s: State, c: string, files: seq<File>): seq<Notice> {
    if files == [] then []
    else
      var f := files[0];
      if !Wanted(s, f.job) || !f.lockedBefore then Owed(s, c, files[1..])
      else if !f.raises then [Notice(c, f.job, s.owner)] + Owed(s, c, files[1..])
      else if f.delivered then [Notice(c, f.job, s.owner)]
      else []
  }

  lemma {:induction false} OwedSame(s: State, t: State, c: string, files: seq<File>)
    requires s.jobs == t.jobs && s.owner == t.owner
    ensures Owed(s, c, files) == Owed(t, c, files)
  {
    if files != [] {
      OwedSame(s, t, c, files[1..]);
    }
  }

  /** What one file contributes, unless its notification raises and ends the scan. */
  lemma OwedStep(s: State, c: string, files: seq<File>, i: nat, before: seq<Notice>, after: seq<Notice>)
    requires i < |files|
    requires var f := files[i];
             var takes := Wanted(s, f.job) && f.lockedBefore;
             after == before + if takes && (!f.raises || f.delivered) then [Notice(c, f.job, s.owner)] else []
    ensures var f := files[i];
            before + Owed(s, c, files[i..]) ==
            if Wanted(s, f.job) && f.lockedBefore && f.raises then after else after + Owed(s, c, files[i + 1..])
  {
    assert files[i..][0] == files[i] && files[i..][1..] == files[i + 1..];
    var rest := Owed(s, c, files[i + 1..]);
    var notice := Notice(c, files[i].job, s.owner);
    assert before + ([notice] + rest) == (before + [notice]) + rest;
  }

  class Pumping {
    var s: State

    constructor (exclusive: bool)
      ensures s == Create(exclusive)
    {
      s := Create(exclusive);
    }

    /** Whatever others do between two lines of pump `me`. */
    method Others(me: string, steps: seq<Action>) returns (ghost acts: seq<Action>)
      modifies this
      ensures Valid(old(s), acts) && s == Exec(old(s), acts)
      ensures me in s.pumps <==> me in old(s).pumps
      ensures me in s.pumps ==> s.pumps[me] == old(s).pumps[me]
      ensures steps == [] ==> s == old(s)
    {
      acts := [];
      ghost var start := s;
      for i := 0 to |steps|
        invariant Valid(start, acts) && s == Exec(start, acts)
        invariant me in s.pumps <==> me in start.pumps
        invariant me in s.pumps ==> s.pumps[me] == start.pumps[me]
        invariant steps == [] ==> s == start
      {
        var a := steps[i];
        if Enabled(s, a) && Mover(a) != Some(me) {
          OthersSpare(s, a, me);
          RunThen(start, acts, a);
          acts := acts + [a];
          s := Next(s, a);
        }
      }
    }

    /** `confirm`: ready if and only if the nonce is this connection's own and the
        connection is the recorded one. */
    method Confirm(me: string, nonce: string) returns (ok: bool, ghost acts: seq<Action>)
      requires me in s.pumps
      modifies this
      ensures Valid(old(s), acts) && s == Exec(old(s), acts)
      ensures ok <==> nonce == old(s).pumps[me].nonce && old(s).recorded == Some(me)
      ensures me in s.pumps && s.pumps[me].ready == (ok || old(s).pumps[me].ready)
      ensures s.notices == old(s).notices && s.jobs == old(s).jobs
    {
      ghost var start := s;
      assert Exec(s, []) == s;
      RunThen(start, [], ChannelPump.Confirm(me, nonce));
      acts := [] + [ChannelPump.Confirm(me, nonce)];
      if nonce != s.pumps[me].nonce || s.recorded != Some(me) {
        return false, acts;
      }
      s := s.(pumps := s.pumps[me := s.pumps[me].(ready := true)]);
      ok := true;
    }

    /** The claim: both locks, inbox check, durable `dispatching` mark. Whatever
        others do meanwhile, nothing is claimed without all three. */
    method Claim(me: string, f: File) returns (claimed: bool, ghost acts: seq<Action>)
      requires AtPc(s, me, Scanning) && s.recorded == Some(me) && Wanted(s, f.job) && |f.gaps| == 4
      modifies this
      ensures Valid(old(s), acts) && s == Exec(old(s), acts)
      ensures claimed ==>
                f.lockedBefore && f.job in s.jobs && s.jobs[f.job].inbox && s.jobs[f.job].mark.Dispatching?
      ensures claimed ==> AtPc(s, me, Marked(f.job, old(s).owner))
      ensures !claimed ==> AtPc(s, me, Scanning)
      ensures Quiet(f) ==>
                claimed == f.lockedBefore && s.notices == old(s).notices && s.recorded == old(s).recorded &&
                s.owner == old(s).owner &&
                s.jobs == if claimed then old(s).jobs[f.job := old(s).jobs[f.job].(mark := Dispatching)]
                          else old(s).jobs
    {
      ghost var start := s;
      var owner := s.owner;
      assert Exec(s, []) == s;
      RunThen(start, [], ReadJob(me, f.job));
      acts := [] + [ReadJob(me, f.job)];
      s := s.(pumps := s.pumps[me := s.pumps[me].(pc := Read(f.job, owner))]);

      ghost var more := Others(me, f.gaps[1]);
      RunAppend(start, acts, more);
      acts := acts + more;
      RunThen(start, acts, MarkJob(me, f.lockedBefore));
      acts := acts + [MarkJob(me, f.lockedBefore)];
      if f.lockedBefore && f.job in s.jobs && s.jobs[f.job].inbox {
        s := s.(pumps := s.pumps[me := s.pumps[me].(pc := Marked(f.job, owner))],
                jobs := s.jobs[f.job := Job(true, Dispatching, s.jobs[f.job].recipient)]);
        claimed := true;
      } else {
        s := s.(pumps := s.pumps[me := s.pumps[me].(pc := Scanning)]);
        claimed := false;
      }
    }

    /** The notification, sent once. */
    method Announce(me: string, f: File, owner: Owner) returns (ghost acts: seq<Action>)
      requires AtPc(s, me, Marked(f.job, owner)) && |f.gaps| == 4
      modifies this
      ensures Valid(old(s), acts) && s == Exec(old(s), acts)
      ensures AtPc(s, me, if f.raises then Erred(f.job) else Notified(f.job))
      ensures f.gaps[2] == [] ==>
                s.notices == old(s).notices + (if f.raises && !f.delivered then [] else [Notice(me, f.job, owner)]) &&
                s.recorded == old(s).recorded && s.owner == old(s).owner && s.jobs == old(s).jobs
    {
      ghost var start := s;
      acts := Others(me, f.gaps[2]);
      var job := f.job;
      if f.raises {
        RunThen(start, acts, NotifyRaises(me, f.delivered));
        acts := acts + [NotifyRaises(me, f.delivered)];
        s := s.(pumps := s.pumps[me := s.pumps[me].(pc := Erred(job))],
                notices := s.notices + if f.delivered then [Notice(me, job, owner)] else []);
      } else {
        RunThen(start, acts, Notify(me));
        acts := acts + [Notify(me)];
        s := s.(pumps := s.pumps[me := s.pumps[me].(pc := Notified(job))],
                notices := s.notices + [Notice(me, job, owner)]);
      }
    }

    /** The notification and the final state of the message. */
    method Send(me: string, f: File, owner: Owner) returns (alive: bool, ghost acts: seq<Action>)
      requires AtPc(s, me, Marked(f.job, owner)) && |f.gaps| == 4
      modifies this
      ensures Valid(old(s), acts) && s == Exec(old(s), acts)
      ensures alive == !f.raises && (alive ==> AtPc(s, me, Scanning))
      ensures Quiet(f) && Pending(old(s), f.job) ==>
                s.notices == old(s).notices + (if f.raises && !f.delivered then [] else [Notice(me, f.job, owner)]) &&
                s.recorded == old(s).recorded && s.owner == old(s).owner &&
                s.jobs == if !f.lockedAfter then old(s).jobs
                          else old(s).jobs[f.job := old(s).jobs[f.job].(mark := if f.raises then Uncertain else Sent)]
    {
      ghost var start := s;
      acts := Announce(me, f, owner);
      var job := f.job;
      ghost var more := Others(me, f.gaps[3]);
      RunAppend(start, acts, more);
      acts := acts + more;
      RunThen(start, acts, Update(me, f.lockedAfter));
      acts := acts + [Update(me, f.lockedAfter)];
      if f.lockedAfter && job in s.jobs && s.jobs[job].inbox {
        s := s.(jobs := s.jobs[job := Job(true, if f.raises then Uncertain else Mark.Sent, s.jobs[job].recipient)]);
      }
      if f.raises {
        s := Gone(s, me);
      } else {
        s := s.(pumps := s.pumps[me := s.pumps[me].(pc := Scanning)]);
      }
      alive := !f.raises;
    }

    /** A message for another process of the label is marked as failed, not sent. */
    method Reject(me: string, f: File) returns (ghost acts: seq<Action>)
      requires AtPc(s, me, Scanning) && s.recorded == Some(me) && Open(s, f.job)
      requires SameSession(s.jobs[f.job].recipient, s.owner) && !SameProcess(s.jobs[f.job].recipient, s.owner)
      modifies this
      ensures Valid(old(s), acts) && s == Exec(old(s), acts)
      ensures AtPc(s, me, Scanning) && s.notices == old(s).notices && s.recorded == old(s).recorded
      ensures s.owner == old(s).owner
      ensures s.jobs == if f.lockedBefore then old(s).jobs[f.job := old(s).jobs[f.job].(mark := Failed)] else old(s).jobs
    {
      assert Exec(s, []) == s;
      RunThen(s, [], RejectJob(me, f.job, f.lockedBefore));
      acts := [] + [RejectJob(me, f.job, f.lockedBefore)];
      if f.lockedBefore {
        s := s.(jobs := s.jobs[f.job := Job(true, Failed, s.jobs[f.job].recipient)]);
      }
    }

    /** One iteration of the scan loop. Undisturbed it leaves alone what is processed,
        marked or meant for another session, fails what is meant for another process,
        and notifies of the rest, once, with the outcome marked as far as the locks
        are free. */
    method HandleFile(me: string, f: File) returns (go: bool, ghost acts: seq<Action>)
      requires AtPc(s, me, Scanning) && |f.gaps| == 4
      modifies this
      ensures Valid(old(s), acts) && s == Exec(old(s), acts)
      ensures go ==> AtPc(s, me, Scanning)
      ensures Quiet(f) && old(s).recorded != Some(me) ==> !go && s == old(s)
      ensures Quiet(f) && old(s).recorded == Some(me) ==>
                var before := old(s);
                s.recorded == Some(me) && s.owner == before.owner &&
                if f.job !in before.jobs || !before.jobs[f.job].inbox || !before.jobs[f.job].mark.Unmarked? ||
                   before.jobs[f.job].recipient.session !in {"", before.owner.session} then
                  go && s.notices == before.notices && s.jobs == before.jobs
                else if before.jobs[f.job].recipient.process !in {"", before.owner.process} then
                  go && s.notices == before.notices &&
                  s.jobs == if f.lockedBefore then before.jobs[f.job := before.jobs[f.job].(mark := Failed)]
                            else before.jobs
                else if !f.lockedBefore then
                  go && s.notices == before.notices && s.jobs == before.jobs
                else
                  go == !f.raises &&
                  s.notices == before.notices +
                               (if f.raises && !f.delivered then [] else [Notice(me, f.job, before.owner)]) &&
                  s.jobs == before.jobs[f.job := before.jobs[f.job].(
                              mark := if !f.lockedAfter then Dispatching else if f.raises then Uncertain else Sent)]
    {
      ghost var start := s;
      acts := Others(me, f.gaps[0]);
      if s.recorded != Some(me) {
        return false, acts;
      }
      if f.job !in s.jobs || !s.jobs[f.job].inbox || !s.jobs[f.job].mark.Unmarked? {
        return true, acts;
      }
      var recipient, owner := s.jobs[f.job].recipient, s.owner;
      if recipient.session != "" && recipient.session != owner.session {
        return true, acts;
      }
      ghost var more: seq<Action>;
      if recipient.process != "" && recipient.process != owner.process {
        more := Reject(me, f);
        RunAppend(start, acts, more);
        return true, acts + more;
      }
      var claimed;
      claimed, more := Claim(me, f);
      RunAppend(start, acts, more);
      acts := acts + more;
      go := true;
      if claimed {
        go, more := Send(me, f, owner);
        RunAppend(start, acts, more);
        acts := acts + more;
      }
    }

    /** The loop over the sorted inbox files. */
    method HandleAll(me: string, files: seq<File>) returns (go: bool, ghost acts: seq<Action>)
      requires AtPc(s, me, Scanning) && forall i :: 0 <= i < |files| ==> |files[i].gaps| == 4
      requires forall i, j :: 0 <= i < j < |files| ==> files[i].job != files[j].job
      modifies this
      ensures Valid(old(s), acts) && s == Exec(old(s), acts)
      ensures go ==> AtPc(s, me, Scanning)
      ensures AllQuiet(files) && old(s).recorded == Some(me) ==>
                s.notices == old(s).notices + Owed(old(s), me, files)
    {
      ghost var start := s;
      ghost var quiet := AllQuiet(files) && s.recorded == Some(me);
      acts := [];
      var i := 0;
      while i < |files|
        invariant 0 <= i <= |files|
        invariant Valid(start, acts) && s == Exec(start, acts) && AtPc(s, me, Scanning)
        invariant quiet ==> s.recorded == Some(me) && s.owner == start.owner &&
                            s.notices + Owed(start, me, files[i..]) == start.notices + Owed(start, me, files)
        invariant quiet ==> forall k :: i <= k < |files| ==> (Wanted(s, files[k].job) <==> Wanted(start, files[k].job))
      {
        ghost var before := s.notices;
        ghost var more;
        go, more := HandleFile(me, files[i]);
        if quiet {
          OwedStep(start, me, files, i, before, s.notices);
        }
        RunAppend(start, acts, more);
        acts := acts + more;
        if !go {
          return;
        }
        i := i + 1;
      }
      go := true;
    }

    /** `scan_once`: a run of the channel protocol whatever happens between its
        lines; and a scan nobody disturbs notifies every open job of its list that is
        meant for the label's owner, once each and in order, up to an error. */
    method ScanOnce(me: string, files: seq<File>) returns (ghost acts: seq<Action>)
      requires AtPc(s, me, Idle) && forall i :: 0 <= i < |files| ==> |files[i].gaps| == 4
      requires forall i, j :: 0 <= i < j < |files| ==> files[i].job != files[j].job
      modifies this
      ensures Valid(old(s), acts) && s == Exec(old(s), acts)
      ensures !old(s).pumps[me].ready || old(s).recorded != Some(me) ==> s == old(s)
      ensures AllQuiet(files) && Enabled(old(s), BeginScan(me)) ==>
                s.notices == old(s).notices + Owed(old(s), me, files)
    {
      ghost var start := s;
      acts := [];
      if !s.pumps[me].ready || s.recorded != Some(me) || (s.exclusive && s.scanner.Some?) {
        return;
      }
      assert Exec(s, []) == s;
      RunThen(start, [], BeginScan(me));
      acts := [] + [BeginScan(me)];
      s := s.(pumps := s.pumps[me := s.pumps[me].(pc := Scanning)], scanner := Some(me));
      OwedSame(start, s, me, files);
      var go;
      ghost var more;
      go, more := HandleAll(me, files);
      RunAppend(start, acts, more);
      acts := acts + more;
      if go {
        RunThen(start, acts, EndScan(me));
        acts := acts + [EndScan(me)];
        s := s.(pumps := s.pumps[me := s.pumps[me].(pc := Idle)],
                scanner := if s.scanner == Some(me) then None else s.scanner);
      }
    }
  }
}
