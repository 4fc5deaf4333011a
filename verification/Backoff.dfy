/** The worker's scan of one label and the backoff of its app-server connection. */
module Backoff {
  import opened Prelude
  import CodexDelivery

  /** The connection state file; missing fields read as 0. */
  datatype Connection = Connection(attempts: nat, retryAt: int)

  const FRESH := Connection(0, 0)

  /** A pending message file when its turn comes: is the label's endpoint still
      the one connected to, and does its delivery raise an error. */
  datatype Visit = Visit(path: string, current: bool, raises: bool)

  /** One round over the label, with the clock before it and at its failure. */
  datatype Round = Round(now: int, connects: bool, pending: seq<Visit>, failsAt: int)

  function Min(a: int, b: int): int { if a <= b then a else b }

  /** Seconds to wait after the n-th failure in a row. */
  function Delay(n: nat): int { Min(60, Pow2(if n <= 6 then n else 6)) }

  // ---- one round -------------------------------------------------------

  /** How many deliveries the round begins. */
  function Begun(visits: seq<Visit>): (n: nat)
    ensures n <= |visits|
  {
    if visits == [] || !visits[0].current then 0
    else if visits[0].raises then 1
    else 1 + Begun(visits[1..])
  }

  predicate Broken(visits: seq<Visit>) {
    Begun(visits) > 0 && visits[Begun(visits) - 1].raises
  }

  predicate Skips(c: Connection, r: Round) {
    r.pending == [] || r.now < c.retryAt
  }

  predicate Fails(r: Round) {
    !r.connects || Broken(r.pending)
  }

  function After(c: Connection, r: Round): Connection {
    if Skips(c, r) then c
    else if Fails(r) then Connection(c.attempts + 1, r.failsAt + Delay(c.attempts + 1) * CodexDelivery.SECOND)
    else FRESH
  }

  /** Deliveries stop at the first endpoint that has changed or delivery that raises. */
  lemma {:induction false} BegunStops(visits: seq<Visit>)
    ensures forall i :: 0 <= i < Begun(visits) ==> visits[i].current
    ensures forall i :: 0 <= i < Begun(visits) - 1 ==> !visits[i].raises
    ensures Begun(visits) < |visits| && !Broken(visits) ==> !visits[Begun(visits)].current
  {
    if visits != [] && visits[0].current && !visits[0].raises {
      BegunStops(visits[1..]);
    }
  }

  /** A delivery was begun and raised an error. */
  predicate SomeRaises(visits: seq<Visit>) {
    exists k :: 0 <= k < |visits| && visits[k].raises && (forall i :: 0 <= i <= k ==> visits[i].current) &&
                forall i :: 0 <= i < k ==> !visits[i].raises
  }

  lemma {:induction false} BegunIs(visits: seq<Visit>, k: nat)
    requires k < |visits| && visits[k].raises && forall i :: 0 <= i <= k ==> visits[i].current
    requires forall i :: 0 <= i < k ==> !visits[i].raises
    ensures Begun(visits) == k + 1
  {
    if k > 0 {
      BegunIs(visits[1..], k - 1);
    }
  }

  lemma BrokenIff(visits: seq<Visit>)
    ensures Broken(visits) <==> SomeRaises(visits)
  {
    BegunStops(visits);
    if SomeRaises(visits) {
      var k :| 0 <= k < |visits| && visits[k].raises && (forall i :: 0 <= i <= k ==> visits[i].current) &&
               forall i :: 0 <= i < k ==> !visits[i].raises;
      BegunIs(visits, k);
    }
  }

  /** The waiting times: 2, 4, 8, 16 and 32 seconds, and 60 from the sixth failure on. */
  lemma Schedule(n: nat)
    ensures Delay(1) == 2 && Delay(2) == 4 && Delay(3) == 8 && Delay(4) == 16 && Delay(5) == 32
    ensures n >= 6 ==> Delay(n) == 60
  {
    assert Pow2(1) == 2 && Pow2(2) == 4 && Pow2(3) == 8 && Pow2(4) == 16 && Pow2(5) == 32 && Pow2(6) == 64;
  }

  /** What a round leaves, in terms of what it met: nothing changes if there is nothing
      to deliver or its time has not come; a failed connection or delivery counts one
      more failure; anything else clears the backoff. */
  lemma RoundOutcome(c: Connection, r: Round)
    ensures var t := After(c, r);
            if |r.pending| == 0 || r.now < c.retryAt then t == c
            else if !r.connects || SomeRaises(r.pending) then
              t.attempts == c.attempts + 1 &&
              t.retryAt == r.failsAt + CodexDelivery.SECOND *
                           (match c.attempts
                            case 0 => 2 case 1 => 4 case 2 => 8 case 3 => 16 case 4 => 32 case _ => 60)
            else t.attempts == 0 && t.retryAt == 0
  {
    BrokenIff(r.pending);
    Schedule(c.attempts + 1);
  }

  class Label {
    var connection: Connection

    constructor ()
      ensures connection == FRESH
    {
      connection := FRESH;
    }

    /** The body of `scan_once` for one label. A delivery is begun only while the
        endpoint is still the one the round started with. */
    method Scan(r: Round) returns (begun: seq<string>)
      modifies this
      ensures connection == After(old(connection), r)
      ensures |begun| == if Skips(old(connection), r) || !r.connects then 0 else Begun(r.pending)
      ensures forall i :: 0 <= i < |begun| ==> begun[i] == r.pending[i].path && r.pending[i].current
    {
      begun := [];
      if |r.pending| == 0 {
        return;
      }
      var before := connection;
      if r.now < before.retryAt {
        return;
      }
      var raised := !r.connects;
      if r.connects {
        connection := FRESH;
        begun, raised := DeliverAll(r.pending);
      }
      if raised {
        var attempts := before.attempts + 1;
        connection := Connection(attempts, r.failsAt + Delay(attempts) * CodexDelivery.SECOND);
      }
    }
  }

  method DeliverAll(visits: seq<Visit>) returns (begun: seq<string>, raised: bool)
    ensures |begun| == Begun(visits) && raised == Broken(visits)
    ensures forall i :: 0 <= i < |begun| ==> begun[i] == visits[i].path && visits[i].current
  {
    begun, raised := [], false;
    var k := 0;
    while k < |visits| && visits[k].current && !raised
      invariant 0 <= k <= |visits| && |begun| == k
      invariant Begun(visits) == if raised then k else k + Begun(visits[k..])
      invariant raised ==> k > 0 && visits[k - 1].raises
      invariant !raised && k > 0 ==> !visits[k - 1].raises
      invariant forall i :: 0 <= i < k ==> begun[i] == visits[i].path && visits[i].current
    {
      assert visits[k..][1..] == visits[k + 1..];
      begun := begun + [visits[k].path];
      raised := visits[k].raises;
      k := k + 1;
    }
  }

  // ---- runs ------------------------------------------------------------

  /** A round, or the death of the worker in one, before or after it stored that
      it is connected. */
  datatype Event = Scanned(round: Round) | Died(now: int, connected: bool)

  /** What the worker did: tried to connect, failed, or cleared the backoff. */
  datatype Mark = Tried(at: int) | Failed(at: int) | Cleared

  function Step(c: Connection, e: Event): Connection {
    match e
    case Scanned(r) => After(c, r)
    case Died(now, connected) => if now >= c.retryAt && connected then FRESH else c
  }

  function Marks(c: Connection, e: Event): seq<Mark> {
    match e
    case Scanned(r) => if Skips(c, r) then [] else [Tried(r.now), if Fails(r) then Failed(r.failsAt) else Cleared]
    case Died(now, connected) => if now < c.retryAt then [] else if connected then [Tried(now), Cleared] else [Tried(now)]
  }

  function Run(c: Connection, es: seq<Event>): Connection {
    if es == [] then c else Step(Run(c, es[..|es| - 1]), es[|es| - 1])
  }

  function Log(c: Connection, es: seq<Event>): seq<Mark> {
    if es == [] then []
    else Log(c, es[..|es| - 1]) + Marks(Run(c, es[..|es| - 1]), es[|es| - 1])
  }

  /** Failures since the backoff was last cleared. */
  function Streak(log: seq<Mark>): nat {
    if log == [] then 0
    else match log[|log| - 1]
      case Tried(_) => Streak(log[..|log| - 1])
      case Failed(_) => Streak(log[..|log| - 1]) + 1
      case Cleared => 0
  }

  /** When the last of them happened. */
  function LastFailure(log: seq<Mark>): int {
    if log == [] then 0
    else match log[|log| - 1]
      case Tried(_) => LastFailure(log[..|log| - 1])
      case Failed(at) => at
      case Cleared => 0
  }

  /** The earliest time of the next attempt, as far as the history tells. */
  function Due(log: seq<Mark>): int {
    LastFailure(log) + if Streak(log) == 0 then 0 else Delay(Streak(log)) * CodexDelivery.SECOND
  }

  predicate Paced(log: seq<Mark>) {
    forall k :: 0 <= k < |log| && log[k].Tried? ==> Streak(log[..k]) == 0 || log[k].at >= Due(log[..k])
  }

  lemma Extend(log: seq<Mark>, m: Mark)
    requires Paced(log) && (m.Tried? ==> Streak(log) == 0 || m.at >= Due(log))
    ensures Paced(log + [m])
    ensures Streak(log + [m]) == if m.Tried? then Streak(log) else if m.Failed? then Streak(log) + 1 else 0
    ensures LastFailure(log + [m]) == if m.Tried? then LastFailure(log) else if m.Failed? then m.at else 0
  {
    var more := log + [m];
    assert more[..|log|] == log;
    forall k | 0 <= k < |more| && more[k].Tried?
      ensures Streak(more[..k]) == 0 || more[k].at >= Due(more[..k])
    {
      assert more[..k] == log[..k];
    }
  }

  predicate Agrees(c: Connection, log: seq<Mark>) {
    c.attempts == Streak(log) && c.retryAt == Due(log) && Paced(log)
  }

  lemma Clean(log: seq<Mark>)
    ensures Streak(log) == 0 ==> LastFailure(log) == 0
  {
  }

  lemma TriedAgrees(c: Connection, log: seq<Mark>, at: int)
    requires Agrees(c, log) && at >= c.retryAt
    ensures Agrees(c, log + [Tried(at)])
  {
    Extend(log, Tried(at));
  }

  lemma FailedAgrees(c: Connection, log: seq<Mark>, at: int)
    requires Agrees(c, log)
    ensures Agrees(Connection(c.attempts + 1, at + Delay(c.attempts + 1) * CodexDelivery.SECOND), log + [Failed(at)])
  {
    Extend(log, Failed(at));
  }

  lemma ClearedAgrees(c: Connection, log: seq<Mark>)
    requires Agrees(c, log)
    ensures Agrees(FRESH, log + [Cleared])
  {
    Extend(log, Cleared);
    Clean(log + [Cleared]);
  }

  lemma StepAgrees(c: Connection, log: seq<Mark>, e: Event)
    requires Agrees(c, log)
    ensures Agrees(Step(c, e), log + Marks(c, e))
  {
    var marks := Marks(c, e);
    if marks == [] {
      assert log + marks == log;
    } else {
      var tried := log + [marks[0]];
      TriedAgrees(c, log, marks[0].at);
      if |marks| == 2 {
        assert log + marks == tried + [marks[1]];
        match marks[1]
        case Failed(at) => FailedAgrees(c, tried, at);
        case Cleared => ClearedAgrees(c, tried);
      }
    }
  }

  /** The stored counter is exactly the number of failures since the backoff was
      last cleared, the stored time exactly their delay after the last of them,
      and no attempt to connect comes earlier. */
  lemma {:induction false} ConnectionIsPaced(es: seq<Event>)
    ensures Agrees(Run(FRESH, es), Log(FRESH, es))
  {
    if es != [] {
      ConnectionIsPaced(es[..|es| - 1]);
      StepAgrees(Run(FRESH, es[..|es| - 1]), Log(FRESH, es[..|es| - 1]), es[|es| - 1]);
    }
  }

  lemma {:induction false} DelayGrows(n: nat, m: nat)
    requires 1 <= n <= m
    ensures 2 <= Delay(n) <= Delay(m) <= 60
    ensures n >= 6 ==> Delay(n) == 60
    decreases m - n
  {
    assert Pow2(1) == 2 && Pow2(2) == 4 && Pow2(3) == 8 && Pow2(4) == 16 && Pow2(5) == 32 && Pow2(6) == 64;
  }

  lemma {:induction false} StreakGrows(log: seq<Mark>, i: nat, j: nat)
    requires i <= j <= |log| && forall k :: i <= k < j ==> !log[k].Cleared?
    ensures Streak(log[..i]) <= Streak(log[..j])
    decreases j
  {
    if i < j {
      assert log[..j][..j - 1] == log[..j - 1];
      StreakGrows(log, i, j - 1);
    }
  }

  lemma DueAfterFailure(log: seq<Mark>, i: nat)
    requires i < |log| && log[i].Failed?
    ensures Streak(log[..i + 1]) == Streak(log[..i]) + 1
    ensures Due(log[..i + 1]) - log[i].at == Delay(Streak(log[..i + 1])) * CodexDelivery.SECOND
  {
    assert log[..i + 1][..i] == log[..i];
  }

  /** Between two clearings the delay after each failure is at least 2 seconds, at
      most 60, and never shorter than the one before. */
  lemma DelaysNeverShrink(es: seq<Event>, i: nat, j: nat)
    requires i <= j < |Log(FRESH, es)| && Log(FRESH, es)[i].Failed? && Log(FRESH, es)[j].Failed?
    requires forall k :: i <= k <= j ==> !Log(FRESH, es)[k].Cleared?
    ensures var log := Log(FRESH, es);
            2 * CodexDelivery.SECOND <= Due(log[..i + 1]) - log[i].at <= Due(log[..j + 1]) - log[j].at
              <= 60 * CodexDelivery.SECOND
  {
    var log := Log(FRESH, es);
    StreakGrows(log, i + 1, j + 1);
    DueAfterFailure(log, i);
    DueAfterFailure(log, j);
    DelayGrows(Streak(log[..i + 1]), Streak(log[..j + 1]));
  }

  predicate ClearedBetween(log: seq<Mark>, i: nat, j: nat)
    requires i <= j <= |log|
  {
    exists k :: i <= k < j && log[k].Cleared?
  }

  lemma {:induction false} StreakBetween(log: seq<Mark>, i: nat, j: nat)
    requires i <= j <= |log| && forall k :: i <= k < j ==> !log[k].Failed?
    ensures Streak(log[..j]) == if ClearedBetween(log, i, j) then 0 else Streak(log[..i])
    decreases j
  {
    if i < j {
      assert log[..j][..j - 1] == log[..j - 1];
      StreakBetween(log, i, j - 1);
      assert ClearedBetween(log, i, j) <==> ClearedBetween(log, i, j - 1) || log[j - 1].Cleared?;
    }
  }

  /** Exactly when the delay shrinks: from one failure to the next it does so if and
      only if the backoff was cleared between them and was above 2 seconds, and then
      it starts over at 2 seconds. */
  lemma ShrinksIffCleared(es: seq<Event>, i: nat, j: nat)
    requires i < j < |Log(FRESH, es)| && Log(FRESH, es)[i].Failed? && Log(FRESH, es)[j].Failed?
    requires forall k :: i < k < j ==> !Log(FRESH, es)[k].Failed?
    ensures var log := Log(FRESH, es);
            var before, after := Due(log[..i + 1]) - log[i].at, Due(log[..j + 1]) - log[j].at;
            (after < before <==> ClearedBetween(log, i + 1, j) && before > 2 * CodexDelivery.SECOND) &&
            (ClearedBetween(log, i + 1, j) ==> after == 2 * CodexDelivery.SECOND)
  {
    NextDelay(Log(FRESH, es), i, j);
  }

  lemma NextDelay(log: seq<Mark>, i: nat, j: nat)
    requires i < j < |log| && log[i].Failed? && log[j].Failed? && forall k :: i < k < j ==> !log[k].Failed?
    ensures var before, after := Due(log[..i + 1]) - log[i].at, Due(log[..j + 1]) - log[j].at;
            (after < before <==> ClearedBetween(log, i + 1, j) && before > 2 * CodexDelivery.SECOND) &&
            (ClearedBetween(log, i + 1, j) ==> after == 2 * CodexDelivery.SECOND)
  {
    DueAfterFailure(log, i);
    DueAfterFailure(log, j);
    StreakBetween(log, i + 1, j);
    var n := Streak(log[..i + 1]);
    DelayGrows(n, n + 1);
    Schedule(1);
  }
}
