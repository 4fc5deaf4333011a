/** The Codex app-server client: which mutating request a delivery may send, and
    how responses are matched to requests on one FIFO connection. */
module CodexTransport {
  import opened Prelude

  // ---- choosing the request -------------------------------------------

  datatype ThreadInfo = ThreadInfo(id: string, canAcceptDirectInput: bool, status: string)
  datatype Turn = Turn(id: string, status: string)

  /** `Refuse` stands for the ValueErrors, all raised before anything is sent. */
  datatype Plan = Refuse | Wait | Start | Steer(turn: string)

  function InProgress(turns: seq<Turn>): Option<string> {
    if turns == [] then None
    else if turns[0].status == "inProgress" then Some(turns[0].id)
    else InProgress(turns[1..])
  }

  function Decide(policy: string, threadId: string, info: ThreadInfo, turns: seq<Turn>): Plan {
    if policy != "idle" && policy != "immediate" then Refuse
    else if info.id != threadId || !info.canAcceptDirectInput then Refuse
    else if info.status == "active" then
      if policy == "idle" then Wait
      else match InProgress(turns)
        case None => Wait
        case Some(turn) => Steer(turn)
    else if info.status == "idle" then Start
    else Refuse
  }

  predicate ActiveTurn(turns: seq<Turn>, id: string) {
    exists i :: 0 <= i < |turns| && turns[i].status == "inProgress" && turns[i].id == id &&
                forall k :: 0 <= k < i ==> turns[k].status != "inProgress"
  }

  lemma {:induction false} InProgressIsFirst(turns: seq<Turn>)
    ensures InProgress(turns).Some? ==> ActiveTurn(turns, InProgress(turns).value)
    ensures InProgress(turns).None? <==> forall i :: 0 <= i < |turns| ==> turns[i].status != "inProgress"
  {
    if turns != [] && turns[0].status != "inProgress" {
      var rest := turns[1..];
      InProgressIsFirst(rest);
      assert forall i :: 0 <= i < |rest| ==> rest[i] == turns[i + 1];
      if InProgress(rest).Some? {
        var i :| 0 <= i < |rest| && rest[i].status == "inProgress" && rest[i].id == InProgress(rest).value &&
                 forall k :: 0 <= k < i ==> rest[k].status != "inProgress";
        assert turns[i + 1] == rest[i];
        assert forall k :: 0 <= k < i + 1 ==> turns[k].status != "inProgress";
      } else {
        assert forall i :: 0 < i < |turns| ==> turns[i] == rest[i - 1];
      }
    } else if turns != [] {
      assert turns[0].status == "inProgress";
    }
  }

  /** A new turn is started only on a thread the probe found idle and open to direct
      input; one it found active is steered only under the immediate policy and only
      with the id of its turn in progress, and is otherwise left waiting. */
  lemma NeverInterrupts(policy: string, threadId: string, info: ThreadInfo, turns: seq<Turn>)
    ensures var plan := Decide(policy, threadId, info, turns);
            (plan.Start? || plan.Steer? ==> info.id == threadId && info.canAcceptDirectInput) &&
            (plan.Start? ==> info.status == "idle") &&
            (plan.Steer? ==> info.status == "active" && policy == "immediate" && ActiveTurn(turns, plan.turn)) &&
            (plan.Wait? ==> info.status == "active")
  {
    InProgressIsFirst(turns);
  }

  /** Every plan, in terms of what the probe found. */
  lemma PlanIff(policy: string, threadId: string, info: ThreadInfo, turns: seq<Turn>, turn: string)
    ensures var plan := Decide(policy, threadId, info, turns);
            var known := policy == "idle" || policy == "immediate";
            var open := known && info.id == threadId && info.canAcceptDirectInput;
            var working := exists i :: 0 <= i < |turns| && turns[i].status == "inProgress";
            (plan.Start? <==> open && info.status == "idle") &&
            (plan == Steer(turn) <==>
               open && info.status == "active" && policy == "immediate" && ActiveTurn(turns, turn)) &&
            (plan.Wait? <==> open && info.status == "active" && (policy == "idle" || !working)) &&
            (plan.Refuse? <==> !open || (info.status != "active" && info.status != "idle"))
  {
    InProgressIsFirst(turns);
    assert "idle"[1] != "immediate"[1];
    if ActiveTurn(turns, turn) {
      ActiveTurnIsFirst(turns, turn);
    }
  }

  lemma {:induction false} ActiveTurnIsFirst(turns: seq<Turn>, id: string)
    requires ActiveTurn(turns, id)
    ensures InProgress(turns) == Some(id)
  {
    var i :| 0 <= i < |turns| && turns[i].status == "inProgress" && turns[i].id == id &&
             forall k :: 0 <= k < i ==> turns[k].status != "inProgress";
    if i > 0 {
      var rest := turns[1..];
      assert rest[i - 1] == turns[i] && forall k :: 0 <= k < i - 1 ==> rest[k] == turns[k + 1];
      ActiveTurnIsFirst(rest, id);
    }
  }

  // ---- matching responses to requests -----------------------------------

  /** What the server writes: something without one of our ids, or the response to
      an id. `about` is the request it answers, counted from the first request of
      the connection. */
  datatype Message = Notification | Response(id: nat, rejected: bool, about: nat)

  /** The server answers an id it received and did not answer yet, or notifies. */
  datatype ServerStep = Notify | Answer(id: nat, rejected: bool)

  datatype Outcome = Returned(about: nat) | Rejected(about: nat) | TimedOut

  /** The first answer to an id among these steps: was it an error? */
  function FirstIn(steps: seq<ServerStep>, id: nat): Option<bool> {
    if steps == [] then None
    else if steps[0].Answer? && steps[0].id == id then Some(steps[0].rejected)
    else FirstIn(steps[1..], id)
  }

  function FirstAnswer(rounds: seq<seq<ServerStep>>, id: nat): Option<bool> {
    if rounds == [] then None
    else if FirstIn(rounds[0], id).Some? then FirstIn(rounds[0], id)
    else FirstAnswer(rounds[1..], id)
  }

  /** What a request must come to: an error if the server answered it with an error,
      a result if it answered otherwise, a timeout if it did not answer. */
  predicate Fits(r: Outcome, answer: Option<bool>, about: nat) {
    match r
    case Returned(a) => answer == Some(false) && a == about
    case Rejected(a) => answer == Some(true) && a == about
    case TimedOut => answer == None
  }

  lemma {:induction false} FirstInLast(steps: seq<ServerStep>, step: ServerStep, id: nat)
    ensures FirstIn(steps + [step], id) ==
            if FirstIn(steps, id).Some? then FirstIn(steps, id)
            else if step.Answer? && step.id == id then Some(step.rejected) else None
  {
    if steps == [] {
      assert [step][1..] == [];
    } else {
      assert (steps + [step])[1..] == steps[1..] + [step];
      FirstInLast(steps[1..], step, id);
    }
  }

  class AppServer {
    var sequence: nat
    var wire: seq<Message>         // written by the server, not yet received here
    // the far side
    var received: map<nat, nat>    // id to request number
    var answered: set<nat>
    var asked: nat
    ghost var verdicts: map<nat, bool>   // which answers were errors

    ghost predicate Valid()
      reads this
    {
      (forall id :: id in received ==> 1 <= id <= sequence && received[id] < asked) &&
      answered <= received.Keys && answered == verdicts.Keys &&
      (forall i :: 0 <= i < |wire| && wire[i].Response? ==>
         wire[i].id in answered && wire[i].about == received[wire[i].id] && wire[i].rejected == verdicts[wire[i].id])
    }

    ghost predicate OnWire(id: nat)
      reads this
    {
      exists i :: 0 <= i < |wire| && wire[i].Response? && wire[i].id == id
    }

    constructor ()
      ensures Valid() && asked == 0 && sequence == 0 && wire == []
    {
      sequence, wire, received, answered, asked := 0, [], map[], {}, 0;
      verdicts := map[];
    }

    method ServeOne(step: ServerStep)
      requires Valid()
      modifies this`wire, this`answered, this`verdicts
      ensures Valid()
      ensures forall id :: old(OnWire(id)) || (id in answered && id !in old(answered)) ==> OnWire(id)
      ensures verdicts == if step.Answer? && step.id in received && step.id !in old(answered)
                          then old(verdicts)[step.id := step.rejected] else old(verdicts)
    {
      ghost var before := wire;
      match step {
        case Notify => wire := wire + [Notification];
        case Answer(id, rejected) =>
          if id in received && id !in answered {
            wire := wire + [Response(id, rejected, received[id])];
            answered := answered + {id};
            verdicts := verdicts[id := rejected];
            assert wire[|before|].id == id;
          }
      }
      forall id | old(OnWire(id)) ensures OnWire(id) {
        var k :| 0 <= k < |before| && before[k].Response? && before[k].id == id;
        assert wire[k] == before[k];
      }
    }

    /** The server answers what it received and did not answer before, each id once. */
    method Serve(steps: seq<ServerStep>)
      requires Valid()
      modifies this`wire, this`answered, this`verdicts
      ensures Valid()
      ensures forall id :: id in answered && id !in old(answered) ==> OnWire(id)
      ensures forall id :: id in old(verdicts) ==> id in verdicts && verdicts[id] == old(verdicts)[id]
      ensures forall id :: id in received && id !in old(answered) ==>
                if id in verdicts then FirstIn(steps, id) == Some(verdicts[id]) else FirstIn(steps, id) == None
    {
      for i := 0 to |steps|
        invariant Valid()
        invariant forall id :: id in answered && id !in old(answered) ==> OnWire(id)
        invariant forall id :: id in old(verdicts) ==> id in verdicts && verdicts[id] == old(verdicts)[id]
        invariant forall id :: id in received && id !in old(answered) ==>
                    if id in verdicts then FirstIn(steps[..i], id) == Some(verdicts[id])
                    else FirstIn(steps[..i], id) == None
      {
        assert steps[..i + 1] == steps[..i] + [steps[i]];
        forall id: nat {
          FirstInLast(steps[..i], steps[i], id);
        }
        ServeOne(steps[i]);
      }
      assert steps[..|steps|] == steps;
    }

    /** Messages are consumed until one carries the id. */
    method Receive(id: nat) returns (r: Outcome)
      requires Valid() && id in received && (id in answered ==> OnWire(id))
      modifies this`wire
      ensures Valid()
      ensures id in answered ==> Fits(r, Some(verdicts[id]), received[id])
      ensures id !in answered ==> r.TimedOut?
    {
      while wire != []
        invariant Valid() && (id in answered ==> OnWire(id))
        decreases |wire|
      {
        ghost var before := wire;
        var message := wire[0];
        wire := wire[1..];
        if message.Response? && message.id == id {
          return if message.rejected then Rejected(message.about) else Returned(message.about);
        }
        assert forall k :: 0 < k < |before| ==> wire[k - 1] == before[k];
      }
      r := TimedOut;
    }

    /** `request`: the next id, one message out, then messages are consumed until
        one carries that id or the time is up (`rounds` are the arrivals until
        then). What is raised or returned is the server's answer to this very
        request, an error exactly if the server answered with an error, and only
        an unanswered request times out. */
    method Request(rounds: seq<seq<ServerStep>>) returns (r: Outcome)
      requires Valid()
      modifies this
      ensures Valid() && asked == old(asked) + 1 && sequence == old(sequence) + 1
      ensures received == old(received)[sequence := old(asked)]
      ensures Fits(r, FirstAnswer(rounds, sequence), old(asked))
      ensures r.TimedOut? <==> sequence !in answered
    {
      sequence := sequence + 1;
      var requestId := sequence;
      received := received[requestId := asked];
      asked := asked + 1;
      for i := 0 to |rounds|
        invariant Valid() && asked == old(asked) + 1 && sequence == old(sequence) + 1
        invariant received == old(received)[requestId := old(asked)]
        invariant requestId !in answered && FirstAnswer(rounds[i..], requestId) == FirstAnswer(rounds, requestId)
      {
        assert rounds[i..][0] == rounds[i] && rounds[i..][1..] == rounds[i + 1..];
        Serve(rounds[i]);
        r := Receive(requestId);
        if !r.TimedOut? {
          return;
        }
      }
      r := TimedOut;
    }

    /** Over any sequence of requests, timeouts included: the result of request k is
        the server's answer to request k, never a late answer to an earlier one, and
        an error exactly if that answer was one. */
    method Session(requests: seq<seq<seq<ServerStep>>>) returns (results: seq<Outcome>)
      requires Valid()
      modifies this
      ensures Valid() && |results| == |requests|
      ensures forall k :: 0 <= k < |results| ==>
                Fits(results[k], FirstAnswer(requests[k], old(sequence) + 1 + k), old(asked) + k)
    {
      results := [];
      for k := 0 to |requests|
        invariant Valid() && |results| == k && asked == old(asked) + k && sequence == old(sequence) + k
        invariant forall j :: 0 <= j < |results| ==>
                    Fits(results[j], FirstAnswer(requests[j], old(sequence) + 1 + j), old(asked) + j)
      {
        var r := Request(requests[k]);
        results := results + [r];
      }
    }
  }
}
