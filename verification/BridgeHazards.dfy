/** What a request put back in the queue can lead to, and how one comes to be put back. */
module BridgeHazards {
  import opened NewestWindow
  import opened Options
  import opened BridgeClient
  import opened BridgeProtocol

  // ---- The condition is exact ----

  lemma RunOn(w: World, s: Step, rest: seq<Step>)
    requires Enabled(w, s) && IsRun(Apply(w, s), rest)
    ensures IsRun(w, [s] + rest) && After(w, [s] + rest) == After(Apply(w, s), rest)
  {
    assert ([s] + rest)[1..] == rest;
  }

  /** The poll the client awaits may still be answered with requests. */
  predicate InFlight(w: World) {
    w.current.Some? && w.current.value < |w.polls| && !w.polls[w.current.value].phase.Answered?
  }

  /** The client may yet be handed something: it will poll again, or already awaits a poll. A
      client that stops does not give up the poll it awaits. */
  predicate MayBeHanded(w: World) {
    w.client.active || InFlight(w)
  }

  /** The run starts some request a second time. */
  predicate StartsTwice(w: World, steps: seq<Step>) {
    IsRun(w, steps) && !AtMostOnce(After(w, steps))
  }

  lemma StartsTwiceBefore(w: World, s: Step, rest: seq<Step>)
    requires Enabled(w, s) && StartsTwice(Apply(w, s), rest)
    ensures StartsTwice(w, [s] + rest)
  {
    RunOn(w, s, rest);
  }

  /** The poll awaited, once it waits on the server, may claim a started request again. */
  lemma WaitingPollRunsAgain(w: World, id: Id) returns (steps: seq<Step>)
    requires w.current.Some? && w.current.value < |w.polls| && w.polls[w.current.value].phase.Waiting?
    requires id in w.executed && id in w.requests && w.requests[id].Pending?
    ensures StartsTwice(w, steps)
  {
    var n := w.current.value;
    var claimed := Apply(w, Claim(n, [id]));
    var twice := Apply(claimed, ReceivePoll);
    assert twice.executed == w.executed + [id];
    var i :| 0 <= i < |w.executed| && w.executed[i] == id;
    assert twice.executed[i] == twice.executed[|w.executed|];
    StartsTwiceBefore(claimed, ReceivePoll, []);
    StartsTwiceBefore(w, Claim(n, [id]), [ReceivePoll] + []);
    steps := [Claim(n, [id])] + ([ReceivePoll] + []);
  }

  lemma AwaitedPollRunsAgain(w: World, id: Id) returns (steps: seq<Step>)
    requires InFlight(w) && id in w.executed && id in w.requests && w.requests[id].Pending?
    ensures StartsTwice(w, steps)
  {
    var n := w.current.value;
    if w.polls[n].phase.Sent? {
      steps := WaitingPollRunsAgain(Apply(w, Release(n)), id);
      StartsTwiceBefore(w, Release(n), steps);
      steps := [Release(n)] + steps;
    } else {
      steps := WaitingPollRunsAgain(w, id);
    }
  }

  /** A started request back in the queue can be claimed and started again. */
  lemma QueuedAgainRunsAgain(w: World, id: Id) returns (steps: seq<Step>)
    requires w.client.active && w.current.None? && id in w.executed
    requires id in w.requests && w.requests[id].Pending?
    ensures StartsTwice(w, steps)
  {
    steps := AwaitedPollRunsAgain(Apply(w, SendPoll), id);
    StartsTwiceBefore(w, SendPoll, steps);
    steps := [SendPoll] + steps;
  }

  /** After any hazard the run can go on to start some request a second time, even when the
      client has stopped but still awaits a poll. */
  lemma HazardAllowsASecondExecution(w: World, s: Step) returns (steps: seq<Step>)
    requires Inv(w) && Enabled(w, s) && Hazard(w, s) && MayBeHanded(w)
    ensures StartsTwice(Apply(w, s), steps)
  {
    var id :| id in Requeued(w, s) && (id in w.executed || id in Incoming(w));
    var next := Apply(w, s);
    assert Incoming(next) == Incoming(w);
    if InFlight(w) {
      steps := AwaitedPollRunsAgain(next, id);
    } else if next.current.Some? {
      HoldKeepsAndAdds(next.client, Incoming(w));
      steps := QueuedAgainRunsAgain(Apply(next, ReceivePoll), id);
      StartsTwiceBefore(next, ReceivePoll, steps);
      steps := [ReceivePoll] + steps;
    } else {
      steps := QueuedAgainRunsAgain(next, id);
    }
  }

  /** A stopped client with at most an answered poll to come, whose requests are new. */
  predicate Spent(w: World) {
    && !MayBeHanded(w) && (w.current.Some? ==> w.current.value < |w.polls|)
    && AtMostOnce(w) && NoRepeats(Incoming(w)) && Disjoint(w.executed, Incoming(w))
  }

  lemma SpentStaysSpent(w: World, s: Step)
    requires Spent(w) && Enabled(w, s)
    ensures Spent(Apply(w, s))
  {
    var next := Apply(w, s);
    match s
    case ReceivePoll =>
      HoldKeepsAndAdds(w.client, Incoming(w));
      ConcatNoRepeats(w.executed, Incoming(w));
    case LosePoll(answer, reopened) =>
    case Release(_) => assert Incoming(next) == Incoming(w);
    case Claim(_, _) => assert Incoming(next) == Incoming(w);
    case _ =>
  }

  /** Whatever is put back in the queue, such a client starts nothing twice. */
  lemma {:induction false} SpentStartsNothingTwice(w: World, steps: seq<Step>)
    requires Spent(w) && IsRun(w, steps)
    ensures AtMostOnce(After(w, steps))
    decreases |steps|
  {
    if steps != [] {
      SpentStaysSpent(w, steps[0]);
      SpentStartsNothingTwice(Apply(w, steps[0]), steps[1..]);
    }
  }

  /** While the client may yet be handed something, a hazard lets some run start a request
      twice; once it may not, no run does. */
  lemma AHazardMattersExactly(w: World, s: Step) returns (steps: seq<Step>)
    requires Inv(w) && Enabled(w, s) && Hazard(w, s)
    ensures MayBeHanded(w) ==> StartsTwice(Apply(w, s), steps)
    ensures !MayBeHanded(w) ==> forall more :: !StartsTwice(Apply(w, s), more)
  {
    if MayBeHanded(w) {
      steps := HazardAllowsASecondExecution(w, s);
    } else {
      steps := [];
      SpentStaysSpent(w, s);
      forall more ensures !StartsTwice(Apply(w, s), more) {
        if IsRun(Apply(w, s), more) {
          SpentStartsNothingTwice(Apply(w, s), more);
        }
      }
    }
  }

  // ---- Why polls must not be processed late ----

  /** A hazard-free run before which a hazard-free step is taken. */
  lemma RunOnSafely(w: World, s: Step, rest: seq<Step>)
    requires Enabled(w, s) && !Hazard(w, s) && IsRun(Apply(w, s), rest) && NoHazard(Apply(w, s), rest)
    ensures IsRun(w, [s] + rest) && NoHazard(w, [s] + rest)
    ensures After(w, [s] + rest) == After(Apply(w, s), rest)
  {
    RunOn(w, s, rest);
    assert ([s] + rest)[1..] == rest;
  }

  /** The request in flight when the late poll below arrives. */
  const Running := World(
    Client(true, ["r"], MinBackoffMs), None, ["r"], map[0 := Executing], map["r" := Claimed], false, false,
    [Poll([], Sent), Poll([], Answered(["r"]))])

  /** The last steps: a poll hands "r" out, and the client starts it. */
  lemma HandOut(w: World)
    requires w == World(Client(true, [], 2 * MinBackoffMs), None, [], map[], map["r" := Pending], false, false,
                        [Poll([], Sent)])
    ensures var steps := [SendPoll] + ([Release(1)] + ([Claim(1, ["r"])] + ([ReceivePoll] + [])));
            IsRun(w, steps) && NoHazard(w, steps) && After(w, steps) == Running
  {
    var w1 := Apply(w, SendPoll);
    var w2 := Apply(w1, Release(1));
    assert Requeued(w1, Release(1)) == {};
    assert w2.requests == map["r" := Pending];
    assert w2.polls == [Poll([], Sent), Poll([], Waiting)];
    var w3 := Apply(w2, Claim(1, ["r"]));
    assert ToSet(["r"]) == {"r"};
    assert w3.requests == map["r" := Claimed];
    assert w3.polls == [Poll([], Sent), Poll([], Answered(["r"]))];
    var w4 := Apply(w3, ReceivePoll);
    assert w4.client == Client(true, ["r"], MinBackoffMs);
    assert NewJobs(map[], 0, 1) == map[0 := Executing];
    assert w4 == Running;
    RunOnSafely(w3, ReceivePoll, []);
    RunOnSafely(w2, Claim(1, ["r"]), [ReceivePoll] + []);
    RunOnSafely(w1, Release(1), [Claim(1, ["r"])] + ([ReceivePoll] + []));
    RunOnSafely(w, SendPoll, [Release(1)] + ([Claim(1, ["r"])] + ([ReceivePoll] + [])));
  }

  /** A poll the client gave up on, reaching the server after a newer poll has handed out a
      request, puts that running request back in the queue: without any hazard so far, the
      late poll's arrival is one. */
  lemma LatePollIsAHazard() returns (steps: seq<Step>)
    ensures IsRun(Start, steps) && NoHazard(Start, steps) && After(Start, steps) == Running
    ensures Running.client.active && Enabled(Running, Release(0)) && Hazard(Running, Release(0))
  {
    var w1 := Apply(Start, SendPoll);
    var w2 := Apply(w1, LosePoll(NoAnswer, NoAnswer));
    var w3 := Apply(w2, Enqueue("r"));
    assert w3.polls == [Poll([], Sent)];
    HandOut(w3);
    var rest := [SendPoll] + ([Release(1)] + ([Claim(1, ["r"])] + ([ReceivePoll] + [])));
    RunOnSafely(w2, Enqueue("r"), rest);
    RunOnSafely(w1, LosePoll(NoAnswer, NoAnswer), [Enqueue("r")] + rest);
    RunOnSafely(Start, SendPoll, [LosePoll(NoAnswer, NoAnswer)] + ([Enqueue("r")] + rest));
    steps := [SendPoll] + ([LosePoll(NoAnswer, NoAnswer)] + ([Enqueue("r")] + rest));
    assert "r" in Requeued(Running, Release(0)) && "r" in Running.executed;
  }

  /** The same world with a newer poll awaited by a client that has stopped. */
  const Stopped := Running.(client := Client(false, ["r"], MinBackoffMs), current := Some(2),
                            polls := Running.polls + [Poll(["r"], Waiting)])

  /** The late poll matters there too. */
  lemma AStoppedClientCanStartTwice() returns (steps: seq<Step>)
    ensures !Stopped.client.active && Enabled(Stopped, Release(0)) && Hazard(Stopped, Release(0))
    ensures StartsTwice(Apply(Stopped, Release(0)), steps)
  {
    assert "r" in Requeued(Stopped, Release(0)) && "r" in Stopped.executed;
    steps := HazardAllowsASecondExecution(Stopped, Release(0));
  }

  lemma StoppedIsReached()
    ensures var steps := [SendPoll] + ([Release(2)] + ([LoseCredential] + []));
            IsRun(Running, steps) && NoHazard(Running, steps) && After(Running, steps) == Stopped
  {
    var w1 := Apply(Running, SendPoll);
    assert w1.polls[2] == Poll(["r"], Sent);
    assert Requeued(w1, Release(2)) == {};
    var w2 := Apply(w1, Release(2));
    assert w2.polls == Stopped.polls && w2.requests == Stopped.requests;
    RunOnSafely(w2, LoseCredential, []);
    RunOnSafely(w1, Release(2), [LoseCredential] + []);
    RunOnSafely(Running, SendPoll, [Release(2)] + ([LoseCredential] + []));
  }
}
