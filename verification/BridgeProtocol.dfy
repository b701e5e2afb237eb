/** The bridge as a whole: client, server and network as interleaved steps. The server keeps
    each request `pending`, `claimed` or settled; a poll first re-queues what it does not
    name as held, then claims pending requests; responses and replies may be lost or late. */
module BridgeProtocol {
  import opened NewestWindow
  import opened Options
  import opened BridgeClient

  /** A finished request, and one whose row is gone, are both settled: neither is offered again. */
  datatype RequestStatus = Pending | Claimed | Settled

  datatype Phase = Sent | Waiting | Answered(ids: seq<Id>)

  /** A poll in flight, with the held ids it names. */
  datatype Poll = Poll(named: seq<Id>, phase: Phase)

  /** A command the client started: running, or at its n-th try to post the result. */
  datatype Job = Executing | Replying(attempt: nat)

  /** `executed` lists every command start in order; `jobs` holds the unfinished ones by their
      place in it. `current` is the poll the client awaits; older polls may still reach the
      server. A bridge is `stale` when its heartbeats stopped reaching the server. */
  datatype World = World(
    client: Client, current: Option<nat>, executed: seq<Id>, jobs: map<nat, Job>,
    requests: map<Id, RequestStatus>, closed: bool, stale: bool, polls: seq<Poll>)

  const Start := World(Client(true, [], MinBackoffMs), None, [], map[], map[], false, false, [])

  datatype Step =
    | Enqueue(id: Id)                  // the agent asks for something new
    | SendPoll
    | Release(n: nat)                  // poll n reaches the server and re-queues what it does not name
    | Claim(n: nat, ids: seq<Id>)      // poll n takes pending requests, or none when its wait is over
    | ReceivePoll                      // the current poll's response arrives
    | LosePoll(answer: Reply, reopened: Reply)   // the current poll times out or fails
    | FinishCommand(k: nat)
    | Settle(id: Id)                   // a reply reaches the server, or the agent stops waiting
    | ReplyReturns(k: nat, answer: Reply)
    | CloseBridge                      // deleted, or pruned when its heartbeats stopped
    | Register                         // the bridge is reopened in place, once closed or stale
    | FallStale                        // no heartbeat for too long
    | Beat                             // a heartbeat or a poll reaches an open bridge
    | LoseCredential                   // a heartbeat or a reopen is rejected for good

  predicate Enabled(w: World, s: Step) {
    match s
    case Enqueue(id) => id !in w.requests && !w.closed
    case SendPoll => w.client.active && w.current.None?
    case Release(n) => n < |w.polls| && w.polls[n].phase.Sent?
    case Claim(n, ids) =>
      && n < |w.polls| && w.polls[n].phase.Waiting? && |ids| <= PollLimit && NoRepeats(ids)
      && forall i | 0 <= i < |ids| :: ids[i] in w.requests && w.requests[ids[i]].Pending?
    case ReceivePoll => w.current.Some? && w.current.value < |w.polls| && w.polls[w.current.value].phase.Answered?
    case LosePoll(answer, _) => w.current.Some? && !answer.Fine?
    case FinishCommand(k) => k in w.jobs && w.jobs[k].Executing?
    case Settle(id) => id in w.requests
    case ReplyReturns(k, answer) =>
      && k in w.jobs && w.jobs[k].Replying? && k < |w.executed|
      && (answer.Fine? || answer == Status(404) || answer == Status(409) ==>
            w.executed[k] in w.requests && w.requests[w.executed[k]].Settled?)
    case CloseBridge => true
    case Register => w.closed || w.stale
    case FallStale => true
    case Beat => !w.closed
    case LoseCredential => true
  }

  function ToSet(ids: seq<Id>): set<Id> {
    set id | id in ids
  }

  function SetStatus(requests: map<Id, RequestStatus>, ids: set<Id>, status: RequestStatus): map<Id, RequestStatus> {
    map id | id in requests :: if id in ids then status else requests[id]
  }

  /** The claimed requests a step puts back in the queue. */
  function Requeued(w: World, s: Step): set<Id>
    requires Enabled(w, s)
  {
    match s
    case Release(n) => set id | id in w.requests && w.requests[id].Claimed? && id !in w.polls[n].named
    case Register => set id | id in w.requests && w.requests[id].Claimed?
    case _ => {}
  }

  function NewJobs(jobs: map<nat, Job>, from: nat, count: nat): map<nat, Job> {
    if count == 0 then jobs else NewJobs(jobs, from, count - 1)[from + count - 1 := Executing]
  }

  function Apply(w: World, s: Step): World
    requires Enabled(w, s)
  {
    match s
    case Enqueue(id) => w.(requests := w.requests[id := Pending])
    case SendPoll =>
      w.(current := Some(|w.polls|), polls := w.polls + [Poll(Window(w.client.held), Sent)])
    case Release(n) =>
      w.(requests := SetStatus(w.requests, Requeued(w, s), Pending),
         polls := w.polls[n := w.polls[n].(phase := Waiting)])
    case Claim(n, ids) =>
      w.(requests := SetStatus(w.requests, ToSet(ids), Claimed),
         polls := w.polls[n := w.polls[n].(phase := Answered(ids))])
    case ReceivePoll =>
      var ids := w.polls[w.current.value].phase.ids;
      w.(client := Hold(w.client, ids), current := None, executed := w.executed + ids,
         jobs := NewJobs(w.jobs, |w.executed|, |ids|))
    case LosePoll(answer, reopened) => w.(client := PollFailed(w.client, answer, reopened).0, current := None)
    case FinishCommand(k) => w.(jobs := w.jobs[k := Replying(1)])
    case Settle(id) => w.(requests := w.requests[id := Settled])
    case ReplyReturns(k, answer) =>
      var (client, reaction) := Replied(w.client, w.executed[k], w.jobs[k].attempt, answer);
      w.(client := client,
         jobs := if reaction.Again? then w.jobs[k := Replying(w.jobs[k].attempt + 1)] else w.jobs - {k})
    case CloseBridge => w.(closed := true, requests := SetStatus(w.requests, w.requests.Keys, Settled))
    case Register => w.(closed := false, stale := false, requests := SetStatus(w.requests, Requeued(w, s), Pending))
    case FallStale => w.(stale := true)
    case Beat => w.(stale := false)
    case LoseCredential => w.(client := w.client.(active := false))
  }

  // ---- At most once ----

  predicate AtMostOnce(w: World) {
    NoRepeats(w.executed)
  }

  /** The ids of a response the client still awaits. */
  function Incoming(w: World): seq<Id> {
    if w.current.Some? && w.current.value < |w.polls| && w.polls[w.current.value].phase.Answered?
    then w.polls[w.current.value].phase.ids else []
  }

  /** A step re-queues a request the client has started, or is about to be handed. */
  predicate Hazard(w: World, s: Step)
    requires Enabled(w, s)
  {
    exists id | id in Requeued(w, s) :: id in w.executed || id in Incoming(w)
  }

  predicate Unsettled(w: World, id: Id) {
    id in w.requests && !w.requests[id].Settled?
  }

  predicate NotQueued(w: World, ids: seq<Id>) {
    forall i | 0 <= i < |ids| :: ids[i] in w.requests && !w.requests[ids[i]].Pending?
  }

  predicate Disjoint(a: seq<Id>, b: seq<Id>) {
    forall i, j | 0 <= i < |a| && 0 <= j < |b| :: a[i] != b[j]
  }

  /** Nothing started or about to start is in the queue, and nothing is about to start twice. */
  predicate Inv(w: World) {
    && (w.current.Some? ==> w.current.value < |w.polls|)
    && AtMostOnce(w) && NotQueued(w, w.executed)
    && NoRepeats(Incoming(w)) && NotQueued(w, Incoming(w)) && Disjoint(w.executed, Incoming(w))
  }

  lemma ConcatNoRepeats(a: seq<Id>, b: seq<Id>)
    requires NoRepeats(a) && NoRepeats(b) && Disjoint(a, b)
    ensures NoRepeats(a + b)
  {
  }

  lemma ClaimKeepsInv(w: World, n: nat, ids: seq<Id>)
    requires Inv(w) && Enabled(w, Claim(n, ids))
    ensures Inv(Apply(w, Claim(n, ids)))
  {
    var next := Apply(w, Claim(n, ids));
    if w.current == Some(n) {
      assert Incoming(next) == ids;
      forall i, j | 0 <= i < |w.executed| && 0 <= j < |ids| ensures w.executed[i] != ids[j] {
        assert w.requests[ids[j]].Pending?;
      }
      assert forall j | 0 <= j < |ids| :: ids[j] in ids;
    } else {
      assert Incoming(next) == Incoming(w);
    }
  }

  lemma RequeueKeepsInv(w: World, s: Step)
    requires Inv(w) && Enabled(w, s) && (s.Release? || s.Register?) && !Hazard(w, s)
    ensures Inv(Apply(w, s))
  {
    var next := Apply(w, s);
    assert Incoming(next) == Incoming(w);
    forall i | 0 <= i < |w.executed| ensures w.executed[i] !in Requeued(w, s) {
      assert w.executed[i] in w.executed;
    }
    forall i | 0 <= i < |Incoming(w)| ensures Incoming(w)[i] !in Requeued(w, s) {
      assert Incoming(w)[i] in Incoming(w);
    }
  }

  lemma ReceiveKeepsInv(w: World)
    requires Inv(w) && Enabled(w, ReceivePoll)
    ensures Inv(Apply(w, ReceivePoll))
  {
    ConcatNoRepeats(w.executed, Incoming(w));
  }

  /** The other steps start nothing, and put nothing back in the queue. */
  lemma OtherStepKeepsInv(w: World, s: Step)
    requires Inv(w) && Enabled(w, s) && !(s.Release? || s.Register? || s.Claim? || s.ReceivePoll?)
    ensures Inv(Apply(w, s))
  {
    var next := Apply(w, s);
    assert next.executed == w.executed && (Incoming(next) == Incoming(w) || Incoming(next) == []);
    assert forall id | id in w.requests && !w.requests[id].Pending? ::
        id in next.requests && !next.requests[id].Pending?;
  }

  /** Every step that is no hazard keeps the invariant. */
  lemma StepKeepsInv(w: World, s: Step)
    requires Inv(w) && Enabled(w, s) && !Hazard(w, s)
    ensures Inv(Apply(w, s))
  {
    match s
    case Release(n) => RequeueKeepsInv(w, s);
    case Register => RequeueKeepsInv(w, s);
    case Claim(n, ids) => ClaimKeepsInv(w, n, ids);
    case ReceivePoll => ReceiveKeepsInv(w);
    case _ => OtherStepKeepsInv(w, s);
  }

  /** A run: each step enabled where it is taken. */
  predicate IsRun(w: World, steps: seq<Step>)
    decreases |steps|
  {
    steps == [] || (Enabled(w, steps[0]) && IsRun(Apply(w, steps[0]), steps[1..]))
  }

  function After(w: World, steps: seq<Step>): World
    requires IsRun(w, steps)
    decreases |steps|
  {
    if steps == [] then w else After(Apply(w, steps[0]), steps[1..])
  }

  predicate NoHazard(w: World, steps: seq<Step>)
    requires IsRun(w, steps)
    decreases |steps|
  {
    steps == [] || (!Hazard(w, steps[0]) && NoHazard(Apply(w, steps[0]), steps[1..]))
  }

  lemma {:induction false} RunKeepsInv(w: World, steps: seq<Step>)
    requires Inv(w) && IsRun(w, steps) && NoHazard(w, steps)
    ensures Inv(After(w, steps))
    decreases |steps|
  {
    if steps != [] {
      StepKeepsInv(w, steps[0]);
      RunKeepsInv(Apply(w, steps[0]), steps[1..]);
    }
  }

  /** However polls, commands, replies and losses interleave, as long as no request in the
      client's hands is re-queued each is executed at most once. */
  lemma RunsWithoutHazardExecuteAtMostOnce(steps: seq<Step>)
    requires IsRun(Start, steps) && NoHazard(Start, steps)
    ensures AtMostOnce(After(Start, steps))
  {
    RunKeepsInv(Start, steps);
  }

  // ---- What keeps hazards away ----

  /** Every unsettled command the client started is in `held`, and named by the poll it awaits;
      a closed bridge has nothing unsettled. */
  predicate HeldInv(w: World) {
    && Inv(w)
    && (forall i | 0 <= i < |w.executed| && Unsettled(w, w.executed[i]) :: w.executed[i] in w.client.held)
    && (w.current.Some? ==>
          forall i | 0 <= i < |w.executed| && Unsettled(w, w.executed[i]) ::
            w.executed[i] in w.polls[w.current.value].named)
    && (w.closed ==> forall id | id in w.requests :: w.requests[id].Settled?)
  }

  /** The held ids a poll leaves out are all settled. */
  predicate WindowCovers(w: World) {
    forall i | 0 <= i < |w.executed| && Unsettled(w, w.executed[i]) :: w.executed[i] in Window(w.client.held)
  }

  /** A poll is sent while its window covers what is unsettled, is processed before the client
      gives up on it, and the bridge is reopened only once the server has closed it. */
  predicate Orderly(w: World, s: Step) {
    match s
    case SendPoll => WindowCovers(w)
    case Release(n) => w.current == Some(n)
    case Register => w.closed
    case _ => true
  }

  lemma OrderlyIsNoHazard(w: World, s: Step)
    requires HeldInv(w) && Enabled(w, s) && Orderly(w, s)
    ensures !Hazard(w, s)
  {
    if s.Release? {
      assert Incoming(w) == [];
      forall i | 0 <= i < |w.executed| ensures w.executed[i] !in Requeued(w, s) {
        assert Unsettled(w, w.executed[i]) ==> w.executed[i] in w.polls[s.n].named;
      }
    }
  }

  lemma ReplyKeepsHeld(w: World, k: nat, answer: Reply)
    requires HeldInv(w) && Enabled(w, ReplyReturns(k, answer))
    ensures HeldInv(Apply(w, ReplyReturns(k, answer)))
  {
    var next := Apply(w, ReplyReturns(k, answer));
    assert Incoming(next) == Incoming(w);
  }

  lemma ReceiveKeepsHeld(w: World)
    requires HeldInv(w) && Enabled(w, ReceivePoll)
    ensures HeldInv(Apply(w, ReceivePoll))
  {
    var next := Apply(w, ReceivePoll);
    StepKeepsInv(w, ReceivePoll);
    HoldKeepsAndAdds(w.client, Incoming(w));
    forall i | 0 <= i < |next.executed| && Unsettled(next, next.executed[i])
      ensures next.executed[i] in next.client.held
    {
      if i >= |w.executed| {
        assert next.executed[i] == Incoming(w)[i - |w.executed|];
      }
    }
  }

  /** The other orderly steps leave what the client holds and names, and unsettle nothing it
      started. */
  lemma ServerStepKeepsHeld(w: World, s: Step)
    requires HeldInv(w) && Enabled(w, s) && Orderly(w, s) && Inv(Apply(w, s))
    requires !(s.ReplyReturns? || s.ReceivePoll? || s.SendPoll? || s.LosePoll?)
    ensures HeldInv(Apply(w, s))
  {
    var next := Apply(w, s);
    assert next.executed == w.executed && next.client.held == w.client.held && next.current == w.current;
    assert w.current.Some? ==> next.polls[w.current.value].named == w.polls[w.current.value].named;
    forall i | 0 <= i < |w.executed| && Unsettled(next, w.executed[i]) ensures Unsettled(w, w.executed[i]) {
      assert w.executed[i] in w.requests;
    }
  }

  lemma OrderlyStepKeepsHeld(w: World, s: Step)
    requires HeldInv(w) && Enabled(w, s) && Orderly(w, s)
    ensures HeldInv(Apply(w, s))
  {
    OrderlyIsNoHazard(w, s);
    StepKeepsInv(w, s);
    match s
    case ReplyReturns(k, answer) => ReplyKeepsHeld(w, k, answer);
    case ReceivePoll => ReceiveKeepsHeld(w);
    case SendPoll =>
    case LosePoll(answer, reopened) =>
    case _ => ServerStepKeepsHeld(w, s);
  }

  predicate AllOrderly(w: World, steps: seq<Step>)
    requires IsRun(w, steps)
    decreases |steps|
  {
    steps == [] || (Orderly(w, steps[0]) && AllOrderly(Apply(w, steps[0]), steps[1..]))
  }

  lemma {:induction false} OrderlyRunKeepsHeld(w: World, steps: seq<Step>)
    requires HeldInv(w) && IsRun(w, steps) && AllOrderly(w, steps)
    ensures HeldInv(After(w, steps)) && NoHazard(w, steps)
    decreases |steps|
  {
    if steps != [] {
      OrderlyIsNoHazard(w, steps[0]);
      OrderlyStepKeepsHeld(w, steps[0]);
      OrderlyRunKeepsHeld(Apply(w, steps[0]), steps[1..]);
    }
  }

  /** In every orderly run each request is executed at most once, and every executed id is
      held by the client or settled on the server. */
  lemma OrderlyRunsExecuteAtMostOnce(steps: seq<Step>)
    requires IsRun(Start, steps) && AllOrderly(Start, steps)
    ensures var w := After(Start, steps);
            && AtMostOnce(w)
            && forall i | 0 <= i < |w.executed| :: Unsettled(w, w.executed[i]) ==> w.executed[i] in w.client.held
  {
    OrderlyRunKeepsHeld(Start, steps);
  }

  /** For the poll about to be sent the window is the whole question: its arrival is a hazard
      exactly when it leaves out a started request that is not settled. */
  lemma WindowDecidesTheNextPoll(w: World)
    requires HeldInv(w) && Enabled(w, SendPoll)
    ensures var sent := Apply(w, SendPoll);
            Enabled(sent, Release(|w.polls|)) && (Hazard(sent, Release(|w.polls|)) <==> !WindowCovers(w))
  {
    var sent, n := Apply(w, SendPoll), |w.polls|;
    var requeued := Requeued(sent, Release(n));
    if !WindowCovers(w) {
      var i :| 0 <= i < |w.executed| && Unsettled(w, w.executed[i]) && w.executed[i] !in Window(w.client.held);
      assert w.executed[i] in requeued;
    }
    if Hazard(sent, Release(n)) {
      assert Incoming(sent) == [];
      var id :| id in requeued && id in sent.executed;
      var i :| 0 <= i < |w.executed| && w.executed[i] == id;
      assert Unsettled(w, w.executed[i]) && w.executed[i] !in Window(w.client.held);
    }
  }

  /** With at most a thousand ids held, every poll names them all. */
  lemma SmallHeldIsCovered(w: World)
    requires HeldInv(w) && |w.client.held| <= MaxHeldSent
    ensures WindowCovers(w)
  {
  }

  // ---- Jobs and reopening ----

  /** Every unfinished job is a command that was started, at one of three tries once it is done. */
  predicate JobsInv(w: World) {
    forall k | k in w.jobs :: k < |w.executed| && (w.jobs[k].Replying? ==> 1 <= w.jobs[k].attempt <= 3)
  }

  lemma {:induction false} NewJobsRun(jobs: map<nat, Job>, from: nat, count: nat)
    ensures forall k | k in NewJobs(jobs, from, count) ::
              if from <= k < from + count then NewJobs(jobs, from, count)[k].Executing?
              else k in jobs && NewJobs(jobs, from, count)[k] == jobs[k]
    ensures forall k | from <= k < from + count :: k in NewJobs(jobs, from, count)
    decreases count
  {
    if count > 0 {
      NewJobsRun(jobs, from, count - 1);
    }
  }

  lemma StepKeepsJobs(w: World, s: Step)
    requires JobsInv(w) && Enabled(w, s)
    ensures JobsInv(Apply(w, s))
  {
    if s.ReceivePoll? {
      NewJobsRun(w.jobs, |w.executed|, |w.polls[w.current.value].phase.ids|);
    }
  }

  lemma {:induction false} RunKeepsJobs(w: World, steps: seq<Step>)
    requires JobsInv(w) && IsRun(w, steps)
    ensures JobsInv(After(w, steps))
    decreases |steps|
  {
    if steps != [] {
      StepKeepsJobs(w, steps[0]);
      RunKeepsJobs(Apply(w, steps[0]), steps[1..]);
    }
  }

  /** In every run a result is tried at most three times, and a command once done is tried from
      the first; its job ends with a settling answer, a 401, the third try, or a stopped client. */
  lemma AResultIsTriedThreeTimes(steps: seq<Step>, k: nat, answer: Reply)
    requires IsRun(Start, steps) && Enabled(After(Start, steps), ReplyReturns(k, answer))
    ensures var w := After(Start, steps);
            var attempt, next := w.jobs[k].attempt, Apply(w, ReplyReturns(k, answer));
            && 1 <= attempt <= 3
            && (k !in next.jobs <==> || answer.Fine? || answer in {Status(404), Status(409), Status(401)}
                                     || attempt == 3 || !w.client.active)
            && (k in next.jobs ==> next.jobs[k] == Replying(attempt + 1))
  {
    RunKeepsJobs(Start, steps);
  }

  /** A bridge is reopened when it is closed or its heartbeats were missed, and then is neither;
      closing settles everything, and leaves nothing to claim. */
  lemma ReopeningAndClosing(w: World, n: nat, ids: seq<Id>)
    ensures Enabled(w, Register) <==> w.closed || w.stale
    ensures Enabled(w, Register) ==> !Apply(w, Register).closed && !Apply(w, Register).stale
    ensures Enabled(w, CloseBridge) && Apply(w, CloseBridge).closed
    ensures forall id | id in w.requests :: Apply(w, CloseBridge).requests[id].Settled?
    ensures Enabled(Apply(w, CloseBridge), Claim(n, ids)) ==> ids == []
    ensures Enabled(w, FallStale) && Apply(w, FallStale).stale
    ensures Enabled(w, Beat) ==> !Apply(w, Beat).stale
    ensures forall k | k in w.jobs && w.jobs[k].Executing? ::
              Enabled(w, FinishCommand(k)) && Apply(w, FinishCommand(k)).jobs[k] == Replying(1)
  {
    assert ids != [] ==> ids[0] in ids;
  }
}
