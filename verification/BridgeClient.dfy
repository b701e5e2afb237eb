/** The machine half of a sandbox bridge: what it names as held on a poll, what it does with
    the requests it is handed, and how it settles or keeps each one. */
module BridgeClient {
  import opened NewestWindow

  type Id = string

  const PollLimit := 8
  const MinBackoffMs := 1_000
  const MaxBackoffMs := 10_000
  const ReplyAttempts := 3
  const MaxHeldSent := 1_000

  /** The client's own state. `held` is an insertion-ordered set. */
  datatype Client = Client(active: bool, held: seq<Id>, backoff: nat)

  /** How a call to the backend came back: fine, with an HTTP error status, or not at all. */
  datatype Reply = Fine | Status(code: int) | NoAnswer

  function Add(held: seq<Id>, id: Id): seq<Id> {
    if id in held then held else held + [id]
  }

  /** The newest ids of the held set, as many as a poll names. */
  function Window(held: seq<Id>): seq<Id> {
    Newest(held, MaxHeldSent)
  }

  /** The requests of one poll response, each held before its command starts. */
  function Hold(c: Client, ids: seq<Id>): Client
    decreases |ids|
  {
    if ids == [] then c.(backoff := MinBackoffMs) else Hold(c.(held := Add(c.held, ids[0])), ids[1..])
  }

  function Double(backoff: nat): nat {
    if backoff * 2 <= MaxBackoffMs then backoff * 2 else MaxBackoffMs
  }

  /** What the client does after a poll that failed. */
  datatype PollReaction = Stop | Reopen(sleep: nat) | Retry(sleep: nat)

  predicate Fatal(answer: Reply) {
    answer.Status? && answer.code < 500 && answer.code !in {408, 409, 429}
  }

  /** Reopening the bridge may itself be refused for good. */
  predicate Refused(reopened: Reply) {
    reopened == Status(401) || reopened == Status(404)
  }

  /** `reopened` is the answer to the reopening a 409 makes the client try before it waits. */
  function PollFailed(c: Client, answer: Reply, reopened: Reply): (Client, PollReaction) {
    if !c.active then (c, Stop)
    else if Fatal(answer) then (c.(active := false), Stop)
    else if answer == Status(409) then
      (c.(active := !Refused(reopened), backoff := Double(c.backoff)), Reopen(c.backoff))
    else (c.(backoff := Double(c.backoff)), Retry(c.backoff))
  }

  /** What the client does after the `attempt`-th try to post a result. */
  datatype ReplyReaction = Resolved | Dropped | Again(sleep: nat)

  function Replied(c: Client, id: Id, attempt: nat, answer: Reply): (Client, ReplyReaction) {
    if answer.Fine? || answer == Status(404) || answer == Status(409) then
      (c.(held := Without(c.held, id)), Resolved)
    else if answer == Status(401) then (c.(active := false), Dropped)
    else if attempt == ReplyAttempts || !c.active then (c, Dropped)
    else (c, Again(MinBackoffMs * attempt))
  }

  datatype PollOutcome = Got(ids: seq<Id>) | Failed(answer: Reply, reopened: Reply)

  /** The poll loop over the polls' outcomes: the client it leaves, and the waits it took. */
  function Polled(c: Client, outcomes: seq<PollOutcome>): (Client, seq<nat>)
    decreases |outcomes|
  {
    if !c.active || outcomes == [] then (c, [])
    else
      match outcomes[0]
      case Got(ids) => Polled(Hold(c, ids), outcomes[1..])
      case Failed(answer, reopened) =>
        var (next, reaction) := PollFailed(c, answer, reopened);
        if reaction.Stop? then (next, [])
        else
          var (last, waits) := Polled(next, outcomes[1..]);
          (last, [reaction.sleep] + waits)
  }

  /** The reply loop from one attempt on: the client it leaves, and the waits it took. */
  function Delivered(c: Client, id: Id, attempt: nat, answers: seq<Reply>): (Client, seq<nat>)
    requires 1 <= attempt && attempt + |answers| == ReplyAttempts + 1
    decreases |answers|
  {
    if answers == [] then (c, [])
    else
      var (next, reaction) := Replied(c, id, attempt, answers[0]);
      if !reaction.Again? then (next, [])
      else
        var (last, waits) := Delivered(next, id, attempt + 1, answers[1..]);
        (last, [reaction.sleep] + waits)
  }

  /** What a loop comes to that has waited already. */
  function Awaited(waits: seq<nat>, rest: (Client, seq<nat>)): (Client, seq<nat>) {
    (rest.0, waits + rest.1)
  }

  lemma NoWaitYet(waits: seq<nat>)
    ensures [] + waits == waits
  {
  }

  lemma NoMoreWaits(waits: seq<nat>)
    ensures waits + [] == waits
  {
  }

  lemma OneWaitMore(waits: seq<nat>, sleep: nat, rest: seq<nat>)
    ensures waits + ([sleep] + rest) == (waits + [sleep]) + rest
  {
  }

  lemma OneAnswerMore(done: seq<Reply>, left: seq<Reply>)
    requires left != []
    ensures (done + left)[|done|] == left[0] && done + left == (done + [left[0]]) + left[1..]
  {
  }

  lemma DeliveredUnfolds(c: Client, id: Id, attempt: nat, answers: seq<Reply>, waits: seq<nat>)
    requires 1 <= attempt <= ReplyAttempts && attempt + |answers| == ReplyAttempts + 1
    ensures var (next, reaction) := Replied(c, id, attempt, answers[0]);
            var all := Awaited(waits, Delivered(c, id, attempt, answers));
            if reaction.Again?
            then all == Awaited(waits + [reaction.sleep], Delivered(next, id, attempt + 1, answers[1..]))
            else all == (next, waits)
  {
    var (next, reaction) := Replied(c, id, attempt, answers[0]);
    if reaction.Again? {
      OneWaitMore(waits, reaction.sleep, Delivered(next, id, attempt + 1, answers[1..]).1);
    } else {
      NoMoreWaits(waits);
    }
  }

  class Bridge {
    var active: bool
    var held: seq<Id>
    var backoff: nat

    ghost function Current(): Client
      reads this
    {
      Client(active, held, backoff)
    }

    constructor ()
      ensures Current() == Client(true, [], MinBackoffMs)
    {
      active, held, backoff := true, [], MinBackoffMs;
    }

    method HeldForPoll() returns (ids: seq<Id>)
      ensures ids == Window(held)
    {
      ids := if |held| <= MaxHeldSent then held else held[|held| - MaxHeldSent..];
    }

    method PollAnswered(ids: seq<Id>)
      modifies this`held, this`backoff
      ensures Current() == Hold(old(Current()), ids)
    {
      for i := 0 to |ids|
        invariant Hold(Current(), ids[i..]) == Hold(old(Current()), ids)
      {
        assert ids[i..][1..] == ids[i + 1..];
        held := Add(held, ids[i]);
      }
      backoff := MinBackoffMs;
    }

    /** What reopening the bridge in place does, by its answer. */
    method OnReopened(reopened: Reply)
      modifies this`active
      ensures active <==> old(active) && !Refused(reopened)
    {
      if reopened == Status(401) || reopened == Status(404) {
        active := false;
      }
    }

    method OnPollFailed(answer: Reply, reopened: Reply) returns (reaction: PollReaction)
      modifies this`active, this`backoff
      ensures (Current(), reaction) == PollFailed(old(Current()), answer, reopened)
      ensures old(active) && !answer.Fine? ==>
                (active <==> || answer.NoAnswer? || answer.code >= 500 || answer.code in {408, 429}
                             || (answer.code == 409 && reopened != Status(401) && reopened != Status(404)))
    {
      if !active {
        return Stop;
      }
      if answer == Status(401) || answer == Status(404) {
        active := false;
        return Stop;
      }
      if answer == Status(409) {
        OnReopened(reopened);
        reaction := Reopen(backoff);
      } else {
        if answer.Status? && answer.code < 500 && answer.code != 408 && answer.code != 429 {
          active := false;
          return Stop;
        }
        reaction := Retry(backoff);
      }
      backoff := if backoff * 2 <= MaxBackoffMs then backoff * 2 else MaxBackoffMs;
    }

    method OnReplied(id: Id, attempt: nat, answer: Reply) returns (reaction: ReplyReaction)
      modifies this`active, this`held
      ensures (Current(), reaction) == Replied(old(Current()), id, attempt, answer)
    {
      if answer.Fine? {
        held := Without(held, id);
        return Resolved;
      }
      if answer == Status(401) {
        active := false;
        return Dropped;
      }
      if answer == Status(404) || answer == Status(409) {
        held := Without(held, id);
        return Resolved;
      }
      if attempt == ReplyAttempts || !active {
        return Dropped;
      }
      reaction := Again(MinBackoffMs * attempt);
    }

    /** The poll loop, with nothing else touching the client between its polls. */
    method Poll(outcomes: seq<PollOutcome>) returns (waits: seq<nat>)
      modifies this
      ensures (Current(), waits) == Polled(old(Current()), outcomes)
    {
      waits := [];
      var i := 0;
      assert outcomes[0..] == outcomes;
      assert waits + Polled(Current(), outcomes).1 == Polled(Current(), outcomes).1;
      while active && i < |outcomes|
        invariant i <= |outcomes|
        invariant var rest := Polled(Current(), outcomes[i..]);
                  (rest.0, waits + rest.1) == Polled(old(Current()), outcomes)
      {
        var outcome := outcomes[i];
        assert outcomes[i..][1..] == outcomes[i + 1..];
        i := i + 1;
        if outcome.Got? {
          PollAnswered(outcome.ids);
        } else {
          var reaction := OnPollFailed(outcome.answer, outcome.reopened);
          if reaction.Stop? {
            assert waits + [] == waits;
            return;
          }
          ghost var rest := Polled(Current(), outcomes[i..]);
          assert waits + ([reaction.sleep] + rest.1) == (waits + [reaction.sleep]) + rest.1;
          waits := waits + [reaction.sleep];
        }
      }
      assert waits + [] == waits;
    }

    /** The reply loop, with nothing else touching the client between its attempts;
        `answers` are what the backend would say to each. */
    method Deliver(id: Id, answers: seq<Reply>) returns (waits: seq<nat>)
      requires |answers| == ReplyAttempts
      modifies this
      ensures (Current(), waits) == Delivered(old(Current()), id, 1, answers)
    {
      waits := [];
      ghost var all := Delivered(Current(), id, 1, answers);
      ghost var done: seq<Reply>, left := [], answers;
      var attempt := 1;
      assert done + left == answers;
      NoWaitYet(all.1);
      while attempt <= ReplyAttempts
        invariant 1 <= attempt <= ReplyAttempts + 1
        invariant answers == done + left && |done| == attempt - 1
        invariant Awaited(waits, Delivered(Current(), id, attempt, left)) == all
        decreases ReplyAttempts - attempt
      {
        OneAnswerMore(done, left);
        DeliveredUnfolds(Current(), id, attempt, left, waits);
        var reaction := OnReplied(id, attempt, answers[attempt - 1]);
        if !reaction.Again? {
          return;
        }
        done, left := done + [left[0]], left[1..];
        waits := waits + [reaction.sleep];
        attempt := attempt + 1;
      }
      NoMoreWaits(waits);
    }
  }

  lemma {:induction false} HoldKeepsAndAdds(c: Client, ids: seq<Id>)
    ensures var h := Hold(c, ids);
            h.active == c.active && forall x :: x in h.held <==> x in c.held || x in ids
    decreases |ids|
  {
    if ids != [] {
      HoldKeepsAndAdds(c.(held := Add(c.held, ids[0])), ids[1..]);
      assert ids == [ids[0]] + ids[1..];
    }
  }

  lemma {:induction false} HoldKeepsOrder(c: Client, ids: seq<Id>)
    requires NoRepeats(c.held)
    ensures NoRepeats(Hold(c, ids).held) && c.held <= Hold(c, ids).held
    decreases |ids|
  {
    if ids != [] {
      HoldKeepsOrder(c.(held := Add(c.held, ids[0])), ids[1..]);
    }
  }

  /** A failed poll after which the client is stopped. */
  predicate EndsClient(answer: Reply, reopened: Reply) {
    Fatal(answer) || (answer == Status(409) && Refused(reopened))
  }

  /** Only a poll that fails for good, or a reopening refused for good, stops the client; every
      other failure is retried, and every wait lies between one and ten seconds. */
  lemma PollBackoffIsBounded(c: Client, answer: Reply, reopened: Reply)
    requires c.active && MinBackoffMs <= c.backoff <= MaxBackoffMs
    ensures var (next, reaction) := PollFailed(c, answer, reopened);
            && MinBackoffMs <= next.backoff <= MaxBackoffMs
            && (next.active <==> !EndsClient(answer, reopened))
            && (reaction.Stop? <==> Fatal(answer))
            && (!reaction.Stop? ==> reaction.sleep == c.backoff && next.backoff >= c.backoff)
  {
  }

  /** Which failures a running client survives, and what it does next: it reopens on a 409, waits
      and tries again when the backend is silent, busy or failing, and stops on anything else. */
  lemma WhatAFailedPollDoes(c: Client, answer: Reply, reopened: Reply)
    requires c.active && !answer.Fine?
    ensures var (next, reaction) := PollFailed(c, answer, reopened);
            && (next.active <==> || answer.NoAnswer? || answer.code >= 500 || answer.code in {408, 429}
                                 || (answer.code == 409 && reopened != Status(401) && reopened != Status(404)))
            && reaction == (if answer == Status(409) then Reopen(c.backoff)
                            else if answer.NoAnswer? || answer.code >= 500 || answer.code in {408, 429}
                            then Retry(c.backoff) else Stop)
            && next.held == c.held
  {
  }

  /** The poll loop leaves a running client running exactly when it survives every poll. */
  lemma {:induction false} PollingStopsExactly(c: Client, outcomes: seq<PollOutcome>)
    requires c.active && forall i | 0 <= i < |outcomes| && outcomes[i].Failed? :: !outcomes[i].answer.Fine?
    ensures Polled(c, outcomes).0.active <==>
              forall i | 0 <= i < |outcomes| && outcomes[i].Failed? ::
                var answer, reopened := outcomes[i].answer, outcomes[i].reopened;
                || answer.NoAnswer? || answer.code >= 500 || answer.code in {408, 429}
                || (answer.code == 409 && reopened != Status(401) && reopened != Status(404))
    decreases |outcomes|
  {
    if outcomes != [] {
      var rest := outcomes[1..];
      assert forall i | 0 < i < |outcomes| :: outcomes[i] == rest[i - 1];
      assert forall i | 0 <= i < |rest| :: rest[i] == outcomes[i + 1];
      if outcomes[0].Got? {
        HoldKeepsAndAdds(c, outcomes[0].ids);
        PollingStopsExactly(Hold(c, outcomes[0].ids), rest);
      } else {
        var next := PollFailed(c, outcomes[0].answer, outcomes[0].reopened).0;
        WhatAFailedPollDoes(c, outcomes[0].answer, outcomes[0].reopened);
        if next.active {
          PollingStopsExactly(next, rest);
        } else {
          StoppedStaysStopped(next, rest);
        }
      }
    }
  }

  lemma StoppedStaysStopped(c: Client, outcomes: seq<PollOutcome>)
    requires !c.active
    ensures Polled(c, outcomes) == (c, [])
  {
  }

  /** The waits a row of failed polls goes through: one, two, four and eight seconds, then ten. */
  function Rung(i: nat): nat {
    if i < 4 then [1_000, 2_000, 4_000, 8_000][i] else MaxBackoffMs
  }

  predicate AllRetryable(outcomes: seq<PollOutcome>) {
    forall i | 0 <= i < |outcomes| :: outcomes[i].Failed? && !EndsClient(outcomes[i].answer, outcomes[i].reopened)
  }

  /** The first failure that ends the client is the last poll: the polls before it climb the
      ladder, a reopening refused is still waited on once, and nothing after it is tried. */
  lemma {:induction false} ARefusalEndsTheLoop(
    c: Client, rung: nat, before: seq<PollOutcome>, end: PollOutcome, rest: seq<PollOutcome>)
    requires c.active && c.backoff == Rung(rung) && AllRetryable(before)
    requires end.Failed? && EndsClient(end.answer, end.reopened)
    ensures var (last, waits) := Polled(c, before + [end] + rest);
            && !last.active && last.held == c.held
            && |waits| == |before| + if Fatal(end.answer) then 0 else 1
    decreases |before|
  {
    var all := before + [end] + rest;
    if before == [] {
      assert all[0] == end;
    } else {
      assert all[1..] == before[1..] + [end] + rest;
      var next := PollFailed(c, before[0].answer, before[0].reopened).0;
      ARefusalEndsTheLoop(next, rung + 1, before[1..], end, rest);
    }
  }

  /** A row of failures that are not for good climbs the ladder from wherever it is, and never
      stops the client. */
  lemma {:induction false} FailuresClimbTheLadder(c: Client, rung: nat, outcomes: seq<PollOutcome>)
    requires c.active && c.backoff == Rung(rung) && AllRetryable(outcomes)
    ensures var (last, waits) := Polled(c, outcomes);
            && last == c.(backoff := Rung(rung + |outcomes|)) && |waits| == |outcomes|
            && forall i | 0 <= i < |waits| :: waits[i] == Rung(rung + i)
    decreases |outcomes|
  {
    if outcomes != [] {
      var next := PollFailed(c, outcomes[0].answer, outcomes[0].reopened).0;
      FailuresClimbTheLadder(next, rung + 1, outcomes[1..]);
    }
  }

  /** The answers that end the reply loop: the server has the result, or will never want it. */
  predicate Settles(answer: Reply) {
    answer.Fine? || answer == Status(404) || answer == Status(409)
  }

  predicate Decides(answer: Reply) {
    Settles(answer) || answer == Status(401)
  }

  /** The first of the attempts that decides, or all of them when none does. */
  function Tries(answers: seq<Reply>): (n: nat)
    ensures n <= |answers| && (forall j | 0 <= j < n :: !Decides(answers[j]))
    ensures n < |answers| ==> Decides(answers[n])
    decreases |answers|
  {
    if answers == [] || Decides(answers[0]) then 0 else 1 + Tries(answers[1..])
  }

  lemma {:induction false} DeliveryFrom(c: Client, id: Id, attempt: nat, answers: seq<Reply>)
    requires c.active && 1 <= attempt && attempt + |answers| == ReplyAttempts + 1
    ensures var (last, waits) := Delivered(c, id, attempt, answers);
            var n := Tries(answers);
            && (last.held == if n < |answers| && Settles(answers[n]) then Without(c.held, id) else c.held)
            && (last.active <==> !(n < |answers| && answers[n] == Status(401)))
            && (answers != [] ==> |waits| == if n < |answers| then n else n - 1)
            && forall i | 0 <= i < |waits| :: waits[i] == MinBackoffMs * (attempt + i)
    decreases |answers|
  {
    if answers != [] && !Decides(answers[0]) && attempt < ReplyAttempts {
      DeliveryFrom(c, id, attempt + 1, answers[1..]);
    }
  }

  /** A result leaves `held` exactly when one of three attempts is settled by the server and
      no earlier one was refused; a result that could not be delivered stays held. */
  lemma OnlyASettledResultIsForgotten(c: Client, id: Id, answers: seq<Reply>)
    requires c.active && id in c.held && |answers| == ReplyAttempts
    ensures var (last, waits) := Delivered(c, id, 1, answers);
            && (id !in last.held <==> Tries(answers) < ReplyAttempts && Settles(answers[Tries(answers)]))
            && (forall other | other != id :: other in last.held <==> other in c.held)
            && waits <= [MinBackoffMs, 2 * MinBackoffMs]
  {
    DeliveryFrom(c, id, 1, answers);
  }
}
