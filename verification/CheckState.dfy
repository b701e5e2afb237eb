/** The verdict on one commit's check runs and statuses. */
module CheckState {

  datatype Run = Run(name: string, status: string, conclusion: string, url: string)

  datatype Status = Status(context: string, state: string, url: string)

  datatype Signal = Signal(name: string, conclusion: string, url: string)

  datatype State = Pending | Success | Blocked | Failure

  predicate RunFails(run: Run) {
    run.status == "completed" && run.conclusion in {"failure", "timed_out", "action_required"}
  }

  predicate StatusFails(status: Status) {
    status.state in {"failure", "error"}
  }

  function SignalOfRun(run: Run): Signal {
    Signal(if run.name == "" then "check" else run.name, run.conclusion, run.url)
  }

  function SignalOfStatus(status: Status): Signal {
    Signal(if status.context == "" then "status" else status.context, status.state, status.url)
  }

  function RunSignals(runs: seq<Run>): (r: seq<Signal>)
    ensures r == [] <==> forall i | 0 <= i < |runs| :: !RunFails(runs[i])
    decreases |runs|
  {
    if runs == [] then []
    else
      var rest := RunSignals(runs[1..]);
      assert forall i | 1 <= i < |runs| :: runs[i] == runs[1..][i - 1];
      assert forall i | 0 <= i < |runs| - 1 :: runs[1..][i] == runs[i + 1];
      if RunFails(runs[0])
      then [SignalOfRun(runs[0])] + rest
      else rest
  }

  function StatusSignals(statuses: seq<Status>): (r: seq<Signal>)
    ensures r == [] <==> forall i | 0 <= i < |statuses| :: !StatusFails(statuses[i])
    decreases |statuses|
  {
    if statuses == [] then []
    else
      var rest := StatusSignals(statuses[1..]);
      assert forall i | 1 <= i < |statuses| :: statuses[i] == statuses[1..][i - 1];
      assert forall i | 0 <= i < |statuses| - 1 :: statuses[1..][i] == statuses[i + 1];
      if StatusFails(statuses[0])
      then [SignalOfStatus(statuses[0])] + rest
      else rest
  }

  function Signals(runs: seq<Run>, statuses: seq<Status>): seq<Signal> {
    RunSignals(runs) + StatusSignals(statuses)
  }

  predicate RunPasses(run: Run) {
    run.conclusion in {"success", "neutral", "skipped"}
  }

  predicate AnyUnfinished(runs: seq<Run>) {
    exists run | run in runs :: run.status != "completed"
  }

  predicate AnyUnpassed(runs: seq<Run>) {
    exists run | run in runs :: !RunPasses(run)
  }

  predicate AnyPending(statuses: seq<Status>) {
    exists s | s in statuses :: s.state == "pending"
  }

  predicate AnyUnsuccessful(statuses: seq<Status>) {
    exists s | s in statuses :: s.state != "success"
  }

  function Aggregate(runs: seq<Run>, statuses: seq<Status>): (State, seq<Signal>) {
    var failures := Signals(runs, statuses);
    if failures != [] then (Failure, failures)
    else if AnyUnfinished(runs) || AnyPending(statuses) then (Pending, [])
    else if runs == [] && statuses == [] then (Pending, [])
    else if AnyUnpassed(runs) || AnyUnsuccessful(statuses) then (Blocked, [])
    else (Success, [])
  }

  /** The runs among some that fail, in order. */
  function FailingRuns(runs: seq<Run>): seq<Run>
    decreases |runs|
  {
    if runs == [] then []
    else
      var front, last := runs[..|runs| - 1], runs[|runs| - 1];
      FailingRuns(front) + if RunFails(last) then [last] else []
  }

  function FailingStatuses(statuses: seq<Status>): seq<Status>
    decreases |statuses|
  {
    if statuses == [] then []
    else
      var front, last := statuses[..|statuses| - 1], statuses[|statuses| - 1];
      FailingStatuses(front) + if StatusFails(last) then [last] else []
  }

  lemma {:induction false} RunSignalsNameFailures(runs: seq<Run>)
    ensures |RunSignals(runs)| == |FailingRuns(runs)|
    ensures forall i | 0 <= i < |FailingRuns(runs)| :: RunSignals(runs)[i] == SignalOfRun(FailingRuns(runs)[i])
    decreases |runs|
  {
    if runs != [] {
      var front, last := runs[..|runs| - 1], runs[|runs| - 1];
      RunSignalsNameFailures(front);
      assert runs == front + [last];
      RunSignalsConcat(front, [last]);
      assert RunSignals([last]) ==
        if RunFails(last) then [SignalOfRun(last)] + RunSignals([last][1..]) else RunSignals([last][1..]);
    }
  }

  lemma {:induction false} StatusSignalsNameFailures(statuses: seq<Status>)
    ensures |StatusSignals(statuses)| == |FailingStatuses(statuses)|
    ensures forall i | 0 <= i < |FailingStatuses(statuses)| ::
              StatusSignals(statuses)[i] == SignalOfStatus(FailingStatuses(statuses)[i])
    decreases |statuses|
  {
    if statuses != [] {
      var front, last := statuses[..|statuses| - 1], statuses[|statuses| - 1];
      StatusSignalsNameFailures(front);
      assert statuses == front + [last];
      StatusSignalsConcat(front, [last]);
      assert StatusSignals([last]) ==
        if StatusFails(last) then [SignalOfStatus(last)] + StatusSignals([last][1..]) else StatusSignals([last][1..]);
    }
  }

  /** A failing check set lists one signal for each failing run and then for each failing
      status, in order, with its name, conclusion and link. */
  lemma SignalsListTheFailures(runs: seq<Run>, statuses: seq<Status>, i: nat)
    requires i < |Signals(runs, statuses)|
    ensures var (bad, worse) := (FailingRuns(runs), FailingStatuses(statuses));
            && |Signals(runs, statuses)| == |bad| + |worse|
            && Aggregate(runs, statuses).1 == Signals(runs, statuses)
            && Signals(runs, statuses)[i] ==
                 if i < |bad| then
                   Signal(if bad[i].name == "" then "check" else bad[i].name, bad[i].conclusion, bad[i].url)
                 else
                   var s := worse[i - |bad|];
                   Signal(if s.context == "" then "status" else s.context, s.state, s.url)
  {
    RunSignalsNameFailures(runs);
    StatusSignalsNameFailures(statuses);
  }

  lemma SignalsSayFailure(runs: seq<Run>, statuses: seq<Status>)
    ensures Signals(runs, statuses) != [] <==>
              (exists r | r in runs :: RunFails(r)) || (exists s | s in statuses :: StatusFails(s))
  {
    if RunSignals(runs) != [] {
      var i :| 0 <= i < |runs| && RunFails(runs[i]);
      assert runs[i] in runs;
    }
    if StatusSignals(statuses) != [] {
      var i :| 0 <= i < |statuses| && StatusFails(statuses[i]);
      assert statuses[i] in statuses;
    }
  }

  /** Success needs some check, and every one of them finished well; failure needs just one. */
  lemma WhatEachStateMeans(runs: seq<Run>, statuses: seq<Status>)
    ensures var state := Aggregate(runs, statuses).0;
            var bad, fine := {"failure", "timed_out", "action_required"}, {"success", "neutral", "skipped"};
            && (state.Failure? <==>
                  || (exists r | r in runs :: r.status == "completed" && r.conclusion in bad)
                  || (exists s | s in statuses :: s.state in {"failure", "error"}))
            && (state.Success? <==>
                  && (runs != [] || statuses != [])
                  && (forall r | r in runs :: r.status == "completed" && r.conclusion in fine)
                  && (forall s | s in statuses :: s.state == "success"))
            && (state.Blocked? <==>
                  && (forall r | r in runs :: r.status == "completed" && r.conclusion !in bad)
                  && (forall s | s in statuses :: s.state !in {"pending", "failure", "error"})
                  && ((exists r | r in runs :: r.conclusion !in fine)
                      || (exists s | s in statuses :: s.state != "success")))
            && (Aggregate(runs, statuses).1 != [] <==> state.Failure?)
  {
    SignalsSayFailure(runs, statuses);
  }

  function Weight(state: State): nat {
    match state
    case Success => 0
    case Blocked => 1
    case Pending => 2
    case Failure => 3
  }

  lemma {:induction false} RunSignalsConcat(a: seq<Run>, b: seq<Run>)
    ensures RunSignals(a + b) == RunSignals(a) + RunSignals(b)
    decreases |a|
  {
    if a == [] {
      assert a + b == b;
    } else {
      assert (a + b)[1..] == a[1..] + b;
      RunSignalsConcat(a[1..], b);
    }
  }

  lemma {:induction false} StatusSignalsConcat(a: seq<Status>, b: seq<Status>)
    ensures StatusSignals(a + b) == StatusSignals(a) + StatusSignals(b)
    decreases |a|
  {
    if a == [] {
      assert a + b == b;
    } else {
      assert (a + b)[1..] == a[1..] + b;
      StatusSignalsConcat(a[1..], b);
    }
  }

  /** Two sets of checks, neither empty, together are in the graver of their states: failure
      over pending over blocked over success. */
  lemma TheGraverStateWins(runs: seq<Run>, statuses: seq<Status>, moreRuns: seq<Run>, moreStatuses: seq<Status>)
    requires (runs != [] || statuses != []) && (moreRuns != [] || moreStatuses != [])
    ensures var one, other := Aggregate(runs, statuses).0, Aggregate(moreRuns, moreStatuses).0;
            Aggregate(runs + moreRuns, statuses + moreStatuses).0 == if Weight(one) >= Weight(other) then one else other
  {
    RunSignalsConcat(runs, moreRuns);
    StatusSignalsConcat(statuses, moreStatuses);
    assert AnyUnfinished(runs + moreRuns) == (AnyUnfinished(runs) || AnyUnfinished(moreRuns));
    assert AnyUnpassed(runs + moreRuns) == (AnyUnpassed(runs) || AnyUnpassed(moreRuns));
    assert AnyPending(statuses + moreStatuses) == (AnyPending(statuses) || AnyPending(moreStatuses));
    assert AnyUnsuccessful(statuses + moreStatuses) == (AnyUnsuccessful(statuses) || AnyUnsuccessful(moreStatuses));
  }

  ghost predicate SameMembers<T(!new)>(a: seq<T>, b: seq<T>) {
    forall x :: x in a <==> x in b
  }

  lemma SameMembersSameEmptiness<T(!new)>(a: seq<T>, b: seq<T>)
    requires SameMembers(a, b)
    ensures a == [] <==> b == []
  {
    if a != [] {
      assert a[0] in b;
    }
    if b != [] {
      assert b[0] in a;
    }
  }

  /** The verdict does not depend on the order in which checks are listed, nor on repeats. */
  lemma OrderDoesNotMatter(runs: seq<Run>, statuses: seq<Status>, otherRuns: seq<Run>, otherStatuses: seq<Status>)
    requires SameMembers(runs, otherRuns) && SameMembers(statuses, otherStatuses)
    ensures Aggregate(runs, statuses).0 == Aggregate(otherRuns, otherStatuses).0
  {
    WhatEachStateMeans(runs, statuses);
    WhatEachStateMeans(otherRuns, otherStatuses);
    SameMembersSameEmptiness(runs, otherRuns);
    SameMembersSameEmptiness(statuses, otherStatuses);
    assert AnyUnfinished(runs) == AnyUnfinished(otherRuns);
  }
}
