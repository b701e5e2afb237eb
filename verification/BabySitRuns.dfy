/** What every run of a CI watch keeps: wakeups, rerun counts, alerts and delivery ids. */
module BabySitRuns {
  import opened CheckState
  import opened NewestWindow
  import opened Options
  import opened BabySit

  datatype Step =
    | Evaluate(reading: Reading, luck: Luck)
    | Webhook(delivery: string, installation: Option<int>, reading: Reading, luck: Luck)
    | Retry(belongs: bool, head: string, alert: string)
    | Start(belongs: bool, head: string, ref: string, installation: Option<int>, scheduled: bool)
    | Stop(cancelled: bool)

  /** The record a step leaves, and which wakeup it sent. */
  function Apply(saved: Saved, step: Step): Result {
    match step
    case Evaluate(reading, luck) => Evaluated(saved, reading, luck)
    case Webhook(delivery, installation, reading, luck) =>
      if Accepts(saved, delivery) then EvaluateWatch(WithDelivery(saved.value, delivery, installation), reading, luck)
      else Result(saved, Missing, false, false)
    case Retry(belongs, head, alert) => Result(RecordRetry(saved, belongs, head, alert).0, Missing, false, false)
    case Start(belongs, head, ref, installation, scheduled) =>
      Result(Started(saved, belongs, head, ref, installation, scheduled), Missing, false, false)
    case Stop(cancelled) => Result(Ended(saved, cancelled), Missing, false, false)
  }

  function After(saved: Saved, steps: seq<Step>): Saved
    decreases |steps|
  {
    if steps == [] then saved else After(Apply(saved, steps[0]).saved, steps[1..])
  }

  // ---- Wakeups on one head ----

  /** Since the record was last removed or its head last changed: the rerun count at each
      failure wakeup that succeeded, and how many ready wakeups did. */
  datatype Log = Log(wakes: seq<nat>, readies: nat)

  predicate SameHead(before: Saved, after: Saved) {
    before.Some? && after.Some? && before.value.head == after.value.head
  }

  function Extended(log: Log, before: Saved, r: Result): Log {
    var base := if SameHead(before, r.saved) then log else Log([], 0);
    if r.saved.None? then base
    else
      Log(if r.woke then base.wakes + [r.saved.value.retryCount] else base.wakes,
          if r.ready then base.readies + 1 else base.readies)
  }

  function LogOf(saved: Saved, log: Log, steps: seq<Step>): Log
    decreases |steps|
  {
    if steps == [] then log
    else
      var r := Apply(saved, steps[0]);
      LogOf(r.saved, Extended(log, saved, r), steps[1..])
  }

  predicate Increasing(s: seq<nat>) {
    forall i, j | 0 <= i < j < |s| :: s[i] < s[j]
  }

  function Fingerprints(head: string, wakes: seq<nat>): (r: seq<Fingerprint>)
    ensures |r| == |wakes|
  {
    seq(|wakes|, i requires 0 <= i < |wakes| => Fingerprint(head, wakes[i]))
  }

  /** The record's lists and counters are exactly what the log implies. */
  predicate WatchInv(w: Watch, log: Log) {
    && Increasing(log.wakes)
    && (forall i | 0 <= i < |log.wakes| :: log.wakes[i] <= w.retryCount && log.wakes[i] < MaxRetriesPerHead)
    && w.dispatchKeys == Fingerprints(w.head, log.wakes)
    && w.retryCount <= MaxRetriesPerHead
    && |w.alertKeys| <= w.retryCount
    && log.readies <= 1 && (log.readies == 1 ==> w.readyHead == w.head)
    && (w.head != "" && w.readyHead == w.head ==> log.readies == 1)
  }

  predicate Inv(saved: Saved, log: Log) {
    if saved.None? then log == Log([], 0) else WatchInv(saved.value, log)
  }

  lemma {:induction false} FewWakes(wakes: seq<nat>, bound: nat)
    requires Increasing(wakes) && forall i | 0 <= i < |wakes| :: wakes[i] < bound
    ensures |wakes| <= bound
    decreases |wakes|
  {
    if wakes != [] {
      var last := wakes[|wakes| - 1];
      FewWakes(wakes[..|wakes| - 1], last);
    }
  }

  lemma FingerprintsKnow(head: string, wakes: seq<nat>, retry: nat)
    ensures Fingerprint(head, retry) in Fingerprints(head, wakes) <==> retry in wakes
  {
    if retry in wakes {
      var i :| 0 <= i < |wakes| && wakes[i] == retry;
      assert Fingerprints(head, wakes)[i] == Fingerprint(head, retry);
    }
  }

  lemma {:induction false} WithoutAbsent(keys: seq<Fingerprint>, key: Fingerprint)
    requires key !in keys
    ensures Without(keys + [key], key) == keys
    decreases |keys|
  {
    if keys == [] {
      assert keys + [key] == [key];
      assert Without([key], key) == Without([key][1..], key);
    } else {
      assert (keys + [key])[1..] == keys[1..] + [key];
      WithoutAbsent(keys[1..], key);
    }
  }

  /** Nothing the log speaks of changed between the two records. */
  predicate SameRecord(a: Watch, b: Watch) {
    && a.head == b.head && a.readyHead == b.readyHead && a.retryCount == b.retryCount
    && a.dispatchKeys == b.dispatchKeys && a.alertKeys == b.alertKeys && a.deliveryIds == b.deliveryIds
  }

  predicate Quiet(w: Watch, r: Result) {
    !r.woke && !r.ready && (r.saved.Some? ==> SameRecord(w, r.saved.value))
  }

  lemma QuietKeeps(w: Watch, log: Log, r: Result)
    requires WatchInv(w, log) && Quiet(w, r)
    ensures Inv(r.saved, Extended(log, Some(w), r))
  {
  }

  lemma ErrorsAreQuiet(w: Watch, retryable: bool, luck: Luck)
    ensures Quiet(w, RecordError(w, retryable, luck))
  {
  }

  lemma ReadyKeeps(w: Watch, log: Log, luck: Luck)
    requires WatchInv(w, log)
    ensures var r := FinishReady(w, luck);
            && Inv(r.saved, Extended(log, Some(w), r))
            && (r.saved.Some? ==> r.saved.value.head == w.head && r.saved.value.deliveryIds == w.deliveryIds)
  {
  }

  /** A rerun count that has not woken the agent is above all that have. */
  lemma WakesGrow(w: Watch, log: Log)
    requires WatchInv(w, log) && w.retryCount !in log.wakes
    ensures Increasing(log.wakes + [w.retryCount])
    ensures Fingerprints(w.head, log.wakes + [w.retryCount]) == w.dispatchKeys + [Fingerprint(w.head, w.retryCount)]
  {
    forall i | 0 <= i < |log.wakes| ensures log.wakes[i] < w.retryCount {
      assert log.wakes[i] in log.wakes;
    }
  }

  /** A wakeup for failure keeps the record exact, whether or not the agent could be woken. */
  lemma WakeKeeps(w: Watch, log: Log, luck: Luck)
    requires WatchInv(w, log) && w.retryCount < MaxRetriesPerHead
    ensures var r := WakeForFailure(w, luck);
            && SameHead(Some(w), r.saved) && Inv(r.saved, Extended(log, Some(w), r))
            && r.saved.value.deliveryIds == w.deliveryIds
            && (r.woke <==> w.retryCount !in log.wakes && luck.woken)
  {
    var key := Fingerprint(w.head, w.retryCount);
    FingerprintsKnow(w.head, log.wakes, w.retryCount);
    FewWakes(log.wakes, MaxRetriesPerHead);
    if key !in w.dispatchKeys {
      WithoutAbsent(w.dispatchKeys, key);
      WakesGrow(w, log);
    }
  }

  /** What the log becomes when the head moved on from the last saved record. */
  function BaseLog(saved: Watch, w: Watch, log: Log): Log {
    if w.head == saved.head then log else Log([], 0)
  }

  lemma Rebased(saved: Watch, w: Watch, log: Log, r: Result)
    requires r.saved.Some? ==> r.saved.value.head == w.head
    requires Inv(r.saved, Extended(BaseLog(saved, w, log), Some(w), r))
    ensures Inv(r.saved, Extended(log, Some(saved), r))
  {
  }

  /** On any verdict. `w` is the refreshed record, `saved` the one last saved. */
  lemma DecideKeeps(saved: Watch, w: Watch, log: Log, state: State, required: Required, luck: Luck)
    requires WatchInv(saved, log) && WatchInv(w, BaseLog(saved, w, log)) && w.deliveryIds == saved.deliveryIds
    ensures var r := Decide(saved, w, state, required, luck);
            && Inv(r.saved, Extended(log, Some(saved), r))
            && (r.saved.Some? ==> r.saved.value.deliveryIds == saved.deliveryIds)
  {
    var r, base := Decide(saved, w, state, required, luck), BaseLog(saved, w, log);
    if state.Blocked? || (state.Failure? && w.retryCount >= MaxRetriesPerHead) {
      QuietKeeps(saved, log, r);
    } else {
      if state.Failure? {
        WakeKeeps(w, base, luck);
      } else if state.Success? && required.Known? && !required.unreported {
        ReadyKeeps(w, base, luck);
      } else {
        ErrorsAreQuiet(w, false, luck);
        QuietKeeps(w, base, r);
      }
      Rebased(saved, w, log, r);
    }
  }

  lemma OpenKeeps(saved: Watch, log: Log, reading: Reading, luck: Luck)
    requires WatchInv(saved, log) && reading.Open? && saved.active && saved.installation.Some?
    ensures var r := EvaluateWatch(saved, reading, luck);
            && Inv(r.saved, Extended(log, Some(saved), r))
            && (r.saved.Some? ==> r.saved.value.deliveryIds == saved.deliveryIds)
  {
    var w := Refreshed(saved, reading.head, reading.ref);
    assert WatchInv(w, BaseLog(saved, w, log));
    if reading.checks.Unread? {
      ErrorsAreQuiet(w, reading.checks.retryable, luck);
      var r := RecordError(w, reading.checks.retryable, luck);
      QuietKeeps(w, BaseLog(saved, w, log), r);
      Rebased(saved, w, log, r);
    } else {
      DecideKeeps(saved, w.(evaluationErrors := 0), log,
                  Aggregate(reading.checks.runs, reading.checks.statuses).0, reading.checks.required, luck);
    }
  }

  lemma EvaluateKeeps(saved: Watch, log: Log, reading: Reading, luck: Luck)
    requires WatchInv(saved, log)
    ensures var r := EvaluateWatch(saved, reading, luck);
            && Inv(r.saved, Extended(log, Some(saved), r))
            && (r.saved.Some? ==> r.saved.value.deliveryIds == saved.deliveryIds)
  {
    if reading.Open? && saved.active && saved.installation.Some? {
      OpenKeeps(saved, log, reading, luck);
    } else {
      var r := EvaluateWatch(saved, reading, luck);
      assert Quiet(saved, r);
      QuietKeeps(saved, log, r);
    }
  }

  lemma OtherStepKeeps(saved: Saved, log: Log, step: Step)
    requires Inv(saved, log) && !step.Evaluate? && !step.Webhook?
    ensures var r := Apply(saved, step); Inv(r.saved, Extended(log, saved, r))
  {
  }

  lemma OnlyTheHeadMatters(saved: Watch, w: Watch, log: Log, r: Result)
    requires w.head == saved.head
    ensures Extended(log, Some(saved), r) == Extended(log, Some(w), r)
  {
  }

  lemma WebhookKeeps(saved: Watch, log: Log, delivery: string, installation: Option<int>, reading: Reading, luck: Luck)
    requires WatchInv(saved, log)
    ensures var r := EvaluateWatch(WithDelivery(saved, delivery, installation), reading, luck);
            Inv(r.saved, Extended(log, Some(saved), r))
  {
    var w := WithDelivery(saved, delivery, installation);
    var r := EvaluateWatch(w, reading, luck);
    EvaluateKeeps(w, log, reading, luck);
    OnlyTheHeadMatters(saved, w, log, r);
  }

  lemma StepKeeps(saved: Saved, log: Log, step: Step)
    requires Inv(saved, log)
    ensures var r := Apply(saved, step); Inv(r.saved, Extended(log, saved, r))
  {
    if step.Evaluate? && saved.Some? {
      EvaluateKeeps(saved.value, log, step.reading, step.luck);
    } else if step.Webhook? && Accepts(saved, step.delivery) {
      WebhookKeeps(saved.value, log, step.delivery, step.installation, step.reading, step.luck);
    } else if !step.Evaluate? && !step.Webhook? {
      OtherStepKeeps(saved, log, step);
    }
  }

  lemma {:induction false} RunKeeps(saved: Saved, log: Log, steps: seq<Step>)
    requires Inv(saved, log)
    ensures Inv(After(saved, steps), LogOf(saved, log, steps))
    decreases |steps|
  {
    if steps != [] {
      var r := Apply(saved, steps[0]);
      StepKeeps(saved, log, steps[0]);
      RunKeeps(r.saved, Extended(log, saved, r), steps[1..]);
    }
  }

  /** In every run, since the record was last removed or its head last changed, the agent was
      woken for failure at most once per rerun count, so at most three times, and at most once
      as ready; reruns never pass three, and neither capped list ever loses an entry. */
  lemma WakeupsAreBounded(steps: seq<Step>)
    ensures var saved, log := After(None, steps), LogOf(None, Log([], 0), steps);
            && Increasing(log.wakes) && |log.wakes| <= MaxRetriesPerHead && log.readies <= 1
            && (saved.Some? ==>
                  && saved.value.retryCount <= MaxRetriesPerHead
                  && saved.value.dispatchKeys == Fingerprints(saved.value.head, log.wakes)
                  && |saved.value.dispatchKeys| < MaxDispatchKeys
                  && |saved.value.alertKeys| <= saved.value.retryCount)
  {
    RunKeeps(None, Log([], 0), steps);
    FewWakes(LogOf(None, Log([], 0), steps).wakes, MaxRetriesPerHead);
  }

  /** A failing head wakes the agent exactly when fewer than three reruns are recorded, this
      rerun count has not woken it yet, and the call goes through. */
  lemma AFailureWakesOncePerRerun(steps: seq<Step>, reading: Reading, luck: Luck)
    requires var saved := After(None, steps);
             && saved.Some? && saved.value.active && saved.value.installation.Some?
             && reading.Open? && reading.head == saved.value.head && reading.checks.Read?
             && Aggregate(reading.checks.runs, reading.checks.statuses).0.Failure?
    ensures var w, log := After(None, steps).value, LogOf(None, Log([], 0), steps);
            EvaluateWatch(w, reading, luck).woke <==>
              w.retryCount < MaxRetriesPerHead && w.retryCount !in log.wakes && luck.woken
  {
    RunKeeps(None, Log([], 0), steps);
    var w, log := After(None, steps).value, LogOf(None, Log([], 0), steps);
    if w.retryCount < MaxRetriesPerHead {
      var named := Refreshed(w, reading.head, reading.ref).(evaluationErrors := 0);
      assert WatchInv(named, log);
      WakeKeeps(named, log, luck);
    }
  }

  /** A green head with nothing required missing wakes the agent exactly when no review card waits
      for it, the call goes through, and this head has not been reported; then it is. */
  lemma AGreenHeadIsReported(saved: Watch, reading: Reading, luck: Luck)
    requires saved.active && saved.installation.Some?
    requires reading.Open? && reading.head != "" && reading.checks.Read? && reading.checks.required == Known(false)
    requires Aggregate(reading.checks.runs, reading.checks.statuses).0.Success?
    ensures var r := EvaluateWatch(saved, reading, luck);
            && (r.ready <==> luck.card != Some(true) && luck.woken
                             && !(reading.head == saved.head && saved.readyHead == saved.head))
            && !r.woke
            && (r.ready ==> r.outcome.Watching? && r.saved.Some?
                            && r.saved.value.head == r.saved.value.readyHead == reading.head)
  {
  }

  /** A green head that is not reported is left alone when a card waits for it or it was reported,
      and otherwise the call failed: the third such failure on a head stops the watch. */
  lemma WhenAGreenHeadIsNotReported(saved: Watch, reading: Reading, luck: Luck)
    requires saved.active && saved.installation.Some?
    requires reading.Open? && reading.head != "" && reading.checks.Read? && reading.checks.required == Known(false)
    requires Aggregate(reading.checks.runs, reading.checks.statuses).0.Success?
    ensures var r := EvaluateWatch(saved, reading, luck);
            var same := reading.head == saved.head;
            var failed := if same then saved.readyErrors else 0;
            if r.ready then r.saved.value.readyErrors == 0
            else if luck.card == Some(true) || (same && saved.readyHead == saved.head) then
              r.outcome.Watching? && r.saved.Some? && r.saved.value.readyErrors == failed
            else if failed >= 2 then r.outcome.Stopped?
            else r.outcome.Erred? && r.saved.Some? && r.saved.value.readyErrors == failed + 1
  {
  }

  /** Over a whole run: a green head wakes the agent exactly when none of its ready wakeups was
      sent since it became the head. */
  lemma AGreenHeadWakesOnce(steps: seq<Step>, reading: Reading, luck: Luck)
    requires var saved := After(None, steps);
             && saved.Some? && saved.value.active && saved.value.installation.Some?
             && reading.Open? && reading.head != "" && reading.checks.Read?
             && reading.checks.required == Known(false)
             && Aggregate(reading.checks.runs, reading.checks.statuses).0.Success?
    ensures var w, log := After(None, steps).value, LogOf(None, Log([], 0), steps);
            EvaluateWatch(w, reading, luck).ready <==>
              luck.card != Some(true) && luck.woken && (reading.head == w.head ==> log.readies == 0)
  {
    RunKeeps(None, Log([], 0), steps);
    AGreenHeadIsReported(After(None, steps).value, reading, luck);
  }

  /** What an active watch that can read its pull request answers to each verdict. The count of
      errors starts again at every verdict, so required checks that cannot be read never stop it. */
  lemma WhatEachVerdictAnswers(saved: Watch, reading: Reading, luck: Luck)
    requires saved.active && saved.installation.Some? && reading.Open? && reading.checks.Read?
    ensures var r := EvaluateWatch(saved, reading, luck);
            var required := reading.checks.required;
            var reruns := if reading.head == saved.head then saved.retryCount else 0;
            match Aggregate(reading.checks.runs, reading.checks.statuses).0
            case Pending => r.outcome.Waiting? && !r.woke && !r.ready
            case Success =>
              && !r.woke
              && (required == Known(true) ==> r.outcome.Waiting? && !r.ready)
              && (required == Unknown ==>
                    r.outcome.Erred? && !r.ready && r.saved.Some? && r.saved.value.evaluationErrors == 1)
            case Blocked => r.outcome.Stopped? && !r.woke && !r.ready
            case Failure =>
              var woken := reading.head == saved.head && Fingerprint(saved.head, reruns) in saved.dispatchKeys;
              !r.ready && r.outcome == if reruns >= 3 then Stopped else if woken then Duplicate
                                       else if luck.woken then Dispatched else Erred
    ensures var r := EvaluateWatch(saved, reading, luck);
            r.saved.Some? && !r.outcome.Stopped? ==>
              && r.saved.value.active && r.saved.value.head == reading.head
              && r.saved.value.headRef == (if reading.ref != "" then reading.ref else saved.headRef)
  {
  }

  /** A head that moved starts over with nothing counted, listed or reported; the deliveries seen
      and the installation stay. */
  lemma ANewHeadStartsOver(saved: Watch, reading: Reading, luck: Luck)
    requires saved.active && saved.installation.Some? && reading.Open? && reading.checks.Read?
    requires reading.head != saved.head && Aggregate(reading.checks.runs, reading.checks.statuses).0.Pending?
    ensures var ref := if reading.ref != "" then reading.ref else saved.headRef;
            EvaluateWatch(saved, reading, luck).saved
              == Some(Watch(true, reading.head, ref, "", 0, saved.installation, 0, [], saved.deliveryIds, [], 0))
  {
  }

  /** The answers that do not come to a verdict: errors that may pass leave no trace, the third
      lasting one in a row stops the watch, and so does a pull request that is no longer open. */
  lemma WhatNoVerdictAnswers(saved: Watch, reading: Reading, luck: Luck)
    requires saved.active && (reading.Open? ==> reading.checks.Unread?)
    ensures var r := EvaluateWatch(saved, reading, luck);
            var passing := match reading
              case AppUnavailable(retryable) => retryable
              case PullUnavailable(retryable) => retryable
              case Open(_, _, checks) => checks.retryable
              case _ => false;
            && !r.woke && !r.ready
            && (if saved.installation.Some? && reading.NotOpen? then r.outcome.Stopped?
                else if saved.installation.Some? && passing then
                  r.outcome.Erred? && r.saved.Some? && r.saved.value.evaluationErrors == saved.evaluationErrors
                else if saved.evaluationErrors >= 2 then r.outcome.Stopped?
                else r.outcome.Erred? && r.saved.Some? && r.saved.value.evaluationErrors == saved.evaluationErrors + 1)
  {
  }

  /** A watch that stopped is gone, or left inactive when its job could not be cancelled; an
      inactive one answers nothing else. */
  lemma StoppedIsGone(saved: Watch, reading: Reading, luck: Luck)
    ensures var r := EvaluateWatch(saved, reading, luck);
            && (r.outcome.Stopped? ==> (r.saved.None? <==> luck.cancelled)
                                       && (r.saved.Some? ==> !r.saved.value.active))
            && (!saved.active ==> r.outcome.Stopped?)
            && Evaluated(None, reading, luck) == Result(None, Missing, false, false)
            && (saved.active && !r.outcome.Stopped? ==> r.saved.Some? && r.saved.value.active)
  {
  }

  // ---- The other steps ----

  /** A rerun is recorded exactly when the watch runs, belongs to the caller, still stands on that
      head and has fewer than three; it alerts exactly when that check has not alerted yet. */
  lemma ARerunIsRecordedExactly(saved: Watch, belongs: bool, head: string, alert: string)
    requires |saved.alertKeys| < MaxAlertKeys
    ensures var (after, answer) := RecordRetry(Some(saved), belongs, head, alert);
            && (answer.Recorded? <==> saved.active && belongs && head == saved.head && saved.retryCount < 3)
            && (answer.Recorded? ==>
                  && answer.retryCount == saved.retryCount + 1 && (answer.alerted <==> alert !in saved.alertKeys)
                  && after == Some(saved.(
                       retryCount := saved.retryCount + 1,
                       alertKeys := if answer.alerted then saved.alertKeys + [alert] else saved.alertKeys)))
            && (!answer.Recorded? ==>
                  && after == Some(saved)
                  && answer == if !saved.active then NoWatch else if !belongs then NotYours
                               else if head != saved.head then HeadMoved else LimitReached)
  {
  }

  /** A webhook evaluates a running watch unless its delivery is listed, with the installation it
      names; one without an id is never taken for a repeat. */
  lemma WhatAWebhookDoes(saved: Watch, delivery: string, installation: Option<int>, reading: Reading, luck: Luck)
    requires |saved.deliveryIds| < MaxDeliveryIds
    ensures var r := Apply(Some(saved), Webhook(delivery, installation, reading, luck));
            if !saved.active || (delivery != "" && delivery in saved.deliveryIds) then r.saved == Some(saved) && !r.woke
            else
              r == EvaluateWatch(saved.(
                     installation := if installation.Some? then installation else saved.installation,
                     deliveryIds := saved.deliveryIds + if delivery == "" then [] else [delivery]), reading, luck)
  {
    assert saved.deliveryIds + [] == saved.deliveryIds;
  }

  /** A start leaves another's running watch alone, and nothing when a new watch could not be
      scheduled; otherwise the watch runs on the head, ref and installation given, keeping what it
      knew of that head or knowing nothing. */
  lemma WhatAStartLeaves(
    saved: Saved, belongs: bool, head: string, ref: string, installation: Option<int>, scheduled: bool)
    ensures var after := Started(saved, belongs, head, ref, installation, scheduled);
            if saved.Some? && saved.value.active && !belongs then after == saved
            else if saved.None? && !scheduled then after == None
            else
              && after.Some? && after.value.active && after.value.head == head && after.value.headRef == ref
              && after.value.installation == installation && after.value.evaluationErrors == 0
              && var w := after.value;
                 (w.readyHead, w.readyErrors, w.retryCount, w.dispatchKeys, w.deliveryIds, w.alertKeys)
                   == if saved.Some? && saved.value.head == head
                      then (saved.value.readyHead, saved.value.readyErrors, saved.value.retryCount,
                            saved.value.dispatchKeys, saved.value.deliveryIds, saved.value.alertKeys)
                      else ("", 0, 0, [], [], [])
  {
  }

  // ---- Webhook deliveries ----

  /** The delivery list starts afresh when the record is removed, or restarted on a new head. */
  predicate SameDeliveries(before: Saved, step: Step, after: Saved) {
    before.Some? && after.Some? && (step.Start? ==> before.value.head == after.value.head)
  }

  function Deliveries(saved: Saved, accepted: seq<string>, step: Step): seq<string> {
    var after := Apply(saved, step).saved;
    var more := if step.Webhook? && step.delivery != "" && Accepts(saved, step.delivery) then [step.delivery] else [];
    if SameDeliveries(saved, step, after) then accepted + more else []
  }

  function AcceptedIn(saved: Saved, accepted: seq<string>, steps: seq<Step>): seq<string>
    decreases |steps|
  {
    if steps == [] then accepted
    else AcceptedIn(Apply(saved, steps[0]).saved, Deliveries(saved, accepted, steps[0]), steps[1..])
  }

  predicate DeliveryInv(saved: Saved, accepted: seq<string>) {
    && Apart(accepted, MaxDeliveryIds)
    && (if saved.None? then accepted == []
        else saved.value.deliveryIds == Newest(accepted, MaxDeliveryIds))
  }

  /** Only an accepted webhook touches the delivery list, and it adds its own id. */
  lemma DeliveriesLeft(saved: Saved, log: Log, step: Step)
    requires Inv(saved, log) && SameDeliveries(saved, step, Apply(saved, step).saved)
    ensures Apply(saved, step).saved.value.deliveryIds ==
              if step.Webhook? && Accepts(saved, step.delivery)
              then WithDelivery(saved.value, step.delivery, step.installation).deliveryIds
              else saved.value.deliveryIds
  {
    if step.Webhook? && Accepts(saved, step.delivery) {
      EvaluateKeeps(WithDelivery(saved.value, step.delivery, step.installation), log, step.reading, step.luck);
    } else if step.Evaluate? {
      EvaluateKeeps(saved.value, log, step.reading, step.luck);
    }
  }

  lemma StartAfresh(saved: Saved, accepted: seq<string>, step: Step)
    requires DeliveryInv(saved, accepted) && !SameDeliveries(saved, step, Apply(saved, step).saved)
    ensures DeliveryInv(Apply(saved, step).saved, [])
  {
  }

  lemma StepKeepsDeliveries(saved: Saved, log: Log, accepted: seq<string>, step: Step)
    requires DeliveryInv(saved, accepted) && Inv(saved, log)
    ensures DeliveryInv(Apply(saved, step).saved, Deliveries(saved, accepted, step))
  {
    if !SameDeliveries(saved, step, Apply(saved, step).saved) {
      StartAfresh(saved, accepted, step);
    } else {
      DeliveriesLeft(saved, log, step);
      if step.Webhook? && Accepts(saved, step.delivery) && step.delivery != "" {
        NewestGrows(accepted, step.delivery, MaxDeliveryIds);
        FreshStaysApart(accepted, step.delivery, MaxDeliveryIds);
      } else {
        assert accepted + [] == accepted;
      }
    }
  }

  lemma {:induction false} RunKeepsDeliveries(saved: Saved, log: Log, accepted: seq<string>, steps: seq<Step>)
    requires DeliveryInv(saved, accepted) && Inv(saved, log)
    ensures DeliveryInv(After(saved, steps), AcceptedIn(saved, accepted, steps))
    decreases |steps|
  {
    if steps != [] {
      var r := Apply(saved, steps[0]);
      StepKeeps(saved, log, steps[0]);
      StepKeepsDeliveries(saved, log, accepted, steps[0]);
      RunKeepsDeliveries(r.saved, Extended(log, saved, r), Deliveries(saved, accepted, steps[0]), steps[1..]);
    }
  }

  /** Within one delivery list, an id accepted twice has at least fifty other distinct ids
      accepted in between. */
  lemma AcceptedTwiceMeansFiftyBetween(steps: seq<Step>, i: nat, j: nat)
    requires var accepted := AcceptedIn(None, [], steps); i < j < |accepted| && accepted[i] == accepted[j]
    ensures var accepted := AcceptedIn(None, [], steps);
            |Members(accepted[i + 1..j]) - {accepted[i]}| >= MaxDeliveryIds
  {
    RunKeepsDeliveries(None, Log([], 0), [], steps);
    ApartEncloses(AcceptedIn(None, [], steps), MaxDeliveryIds, i, j);
  }
}
