/** The watch on one pull request's CI: evaluations, webhooks, recorded reruns, restarts and
    stops act on one saved record. Outside calls come in as their outcomes. */
module BabySit {
  import opened CheckState
  import opened NewestWindow
  import opened Options

  const MaxRetriesPerHead := 3
  const MaxDispatchKeys := 30
  const MaxDeliveryIds := 50
  const MaxAlertKeys := 30
  const MaxEvaluationErrors := 3

  /** Stands for the hash of a head and its retry count, taken to be injective. */
  datatype Fingerprint = Fingerprint(head: string, retry: nat)

  datatype Watch = Watch(
    active: bool, head: string, headRef: string, readyHead: string, readyErrors: nat,
    installation: Option<int>, retryCount: nat, dispatchKeys: seq<Fingerprint>,
    deliveryIds: seq<string>, alertKeys: seq<string>, evaluationErrors: nat)

  type Saved = Option<Watch>

  /** What GitHub says about the pull request and its head's checks. */
  datatype Reading =
    | AppUnavailable(retryable: bool)
    | PullUnavailable(retryable: bool)
    | NotOpen
    | NoHead
    | Open(head: string, ref: string, checks: Checks)

  datatype Checks = Unread(retryable: bool) | Read(runs: seq<Run>, statuses: seq<Status>, required: Required)

  /** Branch protection of the base branch: unreadable, or whether a required check is missing. */
  datatype Required = Unknown | Known(unreported: bool)

  /** The outcomes of the calls one evaluation may make. */
  datatype Luck = Luck(card: Option<bool>, woken: bool, cancelled: bool)

  datatype Outcome = Missing | Stopped | Erred | Waiting | Watching | Duplicate | Dispatched

  /** The record left, the answer, and which wakeup succeeded. */
  datatype Result = Result(saved: Saved, outcome: Outcome, woke: bool, ready: bool)

  // ---- One evaluation ----

  function StopWatch(w: Watch, cancelled: bool): Saved {
    if cancelled then None else Some(w.(active := false))
  }

  function RecordError(w: Watch, retryable: bool, luck: Luck): Result {
    if retryable then Result(Some(w), Erred, false, false)
    else
      var counted := w.(evaluationErrors := w.evaluationErrors + 1);
      if counted.evaluationErrors < MaxEvaluationErrors then Result(Some(counted), Erred, false, false)
      else Result(StopWatch(counted, luck.cancelled), Stopped, false, false)
  }

  function FinishReady(w: Watch, luck: Luck): Result {
    if luck.card == Some(true) || w.readyHead == w.head then Result(Some(w), Watching, false, false)
    else if !luck.woken then
      var counted := w.(readyErrors := w.readyErrors + 1);
      if counted.readyErrors >= MaxEvaluationErrors
      then Result(StopWatch(counted, luck.cancelled), Stopped, false, false)
      else Result(Some(counted), Erred, false, false)
    else Result(Some(w.(readyErrors := 0, readyHead := w.head)), Watching, false, true)
  }

  function Refreshed(w: Watch, head: string, ref: string): Watch {
    var named := if ref != "" then w.(headRef := ref) else w;
    if head == w.head then named
    else named.(head := head, readyHead := "", readyErrors := 0, retryCount := 0, dispatchKeys := [], alertKeys := [])
  }

  function WakeForFailure(w: Watch, luck: Luck): Result {
    var key := Fingerprint(w.head, w.retryCount);
    if key in w.dispatchKeys then Result(Some(w), Duplicate, false, false)
    else
      var keyed := w.(dispatchKeys := Newest(w.dispatchKeys + [key], MaxDispatchKeys));
      if luck.woken then Result(Some(keyed), Dispatched, true, false)
      else Result(Some(keyed.(dispatchKeys := Without(keyed.dispatchKeys, key))), Erred, false, false)
  }

  /** On the checks' verdict. A watch that stops without saving first stops as last saved. */
  function Decide(saved: Watch, w: Watch, state: State, required: Required, luck: Luck): Result {
    match state
    case Pending => Result(Some(w), Waiting, false, false)
    case Success =>
      if required.Unknown? then RecordError(w, false, luck)
      else if required.unreported then Result(Some(w), Waiting, false, false)
      else FinishReady(w, luck)
    case Blocked => Result(StopWatch(saved, luck.cancelled), Stopped, false, false)
    case Failure =>
      if w.retryCount >= MaxRetriesPerHead then Result(StopWatch(saved, luck.cancelled), Stopped, false, false)
      else WakeForFailure(w, luck)
  }

  function EvaluateWatch(saved: Watch, reading: Reading, luck: Luck): Result {
    if !saved.active then Result(StopWatch(saved, luck.cancelled), Stopped, false, false)
    else if saved.installation.None? then RecordError(saved, false, luck)
    else
      match reading
      case AppUnavailable(retryable) => RecordError(saved, retryable, luck)
      case PullUnavailable(retryable) => RecordError(saved, retryable, luck)
      case NotOpen => Result(StopWatch(saved, luck.cancelled), Stopped, false, false)
      case NoHead => RecordError(saved, false, luck)
      case Open(head, ref, checks) =>
        var w := Refreshed(saved, head, ref);
        if checks.Unread? then RecordError(w, checks.retryable, luck)
        else
          Decide(saved, w.(evaluationErrors := 0), Aggregate(checks.runs, checks.statuses).0, checks.required, luck)
  }

  // ---- The other operations ----

  datatype RetryAnswer = NoWatch | NotYours | HeadMoved | LimitReached | Recorded(retryCount: nat, alerted: bool)

  function RecordRetry(saved: Saved, belongs: bool, head: string, alert: string): (Saved, RetryAnswer) {
    if saved.None? || !saved.value.active then (saved, NoWatch)
    else
      var w := saved.value;
      if !belongs then (saved, NotYours)
      else if w.head != head then (saved, HeadMoved)
      else if w.retryCount >= MaxRetriesPerHead then (saved, LimitReached)
      else
        var first := alert !in w.alertKeys;
        var alerts := if first then Newest(w.alertKeys + [alert], MaxAlertKeys) else w.alertKeys;
        (Some(w.(retryCount := w.retryCount + 1, alertKeys := alerts)), Recorded(w.retryCount + 1, first))
  }

  /** `delivery` is empty when the webhook carries no delivery id. */
  function Accepts(saved: Saved, delivery: string): bool {
    saved.Some? && saved.value.active && (delivery == "" || delivery !in saved.value.deliveryIds)
  }

  function WithDelivery(w: Watch, delivery: string, installation: Option<int>): Watch {
    var installed := if installation.Some? then w.(installation := installation) else w;
    if delivery == "" then installed
    else installed.(deliveryIds := Newest(w.deliveryIds + [delivery], MaxDeliveryIds))
  }

  function Evaluated(saved: Saved, reading: Reading, luck: Luck): Result {
    if saved.None? then Result(None, Missing, false, false) else EvaluateWatch(saved.value, reading, luck)
  }

  /** `scheduled` is false when the watch's job could not be created. */
  function Started(
    saved: Saved, belongs: bool, head: string, ref: string, installation: Option<int>, scheduled: bool): Saved
  {
    if saved.Some? && saved.value.active && !belongs then saved
    else if saved.None? && !scheduled then None
    else if saved.Some? && saved.value.head == head then
      Some(saved.value.(active := true, headRef := ref, installation := installation, evaluationErrors := 0))
    else Some(Watch(true, head, ref, "", 0, installation, 0, [], [], [], 0))
  }

  function Ended(saved: Saved, cancelled: bool): Saved {
    if saved.None? then None else StopWatch(saved.value, cancelled)
  }

  /** The saved record, with each operation as one step under the watch's lock. */
  class WatchRecord {
    var saved: Saved

    constructor ()
      ensures saved == None
    {
      saved := None;
    }

    method Stop(cancelled: bool) returns (found: bool)
      modifies this
      ensures found == old(saved).Some? && saved == Ended(old(saved), cancelled)
    {
      if saved.None? {
        return false;
      }
      if !cancelled {
        var w := saved.value;
        saved := Some(w.(active := false));
        return true;
      }
      saved := None;
      return true;
    }

    method RecordEvaluationError(w: Watch, retryable: bool, luck: Luck) returns (outcome: Outcome)
      modifies this
      ensures Result(saved, outcome, false, false) == RecordError(w, retryable, luck)
    {
      if retryable {
        saved := Some(w);
        return Erred;
      }
      var errors := w.evaluationErrors + 1;
      saved := Some(w.(evaluationErrors := errors));
      if errors < MaxEvaluationErrors {
        return Erred;
      }
      var _ := Stop(luck.cancelled);
      outcome := Stopped;
    }

    method ReportReady(w: Watch, luck: Luck) returns (outcome: Outcome, ghost ready: bool)
      modifies this
      ensures Result(saved, outcome, false, ready) == FinishReady(w, luck)
    {
      ready := false;
      if luck.card == Some(true) || w.readyHead == w.head {
        saved := Some(w);
        return Watching, false;
      }
      if !luck.woken {
        var errors := w.readyErrors + 1;
        saved := Some(w.(readyErrors := errors));
        if errors >= MaxEvaluationErrors {
          var _ := Stop(luck.cancelled);
          return Stopped, false;
        }
        return Erred, false;
      }
      saved := Some(w.(readyErrors := 0, readyHead := w.head));
      return Watching, true;
    }

    method Dispatch(w: Watch, luck: Luck) returns (outcome: Outcome)
      modifies this
      ensures Result(saved, outcome, outcome.Dispatched?, false) == WakeForFailure(w, luck)
    {
      var key := Fingerprint(w.head, w.retryCount);
      if key in w.dispatchKeys {
        saved := Some(w);
        return Duplicate;
      }
      var keyed := w.(dispatchKeys := Newest(w.dispatchKeys + [key], MaxDispatchKeys));
      saved := Some(keyed);
      if !luck.woken {
        saved := Some(keyed.(dispatchKeys := Without(keyed.dispatchKeys, key)));
        return Erred;
      }
      outcome := Dispatched;
    }

    method EvaluatePull(reading: Reading, luck: Luck) returns (outcome: Outcome, ghost ready: bool)
      requires saved.Some? && saved.value.active && saved.value.installation.Some?
      modifies this
      ensures Result(saved, outcome, outcome.Dispatched?, ready) == EvaluateWatch(old(saved).value, reading, luck)
    {
      ready := false;
      var w := saved.value;
      if reading.AppUnavailable? || reading.PullUnavailable? {
        outcome := RecordEvaluationError(w, reading.retryable, luck);
        return;
      }
      if reading.NotOpen? {
        var _ := Stop(luck.cancelled);
        return Stopped, false;
      }
      if reading.NoHead? {
        outcome := RecordEvaluationError(w, false, luck);
        return;
      }
      if reading.ref != "" {
        w := w.(headRef := reading.ref);
      }
      if reading.head != w.head {
        w := w.(head := reading.head, readyHead := "", readyErrors := 0,
                retryCount := 0, dispatchKeys := [], alertKeys := []);
      }
      if reading.checks.Unread? {
        outcome := RecordEvaluationError(w, reading.checks.retryable, luck);
        return;
      }
      w := w.(evaluationErrors := 0);
      var state := Aggregate(reading.checks.runs, reading.checks.statuses).0;
      if state == Pending {
        saved := Some(w);
        return Waiting, false;
      }
      if state == Success {
        if reading.checks.required.Unknown? {
          outcome := RecordEvaluationError(w, false, luck);
          return;
        }
        if reading.checks.required.unreported {
          saved := Some(w);
          return Waiting, false;
        }
        outcome, ready := ReportReady(w, luck);
        return;
      }
      if state == Blocked || w.retryCount >= MaxRetriesPerHead {
        var _ := Stop(luck.cancelled);
        return Stopped, false;
      }
      outcome := Dispatch(w, luck);
    }

    method Evaluate(reading: Reading, luck: Luck) returns (outcome: Outcome, ghost ready: bool)
      modifies this
      ensures Result(saved, outcome, outcome.Dispatched?, ready) == Evaluated(old(saved), reading, luck)
    {
      ready := false;
      if saved.None? {
        return Missing, false;
      }
      if !saved.value.active {
        var _ := Stop(luck.cancelled);
        return Stopped, false;
      }
      if saved.value.installation.None? {
        outcome := RecordEvaluationError(saved.value, false, luck);
        return;
      }
      outcome, ready := EvaluatePull(reading, luck);
    }

    method Webhook(delivery: string, installation: Option<int>, reading: Reading, luck: Luck)
      returns (dispatched: bool, ghost ready: bool)
      modifies this
      ensures !Accepts(old(saved), delivery) ==> !dispatched && !ready && saved == old(saved)
      ensures Accepts(old(saved), delivery) ==>
                var r := EvaluateWatch(WithDelivery(old(saved).value, delivery, installation), reading, luck);
                saved == r.saved && dispatched == r.woke && ready == r.ready
    {
      ready := false;
      if saved.None? || !saved.value.active {
        return false, false;
      }
      var current := saved.value;
      if installation.Some? && installation != current.installation {
        current := current.(installation := installation);
      }
      if delivery != "" {
        if delivery in current.deliveryIds {
          return false, false;
        }
        current := current.(deliveryIds := Newest(current.deliveryIds + [delivery], MaxDeliveryIds));
      }
      saved := Some(current);
      var outcome;
      outcome, ready := Evaluate(reading, luck);
      dispatched := outcome == Dispatched;
    }

    method Retry(belongs: bool, head: string, alert: string) returns (answer: RetryAnswer)
      modifies this
      ensures (saved, answer) == RecordRetry(old(saved), belongs, head, alert)
    {
      if saved.None? || !saved.value.active {
        return NoWatch;
      }
      var w := saved.value;
      if !belongs {
        return NotYours;
      }
      if w.head != head {
        return HeadMoved;
      }
      if w.retryCount >= MaxRetriesPerHead {
        return LimitReached;
      }
      var first := alert !in w.alertKeys;
      w := w.(retryCount := w.retryCount + 1);
      if first {
        w := w.(alertKeys := Newest(w.alertKeys + [alert], MaxAlertKeys));
      }
      saved := Some(w);
      answer := Recorded(w.retryCount, first);
    }

    method Start(belongs: bool, head: string, ref: string, installation: Option<int>, scheduled: bool)
      returns (ok: bool)
      modifies this
      ensures saved == Started(old(saved), belongs, head, ref, installation, scheduled)
      ensures ok <==> scheduled && !(old(saved).Some? && old(saved).value.active && !belongs)
    {
      var existing := saved;
      if existing.Some? && existing.value.active && !belongs {
        return false;
      }
      var carried := existing.Some? && existing.value.head == head;
      saved := Some(Watch(
        true, head, ref,
        if carried then existing.value.readyHead else "",
        if carried then existing.value.readyErrors else 0,
        installation,
        if carried then existing.value.retryCount else 0,
        if carried then existing.value.dispatchKeys else [],
        if carried then existing.value.deliveryIds else [],
        if carried then existing.value.alertKeys else [],
        0));
      if !scheduled {
        if existing.None? {
          saved := None;
        }
        return false;
      }
      ok := true;
    }
  }
}
