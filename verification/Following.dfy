/** Following a run across dropped connections, and a task across the runs of its thread. */
module Following {
  import opened NewestWindow
  import opened Options
  import opened Sse
  import opened Collector

  // ---- One run, over as many connections as it takes ----

  const MaxReconnects := 10
  const StableStreamMs := 60_000

  /** One try: opening it fails or gives a body (`None` for a response without one), and it
      lasts some time. */
  datatype Connection = Refused(cause: Cause, ms: nat) | Opened(body: Option<Body>, ms: nat)

  predicate Reconnectable(cause: Cause) {
    if cause.ApiError? then RetryableStatus(cause.status) else cause.OtherError?
  }

  /** What one try comes to; a failure that may pass counts as closed. */
  function Tried(decode: Decoder, runId: Option<string>, c: Connection): Attempt {
    var a := if c.Refused? then Raised(c.cause)
             else if c.body.None? then Ended(Outcome(Closed, Some("empty event stream"), None))
             else Attempted(decode, runId, c.body.value);
    if a.Raised? && Reconnectable(a.cause) then Ended(Outcome(Closed, Some(a.cause.message), None)) else a
  }

  predicate ClosedOnly(decode: Decoder, runId: Option<string>, c: Connection) {
    var a := Tried(decode, runId, c);
    a.Ended? && a.outcome.status == Closed
  }

  predicate Stable(c: Connection) {
    c.ms >= StableStreamMs
  }

  /** The reconnect budget used after `n` closed connections. */
  function Attempts(conns: seq<Connection>, n: nat): nat
    requires n <= |conns|
  {
    if n == 0 then 0 else 1 + if Stable(conns[n - 1]) then 0 else Attempts(conns, n - 1)
  }

  /** The wait before the next try once the budget stands at `attempts`: doubling, capped. */
  function Backoff(attempts: nat): nat {
    if attempts == 0 then 1_000
    else if Backoff(attempts - 1) * 2 <= 30_000 then Backoff(attempts - 1) * 2 else 30_000
  }

  /** Every one of the first `n` tries ended closed. */
  predicate AllClosed(decode: Decoder, runId: Option<string>, conns: seq<Connection>, n: nat)
    requires n <= |conns|
  {
    forall k | 0 <= k < n :: ClosedOnly(decode, runId, conns[k])
  }

  predicate WithinBudget(conns: seq<Connection>, n: nat)
    requires n <= |conns|
  {
    forall k | 0 < k <= n :: Attempts(conns, k) <= MaxReconnects
  }

  /** The waits after the first `n` tries. */
  function Waits(conns: seq<Connection>, n: nat): seq<nat>
    requires n <= |conns|
  {
    if n == 0 then [] else Waits(conns, n - 1) + [Backoff(Attempts(conns, n) - 1)]
  }

  datatype Followed = Returned(outcome: Outcome) | Threw(cause: Cause) | Waiting

  /** How following a run ends, from the n-th connection on; `Waiting` when it would need more. */
  function RunOutcome(decode: Decoder, runId: Option<string>, conns: seq<Connection>, n: nat): Followed
    requires n <= |conns|
    decreases |conns| - n
  {
    if n == |conns| then Waiting
    else
      var a := Tried(decode, runId, conns[n]);
      if a.Raised? then Threw(a.cause)
      else if a.outcome.status != Closed || Attempts(conns, n + 1) > MaxReconnects then Returned(a.outcome)
      else RunOutcome(decode, runId, conns, n + 1)
  }

  /** Connections that end closed within the budget decide nothing. */
  lemma {:induction false} ClosedTriesAreSkipped(decode: Decoder, runId: Option<string>, conns: seq<Connection>, n: nat)
    requires n <= |conns| && AllClosed(decode, runId, conns, n) && WithinBudget(conns, n)
    ensures RunOutcome(decode, runId, conns, 0) == RunOutcome(decode, runId, conns, n)
    decreases n
  {
    if n > 0 {
      ClosedTriesAreSkipped(decode, runId, conns, n - 1);
      assert ClosedOnly(decode, runId, conns[n - 1]) && Attempts(conns, n) <= MaxReconnects;
    }
  }

  method TryOnce(decode: Decoder, runId: Option<string>, conn: Connection) returns (attempt: Attempt)
    ensures attempt == Tried(decode, runId, conn)
  {
    if conn.Refused? {
      attempt := Raised(conn.cause);
    } else {
      attempt := CollectRun(decode, conn.body, runId);
    }
    if attempt.Raised? && Reconnectable(attempt.cause) {
      attempt := Ended(Outcome(Closed, Some(attempt.cause.message), None));
    }
  }

  /** `followRun` over the connections the backend grants it; `Waiting` when it would try again.
      `used` counts the tries, `waits` the time slept between them. */
  method FollowRun(decode: Decoder, runId: Option<string>, conns: seq<Connection>)
    returns (r: Followed, used: nat, waits: seq<nat>)
    ensures used <= |conns|
    ensures r.Waiting? ==> used == |conns| && AllClosed(decode, runId, conns, used) && WithinBudget(conns, used)
    ensures !r.Waiting? ==>
              && used > 0 && AllClosed(decode, runId, conns, used - 1) && WithinBudget(conns, used - 1)
              && Tried(decode, runId, conns[used - 1]) == if r.Threw? then Raised(r.cause) else Ended(r.outcome)
    ensures r.Returned? && r.outcome.status == Closed ==> Attempts(conns, used) > MaxReconnects
    ensures waits == Waits(conns, if r.Waiting? then used else used - 1)
  {
    var attempts, backoff := 0, 1_000;
    used, waits := 0, [];
    while used < |conns|
      invariant used <= |conns| && AllClosed(decode, runId, conns, used) && WithinBudget(conns, used)
      invariant attempts == Attempts(conns, used) <= MaxReconnects && backoff == Backoff(attempts)
      invariant waits == Waits(conns, used)
    {
      var attempt := TryOnce(decode, runId, conns[used]);
      if attempt.Raised? {
        return Threw(attempt.cause), used + 1, waits;
      }
      if attempt.outcome.status != Closed {
        return Returned(attempt.outcome), used + 1, waits;
      }
      attempts, backoff := CountClosed(conns, used, attempts, backoff);
      if attempts > MaxReconnects {
        return Returned(attempt.outcome), used + 1, waits;
      }
      used := used + 1;
      waits := waits + [backoff];
      backoff := if backoff * 2 <= 30_000 then backoff * 2 else 30_000;
    }
    r := Waiting;
  }

  /** Charges one closed connection to the budget, which a long one refills first. */
  method CountClosed(conns: seq<Connection>, n: nat, attempts: nat, backoff: nat)
    returns (counted: nat, wait: nat)
    requires n < |conns| && attempts == Attempts(conns, n) && backoff == Backoff(attempts)
    ensures counted == Attempts(conns, n + 1) > 0 && wait == Backoff(counted - 1)
  {
    counted, wait := attempts, backoff;
    if conns[n].ms >= StableStreamMs {
      counted, wait := 0, 1_000;
    }
    counted := counted + 1;
  }

  /** The budget reaches `m + 1` exactly when the last `m` of the connections so far were all
      short ones. */
  lemma {:induction false} AttemptsCountShortConnections(conns: seq<Connection>, n: nat, m: nat)
    requires n <= |conns|
    ensures Attempts(conns, n) > m <==> n > m && forall k | n - m <= k < n :: !Stable(conns[k])
    decreases n
  {
    if n > 0 && m > 0 {
      AttemptsCountShortConnections(conns, n - 1, m - 1);
      if Attempts(conns, n) > m {
        assert !Stable(conns[n - 1]);
      } else if n > m && !Stable(conns[n - 1]) {
        var k :| n - m <= k < n - 1 && Stable(conns[k]);
      }
    }
  }

  /** Giving up takes eleven tries in a row that end closed, the last ten of them short; and
      as long as one of the last ten was a long one, it tries again. */
  lemma GivingUpTakesTenShortConnections(conns: seq<Connection>, n: nat)
    requires n <= |conns|
    ensures Attempts(conns, n) > MaxReconnects
       <==> n > 10 && forall k | n - 10 <= k < n :: conns[k].ms < 60_000
  {
    AttemptsCountShortConnections(conns, n, 10);
  }

  lemma {:induction false} BackoffIsBounded(attempts: nat)
    ensures 1_000 <= Backoff(attempts) <= 30_000
    ensures attempts > 0 ==> Backoff(attempts - 1) <= Backoff(attempts)
  {
    if attempts > 0 {
      BackoffIsBounded(attempts - 1);
    }
  }

  predicate DeliversLog(c: Connection, log: string) {
    c.Opened? && c.body.Some? ==> Delivers(c.body.value, log)
  }

  /** When every connection delivers some prefix of one log and then drops, a run that ends
      other than closed ends as collecting the whole log once does. */
  method FollowLog(decode: Decoder, runId: Option<string>, conns: seq<Connection>, ghost log: string)
    returns (r: Followed)
    requires forall k | 0 <= k < |conns| :: DeliversLog(conns[k], log)
    ensures r == RunOutcome(decode, runId, conns, 0)
    ensures r.Returned? && r.outcome.status != Closed ==> r.outcome == Collect(decode, runId, log)
  {
    var used, waits;
    r, used, waits := FollowRun(decode, runId, conns);
    TriesDecide(decode, runId, conns, r, used);
    OutcomeAsTheLog(decode, runId, conns, log, 0);
  }

  /** What `FollowRun` ensures of its tries leaves one outcome. */
  lemma TriesDecide(decode: Decoder, runId: Option<string>, conns: seq<Connection>, r: Followed, used: nat)
    requires used <= |conns|
    requires r.Waiting? ==> used == |conns| && AllClosed(decode, runId, conns, used) && WithinBudget(conns, used)
    requires !r.Waiting? ==>
               && used > 0 && AllClosed(decode, runId, conns, used - 1) && WithinBudget(conns, used - 1)
               && Tried(decode, runId, conns[used - 1]) == if r.Threw? then Raised(r.cause) else Ended(r.outcome)
    requires r.Returned? && r.outcome.status == Closed ==> Attempts(conns, used) > MaxReconnects
    ensures r == RunOutcome(decode, runId, conns, 0)
  {
    ClosedTriesAreSkipped(decode, runId, conns, if r.Waiting? then used else used - 1);
  }

  lemma TriedAsTheLog(decode: Decoder, runId: Option<string>, c: Connection, log: string)
    requires DeliversLog(c, log)
    ensures var a := Tried(decode, runId, c);
            a.Ended? && a.outcome.status != Closed ==> a.outcome == Collect(decode, runId, log)
  {
    if c.Opened? && c.body.Some? {
      PrefixDecidesAsTheLog(decode, runId, c.body.value, log);
    }
  }

  /** The same of the outcome the loop comes to, from any of its tries on. */
  lemma {:induction false} OutcomeAsTheLog(
    decode: Decoder, runId: Option<string>, conns: seq<Connection>, log: string, n: nat)
    requires n <= |conns| && forall k | 0 <= k < |conns| :: DeliversLog(conns[k], log)
    ensures var r := RunOutcome(decode, runId, conns, n);
            r.Returned? && r.outcome.status != Closed ==> r.outcome == Collect(decode, runId, log)
    decreases |conns| - n
  {
    if n < |conns| {
      TriedAsTheLog(decode, runId, conns[n], log);
      OutcomeAsTheLog(decode, runId, conns, log, n + 1);
    }
  }

  /** A connection that brings an error frame before anything decided is tried again when the
      frame's status may pass and the budget allows, and is the end otherwise. */
  lemma AnErrorFrameIsRetried(
    decode: Decoder, runId: Option<string>, conns: seq<Connection>, n: nat, body: Body, before: seq<Frame>,
    f: Frame, after: seq<Frame>)
    requires n < |conns| && conns[n].Opened? && conns[n].body == Some(body) && Attempts(conns, n + 1) <= MaxReconnects
    requires Frames(Concat(body.chunks)) == before + ([f] + after)
    requires HandleAll(decode, runId, Initial(runId), before).1.None? && f.event == Some("error")
    ensures var r := RunOutcome(decode, runId, conns, n);
            if TransientError(decode(f.data)) then r == RunOutcome(decode, runId, conns, n + 1)
            else r.Returned? && r.outcome.status == Failed
  {
    var c := HandleAll(decode, runId, Initial(runId), before).0;
    HandleConcat(decode, runId, Initial(runId), before, [f] + after);
    HandleConcat(decode, runId, c, [f], after);
    HandleOne(decode, runId, c, f);
    AnErrorFrameDecides(decode, runId, c, f);
  }

  /** Of the failures to open a stream or to read it on, those that may pass are tried again. */
  lemma WhichFailuresAreRetried(decode: Decoder, runId: Option<string>, conns: seq<Connection>, n: nat, cause: Cause)
    requires n < |conns| && Attempts(conns, n + 1) <= MaxReconnects
    requires match conns[n]
             case Refused(refusal, _) => refusal == cause
             case Opened(body, _) =>
               && body.Some? && body.value.broken == Some(cause)
               && HandleAll(decode, runId, Initial(runId), Frames(Concat(body.value.chunks))).1.None?
    ensures RunOutcome(decode, runId, conns, n) ==
              match cause
              case ApiError(status, _) =>
                if status >= 500.0 || status == 408.0 || status == 429.0
                then RunOutcome(decode, runId, conns, n + 1) else Threw(cause)
              case OtherError(_) => RunOutcome(decode, runId, conns, n + 1)
              case _ => Threw(cause)
  {
  }

  /** The waits double from one second up to thirty. */
  lemma {:induction false} BackoffIsTheLadder(attempts: nat)
    ensures Backoff(attempts) ==
              if attempts < 5 then [1_000, 2_000, 4_000, 8_000, 16_000][attempts] else 30_000
  {
    if attempts > 0 {
      BackoffIsTheLadder(attempts - 1);
    }
  }

  /** The waits as they come: a second after the first connection and after every long one, and
      otherwise twice the wait before, up to thirty seconds. */
  lemma {:induction false} WaitsAsTheyCome(conns: seq<Connection>, n: nat, i: nat)
    requires i < n <= |conns|
    ensures |Waits(conns, n)| == n
    ensures Waits(conns, n)[i] ==
              if i == 0 || conns[i].ms >= 60_000 then 1_000
              else if Waits(conns, n)[i - 1] <= 15_000 then 2 * Waits(conns, n)[i - 1] else 30_000
    decreases n
  {
    var before := Waits(conns, n - 1);
    assert Waits(conns, n) == before + [Backoff(Attempts(conns, n) - 1)];
    if n > 1 {
      WaitsAsTheyCome(conns, n - 1, if i < n - 1 then i else i - 1);
      LastWait(conns, n - 1);
      assert before[n - 2] == Backoff(Attempts(conns, n - 1) - 1);
      if i == n - 1 {
        assert Waits(conns, n)[i - 1] == before[n - 2];
      } else if i > 0 {
        assert Waits(conns, n)[i - 1] == before[i - 1];
      }
    }
  }

  lemma LastWait(conns: seq<Connection>, n: nat)
    requires 0 < n <= |conns|
    ensures |Waits(conns, n)| > 0 && Waits(conns, n)[|Waits(conns, n)| - 1] == Backoff(Attempts(conns, n) - 1)
  {
  }

  /** A response without a body counts as closed. */
  lemma AMissingBodyIsRetried(decode: Decoder, runId: Option<string>, conns: seq<Connection>, n: nat)
    requires n < |conns| && conns[n].Opened? && conns[n].body.None?
    ensures RunOutcome(decode, runId, conns, n) ==
              if Attempts(conns, n + 1) <= 10 then RunOutcome(decode, runId, conns, n + 1)
              else Returned(Outcome(Closed, Some("empty event stream"), None))
  {
  }

  // ---- A task: the run the CLI started, and every run its thread starts after it ----

  datatype Poll = Activity(runs: seq<string>, settled: bool) | Unsupported | PollFailed(cause: Cause)

  /** How following a run ends, if it does. */
  type Follow = Option<string> -> Attempt

  /** The answer to the n-th activity request, which names the run last followed. */
  type Polls = (nat, Option<string>) -> Poll

  datatype TaskEnd = Done(outcome: Outcome) | TaskThrew(cause: Cause) | StillWaiting

  /** Where the loop stands: the runs followed so far, how the last one ended, the result so
      far, and the failed polls in a row. */
  datatype Task = Task(followed: seq<Option<string>>, last: Outcome, result: Option<CliResult>, failures: nat)

  function FinalOutcome(t: Task): Outcome {
    t.last.(result := t.result)
  }

  datatype Progress = Stop(end: TaskEnd, task: Task) | Go(task: Task)

  /** One answered poll. */
  function Step(follow: Follow, poll: Poll, t: Task): Progress {
    match poll
    case PollFailed(cause) =>
      if !Reconnectable(cause) || t.failures + 1 > MaxReconnects then Stop(TaskThrew(cause), t)
      else Go(t.(failures := t.failures + 1))
    case Unsupported => Stop(Done(FinalOutcome(t)), t)
    case Activity(runs, settled) =>
      if runs != [] then
        var a := follow(Some(runs[0]));
        if a.Raised? then Stop(TaskThrew(a.cause), t)
        else Go(Task(t.followed + [Some(runs[0])], a.outcome, LaterResult(t.result, a.outcome.result), 0))
      else if settled then Stop(Done(FinalOutcome(t)), t)
      else Go(t.(failures := 0))
  }

  function LastRun(t: Task): Option<string>
    requires t.followed != []
  {
    t.followed[|t.followed| - 1]
  }

  /** The loop from its n-th poll on, answered at most `limit` times. */
  function TaskFrom(follow: Follow, polls: Polls, t: Task, n: nat, limit: nat): (r: (TaskEnd, Task))
    requires t.followed != []
    ensures r.1.followed != []
    decreases limit - n
  {
    if t.last.status == Closed then (Done(FinalOutcome(t)), t)
    else if n >= limit then (StillWaiting, t)
    else
      match Step(follow, polls(n, LastRun(t)), t)
      case Stop(end, last) => (end, last)
      case Go(next) => TaskFrom(follow, polls, next, n + 1, limit)
  }

  function FirstRun(runId: Option<string>, outcome: Outcome): Task {
    Task([runId], outcome, outcome.result, 0)
  }

  method FollowTask(follow: Follow, polls: Polls, runId: Option<string>, limit: nat)
    returns (end: TaskEnd, followed: seq<Option<string>>)
    ensures follow(runId).Raised? ==> end == TaskThrew(follow(runId).cause) && followed == [runId]
    ensures follow(runId).Ended? ==>
              var (e, t) := TaskFrom(follow, polls, FirstRun(runId, follow(runId).outcome), 0, limit);
              end == e && followed == t.followed
  {
    followed := [runId];
    var first := follow(runId);
    if first.Raised? {
      return TaskThrew(first.cause), followed;
    }
    var outcome, result, failures, n := first.outcome, first.outcome.result, 0, 0;
    ghost var all := TaskFrom(follow, polls, FirstRun(runId, outcome), 0, limit);
    while outcome.status != Closed
      invariant n <= limit && followed != []
      invariant all == TaskFrom(follow, polls, Task(followed, outcome, result, failures), n, limit)
      decreases limit - n
    {
      if n == limit {
        return StillWaiting, followed;
      }
      var poll := polls(n, followed[|followed| - 1]);
      n := n + 1;
      if poll.PollFailed? {
        failures := failures + 1;
        if !Reconnectable(poll.cause) || failures > MaxReconnects {
          return TaskThrew(poll.cause), followed;
        }
        continue;
      }
      failures := 0;
      if poll.Unsupported? {
        break;
      }
      if poll.runs != [] {
        var a := follow(Some(poll.runs[0]));
        if a.Raised? {
          return TaskThrew(a.cause), followed;
        }
        followed := followed + [Some(poll.runs[0])];
        outcome := a.outcome;
        result := LaterResult(result, outcome.result);
        continue;
      }
      if poll.settled {
        break;
      }
    }
    end := Done(outcome.(result := result));
  }

  /** The results of some runs, in the order they were followed. */
  function Results(follow: Follow, runs: seq<Option<string>>): seq<Option<CliResult>>
    requires forall i | 0 <= i < |runs| :: follow(runs[i]).Ended?
  {
    seq(|runs|, i requires 0 <= i < |runs| => follow(runs[i]).outcome.result)
  }

  /** Every run followed ended, the last one as recorded, and the result is one fold. */
  predicate Faithful(follow: Follow, t: Task) {
    && t.followed != []
    && (forall i | 0 <= i < |t.followed| :: follow(t.followed[i]).Ended?)
    && follow(t.followed[|t.followed| - 1]) == Ended(t.last)
    && t.result == Fold(None, Results(follow, t.followed))
  }

  lemma FollowingOneMore(follow: Follow, t: Task, run: Option<string>)
    requires Faithful(follow, t) && follow(run).Ended?
    ensures var o := follow(run).outcome;
            Faithful(follow, Task(t.followed + [run], o, LaterResult(t.result, o.result), 0))
  {
    var o := follow(run).outcome;
    assert Results(follow, t.followed + [run]) == Results(follow, t.followed) + [o.result];
    FoldConcat(None, Results(follow, t.followed), [o.result]);
    assert Fold(t.result, [o.result]) == LaterResult(t.result, o.result);
  }

  lemma StepKeepsFaith(follow: Follow, poll: Poll, t: Task)
    requires Faithful(follow, t)
    ensures var p := Step(follow, poll, t);
            && Faithful(follow, p.task) && t.followed <= p.task.followed
            && (p.Stop? && p.end.Done? ==> p.end.outcome == FinalOutcome(p.task))
  {
    if poll.Activity? && poll.runs != [] && follow(Some(poll.runs[0])).Ended? {
      FollowingOneMore(follow, t, Some(poll.runs[0]));
    }
  }

  /** However the loop ends, it has followed what it says, and its result is the fold of the
      results of the followed runs in order. */
  lemma {:induction false} TaskResultIsOneFold(follow: Follow, polls: Polls, t: Task, n: nat, limit: nat)
    requires Faithful(follow, t)
    ensures var (end, last) := TaskFrom(follow, polls, t, n, limit);
            && Faithful(follow, last) && t.followed <= last.followed
            && (end.Done? ==> end.outcome == FinalOutcome(last))
    decreases limit - n
  {
    if t.last.status != Closed && n < limit {
      StepKeepsFaith(follow, polls(n, LastRun(t)), t);
      var p := Step(follow, polls(n, LastRun(t)), t);
      if p.Go? {
        TaskResultIsOneFold(follow, polls, p.task, n + 1, limit);
      }
    }
  }

  /** Activity answers list the thread's runs after the one named, oldest first, as far as
      they have started. */
  ghost predicate Honest(polls: Polls, thread: seq<string>) {
    forall n: nat, k | 0 <= k < |thread| ::
      var p := polls(n, Some(thread[k]));
      p.Activity? ==> p.runs <= thread[k + 1..]
  }

  predicate Consecutive(followed: seq<Option<string>>, thread: seq<string>, start: nat) {
    && start + |followed| <= |thread|
    && forall i | 0 <= i < |followed| :: followed[i] == Some(thread[start + i])
  }

  /** The runs followed are consecutive runs of the thread, none skipped and none twice. */
  lemma {:induction false} RunsAreFollowedInOrder(
    follow: Follow, polls: Polls, thread: seq<string>, start: nat, t: Task, n: nat, limit: nat)
    requires Honest(polls, thread) && t.followed != [] && Consecutive(t.followed, thread, start)
    ensures Consecutive(TaskFrom(follow, polls, t, n, limit).1.followed, thread, start)
    decreases limit - n
  {
    if t.last.status != Closed && n < limit {
      var k := start + |t.followed| - 1;
      var poll := polls(n, Some(thread[k]));
      assert LastRun(t) == Some(thread[k]);
      assert poll.Activity? ==> poll.runs <= thread[k + 1..];
      assert poll.Activity? && poll.runs != [] ==> poll.runs[0] == thread[k + 1..][0];
      var p := Step(follow, poll, t);
      if p.Go? {
        RunsAreFollowedInOrder(follow, polls, thread, start, p.task, n + 1, limit);
      }
    }
  }

  lemma ConsecutiveRunsAreDistinct(followed: seq<Option<string>>, thread: seq<string>, start: nat)
    requires NoRepeats(thread) && Consecutive(followed, thread, start)
    ensures forall a, b | 0 <= a < b < |followed| :: followed[a] != followed[b]
  {
    forall a, b | 0 <= a < b < |followed| ensures followed[a] != followed[b] {
      assert thread[start + a] != thread[start + b];
    }
  }

  /** Ten activity requests in a row may fail in passing, counted since the last that was
      answered; the eleventh failure ends the loop. */
  lemma {:induction false} TenFailedPollsAreRetried(
    follow: Follow, polls: Polls, t: Task, n: nat, limit: nat, m: nat)
    requires t.followed != [] && t.last.status != Closed && n + m <= limit && t.failures <= 10
    requires forall i | n <= i < n + m :: var p := polls(i, LastRun(t)); p.PollFailed? && Reconnectable(p.cause)
    ensures var r := TaskFrom(follow, polls, t, n, limit);
            if t.failures + m <= 10 then r == TaskFrom(follow, polls, t.(failures := t.failures + m), n + m, limit)
            else r.0 == TaskThrew(polls(n + 10 - t.failures, LastRun(t)).cause)
    decreases m
  {
    if m > 0 {
      assert polls(n, LastRun(t)).PollFailed?;
      if t.failures < 10 {
        TenFailedPollsAreRetried(follow, polls, t.(failures := t.failures + 1), n + 1, limit, m - 1);
      }
    }
  }

  /** From the start, eleven passing failures in a row end the task with the last one's cause. */
  lemma AnOutageEndsTheTask(follow: Follow, polls: Polls, runId: Option<string>, limit: nat)
    requires follow(runId).Ended? && follow(runId).outcome.status != Closed && limit >= 11
    requires forall i | 0 <= i < 11 :: polls(i, runId).PollFailed? && Reconnectable(polls(i, runId).cause)
    ensures TaskFrom(follow, polls, FirstRun(runId, follow(runId).outcome), 0, limit).0
         == TaskThrew(polls(10, runId).cause)
  {
    TenFailedPollsAreRetried(follow, polls, FirstRun(runId, follow(runId).outcome), 0, limit, 11);
  }

  /** An answer that nothing has started yet, or a new run that ends, clears the count. */
  lemma AnAnswerClearsTheCount(follow: Follow, polls: Polls, t: Task, n: nat, limit: nat, runs: seq<string>)
    requires t.followed != [] && t.last.status != Closed && n < limit
    requires polls(n, LastRun(t)) == Activity(runs, false) && (runs != [] ==> follow(Some(runs[0])).Ended?)
    ensures var next := if runs == [] then t.(failures := 0)
                        else var o := follow(Some(runs[0])).outcome;
                             Task(t.followed + [Some(runs[0])], o, LaterResult(t.result, o.result), 0);
            TaskFrom(follow, polls, t, n, limit) == TaskFrom(follow, polls, next, n + 1, limit)
  {
  }

  /** The answer is final only once nothing is left: the loop is done when a stream closed for
      good, or at a poll `at` where the backend cannot say, or says that the thread settled with
      no run left. */
  lemma {:induction false} DoneMeansNothingIsLeft(follow: Follow, polls: Polls, t: Task, n: nat, limit: nat)
    returns (at: nat)
    requires t.followed != []
    ensures var (end, last) := TaskFrom(follow, polls, t, n, limit);
            end.Done? && last.last.status != Closed ==>
              && n <= at < limit && TaskFrom(follow, polls, last, at, limit) == (end, last)
              && (polls(at, LastRun(last)) == Unsupported || polls(at, LastRun(last)) == Activity([], true))
    decreases limit - n
  {
    at := n;
    if t.last.status != Closed && n < limit {
      var p := Step(follow, polls(n, LastRun(t)), t);
      if p.Go? {
        at := DoneMeansNothingIsLeft(follow, polls, p.task, n + 1, limit);
      }
    }
  }

  // ---- A task over the thread's log ----

  /** The connections granted to each run followed, as many as its loop takes, make `follow`
      what `FollowRun` comes to. */
  ghost predicate FollowsRuns(follow: Follow, decode: Decoder, conns: Option<string> -> seq<Connection>) {
    forall run :: RunOutcome(decode, run, conns(run), 0) ==
      match follow(run)
      case Ended(outcome) => Returned(outcome)
      case Raised(cause) => Threw(cause)
  }

  /** Every connection replays the thread's log from its start, as far as it gets. */
  ghost predicate ReplaysLog(conns: Option<string> -> seq<Connection>, log: string) {
    forall run, k | 0 <= k < |conns(run)| :: DeliversLog(conns(run)[k], log)
  }

  /** The result calls a run makes in the log. */
  function CallsIn(decode: Decoder, log: string, run: Option<string>): seq<Option<CliResult>> {
    ResultCalls(decode, run, Initial(run), Frames(log))
  }

  /** The result calls of some runs, one run after another. */
  function AllCalls(decode: Decoder, log: string, runs: seq<Option<string>>): seq<Option<CliResult>> {
    if runs == [] then []
    else AllCalls(decode, log, runs[..|runs| - 1]) + CallsIn(decode, log, runs[|runs| - 1])
  }

  lemma CollectedIsFold(decode: Decoder, log: string, run: Option<string>)
    ensures Collect(decode, run, log).result == Fold(None, CallsIn(decode, log, run))
  {
    ResultIsFold(decode, run, Initial(run), Frames(log));
  }

  /** Runs that ended as collecting the log does: folding their results is folding their calls. */
  lemma {:induction false} ResultsFoldCalls(follow: Follow, decode: Decoder, log: string, runs: seq<Option<string>>)
    requires forall i | 0 <= i < |runs| :: follow(runs[i]) == Ended(Collect(decode, runs[i], log))
    ensures Fold(None, Results(follow, runs)) == Fold(None, AllCalls(decode, log, runs))
    decreases |runs|
  {
    if runs != [] {
      var front, run := runs[..|runs| - 1], runs[|runs| - 1];
      var result, calls := follow(run).outcome.result, CallsIn(decode, log, run);
      ResultsFoldCalls(follow, decode, log, front);
      CollectedIsFold(decode, log, run);
      assert Results(follow, runs) == Results(follow, front) + [result];
      FoldConcat(None, Results(follow, front), [result]);
      FoldConcat(None, AllCalls(decode, log, front), calls);
      var before := Fold(None, Results(follow, front));
      assert Fold(before, [result]) == LaterResult(before, result);
      FoldFromStart(before, calls);
    }
  }

  /** Every run but the last one followed was followed to its own end. */
  predicate EarlierDecided(follow: Follow, t: Task) {
    forall i | 0 <= i < |t.followed| - 1 ::
      follow(t.followed[i]).Ended? && follow(t.followed[i]).outcome.status != Closed
  }

  lemma {:induction false} EarlierRunsAreDecided(follow: Follow, polls: Polls, t: Task, n: nat, limit: nat)
    requires Faithful(follow, t) && EarlierDecided(follow, t)
    ensures EarlierDecided(follow, TaskFrom(follow, polls, t, n, limit).1)
    decreases limit - n
  {
    if t.last.status != Closed && n < limit {
      StepKeepsFaith(follow, polls(n, LastRun(t)), t);
      var p := Step(follow, polls(n, LastRun(t)), t);
      if p.Go? {
        assert EarlierDecided(follow, p.task);
        EarlierRunsAreDecided(follow, polls, p.task, n + 1, limit);
      }
    }
  }

  lemma DecidedRunsAreCollected(
    follow: Follow, decode: Decoder, conns: Option<string> -> seq<Connection>, log: string, run: Option<string>)
    requires FollowsRuns(follow, decode, conns) && ReplaysLog(conns, log)
    requires follow(run).Ended? && follow(run).outcome.status != Closed
    ensures follow(run) == Ended(Collect(decode, run, log))
  {
    assert RunOutcome(decode, run, conns(run), 0) == Returned(follow(run).outcome);
    OutcomeAsTheLog(decode, run, conns(run), log, 0);
  }

  /** The same of several runs: their results fold to what their calls in the log do. */
  lemma DecidedRunsFoldCalls(
    follow: Follow, decode: Decoder, conns: Option<string> -> seq<Connection>, log: string, runs: seq<Option<string>>)
    requires FollowsRuns(follow, decode, conns) && ReplaysLog(conns, log)
    requires forall i | 0 <= i < |runs| :: follow(runs[i]).Ended? && follow(runs[i]).outcome.status != Closed
    ensures Fold(None, Results(follow, runs)) == Fold(None, AllCalls(decode, log, runs))
  {
    forall i | 0 <= i < |runs| ensures follow(runs[i]) == Ended(Collect(decode, runs[i], log)) {
      DecidedRunsAreCollected(follow, decode, conns, log, runs[i]);
    }
    ResultsFoldCalls(follow, decode, log, runs);
  }

  lemma LastResultFolds(follow: Follow, t: Task)
    requires Faithful(follow, t)
    ensures t.result == LaterResult(Fold(None, Results(follow, t.followed[..|t.followed| - 1])), t.last.result)
  {
    var front := t.followed[..|t.followed| - 1];
    var before := Fold(None, Results(follow, front));
    assert Results(follow, t.followed) == Results(follow, front) + [t.last.result];
    FoldConcat(None, Results(follow, front), [t.last.result]);
    assert Fold(before, [t.last.result]) == LaterResult(before, t.last.result);
  }

  /** The result calls a task's result is made of: all of the runs', in order; or when the last
      stream closed for good, all of the earlier runs', and then what that stream had reported. */
  function ReportedResult(decode: Decoder, log: string, t: Task): Option<CliResult>
    requires t.followed != []
  {
    if t.last.status != Closed then Fold(None, AllCalls(decode, log, t.followed))
    else LaterResult(Fold(None, AllCalls(decode, log, t.followed[..|t.followed| - 1])), t.last.result)
  }

  lemma FaithfulResultIsReported(
    follow: Follow, decode: Decoder, conns: Option<string> -> seq<Connection>, log: string, t: Task)
    requires FollowsRuns(follow, decode, conns) && ReplaysLog(conns, log)
    requires Faithful(follow, t) && EarlierDecided(follow, t)
    ensures t.result == ReportedResult(decode, log, t)
  {
    if t.last.status != Closed {
      DecidedRunsFoldCalls(follow, decode, conns, log, t.followed);
    } else {
      DecidedRunsFoldCalls(follow, decode, conns, log, t.followed[..|t.followed| - 1]);
      LastResultFolds(follow, t);
    }
  }

  /** Over connections that replay one log, however the task loop ends, its result is one fold
      over the result calls of the runs it followed, in order. */
  lemma EveryResultCallIsFolded(
    follow: Follow, decode: Decoder, conns: Option<string> -> seq<Connection>, log: string,
    polls: Polls, runId: Option<string>, limit: nat)
    requires FollowsRuns(follow, decode, conns) && ReplaysLog(conns, log) && follow(runId).Ended?
    ensures var (end, t) := TaskFrom(follow, polls, FirstRun(runId, follow(runId).outcome), 0, limit);
            end.Done? ==> end.outcome.result == ReportedResult(decode, log, t)
  {
    var first := FirstRun(runId, follow(runId).outcome);
    FirstRunIsFaithful(follow, runId);
    TaskResultIsOneFold(follow, polls, first, 0, limit);
    EarlierRunsAreDecided(follow, polls, first, 0, limit);
    FaithfulResultIsReported(follow, decode, conns, log, TaskFrom(follow, polls, first, 0, limit).1);
  }

  lemma FirstRunIsFaithful(follow: Follow, runId: Option<string>)
    requires follow(runId).Ended?
    ensures Faithful(follow, FirstRun(runId, follow(runId).outcome))
  {
    var o := follow(runId).outcome;
    assert Results(follow, [runId]) == [o.result];
    assert Fold(None, [o.result]) == Fold(LaterResult(None, o.result), [o.result][1..]);
    LaterResultIsMonoid(o.result, None, None);
  }

  /** A settled answer lists every run that is left. */
  ghost predicate SettledSaysAll(polls: Polls, thread: seq<string>) {
    forall n: nat, k | 0 <= k < |thread| ::
      var p := polls(n, Some(thread[k]));
      p.Activity? && p.settled ==> p.runs == thread[k + 1..]
  }

  /** A loop that ends because the thread settled has followed every run of the thread from the
      given one on, each at its place: exactly once, when no run is listed twice. The only other
      end without a closed stream is at a poll the backend could not answer. */
  lemma EveryRunIsFollowed(
    follow: Follow, polls: Polls, thread: seq<string>, start: nat, t: Task, n: nat, limit: nat) returns (at: nat)
    requires Honest(polls, thread) && SettledSaysAll(polls, thread)
    requires t.followed != [] && Consecutive(t.followed, thread, start)
    ensures var (end, last) := TaskFrom(follow, polls, t, n, limit);
            end.Done? && last.last.status != Closed ==>
              && n <= at < limit && TaskFrom(follow, polls, last, at, limit) == (end, last)
              && (|| polls(at, LastRun(last)) == Unsupported
                  || (|last.followed| == |thread| - start && Consecutive(last.followed, thread, start)))
  {
    RunsAreFollowedInOrder(follow, polls, thread, start, t, n, limit);
    at := DoneMeansNothingIsLeft(follow, polls, t, n, limit);
    var (end, last) := TaskFrom(follow, polls, t, n, limit);
    var k := start + |last.followed| - 1;
    assert LastRun(last) == Some(thread[k]);
    assert polls(at, Some(thread[k])) == Activity([], true) ==> thread[k + 1..] == [];
  }
}
