/** Claims on events: a table of leases in which lapsed rows are swept now and then, each
    statement taken as atomic at one reading of a clock that never goes back. */
module EventClaims {
  import opened NewestWindow

  datatype Key = Key(scope: string, name: string)

  datatype Row = Row(claimedAt: int, expiresAt: int)

  type Table = map<Key, Row>

  const SweepLimit := 100

  datatype Outcome = Claimed | Taken | Limited

  predicate Live(t: Table, key: Key, now: int) {
    key in t && t[key].expiresAt > now
  }

  /** Any choice of at most a hundred lapsed rows may be swept. */
  predicate IsSweep(t: Table, swept: set<Key>, now: int) {
    && |swept| <= SweepLimit
    && forall key | key in swept :: key in t && !Live(t, key, now)
  }

  function ClaimRow(t: Table, key: Key, ttl: int, now: int): (Table, bool) {
    if Live(t, key, now) then (t, false) else (t[key := Row(now, now + ttl)], true)
  }

  function Max(a: int, b: int): int {
    if a >= b then a else b
  }

  function DeferRow(t: Table, key: Key, ttl: int, now: int): Table {
    if key in t then t[key := t[key].(expiresAt := Max(t[key].expiresAt, now + ttl))]
    else t[key := Row(now, now + ttl)]
  }

  predicate InGroup(key: Key, scope: string, group: string) {
    key.scope == scope && group <= key.name
  }

  /** The rows of a group claimed after `since`, lapsed or not. */
  function Recent(t: Table, scope: string, group: string, since: int): set<Key> {
    set key | key in t && InGroup(key, scope, group) && t[key].claimedAt > since
  }

  class Claims {
    var rows: Table

    constructor ()
      ensures rows == map[]
    {
      rows := map[];
    }

    method Claim(key: Key, ttl: int, swept: set<Key>, sweptAt: int, at: int) returns (won: bool)
      requires IsSweep(rows, swept, sweptAt) && sweptAt <= at
      modifies this
      ensures won <==> !Live(old(rows), key, at)
      ensures (rows, won) == ClaimRow(old(rows) - swept, key, ttl, at)
    {
      rows := rows - swept;
      if key in rows && rows[key].expiresAt > at {
        return false;
      }
      rows := rows[key := Row(at, at + ttl)];
      return true;
    }

    method Held(key: Key, at: int) returns (held: bool)
      ensures held <==> Live(rows, key, at)
    {
      held := key in rows && rows[key].expiresAt > at;
    }

    method Remaining(key: Key, at: int) returns (left: int)
      ensures left >= 0 && (left > 0 <==> Live(rows, key, at))
      ensures left > 0 ==> rows[key].expiresAt == at + left
    {
      if key !in rows {
        return 0;
      }
      left := Max(0, rows[key].expiresAt - at);
    }

    method Defer(key: Key, ttl: int, swept: set<Key>, sweptAt: int, at: int)
      requires IsSweep(rows, swept, sweptAt) && sweptAt <= at
      modifies this
      ensures rows == DeferRow(old(rows) - swept, key, ttl, at)
      ensures key in rows && rows[key].expiresAt >= at + ttl
      ensures Live(old(rows), key, at) ==> rows[key].expiresAt >= old(rows)[key].expiresAt
    {
      rows := rows - swept;
      if key in rows {
        var until := at + ttl;
        if rows[key].expiresAt < until {
          rows := rows[key := Row(rows[key].claimedAt, until)];
        }
      } else {
        rows := rows[key := Row(at, at + ttl)];
      }
    }

    method Release(key: Key)
      modifies this
      ensures rows == old(rows) - {key}
    {
      rows := rows - {key};
    }

    method ClaimWithinLimit(key: Key, ttl: int, group: string, limit: int, within: int, counted: int, at: int)
      returns (outcome: Outcome)
      requires counted <= at
      modifies this
      ensures outcome == Limited <==> |Recent(old(rows), key.scope, group, counted - within)| >= limit
      ensures outcome == Limited ==> rows == old(rows)
      ensures outcome != Limited ==> (rows, outcome == Claimed) == ClaimRow(old(rows), key, ttl, at)
    {
      var recent := set k | k in rows && InGroup(k, key.scope, group) && rows[k].claimedAt > counted - within;
      if |recent| >= limit {
        return Limited;
      }
      if key in rows && rows[key].expiresAt > at {
        return Taken;
      }
      rows := rows[key := Row(at, at + ttl)];
      return Claimed;
    }
  }

  // ---- Runs ----

  /** One statement. A claim or a deferral is a `Sweep` followed by its own statement; the
      limited claim counts at `counted` and claims later, under its group's lock. */
  datatype Op =
    | Sweep(swept: set<Key>)
    | Claim(key: Key, ttl: int)
    | AskHeld(key: Key)
    | AskRemaining(key: Key)
    | Defer(key: Key, ttl: int)
    | Release(key: Key)
    | ClaimLimited(key: Key, ttl: int, group: string, limit: int, within: int, counted: int)

  datatype Timed = Timed(op: Op, at: int)

  datatype Answer = Done | Yes(yes: bool) | Seconds(left: int) | Said(outcome: Outcome)

  function Apply(t: Table, op: Op, at: int): (Table, Answer) {
    match op
    case Sweep(swept) => (t - swept, Done)
    case Claim(key, ttl) => var (next, won) := ClaimRow(t, key, ttl, at); (next, Yes(won))
    case AskHeld(key) => (t, Yes(Live(t, key, at)))
    case AskRemaining(key) => (t, Seconds(if key in t then Max(0, t[key].expiresAt - at) else 0))
    case Defer(key, ttl) => (DeferRow(t, key, ttl, at), Done)
    case Release(key) => (t - {key}, Done)
    case ClaimLimited(key, ttl, group, limit, within, counted) =>
      if |Recent(t, key.scope, group, counted - within)| >= limit then (t, Said(Limited))
      else
        var (next, won) := ClaimRow(t, key, ttl, at);
        (next, Said(if won then Claimed else Taken))
  }

  /** The clock never goes back, and only lapsed rows are swept. */
  predicate Allowed(t: Table, now: int, step: Timed) {
    && now <= step.at
    && (step.op.Sweep? ==> IsSweep(t, step.op.swept, step.at))
    && (step.op.ClaimLimited? ==> now <= step.op.counted <= step.at)
  }

  predicate IsRun(t: Table, now: int, steps: seq<Timed>)
    decreases |steps|
  {
    steps == [] ||
    (Allowed(t, now, steps[0]) && IsRun(Apply(t, steps[0].op, steps[0].at).0, steps[0].at, steps[1..]))
  }

  function After(t: Table, steps: seq<Timed>): Table
    decreases |steps|
  {
    if steps == [] then t else After(Apply(t, steps[0].op, steps[0].at).0, steps[1..])
  }

  function Answers(t: Table, steps: seq<Timed>): seq<Answer>
    decreases |steps|
  {
    if steps == [] then []
    else
      var (next, answer) := Apply(t, steps[0].op, steps[0].at);
      [answer] + Answers(next, steps[1..])
  }

  /** Every live row outlives every statement but its own release, with its claim time and at
      least its expiry: a deferral never shortens it, a sweep or a rival claim never takes it. */
  lemma LiveRowsStand(t: Table, now: int, step: Timed, key: Key)
    requires Allowed(t, now, step) && Live(t, key, step.at) && step.op != Release(key)
    ensures var next := Apply(t, step.op, step.at).0;
            key in next && next[key].claimedAt == t[key].claimedAt && next[key].expiresAt >= t[key].expiresAt
  {
  }

  /** Until its time passes or it is released, a claim excludes every other claim on its key. */
  lemma {:induction false} AHolderIsAlone(t: Table, now: int, steps: seq<Timed>, key: Key, until: int, i: nat)
    requires key in t && t[key].expiresAt >= until && IsRun(t, now, steps)
    requires i < |steps| && steps[i].at < until
    requires forall j | 0 <= j <= i :: steps[j].op != Release(key)
    ensures |Answers(t, steps)| == |steps|
    ensures match steps[i].op
            case Claim(k, _) => k == key ==> Answers(t, steps)[i] == Yes(false)
            case ClaimLimited(k, _, _, _, _, _) => k == key ==> Answers(t, steps)[i] != Said(Claimed)
            case AskHeld(k) => k == key ==> Answers(t, steps)[i] == Yes(true)
            case AskRemaining(k) =>
              k == key ==> Answers(t, steps)[i].Seconds? && Answers(t, steps)[i].left >= until - steps[i].at
            case _ => true
    decreases |steps|
  {
    AnswersAreAll(t, steps);
    if i > 0 {
      ClockOnlyAdvances(t, now, steps, i);
      LiveRowsStand(t, now, steps[0], key);
      AHolderIsAlone(Apply(t, steps[0].op, steps[0].at).0, steps[0].at, steps[1..], key, until, i - 1);
    }
  }

  lemma {:induction false} AnswersAreAll(t: Table, steps: seq<Timed>)
    ensures |Answers(t, steps)| == |steps|
    decreases |steps|
  {
    if steps != [] {
      AnswersAreAll(Apply(t, steps[0].op, steps[0].at).0, steps[1..]);
    }
  }

  // ---- Sweeping is invisible ----

  /** The same operations on a plain map from keys to expiries, which nothing ever sweeps. */
  function PlainApply(p: map<Key, int>, op: Op, at: int): (map<Key, int>, Answer)
    requires !op.ClaimLimited?
  {
    match op
    case Sweep(_) => (p, Done)
    case Claim(key, ttl) => if key in p && p[key] > at then (p, Yes(false)) else (p[key := at + ttl], Yes(true))
    case AskHeld(key) => (p, Yes(key in p && p[key] > at))
    case AskRemaining(key) => (p, Seconds(if key in p && p[key] > at then p[key] - at else 0))
    case Defer(key, ttl) =>
      (if key in p && p[key] > at + ttl then p else p[key := at + ttl], Done)
    case Release(key) => (p - {key}, Done)
  }

  predicate Unlimited(steps: seq<Timed>) {
    forall i | 0 <= i < |steps| :: !steps[i].op.ClaimLimited?
  }

  function PlainAnswers(p: map<Key, int>, steps: seq<Timed>): seq<Answer>
    requires Unlimited(steps)
    decreases |steps|
  {
    if steps == [] then []
    else
      var (next, answer) := PlainApply(p, steps[0].op, steps[0].at);
      [answer] + PlainAnswers(next, steps[1..])
  }

  /** The table and the plain map agree on what is live from `now` on. */
  ghost predicate Agree(t: Table, p: map<Key, int>, now: int) {
    forall key ::
      && (Live(t, key, now) <==> key in p && p[key] > now)
      && (Live(t, key, now) ==> t[key].expiresAt == p[key])
  }

  lemma StepAgrees(t: Table, p: map<Key, int>, now: int, step: Timed)
    requires Agree(t, p, now) && Allowed(t, now, step) && !step.op.ClaimLimited?
    ensures var (t', answer) := Apply(t, step.op, step.at);
            var (p', plain) := PlainApply(p, step.op, step.at);
            answer == plain && Agree(t', p', step.at)
  {
    assert Agree(t, p, step.at) by {
      forall key
        ensures && (Live(t, key, step.at) <==> key in p && p[key] > step.at)
                && (Live(t, key, step.at) ==> t[key].expiresAt == p[key])
      {
        assert Live(t, key, now) <==> key in p && p[key] > now;
      }
    }
    var (t', _) := Apply(t, step.op, step.at);
    var (p', _) := PlainApply(p, step.op, step.at);
    if !step.op.Sweep? {
      assert Live(t, step.op.key, step.at) <==> step.op.key in p && p[step.op.key] > step.at;
    }
    forall key
      ensures && (Live(t', key, step.at) <==> key in p' && p'[key] > step.at)
              && (Live(t', key, step.at) ==> t'[key].expiresAt == p'[key])
    {
      assert Live(t, key, step.at) <==> key in p && p[key] > step.at;
    }
  }

  lemma {:induction false} RunAgrees(t: Table, p: map<Key, int>, now: int, steps: seq<Timed>)
    requires Agree(t, p, now) && IsRun(t, now, steps) && Unlimited(steps)
    ensures Answers(t, steps) == PlainAnswers(p, steps)
    decreases |steps|
  {
    if steps != [] {
      StepAgrees(t, p, now, steps[0]);
      RunAgrees(Apply(t, steps[0].op, steps[0].at).0, PlainApply(p, steps[0].op, steps[0].at).0,
                steps[0].at, steps[1..]);
    }
  }

  /** Whatever lapsed rows are swept and whenever, claims, questions, deferrals and releases
      are answered as by a plain map that keeps everything. */
  lemma SweepsAreInvisible(steps: seq<Timed>, now: int)
    requires IsRun(map[], now, steps) && Unlimited(steps)
    ensures Answers(map[], steps) == PlainAnswers(map[], steps)
  {
    RunAgrees(map[], map[], now, steps);
  }

  // ---- Who holds a key ----

  /** A key's history: each claim won or deferral until some time, and each release. */
  datatype Event = Granted(key: Key, until: int) | GivenBack(key: Key)

  /** Some grant since the key's last release still has time to run. */
  predicate HeldIn(log: seq<Event>, key: Key, now: int)
    decreases |log|
  {
    if log == [] then false
    else
      var last := log[|log| - 1];
      if last == GivenBack(key) then false
      else (last.Granted? && last.key == key && last.until > now) || HeldIn(log[..|log| - 1], key, now)
  }

  function Logged(op: Op, at: int, answer: Answer): seq<Event> {
    match op
    case Claim(key, ttl) => if answer == Yes(true) then [Granted(key, at + ttl)] else []
    case ClaimLimited(key, ttl, _, _, _, _) => if answer == Said(Claimed) then [Granted(key, at + ttl)] else []
    case Defer(key, ttl) => [Granted(key, at + ttl)]
    case Release(key) => [GivenBack(key)]
    case _ => []
  }

  function History(t: Table, log: seq<Event>, steps: seq<Timed>): seq<Event>
    decreases |steps|
  {
    if steps == [] then log
    else
      var (next, answer) := Apply(t, steps[0].op, steps[0].at);
      History(next, log + Logged(steps[0].op, steps[0].at, answer), steps[1..])
  }

  /** From `now` on, a key is live exactly when its history says so. */
  ghost predicate Recorded(t: Table, log: seq<Event>, now: int) {
    forall key, at | at >= now :: Live(t, key, at) <==> HeldIn(log, key, at)
  }

  /** What one event makes of whether a key is held. */
  predicate HeldAfter(event: Event, key: Key, at: int, before: bool) {
    event != GivenBack(key) && ((event.Granted? && event.key == key && event.until > at) || before)
  }

  /** A statement changes what is live only as the events it logs say. */
  lemma LiveAsLogged(t: Table, now: int, step: Timed, key: Key, at: int)
    requires Allowed(t, now, step) && at >= step.at
    ensures var (next, answer) := Apply(t, step.op, step.at);
            var events := Logged(step.op, step.at, answer);
            && |events| <= 1
            && (Live(next, key, at) <==>
                  if events == [] then Live(t, key, at) else HeldAfter(events[0], key, at, Live(t, key, at)))
  {
    match step.op
    case Sweep(_) =>
    case ClaimLimited(_, _, _, _, _, _) =>
    case _ =>
  }

  lemma StepIsRecordedFor(t: Table, log: seq<Event>, now: int, step: Timed, key: Key, at: int)
    requires Allowed(t, now, step) && at >= step.at && (Live(t, key, at) <==> HeldIn(log, key, at))
    ensures var (next, answer) := Apply(t, step.op, step.at);
            Live(next, key, at) <==> HeldIn(log + Logged(step.op, step.at, answer), key, at)
  {
    LiveAsLogged(t, now, step, key, at);
    LoggedIsHeld(log, Logged(step.op, step.at, Apply(t, step.op, step.at).1), key, at);
  }

  lemma LoggedIsHeld(log: seq<Event>, events: seq<Event>, key: Key, at: int)
    requires |events| <= 1
    ensures HeldIn(log + events, key, at) <==>
              if events == [] then HeldIn(log, key, at) else HeldAfter(events[0], key, at, HeldIn(log, key, at))
  {
    if events == [] {
      assert log + events == log;
    } else {
      assert (log + events)[..|log|] == log;
    }
  }

  lemma StepIsRecorded(t: Table, log: seq<Event>, now: int, step: Timed)
    requires Recorded(t, log, now) && Allowed(t, now, step)
    ensures var (next, answer) := Apply(t, step.op, step.at);
            Recorded(next, log + Logged(step.op, step.at, answer), step.at)
  {
    var (next, answer) := Apply(t, step.op, step.at);
    forall key, at | at >= step.at
      ensures Live(next, key, at) <==> HeldIn(log + Logged(step.op, step.at, answer), key, at)
    {
      StepIsRecordedFor(t, log, now, step, key, at);
    }
  }

  lemma {:induction false} RunIsRecorded(t: Table, log: seq<Event>, now: int, steps: seq<Timed>, at: int)
    requires Recorded(t, log, now) && IsRun(t, now, steps)
    requires at >= now && (steps != [] ==> at >= steps[|steps| - 1].at)
    ensures forall key :: Live(After(t, steps), key, at) <==> HeldIn(History(t, log, steps), key, at)
    decreases |steps|
  {
    if steps != [] {
      var (next, answer) := Apply(t, steps[0].op, steps[0].at);
      StepIsRecorded(t, log, now, steps[0]);
      assert at >= steps[0].at by { ClockOnlyAdvances(t, now, steps, |steps| - 1); }
      RunIsRecorded(next, log + Logged(steps[0].op, steps[0].at, answer), steps[0].at, steps[1..], at);
    }
  }

  lemma {:induction false} ClockOnlyAdvances(t: Table, now: int, steps: seq<Timed>, i: nat)
    requires IsRun(t, now, steps) && i < |steps|
    ensures now <= steps[0].at <= steps[i].at
    decreases |steps|
  {
    if i > 0 {
      ClockOnlyAdvances(Apply(t, steps[0].op, steps[0].at).0, steps[0].at, steps[1..], i - 1);
    }
  }

  /** After any run, sweeps and rival claims included, a new claim on a key wins exactly when
      no claim won or deferral since the key's last release has time left. */
  lemma ClaimsAreWonExactlyWhenFree(steps: seq<Timed>, now: int, key: Key, ttl: int, at: int)
    requires IsRun(map[], now, steps) && at >= now && (steps != [] ==> at >= steps[|steps| - 1].at)
    ensures Apply(After(map[], steps), Claim(key, ttl), at).1 == Yes(!HeldIn(History(map[], [], steps), key, at))
  {
    RunIsRecorded(map[], [], now, steps, at);
    assert Live(After(map[], steps), key, at) <==> HeldIn(History(map[], [], steps), key, at);
  }

  // ---- The sliding-window limit ----

  /** A claim of the group that was let through. */
  datatype Hit = Hit(key: Key, at: int)

  /** What the group's callers keep to: their keys start with the group, at most `limit` in
      at least the last `within`, for at least that long. */
  predicate Disciplined(op: Op, scope: string, group: string, limit: nat, within: int) {
    op.ClaimLimited? && op.key.scope == scope && op.group == group ==>
      group <= op.key.name && op.limit <= limit && op.within >= within && op.ttl >= within
  }

  predicate AllDisciplined(steps: seq<Timed>, scope: string, group: string, limit: nat, within: int) {
    forall i | 0 <= i < |steps| :: Disciplined(steps[i].op, scope, group, limit, within)
  }

  /** Nobody gives a key of the group back. */
  predicate NoneGivenBack(steps: seq<Timed>, scope: string, group: string) {
    forall i | 0 <= i < |steps| :: steps[i].op.Release? ==> !InGroup(steps[i].op.key, scope, group)
  }

  predicate IsHit(op: Op, answer: Answer, scope: string, group: string) {
    op.ClaimLimited? && op.key.scope == scope && op.group == group && answer == Said(Claimed)
  }

  function NewHit(step: Timed, answer: Answer, scope: string, group: string): seq<Hit> {
    if IsHit(step.op, answer, scope, group) then [Hit(step.op.key, step.at)] else []
  }

  /** Every hit of a run. */
  function Hits(t: Table, hits: seq<Hit>, steps: seq<Timed>, scope: string, group: string): seq<Hit>
    decreases |steps|
  {
    if steps == [] then hits
    else
      var (next, answer) := Apply(t, steps[0].op, steps[0].at);
      Hits(next, hits + NewHit(steps[0], answer, scope, group), steps[1..], scope, group)
  }

  /** The key was hit after that time. */
  predicate HitSince(hit: Hit, key: Key, since: int) {
    hit.key == key && hit.at > since
  }

  /** The hits but for the key's own after that time, of which there is at most one. */
  function Kept(hits: seq<Hit>, key: Key, since: int): seq<Hit>
    decreases |hits|
  {
    if hits == [] then []
    else if HitSince(hits[0], key, since) then Kept(hits[1..], key, since)
    else [hits[0]] + Kept(hits[1..], key, since)
  }

  /** The hits left after a statement: a release takes back its key's hit, unless that is at
      least `within` old. */
  function StandingAfter(
    hits: seq<Hit>, step: Timed, answer: Answer, scope: string, group: string, within: int): seq<Hit>
  {
    if step.op.Release? then Kept(hits, step.op.key, step.at - within)
    else hits + NewHit(step, answer, scope, group)
  }

  /** The hits of a run that were not given back less than `within` after they were made. */
  function Standing(
    t: Table, hits: seq<Hit>, steps: seq<Timed>, scope: string, group: string, within: int): seq<Hit>
    decreases |steps|
  {
    if steps == [] then hits
    else
      var (next, answer) := Apply(t, steps[0].op, steps[0].at);
      Standing(next, StandingAfter(hits, steps[0], answer, scope, group, within), steps[1..], scope, group, within)
  }

  predicate InOrder(hits: seq<Hit>, now: int) {
    && (forall i, j | 0 <= i < j < |hits| :: hits[i].at <= hits[j].at)
    && (forall i | 0 <= i < |hits| :: hits[i].at <= now)
  }

  /** Any `limit + 1` hits in a row span at least `within`. */
  predicate Spaced(hits: seq<Hit>, limit: nat, within: int) {
    forall i | 0 <= i && i + limit < |hits| :: hits[i + limit].at >= hits[i].at + within
  }

  predicate Backed(t: Table, hit: Hit, scope: string, group: string, within: int) {
    && hit.key in t && InGroup(hit.key, scope, group)
    && t[hit.key].claimedAt == hit.at && t[hit.key].expiresAt >= hit.at + within
  }

  /** Each hit still in the window has a live row of its own that says when it was claimed. */
  predicate RowsBack(t: Table, hits: seq<Hit>, now: int, scope: string, group: string, within: int) {
    && (forall i | 0 <= i < |hits| && hits[i].at > now - within :: Backed(t, hits[i], scope, group, within))
    && (forall i, j | 0 <= i < j < |hits| && hits[i].at > now - within && hits[j].at > now - within ::
          hits[i].key != hits[j].key)
  }

  predicate WindowInv(t: Table, hits: seq<Hit>, now: int, scope: string, group: string, limit: nat, within: int) {
    InOrder(hits, now) && Spaced(hits, limit, within) && RowsBack(t, hits, now, scope, group, within)
  }

  lemma {:induction false} DistinctHitsAreCounted(hits: seq<Hit>, keys: set<Key>)
    requires forall i | 0 <= i < |hits| :: hits[i].key in keys
    requires forall i, j | 0 <= i < j < |hits| :: hits[i].key != hits[j].key
    ensures |hits| <= |keys|
    decreases |hits|
  {
    if hits != [] {
      DistinctHitsAreCounted(hits[1..], keys - {hits[0].key});
    }
  }

  /** Rows that back hits in the window survive a disciplined statement. */
  lemma RowsStillBack(t: Table, hits: seq<Hit>, now: int, step: Timed, scope: string, group: string, within: int)
    requires RowsBack(t, hits, now, scope, group, within) && Allowed(t, now, step)
    requires step.op.Release? ==> forall i | 0 <= i < |hits| :: !HitSince(hits[i], step.op.key, step.at - within)
    ensures RowsBack(Apply(t, step.op, step.at).0, hits, step.at, scope, group, within)
  {
    forall i | 0 <= i < |hits| && hits[i].at > step.at - within
      ensures Backed(Apply(t, step.op, step.at).0, hits[i], scope, group, within)
    {
      assert Backed(t, hits[i], scope, group, within);
      assert step.op.Release? ==> !HitSince(hits[i], step.op.key, step.at - within);
      LiveRowsStand(t, now, step, hits[i].key);
    }
  }

  /** A hit is let through only when the hit `limit` places before it left the window. */
  lemma HitIsSpaced(
    t: Table, hits: seq<Hit>, now: int, step: Timed, scope: string, group: string, limit: nat, within: int)
    requires WindowInv(t, hits, now, scope, group, limit, within) && Allowed(t, now, step)
    requires Disciplined(step.op, scope, group, limit, within)
    requires IsHit(step.op, Apply(t, step.op, step.at).1, scope, group)
    ensures limit > 0 && (|hits| >= limit ==> step.at >= hits[|hits| - limit].at + within)
  {
    var recent := Recent(t, scope, group, step.op.counted - step.op.within);
    assert |recent| < limit;
    if |hits| >= limit && step.at < hits[|hits| - limit].at + within {
      var last := hits[|hits| - limit..];
      forall i | 0 <= i < |last| ensures last[i].key in recent {
        assert last[i] == hits[|hits| - limit + i];
        assert last[i].at >= last[0].at;
        assert Backed(t, last[i], scope, group, within);
      }
      DistinctHitsAreCounted(last, recent);
      assert false;
    }
  }

  lemma SpacedGrows(hits: seq<Hit>, hit: Hit, limit: nat, within: int)
    requires limit > 0 && Spaced(hits, limit, within)
    requires |hits| >= limit ==> hit.at >= hits[|hits| - limit].at + within
    ensures Spaced(hits + [hit], limit, within)
  {
    forall i | 0 <= i && i + limit < |hits + [hit]|
      ensures (hits + [hit])[i + limit].at >= (hits + [hit])[i].at + within
    {
      if i + limit < |hits| {
        assert hits[i + limit].at >= hits[i].at + within;
      }
    }
  }

  /** The row a hit writes backs it, and takes no other backing away. */
  lemma HitIsBacked(t: Table, hits: seq<Hit>, step: Timed, scope: string, group: string, limit: nat, within: int)
    requires Disciplined(step.op, scope, group, limit, within)
    requires IsHit(step.op, Apply(t, step.op, step.at).1, scope, group)
    requires RowsBack(t, hits, step.at, scope, group, within)
    ensures RowsBack(Apply(t, step.op, step.at).0, hits + [Hit(step.op.key, step.at)], step.at, scope, group, within)
  {
    var key := step.op.key;
    var next, all := Apply(t, step.op, step.at).0, hits + [Hit(key, step.at)];
    assert !Live(t, key, step.at);
    forall i | 0 <= i < |hits| && hits[i].at > step.at - within ensures hits[i].key != key {
      assert Backed(t, hits[i], scope, group, within);
    }
    forall i | 0 <= i < |all| && all[i].at > step.at - within ensures Backed(next, all[i], scope, group, within) {
      if i < |hits| {
        assert Backed(t, hits[i], scope, group, within);
      }
    }
  }

  /** What is kept was there, no earlier than at the same place, and was not taken back. */
  lemma {:induction false} KeptStandsLater(hits: seq<Hit>, key: Key, since: int, j: nat) returns (i: nat)
    requires j < |Kept(hits, key, since)|
    ensures j <= i < |hits| && Kept(hits, key, since)[j] == hits[i] && !HitSince(hits[i], key, since)
    decreases |hits|
  {
    if HitSince(hits[0], key, since) {
      i := KeptStandsLater(hits[1..], key, since, j);
      i := i + 1;
    } else if j == 0 {
      i := 0;
    } else {
      i := KeptStandsLater(hits[1..], key, since, j - 1);
      i := i + 1;
    }
  }

  lemma {:induction false} KeptStaysInOrder(hits: seq<Hit>, key: Key, since: int, now: int)
    requires InOrder(hits, now)
    ensures InOrder(Kept(hits, key, since), now)
    decreases |hits|
  {
    if hits != [] {
      KeptStaysInOrder(hits[1..], key, since, now);
      var kept := Kept(hits[1..], key, since);
      forall j | 0 <= j < |kept| ensures hits[0].at <= kept[j].at {
        var i := KeptStandsLater(hits[1..], key, since, j);
        assert hits[1..][i] == hits[i + 1];
      }
    }
  }

  lemma {:induction false} KeptStaysSpaced(
    hits: seq<Hit>, key: Key, since: int, now: int, limit: nat, within: int)
    requires InOrder(hits, now) && Spaced(hits, limit, within)
    ensures Spaced(Kept(hits, key, since), limit, within)
    decreases |hits|
  {
    if hits != [] {
      var tail := hits[1..];
      SpacedTail(hits, limit, within);
      KeptStaysSpaced(tail, key, since, now, limit, within);
      if !HitSince(hits[0], key, since) {
        HeadStaysSpaced(hits, key, since, now, limit, within);
        SpacedHead(hits[0], Kept(tail, key, since), limit, within);
      }
    }
  }

  lemma SpacedTail(hits: seq<Hit>, limit: nat, within: int)
    requires hits != [] && Spaced(hits, limit, within)
    ensures Spaced(hits[1..], limit, within)
  {
    forall i | 0 <= i && i + limit < |hits[1..]| ensures hits[1..][i + limit].at >= hits[1..][i].at + within {
      assert hits[i + 1 + limit].at >= hits[i + 1].at + within;
    }
  }

  lemma HeadStaysSpaced(hits: seq<Hit>, key: Key, since: int, now: int, limit: nat, within: int)
    requires hits != [] && InOrder(hits, now) && Spaced(hits, limit, within)
    ensures limit == 0 ==> within <= 0
    ensures var kept := Kept(hits[1..], key, since);
            0 < limit <= |kept| ==> kept[limit - 1].at >= hits[0].at + within
  {
    if limit == 0 {
      assert hits[0 + limit].at >= hits[0].at + within;
    } else if limit <= |Kept(hits[1..], key, since)| {
      var i := KeptStandsLater(hits[1..], key, since, limit - 1);
      assert hits[1..][i] == hits[i + 1] && hits[0 + limit].at >= hits[0].at + within;
    }
  }

  lemma SpacedHead(hit: Hit, tail: seq<Hit>, limit: nat, within: int)
    requires Spaced(tail, limit, within) && (limit == 0 ==> within <= 0)
    requires 0 < limit <= |tail| ==> tail[limit - 1].at >= hit.at + within
    ensures Spaced([hit] + tail, limit, within)
  {
    var all := [hit] + tail;
    forall i | 0 <= i && i + limit < |all| ensures all[i + limit].at >= all[i].at + within {
      if i > 0 {
        assert tail[i - 1 + limit].at >= tail[i - 1].at + within;
      }
    }
  }

  lemma BackedTail(t: Table, hits: seq<Hit>, now: int, scope: string, group: string, within: int)
    requires hits != [] && RowsBack(t, hits, now, scope, group, within)
    ensures RowsBack(t, hits[1..], now, scope, group, within)
    ensures hits[0].at > now - within ==>
              forall i | 0 <= i < |hits[1..]| :: !HitSince(hits[1..][i], hits[0].key, now - within)
  {
    assert forall i | 0 <= i < |hits[1..]| :: hits[1..][i] == hits[i + 1];
  }

  lemma {:induction false} KeptStaysBacked(
    t: Table, hits: seq<Hit>, key: Key, since: int, now: int, scope: string, group: string, within: int)
    requires RowsBack(t, hits, now, scope, group, within)
    ensures RowsBack(t, Kept(hits, key, since), now, scope, group, within)
    decreases |hits|
  {
    if hits != [] {
      var tail := hits[1..];
      BackedTail(t, hits, now, scope, group, within);
      KeptStaysBacked(t, tail, key, since, now, scope, group, within);
      var kept := Kept(tail, key, since);
      forall j | 0 <= j < |kept| && kept[j].at > now - within && hits[0].at > now - within
        ensures kept[j].key != hits[0].key
      {
        var i := KeptStandsLater(tail, key, since, j);
        assert !HitSince(tail[i], hits[0].key, now - within);
      }
    }
  }

  lemma {:induction false} KeptWhole(hits: seq<Hit>, key: Key, since: int)
    requires forall i | 0 <= i < |hits| :: !HitSince(hits[i], key, since)
    ensures Kept(hits, key, since) == hits
    decreases |hits|
  {
    if hits != [] {
      assert forall i | 0 <= i < |hits[1..]| :: hits[1..][i] == hits[i + 1];
      KeptWhole(hits[1..], key, since);
    }
  }

  /** A release takes at most one hit back. */
  lemma {:induction false} AtMostOneIsTakenBack(
    t: Table, hits: seq<Hit>, key: Key, now: int, scope: string, group: string, within: int)
    requires RowsBack(t, hits, now, scope, group, within)
    ensures |hits| - 1 <= |Kept(hits, key, now - within)| <= |hits|
    decreases |hits|
  {
    if hits != [] {
      BackedTail(t, hits, now, scope, group, within);
      if HitSince(hits[0], key, now - within) {
        KeptWhole(hits[1..], key, now - within);
      } else {
        AtMostOneIsTakenBack(t, hits[1..], key, now, scope, group, within);
      }
    }
  }

  /** A release takes at most its key's one hit in the window back, and leaves the rows that
      back the others. */
  lemma ReleaseKeepsWindow(
    t: Table, hits: seq<Hit>, now: int, step: Timed, scope: string, group: string, limit: nat, within: int)
    requires WindowInv(t, hits, now, scope, group, limit, within) && Allowed(t, now, step) && step.op.Release?
    ensures var kept := Kept(hits, step.op.key, step.at - within);
            && |hits| - 1 <= |kept| <= |hits|
            && WindowInv(Apply(t, step.op, step.at).0, kept, step.at, scope, group, limit, within)
  {
    var key, since := step.op.key, step.at - within;
    var kept := Kept(hits, key, since);
    RowsBackLater(t, hits, now, step.at, scope, group, within);
    AtMostOneIsTakenBack(t, hits, key, step.at, scope, group, within);
    KeptStaysInOrder(hits, key, since, now);
    KeptStaysSpaced(hits, key, since, now, limit, within);
    KeptStaysBacked(t, hits, key, since, now, scope, group, within);
    forall j | 0 <= j < |kept| ensures !HitSince(kept[j], key, since) {
      var i := KeptStandsLater(hits, key, since, j);
    }
    RowsStillBack(t, kept, now, step, scope, group, within);
  }

  lemma RowsBackLater(t: Table, hits: seq<Hit>, now: int, later: int, scope: string, group: string, within: int)
    requires RowsBack(t, hits, now, scope, group, within) && now <= later
    ensures RowsBack(t, hits, later, scope, group, within)
  {
  }

  lemma InOrderGrows(hits: seq<Hit>, now: int, hit: Hit)
    requires InOrder(hits, now) && now <= hit.at
    ensures InOrder(hits + [hit], hit.at)
  {
  }

  /** A claim let through joins the hits, and keeps them spaced and backed. */
  lemma HitKeepsWindow(
    t: Table, hits: seq<Hit>, now: int, step: Timed, scope: string, group: string, limit: nat, within: int)
    requires WindowInv(t, hits, now, scope, group, limit, within) && Allowed(t, now, step)
    requires Disciplined(step.op, scope, group, limit, within)
    requires IsHit(step.op, Apply(t, step.op, step.at).1, scope, group)
    ensures WindowInv(Apply(t, step.op, step.at).0, hits + [Hit(step.op.key, step.at)], step.at,
                      scope, group, limit, within)
  {
    HitIsSpaced(t, hits, now, step, scope, group, limit, within);
    SpacedGrows(hits, Hit(step.op.key, step.at), limit, within);
    InOrderGrows(hits, now, Hit(step.op.key, step.at));
    RowsBackLater(t, hits, now, step.at, scope, group, within);
    HitIsBacked(t, hits, step, scope, group, limit, within);
  }

  lemma StepKeepsWindow(
    t: Table, hits: seq<Hit>, now: int, step: Timed, scope: string, group: string, limit: nat, within: int)
    requires WindowInv(t, hits, now, scope, group, limit, within) && Allowed(t, now, step)
    requires Disciplined(step.op, scope, group, limit, within)
    ensures var (next, answer) := Apply(t, step.op, step.at);
            WindowInv(next, StandingAfter(hits, step, answer, scope, group, within), step.at,
                      scope, group, limit, within)
  {
    if step.op.Release? {
      ReleaseKeepsWindow(t, hits, now, step, scope, group, limit, within);
    } else if IsHit(step.op, Apply(t, step.op, step.at).1, scope, group) {
      HitKeepsWindow(t, hits, now, step, scope, group, limit, within);
    } else {
      RowsStillBack(t, hits, now, step, scope, group, within);
      assert hits + [] == hits;
    }
  }

  lemma {:induction false} RunKeepsWindow(
    t: Table, hits: seq<Hit>, now: int, steps: seq<Timed>, scope: string, group: string, limit: nat, within: int)
    requires WindowInv(t, hits, now, scope, group, limit, within) && IsRun(t, now, steps)
    requires AllDisciplined(steps, scope, group, limit, within)
    ensures var all := Standing(t, hits, steps, scope, group, within);
            Spaced(all, limit, within) && forall i, j | 0 <= i < j < |all| :: all[i].at <= all[j].at
    decreases |steps|
  {
    if steps != [] {
      var (next, answer) := Apply(t, steps[0].op, steps[0].at);
      assert Disciplined(steps[0].op, scope, group, limit, within);
      StepKeepsWindow(t, hits, now, steps[0], scope, group, limit, within);
      RunKeepsWindow(next, StandingAfter(hits, steps[0], answer, scope, group, within), steps[0].at, steps[1..],
                     scope, group, limit, within);
    }
  }

  /** How many hits fall in the half-open window that ends at `to`. */
  function CountIn(hits: seq<Hit>, from: int, to: int): (n: nat)
    ensures n <= |hits|
    decreases |hits|
  {
    if hits == [] then 0 else (if from < hits[0].at <= to then 1 else 0) + CountIn(hits[1..], from, to)
  }

  lemma {:induction false} NoneCountedLate(hits: seq<Hit>, from: int, to: int)
    requires forall i | 0 <= i < |hits| :: hits[i].at > to
    ensures CountIn(hits, from, to) == 0
    decreases |hits|
  {
    if hits != [] {
      NoneCountedLate(hits[1..], from, to);
    }
  }

  lemma {:induction false} CountSplits(a: seq<Hit>, b: seq<Hit>, from: int, to: int)
    ensures CountIn(a + b, from, to) == CountIn(a, from, to) + CountIn(b, from, to)
    decreases |a|
  {
    if a == [] {
      assert a + b == b;
    } else {
      assert (a + b)[1..] == a[1..] + b;
      CountSplits(a[1..], b, from, to);
    }
  }

  lemma {:induction false} SpacedFillsNoWindow(hits: seq<Hit>, limit: nat, within: int, to: int)
    requires forall i, j | 0 <= i < j < |hits| :: hits[i].at <= hits[j].at
    requires Spaced(hits, limit, within)
    ensures CountIn(hits, to - within, to) <= limit
    decreases |hits|
  {
    if hits != [] {
      if to - within < hits[0].at <= to && limit < |hits| {
        assert hits == hits[..limit] + hits[limit..];
        assert hits[0 + limit].at >= hits[0].at + within;
        NoneCountedLate(hits[limit..], to - within, to);
        CountSplits(hits[..limit], hits[limit..], to - within, to);
      } else if |hits| > limit {
        forall i | 0 <= i && i + limit < |hits[1..]| ensures hits[1..][i + limit].at >= hits[1..][i].at + within {
          assert hits[i + 1 + limit].at >= hits[i + 1].at + within;
        }
        SpacedFillsNoWindow(hits[1..], limit, within, to);
      }
    }
  }

  /** However rows are swept, keys released, claimed again, deferred, or claimed outside the
      limit, every window of length `within` holds at most `limit` limited claims of a
      disciplined group that were not given back less than `within` after they were made. */
  lemma NoWindowHoldsMoreThanTheLimit(
    steps: seq<Timed>, now: int, scope: string, group: string, limit: nat, within: int, to: int)
    requires IsRun(map[], now, steps) && AllDisciplined(steps, scope, group, limit, within)
    ensures CountIn(Standing(map[], [], steps, scope, group, within), to - within, to) <= limit
  {
    RunKeepsWindow(map[], [], now, steps, scope, group, limit, within);
    SpacedFillsNoWindow(Standing(map[], [], steps, scope, group, within), limit, within, to);
  }

  lemma {:induction false} AllHitsStand(
    t: Table, hits: seq<Hit>, steps: seq<Timed>, scope: string, group: string, limit: nat, within: int)
    requires AllDisciplined(steps, scope, group, limit, within) && NoneGivenBack(steps, scope, group)
    requires forall i | 0 <= i < |hits| :: InGroup(hits[i].key, scope, group)
    ensures Standing(t, hits, steps, scope, group, within) == Hits(t, hits, steps, scope, group)
    decreases |steps|
  {
    if steps != [] {
      var (next, answer) := Apply(t, steps[0].op, steps[0].at);
      assert Disciplined(steps[0].op, scope, group, limit, within);
      assert steps[0].op.Release? ==> !InGroup(steps[0].op.key, scope, group);
      if steps[0].op.Release? {
        KeptWhole(hits, steps[0].op.key, steps[0].at - within);
        assert hits + [] == hits;
      }
      AllHitsStand(next, hits + NewHit(steps[0], answer, scope, group), steps[1..], scope, group, limit, within);
    }
  }

  /** When no key of the group is ever given back, that is every claim let through. */
  lemma NoWindowHoldsMoreHitsThanTheLimit(
    steps: seq<Timed>, now: int, scope: string, group: string, limit: nat, within: int, to: int)
    requires IsRun(map[], now, steps) && AllDisciplined(steps, scope, group, limit, within)
    requires NoneGivenBack(steps, scope, group)
    ensures CountIn(Hits(map[], [], steps, scope, group), to - within, to) <= limit
  {
    NoWindowHoldsMoreThanTheLimit(steps, now, scope, group, limit, within, to);
    AllHitsStand(map[], [], steps, scope, group, limit, within);
  }

  // ---- Nobody is limited while there is room ----

  /** The statement puts a new row at its key: a claim won, or a deferral of a key without one. */
  predicate Opens(t: Table, op: Op, answer: Answer) {
    || (op.Claim? && answer == Yes(true))
    || (op.ClaimLimited? && answer == Said(Claimed))
    || (op.Defer? && op.key !in t)
  }

  /** When each key was granted, or first deferred, in a run. */
  function Openings(t: Table, openings: seq<Hit>, steps: seq<Timed>): seq<Hit>
    decreases |steps|
  {
    if steps == [] then openings
    else
      var (next, answer) := Apply(t, steps[0].op, steps[0].at);
      Openings(next, openings + if Opens(t, steps[0].op, answer) then [Hit(steps[0].op.key, steps[0].at)] else [],
               steps[1..])
  }

  ghost predicate RowsWereOpened(t: Table, openings: seq<Hit>) {
    forall key | key in t :: Hit(key, t[key].claimedAt) in openings
  }

  lemma {:induction false} RunOpensItsRows(t: Table, openings: seq<Hit>, steps: seq<Timed>)
    requires RowsWereOpened(t, openings)
    ensures RowsWereOpened(After(t, steps), Openings(t, openings, steps))
    decreases |steps|
  {
    if steps != [] {
      var step := steps[0];
      var (next, answer) := Apply(t, step.op, step.at);
      var more := if Opens(t, step.op, answer) then [Hit(step.op.key, step.at)] else [];
      forall key | key in next ensures Hit(key, next[key].claimedAt) in openings + more {
        assert (key in t && next[key].claimedAt == t[key].claimedAt) || Hit(key, next[key].claimedAt) in more;
      }
      RunOpensItsRows(next, openings + more, steps[1..]);
    }
  }

  /** The keys of a group granted, or first deferred, after `since`. */
  function OpenedSince(openings: seq<Hit>, scope: string, group: string, since: int): set<Key> {
    set hit | hit in openings && hit.key.scope == scope && group <= hit.key.name && hit.at > since :: hit.key
  }

  /** After any run, a limited claim is refused for its limit only when at least `limit` keys of
      its group were granted, or first deferred, within the window. */
  lemma LimitedMeansTheWindowIsFull(steps: seq<Timed>, now: int, step: Timed)
    requires IsRun(map[], now, steps) && step.op.ClaimLimited?
    requires Apply(After(map[], steps), step.op, step.at).1 == Said(Limited)
    ensures var op := step.op;
            |OpenedSince(Openings(map[], [], steps), op.key.scope, op.group, op.counted - op.within)| >= op.limit
  {
    var op, t, openings := step.op, After(map[], steps), Openings(map[], [], steps);
    RunOpensItsRows(map[], [], steps);
    var recent := Recent(t, op.key.scope, op.group, op.counted - op.within);
    var keys := OpenedSince(openings, op.key.scope, op.group, op.counted - op.within);
    forall key | key in recent ensures key in keys {
      assert Hit(key, t[key].claimedAt) in openings;
    }
    SubsetIsSmaller(recent, keys);
  }

  /** A limited claim that finds room is won exactly when its key is free. */
  lemma RoomDecidesByTheKey(steps: seq<Timed>, now: int, step: Timed)
    requires IsRun(map[], now, steps) && step.op.ClaimLimited?
    requires step.at >= now && (steps != [] ==> step.at >= steps[|steps| - 1].at)
    ensures var op, answer := step.op, Apply(After(map[], steps), step.op, step.at).1;
            && (|OpenedSince(Openings(map[], [], steps), op.key.scope, op.group, op.counted - op.within)| < op.limit ==>
                  answer == Said(if HeldIn(History(map[], [], steps), op.key, step.at) then Taken else Claimed))
  {
    RunIsRecorded(map[], [], now, steps, step.at);
    assert Live(After(map[], steps), step.op.key, step.at)
           <==> HeldIn(History(map[], [], steps), step.op.key, step.at);
    if Apply(After(map[], steps), step.op, step.at).1 == Said(Limited) {
      LimitedMeansTheWindowIsFull(steps, now, step);
    }
  }

  /** A release does make room: with one, a window of one lets a second claim through. */
  lemma AReleaseMakesRoom()
    ensures var key := Key("scope", "group:event");
            var claim := Op.ClaimLimited(key, 10, "group", 1, 10, 0);
            var steps := [Timed(claim, 0), Timed(Op.Release(key), 0), Timed(claim, 0)];
            && IsRun(map[], 0, steps)
            && CountIn(Hits(map[], [], steps, "scope", "group"), -10, 0) == 2
  {
    var key := Key("scope", "group:event");
    var claim := Op.ClaimLimited(key, 10, "group", 1, 10, 0);
    var steps := [Timed(claim, 0), Timed(Op.Release(key), 0), Timed(claim, 0)];
    assert Recent(map[], "scope", "group", -10) == {};
    var t1 := Apply(map[], claim, 0).0;
    assert t1 - {key} == map[];
    assert steps[1..] == [Timed(Op.Release(key), 0), Timed(claim, 0)];
    assert steps[1..][1..] == [Timed(claim, 0)];
    assert IsRun(t1, 0, steps[1..]) by {
      assert IsRun(map[], 0, steps[1..][1..]);
    }
    var hits := [Hit(key, 0)] + [Hit(key, 0)];
    assert [] + [Hit(key, 0)] == [Hit(key, 0)] && [Hit(key, 0)] + [] == [Hit(key, 0)];
    assert Hits(map[], hits, steps[1..][1..][1..], "scope", "group") == hits;
    assert Hits(map[], [Hit(key, 0)], steps[1..][1..], "scope", "group") == hits;
    assert Hits(t1, [Hit(key, 0)], steps[1..], "scope", "group") == hits;
    assert hits[1..] == [Hit(key, 0)];
  }
}
