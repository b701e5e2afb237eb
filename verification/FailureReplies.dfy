/** What a failed run's completion does to its thread: at most one reply per run, and a row
    of event-woken failures falls silent. */
module FailureReplies {
  import opened EventClaims
  import opened NewestWindow

  const MaxFailureReplyRunIds := 20
  const MaxConsecutiveFailureReplies := 3
  const ClaimTtl := 2 * 24 * 60 * 60

  /** A thread's metadata; an empty `latest` or run id stands for a missing one. */
  datatype Meta = Meta(flagged: bool, latest: string, ids: seq<string>, failures: nat)

  /** One webhook: the run, whether an event woke it, and how the outside calls go. */
  datatype Failure = Failure(
    run: string, eventWoken: bool, channelReports: bool, posted: bool, reported: bool, written: bool)

  datatype Answer = AlreadyPosted | ChannelAnswers | Suppressed | NothingPosted | Replied

  function PostedIds(m: Meta): seq<string> {
    if m.latest != "" && m.latest !in m.ids then m.ids + [m.latest] else m.ids
  }

  /** The metadata written once a reply went out. */
  function Marked(m: Meta, run: string, failures: nat): Meta {
    var counted := if failures != 0 || m.failures != 0 then m.(failures := failures) else m;
    if run == "" then counted.(flagged := true)
    else counted.(latest := run, ids := Newest(Without(PostedIds(m), run) + [run], MaxFailureReplyRunIds))
  }

  predicate AlreadyReplied(m: Meta, run: string) {
    if run == "" then m.flagged else run in PostedIds(m)
  }

  function Failures(m: Meta, f: Failure): nat {
    if f.eventWoken then m.failures + 1 else 0
  }

  function ClaimKey(thread: string, run: string): Key {
    Key("run_failure_reply", thread + ":" + run)
  }

  /** `swept` are the lapsed rows the claim happens to sweep first. */
  function Complete(thread: string, m: Meta, t: Table, f: Failure, swept: set<Key>, at: int): (Meta, Table, Answer) {
    if AlreadyReplied(m, f.run) then (m, t, AlreadyPosted)
    else if f.channelReports then (m, t, ChannelAnswers)
    else if Failures(m, f) > MaxConsecutiveFailureReplies then
      (if f.written then m.(failures := Failures(m, f)) else m, t, Suppressed)
    else if f.run != "" && Live(t - swept, ClaimKey(thread, f.run), at) then (m, t - swept, AlreadyPosted)
    else
      var claimed := if f.run == "" then t else (t - swept)[ClaimKey(thread, f.run) := Row(at, at + ClaimTtl)];
      var kept := if f.run != "" && !f.posted then claimed - {ClaimKey(thread, f.run)} else claimed;
      if !f.posted && !f.reported then (m, kept, NothingPosted)
      else (if f.written then Marked(m, f.run, Failures(m, f)) else m, kept, Replied)
  }

  function Succeeded(m: Meta, run: string, written: bool): Meta {
    if run != "" && m.failures != 0 && written then m.(failures := 0) else m
  }

  class Thread {
    const id: string
    var meta: Meta
    const claims: Claims

    constructor (id: string, claims: Claims)
      ensures this.id == id && this.claims == claims && meta == Meta(false, "", [], 0)
    {
      this.id, this.claims, meta := id, claims, Meta(false, "", [], 0);
    }

    /** One failed run's completion, with no other in between; `swept` is what its claim sweeps. */
    method HandleFailure(f: Failure, swept: set<Key>, at: int) returns (answer: Answer)
      requires IsSweep(claims.rows, swept, at)
      modifies this, claims
      ensures answer.AlreadyPosted? || answer.NothingPosted? || answer.ChannelAnswers? ==> meta == old(meta)
      ensures (meta, claims.rows, answer) == Complete(id, old(meta), old(claims.rows), f, swept, at)
    {
      if f.run == "" {
        if meta.flagged {
          return AlreadyPosted;
        }
      } else if f.run in PostedIds(meta) {
        return AlreadyPosted;
      }
      if f.channelReports {
        return ChannelAnswers;
      }
      var failures := if f.eventWoken then meta.failures + 1 else 0;
      if failures > MaxConsecutiveFailureReplies {
        if f.written {
          meta := meta.(failures := failures);
        }
        return Suppressed;
      }
      if f.run != "" {
        var key := ClaimKey(id, f.run);
        var won := claims.Claim(key, ClaimTtl, swept, at, at);
        if !won {
          return AlreadyPosted;
        }
        if !f.posted {
          claims.Release(key);
        }
      }
      if !f.posted && !f.reported {
        return NothingPosted;
      }
      if f.written {
        meta := Marked(meta, f.run, failures);
      }
      answer := Replied;
    }

    method HandleSuccess(run: string, written: bool)
      modifies this`meta
      ensures meta == Succeeded(old(meta), run, written)
    {
      if run == "" {
        return;
      }
      if meta.failures != 0 && written {
        meta := meta.(failures := 0);
      }
    }
  }

  // ---- Completions one after another ----

  datatype Event = Failed(failure: Failure, swept: set<Key>) | Succeed(run: string, written: bool)

  datatype State = State(meta: Meta, table: Table)

  function Apply(thread: string, s: State, e: Event, at: int): (State, Answer) {
    match e
    case Failed(f, swept) =>
      var (meta, table, answer) := Complete(thread, s.meta, s.table, f, swept, at);
      (State(meta, table), answer)
    case Succeed(run, written) => (s.(meta := Succeeded(s.meta, run, written)), NothingPosted)
  }

  /** Since the last success, or answered failure of a run no event woke: how many replies to
      event-woken failures went out, and how many of their metadata writes were lost. */
  datatype Streak = Streak(replies: nat, lost: nat)

  function Counted(k: Streak, e: Event, answer: Answer): Streak {
    match e
    case Succeed(run, _) => if run != "" then Streak(0, 0) else k
    case Failed(f, _) =>
      if !answer.Replied? then k
      else if !f.eventWoken then Streak(0, 0)
      else Streak(if f.posted then k.replies + 1 else k.replies, if f.written then k.lost else k.lost + 1)
  }

  function StreakOf(thread: string, s: State, k: Streak, events: seq<(Event, int)>): Streak
    decreases |events|
  {
    if events == [] then k
    else
      var (next, answer) := Apply(thread, s, events[0].0, events[0].1);
      StreakOf(thread, next, Counted(k, events[0].0, answer), events[1..])
  }

  predicate StreakInv(m: Meta, k: Streak) {
    k.replies <= m.failures + k.lost && k.replies <= MaxConsecutiveFailureReplies + k.lost
  }

  lemma StepKeepsStreak(thread: string, s: State, k: Streak, e: Event, at: int)
    requires StreakInv(s.meta, k)
    ensures var (next, answer) := Apply(thread, s, e, at); StreakInv(next.meta, Counted(k, e, answer))
  {
  }

  lemma {:induction false} RunKeepsStreak(thread: string, s: State, k: Streak, events: seq<(Event, int)>)
    requires StreakInv(s.meta, k)
    ensures var last := StreakOf(thread, s, k, events); last.replies <= MaxConsecutiveFailureReplies + last.lost
    decreases |events|
  {
    if events != [] {
      var (next, answer) := Apply(thread, s, events[0].0, events[0].1);
      StepKeepsStreak(thread, s, k, events[0].0, events[0].1);
      RunKeepsStreak(thread, next, Counted(k, events[0].0, answer), events[1..]);
    }
  }

  /** From any metadata and claims, a row of event-woken failures gets at most three replies,
      and one more for each metadata write that was lost on the way. */
  lemma ARowOfFailuresFallsSilent(thread: string, s: State, events: seq<(Event, int)>)
    ensures var k := StreakOf(thread, s, Streak(0, 0), events); k.replies <= MaxConsecutiveFailureReplies + k.lost
  {
    RunKeepsStreak(thread, s, Streak(0, 0), events);
  }

  // ---- When a failure is answered ----

  /** An event-woken failure whose reply goes out. */
  function Answered(run: string, written: bool): (Event, int) {
    (Failed(Failure(run, true, false, true, false, written), {}), 0)
  }

  function AllAnswered(runs: seq<string>): seq<(Event, int)> {
    if runs == [] then [] else [Answered(runs[0], true)] + AllAnswered(runs[1..])
  }

  lemma RoomForAReply(thread: string, m: Meta, t: Table, run: string, written: bool)
    requires run != "" && run !in PostedIds(m) && m.failures < MaxConsecutiveFailureReplies
    requires ClaimKey(thread, run) !in t
    ensures Complete(thread, m, t, Failure(run, true, false, true, false, written), {}, 0)
         == (if written then Marked(m, run, m.failures + 1) else m,
             t[ClaimKey(thread, run) := Row(0, ClaimTtl)], Replied)
  {
    assert t - {} == t;
  }

  /** Different runs the thread has neither answered nor claimed. */
  predicate Unheard(thread: string, s: State, runs: seq<string>) {
    && NoRepeats(runs)
    && forall i | 0 <= i < |runs| ::
         runs[i] != "" && runs[i] !in PostedIds(s.meta) && ClaimKey(thread, runs[i]) !in s.table
  }

  lemma ClaimKeysDiffer(thread: string, a: string, b: string)
    requires a != b
    ensures ClaimKey(thread, a) != ClaimKey(thread, b)
  {
    assert (thread + ":" + a)[|thread| + 1..] == a && (thread + ":" + b)[|thread| + 1..] == b;
  }

  lemma OthersStayUnheard(thread: string, s: State, runs: seq<string>)
    requires runs != [] && Unheard(thread, s, runs) && s.meta.failures < MaxConsecutiveFailureReplies
    ensures Unheard(thread, Apply(thread, s, Answered(runs[0], true).0, 0).0, runs[1..])
  {
    var run, rest := runs[0], runs[1..];
    var next := Apply(thread, s, Answered(run, true).0, 0).0;
    RoomForAReply(thread, s.meta, s.table, run, true);
    forall i | 0 <= i < |rest|
      ensures rest[i] != "" && rest[i] !in PostedIds(next.meta) && ClaimKey(thread, rest[i]) !in next.table
    {
      assert rest[i] == runs[i + 1];
      ClaimKeysDiffer(thread, run, rest[i]);
      MarkAddsOnlyItsRun(s.meta, run, s.meta.failures + 1, rest[i]);
    }
  }

  lemma MarkAddsOnlyItsRun(m: Meta, run: string, failures: nat, other: string)
    requires run != "" && other != run && other !in PostedIds(m)
    ensures other !in PostedIds(Marked(m, run, failures))
  {
    var ids := Without(PostedIds(m), run) + [run];
    assert other !in ids;
    assert forall id | id in Newest(ids, MaxFailureReplyRunIds) :: id in ids;
  }

  lemma {:induction false} UnheardRunsAreAnswered(thread: string, s: State, k: Streak, runs: seq<string>)
    requires Unheard(thread, s, runs) && s.meta.failures + |runs| <= MaxConsecutiveFailureReplies
    ensures StreakOf(thread, s, k, AllAnswered(runs)) == Streak(k.replies + |runs|, k.lost)
    decreases |runs|
  {
    if runs != [] {
      var run := runs[0];
      RoomForAReply(thread, s.meta, s.table, run, true);
      OthersStayUnheard(thread, s, runs);
      var next := Apply(thread, s, Answered(run, true).0, 0).0;
      UnheardRunsAreAnswered(thread, next, Streak(k.replies + 1, k.lost), runs[1..]);
      assert ([Answered(run, true)] + AllAnswered(runs[1..]))[1..] == AllAnswered(runs[1..]);
    }
  }

  /** A success whose write goes through lets the next three event-woken failures be answered,
      however many went unanswered before it. */
  lemma ASuccessAllowsThreeMore(thread: string, s: State, run: string, a: string, b: string, c: string)
    requires run != "" && Unheard(thread, s, [a, b, c])
    ensures StreakOf(thread, s, Streak(0, 0), [(Succeed(run, true), 0)] + AllAnswered([a, b, c])) == Streak(3, 0)
  {
    var events := [(Succeed(run, true), 0)] + AllAnswered([a, b, c]);
    assert events[1..] == AllAnswered([a, b, c]);
    var next := Apply(thread, s, Succeed(run, true), 0).0;
    UnheardRunsAreAnswered(thread, next, Streak(0, 0), [a, b, c]);
  }

  /** What a failure nobody has answered comes to: silence after three replies in a row that
      events woke, and otherwise a reply, unless neither the thread nor its channel takes it. */
  lemma WhenAFailureIsAnswered(thread: string, s: State, f: Failure, at: int)
    requires f.run != "" && Unheard(thread, s, [f.run])
    ensures var (meta, table, answer) := Complete(thread, s.meta, s.table, f, {}, at);
            && answer == (if f.channelReports then ChannelAnswers
                          else if f.eventWoken && s.meta.failures >= 3 then Suppressed
                          else if f.posted || f.reported then Replied else NothingPosted)
            && (ClaimKey(thread, f.run) in table <==>
                  f.posted && !f.channelReports && !(f.eventWoken && s.meta.failures >= 3))
            && (answer.Replied? && f.written ==>
                  f.run in PostedIds(meta) && meta.failures == if f.eventWoken then s.meta.failures + 1 else 0)
            && (answer.Suppressed? && f.written ==> meta.failures == s.meta.failures + 1)
  {
    assert [f.run][0] == f.run;
  }

  /** A run that was answered, or is claimed by another handler, is left alone: nothing is written,
      and no claim but lapsed ones changes. */
  lemma WhenAFailureIsLeftAlone(thread: string, s: State, f: Failure, swept: set<Key>, at: int)
    requires f.run != "" && IsSweep(s.table, swept, at)
    requires || f.run in PostedIds(s.meta)
             || (Live(s.table, ClaimKey(thread, f.run), at) && !f.channelReports && Failures(s.meta, f) <= 3)
    ensures var (meta, table, answer) := Complete(thread, s.meta, s.table, f, swept, at);
            answer.AlreadyPosted? && meta == s.meta && (table == s.table || table == s.table - swept)
  {
  }

  /** A failed run without an id takes no claim, and is answered once: its reply is remembered. */
  lemma ARunWithoutAnIdIsAnsweredOnce(thread: string, s: State, f: Failure, again: Failure, at: int, later: int)
    requires f.run == "" && again.run == "" && !f.channelReports && f.written && Failures(s.meta, f) <= 3
    requires f.posted || f.reported
    ensures var (meta, table, answer) := Complete(thread, s.meta, s.table, f, {}, at);
            && table == s.table && meta.ids == s.meta.ids
            && answer == (if s.meta.flagged then AlreadyPosted else Replied)
            && Complete(thread, meta, table, again, {}, later) == (meta, table, AlreadyPosted)
  {
  }

  // ---- The bound is reached ----

  const LastRuns := ["a", "b", "c"]

  /** A run id of length `n`, another for each. */
  function LostRun(n: nat): (run: string)
    ensures |run| == n && (n > 0 ==> run[0] == 'x')
  {
    if n == 0 then "" else "x" + LostRun(n - 1)
  }

  /** Replies to `n` different runs whose metadata writes are lost, then to three whose writes
      are not. */
  function LossyRow(n: nat): seq<(Event, int)> {
    if n == 0 then AllAnswered(LastRuns)
    else [Answered(LostRun(n), false)] + LossyRow(n - 1)
  }

  /** The claims that replies to some runs leave. */
  function ClaimsOf(thread: string, runs: seq<string>): Table
    decreases |runs|
  {
    if runs == [] then map[]
    else ClaimsOf(thread, runs[..|runs| - 1])[ClaimKey(thread, runs[|runs| - 1]) := Row(0, ClaimTtl)]
  }

  /** The thread after replies to some runs whose writes were lost. */
  function AfterLost(thread: string, lost: seq<string>): State {
    State(Meta(false, "", [], 0), ClaimsOf(thread, lost))
  }

  lemma {:induction false} NotClaimed(thread: string, runs: seq<string>, run: string)
    requires run !in runs
    ensures ClaimKey(thread, run) !in ClaimsOf(thread, runs)
    decreases |runs|
  {
    if runs != [] {
      var last := runs[|runs| - 1];
      NotClaimed(thread, runs[..|runs| - 1], run);
      assert (thread + ":" + last)[|thread| + 1..] == last && (thread + ":" + run)[|thread| + 1..] == run;
    }
  }

  lemma ClaimsGrow(thread: string, runs: seq<string>, run: string)
    ensures ClaimsOf(thread, runs + [run]) == ClaimsOf(thread, runs)[ClaimKey(thread, run) := Row(0, ClaimTtl)]
  {
    assert (runs + [run])[..|runs|] == runs;
  }

  /** A reply whose write is lost leaves only its claim behind. */
  lemma OneMoreLost(thread: string, lost: seq<string>, k: Streak, run: string, rest: seq<(Event, int)>)
    requires run != "" && run !in lost
    ensures StreakOf(thread, AfterLost(thread, lost), k, [Answered(run, false)] + rest)
         == StreakOf(thread, AfterLost(thread, lost + [run]), Streak(k.replies + 1, k.lost + 1), rest)
  {
    NotClaimed(thread, lost, run);
    RoomForAReply(thread, AfterLost(thread, lost).meta, ClaimsOf(thread, lost), run, false);
    ClaimsGrow(thread, lost, run);
    assert ([Answered(run, false)] + rest)[1..] == rest;
  }

  lemma LastRunsAreUnheard(thread: string, lost: seq<string>)
    requires forall i | 0 <= i < |lost| :: |lost[i]| > 0 && lost[i][0] == 'x'
    ensures Unheard(thread, AfterLost(thread, lost), LastRuns)
  {
    assert LastRuns[0][0] == 'a' && LastRuns[1][0] == 'b' && LastRuns[2][0] == 'c';
    forall i | 0 <= i < |LastRuns| ensures ClaimKey(thread, LastRuns[i]) !in ClaimsOf(thread, lost) {
      NotClaimed(thread, lost, LastRuns[i]);
    }
  }

  lemma {:induction false} LossyRowReplies(thread: string, lost: seq<string>, n: nat, k: Streak)
    requires forall i | 0 <= i < |lost| :: |lost[i]| > n && lost[i][0] == 'x'
    ensures StreakOf(thread, AfterLost(thread, lost), k, LossyRow(n)) == Streak(k.replies + n + 3, k.lost + n)
    decreases n
  {
    if n == 0 {
      LastRunsAreUnheard(thread, lost);
      UnheardRunsAreAnswered(thread, AfterLost(thread, lost), k, LastRuns);
    } else {
      OneMoreLost(thread, lost, k, LostRun(n), LossyRow(n - 1));
      LossyRowReplies(thread, lost + [LostRun(n)], n - 1, Streak(k.replies + 1, k.lost + 1));
    }
  }

  /** For every number of lost writes there is a row of event-woken failures of different runs
      with that many lost and three replies more. */
  lemma EachLostWriteLetsOneMoreThrough(thread: string, n: nat)
    ensures StreakOf(thread, AfterLost(thread, []), Streak(0, 0), LossyRow(n))
         == Streak(MaxConsecutiveFailureReplies + n, n)
  {
    LossyRowReplies(thread, [], n, Streak(0, 0));
  }

  // ---- Which runs a thread remembers ----

  function Recorded(log: seq<string>, e: Event, answer: Answer): seq<string> {
    if e.Failed? && answer.Replied? && e.failure.run != "" && e.failure.written then log + [e.failure.run] else log
  }

  function RecordedIn(thread: string, s: State, log: seq<string>, events: seq<(Event, int)>): seq<string>
    decreases |events|
  {
    if events == [] then log
    else
      var (next, answer) := Apply(thread, s, events[0].0, events[0].1);
      RecordedIn(thread, next, Recorded(log, events[0].0, answer), events[1..])
  }

  predicate MemoryInv(m: Meta, log: seq<string>) {
    && Apart(log, MaxFailureReplyRunIds)
    && m.ids == Newest(log, MaxFailureReplyRunIds)
    && (m.latest != "" ==> m.latest in m.ids)
  }

  lemma MarkKeepsMemory(m: Meta, log: seq<string>, run: string, failures: nat)
    requires MemoryInv(m, log) && run != "" && run !in PostedIds(m)
    ensures MemoryInv(Marked(m, run, failures), log + [run])
  {
    FreshStaysApart(log, run, MaxFailureReplyRunIds);
    NewestGrows(log, run, MaxFailureReplyRunIds);
    var ids := Newest(log + [run], MaxFailureReplyRunIds);
    assert ids[|ids| - 1] == run;
  }

  /** Only a written answer to a run not remembered yet changes what is remembered. */
  lemma WhatIsRemembered(thread: string, m: Meta, t: Table, f: Failure, swept: set<Key>, at: int)
    ensures var (meta, _, answer) := Complete(thread, m, t, f, swept, at);
            if answer.Replied? && f.run != "" && f.written
            then f.run !in PostedIds(m) && meta == Marked(m, f.run, Failures(m, f))
            else meta.ids == m.ids && meta.latest == m.latest
  {
  }

  lemma StepKeepsMemory(thread: string, s: State, log: seq<string>, e: Event, at: int)
    requires MemoryInv(s.meta, log)
    ensures var (next, answer) := Apply(thread, s, e, at); MemoryInv(next.meta, Recorded(log, e, answer))
  {
    if e.Failed? {
      var f := e.failure;
      var (_, answer) := Apply(thread, s, e, at);
      WhatIsRemembered(thread, s.meta, s.table, f, e.swept, at);
      if answer.Replied? && f.run != "" && f.written {
        MarkKeepsMemory(s.meta, log, f.run, Failures(s.meta, f));
      }
    }
  }

  lemma {:induction false} RunKeepsMemory(thread: string, s: State, log: seq<string>, events: seq<(Event, int)>)
    requires MemoryInv(s.meta, log)
    ensures Apart(RecordedIn(thread, s, log, events), MaxFailureReplyRunIds)
    decreases |events|
  {
    if events != [] {
      var (next, answer) := Apply(thread, s, events[0].0, events[0].1);
      StepKeepsMemory(thread, s, log, events[0].0, events[0].1);
      RunKeepsMemory(thread, next, Recorded(log, events[0].0, answer), events[1..]);
    }
  }

  /** A run answered and recorded twice has twenty other runs recorded in between. */
  lemma AnsweredTwiceMeansTwentyBetween(thread: string, table: Table, events: seq<(Event, int)>, i: nat, j: nat)
    requires var log := RecordedIn(thread, State(Meta(false, "", [], 0), table), [], events);
             i < j < |log| && log[i] == log[j]
    ensures var log := RecordedIn(thread, State(Meta(false, "", [], 0), table), [], events);
            |Members(log[i + 1..j]) - {log[i]}| >= MaxFailureReplyRunIds
  {
    var s := State(Meta(false, "", [], 0), table);
    RunKeepsMemory(thread, s, [], events);
    ApartEncloses(RecordedIn(thread, s, [], events), MaxFailureReplyRunIds, i, j);
  }
}
