/** Any number of handlers racing to answer one failed run, step by step. */
module ReplyRace {
  import opened EventClaims

  /** Past its metadata checks, a handler claims the run's key, posts, and gives the claim back
      when it posted nothing. A handler that stops between steps just takes no further one. */
  datatype Phase = Claiming | Posting(claimedAt: int) | Returning(claimedAt: int) | Finished

  /** A reply that went out, with its claim's time. */
  datatype Reply = Reply(claimedAt: int)

  datatype World = World(table: Table, now: int, handlers: map<nat, Phase>, replies: seq<Reply>)

  datatype Step =
    | Arrive(h: nat)
    | TryClaim(h: nat)
    | Post(h: nat, posted: bool)
    | GiveBack(h: nat)
    | Elsewhere(op: Op)               // sweeps, and claims on other keys

  predicate Holds(p: Phase) {
    p.Posting? || p.Returning?
  }

  /** `ttl` is how long a claim lasts; a holder acts only while its own claim does. */
  predicate Enabled(w: World, key: Key, ttl: int, s: Step, at: int) {
    && w.now <= at
    && match s
       case Arrive(h) => h !in w.handlers
       case TryClaim(h) => h in w.handlers && w.handlers[h].Claiming?
       case Post(h, _) => h in w.handlers && w.handlers[h].Posting? && at < w.handlers[h].claimedAt + ttl
       case GiveBack(h) => h in w.handlers && w.handlers[h].Returning? && at < w.handlers[h].claimedAt + ttl
       case Elsewhere(op) => Allowed(w.table, w.now, Timed(op, at)) && (op.Sweep? || op.key != key)
  }

  function Apply(w: World, key: Key, ttl: int, s: Step, at: int): World
    requires Enabled(w, key, ttl, s, at)
  {
    var v := w.(now := at);
    match s
    case Arrive(h) => v.(handlers := w.handlers[h := Claiming])
    case TryClaim(h) =>
      var (table, won) := ClaimRow(w.table, key, ttl, at);
      v.(table := table, handlers := w.handlers[h := if won then Posting(at) else Finished])
    case Post(h, posted) =>
      var claimedAt := w.handlers[h].claimedAt;
      if posted then v.(handlers := w.handlers[h := Finished], replies := w.replies + [Reply(claimedAt)])
      else v.(handlers := w.handlers[h := Returning(claimedAt)])
    case GiveBack(h) => v.(table := w.table - {key}, handlers := w.handlers[h := Finished])
    case Elsewhere(op) => v.(table := EventClaims.Apply(w.table, op, at).0)
  }

  /** A claim of this time is still running, and is the one the table shows. */
  predicate Shown(t: Table, key: Key, ttl: int, claimedAt: int) {
    key in t && t[key] == Row(claimedAt, claimedAt + ttl)
  }

  predicate Running(claimedAt: int, ttl: int, now: int) {
    now < claimedAt + ttl
  }

  /** Each reply's claim comes after the previous reply's claim ran out. */
  predicate OnePerClaim(replies: seq<Reply>, ttl: int) {
    forall i, j | 0 <= i < j < |replies| :: replies[j].claimedAt >= replies[i].claimedAt + ttl
  }

  predicate After(replies: seq<Reply>, ttl: int, claimedAt: int) {
    forall i | 0 <= i < |replies| :: claimedAt >= replies[i].claimedAt + ttl
  }

  /** Of handlers holding a running claim there is at most one, none after a reply under a
      running claim, and the table shows that claim. */
  predicate Inv(w: World, key: Key, ttl: int) {
    && OnePerClaim(w.replies, ttl)
    && (forall h | h in w.handlers && Holds(w.handlers[h]) && Running(w.handlers[h].claimedAt, ttl, w.now) ::
          Shown(w.table, key, ttl, w.handlers[h].claimedAt) && After(w.replies, ttl, w.handlers[h].claimedAt))
    && (forall g, h | g in w.handlers && h in w.handlers && g != h && Holds(w.handlers[g]) && Holds(w.handlers[h]) ::
          !Running(w.handlers[g].claimedAt, ttl, w.now) || !Running(w.handlers[h].claimedAt, ttl, w.now))
    && (forall i | 0 <= i < |w.replies| && Running(w.replies[i].claimedAt, ttl, w.now) ::
          Shown(w.table, key, ttl, w.replies[i].claimedAt))
  }

  lemma PostKeepsInv(w: World, key: Key, ttl: int, h: nat, posted: bool, at: int)
    requires ttl > 0 && Inv(w, key, ttl) && Enabled(w, key, ttl, Post(h, posted), at)
    ensures Inv(Apply(w, key, ttl, Post(h, posted), at), key, ttl)
  {
    assert Running(w.handlers[h].claimedAt, ttl, w.now);
  }

  lemma GiveBackKeepsInv(w: World, key: Key, ttl: int, h: nat, at: int)
    requires ttl > 0 && Inv(w, key, ttl) && Enabled(w, key, ttl, GiveBack(h), at)
    ensures Inv(Apply(w, key, ttl, GiveBack(h), at), key, ttl)
  {
    assert Running(w.handlers[h].claimedAt, ttl, w.now);
    forall i | 0 <= i < |w.replies| ensures !Running(w.replies[i].claimedAt, ttl, at) {
      assert w.handlers[h].claimedAt >= w.replies[i].claimedAt + ttl;
      assert Running(w.replies[i].claimedAt, ttl, w.now) ==> Shown(w.table, key, ttl, w.replies[i].claimedAt);
    }
  }

  lemma TryClaimKeepsInv(w: World, key: Key, ttl: int, h: nat, at: int)
    requires ttl > 0 && Inv(w, key, ttl) && Enabled(w, key, ttl, TryClaim(h), at)
    ensures Inv(Apply(w, key, ttl, TryClaim(h), at), key, ttl)
  {
    if !Live(w.table, key, at) {
      forall i | 0 <= i < |w.replies| ensures !Running(w.replies[i].claimedAt, ttl, at) {
        assert Running(w.replies[i].claimedAt, ttl, w.now) ==> Shown(w.table, key, ttl, w.replies[i].claimedAt);
      }
      forall g | g in w.handlers && Holds(w.handlers[g]) ensures !Running(w.handlers[g].claimedAt, ttl, at) {
        assert Running(w.handlers[g].claimedAt, ttl, w.now) ==> Shown(w.table, key, ttl, w.handlers[g].claimedAt);
      }
    }
  }

  /** Nothing done to other keys, and no sweep, touches the row of a running claim. */
  lemma ElsewhereKeepsRow(t: Table, now: int, op: Op, at: int, key: Key, ttl: int, claimedAt: int)
    requires Allowed(t, now, Timed(op, at)) && (op.Sweep? || op.key != key)
    requires Shown(t, key, ttl, claimedAt) && Running(claimedAt, ttl, at)
    ensures Shown(EventClaims.Apply(t, op, at).0, key, ttl, claimedAt)
  {
  }

  lemma ElsewhereKeepsInv(w: World, key: Key, ttl: int, op: Op, at: int)
    requires Inv(w, key, ttl) && Enabled(w, key, ttl, Elsewhere(op), at)
    ensures Inv(Apply(w, key, ttl, Elsewhere(op), at), key, ttl)
  {
    var v := Apply(w, key, ttl, Elsewhere(op), at);
    forall h | h in v.handlers && Holds(v.handlers[h]) && Running(v.handlers[h].claimedAt, ttl, at)
      ensures Shown(v.table, key, ttl, v.handlers[h].claimedAt)
    {
      ElsewhereKeepsRow(w.table, w.now, op, at, key, ttl, v.handlers[h].claimedAt);
    }
    forall i | 0 <= i < |v.replies| && Running(v.replies[i].claimedAt, ttl, at)
      ensures Shown(v.table, key, ttl, v.replies[i].claimedAt)
    {
      ElsewhereKeepsRow(w.table, w.now, op, at, key, ttl, v.replies[i].claimedAt);
    }
  }

  lemma StepKeepsInv(w: World, key: Key, ttl: int, s: Step, at: int)
    requires ttl > 0 && Inv(w, key, ttl) && Enabled(w, key, ttl, s, at)
    ensures Inv(Apply(w, key, ttl, s, at), key, ttl)
  {
    match s
    case Arrive(_) =>
    case TryClaim(h) => TryClaimKeepsInv(w, key, ttl, h, at);
    case Post(h, posted) => PostKeepsInv(w, key, ttl, h, posted, at);
    case GiveBack(h) => GiveBackKeepsInv(w, key, ttl, h, at);
    case Elsewhere(op) => ElsewhereKeepsInv(w, key, ttl, op, at);
  }

  predicate IsRun(w: World, key: Key, ttl: int, steps: seq<(Step, int)>)
    decreases |steps|
  {
    steps == [] ||
    (Enabled(w, key, ttl, steps[0].0, steps[0].1)
     && IsRun(Apply(w, key, ttl, steps[0].0, steps[0].1), key, ttl, steps[1..]))
  }

  function Final(w: World, key: Key, ttl: int, steps: seq<(Step, int)>): World
    requires IsRun(w, key, ttl, steps)
    decreases |steps|
  {
    if steps == [] then w else Final(Apply(w, key, ttl, steps[0].0, steps[0].1), key, ttl, steps[1..])
  }

  lemma {:induction false} RunKeepsInv(w: World, key: Key, ttl: int, steps: seq<(Step, int)>)
    requires ttl > 0 && Inv(w, key, ttl) && IsRun(w, key, ttl, steps)
    ensures Inv(Final(w, key, ttl, steps), key, ttl)
    decreases |steps|
  {
    if steps != [] {
      StepKeepsInv(w, key, ttl, steps[0].0, steps[0].1);
      RunKeepsInv(Apply(w, key, ttl, steps[0].0, steps[0].1), key, ttl, steps[1..]);
    }
  }

  /** However handlers of one failed run interleave, with sweeps and other claims in between,
      one claim carries at most one reply: a second can only follow a claim taken after the
      first one's time ran out. */
  lemma OneReplyPerClaimLifetime(table: Table, now: int, key: Key, ttl: int, steps: seq<(Step, int)>)
    requires ttl > 0 && IsRun(World(table, now, map[], []), key, ttl, steps)
    ensures OnePerClaim(Final(World(table, now, map[], []), key, ttl, steps).replies, ttl)
  {
    RunKeepsInv(World(table, now, map[], []), key, ttl, steps);
  }

  // ---- Who gets to reply ----

  /** How many posts of a run went out. */
  function Posts(steps: seq<(Step, int)>): nat
    decreases |steps|
  {
    if steps == [] then 0
    else (if steps[0].0.Post? && steps[0].0.posted then 1 else 0) + Posts(steps[1..])
  }

  lemma {:induction false} EveryPostIsAReply(w: World, key: Key, ttl: int, steps: seq<(Step, int)>)
    requires IsRun(w, key, ttl, steps)
    ensures |Final(w, key, ttl, steps).replies| == |w.replies| + Posts(steps)
    decreases |steps|
  {
    if steps != [] {
      EveryPostIsAReply(Apply(w, key, ttl, steps[0].0, steps[0].1), key, ttl, steps[1..]);
    }
  }

  /** A running claim in the table belongs to a holder, or to a reply. */
  predicate Explained(w: World, key: Key, ttl: int) {
    Live(w.table, key, w.now) ==>
      && w.table[key].expiresAt == w.table[key].claimedAt + ttl
      && (|| Reply(w.table[key].claimedAt) in w.replies
          || exists h | h in w.handlers :: Holds(w.handlers[h]) && w.handlers[h].claimedAt == w.table[key].claimedAt)
  }

  lemma StepStaysExplained(w: World, key: Key, ttl: int, s: Step, at: int)
    requires Explained(w, key, ttl) && Enabled(w, key, ttl, s, at)
    ensures Explained(Apply(w, key, ttl, s, at), key, ttl)
  {
    var v := Apply(w, key, ttl, s, at);
    if Live(v.table, key, at) && Live(w.table, key, w.now) && v.table[key] == w.table[key] {
      if h :| h in w.handlers && Holds(w.handlers[h]) && w.handlers[h].claimedAt == w.table[key].claimedAt {
        if h in v.handlers && Holds(v.handlers[h]) {
          assert v.handlers[h].claimedAt == v.table[key].claimedAt;
        }
      }
    } else if s.TryClaim? && Live(v.table, key, at) {
      assert Holds(v.handlers[s.h]) && v.handlers[s.h].claimedAt == v.table[key].claimedAt;
    }
  }

  lemma {:induction false} RunStaysExplained(w: World, key: Key, ttl: int, steps: seq<(Step, int)>)
    requires Explained(w, key, ttl) && IsRun(w, key, ttl, steps)
    ensures Explained(Final(w, key, ttl, steps), key, ttl)
    decreases |steps|
  {
    if steps != [] {
      StepStaysExplained(w, key, ttl, steps[0].0, steps[0].1);
      RunStaysExplained(Apply(w, key, ttl, steps[0].0, steps[0].1), key, ttl, steps[1..]);
    }
  }

  /** In any run over a key that starts free, a handler wins the claim exactly when no other holds
      it and none has replied, under a claim that is still running. */
  lemma AClaimIsWonExactly(
    table: Table, now: int, key: Key, ttl: int, steps: seq<(Step, int)>, h: nat, at: int)
    requires ttl > 0 && !Live(table, key, now) && IsRun(World(table, now, map[], []), key, ttl, steps)
    requires Enabled(Final(World(table, now, map[], []), key, ttl, steps), key, ttl, TryClaim(h), at)
    ensures var w := Final(World(table, now, map[], []), key, ttl, steps);
            Apply(w, key, ttl, TryClaim(h), at).handlers[h].Posting? <==>
              && (forall g | g in w.handlers && Holds(w.handlers[g]) :: at >= w.handlers[g].claimedAt + ttl)
              && (forall i | 0 <= i < |w.replies| :: at >= w.replies[i].claimedAt + ttl)
  {
    var start := World(table, now, map[], []);
    var w := Final(start, key, ttl, steps);
    RunKeepsInv(start, key, ttl, steps);
    RunStaysExplained(start, key, ttl, steps);
    if Live(w.table, key, at) {
      assert Live(w.table, key, w.now);
      if Reply(w.table[key].claimedAt) in w.replies {
        var i :| 0 <= i < |w.replies| && w.replies[i] == Reply(w.table[key].claimedAt);
        assert at < w.replies[i].claimedAt + ttl;
      }
    } else {
      forall g | g in w.handlers && Holds(w.handlers[g]) ensures at >= w.handlers[g].claimedAt + ttl {
        assert Running(w.handlers[g].claimedAt, ttl, w.now) ==> Shown(w.table, key, ttl, w.handlers[g].claimedAt);
      }
      forall i | 0 <= i < |w.replies| ensures at >= w.replies[i].claimedAt + ttl {
        assert Running(w.replies[i].claimedAt, ttl, w.now) ==> Shown(w.table, key, ttl, w.replies[i].claimedAt);
      }
    }
  }

  /** A handler that could not post gives its claim back, and a second one answers the run. */
  lemma AFailedPostLetsAnotherReply(key: Key, ttl: int)
    requires ttl > 0
    ensures var steps := [(Arrive(0), 0), (TryClaim(0), 0), (Post(0, false), 0), (GiveBack(0), 0),
                          (Arrive(1), 0), (TryClaim(1), 0), (Post(1, true), 0)];
            && IsRun(World(map[], 0, map[], []), key, ttl, steps)
            && Final(World(map[], 0, map[], []), key, ttl, steps).replies == [Reply(0)]
  {
    var w1 := Apply(World(map[], 0, map[], []), key, ttl, Arrive(0), 0);
    var w2 := Apply(w1, key, ttl, TryClaim(0), 0);
    var w3 := Apply(w2, key, ttl, Post(0, false), 0);
    var w4 := Apply(w3, key, ttl, GiveBack(0), 0);
    var w5 := Apply(w4, key, ttl, Arrive(1), 0);
    var w6 := Apply(w5, key, ttl, TryClaim(1), 0);
    var w7 := Apply(w6, key, ttl, Post(1, true), 0);
    assert w7.replies == [Reply(0)];
    OneStepFirst(w6, key, ttl, Post(1, true), []);
    OneStepFirst(w5, key, ttl, TryClaim(1), [(Post(1, true), 0)]);
    OneStepFirst(w4, key, ttl, Arrive(1), [(TryClaim(1), 0), (Post(1, true), 0)]);
    OneStepFirst(w3, key, ttl, GiveBack(0), [(Arrive(1), 0), (TryClaim(1), 0), (Post(1, true), 0)]);
    OneStepFirst(w2, key, ttl, Post(0, false),
                 [(GiveBack(0), 0), (Arrive(1), 0), (TryClaim(1), 0), (Post(1, true), 0)]);
    OneStepFirst(w1, key, ttl, TryClaim(0),
                 [(Post(0, false), 0), (GiveBack(0), 0), (Arrive(1), 0), (TryClaim(1), 0), (Post(1, true), 0)]);
    OneStepFirst(World(map[], 0, map[], []), key, ttl, Arrive(0),
                 [(TryClaim(0), 0), (Post(0, false), 0), (GiveBack(0), 0),
                  (Arrive(1), 0), (TryClaim(1), 0), (Post(1, true), 0)]);
  }

  lemma OneStepFirst(w: World, key: Key, ttl: int, s: Step, rest: seq<(Step, int)>)
    requires Enabled(w, key, ttl, s, w.now) && IsRun(Apply(w, key, ttl, s, w.now), key, ttl, rest)
    ensures IsRun(w, key, ttl, [(s, w.now)] + rest)
    ensures Final(w, key, ttl, [(s, w.now)] + rest) == Final(Apply(w, key, ttl, s, w.now), key, ttl, rest)
  {
    assert ([(s, w.now)] + rest)[1..] == rest;
  }
}
