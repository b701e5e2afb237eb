/** The order in which a history is replayed to a provider: each parallel batch's results
    follow the order of its calls, whatever order they landed in. */
module CallOrder {

  /** An empty call id stands for a missing one. */
  datatype Message = Ai(calls: seq<string>, text: string) | Tool(callId: string, text: string) | Other(text: string)

  predicate IsBatch(m: Message) {
    m.Ai? && |m.calls| >= 2
  }

  predicate AllTools(s: seq<Message>) {
    forall i | 0 <= i < |s| :: s[i].Tool?
  }

  /** The tool results at the front. */
  function Front(messages: seq<Message>): seq<Message>
    decreases |messages|
  {
    if messages == [] || !messages[0].Tool? then [] else [messages[0]] + Front(messages[1..])
  }

  function Back(messages: seq<Message>): (r: seq<Message>)
    ensures |r| <= |messages|
    decreases |messages|
  {
    if messages == [] || !messages[0].Tool? then messages else Back(messages[1..])
  }

  lemma Prepend(first: Message, a: seq<Message>, b: seq<Message>)
    ensures [first] + (a + b) == ([first] + a) + b
  {
  }

  lemma {:induction false} FrontAndBack(messages: seq<Message>)
    ensures messages == Front(messages) + Back(messages)
    ensures AllTools(Front(messages)) && (Back(messages) == [] || !Back(messages)[0].Tool?)
    decreases |messages|
  {
    if messages != [] && messages[0].Tool? {
      var rest := messages[1..];
      FrontAndBack(rest);
      assert messages == [messages[0]] + rest;
      Prepend(messages[0], Front(rest), Back(rest));
    }
  }

  lemma {:induction false} FrontOf(tools: seq<Message>, rest: seq<Message>)
    requires AllTools(tools) && (rest == [] || !rest[0].Tool?)
    ensures Front(tools + rest) == tools && Back(tools + rest) == rest
    decreases |tools|
  {
    if tools == [] {
      assert tools + rest == rest;
    } else {
      assert (tools + rest)[1..] == tools[1..] + rest;
      FrontOf(tools[1..], rest);
    }
  }

  /** The results of the batch the first message starts; none when it starts no batch. */
  function Results(messages: seq<Message>): seq<Message>
    requires messages != []
  {
    if IsBatch(messages[0]) then Front(messages[1..]) else []
  }

  function Beyond(messages: seq<Message>): (r: seq<Message>)
    requires messages != []
    ensures |r| < |messages|
  {
    if IsBatch(messages[0]) then Back(messages[1..]) else messages[1..]
  }

  lemma Parts(messages: seq<Message>)
    requires messages != []
    ensures messages == [messages[0]] + (Results(messages) + Beyond(messages))
    ensures AllTools(Results(messages))
    ensures if IsBatch(messages[0]) then Beyond(messages) == [] || !Beyond(messages)[0].Tool?
            else Results(messages) == []
  {
    FrontAndBack(messages[1..]);
    assert messages == [messages[0]] + messages[1..];
  }

  function CallsOf(m: Message): seq<string> {
    if m.Ai? then m.calls else []
  }

  function FirstIndex(calls: seq<string>, id: string): (i: nat)
    requires id in calls
    ensures i < |calls| && calls[i] == id && forall j | 0 <= j < i :: calls[j] != id
    decreases |calls|
  {
    if calls[0] == id then 0 else 1 + FirstIndex(calls[1..], id)
  }

  /** Each known id at its first call. */
  function Positions(calls: seq<string>): map<string, nat> {
    map id | id in calls && id != "" :: FirstIndex(calls, id)
  }

  /** A result without a known id goes at the place numbered by how many ids are known. */
  function Place(positions: map<string, nat>, m: Message): nat {
    if m.Tool? && m.callId in positions then positions[m.callId] else |positions|
  }

  function Insert(positions: map<string, nat>, m: Message, s: seq<Message>): seq<Message>
    decreases |s|
  {
    if s == [] || Place(positions, m) <= Place(positions, s[0]) then [m] + s
    else [s[0]] + Insert(positions, m, s[1..])
  }

  function Sorted(positions: map<string, nat>, s: seq<Message>): seq<Message>
    decreases |s|
  {
    if s == [] then [] else Insert(positions, s[0], Sorted(positions, s[1..]))
  }

  function InCallOrder(messages: seq<Message>): seq<Message>
    decreases |messages|
  {
    if messages == [] then []
    else
      [messages[0]] + (Sorted(Positions(CallsOf(messages[0])), Results(messages)) + InCallOrder(Beyond(messages)))
  }

  method PositionsOf(calls: seq<string>) returns (positions: map<string, nat>)
    ensures positions == Positions(calls)
  {
    positions := map[];
    for i := 0 to |calls|
      invariant forall id :: id in positions <==> id != "" && exists j | 0 <= j < i :: calls[j] == id
      invariant forall id | id in positions :: id in calls && positions[id] == FirstIndex(calls, id)
    {
      if calls[i] != "" && calls[i] !in positions {
        var first := FirstIndex(calls, calls[i]);
        assert first == i;
        positions := positions[calls[i] := i];
      }
    }
  }

  lemma MiddleOf(before: seq<Message>, middle: seq<Message>, after: seq<Message>)
    ensures (before + (middle + after))[|before|..|before| + |middle|] == middle
  {
  }

  method SkipResults(messages: seq<Message>, start: nat) returns (index: nat)
    requires start <= |messages|
    ensures start <= index <= |messages| && (forall k | start <= k < index :: messages[k].Tool?)
    ensures index == |messages| || !messages[index].Tool?
  {
    index := start;
    while index < |messages| && messages[index].Tool?
      invariant start <= index <= |messages| && (forall k | start <= k < index :: messages[k].Tool?)
    {
      index := index + 1;
    }
  }

  /** The stretch skipped is the front of the rest. */
  lemma SkippedIsFront(messages: seq<Message>, done: seq<Message>, rest: seq<Message>, index: nat)
    requires messages == done + rest && |done| <= index <= |messages|
    requires forall k | |done| <= k < index :: messages[k].Tool?
    requires index == |messages| || !messages[index].Tool?
    ensures messages[|done|..index] == Front(rest) && index - |done| == |Front(rest)|
  {
    var n := index - |done|;
    var tools, left := rest[..n], rest[n..];
    forall k | 0 <= k < n ensures tools[k].Tool? {
      assert messages[|done| + k] == rest[k];
    }
    assert rest == tools + left;
    FrontOf(tools, left);
    MiddleOf(done, tools, left);
  }

  method ReplayOrder(messages: seq<Message>) returns (ordered: seq<Message>)
    ensures ordered == InCallOrder(messages)
  {
    ordered := [];
    var index := 0;
    ghost var done, left := [], messages;
    assert [] + messages == messages && ordered + InCallOrder(left) == InCallOrder(left);
    while index < |messages|
      invariant index == |done| && messages == done + left
      invariant ordered + InCallOrder(left) == InCallOrder(messages)
      decreases |left|
    {
      var message := messages[index];
      Turn(ordered, left);
      Split(done, left);
      ordered := ordered + [message];
      index := index + 1;
      if message.Ai? && |message.calls| >= 2 {
        var sorted;
        sorted, index := SortBatch(message.calls, messages, index, done, left);
        ordered := ordered + sorted;
      }
      done, left := (done + [message]) + Results(left), Beyond(left);
    }
    assert left == [] && ordered + [] == ordered;
  }

  /** The sorted results of the batch that `left` starts with, and where they end. */
  method SortBatch(
    calls: seq<string>, messages: seq<Message>, start: nat, ghost done: seq<Message>, ghost left: seq<Message>)
    returns (sorted: seq<Message>, index: nat)
    requires messages == done + left && start == |done| + 1
    requires left != [] && IsBatch(left[0]) && calls == left[0].calls
    ensures sorted == Sorted(Positions(calls), Results(left)) && index == start + |Results(left)| && index <= |messages|
  {
    assert messages == (done + [left[0]]) + left[1..];
    var positions := PositionsOf(calls);
    index := SkipResults(messages, start);
    SkippedIsFront(messages, done + [left[0]], left[1..], index);
    sorted := Sorted(positions, messages[start..index]);
  }

  lemma Split(done: seq<Message>, left: seq<Message>)
    requires left != []
    ensures done + left == ((done + [left[0]]) + Results(left)) + Beyond(left)
    ensures (done + left)[|done|] == left[0]
  {
    Parts(left);
    Regroup(done, left[0], Results(left), Beyond(left));
  }

  /** One turn of the loop, on what is left of the messages. */
  lemma Turn(ordered: seq<Message>, left: seq<Message>)
    requires left != []
    ensures var sorted := Sorted(Positions(CallsOf(left[0])), Results(left));
            ordered + InCallOrder(left) == ((ordered + [left[0]]) + sorted) + InCallOrder(Beyond(left))
    ensures !IsBatch(left[0]) ==> ordered + InCallOrder(left) == (ordered + [left[0]]) + InCallOrder(Beyond(left))
  {
    var sorted := Sorted(Positions(CallsOf(left[0])), Results(left));
    Regroup(ordered, left[0], sorted, InCallOrder(Beyond(left)));
    if !IsBatch(left[0]) {
      assert (ordered + [left[0]]) + [] == ordered + [left[0]];
    }
  }

  lemma Regroup(before: seq<Message>, m: Message, sorted: seq<Message>, later: seq<Message>)
    ensures before + ([m] + (sorted + later)) == ((before + [m]) + sorted) + later
  {
  }

  // ---- The stable sort ----

  predicate InPlaceOrder(positions: map<string, nat>, s: seq<Message>) {
    forall i, j | 0 <= i < j < |s| :: Place(positions, s[i]) <= Place(positions, s[j])
  }

  /** The results that belong at one place, in the order they stand. */
  function At(positions: map<string, nat>, s: seq<Message>, place: nat): seq<Message>
    decreases |s|
  {
    if s == [] then []
    else if Place(positions, s[0]) == place then [s[0]] + At(positions, s[1..], place)
    else At(positions, s[1..], place)
  }

  lemma HeadAndTail(s: seq<Message>)
    requires s != []
    ensures multiset(s) == multiset{s[0]} + multiset(s[1..])
  {
    assert s == [s[0]] + s[1..];
  }

  lemma {:induction false} InsertAdds(positions: map<string, nat>, m: Message, s: seq<Message>)
    ensures multiset(Insert(positions, m, s)) == multiset{m} + multiset(s)
    ensures |Insert(positions, m, s)| == |s| + 1
    decreases |s|
  {
    if s != [] && Place(positions, m) > Place(positions, s[0]) {
      InsertAdds(positions, m, s[1..]);
      HeadAndTail(s);
    }
  }

  predicate NoneBefore(positions: map<string, nat>, s: seq<Message>, place: nat) {
    forall i | 0 <= i < |s| :: place <= Place(positions, s[i])
  }

  lemma {:induction false} InsertKeepsBound(positions: map<string, nat>, m: Message, s: seq<Message>, place: nat)
    requires NoneBefore(positions, s, place) && place <= Place(positions, m)
    ensures NoneBefore(positions, Insert(positions, m, s), place)
    decreases |s|
  {
    if s != [] && Place(positions, m) > Place(positions, s[0]) {
      InsertKeepsBound(positions, m, s[1..], place);
    }
  }

  lemma {:induction false} InsertSorts(positions: map<string, nat>, m: Message, s: seq<Message>)
    requires InPlaceOrder(positions, s)
    ensures InPlaceOrder(positions, Insert(positions, m, s))
    decreases |s|
  {
    if s != [] && Place(positions, m) > Place(positions, s[0]) {
      InsertSorts(positions, m, s[1..]);
      InsertKeepsBound(positions, m, s[1..], Place(positions, s[0]));
      assert NoneBefore(positions, Insert(positions, m, s[1..]), Place(positions, s[0]));
    }
  }

  lemma {:induction false} InsertIsStable(positions: map<string, nat>, m: Message, s: seq<Message>, place: nat)
    ensures At(positions, Insert(positions, m, s), place) == At(positions, [m] + s, place)
    decreases |s|
  {
    assert ([m] + s)[1..] == s;
    if s != [] && Place(positions, m) > Place(positions, s[0]) {
      InsertIsStable(positions, m, s[1..], place);
      assert ([m] + s[1..])[1..] == s[1..];
      assert ([s[0]] + Insert(positions, m, s[1..]))[1..] == Insert(positions, m, s[1..]);
    }
  }

  lemma {:induction false} SortPermutes(positions: map<string, nat>, s: seq<Message>)
    ensures multiset(Sorted(positions, s)) == multiset(s) && |Sorted(positions, s)| == |s|
    decreases |s|
  {
    if s != [] {
      SortPermutes(positions, s[1..]);
      InsertAdds(positions, s[0], Sorted(positions, s[1..]));
      HeadAndTail(s);
    }
  }

  lemma {:induction false} SortSorts(positions: map<string, nat>, s: seq<Message>)
    ensures InPlaceOrder(positions, Sorted(positions, s))
    decreases |s|
  {
    if s != [] {
      SortSorts(positions, s[1..]);
      InsertSorts(positions, s[0], Sorted(positions, s[1..]));
    }
  }

  lemma {:induction false} SortIsStable(positions: map<string, nat>, s: seq<Message>, place: nat)
    ensures At(positions, Sorted(positions, s), place) == At(positions, s, place)
    decreases |s|
  {
    if s != [] {
      SortIsStable(positions, s[1..], place);
      InsertIsStable(positions, s[0], Sorted(positions, s[1..]), place);
      assert ([s[0]] + Sorted(positions, s[1..]))[1..] == Sorted(positions, s[1..]);
    }
  }

  predicate SamePlaces(positions: map<string, nat>, a: seq<Message>, b: seq<Message>, place: nat) {
    At(positions, a, place) == At(positions, b, place)
  }

  lemma {:induction false} AtHasPlace(positions: map<string, nat>, s: seq<Message>, place: nat, i: nat)
    requires i < |s| && Place(positions, s[i]) == place
    ensures At(positions, s, place) != []
    decreases |s|
  {
    if i > 0 {
      AtHasPlace(positions, s[1..], place, i - 1);
    }
  }

  lemma SomethingStandsSomewhere(positions: map<string, nat>, s: seq<Message>)
    requires forall place: nat :: At(positions, s, place) == []
    ensures s == []
  {
    if s != [] {
      AtHasPlace(positions, s, Place(positions, s[0]), 0);
    }
  }

  lemma {:induction false} AtComesFrom(positions: map<string, nat>, s: seq<Message>, place: nat)
    requires At(positions, s, place) != []
    ensures exists i | 0 <= i < |s| :: Place(positions, s[i]) == place
    decreases |s|
  {
    if Place(positions, s[0]) != place {
      AtComesFrom(positions, s[1..], place);
      var i :| 0 <= i < |s[1..]| && Place(positions, s[1..][i]) == place;
      assert Place(positions, s[i + 1]) == place;
    }
  }

  /** A sequence in place order is determined by what stands at each place. */
  lemma {:induction false} PlacesDetermine(positions: map<string, nat>, a: seq<Message>, b: seq<Message>)
    requires InPlaceOrder(positions, a) && InPlaceOrder(positions, b)
    requires forall place: nat :: SamePlaces(positions, a, b, place)
    ensures a == b
    decreases |a|
  {
    if a != [] {
      FirstsAgree(positions, a, b);
      forall place: nat ensures SamePlaces(positions, a[1..], b[1..], place) {
        assert SamePlaces(positions, a, b, place);
        if place == Place(positions, a[0]) {
          assert At(positions, a[1..], place) == At(positions, a, place)[1..];
          assert At(positions, b[1..], place) == At(positions, b, place)[1..];
        }
      }
      PlacesDetermine(positions, a[1..], b[1..]);
      assert a == [a[0]] + a[1..] && b == [b[0]] + b[1..];
    } else {
      forall place: nat ensures At(positions, b, place) == [] {
        assert SamePlaces(positions, a, b, place);
      }
      SomethingStandsSomewhere(positions, b);
    }
  }

  lemma FirstsAgree(positions: map<string, nat>, a: seq<Message>, b: seq<Message>)
    requires InPlaceOrder(positions, a) && InPlaceOrder(positions, b) && a != []
    requires forall place: nat :: SamePlaces(positions, a, b, place)
    ensures b != [] && a[0] == b[0]
  {
    var place := Place(positions, a[0]);
    AtHasPlace(positions, a, place, 0);
    assert SamePlaces(positions, a, b, place);
    AtComesFrom(positions, b, place);
    var other := Place(positions, b[0]);
    AtHasPlace(positions, b, other, 0);
    assert SamePlaces(positions, a, b, other);
    AtComesFrom(positions, a, other);
    assert place == other;
    assert At(positions, a, place)[0] == a[0] && At(positions, b, place)[0] == b[0];
  }

  /** Sorting is canonical: two lists sort alike exactly when each place holds the same results
      in the same order. */
  lemma SortIsCanonical(positions: map<string, nat>, a: seq<Message>, b: seq<Message>)
    ensures Sorted(positions, a) == Sorted(positions, b) <==> forall place: nat :: SamePlaces(positions, a, b, place)
  {
    forall place: nat
      ensures At(positions, Sorted(positions, a), place) == At(positions, a, place)
      ensures At(positions, Sorted(positions, b), place) == At(positions, b, place)
    {
      SortIsStable(positions, a, place);
      SortIsStable(positions, b, place);
    }
    if forall place: nat :: SamePlaces(positions, a, b, place) {
      forall place: nat ensures SamePlaces(positions, Sorted(positions, a), Sorted(positions, b), place) {
        assert SamePlaces(positions, a, b, place);
      }
      SortSorts(positions, a);
      SortSorts(positions, b);
      PlacesDetermine(positions, Sorted(positions, a), Sorted(positions, b));
    }
  }

  // ---- Whole histories ----

  /** A message, results and a rest are told apart again. */
  lemma PartsOf(first: Message, tools: seq<Message>, rest: seq<Message>)
    requires AllTools(tools) && (if IsBatch(first) then rest == [] || !rest[0].Tool? else tools == [])
    ensures var all := [first] + (tools + rest); Results(all) == tools && Beyond(all) == rest
  {
    var all := [first] + (tools + rest);
    assert all[1..] == tools + rest;
    if IsBatch(first) {
      FrontOf(tools, rest);
    }
  }

  lemma SortKeepsTools(positions: map<string, nat>, s: seq<Message>)
    requires AllTools(s)
    ensures AllTools(Sorted(positions, s)) && |Sorted(positions, s)| == |s|
  {
    SortPermutes(positions, s);
    var sorted := Sorted(positions, s);
    forall i | 0 <= i < |sorted| ensures sorted[i].Tool? {
      assert sorted[i] in multiset(sorted);
    }
  }

  /** The replayed history is a permutation of the history. */
  lemma {:induction false} NothingIsLost(messages: seq<Message>)
    ensures multiset(InCallOrder(messages)) == multiset(messages) && |InCallOrder(messages)| == |messages|
    decreases |messages|
  {
    if messages != [] {
      var positions := Positions(CallsOf(messages[0]));
      Parts(messages);
      NothingIsLost(Beyond(messages));
      SortPermutes(positions, Results(messages));
      SortKeepsTools(positions, Results(messages));
      var all := [messages[0]] + (Results(messages) + Beyond(messages));
      assert messages == all && |messages| == 1 + |Results(messages)| + |Beyond(messages)|;
      assert multiset(messages) == multiset(all);
    }
  }

  /** Message `i` is a result that follows a parallel batch with only results in between. */
  predicate InBatch(messages: seq<Message>, i: nat)
    requires i < |messages|
  {
    exists j | 0 <= j < i :: IsBatch(messages[j]) && OnlyToolsAfter(messages, j, i)
  }

  predicate OnlyToolsAfter(messages: seq<Message>, j: nat, i: nat)
    requires j <= i < |messages|
  {
    forall k | j < k <= i :: messages[k].Tool?
  }

  lemma ResultsAreInBatch(messages: seq<Message>, i: nat)
    requires messages != [] && 0 < i <= |Results(messages)|
    ensures i < |messages| && InBatch(messages, i)
  {
    Parts(messages);
    var results := Results(messages);
    forall k | 0 < k <= i ensures messages[k].Tool? {
      assert messages[k] == results[k - 1];
    }
    assert IsBatch(messages[0]) && OnlyToolsAfter(messages, 0, i);
  }

  lemma InBatchShifts(before: seq<Message>, tail: seq<Message>, i: nat)
    requires i < |tail| && InBatch(tail, i)
    ensures InBatch(before + tail, |before| + i)
  {
    var j :| 0 <= j < i && IsBatch(tail[j]) && OnlyToolsAfter(tail, j, i);
    var all, n := before + tail, |before|;
    forall k | n + j < k <= n + i ensures all[k].Tool? {
      assert all[k] == tail[k - n];
    }
    assert IsBatch(all[n + j]) && OnlyToolsAfter(all, n + j, n + i);
  }

  lemma ThirdPart(first: Message, a: seq<Message>, b: seq<Message>, i: nat)
    requires |a| < i <= |a| + |b|
    ensures ([first] + (a + b))[i] == b[i - |a| - 1]
  {
  }

  lemma Lengths(messages: seq<Message>)
    requires messages != []
    ensures |messages| == |Results(messages)| + 1 + |Beyond(messages)| == |InCallOrder(messages)|
    ensures |InCallOrder(Beyond(messages))| == |Beyond(messages)|
    ensures |Sorted(Positions(CallsOf(messages[0])), Results(messages))| == |Results(messages)|
  {
    Parts(messages);
    NothingIsLost(messages);
    NothingIsLost(Beyond(messages));
    SortPermutes(Positions(CallsOf(messages[0])), Results(messages));
    assert |messages| == |[messages[0]] + (Results(messages) + Beyond(messages))|;
  }

  /** Past the first batch, a message stands as many places on in the replayed history. */
  lemma BeyondKeepsItsPlace(messages: seq<Message>, i: nat)
    requires messages != [] && |Results(messages)| < i < |messages|
    ensures |messages| == |Results(messages)| + 1 + |Beyond(messages)| == |InCallOrder(messages)|
    ensures |InCallOrder(Beyond(messages))| == |Beyond(messages)|
    ensures messages[i] == Beyond(messages)[i - |Results(messages)| - 1]
    ensures InCallOrder(messages)[i] == InCallOrder(Beyond(messages))[i - |Results(messages)| - 1]
  {
    var results, beyond := Results(messages), Beyond(messages);
    Lengths(messages);
    Parts(messages);
    ThirdPart(messages[0], Sorted(Positions(CallsOf(messages[0])), results), InCallOrder(beyond), i);
    ThirdPart(messages[0], results, beyond, i);
  }

  lemma TwoParts(messages: seq<Message>)
    requires messages != []
    ensures messages == ([messages[0]] + Results(messages)) + Beyond(messages)
  {
    Parts(messages);
    Prepend(messages[0], Results(messages), Beyond(messages));
  }

  lemma BeyondIsInBatch(messages: seq<Message>, k: nat)
    requires messages != [] && k < |Beyond(messages)| && InBatch(Beyond(messages), k)
    ensures |Results(messages)| + 1 + k < |messages| && InBatch(messages, |Results(messages)| + 1 + k)
  {
    TwoParts(messages);
    InBatchShifts([messages[0]] + Results(messages), Beyond(messages), k);
  }

  /** Every message that is no result of a parallel batch stays where it is. */
  lemma {:induction false} OthersStayInPlace(messages: seq<Message>, i: nat)
    requires i < |messages| && !InBatch(messages, i)
    ensures |InCallOrder(messages)| == |messages| && InCallOrder(messages)[i] == messages[i]
    decreases |messages|
  {
    var beyond, k := Beyond(messages), i - |Results(messages)| - 1;
    if i == 0 {
      NothingIsLost(messages);
    } else if k < 0 {
      ResultsAreInBatch(messages, i);
    } else {
      BeyondKeepsItsPlace(messages, i);
      if InBatch(beyond, k) {
        BeyondIsInBatch(messages, k);
      } else {
        OthersStayInPlace(beyond, k);
      }
    }
  }

  /** A history replays in the same order before and after it grows, unless it grows by the
      results of its last batch: the replayed prefix is what the prompt cache matches. */
  lemma {:induction false} GrowingKeepsThePrefix(messages: seq<Message>, more: seq<Message>)
    requires more == [] || !more[0].Tool?
    ensures InCallOrder(messages + more) == InCallOrder(messages) + InCallOrder(more)
    decreases |messages|
  {
    if messages == [] {
      assert messages + more == more;
    } else {
      var first, results, beyond := messages[0], Results(messages), Beyond(messages);
      Parts(messages);
      Reassociate(first, results, beyond, more);
      PartsOf(first, results, beyond + more);
      GrowingKeepsThePrefix(beyond, more);
      Reassociate(first, Sorted(Positions(CallsOf(first)), results), InCallOrder(beyond), InCallOrder(more));
    }
  }

  lemma Reassociate(first: Message, a: seq<Message>, b: seq<Message>, c: seq<Message>)
    ensures [first] + (a + (b + c)) == ([first] + (a + b)) + c
  {
  }

  /** The same history but for the order in which each batch's results landed: results that
      belong at different places may have swapped. */
  ghost predicate SameButForLanding(a: seq<Message>, b: seq<Message>)
    decreases |a|
  {
    if a == [] || b == [] then a == b
    else
      && a[0] == b[0]
      && (forall place: nat :: SamePlaces(Positions(CallsOf(a[0])), Results(a), Results(b), place))
      && SameButForLanding(Beyond(a), Beyond(b))
  }

  lemma OrderedStartsAsIs(messages: seq<Message>)
    ensures InCallOrder(messages) == [] <==> messages == []
    ensures messages != [] ==> InCallOrder(messages)[0] == messages[0]
  {
  }

  /** A replayed history starts with the same message and its results, sorted. */
  lemma PartsOfReplayed(messages: seq<Message>)
    requires messages != []
    ensures InCallOrder(messages) != [] && InCallOrder(messages)[0] == messages[0]
    ensures Results(InCallOrder(messages)) == Sorted(Positions(CallsOf(messages[0])), Results(messages))
    ensures Beyond(InCallOrder(messages)) == InCallOrder(Beyond(messages))
  {
    Parts(messages);
    SortKeepsTools(Positions(CallsOf(messages[0])), Results(messages));
    OrderedStartsAsIs(Beyond(messages));
    PartsOf(messages[0], Sorted(Positions(CallsOf(messages[0])), Results(messages)), InCallOrder(Beyond(messages)));
  }

  /** Two histories replay alike exactly when they differ only in how batch results landed. */
  lemma {:induction false} ReplayIsCanonical(a: seq<Message>, b: seq<Message>)
    ensures InCallOrder(a) == InCallOrder(b) <==> SameButForLanding(a, b)
    decreases |a|
  {
    OrderedStartsAsIs(a);
    OrderedStartsAsIs(b);
    if a != [] && b != [] && a[0] == b[0] {
      PartsOfReplayed(a);
      PartsOfReplayed(b);
      SortIsCanonical(Positions(CallsOf(a[0])), Results(a), Results(b));
      ReplayIsCanonical(Beyond(a), Beyond(b));
    }
  }

  /** Replaying a replayed history changes nothing. */
  lemma {:induction false} ReplayIsIdempotent(messages: seq<Message>)
    ensures InCallOrder(InCallOrder(messages)) == InCallOrder(messages)
    decreases |messages|
  {
    if messages != [] {
      PartsOfReplayed(messages);
      SortTwice(Positions(CallsOf(messages[0])), Results(messages));
      ReplayIsIdempotent(Beyond(messages));
    }
  }

  lemma SortTwice(positions: map<string, nat>, s: seq<Message>)
    ensures Sorted(positions, Sorted(positions, s)) == Sorted(positions, s)
  {
    forall place: nat ensures SamePlaces(positions, Sorted(positions, s), s, place) {
      SortIsStable(positions, s, place);
    }
    SortIsCanonical(positions, Sorted(positions, s), s);
  }

  // ---- Results with distinct known ids ----

  predicate DistinctKnownIds(calls: seq<string>, s: seq<Message>) {
    && (forall i | 0 <= i < |s| :: s[i].Tool? && s[i].callId in Positions(calls))
    && (forall i, j | 0 <= i < j < |s| :: s[i].callId != s[j].callId)
  }

  lemma {:induction false} AtOfDistinct(calls: seq<string>, s: seq<Message>, place: nat)
    requires DistinctKnownIds(calls, s)
    ensures forall i | 0 <= i < |s| && Place(Positions(calls), s[i]) == place ::
              At(Positions(calls), s, place) == [s[i]]
    ensures (forall i | 0 <= i < |s| :: Place(Positions(calls), s[i]) != place) ==> At(Positions(calls), s, place) == []
    decreases |s|
  {
    if s != [] {
      var positions, rest := Positions(calls), s[1..];
      AtOfDistinct(calls, rest, place);
      assert forall i | 0 <= i < |rest| :: rest[i] == s[i + 1];
      if Place(positions, s[0]) == place {
        forall i | 0 <= i < |rest| ensures Place(positions, rest[i]) != place {
          assert rest[i].callId != s[0].callId;
        }
      }
    }
  }

  /** A batch whose results all carry distinct known ids replays alike however they landed. */
  lemma LandingOrderDoesNotMatter(calls: seq<string>, x: seq<Message>, y: seq<Message>)
    requires DistinctKnownIds(calls, x) && DistinctKnownIds(calls, y) && multiset(x) == multiset(y)
    ensures Sorted(Positions(calls), x) == Sorted(Positions(calls), y)
  {
    var positions := Positions(calls);
    forall place: nat ensures SamePlaces(positions, x, y, place) {
      AtOfDistinct(calls, x, place);
      AtOfDistinct(calls, y, place);
      if i :| 0 <= i < |x| && Place(positions, x[i]) == place {
        assert x[i] in multiset(y);
        var j :| 0 <= j < |y| && y[j] == x[i];
      } else {
        forall j | 0 <= j < |y| ensures Place(positions, y[j]) != place {
          assert y[j] in multiset(x);
        }
      }
    }
    SortIsCanonical(positions, x, y);
  }

  // ---- Where each result stands ----

  /** In `calls`, the id of call `p` is given and was not given before. */
  predicate FirstCalled(calls: seq<string>, p: nat)
    requires p < |calls|
  {
    calls[p] != "" && forall i | 0 <= i < p :: calls[i] != calls[p]
  }

  lemma PlaceOfCall(calls: seq<string>, p: nat, m: Message)
    requires p < |calls| && FirstCalled(calls, p) && m.Tool? && m.callId == calls[p]
    ensures Place(Positions(calls), m) == p
  {
  }

  lemma PlaceOfUnknown(calls: seq<string>, m: Message)
    requires m.Tool? && (m.callId == "" || m.callId !in calls)
    ensures Place(Positions(calls), m) == |set id | id in calls && id != ""|
  {
    assert Positions(calls).Keys == set id | id in calls && id != "";
  }

  /** Message `i` is a result of the batch that message `b` starts. */
  predicate ResultOf(messages: seq<Message>, b: nat, i: nat) {
    b < i < |messages| && OnlyToolsAfter(messages, b, i)
  }

  lemma ResultsOfFirst(messages: seq<Message>, i: nat)
    requires messages != [] && IsBatch(messages[0]) && ResultOf(messages, 0, i)
    ensures i <= |Results(messages)| && messages[i] == Results(messages)[i - 1]
  {
    Parts(messages);
    var n := |Results(messages)|;
    assert n + 1 < |messages| ==> messages[n + 1] == Beyond(messages)[0];
  }

  /** `tail` is what stands in `all` from `n` on. */
  predicate EndsWith(all: seq<Message>, n: nat, tail: seq<Message>) {
    n + |tail| == |all| && forall k | n <= k < |all| :: all[k] == tail[k - n]
  }

  lemma ConcatEnds(before: seq<Message>, tail: seq<Message>)
    ensures EndsWith(before + tail, |before|, tail)
  {
  }

  /** The results that follow message `b` stand in the order of their places. */
  predicate BatchInOrder(messages: seq<Message>, b: nat, positions: map<string, nat>) {
    forall x, y | b < x < y < |messages| && OnlyToolsAfter(messages, b, y) ::
      Place(positions, messages[x]) <= Place(positions, messages[y])
  }

  lemma OrderShifts(all: seq<Message>, n: nat, tail: seq<Message>, positions: map<string, nat>)
    requires EndsWith(all, n, tail) && BatchInOrder(tail, 0, positions)
    ensures BatchInOrder(all, n, positions)
  {
    forall x, y | n < x < y < |all| && OnlyToolsAfter(all, n, y)
      ensures Place(positions, all[x]) <= Place(positions, all[y])
    {
      forall k | 0 < k <= y - n ensures tail[k].Tool? {
        assert all[k + n] == tail[k];
      }
      assert OnlyToolsAfter(tail, 0, y - n);
      assert Place(positions, tail[x - n]) <= Place(positions, tail[y - n]);
    }
  }

  lemma SortedBatchInOrder(messages: seq<Message>, positions: map<string, nat>)
    requires messages != [] && IsBatch(messages[0]) && InPlaceOrder(positions, Results(messages))
    ensures BatchInOrder(messages, 0, positions)
  {
    var results := Results(messages);
    forall x, y | 0 < x < y < |messages| && OnlyToolsAfter(messages, 0, y)
      ensures Place(positions, messages[x]) <= Place(positions, messages[y])
    {
      ResultsOfFirst(messages, x);
      ResultsOfFirst(messages, y);
      assert Place(positions, results[x - 1]) <= Place(positions, results[y - 1]);
    }
  }

  lemma FirstBatchInOrder(messages: seq<Message>)
    requires messages != [] && IsBatch(messages[0])
    ensures BatchInOrder(InCallOrder(messages), 0, Positions(messages[0].calls))
  {
    PartsOfReplayed(messages);
    SortSorts(Positions(messages[0].calls), Results(messages));
    SortedBatchInOrder(InCallOrder(messages), Positions(messages[0].calls));
  }

  /** The replayed history from an Ai message on is what follows it, replayed. */
  lemma ReplayEndsAt(messages: seq<Message>, b: nat)
    requires b < |messages| && messages[b].Ai?
    ensures EndsWith(InCallOrder(messages), b, InCallOrder(messages[b..]))
  {
    var before, tail := messages[..b], messages[b..];
    assert messages == before + tail;
    GrowingKeepsThePrefix(before, tail);
    NothingIsLost(before);
    ConcatEnds(InCallOrder(before), InCallOrder(tail));
  }

  /** In the replayed history, every batch's results stand in the order of their places. */
  lemma BatchesAreInOrder(messages: seq<Message>, b: nat)
    requires b < |messages| && IsBatch(messages[b])
    ensures BatchInOrder(InCallOrder(messages), b, Positions(messages[b].calls))
  {
    ReplayEndsAt(messages, b);
    FirstBatchInOrder(messages[b..]);
    OrderShifts(InCallOrder(messages), b, InCallOrder(messages[b..]), Positions(messages[b].calls));
  }

  lemma LowerPlaceFirst(messages: seq<Message>, b: nat, positions: map<string, nat>, x: nat, y: nat)
    requires BatchInOrder(messages, b, positions) && ResultOf(messages, b, x) && ResultOf(messages, b, y)
    requires Place(positions, messages[x]) < Place(positions, messages[y])
    ensures x < y
  {
  }

  /** Of two results of one batch, the one whose id was called first stands first. */
  lemma ResultsComeInCallOrder(messages: seq<Message>, b: nat, p: nat, q: nat, x: nat, y: nat)
    requires b < |messages| && messages[b].Ai? && |messages[b].calls| >= 2
    requires var calls := messages[b].calls;
             p < q < |calls| && FirstCalled(calls, p) && FirstCalled(calls, q)
    requires var out, calls := InCallOrder(messages), messages[b].calls;
             && ResultOf(out, b, x) && out[x].callId == calls[p]
             && ResultOf(out, b, y) && out[y].callId == calls[q]
    ensures x < y
  {
    var out, calls := InCallOrder(messages), messages[b].calls;
    BatchesAreInOrder(messages, b);
    PlaceOfCall(calls, p, out[x]);
    PlaceOfCall(calls, q, out[y]);
    LowerPlaceFirst(out, b, Positions(calls), x, y);
  }

  /** A result of an id never called stands where a result of call `n` would, `n` being how many
      ids were called: after all of them when each call has its own id. */
  lemma UnknownResultsStandLast(messages: seq<Message>, b: nat, p: nat, x: nat, y: nat)
    requires b < |messages| && messages[b].Ai? && |messages[b].calls| >= 2
    requires p < |messages[b].calls| && FirstCalled(messages[b].calls, p)
    requires var out, calls := InCallOrder(messages), messages[b].calls;
             && ResultOf(out, b, x) && out[x].callId == calls[p]
             && ResultOf(out, b, y) && (out[y].callId == "" || out[y].callId !in calls)
    ensures var known := |set id | id in messages[b].calls && id != ""|;
            (p < known ==> x < y) && (p > known ==> y < x)
  {
    var out, calls := InCallOrder(messages), messages[b].calls;
    BatchesAreInOrder(messages, b);
    PlaceOfCall(calls, p, out[x]);
    PlaceOfUnknown(calls, out[y]);
    if p < Place(Positions(calls), out[y]) {
      LowerPlaceFirst(out, b, Positions(calls), x, y);
    } else if p > Place(Positions(calls), out[y]) {
      LowerPlaceFirst(out, b, Positions(calls), y, x);
    }
  }

  /** The results for one id, in the order they stand. */
  function ResultsFor(messages: seq<Message>, id: string): seq<Message>
    decreases |messages|
  {
    if messages == [] then []
    else (if messages[0].Tool? && messages[0].callId == id then [messages[0]] else []) + ResultsFor(messages[1..], id)
  }

  lemma {:induction false} ResultsForConcat(a: seq<Message>, b: seq<Message>, id: string)
    ensures ResultsFor(a + b, id) == ResultsFor(a, id) + ResultsFor(b, id)
    decreases |a|
  {
    if a == [] {
      assert a + b == b;
    } else {
      assert (a + b)[1..] == a[1..] + b;
      ResultsForConcat(a[1..], b, id);
    }
  }

  lemma {:induction false} InsertKeepsResultsFor(positions: map<string, nat>, m: Message, s: seq<Message>, id: string)
    ensures ResultsFor(Insert(positions, m, s), id) == ResultsFor([m] + s, id)
    decreases |s|
  {
    assert ([m] + s)[1..] == s;
    if s != [] && Place(positions, m) > Place(positions, s[0]) {
      var rest := Insert(positions, m, s[1..]);
      InsertKeepsResultsFor(positions, m, s[1..], id);
      assert ([m] + s[1..])[1..] == s[1..];
      assert ([s[0]] + rest)[1..] == rest;
    }
  }

  lemma {:induction false} SortKeepsResultsFor(positions: map<string, nat>, s: seq<Message>, id: string)
    ensures ResultsFor(Sorted(positions, s), id) == ResultsFor(s, id)
    decreases |s|
  {
    if s != [] {
      var rest := Sorted(positions, s[1..]);
      SortKeepsResultsFor(positions, s[1..], id);
      InsertKeepsResultsFor(positions, s[0], rest, id);
      assert ([s[0]] + rest)[1..] == rest;
    }
  }

  /** Results for one id keep their order, throughout the history. */
  lemma {:induction false} ResultsForOneIdKeepTheirOrder(messages: seq<Message>, id: string)
    ensures ResultsFor(InCallOrder(messages), id) == ResultsFor(messages, id)
    decreases |messages|
  {
    if messages != [] {
      var first, results, beyond := messages[0], Results(messages), Beyond(messages);
      var sorted := Sorted(Positions(CallsOf(first)), results);
      Parts(messages);
      SortKeepsResultsFor(Positions(CallsOf(first)), results, id);
      ResultsForOneIdKeepTheirOrder(beyond, id);
      ResultsForConcat([first], results + beyond, id);
      ResultsForConcat(results, beyond, id);
      ResultsForConcat([first], sorted + InCallOrder(beyond), id);
      ResultsForConcat(sorted, InCallOrder(beyond), id);
    }
  }
}
