/** Context blocks in a conversation: the latest visible block of each key is the one in
    force, and a preparation adds only the blocks that are not in force. */
module ContextBlocks {
  import opened Options

  datatype Block = Block(kind: string, id: string, body: string)

  /** Stands for the SHA-256 of a block's canonical form, taken to be injective. */
  datatype Hash = HashOf(block: Block)

  /** A block without an id is its own key. */
  datatype Key = Named(kind: string, id: string) | Anonymous(kind: string, hash: Hash)

  function KeyOf(b: Block): Key {
    if b.id == "" then Anonymous(b.kind, HashOf(b)) else Named(b.kind, b.id)
  }

  /** One text of a message: a context block with the hash it claims, or anything else. */
  datatype Text = Other | Context(block: Block, claimed: Option<Hash>)

  type Message = seq<Text>

  predicate Genuine(t: Text) {
    t.Context? && (t.claimed.None? || t.claimed.value == HashOf(t.block))
  }

  /** The first text that is a block whose claimed hash, if any, is its own. */
  function ContextOf(m: Message): Option<Block>
    decreases |m|
  {
    if m == [] then None else if Genuine(m[0]) then Some(m[0].block) else ContextOf(m[1..])
  }

  /** Blocks share a key when kind and id agree; without an id, only when they are the same. */
  lemma WhichBlocksShareAKey(a: Block, b: Block)
    ensures KeyOf(a) == KeyOf(b) <==> a.kind == b.kind && a.id == b.id && (a.id == "" ==> a == b)
  {
  }

  /** A block that claims another block's hash is passed over; one that claims none counts. */
  lemma WhichTextsCount(t: Text, rest: Message)
    ensures ContextOf([t] + rest) ==
              match t
              case Other => ContextOf(rest)
              case Context(block, claimed) =>
                if claimed == None || claimed == Some(HashOf(block)) then Some(block) else ContextOf(rest)
  {
    assert ([t] + rest)[1..] == rest;
  }

  method DynamicContext(m: Message) returns (found: Option<(Key, Hash)>)
    ensures found == match ContextOf(m) case None => None case Some(b) => Some((KeyOf(b), HashOf(b)))
  {
    for i := 0 to |m|
      invariant ContextOf(m[i..]) == ContextOf(m)
    {
      assert m[i..][0] == m[i] && m[i..][1..] == m[i + 1..];
      if !m[i].Context? {
        continue;
      }
      var hash := HashOf(m[i].block);
      if m[i].claimed == None || m[i].claimed == Some(hash) {
        var block := m[i].block;
        return Some((if block.id != "" then Named(block.kind, block.id) else Anonymous(block.kind, hash), hash));
      }
    }
    found := None;
  }

  /** The latest block with this key. */
  function InForce(messages: seq<Message>, key: Key): Option<Block>
    decreases |messages|
  {
    if messages == [] then None
    else
      var last := ContextOf(messages[|messages| - 1]);
      if last.Some? && KeyOf(last.value) == key then last else InForce(messages[..|messages| - 1], key)
  }

  lemma {:induction false} InForceHasItsKey(messages: seq<Message>, key: Key)
    ensures var b := InForce(messages, key); b.Some? ==> KeyOf(b.value) == key
    decreases |messages|
  {
    if messages != [] {
      InForceHasItsKey(messages[..|messages| - 1], key);
    }
  }

  /** The overwritten table of latest hashes holds exactly the hashes of the blocks in force. */
  method HashesFromMessages(messages: seq<Message>) returns (hashes: set<Hash>)
    ensures forall b :: HashOf(b) in hashes <==> InForce(messages, KeyOf(b)) == Some(b)
  {
    var latest: map<Key, Hash> := map[];
    for i := 0 to |messages|
      invariant forall key ::
        && (key in latest <==> InForce(messages[..i], key).Some?)
        && (key in latest ==> latest[key] == HashOf(InForce(messages[..i], key).value))
    {
      assert messages[..i + 1][..i] == messages[..i];
      var context := DynamicContext(messages[i]);
      if context.Some? {
        var (key, hash) := context.value;
        latest := latest[key := hash];
      }
    }
    assert messages[..|messages|] == messages;
    hashes := latest.Values;
    forall b ensures HashOf(b) in hashes <==> InForce(messages, KeyOf(b)) == Some(b) {
      if HashOf(b) in hashes {
        var key :| key in latest && latest[key] == HashOf(b);
        InForceHasItsKey(messages, key);
      }
      if InForce(messages, KeyOf(b)) == Some(b) {
        assert latest[KeyOf(b)] == HashOf(b);
      }
    }
  }

  // ---- What the model sees ----

  /** The conversation and where its visible part starts; without an integer there, all shows. */
  datatype State = State(messages: seq<Message>, cutoff: Option<int>)

  function Visible(s: State): seq<Message> {
    if s.cutoff.None? || s.cutoff.value < 0 then s.messages
    else if s.cutoff.value <= |s.messages| then s.messages[s.cutoff.value..]
    else []
  }

  method VisibleHashes(s: State) returns (hashes: set<Hash>)
    ensures forall b :: HashOf(b) in hashes <==> InForce(Visible(s), KeyOf(b)) == Some(b)
  {
    var messages := s.messages;
    if s.cutoff.Some? && s.cutoff.value >= 0 {
      messages := if s.cutoff.value <= |messages| then messages[s.cutoff.value..] else [];
    }
    hashes := HashesFromMessages(messages);
  }

  /** The block this message carries, if it is readable, is the one in force. */
  predicate Told(s: State, m: Message) {
    ContextOf(m).Some? && InForce(Visible(s), KeyOf(ContextOf(m).value)) == ContextOf(m)
  }

  /** The messages a preparation adds, of those that carry the current blocks. A text that XML
      refuses carries no block, and has no hash to be found among the visible ones. */
  function Missing(s: State, current: seq<Message>): seq<Message>
    decreases |current|
  {
    if current == [] then []
    else if Told(s, current[0]) then Missing(s, current[1..])
    else [current[0]] + Missing(s, current[1..])
  }

  function Prepared(s: State, current: seq<Message>): State {
    s.(messages := s.messages + Missing(s, current))
  }

  method Prepare(s: State, current: seq<Message>) returns (added: seq<Message>)
    ensures s.(messages := s.messages + added) == Prepared(s, current)
  {
    var visible := VisibleHashes(s);
    added := [];
    for i := 0 to |current|
      invariant added + Missing(s, current[i..]) == Missing(s, current)
    {
      assert current[i..][0] == current[i] && current[i..][1..] == current[i + 1..];
      var context := DynamicContext(current[i]);
      assert Told(s, current[i]) <==> context.Some? && context.value.1 in visible;
      if context == None || context.value.1 !in visible {
        assert added + ([current[i]] + Missing(s, current[i + 1..]))
            == (added + [current[i]]) + Missing(s, current[i + 1..]);
        added := added + [current[i]];
      }
    }
    assert added + [] == added;
  }

  // ---- What a preparation achieves ----

  predicate Carries(m: Message, key: Key) {
    ContextOf(m).Some? && KeyOf(ContextOf(m).value) == key
  }

  /** No two of the blocks that can be read have one key. */
  predicate DistinctKeys(current: seq<Message>) {
    forall i, j | 0 <= i < j < |current| && ContextOf(current[i]).Some? ::
      !Carries(current[j], KeyOf(ContextOf(current[i]).value))
  }

  predicate AllReadable(current: seq<Message>) {
    forall i | 0 <= i < |current| :: ContextOf(current[i]).Some?
  }

  lemma {:induction false} InForceConcat(a: seq<Message>, b: seq<Message>, key: Key)
    ensures InForce(a + b, key) == if InForce(b, key).Some? then InForce(b, key) else InForce(a, key)
    decreases |b|
  {
    if b == [] {
      assert a + b == a;
    } else {
      assert (a + b)[..|a + b| - 1] == a + b[..|b| - 1];
      InForceConcat(a, b[..|b| - 1], key);
    }
  }

  lemma {:induction false} InForceOfBlocks(blocks: seq<Message>, key: Key)
    requires DistinctKeys(blocks)
    ensures forall i | 0 <= i < |blocks| && Carries(blocks[i], key) :: InForce(blocks, key) == ContextOf(blocks[i])
    ensures InForce(blocks, key).Some? ==> exists i | 0 <= i < |blocks| :: Carries(blocks[i], key)
    decreases |blocks|
  {
    if blocks != [] {
      var front := blocks[..|blocks| - 1];
      InForceOfBlocks(front, key);
      if InForce(front, key).Some? {
        var i :| 0 <= i < |front| && Carries(front[i], key);
        assert Carries(blocks[i], key);
      }
    }
  }

  /** A message is added exactly when its block is not the one in force. */
  lemma {:induction false} MissingAreNotInForce(s: State, current: seq<Message>, m: Message)
    ensures m in Missing(s, current) <==> m in current && !Told(s, m)
    decreases |current|
  {
    if current != [] {
      MissingAreNotInForce(s, current[1..], m);
      assert m in current <==> m == current[0] || m in current[1..];
    }
  }

  lemma {:induction false} MissingKeepsKeysDistinct(s: State, current: seq<Message>)
    requires DistinctKeys(current)
    ensures DistinctKeys(Missing(s, current))
    decreases |current|
  {
    if current != [] {
      MissingKeepsKeysDistinct(s, current[1..]);
      var rest := Missing(s, current[1..]);
      forall j | 0 <= j < |rest| && ContextOf(current[0]).Some?
        ensures !Carries(rest[j], KeyOf(ContextOf(current[0]).value))
      {
        MissingAreNotInForce(s, current[1..], rest[j]);
        var k :| 0 <= k < |current[1..]| && current[1..][k] == rest[j];
        assert rest[j] == current[k + 1];
      }
    }
  }

  /** The visible part starts within the conversation. */
  predicate CutoffInside(s: State) {
    s.cutoff.None? || s.cutoff.value <= |s.messages|
  }

  lemma AddedAreVisible(s: State, current: seq<Message>)
    requires CutoffInside(s)
    ensures Visible(Prepared(s, current)) == Visible(s) + Missing(s, current)
  {
  }

  /** What a preparation leaves in force under one key. */
  lemma InForceAfterPreparing(s: State, current: seq<Message>, key: Key)
    requires CutoffInside(s) && DistinctKeys(current)
    ensures var missing := Missing(s, current);
            var after := InForce(Visible(Prepared(s, current)), key);
            && (forall j | 0 <= j < |missing| && Carries(missing[j], key) :: after == ContextOf(missing[j]))
            && ((forall j | 0 <= j < |missing| :: !Carries(missing[j], key)) ==> after == InForce(Visible(s), key))
  {
    var missing := Missing(s, current);
    AddedAreVisible(s, current);
    InForceConcat(Visible(s), missing, key);
    MissingKeepsKeysDistinct(s, current);
    InForceOfBlocks(missing, key);
    assert InForce(missing, key).Some? ==> exists j | 0 <= j < |missing| :: Carries(missing[j], key);
  }

  /** After a preparation a current block is in force exactly when it can be read. */
  lemma ReadableBlockIsInForce(s: State, current: seq<Message>, i: nat)
    requires CutoffInside(s) && DistinctKeys(current) && i < |current|
    ensures Told(Prepared(s, current), current[i]) <==> ContextOf(current[i]).Some?
  {
    if ContextOf(current[i]).Some? {
      var key, missing := KeyOf(ContextOf(current[i]).value), Missing(s, current);
      InForceAfterPreparing(s, current, key);
      MissingAreNotInForce(s, current, current[i]);
      if current[i] in missing {
        var j :| 0 <= j < |missing| && missing[j] == current[i];
        assert Carries(missing[j], key);
      } else {
        forall j | 0 <= j < |missing| ensures !Carries(missing[j], key) {
          MissingAreNotInForce(s, current, missing[j]);
          var k :| 0 <= k < |current| && current[k] == missing[j];
          assert k != i;
        }
      }
    }
  }

  /** No other key's block changes. */
  lemma OtherKeysAreKept(s: State, current: seq<Message>, key: Key)
    requires CutoffInside(s) && DistinctKeys(current)
    requires forall i | 0 <= i < |current| :: !Carries(current[i], key)
    ensures InForce(Visible(Prepared(s, current)), key) == InForce(Visible(s), key)
  {
    var missing := Missing(s, current);
    InForceAfterPreparing(s, current, key);
    forall j | 0 <= j < |missing| ensures !Carries(missing[j], key) {
      MissingAreNotInForce(s, current, missing[j]);
      var k :| 0 <= k < |current| && current[k] == missing[j];
    }
  }

  predicate AllInForce(s: State, current: seq<Message>) {
    forall i | 0 <= i < |current| :: Told(s, current[i])
  }

  /** The current blocks that XML refuses. */
  function Unreadable(current: seq<Message>): seq<Message>
    decreases |current|
  {
    if current == [] then []
    else (if ContextOf(current[0]).None? then [current[0]] else []) + Unreadable(current[1..])
  }

  lemma {:induction false} OnlyUnreadableMissing(s: State, current: seq<Message>)
    requires forall i | 0 <= i < |current| :: Told(s, current[i]) <==> ContextOf(current[i]).Some?
    ensures Missing(s, current) == Unreadable(current)
    decreases |current|
  {
    if current != [] {
      assert Told(s, current[0]) <==> ContextOf(current[0]).Some?;
      forall i | 0 <= i < |current[1..]| ensures Told(s, current[1..][i]) <==> ContextOf(current[1..][i]).Some? {
        assert current[1..][i] == current[i + 1];
      }
      OnlyUnreadableMissing(s, current[1..]);
    }
  }

  lemma {:induction false} UnreadableIsEmpty(current: seq<Message>)
    ensures Unreadable(current) == [] <==> AllReadable(current)
    decreases |current|
  {
    if current != [] {
      UnreadableIsEmpty(current[1..]);
      assert current == [current[0]] + current[1..];
    }
  }

  /** A second preparation adds the blocks that cannot be read, again, and nothing else: so it
      adds nothing exactly when all of them can. */
  lemma SecondPreparationAddsOnlyTheUnreadable(s: State, current: seq<Message>)
    requires CutoffInside(s) && DistinctKeys(current)
    ensures Missing(Prepared(s, current), current) == Unreadable(current)
    ensures Prepared(Prepared(s, current), current) == Prepared(s, current) <==> AllReadable(current)
  {
    forall i | 0 <= i < |current|
      ensures Told(Prepared(s, current), current[i]) <==> ContextOf(current[i]).Some?
    {
      ReadableBlockIsInForce(s, current, i);
    }
    OnlyUnreadableMissing(Prepared(s, current), current);
    UnreadableIsEmpty(current);
    var once := Prepared(s, current).messages;
    assert once + [] == once;
    assert |once + Unreadable(current)| == |once| + |Unreadable(current)|;
  }

  lemma {:induction false} AllMissing(s: State, current: seq<Message>)
    requires Visible(s) == []
    ensures Missing(s, current) == current
    decreases |current|
  {
    if current != [] {
      AllMissing(s, current[1..]);
    }
  }

  lemma {:induction false} UnseenIsNotInForce(blocks: seq<Message>, key: Key)
    requires forall i | 0 <= i < |blocks| :: !Carries(blocks[i], key)
    ensures InForce(blocks, key) == None
    decreases |blocks|
  {
    if blocks != [] {
      UnseenIsNotInForce(blocks[..|blocks| - 1], key);
    }
  }

  /** A cutoff past the end of the conversation hides the first block that is added. */
  lemma FirstBlockIsHidden(s: State, current: seq<Message>)
    requires DistinctKeys(current) && current != [] && !CutoffInside(s)
    ensures !Told(Prepared(s, current), current[0])
  {
    AllMissing(s, current);
    if ContextOf(current[0]).Some? {
      var key, seen := KeyOf(ContextOf(current[0]).value), Visible(Prepared(s, current));
      forall j | 0 <= j < |seen| ensures !Carries(seen[j], key) {
        assert seen[j] == current[|current| - |seen| + j];
      }
      UnseenIsNotInForce(seen, key);
    }
  }

  /** A preparation puts its blocks in force exactly when the visible part starts within the
      conversation and every block can be read. */
  lemma PreparationWorksExactly(s: State, current: seq<Message>)
    requires DistinctKeys(current) && current != []
    ensures AllInForce(Prepared(s, current), current) <==> CutoffInside(s) && AllReadable(current)
  {
    if CutoffInside(s) {
      forall i | 0 <= i < |current|
        ensures Told(Prepared(s, current), current[i]) <==> ContextOf(current[i]).Some?
      {
        ReadableBlockIsInForce(s, current, i);
      }
    } else {
      FirstBlockIsHidden(s, current);
    }
  }

  // ---- Whole conversations ----

  datatype Event =
    | Said(messages: seq<Message>)       // turns, tool results, anything appended
    | Summarised(cutoff: nat)            // everything before the cutoff leaves the prompt
    | Turn(current: seq<Message>)        // a preparation with the blocks as they now are

  predicate Allowed(s: State, e: Event) {
    match e
    case Said(_) => true
    case Summarised(cutoff) => cutoff <= |s.messages|
    case Turn(current) => DistinctKeys(current)
  }

  function Apply(s: State, e: Event): State {
    match e
    case Said(messages) => s.(messages := s.messages + messages)
    case Summarised(cutoff) => s.(cutoff := Some(cutoff))
    case Turn(current) => Prepared(s, current)
  }

  predicate IsRun(s: State, events: seq<Event>)
    decreases |events|
  {
    events == [] || (Allowed(s, events[0]) && IsRun(Apply(s, events[0]), events[1..]))
  }

  function After(s: State, events: seq<Event>): State
    decreases |events|
  {
    if events == [] then s else After(Apply(s, events[0]), events[1..])
  }

  lemma {:induction false} CutoffStaysInside(s: State, events: seq<Event>)
    requires CutoffInside(s) && IsRun(s, events)
    ensures CutoffInside(After(s, events))
    decreases |events|
  {
    if events != [] {
      CutoffStaysInside(Apply(s, events[0]), events[1..]);
    }
  }

  /** However the conversation grew and was summarised, at the end of a preparation a current
      block is in force exactly when it can be read, and preparing again would add the blocks
      that cannot be, and nothing else. */
  lemma EveryPreparationLeavesItsBlocksInForce(events: seq<Event>, current: seq<Message>)
    requires IsRun(State([], None), events) && DistinctKeys(current)
    ensures var s := Prepared(After(State([], None), events), current);
            && (forall i | 0 <= i < |current| :: Told(s, current[i]) <==> ContextOf(current[i]).Some?)
            && Missing(s, current) == Unreadable(current)
  {
    var s := After(State([], None), events);
    CutoffStaysInside(State([], None), events);
    forall i | 0 <= i < |current|
      ensures Told(Prepared(s, current), current[i]) <==> ContextOf(current[i]).Some?
    {
      ReadableBlockIsInForce(s, current, i);
    }
    SecondPreparationAddsOnlyTheUnreadable(s, current);
  }

  // ---- Introductions ----

  function IntroducedHashes(introductions: seq<Message>): set<Hash> {
    set i | 0 <= i < |introductions| && ContextOf(introductions[i]).Some? :: HashOf(ContextOf(introductions[i]).value)
  }

  /** Introductions go out once each: those already injected, those repeated, and those that
      carry no readable block are left out, and the injected set grows by what went out. */
  method Introduce(introductions: seq<Message>, already: set<Hash>)
    returns (messages: seq<Message>, injected: set<Hash>)
    ensures injected == already + IntroducedHashes(introductions)
    ensures IntroducedHashes(messages) == IntroducedHashes(introductions) - already
    ensures forall i | 0 <= i < |messages| :: messages[i] in introductions && ContextOf(messages[i]).Some?
    ensures forall i, j | 0 <= i < j < |messages| :: ContextOf(messages[i]) != ContextOf(messages[j])
  {
    messages, injected := [], already;
    for i := 0 to |introductions|
      invariant injected == already + IntroducedHashes(introductions[..i])
      invariant IntroducedHashes(messages) == IntroducedHashes(introductions[..i]) - already
      invariant forall j | 0 <= j < |messages| :: messages[j] in introductions && ContextOf(messages[j]).Some?
      invariant forall j, k | 0 <= j < k < |messages| :: ContextOf(messages[j]) != ContextOf(messages[k])
    {
      IntroducedGrows(introductions[..i], introductions[i]);
      assert introductions[..i + 1] == introductions[..i] + [introductions[i]];
      var context := DynamicContext(introductions[i]);
      if context == None || context.value.1 in injected {
        continue;
      }
      IntroducedGrows(messages, introductions[i]);
      forall j | 0 <= j < |messages| ensures ContextOf(messages[j]) != ContextOf(introductions[i]) {
        assert HashOf(ContextOf(messages[j]).value) in IntroducedHashes(messages);
      }
      messages := messages + [introductions[i]];
      injected := injected + {context.value.1};
    }
    assert introductions[..|introductions|] == introductions;
  }

  lemma IntroducedGrows(introductions: seq<Message>, m: Message)
    ensures IntroducedHashes(introductions + [m]) ==
              IntroducedHashes(introductions) + if ContextOf(m).Some? then {HashOf(ContextOf(m).value)} else {}
  {
    var all := introductions + [m];
    forall h | h in IntroducedHashes(introductions) ensures h in IntroducedHashes(all) {
      var i :| 0 <= i < |introductions| && ContextOf(introductions[i]).Some?
               && HashOf(ContextOf(introductions[i]).value) == h;
      assert all[i] == introductions[i];
    }
    if ContextOf(m).Some? {
      assert all[|introductions|] == m;
    }
  }
}
