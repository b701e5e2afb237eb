/** Follow-ups held for a running agent: writers only insert, the run only deletes what it
    consumed, and each thread's queue keeps its newest messages. */
module MessageQueue {
  import opened NewestWindow
  import opened Options

  const MaxQueuedMessages := 100

  /** A queued message; `number` grows with every insertion. */
  datatype Row = Row(thread: string, id: Option<string>, content: string, number: nat)

  /** What a delete statement picks. */
  datatype Selector =
    | OfThread(thread: string)
    | Numbered(thread: string, numbers: set<nat>)
    | Older(thread: string, number: nat)

  predicate Picks(pick: Selector, row: Row) {
    row.thread == pick.thread &&
    match pick
    case OfThread(_) => true
    case Numbered(_, numbers) => row.number in numbers
    case Older(_, number) => row.number < number
  }

  function Take(rows: seq<Row>, pick: Selector): seq<Row>
    decreases |rows|
  {
    if rows == [] then []
    else if Picks(pick, rows[0]) then [rows[0]] + Take(rows[1..], pick) else Take(rows[1..], pick)
  }

  function Leave(rows: seq<Row>, pick: Selector): seq<Row>
    decreases |rows|
  {
    if rows == [] then []
    else if Picks(pick, rows[0]) then Leave(rows[1..], pick) else [rows[0]] + Leave(rows[1..], pick)
  }

  /** A thread's queue, oldest first. */
  function QueueOf(rows: seq<Row>, thread: string): seq<Row> {
    Take(rows, OfThread(thread))
  }

  predicate HasId(rows: seq<Row>, thread: string, id: Option<string>) {
    id.Some? && exists i | 0 <= i < |rows| :: rows[i].thread == thread && rows[i].id == id
  }

  /** The table, and the number the next row gets. */
  datatype Table = Table(rows: seq<Row>, next: nat)

  function Inserted(t: Table, thread: string, content: string, id: Option<string>): Table {
    if HasId(t.rows, thread, id) then t
    else Table(t.rows + [Row(thread, id, content, t.next)], t.next + 1)
  }

  function Trim(rows: seq<Row>, thread: string): Selector {
    var queue := QueueOf(rows, thread);
    Older(thread, if |queue| < MaxQueuedMessages then 0 else queue[|queue| - MaxQueuedMessages].number)
  }

  function Sent(t: Table, thread: string, content: string, id: Option<string>): Table {
    var inserted := Inserted(t, thread, content, id);
    inserted.(rows := Leave(inserted.rows, Trim(inserted.rows, thread)))
  }

  /** Rows stand in the order of their numbers. */
  predicate Ordered(rows: seq<Row>, next: nat) {
    && (forall i, j | 0 <= i < j < |rows| :: rows[i].number < rows[j].number)
    && (forall i | 0 <= i < |rows| :: rows[i].number < next)
  }

  class Queue {
    var rows: seq<Row>
    var next: nat

    ghost function Current(): Table
      reads this
    {
      Table(rows, next)
    }

    ghost predicate Valid()
      reads this
    {
      Ordered(rows, next)
    }

    constructor ()
      ensures Valid() && Current() == Table([], 0)
    {
      rows, next := [], 0;
    }

    /** The thread's messages, and no others, in the order they were sent. */
    method ForThread(thread: string) returns (queue: seq<Row>)
      requires Valid()
      ensures forall row :: row in queue <==> row in rows && row.thread == thread
      ensures forall i, j | 0 <= i < j < |queue| :: queue[i].number < queue[j].number
      ensures queue == QueueOf(rows, thread)
    {
      queue := Take(rows, OfThread(thread));
      TakenAreRows(rows, OfThread(thread));
      TakeStaysOrdered(rows, OfThread(thread), next);
      forall row | row in rows && row.thread == thread ensures row in queue {
        TakeHolds(rows, OfThread(thread), row);
      }
    }

    method Put(thread: string, content: string, id: Option<string>)
      requires Valid()
      modifies this
      ensures Valid() && Current() == Sent(old(Current()), thread, content, id)
    {
      SentStaysOrdered(Current(), thread, content, id);
      if !HasId(rows, thread, id) {
        rows := rows + [Row(thread, id, content, next)];
        next := next + 1;
      }
      var queue := Take(rows, OfThread(thread));
      if |queue| >= MaxQueuedMessages {
        var oldestKept := queue[|queue| - MaxQueuedMessages].number;
        rows := Leave(rows, Older(thread, oldestKept));
      } else {
        NothingOlder(rows, thread);
      }
    }

    method Remove(thread: string, numbers: set<nat>)
      requires Valid()
      modifies this`rows
      ensures Valid() && rows == Leave(old(rows), Numbered(thread, numbers))
      ensures forall row :: row in rows <==> row in old(rows) && !(row.thread == thread && row.number in numbers)
    {
      forall row
        ensures row in Leave(rows, Numbered(thread, numbers)) <==> row in rows && !Picks(Numbered(thread, numbers), row)
      {
        LeftAreRows(rows, Numbered(thread, numbers), row);
      }
      if numbers == {} {
        NothingNumbered(rows, thread);
        return;
      }
      LeaveStaysOrdered(rows, Numbered(thread, numbers), next);
      rows := Leave(rows, Numbered(thread, numbers));
    }

    /** A row stays exactly when it is another thread's, and the rows keep their order. */
    method Clear(thread: string)
      requires Valid()
      modifies this`rows
      ensures Valid() && forall row :: row in rows <==> row in old(rows) && row.thread != thread
      ensures rows == Leave(old(rows), OfThread(thread))
    {
      forall row ensures row in Leave(rows, OfThread(thread)) <==> row in rows && !Picks(OfThread(thread), row) {
        LeftAreRows(rows, OfThread(thread), row);
      }
      LeaveStaysOrdered(rows, OfThread(thread), next);
      rows := Leave(rows, OfThread(thread));
    }
  }

  lemma SentStaysOrdered(t: Table, thread: string, content: string, id: Option<string>)
    requires Ordered(t.rows, t.next)
    ensures Ordered(Sent(t, thread, content, id).rows, Sent(t, thread, content, id).next)
  {
    var inserted := Inserted(t, thread, content, id);
    assert Ordered(inserted.rows, inserted.next);
    LeaveStaysOrdered(inserted.rows, Trim(inserted.rows, thread), inserted.next);
  }

  lemma {:induction false} NothingOlder(rows: seq<Row>, thread: string)
    ensures Leave(rows, Older(thread, 0)) == rows
    decreases |rows|
  {
    if rows != [] {
      NothingOlder(rows[1..], thread);
    }
  }

  lemma {:induction false} NothingNumbered(rows: seq<Row>, thread: string)
    ensures Leave(rows, Numbered(thread, {})) == rows
    decreases |rows|
  {
    if rows != [] {
      NothingNumbered(rows[1..], thread);
    }
  }

  // ---- One operation ----

  lemma {:induction false} TakeConcat(a: seq<Row>, b: seq<Row>, pick: Selector)
    ensures Take(a + b, pick) == Take(a, pick) + Take(b, pick)
    decreases |a|
  {
    if a == [] {
      assert a + b == b;
    } else {
      assert (a + b)[1..] == a[1..] + b;
      TakeConcat(a[1..], b, pick);
    }
  }

  lemma {:induction false} TakenAreRows(rows: seq<Row>, pick: Selector)
    ensures |Take(rows, pick)| <= |rows|
    ensures forall i | 0 <= i < |Take(rows, pick)| :: Take(rows, pick)[i] in rows && Picks(pick, Take(rows, pick)[i])
    decreases |rows|
  {
    if rows != [] {
      TakenAreRows(rows[1..], pick);
      assert forall r | r in rows[1..] :: r in rows;
    }
  }

  lemma {:induction false} LeftAreRows(rows: seq<Row>, pick: Selector, row: Row)
    ensures row in Leave(rows, pick) <==> row in rows && !Picks(pick, row)
    decreases |rows|
  {
    if rows != [] {
      LeftAreRows(rows[1..], pick, row);
      assert rows == [rows[0]] + rows[1..];
    }
  }

  predicate AllAfter(rows: seq<Row>, number: nat) {
    forall i | 0 <= i < |rows| :: number < rows[i].number
  }

  lemma {:induction false} PartStaysAfter(rows: seq<Row>, pick: Selector, number: nat)
    requires AllAfter(rows, number)
    ensures AllAfter(Take(rows, pick), number) && AllAfter(Leave(rows, pick), number)
    decreases |rows|
  {
    if rows != [] {
      PartStaysAfter(rows[1..], pick, number);
    }
  }

  lemma OrderedParts(rows: seq<Row>, next: nat)
    requires rows != []
    ensures Ordered(rows, next) <==>
              rows[0].number < next && Ordered(rows[1..], next) && AllAfter(rows[1..], rows[0].number)
  {
    assert rows == [rows[0]] + rows[1..];
  }

  lemma {:induction false} TakeStaysOrdered(rows: seq<Row>, pick: Selector, next: nat)
    requires Ordered(rows, next)
    ensures Ordered(Take(rows, pick), next)
    decreases |rows|
  {
    if rows != [] {
      OrderedParts(rows, next);
      TakeStaysOrdered(rows[1..], pick, next);
      PartStaysAfter(rows[1..], pick, rows[0].number);
      OrderedParts([rows[0]] + Take(rows[1..], pick), next);
    }
  }

  lemma {:induction false} LeaveStaysOrdered(rows: seq<Row>, pick: Selector, next: nat)
    requires Ordered(rows, next)
    ensures Ordered(Leave(rows, pick), next)
    decreases |rows|
  {
    if rows != [] {
      OrderedParts(rows, next);
      LeaveStaysOrdered(rows[1..], pick, next);
      PartStaysAfter(rows[1..], pick, rows[0].number);
      OrderedParts([rows[0]] + Leave(rows[1..], pick), next);
    }
  }

  lemma OrderedGrows(rows: seq<Row>, row: Row, next: nat)
    requires Ordered(rows, next) && row.number == next
    ensures Ordered(rows + [row], next + 1)
  {
  }

  /** A thread's queue after a delete is its queue with the same rows deleted. */
  lemma {:induction false} LeaveThenTake(rows: seq<Row>, pick: Selector, thread: string)
    ensures QueueOf(Leave(rows, pick), thread) == Leave(QueueOf(rows, thread), pick)
    decreases |rows|
  {
    if rows != [] {
      LeaveThenTake(rows[1..], pick, thread);
    }
  }

  lemma {:induction false} LeaveNoneOf(rows: seq<Row>, pick: Selector)
    requires forall i | 0 <= i < |rows| :: !Picks(pick, rows[i])
    ensures Leave(rows, pick) == rows
    decreases |rows|
  {
    if rows != [] {
      LeaveNoneOf(rows[1..], pick);
    }
  }

  /** Of a queue in order, deleting what is older than one row leaves that row and the later. */
  lemma {:induction false} LeaveTheNewer(queue: seq<Row>, thread: string, k: nat, next: nat)
    requires Ordered(queue, next) && k < |queue| && forall i | 0 <= i < |queue| :: queue[i].thread == thread
    ensures Leave(queue, Older(thread, queue[k].number)) == queue[k..]
    decreases |queue|
  {
    var pick := Older(thread, queue[k].number);
    if k == 0 {
      LeaveNoneOf(queue, pick);
    } else {
      LeaveTheNewer(queue[1..], thread, k - 1, next);
      assert queue[1..][k - 1..] == queue[k..];
    }
  }

  lemma TrimKeepsNewest(rows: seq<Row>, thread: string, next: nat)
    requires Ordered(rows, next)
    ensures QueueOf(Leave(rows, Trim(rows, thread)), thread) == Newest(QueueOf(rows, thread), MaxQueuedMessages)
  {
    var queue := QueueOf(rows, thread);
    LeaveThenTake(rows, Trim(rows, thread), thread);
    TakeStaysOrdered(rows, OfThread(thread), next);
    TakenAreRows(rows, OfThread(thread));
    if |queue| < MaxQueuedMessages {
      NothingOlder(queue, thread);
    } else {
      LeaveTheNewer(queue, thread, |queue| - MaxQueuedMessages, next);
    }
  }

  lemma InsertedQueues(t: Table, thread: string, content: string, id: Option<string>, other: string)
    ensures QueueOf(Inserted(t, thread, content, id).rows, other) ==
              if other == thread && !HasId(t.rows, thread, id)
              then QueueOf(t.rows, other) + [Row(thread, id, content, t.next)]
              else QueueOf(t.rows, other)
  {
    var row := Row(thread, id, content, t.next);
    TakeConcat(t.rows, [row], OfThread(other));
    assert [row][1..] == [];
    assert QueueOf(t.rows, other) + [] == QueueOf(t.rows, other);
  }

  lemma TrimLeavesOthers(rows: seq<Row>, thread: string, other: string)
    requires other != thread
    ensures QueueOf(Leave(rows, Trim(rows, thread)), other) == QueueOf(rows, other)
  {
    LeaveThenTake(rows, Trim(rows, thread), other);
    TakenAreRows(rows, OfThread(other));
    LeaveNoneOf(QueueOf(rows, other), Trim(rows, thread));
  }

  /** A message is added at the end of its thread's queue, unless its id is queued there
      already, and the queue keeps its newest hundred; other queues stay as they are. */
  lemma PutKeepsTheNewest(t: Table, thread: string, content: string, id: Option<string>, other: string)
    requires Ordered(t.rows, t.next)
    ensures var queued := id.Some? && exists i | 0 <= i < |t.rows| :: t.rows[i].thread == thread && t.rows[i].id == id;
            var added := if queued then [] else [Row(thread, id, content, t.next)];
            var after := Sent(t, thread, content, id).rows;
            && QueueOf(after, thread) == Newest(QueueOf(t.rows, thread) + added, MaxQueuedMessages)
            && (other != thread ==> QueueOf(after, other) == QueueOf(t.rows, other))
  {
    var inserted := Inserted(t, thread, content, id);
    assert Ordered(inserted.rows, inserted.next);
    TrimKeepsNewest(inserted.rows, thread, inserted.next);
    InsertedQueues(t, thread, content, id, thread);
    InsertedQueues(t, thread, content, id, other);
    assert QueueOf(t.rows, thread) + [] == QueueOf(t.rows, thread);
    if other != thread {
      TrimLeavesOthers(inserted.rows, thread, other);
    }
  }

  /** A message without an id, or with one not queued in its thread, stands last in its queue. */
  lemma ANewMessageStandsLast(t: Table, thread: string, content: string, id: Option<string>)
    requires Ordered(t.rows, t.next)
    requires id.Some? ==> forall i | 0 <= i < |t.rows| && t.rows[i].thread == thread :: t.rows[i].id != id
    ensures var queue := QueueOf(Sent(t, thread, content, id).rows, thread);
            && 0 < |queue| <= 100 && queue[|queue| - 1] == Row(thread, id, content, t.next)
            && (|QueueOf(t.rows, thread)| < 100 ==> queue[..|queue| - 1] == QueueOf(t.rows, thread))
  {
    PutKeepsTheNewest(t, thread, content, id, thread);
  }

  /** A message whose id is queued in its thread already changes nothing, while the queue is
      within its cap. */
  lemma ARepeatedSendChangesNothing(t: Table, thread: string, content: string, id: Option<string>, i: nat)
    requires Ordered(t.rows, t.next) && |QueueOf(t.rows, thread)| <= 100
    requires id.Some? && i < |t.rows| && t.rows[i].thread == thread && t.rows[i].id == id
    ensures Sent(t, thread, content, id) == t
  {
    var queue := QueueOf(t.rows, thread);
    if |queue| < MaxQueuedMessages {
      NothingOlder(t.rows, thread);
    } else {
      TakeStaysOrdered(t.rows, OfThread(thread), t.next);
      forall row | row in t.rows && row.thread == thread ensures row.number >= queue[0].number {
        TakeHolds(t.rows, OfThread(thread), row);
      }
      LeaveNoneOf(t.rows, Trim(t.rows, thread));
    }
  }

  // ---- Whole runs ----

  datatype Op =
    | Send(thread: string, content: string, id: Option<string>)
    | Consume(thread: string, numbers: set<nat>)
    | Discard(thread: string)

  /** Where every accepted message went. */
  datatype Ledger = Ledger(accepted: seq<Row>, removed: seq<Row>, cleared: seq<Row>, dropped: seq<Row>)

  function Apply(t: Table, op: Op): Table {
    match op
    case Send(thread, content, id) => Sent(t, thread, content, id)
    case Consume(thread, numbers) => t.(rows := Leave(t.rows, Numbered(thread, numbers)))
    case Discard(thread) => t.(rows := Leave(t.rows, OfThread(thread)))
  }

  function Entered(k: Ledger, t: Table, op: Op): Ledger {
    match op
    case Send(thread, content, id) =>
      var inserted := Inserted(t, thread, content, id);
      Ledger(k.accepted + inserted.rows[|t.rows|..], k.removed, k.cleared,
             k.dropped + Take(inserted.rows, Trim(inserted.rows, thread)))
    case Consume(thread, numbers) => k.(removed := k.removed + Take(t.rows, Numbered(thread, numbers)))
    case Discard(thread) => k.(cleared := k.cleared + Take(t.rows, OfThread(thread)))
  }

  function After(t: Table, ops: seq<Op>): Table
    decreases |ops|
  {
    if ops == [] then t else After(Apply(t, ops[0]), ops[1..])
  }

  function LedgerOf(k: Ledger, t: Table, ops: seq<Op>): Ledger
    decreases |ops|
  {
    if ops == [] then k else LedgerOf(Entered(k, t, ops[0]), Apply(t, ops[0]), ops[1..])
  }

  predicate Balanced(t: Table, k: Ledger) {
    multiset(k.accepted) == multiset(t.rows) + multiset(k.removed) + multiset(k.cleared) + multiset(k.dropped)
  }

  /** In one thread's queue no id stands twice. */
  predicate IdsOnce(rows: seq<Row>) {
    forall i, j | 0 <= i < j < |rows| && rows[i].thread == rows[j].thread && rows[i].id.Some? ::
      rows[i].id != rows[j].id
  }

  predicate Inv(t: Table, k: Ledger) {
    Ordered(t.rows, t.next) && Ordered(k.accepted, t.next) && IdsOnce(t.rows) && Balanced(t, k)
  }

  lemma {:induction false} TakeAndLeave(rows: seq<Row>, pick: Selector)
    ensures multiset(rows) == multiset(Take(rows, pick)) + multiset(Leave(rows, pick))
    decreases |rows|
  {
    if rows != [] {
      TakeAndLeave(rows[1..], pick);
      assert rows == [rows[0]] + rows[1..];
    }
  }

  lemma {:induction false} LeaveKeepsIdsOnce(rows: seq<Row>, pick: Selector)
    requires IdsOnce(rows)
    ensures IdsOnce(Leave(rows, pick))
    decreases |rows|
  {
    if rows != [] {
      LeaveKeepsIdsOnce(rows[1..], pick);
      var rest := Leave(rows[1..], pick);
      forall j | 0 <= j < |rest| && rest[j].thread == rows[0].thread && rows[0].id.Some?
        ensures rest[j].id != rows[0].id
      {
        LeftAreRows(rows[1..], pick, rest[j]);
        var i :| 0 <= i < |rows[1..]| && rows[1..][i] == rest[j];
        assert rest[j] == rows[i + 1];
      }
    }
  }

  lemma DeleteKeepsInv(t: Table, pick: Selector)
    requires Ordered(t.rows, t.next) && IdsOnce(t.rows)
    ensures Ordered(Leave(t.rows, pick), t.next) && IdsOnce(Leave(t.rows, pick))
    ensures multiset(t.rows) == multiset(Take(t.rows, pick)) + multiset(Leave(t.rows, pick))
  {
    LeaveStaysOrdered(t.rows, pick, t.next);
    LeaveKeepsIdsOnce(t.rows, pick);
    TakeAndLeave(t.rows, pick);
  }

  lemma IdsStayOnce(rows: seq<Row>, row: Row)
    requires IdsOnce(rows) && !HasId(rows, row.thread, row.id)
    ensures IdsOnce(rows + [row])
  {
  }

  lemma BalanceGrows(t: Table, k: Ledger, row: Row)
    requires Balanced(t, k)
    ensures Balanced(Table(t.rows + [row], t.next + 1), k.(accepted := k.accepted + [row]))
  {
    assert multiset(t.rows + [row]) == multiset(t.rows) + multiset{row};
    assert multiset(k.accepted + [row]) == multiset(k.accepted) + multiset{row};
  }

  lemma InsertKeepsInv(t: Table, k: Ledger, thread: string, content: string, id: Option<string>)
    requires Inv(t, k)
    ensures var inserted := Inserted(t, thread, content, id);
            Inv(inserted, k.(accepted := k.accepted + inserted.rows[|t.rows|..]))
  {
    var inserted := Inserted(t, thread, content, id);
    if HasId(t.rows, thread, id) {
      assert inserted.rows[|t.rows|..] == [];
      assert k.accepted + [] == k.accepted;
    } else {
      var row := Row(thread, id, content, t.next);
      assert inserted.rows[|t.rows|..] == [row];
      OrderedGrows(t.rows, row, t.next);
      OrderedGrows(k.accepted, row, t.next);
      IdsStayOnce(t.rows, row);
      BalanceGrows(t, k, row);
    }
  }

  lemma StepKeepsInv(t: Table, k: Ledger, op: Op)
    requires Inv(t, k)
    ensures Inv(Apply(t, op), Entered(k, t, op))
  {
    match op
    case Send(thread, content, id) =>
      var inserted := Inserted(t, thread, content, id);
      InsertKeepsInv(t, k, thread, content, id);
      DeleteKeepsInv(inserted, Trim(inserted.rows, thread));
    case Consume(thread, numbers) => DeleteKeepsInv(t, Numbered(thread, numbers));
    case Discard(thread) => DeleteKeepsInv(t, OfThread(thread));
  }

  lemma {:induction false} RunKeepsInv(t: Table, k: Ledger, ops: seq<Op>)
    requires Inv(t, k)
    ensures Inv(After(t, ops), LedgerOf(k, t, ops))
    decreases |ops|
  {
    if ops != [] {
      StepKeepsInv(t, k, ops[0]);
      RunKeepsInv(Apply(t, ops[0]), Entered(k, t, ops[0]), ops[1..]);
    }
  }

  /** Every accepted message is exactly one of queued, consumed, cleared or dropped: each is
      accepted under its own number, and the four together hold each accepted message once.
      No queue holds an id twice. */
  lemma EveryMessageIsAccountedFor(ops: seq<Op>)
    ensures var t, k := After(Table([], 0), ops), LedgerOf(Ledger([], [], [], []), Table([], 0), ops);
            && multiset(k.accepted)
               == multiset(t.rows) + multiset(k.removed) + multiset(k.cleared) + multiset(k.dropped)
            && (forall i, j | 0 <= i < j < |k.accepted| :: k.accepted[i].number < k.accepted[j].number)
            && IdsOnce(t.rows)
  {
    RunKeepsInv(Table([], 0), Ledger([], [], [], []), ops);
  }

  // ---- The consumer ----

  function NumbersOf(rows: seq<Row>): set<nat> {
    set i | 0 <= i < |rows| :: rows[i].number
  }

  lemma StepAddsOnlyNew(t: Table, op: Op, row: Row)
    requires row in Apply(t, op).rows
    ensures row in t.rows || row.number >= t.next
  {
    match op
    case Send(thread, content, id) =>
      var inserted := Inserted(t, thread, content, id);
      LeftAreRows(inserted.rows, Trim(inserted.rows, thread), row);
    case Consume(thread, numbers) => LeftAreRows(t.rows, Numbered(thread, numbers), row);
    case Discard(thread) => LeftAreRows(t.rows, OfThread(thread), row);
  }

  lemma {:induction false} RunAddsOnlyNew(t: Table, ops: seq<Op>, row: Row)
    requires row in After(t, ops).rows
    ensures row in t.rows || row.number >= t.next
    decreases |ops|
  {
    if ops != [] {
      var next := Apply(t, ops[0]);
      RunAddsOnlyNew(next, ops[1..], row);
      NextGrows(t, ops[0]);
      if row in next.rows {
        StepAddsOnlyNew(t, ops[0], row);
      }
    }
  }

  lemma NextGrows(t: Table, op: Op)
    ensures Apply(t, op).next >= t.next
  {
  }

  /** A run that read its queue, while others went on writing, and then takes off what it
      read, leaves exactly the messages that came after it read. */
  lemma ConsumingLeavesTheLater(t: Table, ops: seq<Op>, thread: string, row: Row)
    requires Ordered(t.rows, t.next)
    ensures var read := NumbersOf(QueueOf(t.rows, thread));
            var later := After(t, ops);
            row.thread == thread ==>
              (row in Apply(later, Consume(thread, read)).rows <==> row in later.rows && row.number >= t.next)
  {
    var queue := QueueOf(t.rows, thread);
    var later := After(t, ops);
    LeftAreRows(later.rows, Numbered(thread, NumbersOf(queue)), row);
    TakenAreRows(t.rows, OfThread(thread));
    TakeStaysOrdered(t.rows, OfThread(thread), t.next);
    if row.thread == thread && row in later.rows && row.number < t.next {
      RunAddsOnlyNew(t, ops, row);
      TakeHolds(t.rows, OfThread(thread), row);
      var i :| 0 <= i < |queue| && queue[i] == row;
      assert queue[i].number in NumbersOf(queue);
    }
  }

  lemma {:induction false} TakeHolds(rows: seq<Row>, pick: Selector, row: Row)
    requires row in rows && Picks(pick, row)
    ensures row in Take(rows, pick)
    decreases |rows|
  {
    if row != rows[0] {
      assert row in rows[1..];
      TakeHolds(rows[1..], pick, row);
    }
  }
}
