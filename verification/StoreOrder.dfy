/**
 A rewind replays the retained events in table order, a commit takes them as they are given. When
 the two disagree on the order of related events, a rewind is refused; otherwise it is exact.
 */
module StoreOrder {
  import opened Basics
  import opened Contract
  import opened Projection
  import opened Sorting
  import opened Store
  import opened StoreTables
  import opened EventOrder

  // Related events stand in table order.
  ghost predicate Aligned(events: seq<Event>) {
    forall i, j :: 0 <= i < j < |events| && Related(events[i], events[j]) ==> events[i].Before(events[j])
  }

  // So they do in a batch, up to exact repetitions.
  ghost predicate AlignedBatch(events: seq<Event>) {
    forall i, j :: 0 <= i < j < |events| && Related(events[i], events[j]) ==>
      events[i].Before(events[j]) || events[i] == events[j]
  }

  /******* Rewinding is exact or refused *******/

  lemma KeptNoRepeats(db: DB, ancestor: int)
    requires StoreOk(db)
    ensures NoRepeats(KeptEvents(db.events, ancestor))
  {
    KeptIsPrefix(db.events, ancestor);
    hide KeptEvents, ProjectAll;
  }

  lemma KeptReplays(db: DB, ancestor: int)
    requires StoreOk(db)
    ensures ProjectAll(KeptEvents(db.events, ancestor)).Ok?
  {
    KeptIsPrefix(db.events, ancestor);
    hide KeptEvents, ProjectAll;
    var kept := KeptEvents(db.events, ancestor);
    ProjectPrefix(db.events, |kept|);
    assert kept == db.events[..|kept|];
  }

  // What a rewind makes of the tables it rebuilt.
  lemma RewoundWith(db: DB, ancestor: int, rows: seq<Event>)
    requires StoreOk(db) && db.start - 1 <= ancestor <= db.cursor
    ensures
      var kept := KeptEvents(db.events, ancestor);
      && (ProjectAll(rows).Revert? ==> Rewound(db, ancestor, rows).Revert?)
      && (ProjectAll(rows).Ok? && ProjectAll(rows) == ProjectAll(kept) ==>
         Rewound(db, ancestor, rows) == Ok(At(db, ancestor)))
  {
    hide KeptEvents, ProjectAll, EventsOk;
  }

  // Whatever order the events were committed in: a rewind to any block either fails, and then
  // changes nothing, or gives exactly the state held at that block; which of the two depends only
  // on whether the rows are read back in a causal order.
  lemma RefusedOrExact(db: DB, ancestor: int, rows: seq<Event>)
    requires StoreOk(db) && db.start - 1 <= ancestor <= db.cursor
    requires IsListing(rows, KeptEvents(db.events, ancestor))
    ensures Rewound(db, ancestor, rows).Ok? <==> Causal(rows)
    ensures Rewound(db, ancestor, rows).Ok? ==> Rewound(db, ancestor, rows) == Ok(At(db, ancestor))
  {
    hide *;
    KeptNoRepeats(db, ancestor);
    KeptReplays(db, ancestor);
    ListedRows(rows, KeptEvents(db.events, ancestor));
    ReplayIffCausal(KeptEvents(db.events, ancestor), rows);
    RewoundWith(db, ancestor, rows);
  }

  lemma ListedRows(rows: seq<Event>, table: seq<Event>)
    requires IsListing(rows, table)
    ensures multiset(table) == multiset(rows)
  {}

  lemma AlignedPair(events: seq<Event>, i: nat, j: nat)
    requires Aligned(events) && i < |events| && j < |events|
    ensures i < j && Related(events[i], events[j]) ==> events[i].Before(events[j])
  {}

  lemma AlignedIsCausal(table: seq<Event>, rows: seq<Event>)
    requires Causal(table) && Aligned(table) && NoRepeats(table) && IsListing(rows, table)
    ensures Causal(rows)
  {
    forall i, j | 0 <= i < j < |rows| && Related(rows[i], rows[j])
      ensures Precedes(rows[i].payload, rows[j].payload)
    {
      ListedRow(rows, table, i);
      ListedRow(rows, table, j);
      var a :| 0 <= a < |table| && table[a] == rows[i];
      var b :| 0 <= b < |table| && table[b] == rows[j];
      TwiceIn(rows, i, j);
      OnceIn(table, a);
      assert !rows[j].Before(rows[i]);
      assert a != b;
      AlignedPair(table, b, a);
    }
  }

  // A row listed twice counts twice.
  lemma TwiceIn(rows: seq<Event>, i: nat, j: nat)
    requires i < j < |rows|
    ensures rows[i] == rows[j] ==> multiset(rows)[rows[i]] >= 2
  {
    assert rows == rows[..j] + [rows[j]] + rows[j + 1..];
    assert rows[i] in rows[..j] by { assert rows[..j][i] == rows[i]; }
    assert multiset(rows) == multiset(rows[..j]) + multiset{rows[j]} + multiset(rows[j + 1..]);
  }

  lemma OnceIn(table: seq<Event>, a: nat)
    requires a < |table| && NoRepeats(table)
    ensures multiset(table)[table[a]] == 1
  {
    assert table == table[..a] + [table[a]] + table[a + 1..];
    assert multiset(table) == multiset(table[..a]) + multiset{table[a]} + multiset(table[a + 1..]);
    assert table[a] !in table[..a] && table[a] !in table[a + 1..];
  }

  /******* A listing against the order of insertion *******/

  const BEFORE: (Event, Event) -> bool := (e: Event, f: Event) => e.Before(f)

  function SortRows(rows: seq<Event>): seq<Event> {
    Sort(rows, BEFORE)
  }

  lemma SortRowsIsListing(rows: seq<Event>)
    ensures IsListing(SortRows(rows), rows)
  {
    SortRising(rows, BEFORE);
    hide Sort;
    forall i, j | 0 <= i < j < |SortRows(rows)|
      ensures !SortRows(rows)[j].Before(SortRows(rows)[i])
    {
      assert !BEFORE(SortRows(rows)[j], SortRows(rows)[i]);
    }
  }

  predicate SamePlace(a: Event, b: Event) {
    a.blockNumber == b.blockNumber && a.txIndex == b.txIndex && a.logIndex == b.logIndex
  }

  lemma ExchangeTie(rows: seq<Event>, table: seq<Event>, i: nat, j: nat)
    requires IsListing(rows, table) && i < j < |rows| && SamePlace(rows[i], rows[j])
    ensures IsListing(rows[i := rows[j]][j := rows[i]], table)
  {
    var other := rows[i := rows[j]][j := rows[i]];
    assert forall k :: 0 <= k < |rows| ==> SamePlace(other[k], rows[k]);
    forall a, b | 0 <= a < b < |other|
      ensures !other[b].Before(other[a])
    {
      assert !rows[b].Before(rows[a]);
      assert SamePlace(other[a], rows[a]) && SamePlace(other[b], rows[b]);
    }
  }

  // If an event is not before another, some listing has it after the other.
  lemma ListedAfter(table: seq<Event>, e: Event, f: Event) returns (rows: seq<Event>, i: nat, j: nat)
    requires e in table && f in table && e != f && !e.Before(f)
    ensures IsListing(rows, table) && i < j < |rows| && rows[i] == f && rows[j] == e
  {
    rows := SortRows(table);
    SortRowsIsListing(table);
    hide SortRows;
    assert e in multiset(table) && f in multiset(table);
    assert e in rows && f in rows;
    j :| 0 <= j < |rows| && rows[j] == e;
    i :| 0 <= i < |rows| && rows[i] == f;
    if j < i {
      assert !rows[i].Before(rows[j]);
      ExchangeTie(rows, table, j, i);
      rows, i, j := rows[j := f][i := e], j, i;
    }
  }

  lemma AgainstOrder(table: seq<Event>) returns (rows: seq<Event>)
    requires Causal(table) && NoRepeats(table) && !Aligned(table)
    ensures IsListing(rows, table) && !Causal(rows)
  {
    var a, b :| 0 <= a < b < |table| && Related(table[a], table[b]) && !table[a].Before(table[b]);
    var i, j;
    rows, i, j := ListedAfter(table, table[a], table[b]);
    assert Related(rows[i], rows[j]);
    PrecedesIsStrict(table[a].payload, table[b].payload);
  }

  // Rewinding to a block restores what was held there, for every answer to the query, if and only
  // if the related events up to that block were committed in table order.
  lemma RewindRestoresIffAligned(db: DB, ancestor: int)
    requires StoreOk(db) && db.start - 1 <= ancestor <= db.cursor
    ensures
      var kept := KeptEvents(db.events, ancestor);
      (forall rows :: IsListing(rows, kept) ==> Rewound(db, ancestor, rows) == Ok(At(db, ancestor))) <==> Aligned(kept)
  {
    hide *;
    var kept := KeptEvents(db.events, ancestor);
    KeptNoRepeats(db, ancestor);
    KeptReplays(db, ancestor);
    ProjectForces(kept);
    if Aligned(kept) {
      forall rows | IsListing(rows, kept)
        ensures Rewound(db, ancestor, rows) == Ok(At(db, ancestor))
      {
        AlignedIsCausal(kept, rows);
        RefusedOrExact(db, ancestor, rows);
      }
    } else {
      var rows := AgainstOrder(kept);
      RefusedOrExact(db, ancestor, rows);
    }
  }

  /******* Batches in table order *******/

  lemma AlignedWithLast(events: seq<Event>, i: nat)
    requires AlignedBatch(events) && i < |events| - 1
    ensures Related(events[i], events[|events| - 1]) ==>
      events[i].Before(events[|events| - 1]) || events[i] == events[|events| - 1]
  {}

  // The rows an aligned batch adds are aligned with each other and with those of earlier blocks.
  lemma {:induction false} InsertAllAligned(g: Ledger, b: Block, events: seq<Event>)
    requires InsertAll(g, b, events).Ok? && Aligned(g.events) && AlignedBatch(events)
    requires forall k :: 0 <= k < |g.events| ==> g.events[k].blockNumber < b.number
    ensures
      var rows := InsertAll(g, b, events).value.events;
      && Aligned(rows) && g.events <= rows
      && forall k :: |g.events| <= k < |rows| ==> rows[k] in events && rows[k].blockNumber == b.number
  {
    hide ProjectEvent, Related;
    if events != [] {
      var rest, e := events[..|events| - 1], events[|events| - 1];
      InsertAllAligned(g, b, rest);
      var rows := InsertAll(g, b, rest).value.events;
      forall k | 0 <= k < |rows| && !KeyTaken(rows, e)
        ensures e.blockNumber == b.number && Related(rows[k], e) ==> rows[k].Before(e)
      {
        assert !rows[k].SameKey(e);
        if k >= |g.events| {
          assert rows[k] in rest;
          var i :| 0 <= i < |rest| && rest[i] == rows[k];
          AlignedWithLast(events, i);
        }
      }
    }
  }

  lemma CommitAligned(db: DB, b: Block, events: seq<Event>)
    requires StoreOk(db) && Aligned(db.events) && AlignedBatch(events) && Commit(db, b, events).Ok?
    ensures Aligned(Commit(db, b, events).value.events)
  {
    hide InsertAll, ProjectAll;
    if b.number > db.cursor {
      assert forall k :: 0 <= k < |db.events| ==> EventOk(db, db.events[k]);
      InsertAllAligned(Ledger(db.events, db.tables), b, events);
    }
  }

  ghost predicate AlignedBatches(batch: seq<(Block, seq<Event>)>) {
    forall k :: 0 <= k < |batch| ==> AlignedBatch(batch[k].1)
  }

  lemma {:induction false} CommitAllAligned(db: DB, batch: seq<(Block, seq<Event>)>)
    requires StoreOk(db) && Aligned(db.events) && AlignedBatches(batch) && CommitAll(db, batch).Ok?
    ensures StoreOk(CommitAll(db, batch).value) && Aligned(CommitAll(db, batch).value.events)
  {
    hide Commit, StoreOk, Aligned, AlignedBatch;
    if batch != [] {
      var rest := batch[..|batch| - 1];
      CommitAllAligned(db, rest);
      var db1 := CommitAll(db, rest).value;
      CommitAligned(db1, batch[|batch| - 1].0, batch[|batch| - 1].1);
      CommitKeeps(db1, batch[|batch| - 1].0, batch[|batch| - 1].1);
    }
  }

  // Committing blocks whose related events are in table order, and then rewinding to where the
  // cursor was, gives back the same database, whatever the query answers.
  lemma CommitsUndone(db: DB, batch: seq<(Block, seq<Event>)>, rows: seq<Event>)
    requires StoreOk(db) && Aligned(db.events) && AlignedBatches(batch) && CommitAll(db, batch).Ok?
    requires IsListing(rows, KeptEvents(CommitAll(db, batch).value.events, db.cursor))
    ensures Rewound(CommitAll(db, batch).value, db.cursor, rows) == Ok(db)
  {
    StartsBelow(db);
    hide *;
    CommitAllAligned(db, batch);
    CommitsThenRewind(db, batch, db.cursor);
    var db1 := CommitAll(db, batch).value;
    KeptAligned(db1, db.cursor);
    RewindRestoresIffAligned(db1, db.cursor);
  }

  lemma KeptAligned(db: DB, ancestor: int)
    requires StoreOk(db) && Aligned(db.events)
    ensures Aligned(KeptEvents(db.events, ancestor))
  {
    KeptIsPrefix(db.events, ancestor);
    hide KeptEvents, Related, ProjectAll;
  }

  lemma StartsBelow(db: DB)
    requires StoreOk(db)
    ensures db.start - 1 <= db.cursor
  {}

  /******* A commit that cannot be replayed *******/

  // A block whose ticket sale is listed before the start of its draw: it is committed, and then
  // no rewind that keeps it succeeds.
  lemma UnsortedCommit()
    ensures
      var b := Block(1, 7, 0, 10);
      var started := Event(DrawStarted(1, 10, 86410, 10_000_000, 2, 0), 1, 7, 5, 0, 1, 10);
      var bought := Event(TicketBought(1, 4, 1, 10_000_000, 1, 10_000_000), 1, 7, 5, 0, 0, 10);
      var r := Commit(Opened(1), b, [started, bought]);
      && r.Ok? && StoreOk(r.value)
      && IsListing([bought, started], KeptEvents(r.value.events, 1))
      && Rewound(r.value, 1, [bought, started]) == Revert(InvalidEvent)
  {
    var b := Block(1, 7, 0, 10);
    var started := Event(DrawStarted(1, 10, 86410, 10_000_000, 2, 0), 1, 7, 5, 0, 1, 10);
    var bought := Event(TicketBought(1, 4, 1, 10_000_000, 1, 10_000_000), 1, 7, 5, 0, 0, 10);
    NoTablesMirror();
    var draws := map[1 := View(1, ACTIVE, 10, 86410, None, 10_000_000, 2, 0, None, None, 0, 0, 0, 0, 0, false, 0, None,
      EMPTY_BOARD, 0, false)];
    assert Step(map[], started.Emitted()) == Ok(draws);
    assert Step(draws, bought.Emitted()).Ok? by {
      assert forall k :: 0 <= k < POSITIONS ==> !Holds(EMPTY_BOARD[k], 4);
    }
    assert Step(map[], bought.Emitted()) == Revert(InvalidEvent);
    UnsortedPair(b, started, bought, draws);
  }

  // Any two events that project in the order given but not in table order.
  lemma UnsortedPair(b: Block, e1: Event, e2: Event, draws: Draws)
    requires b.number == 1 && e2.Before(e1) && e1.logIndex != e2.logIndex
    requires e1.blockNumber == e2.blockNumber == 1 && e1.blockHash == e2.blockHash == b.hash
    requires Step(map[], e1.Emitted()) == Ok(draws) && Step(draws, e2.Emitted()).Ok?
    requires Step(map[], e2.Emitted()) == Revert(InvalidEvent)
    ensures
      var r := Commit(Opened(1), b, [e1, e2]);
      && r.Ok? && StoreOk(r.value)
      && IsListing([e2, e1], KeptEvents(r.value.events, 1))
      && Rewound(r.value, 1, [e2, e1]) == Revert(InvalidEvent)
  {
    hide Apply, UpsertTickets, InsertClaim, Mirror;
    NoTablesMirror();
    ProjectKeepsMirror(NO_TABLES, e1);
    var t1 := ProjectEvent(NO_TABLES, e1).value;
    ProjectKeepsMirror(t1, e2);
    var t2 := ProjectEvent(t1, e2).value;
    var g := Ledger([], NO_TABLES);
    assert ProjectEvent(NO_TABLES, e2) == Revert(InvalidEvent);
    hide ProjectEvent, Step;
    InsertStep(g, b, [e1], 1);
    assert [e1][..0] == [] && [e1][..1] == [e1] && [e1, e2][..1] == [e1] && [e1, e2][..2] == [e1, e2];
    assert g.events + [e1] == [e1] && [e1] + [e2] == [e1, e2];
    assert !KeyTaken([], e1) && !KeyTaken([e1], e2);
    assert InsertAll(g, b, []) == Ok(g) && InsertEvent(g, b, e1) == Ok(Ledger([e1], t1));
    assert InsertAll(g, b, [e1]) == Ok(Ledger([e1], t1));
    InsertStep(g, b, [e1, e2], 2);
    assert InsertAll(g, b, [e1, e2]) == Ok(Ledger([e1, e2], t2));
    PairCommitted(b, e1, e2, t2);
    PairRefused(e1, e2);
  }

  lemma PairCommitted(b: Block, e1: Event, e2: Event, t2: Tables)
    requires b.number == 1 && e1.blockNumber == e2.blockNumber == 1 && e2.Before(e1)
    requires InsertAll(Ledger([], NO_TABLES), b, [e1, e2]) == Ok(Ledger([e1, e2], t2))
    ensures
      var r := Commit(Opened(1), b, [e1, e2]);
      r.Ok? && StoreOk(r.value) && r.value.events == [e1, e2] && r.value.blocks == map[1 := b]
    ensures KeptEvents([e1, e2], 1) == [e1, e2] && IsListing([e2, e1], [e1, e2])
  {
    hide InsertAll, ProjectAll, StoreOk, KeptEvents;
    OpenedOk(1);
    CommitKeeps(Opened(1), b, [e1, e2]);
    KeptUpTo([e1, e2], 1, 2);
    assert [e1, e2][..2] == [e1, e2];
    assert multiset([e2, e1]) == multiset([e1, e2]);
  }

  lemma PairRefused(e1: Event, e2: Event)
    requires ProjectEvent(NO_TABLES, e2) == Revert(InvalidEvent)
    ensures ProjectAll([e2, e1]) == Revert(InvalidEvent)
  {
    hide ProjectEvent;
    AppendEvent([], e2);
    AppendEvent([e2], e1);
    assert [] + [e2] == [e2] && [e2] + [e1] == [e2, e1];
  }

  /******* Any mix of transactions *******/

  // `select` is the database's answer to the query of the rewind.
  datatype Transaction = Committing(b: Block, events: seq<Event>) | RewindingTo(ancestor: int,
      select: seq<Event> -> seq<Event>)

  function Attempt(db: DB, t: Transaction): Result<DB> {
    match t
    case Committing(b, events) => Commit(db, b, events)
    case RewindingTo(a, select) => Rewound(db, a, select(KeptEvents(db.events, a)))
  }

  // A failed transaction leaves the database as it was.
  function AttemptAll(db: DB, ts: seq<Transaction>): DB {
    if ts == [] then db
    else
      var db1 := AttemptAll(db, ts[..|ts| - 1]);
      match Attempt(db1, ts[|ts| - 1])
      case Ok(db2) => db2
      case Revert(_) => db1
  }

  // No rewind goes below the block before the start, and every query is answered with a listing.
  ghost predicate Sensible(start: nat, ts: seq<Transaction>) {
    forall k :: 0 <= k < |ts| && ts[k].RewindingTo? ==> ts[k].ancestor >= start - 1 && Answers(ts[k].select)
  }

  ghost predicate Answers(select: seq<Event> -> seq<Event>) {
    forall rows: seq<Event> :: IsListing(select(rows), rows)
  }

  lemma AttemptKeeps(db: DB, t: Transaction)
    requires StoreOk(db) && (t.RewindingTo? ==> t.ancestor >= db.start - 1 && Answers(t.select))
    ensures Attempt(db, t).Ok? ==> StoreOk(Attempt(db, t).value) && Attempt(db, t).value.start == db.start
  {
    hide ProjectAll, InsertAll, KeptEvents, IsListing, EventsOk;
    if Attempt(db, t).Ok? {
      match t
      case Committing(b, events) => CommitKeeps(db, b, events);
      case RewindingTo(a, select) =>
        assert a <= db.cursor;
        RefusedOrExact(db, a, select(KeptEvents(db.events, a)));
        AtIsOk(db, a);
    }
  }

  // After any mix of commits, fresh, repeated, conflicting or invalid, in any order of events,
  // and rewinds: the blocks are one parent-linked run up to the cursor, and the tables are the
  // projection of the retained events and agree with each other.
  lemma {:induction false} StoreInvariant(start: nat, ts: seq<Transaction>)
    requires Sensible(start, ts)
    ensures
      var db := AttemptAll(Opened(start), ts);
      StoreOk(db) && db.start == start && Mirror(db.tables) && Fold(Emitted(db.events)) == Ok(db.tables.draws)
  {
    hide StoreOk, Answers, Attempt, Mirror;
    if ts == [] {
      OpenedOk(start);
    } else {
      StoreInvariant(start, ts[..|ts| - 1]);
      AttemptKeeps(AttemptAll(Opened(start), ts[..|ts| - 1]), ts[|ts| - 1]);
    }
    StoreMirror(AttemptAll(Opened(start), ts));
  }
}
