/**
 The indexer's database as a value: its tables, the projection of one event into them, and the
 two transactions that change it.
 */
module Store {
  import opened Basics
  import opened Contract
  import opened Projection

  type Hash = nat

  datatype Event = Event(payload: Payload, blockNumber: int, blockHash: Hash, txHash: Hash, txIndex: nat,
      logIndex: nat, timestamp: nat)
  {
    function Emitted(): Emit {
      Emit(timestamp, payload)
    }

    // The primary key of the events table.
    predicate SameKey(e: Event) {
      blockHash == e.blockHash && txHash == e.txHash && logIndex == e.logIndex
    }

    // Strictly earlier in the order in which the table is read back.
    predicate Before(e: Event) {
      || blockNumber < e.blockNumber
      || (blockNumber == e.blockNumber && (txIndex < e.txIndex || (txIndex == e.txIndex && logIndex < e.logIndex)))
    }
  }

  datatype Block = Block(number: int, hash: Hash, parentHash: Hash, timestamp: nat)

  datatype TicketRow = TicketRow(wallet: Address, refunded: bool)
  datatype ClaimKind = PrizeKind | RefundKind
  datatype ClaimRow = ClaimRow(amount: nat, txHash: Hash)

  type TicketTable = map<(nat, nat), TicketRow>             // (draw, number)
  type ClaimTable = map<(nat, Address, ClaimKind), ClaimRow>

  datatype Tables = Tables(draws: Draws, tickets: TicketTable, claims: ClaimTable)

  const NO_TABLES := Tables(map[], map[], map[])

  /******* Projecting one event *******/

  // INSERT ... ON CONFLICT(draw, number) DO UPDATE SET refunded, under UNIQUE(draw, wallet).
  function UpsertTicket(table: TicketTable, id: nat, t: Ticket): Result<TicketTable> {
    match t.wallet
    case None => Ok(table)
    case Some(who) =>
      if (id, t.number) in table then Ok(table[(id, t.number) := table[(id, t.number)].(refunded := t.refunded)])
      else if exists key :: key in table && key.0 == id && table[key].wallet == who then Revert(ConstraintViolated)
      else Ok(table[(id, t.number) := TicketRow(who, t.refunded)])
  }

  function UpsertTickets(table: TicketTable, id: nat, tickets: seq<Ticket>): Result<TicketTable> {
    if tickets == [] then Ok(table)
    else
      match UpsertTickets(table, id, tickets[..|tickets| - 1])
      case Ok(table1) => UpsertTicket(table1, id, tickets[|tickets| - 1])
      case Revert(x) => Revert(x)
  }

  function ClaimKey(p: Payload): (nat, Address, ClaimKind)
    requires p.PrizeClaimed? || p.RefundClaimed?
  {
    if p.PrizeClaimed? then (p.drawId, p.winner, PrizeKind) else (p.drawId, p.participant, RefundKind)
  }

  function InsertClaim(claims: ClaimTable, e: Event): Result<ClaimTable> {
    if !e.payload.PrizeClaimed? && !e.payload.RefundClaimed? then Ok(claims)
    else if ClaimKey(e.payload) in claims then Revert(ConstraintViolated)
    else Ok(claims[ClaimKey(e.payload) := ClaimRow(e.payload.amount, e.txHash)])
  }

  function ProjectEvent(t: Tables, e: Event): Result<Tables> {
    match Apply(Find(t.draws, e.payload.drawId), e.Emitted())
    case Revert(x) => Revert(x)
    case Ok(v) =>
      match UpsertTickets(t.tickets, v.id, v.tickets)
      case Revert(x) => Revert(x)
      case Ok(tickets) =>
        match InsertClaim(t.claims, e)
        case Revert(x) => Revert(x)
        case Ok(claims) => Ok(Tables(t.draws[v.id := v], tickets, claims))
  }

  function ProjectAll(events: seq<Event>): Result<Tables> {
    if events == [] then Ok(NO_TABLES)
    else
      match ProjectAll(events[..|events| - 1])
      case Ok(t) => ProjectEvent(t, events[|events| - 1])
      case Revert(x) => Revert(x)
  }

  /******* The database *******/

  // `events` lists the events table in the order of insertion; a missing cursor hash is None.
  datatype DB = DB(start: nat, cursor: int, cursorHash: Option<Hash>, blocks: map<int, Block>, events: seq<Event>,
      tables: Tables)

  function Opened(start: nat): DB {
    DB(start, start - 1, None, map[], [], NO_TABLES)
  }

  datatype Ledger = Ledger(events: seq<Event>, tables: Tables)

  predicate KeyTaken(events: seq<Event>, e: Event) {
    exists k :: 0 <= k < |events| && events[k].SameKey(e)
  }

  function InsertEvent(g: Ledger, b: Block, e: Event): Result<Ledger> {
    if e.blockNumber != b.number || e.blockHash != b.hash then Revert(EventMismatch)
    else if KeyTaken(g.events, e) then Ok(g)
    else
      match ProjectEvent(g.tables, e)
      case Ok(t) => Ok(Ledger(g.events + [e], t))
      case Revert(x) => Revert(x)
  }

  function InsertAll(g: Ledger, b: Block, events: seq<Event>): Result<Ledger> {
    if events == [] then Ok(g)
    else
      match InsertAll(g, b, events[..|events| - 1])
      case Ok(g1) => InsertEvent(g1, b, events[|events| - 1])
      case Revert(x) => Revert(x)
  }

  function Commit(db: DB, b: Block, events: seq<Event>): Result<DB> {
    if b.number <= db.cursor then
      if b.number !in db.blocks then Revert(NoRows)
      else if db.blocks[b.number].hash != b.hash then Revert(ConflictingReplay)
      else Ok(db)
    else if b.number != db.cursor + 1
      || (db.cursorHash.Some? && db.cursorHash.value != b.parentHash) then Revert(NoncontiguousBlock)
    else if b.number in db.blocks then Revert(ConstraintViolated)
    else
      match InsertAll(Ledger(db.events, db.tables), b, events)
      case Revert(x) => Revert(x)
      case Ok(g) => Ok(DB(db.start, b.number, Some(b.hash), db.blocks[b.number := b], g.events, g.tables))
  }

  function KeptEvents(events: seq<Event>, ancestor: int): seq<Event> {
    if events == [] then []
    else
      KeptEvents(events[..|events| - 1], ancestor)
      + (if events[|events| - 1].blockNumber <= ancestor then [events[|events| - 1]] else [])
  }

  function KeptBlocks(blocks: map<int, Block>, ancestor: int): map<int, Block> {
    map n | n in blocks && n <= ancestor :: blocks[n]
  }

  // What a query may return: the rows of the table, in order; ties come in any order.
  ghost predicate IsListing(rows: seq<Event>, table: seq<Event>) {
    multiset(rows) == multiset(table) && forall i, j :: 0 <= i < j < |rows| ==> !rows[j].Before(rows[i])
  }

  // Rewind, given the rows it read back: they are replayed, the retained rows stay where they are.
  function Rewound(db: DB, ancestor: int, rows: seq<Event>): Result<DB> {
    var blocks := KeptBlocks(db.blocks, ancestor);
    match ProjectAll(rows)
    case Revert(x) => Revert(x)
    case Ok(t) =>
      if ancestor >= db.start && ancestor !in blocks then Revert(NoRows)
      else
        var hash := if ancestor >= db.start then Some(blocks[ancestor].hash) else None;
        Ok(DB(db.start, ancestor, hash, blocks, KeptEvents(db.events, ancestor), t))
  }

  /******* The invariant of the database *******/

  ghost predicate ChainOk(db: DB) {
    && db.start - 1 <= db.cursor
    && (forall n :: n in db.blocks <==> db.start <= n <= db.cursor)
    && (forall n :: n in db.blocks ==> db.blocks[n].number == n)
    && (forall n :: n in db.blocks && n > db.start ==> db.blocks[n].parentHash == db.blocks[n - 1].hash)
    && db.cursorHash == if db.cursor >= db.start then Some(db.blocks[db.cursor].hash) else None
  }

  ghost predicate EventOk(db: DB, e: Event) {
    e.blockNumber in db.blocks && e.blockHash == db.blocks[e.blockNumber].hash
  }

  ghost predicate EventsOk(db: DB) {
    && (forall k :: 0 <= k < |db.events| ==> EventOk(db, db.events[k]))
    && (forall i, j :: 0 <= i < j < |db.events| ==> db.events[i].blockNumber <= db.events[j].blockNumber)
    && (forall i, j :: 0 <= i < j < |db.events| ==> !db.events[i].SameKey(db.events[j]))
  }

  ghost predicate StoreOk(db: DB) {
    ChainOk(db) && EventsOk(db) && ProjectAll(db.events) == Ok(db.tables)
  }

  // The table order is the order of insertion.
  ghost predicate Ordered(events: seq<Event>) {
    forall i, j :: 0 <= i < j < |events| ==> events[i].Before(events[j])
  }

  /******* Commit keeps it *******/

  lemma OpenedOk(start: nat)
    ensures StoreOk(Opened(start)) && Ordered(Opened(start).events)
  {}

  lemma AppendEvent(events: seq<Event>, e: Event)
    ensures ProjectAll(events + [e]) == match ProjectAll(events) case Ok(t) => ProjectEvent(t,
      e) case Revert(x) => Revert(x)
  {
    assert (events + [e])[..|events|] == events;
  }

  lemma InsertStep(g: Ledger, b: Block, events: seq<Event>, k: nat)
    requires 0 < k <= |events| && InsertAll(g, b, events[..k - 1]).Ok?
    ensures InsertAll(g, b, events[..k]) == InsertEvent(InsertAll(g, b, events[..k - 1]).value, b, events[k - 1])
  {
    assert events[..k][..k - 1] == events[..k - 1];
  }

  // Inserting a batch: the new rows all belong to the block, keys stay unique, and the tables
  // remain the projection of the rows.
  lemma {:induction false} InsertAllOk(g: Ledger, b: Block, events: seq<Event>)
    requires ProjectAll(g.events) == Ok(g.tables)
    requires forall i, j :: 0 <= i < j < |g.events| ==> !g.events[i].SameKey(g.events[j])
    requires InsertAll(g, b, events).Ok?
    ensures
      var g1 := InsertAll(g, b, events).value;
      && ProjectAll(g1.events) == Ok(g1.tables)
      && (forall i, j :: 0 <= i < j < |g1.events| ==> !g1.events[i].SameKey(g1.events[j]))
      && g.events <= g1.events
      && (forall k :: |g.events| <= k < |g1.events| ==>
        g1.events[k].blockNumber == b.number && g1.events[k].blockHash == b.hash && g1.events[k] in events)
  {
    hide ProjectAll, ProjectEvent;
    if events != [] {
      var rest, e := events[..|events| - 1], events[|events| - 1];
      InsertAllOk(g, b, rest);
      var g1 := InsertAll(g, b, rest).value;
      AppendEvent(g1.events, e);
      var g2 := InsertAll(g, b, events).value;
      forall k | |g.events| <= k < |g2.events|
        ensures g2.events[k].blockNumber == b.number && g2.events[k].blockHash == b.hash && g2.events[k] in events
      {
        if k < |g1.events| {
          assert g2.events[k] == g1.events[k] && g1.events[k] in rest;
        }
      }
    }
  }

  // Whatever is committed, fresh, repeated or refused, the invariant holds afterwards; a fresh
  // block moves the cursor to it and a repeated one changes nothing.
  lemma CommitKeeps(db: DB, b: Block, events: seq<Event>)
    requires StoreOk(db) && Commit(db, b, events).Ok?
    ensures
      var db1 := Commit(db, b, events).value;
      && StoreOk(db1)
      && (if b.number <= db.cursor then (db1 == db && db.blocks[b.number].hash == b.hash)
          else (db1.cursor == b.number == db.cursor + 1 && db1.cursorHash == Some(b.hash)
            && db1.blocks == db.blocks[b.number := b]
                && db.events <= db1.events))
  {
    hide ProjectAll, InsertAll;
    if b.number > db.cursor {
      InsertAllOk(Ledger(db.events, db.tables), b, events);
    }
  }

  /******* Listings *******/

  lemma {:induction false} KeptIsPrefix(events: seq<Event>, ancestor: int)
    requires forall i, j :: 0 <= i < j < |events| ==> events[i].blockNumber <= events[j].blockNumber
    ensures KeptEvents(events, ancestor) <= events
    ensures forall k :: 0 <= k < |events| ==>
      (k < |KeptEvents(events, ancestor)| <==> events[k].blockNumber <= ancestor)
  {
    if events != [] {
      KeptIsPrefix(events[..|events| - 1], ancestor);
    }
  }

  lemma {:induction false} KeptMonotone(events: seq<Event>, low: int, high: int)
    requires low <= high
    ensures |KeptEvents(events, low)| <= |KeptEvents(events, high)|
  {
    if events != [] {
      KeptMonotone(events[..|events| - 1], low, high);
    }
  }

  // How many events a rewind keeps, if blocks are in order.
  lemma KeptUpTo(events: seq<Event>, ancestor: int, k: nat)
    requires forall i, j :: 0 <= i < j < |events| ==> events[i].blockNumber <= events[j].blockNumber
    requires k <= |events|
    requires k > 0 ==> events[k - 1].blockNumber <= ancestor
    requires k < |events| ==> events[k].blockNumber > ancestor
    ensures KeptEvents(events, ancestor) == events[..k]
  {
    KeptIsPrefix(events, ancestor);
    hide KeptEvents;
  }

  lemma FirstRow(rows: seq<Event>, table: seq<Event>)
    requires Ordered(table) && IsListing(rows, table) && table != []
    ensures rows != [] && rows[0] == table[0]
  {
    assert multiset(rows)[table[0]] > 0;
    assert table[0] in rows;
    var j :| 0 <= j < |rows| && rows[j] == table[0];
    assert rows[0] in multiset(rows);
    assert rows[0] in table;
    var i :| 0 <= i < |table| && table[i] == rows[0];
    assert i == 0 || table[0].Before(table[i]);
    assert j == 0 || !rows[j].Before(rows[0]);
  }

  lemma ListedHead(rows: seq<Event>, table: seq<Event>)
    requires Ordered(table) && IsListing(rows, table) && table != []
    ensures rows != [] && rows[0] == table[0] && IsListing(rows[1..], table[1..])
  {
    FirstRow(rows, table);
    assert rows == [rows[0]] + rows[1..] && table == [table[0]] + table[1..];
    assert multiset(rows) == multiset{rows[0]} + multiset(rows[1..]);
    assert multiset(table) == multiset{table[0]} + multiset(table[1..]);
    assert multiset(rows[1..]) == multiset(table) - multiset{table[0]};
    forall a, d | 0 <= a < d < |rows[1..]|
      ensures !rows[1..][d].Before(rows[1..][a])
    {
      assert !rows[d + 1].Before(rows[a + 1]);
    }
  }

  // A table without ties can be read back in one way only: in the order of insertion.
  lemma {:induction false} ListingIsUnique(rows: seq<Event>, table: seq<Event>)
    requires Ordered(table) && IsListing(rows, table)
    ensures rows == table
    decreases |table|
  {
    if table == [] {
      assert |multiset(rows)| == 0;
    } else {
      ListedHead(rows, table);
      ListingIsUnique(rows[1..], table[1..]);
      assert rows == [rows[0]] + rows[1..] && table == [table[0]] + table[1..];
    }
  }

  lemma {:induction false} ProjectPrefix(events: seq<Event>, k: nat)
    requires k <= |events| && ProjectAll(events).Ok?
    ensures ProjectAll(events[..k]).Ok?
  {
    if k < |events| {
      var rest := events[..|events| - 1];
      ProjectPrefix(rest, k);
      assert rest[..k] == events[..k];
    } else {
      assert events[..k] == events;
    }
  }

  /******* Rewind is an exact undo *******/

  // The database as it was when its cursor stood at `ancestor`.
  function At(db: DB, ancestor: int): DB
    requires StoreOk(db) && db.start - 1 <= ancestor <= db.cursor
  {
    var kept := KeptEvents(db.events, ancestor);
    KeptIsPrefix(db.events, ancestor);
    ProjectPrefix(db.events, |kept|);
    assert kept == db.events[..|kept|];
    DB(db.start, ancestor, if ancestor >= db.start then Some(db.blocks[ancestor].hash) else None,
       KeptBlocks(db.blocks, ancestor), kept, ProjectAll(kept).value)
  }

  lemma AtIsOk(db: DB, ancestor: int)
    requires StoreOk(db) && db.start - 1 <= ancestor <= db.cursor
    ensures StoreOk(At(db, ancestor))
    ensures Ordered(db.events) ==> Ordered(At(db, ancestor).events)
  {
    hide ProjectAll, KeptEvents;
    var kept := KeptEvents(db.events, ancestor);
    KeptIsPrefix(db.events, ancestor);
    ProjectPrefix(db.events, |kept|);
    assert kept == db.events[..|kept|];
    var db1 := At(db, ancestor);
    forall k | 0 <= k < |db1.events|
      ensures EventOk(db1, db1.events[k])
    {
      assert EventOk(db, db.events[k]);
    }
  }

  // Replaying never fails, and whatever order the database returns ties in, the result is the
  // state held at the ancestor.
  lemma RewindIsUndo(db: DB, ancestor: int, rows: seq<Event>)
    requires StoreOk(db) && Ordered(db.events) && db.start - 1 <= ancestor <= db.cursor
    requires IsListing(rows, KeptEvents(db.events, ancestor))
    ensures Rewound(db, ancestor, rows) == Ok(At(db, ancestor))
  {
    AtIsOk(db, ancestor);
    ListingIsUnique(rows, KeptEvents(db.events, ancestor));
  }

  lemma ListedRow(rows: seq<Event>, table: seq<Event>, k: nat)
    requires multiset(rows) == multiset(table) && k < |rows|
    ensures exists i :: 0 <= i < |table| && table[i] == rows[k]
  {
    assert rows[k] in multiset(rows);
    assert rows[k] in table;
  }

  /******* Undoing commits *******/

  // A sequence of blocks with their events, committed one after another.
  function CommitAll(db: DB, batch: seq<(Block, seq<Event>)>): Result<DB> {
    if batch == [] then Ok(db)
    else
      match CommitAll(db, batch[..|batch| - 1])
      case Ok(db1) => Commit(db1, batch[|batch| - 1].0, batch[|batch| - 1].1)
      case Revert(x) => Revert(x)
  }

  lemma CommitThenAt(db: DB, b: Block, events: seq<Event>, ancestor: int)
    requires StoreOk(db) && Commit(db, b, events).Ok? && db.start - 1 <= ancestor <= db.cursor
    ensures CommitKept(db, b, events) && At(Commit(db, b, events).value, ancestor) == At(db, ancestor)
  {
    hide ProjectAll, InsertAll, KeptEvents;
    CommitKeeps(db, b, events);
    var db1 := Commit(db, b, events).value;
    if b.number > db.cursor {
      InsertAllOk(Ledger(db.events, db.tables), b, events);
      KeptIsPrefix(db.events, ancestor);
      var kept := KeptEvents(db.events, ancestor);
      KeptUpTo(db1.events, ancestor, |kept|);
      assert db1.events[..|kept|] == kept;
      assert KeptBlocks(db1.blocks, ancestor) == KeptBlocks(db.blocks, ancestor);
    }
  }

  ghost predicate CommitKept(db: DB, b: Block, events: seq<Event>)
    requires Commit(db, b, events).Ok?
  {
    var db1 := Commit(db, b, events).value;
    StoreOk(db1) && db1.start == db.start && db.cursor <= db1.cursor
  }

  lemma AtCursor(db: DB)
    requires StoreOk(db)
    ensures At(db, db.cursor) == db
  {
    hide ProjectAll, KeptEvents;
    assert forall k :: 0 <= k < |db.events| ==> EventOk(db, db.events[k]);
    KeptUpTo(db.events, db.cursor, |db.events|);
    assert db.events[..|db.events|] == db.events;
    assert KeptBlocks(db.blocks, db.cursor) == db.blocks;
  }

  // Committing any blocks and then rewinding to where the cursor was is the identity.
  lemma {:induction false} CommitsThenRewind(db: DB, batch: seq<(Block, seq<Event>)>, ancestor: int)
    requires StoreOk(db) && CommitAll(db, batch).Ok? && db.start - 1 <= ancestor <= db.cursor
    ensures
      var db1 := CommitAll(db, batch).value;
      && StoreOk(db1) && db1.start == db.start && db.cursor <= db1.cursor
      && At(db1, ancestor) == At(db, ancestor)
      && (ancestor == db.cursor ==> At(db1, ancestor) == db)
  {
    hide ProjectAll, At, Commit;
    AtCursor(db);
    if batch != [] {
      CommitsThenRewind(db, batch[..|batch| - 1], ancestor);
      var db1 := CommitAll(db, batch[..|batch| - 1]).value;
      CommitThenAt(db1, batch[|batch| - 1].0, batch[|batch| - 1].1, ancestor);
    }
  }

  // Consecutive rewinds collapse to the lower one.
  lemma RewindsCollapse(db: DB, a: int, b: int)
    requires StoreOk(db) && db.start - 1 <= b <= a <= db.cursor
    ensures StoreOk(At(db, a)) && At(At(db, a), b) == At(db, b)
  {
    hide ProjectAll, KeptEvents;
    AtIsOk(db, a);
    KeptIsPrefix(db.events, a);
    KeptIsPrefix(db.events, b);
    var ka, kb := KeptEvents(db.events, a), KeptEvents(db.events, b);
    KeptMonotone(db.events, b, a);
    KeptUpTo(ka, b, |kb|);
    assert ka[..|kb|] == kb;
    assert KeptBlocks(KeptBlocks(db.blocks, a), b) == KeptBlocks(db.blocks, b);
  }
}
