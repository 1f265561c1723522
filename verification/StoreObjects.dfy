/**
 The store as it runs. A transaction works on copies of the tables and replaces them when it
 commits, so that a failed one leaves every field as it was.
 */
module StoreObjects {
  import opened Basics
  import opened Contract
  import opened Projection
  import opened ProjectionObjects
  import opened Rows = Store
  import opened History

  lemma {:induction false} UpsertStops(table: TicketTable, id: nat, tickets: seq<Ticket>, k: nat)
    requires k <= |tickets| && UpsertTickets(table, id, tickets[..k]).Revert?
    ensures UpsertTickets(table, id, tickets) == UpsertTickets(table, id, tickets[..k])
  {
    if k == |tickets| {
      assert tickets[..k] == tickets;
    } else {
      assert tickets[..|tickets| - 1][..k] == tickets[..k];
      UpsertStops(table, id, tickets[..|tickets| - 1], k);
    }
  }

  lemma {:induction false} InsertStops(g: Ledger, b: Block, events: seq<Event>, k: nat)
    requires k <= |events| && InsertAll(g, b, events[..k]).Revert?
    ensures InsertAll(g, b, events) == InsertAll(g, b, events[..k])
  {
    if k == |events| {
      assert events[..k] == events;
    } else {
      assert events[..|events| - 1][..k] == events[..k];
      InsertStops(g, b, events[..|events| - 1], k);
    }
  }

  lemma {:induction false} ProjectStops(events: seq<Event>, k: nat)
    requires k <= |events| && ProjectAll(events[..k]).Revert?
    ensures ProjectAll(events) == ProjectAll(events[..k])
  {
    if k == |events| {
      assert events[..k] == events;
    } else {
      assert events[..|events| - 1][..k] == events[..k];
      ProjectStops(events[..|events| - 1], k);
    }
  }

  method WriteTickets(table: TicketTable, d: DrawRecord) returns (r: Result<TicketTable>)
    requires d.tickets.Length == POSITIONS
    ensures r == UpsertTickets(table, d.id, d.tickets[..])
  {
    var written := table;
    var i := 0;
    while i < d.tickets.Length
      invariant 0 <= i <= d.tickets.Length
      invariant UpsertTickets(table, d.id, d.tickets[..i]) == Ok(written)
    {
      assert d.tickets[..i + 1][..i] == d.tickets[..i];
      var t := d.tickets[i];
      if t.wallet.Some? {
        if (d.id, t.number) in written {
          written := written[(d.id, t.number) := written[(d.id, t.number)].(refunded := t.refunded)];
        } else if exists key :: key in written && key.0 == d.id && written[key].wallet == t.wallet.value {
          UpsertStops(table, d.id, d.tickets[..], i + 1);
          return Revert(ConstraintViolated);
        } else {
          written := written[(d.id, t.number) := TicketRow(t.wallet.value, t.refunded)];
        }
      }
      i := i + 1;
    }
    assert d.tickets[..i] == d.tickets[..];
    r := Ok(written);
  }

  method Project(t: Tables, e: Event) returns (r: Result<Tables>)
    ensures r == ProjectEvent(t, e)
  {
    hide UpsertTickets, Apply;
    var d: DrawRecord? := null;
    if e.payload.drawId in t.draws {
      d := new DrawRecord(t.draws[e.payload.drawId]);
    }
    var applied := ApplyEvent(d, e.Emitted());
    if applied.Revert? { return Revert(applied.error); }
    var d1 := applied.value;
    var draws := t.draws[d1.id := d1.Value()];
    var tickets := WriteTickets(t.tickets, d1);
    if tickets.Revert? { return Revert(tickets.error); }
    var claims := t.claims;
    if e.payload.PrizeClaimed? || e.payload.RefundClaimed? {
      var key := if e.payload.PrizeClaimed? then (e.payload.drawId, e.payload.winner,
        PrizeKind) else (e.payload.drawId, e.payload.participant, RefundKind);
      if key in claims { return Revert(ConstraintViolated); }
      claims := claims[key := ClaimRow(e.payload.amount, e.txHash)];
    }
    r := Ok(Tables(draws, tickets.value, claims));
  }

  method HasKey(rows: seq<Event>, e: Event) returns (taken: bool)
    ensures taken <==> KeyTaken(rows, e)
  {
    for i := 0 to |rows|
      invariant forall k :: 0 <= k < i ==> !rows[k].SameKey(e)
    {
      if rows[i].SameKey(e) { return true; }
    }
    taken := false;
  }

  method Insert(g: Ledger, b: Block, batch: seq<Event>) returns (r: Result<Ledger>)
    ensures r == InsertAll(g, b, batch)
  {
    hide ProjectEvent, KeyTaken;
    var rows, t := g.events, g.tables;
    var k := 0;
    while k < |batch|
      invariant 0 <= k <= |batch|
      invariant InsertAll(g, b, batch[..k]) == Ok(Ledger(rows, t))
    {
      var e := batch[k];
      assert batch[..k + 1][..k] == batch[..k] && batch[..k + 1][k] == e;
      if e.blockNumber != b.number || e.blockHash != b.hash {
        InsertStops(g, b, batch, k + 1);
        return Revert(EventMismatch);
      }
      var taken := HasKey(rows, e);
      if !taken {
        var projected := Project(t, e);
        if projected.Revert? {
          InsertStops(g, b, batch, k + 1);
          return Revert(projected.error);
        }
        rows, t := rows + [e], projected.value;
      }
      k := k + 1;
    }
    assert batch[..k] == batch;
    r := Ok(Ledger(rows, t));
  }

  method Replay(rows: seq<Event>) returns (r: Result<Tables>)
    ensures r == ProjectAll(rows)
  {
    hide ProjectEvent;
    var t := NO_TABLES;
    var k := 0;
    while k < |rows|
      invariant 0 <= k <= |rows|
      invariant ProjectAll(rows[..k]) == Ok(t)
    {
      assert rows[..k + 1][..k] == rows[..k] && rows[..k + 1][k] == rows[k];
      var projected := Project(t, rows[k]);
      if projected.Revert? {
        ProjectStops(rows, k + 1);
        return Revert(projected.error);
      }
      t := projected.value;
      k := k + 1;
    }
    assert rows[..k] == rows;
    r := Ok(t);
  }

  method RefreshRows(rows: seq<View>, now: nat) returns (views: seq<View>)
    ensures views == RefreshedAll(rows, now)
  {
    hide Refreshed;
    views := [];
    var k := 0;
    while k < |rows|
      invariant 0 <= k <= |rows|
      invariant views == RefreshedAll(rows[..k], now)
    {
      assert rows[..k + 1][..k] == rows[..k];
      var d := new DrawRecord(rows[k]);
      d.Refresh(now);
      views := views + [d.Value()];
      k := k + 1;
    }
    assert rows[..k] == rows;
  }

  class Store {
    const start: nat
    var cursor: int
    var cursorHash: Option<Hash>
    var blocks: map<int, Block>
    var events: seq<Event>
    var draws: Draws
    var tickets: TicketTable
    var claims: ClaimTable

    function Value(): DB
      reads this
    {
      DB(start, cursor, cursorHash, blocks, events, Tables(draws, tickets, claims))
    }

    constructor (start: nat)
      ensures Value() == Opened(start)
    {
      this.start := start;
      cursor, cursorHash := start - 1, None;
      blocks, events := map[], [];
      draws, tickets, claims := map[], map[], map[];
    }

    method Cursor() returns (n: int, hash: Option<Hash>)
      ensures n == cursor && hash == cursorHash
    {
      n, hash := cursor, cursorHash;
    }

    method BlockAt(n: int) returns (r: Result<Block>)
      ensures r == if n in blocks then Ok(blocks[n]) else Revert(NoRows)
    {
      r := if n in blocks then Ok(blocks[n]) else Revert(NoRows);
    }

    // The error, or None. On an error nothing has changed.
    method CommitBlock(b: Block, batch: seq<Event>) returns (err: Option<Error>)
      modifies this
      ensures match Commit(old(Value()), b, batch)
        case Revert(x) => err == Some(x) && Value() == old(Value())
        case Ok(db) => err == None && Value() == db
    {
      hide InsertAll;
      if b.number <= cursor {
        var stored := BlockAt(b.number);
        if stored.Revert? { return Some(stored.error); }
        if stored.value.hash != b.hash { return Some(ConflictingReplay); }
        return None;
      }
      if b.number != cursor + 1
        || (cursorHash.Some? && cursorHash.value != b.parentHash) { return Some(NoncontiguousBlock); }
      if b.number in blocks { return Some(ConstraintViolated); }
      var inserted := Insert(Ledger(events, Tables(draws, tickets, claims)), b, batch);
      if inserted.Revert? { return Some(inserted.error); }
      var rows, t := inserted.value.events, inserted.value.tables;
      blocks, events := blocks[b.number := b], rows;
      draws, tickets, claims := t.draws, t.tickets, t.claims;
      cursor, cursorHash := b.number, Some(b.hash);
      err := None;
    }

    // `select` is the database's answer to the query for the retained rows in order.
    method Rewind(ancestor: int, select: seq<Event> -> seq<Event>) returns (err: Option<Error>)
      modifies this
      ensures match Rewound(old(Value()), ancestor, select(KeptEvents(old(events), ancestor)))
        case Revert(x) => err == Some(x) && Value() == old(Value())
        case Ok(db) => err == None && Value() == db
    {
      hide ProjectAll;
      var kept := KeptEvents(events, ancestor);
      var keptBlocks := KeptBlocks(blocks, ancestor);
      var rows := select(kept);
      var replayed := Replay(rows);
      if replayed.Revert? { return Some(replayed.error); }
      var t := replayed.value;
      var hash: Option<Hash> := None;
      if ancestor >= start {
        if ancestor !in keptBlocks { return Some(NoRows); }
        hash := Some(keptBlocks[ancestor].hash);
      }
      blocks, events := keptBlocks, kept;
      draws, tickets, claims := t.draws, t.tickets, t.claims;
      cursor, cursorHash := ancestor, hash;
      err := None;
    }

    // `query` is the database's answer to the query for at most so many draws.
    method Read(mode: Mode, limit: nat, query: (Draws, Mode, nat) -> seq<View>) returns (r: Result<Snapshot>)
      requires limit >= 1
      ensures r == ReadWith(Value(), query(draws, mode, RowLimit(mode, limit)), limit)
    {
      var chainTime := 0;
      if cursor >= start {
        if cursor !in blocks { return Revert(NoRows); }
        chainTime := blocks[cursor].timestamp;
      }
      var rows := query(draws, mode, if mode.Past? then limit + 1 else 1);
      var views := RefreshRows(rows, chainTime);
      var next: Option<nat> := None;
      if |views| > limit {
        views := views[..limit];
        next := Some(views[limit - 1].id);
      }
      r := Ok(Snapshot(cursor, cursorHash, chainTime, views, next));
    }
  }
}
