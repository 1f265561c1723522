/** When a commit succeeds and what it adds, for any store that keeps its invariant and any batch. */
module CommitOutcomes {
  import opened Basics
  import opened Contract
  import opened Projection
  import opened Store
  import opened StoreTables

  // The events of a batch whose keys are not taken yet, each key once.
  function NewRows(rows: seq<Event>, events: seq<Event>): seq<Event> {
    if events == [] then []
    else
      var rest, e := NewRows(rows, events[..|events| - 1]), events[|events| - 1];
      if KeyTaken(rows + rest, e) then rest else rest + [e]
  }

  ghost predicate AllOf(b: Block, events: seq<Event>) {
    forall e :: e in events ==> e.blockNumber == b.number && e.blockHash == b.hash
  }

  // Nothing is added but events of the batch, and afterwards the key of each of them is taken.
  lemma {:induction false} NewRowsCover(rows: seq<Event>, events: seq<Event>)
    ensures forall e :: e in NewRows(rows, events) ==> e in events
    ensures forall e :: e in events ==> KeyTaken(rows + NewRows(rows, events), e)
    decreases |events|
  {
    hide KeyTaken;
    if events != [] {
      var rest, e := events[..|events| - 1], events[|events| - 1];
      NewRowsCover(rows, rest);
      var before, after := NewRows(rows, rest), NewRows(rows, events);
      assert events == rest + [e];
      if after != before {
        assert rows + after == (rows + before) + [e];
        LastTaken(rows + before, e);
      }
      forall x | x in events
        ensures KeyTaken(rows + after, x)
      {
        if x in rest && after != before {
          StillTaken(rows + before, e, x);
        }
      }
    }
  }

  lemma LastTaken(rows: seq<Event>, e: Event)
    ensures KeyTaken(rows + [e], e)
  {
    assert (rows + [e])[|rows|].SameKey(e);
  }

  lemma StillTaken(rows: seq<Event>, e: Event, x: Event)
    requires KeyTaken(rows, x)
    ensures KeyTaken(rows + [e], x)
  {
    var k :| 0 <= k < |rows| && rows[k].SameKey(x);
    assert (rows + [e])[k].SameKey(x);
  }

  // Inserting succeeds exactly if every event belongs to the block and the new ones project.
  lemma {:induction false} InsertExactly(g: Ledger, b: Block, events: seq<Event>)
    requires ProjectAll(g.events) == Ok(g.tables)
    ensures
      var t := ProjectAll(g.events + NewRows(g.events, events));
      && (InsertAll(g, b, events).Ok? <==> AllOf(b, events) && t.Ok?)
      && (InsertAll(g, b, events).Ok? ==>
        InsertAll(g, b, events).value == Ledger(g.events + NewRows(g.events, events), t.value))
    decreases |events|
  {
    hide ProjectAll, ProjectEvent, KeyTaken, AllOf;
    if events == [] {
      assert g.events + [] == g.events;
      NothingOf(b);
    } else {
      var rest, e := events[..|events| - 1], events[|events| - 1];
      InsertExactly(g, b, rest);
      var rows := g.events + NewRows(g.events, rest);
      AllOfLast(b, rest, e);
      assert events == rest + [e];
      AppendEvent(rows, e);
      assert rows + [e] == g.events + (NewRows(g.events, rest) + [e]);
    }
  }

  lemma NothingOf(b: Block)
    ensures AllOf(b, [])
  {}

  lemma AllOfLast(b: Block, rest: seq<Event>, e: Event)
    ensures AllOf(b, rest + [e]) <==> AllOf(b, rest) && e.blockNumber == b.number && e.blockHash == b.hash
  {
    assert e in rest + [e];
    assert forall x :: x in rest ==> x in rest + [e];
  }

  // A block that is stored with this hash is accepted again and changes nothing; otherwise it must be
  // the next one, its parent the block at the cursor, every event its own, and the new ones projectable.
  lemma CommitExactly(db: DB, b: Block, events: seq<Event>)
    requires StoreOk(db)
    ensures
      var r := Commit(db, b, events);
      var added := NewRows(db.events, events);
      && (r.Ok? <==>
        || (b.number in db.blocks && db.blocks[b.number].hash == b.hash)
        || (b.number == db.cursor + 1 && (db.cursorHash.Some? ==> b.parentHash == db.cursorHash.value)
            && AllOf(b, events) && ProjectAll(db.events + added).Ok?))
      && (r.Ok? && b.number in db.blocks ==> r.value == db)
      && (r.Ok? && b.number !in db.blocks ==>
        && r.value.start == db.start && r.value.cursor == b.number && r.value.cursorHash == Some(b.hash)
        && r.value.blocks == db.blocks[b.number := b] && r.value.events == db.events + added
        && Ok(r.value.tables) == ProjectAll(db.events + added))
  {
    StoredNumbers(db, b.number);
    assert ProjectAll(db.events) == Ok(db.tables);
    hide StoreOk, ProjectAll, InsertAll, AllOf;
    InsertExactly(Ledger(db.events, db.tables), b, events);
  }

  // The same log: block hash, transaction hash and log index agree.
  predicate SameLog(e: Event, f: Event) {
    e.blockHash == f.blockHash && e.txHash == f.txHash && e.logIndex == f.logIndex
  }

  // Whatever a fresh commit is given: each event's log is afterwards that of exactly one row.
  lemma LogsStoredOnce(db: DB, b: Block, events: seq<Event>, e: Event)
    requires StoreOk(db) && Commit(db, b, events).Ok? && b.number !in db.blocks
    ensures
      var rows := Commit(db, b, events).value.events;
      && (e in events ==> exists k :: 0 <= k < |rows| && SameLog(rows[k], e))
      && (forall i, j :: 0 <= i < j < |rows| ==> !SameLog(rows[i], rows[j]))
  {
    CommitExactly(db, b, events);
    NewRowsCover(db.events, events);
    CommitKeeps(db, b, events);
    UniqueKeys(Commit(db, b, events).value);
    hide StoreOk, NewRows, Commit;
    var rows := Commit(db, b, events).value.events;
    if e in events {
      var k :| 0 <= k < |rows| && rows[k].SameKey(e);
      assert SameLog(rows[k], e);
    }
  }

  lemma UniqueKeys(db: DB)
    requires StoreOk(db)
    ensures forall i, j :: 0 <= i < j < |db.events| ==> !db.events[i].SameKey(db.events[j])
  {
    hide ProjectAll;
  }

  // Every claim row cites the claim it was written for, and every claim has its row.
  lemma {:induction false} ClaimsCite(events: seq<Event>, key: (nat, Address, ClaimKind))
    requires ProjectAll(events).Ok?
    ensures
      var claims := ProjectAll(events).value.claims;
      && (key in claims ==> exists e :: e in events && ClaimOf(e, key) && Cites(claims[key], e))
      && (forall e :: e in events && ClaimOf(e, key) ==> key in claims)
    decreases |events|
  {
    if events != [] {
      var rest, e := events[..|events| - 1], events[|events| - 1];
      ClaimsCite(rest, key);
      assert events == rest + [e];
      ProjectedClaims(ProjectAll(rest).value, e, key);
      hide ProjectEvent, ClaimOf, Cites;
      var before, after := ProjectAll(rest).value.claims, ProjectAll(events).value.claims;
      if key in after && !ClaimOf(e, key) {
        var x :| x in rest && ClaimOf(x, key) && Cites(before[key], x);
        assert x in events;
      } else if key in after {
        assert e in events;
      }
    }
  }

  // The row names the transaction of the event and its amount.
  predicate Cites(row: ClaimRow, e: Event) {
    && (e.payload.PrizeClaimed? || e.payload.RefundClaimed?)
    && row.amount == e.payload.amount && row.txHash == e.txHash
  }

  // The claim that a prize or refund event reports: its draw, its wallet and its kind.
  predicate ClaimOf(e: Event, key: (nat, Address, ClaimKind)) {
    match e.payload
    case PrizeClaimed(id, winner, _, _, _) => key == (id, winner, PrizeKind)
    case RefundClaimed(id, who, _) => key == (id, who, RefundKind)
    case _ => false
  }

  lemma ProjectedClaims(t: Tables, e: Event, key: (nat, Address, ClaimKind))
    requires ProjectEvent(t, e).Ok?
    ensures
      var claims := ProjectEvent(t, e).value.claims;
      && (ClaimOf(e, key) ==> key in claims && Cites(claims[key], e))
      && (!ClaimOf(e, key) ==> (key in claims <==> key in t.claims) && (key in claims ==> claims[key] == t.claims[key]))
  {
    hide Apply, UpsertTickets;
  }

  lemma StoredNumbers(db: DB, n: int)
    requires StoreOk(db)
    ensures n in db.blocks <==> db.start <= n <= db.cursor
    ensures db.cursor >= db.start - 1
  {
    hide EventsOk, ProjectAll;
  }
}
