/**
 A block's own events, given to the store in another order than that of the chain: they are either
 refused or lead to the same tables.
 */
module BlockOrder {
  import opened Basics
  import opened Contract
  import opened Projection
  import opened Store
  import opened StoreTables
  import opened EventOrder
  import opened Chain
  import opened IndexingSafety

  // The events in the order in which each is first met.
  function Distinct(events: seq<Event>): seq<Event> {
    if events == [] then []
    else
      var rest, e := Distinct(events[..|events| - 1]), events[|events| - 1];
      if e in rest then rest else rest + [e]
  }

  lemma {:induction false} DistinctOnce(events: seq<Event>)
    ensures NoRepeats(Distinct(events)) && forall e :: e in Distinct(events) <==> e in events
  {
    if events != [] {
      DistinctOnce(events[..|events| - 1]);
      assert events == events[..|events| - 1] + [events[|events| - 1]];
    }
  }

  // Events of one block, of which no two share a key.
  ghost predicate OfBlock(b: Block, events: seq<Event>) {
    && (forall e :: e in events ==> e.blockNumber == b.number && e.blockHash == b.hash)
    && (forall e, f :: e in events && f in events && e.SameKey(f) ==> e == f)
  }

  // Inserting a batch is projecting its distinct events after those that are there.
  lemma {:induction false} InsertDistinct(g: Ledger, b: Block, events: seq<Event>)
    requires ProjectAll(g.events) == Ok(g.tables) && OfBlock(b, events)
    requires forall e :: e in g.events ==> e.blockHash != b.hash
    ensures InsertAll(g, b, events) == match ProjectAll(g.events + Distinct(events))
      case Ok(t) => Ok(Ledger(g.events + Distinct(events), t))
      case Revert(x) => Revert(x)
  {
    hide ProjectAll, ProjectEvent, KeyTaken;
    if events == [] {
      assert g.events + [] == g.events;
    } else {
      var rest, e := events[..|events| - 1], events[|events| - 1];
      assert forall x :: x in rest ==> x in events;
      InsertDistinct(g, b, rest);
      DistinctOnce(rest);
      var rows := g.events + Distinct(rest);
      TakenIff(g.events, Distinct(rest), e, b);
      AppendEvent(rows, e);
      assert rows + [e] == g.events + (Distinct(rest) + [e]);
    }
  }

  lemma TakenIff(events: seq<Event>, rows: seq<Event>, e: Event, b: Block)
    requires e.blockHash == b.hash && (forall x :: x in events ==> x.blockHash != b.hash)
    requires forall x :: x in rows && x.SameKey(e) ==> x == e
    ensures KeyTaken(events + rows, e) <==> e in rows
  {
    if e in rows {
      var k :| 0 <= k < |rows| && rows[k] == e;
      TakenAt(events + rows, e, |events| + k);
    } else {
      forall k | 0 <= k < |events + rows|
        ensures !(events + rows)[k].SameKey(e)
      {
        if k < |events| {
          assert events[k] in events;
        } else {
          assert (events + rows)[k] in rows;
        }
      }
    }
  }

  /******* The same events without repetition are a permutation *******/

  lemma {:induction false} SameElements(a: seq<Event>, b: seq<Event>)
    requires NoRepeats(a) && NoRepeats(b) && forall e :: e in a <==> e in b
    ensures multiset(a) == multiset(b)
  {
    forall e
      ensures multiset(a)[e] == multiset(b)[e]
    {
      CountIn(a, e);
      CountIn(b, e);
    }
  }

  lemma CountIn(a: seq<Event>, e: Event)
    requires NoRepeats(a)
    ensures multiset(a)[e] == if e in a then 1 else 0
  {
    if e in a {
      var p :| 0 <= p < |a| && a[p] == e;
      assert a == a[..p] + [a[p]] + a[p + 1..];
      assert multiset(a) == multiset(a[..p]) + multiset{a[p]} + multiset(a[p + 1..]);
      assert a[p] !in a[..p] && a[p] !in a[p + 1..];
    }
  }

  lemma CausalJoin(before: seq<Event>, rows: seq<Event>, batch: seq<Event>)
    requires Causal(before + rows) && forall e :: e in batch <==> e in rows
    ensures Causal(before + batch) <==> Causal(batch)
  {
    if Causal(batch) {
      forall i, j | 0 <= i < j < |before + batch| && Related((before + batch)[i], (before + batch)[j])
        ensures Precedes((before + batch)[i].payload, (before + batch)[j].payload)
      {
        if j < |before| {
          assert (before + rows)[i] == before[i] && (before + rows)[j] == before[j];
        } else if i < |before| {
          assert batch[j - |before|] in rows;
          var k :| 0 <= k < |rows| && rows[k] == batch[j - |before|];
          assert (before + rows)[i] == before[i] && (before + rows)[|before| + k] == rows[k];
        } else {
          assert Related(batch[i - |before|], batch[j - |before|]);
        }
      }
    }
    if Causal(before + batch) {
      forall i, j | 0 <= i < j < |batch| && Related(batch[i], batch[j])
        ensures Precedes(batch[i].payload, batch[j].payload)
      {
        assert (before + batch)[|before| + i] == batch[i] && (before + batch)[|before| + j] == batch[j];
      }
    }
  }

  /******* Committing them *******/

  lemma NextCommit(db: DB, b: Block, events: seq<Event>)
    requires StoreOk(db) && b.number == db.cursor + 1 && (db.cursorHash.Some? ==> db.cursorHash.value == b.parentHash)
    ensures Commit(db, b, events) == match InsertAll(Ledger(db.events, db.tables), b, events)
      case Revert(x) => Revert(x)
      case Ok(g) => Ok(DB(db.start, b.number, Some(b.hash), db.blocks[b.number := b], g.events, g.tables))
  {
    hide InsertAll, EventsOk, ProjectAll;
  }

  lemma {:induction false} OrderedNoRepeats(events: seq<Event>)
    requires Ordered(events)
    ensures NoRepeats(events)
  {
    forall i, j | 0 <= i < j < |events|
      ensures events[i] != events[j]
    {
      assert events[i].Before(events[j]);
    }
  }

  // What the true events of the next block insert, in any order.
  lemma AnyOrderInsert(net: Net, db: DB, b: Block, events: seq<Event>)
    requires ValidNet(net) && Faithful(net, db) && BlockTrue(net, b) && b.number == db.cursor + 1
    requires net.block(b.hash).number >= net.start
    requires db.cursorHash.Some? ==> b.parentHash == db.cursorHash.value
    requires forall e :: e in events <==> e in BlockEvents(net, b.hash)
    ensures
      var g := InsertAll(Ledger(db.events, db.tables), b, events);
      && ProjectAll(BranchEvents(net, b.hash)).Ok?
      && (g.Ok? <==> Causal(Distinct(events)))
      && (g.Ok? ==>
        && multiset(g.value.events) == multiset(BranchEvents(net, b.hash))
        && Ok(g.value.tables) == ProjectAll(BranchEvents(net, b.hash)))
  {
    var rows, given := BlockEvents(net, b.hash), Distinct(events);
    NextBranch(net, db, b.hash);
    BlockOrdered(net, b.hash);
    OtherHashes(net, db, b.hash);
    BranchProjects(net, b.hash);
    BranchOrdered(net, b.hash);
    assert ProjectAll(db.events) == Ok(db.tables);
    hide *;
    DistinctOnce(events);
    KeyedBlock(b, events, rows);
    InsertDistinct(Ledger(db.events, db.tables), b, events);
    OrderedNoRepeats(rows);
    OrderedNoRepeats(BranchEvents(net, b.hash));
    SameElements(rows, given);
    assert multiset(db.events + rows) == multiset(db.events + given);
    ReplayIffCausal(BranchEvents(net, b.hash), db.events + given);
    ProjectForces(BranchEvents(net, b.hash));
    CausalJoin(db.events, rows, given);
  }

  lemma OneKey(rows: seq<Event>, i: nat, j: nat)
    requires i < |rows| && j < |rows| && forall x, y :: 0 <= x < y < |rows| ==> !rows[x].SameKey(rows[y])
    ensures rows[i].SameKey(rows[j]) ==> i == j
  {
    if j < i {
      assert !rows[j].SameKey(rows[i]);
    }
  }

  lemma KeyedBlock(b: Block, events: seq<Event>, rows: seq<Event>)
    requires forall e :: e in events <==> e in rows
    requires forall e :: e in rows ==> e.blockNumber == b.number && e.blockHash == b.hash
    requires forall i, j :: 0 <= i < j < |rows| ==> !rows[i].SameKey(rows[j])
    ensures OfBlock(b, events)
  {
    forall e, f | e in events && f in events && e.SameKey(f)
      ensures e == f
    {
      var i :| 0 <= i < |rows| && rows[i] == e;
      var j :| 0 <= j < |rows| && rows[j] == f;
      OneKey(rows, i, j);
    }
  }

  // The events of the next block of the branch, in any order and with any repetitions: the commit
  // succeeds exactly if their first occurrences are in causal order, and then it leaves what the
  // commit of the sorted batch leaves, apart from the order of the rows.
  lemma AnyOrderCommit(net: Net, db: DB, h: Hash, events: seq<Event>, sorted: seq<Event>)
    requires ValidNet(net) && Faithful(net, db) && net.block(h).number == db.cursor + 1 && db.cursor + 1 >= net.start
    requires db.cursorHash.Some? ==> net.block(h).parent == db.cursorHash.value
    requires forall e :: e in events <==> e in BlockEvents(net, h)
    requires forall e :: e in sorted <==> e in BlockEvents(net, h)
    requires forall i, j :: 0 <= i < j < |sorted| ==> !sorted[j].Before(sorted[i])
    ensures
      var b := Block(db.cursor + 1, h, net.block(h).parent, net.block(h).timestamp);
      var given, ordered := Commit(db, b, events), Commit(db, b, sorted);
      && ordered.Ok? && Faithful(net, ordered.value)
      && (given.Ok? <==> Causal(Distinct(events)))
      && (given.Ok? ==>
        && given.value == ordered.value.(events := given.value.events)
        && multiset(given.value.events) == multiset(ordered.value.events))
  {
    var b := Block(db.cursor + 1, h, net.block(h).parent, net.block(h).timestamp);
    assert BlockTrue(net, b) && StoreOk(db);
    hide *;
    FaithfulCommit(net, db, h, sorted);
    TrueInsert(net, db, b, sorted);
    AnyOrderInsert(net, db, b, events);
    NextCommit(db, b, events);
    NextCommit(db, b, sorted);
  }
}
