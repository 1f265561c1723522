/**
 Whatever happens between the calls of a pass, the store holds the contract's draws at the block
 hash it claims to be at.
 */
module IndexingSafety {
  import opened Basics
  import opened Contract
  import opened Invariants
  import opened Projection
  import opened Refinement
  import opened Store
  import opened StoreTables
  import opened Chain
  import opened Indexing

  /******* An honest node *******/

  // A hash determines its header.
  function TrueHeader(net: Net, h: Hash): Header {
    Header(h, net.block(h).parent, net.block(h).timestamp)
  }

  ghost predicate Shows(net: Net, h: Hash, l: Log, e: Event) {
    Canonical(l, net.block(h).number, TrueHeader(net, h)) && l.payload.Some? && Decode(l, TrueHeader(net, h)) == e
  }

  // The logs of a block: in any order, with repetitions, possibly among others that the indexer rejects.
  ghost predicate HonestLogs(net: Net, h: Hash, logs: seq<Log>)
    requires ValidNet(net) && net.block(h).number >= net.start
  {
    && (forall l, e :: l in logs && Shows(net, h, l, e) ==> e in BlockEvents(net, h))
    && (forall e :: e in BlockEvents(net, h) ==> exists l :: l in logs && Shows(net, h, l, e))
  }

  // Each answer by itself tells the truth about the hashes it mentions; two answers need not
  // speak about the same chain.
  ghost predicate HonestAnswer(net: Net, a: Answer)
    requires ValidNet(net)
  {
    && (forall n :: n in a.headers ==>
       net.block(a.headers[n].hash).number == n && a.headers[n] == TrueHeader(net, a.headers[n].hash))
    && (forall h :: h in a.logs && net.block(h).number >= net.start ==> HonestLogs(net, h, a.logs[h]))
  }

  ghost predicate Honest(net: Net, out: Outside)
    requires ValidNet(net)
  {
    Works(out) && forall m :: HonestAnswer(net, out.at(m))
  }

  /******* A faithful store *******/

  ghost predicate BlockTrue(net: Net, b: Block) {
    net.block(b.hash).number == b.number && net.block(b.hash).parent == b.parentHash
        && net.block(b.hash).timestamp == b.timestamp
  }

  ghost function EventsAt(net: Net, tip: Option<Hash>): seq<Event>
    requires ValidNet(net)
  {
    match tip
    case None => []
    case Some(h) => BranchEvents(net, h)
  }

  ghost predicate Faithful(net: Net, db: DB)
    requires ValidNet(net)
  {
    && StoreOk(db) && db.start == net.start
    && (forall n :: n in db.blocks ==> BlockTrue(net, db.blocks[n]))
    && db.events == EventsAt(net, db.cursorHash)
  }

  lemma OpenedFaithful(net: Net)
    requires ValidNet(net)
    ensures Faithful(net, Opened(net.start))
  {}

  lemma FaithfulOrdered(net: Net, db: DB)
    requires ValidNet(net) && Faithful(net, db)
    ensures Ordered(db.events)
  {
    hide StoreOk, BranchEvents, ValidNet;
    if db.cursorHash.Some? {
      BranchOrdered(net, db.cursorHash.value);
    }
  }

  /******* Rewinding *******/

  lemma TipBlock(net: Net, db: DB)
    requires ValidNet(net) && Faithful(net, db) && db.cursor >= db.start
    ensures
      var h := db.blocks[db.cursor].hash;
      && db.cursorHash == Some(h) && net.block(h).number == db.cursor
      && net.block(h).parent == db.blocks[db.cursor].parentHash
      && (db.cursor > db.start ==> db.blocks[db.cursor].parentHash == db.blocks[db.cursor - 1].hash)
  {
    hide BranchEvents, ProjectAll, ValidNet, EventsOk;
    assert BlockTrue(net, db.blocks[db.cursor]);
  }

  lemma Unfold(net: Net, h: Hash)
    requires ValidNet(net) && net.block(h).number >= net.start
    ensures BranchEvents(net, h) ==
      (if net.block(h).number == net.start then [] else BranchEvents(net, net.block(h).parent)) + BlockEvents(net, h)
  {
    hide BlockEvents, StateAt, StateBefore;
  }

  lemma ParentNumber(net: Net, h: Hash)
    requires ValidNet(net) && net.block(h).number > net.start
    ensures net.block(net.block(h).parent).number == net.block(h).number - 1
  {}

  lemma KeptBelow(all: seq<Event>, below: seq<Event>, events: seq<Event>, n: int)
    requires all == below + events && Ordered(all)
    requires forall k :: 0 <= k < |below| ==> below[k].blockNumber <= n - 1
    requires forall e :: e in events ==> e.blockNumber == n
    ensures KeptEvents(all, n - 1) == below
  {
    OrderedNumbers(all);
    hide Ordered, KeptEvents;
    KeptUpTo(all, n - 1, |below|);
    assert all[..|below|] == below;
  }

  lemma AtFields(db: DB, a: int)
    requires StoreOk(db) && db.start - 1 <= a <= db.cursor
    ensures
      var db1 := At(db, a);
      && StoreOk(db1) && db1.start == db.start && db1.cursor == a
      && db1.cursorHash == (if a >= db.start then Some(db.blocks[a].hash) else None)
      && db1.blocks == KeptBlocks(db.blocks, a) && db1.events == KeptEvents(db.events, a)
  {
    AtIsOk(db, a);
    hide ProjectAll, KeptEvents, EventsOk;
  }

  // One block back, the retained events are those of the parent's branch.
  lemma KeptByParent(net: Net, h: Hash)
    requires ValidNet(net) && net.block(h).number >= net.start
    ensures KeptEvents(BranchEvents(net, h), net.block(h).number - 1) ==
      if net.block(h).number == net.start then [] else BranchEvents(net, net.block(h).parent)
  {
    hide *;
    if net.block(h).number == net.start {
      KeptByParentOf(net, h, []);
    } else {
      KeptByParentOf(net, h, BranchEvents(net, net.block(h).parent));
    }
  }

  lemma KeptByParentOf(net: Net, h: Hash, below: seq<Event>)
    requires ValidNet(net) && net.block(h).number >= net.start
    requires below == if net.block(h).number == net.start then [] else BranchEvents(net, net.block(h).parent)
    ensures KeptEvents(BranchEvents(net, h), net.block(h).number - 1) == below
  {
    hide *;
    Unfold(net, h);
    BlockOrdered(net, h);
    BranchOrdered(net, h);
    EarlierBelow(net, h, below);
    KeptBelow(BranchEvents(net, h), below, BlockEvents(net, h), net.block(h).number);
  }

  lemma EarlierBelow(net: Net, h: Hash, below: seq<Event>)
    requires ValidNet(net) && net.block(h).number >= net.start
    requires below == if net.block(h).number == net.start then [] else BranchEvents(net, net.block(h).parent)
    ensures forall k :: 0 <= k < |below| ==> below[k].blockNumber <= net.block(h).number - 1
  {
    hide ValidNet, BranchEvents, Ordered;
    if net.block(h).number > net.start {
      ParentNumber(net, h);
      BranchOrdered(net, net.block(h).parent);
    }
  }

  lemma OrderedNumbers(events: seq<Event>)
    requires Ordered(events)
    ensures forall i, j :: 0 <= i < j < |events| ==> events[i].blockNumber <= events[j].blockNumber
  {
    assert forall i, j :: 0 <= i < j < |events| ==> events[i].Before(events[j]);
  }

  lemma AtStep(net: Net, db: DB)
    requires ValidNet(net) && Faithful(net, db) && db.cursor >= db.start
    ensures Faithful(net, At(db, db.cursor - 1))
  {
    hide BranchEvents, At, ProjectAll, ValidNet, KeptEvents, EventsOk;
    TipBlock(net, db);
    AtFields(db, db.cursor - 1);
    KeptByParent(net, db.cursorHash.value);
    FewerBlocks(net, db, At(db, db.cursor - 1), db.cursor - 1);
  }

  lemma FewerBlocks(net: Net, db: DB, db1: DB, a: int)
    requires ValidNet(net) && Faithful(net, db) && StoreOk(db1) && db1.start == db.start
    requires db1.blocks == KeptBlocks(db.blocks, a) && db1.events == EventsAt(net, db1.cursorHash)
    ensures Faithful(net, db1)
  {
    hide BranchEvents, StoreOk, ValidNet;
  }

  lemma {:induction false} AtFaithful(net: Net, db: DB, ancestor: int)
    requires ValidNet(net) && Faithful(net, db) && db.start - 1 <= ancestor <= db.cursor
    ensures Faithful(net, At(db, ancestor))
    decreases db.cursor - ancestor
  {
    assert StoreOk(db);
    hide StoreOk, ValidNet, Faithful, At;
    if ancestor == db.cursor {
      AtCursor(db);
    } else {
      CursorAboveStart(db);
      AtStep(net, db);
      RewindsCollapse(db, db.cursor - 1, ancestor);
      AtFields(db, db.cursor - 1);
      AtFaithful(net, At(db, db.cursor - 1), ancestor);
    }
  }

  lemma CursorAboveStart(db: DB)
    requires StoreOk(db)
    ensures db.start - 1 <= db.cursor
  {}

  /******* Committing *******/

  // A batch in table order, with repetitions, is inserted as the rows it is made of.
  lemma {:induction false} SortedInsert(g: Ledger, b: Block, events: seq<Event>, rows: seq<Event>,
                                        k: nat) returns (m: nat)
    requires ProjectAll(g.events) == Ok(g.tables) && ProjectAll(g.events + rows).Ok?
    requires forall e :: e in g.events ==> e.blockHash != b.hash
    requires forall e :: e in rows ==> e.blockNumber == b.number && e.blockHash == b.hash
    requires Ordered(rows) && forall i, j :: 0 <= i < j < |rows| ==> !rows[i].SameKey(rows[j])
    requires forall i, j :: 0 <= i < j < |events| ==> !events[j].Before(events[i])
    requires forall e :: e in events <==> e in rows
    requires k <= |events|
    ensures m <= |rows| && (forall e :: e in events[..k] <==> e in rows[..m])
    ensures ProjectAll(g.events + rows[..m]).Ok?
    ensures InsertAll(g, b, events[..k]) == Ok(Ledger(g.events + rows[..m], ProjectAll(g.events + rows[..m]).value))
    decreases k
  {
    hide ProjectAll;
    if k == 0 {
      m := 0;
      assert g.events + rows[..0] == g.events;
    } else {
      m := SortedInsert(g, b, events, rows, k - 1);
      m := SortedInsertOne(g, b, events, rows, k, m);
    }
  }

  lemma NotInPrefix(rows: seq<Event>, m: nat)
    requires Ordered(rows)
    ensures m < |rows| ==> rows[m] !in rows[..m]
  {
    if m < |rows| {
      forall a | 0 <= a < m
        ensures rows[a] != rows[m]
      {
        assert rows[a].Before(rows[m]);
      }
    }
  }

  lemma EarlierIn(events: seq<Event>, i: nat, k: nat)
    ensures i < k <= |events| ==> events[i] in events[..k]
  {
    assert i < k <= |events| ==> events[..k][i] == events[i];
  }

  lemma EarlierBefore(rows: seq<Event>, m: nat, j: nat)
    requires Ordered(rows)
    ensures m < j < |rows| ==> rows[m].Before(rows[j])
  {}

  lemma NextRow(events: seq<Event>, rows: seq<Event>, k: nat, m: nat)
    requires Ordered(rows) && forall i, j :: 0 <= i < j < |events| ==> !events[j].Before(events[i])
    requires forall e :: e in events <==> e in rows
    requires 0 < k <= |events| && m <= |rows| && (forall e :: e in events[..k - 1] <==> e in rows[..m])
    ensures events[k - 1] in rows[..m] || (m < |rows| && events[k - 1] == rows[m])
  {
    var e := events[k - 1];
    assert e in rows;
    var j :| 0 <= j < |rows| && rows[j] == e;
    if j < m {
      assert e == rows[..m][j];
    } else {
      NotInPrefix(rows, m);
      assert rows[m] in events;
      var i :| 0 <= i < |events| && events[i] == rows[m];
      EarlierIn(events, i, k - 1);
      assert i >= k - 1;
      assert !events[i].Before(events[k - 1]);
      EarlierBefore(rows, m, j);
    }
  }

  lemma SortedInsertOne(g: Ledger, b: Block, events: seq<Event>, rows: seq<Event>, k: nat, m: nat) returns (m1: nat)
    requires ProjectAll(g.events + rows).Ok?
    requires forall e :: e in g.events ==> e.blockHash != b.hash
    requires forall e :: e in rows ==> e.blockNumber == b.number && e.blockHash == b.hash
    requires Ordered(rows) && forall i, j :: 0 <= i < j < |rows| ==> !rows[i].SameKey(rows[j])
    requires forall i, j :: 0 <= i < j < |events| ==> !events[j].Before(events[i])
    requires forall e :: e in events <==> e in rows
    requires 0 < k <= |events| && m <= |rows| && (forall e :: e in events[..k - 1] <==> e in rows[..m])
    requires ProjectAll(g.events + rows[..m]).Ok?
    requires InsertAll(g, b, events[..k - 1]) ==
      Ok(Ledger(g.events + rows[..m], ProjectAll(g.events + rows[..m]).value))
    ensures m1 <= |rows| && (forall e :: e in events[..k] <==> e in rows[..m1])
    ensures ProjectAll(g.events + rows[..m1]).Ok?
    ensures InsertAll(g, b, events[..k]) == Ok(Ledger(g.events + rows[..m1], ProjectAll(g.events + rows[..m1]).value))
  {
    hide ProjectAll, InsertAll, KeyTaken, ProjectEvent;
    var e := events[k - 1];
    NextRow(events, rows, k, m);
    assert events[..k] == events[..k - 1] + [e];
    InsertStep(g, b, events, k);
    assert e in rows;
    if e in rows[..m] {
      m1 := m;
      var i :| 0 <= i < m && rows[..m][i] == e;
      TakenAt(g.events + rows[..m], e, |g.events| + i);
    } else {
      m1 := m + 1;
      FreeKey(g.events, rows, m, b);
      assert rows[..m + 1] == rows[..m] + [e];
      assert g.events + rows[..m + 1] == g.events + rows[..m] + [e];
      AppendEvent(g.events + rows[..m], e);
      assert (g.events + rows)[..|g.events| + m + 1] == g.events + rows[..m + 1];
      ProjectPrefix(g.events + rows, |g.events| + m + 1);
    }
  }

  lemma TakenAt(events: seq<Event>, e: Event, i: nat)
    requires i < |events| && events[i] == e
    ensures KeyTaken(events, e)
  {}

  lemma FreeKey(events: seq<Event>, rows: seq<Event>, m: nat, b: Block)
    requires m < |rows| && rows[m].blockHash == b.hash
    requires forall e :: e in events ==> e.blockHash != b.hash
    requires forall i, j :: 0 <= i < j < |rows| ==> !rows[i].SameKey(rows[j])
    ensures !KeyTaken(events + rows[..m], rows[m])
  {
    forall k | 0 <= k < |events + rows[..m]|
      ensures !(events + rows[..m])[k].SameKey(rows[m])
    {
      if k < |events| {
        assert events[k] in events;
      }
    }
  }

  lemma NextBranch(net: Net, db: DB, h: Hash)
    requires ValidNet(net) && Faithful(net, db) && net.block(h).number == db.cursor + 1
    requires db.cursorHash.Some? ==> net.block(h).parent == db.cursorHash.value
    ensures db.start - 1 <= db.cursor && net.start == db.start
    ensures BranchEvents(net, h) == db.events + BlockEvents(net, h)
  {
    assert db.start - 1 <= db.cursor;
    Unfold(net, h);
    hide ValidNet, BranchEvents, BlockEvents, EventsOk, ProjectAll;
  }

  lemma FaithfulNext(net: Net, db: DB, db1: DB, b: Block)
    requires ValidNet(net) && Faithful(net, db) && StoreOk(db1) && BlockTrue(net, b)
    requires db1.start == db.start && db1.blocks == db.blocks[b.number := b] && db1.cursorHash == Some(b.hash)
    requires db1.events == BranchEvents(net, b.hash)
    ensures Faithful(net, db1)
  {
    hide ValidNet, BranchEvents, StoreOk;
  }

  // Inserting the true events of the next block gives the rows of the longer branch.
  lemma TrueInsert(net: Net, db: DB, b: Block, events: seq<Event>)
    requires ValidNet(net) && Faithful(net, db) && BlockTrue(net, b) && b.number == db.cursor + 1
    requires db.cursorHash.Some? ==> b.parentHash == db.cursorHash.value
    requires net.block(b.hash).number >= net.start
    requires forall e :: e in events <==> e in BlockEvents(net, b.hash)
    requires forall i, j :: 0 <= i < j < |events| ==> !events[j].Before(events[i])
    ensures ProjectAll(BranchEvents(net, b.hash)).Ok?
    ensures InsertAll(Ledger(db.events, db.tables), b, events) ==
      Ok(Ledger(BranchEvents(net, b.hash), ProjectAll(BranchEvents(net, b.hash)).value))
  {
    var rows := BlockEvents(net, b.hash);
    NextBranch(net, db, b.hash);
    BlockOrdered(net, b.hash);
    OtherHashes(net, db, b.hash);
    BranchProjects(net, b.hash);
    assert ProjectAll(db.events) == Ok(db.tables);
    hide ValidNet, BranchEvents, BlockEvents, ProjectAll, InsertAll, Faithful, Mirror, Inv, Projected;
    var m := SortedInsert(Ledger(db.events, db.tables), b, events, rows, |events|);
    assert events[..|events|] == events;
    AllRows(events, rows, m);
    assert rows[..m] == rows;
  }

  // Committing the true events of the next block succeeds and keeps the store faithful.
  lemma FaithfulCommit(net: Net, db: DB, h: Hash, events: seq<Event>)
    requires ValidNet(net) && Faithful(net, db) && net.block(h).number == db.cursor + 1
    requires net.block(h).number >= net.start
    requires db.cursorHash.Some? ==> net.block(h).parent == db.cursorHash.value
    requires forall e :: e in events <==> e in BlockEvents(net, h)
    requires forall i, j :: 0 <= i < j < |events| ==> !events[j].Before(events[i])
    ensures
      var b := Block(db.cursor + 1, h, net.block(h).parent, net.block(h).timestamp);
      Commit(db, b, events).Ok? && Faithful(net, Commit(db, b, events).value)
  {
    var b := Block(db.cursor + 1, h, net.block(h).parent, net.block(h).timestamp);
    TrueInsert(net, db, b, events);
    Uncommitted(db, db.cursor + 1);
    hide ValidNet, BranchEvents, BlockEvents, ProjectAll, InsertAll, Faithful, StoreOk;
    CommitKeeps(db, b, events);
    FaithfulNext(net, db, Commit(db, b, events).value, b);
  }

  lemma Uncommitted(db: DB, n: int)
    requires StoreOk(db) && n > db.cursor
    ensures n !in db.blocks
  {}

  lemma AllRows(events: seq<Event>, rows: seq<Event>, m: nat)
    requires Ordered(rows) && m <= |rows|
    requires forall e :: e in rows ==> e in events
    requires forall e :: e in events ==> e in rows[..m]
    ensures m == |rows|
  {
    NotInPrefix(rows, m);
    EarlierIn(rows, m, |rows|);
    assert rows[..|rows|] == rows;
  }

  lemma OtherHashes(net: Net, db: DB, h: Hash)
    requires ValidNet(net) && Faithful(net, db) && net.block(h).number == db.cursor + 1
    ensures forall e :: e in db.events ==> e.blockHash != h
  {
    hide ProjectAll, ValidNet, EventsAt;
    forall e | e in db.events
      ensures e.blockHash != h
    {
      var k :| 0 <= k < |db.events| && db.events[k] == e;
      assert EventOk(db, db.events[k]);
      assert BlockTrue(net, db.blocks[e.blockNumber]);
    }
  }

  lemma TracksFold(c: Config, w: World)
    requires Tracks(c, w, map[])
    ensures Fold(w.log) == Ok(Projected(c, w.lot))
  {
    hide Fold, Projected;
    assert Projected(c, w.lot) + map[] == Projected(c, w.lot);
  }

  lemma BranchProjects(net: Net, h: Hash)
    requires ValidNet(net)
    ensures ProjectAll(BranchEvents(net, h)).Ok?
    ensures ProjectAll(BranchEvents(net, h)).value.draws == Projected(net.c, StateAt(net, h).lot)
    ensures Mirror(ProjectAll(BranchEvents(net, h)).value)
  {
    assert Grounded(net);
    hide *;
    BranchLog(net, h);
    StateTracks(net, h);
    TracksFold(net.c, StateAt(net, h));
    TablesFollowFold(BranchEvents(net, h));
  }

  /******* Passes *******/

  lemma {:induction false} DecodedEach(logs: seq<Log>, next: int, h: Header)
    requires DecodeAll(logs, next, h).Ok?
    ensures |DecodeAll(logs, next, h).value| == |logs|
    ensures forall k :: 0 <= k < |logs| ==>
      Canonical(logs[k], next, h) && logs[k].payload.Some? && DecodeAll(logs, next, h).value[k] == Decode(logs[k], h)
  {
    if logs != [] {
      DecodedEach(logs[..|logs| - 1], next, h);
    }
  }

  // What an honest node's logs decode to, sorted: the block's events in table order.
  lemma DecodedEvents(net: Net, h: Hash, given: seq<Log>, logs: seq<Log>)
    requires ValidNet(net) && net.block(h).number >= net.start && HonestLogs(net, h, given) && IsSorting(logs, given)
    requires DecodeAll(logs, net.block(h).number, TrueHeader(net, h)).Ok?
    ensures
      var events := DecodeAll(logs, net.block(h).number, TrueHeader(net, h)).value;
      && (forall e :: e in events <==> e in BlockEvents(net, h))
      && (forall i, j :: 0 <= i < j < |events| ==> !events[j].Before(events[i]))
  {
    var next, header := net.block(h).number, TrueHeader(net, h);
    DecodedEach(logs, next, header);
    hide ValidNet, BlockEvents, StateAt, DecodeAll, TrueHeader;
    var events := DecodeAll(logs, next, header).value;
    forall e | e in events
      ensures e in BlockEvents(net, h)
    {
      var k :| 0 <= k < |events| && events[k] == e;
      assert logs[k] in multiset(logs);
      assert logs[k] in given && Shows(net, h, logs[k], e);
    }
    forall e | e in BlockEvents(net, h)
      ensures e in events
    {
      var l :| l in given && Shows(net, h, l, e);
      assert l in multiset(given);
      assert l in logs;
      var k :| 0 <= k < |logs| && logs[k] == l;
      assert events[k] == e;
    }
  }

  lemma ScanBlockFaithful(net: Net, out: Outside, db: DB)
    requires ValidNet(net) && Honest(net, out) && Faithful(net, db) && ScanBlock(out, db).Ok?
    ensures Faithful(net, ScanBlock(out, db).value)
    ensures ScanBlock(out, db).value.cursor == db.cursor + 1
  {
    var next := db.cursor + 1;
    var header := out.at(Fetch(next)).headers[next];
    var h := header.hash;
    assert HonestAnswer(net, out.at(Fetch(next))) && HonestAnswer(net, out.at(FetchLogs(next)));
    var given := out.at(FetchLogs(next)).logs[h];
    assert Faithful(net, db) && db.start - 1 <= db.cursor;
    assert header == TrueHeader(net, h) && HonestLogs(net, h, given) && IsSorting(out.sort(given), given);
    hide ValidNet, Honest, HonestAnswer, HonestLogs, Faithful, Commit, BlockEvents, StateAt, DecodeAll, IsSorting;
    DecodedEvents(net, h, given, out.sort(given));
    FaithfulCommit(net, db, h, DecodeAll(out.sort(given), next, header).value);
    CommittedAt(db, Block(next, h, header.parentHash, header.timestamp),
        DecodeAll(out.sort(given), next, header).value);
  }

  lemma CommittedAt(db: DB, b: Block, events: seq<Event>)
    requires b.number > db.cursor && Commit(db, b, events).Ok?
    ensures Commit(db, b, events).value.cursor == b.number
  {
    hide InsertAll;
  }

  lemma {:induction false} ScanFaithful(net: Net, out: Outside, db: DB, s: Health, safe: int, left: nat)
    requires ValidNet(net) && Honest(net, out) && Faithful(net, db)
    ensures Faithful(net, Scan(out, db, s, safe, left).db)
    decreases left
  {
    hide ValidNet, Honest, Faithful, ScanBlock;
    if db.cursor < safe && left != 0 && ScanBlock(out, db).Ok? {
      ScanBlockFaithful(net, out, db);
      var db1 := ScanBlock(out, db).value;
      ScanFaithful(net, out, db1, s.(indexedBlock := db1.cursor), safe, left - 1);
    }
  }

  lemma {:induction false} WalkRange(out: Outside, db: DB, from: int)
    requires Walk(out, db, from).Ok?
    ensures Walk(out, db, from).value <= from
    decreases from - db.start
  {
    if from >= db.start && out.at(Validate(from)).headers[from].hash != db.blocks[from].hash {
      WalkRange(out, db, from - 1);
    }
  }

  // A rewind always succeeds, to the state held at the ancestor.
  lemma FaithfulRewind(net: Net, out: Outside, db: DB, ancestor: int)
    requires ValidNet(net) && Honest(net, out) && Faithful(net, db) && db.start - 1 <= ancestor <= db.cursor
    ensures Rewound(db, ancestor, out.select(KeptEvents(db.events, ancestor))) == Ok(At(db, ancestor))
    ensures Faithful(net, At(db, ancestor))
  {
    FaithfulOrdered(net, db);
    AtFaithful(net, db, ancestor);
    assert IsListing(out.select(KeptEvents(db.events, ancestor)), KeptEvents(db.events, ancestor));
    assert StoreOk(db);
    hide ValidNet, Honest, Faithful, StoreOk, IsListing, At, Rewound, KeptEvents;
    RewindIsUndo(db, ancestor, out.select(KeptEvents(db.events, ancestor)));
  }

  lemma SyncFaithful(net: Net, out: Outside, confirmations: nat, db: DB, s: Health)
    requires ValidNet(net) && Honest(net, out) && Faithful(net, db)
    ensures Faithful(net, Sync(out, confirmations, db, s).db)
  {
    FaithfulStart(net, db);
    hide *;
    var s1, safe, ancestor := SyncCases(out, confirmations, db, s);
    ScanAllFaithful(net, out, db, s1, safe);
    RewindsFaithful(net, out, db, s1, safe, ancestor);
  }

  // A pass stops before it touches the store, or scans, or rewinds.
  lemma SyncCases(out: Outside, confirmations: nat, db: DB, s: Health) returns (s1: Health, safe: int, ancestor: int)
    requires db.start - 1 <= db.cursor
    ensures db.start - 1 <= ancestor <= db.cursor
    ensures
      var p := Sync(out, confirmations, db, s);
      p.db == db || (out.at(Begin).head.Some?
          && (p == ScanAll(out, db, s1, safe) || p == Rewinds(out, db, s1, safe, ancestor)))
    ensures out.at(Begin).head.Some? ==> safe == out.at(Begin).head.value - confirmations
  {
    hide ScanAll, Rewinds, Walk;
    s1, safe, ancestor := s, 0, db.cursor;
    if out.at(Begin).head.Some? {
      var head := out.at(Begin).head.value;
      safe := head - confirmations;
      s1 := s.(observedHead := head, safeHead := safe, synced := false);
      if Walk(out, db, Min(db.cursor, head)).Ok? {
        WalkRange(out, db, Min(db.cursor, head));
        ancestor := Max(Walk(out, db, Min(db.cursor, head)).value, db.start - 1);
      }
    }
  }

  lemma FaithfulStart(net: Net, db: DB)
    requires ValidNet(net) && Faithful(net, db)
    ensures db.start == net.start && db.start - 1 <= db.cursor
  {}

  lemma ScanAllFaithful(net: Net, out: Outside, db: DB, s: Health, safe: int)
    requires ValidNet(net) && Honest(net, out) && Faithful(net, db)
    ensures Faithful(net, ScanAll(out, db, s, safe).db)
  {
    hide ValidNet, Honest, Faithful, Scan;
    ScanFaithful(net, out, db, s.(recovering := false), safe, MAX_BLOCKS);
  }

  lemma RewindsFaithful(net: Net, out: Outside, db: DB, s: Health, safe: int, ancestor: int)
    requires ValidNet(net) && Honest(net, out) && Faithful(net, db) && db.start - 1 <= ancestor <= db.cursor
    ensures Faithful(net, Rewinds(out, db, s, safe, ancestor).db)
  {
    FaithfulRewind(net, out, db, ancestor);
    assert StoreOk(db);
    hide *;
    var s1 := s.(recovering := true, reorgs := s.reorgs + 1);
    RewindsCases(out, db, s, safe, ancestor);
    ScanAllFaithful(net, out, At(db, ancestor), s1, safe);
  }

  lemma RewindsCases(out: Outside, db: DB, s: Health, safe: int, ancestor: int)
    ensures
      var p := Rewinds(out, db, s, safe, ancestor);
      var r := Rewound(db, ancestor, out.select(KeptEvents(db.events, ancestor)));
      || p.db == db
      || (r.Ok? && (p.db == r.value
         || p == ScanAll(out, r.value, s.(recovering := true, reorgs := s.reorgs + 1), safe)))
  {
    hide Rewound, KeptEvents, ScanAll;
  }

  ghost predicate AllHonest(net: Net, outs: seq<Outside>)
    requires ValidNet(net)
  {
    forall k :: 0 <= k < |outs| ==> Honest(net, outs[k])
  }

  lemma {:induction false} TurnsFaithful(net: Net, outs: seq<Outside>, confirmations: nat, db: DB, s: Health)
    requires ValidNet(net) && AllHonest(net, outs) && Faithful(net, db)
    ensures Faithful(net, Turns(outs, confirmations, db, s).db)
  {
    hide ValidNet, Honest, Faithful, Sync;
    if outs != [] {
      TurnsFaithful(net, outs[..|outs| - 1], confirmations, db, s);
      var p := Turns(outs[..|outs| - 1], confirmations, db, s);
      SyncFaithful(net, outs[|outs| - 1], confirmations, p.db, p.health);
    }
  }

  // A faithful store shows the contract's draws at its cursor hash; before the first block it shows none.
  lemma FaithfulAgrees(net: Net, db: DB, id: nat, now: nat)
    requires ValidNet(net) && Faithful(net, db)
    ensures Mirror(db.tables)
    ensures db.cursorHash.None? ==> db.tables == NO_TABLES
    ensures db.cursorHash.Some? ==>
      var l := StateAt(net, db.cursorHash.value).lot;
      && net.block(db.cursorHash.value).number == db.cursor
      && (id in db.tables.draws <==> 1 <= id <= l.currentDrawId)
      && (id in db.tables.draws ==> Agrees(net.c, l, id, now, Refreshed(db.tables.draws[id], now)))
  {
    assert ProjectAll(db.events) == Ok(db.tables);
    if db.cursorHash.Some? {
      var h := db.cursorHash.value;
      assert db.cursor >= db.start;
      TipBlock(net, db);
      BranchProjects(net, h);
      StateAtRest(net, h);
      hide ValidNet, Faithful, ProjectAll, Inv, StateAt, Agrees, Refreshed, Stored;
      if 1 <= id <= StateAt(net, h).lot.currentDrawId {
        StoredAgrees(net.c, StateAt(net, h), id, now);
      }
    } else {
      StoreMirror(db);
    }
  }

  // End to end: after any turns of the polling loop, with any reorganisations, failures and
  // changes between calls, the projection is the contract's state at the cursor hash.
  lemma EndToEnd(net: Net, outs: seq<Outside>, confirmations: nat, id: nat, now: nat)
    requires ValidNet(net) && AllHonest(net, outs)
    ensures
      var db := Turns(outs, confirmations, Opened(net.start), NEW_HEALTH).db;
      && Mirror(db.tables)
      && match db.cursorHash
        case None => db.tables == NO_TABLES
        case Some(h) =>
          && net.block(h).number == db.cursor
          && (id in db.tables.draws <==> 1 <= id <= StateAt(net, h).lot.currentDrawId)
          && (id in db.tables.draws ==>
             Agrees(net.c, StateAt(net, h).lot, id, now, Refreshed(db.tables.draws[id], now)))
  {
    OpenedFaithful(net);
    hide ValidNet, Faithful, Turns, Mirror, Agrees, Refreshed, Honest;
    TurnsFaithful(net, outs, confirmations, Opened(net.start), NEW_HEALTH);
    FaithfulAgrees(net, Turns(outs, confirmations, Opened(net.start), NEW_HEALTH).db, id, now);
  }
}
