/**
 What a pass checks before it adds a block, and what its health record tells, for every choice of
 answers, honest or not.
 */
module IndexingChecks {
  import opened Basics
  import opened Contract
  import opened Projection
  import opened Store
  import opened StoreOrder
  import opened CommitOutcomes
  import opened Indexing
  import opened IndexingSafety
  import opened IndexingProgress

  /******* Added blocks *******/

  // The event that a log stands for, under the header that was fetched with it.
  predicate StandsFor(e: Event, l: Log, h: Header) {
    l.payload == Some(e.payload) && e.blockNumber == l.blockNumber && e.blockHash == l.blockHash
    && e.txHash == l.txHash && e.txIndex == l.txIndex && e.logIndex == l.logIndex && e.timestamp == h.timestamp
  }

  predicate Genuine(l: Log, n: int, h: Header) {
    !l.removed && l.address == LOTTERY && l.blockHash == h.hash && l.blockNumber == n && l.payload.Some?
  }

  // Block n is stored with the header that was fetched for it and that was still served after its
  // logs had been fetched; the logs were the lottery's own of that block, and the events stored
  // for the block are just the ones they stand for.
  ghost predicate Checked(out: Outside, db: DB, n: int) {
    && n in out.at(Fetch(n)).headers && n in out.at(Recheck(n)).headers && n in db.blocks
    && var h := out.at(Fetch(n)).headers[n];
    && out.at(Recheck(n)).headers[n].hash == h.hash && out.at(Recheck(n)).database
    && db.blocks[n] == Block(n, h.hash, h.parentHash, h.timestamp)
    && h.hash in out.at(FetchLogs(n)).logs
    && var logs := out.at(FetchLogs(n)).logs[h.hash];
    && (forall l :: l in logs ==> Genuine(l, n, h)) && Stored(db, n, h, logs)
  }

  // The events of block n are those that the logs stand for, each key once.
  ghost predicate Stored(db: DB, n: int, h: Header, logs: seq<Log>) {
    && (forall e :: e in db.events && e.blockNumber == n ==> exists l :: l in logs && StandsFor(e, l, h))
    && (forall l :: l in logs ==> exists e :: StandsFor(e, l, h) && KeyTaken(db.events, e))
  }

  // More blocks on top, with their own events.
  ghost predicate Extends(db: DB, db1: DB) {
    && db.cursor <= db1.cursor && db1.start == db.start
    && (forall n :: n <= db.cursor ==> (n in db1.blocks <==> n in db.blocks))
    && (forall n :: n in db.blocks && n <= db.cursor ==> db1.blocks[n] == db.blocks[n])
    && db.events <= db1.events
    && (forall k :: |db.events| <= k < |db1.events| ==> db1.events[k].blockNumber > db.cursor)
  }

  lemma ExtendsTransitive(db: DB, db1: DB, db2: DB)
    requires Extends(db, db1) && Extends(db1, db2)
    ensures Extends(db, db2)
  {}

  lemma CheckedStays(out: Outside, db: DB, db1: DB, n: int)
    requires Checked(out, db, n) && Extends(db, db1) && n <= db.cursor
    ensures Checked(out, db1, n)
  {
    hide StandsFor, Genuine;
    forall e | e in db1.events && e.blockNumber == n
      ensures e in db.events
    {
      var k :| 0 <= k < |db1.events| && db1.events[k] == e;
      assert k < |db.events| ==> db.events[k] == e;
    }
    forall e | KeyTaken(db.events, e)
      ensures KeyTaken(db1.events, e)
    {
      KeyStaysTaken(db.events, db1.events, e);
    }
  }

  lemma KeyStaysTaken(rows: seq<Event>, rows1: seq<Event>, e: Event)
    requires KeyTaken(rows, e) && rows <= rows1
    ensures KeyTaken(rows1, e)
  {
    var k :| 0 <= k < |rows| && rows[k].SameKey(e);
    assert rows1[k].SameKey(e);
  }

  // Decoding succeeds exactly if every log is genuine, and then gives the events they stand for.
  lemma {:induction false} DecodesExactly(logs: seq<Log>, n: int, h: Header)
    ensures DecodeAll(logs, n, h).Ok? <==> forall l :: l in logs ==> Genuine(l, n, h)
    ensures DecodeAll(logs, n, h).Ok? ==>
      var events := DecodeAll(logs, n, h).value;
      |events| == |logs| && forall k :: 0 <= k < |logs| ==> StandsFor(events[k], logs[k], h)
    decreases |logs|
  {
    if logs != [] {
      var rest, l := logs[..|logs| - 1], logs[|logs| - 1];
      DecodesExactly(rest, n, h);
      assert logs == rest + [l];
      assert Canonical(l, n, h) && l.payload.Some? <==> Genuine(l, n, h);
    }
  }

  lemma ScanBlockParts(out: Outside, db: DB) returns (h: Header, logs: seq<Log>)
    requires ScanBlock(out, db).Ok?
    ensures
      var n := db.cursor + 1;
      && n in out.at(Fetch(n)).headers && h == out.at(Fetch(n)).headers[n]
      && h.hash in out.at(FetchLogs(n)).logs && logs == out.at(FetchLogs(n)).logs[h.hash]
      && n in out.at(Recheck(n)).headers && out.at(Recheck(n)).headers[n].hash == h.hash
      && out.at(Recheck(n)).database
      && DecodeAll(out.sort(logs), n, h).Ok?
      && Commit(db, Block(n, h.hash, h.parentHash, h.timestamp), DecodeAll(out.sort(logs), n, h).value) ==
         ScanBlock(out, db)
  {
    hide Commit, DecodeAll;
    h := out.at(Fetch(db.cursor + 1)).headers[db.cursor + 1];
    logs := out.at(FetchLogs(db.cursor + 1)).logs[h.hash];
  }

  lemma ScanBlockChecked(out: Outside, db: DB)
    requires StoreOk(db) && Works(out) && ScanBlock(out, db).Ok?
    ensures
      var db1 := ScanBlock(out, db).value;
      StoreOk(db1) && db1.cursor == db.cursor + 1 && Extends(db, db1) && Checked(out, db1, db.cursor + 1)
  {
    hide *;
    var n := db.cursor + 1;
    var h, logs := ScanBlockParts(out, db);
    var events := DecodeAll(out.sort(logs), n, h).value;
    var b := Block(n, h.hash, h.parentHash, h.timestamp);
    var db1 := ScanBlock(out, db).value;
    DecodesExactly(out.sort(logs), n, h);
    SortedSame(out, logs);
    CommitKeeps(db, b, events);
    StoredNumbers(db, n);
    CommitExactly(db, b, events);
    EventNumbers(db);
    NewRowsCover(db.events, events);
    NewRowsOf(db.events, events, b);
    FreshExtends(db, db1, b, NewRows(db.events, events));
    AllStored(db, db1, n, h, logs, out.sort(logs), events, NewRows(db.events, events));
    CheckedIs(out, db1, n, h, logs);
  }

  lemma FreshExtends(db: DB, db1: DB, b: Block, added: seq<Event>)
    requires b.number == db.cursor + 1 && db1.cursor == b.number && db1.start == db.start
    requires db1.blocks == db.blocks[b.number := b] && db1.events == db.events + added
    requires forall k :: 0 <= k < |added| ==> added[k].blockNumber == b.number
    ensures Extends(db, db1)
  {}

  lemma AllStored(db: DB, db1: DB, n: int, h: Header, logs: seq<Log>, sorted: seq<Log>, events: seq<Event>,
                  added: seq<Event>)
    requires forall k :: 0 <= k < |db.events| ==> db.events[k].blockNumber < n
    requires db1.events == db.events + added && forall e :: e in added ==> e in events
    requires |events| == |sorted| && forall k :: 0 <= k < |sorted| ==> StandsFor(events[k], sorted[k], h)
    requires forall l :: l in sorted <==> l in logs
    requires forall e :: e in events ==> KeyTaken(db1.events, e)
    ensures Stored(db1, n, h, logs)
  {
    hide KeyTaken, StandsFor;
    forall e | e in db1.events && e.blockNumber == n
      ensures exists l :: l in logs && StandsFor(e, l, h)
    {
      assert e in db.events || e in added;
      assert e !in db.events;
      var i :| 0 <= i < |events| && events[i] == e;
      assert sorted[i] in sorted && StandsFor(e, sorted[i], h);
    }
    forall l | l in logs
      ensures exists e :: StandsFor(e, l, h) && KeyTaken(db1.events, e)
    {
      var i :| 0 <= i < |sorted| && sorted[i] == l;
      assert events[i] in events && StandsFor(events[i], l, h);
    }
  }

  lemma CheckedIs(out: Outside, db: DB, n: int, h: Header, logs: seq<Log>)
    requires n in out.at(Fetch(n)).headers && h == out.at(Fetch(n)).headers[n]
    requires h.hash in out.at(FetchLogs(n)).logs && logs == out.at(FetchLogs(n)).logs[h.hash]
    requires n in out.at(Recheck(n)).headers && out.at(Recheck(n)).headers[n].hash == h.hash
    requires out.at(Recheck(n)).database
    requires n in db.blocks && db.blocks[n] == Block(n, h.hash, h.parentHash, h.timestamp)
    requires (forall l :: l in logs ==> Genuine(l, n, h)) && Stored(db, n, h, logs)
    ensures Checked(out, db, n)
  {
    hide StandsFor, Genuine, KeyTaken;
  }

  lemma SortedSame(out: Outside, logs: seq<Log>)
    requires Works(out)
    ensures forall l :: l in out.sort(logs) <==> l in logs
  {
    assert IsSorting(out.sort(logs), logs);
    forall l
      ensures l in out.sort(logs) <==> l in logs
    {
      assert l in out.sort(logs) <==> l in multiset(out.sort(logs));
      assert l in logs <==> l in multiset(logs);
    }
  }

  lemma EventNumbers(db: DB)
    requires StoreOk(db)
    ensures forall k :: 0 <= k < |db.events| ==> db.events[k].blockNumber <= db.cursor
  {
    hide ProjectAll;
  }

  lemma NewRowsOf(rows: seq<Event>, events: seq<Event>, b: Block)
    requires AllOf(b, events)
    ensures forall k :: 0 <= k < |NewRows(rows, events)| ==> NewRows(rows, events)[k].blockNumber == b.number
  {
    NewRowsCover(rows, events);
    hide NewRows;
    assert forall k :: 0 <= k < |NewRows(rows, events)| ==> NewRows(rows, events)[k] in events;
  }

  // One block: what makes the scan refuse it, and that nothing else does.
  lemma ScanBlockExactly(out: Outside, db: DB)
    requires StoreOk(db) && Works(out)
    ensures
      var n := db.cursor + 1;
      var r := ScanBlock(out, db);
      if n !in out.at(Fetch(n)).headers then r == Revert(NodeFailed)
      else
        var h := out.at(Fetch(n)).headers[n];
        if db.cursorHash.Some? && h.parentHash != db.cursorHash.value then r == Revert(ParentChanged)
        else if h.hash !in out.at(FetchLogs(n)).logs then r == Revert(NodeFailed)
        else if exists l :: l in out.at(FetchLogs(n)).logs[h.hash] && !Genuine(l, n, h) then
          r == Revert(NoncanonicalLog) || r == Revert(UndecodableLog)
        else if n !in out.at(Recheck(n)).headers then r == Revert(NodeFailed)
        else if out.at(Recheck(n)).headers[n].hash != h.hash then r == Revert(BlockChanged)
        else if !out.at(Recheck(n)).database then r == Revert(DatabaseFailed)
        else
          var decoded := DecodeAll(out.sort(out.at(FetchLogs(n)).logs[h.hash]), n, h);
          decoded.Ok? && (r.Ok? <==> ProjectAll(db.events + NewRows(db.events, decoded.value)).Ok?)
  {
    hide StoreOk, Works, Commit, DecodeAll, Genuine, ProjectAll, NewRows;
    var n := db.cursor + 1;
    StoredNumbers(db, n);
    if n in out.at(Fetch(n)).headers {
      var h := out.at(Fetch(n)).headers[n];
      if h.hash in out.at(FetchLogs(n)).logs {
        var logs := out.at(FetchLogs(n)).logs[h.hash];
        SortedSame(out, logs);
        DecodesExactly(out.sort(logs), n, h);
        DecodeErrors(out.sort(logs), n, h);
        if DecodeAll(out.sort(logs), n, h).Ok? {
          var events := DecodeAll(out.sort(logs), n, h).value;
          var b := Block(n, h.hash, h.parentHash, h.timestamp);
          CommitExactly(db, b, events);
          DecodedOf(out.sort(logs), events, b, h);
        }
      }
    }
  }

  lemma {:induction false} DecodeErrors(logs: seq<Log>, n: int, h: Header)
    ensures DecodeAll(logs, n, h).Revert? ==> DecodeAll(logs, n, h).error in {NoncanonicalLog, UndecodableLog}
    decreases |logs|
  {
    if logs != [] {
      DecodeErrors(logs[..|logs| - 1], n, h);
    }
  }

  lemma DecodedOf(logs: seq<Log>, events: seq<Event>, b: Block, h: Header)
    requires |events| == |logs| && forall k :: 0 <= k < |logs| ==> StandsFor(events[k], logs[k], h)
    requires h.hash == b.hash && forall l :: l in logs ==> Genuine(l, b.number, h)
    ensures AllOf(b, events)
  {
    forall e | e in events
      ensures e.blockNumber == b.number && e.blockHash == b.hash
    {
      var k :| 0 <= k < |events| && events[k] == e;
      assert logs[k] in logs;
    }
  }

  // A scan that ends without an error has reached the safe block or added all it may.
  lemma {:induction false} ScanChecked(out: Outside, db: DB, s: Health, safe: int, left: nat)
    requires StoreOk(db) && Works(out)
    ensures
      var p := Scan(out, db, s, safe, left);
      && StoreOk(p.db) && Extends(db, p.db)
      && (forall n :: db.cursor < n <= p.db.cursor ==> Checked(out, p.db, n))
      && (p.error.None? ==> p.db.cursor == Max(db.cursor, Min(safe, db.cursor + left)))
    decreases left
  {
    hide ScanBlock, StoreOk, Works, Checked;
    ExtendsReflexive(db);
    ScanUnfold(out, db, s, safe, left);
    hide Scan;
    if db.cursor < safe && left != 0 && ScanBlock(out, db).Ok? {
      var db1 := ScanBlock(out, db).value;
      ScanBlockChecked(out, db);
      var s1 := s.(indexedBlock := db1.cursor);
      ScanChecked(out, db1, s1, safe, left - 1);
      var p := Scan(out, db1, s1, safe, left - 1);
      ExtendsTransitive(db, db1, p.db);
      CheckedStays(out, db1, p.db, db1.cursor);
    }
  }

  lemma ExtendsReflexive(db: DB)
    ensures Extends(db, db)
  {}

  /******* Whole passes *******/

  // Whatever is answered: above the common ancestor a pass adds checked blocks only, and if it ends
  // without an error it has added all up to the safe block, or a hundred.
  lemma AddedChecked(out: Outside, confirmations: nat, db: DB, s: Health, head: nat)
    requires StoreOk(db) && Works(out) && out.at(Begin).head == Some(head)
    ensures
      var p := Sync(out, confirmations, db, s);
      var a := Validated(out, db, head);
      && db.start - 1 <= a <= db.cursor
      && ((p.db == db && p.error.Some?) || forall n :: n in p.db.blocks ==>
        if n <= a then n in db.blocks && p.db.blocks[n] == db.blocks[n] else Checked(out, p.db, n))
      && (p.error.None? ==> p.db.cursor == Max(a, Min(head - confirmations, a + 100)))
  {
    hide *;
    HundredBlocks();
    StoredNumbers(db, db.cursor);
    ValidatedRange(out, db, head);
    var a := Validated(out, db, head);
    var s1, s2 := PassCases(out, confirmations, db, s, head);
    var p := Sync(out, confirmations, db, s);
    var r := Rewound(db, a, out.select(KeptEvents(db.events, a)));
    ScanChecked(out, db, s1, head - confirmations, MAX_BLOCKS);
    AtCursor(db);
    if a < db.cursor && r.Ok? {
      RewoundStore(out, db, a);
      ExtendsReflexive(At(db, a));
      ScanChecked(out, r.value, s2, head - confirmations, MAX_BLOCKS);
      if p.db == r.value && p.error.Some? {
        AddedOnTop(out, db, a, p.db);
      } else if p == Scan(out, r.value, s2, head - confirmations, MAX_BLOCKS) {
        AddedOnTop(out, db, a, p.db);
      }
    }
    if a >= db.cursor && p == Scan(out, db, s1, head - confirmations, MAX_BLOCKS) {
      AddedOnTop(out, db, a, p.db);
    }
  }

  lemma HundredBlocks()
    ensures MAX_BLOCKS == 100
  {}

  lemma RewoundStore(out: Outside, db: DB, a: int)
    requires StoreOk(db) && Works(out) && db.start - 1 <= a <= db.cursor
    requires Rewound(db, a, out.select(KeptEvents(db.events, a))).Ok?
    ensures Rewound(db, a, out.select(KeptEvents(db.events, a))).value == At(db, a)
    ensures StoreOk(At(db, a)) && At(db, a).cursor == a && At(db, a).start == db.start
  {
    ListingWorks(out, KeptEvents(db.events, a));
    hide *;
    RefusedOrExact(db, a, out.select(KeptEvents(db.events, a)));
    AtFields(db, a);
  }

  lemma ListingWorks(out: Outside, rows: seq<Event>)
    requires Works(out)
    ensures IsListing(out.select(rows), rows)
  {}

  lemma AddedOnTop(out: Outside, db: DB, a: int, db1: DB)
    requires StoreOk(db) && db.start - 1 <= a <= db.cursor && StoreOk(db1) && Extends(At(db, a), db1)
    requires forall n :: a < n <= db1.cursor ==> Checked(out, db1, n)
    ensures forall n :: n in db1.blocks ==>
      if n <= a then n in db.blocks && db1.blocks[n] == db.blocks[n] else Checked(out, db1, n)
  {
    AtFields(db, a);
    forall n | n in db1.blocks
      ensures n <= db1.cursor
    {
      StoredNumbers(db1, n);
    }
    hide StoreOk, At, Checked;
  }

  // If the header of a block is not served again as it was fetched, the pass ends with an error and
  // does not store the block.
  lemma ChangedBlockStops(out: Outside, confirmations: nat, db: DB, s: Health, head: nat, n: int)
    requires StoreOk(db) && Works(out) && out.at(Begin).head == Some(head)
    requires
      var a := Validated(out, db, head);
      a < n <= a + 100 && n <= head - confirmations
    requires n in out.at(Fetch(n)).headers && n in out.at(Recheck(n)).headers ==>
      out.at(Recheck(n)).headers[n].hash != out.at(Fetch(n)).headers[n].hash
    ensures
      var p := Sync(out, confirmations, db, s);
      p.error.Some? && (p.db == db || n !in p.db.blocks)
  {
    hide Sync, Validated, StoreOk, Works, Stored;
    AddedChecked(out, confirmations, db, s, head);
    var p := Sync(out, confirmations, db, s);
    PassStoreOk(out, confirmations, db, s, head);
    StoredNumbers(p.db, n);
  }

  lemma PassStoreOk(out: Outside, confirmations: nat, db: DB, s: Health, head: nat)
    requires StoreOk(db) && Works(out) && out.at(Begin).head == Some(head)
    ensures StoreOk(Sync(out, confirmations, db, s).db) && Sync(out, confirmations, db, s).db.start == db.start
  {
    hide *;
    StoredNumbers(db, db.cursor);
    ValidatedRange(out, db, head);
    var a := Validated(out, db, head);
    var s1, s2 := PassCases(out, confirmations, db, s, head);
    var r := Rewound(db, a, out.select(KeptEvents(db.events, a)));
    ScanStoreOk(out, db, s1, head - confirmations, MAX_BLOCKS);
    if r.Ok? {
      RewoundStore(out, db, a);
      ScanStoreOk(out, r.value, s2, head - confirmations, MAX_BLOCKS);
    }
  }

  lemma ScanStoreOk(out: Outside, db: DB, s: Health, safe: int, left: nat)
    requires StoreOk(db) && Works(out)
    ensures StoreOk(Scan(out, db, s, safe, left).db) && Scan(out, db, s, safe, left).db.start == db.start
  {
    hide Scan, StoreOk, Works, Checked;
    ScanChecked(out, db, s, safe, left);
  }

  /******* The health record *******/

  // Whether a pass finds that it has to rewind.
  predicate Reorganized(out: Outside, db: DB, head: nat) {
    out.at(Begin).database && out.at(ReadCursor).database && Validated(out, db, head) < db.cursor
  }

  // After a turn: synced exactly if the pass succeeded and the cursor has reached the safe block;
  // failures and reorganisations are counted; the observed head, the safe block and a cursor that
  // was reached are reported as they are; and a rewind that was not completed is reported until a
  // pass gets past it.
  lemma HealthTells(out: Outside, confirmations: nat, db: DB, s: Health)
    ensures
      var p := Turn(out, confirmations, db, s);
      var begun := out.at(Begin).database && out.at(Begin).head.Some?;
      && (p.health.synced <==> p.error.None? && begun && p.db.cursor >= out.at(Begin).head.value - confirmations)
      && p.health.failures == s.failures + (if p.error.Some? then 1 else 0)
      && (if begun then
            && p.health.observedHead == out.at(Begin).head.value
            && p.health.safeHead == out.at(Begin).head.value - confirmations
            && p.health.reorgs == s.reorgs + (if Reorganized(out, db, out.at(Begin).head.value) then 1 else 0)
          else p.health.observedHead == s.observedHead && p.health.safeHead == s.safeHead && p.error.Some?
               && p.health.reorgs == s.reorgs && p.db == db)
      && (p.error.None? || p.db.cursor > db.cursor ==> p.health.indexedBlock == p.db.cursor)
      && (p.error.None? ==> !p.health.recovering && out.at(ReadCursor).database)
      && (begun && Reorganized(out, db, out.at(Begin).head.value) ==>
        (out.at(Rewinding).database && out.at(Reread).database) || (p.error.Some? && p.health.recovering))
  {
    hide Scan, Walk, Rewound, KeptEvents, Min, Max;
    if out.at(Begin).head.Some? {
      var head, a := out.at(Begin).head.value, Validated(out, db, out.at(Begin).head.value);
      var s1 := s.(observedHead := head, safeHead := head - confirmations, synced := false);
      ScanHealth(out, db, s1.(recovering := false), head - confirmations, MAX_BLOCKS);
      var r := Rewound(db, a, out.select(KeptEvents(db.events, a)));
      if r.Ok? {
        RewoundBlocks(db, a, out.select(KeptEvents(db.events, a)));
        ScanHealth(out, r.value, s1.(recovering := false, reorgs := s.reorgs + 1), head - confirmations, MAX_BLOCKS);
      }
    }
  }

  lemma {:induction false} ScanHealth(out: Outside, db: DB, s: Health, safe: int, left: nat)
    ensures
      var p := Scan(out, db, s, safe, left);
      && p.health == s.(indexedBlock := p.health.indexedBlock, synced := p.health.synced)
      && (p.error.Some? ==> p.health.synced == s.synced)
      && (p.error.None? ==> p.health.synced == (p.db.cursor >= safe))
      && (p.error.None? || p.db.cursor > db.cursor ==> p.health.indexedBlock == p.db.cursor)
      && (p.db.cursor > db.cursor || p.health.indexedBlock in {s.indexedBlock, db.cursor})
    decreases left
  {
    hide ScanBlock;
    if db.cursor < safe && left != 0 && ScanBlock(out, db).Ok? {
      var _ := ScannedBlock(out, db);
      ScanBounded(out, ScanBlock(out, db).value, s, safe, left - 1);
      var db1 := ScanBlock(out, db).value;
      ScanHealth(out, db1, s.(indexedBlock := db1.cursor), safe, left - 1);
    }
  }
}
