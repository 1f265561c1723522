/** Following the history cursor through snapshots that are read while the indexer goes on. */
module HistoryReads {
  import opened Basics
  import opened Contract
  import opened Projection
  import opened Store
  import opened StoreTables
  import opened Chain
  import opened Indexing
  import opened IndexingSafety
  import opened IndexingProgress
  import opened Pages = History
  import opened HistoryRuns

  /******* Turns without a rewind only go forward *******/

  lemma {:induction false} DescendsTransitive(net: Net, h: Hash, mid: Hash, from: Hash)
    requires Grounded(net) && Descends(net, h, mid) && Descends(net, mid, from)
    ensures Descends(net, h, from)
    decreases net.block(h).number
  {
    if h != mid {
      DescendsTransitive(net, net.block(h).parent, mid, from);
    }
  }

  lemma ForwardTransitive(net: Net, db: DB, db1: DB, db2: DB)
    requires Grounded(net) && Forward(net, db, db1) && Forward(net, db1, db2)
    ensures Forward(net, db, db2)
  {
    hide Descends;
    if db.cursorHash.Some? {
      DescendsTransitive(net, db2.cursorHash.value, db1.cursorHash.value, db.cursorHash.value);
    }
  }

  lemma ForwardReflexive(net: Net, db: DB)
    requires Grounded(net)
    ensures Forward(net, db, db)
  {}

  lemma ScanBlockForward(net: Net, out: Outside, db: DB)
    requires ValidNet(net) && Honest(net, out) && Faithful(net, db) && ScanBlock(out, db).Ok?
    ensures Grounded(net) && Forward(net, db, ScanBlock(out, db).value)
  {
    assert Grounded(net);
    ScanBlockFaithful(net, out, db);
    var next := db.cursor + 1;
    var h := out.at(Fetch(next)).headers[next];
    var events := DecodeAll(out.sort(out.at(FetchLogs(next)).logs[h.hash]), next, h).value;
    hide ValidNet, Honest, Faithful, Commit, DecodeAll, Forward, Grounded;
    CommitIsForward(net, db, Block(next, h.hash, h.parentHash, h.timestamp), events);
  }

  lemma NetGrounded(net: Net)
    requires ValidNet(net)
    ensures Grounded(net)
  {}

  lemma {:induction false} ScanForward(net: Net, out: Outside, db: DB, s: Health, safe: int, left: nat)
    requires ValidNet(net) && Honest(net, out) && Faithful(net, db)
    ensures Grounded(net) && Forward(net, db, Scan(out, db, s, safe, left).db)
    decreases left
  {
    hide *;
    NetGrounded(net);
    ForwardReflexive(net, db);
    ScanUnfold(out, db, s, safe, left);
    if db.cursor < safe && left != 0 && ScanBlock(out, db).Ok? {
      ScanBlockForward(net, out, db);
      ScanBlockFaithful(net, out, db);
      var db1 := ScanBlock(out, db).value;
      ScanForward(net, out, db1, s.(indexedBlock := db1.cursor), safe, left - 1);
      ForwardTransitive(net, db, db1, Scan(out, db, s, safe, left).db);
    }
  }

  // A pass that rewinds counts it.
  lemma RewindCounted(out: Outside, confirmations: nat, db: DB, s: Health) returns (s1: Health, safe: int)
    ensures
      var p := Sync(out, confirmations, db, s);
      || p.health.reorgs > s.reorgs
      || (p.health.reorgs == s.reorgs && (p.db == db || p == Scan(out, db, s1, safe, MAX_BLOCKS)))
  {
    hide Scan, Walk, Rewound, KeptEvents, Min, Max;
    s1, safe := s, 0;
    if out.at(Begin).head.Some? {
      var head := out.at(Begin).head.value;
      safe := head - confirmations;
      s1 := s.(observedHead := head, safeHead := safe, synced := false, recovering := false);
      ScanCounts(out, db, s1, safe, MAX_BLOCKS);
      var found := Walk(out, db, Min(db.cursor, head));
      var a := if found.Ok? then Max(found.value, db.start - 1) else 0;
      var r := Rewound(db, a, out.select(KeptEvents(db.events, a)));
      if r.Ok? {
        ScanCounts(out, r.value, s1.(reorgs := s.reorgs + 1), safe, MAX_BLOCKS);
      }
    }
  }

  lemma {:induction false} ScanCounts(out: Outside, db: DB, s: Health, safe: int, left: nat)
    ensures Scan(out, db, s, safe, left).health.reorgs == s.reorgs
    decreases left
  {
    hide ScanBlock;
    if db.cursor < safe && left != 0 && ScanBlock(out, db).Ok? {
      var db1 := ScanBlock(out, db).value;
      ScanCounts(out, db1, s.(indexedBlock := db1.cursor), safe, left - 1);
    }
  }

  // As long as no reorganisation is counted, every turn leaves a store further along the same branch.
  lemma {:induction false} TurnsForward(net: Net, outs: seq<Outside>, confirmations: nat, db: DB, s: Health)
    requires ValidNet(net) && AllHonest(net, outs) && Faithful(net, db)
    ensures
      var p := Turns(outs, confirmations, db, s);
      && Grounded(net) && Faithful(net, p.db) && p.health.reorgs >= s.reorgs
      && (p.health.reorgs == s.reorgs ==> Forward(net, db, p.db))
  {
    assert Grounded(net);
    if outs == [] {
      ForwardReflexive(net, db);
    } else {
      var rest, out := outs[..|outs| - 1], outs[|outs| - 1];
      assert AllHonest(net, rest) && Honest(net, out);
      TurnUnfold(outs, confirmations, db, s);
      hide *;
      TurnsForward(net, rest, confirmations, db, s);
      var p := Turns(rest, confirmations, db, s);
      SyncFaithful(net, out, confirmations, p.db, p.health);
      var s1, safe := RewindCounted(out, confirmations, p.db, p.health);
      ScanForward(net, out, p.db, s1, safe, MAX_BLOCKS);
      ForwardReflexive(net, p.db);
      var p1 := Sync(out, confirmations, p.db, p.health);
      if p1.health.reorgs == s.reorgs {
        ForwardTransitive(net, db, p.db, p1.db);
      }
    }
  }

  lemma TurnUnfold(outs: seq<Outside>, confirmations: nat, db: DB, s: Health)
    requires outs != []
    ensures
      var p := Turns(outs[..|outs| - 1], confirmations, db, s);
      var p1 := Sync(outs[|outs| - 1], confirmations, p.db, p.health);
      var p2 := Turns(outs, confirmations, db, s);
      p2.db == p1.db && p2.health.reorgs == p1.health.reorgs
  {
    hide Sync;
  }

  /******* Pages *******/

  // A store as it is when a page is read, and what the database then answers.
  datatype Reading = Reading(db: DB, rows: seq<View>)

  // Each page asks below the cursor that the snapshot before it returned.
  ghost predicate Paged(readings: seq<Reading>, limit: nat, below: Option<nat>)
    requires limit >= 1
  {
    readings == [] ||
    (var r := readings[0];
     && IsAnswer(r.rows, r.db.tables.draws, Past(below), RowLimit(Past(below), limit))
     && ReadWith(r.db, r.rows, limit).Ok?
     && (|readings| > 1 ==>
       var next := ReadWith(r.db, r.rows, limit).value.next;
       next.Some? && Paged(readings[1..], limit, next)))
  }

  // The ids that the snapshots show, one page after the other.
  function PagedIds(readings: seq<Reading>, limit: nat): seq<nat>
    requires limit >= 1
  {
    if readings == [] then []
    else
      (if ReadWith(readings[0].db, readings[0].rows, limit).Ok?
       then Ids(ReadWith(readings[0].db, readings[0].rows, limit).value.draws) else [])
      + PagedIds(readings[1..], limit)
  }

  function DbsOf(readings: seq<Reading>): (dbs: seq<DB>)
    ensures |dbs| == |readings| && forall k :: 0 <= k < |readings| ==> dbs[k] == readings[k].db
  {
    if readings == [] then [] else [readings[0].db] + DbsOf(readings[1..])
  }

  function RowsOf(readings: seq<Reading>): (answers: seq<seq<View>>)
    ensures |answers| == |readings| && forall k :: 0 <= k < |readings| ==> answers[k] == readings[k].rows
  {
    if readings == [] then [] else [readings[0].rows] + RowsOf(readings[1..])
  }

  lemma {:induction false} PagedIsTraversal(readings: seq<Reading>, limit: nat, below: Option<nat>)
    requires limit >= 1 && Paged(readings, limit, below)
    ensures Traversal(DrawsOf(DbsOf(readings)), RowsOf(readings), limit, below)
    ensures PagedIds(readings, limit) == Listed(RowsOf(readings), limit)
    decreases |readings|
  {
    hide IsAnswer, ReadWith, Shown, Next, Ids;
    if readings != [] {
      var r := readings[0];
      SnapshotPage(r.db, r.rows, limit);
      var states, answers := DrawsOf(DbsOf(readings)), RowsOf(readings);
      assert states[1..] == DrawsOf(DbsOf(readings[1..])) && answers[1..] == RowsOf(readings[1..]);
      if |readings| > 1 {
        PagedIsTraversal(readings[1..], limit, ReadWith(r.db, r.rows, limit).value.next);
      }
    }
  }

  // The stores at the pages: between two of them the indexer makes some turns.
  function Stores(confirmations: nat, db: DB, s: Health, rounds: seq<seq<Outside>>): (passes: seq<Pass>)
    ensures |passes| == |rounds| + 1
    decreases |rounds|
  {
    [Pass(db, s, None)] +
    (if rounds == [] then []
     else
       var p := Turns(rounds[0], confirmations, db, s);
       Stores(confirmations, p.db, p.health, rounds[1..]))
  }

  ghost predicate AllRoundsHonest(net: Net, rounds: seq<seq<Outside>>)
    requires ValidNet(net)
  {
    forall k :: 0 <= k < |rounds| ==> AllHonest(net, rounds[k])
  }

  // Faithful stores of which each is further along than the one before, unless a reorganisation was counted.
  ghost predicate Line(net: Net, passes: seq<Pass>)
    requires ValidNet(net) && passes != []
  {
    var last := passes[|passes| - 1];
    && (forall k :: 0 <= k < |passes| ==> Faithful(net, passes[k].db))
    && last.health.reorgs >= passes[0].health.reorgs
    && (last.health.reorgs == passes[0].health.reorgs ==>
      Grounded(net) && forall k :: 0 <= k < |passes| - 1 ==> Forward(net, passes[k].db, passes[k + 1].db))
  }

  lemma LineFrom(net: Net, first: Pass, rest: seq<Pass>)
    requires ValidNet(net) && Faithful(net, first.db) && rest != [] && Line(net, rest) && Grounded(net)
    requires rest[0].health.reorgs >= first.health.reorgs
    requires rest[0].health.reorgs == first.health.reorgs ==> Forward(net, first.db, rest[0].db)
    ensures Line(net, [first] + rest)
  {
    hide ValidNet, Faithful, Grounded, Forward;
    var passes := [first] + rest;
    forall k | 0 <= k < |passes| - 1 && passes[|rest|].health.reorgs == first.health.reorgs
      ensures Forward(net, passes[k].db, passes[k + 1].db)
    {
      if k > 0 {
        assert passes[k] == rest[k - 1] && passes[k + 1] == rest[(k - 1) + 1];
      }
    }
  }

  lemma LineAlone(net: Net, first: Pass)
    requires ValidNet(net) && Faithful(net, first.db) && Grounded(net)
    ensures Line(net, [first])
  {
    hide ValidNet, Faithful, Grounded, Forward;
  }

  lemma StoresUnfold(confirmations: nat, db: DB, s: Health, rounds: seq<seq<Outside>>)
    ensures
      var passes := Stores(confirmations, db, s, rounds);
      && passes[0] == Pass(db, s, None)
      && (rounds == [] ==> passes == [Pass(db, s, None)])
      && (rounds != [] ==>
        var p := Turns(rounds[0], confirmations, db, s);
        passes == [Pass(db, s, None)] + Stores(confirmations, p.db, p.health, rounds[1..]))
  {
    hide Turns;
  }

  lemma {:induction false} StoresForward(net: Net, confirmations: nat, db: DB, s: Health, rounds: seq<seq<Outside>>)
    requires ValidNet(net) && AllRoundsHonest(net, rounds) && Faithful(net, db)
    ensures Line(net, Stores(confirmations, db, s, rounds))
      && Stores(confirmations, db, s, rounds)[0] == Pass(db, s, None)
    decreases |rounds|
  {
    assert Grounded(net);
    if rounds != [] {
      assert AllHonest(net, rounds[0]);
      assert AllRoundsHonest(net, rounds[1..]);
    }
    hide *;
    StoresUnfold(confirmations, db, s, rounds);
    if rounds == [] {
      LineAlone(net, Pass(db, s, None));
    } else {
      var p := Turns(rounds[0], confirmations, db, s);
      TurnsForward(net, rounds[0], confirmations, db, s);
      StoresForward(net, confirmations, p.db, p.health, rounds[1..]);
      LineFrom(net, Pass(db, s, None), Stores(confirmations, p.db, p.health, rounds[1..]));
    }
  }

  // Reading the history page by page while the indexer makes any number of turns between two
  // pages: unless it counts a reorganisation meanwhile, the snapshots show the draws that were
  // finalized at the first page, newest first, each once, and end exactly when all are shown.
  lemma PagingWhileIndexing(net: Net, confirmations: nat, db: DB, s: Health, rounds: seq<seq<Outside>>,
                            readings: seq<Reading>, limit: nat)
    requires ValidNet(net) && AllRoundsHonest(net, rounds) && Faithful(net, db) && limit >= 1
    requires |readings| == |rounds| + 1
    requires forall k :: 0 <= k < |readings| ==> readings[k].db == Stores(confirmations, db, s, rounds)[k].db
    requires Paged(readings, limit, None)
    requires Stores(confirmations, db, s, rounds)[|rounds|].health.reorgs == s.reorgs
    ensures
      var ids := PagedIds(readings, limit);
      var last := ReadWith(readings[|rounds|].db, readings[|rounds|].rows, limit);
      && Descending(ids)
      && (forall id :: id in ids ==> IsFinal(db.tables.draws, id))
      && last.Ok?
      && (last.value.next.None? <==> (forall id: nat :: IsFinal(db.tables.draws, id) ==> id in ids))
      && (last.value.next.Some? ==> |ids| == limit * |readings|)
  {
    NetGrounded(net);
    hide *;
    var passes := Stores(confirmations, db, s, rounds);
    var dbs, answers := DbsOf(readings), RowsOf(readings);
    StoresForward(net, confirmations, db, s, rounds);
    LineFaithful(net, passes, dbs);
    LineForward(net, passes, dbs);
    PagedIsTraversal(readings, limit, None);
    LastIsOk(readings, limit, None);
    SnapshotPage(readings[|rounds|].db, readings[|rounds|].rows, limit);
    PagingAcrossCommits(net, dbs, answers, limit);
  }

  lemma LineForward(net: Net, passes: seq<Pass>, dbs: seq<DB>)
    requires ValidNet(net) && passes != [] && Line(net, passes) && |dbs| == |passes|
    requires forall k :: 0 <= k < |passes| ==> dbs[k] == passes[k].db
    requires passes[|passes| - 1].health.reorgs == passes[0].health.reorgs
    ensures Grounded(net) && AllForward(net, dbs)
  {
    hide ValidNet, Faithful, Forward;
  }

  lemma {:induction false} LastIsOk(readings: seq<Reading>, limit: nat, below: Option<nat>)
    requires limit >= 1 && readings != [] && Paged(readings, limit, below)
    ensures ReadWith(readings[|readings| - 1].db, readings[|readings| - 1].rows, limit).Ok?
    decreases |readings|
  {
    hide IsAnswer, ReadWith;
    if |readings| > 1 {
      LastIsOk(readings[1..], limit, ReadWith(readings[0].db, readings[0].rows, limit).value.next);
    }
  }

  /******* Every page can be read *******/

  lemma PageExists(net: Net, db: DB, limit: nat, below: Option<nat>) returns (rows: seq<View>)
    requires ValidNet(net) && Faithful(net, db) && limit >= 1
    ensures IsAnswer(rows, db.tables.draws, Past(below), RowLimit(Past(below), limit))
    ensures ReadWith(db, rows, limit).Ok?
  {
    hide ValidNet, Faithful, IsAnswer, ReadWith, AllFaithful;
    TipTime(net, db);
    FaithfulIds(net, db);
    var bound: nat;
    if below.Some? {
      bound := below.value;
    } else {
      OneFaithful(net, db);
      bound := BoundOf(net, db, [db]);
    }
    rows := AnswerExists(db.tables.draws, below, limit + 1, bound);
    ReadShows(db, rows, limit, 0);
  }

  lemma OneFaithful(net: Net, db: DB)
    requires ValidNet(net) && Faithful(net, db)
    ensures AllFaithful(net, [db])
  {
    hide ValidNet, Faithful;
  }

  lemma FaithfulIds(net: Net, db: DB)
    requires ValidNet(net) && Faithful(net, db)
    ensures forall id :: id in db.tables.draws ==> db.tables.draws[id].id == id
  {
    assert StoreOk(db);
    hide ValidNet, Faithful, StoreOk;
    StoreMirror(db);
  }

  // Pages of the stores in turn, down to the end of the cursor or of the stores.
  ghost predicate PagesOf(readings: seq<Reading>, dbs: seq<DB>, limit: nat, below: Option<nat>)
    requires limit >= 1
  {
    && 1 <= |readings| <= |dbs|
    && (forall k :: 0 <= k < |readings| ==> readings[k].db == dbs[k])
    && Paged(readings, limit, below)
    && (|readings| < |dbs| ==> Ended(readings[|readings| - 1], limit))
  }

  ghost predicate Ended(r: Reading, limit: nat)
    requires limit >= 1
  {
    ReadWith(r.db, r.rows, limit).Ok? && ReadWith(r.db, r.rows, limit).value.next == None
  }

  // Along any faithful stores a reader can follow the cursor until it ends or the stores do.
  lemma {:induction false} PagesExist(net: Net, dbs: seq<DB>, limit: nat, below: Option<nat>)
    returns (readings: seq<Reading>)
    requires ValidNet(net) && AllFaithful(net, dbs) && dbs != [] && limit >= 1
    ensures PagesOf(readings, dbs, limit, below)
    decreases |dbs|
  {
    assert Faithful(net, dbs[0]) && AllFaithful(net, dbs[1..]);
    hide *;
    var rows := PageExists(net, dbs[0], limit, below);
    var first := Reading(dbs[0], rows);
    var next := ReadWith(dbs[0], rows, limit).value.next;
    if |dbs| > 1 && next.Some? {
      var rest := PagesExist(net, dbs[1..], limit, next);
      readings := [first] + rest;
      PagesFirst(first, rest, dbs, limit, below);
    } else {
      readings := [first];
      PageAlone(first, dbs, limit, below);
    }
  }

  lemma PageAlone(first: Reading, dbs: seq<DB>, limit: nat, below: Option<nat>)
    requires limit >= 1 && dbs != [] && dbs[0] == first.db
    requires IsAnswer(first.rows, first.db.tables.draws, Past(below), RowLimit(Past(below), limit))
    requires ReadWith(first.db, first.rows, limit).Ok?
    requires |dbs| == 1 || ReadWith(first.db, first.rows, limit).value.next.None?
    ensures PagesOf([first], dbs, limit, below)
  {
    hide IsAnswer, ReadWith;
  }

  lemma PagesFirst(first: Reading, rest: seq<Reading>, dbs: seq<DB>, limit: nat, below: Option<nat>)
    requires limit >= 1 && dbs != [] && dbs[0] == first.db
    requires IsAnswer(first.rows, first.db.tables.draws, Past(below), RowLimit(Past(below), limit))
    requires ReadWith(first.db, first.rows, limit).Ok?
    requires
      var next := ReadWith(first.db, first.rows, limit).value.next;
      next.Some? && PagesOf(rest, dbs[1..], limit, next)
    ensures PagesOf([first] + rest, dbs, limit, below)
  {
    hide IsAnswer, ReadWith, Ended;
    var readings := [first] + rest;
    assert readings[1..] == rest && readings[|readings| - 1] == rest[|rest| - 1];
    forall k | 0 <= k < |readings|
      ensures readings[k].db == dbs[k]
    {
      assert k > 0 ==> readings[k] == rest[k - 1] && dbs[k] == dbs[1..][k - 1];
    }
  }

  // Whatever the indexer does between the pages, the cursor can be followed to its end, or as long
  // as there are turns: the readings that PagingWhileIndexing speaks of exist.
  lemma PagesCanBeRead(net: Net, confirmations: nat, db: DB, s: Health, rounds: seq<seq<Outside>>, limit: nat)
    returns (n: nat, readings: seq<Reading>)
    requires ValidNet(net) && AllRoundsHonest(net, rounds) && Faithful(net, db) && limit >= 1
    ensures n <= |rounds| && |readings| == n + 1
    ensures forall k :: 0 <= k < |readings| ==> readings[k].db == Stores(confirmations, db, s, rounds[..n])[k].db
    ensures Paged(readings, limit, None)
    ensures n < |rounds| ==> Ended(readings[n], limit)
  {
    hide *;
    var passes := Stores(confirmations, db, s, rounds);
    StoresForward(net, confirmations, db, s, rounds);
    var dbs := seq(|passes|, k requires 0 <= k < |passes| => passes[k].db);
    LineFaithful(net, passes, dbs);
    readings := PagesExist(net, dbs, limit, None);
    PagesOfFacts(readings, dbs, limit);
    n := |readings| - 1;
    StoresPrefix(confirmations, db, s, rounds, n);
  }

  lemma LineFaithful(net: Net, passes: seq<Pass>, dbs: seq<DB>)
    requires ValidNet(net) && passes != [] && Line(net, passes) && |dbs| == |passes|
    requires forall k :: 0 <= k < |passes| ==> dbs[k] == passes[k].db
    ensures AllFaithful(net, dbs)
  {
    hide ValidNet, Faithful, Forward;
  }

  lemma PagesOfFacts(readings: seq<Reading>, dbs: seq<DB>, limit: nat)
    requires limit >= 1 && PagesOf(readings, dbs, limit, None)
    ensures 1 <= |readings| <= |dbs| && forall k :: 0 <= k < |readings| ==> readings[k].db == dbs[k]
    ensures Paged(readings, limit, None)
    ensures |readings| < |dbs| ==> Ended(readings[|readings| - 1], limit)
  {
    hide Paged, Ended;
  }

  lemma {:induction false} StoresPrefix(confirmations: nat, db: DB, s: Health, rounds: seq<seq<Outside>>, n: nat)
    requires n <= |rounds|
    ensures Stores(confirmations, db, s, rounds[..n]) == Stores(confirmations, db, s, rounds)[..n + 1]
    decreases |rounds|
  {
    hide Turns;
    if n > 0 {
      var p := Turns(rounds[0], confirmations, db, s);
      StoresPrefix(confirmations, p.db, p.health, rounds[1..], n - 1);
      assert rounds[..n][0] == rounds[0] && rounds[..n][1..] == rounds[1..][..n - 1];
    }
  }
}
