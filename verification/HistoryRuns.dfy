/** The history of a contract run only grows at its newer end, so paging is not disturbed by commits. */
module HistoryRuns {
  import opened Basics
  import opened Contract
  import opened Invariants
  import opened Preservation
  import opened Projection
  import opened Refinement
  import opened Store
  import opened Chain
  import opened IndexingSafety
  import opened Pages = History

  ghost predicate Descends(net: Net, h: Hash, from: Hash)
    requires Grounded(net)
    decreases net.block(h).number
  {
    h == from || (net.block(h).number > net.start && Descends(net, net.block(h).parent, from))
  }

  ghost predicate Forward(net: Net, db: DB, db1: DB)
    requires Grounded(net)
  {
    db.cursorHash.Some? ==> db1.cursorHash.Some? && Descends(net, db1.cursorHash.value, db.cursorHash.value)
  }

  lemma {:induction false} DescendsEvolves(net: Net, h: Hash, from: Hash)
    requires ValidNet(net) && Descends(net, h, from)
    ensures Evolves(StateAt(net, from), StateAt(net, h))
    decreases net.block(h).number
  {
    if h == from {
      EvolvesReflexive(StateAt(net, h));
    } else {
      var parent := net.block(h).parent;
      DescendsEvolves(net, parent, from);
      BlockEvolves(net, h);
      hide ValidNet, Evolves, RunAll;
      EvolvesTransitive(StateAt(net, from), StateAt(net, parent), StateAt(net, h));
    }
  }

  lemma EvolvedSettles(c: Config, w: World, w1: World)
    requires AtRest(c, w) && AtRest(c, w1) && Evolves(w, w1)
    ensures Settles(Projected(c, w.lot), Projected(c, w1.lot))
  {
    hide Projected, Inv, Evolves, IsFinal;
    var draws, draws1 := Projected(c, w.lot), Projected(c, w1.lot);
    forall id: nat
      ensures IsFinal(draws, id) ==> 1 <= id <= w.lot.currentDrawId && IsFinal(draws1, id)
      ensures 1 <= id < w.lot.currentDrawId ==> IsFinal(draws, id)
    {
      NotStarted(c, w.lot, id);
      if 1 <= id <= w.lot.currentDrawId {
        EvolvedDraw(c, w, w1, id);
      }
    }
    StartedDraws(c, w1.lot);
  }

  lemma NotStarted(c: Config, l: Lot, id: nat)
    ensures IsFinal(Projected(c, l), id) ==> 1 <= id <= l.currentDrawId
  {}

  lemma StartedDraws(c: Config, l: Lot)
    ensures forall id: nat :: IsFinal(Projected(c, l), id) ==> id >= 1
  {}

  lemma EvolvedDraw(c: Config, w: World, w1: World, id: nat)
    requires AtRest(c, w) && Evolves(w, w1) && 1 <= id <= w.lot.currentDrawId
    ensures IsFinal(Projected(c, w.lot), id) <==> Final(w.lot.DrawOf(id).status)
    ensures IsFinal(Projected(c, w.lot), id) ==> IsFinal(Projected(c, w1.lot), id)
    ensures id < w.lot.currentDrawId ==> IsFinal(Projected(c, w.lot), id)
  {
    hide Buckets, Requests, RoundOk, ChainTickets;
    assert RoundEvolves(RoundAt(w.lot, id), RoundAt(w1.lot, id));
    RoundFacts(c, w.lot, false, id);
  }

  // Between forward commits the history only grows at its newer end.
  lemma ForwardSettles(net: Net, db: DB, db1: DB)
    requires ValidNet(net) && Faithful(net, db) && Faithful(net, db1) && Forward(net, db, db1)
    ensures Settles(db.tables.draws, db1.tables.draws)
  {
    assert Grounded(net);
    hide *;
    FaithfulTables(net, db);
    FaithfulTables(net, db1);
    if db.cursorHash.Some? {
      ForwardDescends(net, db, db1);
      DescendedSettles(net, db.cursorHash.value, db1.cursorHash.value);
    } else {
      NothingSettled(db1.tables.draws);
    }
  }

  lemma ForwardDescends(net: Net, db: DB, db1: DB)
    requires Grounded(net) && Forward(net, db, db1) && db.cursorHash.Some?
    ensures db1.cursorHash.Some? && Descends(net, db1.cursorHash.value, db.cursorHash.value)
  {
    hide Grounded, Descends;
  }

  lemma NothingSettled(draws: Draws)
    ensures Settles(map[], draws)
  {}

  lemma DescendedSettles(net: Net, h: Hash, h1: Hash)
    requires ValidNet(net) && Descends(net, h1, h)
    ensures Settles(Projected(net.c, StateAt(net, h).lot), Projected(net.c, StateAt(net, h1).lot))
  {
    assert Grounded(net);
    hide *;
    StateAtRest(net, h);
    StateAtRest(net, h1);
    DescendsEvolves(net, h1, h);
    EvolvedSettles(net.c, StateAt(net, h), StateAt(net, h1));
  }

  lemma FaithfulTables(net: Net, db: DB)
    requires ValidNet(net) && Faithful(net, db)
    ensures db.cursorHash.None? ==> db.tables.draws == map[]
    ensures db.cursorHash.Some? ==> AtRest(net.c, StateAt(net, db.cursorHash.value))
    ensures db.cursorHash.Some? ==> db.tables.draws == Projected(net.c, StateAt(net, db.cursorHash.value).lot)
  {
    assert ProjectAll(db.events) == Ok(db.tables);
    if db.cursorHash.Some? {
      BranchProjects(net, db.cursorHash.value);
      StateAtRest(net, db.cursorHash.value);
    }
  }

  // A fresh commit is a forward step.
  lemma CommitIsForward(net: Net, db: DB, b: Block, events: seq<Event>)
    requires ValidNet(net) && Faithful(net, db) && Commit(db, b, events).Ok?
      && Faithful(net, Commit(db, b, events).value)
    ensures Forward(net, db, Commit(db, b, events).value)
  {
    var db1 := Commit(db, b, events).value;
    CommitKeeps(db, b, events);
    if db.cursorHash.Some? && b.number > db.cursor {
      TipBlock(net, db);
      TipBlock(net, db1);
      assert Descends(net, db.cursorHash.value, db.cursorHash.value);
    }
  }

  ghost predicate AllFaithful(net: Net, dbs: seq<DB>)
    requires ValidNet(net)
  {
    forall k :: 0 <= k < |dbs| ==> Faithful(net, dbs[k])
  }

  ghost predicate AllForward(net: Net, dbs: seq<DB>)
    requires Grounded(net)
  {
    forall k :: 0 <= k < |dbs| - 1 ==> Forward(net, dbs[k], dbs[k + 1])
  }

  function DrawsOf(dbs: seq<DB>): (states: seq<Draws>)
    ensures |states| == |dbs| && forall k :: 0 <= k < |dbs| ==> states[k] == dbs[k].tables.draws
  {
    if dbs == [] then [] else [dbs[0].tables.draws] + DrawsOf(dbs[1..])
  }

  // Paging through the history while the indexer commits further blocks of a contract run.
  lemma PagingAcrossCommits(net: Net, dbs: seq<DB>, answers: seq<seq<View>>, limit: nat)
    requires ValidNet(net) && AllFaithful(net, dbs) && AllForward(net, dbs)
    requires limit >= 1 && |answers| == |dbs| > 0 && Traversal(DrawsOf(dbs), answers, limit, None)
    ensures
      var ids := Listed(answers, limit);
      && Descending(ids)
      && (forall id :: id in ids ==> IsFinal(dbs[0].tables.draws, id))
      && (Next(answers[|answers| - 1], limit).None? <==>
         (forall id: nat :: IsFinal(dbs[0].tables.draws, id) ==> id in ids))
      && (Next(answers[|answers| - 1], limit).Some? ==> |ids| == limit * |answers|)
  {
    assert Grounded(net);
    var states := DrawsOf(dbs);
    forall k | 0 <= k < |states| - 1
      ensures Settles(states[k], states[k + 1])
    {
      ConsecutiveSettles(net, dbs, k);
    }
    assert Settling(states);
    var bound := BoundOf(net, dbs[0], dbs);
    hide *;
    HistoryPaging(states, answers, limit, bound);
  }

  lemma ConsecutiveSettles(net: Net, dbs: seq<DB>, k: nat)
    requires ValidNet(net) && AllFaithful(net, dbs) && AllForward(net, dbs) && k + 1 < |dbs|
    ensures Settles(dbs[k].tables.draws, dbs[k + 1].tables.draws)
  {
    hide ValidNet, Faithful, Forward;
    ForwardSettles(net, dbs[k], dbs[k + 1]);
  }

  lemma BoundOf(net: Net, db: DB, dbs: seq<DB>) returns (bound: nat)
    requires ValidNet(net) && AllFaithful(net, dbs) && |dbs| > 0 && db == dbs[0]
    ensures forall id :: id in db.tables.draws ==> id < bound
  {
    assert Grounded(net);
    hide ValidNet, Faithful, StateAt, Inv;
    FaithfulTables(net, db);
    bound := if db.cursorHash.Some? then StateAt(net, db.cursorHash.value).lot.currentDrawId + 1 else 0;
  }

  /******* What a reader of the projection gets *******/

  ghost predicate ViewAgrees(net: Net, h: Hash, v: View)
    requires Grounded(net)
  {
    Agrees(net.c, StateAt(net, h).lot, v.id, net.block(h).timestamp, v)
  }

  // A snapshot of a faithful store shows the contract's own records, at the block it names and at
  // that block's time; before the first block it shows nothing.
  lemma SnapshotAgrees(net: Net, db: DB, rows: seq<View>, mode: Mode, limit: nat, k: nat)
    requires ValidNet(net) && Faithful(net, db) && limit >= 1
    requires IsAnswer(rows, db.tables.draws, mode, RowLimit(mode, limit))
    ensures ReadWith(db, rows, limit).Ok?
    ensures
      var s := ReadWith(db, rows, limit).value;
      && s.cursor == db.cursor && s.hash == db.cursorHash
      && (k < |s.draws| ==>
        && s.hash.Some? && s.chainTime == net.block(s.hash.value).timestamp
        && ViewAgrees(net, s.hash.value, s.draws[k]))
  {
    assert Grounded(net);
    TipTime(net, db);
    ReadShows(db, rows, limit, k);
    var s := ReadWith(db, rows, limit).value;
    if k < |s.draws| {
      hide *;
      AnswerRow(rows, db.tables.draws, mode, RowLimit(mode, limit), k);
      RowAgrees(net, db, rows[k], s.chainTime);
    } else {
      hide *;
    }
  }

  lemma AnswerRow(rows: seq<View>, draws: Draws, mode: Mode, n: nat, k: nat)
    requires IsAnswer(rows, draws, mode, n) && k < |rows|
    ensures rows[k].id in draws && rows[k] == draws[rows[k].id]
  {
    assert Selected(draws, mode, rows[k].id);
  }

  lemma RowAgrees(net: Net, db: DB, v: View, now: nat)
    requires ValidNet(net) && Faithful(net, db) && v.id in db.tables.draws && v == db.tables.draws[v.id]
    ensures db.cursorHash.Some? && Grounded(net)
    ensures now == net.block(db.cursorHash.value).timestamp ==>
      ViewAgrees(net, db.cursorHash.value, Refreshed(v, now))
  {
    assert Grounded(net);
    hide ValidNet, Faithful, StateAt, Inv, Agrees, Projected, Grounded;
    FaithfulAgrees(net, db, v.id, now);
    RefreshedId(v, now);
  }

  lemma TipTime(net: Net, db: DB)
    requires ValidNet(net) && Faithful(net, db)
    ensures db.cursorHash.Some? <==> db.cursor >= db.start
    ensures db.cursor >= db.start ==> db.cursor in db.blocks
    ensures db.cursor >= db.start ==> db.blocks[db.cursor].timestamp == net.block(db.cursorHash.value).timestamp
  {
    hide ValidNet, EventsOk, ProjectAll, BranchEvents;
    if db.cursor >= db.start {
      assert BlockTrue(net, db.blocks[db.cursor]);
    }
  }

  predicate OnlyDraw(s: Snapshot, id: nat) {
    |s.draws| == 1 && s.draws[0].id == id
  }

  // The unfiltered query shows the current round, the query for one draw exactly a started one.
  lemma SnapshotSelects(net: Net, db: DB, rows: seq<View>, mode: Mode, limit: nat)
    requires ValidNet(net) && Faithful(net, db) && limit >= 1 && !mode.Past?
    requires IsAnswer(rows, db.tables.draws, mode, RowLimit(mode, limit))
    ensures
      var started := if db.cursorHash.Some? then StateAt(net, db.cursorHash.value).lot.currentDrawId else 0;
      var s := ReadWith(db, rows, limit);
      && s.Ok?
      && (mode.Current? ==> if started == 0 then s.value.draws == [] else OnlyDraw(s.value, started))
      && (mode.Detail? ==> if 1 <= mode.id <= started then OnlyDraw(s.value, mode.id) else s.value.draws == [])
  {
    assert Grounded(net);
    TipTime(net, db);
    var started := if db.cursorHash.Some? then StateAt(net, db.cursorHash.value).lot.currentDrawId else 0;
    StartedIds(net, db, started);
    hide *;
    SelectsStarted(db, rows, mode, limit, started);
  }

  lemma StartedIds(net: Net, db: DB, started: nat)
    requires ValidNet(net) && Faithful(net, db) && Grounded(net)
    requires started == if db.cursorHash.Some? then StateAt(net, db.cursorHash.value).lot.currentDrawId else 0
    ensures forall id: nat :: id in db.tables.draws <==> 1 <= id <= started
  {
    hide ValidNet, Faithful, StateAt, Inv, Grounded, Stored;
    FaithfulTables(net, db);
  }

  lemma SelectsStarted(db: DB, rows: seq<View>, mode: Mode, limit: nat, started: nat)
    requires limit >= 1 && !mode.Past? && (db.cursor >= db.start ==> db.cursor in db.blocks)
    requires IsAnswer(rows, db.tables.draws, mode, RowLimit(mode, limit))
    requires forall id: nat :: id in db.tables.draws <==> 1 <= id <= started
    ensures
      var s := ReadWith(db, rows, limit);
      && s.Ok?
      && (mode.Current? ==> if started == 0 then s.value.draws == [] else OnlyDraw(s.value, started))
      && (mode.Detail? ==> if 1 <= mode.id <= started then OnlyDraw(s.value, mode.id) else s.value.draws == [])
  {
    hide ReadWith, Refreshed;
    ReadShows(db, rows, limit, 0);
    var wanted := if mode.Current? then started else mode.id;
    assert 1 <= wanted <= started ==> Selected(db.tables.draws, mode, wanted);
    if rows != [] {
      AnswerRow(rows, db.tables.draws, mode, 1, 0);
      assert Selected(db.tables.draws, mode, rows[0].id);
      RefreshedId(rows[0], ReadWith(db, rows, limit).value.chainTime);
    }
  }

  // What the history lists: of a faithful store, just the rounds that the contract has finished at the
  // cursor hash.
  lemma HistoryListsFinished(net: Net, db: DB, id: nat)
    requires ValidNet(net) && Faithful(net, db)
    ensures Grounded(net)
    ensures Selected(db.tables.draws, Past(None), id) <==>
      && db.cursorHash.Some?
      && var l := StateAt(net, db.cursorHash.value).lot;
      1 <= id <= l.currentDrawId && l.DrawOf(id).status in {WINNER_DECLARED, COMPLETED, NO_WINNER, CANCELLED}
  {
    assert Grounded(net);
    hide *;
    FaithfulTables(net, db);
    if db.cursorHash.Some? {
      FinishedRounds(net.c, StateAt(net, db.cursorHash.value).lot, id);
    } else {
      NothingListed(id);
    }
  }

  lemma FinishedRounds(c: Config, l: Lot, id: nat)
    ensures Selected(Projected(c, l), Past(None), id) <==>
      1 <= id <= l.currentDrawId && l.DrawOf(id).status in {WINNER_DECLARED, COMPLETED, NO_WINNER, CANCELLED}
  {
    hide ChainTickets;
  }

  lemma NothingListed(id: nat)
    ensures !Selected(map[], Past(None), id)
  {}
}
