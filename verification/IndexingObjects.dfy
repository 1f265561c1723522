/** The indexer as it runs against a store. */
module IndexingObjects {
  import opened Basics
  import opened Rows = Store
  import opened StoreObjects
  import opened Indexing

  lemma {:induction false} DecodeStops(logs: seq<Log>, next: int, h: Header, k: nat)
    requires k <= |logs| && DecodeAll(logs[..k], next, h).Revert?
    ensures DecodeAll(logs, next, h) == DecodeAll(logs[..k], next, h)
  {
    if k == |logs| {
      assert logs[..k] == logs;
    } else {
      assert logs[..|logs| - 1][..k] == logs[..k];
      DecodeStops(logs[..|logs| - 1], next, h, k);
    }
  }

  method DecodeLogs(logs: seq<Log>, next: int, h: Header) returns (r: Result<seq<Event>>)
    ensures r == DecodeAll(logs, next, h)
  {
    var events: seq<Event> := [];
    var k := 0;
    while k < |logs|
      invariant 0 <= k <= |logs|
      invariant DecodeAll(logs[..k], next, h) == Ok(events)
    {
      var l := logs[k];
      assert logs[..k + 1][..k] == logs[..k];
      if l.removed || l.address != LOTTERY || l.blockHash != h.hash || l.blockNumber != next {
        DecodeStops(logs, next, h, k + 1);
        return Revert(NoncanonicalLog);
      }
      if l.payload.None? {
        DecodeStops(logs, next, h, k + 1);
        return Revert(UndecodableLog);
      }
      events := events + [Event(l.payload.value, l.blockNumber, l.blockHash, l.txHash, l.txIndex, l.logIndex,
          h.timestamp)];
      k := k + 1;
    }
    assert logs[..k] == logs;
    r := Ok(events);
  }

  lemma CommittedCursor(db: DB, b: Block, events: seq<Event>)
    requires b.number > db.cursor
    ensures Commit(db, b, events).Ok? ==>
      Commit(db, b, events).value.cursor == b.number && Commit(db, b, events).value.cursorHash == Some(b.hash)
  {
    hide InsertAll;
  }

  class Indexer {
    const store: StoreObjects.Store
    const confirmations: nat
    var health: Health

    constructor (store: StoreObjects.Store, confirmations: nat)
      ensures this.store == store && this.confirmations == confirmations && health == NEW_HEALTH
    {
      this.store := store;
      this.confirmations := confirmations;
      health := NEW_HEALTH;
    }

    method Sync(out: Outside) returns (err: Option<Error>)
      modifies `health, store
      ensures Pass(store.Value(), health, err) == Indexing.Sync(out, confirmations, old(store.Value()), old(health))
    {
      hide Commit, Rewound, DecodeAll, Walk, Scan, KeptEvents;
      if !out.at(Begin).database { return Some(LockLost); }
      if out.at(Begin).head.None? { return Some(NodeFailed); }
      var head := out.at(Begin).head.value;
      var safe := head - confirmations;
      health := health.(observedHead := head, safeHead := safe, synced := false);
      if !out.at(ReadCursor).database { return Some(DatabaseFailed); }
      var cursor, hash := store.Cursor();
      // Validate the old tip even when there is nothing new to scan.
      if cursor >= store.start {
        var found := FindAncestor(out, if cursor > head then head else cursor);
        if found.Revert? { return Some(found.error); }
        var ancestor := Max(found.value, store.start - 1);
        if ancestor < cursor {
          health := health.(recovering := true, reorgs := health.reorgs + 1);
          if !out.at(Rewinding).database { return Some(DatabaseFailed); }
          err := store.Rewind(ancestor, out.select);
          if err.Some? { return; }
          if !out.at(Reread).database { return Some(DatabaseFailed); }
          cursor, hash := store.Cursor();
        }
      }
      health := health.(recovering := false);
      err := ScanBlocks(out, cursor, hash, safe);
    }

    // Down from `from` to the first stored block that the node still serves.
    method FindAncestor(out: Outside, from: int) returns (r: Result<int>)
      ensures r == Walk(out, store.Value(), from)
    {
      var ancestor := from;
      while ancestor >= store.start
        invariant Walk(out, store.Value(), from) == Walk(out, store.Value(), ancestor)
      {
        var a := out.at(Validate(ancestor));
        if ancestor !in a.headers { return Revert(NodeFailed); }
        if !a.database { return Revert(DatabaseFailed); }
        var stored := store.BlockAt(ancestor);
        if stored.Revert? { return Revert(stored.error); }
        if a.headers[ancestor].hash == stored.value.hash { break; }
        ancestor := ancestor - 1;
      }
      r := Ok(ancestor);
    }

    // The scan: at most 100 blocks, none above `safe`.
    method ScanBlocks(out: Outside, from: int, tip: Option<Hash>, safe: int) returns (err: Option<Error>)
      requires from == store.cursor && tip == store.cursorHash
      modifies `health, store
      ensures Pass(store.Value(), health, err) == Scan(out, old(store.Value()), old(health), safe, MAX_BLOCKS)
    {
      hide Commit, DecodeAll;
      var cursor, hash := from, tip;
      var processed := 0;
      while cursor < safe && processed < MAX_BLOCKS
        invariant cursor == store.cursor && hash == store.cursorHash && processed <= MAX_BLOCKS
        invariant Scan(out, store.Value(), health, safe, MAX_BLOCKS - processed) ==
          Scan(out, old(store.Value()), old(health), safe, MAX_BLOCKS)
        decreases MAX_BLOCKS - processed
      {
        var next := cursor + 1;
        var fetched := out.at(Fetch(next));
        if next !in fetched.headers { return Some(NodeFailed); }
        var h := fetched.headers[next];
        if hash.Some? && h.parentHash != hash.value { return Some(ParentChanged); }
        var filtered := out.at(FetchLogs(next));
        if h.hash !in filtered.logs { return Some(NodeFailed); }
        var logs := out.sort(filtered.logs[h.hash]);
        var decoded := DecodeLogs(logs, next, h);
        if decoded.Revert? { return Some(decoded.error); }
        // Recheck the header so as not to commit a known orphan.
        var current := out.at(Recheck(next));
        if next !in current.headers { return Some(NodeFailed); }
        if current.headers[next].hash != h.hash { return Some(BlockChanged); }
        if !current.database { return Some(DatabaseFailed); }
        CommittedCursor(store.Value(), Block(next, h.hash, h.parentHash, h.timestamp), decoded.value);
        err := store.CommitBlock(Block(next, h.hash, h.parentHash, h.timestamp), decoded.value);
        if err.Some? { return; }
        cursor, hash := next, Some(h.hash);
        health := health.(indexedBlock := cursor);
        processed := processed + 1;
      }
      health := health.(indexedBlock := cursor, synced := cursor >= safe);
      err := None;
    }

    // The polling loop, one element of `outs` for every turn.
    method Run(outs: seq<Outside>)
      modifies `health, store
      ensures
        var p := Turns(outs, confirmations, old(store.Value()), old(health));
        store.Value() == p.db && health == p.health
    {
      hide Indexing.Sync;
      var k := 0;
      while k < |outs|
        invariant 0 <= k <= |outs|
        invariant
          var p := Turns(outs[..k], confirmations, old(store.Value()), old(health));
          store.Value() == p.db && health == p.health
      {
        assert outs[..k + 1][..k] == outs[..k] && outs[..k + 1][k] == outs[k];
        var err := Sync(outs[k]);
        if err.Some? {
          health := health.(failures := health.failures + 1, synced := false);
        }
        k := k + 1;
      }
      assert outs[..k] == outs;
    }
  }
}
