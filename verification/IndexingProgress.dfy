/** Where a pass rewinds to, how far it scans, and that passes catch up with a chain that stops changing. */
module IndexingProgress {
  import opened Basics
  import opened Contract
  import opened Store
  import opened Chain
  import opened Indexing
  import opened IndexingSafety

  /******* The common ancestor *******/

  // The header hash that the node serves while the pass validates block `n`.
  ghost predicate ServedAs(out: Outside, n: int, h: Hash) {
    n in out.at(Validate(n)).headers && out.at(Validate(n)).headers[n].hash == h
  }

  // The walk stops at the highest block that is served as it is stored, or below the start.
  lemma {:induction false} WalkStops(out: Outside, db: DB, from: int)
    requires Walk(out, db, from).Ok?
    ensures
      var a := Walk(out, db, from).value;
      && a <= from && (a >= db.start || a == Min(from, db.start - 1))
      && (a >= db.start ==> a in db.blocks && ServedAs(out, a, db.blocks[a].hash))
      && (forall n :: Max(a, db.start - 1) < n <= from ==>
         n in db.blocks && n in out.at(Validate(n)).headers && !ServedAs(out, n, db.blocks[n].hash))
    decreases from - db.start
  {
    if from >= db.start && out.at(Validate(from)).headers[from].hash != db.blocks[from].hash {
      WalkStops(out, db, from - 1);
    }
  }

  // One branch of the tree, by block number.
  ghost predicate IsBranch(net: Net, chain: nat -> Hash) {
    forall n: nat :: net.block(chain(n)).number == n && (n > 0 ==> net.block(chain(n)).parent == chain(n - 1))
  }

  lemma BranchBlock(net: Net, chain: nat -> Hash, n: nat)
    requires IsBranch(net, chain)
    ensures net.block(chain(n)).number == n && (n > 0 ==> net.block(chain(n)).parent == chain(n - 1))
  {}

  // A stored block on a branch has its whole stored past on it.
  lemma {:induction false} PastOnBranch(net: Net, chain: nat -> Hash, db: DB, a: int, n: int)
    requires ValidNet(net) && Faithful(net, db) && IsBranch(net, chain)
    requires db.start <= n <= a <= db.cursor && db.blocks[a].hash == chain(a)
    ensures db.blocks[n].hash == chain(n)
    decreases a - n
  {
    hide ValidNet, BranchEvents, EventsOk, ProjectAll, IsBranch;
    if n < a {
      PastOnBranch(net, chain, db, a, n + 1);
      BranchBlock(net, chain, n + 1);
      assert BlockTrue(net, db.blocks[n + 1]);
    }
  }

  // If the node serves one branch while the old tip is validated, the walk finds exactly the
  // stored blocks that are on it: it stops at the highest of them, and keeps nothing else.
  lemma CommonAncestor(net: Net, chain: nat -> Hash, out: Outside, db: DB, head: nat, n: int)
    requires ValidNet(net) && Faithful(net, db) && IsBranch(net, chain)
    requires forall m: nat :: m in out.at(Validate(m)).headers ==> ServedAs(out, m, chain(m))
    requires Walk(out, db, Min(db.cursor, head)).Ok? && db.start <= n <= Min(db.cursor, head)
    ensures n <= Walk(out, db, Min(db.cursor, head)).value <==> db.blocks[n].hash == chain(n)
  {
    var from := Min(db.cursor, head);
    var a := Walk(out, db, from).value;
    WalkStops(out, db, from);
    assert n in db.blocks;
    if n <= a {
      assert db.blocks[a].hash == chain(a);
      hide ValidNet, Faithful, IsBranch;
      PastOnBranch(net, chain, db, a, n);
    }
  }

  /******* What a scan may change *******/

  // No block is committed above `safe`, and at most `left` are.
  lemma {:induction false} ScanBounded(out: Outside, db: DB, s: Health, safe: int, left: nat)
    ensures
      var db1 := Scan(out, db, s, safe, left).db;
      && db.cursor <= db1.cursor <= Max(db.cursor, safe) && db1.cursor <= db.cursor + left
      && (forall n :: n in db1.blocks ==>
         (n in db.blocks && db1.blocks[n] == db.blocks[n]) || db.cursor < n <= db1.cursor)
    decreases left
  {
    hide ScanBlock;
    if db.cursor < safe && left != 0 && ScanBlock(out, db).Ok? {
      var b := ScannedBlock(out, db);
      var db1 := ScanBlock(out, db).value;
      ScanBounded(out, db1, s.(indexedBlock := db1.cursor), safe, left - 1);
    }
  }

  lemma ScannedBlock(out: Outside, db: DB) returns (b: Block)
    requires ScanBlock(out, db).Ok?
    ensures
      var db1 := ScanBlock(out, db).value;
      db1.cursor == db.cursor + 1 && db1.start == db.start && db1.blocks == db.blocks[db1.cursor := b]
  {
    hide InsertAll, DecodeAll;
    var h := out.at(Fetch(db.cursor + 1)).headers[db.cursor + 1];
    b := Block(db.cursor + 1, h.hash, h.parentHash, h.timestamp);
  }

  // Confirmation depth: whatever is answered, a pass adds no block above the observed head minus
  // the confirmations, and no more than 100 beyond the cursor.
  lemma ConfirmationDepth(out: Outside, confirmations: nat, db: DB, s: Health, n: int)
    requires db.start - 1 <= db.cursor && n in Sync(out, confirmations, db, s).db.blocks
    ensures
      || (n in db.blocks && Sync(out, confirmations, db, s).db.blocks[n] == db.blocks[n])
      || (out.at(Begin).head.Some? && n <= out.at(Begin).head.value - confirmations && n <= db.cursor + MAX_BLOCKS)
  {
    hide Scan, Rewound, Walk, KeptEvents, Sync, Rewinds;
    var s1, safe, a := SyncCases(out, confirmations, db, s);
    RewindsCases(out, db, s1, safe, a);
    ScanBounded(out, db, s1.(recovering := false), safe, MAX_BLOCKS);
    var rewound := Rewound(db, a, out.select(KeptEvents(db.events, a)));
    if rewound.Ok? {
      RewoundBlocks(db, a, out.select(KeptEvents(db.events, a)));
      ScanBounded(out, rewound.value, s1.(recovering := false, reorgs := s1.reorgs + 1), safe, MAX_BLOCKS);
    }
  }

  lemma RewoundBlocks(db: DB, a: int, rows: seq<Event>)
    requires Rewound(db, a, rows).Ok?
    ensures Rewound(db, a, rows).value.cursor == a && Rewound(db, a, rows).value.blocks == KeptBlocks(db.blocks, a)
  {
    hide ProjectAll;
  }

  // Scanning only adds to what is stored.
  lemma {:induction false} ScanExtends(out: Outside, db: DB, s: Health, safe: int, left: nat, a: int)
    requires StoreOk(db) && db.start - 1 <= a <= db.cursor
    ensures
      var p := Scan(out, db, s, safe, left);
      StoreOk(p.db) && p.db.start == db.start && a <= p.db.cursor && At(p.db, a) == At(db, a)
    decreases left
  {
    hide *;
    ScanUnfold(out, db, s, safe, left);
    if db.cursor < safe && left != 0 && ScanBlock(out, db).Ok? {
      var db1 := ScanBlock(out, db).value;
      ScannedAt(out, db, a);
      ScanExtends(out, db1, s.(indexedBlock := db1.cursor), safe, left - 1, a);
    }
  }

  lemma ScannedAt(out: Outside, db: DB, a: int)
    requires StoreOk(db) && ScanBlock(out, db).Ok? && db.start - 1 <= a <= db.cursor
    ensures
      var db1 := ScanBlock(out, db).value;
      StoreOk(db1) && db1.start == db.start && a <= db1.cursor && At(db1, a) == At(db, a)
  {
    var next := db.cursor + 1;
    var h := out.at(Fetch(next)).headers[next];
    var events := DecodeAll(out.sort(out.at(FetchLogs(next)).logs[h.hash]), next, h).value;
    hide StoreOk, At, Commit, DecodeAll;
    CommitThenAt(db, Block(next, h.hash, h.parentHash, h.timestamp), events, a);
    var _ := ScannedBlock(out, db);
  }

  // A pass either leaves the store alone or leaves exactly what it held at the common ancestor,
  // with new blocks on top.
  lemma PassKeepsAncestor(net: Net, out: Outside, confirmations: nat, db: DB, s: Health, head: nat)
    requires ValidNet(net) && Honest(net, out) && Faithful(net, db) && StoreOk(db)
    requires out.at(Begin).head == Some(head)
    ensures
      var db1 := Sync(out, confirmations, db, s).db;
      var a := Validated(out, db, head);
      && db.start - 1 <= a <= db.cursor
      && (db1 == db || (StoreOk(db1) && db1.start == db.start && a <= db1.cursor && At(db1, a) == At(db, a)))
  {
    hide *;
    FaithfulStart(net, db);
    ValidatedRange(out, db, head);
    var a := Validated(out, db, head);
    FaithfulRewind(net, out, db, a);
    RewindsCollapse(db, a, a);
    AtFields(db, a);
    var s1, s2 := PassCases(out, confirmations, db, s, head);
    ScanExtends(out, db, s1, head - confirmations, MAX_BLOCKS, a);
    ScanExtends(out, At(db, a), s2, head - confirmations, MAX_BLOCKS, a);
  }

  lemma ValidatedRange(out: Outside, db: DB, head: nat)
    requires db.start - 1 <= db.cursor
    ensures db.start - 1 <= Validated(out, db, head) <= db.cursor
  {
    hide Walk;
    if Walk(out, db, Min(db.cursor, head)).Ok? {
      WalkRange(out, db, Min(db.cursor, head));
    }
  }

  lemma PassCases(out: Outside, confirmations: nat, db: DB, s: Health, head: nat) returns (s1: Health, s2: Health)
    requires out.at(Begin).head == Some(head)
    ensures
      var p := Sync(out, confirmations, db, s);
      var a := Validated(out, db, head);
      var r := Rewound(db, a, out.select(KeptEvents(db.events, a)));
      || (p.db == db && p.error.Some?)
      || (a >= db.cursor && p == Scan(out, db, s1, head - confirmations, MAX_BLOCKS))
      || (r.Ok? && a < db.cursor
        && ((p.db == r.value && p.error.Some?) || p == Scan(out, r.value, s2, head - confirmations, MAX_BLOCKS)))
  {
    hide Scan, Walk, Rewound, KeptEvents, Min, Max;
    s1 := s.(observedHead := head, safeHead := head - confirmations, synced := false, recovering := false);
    s2 := s1.(reorgs := s1.reorgs + 1);
  }

  // Where a pass over a working node and database continues to scan.
  function Validated(out: Outside, db: DB, head: nat): int {
    if db.cursor < db.start || Walk(out, db, Min(db.cursor, head)).Revert? then db.cursor
    else Max(Walk(out, db, Min(db.cursor, head)).value, db.start - 1)
  }

  /******* A chain that stops changing *******/

  ghost predicate Clean(net: Net, h: Hash, logs: seq<Log>) {
    forall l :: l in logs ==> Canonical(l, net.block(h).number, TrueHeader(net, h)) && l.payload.Some?
  }

  // Everything works, and every answer is from the branch with this head.
  ghost predicate Stable(net: Net, chain: nat -> Hash, head: nat, out: Outside)
    requires ValidNet(net)
  {
    && Honest(net, out)
    && (forall m :: out.at(m).database && out.at(m).head == Some(head))
    && (forall m, n: nat :: n <= head ==> n in out.at(m).headers && out.at(m).headers[n].hash == chain(n))
    && (forall m, n: nat :: n <= head ==> chain(n) in out.at(m).logs && Clean(net, chain(n), out.at(m).logs[chain(n)]))
  }

  ghost predicate OnBranch(chain: nat -> Hash, head: nat, db: DB) {
    && db.cursor <= Max(head, db.start - 1)
    && (forall n: nat :: n in db.blocks ==> db.blocks[n].hash == chain(n))
  }

  lemma {:induction false} CleanDecodes(net: Net, h: Hash, logs: seq<Log>)
    requires Clean(net, h, logs)
    ensures DecodeAll(logs, net.block(h).number, TrueHeader(net, h)).Ok?
  {
    if logs != [] {
      CleanDecodes(net, h, logs[..|logs| - 1]);
    }
  }

  lemma SortedClean(net: Net, h: Hash, logs: seq<Log>, given: seq<Log>)
    requires Clean(net, h, given) && IsSorting(logs, given)
    ensures Clean(net, h, logs)
  {
    forall l | l in logs
      ensures l in given
    {
      assert l in multiset(logs);
    }
  }

  lemma StableBlock(net: Net, chain: nat -> Hash, head: nat, out: Outside, db: DB)
    requires ValidNet(net) && IsBranch(net, chain) && Stable(net, chain, head, out) && Faithful(net, db)
    requires OnBranch(chain, head, db) && db.cursor < head
    ensures ScanBlock(out, db).Ok?
    ensures OnBranch(chain, head, ScanBlock(out, db).value)
  {
    hide ValidNet, Honest, HonestAnswer, HonestLogs, Faithful, Commit, BlockEvents, StateAt, DecodeAll, IsSorting,
        Clean, IsBranch, Stable;
    var next := db.cursor + 1;
    FaithfulStart(net, db);
    var h := chain(next);
    BranchBlock(net, chain, next);
    StableHonest(net, chain, head, out);
    StableAnswer(net, chain, head, out, Fetch(next), next);
    StableAnswer(net, chain, head, out, FetchLogs(next), next);
    StableAnswer(net, chain, head, out, Recheck(next), next);
    HonestSort(net, out, out.at(FetchLogs(next)).logs[h]);
    TipOnBranch(net, chain, head, db);
    var logs := out.sort(out.at(FetchLogs(next)).logs[h]);
    SortedClean(net, h, logs, out.at(FetchLogs(next)).logs[h]);
    CleanDecodes(net, h, logs);
    DecodedEvents(net, h, out.at(FetchLogs(next)).logs[h], logs);
    var events := DecodeAll(logs, next, TrueHeader(net, h)).value;
    FaithfulCommit(net, db, h, events);
    CommittedBlocks(db, Block(next, h, net.block(h).parent, net.block(h).timestamp), events);
  }

  // What a stable node answers about one block.
  lemma StableAnswer(net: Net, chain: nat -> Hash, head: nat, out: Outside, m: Moment, n: nat)
    requires ValidNet(net) && IsBranch(net, chain) && Stable(net, chain, head, out) && n <= head
    ensures
      var a := out.at(m);
      && a.database && a.head == Some(head)
      && n in a.headers && a.headers[n] == TrueHeader(net, chain(n))
      && chain(n) in a.logs && Clean(net, chain(n), a.logs[chain(n)])
      && (n >= net.start ==> net.block(chain(n)).number == n && HonestLogs(net, chain(n), a.logs[chain(n)]))
  {
    hide ValidNet, HonestLogs, Clean;
    assert HonestAnswer(net, out.at(m));
    BranchBlock(net, chain, n);
  }

  lemma HonestSort(net: Net, out: Outside, logs: seq<Log>)
    requires ValidNet(net) && Honest(net, out)
    ensures IsSorting(out.sort(logs), logs)
  {
    hide ValidNet, HonestAnswer, IsSorting;
  }

  lemma CommittedBlocks(db: DB, b: Block, events: seq<Event>)
    requires b.number > db.cursor && Commit(db, b, events).Ok?
    ensures
      var db1 := Commit(db, b, events).value;
      db1.cursor == b.number && db1.start == db.start && db1.blocks == db.blocks[b.number := b]
  {
    hide InsertAll;
  }

  lemma TipOnBranch(net: Net, chain: nat -> Hash, head: nat, db: DB)
    requires ValidNet(net) && IsBranch(net, chain) && Faithful(net, db) && OnBranch(chain, head, db)
    ensures db.cursorHash.Some? ==> db.cursor >= 0 && net.block(chain(db.cursor + 1)).parent == db.cursorHash.value
  {
    if db.cursorHash.Some? {
      BranchBlock(net, chain, db.cursor + 1);
    }
    hide ValidNet, BranchEvents, ProjectAll, IsBranch, EventsOk;
  }

  // A scan of a stable chain commits block after block until it is done or used up.
  lemma {:induction false} StableScan(net: Net, chain: nat -> Hash, head: nat, out: Outside, db: DB, s: Health,
                                      safe: int, left: nat)
    requires ValidNet(net) && IsBranch(net, chain) && Stable(net, chain, head, out) && Faithful(net, db)
    requires OnBranch(chain, head, db) && safe <= head
    ensures
      var p := Scan(out, db, s, safe, left);
      && p.error.None? && Faithful(net, p.db) && OnBranch(chain, head, p.db)
      && p.db.cursor == Max(db.cursor, Min(db.cursor + left, safe))
      && p.health.synced == (p.db.cursor >= safe) && p.health.recovering == s.recovering
      && (db.cursor >= safe ==> p.db == db)
    decreases left
  {
    hide *;
    ScanUnfold(out, db, s, safe, left);
    MaxMin(db.cursor, left, safe);
    if db.cursor < safe && left != 0 {
      StableHonest(net, chain, head, out);
      StableBlock(net, chain, head, out, db);
      ScanBlockFaithful(net, out, db);
      var db1 := ScanBlock(out, db).value;
      StableScan(net, chain, head, out, db1, s.(indexedBlock := db1.cursor), safe, left - 1);
    }
  }

  lemma ScanUnfold(out: Outside, db: DB, s: Health, safe: int, left: nat)
    ensures db.cursor >= safe || left == 0 ==>
      Scan(out, db, s, safe, left) == Pass(db, s.(indexedBlock := db.cursor, synced := db.cursor >= safe), None)
    ensures db.cursor < safe && left != 0 && ScanBlock(out, db).Ok? ==>
      var db1 := ScanBlock(out, db).value;
      Scan(out, db, s, safe, left) == Scan(out, db1, s.(indexedBlock := db1.cursor), safe, left - 1)
    ensures db.cursor < safe && left != 0 && ScanBlock(out, db).Revert? ==>
      Scan(out, db, s, safe, left) == Pass(db, s, Some(ScanBlock(out, db).error))
  {
    hide ScanBlock;
  }

  lemma MinBelow(a: int, b: int)
    ensures Min(a, b) <= a && Min(a, b) <= b
  {}

  lemma MaxMin(a: int, left: nat, safe: int)
    ensures a >= safe || left == 0 ==> Max(a, Min(a + left, safe)) == a
    ensures a < safe && left > 0 ==> Max(a, Min(a + left, safe)) == Max(a + 1, Min(a + 1 + (left - 1), safe))
  {}

  lemma StableHonest(net: Net, chain: nat -> Hash, head: nat, out: Outside)
    requires ValidNet(net) && Stable(net, chain, head, out)
    ensures Honest(net, out)
  {}

  lemma Committed(net: Net, db: DB, n: int)
    requires ValidNet(net) && Faithful(net, db)
    ensures n in db.blocks <==> db.start <= n <= db.cursor
  {}

  lemma WalkStep(out: Outside, db: DB, from: int)
    ensures from < db.start ==> Walk(out, db, from).Ok?
    ensures
      var a := out.at(Validate(from));
      from >= db.start && from in a.headers && a.database && from in db.blocks && Walk(out, db, from - 1).Ok? ==>
        Walk(out, db, from).Ok?
  {}

  lemma {:induction false} StableWalk(net: Net, chain: nat -> Hash, head: nat, out: Outside, db: DB, from: int)
    requires ValidNet(net) && IsBranch(net, chain) && Stable(net, chain, head, out) && Faithful(net, db)
    requires from <= head && from <= db.cursor
    ensures Walk(out, db, from).Ok?
    decreases from - db.start
  {
    hide *;
    WalkStep(out, db, from);
    if from >= db.start {
      Committed(net, db, from);
      StableAnswer(net, chain, head, out, Validate(from), from);
      StableWalk(net, chain, head, out, db, from - 1);
    }
  }

  lemma WorkingSync(out: Outside, confirmations: nat, db: DB, s: Health, head: nat, db1: DB) returns (s1: Health)
    requires out.at(Begin).database && out.at(Begin).head == Some(head)
    requires out.at(ReadCursor).database && out.at(Rewinding).database && out.at(Reread).database
    requires db.cursor >= db.start ==> Walk(out, db, Min(db.cursor, head)).Ok?
    requires
      var a := Validated(out, db, head);
      if a < db.cursor then Rewound(db, a, out.select(KeptEvents(db.events, a))) == Ok(db1) else db1 == db
    ensures Sync(out, confirmations, db, s) == ScanAll(out, db1, s1, head - confirmations)
  {
    hide ScanAll, Walk, Rewound, KeptEvents, Min, Max;
    s1 := s.(observedHead := head, safeHead := head - confirmations, synced := false);
    if Validated(out, db, head) < db.cursor {
      s1 := s1.(recovering := true, reorgs := s1.reorgs + 1);
    }
  }

  lemma NoBlocks(net: Net, db: DB)
    requires ValidNet(net) && Faithful(net, db) && db.cursor < db.start
    ensures db.blocks.Keys == {}
  {
    hide ValidNet, EventsOk, ProjectAll, BranchEvents;
    assert forall n :: n in db.blocks ==> db.start <= n <= db.cursor;
  }

  lemma ValidatedOnBranch(net: Net, chain: nat -> Hash, head: nat, out: Outside, db: DB)
    requires ValidNet(net) && IsBranch(net, chain) && Stable(net, chain, head, out) && Faithful(net, db)
    requires db.cursor >= db.start ==> Walk(out, db, Min(db.cursor, head)).Ok?
    ensures
      var a := Validated(out, db, head);
      && db.start - 1 <= a <= db.cursor && a <= Max(head, db.start - 1)
      && (forall n: nat :: n in db.blocks && n <= a ==> db.blocks[n].hash == chain(n))
      && (OnBranch(chain, head, db) ==> a == db.cursor)
  {
    hide ValidNet, Faithful, Walk, Stable, IsBranch, Clean, HonestLogs;
    FaithfulStart(net, db);
    Committed(net, db, db.cursor);
    var from := Min(db.cursor, head);
    if db.cursor >= db.start {
      WalkStops(out, db, from);
      var a := Walk(out, db, from).value;
      if a >= 0 {
        StableAnswer(net, chain, head, out, Validate(a), a);
      }
      forall n: nat | n in db.blocks && n <= Validated(out, db, head)
        ensures db.blocks[n].hash == chain(n)
      {
        Committed(net, db, n);
        PastOnBranch(net, chain, db, a, n);
      }
      if OnBranch(chain, head, db) && head >= db.start {
        Committed(net, db, from);
        StableAnswer(net, chain, head, out, Validate(from), from);
      }
    } else {
      NoBlocks(net, db);
    }
  }

  // A pass over a stable chain succeeds: it rewinds to the branch and scans up to 100 blocks.
  lemma StablePass(net: Net, chain: nat -> Hash, head: nat, out: Outside, confirmations: nat, db: DB, s: Health)
    requires ValidNet(net) && IsBranch(net, chain) && Stable(net, chain, head, out) && Faithful(net, db)
    ensures
      var a := Validated(out, db, head);
      var p := Sync(out, confirmations, db, s);
      var safe := head - confirmations;
      && db.start - 1 <= a <= db.cursor && (OnBranch(chain, head, db) ==> a == db.cursor)
      && p.error.None? && Faithful(net, p.db) && OnBranch(chain, head, p.db)
      && p.db.cursor == Max(a, Min(a + MAX_BLOCKS, safe))
      && p.health.synced == (p.db.cursor >= safe) && !p.health.recovering
      && (a == db.cursor >= safe ==> p.db == db)
  {
    hide *;
    FaithfulStart(net, db);
    StableHonest(net, chain, head, out);
    StableAnswer(net, chain, head, out, Begin, 0);
    StableAnswer(net, chain, head, out, ReadCursor, 0);
    StableAnswer(net, chain, head, out, Rewinding, 0);
    StableAnswer(net, chain, head, out, Reread, 0);
    MinBelow(db.cursor, head);
    StableWalk(net, chain, head, out, db, Min(db.cursor, head));
    ValidatedOnBranch(net, chain, head, out, db);
    var a := Validated(out, db, head);
    FaithfulRewind(net, out, db, a);
    FaithfulStoreOk(net, db);
    var db1 := if a < db.cursor then At(db, a) else db;
    OnBranchFrom(net, chain, head, db, db1, a);
    var s1 := WorkingSync(out, confirmations, db, s, head, db1);
    StableScanAll(net, chain, head, out, db1, s1, head - confirmations);
  }

  lemma FaithfulStoreOk(net: Net, db: DB)
    requires ValidNet(net) && Faithful(net, db)
    ensures StoreOk(db)
  {}

  lemma StableScanAll(net: Net, chain: nat -> Hash, head: nat, out: Outside, db: DB, s: Health, safe: int)
    requires ValidNet(net) && IsBranch(net, chain) && Stable(net, chain, head, out) && Faithful(net, db)
    requires OnBranch(chain, head, db) && safe <= head
    ensures
      var p := ScanAll(out, db, s, safe);
      && p.error.None? && Faithful(net, p.db) && OnBranch(chain, head, p.db)
      && p.db.cursor == Max(db.cursor, Min(db.cursor + MAX_BLOCKS, safe))
      && p.health.synced == (p.db.cursor >= safe) && !p.health.recovering
      && (db.cursor >= safe ==> p.db == db)
  {
    hide ValidNet, IsBranch, Stable, Faithful, OnBranch, Scan, Max, Min;
    StableScan(net, chain, head, out, db, s.(recovering := false), safe, MAX_BLOCKS);
  }

  lemma OnBranchFrom(net: Net, chain: nat -> Hash, head: nat, db: DB, db1: DB, a: int)
    requires ValidNet(net) && Faithful(net, db) && db.start - 1 <= a <= db.cursor && a <= Max(head, db.start - 1)
    requires forall n: nat :: n in db.blocks && n <= a ==> db.blocks[n].hash == chain(n)
    requires db1 == if a < db.cursor then At(db, a) else db
    ensures db1.cursor == a && OnBranch(chain, head, db1)
  {
    hide *;
    FaithfulStoreOk(net, db);
    KeptOnBranch(chain, head, db, db1, a);
  }

  lemma KeptOnBranch(chain: nat -> Hash, head: nat, db: DB, db1: DB, a: int)
    requires StoreOk(db) && db.start - 1 <= a <= db.cursor && a <= Max(head, db.start - 1)
    requires forall n: nat :: n in db.blocks && n <= a ==> db.blocks[n].hash == chain(n)
    requires db1 == if a < db.cursor then At(db, a) else db
    ensures db1.cursor == a && OnBranch(chain, head, db1)
  {
    hide StoreOk, At, KeptEvents;
    AtFields(db, a);
    BlocksBelowCursor(db);
  }

  lemma BlocksBelowCursor(db: DB)
    requires StoreOk(db)
    ensures forall n :: n in db.blocks ==> n <= db.cursor
  {
    hide EventsOk, ProjectAll;
  }

  ghost predicate AllStable(net: Net, chain: nat -> Hash, head: nat, outs: seq<Outside>)
    requires ValidNet(net)
  {
    forall k :: 0 <= k < |outs| ==> Stable(net, chain, head, outs[k])
  }

  // From any faithful store, `n` turns over a stable chain reach the safe block or scan 100 blocks each.
  lemma {:induction false} StableTurns(net: Net, chain: nat -> Hash, head: nat, outs: seq<Outside>, confirmations: nat,
                                       db: DB, s: Health)
    requires ValidNet(net) && IsBranch(net, chain) && AllStable(net, chain, head, outs) && Faithful(net, db)
      && outs != []
    ensures
      var p := Turns(outs, confirmations, db, s);
      && p.error.None? && Faithful(net, p.db) && OnBranch(chain, head, p.db) && p.db.start == net.start
      && p.db.cursor >= Min(net.start - 1 + MAX_BLOCKS * |outs|, head - confirmations)
      && p.health.synced == (p.db.cursor >= head - confirmations) && !p.health.recovering
  {
    hide ValidNet, IsBranch, Stable, AllStable, Faithful, OnBranch, Sync, Validated;
    var rest, out := outs[..|outs| - 1], outs[|outs| - 1];
    StableLast(net, chain, head, outs);
    if rest != [] {
      StableTurns(net, chain, head, rest, confirmations, db, s);
    }
    var p := Turns(rest, confirmations, db, s);
    FaithfulStart(net, p.db);
    StablePass(net, chain, head, out, confirmations, p.db, p.health);
    FaithfulStart(net, Sync(out, confirmations, p.db, p.health).db);
  }

  lemma StableLast(net: Net, chain: nat -> Hash, head: nat, outs: seq<Outside>)
    requires ValidNet(net) && AllStable(net, chain, head, outs) && outs != []
    ensures Stable(net, chain, head, outs[|outs| - 1]) && AllStable(net, chain, head, outs[..|outs| - 1])
  {
    hide ValidNet, Stable;
  }

  // Convergence: once the chain stops changing, enough turns bring the cursor to the safe block
  // with every stored block on the served branch, and one more turn changes nothing.
  lemma Convergence(net: Net, chain: nat -> Hash, head: nat, outs: seq<Outside>, more: Outside, confirmations: nat,
                    db: DB, s: Health)
    requires ValidNet(net) && IsBranch(net, chain) && Faithful(net, db) && outs != []
    requires AllStable(net, chain, head, outs) && Stable(net, chain, head, more)
    requires net.start - 1 + MAX_BLOCKS * |outs| >= head - confirmations
    ensures
      var p := Turns(outs, confirmations, db, s);
      var again := Turn(more, confirmations, p.db, p.health);
      && p.error.None? && p.health.synced && p.db.cursor >= head - confirmations
      && (forall n: nat :: n in p.db.blocks ==> p.db.blocks[n].hash == chain(n))
      && again.error.None? && again.db == p.db && again.health.synced
  {
    assert forall d: DB :: OnBranch(chain, head, d) ==> forall n: nat :: n in d.blocks ==> d.blocks[n].hash == chain(n);
    hide ValidNet, IsBranch, Stable, AllStable, Faithful, OnBranch, Sync, Turns, Validated;
    StableTurns(net, chain, head, outs, confirmations, db, s);
    var p := Turns(outs, confirmations, db, s);
    StablePass(net, chain, head, more, confirmations, p.db, p.health);
  }
}
