/**
 One pass of the indexer as a function of what the node and the database answer at every moment of
 the pass, and runs of passes.
 */
module Indexing {
  import opened Basics
  import opened Contract
  import opened Store

  const MAX_BLOCKS: nat := 100

  datatype Header = Header(hash: Hash, parentHash: Hash, timestamp: nat)

  // `payload` is what the log decodes to, if it does.
  datatype Log = Log(removed: bool, address: Address, blockHash: Hash, blockNumber: nat, payload: Option<Payload>,
                     txHash: Hash, txIndex: nat, logIndex: nat)
  {
    predicate Before(l: Log) {
      txIndex < l.txIndex || (txIndex == l.txIndex && logIndex < l.logIndex)
    }
  }

  // What would be answered at one moment: by the node, and whether the database works.
  datatype Answer = Answer(head: Option<nat>, headers: map<int, Header>, logs: map<Hash, seq<Log>>, database: bool)

  // The calls of a pass. Each is made at most once, so any two of them may be answered from different chains.
  datatype Moment =
    | Begin
    | ReadCursor
    | Validate(n: int)
    | Rewinding
    | Reread
    | Fetch(n: int)
    | FetchLogs(n: int)
    | Recheck(n: int)

  // Everything a pass gets from outside: the answers, the sorting of logs and of rows.
  datatype Outside = Outside(at: Moment -> Answer, sort: seq<Log> -> seq<Log>, select: seq<Event> -> seq<Event>)

  ghost predicate IsSorting(logs: seq<Log>, given: seq<Log>) {
    multiset(logs) == multiset(given) && forall i, j :: 0 <= i < j < |logs| ==> !logs[j].Before(logs[i])
  }

  // Sorting and the query do what they promise; ties may come in any order.
  ghost predicate Works(out: Outside) {
    && (forall logs: seq<Log> :: IsSorting(out.sort(logs), logs))
    && (forall rows: seq<Event> :: IsListing(out.select(rows), rows))
  }

  datatype Health = Health(observedHead: int, safeHead: int, indexedBlock: int, recovering: bool, synced: bool,
      failures: nat, reorgs: nat)

  const NEW_HEALTH := Health(0, 0, 0, false, false, 0, 0)

  datatype Pass = Pass(db: DB, health: Health, error: Option<Error>)

  /******* The walk to the common ancestor *******/

  // From `ancestor` down to the first block whose served header is the stored one.
  function Walk(out: Outside, db: DB, ancestor: int): Result<int>
    decreases ancestor - db.start
  {
    if ancestor < db.start then Ok(ancestor)
    else
      var a := out.at(Validate(ancestor));
      if ancestor !in a.headers then Revert(NodeFailed)
      else if !a.database then Revert(DatabaseFailed)
      else if ancestor !in db.blocks then Revert(NoRows)
      else if a.headers[ancestor].hash == db.blocks[ancestor].hash then Ok(ancestor)
      else Walk(out, db, ancestor - 1)
  }

  function Max(a: int, b: int): int {
    if a < b then b else a
  }

  function Min(a: int, b: int): int {
    if a < b then a else b
  }

  /******* One block *******/

  function Decode(l: Log, h: Header): Event
    requires l.payload.Some?
  {
    Event(l.payload.value, l.blockNumber, l.blockHash, l.txHash, l.txIndex, l.logIndex, h.timestamp)
  }

  predicate Canonical(l: Log, next: int, h: Header) {
    !l.removed && l.address == LOTTERY && l.blockHash == h.hash && l.blockNumber == next
  }

  function DecodeAll(logs: seq<Log>, next: int, h: Header): Result<seq<Event>> {
    if logs == [] then Ok([])
    else
      var l := logs[|logs| - 1];
      match DecodeAll(logs[..|logs| - 1], next, h)
      case Revert(x) => Revert(x)
      case Ok(events) =>
        if !Canonical(l, next, h) then Revert(NoncanonicalLog)
        else if l.payload.None? then Revert(UndecodableLog)
        else Ok(events + [Decode(l, h)])
  }

  function ScanBlock(out: Outside, db: DB): Result<DB> {
    var next := db.cursor + 1;
    var fetched := out.at(Fetch(next));
    if next !in fetched.headers then Revert(NodeFailed)
    else
      var h := fetched.headers[next];
      if db.cursorHash.Some? && h.parentHash != db.cursorHash.value then Revert(ParentChanged)
      else
        var filtered := out.at(FetchLogs(next));
        if h.hash !in filtered.logs then Revert(NodeFailed)
        else
          match DecodeAll(out.sort(filtered.logs[h.hash]), next, h)
          case Revert(x) => Revert(x)
          case Ok(events) =>
            var current := out.at(Recheck(next));
            if next !in current.headers then Revert(NodeFailed)
            else if current.headers[next].hash != h.hash then Revert(BlockChanged)
            else if !current.database then Revert(DatabaseFailed)
            else Commit(db, Block(next, h.hash, h.parentHash, h.timestamp), events)
  }

  /******* A pass *******/

  // The scan with `left` blocks still allowed.
  function Scan(out: Outside, db: DB, s: Health, safe: int, left: nat): Pass
    decreases left
  {
    if db.cursor >= safe || left == 0 then Pass(db, s.(indexedBlock := db.cursor, synced := db.cursor >= safe), None)
    else
      match ScanBlock(out, db)
      case Revert(x) => Pass(db, s, Some(x))
      case Ok(db1) => Scan(out, db1, s.(indexedBlock := db1.cursor), safe, left - 1)
  }

  function ScanAll(out: Outside, db: DB, s: Health, safe: int): Pass {
    Scan(out, db, s.(recovering := false), safe, MAX_BLOCKS)
  }

  function Rewinds(out: Outside, db: DB, s: Health, safe: int, ancestor: int): Pass {
    var s1 := s.(recovering := true, reorgs := s.reorgs + 1);
    if !out.at(Rewinding).database then Pass(db, s1, Some(DatabaseFailed))
    else
      match Rewound(db, ancestor, out.select(KeptEvents(db.events, ancestor)))
      case Revert(x) => Pass(db, s1, Some(x))
      case Ok(db1) =>
        if !out.at(Reread).database then Pass(db1, s1, Some(DatabaseFailed)) else ScanAll(out, db1, s1, safe)
  }

  function Sync(out: Outside, confirmations: nat, db: DB, s: Health): Pass {
    if !out.at(Begin).database then Pass(db, s, Some(LockLost))
    else if out.at(Begin).head.None? then Pass(db, s, Some(NodeFailed))
    else
      var head := out.at(Begin).head.value;
      var safe := head - confirmations;
      var s1 := s.(observedHead := head, safeHead := safe, synced := false);
      if !out.at(ReadCursor).database then Pass(db, s1, Some(DatabaseFailed))
      else if db.cursor < db.start then ScanAll(out, db, s1, safe)
      else
        match Walk(out, db, Min(db.cursor, head))
        case Revert(x) => Pass(db, s1, Some(x))
        case Ok(a) =>
          if Max(a, db.start - 1) < db.cursor then Rewinds(out, db, s1, safe, Max(a, db.start - 1))
          else ScanAll(out, db, s1, safe)
  }

  // One turn of the polling loop: a pass, and the record of its failure.
  function Turn(out: Outside, confirmations: nat, db: DB, s: Health): Pass {
    var p := Sync(out, confirmations, db, s);
    if p.error.None? then p else p.(health := p.health.(failures := p.health.failures + 1, synced := false))
  }

  function Turns(outs: seq<Outside>, confirmations: nat, db: DB, s: Health): Pass {
    if outs == [] then Pass(db, s, None)
    else
      var p := Turns(outs[..|outs| - 1], confirmations, db, s);
      Turn(outs[|outs| - 1], confirmations, p.db, p.health)
  }
}
