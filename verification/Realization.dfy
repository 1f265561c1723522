/**
 The assumptions of the indexer's theorems can be met with any life of the contract: for every
 assignment of calls to blocks there is a chain on which they are executed, an honest node that
 serves it, and a store that follows it.
 */
module Realization {
  import opened Basics
  import opened Contract
  import opened Growth
  import opened Transactions
  import opened Sorting
  import opened Store
  import opened StoreOrder
  import opened Chain
  import opened Indexing
  import opened IndexingSafety
  import opened IndexingProgress

  datatype Plan = Plan(c: Config, start: nat, times: nat -> nat, calls: nat -> seq<Call>)

  ghost predicate ValidPlan(p: Plan) {
    ValidConfig(p.c) && forall n :: ValidTime(p.times(n))
  }

  /******* The chain *******/

  // The contract after block `n`.
  ghost function StateOf(p: Plan, n: nat): World {
    if n < p.start then GENESIS
    else RunAll(p.c, p.times(n), if n == p.start then GENESIS else StateOf(p, n - 1), p.calls(n))
  }

  ghost function Emits(p: Plan, n: nat): nat {
    var before := if n <= p.start then 0 else |StateOf(p, n - 1).log|;
    if |StateOf(p, n).log| <= before then 0 else |StateOf(p, n).log| - before
  }

  // Every log in a transaction of its own.
  function Stamps(count: nat): (stamps: seq<Stamp>)
    ensures |stamps| == count && forall k :: 0 <= k < count ==> stamps[k] == Stamp(k, k, k)
  {
    if count == 0 then [] else Stamps(count - 1) + [Stamp(count - 1, count - 1, count - 1)]
  }

  // The hash of a block is its number.
  ghost function BodyOf(p: Plan, h: Hash): Body {
    Body(h, if h == 0 then 0 else h - 1, p.times(h), p.calls(h), Stamps(Emits(p, h)))
  }

  ghost function NetOf(p: Plan): Net {
    Net(p.c, p.start, (h: Hash) => BodyOf(p, h))
  }

  function HashOf(n: nat): Hash {
    n
  }

  lemma {:induction false} PlanExecuted(p: Plan, h: Hash)
    ensures Grounded(NetOf(p)) && StateAt(NetOf(p), h) == StateOf(p, h)
    decreases h
  {
    PlanGrounded(p);
    PlanBlock(p, h);
    hide GENESIS, RunAll, Emits, Stamps, NetOf, Grounded;
    if h > p.start {
      PlanExecuted(p, h - 1);
    }
  }

  lemma PlanBlock(p: Plan, h: Hash)
    ensures
      var b := NetOf(p).block(h);
      && b.number == h && (h > 0 ==> b.parent == h - 1) && b.timestamp == p.times(h) && b.calls == p.calls(h)
      && b.stamps == Stamps(Emits(p, h))
    ensures NetOf(p).start == p.start && NetOf(p).c == p.c
  {
    hide Emits, Stamps;
  }

  lemma PlanGrounded(p: Plan)
    ensures Grounded(NetOf(p))
  {
    hide NetOf;
    forall h: Hash
      ensures NetOf(p).block(h).number == h && (h > 0 ==> NetOf(p).block(h).parent == h - 1)
    {
      PlanBlock(p, h);
    }
  }

  lemma PlanBefore(p: Plan, h: Hash)
    requires h >= p.start && Grounded(NetOf(p))
    ensures |StateBefore(NetOf(p), h).log| == if h == p.start then 0 else |StateOf(p, h - 1).log|
  {
    hide GENESIS, NetOf, StateAt, StateOf, Grounded, Emits, Stamps, RunAll;
    PlanBlock(p, h);
    NothingLogged();
    if h > p.start {
      PlanExecuted(p, h - 1);
    }
  }

  lemma PlanStamped(p: Plan, h: Hash)
    requires h >= p.start
    ensures Grounded(NetOf(p)) && StampsOk(NetOf(p), h)
  {
    hide GENESIS, RunAll, Emits, NetOf, StateAt, StateOf, StateBefore, Grounded;
    PlanExecuted(p, h);
    PlanBlock(p, h);
    PlanBefore(p, h);
    EmitsAll(p, h);
  }

  lemma EmitsAll(p: Plan, h: Hash)
    requires h >= p.start
    ensures |StateOf(p, h).log| == (if h == p.start then 0 else |StateOf(p, h - 1).log|) + Emits(p, h)
  {
    hide GENESIS;
    var w := if h == p.start then GENESIS else StateOf(p, h - 1);
    NothingLogged();
    RunAllGrows(p.c, p.times(h), w, p.calls(h));
    assert StateOf(p, h) == RunAll(p.c, p.times(h), w, p.calls(h));
    hide RunAll, StateOf, Keeps;
  }

  lemma PlanValid(p: Plan)
    requires ValidPlan(p)
    ensures ValidNet(NetOf(p)) && IsBranch(NetOf(p), HashOf)
  {
    PlanGrounded(p);
    forall h: Hash | h >= p.start
      ensures StampsOk(NetOf(p), h)
    {
      PlanStamped(p, h);
    }
    hide StateOf, ValidConfig, GENESIS, StampsOk, Emits, Stamps;
  }

  /******* The node *******/

  function LogOf(e: Event): Log
    requires e.blockNumber >= 0
  {
    Log(false, LOTTERY, e.blockHash, e.blockNumber, Some(e.payload), e.txHash, e.txIndex, e.logIndex)
  }

  ghost function LogsOf(net: Net, h: Hash): (logs: seq<Log>)
    requires ValidNet(net) && net.block(h).number >= net.start
    ensures |logs| == |BlockEvents(net, h)|
    ensures forall k :: 0 <= k < |logs| ==>
      logs[k] == LogOf(BlockEvent(net, h, k)) && BlockEvents(net, h)[k] == BlockEvent(net, h, k)
  {
    seq(|BlockEvents(net, h)|, k requires 0 <= k < |BlockEvents(net, h)| => LogOf(BlockEvent(net, h, k)))
  }

  lemma LogShows(net: Net, h: Hash, k: nat)
    requires ValidNet(net) && net.block(h).number >= net.start && k < |BlockEvents(net, h)|
    ensures Shows(net, h, LogOf(BlockEvent(net, h, k)), BlockEvent(net, h, k))
  {
    hide StateAt, StateBefore;
  }

  lemma LogsHonest(net: Net, h: Hash)
    requires ValidNet(net) && net.block(h).number >= net.start
    ensures HonestLogs(net, h, LogsOf(net, h)) && Clean(net, h, LogsOf(net, h))
  {
    var logs, events := LogsOf(net, h), BlockEvents(net, h);
    forall k: nat | k < |events|
      ensures Shows(net, h, logs[k], events[k])
    {
      LogShows(net, h, k);
    }
    hide ValidNet, BlockEvents, LogsOf, BlockEvent;
    forall l, e | l in logs && Shows(net, h, l, e)
      ensures e in events
    {
      var k :| 0 <= k < |logs| && logs[k] == l;
      assert Shows(net, h, logs[k], events[k]);
      assert e == events[k];
    }
    forall e | e in events
      ensures exists l :: l in logs && Shows(net, h, l, e)
    {
      var k :| 0 <= k < |events| && events[k] == e;
      assert logs[k] in logs && Shows(net, h, logs[k], e);
    }
    forall l | l in logs
      ensures Canonical(l, net.block(h).number, TrueHeader(net, h)) && l.payload.Some?
    {
      var k :| 0 <= k < |logs| && logs[k] == l;
      assert Shows(net, h, logs[k], events[k]);
    }
  }

  ghost function HeadersOf(net: Net, head: nat): (headers: map<int, Header>)
    ensures forall n: int :: n in headers <==> 0 <= n <= head
    ensures forall n: nat :: n <= head ==> headers[n] == TrueHeader(net, HashOf(n))
  {
    map n | 0 <= n <= head :: TrueHeader(net, HashOf(n))
  }

  ghost function LogsAt(net: Net, h: Hash): seq<Log>
    requires ValidNet(net)
  {
    if net.block(h).number >= net.start then LogsOf(net, h) else []
  }

  ghost function AllLogs(net: Net, head: nat): map<Hash, seq<Log>>
    requires ValidNet(net)
  {
    if head == 0 then map[0 := LogsAt(net, 0)] else AllLogs(net, head - 1)[head := LogsAt(net, head)]
  }

  lemma {:induction false} AllLogsAt(net: Net, head: nat)
    requires ValidNet(net)
    ensures forall h: Hash :: h in AllLogs(net, head) <==> h <= head
    ensures forall h: Hash :: h <= head ==> AllLogs(net, head)[h] == LogsAt(net, h)
  {
    hide ValidNet, LogsAt;
    if head > 0 {
      AllLogsAt(net, head - 1);
    }
  }

  ghost function AnswerOf(net: Net, head: nat): Answer
    requires ValidNet(net)
  {
    Answer(Some(head), HeadersOf(net, head), AllLogs(net, head), true)
  }

  const BEFORE_LOG: (Log, Log) -> bool := (k: Log, l: Log) => k.Before(l)

  function SortLogs(logs: seq<Log>): seq<Log> {
    Sort(logs, BEFORE_LOG)
  }

  ghost function OutsideOf(net: Net, head: nat): Outside
    requires ValidNet(net)
  {
    Outside(m => AnswerOf(net, head), SortLogs, SortRows)
  }

  lemma SortLogsSorts(logs: seq<Log>)
    ensures IsSorting(SortLogs(logs), logs)
  {
    SortRising(logs, BEFORE_LOG);
    hide Sort;
    forall i, j | 0 <= i < j < |SortLogs(logs)|
      ensures !SortLogs(logs)[j].Before(SortLogs(logs)[i])
    {
      assert !BEFORE_LOG(SortLogs(logs)[j], SortLogs(logs)[i]);
    }
  }

  lemma OutsideWorks(net: Net, head: nat)
    requires ValidNet(net)
    ensures Works(OutsideOf(net, head))
  {
    hide ValidNet, AnswerOf;
    var out := OutsideOf(net, head);
    forall logs: seq<Log>
      ensures IsSorting(out.sort(logs), logs)
    {
      SortLogsSorts(logs);
    }
    forall rows: seq<Event>
      ensures IsListing(out.select(rows), rows)
    {
      SortRowsIsListing(rows);
    }
  }

  lemma AnswerHonest(net: Net, head: nat)
    requires ValidNet(net) && IsBranch(net, HashOf)
    ensures HonestAnswer(net, AnswerOf(net, head))
    ensures forall n: nat :: n <= head ==>
      HashOf(n) in AnswerOf(net, head).logs && Clean(net, HashOf(n), AnswerOf(net, head).logs[HashOf(n)])
  {
    hide ValidNet, HonestLogs, Clean, HeadersOf, AllLogs, LogsOf;
    forall h: Hash | h <= head && net.block(h).number >= net.start
      ensures HonestLogs(net, h, LogsOf(net, h)) && Clean(net, h, LogsOf(net, h))
    {
      LogsHonest(net, h);
    }
    forall h: Hash
      ensures Clean(net, h, [])
    {
      NothingClean(net, h);
    }
    AllLogsAt(net, head);
  }

  lemma NothingClean(net: Net, h: Hash)
    ensures Clean(net, h, [])
  {}

  // A node whose answer never changes is stable if the answer is complete.
  lemma StableFrom(net: Net, chain: nat -> Hash, head: nat, out: Outside, a: Answer)
    requires ValidNet(net) && Works(out) && HonestAnswer(net, a) && forall m: Moment :: out.at(m) == a
    requires a.database && a.head == Some(head)
    requires forall n: nat :: n <= head ==> n in a.headers && a.headers[n].hash == chain(n)
    requires forall n: nat :: n <= head ==> chain(n) in a.logs && Clean(net, chain(n), a.logs[chain(n)])
    ensures Stable(net, chain, head, out)
  {
    hide ValidNet, Works, HonestAnswer, Clean;
  }

  lemma OutsideStable(net: Net, head: nat)
    requires ValidNet(net) && IsBranch(net, HashOf)
    ensures Stable(net, HashOf, head, OutsideOf(net, head))
    ensures forall m: nat :: m in OutsideOf(net, head).at(Validate(m)).headers ==>
      ServedAs(OutsideOf(net, head), m, HashOf(m))
  {
    OutsideWorks(net, head);
    AnswerHonest(net, head);
    hide ValidNet, IsBranch, HonestAnswer, Works, HeadersOf, AllLogs, Stable, Clean;
    StableFrom(net, HashOf, head, OutsideOf(net, head), AnswerOf(net, head));
  }

  /******* All together *******/

  // For every plan and every head there are a chain that executes the plan, a node that serves it
  // honestly and completely, and a faithful store with blocks up to the head or 100 of them: every
  // assumption of EndToEnd, CommonAncestor and Convergence is met.
  lemma AssumptionsMeet(p: Plan, head: nat, h: Hash)
    requires ValidPlan(p)
    ensures ValidNet(NetOf(p)) && IsBranch(NetOf(p), HashOf) && StateAt(NetOf(p), h) == StateOf(p, h)
    ensures
      var net, out := NetOf(p), OutsideOf(NetOf(p), head);
      var db := Turns([out], 0, Opened(p.start), NEW_HEALTH).db;
      && Stable(net, HashOf, head, out)
      && (forall m: nat :: m in out.at(Validate(m)).headers ==> ServedAs(out, m, HashOf(m)))
      && Faithful(net, db) && db.cursor >= Min(p.start - 1 + MAX_BLOCKS, head)
      && Walk(out, db, Min(db.cursor, head)).Ok?
  {
    PlanValid(p);
    PlanExecuted(p, h);
    var net, out := NetOf(p), OutsideOf(NetOf(p), head);
    hide *;
    OutsideStable(net, head);
    OpenedFaithful(net);
    OneStable(net, head, out);
    StableTurns(net, HashOf, head, [out], 0, Opened(p.start), NEW_HEALTH);
    var db := Turns([out], 0, Opened(p.start), NEW_HEALTH).db;
    MinBelow(db.cursor, head);
    StableWalk(net, HashOf, head, out, db, Min(db.cursor, head));
  }

  lemma OneStable(net: Net, head: nat, out: Outside)
    requires ValidNet(net) && Stable(net, HashOf, head, out)
    ensures AllStable(net, HashOf, head, [out])
  {
    hide ValidNet, Stable;
  }
}
