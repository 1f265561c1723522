/**
 The chain as a tree of blocks. A hash stands for one block, a block for its parent, its timestamp
 and the calls it executes; the contract's state at a hash is what the branch below it computes.
 */
module Chain {
  import opened Basics
  import opened Contract
  import opened Growth
  import opened Invariants
  import opened Preservation
  import opened Transactions
  import opened Projection
  import opened Refinement
  import opened Store
  import opened StoreTables

  datatype Stamp = Stamp(txHash: Hash, txIndex: nat, logIndex: nat)

  // `stamps` gives the position of every log that the block emits.
  datatype Body = Body(number: nat, parent: Hash, timestamp: nat, calls: seq<Call>, stamps: seq<Stamp>)

  // The contract lives from block `start` on, on every branch.
  datatype Net = Net(c: Config, start: nat, block: Hash -> Body)

  ghost predicate Grounded(net: Net) {
    forall h: Hash :: net.block(h).number > 0 ==> net.block(net.block(h).parent).number == net.block(h).number - 1
  }

  ghost function StateAt(net: Net, h: Hash): World
    requires Grounded(net)
    decreases net.block(h).number
  {
    var b := net.block(h);
    if b.number < net.start then GENESIS
    else RunAll(net.c, b.timestamp, if b.number == net.start then GENESIS else StateAt(net, b.parent), b.calls)
  }

  ghost function StateBefore(net: Net, h: Hash): World
    requires Grounded(net)
  {
    if net.block(h).number <= net.start then GENESIS else StateAt(net, net.block(h).parent)
  }

  ghost predicate StampsOk(net: Net, h: Hash)
    requires Grounded(net)
  {
    var stamps := net.block(h).stamps;
    && |StateAt(net, h).log| == |StateBefore(net, h).log| + |stamps|
    && (forall i, j :: 0 <= i < j < |stamps| ==>
       stamps[i].txIndex <= stamps[j].txIndex && stamps[i].logIndex < stamps[j].logIndex)
  }

  ghost predicate ValidNet(net: Net) {
    && ValidConfig(net.c) && Grounded(net)
    && (forall h :: net.block(h).number >= net.start ==> ValidTime(net.block(h).timestamp) && StampsOk(net, h))
  }

  /******* The contract at every hash *******/

  lemma {:induction false} RunAtRest(c: Config, now: nat, w: World, calls: seq<Call>)
    requires AtRest(c, w) && ValidTime(now)
    ensures AtRest(c, RunAll(c, now, w, calls)) && Evolves(w, RunAll(c, now, w, calls))
    decreases |calls|
  {
    hide Inv, Exec, Evolves;
    EvolvesReflexive(w);
    if calls != [] {
      var w1 := Exec(c, now, w, calls[0]);
      ExecInv(c, now, w, calls[0]);
      RunAtRest(c, now, w1, calls[1..]);
      EvolvesTransitive(w, w1, RunAll(c, now, w1, calls[1..]));
    }
  }

  lemma {:induction false} RunAllTracks(c: Config, now: nat, w: World, calls: seq<Call>)
    requires AtRest(c, w) && ValidTime(now) && Tracks(c, w, map[])
    ensures Tracks(c, RunAll(c, now, w, calls), map[])
    decreases |calls|
  {
    hide Inv, Tracks, Exec, Evolves;
    if calls != [] {
      ExecTracks(c, now, w, calls[0]);
      ExecInv(c, now, w, calls[0]);
      RunAllTracks(c, now, Exec(c, now, w, calls[0]), calls[1..]);
    }
  }

  lemma {:induction false} StateAtRest(net: Net, h: Hash)
    requires ValidNet(net)
    ensures AtRest(net.c, StateAt(net, h))
    decreases net.block(h).number
  {
    hide Inv, RunAll, GENESIS, Exec, StampsOk, Evolves;
    GenesisAtRest(net.c);
    var b := net.block(h);
    if b.number >= net.start {
      if b.number > net.start {
        StateAtRest(net, b.parent);
      }
      RunAtRest(net.c, b.timestamp, StateBefore(net, h), b.calls);
    }
  }

  lemma {:induction false} StateTracks(net: Net, h: Hash)
    requires ValidNet(net)
    ensures Tracks(net.c, StateAt(net, h), map[])
    decreases net.block(h).number
  {
    hide Inv, Tracks, RunAll, GENESIS, Evolves, StampsOk;
    GenesisAtRest(net.c);
    GenesisTracks(net.c);
    var b := net.block(h);
    if b.number >= net.start {
      if b.number > net.start {
        StateAtRest(net, b.parent);
        StateTracks(net, b.parent);
      }
      RunAllTracks(net.c, b.timestamp, StateBefore(net, h), b.calls);
    }
  }

  lemma BlockEvolves(net: Net, h: Hash)
    requires ValidNet(net) && net.block(h).number >= net.start
    ensures Evolves(StateBefore(net, h), StateAt(net, h))
    ensures Appends(net.block(h).timestamp, StateBefore(net, h).log, StateAt(net, h).log)
  {
    hide Inv, Tracks, RunAll, GENESIS, Evolves, StampsOk, Appends;
    GenesisAtRest(net.c);
    var b := net.block(h);
    if b.number > net.start {
      StateAtRest(net, b.parent);
    }
    RunAtRest(net.c, b.timestamp, StateBefore(net, h), b.calls);
    RunAllGrows(net.c, b.timestamp, StateBefore(net, h), b.calls);
  }

  /******* The events of a branch *******/

  ghost function BlockEvent(net: Net, h: Hash, k: nat): Event
    requires ValidNet(net) && net.block(h).number >= net.start && k < |net.block(h).stamps|
  {
    var b := net.block(h);
    var s := b.stamps[k];
    Event(StateAt(net, h).log[|StateBefore(net, h).log| + k].payload, b.number, h, s.txHash, s.txIndex, s.logIndex,
        b.timestamp)
  }

  // What the block's logs decode to, in chain order.
  ghost function BlockEvents(net: Net, h: Hash): (events: seq<Event>)
    requires ValidNet(net) && net.block(h).number >= net.start
    ensures |events| == |net.block(h).stamps|
  {
    seq(|net.block(h).stamps|, k requires 0 <= k < |net.block(h).stamps| => BlockEvent(net, h, k))
  }

  ghost function BranchEvents(net: Net, h: Hash): seq<Event>
    requires ValidNet(net)
    decreases net.block(h).number
  {
    var b := net.block(h);
    if b.number < net.start then []
    else (if b.number == net.start then [] else BranchEvents(net, b.parent)) + BlockEvents(net, h)
  }

  lemma {:induction false} EmittedEach(events: seq<Event>)
    ensures forall k :: 0 <= k < |events| ==> Emitted(events)[k] == events[k].Emitted()
  {
    if events != [] {
      EmittedEach(events[..|events| - 1]);
    }
  }

  lemma Parent(net: Net, h: Hash)
    requires Grounded(net) && net.block(h).number > 0
    ensures net.block(net.block(h).parent).number == net.block(h).number - 1
  {}

  lemma StampsMatch(net: Net, h: Hash)
    requires ValidNet(net) && net.block(h).number >= net.start
    ensures |StateAt(net, h).log| == |StateBefore(net, h).log| + |net.block(h).stamps|
  {
    assert StampsOk(net, h);
  }

  lemma BlockLog(net: Net, h: Hash, k: nat)
    requires ValidNet(net) && net.block(h).number >= net.start && k < |net.block(h).stamps|
    requires Appends(net.block(h).timestamp, StateBefore(net, h).log, StateAt(net, h).log)
    requires |StateAt(net, h).log| == |StateBefore(net, h).log| + |net.block(h).stamps|
    ensures BlockEvents(net, h)[k].Emitted() == StateAt(net, h).log[|StateBefore(net, h).log| + k]
  {
    hide StateAt, StateBefore, Grounded, StampsOk, ValidConfig;
    assert StateAt(net, h).log[|StateBefore(net, h).log| + k].time == net.block(h).timestamp;
  }

  lemma {:induction false} EmittedConcat(a: seq<Event>, b: seq<Event>)
    ensures Emitted(a + b) == Emitted(a) + Emitted(b)
  {
    if b == [] {
      assert a + b == a;
    } else {
      EmittedConcat(a, b[..|b| - 1]);
      assert (a + b)[..|a + b| - 1] == a + b[..|b| - 1];
    }
  }

  lemma JoinLogs(below: seq<Event>, events: seq<Event>, before: seq<Emit>, log: seq<Emit>)
    requires Emitted(below) == before && before <= log && |log| == |before| + |events|
    requires forall k :: 0 <= k < |events| ==> events[k].Emitted() == log[|before| + k]
    ensures Emitted(below + events) == log
  {
    EmittedConcat(below, events);
    EmittedEach(events);
    hide Emitted;
    assert Emitted(events) == log[|before|..];
    assert log == before + log[|before|..];
  }

  lemma JoinBlock(net: Net, h: Hash, below: seq<Event>)
    requires ValidNet(net) && net.block(h).number >= net.start && Emitted(below) == StateBefore(net, h).log
    ensures Emitted(below + BlockEvents(net, h)) == StateAt(net, h).log
  {
    assert Grounded(net);
    hide *;
    BlockEvolves(net, h);
    StampsMatch(net, h);
    BlockPrefix(net.block(h).timestamp, StateBefore(net, h).log, StateAt(net, h).log);
    forall k: nat | k < |BlockEvents(net, h)|
      ensures BlockEvents(net, h)[k].Emitted() == StateAt(net, h).log[|StateBefore(net, h).log| + k]
    {
      BlockLog(net, h, k);
    }
    JoinLogs(below, BlockEvents(net, h), StateBefore(net, h).log, StateAt(net, h).log);
  }

  lemma BlockPrefix(now: nat, log: seq<Emit>, log1: seq<Emit>)
    requires Appends(now, log, log1)
    ensures log <= log1
  {}

  // The events of the branch are the log of the contract at its tip.
  lemma {:induction false} BranchLog(net: Net, h: Hash)
    requires ValidNet(net)
    ensures Emitted(BranchEvents(net, h)) == StateAt(net, h).log
    decreases net.block(h).number
  {
    assert Grounded(net);
    var b := net.block(h);
    if b.number < net.start {
      GenesisLog(net, h);
    } else {
      if b.number > net.start {
        Parent(net, h);
        BranchLog(net, b.parent);
      }
      BelowLog(net, h);
      hide RunAll, Grounded, StampsOk, ValidNet, GENESIS, StateAt, StateBefore, BlockEvents, Emitted;
      assert Emitted([]) == [];
      JoinBlock(net, h, if b.number == net.start then [] else BranchEvents(net, b.parent));
    }
  }

  lemma GenesisLog(net: Net, h: Hash)
    requires ValidNet(net) && net.block(h).number < net.start
    ensures BranchEvents(net, h) == [] && StateAt(net, h).log == []
  {}

  lemma BelowLog(net: Net, h: Hash)
    requires Grounded(net) && net.block(h).number >= net.start
    ensures StateBefore(net, h).log ==
      if net.block(h).number == net.start then [] else StateAt(net, net.block(h).parent).log
  {
    hide StateAt;
  }

  // Events of a branch are in order, keyed apart, and belong to blocks at or above the start.
  lemma {:induction false} BranchOrdered(net: Net, h: Hash)
    requires ValidNet(net)
    ensures Ordered(BranchEvents(net, h))
    ensures forall k :: 0 <= k < |BranchEvents(net, h)| ==> BranchEvents(net, h)[k].blockNumber <= net.block(h).number
    decreases net.block(h).number
  {
    hide StateAt, StateBefore;
    var b := net.block(h);
    if b.number >= net.start {
      if b.number > net.start {
        BranchOrdered(net, b.parent);
      }
      BlockOrdered(net, h);
      hide BlockEvents, Grounded;
      var below := if b.number == net.start then [] else BranchEvents(net, b.parent);
      forall i, j | 0 <= i < j < |BranchEvents(net, h)|
        ensures BranchEvents(net, h)[i].Before(BranchEvents(net, h)[j])
      {
        if j >= |below| && i < |below| {
          assert BranchEvents(net, h)[j] == BlockEvents(net, h)[j - |below|];
        }
      }
    }
  }

  lemma BlockOrdered(net: Net, h: Hash)
    requires ValidNet(net) && net.block(h).number >= net.start
    ensures Ordered(BlockEvents(net, h))
    ensures forall e :: e in BlockEvents(net, h) ==> e.blockNumber == net.block(h).number && e.blockHash == h
    ensures forall i, j :: 0 <= i < j < |BlockEvents(net, h)| ==>
      !BlockEvents(net, h)[i].SameKey(BlockEvents(net, h)[j])
  {
    assert StampsOk(net, h);
    hide StateAt, StateBefore;
  }
}
