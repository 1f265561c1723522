/**
 What an event says stays true: in every state that any run reaches, the storage still bears out
 every event that was ever emitted.
 */
module EventTruth {
  import opened Basics
  import opened Contract
  import opened Invariants
  import opened Preservation
  import opened Transactions
  import opened Interference
  import opened LotteryOutcomes
  import opened CallOutcomes

  // The round bears the event out, with every amount and time.
  ghost predicate Borne(c: Config, r: Round, e: Emit) {
    var d := r.d;
    match e.payload
    case DrawStarted(_, start, deadline, price, minimum, inherited) =>
      && start == e.time && deadline == e.time + 86400 && price == c.ticketPrice && minimum == c.minimum
      && d.startTime == start && d.deadline == deadline && d.inheritedRollover == inherited
    case TicketBought(_, buyer, n, amount, count, pool) =>
      && e.time < d.deadline && 1 <= n == count <= 5 && |r.owners| == POSITIONS && r.owners[n - 1] == buyer != ZERO
      && amount == c.ticketPrice && pool == d.inheritedRollover + Cost(c, n)
    case RandomnessRequested(_, requestId) =>
      d.requestId == requestId != 0 && d.status != ACTIVE && d.status != CANCELLED
    case LotteryDrawn(_, lucky, winner, pool, fee, prize, rollover) =>
      && Final(d.status) && d.status != CANCELLED
      && d.finalizedAt == e.time && d.luckyNumber == lucky && d.winner == winner && d.pool == pool && d.daoFee == fee
      && d.winnerPrize == prize && rollover == (if d.winner == ZERO then d.pool else 0)
    case DrawCancelled(_, count, total, rollover) =>
      && d.status == CANCELLED && d.finalizedAt == e.time && d.participantCount == count && total == Cost(c, count)
      && rollover == d.inheritedRollover
    case PrizeClaimed(_, winner, amount, dao, fee) =>
      d.status == COMPLETED && d.winner == winner && d.winnerPrize == amount && dao == c.dao && d.daoFee == fee
    case RefundClaimed(_, participant, amount) =>
      d.status == CANCELLED && participant in r.refunded && amount == c.ticketPrice
  }

  ghost predicate IsTrue(c: Config, l: Lot, e: Emit) {
    1 <= e.payload.drawId <= l.currentDrawId && Borne(c, RoundAt(l, e.payload.drawId), e)
  }

  ghost predicate AllTrue(c: Config, l: Lot, log: seq<Emit>) {
    forall k :: 0 <= k < |log| ==> IsTrue(c, l, log[k])
  }

  lemma BorneStays(c: Config, r: Round, r1: Round, e: Emit)
    requires Borne(c, r, e) && RoundEvolves(r, r1)
    ensures Borne(c, r1, e)
  {
    hide Cost;
  }

  lemma TruthStays(c: Config, w: World, w1: World, log: seq<Emit>)
    requires AllTrue(c, w.lot, log) && Evolves(w, w1)
    ensures AllTrue(c, w1.lot, log)
  {
    hide RoundAt, Borne, RoundEvolves;
    forall k | 0 <= k < |log|
      ensures IsTrue(c, w1.lot, log[k])
    {
      var id := log[k].payload.drawId;
      assert IsTrue(c, w.lot, log[k]);
      assert RoundEvolves(RoundAt(w.lot, id), RoundAt(w1.lot, id));
      BorneStays(c, RoundAt(w.lot, id), RoundAt(w1.lot, id), log[k]);
    }
  }

  lemma OneMoreTrue(c: Config, w: World, w1: World, log: seq<Emit>, e: Emit)
    requires AllTrue(c, w.lot, log) && Evolves(w, w1) && IsTrue(c, w1.lot, e)
    ensures AllTrue(c, w1.lot, log + [e])
  {
    hide IsTrue, Evolves;
    TruthStays(c, w, w1, log);
  }

  /******* Settlement, between calls or inside one *******/

  lemma DeliveredTrue(c: Config, now: nat, w: World, requestId: nat, pending: bool, unbooked: nat)
    requires Inv(c, w, pending, unbooked) && ValidTime(now) && AllTrue(c, w.lot, w.log)
    ensures Delivered(c, now, w, requestId).Ok? ==>
      AllTrue(c, Delivered(c, now, w, requestId).value.lot, Delivered(c, now, w, requestId).value.log)
  {
    hide Inv, AllTrue, Evolves, Fulfilled;
    DeliveredInv(c, now, w, requestId, pending, unbooked);
    if requestId in w.vrf.ready && requestId !in w.vrf.delivered {
      SettlesShape(c, now, w, requestId, pending, unbooked);
      SettledTrue(c, now, w, requestId, unbooked);
    }
  }

  lemma SettledTrue(c: Config, now: nat, w: World, requestId: nat, unbooked: nat)
    requires Inv(c, w, false, unbooked) && ValidTime(now) && AllTrue(c, w.lot, w.log)
    requires requestId in w.vrf.ready && requestId !in w.vrf.delivered
    requires requestId in w.vrf.words && Fulfilled(c, now, w, requestId, w.vrf.words[requestId]).Ok?
    ensures
      var w1 := Fulfilled(c, now, w, requestId, w.vrf.words[requestId]).value;
      AllTrue(c, w1.lot, w1.log)
  {
    hide Inv, AllTrue, Evolves, Fulfilled, RoundOk, Settled, Interfered;
    var w1 := Fulfilled(c, now, w, requestId, w.vrf.words[requestId]).value;
    SettlesShape(c, now, w, requestId, false, unbooked);
    var id := w.lot.currentDrawId;
    var d1 := Settled(c, now, w.lot.DrawOf(id), w.lot.OwnersOf(id), w.vrf.words[requestId]);
    SettlesHistory(c, now, w, w1.lot, requestId, unbooked);
    SettlesInterferes(c, now, w, AfterDelivery(w1, requestId), requestId, false, unbooked);
    ValidConfigOf(c, w, unbooked);
    SettledRoundOk(c, now, RoundAt(w.lot, id), id, w.vrf.words[requestId]);
    SettledFacts(c, now, w.lot.DrawOf(id), w.lot.OwnersOf(id), w.vrf.words[requestId]);
    var e := Emit(now, LotteryDrawn(id, d1.luckyNumber, d1.winner, w.lot.DrawOf(id).pool, d1.daoFee, d1.winnerPrize,
        if d1.winner == ZERO then w.lot.DrawOf(id).pool else 0));
    assert IsTrue(c, w1.lot, e);
    OneMoreTrue(c, w, AfterDelivery(w1, requestId), w.log, e);
  }

  lemma ValidConfigOf(c: Config, w: World, unbooked: nat)
    requires Inv(c, w, false, unbooked)
    ensures ValidConfig(c)
  {}

  lemma SettledFacts(c: Config, now: nat, d: Draw, owners: seq<Address>, word: nat)
    requires |owners| == POSITIONS && ValidTime(now) && d.pool >= c.ticketPrice
    ensures
      var d1 := Settled(c, now, d, owners, word);
      && d1.status in {WINNER_DECLARED, NO_WINNER} && d1.finalizedAt == now && d1.pool == d.pool
  {}

  lemma CalledBackTrue(c: Config, now: nat, w: World, requestId: nat, values: seq<nat>, runs: bool, pending: bool,
                       unbooked: nat)
    requires Inv(c, w, pending, unbooked) && ValidTime(now) && AllTrue(c, w.lot, w.log)
    ensures
      var w1 := CalledBack(c, now, w, requestId, values, runs);
      AllTrue(c, w1.lot, w1.log)
  {
    hide Inv, AllTrue, Fulfilled, Evolves, Interfered;
    if requestId in w.vrf.requested && requestId !in w.vrf.ready && |values| != 0 {
      var w1 := w.(vrf := w.vrf.(words := w.vrf.words[requestId := values[0]], ready := w.vrf.ready + {requestId}));
      StoredInv(c, w, w1, requestId, values[0], pending, unbooked);
      DeliveredTrue(c, now, w1, requestId, pending, unbooked);
    }
  }

  lemma UnguardedTrue(c: Config, now: nat, w: World, call: Call, pending: bool, unbooked: nat)
    requires Inv(c, w, pending, unbooked) && ValidTime(now) && AllTrue(c, w.lot, w.log) && Unguarded(call)
    ensures
      var w1 := Exec(c, now, w, call);
      AllTrue(c, w1.lot, w1.log)
  {
    hide Inv, AllTrue, CalledBack, Delivered;
    match call
    case FinalizeDraw(id) => DeliveredTrue(c, now, w, w.lot.DrawOf(id).requestId, pending, unbooked);
    case Deliver(requestId) => DeliveredTrue(c, now, w, requestId, pending, unbooked);
    case Callback(_, requestId, values, runs) =>
      CalledBackTrue(c, now, w, requestId, values, runs, pending, unbooked);
    case _ =>
  }

  lemma {:induction false} LockedTrue(c: Config, now: nat, w: World, calls: seq<Call>, pending: bool, unbooked: nat)
    requires Inv(c, w, pending, unbooked) && ValidTime(now) && AllTrue(c, w.lot, w.log) && w.locked
    ensures
      var w1 := RunAll(c, now, w, calls);
      AllTrue(c, w1.lot, w1.log)
    decreases |calls|
  {
    hide Inv, AllTrue, Exec, Evolves, Interfered, Try;
    if calls != [] {
      var w1 := Exec(c, now, w, calls[0]);
      LockedCall(c, now, w, calls[0], pending, unbooked);
      if Unguarded(calls[0]) {
        UnguardedTrue(c, now, w, calls[0], pending, unbooked);
      } else {
        LockedRefuses(c, now, w, calls[0]);
        RefusedExec(c, now, w, calls[0]);
      }
      StillLocked(w, w1, pending);
      LockedTrue(c, now, w1, calls[1..], pending, unbooked);
    }
  }

  lemma StillLocked(w: World, w1: World, pending: bool)
    requires Interfered(w, w1, pending)
    ensures w1.locked == w.locked
  {}

  lemma PayoutTrue(c: Config, now: nat, w: World, to: Address, pay: TokenCall, amount: nat, unbooked: nat)
    requires Inv(c, w, false, unbooked) && ValidTime(now) && AllTrue(c, w.lot, w.log) && w.locked
    requires amount <= unbooked && TokenOut(c, now, w, to, pay, amount).Ok?
    ensures
      var w1 := TokenOut(c, now, w, to, pay, amount).value;
      AllTrue(c, w1.lot, w1.log)
  {
    hide Inv, AllTrue, RunAll, Evolves, Interfered;
    var w1 := RunAll(c, now, w, pay.pre);
    LockedCalls(c, now, w, pay.pre, false, unbooked);
    LockedTrue(c, now, w, pay.pre, false, unbooked);
    LessUnbooked(c, w1, to, amount, unbooked);
    LockedTrue(c, now, Sent(w1, to, amount), pay.post, false, unbooked - amount);
  }

  /******* Guarded calls *******/

  lemma NewestTrue(c: Config, w: World, w1: World, e: Emit)
    requires AllTrue(c, w.lot, w.log) && Evolves(w, w1) && w1.log == w.log + [e] && IsTrue(c, w1.lot, e)
    ensures AllTrue(c, w1.lot, w1.log)
  {
    hide IsTrue, Evolves, AllTrue;
    OneMoreTrue(c, w, w1, w.log, e);
  }

  lemma BuyTrue(c: Config, now: nat, w: World, sender: Outsider, id: nat, pay: TokenCall)
    requires AtRest(c, w) && ValidTime(now) && AllTrue(c, w.lot, w.log)
      && Try(c, now, w, BuyTicket(sender, id, pay)).Ok?
    ensures
      var w1 := Exec(c, now, w, BuyTicket(sender, id, pay));
      AllTrue(c, w1.lot, w1.log)
  {
    hide Inv, Try, AllTrue, Evolves, RunAll;
    var w1 := Exec(c, now, w, BuyTicket(sender, id, pay));
    BuyExactly(c, now, w, sender, id, pay);
    ExecInv(c, now, w, BuyTicket(sender, id, pay));
    RoundsCost(c, w, id);
    var d, n := w.lot.DrawOf(id), w.lot.DrawOf(id).participantCount + 1;
    CostAdds(c, n - 1, 1);
    hide Cost;
    NewestTrue(c, w, w1, Emit(now, TicketBought(id, sender, n, c.ticketPrice, n, d.pool + c.ticketPrice)));
  }

  lemma RoundsCost(c: Config, w: World, id: nat)
    requires AtRest(c, w) && 1 <= id <= w.lot.currentDrawId
    ensures w.lot.DrawOf(id).pool == w.lot.DrawOf(id).inheritedRollover + Cost(c, w.lot.DrawOf(id).participantCount)
  {
    hide Buckets, Requests, BoardOk;
    RoundFacts(c, w.lot, false, id);
  }

  lemma StartTrue(c: Config, now: nat, w: World, expected: nat)
    requires AtRest(c, w) && ValidTime(now) && AllTrue(c, w.lot, w.log) && Try(c, now, w, StartDraw(expected)).Ok?
    ensures
      var w1 := Exec(c, now, w, StartDraw(expected));
      AllTrue(c, w1.lot, w1.log)
  {
    hide Inv, Try, AllTrue, Evolves;
    var w1 := Exec(c, now, w, StartDraw(expected));
    StartExactly(c, now, w, expected);
    ExecInv(c, now, w, StartDraw(expected));
    NewestTrue(c, w, w1, Emit(now, DrawStarted(w.lot.currentDrawId + 1, now, now + 86400, c.ticketPrice, c.minimum,
        w.lot.pendingRollover)));
  }

  lemma PerformTrue(c: Config, now: nat, w: World, id: nat, during: seq<Call>, answer: Option<nat>)
    requires AtRest(c, w) && ValidTime(now) && AllTrue(c, w.lot, w.log)
      && Try(c, now, w, PerformDraw(id, during, answer)).Ok?
    ensures
      var w1 := Exec(c, now, w, PerformDraw(id, during, answer));
      AllTrue(c, w1.lot, w1.log)
  {
    hide Inv, Try, AllTrue, Evolves;
    var w1 := Exec(c, now, w, PerformDraw(id, during, answer));
    var d := w.lot.DrawOf(id);
    PerformExactly(c, now, w, id, during, answer);
    ExecInv(c, now, w, PerformDraw(id, during, answer));
    if d.participantCount < c.minimum {
      var refunds := c.ticketPrice * d.participantCount;
      assert refunds == Cost(c, d.participantCount);
      NewestTrue(c, w, w1, Emit(now, DrawCancelled(id, d.participantCount, refunds, d.inheritedRollover)));
    } else {
      NewestTrue(c, w, w1, Emit(now, RandomnessRequested(id, answer.value)));
    }
  }

  // A claim's report comes last, after whatever was settled meanwhile.
  lemma ClaimTrue(c: Config, w: World, w1: World, w2: World, id: nat, report: Emit)
    requires AllTrue(c, w1.lot, w1.log) && w2 == w1.(locked := false, log := w1.log + [report])
    requires IsTrue(c, w1.lot, report)
    ensures AllTrue(c, w2.lot, w2.log)
  {
    hide IsTrue;
  }

  lemma PrizeTrue(c: Config, now: nat, w: World, sender: Outsider, id: nat, toDao: TokenCall, toWinner: TokenCall)
    requires AtRest(c, w) && ValidTime(now) && AllTrue(c, w.lot, w.log)
    requires TryPrize(c, now, w, sender, id, toDao, toWinner).Ok?
    ensures
      var w1 := TryPrize(c, now, w, sender, id, toDao, toWinner).value;
      AllTrue(c, w1.lot, w1.log)
  {
    hide Inv, AllTrue, TokenOut, Evolves, Interfered, Claimed, OnlySettles, RoundAt;
    var d := w.lot.DrawOf(id);
    var w1 := PrizeReleased(w, id);
    PrizeReleasedInv(c, w, sender, id);
    PrizeReleasedRound(w, id);
    TruthStays(c, w, w1, w.log);
    OnlySettlesReflexive(w1);
    var w2 := w1;
    if d.daoFee != 0 {
      w2 := TokenOut(c, now, w1, c.dao, toDao, d.daoFee).value;
      PayoutTrue(c, now, w1, c.dao, toDao, d.daoFee, d.pool);
      PayoutSettles(c, now, w1, c.dao, toDao, d.daoFee);
      TokenOutFacts(c, now, w1, c.dao, toDao, d.daoFee, d.pool);
    }
    SettledStays(w1, w2, id);
    var w3 := TokenOut(c, now, w2, sender, toWinner, d.winnerPrize).value;
    PayoutTrue(c, now, w2, sender, toWinner, d.winnerPrize, d.winnerPrize);
    PayoutSettles(c, now, w2, sender, toWinner, d.winnerPrize);
    SettledStays(w2, w3, id);
    OnlyRoundsAt(c, w, id);
    SameIds(w1, w2);
    SameIds(w2, w3);
    ClaimTrue(c, w, w3, PrizePaid(c, now, w3, sender, id), id,
        Emit(now, PrizeClaimed(id, sender, d.winnerPrize, c.dao, d.daoFee)));
  }

  lemma SameIds(w: World, w1: World)
    requires OnlySettles(w, w1)
    ensures w1.lot.currentDrawId == w.lot.currentDrawId
  {}

  lemma OnlyRoundsAt(c: Config, w: World, id: nat)
    requires AtRest(c, w) && w.lot.DrawOf(id).status != ACTIVE
    ensures 1 <= id <= w.lot.currentDrawId
  {
    OnlyRounds(c, w.lot, false, id);
  }

  lemma RefundTrue(c: Config, now: nat, w: World, sender: Outsider, id: nat, pay: TokenCall)
    requires AtRest(c, w) && ValidTime(now) && AllTrue(c, w.lot, w.log)
    requires TryRefund(c, now, w, sender, id, pay).Ok?
    ensures
      var w1 := TryRefund(c, now, w, sender, id, pay).value;
      AllTrue(c, w1.lot, w1.log)
  {
    hide Inv, AllTrue, TokenOut, Evolves, Interfered, Claimed, OnlySettles, RoundAt;
    var w1 := RefundReleased(c, w, sender, id);
    RefundReleasedInv(c, w, sender, id);
    RefundReleasedRound(c, w, sender, id);
    TruthStays(c, w, w1, w.log);
    var w2 := TokenOut(c, now, w1, sender, pay, c.ticketPrice).value;
    PayoutTrue(c, now, w1, sender, pay, c.ticketPrice, c.ticketPrice);
    PayoutSettles(c, now, w1, sender, pay, c.ticketPrice);
    SettledStays(w1, w2, id);
    OnlyRoundsAt(c, w, id);
    SameIds(w1, w2);
    RoundAtDraw(w2.lot, id);
    ClaimTrue(c, w, w2, RefundPaid(c, now, w2, sender, id), id, Emit(now, RefundClaimed(id, sender, c.ticketPrice)));
  }

  /******* Every run *******/

  lemma ExecTrue(c: Config, now: nat, w: World, call: Call)
    requires AtRest(c, w) && ValidTime(now) && AllTrue(c, w.lot, w.log)
    ensures
      var w1 := Exec(c, now, w, call);
      AllTrue(c, w1.lot, w1.log)
  {
    hide Inv, AllTrue, TryPrize, TryRefund, TryBuy, TryPerform, TryStart;
    if Unguarded(call) {
      UnguardedTrue(c, now, w, call, false, 0);
    } else if Try(c, now, w, call).Ok? {
      match call
      case StartDraw(expected) => StartTrue(c, now, w, expected);
      case BuyTicket(sender, id, pay) => BuyTrue(c, now, w, sender, id, pay);
      case PerformDraw(id, during, answer) => PerformTrue(c, now, w, id, during, answer);
      case ClaimPrize(sender, id, toDao, toWinner) => PrizeTrue(c, now, w, sender, id, toDao, toWinner);
      case ClaimRefund(sender, id, pay) => RefundTrue(c, now, w, sender, id, pay);
      case _ =>
    } else {
      RefusedExec(c, now, w, call);
    }
  }

  // After every run, storage bears out every event that was ever emitted: rounds began and ended when
  // the log says, tickets were sold before the deadline and belong to their buyers, outcomes, prizes,
  // fees, rollovers and refunds are as reported.
  lemma {:induction false} LogIsTrue(c: Config, w: World, txs: seq<Tx>)
    requires AtRest(c, w) && ValidTimes(txs) && AllTrue(c, w.lot, w.log)
    ensures AllTrue(c, Run(c, w, txs).lot, Run(c, w, txs).log)
    decreases |txs|
  {
    hide Inv, Exec, AllTrue;
    if txs != [] {
      ExecTrue(c, txs[0].now, w, txs[0].call);
      ExecInv(c, txs[0].now, w, txs[0].call);
      LogIsTrue(c, Exec(c, txs[0].now, w, txs[0].call), txs[1..]);
    }
  }

  // No ticket is ever sold at or after the deadline that the start of its round announced.
  lemma SalesBeforeDeadline(c: Config, txs: seq<Tx>, i: nat, j: nat)
    requires ValidConfig(c) && ValidTimes(txs)
    requires
      var log := Run(c, GENESIS, txs).log;
      && i < |log| && j < |log| && log[i].payload.DrawStarted? && log[j].payload.TicketBought?
      && log[i].payload.drawId == log[j].payload.drawId
    ensures
      var log := Run(c, GENESIS, txs).log;
      && log[i].payload.startTime == log[i].time && log[i].payload.deadline == log[i].time + 86400
      && log[j].time < log[i].payload.deadline
  {
    hide Run, GENESIS, AtRest, RoundAt;
    GenesisAtRest(c);
    NothingLogged();
    LogIsTrue(c, GENESIS, txs);
    var w := Run(c, GENESIS, txs);
    assert IsTrue(c, w.lot, w.log[i]) && IsTrue(c, w.lot, w.log[j]);
  }
}
