/** What the invariant means for the lottery's users, over every run and every nested schedule. */
module LotteryTheorems {
  import opened Basics
  import opened Contract
  import opened Invariants
  import opened Preservation
  import opened Transactions

  /******* Money *******/

  // Every unit ever paid for a ticket is a liability, was part of a paid-out pool, or was refunded;
  // the balance exceeds the liabilities by exactly what was given away.
  lemma Conservation(c: Config, txs: seq<Tx>)
    requires ValidConfig(c) && ValidTimes(txs)
    ensures
      var w := Run(c, GENESIS, txs);
      var t := SumTo(c, w.lot, w.lot.currentDrawId);
      var liabilities := w.lot.activePool + w.lot.pendingRollover + w.lot.outstandingPrizes + w.lot.outstandingRefunds;
      && t.sold == liabilities + t.completed + t.refundsPaid
      && w.balance == liabilities + w.donated
      && liabilities <= MAX_UINT256
  {
    hide Run, GENESIS, History, Requests, SumTo, RoundAt;
    GenesisAtRest(c);
    RunInv(c, GENESIS, txs);
  }

  // The four buckets as sums over the whole history of rounds.
  lemma BucketDecomposition(c: Config, txs: seq<Tx>)
    requires ValidConfig(c) && ValidTimes(txs)
    ensures
      var l := Run(c, GENESIS, txs).lot;
      var n := l.currentDrawId;
      && l.activePool == (if n != 0 && l.DrawOf(n).status in {ACTIVE, DRAWING} then l.DrawOf(n).pool else 0)
      && l.pendingRollover == (if n == 0 then 0 else CarryOut(l.DrawOf(n)))
      && l.outstandingPrizes == SumTo(c, l, n).prizes
      && l.outstandingRefunds == SumTo(c, l, n).owed
  {
    hide Run, GENESIS, History, Requests, SumTo;
    GenesisAtRest(c);
    RunInv(c, GENESIS, txs);
    BucketFacts(c, Run(c, GENESIS, txs).lot);
  }

  /******* Deployment *******/

  // Calls that explain what a deployment finds.
  function Earlier(c: Config, balance: nat, elsewhere: bool): seq<Call> {
    if elsewhere && c.configurator > PROVIDER then [Donate(balance), SetLottery(c.configurator, OtherContract)]
    else [Donate(balance)]
  }

  function AllAt(now: nat, calls: seq<Call>): seq<Tx> {
    seq(|calls|, i requires 0 <= i < |calls| => Tx(now, calls[i]))
  }

  // Tokens that arrived before the deployment and a provider that already names another contract
  // are nothing new: every run from there is a run from GENESIS.
  lemma DeployedRuns(c: Config, now: nat, balance: nat, elsewhere: bool, txs: seq<Tx>, calls: seq<Call>)
    requires balance <= MAX_UINT256 && (elsewhere ==> c.configurator > PROVIDER)
    ensures Run(c, Deployed(balance, elsewhere), txs) ==
      Run(c, GENESIS, AllAt(now, Earlier(c, balance, elsewhere)) + txs)
    ensures RunAll(c, now, Deployed(balance, elsewhere), calls) ==
      RunAll(c, now, GENESIS, Earlier(c, balance, elsewhere) + calls)
    ensures ValidTime(now) && ValidTimes(txs) ==> ValidTimes(AllAt(now, Earlier(c, balance, elsewhere)) + txs)
  {
    hide Deployed, GENESIS, Earlier, Run, RunAll;
    EarlierDeploys(c, now, balance, elsewhere);
    RunJoins(c, now, GENESIS, Earlier(c, balance, elsewhere), txs);
    RunAllConcat(c, now, GENESIS, Earlier(c, balance, elsewhere), calls);
  }

  lemma EarlierDeploys(c: Config, now: nat, balance: nat, elsewhere: bool)
    requires balance <= MAX_UINT256 && (elsewhere ==> c.configurator > PROVIDER)
    ensures RunAll(c, now, GENESIS, Earlier(c, balance, elsewhere)) == Deployed(balance, elsewhere)
  {
    var w1 := Exec(c, now, GENESIS, Donate(balance));
    assert NEW_VRF == NEW_VRF.(elsewhere := false);
    assert Try(c, now, GENESIS, Donate(balance)).Ok?;
    assert w1.vrf == Deployed(balance, false).vrf;
    assert w1 == Deployed(balance, false);
    assert RunAll(c, now, w1, []) == w1;
    if elsewhere {
      var naming := SetLottery(c.configurator, OtherContract);
      assert Exec(c, now, w1, naming) == Deployed(balance, true);
      assert Earlier(c, balance, true)[1..] == [naming];
      assert RunAll(c, now, w1, [naming]) == RunAll(c, now, Exec(c, now, w1, naming), []);
    }
  }

  lemma {:induction false} RunJoins(c: Config, now: nat, w: World, calls: seq<Call>, txs: seq<Tx>)
    ensures Run(c, RunAll(c, now, w, calls), txs) == Run(c, w, AllAt(now, calls) + txs)
    decreases |calls|
  {
    hide Exec;
    var all := AllAt(now, calls) + txs;
    if calls == [] {
      assert all == txs;
    } else {
      assert all[1..] == AllAt(now, calls[1..]) + txs;
      RunJoins(c, now, Exec(c, now, w, calls[0]), calls[1..], txs);
    }
  }

  lemma {:induction false} RunAllConcat(c: Config, now: nat, w: World, a: seq<Call>, b: seq<Call>)
    ensures RunAll(c, now, w, a + b) == RunAll(c, now, RunAll(c, now, w, a), b)
    decreases |a|
  {
    hide Exec;
    if a == [] {
      assert a + b == b;
    } else {
      assert (a + b)[0] == a[0] && (a + b)[1..] == a[1..] + b;
      RunAllConcat(c, now, Exec(c, now, w, a[0]), a[1..], b);
    }
  }

  /******* Nested calls *******/

  // A state in which somebody else has control, and what they do with it.
  datatype Point = Point(state: World, script: seq<Call>)

  // The points of a call: before a token moves, after it moved, and while the coordinator answers.
  function CallPoints(c: Config, now: nat, w: World, call: Call): seq<Point> {
    match call
    case BuyTicket(sender, id, pay) =>
      if BuyRefused(now, w, sender, id).Some? then []
      else
        var w1 := RunAll(c, now, w.(locked := true), pay.pre);
        if !pay.succeeds || w1.balance + c.ticketPrice > MAX_UINT256 then [Point(w.(locked := true), pay.pre)]
        else [Point(w.(locked := true), pay.pre), Point(Received(w1, sender, c.ticketPrice), pay.post)]
    case PerformDraw(id, during, answer) =>
      if w.locked || !w.lot.CanPerformDraw(id, now) || w.lot.DrawOf(id).participantCount < c.minimum
        || !w.vrf.bound then []
      else [Point(Requesting(w, id), during)]
    case ClaimPrize(sender, id, toDao, toWinner) =>
      if PrizeRefused(w, sender, id).Some? then []
      else
        var d := w.lot.DrawOf(id);
        var w1 := PrizeReleased(w, id);
        var first := if d.daoFee == 0 then [] else PayoutPoints(c, now, w1, c.dao, toDao, d.daoFee);
        (match if d.daoFee != 0 then TokenOut(c, now, w1, c.dao, toDao, d.daoFee) else Ok(w1)
         case Revert(_) => first
         case Ok(w2) => first + PayoutPoints(c, now, w2, sender, toWinner, w2.lot.DrawOf(id).winnerPrize))
    case ClaimRefund(sender, id, pay) =>
      if RefundRefused(c, w, sender, id).Some? then []
      else PayoutPoints(c, now, RefundReleased(c, w, sender, id), sender, pay, c.ticketPrice)
    case _ => []
  }

  function PayoutPoints(c: Config, now: nat, w: World, to: Address, pay: TokenCall, amount: nat): seq<Point> {
    var w1 := RunAll(c, now, w, pay.pre);
    if !pay.succeeds || w1.balance < amount then [Point(w, pay.pre)]
    else [Point(w, pay.pre), Point(Sent(w1, to, amount), pay.post)]
  }

  ghost predicate Guarded(c: Config, w: World) {
    w.locked && exists pending, unbooked :: Inv(c, w, pending, unbooked)
  }

  lemma PayoutPointsGuarded(c: Config, now: nat, w: World, to: Address, pay: TokenCall, amount: nat, unbooked: nat,
                            k: nat)
    requires Inv(c, w, false, unbooked) && ValidTime(now) && w.locked && amount <= unbooked
    requires k < |PayoutPoints(c, now, w, to, pay, amount)|
    ensures Guarded(c, PayoutPoints(c, now, w, to, pay, amount)[k].state)
  {
    hide History, Buckets, Requests, Evolves, Interfered;
    LockedCalls(c, now, w, pay.pre, false, unbooked);
    if k == 1 {
      var w1 := RunAll(c, now, w, pay.pre);
      assert Inv(c, Sent(w1, to, amount), false, unbooked - amount);
    } else {
      assert Inv(c, w, false, unbooked);
    }
  }

  lemma BuyPointsGuarded(c: Config, now: nat, w: World, sender: Outsider, id: nat, pay: TokenCall, k: nat)
    requires AtRest(c, w) && ValidTime(now)
    requires k < |CallPoints(c, now, w, BuyTicket(sender, id, pay))|
    ensures Guarded(c, CallPoints(c, now, w, BuyTicket(sender, id, pay))[k].state)
  {
    hide History, Buckets, Requests, Evolves, Interfered;
    Locking(c, w);
    var w0 := w.(locked := true);
    LockedCalls(c, now, w0, pay.pre, false, 0);
    if k == 1 {
      var w1 := RunAll(c, now, w0, pay.pre);
      assert Inv(c, Received(w1, sender, c.ticketPrice), false, c.ticketPrice);
    } else {
      assert Inv(c, w0, false, 0);
    }
  }

  lemma PrizePointsGuarded(c: Config, now: nat, w: World, sender: Outsider, id: nat, toDao: TokenCall,
                           toWinner: TokenCall, k: nat)
    requires AtRest(c, w) && ValidTime(now)
    requires k < |CallPoints(c, now, w, ClaimPrize(sender, id, toDao, toWinner))|
    ensures Guarded(c, CallPoints(c, now, w, ClaimPrize(sender, id, toDao, toWinner))[k].state)
  {
    hide Inv, Evolves, RoundAt, TokenOut, Interfered, PayoutPoints, Guarded;
    var d := w.lot.DrawOf(id);
    PrizeReleasedInv(c, w, sender, id);
    var w1 := PrizeReleased(w, id);
    var first := if d.daoFee == 0 then [] else PayoutPoints(c, now, w1, c.dao, toDao, d.daoFee);
    if k < |first| {
      PayoutPointsGuarded(c, now, w1, c.dao, toDao, d.daoFee, d.pool, k);
    } else if d.daoFee == 0 {
      PayoutPointsGuarded(c, now, w1, sender, toWinner, d.winnerPrize, d.pool, k);
    } else {
      TokenOutFacts(c, now, w1, c.dao, toDao, d.daoFee, d.pool);
      var w2 := TokenOut(c, now, w1, c.dao, toDao, d.daoFee).value;
      CompletedStays(Sent(w1, c.dao, d.daoFee), w2, id);
      PayoutPointsGuarded(c, now, w2, sender, toWinner, d.winnerPrize, d.winnerPrize, k - |first|);
    }
  }

  lemma CallPointsGuarded(c: Config, now: nat, w: World, call: Call, k: nat)
    requires AtRest(c, w) && ValidTime(now) && k < |CallPoints(c, now, w, call)|
    ensures Guarded(c, CallPoints(c, now, w, call)[k].state)
  {
    hide Inv, Evolves, RoundAt, Interfered, PayoutPoints;
    match call
    case BuyTicket(sender, id, pay) => BuyPointsGuarded(c, now, w, sender, id, pay, k);
    case PerformDraw(id, during, answer) =>
      RequestingInv(c, now, w, id);
      assert Inv(c, Requesting(w, id), true, 0);
    case ClaimPrize(sender, id, toDao, toWinner) => PrizePointsGuarded(c, now, w, sender, id, toDao, toWinner, k);
    case ClaimRefund(sender, id, pay) =>
      RefundReleasedInv(c, w, sender, id);
      PayoutPointsGuarded(c, now, RefundReleased(c, w, sender, id), sender, pay, c.ticketPrice, c.ticketPrice, k);
    case _ =>
  }

  // Whatever calls are made at a call point, the books stay right, the balance covers them, and a
  // round without a registered request is not settled.
  lemma NestedCallsAreSafe(c: Config, now: nat, w: World, call: Call, k: nat, calls: seq<Call>)
    requires AtRest(c, w) && ValidTime(now) && k < |CallPoints(c, now, w, call)|
    ensures
      var p := CallPoints(c, now, w, call)[k].state;
      var q := RunAll(c, now, p, calls);
      && q.locked
      && Buckets(c, q.lot)
      && q.lot.Liabilities() + q.donated <= q.balance <= MAX_UINT256
      && (forall id: nat :: p.lot.DrawOf(id).requestId == 0 || p.lot.DrawOf(id).status != DRAWING ==>
         q.lot.DrawOf(id) == p.lot.DrawOf(id))
  {
    var p := CallPoints(c, now, w, call)[k].state;
    CallPointsGuarded(c, now, w, call, k);
    GuardedCalls(c, now, p, calls);
  }

  lemma GuardedCalls(c: Config, now: nat, p: World, calls: seq<Call>)
    requires Guarded(c, p) && ValidTime(now)
    ensures
      var q := RunAll(c, now, p, calls);
      && q.locked && Buckets(c, q.lot) && q.lot.Liabilities() + q.donated <= q.balance <= MAX_UINT256
      && (forall id: nat :: p.lot.DrawOf(id).requestId == 0 || p.lot.DrawOf(id).status != DRAWING ==>
         q.lot.DrawOf(id) == p.lot.DrawOf(id))
  {
    hide Buckets, History, Requests, Evolves, RunAll, RoundOk;
    var pending, unbooked :| Inv(c, p, pending, unbooked);
    LockedCalls(c, now, p, calls, pending, unbooked);
    var q := RunAll(c, now, p, calls);
    var n := p.lot.currentDrawId;
    forall id: nat | p.lot.DrawOf(id).requestId == 0 || p.lot.DrawOf(id).status != DRAWING
      ensures q.lot.DrawOf(id) == p.lot.DrawOf(id)
    {
      if id != n {
        assert RoundAt(q.lot, id) == RoundAt(p.lot, id);
      } else if p.lot.DrawOf(n).status == DRAWING {
        DrawingWithoutRequest(c, p, pending, unbooked);
      }
    }
  }

  lemma DrawingWithoutRequest(c: Config, w: World, pending: bool, unbooked: nat)
    requires Inv(c, w, pending, unbooked) && w.lot.DrawOf(w.lot.currentDrawId).status == DRAWING
    ensures w.lot.DrawOf(w.lot.currentDrawId).requestId == 0 <==> pending
  {
    hide Buckets, Requests, BoardOk;
    assert RoundAt(w.lot, w.lot.currentDrawId) != EMPTY_ROUND;
    RoundFacts(c, w.lot, pending, w.lot.currentDrawId);
  }

  /******* Settlement never gets stuck *******/

  // finalizeDraw succeeds exactly on a DRAWING round whose word has arrived, and then settles it
  // by that word.
  ghost predicate FinalizesIffReady(c: Config, now: nat, w: World, id: nat) {
    var t := TryFinalize(c, now, w, id);
    var d := w.lot.DrawOf(id);
    && (t.Ok? <==> d.status == DRAWING && d.requestId in w.vrf.ready)
    && (t.Ok? ==>
      && t.value.lot.DrawOf(id).status in {WINNER_DECLARED, NO_WINNER}
      && d.requestId in w.vrf.words
      && t.value.lot.DrawOf(id).luckyNumber == w.vrf.words[d.requestId] % 10 + 1
      && t.value.lot.Liabilities() == w.lot.Liabilities())
  }

  lemma SettlementNeverStuck(c: Config, now: nat, w: World, id: nat)
    requires AtRest(c, w) && ValidTime(now)
    ensures FinalizesIffReady(c, now, w, id)
  {
    hide FinalizesIffReady, Inv;
    FinalizesUnderInv(c, now, w, id, false, 0);
  }

  // Nor inside another call: finalizeDraw is not guarded, and whatever the outside world has
  // called before at a call point, it succeeds there under the same condition.
  lemma SettlementNeverStuckInside(c: Config, now: nat, w: World, call: Call, k: nat, calls: seq<Call>, id: nat)
    requires AtRest(c, w) && ValidTime(now) && k < |CallPoints(c, now, w, call)|
    ensures FinalizesIffReady(c, now, RunAll(c, now, CallPoints(c, now, w, call)[k].state, calls), id)
  {
    hide CallPoints, FinalizesIffReady, Inv, AtRest, RunAll, Evolves, Interfered;
    var p := CallPoints(c, now, w, call)[k].state;
    CallPointsGuarded(c, now, w, call, k);
    var pending, unbooked :| Inv(c, p, pending, unbooked);
    LockedCalls(c, now, p, calls, pending, unbooked);
    FinalizesUnderInv(c, now, RunAll(c, now, p, calls), id, pending, unbooked);
  }

  lemma FinalizesUnderInv(c: Config, now: nat, w: World, id: nat, pending: bool, unbooked: nat)
    requires Inv(c, w, pending, unbooked) && ValidTime(now)
    ensures FinalizesIffReady(c, now, w, id)
  {
    hide Inv, Fulfilled, RoundOk, RoundAt, Settled;
    var d := w.lot.DrawOf(id);
    if d.status == DRAWING {
      DrawingIsCurrent(c, w, id, pending, unbooked);
      if d.requestId in w.vrf.ready {
        DrawingUndelivered(c, w, id, pending, unbooked);
        SettlesShape(c, now, w, d.requestId, pending, unbooked);
        SettlesBuckets(c, now, w, Fulfilled(c, now, w, d.requestId, w.vrf.words[d.requestId]).value.lot, d.requestId,
            unbooked);
        CurrentRoundPool(c, w, id, pending, unbooked);
        SettledLucky(c, now, d, w.lot.OwnersOf(id), w.vrf.words[d.requestId]);
        SettledKeeps(c, now, d, w.lot.OwnersOf(id), w.vrf.words[d.requestId]);
      }
    }
  }

  lemma DrawingIsCurrent(c: Config, w: World, id: nat, pending: bool, unbooked: nat)
    requires Inv(c, w, pending, unbooked) && w.lot.DrawOf(id).status == DRAWING
    ensures 1 <= id == w.lot.currentDrawId
  {
    hide Buckets, Requests, RoundOk;
    OnlyRounds(c, w.lot, pending, id);
    RoundFacts(c, w.lot, pending, id);
  }

  lemma DrawingUndelivered(c: Config, w: World, id: nat, pending: bool, unbooked: nat)
    requires Inv(c, w, pending, unbooked) && 1 <= id == w.lot.currentDrawId && w.lot.DrawOf(id).status == DRAWING
      && w.lot.DrawOf(id).requestId in w.vrf.ready
    ensures w.lot.DrawOf(id).requestId !in w.vrf.delivered && w.vrf.bound
  {
    hide Buckets, History, BoardOk, Requests;
    RoundFacts(c, w.lot, pending, id);
    var r := w.lot.DrawOf(id).requestId;
    RequestFacts(w.lot, w.vrf, r);
    assert w.lot.RequestDraw(RoundAt(w.lot, id).d.requestId) == id;
  }

  lemma CurrentRoundPool(c: Config, w: World, id: nat, pending: bool, unbooked: nat)
    requires Inv(c, w, pending, unbooked) && 1 <= id == w.lot.currentDrawId && w.lot.DrawOf(id).status == DRAWING
    ensures w.lot.DrawOf(id).pool >= c.ticketPrice
  {
    hide Buckets, Requests, BoardOk, Cost, History;
    RoundFacts(c, w.lot, pending, id);
    CostAdds(c, w.lot.DrawOf(id).participantCount, 0);
  }

  // No call at rest ever fails on checked arithmetic, except starting a round after the last one
  // that can be numbered.
  lemma NeverPanics(c: Config, now: nat, w: World, call: Call)
    requires AtRest(c, w) && ValidTime(now)
    ensures Try(c, now, w, call) == Revert(Panic) <==>
      call == StartDraw(w.lot.currentDrawId) && w.lot.CanStartDraw() && w.lot.currentDrawId >= MAX_UINT256
  {
    hide Inv, RoundAt, RunAll, TokenIn, TokenOut, Registered, Fulfilled, Bought, Delivered;
    match call
    case BuyTicket(sender, id, pay) =>
      BuyNeverPanics(c, now, w, sender, id, pay);
    case PerformDraw(id, during, answer) =>
      if !w.locked && w.lot.CanPerformDraw(id, now) && w.lot.DrawOf(id).participantCount < c.minimum {
        CancelledInv(c, now, w, id);
      }
      RegisteredError(now, RunAll(c, now, Requesting(w, id), during), id, answer);
    case ClaimPrize(sender, id, toDao, toWinner) =>
      if w.lot.DrawOf(id).status == WINNER_DECLARED { PrizeReleasedInv(c, w, sender, id); }
      PrizeErrors(c, now, w, sender, id, toDao, toWinner);
    case ClaimRefund(sender, id, pay) =>
      if w.lot.DrawOf(id).status == CANCELLED && w.lot.Ticket(id, sender) != 0 && sender !in w.lot.RefundedOf(id) {
        RefundReleasedInv(c, w, sender, id);
        TokenOutError(c, now, RefundReleased(c, w, sender, id), sender, pay, c.ticketPrice);
      }
    case FinalizeDraw(id) => DeliveredError(c, now, w, w.lot.DrawOf(id).requestId);
    case Deliver(r) => DeliveredError(c, now, w, r);
    case _ =>
  }

  lemma DeliveredError(c: Config, now: nat, w: World, r: nat)
    requires AtRest(c, w) && ValidTime(now)
    ensures Delivered(c, now, w, r) != Revert(Panic)
  {
    hide Inv, Fulfilled;
    DeliveredInv(c, now, w, r, false, 0);
  }

  lemma TokenOutError(c: Config, now: nat, w: World, to: Address, pay: TokenCall, amount: nat)
    ensures TokenOut(c, now, w, to, pay, amount).Revert? ==>
      TokenOut(c, now, w, to, pay, amount).error == TransferFailed
  {}

  lemma RegisteredError(now: nat, w: World, id: nat, answer: Option<nat>)
    ensures answer.Some? ==> Registered(now, w, id, answer.value) != Revert(Panic)
  {}

  lemma PrizeErrors(c: Config, now: nat, w: World, sender: Outsider, id: nat, toDao: TokenCall, toWinner: TokenCall)
    requires PrizeRefused(w, sender, id) != Some(Panic)
    ensures TryPrize(c, now, w, sender, id, toDao, toWinner) != Revert(Panic)
  {}

  lemma PriceCovered(c: Config, w: World, sender: Address, w1: World)
    requires Inv(c, w1, false, c.ticketPrice) && Interfered(Received(w, sender, c.ticketPrice), w1, false)
    ensures w.balance + c.ticketPrice <= MAX_UINT256
  {
    hide History, Buckets, Requests;
  }

  lemma BuyNeverPanics(c: Config, now: nat, w: World, sender: Outsider, id: nat, pay: TokenCall)
    requires AtRest(c, w) && ValidTime(now)
    ensures TryBuy(c, now, w, sender, id, pay) != Revert(Panic)
  {
    hide Inv, Evolves, RoundAt, Bought, RunAll;
    if BuyRefused(now, w, sender, id).None? {
      var w0 := w.(locked := true);
      Locking(c, w);
      TokenInFacts(c, now, w0, sender, pay, c.ticketPrice);
      if TokenIn(c, now, w0, sender, pay, c.ticketPrice).Ok? {
        var w1 := TokenIn(c, now, w0, sender, pay, c.ticketPrice).value;
        PriceCovered(c, w0, sender, w1);
        BuyingRound(now, w, sender, id);
        Unlocking(c, w1, c.ticketPrice);
        BoughtInv(c, now, w1.(locked := false), sender, id);
      }
    }
  }
}
