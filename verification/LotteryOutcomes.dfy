/** Payouts, rollover, fees, the ticket board and the randomness of every reachable state. */
module LotteryOutcomes {
  import opened Basics
  import opened Contract
  import opened Invariants
  import opened Preservation
  import opened Transactions

  /******* Payouts succeed in any order *******/

  datatype Claim = Prize(id: nat, who: Address) | Refund(id: nat, who: Address)

  predicate Pending(w: World, claim: Claim) {
    match claim
    case Prize(id, who) => w.lot.DrawOf(id).status == WINNER_DECLARED && w.lot.DrawOf(id).winner == who
    case Refund(id, who) =>
      w.lot.DrawOf(id).status == CANCELLED && w.lot.Ticket(id, who) != 0 && who !in w.lot.RefundedOf(id)
  }

  const PLAIN := TokenCall([], true, [])

  function ClaimCall(claim: Claim): Call
    requires claim.who > PROVIDER
  {
    match claim
    case Prize(id, who) => ClaimPrize(who, id, PLAIN, PLAIN)
    case Refund(id, who) => ClaimRefund(who, id, PLAIN)
  }

  // What the wallet and the DAO receive together.
  function Owed(c: Config, w: World, claim: Claim): nat {
    match claim
    case Prize(id, who) => w.lot.Claimable(c, id, who).0 + w.lot.DrawOf(id).daoFee
    case Refund(id, who) => w.lot.Claimable(c, id, who).1
  }

  // Who gets what: the DAO its fee, the wallet what claimable reports.
  function Payout(c: Config, w: World, claim: Claim): seq<Payment> {
    match claim
    case Prize(id, who) =>
      var fee := w.lot.DrawOf(id).daoFee;
      (if fee == 0 then [] else [Payment(LOTTERY, c.dao, fee)])
      + [Payment(LOTTERY, who, w.lot.Claimable(c, id, who).0)]
    case Refund(id, who) => [Payment(LOTTERY, who, w.lot.Claimable(c, id, who).1)]
  }

  function PayAll(c: Config, now: nat, w: World, order: seq<Claim>): Result<World>
    decreases |order|
  {
    if order == [] then Ok(w)
    else if order[0].who <= PROVIDER then Revert(Unauthorized)
    else
      match Try(c, now, w, ClaimCall(order[0]))
      case Revert(e) => Revert(e)
      case Ok(w1) => PayAll(c, now, w1, order[1..])
  }

  lemma PlainTransfer(c: Config, now: nat, w: World, to: Address, amount: nat)
    requires w.balance >= amount
    ensures TokenOut(c, now, w, to, PLAIN, amount) == Ok(Sent(w, to, amount))
  {}

  lemma TicketHolder(c: Config, r: Round, id: nat, who: Address, pending: bool)
    requires RoundOk(c, r, id, pending)
    ensures who in r.tickets ==> who > PROVIDER && r.tickets[who] != 0
    ensures r.d.status == WINNER_DECLARED ==> r.d.winner > PROVIDER
  {
    assert HolderOk(r, who);
    if who in r.tickets {
      assert PositionOk(r, r.tickets[who] - 1);
    }
    if r.d.status == WINNER_DECLARED {
      assert PositionOk(r, r.d.luckyNumber - 1);
    }
  }

  lemma ClaimantsAreWallets(c: Config, w: World, claim: Claim)
    requires AtRest(c, w) && Pending(w, claim)
    ensures claim.who > PROVIDER
  {
    hide Buckets, Requests, RoundOk;
    OnlyRounds(c, w.lot, false, claim.id);
    RoundFacts(c, w.lot, false, claim.id);
    TicketHolder(c, RoundAt(w.lot, claim.id), claim.id, claim.who, false);
  }

  // A pending claim pays to each recipient exactly what is owed and discharges itself only.
  lemma PayOne(c: Config, now: nat, w: World, claim: Claim)
    requires AtRest(c, w) && ValidTime(now) && Pending(w, claim)
    ensures claim.who > PROVIDER
    ensures
      var t := Try(c, now, w, ClaimCall(claim));
      && t.Ok? && AtRest(c, t.value)
      && t.value.balance == w.balance - Owed(c, w, claim) && t.value.payments == w.payments + Payout(c, w, claim)
      && t.value.donated == w.donated && t.value.lot.activePool == w.lot.activePool
      && t.value.lot.pendingRollover == w.lot.pendingRollover
      && (forall x: Claim :: Pending(t.value, x) <==> Pending(w, x) && x != claim)
      && (forall x: Claim :: Pending(t.value, x) ==>
         Owed(c, t.value, x) == Owed(c, w, x) && Payout(c, t.value, x) == Payout(c, w, x))
  {
    ClaimantsAreWallets(c, w, claim);
    match claim
    case Prize(id, who) =>
      TryPrizeCall(c, now, w, id, who);
      hide *;
      PayPrize(c, now, w, id, who);
    case Refund(id, who) =>
      TryRefundCall(c, now, w, id, who);
      hide *;
      PayRefund(c, now, w, id, who);
  }

  lemma TryPrizeCall(c: Config, now: nat, w: World, id: nat, who: Outsider)
    ensures Try(c, now, w, ClaimCall(Prize(id, who))) == TryPrize(c, now, w, who, id, PLAIN, PLAIN)
  {
    hide TryPrize;
  }

  lemma TryRefundCall(c: Config, now: nat, w: World, id: nat, who: Outsider)
    ensures Try(c, now, w, ClaimCall(Refund(id, who))) == TryRefund(c, now, w, who, id, PLAIN)
  {
    hide TryRefund;
  }

  lemma PayPrize(c: Config, now: nat, w: World, id: nat, who: Outsider)
    requires AtRest(c, w) && ValidTime(now) && Pending(w, Prize(id, who))
    ensures
      var t := TryPrize(c, now, w, who, id, PLAIN, PLAIN);
      && t.Ok? && AtRest(c, t.value)
      && t.value.balance == w.balance - Owed(c, w, Prize(id, who))
         && t.value.payments == w.payments + Payout(c, w, Prize(id, who))
      && t.value.donated == w.donated && t.value.lot.activePool == w.lot.activePool
      && t.value.lot.pendingRollover == w.lot.pendingRollover
      && (forall x: Claim :: Pending(t.value, x) <==> Pending(w, x) && x != Prize(id, who))
      && (forall x: Claim :: Pending(t.value, x) ==>
         Owed(c, t.value, x) == Owed(c, w, x) && Payout(c, t.value, x) == Payout(c, w, x))
  {
    hide Inv, TokenOut, RoundAt;
    PrizeInv(c, now, w, who, id, PLAIN, PLAIN);
    PrizeReleasedInv(c, w, who, id);
    var w1 := PrizeReleased(w, id);
    var d := w.lot.DrawOf(id);
    PoolCovered(c, w1, d.pool);
    PlainTransfer(c, now, w1, c.dao, d.daoFee);
    PlainTransfer(c, now, if d.daoFee != 0 then Sent(w1, c.dao, d.daoFee) else w1, who, d.winnerPrize);
  }

  lemma PoolCovered(c: Config, w: World, unbooked: nat)
    requires Inv(c, w, false, unbooked)
    ensures w.balance >= unbooked
  {}

  lemma PayRefund(c: Config, now: nat, w: World, id: nat, who: Outsider)
    requires AtRest(c, w) && ValidTime(now) && Pending(w, Refund(id, who))
    ensures
      var t := TryRefund(c, now, w, who, id, PLAIN);
      && t.Ok? && AtRest(c, t.value)
      && t.value.balance == w.balance - Owed(c, w, Refund(id, who))
         && t.value.payments == w.payments + Payout(c, w, Refund(id, who))
      && t.value.donated == w.donated && t.value.lot.activePool == w.lot.activePool
      && t.value.lot.pendingRollover == w.lot.pendingRollover
      && (forall x: Claim :: Pending(t.value, x) <==> Pending(w, x) && x != Refund(id, who))
      && (forall x: Claim :: Pending(t.value, x) ==>
         Owed(c, t.value, x) == Owed(c, w, x) && Payout(c, t.value, x) == Payout(c, w, x))
  {
    hide Inv, TokenOut, RoundAt;
    RefundInv(c, now, w, who, id, PLAIN);
    RefundReleasedInv(c, w, who, id);
    var w1 := RefundReleased(c, w, who, id);
    PoolCovered(c, w1, c.ticketPrice);
    PlainTransfer(c, now, w1, who, c.ticketPrice);
  }

  lemma NothingOwed(c: Config, r: Round, id: nat)
    requires RoundOk(c, r, id, false)
    requires r.d.status != WINNER_DECLARED
    requires r.d.status == CANCELLED ==> r.tickets.Keys <= r.refunded
    ensures Part(c, r).prizes == 0 && Part(c, r).owed == 0
  {
    if r.d.status == CANCELLED {
      RefundsFit(r);
    }
    CostAdds(c, 0, 0);
  }

  lemma {:induction false} NoClaimsNoDebt(c: Config, w: World, n: nat)
    requires AtRest(c, w) && n <= w.lot.currentDrawId
    requires forall x: Claim :: !Pending(w, x)
    ensures SumTo(c, w.lot, n).prizes == 0 && SumTo(c, w.lot, n).owed == 0
  {
    hide RoundOk, Part;
    if n > 0 {
      NoClaimsNoDebt(c, w, n - 1);
      RoundFacts(c, w.lot, false, n);
      var r := RoundAt(w.lot, n);
      assert !Pending(w, Prize(n, r.d.winner));
      forall who | who in r.tickets && r.d.status == CANCELLED
        ensures who in r.refunded
      {
        assert !Pending(w, Refund(n, who));
        TicketHolder(c, r, n, who, false);
      }
      NothingOwed(c, r, n);
    }
  }

  function TotalOwed(c: Config, w: World, order: seq<Claim>): nat {
    if order == [] then 0 else Owed(c, w, order[0]) + TotalOwed(c, w, order[1..])
  }

  function Payouts(c: Config, w: World, order: seq<Claim>): seq<Payment> {
    if order == [] then [] else Payout(c, w, order[0]) + Payouts(c, w, order[1..])
  }

  lemma {:induction false} SameDebts(c: Config, w: World, w1: World, order: seq<Claim>)
    requires forall x :: x in order ==> Owed(c, w1, x) == Owed(c, w, x) && Payout(c, w1, x) == Payout(c, w, x)
    ensures TotalOwed(c, w1, order) == TotalOwed(c, w, order) && Payouts(c, w1, order) == Payouts(c, w, order)
  {
    hide Owed, Payout;
    if order != [] {
      SameDebts(c, w, w1, order[1..]);
    }
  }

  ghost predicate Distinct(order: seq<Claim>) {
    forall i, j :: 0 <= i < j < |order| ==> order[i] != order[j]
  }

  // All pending claims, in any order: every one succeeds and pays its recipients, and afterwards
  // only the live pools remain.
  lemma {:induction false} AnyOrderPayability(c: Config, now: nat, w: World, order: seq<Claim>)
    requires AtRest(c, w) && ValidTime(now)
    requires Distinct(order) && forall x: Claim :: Pending(w, x) <==> x in order
    ensures
      var t := PayAll(c, now, w, order);
      && t.Ok?
      && t.value.balance == w.balance - TotalOwed(c, w, order)
      && t.value.payments == w.payments + Payouts(c, w, order)
      && t.value.lot.outstandingPrizes == 0 && t.value.lot.outstandingRefunds == 0
      && t.value.lot.activePool == w.lot.activePool && t.value.lot.pendingRollover == w.lot.pendingRollover
      && t.value.balance - t.value.lot.Liabilities() == w.balance - w.lot.Liabilities() == w.donated
    decreases |order|
  {
    hide Pending, Try, ClaimCall, Owed, Payout, History, Requests, RoundAt, SumTo;
    if order == [] {
      NoClaimsNoDebt(c, w, w.lot.currentDrawId);
    } else {
      assert Pending(w, order[0]);
      PayOne(c, now, w, order[0]);
      var w1 := Try(c, now, w, ClaimCall(order[0])).value;
      forall x: Claim
        ensures Pending(w1, x) <==> x in order[1..]
      {
        if x in order {
          var k :| 0 <= k < |order| && order[k] == x;
          if k > 0 { assert order[1..][k - 1] == x; }
        }
      }
      AnyOrderPayability(c, now, w1, order[1..]);
      SameDebts(c, w, w1, order[1..]);
    }
  }

  /******* Rollover *******/

  // The last round up to n that somebody won; 0 if there is none.
  function LastWon(l: Lot, n: nat): nat {
    if n == 0 || Won(l.DrawOf(n).status) then n else LastWon(l, n - 1)
  }

  // Tickets of the rounds in (from, to] that ended without a winner.
  function NoWinnerTickets(l: Lot, from: nat, to: nat): nat {
    if to <= from then 0
    else
      NoWinnerTickets(l, from, to - 1)
      + (if l.DrawOf(to).status == NO_WINNER then l.DrawOf(to).participantCount else 0)
  }

  lemma {:induction false} CarryClosedForm(c: Config, l: Lot, k: nat)
    requires History(c, l, false) && k <= l.currentDrawId
    requires k == l.currentDrawId && k > 0 ==> Final(l.DrawOf(k).status)
    ensures CarryInto(l, k + 1) == Cost(c, NoWinnerTickets(l, LastWon(l, k), k))
    ensures LastWon(l, k) <= k
  {
    hide BoardOk, Cost, History;
    CostAdds(c, 0, 0);
    if k > 0 {
      RoundFacts(c, l, false, k);
      CarryClosedForm(c, l, k - 1);
      CostAdds(c, NoWinnerTickets(l, LastWon(l, k - 1), k - 1), l.DrawOf(k).participantCount);
    }
  }

  lemma PoolOfRound(c: Config, w: World, id: nat)
    requires AtRest(c, w) && 1 <= id <= w.lot.currentDrawId
    ensures History(c, w.lot, false)
    ensures w.lot.DrawOf(id).pool == Cost(c, w.lot.DrawOf(id).participantCount) + CarryInto(w.lot, id)
  {
    hide BoardOk, Cost, Buckets, Requests, History, CarryInto;
    RoundFacts(c, w.lot, false, id);
  }

  // Every pool is the price of this round's tickets and of those of all rounds without a winner
  // since the last one with a winner.
  lemma RolloverClosedForm(c: Config, w: World, id: nat)
    requires AtRest(c, w) && 1 <= id <= w.lot.currentDrawId
    ensures
      var tickets := w.lot.DrawOf(id).participantCount + NoWinnerTickets(w.lot, LastWon(w.lot, id - 1), id - 1);
      w.lot.DrawOf(id).pool == Cost(c, tickets)
  {
    hide *;
    PoolOfRound(c, w, id);
    CarryClosedForm(c, w.lot, id - 1);
    CostAdds(c, w.lot.DrawOf(id).participantCount, NoWinnerTickets(w.lot, LastWon(w.lot, id - 1), id - 1));
  }

  lemma TwentiethOf(x: nat)
    ensures x * 500 / 10000 == x / 20
  {}

  lemma FeeOfTickets(c: Config, tickets: nat)
    requires ValidConfig(c) && tickets >= 1 && Cost(c, tickets) >= c.ticketPrice
    ensures
      var fee := Fee(c, Cost(c, tickets));
      var profit := Cost(c, tickets) - c.ticketPrice;
      && 20 * fee <= profit < 20 * fee + 20
      && (20 * fee == profit <==> c.decimals >= 1 || tickets % 2 == 1)
  {
    ProfitSteps(c, tickets);
    hide Cost, ValidConfig;
    TwentiethOf(Cost(c, tickets) - c.ticketPrice);
  }

  lemma ProfitSteps(c: Config, tickets: nat)
    requires ValidConfig(c) && tickets >= 1
    ensures c.decimals >= 1 ==> (Cost(c, tickets) - c.ticketPrice) % 20 == 0
    ensures c.decimals == 0 ==> Cost(c, tickets) - c.ticketPrice == 10 * (tickets - 1)
  {
    CostAdds(c, tickets - 1, 1);
    if c.decimals >= 1 {
      var unit := 5 * Pow10(c.decimals - 1);
      assert c.ticketPrice == 20 * unit;
      hide ValidConfig, Pow10;
      MultipleOf20(unit, tickets - 1);
    }
  }

  lemma MultipleOf20(unit: nat, k: nat)
    ensures (20 * unit) * k == 20 * (unit * k)
    ensures (20 * unit) * k % 20 == 0
  {}

  // The DAO fee is 5% of the profit: exactly, if the token has a decimal place, and otherwise
  // rounded down by less than one unit, in the winner's favour.
  lemma ExactFee(c: Config, w: World, id: nat)
    requires AtRest(c, w) && Won(w.lot.DrawOf(id).status)
    ensures id >= 1
    ensures
      var d := w.lot.DrawOf(id);
      var tickets := d.participantCount + NoWinnerTickets(w.lot, LastWon(w.lot, id - 1), id - 1);
      && d.daoFee + d.winnerPrize == d.pool >= c.ticketPrice
      && 20 * d.daoFee <= d.pool - c.ticketPrice < 20 * d.daoFee + 20
      && (20 * d.daoFee == d.pool - c.ticketPrice <==> c.decimals >= 1 || tickets % 2 == 1)
  {
    hide BoardOk, Cost, Buckets, Requests, Fee, ValidConfig;
    OnlyRounds(c, w.lot, false, id);
    RoundFacts(c, w.lot, false, id);
    RolloverClosedForm(c, w, id);
    MinimumIsPositive(c);
    FeeOfTickets(c, w.lot.DrawOf(id).participantCount + NoWinnerTickets(w.lot, LastWon(w.lot, id - 1), id - 1));
  }

  lemma MinimumIsPositive(c: Config)
    requires ValidConfig(c)
    ensures c.minimum >= 1
  {}

  /******* The ticket board *******/

  // ticketOf is the inverse of the owner table on 1..participantCount, and the winner is the owner of
  // the lucky number, if it was sold.
  lemma TicketBoard(c: Config, w: World, id: nat, who: Address, number: nat)
    requires AtRest(c, w) && who != ZERO && 1 <= number <= POSITIONS
    ensures w.lot.Ticket(id, who) == number <==> w.lot.OwnersOf(id)[number - 1] == who
    ensures w.lot.OwnersOf(id)[number - 1] != ZERO <==> number <= w.lot.DrawOf(id).participantCount
    ensures w.lot.DrawOf(id).luckyNumber != 0 ==>
      && 1 <= w.lot.DrawOf(id).luckyNumber <= 10
      && w.lot.DrawOf(id).winner == w.lot.OwnersOf(id)[w.lot.DrawOf(id).luckyNumber - 1]
      && (w.lot.DrawOf(id).winner != ZERO <==> w.lot.DrawOf(id).luckyNumber <= w.lot.DrawOf(id).participantCount)
    ensures id < w.lot.currentDrawId && id != 0 ==> Final(w.lot.DrawOf(id).status)
  {
    hide Buckets, Requests, RoundOk;
    if 1 <= id <= w.lot.currentDrawId {
      RoundFacts(c, w.lot, false, id);
      BoardIsBijection(c, RoundAt(w.lot, id), id, who, number);
    } else {
      assert RoundAt(w.lot, id) == EMPTY_ROUND;
    }
  }

  lemma BoardIsBijection(c: Config, r: Round, id: nat, who: Address, number: nat)
    requires RoundOk(c, r, id, false) && who != ZERO && 1 <= number <= POSITIONS
    ensures (who in r.tickets && r.tickets[who] == number) <==> r.owners[number - 1] == who
    ensures r.owners[number - 1] != ZERO <==> number <= r.d.participantCount
    ensures r.d.luckyNumber != 0 ==>
      && 1 <= r.d.luckyNumber <= 10 && r.d.winner == r.owners[r.d.luckyNumber - 1]
      && (r.d.winner != ZERO <==> r.d.luckyNumber <= r.d.participantCount)
  {
    assert PositionOk(r, number - 1);
    assert HolderOk(r, who);
    if 1 <= r.d.luckyNumber <= POSITIONS {
      assert PositionOk(r, r.d.luckyNumber - 1);
    }
  }

  // In every continuation: the board and the pool are frozen once the round leaves ACTIVE, the
  // outcome is frozen once it is final, and only a declared prize becomes a completed one.
  lemma FrozenOutcomes(c: Config, w: World, txs: seq<Tx>, id: nat)
    requires AtRest(c, w) && ValidTimes(txs) && 1 <= id <= w.lot.currentDrawId
    ensures
      var l, l1 := w.lot, Run(c, w, txs).lot;
      var d, d1 := l.DrawOf(id), l1.DrawOf(id);
      && (d.status != ACTIVE ==>
        d1.pool == d.pool && d1.participantCount == d.participantCount && l1.OwnersOf(id) == l.OwnersOf(id)
            && l1.TicketsOf(id) == l.TicketsOf(id))
      && (Final(d.status) ==>
        d1 == d.(status := d1.status)
            && (d1.status == d.status || (d.status == WINNER_DECLARED && d1.status == COMPLETED)))
      && l.RefundedOf(id) <= l1.RefundedOf(id)
  {
    hide Inv, Run;
    RunInv(c, w, txs);
    assert RoundEvolves(RoundAt(w.lot, id), RoundAt(Run(c, w, txs).lot, id));
  }

  /******* No reroll *******/

  // A request's stages, and the one word that decides the round.
  lemma SettledIffDelivered(c: Config, w: World, id: nat)
    requires AtRest(c, w) && w.lot.DrawOf(id).status != ACTIVE && w.lot.DrawOf(id).status != CANCELLED
    ensures
      var d := w.lot.DrawOf(id);
      && w.vrf.delivered <= w.vrf.ready <= w.vrf.requested
      && d.requestId in w.vrf.requested && w.lot.RequestDraw(d.requestId) == id
      && (d.status != DRAWING <==> d.requestId in w.vrf.delivered)
      && (d.status != DRAWING ==> d.requestId in w.vrf.words && d.luckyNumber == w.vrf.words[d.requestId] % 10 + 1)
  {
    hide Buckets, History, BoardOk, Requests;
    OnlyRounds(c, w.lot, false, id);
    RoundFacts(c, w.lot, false, id);
    RequestFacts(w.lot, w.vrf, w.lot.DrawOf(id).requestId);
    assert w.lot.RequestDraw(RoundAt(w.lot, id).d.requestId) == id;
  }

  // The first accepted word of a request decides its round in every continuation: later
  // callbacks, failed deliveries and retries cannot replace it.
  lemma NoReroll(c: Config, now: nat, w: World, requestId: nat, values: seq<nat>, runs: bool, txs: seq<Tx>)
    requires AtRest(c, w) && ValidTime(now) && ValidTimes(txs)
    requires requestId in w.vrf.requested && requestId !in w.vrf.ready && |values| >= 1
    ensures
      var w1 := Exec(c, now, w, Callback(COORDINATOR, requestId, values, runs));
      var w2 := Run(c, w1, txs);
      var d := w2.lot.DrawOf(w2.lot.RequestDraw(requestId));
      && requestId in w2.vrf.words && w2.vrf.words[requestId] == values[0]
      && d.requestId == requestId
      && (d.status == DRAWING || d.luckyNumber == values[0] % 10 + 1)
      && (runs ==> d.status != DRAWING)
  {
    hide Inv, Run, Evolves, Try, RoundAt, Fulfilled;
    var w1 := CalledBack(c, now, w, requestId, values, runs);
    FirstWord(c, now, w, requestId, values, runs, false, 0);
    var w2 := Run(c, w1, txs);
    ExecInv(c, now, w, Callback(COORDINATOR, requestId, values, runs));
    CallbackExec(c, now, w, requestId, values, runs);
    RunInv(c, w1, txs);
    WordsStay(w1, w2, requestId);
    RequestRound(c, w2, requestId);
  }

  lemma CallbackExec(c: Config, now: nat, w: World, requestId: nat, values: seq<nat>, runs: bool)
    ensures Exec(c, now, w, Callback(COORDINATOR, requestId, values, runs)) == CalledBack(c, now, w, requestId, values,
      runs)
  {
    hide CalledBack;
  }

  lemma FirstWord(c: Config, now: nat, w: World, requestId: nat, values: seq<nat>, runs: bool, pending: bool,
                  unbooked: nat)
    requires Inv(c, w, pending, unbooked) && ValidTime(now)
    requires requestId in w.vrf.requested && requestId !in w.vrf.ready && |values| >= 1
    ensures
      var w1 := CalledBack(c, now, w, requestId, values, runs);
      && requestId in w1.vrf.words && w1.vrf.words[requestId] == values[0] && requestId in w1.vrf.requested
      && requestId in w1.vrf.ready
      && (runs ==> requestId in w1.vrf.delivered)
  {
    hide Inv, RoundAt, Fulfilled;
    var w1 := w.(vrf := w.vrf.(words := w.vrf.words[requestId := values[0]], ready := w.vrf.ready + {requestId}));
    StoredInv(c, w, w1, requestId, values[0], pending, unbooked);
    BoundWhenRequested(c, w, requestId, pending, unbooked);
    SettlesShape(c, now, w1, requestId, pending, unbooked);
  }

  lemma BoundWhenRequested(c: Config, w: World, requestId: nat, pending: bool, unbooked: nat)
    requires Inv(c, w, pending, unbooked) && requestId in w.vrf.requested
    ensures w.vrf.bound
  {
    hide History, Buckets;
  }

  lemma WordsStay(w: World, w1: World, requestId: nat)
    requires Evolves(w, w1) && requestId in w.vrf.words
    ensures requestId in w1.vrf.words && w1.vrf.words[requestId] == w.vrf.words[requestId]
    ensures requestId in w.vrf.delivered ==> requestId in w1.vrf.delivered
    ensures requestId in w.vrf.requested ==> requestId in w1.vrf.requested
  {}

  lemma RequestRound(c: Config, w: World, requestId: nat)
    requires AtRest(c, w) && requestId in w.vrf.requested
    ensures
      var d := w.lot.DrawOf(w.lot.RequestDraw(requestId));
      && d.requestId == requestId
      && (d.status == DRAWING <==> requestId !in w.vrf.delivered)
      && (d.status != DRAWING ==> requestId in w.vrf.words && d.luckyNumber == w.vrf.words[requestId] % 10 + 1)
  {
    hide History, Buckets, Requests;
    RequestFacts(w.lot, w.vrf, requestId);
  }
}
