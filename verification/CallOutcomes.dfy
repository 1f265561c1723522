/**
 When each external call succeeds and what it leaves, told over the stored fields of the state
 before it and with every limit as a number.
 */
module CallOutcomes {
  import opened Basics
  import opened Contract
  import opened Invariants
  import opened Preservation
  import opened Transactions
  import opened Interference
  import opened Growth
  import opened LotteryOutcomes

  /******* startDraw *******/

  // A round can be started exactly when there is none yet or the last one is final, whether or not
  // its prize has been claimed. It opens now, closes 24 hours later and takes the rollover over.
  lemma StartExactly(c: Config, now: nat, w: World, expected: nat)
    requires AtRest(c, w) && ValidTime(now)
    ensures
      var l, n := w.lot, w.lot.currentDrawId;
      var t := Try(c, now, w, StartDraw(expected));
      && (t.Ok? <==>
        && expected == n < MAX_UINT256
        && (n == 0 || l.DrawOf(n).status in {WINNER_DECLARED, COMPLETED, NO_WINNER, CANCELLED}))
      && (t.Ok? ==>
        var l1, carried := t.value.lot, l.pendingRollover;
        && RoundAt(l1, n + 1) == EMPTY_ROUND.(
          d := Draw(n + 1, ACTIVE, now, now + 86400, 0, 0, 0, ZERO, carried, carried, 0, 0, 0))
        && SameElsewhere(l, l1, n + 1)
        && l1 == l.(draws := l1.draws, currentDrawId := n + 1, activePool := carried, pendingRollover := 0)
        && t.value == w.(lot := l1, log := w.log + [
          Emit(now, DrawStarted(n + 1, now, now + 86400, c.ticketPrice, c.minimum, carried))]))
  {
    hide Inv, RoundAt;
    StatusesFinal(w.lot.DrawOf(w.lot.currentDrawId).status);
    hide Final;
    if w.lot.CanStartDraw() {
      StartedExactly(c, now, w);
    }
  }

  lemma StatusesFinal(s: Status)
    ensures Final(s) <==> s in {WINNER_DECLARED, COMPLETED, NO_WINNER, CANCELLED}
  {}

  lemma StartedExactly(c: Config, now: nat, w: World)
    requires AtRest(c, w) && ValidTime(now) && w.lot.CanStartDraw()
    ensures
      var l, l1, n, carried := w.lot, Started(c, now, w).lot, w.lot.currentDrawId, w.lot.pendingRollover;
      && RoundAt(l1, n + 1) == EMPTY_ROUND.(
        d := Draw(n + 1, ACTIVE, now, now + 86400, 0, 0, 0, ZERO, carried, carried, 0, 0, 0))
      && SameElsewhere(l, l1, n + 1)
      && l1 == l.(draws := l1.draws, currentDrawId := n + 1, activePool := carried, pendingRollover := 0)
      && Started(c, now, w) == w.(lot := l1, log := w.log + [
        Emit(now, DrawStarted(n + 1, now, now + 86400, c.ticketPrice, c.minimum, carried))])
  {
    StartedShape(c, now, w);
    NoRoundYet(c, w);
    hide AtRest, RoundOk;
  }

  lemma NoRoundYet(c: Config, w: World)
    requires AtRest(c, w)
    ensures w.lot.DrawOf(w.lot.currentDrawId + 1) == ZERO_DRAW
  {
    hide Buckets, Requests, RoundOk;
    assert RoundAt(w.lot, w.lot.currentDrawId + 1) == EMPTY_ROUND;
  }

  /******* buyTicket *******/

  // On sale to this wallet: the current ACTIVE round before its deadline, with a free place.
  predicate OnSale(l: Lot, now: nat, sender: Address, id: nat) {
    && 1 <= id == l.currentDrawId && l.DrawOf(id).status == ACTIVE
    && now < l.DrawOf(id).deadline && l.DrawOf(id).participantCount < 5
    && l.Ticket(id, sender) == 0
  }

  // The buyer gets the next ticket of the round, for the ticket price and nothing else.
  ghost predicate Sold(c: Config, now: nat, w: World, w1: World, sender: Address, id: nat) {
    var d := w.lot.DrawOf(id);
    var n := d.participantCount + 1;
    && n <= 5
    && RoundAt(w1.lot, id) == Round(d.(participantCount := n, pool := d.pool + c.ticketPrice),
         w.lot.OwnersOf(id)[n - 1 := sender], w.lot.TicketsOf(id)[sender := n], w.lot.RefundedOf(id))
    && SameElsewhere(w.lot, w1.lot, id)
    && w1.lot == w.lot.(draws := w1.lot.draws, owners := w1.lot.owners, ticketOf := w1.lot.ticketOf,
         activePool := w.lot.activePool + c.ticketPrice)
    && w1.log == w.log + [Emit(now, TicketBought(id, sender, n, c.ticketPrice, n, d.pool + c.ticketPrice))]
    && w1.payments == w.payments + [Payment(sender, LOTTERY, c.ticketPrice)]
    && w1.balance == w.balance + c.ticketPrice && w1.donated == w.donated && !w1.locked
  }

  // Whatever is called around the payment: the sale succeeds exactly if the ticket is on sale, the
  // transfer goes through, and nobody gives the lottery tokens meanwhile.
  lemma BuyExactly(c: Config, now: nat, w: World, sender: Outsider, id: nat, pay: TokenCall)
    requires AtRest(c, w) && ValidTime(now)
    ensures
      var t := Try(c, now, w, BuyTicket(sender, id, pay));
      var before := RunAll(c, now, w.(locked := true), pay.pre);
      var after := RunAll(c, now, Received(before, sender, c.ticketPrice), pay.post);
      && (t.Ok? <==>
        && OnSale(w.lot, now, sender, id) && pay.succeeds
        && before.balance + c.ticketPrice <= MAX_UINT256 && after.donated == w.donated)
      && (t.Ok? ==> Sold(c, now, w, t.value, sender, id))
  {
    hide Inv, RunAll, Bought, RoundAt, Sold, Evolves;
    OnSaleIs(now, w, sender, id);
    hide BuyRefused, OnSale;
    var w0 := w.(locked := true);
    if BuyRefused(now, w, sender, id).None? && TokenIn(c, now, w0, sender, pay, c.ticketPrice).Ok? {
      var w1 := TokenIn(c, now, w0, sender, pay, c.ticketPrice).value;
      TokenMoved(c, now, w, sender, id, pay);
      if w1.balance == w.balance + c.ticketPrice {
        SoldExactly(c, now, w, w1, sender, id);
      }
    }
  }

  lemma OnSaleIs(now: nat, w: World, sender: Outsider, id: nat)
    requires !w.locked
    ensures BuyRefused(now, w, sender, id).None? <==> OnSale(w.lot, now, sender, id)
  {}

  // Calls made around the payment change nothing that the sale reads.
  lemma TokenMoved(c: Config, now: nat, w: World, sender: Outsider, id: nat, pay: TokenCall)
    requires AtRest(c, w) && ValidTime(now) && BuyRefused(now, w, sender, id).None?
    requires TokenIn(c, now, w.(locked := true), sender, pay, c.ticketPrice).Ok?
    ensures
      var w1 := TokenIn(c, now, w.(locked := true), sender, pay, c.ticketPrice).value;
      && Inv(c, w1, false, c.ticketPrice) && w1.lot == w.lot && w1.log == w.log
      && w1.payments == w.payments + [Payment(sender, LOTTERY, c.ticketPrice)]
      && w1.balance - w.balance - c.ticketPrice == w1.donated - w.donated >= 0
      && w.balance + c.ticketPrice <= MAX_UINT256
  {
    hide Inv, RunAll, TokenIn, RoundAt, Evolves;
    Locking(c, w);
    TokenInFacts(c, now, w.(locked := true), sender, pay, c.ticketPrice);
    BuyingRound(now, w, sender, id);
    BalanceFits(c, TokenIn(c, now, w.(locked := true), sender, pay, c.ticketPrice).value, c.ticketPrice);
  }

  lemma BalanceFits(c: Config, w: World, unbooked: nat)
    requires Inv(c, w, false, unbooked)
    ensures w.balance <= MAX_UINT256
  {}

  lemma SoldExactly(c: Config, now: nat, w: World, w1: World, sender: Outsider, id: nat)
    requires AtRest(c, w) && BuyRefused(now, w, sender, id).None?
    requires Inv(c, w1, false, c.ticketPrice) && w1.lot == w.lot && w1.log == w.log
    requires w1.payments == w.payments + [Payment(sender, LOTTERY, c.ticketPrice)]
    requires w1.balance == w.balance + c.ticketPrice && w1.donated == w.donated
    ensures Bought(c, now, w1.(locked := false), sender, id).Ok?
    ensures Sold(c, now, w, Bought(c, now, w1.(locked := false), sender, id).value, sender, id)
  {
    hide Inv, Bought;
    var w2 := w1.(locked := false);
    Unlocking(c, w1, c.ticketPrice);
    StillOnSale(now, w, w2, sender, id);
    BoughtInv(c, now, w2, sender, id);
    hide SameElsewhere, BuyRefused;
    SaleLimit(now, w, sender, id);
    BoughtShape(c, now, w2, sender, id);
    BoughtEvent(c, now, w2, sender, id);
  }

  lemma StillOnSale(now: nat, w: World, w1: World, sender: Outsider, id: nat)
    requires BuyRefused(now, w, sender, id).None? && w1.lot == w.lot && !w1.locked
    ensures BuyRefused(now, w1, sender, id).None?
  {}

  lemma SaleLimit(now: nat, w: World, sender: Outsider, id: nat)
    requires BuyRefused(now, w, sender, id).None?
    ensures w.lot.DrawOf(id).participantCount < 5
  {}

  lemma BoughtEvent(c: Config, now: nat, w: World, sender: Outsider, id: nat)
    requires Bought(c, now, w, sender, id).Ok?
    ensures
      var d := w.lot.DrawOf(id);
      var n := d.participantCount + 1;
      Bought(c, now, w, sender, id).value.log ==
        w.log + [Emit(now, TicketBought(id, sender, n, c.ticketPrice, n, d.pool + c.ticketPrice))]
  {}

  // With a plain payment: exactly if the ticket is on sale and the price fits the token's range.
  lemma BuyPlainly(c: Config, now: nat, w: World, sender: Outsider, id: nat)
    requires AtRest(c, w) && ValidTime(now)
    ensures
      var t := Try(c, now, w, BuyTicket(sender, id, PLAIN));
      && (t.Ok? <==> OnSale(w.lot, now, sender, id) && w.balance + c.ticketPrice <= MAX_UINT256)
      && (t.Ok? ==> Sold(c, now, w, t.value, sender, id))
  {
    hide Inv, Try, OnSale, Sold;
    BuyExactly(c, now, w, sender, id, PLAIN);
  }

  /******* performDraw *******/

  // The current ACTIVE round is full or its time is over.
  predicate Drawable(l: Lot, now: nat, id: nat) {
    && 1 <= id == l.currentDrawId && l.DrawOf(id).status == ACTIVE
    && (l.DrawOf(id).participantCount == 5 || now >= l.DrawOf(id).deadline)
  }

  // The round is cancelled: every holder may claim the ticket price, and what the round had
  // inherited is carried on.
  ghost predicate CalledOff(c: Config, now: nat, w: World, w1: World, id: nat) {
    var d := w.lot.DrawOf(id);
    var refunds := c.ticketPrice * d.participantCount;
    && RoundAt(w1.lot, id) == RoundAt(w.lot, id).(d := d.(status := CANCELLED, finalizedAt := now))
    && SameElsewhere(w.lot, w1.lot, id)
    && w1.lot == w.lot.(draws := w1.lot.draws, activePool := 0,
         outstandingRefunds := w.lot.outstandingRefunds + refunds,
         pendingRollover := w.lot.pendingRollover + d.inheritedRollover)
    && w1 == w.(lot := w1.lot, log := w.log + [
         Emit(now, DrawCancelled(id, d.participantCount, refunds, d.inheritedRollover))])
    && (forall who: Address :: Pending(w1, Refund(id, who)) <==> w.lot.Ticket(id, who) != 0)
  }

  // The round waits for the word of its request; money and tickets stay where they are.
  ghost predicate Requested(now: nat, w: World, w1: World, id: nat, requestId: nat) {
    && RoundAt(w1.lot, id) ==
         RoundAt(w.lot, id).(d := w.lot.DrawOf(id).(status := DRAWING, requestId := requestId))
    && SameElsewhere(w.lot, w1.lot, id)
    && w1.lot == w.lot.(draws := w1.lot.draws, requestDraw := w.lot.requestDraw[requestId := id])
    && w1.vrf == w.vrf.(requested := w.vrf.requested + {requestId})
    && w1.log == w.log + [Emit(now, RandomnessRequested(id, requestId))]
    && w1.payments == w.payments && w1.balance - w.balance == w1.donated - w.donated >= 0 && !w1.locked
  }

  // Whatever is called while the coordinator answers: a drawable round with too few participants is
  // always cancelled; with enough of them the call succeeds exactly if the provider serves this
  // lottery and the coordinator answers with a new number; nothing else can be drawn.
  lemma PerformExactly(c: Config, now: nat, w: World, id: nat, during: seq<Call>, answer: Option<nat>)
    requires AtRest(c, w) && ValidTime(now)
    ensures
      var t := Try(c, now, w, PerformDraw(id, during, answer));
      var few := w.lot.DrawOf(id).participantCount < c.minimum;
      && (t.Ok? <==>
        && Drawable(w.lot, now, id)
        && (few || (w.vrf.bound && answer.Some? && answer.value != 0 && answer.value !in w.vrf.requested)))
      && (t.Ok? && few ==> CalledOff(c, now, w, t.value, id))
      && (t.Ok? && !few ==> Requested(now, w, t.value, id, answer.value))
  {
    hide Inv, RunAll, Registered, Cancelled, RoundAt, CalledOff, Requested;
    DrawableIs(w.lot, now, id);
    hide Drawable, Lot.CanPerformDraw;
    if w.lot.CanPerformDraw(id, now) {
      if w.lot.DrawOf(id).participantCount < c.minimum {
        CancelledExactly(c, now, w, id);
      } else {
        if w.vrf.bound && answer.Some? {
          RegisteredExactly(c, now, w, id, during, answer.value);
        }
      }
    }
  }

  lemma DrawableIs(l: Lot, now: nat, id: nat)
    ensures l.CanPerformDraw(id, now) <==> Drawable(l, now, id)
  {}

  lemma CancelledExactly(c: Config, now: nat, w: World, id: nat)
    requires AtRest(c, w) && ValidTime(now) && w.lot.CanPerformDraw(id, now)
      && w.lot.DrawOf(id).participantCount < c.minimum
    ensures Cancelled(c, now, w, id).Ok? && CalledOff(c, now, w, Cancelled(c, now, w, id).value, id)
  {
    CancelledRound(c, now, w, id);
    CancelledEvent(c, now, w, id);
    hide AtRest, RoundOk, SameElsewhere, Cancelled;
    NothingRefunded(c, w, id);
  }

  lemma CancelledEvent(c: Config, now: nat, w: World, id: nat)
    requires Cancelled(c, now, w, id).Ok?
    ensures
      var d := w.lot.DrawOf(id);
      Cancelled(c, now, w, id).value.log == w.log + [
        Emit(now, DrawCancelled(id, d.participantCount, c.ticketPrice * d.participantCount, d.inheritedRollover))]
  {}

  lemma NothingRefunded(c: Config, w: World, id: nat)
    requires AtRest(c, w) && 1 <= id == w.lot.currentDrawId && w.lot.DrawOf(id).status == ACTIVE
    ensures w.lot.RefundedOf(id) == {}
  {
    hide Buckets, Requests, BoardOk;
    RoundFacts(c, w.lot, false, id);
  }

  // The calls that are made while the coordinator answers leave everything that performDraw wrote.
  lemma DuringKeeps(c: Config, now: nat, w: World, id: nat, during: seq<Call>)
    requires AtRest(c, w) && ValidTime(now) && w.lot.CanPerformDraw(id, now)
      && w.lot.DrawOf(id).participantCount >= c.minimum
    ensures
      var w1 := Requesting(w, id);
      var w2 := RunAll(c, now, w1, during);
      && w2.lot == w1.lot && w2.log == w.log && w2.payments == w.payments
      && (w.vrf.bound ==> w2.vrf == w.vrf)
      && w2.balance - w.balance == w2.donated - w.donated >= 0
      && (forall r: nat :: w2.lot.RequestDraw(r) == 0 <==> r !in w.vrf.requested)
  {
    hide Inv, RunAll, Evolves, RoundAt;
    RequestingInv(c, now, w, id);
    LockedCalls(c, now, Requesting(w, id), during, true, 0);
    RunAllGrows(c, now, Requesting(w, id), during);
    NumbersUsed(c, w);
  }

  lemma NumbersUsed(c: Config, w: World)
    requires AtRest(c, w)
    ensures forall r: nat :: w.lot.RequestDraw(r) == 0 <==> r !in w.vrf.requested
  {
    hide History, Buckets, Requests;
    forall r: nat
      ensures w.lot.RequestDraw(r) == 0 <==> r !in w.vrf.requested
    {
      RequestFacts(w.lot, w.vrf, r);
    }
  }

  lemma RegisteredExactly(c: Config, now: nat, w: World, id: nat, during: seq<Call>, requestId: nat)
    requires AtRest(c, w) && ValidTime(now) && w.lot.CanPerformDraw(id, now) && w.vrf.bound
      && w.lot.DrawOf(id).participantCount >= c.minimum
    ensures
      var t := Registered(now, RunAll(c, now, Requesting(w, id), during), id, requestId);
      && (t.Ok? <==> requestId != 0 && requestId !in w.vrf.requested)
      && (t.Ok? ==> Requested(now, w, t.value, id, requestId))
  {
    hide Inv, RunAll;
    DuringKeeps(c, now, w, id, during);
    RequestingRound(c, w, id);
    var w2 := RunAll(c, now, Requesting(w, id), during);
    assert Registered(now, w2, id, requestId).Ok? <==> requestId != 0 && w2.lot.RequestDraw(requestId) == 0;
    if Registered(now, w2, id, requestId).Ok? {
      RegisteredShape(now, w2, id, requestId);
    }
  }

  lemma RequestingRound(c: Config, w: World, id: nat)
    requires AtRest(c, w) && 1 <= id == w.lot.currentDrawId && w.lot.DrawOf(id).status == ACTIVE
    ensures w.lot.DrawOf(id).pool == w.lot.activePool
  {
    hide History, Requests;
    BucketFacts(c, w.lot);
  }

  /******* claimPrize and claimRefund *******/

  // A claim changes its round to `r1` and reports that last; meanwhile other rounds can only settle.
  ghost predicate Claimed(w: World, w1: World, id: nat, r1: Round, report: Emit) {
    && RoundAt(w1.lot, id) == r1
    && (forall i: nat :: i != id ==> SettledAtMost(RoundAt(w.lot, i), RoundAt(w1.lot, i)))
    && w1.lot.currentDrawId == w.lot.currentDrawId && !w1.locked
    && |w.log| < |w1.log| && w.log <= w1.log && w1.log[|w1.log| - 1] == report
    && (forall k :: |w.log| <= k < |w1.log| - 1 ==> w1.log[k].payload.LotteryDrawn?)
  }

  // Whatever is called around the transfers: the declared winner, and nobody else, can claim, unless
  // a transfer fails. The fee goes to the DAO, the prize to the winner, and the round is completed.
  lemma PrizeExactly(c: Config, now: nat, w: World, sender: Outsider, id: nat, toDao: TokenCall, toWinner: TokenCall)
    requires AtRest(c, w) && ValidTime(now)
    ensures
      var d := w.lot.DrawOf(id);
      var t := Try(c, now, w, ClaimPrize(sender, id, toDao, toWinner));
      && (t.Ok? <==>
        && d.status == WINNER_DECLARED && d.winner == sender
        && (d.daoFee != 0 ==> toDao.succeeds) && toWinner.succeeds)
      && (t.Ok? ==>
        && t.value.payments == w.payments
             + (if d.daoFee == 0 then [] else [Payment(LOTTERY, c.dao, d.daoFee)])
             + [Payment(LOTTERY, sender, d.winnerPrize)]
        && Own(t.value) == Own(w) - d.daoFee - d.winnerPrize
        && Claimed(w, t.value, id, RoundAt(w.lot, id).(d := d.(status := COMPLETED)),
             Emit(now, PrizeClaimed(id, sender, d.winnerPrize, c.dao, d.daoFee))))
  {
    hide Inv, TryPrize, RoundAt, Evolves, Claimed;
    PrizeInv(c, now, w, sender, id, toDao, toWinner);
    if TryPrize(c, now, w, sender, id, toDao, toWinner).Ok? {
      PrizePaidExactly(c, now, w, sender, id, toDao, toWinner);
    }
  }

  lemma PrizePaidExactly(c: Config, now: nat, w: World, sender: Outsider, id: nat, toDao: TokenCall,
                         toWinner: TokenCall)
    requires AtRest(c, w) && ValidTime(now) && TryPrize(c, now, w, sender, id, toDao, toWinner).Ok?
    ensures
      var d := w.lot.DrawOf(id);
      var w1 := TryPrize(c, now, w, sender, id, toDao, toWinner).value;
      && w1.payments == w.payments
           + (if d.daoFee == 0 then [] else [Payment(LOTTERY, c.dao, d.daoFee)])
           + [Payment(LOTTERY, sender, d.winnerPrize)]
      && Own(w1) == Own(w) - d.daoFee - d.winnerPrize
      && Claimed(w, w1, id, RoundAt(w.lot, id).(d := d.(status := COMPLETED)),
           Emit(now, PrizeClaimed(id, sender, d.winnerPrize, c.dao, d.daoFee)))
  {
    hide Inv, TokenOut, OnlySettles, Claimed, RoundAt;
    var d := w.lot.DrawOf(id);
    var w1 := PrizeReleased(w, id);
    PrizeReleasedRound(w, id);
    OnlySettlesReflexive(w1);
    var w2 := w1;
    if d.daoFee != 0 {
      w2 := TokenOut(c, now, w1, c.dao, toDao, d.daoFee).value;
      PayoutSettles(c, now, w1, c.dao, toDao, d.daoFee);
    }
    SettledStays(w1, w2, id);
    var w3 := TokenOut(c, now, w2, sender, toWinner, d.winnerPrize).value;
    PayoutSettles(c, now, w2, sender, toWinner, d.winnerPrize);
    OnlySettlesTransitive(w1, w2, w3);
    SettledStays(w1, w3, id);
    ReportsClaim(w, w1, w3, id, Emit(now, PrizeClaimed(id, sender, d.winnerPrize, c.dao, d.daoFee)));
  }

  lemma PrizeReleasedRound(w: World, id: nat)
    requires w.lot.outstandingPrizes >= w.lot.DrawOf(id).pool
    ensures
      var w1 := PrizeReleased(w, id);
      && RoundAt(w1.lot, id) == RoundAt(w.lot, id).(d := w.lot.DrawOf(id).(status := COMPLETED))
      && SameElsewhere(w.lot, w1.lot, id) && w1.lot.currentDrawId == w.lot.currentDrawId && w1.locked
      && w1.log == w.log && w1.payments == w.payments && Own(w1) == Own(w)
      && w1.lot.DrawOf(id) == RoundAt(w1.lot, id).d
  {}

  // A round that is not waiting is not touched.
  lemma SettledStays(w: World, w1: World, id: nat)
    requires OnlySettles(w, w1) && w.lot.DrawOf(id).status != DRAWING
    ensures w1.lot.DrawOf(id) == w.lot.DrawOf(id) && w1.locked == w.locked
    ensures RoundAt(w1.lot, id) == RoundAt(w.lot, id)
  {
    assert SettledAtMost(RoundAt(w.lot, id), RoundAt(w1.lot, id));
  }

  lemma ReportsClaim(w: World, w1: World, w2: World, id: nat, report: Emit)
    requires SameElsewhere(w.lot, w1.lot, id) && w1.lot.currentDrawId == w.lot.currentDrawId && w1.log == w.log
    requires OnlySettles(w1, w2) && RoundAt(w2.lot, id) == RoundAt(w1.lot, id)
    ensures Claimed(w, w2.(locked := false, log := w2.log + [report]), id, RoundAt(w1.lot, id), report)
  {
    hide RoundAt;
  }

  // Likewise: every holder of a ticket of a cancelled round can claim its price back once.
  lemma RefundExactly(c: Config, now: nat, w: World, sender: Outsider, id: nat, pay: TokenCall)
    requires AtRest(c, w) && ValidTime(now)
    ensures
      var t := Try(c, now, w, ClaimRefund(sender, id, pay));
      && (t.Ok? <==>
        && w.lot.DrawOf(id).status == CANCELLED && w.lot.Ticket(id, sender) != 0
        && sender !in w.lot.RefundedOf(id) && pay.succeeds)
      && (t.Ok? ==>
        && t.value.payments == w.payments + [Payment(LOTTERY, sender, c.ticketPrice)]
        && Own(t.value) == Own(w) - c.ticketPrice
        && Claimed(w, t.value, id, RoundAt(w.lot, id).(refunded := w.lot.RefundedOf(id) + {sender}),
             Emit(now, RefundClaimed(id, sender, c.ticketPrice))))
  {
    hide Inv, TryRefund, RoundAt, Evolves, Claimed;
    RefundInv(c, now, w, sender, id, pay);
    if TryRefund(c, now, w, sender, id, pay).Ok? {
      RefundPaidExactly(c, now, w, sender, id, pay);
    }
  }

  lemma RefundPaidExactly(c: Config, now: nat, w: World, sender: Outsider, id: nat, pay: TokenCall)
    requires AtRest(c, w) && ValidTime(now) && TryRefund(c, now, w, sender, id, pay).Ok?
    ensures
      var w1 := TryRefund(c, now, w, sender, id, pay).value;
      && w1.payments == w.payments + [Payment(LOTTERY, sender, c.ticketPrice)]
      && Own(w1) == Own(w) - c.ticketPrice
      && Claimed(w, w1, id, RoundAt(w.lot, id).(refunded := w.lot.RefundedOf(id) + {sender}),
           Emit(now, RefundClaimed(id, sender, c.ticketPrice)))
  {
    hide Inv, TokenOut, OnlySettles, Claimed, RoundAt;
    var w1 := RefundReleased(c, w, sender, id);
    RefundReleasedRound(c, w, sender, id);
    var w2 := TokenOut(c, now, w1, sender, pay, c.ticketPrice).value;
    PayoutSettles(c, now, w1, sender, pay, c.ticketPrice);
    SettledStays(w1, w2, id);
    ReportsClaim(w, w1, w2, id, Emit(now, RefundClaimed(id, sender, c.ticketPrice)));
  }

  lemma RefundReleasedRound(c: Config, w: World, sender: Address, id: nat)
    requires w.lot.outstandingRefunds >= c.ticketPrice
    ensures
      var w1 := RefundReleased(c, w, sender, id);
      && RoundAt(w1.lot, id) == RoundAt(w.lot, id).(refunded := w.lot.RefundedOf(id) + {sender})
      && SameElsewhere(w.lot, w1.lot, id) && w1.lot.currentDrawId == w.lot.currentDrawId && w1.locked
      && w1.log == w.log && w1.payments == w.payments && Own(w1) == Own(w)
      && w1.lot.DrawOf(id) == w.lot.DrawOf(id)
  {}

  /******* The provider *******/

  // A callback of the coordinator is never refused; only the first one with a word for a requested
  // number is taken, its first word is stored, and if there is gas it settles the round at once.
  lemma CallbackExactly(c: Config, now: nat, w: World, sender: Outsider, requestId: nat, values: seq<nat>, runs: bool)
    requires AtRest(c, w) && ValidTime(now)
    ensures
      var t := Try(c, now, w, Callback(sender, requestId, values, runs));
      var taken := requestId in w.vrf.requested && requestId !in w.vrf.ready && values != [];
      && (t.Ok? <==> sender == COORDINATOR)
      && (t.Ok? && !taken ==> t.value == w)
      && (t.Ok? && taken ==>
        var id := w.lot.RequestDraw(requestId);
        && t.value.vrf.ready == w.vrf.ready + {requestId} && t.value.vrf.words == w.vrf.words[requestId := values[0]]
        && t.value.vrf.delivered == (if runs then w.vrf.delivered + {requestId} else w.vrf.delivered)
        && (!runs ==> t.value.lot == w.lot && t.value.log == w.log)
        && (runs ==>
          && t.value.lot.DrawOf(id).status in {WINNER_DECLARED, NO_WINNER}
          && t.value.lot.DrawOf(id).luckyNumber == values[0] % 10 + 1
          && t.value.lot.DrawOf(id).finalizedAt == now))
  {
    hide Inv, Fulfilled;
    if sender == COORDINATOR && requestId in w.vrf.requested && requestId !in w.vrf.ready && values != [] {
      var w1 := w.(vrf := w.vrf.(words := w.vrf.words[requestId := values[0]], ready := w.vrf.ready + {requestId}));
      StoredInv(c, w, w1, requestId, values[0], false, 0);
      BoundRequests(c, w, requestId);
      SettlesAtOnce(c, now, w1, requestId);
      hide Evolves, Interfered;
    }
  }

  // A stored word can be delivered at any time by anybody, settles its round if it has not yet, and
  // delivering it again changes nothing.
  lemma DeliverExactly(c: Config, now: nat, w: World, requestId: nat)
    requires AtRest(c, w) && ValidTime(now)
    ensures
      var t := Try(c, now, w, Deliver(requestId));
      && (t.Ok? <==> requestId in w.vrf.ready)
      && (t.Ok? && requestId in w.vrf.delivered ==> t.value == w)
      && (t.Ok? && requestId !in w.vrf.delivered ==>
        var d1 := t.value.lot.DrawOf(w.lot.RequestDraw(requestId));
        && t.value.vrf == w.vrf.(delivered := w.vrf.delivered + {requestId})
        && requestId in w.vrf.words && d1.status in {WINNER_DECLARED, NO_WINNER}
        && d1.luckyNumber == w.vrf.words[requestId] % 10 + 1 && d1.finalizedAt == now)
  {
    hide Inv, Fulfilled;
    if requestId in w.vrf.ready && requestId !in w.vrf.delivered {
      ReadyRequests(c, w, requestId);
      BoundRequests(c, w, requestId);
      SettlesAtOnce(c, now, w, requestId);
    }
  }

  lemma ReadyRequests(c: Config, w: World, requestId: nat)
    requires AtRest(c, w) && requestId in w.vrf.ready
    ensures requestId in w.vrf.requested
  {
    hide History, Buckets;
  }

  lemma BoundRequests(c: Config, w: World, requestId: nat)
    requires AtRest(c, w) && requestId in w.vrf.requested
    ensures w.vrf.bound
  {
    hide History, Buckets;
  }

  lemma SettlesAtOnce(c: Config, now: nat, w: World, requestId: nat)
    requires Inv(c, w, false, 0) && ValidTime(now) && requestId in w.vrf.ready && requestId !in w.vrf.delivered
    ensures requestId in w.vrf.words && Fulfilled(c, now, w, requestId, w.vrf.words[requestId]).Ok?
    ensures
      var w1 := Fulfilled(c, now, w, requestId, w.vrf.words[requestId]).value;
      var d1 := w1.lot.DrawOf(w.lot.RequestDraw(requestId));
      && w1.vrf == w.vrf && d1.status in {WINNER_DECLARED, NO_WINNER}
      && d1.luckyNumber == w.vrf.words[requestId] % 10 + 1 && d1.finalizedAt == now
  {
    hide Inv, RoundAt;
    SettlesShape(c, now, w, requestId, false, 0);
    hide Fulfilled, RoundOk;
    PoolCovers(c, w);
  }

  lemma PoolCovers(c: Config, w: World)
    requires Inv(c, w, false, 0) && w.lot.currentDrawId >= 1 && w.lot.DrawOf(w.lot.currentDrawId).status == DRAWING
    ensures w.lot.DrawOf(w.lot.currentDrawId).pool >= c.ticketPrice
  {
    hide Buckets, Requests, BoardOk, Cost, History;
    RoundFacts(c, w.lot, false, w.lot.currentDrawId);
    CostAdds(c, w.lot.DrawOf(w.lot.currentDrawId).participantCount, 0);
  }

  // The configurator names the provider's lottery once, and what is named is a contract.
  lemma SetLotteryExactly(c: Config, now: nat, w: World, sender: Outsider, target: Target)
    ensures
      var t := Try(c, now, w, SetLottery(sender, target));
      && (t.Ok? <==> sender == c.configurator && !w.vrf.bound && !w.vrf.elsewhere && target != NoCode)
      && (t.Ok? ==>
        t.value == w.(vrf := w.vrf.(bound := target == ThisLottery, elsewhere := target == OtherContract)))
  {}

  // In every continuation of any state the provider keeps serving the lottery it once named.
  lemma {:induction false} ServesForGood(c: Config, w: World, txs: seq<Tx>)
    requires w.vrf.bound || w.vrf.elsewhere
    ensures Run(c, w, txs).vrf.bound == w.vrf.bound && Run(c, w, txs).vrf.elsewhere == w.vrf.elsewhere
    decreases |txs|
  {
    hide Exec;
    if txs != [] {
      ExecGrows(c, txs[0].now, w, txs[0].call);
      ServesForGood(c, Exec(c, txs[0].now, w, txs[0].call), txs[1..]);
    }
  }

  /******* The views *******/

  // canStartDraw and canPerformDraw tell whether the calls are open, and claimable what a plain
  // claim pays to the wallet.
  lemma ViewsTell(c: Config, now: nat, w: World, id: nat, who: Outsider)
    requires AtRest(c, w) && ValidTime(now)
    ensures w.lot.currentDrawId < MAX_UINT256 ==>
      (w.lot.CanStartDraw() <==> Try(c, now, w, StartDraw(w.lot.currentDrawId)).Ok?)
    ensures w.lot.CanPerformDraw(id, now) <==> Try(c, now, w, PerformDraw(id, [], None)) != Revert(NotEligible)
    ensures
      var (prize, refund) := w.lot.Claimable(c, id, who);
      && (prize != 0 <==> Try(c, now, w, ClaimPrize(who, id, PLAIN, PLAIN)).Ok?)
      && (refund != 0 <==> Try(c, now, w, ClaimRefund(who, id, PLAIN)).Ok?)
      && (prize == 0 || prize == w.lot.DrawOf(id).winnerPrize) && (refund == 0 || refund == c.ticketPrice)
  {
    hide Inv, TryPrize, TryRefund, TryStart, RoundAt;
    StartExactly(c, now, w, w.lot.currentDrawId);
    PrizeExactly(c, now, w, who, id, PLAIN, PLAIN);
    RefundExactly(c, now, w, who, id, PLAIN);
    ClaimsArePositive(c, w, id);
  }

  lemma ClaimsArePositive(c: Config, w: World, id: nat)
    requires AtRest(c, w)
    ensures c.ticketPrice > 0
    ensures w.lot.DrawOf(id).status == WINNER_DECLARED ==> w.lot.DrawOf(id).winnerPrize > 0
  {
    PriceIsPositive(c);
    hide Buckets, Requests, ValidConfig, RoundOk;
    if w.lot.DrawOf(id).status == WINNER_DECLARED {
      OnlyRounds(c, w.lot, false, id);
      RoundFacts(c, w.lot, false, id);
      PrizeIsPositive(c, RoundAt(w.lot, id), id);
    }
  }

  lemma PriceIsPositive(c: Config)
    requires ValidConfig(c)
    ensures c.ticketPrice > 0
  {
    PowerIsPositive(c.decimals);
  }

  lemma PrizeIsPositive(c: Config, r: Round, id: nat)
    requires RoundOk(c, r, id, false) && r.d.status == WINNER_DECLARED && c.ticketPrice > 0
    ensures r.d.winnerPrize > 0
  {
    hide BoardOk, Cost;
  }
}
