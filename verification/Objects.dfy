/**
 The two contracts and the token's account as objects whose methods write their storage step by
 step. Every method is proved to do what the corresponding function of module Contract says, so
 the theorems about those functions are theorems about the objects.
 */
module Objects {
  import opened Basics
  import opened Contract

  // None: the call succeeded.
  type Outcome = Option<Error>

  ghost predicate Did(t: Result<World>, before: World, after: World, r: Outcome) {
    match t
    case Ok(w) => r == None && after == w
    case Revert(e) => r == Some(e) && after == before
  }

  // The token's books, as far as they concern the lottery.
  class Token {
    var balance: nat
    var donated: nat
    var payments: seq<Payment>

    // Whatever the address holds before the deployment is a gift.
    constructor (balance: nat)
      ensures this.balance == donated == balance && payments == []
    {
      this.balance, donated, payments := balance, balance, [];
    }
  }

  lemma CallbackIs(c: Config, now: nat, w: World, sender: Outsider, requestId: nat, values: seq<nat>, runs: bool)
    ensures Try(c, now, w, Callback(sender, requestId, values, runs)) ==
      if sender != COORDINATOR then Revert(OnlyCoordinatorCanFulfill)
      else Ok(CalledBack(c, now, w, requestId, values, runs))
  {
    hide TryStart, TryBuy, TryPerform, TryPrize, TryRefund, TryFinalize, CalledBack, Delivered;
  }

  class VRFProvider {
    const configurator: Address
    var lottery: Lottery?
    var elsewhere: bool  // the lottery's address is set to a contract other than the one observed
    var requested: set<nat>
    var ready: set<nat>
    var delivered: set<nat>
    var words: map<nat, nat>

    constructor (configurator: Address)
      ensures this.configurator == configurator && lottery == null && State() == NEW_VRF
    {
      this.configurator := configurator;
      lottery, elsewhere := null, false;
      requested, ready, delivered, words := {}, {}, {}, map[];
    }

    function State(): Vrf
      reads this
    {
      Vrf(lottery != null, elsewhere, requested, ready, delivered, words)
    }

    // No request of the observed lottery yet; the address may be set to another contract.
    ghost predicate Unused()
      reads this
    {
      State() == NEW_VRF.(elsewhere := elsewhere)
    }

    // `l` is the lottery that is observed, `target` what the configurator names.
    method SetLottery(sender: Outsider, l: Lottery, target: Target) returns (r: Outcome)
      requires l.Linked() && l.provider == this
      modifies this
      ensures l.Linked()
      ensures Did(Try(l.c, 0, old(l.Abs()), Call.SetLottery(sender, target)), old(l.Abs()), l.Abs(), r)
    {
      if sender != configurator { return Some(OnlyConfigurator); }
      if lottery != null || elsewhere || target.NoCode? { return Some(LotteryAlreadySet); }
      if target.ThisLottery? {
        lottery := l;
      } else {
        elsewhere := true;
      }
      r := None;
    }

    // The coordinator runs the calls `during` and answers with a number or reverts.
    method RequestRandomness(now: nat, l: Lottery, during: seq<Call>, answer: Option<nat>) returns (r: Result<nat>)
      requires l.Linked() && l.provider == this
      modifies l, this, l.token
      ensures l.Linked()
      ensures r.Ok? ==>
        && old(lottery) != null && answer == Some(r.value)
        && var w := RunAll(l.c, now, old(l.Abs()), during);
           l.Abs() == w.(vrf := w.vrf.(requested := w.vrf.requested + {r.value}))
      ensures r.Revert? ==> r == (if old(lottery) == null then Revert(InvalidRequest) else Revert(CoordinatorFailed))
      ensures r.Revert? ==> old(lottery) == null || answer == None
      decreases during, 4
    {
      if lottery == null { return Revert(InvalidRequest); }
      RunCalls(now, l, during);
      match answer {
        case None => r := Revert(CoordinatorFailed);
        case Some(id) =>
          requested := requested + {id};
          r := Ok(id);
      }
    }

    method RawFulfillRandomWords(now: nat, sender: Outsider, ghost l: Lottery, requestId: nat, values: seq<nat>,
                                 runs: bool) returns (r: Outcome)
      requires l.Linked() && l.provider == this
      modifies l, this
      ensures l.Linked()
      ensures Did(Try(l.c, now, old(l.Abs()), Callback(sender, requestId, values, runs)), old(l.Abs()), l.Abs(), r)
    {
      hide Try, Fulfilled;
      CallbackIs(l.c, now, l.Abs(), sender, requestId, values, runs);
      if sender != COORDINATOR { return Some(OnlyCoordinatorCanFulfill); }
      r := None;
      if requestId !in requested || requestId in ready || |values| == 0 { return; }
      words := words[requestId := values[0]];
      ready := ready + {requestId};
      if runs && lottery != null {
        var failed := lottery.FulfillRandomness(now, PROVIDER, requestId, values[0]);
        if failed == None {
          delivered := delivered + {requestId};
        }
      }
    }

    method Deliver(now: nat, ghost l: Lottery, requestId: nat) returns (r: Outcome)
      requires l.Linked() && l.provider == this
      modifies l, this
      ensures l.Linked()
      ensures Did(Delivered(l.c, now, old(l.Abs()), requestId), old(l.Abs()), l.Abs(), r)
    {
      if requestId !in ready { return Some(InvalidRequest); }
      if requestId in delivered { return None; }
      if lottery == null || requestId !in words { return Some(InvalidRequest); }
      r := lottery.FulfillRandomness(now, PROVIDER, requestId, words[requestId]);
      if r == None {
        delivered := delivered + {requestId};
      }
    }
  }

  class Lottery {
    const c: Config
    const token: Token
    const provider: VRFProvider
    var locked: bool
    var currentDrawId: nat
    var pendingRollover: nat
    var activePool: nat
    var outstandingPrizes: nat
    var outstandingRefunds: nat
    var draws: map<nat, Draw>
    var owners: map<nat, seq<Address>>
    var ticketOf: map<nat, map<Address, nat>>
    var refunded: map<nat, set<Address>>
    var requestDraw: map<nat, nat>
    var log: seq<Emit>

    constructor (c: Config, token: Token, provider: VRFProvider)
      requires provider.Unused() && provider.configurator == c.configurator && token.donated == token.balance
        && token.payments == []
      ensures this.c == c && this.token == token && this.provider == provider && Linked()
      ensures Abs() == Deployed(token.balance, provider.elsewhere)
    {
      this.c, this.token, this.provider := c, token, provider;
      locked := false;
      currentDrawId, pendingRollover, activePool, outstandingPrizes, outstandingRefunds := 0, 0, 0, 0, 0;
      draws, owners, ticketOf, refunded, requestDraw, log := map[], map[], map[], map[], map[], [];
    }

    ghost predicate Linked()
      reads this, provider
    {
      provider.configurator == c.configurator && (provider.lottery == null || provider.lottery == this)
    }

    function Storage(): Lot
      reads this
    {
      Lot(currentDrawId, pendingRollover, activePool, outstandingPrizes, outstandingRefunds, draws, owners, ticketOf,
          refunded, requestDraw)
    }

    function Abs(): World
      reads this, provider, token
    {
      World(locked, Storage(), provider.State(), token.balance, token.donated, token.payments, log)
    }

    // What a revert does to everything the failed call wrote.
    method RollBack(w: World)
      requires Linked()
      modifies this, provider, token
      ensures Linked() && Abs() == w
    {
      token.balance, token.donated, token.payments := w.balance, w.donated, w.payments;
      provider.lottery, provider.elsewhere := if w.vrf.bound then this else null, w.vrf.elsewhere;
      provider.requested, provider.ready, provider.delivered, provider.words := w.vrf.requested, w.vrf.ready,
          w.vrf.delivered, w.vrf.words;
      assert provider.State() == w.vrf;
      RollBackStorage(w);
    }

    method RollBackStorage(w: World)
      modifies this
      ensures Storage() == w.lot && locked == w.locked && log == w.log
    {
      locked, log := w.locked, w.log;
      currentDrawId, pendingRollover, activePool := w.lot.currentDrawId, w.lot.pendingRollover, w.lot.activePool;
      outstandingPrizes, outstandingRefunds := w.lot.outstandingPrizes, w.lot.outstandingRefunds;
      draws, owners, ticketOf, refunded, requestDraw := w.lot.draws, w.lot.owners, w.lot.ticketOf, w.lot.refunded,
          w.lot.requestDraw;
    }

    method StartDraw(now: nat, expectedPreviousId: nat) returns (r: Outcome)
      modifies `currentDrawId, `draws, `activePool, `pendingRollover, `log
      ensures Did(TryStart(c, now, old(Abs()), expectedPreviousId), old(Abs()), Abs(), r)
    {
      hide Lot.CanStartDraw;
      if locked { return Some(ReentrantCall); }
      if expectedPreviousId != currentDrawId { return Some(InvalidDraw); }
      if !Storage().CanStartDraw() { return Some(InvalidState); }
      if currentDrawId + 1 > MAX_UINT256 { return Some(Panic); }
      currentDrawId := currentDrawId + 1;
      var id := currentDrawId;
      var d := Storage().DrawOf(id).(id := id, startTime := now % TWO_TO_THE_64,
                                     deadline := (now + DURATION) % TWO_TO_THE_64,
                                     inheritedRollover := pendingRollover, pool := pendingRollover);
      draws := draws[id := d];
      activePool := pendingRollover;
      pendingRollover := 0;
      assert Storage() == Started(c, now, old(Abs())).lot;
      log := log + [Emit(now, DrawStarted(id, d.startTime, d.deadline, c.ticketPrice, c.minimum, d.inheritedRollover))];
      r := None;
    }

    method BuyTicket(now: nat, sender: Outsider, id: nat, pay: TokenCall) returns (r: Outcome)
      requires Linked()
      modifies this, provider, token
      ensures Linked()
      ensures Did(TryBuy(c, now, old(Abs()), sender, id, pay), old(Abs()), Abs(), r)
      decreases Call.BuyTicket(sender, id, pay), 0
    {
      hide RunAll, TokenIn, TokenOut, Bought, Cancelled, Fulfilled, Delivered, CalledBack, Started, Lot.DrawOf,
          Lot.Ticket, Lot.CanPerformDraw;
      if locked { return Some(ReentrantCall); }
      if id == 0 || id != currentDrawId { return Some(InvalidDraw); }
      var d := Storage().DrawOf(id);
      if d.status != ACTIVE || now >= d.deadline
        || d.participantCount >= MAX_PARTICIPANTS { return Some(TicketsClosed); }
      if Storage().Ticket(id, sender) != 0 { return Some(AlreadyParticipated); }
      var saved := Abs();
      locked := true;
      var beforeBalance := token.balance;
      var failed := TransferFrom(now, sender, pay, c.ticketPrice);
      if failed.Some? {
        RollBack(saved);
        return failed;
      }
      if beforeBalance + c.ticketPrice > MAX_UINT256 {
        RollBack(saved);
        return Some(Panic);
      }
      if token.balance != beforeBalance + c.ticketPrice {
        RollBack(saved);
        return Some(WrongPaymentAmount);
      }
      locked := false;
      r := Record(now, sender, id);
      if r.Some? {
        RollBack(saved);
      }
    }

    // The bookkeeping of buyTicket, after its payment has been checked.
    method Record(now: nat, sender: Outsider, id: nat) returns (r: Outcome)
      modifies `owners, `ticketOf, `draws, `activePool, `log
      ensures match Bought(c, now, old(Abs()), sender, id)
        case Ok(w) => r == None && Abs() == w
        case Revert(e) => r == Some(e)
    {
      hide Lot.DrawOf, Lot.OwnersOf, Lot.TicketsOf;
      var l := Storage();
      var d := l.DrawOf(id);
      var number := d.participantCount + 1;
      if number > POSITIONS || d.pool + c.ticketPrice > MAX_UINT256 || activePool + c.ticketPrice > MAX_UINT256 {
        return Some(Panic);
      }
      d := d.(participantCount := number, pool := d.pool + c.ticketPrice);
      WriteTicket(id, d, l.OwnersOf(id)[number - 1 := sender], l.TicketsOf(id)[sender := number]);
      log := log + [Emit(now, TicketBought(id, sender, number, c.ticketPrice, number, d.pool))];
      r := None;
    }

    method WriteTicket(id: nat, d: Draw, row: seq<Address>, numbers: map<Address, nat>)
      modifies this`owners, this`ticketOf, this`draws, this`activePool
      ensures owners == old(owners)[id := row] && ticketOf == old(ticketOf)[id := numbers]
        && draws == old(draws)[id := d]
      ensures activePool == old(activePool) + c.ticketPrice
    {
      owners := owners[id := row];
      ticketOf := ticketOf[id := numbers];
      draws := draws[id := d];
      activePool := activePool + c.ticketPrice;
    }

    method PerformDraw(now: nat, id: nat, during: seq<Call>, answer: Option<nat>) returns (r: Outcome)
      requires Linked()
      modifies this, provider, token
      ensures Linked()
      ensures Did(TryPerform(c, now, old(Abs()), id, during, answer), old(Abs()), Abs(), r)
      decreases Call.PerformDraw(id, during, answer), 0
    {
      hide RunAll, TokenIn, TokenOut, Bought, Cancelled, Fulfilled, Delivered, CalledBack, Started, Lot.DrawOf,
          Lot.Ticket, Lot.CanPerformDraw;
      if locked { return Some(ReentrantCall); }
      if !Storage().CanPerformDraw(id, now) { return Some(NotEligible); }
      var saved := Abs();
      var d := Storage().DrawOf(id);
      if d.participantCount < c.minimum {
        r := Cancel(now, id);
        if r.Some? {
          RollBack(saved);
        }
      } else {
        locked := true;
        activePool := d.pool;
        draws := draws[id := d.(status := DRAWING)];
        assert Abs() == Requesting(saved, id);
        var requestId := provider.RequestRandomness(now, this, during, answer);
        if requestId.Revert? {
          RollBack(saved);
          return Some(requestId.error);
        }
        r := Register(now, id, requestId.value);
        if r.Some? {
          RollBack(saved);
        }
      }
    }

    // The end of performDraw, after the provider returned a request number.
    method Register(now: nat, id: nat, requestId: nat) returns (r: Outcome)
      modifies `draws, `requestDraw, `log, `locked
      ensures var t := Registered(now, old(Abs()), id, requestId);
        match t
        case Ok(w) => r == None && Abs() == w.(vrf := old(provider.State()))
        case Revert(e) => r == Some(e)
    {
      if requestId == 0 || Storage().RequestDraw(requestId) != 0 { return Some(InvalidState); }
      draws := draws[id := Storage().DrawOf(id).(requestId := requestId)];
      requestDraw := requestDraw[requestId := id];
      log := log + [Emit(now, RandomnessRequested(id, requestId))];
      locked := false;
      r := None;
    }

    // The cancelling branch of performDraw.
    method Cancel(now: nat, id: nat) returns (r: Outcome)
      modifies `draws, `activePool, `outstandingRefunds, `pendingRollover, `log
      ensures match Cancelled(c, now, old(Abs()), id)
        case Ok(w) => r == None && Abs() == w
        case Revert(e) => r == Some(e)
    {
      hide Lot.DrawOf;
      var d := Storage().DrawOf(id);
      activePool := 0;
      d := d.(status := CANCELLED, finalizedAt := now % TWO_TO_THE_64);
      var refunds := d.participantCount * c.ticketPrice;
      if refunds > MAX_UINT256 || outstandingRefunds + refunds > MAX_UINT256
        || pendingRollover + d.inheritedRollover > MAX_UINT256 {
        return Some(Panic);
      }
      draws := draws[id := d];
      outstandingRefunds := outstandingRefunds + refunds;
      pendingRollover := pendingRollover + d.inheritedRollover;
      log := log + [Emit(now, DrawCancelled(id, d.participantCount, refunds, d.inheritedRollover))];
      r := None;
    }

    method FulfillRandomness(now: nat, sender: Address, requestId: nat, word: nat) returns (r: Outcome)
      modifies `draws, `activePool, `outstandingPrizes, `pendingRollover, `log
      ensures Did(if sender == PROVIDER then Fulfilled(c, now, old(Abs()), requestId, word) else Revert(Unauthorized),
        old(Abs()), Abs(), r)
      ensures
        var id := old(Storage()).RequestDraw(requestId);
        id == 0 || old(Storage()).DrawOf(id).status != DRAWING ==>
          Abs() == old(Abs()) && r == (if sender == PROVIDER then None else Some(Unauthorized))
    {
      hide Fee, Lot.DrawOf, Lot.OwnersOf, Lot.RequestDraw;
      if sender != PROVIDER { return Some(Unauthorized); }
      var id := Storage().RequestDraw(requestId);
      var d := Storage().DrawOf(id);
      if id == 0 || d.status != DRAWING { return None; }
      var lucky := word % 10 + 1;
      d := d.(luckyNumber := lucky);
      d := d.(winner := Storage().OwnersOf(id)[lucky - 1]);
      d := d.(finalizedAt := now % TWO_TO_THE_64);
      var rollover, prize := 0, 0;
      if d.winner == ZERO {
        d := d.(status := NO_WINNER);
        rollover := d.pool;
        if pendingRollover + rollover > MAX_UINT256 { return Some(Panic); }
      } else {
        d := d.(status := WINNER_DECLARED);
        if d.pool < c.ticketPrice || outstandingPrizes + d.pool > MAX_UINT256 { return Some(Panic); }
        d := d.(daoFee := Fee(c, d.pool));
        d := d.(winnerPrize := d.pool - d.daoFee);
        prize := d.pool;
      }
      WriteOutcome(now, id, d, prize, rollover);
      r := None;
    }

    // The storage and the event of a settled round.
    method WriteOutcome(now: nat, id: nat, d: Draw, prize: nat, rollover: nat)
      modifies `draws, `activePool, `outstandingPrizes, `pendingRollover, `log
      ensures
        var w := old(Abs());
        Abs() == w.(
          lot := w.lot.(draws := w.lot.draws[id := d], activePool := 0,
            outstandingPrizes := w.lot.outstandingPrizes + prize,
            pendingRollover := w.lot.pendingRollover + rollover),
          log := w.log + [Emit(now,
            LotteryDrawn(id, d.luckyNumber, d.winner, d.pool, d.daoFee, d.winnerPrize, rollover))])
    {
      pendingRollover := pendingRollover + rollover;
      outstandingPrizes := outstandingPrizes + prize;
      activePool := 0;
      draws := draws[id := d];
      log := log + [Emit(now, LotteryDrawn(id, d.luckyNumber, d.winner, d.pool, d.daoFee, d.winnerPrize, rollover))];
    }

    method FinalizeDraw(now: nat, id: nat) returns (r: Outcome)
      requires Linked()
      modifies this, provider
      ensures Linked()
      ensures Did(TryFinalize(c, now, old(Abs()), id), old(Abs()), Abs(), r)
    {
      if id == 0 || Storage().DrawOf(id).status != DRAWING { return Some(InvalidState); }
      r := provider.Deliver(now, this, Storage().DrawOf(id).requestId);
    }

    method ClaimPrize(now: nat, sender: Outsider, id: nat, toDao: TokenCall, toWinner: TokenCall) returns (r: Outcome)
      requires Linked()
      modifies this, provider, token
      ensures Linked()
      ensures Did(TryPrize(c, now, old(Abs()), sender, id, toDao, toWinner), old(Abs()), Abs(), r)
      decreases Call.ClaimPrize(sender, id, toDao, toWinner), 0
    {
      hide RunAll, TokenIn, TokenOut, Bought, Cancelled, Fulfilled, Delivered, CalledBack, Started, Lot.DrawOf,
          Lot.Ticket, Lot.CanPerformDraw;
      if locked { return Some(ReentrantCall); }
      var d := Storage().DrawOf(id);
      if d.status != WINNER_DECLARED || d.winner != sender { return Some(NotClaimable); }
      if outstandingPrizes < d.pool { return Some(Panic); }
      var saved := Abs();
      ReleasePrize(id);
      hide PrizeReleased;
      r := None;
      if d.daoFee != 0 {
        r := Transfer(now, c.dao, toDao, d.daoFee);
      }
      if r.None? {
        r := Transfer(now, sender, toWinner, Storage().DrawOf(id).winnerPrize);
      }
      if r.Some? {
        RollBack(saved);
        return;
      }
      log := log + [Emit(now,
          PrizeClaimed(id, sender, Storage().DrawOf(id).winnerPrize, c.dao, Storage().DrawOf(id).daoFee))];
      locked := false;
    }

    // The storage of claimPrize before it pays.
    method ReleasePrize(id: nat)
      requires outstandingPrizes >= Storage().DrawOf(id).pool
      modifies `locked, `draws, `outstandingPrizes
      ensures Abs() == PrizeReleased(old(Abs()), id)
    {
      hide Lot.DrawOf;
      var d := Storage().DrawOf(id);
      locked := true;
      draws := draws[id := d.(status := COMPLETED)];
      outstandingPrizes := outstandingPrizes - d.pool;
    }

    method ClaimRefund(now: nat, sender: Outsider, id: nat, pay: TokenCall) returns (r: Outcome)
      requires Linked()
      modifies this, provider, token
      ensures Linked()
      ensures Did(TryRefund(c, now, old(Abs()), sender, id, pay), old(Abs()), Abs(), r)
      decreases Call.ClaimRefund(sender, id, pay), 0
    {
      hide RunAll, TokenIn, TokenOut, Bought, Cancelled, Fulfilled, Delivered, CalledBack, Started, Lot.DrawOf,
          Lot.Ticket, Lot.CanPerformDraw;
      if locked { return Some(ReentrantCall); }
      if Storage().DrawOf(id).status != CANCELLED || Storage().Ticket(id, sender) == 0
        || sender in Storage().RefundedOf(id) {
        return Some(NotClaimable);
      }
      if outstandingRefunds < c.ticketPrice { return Some(Panic); }
      var saved := Abs();
      ReleaseRefund(sender, id);
      hide RefundReleased;
      r := Transfer(now, sender, pay, c.ticketPrice);
      if r.Some? {
        RollBack(saved);
        return;
      }
      log := log + [Emit(now, RefundClaimed(id, sender, c.ticketPrice))];
      locked := false;
    }

    // The storage of claimRefund before it pays.
    method ReleaseRefund(sender: Outsider, id: nat)
      requires outstandingRefunds >= c.ticketPrice
      modifies `locked, `refunded, `outstandingRefunds
      ensures Abs() == RefundReleased(c, old(Abs()), sender, id)
    {
      locked := true;
      refunded := refunded[id := Storage().RefundedOf(id) + {sender}];
      outstandingRefunds := outstandingRefunds - c.ticketPrice;
    }

    // safeTransferFrom to the lottery, with the calls that happen around the move.
    method TransferFrom(now: nat, from: Address, pay: TokenCall, amount: nat) returns (r: Outcome)
      requires Linked()
      modifies this, provider, token
      ensures Linked()
      ensures match TokenIn(c, now, old(Abs()), from, pay, amount)
        case Ok(w) => r == None && Abs() == w
        case Revert(e) => r == Some(e)
      decreases pay, 3
    {
      RunCalls(now, this, pay.pre);
      if !pay.succeeds || token.balance + amount > MAX_UINT256 { return Some(TransferFailed); }
      token.balance := token.balance + amount;
      token.payments := token.payments + [Payment(from, LOTTERY, amount)];
      RunCalls(now, this, pay.post);
      r := None;
    }

    // safeTransfer from the lottery.
    method Transfer(now: nat, to: Address, pay: TokenCall, amount: nat) returns (r: Outcome)
      requires Linked()
      modifies this, provider, token
      ensures Linked()
      ensures match TokenOut(c, now, old(Abs()), to, pay, amount)
        case Ok(w) => r == None && Abs() == w
        case Revert(e) => r == Some(e)
      decreases pay, 3
    {
      RunCalls(now, this, pay.pre);
      if !pay.succeeds || token.balance < amount { return Some(TransferFailed); }
      token.balance := token.balance - amount;
      token.payments := token.payments + [Payment(LOTTERY, to, amount)];
      RunCalls(now, this, pay.post);
      r := None;
    }
  }

  /******* The outside world *******/

  method Dispatch(now: nat, l: Lottery, call: Call) returns (r: Outcome)
    requires l.Linked()
    modifies l, l.provider, l.token
    ensures l.Linked()
    ensures Did(Try(l.c, now, old(l.Abs()), call), old(l.Abs()), l.Abs(), r)
    decreases call, 1
  {
    hide TryStart, TryBuy, TryPerform, TryPrize, TryRefund, TryFinalize, Delivered, CalledBack;
    match call {
      case StartDraw(expected) => r := l.StartDraw(now, expected);
      case BuyTicket(sender, id, pay) => r := l.BuyTicket(now, sender, id, pay);
      case PerformDraw(id, during, answer) => r := l.PerformDraw(now, id, during, answer);
      case ClaimPrize(sender, id, toDao, toWinner) => r := l.ClaimPrize(now, sender, id, toDao, toWinner);
      case ClaimRefund(sender, id, pay) => r := l.ClaimRefund(now, sender, id, pay);
      case FinalizeDraw(id) => r := l.FinalizeDraw(now, id);
      case Fulfill(sender, requestId, word) => r := l.FulfillRandomness(now, sender, requestId, word);
      case Callback(sender, requestId, values, runs) => r := l.provider.RawFulfillRandomWords(now, sender, l,
        requestId, values, runs);
      case Deliver(requestId) => r := l.provider.Deliver(now, l, requestId);
      case SetLottery(sender, target) => r := l.provider.SetLottery(sender, l, target);
      case Donate(amount) =>
        if l.token.balance + amount > MAX_UINT256 { return Some(TransferFailed); }
        l.token.balance, l.token.donated := l.token.balance + amount, l.token.donated + amount;
        r := None;
    }
  }

  method RunCalls(now: nat, l: Lottery, calls: seq<Call>)
    requires l.Linked()
    modifies l, l.provider, l.token
    ensures l.Linked()
    ensures l.Abs() == RunAll(l.c, now, old(l.Abs()), calls)
    decreases calls, 2
  {
    if calls != [] {
      var _ := Dispatch(now, l, calls[0]);
      RunCalls(now, l, calls[1..]);
    }
  }

  // A chain of transactions on the deployed contracts.
  method RunTransactions(l: Lottery, txs: seq<Tx>)
    requires l.Linked()
    modifies l, l.provider, l.token
    ensures l.Linked()
    ensures l.Abs() == Run(l.c, old(l.Abs()), txs)
  {
    ghost var start := l.Abs();
    var i := 0;
    while i < |txs|
      invariant 0 <= i <= |txs| && l.Linked()
      invariant Run(l.c, start, txs) == Run(l.c, l.Abs(), txs[i..])
    {
      var _ := Dispatch(txs[i].now, l, txs[i].call);
      assert txs[i..][1..] == txs[i + 1..];
      i := i + 1;
    }
  }

  /******* Deployment *******/

  function Deploy(tokenHasCode: bool, providerHasCode: bool, dao: Address, minimum: nat, decimals: nat,
                  configurator: Address): (r: Result<Config>)
    requires minimum < 256 && decimals < 256
    ensures r.Ok? <==>
      tokenHasCode && providerHasCode && dao != ZERO && dao != LOTTERY && 1 <= minimum <= 5 && decimals <= 75
    ensures r.Ok? ==> ValidConfig(r.value) && r.value.ticketPrice <= MAX_UINT256
    ensures r.Ok? ==>
      && r.value.dao == dao && r.value.minimum == minimum && r.value.decimals == decimals
      && r.value.configurator == configurator
  {
    if !tokenHasCode || !providerHasCode || dao == ZERO || dao == LOTTERY || minimum < 1
      || minimum > 5 then Revert(InvalidConfiguration)
    else if decimals > 75 then Revert(InvalidConfiguration)
    else
      PriceFits(decimals);
      if 10 * Pow10(decimals) > MAX_UINT256 then Revert(Panic)
      else Ok(Config(dao, decimals, 10 * Pow10(decimals), minimum, configurator))
  }

  // The constructor with its checks. The address may hold tokens already, all of them gifts, and
  // the provider may already name another contract.
  method DeployLottery(tokenHasCode: bool, providerHasCode: bool, dao: Address, minimum: nat, decimals: nat,
                       token: Token, provider: VRFProvider)
    returns (r: Result<Lottery>)
    requires minimum < 256 && decimals < 256
    requires provider.Unused() && token.donated == token.balance && token.payments == []
    ensures match Deploy(tokenHasCode, providerHasCode, dao, minimum, decimals, provider.configurator)
      case Revert(x) => r == Revert(x)
      case Ok(c) => r.Ok? && r.value.c == c
    ensures r.Ok? ==> fresh(r.value) && r.value.token == token && r.value.provider == provider
    ensures r.Ok? ==> r.value.Linked() && r.value.Abs() == Deployed(token.balance, provider.elsewhere)
  {
    if !tokenHasCode || !providerHasCode || dao == ZERO || dao == LOTTERY || minimum < 1 || minimum > 5 {
      return Revert(InvalidConfiguration);
    }
    if decimals > 75 { return Revert(InvalidConfiguration); }
    PriceFits(decimals);
    var l := new Lottery(Config(dao, decimals, 10 * Pow10(decimals), minimum, provider.configurator), token, provider);
    r := Ok(l);
  }

  lemma {:induction false} PowersMultiply(a: nat, b: nat)
    ensures Pow10(a + b) == Pow10(a) * Pow10(b)
  {
    if a > 0 {
      PowersMultiply(a - 1, b);
    }
  }

  lemma PowerOf75()
    ensures 10 * Pow10(75) <= MAX_UINT256
  {
    PowersMultiply(5, 5);
    PowersMultiply(10, 5);
    assert Pow10(5) == 100000;
    hide Pow10;
    PowersMultiply(15, 15);
    PowersMultiply(30, 30);
    PowersMultiply(60, 15);
    assert Pow10(15) == 1_000_000_000_000_000;
    assert Pow10(30) == 1_000_000_000_000_000 * 1_000_000_000_000_000;
  }

  lemma Divisor(a: nat, b: nat)
    requires a >= 1
    ensures b <= a * b
  {}

  // 10 tokens of at most 75 decimals fit in uint256.
  lemma PriceFits(decimals: nat)
    ensures decimals <= 75 ==> 10 * Pow10(decimals) <= MAX_UINT256
  {
    hide Pow10;
    if decimals <= 75 {
      PowerOf75();
      PowersMultiply(75 - decimals, decimals);
      PowerIsPositive(75 - decimals);
      Divisor(Pow10(75 - decimals), Pow10(decimals));
    }
  }
}
