/**
 The lottery contract, its randomness provider and the lottery's token balance as one value, and
 every external call as a function on that value. A call carries the calls that others make
 while it is waiting for the token or the coordinator, so one value describes any re-entrant
 schedule.
 */
module Contract {
  import opened Basics

  const DURATION: nat := 86400
  const MAX_PARTICIPANTS: nat := 5
  const POSITIONS: nat := 10

  datatype Config = Config(dao: Address, decimals: nat, ticketPrice: nat, minimum: nat, configurator: Address)

  function Pow10(n: nat): nat {
    if n == 0 then 1 else 10 * Pow10(n - 1)
  }

  lemma {:induction false} PowerIsPositive(n: nat)
    ensures Pow10(n) >= 1
  {
    if n > 0 {
      PowerIsPositive(n - 1);
    }
  }

  ghost predicate ValidConfig(c: Config) {
    && c.dao != ZERO && c.dao != LOTTERY
    && 1 <= c.minimum <= 5
    && c.decimals <= 75
    && c.ticketPrice == 10 * Pow10(c.decimals)
  }

  // Block timestamps are positive and leave room for the 24 hours that are added to them.
  ghost predicate ValidTime(now: nat) {
    0 < now && now + DURATION < TWO_TO_THE_64
  }

  datatype Status = ACTIVE | DRAWING | WINNER_DECLARED | COMPLETED | NO_WINNER | CANCELLED

  predicate Final(s: Status) {
    s != ACTIVE && s != DRAWING
  }

  datatype Draw = Draw(
    id: nat, status: Status, startTime: nat, deadline: nat, finalizedAt: nat,
    participantCount: nat, luckyNumber: nat, winner: Address,
    inheritedRollover: nat, pool: nat, daoFee: nat, winnerPrize: nat, requestId: nat)

  // What an unwritten storage slot reads as.
  const ZERO_DRAW := Draw(0, ACTIVE, 0, 0, 0, 0, 0, ZERO, 0, 0, 0, 0, 0)
  const NO_OWNERS: seq<Address> := [0, 0, 0, 0, 0, 0, 0, 0, 0, 0]

  datatype Lot = Lot(
    currentDrawId: nat, pendingRollover: nat, activePool: nat, outstandingPrizes: nat, outstandingRefunds: nat,
    draws: map<nat, Draw>, owners: map<nat, seq<Address>>, ticketOf: map<nat, map<Address, nat>>,
    refunded: map<nat, set<Address>>, requestDraw: map<nat, nat>)
  {
    function DrawOf(id: nat): Draw {
      if id in draws then draws[id] else ZERO_DRAW
    }

    function OwnersOf(id: nat): (r: seq<Address>)
      ensures |r| == POSITIONS
    {
      if id in owners && |owners[id]| == POSITIONS then owners[id] else NO_OWNERS
    }

    function TicketsOf(id: nat): map<Address, nat> {
      if id in ticketOf then ticketOf[id] else map[]
    }

    function Ticket(id: nat, who: Address): nat {
      if who in TicketsOf(id) then TicketsOf(id)[who] else 0
    }

    function RefundedOf(id: nat): set<Address> {
      if id in refunded then refunded[id] else {}
    }

    function RequestDraw(requestId: nat): nat {
      if requestId in requestDraw then requestDraw[requestId] else 0
    }

    function Liabilities(): nat {
      activePool + pendingRollover + outstandingPrizes + outstandingRefunds
    }

    function CanStartDraw(): bool {
      currentDrawId == 0 || Final(DrawOf(currentDrawId).status)
    }

    function CanPerformDraw(id: nat, now: nat): bool {
      if id == 0 || id != currentDrawId then false
      else
        var d := DrawOf(id);
        d.status == ACTIVE && (d.participantCount == MAX_PARTICIPANTS || now >= d.deadline)
    }

    // The prize and the refund that a wallet may still collect for one draw.
    function Claimable(c: Config, id: nat, who: Address): (nat, nat) {
      var d := DrawOf(id);
      (if d.status == WINNER_DECLARED && d.winner == who then d.winnerPrize else 0,
       if d.status == CANCELLED && Ticket(id, who) != 0 && who !in RefundedOf(id) then c.ticketPrice else 0)
    }
  }

  const NEW_LOT := Lot(0, 0, 0, 0, 0, map[], map[], map[], map[], map[])

  // What the configurator may name as the provider's lottery.
  datatype Target = ThisLottery | OtherContract | NoCode

  // `bound` and `elsewhere`: the provider's lottery is this one, or another contract. The tables
  // hold the requests of this lottery.
  datatype Vrf = Vrf(bound: bool, elsewhere: bool, requested: set<nat>, ready: set<nat>, delivered: set<nat>,
      words: map<nat, nat>)

  const NEW_VRF := Vrf(false, false, {}, {}, {}, map[])

  datatype Payload =
    | DrawStarted(drawId: nat, startTime: nat, deadline: nat, ticketPrice: nat, minimumParticipants: nat,
        inheritedRollover: nat)
    | TicketBought(drawId: nat, buyer: Address, ticketNumber: nat, amount: nat, participantCount: nat, pool: nat)
    | RandomnessRequested(drawId: nat, requestId: nat)
    | LotteryDrawn(drawId: nat, luckyNumber: nat, winner: Address, pool: nat, daoFee: nat, winnerPrize: nat,
        rollover: nat)
    | DrawCancelled(drawId: nat, participantCount: nat, refundableTotal: nat, rollover: nat)
    | PrizeClaimed(drawId: nat, winner: Address, amount: nat, dao: Address, daoFee: nat)
    | RefundClaimed(drawId: nat, participant: Address, amount: nat)

  // An emitted event with the timestamp of the block that emits it.
  datatype Emit = Emit(time: nat, payload: Payload)

  // A token movement that the lottery itself has made.
  datatype Payment = Payment(from: Address, to: Address, amount: nat)

  // `balance` is the token's balanceOf the lottery, `donated` what reached it by direct transfers,
  // `payments` what its own token calls have moved, `locked` the reentrancy guard.
  datatype World = World(locked: bool, lot: Lot, vrf: Vrf, balance: nat, donated: nat, payments: seq<Payment>,
      log: seq<Emit>)

  const GENESIS := World(false, NEW_LOT, NEW_VRF, 0, 0, [], [])

  // What a deployment finds: tokens that reached the address before count as gifts, and the
  // provider may already name another contract.
  function Deployed(balance: nat, elsewhere: bool): World {
    GENESIS.(vrf := NEW_VRF.(elsewhere := elsewhere), balance := balance, donated := balance)
  }

  // A token transfer: the calls made before and after the token moves the exact amount.
  datatype TokenCall = TokenCall(pre: seq<Call>, succeeds: bool, post: seq<Call>)

  datatype Call =
    | StartDraw(expectedPreviousId: nat)
    | BuyTicket(sender: Outsider, id: nat, pay: TokenCall)
    | PerformDraw(id: nat, during: seq<Call>, answer: Option<nat>)  // the coordinator's answer; None: it reverts
    | ClaimPrize(sender: Outsider, id: nat, toDao: TokenCall, toWinner: TokenCall)
    | ClaimRefund(sender: Outsider, id: nat, pay: TokenCall)
    | FinalizeDraw(id: nat)
    | Fulfill(sender: Outsider, requestId: nat, word: nat)
    // `runs`: the downstream call gets enough gas.
    | Callback(sender: Outsider, requestId: nat, values: seq<nat>, runs: bool)
    | Deliver(requestId: nat)
    | SetLottery(sender: Outsider, target: Target)
    | Donate(amount: nat)  // a direct token transfer to the lottery

  /******* The provider and settlement *******/

  // Math.mulDiv(pool - ticketPrice, 500, 10000): 5% of the profit, rounded down.
  function Fee(c: Config, pool: nat): (fee: nat)
    requires pool >= c.ticketPrice
    ensures fee <= pool
  {
    (pool - c.ticketPrice) * 500 / 10000
  }

  // fulfillRandomness as called by the provider.
  function Fulfilled(c: Config, now: nat, w: World, requestId: nat, word: nat): Result<World> {
    var l := w.lot;
    var id := l.RequestDraw(requestId);
    var d := l.DrawOf(id);
    if id == 0 || d.status != DRAWING then Ok(w)
    else
      var lucky := word % 10 + 1;
      var winner := l.OwnersOf(id)[lucky - 1];
      var d1 := d.(luckyNumber := lucky, winner := winner, finalizedAt := now % TWO_TO_THE_64);
      if winner == ZERO then
        if l.pendingRollover + d.pool > MAX_UINT256 then Revert(Panic)
        else
          var d2 := d1.(status := NO_WINNER);
          Ok(w.(lot := l.(draws := l.draws[id := d2], activePool := 0, pendingRollover := l.pendingRollover + d.pool),
                log := w.log + [Emit(now, LotteryDrawn(id, lucky, ZERO, d.pool, d.daoFee, d.winnerPrize, d.pool))]))
      else if d.pool < c.ticketPrice || l.outstandingPrizes + d.pool > MAX_UINT256 then Revert(Panic)
      else
        var fee := Fee(c, d.pool);
        var d2 := d1.(status := WINNER_DECLARED, daoFee := fee, winnerPrize := d.pool - fee);
        Ok(w.(lot := l.(draws := l.draws[id := d2], activePool := 0, outstandingPrizes := l.outstandingPrizes + d.pool),
              log := w.log + [Emit(now, LotteryDrawn(id, lucky, winner, d.pool, fee, d.pool - fee, 0))]))
  }

  function Delivered(c: Config, now: nat, w: World, requestId: nat): Result<World> {
    if requestId !in w.vrf.ready then Revert(InvalidRequest)
    else if requestId in w.vrf.delivered then Ok(w)
    else if !w.vrf.bound || requestId !in w.vrf.words then Revert(InvalidRequest)
    else
      match Fulfilled(c, now, w, requestId, w.vrf.words[requestId])
      case Revert(e) => Revert(e)
      case Ok(w1) => Ok(w1.(vrf := w1.vrf.(delivered := w1.vrf.delivered + {requestId})))
  }

  function CalledBack(c: Config, now: nat, w: World, requestId: nat, values: seq<nat>, runs: bool): World {
    if requestId !in w.vrf.requested || requestId in w.vrf.ready || |values| == 0 then w
    else
      var w1 := w.(vrf := w.vrf.(words := w.vrf.words[requestId := values[0]], ready := w.vrf.ready + {requestId}));
      match if runs && w.vrf.bound then Fulfilled(c, now, w1, requestId, values[0]) else Revert(CoordinatorFailed)
      case Revert(_) => w1
      case Ok(w2) => w2.(vrf := w2.vrf.(delivered := w2.vrf.delivered + {requestId}))
  }

  /******* The pieces of the guarded functions around their external calls *******/

  function Started(c: Config, now: nat, w: World): World {
    var l := w.lot;
    var id := l.currentDrawId + 1;
    var d := l.DrawOf(id).(id := id, startTime := now % TWO_TO_THE_64, deadline := (now + DURATION) % TWO_TO_THE_64,
                           inheritedRollover := l.pendingRollover, pool := l.pendingRollover);
    w.(lot := l.(currentDrawId := id, draws := l.draws[id := d], activePool := l.pendingRollover, pendingRollover := 0),
       log := w.log + [Emit(now,
           DrawStarted(id, d.startTime, d.deadline, c.ticketPrice, c.minimum, d.inheritedRollover))])
  }

  function BuyRefused(now: nat, w: World, sender: Address, id: nat): Option<Error> {
    var d := w.lot.DrawOf(id);
    if w.locked then Some(ReentrantCall)
    else if id == 0 || id != w.lot.currentDrawId then Some(InvalidDraw)
    else if d.status != ACTIVE || now >= d.deadline || d.participantCount >= MAX_PARTICIPANTS then Some(TicketsClosed)
    else if w.lot.Ticket(id, sender) != 0 then Some(AlreadyParticipated)
    else None
  }

  function Bought(c: Config, now: nat, w: World, sender: Address, id: nat): Result<World> {
    var l := w.lot;
    var d := l.DrawOf(id);
    var n := d.participantCount + 1;
    if n > POSITIONS || d.pool + c.ticketPrice > MAX_UINT256
      || l.activePool + c.ticketPrice > MAX_UINT256 then Revert(Panic)
    else
      var d1 := d.(participantCount := n, pool := d.pool + c.ticketPrice);
      Ok(w.(lot := l.(draws := l.draws[id := d1],
                      owners := l.owners[id := l.OwnersOf(id)[n - 1 := sender]],
                      ticketOf := l.ticketOf[id := l.TicketsOf(id)[sender := n]],
                      activePool := l.activePool + c.ticketPrice),
            log := w.log + [Emit(now, TicketBought(id, sender, n, c.ticketPrice, n, d1.pool))]))
  }

  function Cancelled(c: Config, now: nat, w: World, id: nat): Result<World> {
    var l := w.lot;
    var d := l.DrawOf(id);
    var refunds := d.participantCount * c.ticketPrice;
    if refunds > MAX_UINT256 || l.outstandingRefunds + refunds > MAX_UINT256
      || l.pendingRollover + d.inheritedRollover > MAX_UINT256
    then Revert(Panic)
    else
      var d1 := d.(status := CANCELLED, finalizedAt := now % TWO_TO_THE_64);
      Ok(w.(lot := l.(draws := l.draws[id := d1], activePool := 0,
                      outstandingRefunds := l.outstandingRefunds + refunds,
                      pendingRollover := l.pendingRollover + d.inheritedRollover),
            log := w.log + [Emit(now, DrawCancelled(id, d.participantCount, refunds, d.inheritedRollover))]))
  }

  // performDraw up to its call of the provider.
  function Requesting(w: World, id: nat): World {
    var d := w.lot.DrawOf(id);
    w.(locked := true, lot := w.lot.(draws := w.lot.draws[id := d.(status := DRAWING)], activePool := d.pool))
  }

  // requestRandomness after the coordinator answered, then the rest of performDraw.
  function Registered(now: nat, w: World, id: nat, requestId: nat): Result<World> {
    var l := w.lot;
    if requestId == 0 || l.RequestDraw(requestId) != 0 then Revert(InvalidState)
    else
      Ok(w.(locked := false,
            vrf := w.vrf.(requested := w.vrf.requested + {requestId}),
            lot := l.(draws := l.draws[id := l.DrawOf(id).(requestId := requestId)],
                requestDraw := l.requestDraw[requestId := id]),
            log := w.log + [Emit(now, RandomnessRequested(id, requestId))]))
  }

  function PrizeRefused(w: World, sender: Address, id: nat): Option<Error> {
    var d := w.lot.DrawOf(id);
    if w.locked then Some(ReentrantCall)
    else if d.status != WINNER_DECLARED || d.winner != sender then Some(NotClaimable)
    else if w.lot.outstandingPrizes < d.pool then Some(Panic)
    else None
  }

  // claimPrize up to its first token call.
  function PrizeReleased(w: World, id: nat): World
    requires w.lot.outstandingPrizes >= w.lot.DrawOf(id).pool
  {
    var d := w.lot.DrawOf(id);
    w.(locked := true, lot := w.lot.(draws := w.lot.draws[id := d.(status := COMPLETED)],
                                     outstandingPrizes := w.lot.outstandingPrizes - d.pool))
  }

  function PrizePaid(c: Config, now: nat, w: World, sender: Address, id: nat): World {
    var d := w.lot.DrawOf(id);
    w.(locked := false, log := w.log + [Emit(now, PrizeClaimed(id, sender, d.winnerPrize, c.dao, d.daoFee))])
  }

  function RefundRefused(c: Config, w: World, sender: Address, id: nat): Option<Error> {
    if w.locked then Some(ReentrantCall)
    else if w.lot.DrawOf(id).status != CANCELLED || w.lot.Ticket(id, sender) == 0
      || sender in w.lot.RefundedOf(id) then Some(NotClaimable)
    else if w.lot.outstandingRefunds < c.ticketPrice then Some(Panic)
    else None
  }

  // claimRefund up to its token call.
  function RefundReleased(c: Config, w: World, sender: Address, id: nat): World
    requires w.lot.outstandingRefunds >= c.ticketPrice
  {
    w.(locked := true, lot := w.lot.(refunded := w.lot.refunded[id := w.lot.RefundedOf(id) + {sender}],
                                     outstandingRefunds := w.lot.outstandingRefunds - c.ticketPrice))
  }

  function RefundPaid(c: Config, now: nat, w: World, sender: Address, id: nat): World {
    w.(locked := false, log := w.log + [Emit(now, RefundClaimed(id, sender, c.ticketPrice))])
  }

  /******* Whole calls *******/

  function Received(w: World, from: Address, amount: nat): World {
    w.(balance := w.balance + amount, payments := w.payments + [Payment(from, LOTTERY, amount)])
  }

  function Sent(w: World, to: Address, amount: nat): World
    requires w.balance >= amount
  {
    w.(balance := w.balance - amount, payments := w.payments + [Payment(LOTTERY, to, amount)])
  }

  // An exact-amount token: it moves `amount` or the transfer reverts, and no balance leaves uint256.
  function TokenIn(c: Config, now: nat, w: World, from: Address, pay: TokenCall, amount: nat): Result<World>
    decreases pay, 4
  {
    var w1 := RunAll(c, now, w, pay.pre);
    if !pay.succeeds || w1.balance + amount > MAX_UINT256 then Revert(TransferFailed)
    else Ok(RunAll(c, now, Received(w1, from, amount), pay.post))
  }

  function TokenOut(c: Config, now: nat, w: World, to: Address, pay: TokenCall, amount: nat): Result<World>
    decreases pay, 4
  {
    var w1 := RunAll(c, now, w, pay.pre);
    if !pay.succeeds || w1.balance < amount then Revert(TransferFailed)
    else Ok(RunAll(c, now, Sent(w1, to, amount), pay.post))
  }

  function TryStart(c: Config, now: nat, w: World, expectedPreviousId: nat): Result<World> {
    if w.locked then Revert(ReentrantCall)
    else if expectedPreviousId != w.lot.currentDrawId then Revert(InvalidDraw)
    else if !w.lot.CanStartDraw() then Revert(InvalidState)
    else if w.lot.currentDrawId + 1 > MAX_UINT256 then Revert(Panic)
    else Ok(Started(c, now, w))
  }

  function TryBuy(c: Config, now: nat, w: World, sender: Outsider, id: nat, pay: TokenCall): Result<World>
    decreases BuyTicket(sender, id, pay), 0
  {
    var refused := BuyRefused(now, w, sender, id);
    if refused.Some? then Revert(refused.value)
    else
      match TokenIn(c, now, w.(locked := true), sender, pay, c.ticketPrice)
      case Revert(e) => Revert(e)
      case Ok(w1) =>
        if w.balance + c.ticketPrice > MAX_UINT256 then Revert(Panic)
        else if w1.balance != w.balance + c.ticketPrice then Revert(WrongPaymentAmount)
        else Bought(c, now, w1.(locked := false), sender, id)
  }

  function TryPerform(c: Config, now: nat, w: World, id: nat, during: seq<Call>, answer: Option<nat>): Result<World>
    decreases PerformDraw(id, during, answer), 0
  {
    if w.locked then Revert(ReentrantCall)
    else if !w.lot.CanPerformDraw(id, now) then Revert(NotEligible)
    else if w.lot.DrawOf(id).participantCount < c.minimum then Cancelled(c, now, w, id)
    else if !w.vrf.bound then Revert(InvalidRequest)
    else
      var w1 := RunAll(c, now, Requesting(w, id), during);
      if answer.None? then Revert(CoordinatorFailed)
      else Registered(now, w1, id, answer.value)
  }

  function TryPrize(c: Config, now: nat, w: World, sender: Outsider, id: nat, toDao: TokenCall,
                    toWinner: TokenCall): Result<World>
    decreases ClaimPrize(sender, id, toDao, toWinner), 0
  {
    var refused := PrizeRefused(w, sender, id);
    if refused.Some? then Revert(refused.value)
    else
      var d := w.lot.DrawOf(id);
      var w1 := PrizeReleased(w, id);
      match if d.daoFee != 0 then TokenOut(c, now, w1, c.dao, toDao, d.daoFee) else Ok(w1)
      case Revert(e) => Revert(e)
      case Ok(w2) =>
        match TokenOut(c, now, w2, sender, toWinner, w2.lot.DrawOf(id).winnerPrize)
        case Revert(e) => Revert(e)
        case Ok(w3) => Ok(PrizePaid(c, now, w3, sender, id))
  }

  function TryRefund(c: Config, now: nat, w: World, sender: Outsider, id: nat, pay: TokenCall): Result<World>
    decreases ClaimRefund(sender, id, pay), 0
  {
    var refused := RefundRefused(c, w, sender, id);
    if refused.Some? then Revert(refused.value)
    else
      match TokenOut(c, now, RefundReleased(c, w, sender, id), sender, pay, c.ticketPrice)
      case Revert(e) => Revert(e)
      case Ok(w1) => Ok(RefundPaid(c, now, w1, sender, id))
  }

  function TryFinalize(c: Config, now: nat, w: World, id: nat): Result<World> {
    if id == 0 || w.lot.DrawOf(id).status != DRAWING then Revert(InvalidState)
    else Delivered(c, now, w, w.lot.DrawOf(id).requestId)
  }

  function Try(c: Config, now: nat, w: World, call: Call): Result<World>
    decreases call, 1
  {
    match call
    case StartDraw(expected) => TryStart(c, now, w, expected)
    case BuyTicket(sender, id, pay) => TryBuy(c, now, w, sender, id, pay)
    case PerformDraw(id, during, answer) => TryPerform(c, now, w, id, during, answer)
    case ClaimPrize(sender, id, toDao, toWinner) => TryPrize(c, now, w, sender, id, toDao, toWinner)
    case ClaimRefund(sender, id, pay) => TryRefund(c, now, w, sender, id, pay)
    case FinalizeDraw(id) => TryFinalize(c, now, w, id)
    case Fulfill(_, _, _) => Revert(Unauthorized)
    case Callback(sender, requestId, values, runs) =>
      if sender != COORDINATOR then Revert(OnlyCoordinatorCanFulfill)
      else Ok(CalledBack(c, now, w, requestId, values, runs))
    case Deliver(requestId) => Delivered(c, now, w, requestId)
    case SetLottery(sender, target) =>
      if sender != c.configurator then Revert(OnlyConfigurator)
      else if w.vrf.bound || w.vrf.elsewhere || target.NoCode? then Revert(LotteryAlreadySet)
      else Ok(w.(vrf := w.vrf.(bound := target.ThisLottery?, elsewhere := target.OtherContract?)))
    case Donate(amount) =>
      if w.balance + amount > MAX_UINT256 then Revert(TransferFailed)
      else Ok(w.(balance := w.balance + amount, donated := w.donated + amount))
  }

  // A reverted call leaves no trace.
  function Exec(c: Config, now: nat, w: World, call: Call): World
    decreases call, 2
  {
    match Try(c, now, w, call)
    case Ok(w1) => w1
    case Revert(_) => w
  }

  function RunAll(c: Config, now: nat, w: World, calls: seq<Call>): World
    decreases calls, 3
  {
    if calls == [] then w else RunAll(c, now, Exec(c, now, w, calls[0]), calls[1..])
  }

  /******* Runs *******/

  datatype Tx = Tx(now: nat, call: Call)

  function Run(c: Config, w: World, txs: seq<Tx>): World
    decreases |txs|
  {
    if txs == [] then w else Run(c, Exec(c, txs[0].now, w, txs[0].call), txs[1..])
  }

  ghost predicate ValidTimes(txs: seq<Tx>) {
    forall i :: 0 <= i < |txs| ==> ValidTime(txs[i].now)
  }
}
