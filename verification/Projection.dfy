/**
 The indexer's record of one draw and the reducer that folds the contract's events into it; and
 the record that a reader of the contract itself builds.
 */
module Projection {
  import opened Basics
  import opened Contract

  datatype Ticket = Ticket(number: nat, wallet: Option<Address>, refunded: bool)

  // The ten positions of a draw.
  type Board = s: seq<Ticket> | |s| == POSITIONS witness EMPTY_BOARD

  const EMPTY_BOARD: seq<Ticket> := [
    Ticket(1, None, false), Ticket(2, None, false), Ticket(3, None, false), Ticket(4, None, false),
    Ticket(5, None, false), Ticket(6, None, false), Ticket(7, None, false), Ticket(8, None, false),
    Ticket(9, None, false), Ticket(10, None, false)
  ]

  datatype View = View(
    id: nat, status: Status, startTime: nat, deadline: nat, finalizedAt: Option<nat>,
    ticketPrice: nat, minimumParticipants: int, participantCount: int,
    luckyNumber: Option<nat>, winner: Option<Address>,
    pool: nat, inheritedRollover: nat, rollover: nat, daoFee: nat, winnerPrize: nat,
    prizeClaimed: bool, daoFeePaid: nat, requestID: Option<nat>, tickets: Board,
    remainingSeconds: nat, canPerformDraw: bool)

  function Refreshed(v: View, now: nat): View {
    v.(remainingSeconds := if v.status == ACTIVE && now < v.deadline then v.deadline - now else 0,
       canPerformDraw := v.status == ACTIVE && (v.participantCount == 5 || now >= v.deadline))
  }

  // The value of a decimal string fits uint64, and Go's conversion of it to int.
  predicate FitsUint64(n: nat) {
    n < TWO_TO_THE_64
  }

  function AsInt64(n: nat): int {
    if n < TWO_TO_THE_64 / 2 then n else n - TWO_TO_THE_64
  }

  function Holds(t: Ticket, who: Address): bool {
    t.wallet == Some(who)
  }

  // The first position that holds an unrefunded ticket of `who`; POSITIONS if there is none.
  function RefundPosition(tickets: seq<Ticket>, who: Address): (k: nat)
    ensures k <= |tickets|
  {
    if tickets == [] || (Holds(tickets[0], who) && !tickets[0].refunded) then 0
    else 1 + RefundPosition(tickets[1..], who)
  }

  lemma {:induction false} RefundFound(tickets: seq<Ticket>, who: Address, k: nat)
    requires k < |tickets| && Holds(tickets[k], who) && !tickets[k].refunded
    requires forall j :: 0 <= j < k ==> !Holds(tickets[j], who)
    ensures RefundPosition(tickets, who) == k
  {
    if k > 0 {
      RefundFound(tickets[1..], who, k - 1);
    }
  }

  function Apply(d: Option<View>, e: Emit): Result<View> {
    var p := e.payload;
    if p.DrawStarted? then
      if d.Some? || !FitsUint64(p.startTime) || !FitsUint64(p.deadline)
        || !FitsUint64(p.minimumParticipants) then Revert(InvalidEvent)
      else Ok(View(p.drawId, ACTIVE, p.startTime, p.deadline, None, p.ticketPrice, AsInt64(p.minimumParticipants), 0,
                   None, None, p.inheritedRollover, p.inheritedRollover, 0, 0, 0, false, 0, None,
                   EMPTY_BOARD, 0, false))
    else if d.None? || d.value.id != p.drawId then Revert(InvalidEvent)
    else ApplyTo(d.value, e)
  }

  function ApplyTo(d: View, e: Emit): Result<View>
    requires !e.payload.DrawStarted?
  {
    match e.payload
    case TicketBought(_, buyer, n, _, count, pool) =>
      if n < 1 || n > 10 || !FitsUint64(count) then Revert(InvalidEvent)
      else if d.status != ACTIVE || d.tickets[n - 1].wallet.Some?
        || AsInt64(count) != d.participantCount + 1 then Revert(InvalidEvent)
      else if exists k :: 0 <= k < POSITIONS && Holds(d.tickets[k], buyer) then Revert(InvalidEvent)
      else Ok(d.(tickets := d.tickets[n - 1 := d.tickets[n - 1].(wallet := Some(buyer))],
        participantCount := AsInt64(count), pool := pool))
    case RandomnessRequested(_, requestId) =>
      if d.status != ACTIVE then Revert(InvalidEvent)
      else Ok(d.(status := DRAWING, requestID := Some(requestId)))
    case LotteryDrawn(_, lucky, winner, pool, daoFee, winnerPrize, rollover) =>
      if d.status != DRAWING || lucky < 1 || lucky > 10 then Revert(InvalidEvent)
      else
        var d1 := d.(luckyNumber := Some(lucky), pool := pool, daoFee := daoFee, winnerPrize := winnerPrize,
                     rollover := rollover, finalizedAt := Some(e.time));
        if winner == ZERO then Ok(d1.(status := NO_WINNER))
        else Ok(d1.(status := WINNER_DECLARED, winner := Some(winner)))
    case DrawCancelled(_, _, _, rollover) =>
      if d.status != ACTIVE then Revert(InvalidEvent)
      else Ok(d.(status := CANCELLED, rollover := rollover, finalizedAt := Some(e.time)))
    case PrizeClaimed(_, winner, amount, _, daoFee) =>
      if d.status != WINNER_DECLARED || d.winner != Some(winner) || d.winnerPrize != amount
        || d.daoFee != daoFee then Revert(InvalidEvent)
      else Ok(d.(status := COMPLETED, prizeClaimed := true, daoFeePaid := daoFee))
    case RefundClaimed(_, participant, amount) =>
      if d.status != CANCELLED || amount != d.ticketPrice then Revert(InvalidEvent)
      else
        var k := RefundPosition(d.tickets, participant);
        if k == POSITIONS then Revert(InvalidEvent)
        else Ok(d.(tickets := d.tickets[k := d.tickets[k].(refunded := true)]))
  }

  /******* Reading the contract directly *******/

  // A position as the contract's owner and refund tables show it.
  function ChainTicket(l: Lot, id: nat, k: nat): Ticket
    requires k < POSITIONS
  {
    var owner := l.OwnersOf(id)[k];
    Ticket(k + 1, if owner == ZERO then None else Some(owner),
           owner != ZERO && l.DrawOf(id).status == CANCELLED && owner in l.RefundedOf(id))
  }

  function ChainTickets(l: Lot, id: nat): Board {
    seq(POSITIONS, k requires 0 <= k < POSITIONS => ChainTicket(l, id, k))
  }

  function OrNull(n: nat): Option<nat> {
    if n == 0 then None else Some(n)
  }

  function ChainDraw(c: Config, l: Lot, id: nat, now: nat): View {
    var d := l.DrawOf(id);
    View(d.id, d.status, d.startTime, d.deadline, OrNull(d.finalizedAt), c.ticketPrice, c.minimum, d.participantCount,
         OrNull(d.luckyNumber), if d.winner == ZERO then None else Some(d.winner), d.pool, d.inheritedRollover,
         if d.status == NO_WINNER then d.pool else if d.status == CANCELLED then d.inheritedRollover else 0,
         d.daoFee, d.winnerPrize, d.status == COMPLETED, if d.status == COMPLETED then d.daoFee else 0,
         OrNull(d.requestId), ChainTickets(l, id),
         if d.deadline > now then d.deadline - now else 0,
         d.status == ACTIVE && (d.participantCount == 5 || now >= d.deadline))
  }

  /******* Folding a log *******/

  type Draws = map<nat, View>

  function Find(draws: Draws, id: nat): Option<View> {
    if id in draws then Some(draws[id]) else None
  }

  function Step(draws: Draws, e: Emit): Result<Draws> {
    match Apply(Find(draws, e.payload.drawId), e)
    case Ok(v) => Ok(draws[e.payload.drawId := v])
    case Revert(x) => Revert(x)
  }

  function Fold(log: seq<Emit>): Result<Draws> {
    if log == [] then Ok(map[])
    else
      match Fold(log[..|log| - 1])
      case Ok(draws) => Step(draws, log[|log| - 1])
      case Revert(x) => Revert(x)
  }
}
