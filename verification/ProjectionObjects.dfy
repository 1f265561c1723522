/** The reducer as it runs: it updates a draw record and its ticket array in place. */
module ProjectionObjects {
  import opened Basics
  import opened Contract
  import opened Projection

  class DrawRecord {
    var id: nat
    var status: Status
    var startTime: nat
    var deadline: nat
    var finalizedAt: Option<nat>
    var ticketPrice: nat
    var minimumParticipants: int
    var participantCount: int
    var luckyNumber: Option<nat>
    var winner: Option<Address>
    var pool: nat
    var inheritedRollover: nat
    var rollover: nat
    var daoFee: nat
    var winnerPrize: nat
    var prizeClaimed: bool
    var daoFeePaid: nat
    var requestID: Option<nat>
    const tickets: array<Ticket>
    var remainingSeconds: nat
    var canPerformDraw: bool

    function Value(): View
      requires tickets.Length == POSITIONS
      reads this, tickets
    {
      View(id, status, startTime, deadline, finalizedAt, ticketPrice, minimumParticipants, participantCount,
           luckyNumber, winner, pool, inheritedRollover, rollover, daoFee, winnerPrize, prizeClaimed, daoFeePaid,
           requestID, tickets[..],
           remainingSeconds, canPerformDraw)
    }

    // A record read back from its stored body.
    constructor (v: View)
      ensures tickets.Length == POSITIONS && fresh(tickets) && Value() == v
    {
      id, status, startTime, deadline, finalizedAt := v.id, v.status, v.startTime, v.deadline, v.finalizedAt;
      ticketPrice, minimumParticipants, participantCount := v.ticketPrice, v.minimumParticipants, v.participantCount;
      luckyNumber, winner, pool, inheritedRollover, rollover := v.luckyNumber, v.winner, v.pool, v.inheritedRollover,
          v.rollover;
      daoFee, winnerPrize, prizeClaimed, daoFeePaid, requestID := v.daoFee, v.winnerPrize, v.prizeClaimed,
          v.daoFeePaid, v.requestID;
      remainingSeconds, canPerformDraw := v.remainingSeconds, v.canPerformDraw;
      tickets := new Ticket[POSITIONS](i requires 0 <= i < POSITIONS => v.tickets[i]);
      new;
      assert tickets[..] == v.tickets;
    }

    // A record for a round that has just started.
    constructor Started(p: Payload)
      requires p.DrawStarted?
      ensures tickets.Length == POSITIONS && fresh(tickets)
      ensures Value() == View(p.drawId, ACTIVE, p.startTime, p.deadline, None, p.ticketPrice,
                              AsInt64(p.minimumParticipants), 0, None, None, p.inheritedRollover,
                              p.inheritedRollover, 0, 0, 0, false, 0, None, EMPTY_BOARD, 0, false)
    {
      id, status, startTime, deadline, finalizedAt := p.drawId, ACTIVE, p.startTime, p.deadline, None;
      ticketPrice, minimumParticipants, participantCount := p.ticketPrice, AsInt64(p.minimumParticipants), 0;
      luckyNumber, winner, pool, inheritedRollover, rollover := None, None, p.inheritedRollover, p.inheritedRollover, 0;
      daoFee, winnerPrize, prizeClaimed, daoFeePaid, requestID := 0, 0, false, 0, None;
      remainingSeconds, canPerformDraw := 0, false;
      tickets := new Ticket[POSITIONS](_ => Ticket(0, None, false));
      new;
      for i := 0 to POSITIONS
        modifies tickets
        invariant forall k :: 0 <= k < POSITIONS ==>
          tickets[k] == (if k < i then Ticket(k + 1, None, false) else Ticket(0, None, false))
      {
        tickets[i] := tickets[i].(number := i + 1);
      }
      assert tickets[..] == EMPTY_BOARD;
    }

    method Refresh(now: nat)
      requires tickets.Length == POSITIONS
      modifies this
      ensures Value() == Refreshed(old(Value()), now)
    {
      remainingSeconds := 0;
      if status == ACTIVE && now < deadline {
        remainingSeconds := deadline - now;
      }
      canPerformDraw := status == ACTIVE && (participantCount == 5 || now >= deadline);
    }

    method TicketBought(buyer: Address, n: nat, count: nat, newPool: nat) returns (ok: bool)
      requires tickets.Length == POSITIONS
      modifies this, tickets
      ensures
        var bad := n < 1 || n > 10 || !FitsUint64(count) || status != ACTIVE || old(tickets[n - 1].wallet.Some?)
          || AsInt64(count) != old(participantCount) + 1
          || (exists k :: 0 <= k < POSITIONS && old(Holds(tickets[k], buyer)));
        && ok == !bad
        && (ok ==>
          var sold := old(tickets[..])[n - 1 := old(tickets[n - 1]).(wallet := Some(buyer))];
          Value() == old(Value()).(tickets := sold, participantCount := AsInt64(count), pool := newPool))
        && (!ok ==> Value() == old(Value()))
    {
      if n < 1 || n > 10 || !FitsUint64(count) { return false; }
      if status != ACTIVE || tickets[n - 1].wallet.Some? || AsInt64(count) != participantCount + 1 { return false; }
      var i := 0;
      while i < tickets.Length
        invariant 0 <= i <= tickets.Length
        invariant forall k :: 0 <= k < i ==> !Holds(tickets[k], buyer)
      {
        if tickets[i].wallet.Some? && tickets[i].wallet.value == buyer {
          assert Holds(tickets[i], buyer);
          return false;
        }
        i := i + 1;
      }
      tickets[n - 1] := tickets[n - 1].(wallet := Some(buyer));
      participantCount := AsInt64(count);
      pool := newPool;
      ok := true;
    }

    method RefundClaimed(participant: Address) returns (found: bool)
      requires tickets.Length == POSITIONS
      modifies tickets
      ensures
        var k := RefundPosition(old(tickets[..]), participant);
        && found == (k < POSITIONS)
        && (found ==> tickets[..] == old(tickets[..])[k := old(tickets[..])[k].(refunded := true)])
        && (!found ==> tickets[..] == old(tickets[..]))
    {
      found := false;
      var i := 0;
      while i < tickets.Length && !found
        invariant 0 <= i <= tickets.Length
        invariant !found ==> tickets[..] == old(tickets[..])
        invariant !found ==> RefundPosition(old(tickets[..]), participant) == i + RefundPosition(old(tickets[..])[i..],
          participant)
        invariant found ==>
          var k := RefundPosition(old(tickets[..]), participant);
          k < POSITIONS && tickets[..] == old(tickets[..])[k := old(tickets[..])[k].(refunded := true)]
        decreases tickets.Length - i, !found
      {
        ghost var rest := old(tickets[..])[i..];
        assert rest[0] == tickets[i] && rest[1..] == old(tickets[..])[i + 1..];
        if tickets[i].wallet.Some? && tickets[i].wallet.value == participant && !tickets[i].refunded {
          tickets[i] := tickets[i].(refunded := true);
          found := true;
        } else {
          i := i + 1;
        }
      }
    }

    method LotteryDrawn(now: nat, lucky: nat, drawn: Address, newPool: nat, fee: nat, prize: nat, carried: nat)
      returns (ok: bool)
      requires tickets.Length == POSITIONS
      modifies `luckyNumber, `pool, `daoFee, `winnerPrize, `rollover, `finalizedAt, `status, `winner
      ensures ok == (old(status == DRAWING) && 1 <= lucky <= 10)
      ensures Value() == if !ok then old(Value()) else old(Value()).(luckyNumber := Some(lucky), pool := newPool,
        daoFee := fee, winnerPrize := prize, rollover := carried, finalizedAt := Some(now),
        status := if drawn == ZERO then NO_WINNER else WINNER_DECLARED,
        winner := if drawn == ZERO then old(winner) else Some(drawn))
    {
      ok := status == DRAWING && 1 <= lucky <= 10;
      if !ok { return; }
      WriteAmounts(lucky, newPool, fee, prize);
      WriteOutcome(now, drawn, carried);
    }

    method WriteAmounts(lucky: nat, newPool: nat, fee: nat, prize: nat)
      requires tickets.Length == POSITIONS
      modifies `luckyNumber, `pool, `daoFee, `winnerPrize
      ensures Value() == old(Value()).(luckyNumber := Some(lucky), pool := newPool, daoFee := fee, winnerPrize := prize)
    {
      luckyNumber, pool, daoFee, winnerPrize := Some(lucky), newPool, fee, prize;
    }

    method WriteOutcome(now: nat, drawn: Address, carried: nat)
      requires tickets.Length == POSITIONS
      modifies `rollover, `finalizedAt, `status, `winner
      ensures Value() == old(Value()).(rollover := carried, finalizedAt := Some(now),
        status := if drawn == ZERO then NO_WINNER else WINNER_DECLARED,
        winner := if drawn == ZERO then old(winner) else Some(drawn))
    {
      rollover, finalizedAt := carried, Some(now);
      if drawn == ZERO {
        status := NO_WINNER;
      } else {
        status, winner := WINNER_DECLARED, Some(drawn);
      }
    }

    method RandomnessRequested(requestId: nat) returns (ok: bool)
      requires tickets.Length == POSITIONS
      modifies `status, `requestID
      ensures ok == old(status == ACTIVE)
      ensures Value() == if ok then old(Value()).(status := DRAWING, requestID := Some(requestId)) else old(Value())
    {
      ok := status == ACTIVE;
      if ok {
        status, requestID := DRAWING, Some(requestId);
      }
    }

    method DrawCancelled(now: nat, carried: nat) returns (ok: bool)
      requires tickets.Length == POSITIONS
      modifies `status, `rollover, `finalizedAt
      ensures ok == old(status == ACTIVE)
      ensures Value() == if ok then old(Value()).(status := CANCELLED, rollover := carried,
        finalizedAt := Some(now)) else old(Value())
    {
      ok := status == ACTIVE;
      if ok {
        status, rollover, finalizedAt := CANCELLED, carried, Some(now);
      }
    }

    method PrizeClaimed(claimant: Address, amount: nat, fee: nat) returns (ok: bool)
      requires tickets.Length == POSITIONS
      modifies `status, `prizeClaimed, `daoFeePaid
      ensures ok == old(status == WINNER_DECLARED && winner == Some(claimant) && winnerPrize == amount && daoFee == fee)
      ensures Value() == if ok then old(Value()).(status := COMPLETED, prizeClaimed := true,
        daoFeePaid := fee) else old(Value())
    {
      ok := status == WINNER_DECLARED && winner == Some(claimant) && winnerPrize == amount && daoFee == fee;
      if ok {
        status, prizeClaimed, daoFeePaid := COMPLETED, true, fee;
      }
    }

    // The events that only move the draw to another status.
    method ApplyStatus(e: Emit) returns (ok: bool)
      requires tickets.Length == POSITIONS
      requires e.payload.RandomnessRequested? || e.payload.LotteryDrawn? || e.payload.DrawCancelled?
        || e.payload.PrizeClaimed?
      modifies this
      ensures match ApplyTo(old(Value()), e)
        case Revert(_) => !ok
        case Ok(v) => ok && Value() == v
    {
      hide AsInt64, RefundPosition, FitsUint64, Holds;
      match e.payload {
        case RandomnessRequested(_, requestId) => ok := RandomnessRequested(requestId);
        case LotteryDrawn(_, lucky, drawn, newPool, fee, prize, carried) =>
          ok := LotteryDrawn(e.time, lucky, drawn, newPool, fee, prize, carried);
        case DrawCancelled(_, _, _, carried) => ok := DrawCancelled(e.time, carried);
        case PrizeClaimed(_, claimant, amount, _, fee) => ok := PrizeClaimed(claimant, amount, fee);
      }
    }

    method ApplyTransition(e: Emit) returns (ok: bool)
      requires tickets.Length == POSITIONS && !e.payload.DrawStarted?
      modifies this, tickets
      ensures match ApplyTo(old(Value()), e)
        case Revert(_) => !ok
        case Ok(v) => ok && Value() == v
    {
      hide AsInt64, RefundPosition, FitsUint64, Holds;
      if e.payload.TicketBought? {
        ok := TicketBought(e.payload.buyer, e.payload.ticketNumber, e.payload.participantCount, e.payload.pool);
      } else if e.payload.RefundClaimed? {
        ok := false;
        if status == CANCELLED && e.payload.amount == ticketPrice {
          ok := RefundClaimed(e.payload.participant);
        }
      } else {
        ok := ApplyStatus(e);
      }
    }
  }

  method ApplyEvent(d: DrawRecord?, e: Emit) returns (r: Result<DrawRecord>)
    requires d != null ==> d.tickets.Length == POSITIONS
    modifies d, if d != null then {d.tickets} else {}
    ensures match Apply(if d == null then None else Some(old(d.Value())), e)
      case Revert(x) => r == Revert(x)
      case Ok(v) =>
        && r.Ok? && r.value.tickets.Length == POSITIONS && r.value.Value() == v
        && (r.value == d || fresh(r.value))
  {
    hide ApplyTo;
    var p := e.payload;
    if p.DrawStarted? {
      if d != null || !FitsUint64(p.startTime) || !FitsUint64(p.deadline)
        || !FitsUint64(p.minimumParticipants) { return Revert(InvalidEvent); }
      var started := new DrawRecord.Started(p);
      return Ok(started);
    }
    if d == null || d.id != p.drawId { return Revert(InvalidEvent); }
    RejectsWith(d.Value(), e);
    var ok := d.ApplyTransition(e);
    r := if ok then Ok(d) else Revert(InvalidEvent);
  }

  lemma RejectsWith(d: View, e: Emit)
    requires !e.payload.DrawStarted?
    ensures ApplyTo(d, e).Revert? ==> ApplyTo(d, e) == Revert(InvalidEvent)
  {}
}
