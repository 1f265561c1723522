/** Which events the reducer accepts, and what holds of every record it can produce from any log. */
module ReducerOutcomes {
  import opened Basics
  import opened Contract
  import opened Projection

  /******* Acceptance *******/

  // A record accepts an event exactly if it is of the same draw and at the event's stage, and what
  // the event says of tickets, prize and price agrees with the record.
  ghost predicate Acceptable(d: View, p: Payload) {
    match p
    case DrawStarted(_, _, _, _, _, _) => false
    case TicketBought(id, buyer, n, _, count, _) =>
      && id == d.id && d.status == ACTIVE && 1 <= n <= 10 && count < 0x1_0000_0000_0000_0000
      && (if count < 0x8000_0000_0000_0000 then count else count - 0x1_0000_0000_0000_0000) == d.participantCount + 1
      && d.tickets[n - 1].wallet == None
      && (forall t :: t in d.tickets ==> t.wallet != Some(buyer))
    case RandomnessRequested(id, _) => id == d.id && d.status == ACTIVE
    case DrawCancelled(id, _, _, _) => id == d.id && d.status == ACTIVE
    case LotteryDrawn(id, lucky, _, _, _, _, _) => id == d.id && d.status == DRAWING && 1 <= lucky <= 10
    case PrizeClaimed(id, winner, amount, _, fee) =>
      id == d.id && d.status == WINNER_DECLARED && d.winner == Some(winner) && d.winnerPrize == amount
          && d.daoFee == fee
    case RefundClaimed(id, who, amount) =>
      && id == d.id && d.status == CANCELLED && amount == d.ticketPrice
      && (exists t :: t in d.tickets && t.wallet == Some(who) && !t.refunded)
  }

  lemma AcceptsExactly(d: Option<View>, e: Emit)
    ensures Apply(d, e).Ok? <==>
      if e.payload.DrawStarted? then
        && d == None && e.payload.startTime < 0x1_0000_0000_0000_0000
        && e.payload.deadline < 0x1_0000_0000_0000_0000 && e.payload.minimumParticipants < 0x1_0000_0000_0000_0000
      else d.Some? && Acceptable(d.value, e.payload)
  {
    if d.Some? && !e.payload.DrawStarted? {
      match e.payload
      case TicketBought(_, buyer, _, _, _, _) => NobodyHolds(d.value.tickets, buyer);
      case RefundClaimed(_, who, _) => RefundableIff(d.value.tickets, who);
      case _ =>
    }
  }

  lemma NobodyHolds(tickets: Board, who: Address)
    ensures (exists k :: 0 <= k < POSITIONS && Holds(tickets[k], who)) <==>
      !(forall t :: t in tickets ==> t.wallet != Some(who))
  {
    if k :| 0 <= k < POSITIONS && Holds(tickets[k], who) {
      assert tickets[k] in tickets;
    }
    if t :| t in tickets && t.wallet == Some(who) {
      var k :| 0 <= k < |tickets| && tickets[k] == t;
      assert Holds(tickets[k], who);
    }
  }

  lemma {:induction false} RefundableIff(tickets: seq<Ticket>, who: Address)
    ensures RefundPosition(tickets, who) < |tickets| <==>
      exists t :: t in tickets && t.wallet == Some(who) && !t.refunded
  {
    if tickets != [] {
      RefundableIff(tickets[1..], who);
      assert tickets[0] in tickets && forall t :: t in tickets[1..] ==> t in tickets;
      assert forall t :: t in tickets ==> t == tickets[0] || t in tickets[1..];
    }
  }

  /******* Every record *******/

  function Held(tickets: seq<Ticket>): nat {
    if tickets == [] then 0 else Held(tickets[..|tickets| - 1]) + (if tickets[|tickets| - 1].wallet.Some? then 1 else 0)
  }

  // The count is that of the held positions, and each field is set at its stage and not before.
  ghost predicate RecordOk(v: View) {
    && v.participantCount == Held(v.tickets)
    && (v.requestID.Some? <==> v.status != ACTIVE && v.status != CANCELLED)
    && (v.finalizedAt.Some? <==> Final(v.status))
    && (v.luckyNumber.Some? <==> v.status in {WINNER_DECLARED, COMPLETED, NO_WINNER})
    && (v.luckyNumber.Some? ==> 1 <= v.luckyNumber.value <= 10)
    && (v.winner.Some? <==> v.status in {WINNER_DECLARED, COMPLETED})
    && (v.prizeClaimed <==> v.status == COMPLETED)
    && v.daoFeePaid == (if v.status == COMPLETED then v.daoFee else 0)
    && v.remainingSeconds == 0 && !v.canPerformDraw
  }

  lemma {:induction false} HeldUpdate(tickets: seq<Ticket>, k: nat, t: Ticket)
    requires k < |tickets|
    ensures Held(tickets[k := t]) ==
      Held(tickets) + (if t.wallet.Some? then 1 else 0) - (if tickets[k].wallet.Some? then 1 else 0)
    decreases |tickets|
  {
    var last := |tickets| - 1;
    if k < last {
      HeldUpdate(tickets[..last], k, t);
      assert tickets[k := t][..last] == tickets[..last][k := t];
    } else {
      assert tickets[k := t][..last] == tickets[..last];
    }
  }

  lemma ApplyRecord(d: Option<View>, e: Emit)
    requires Apply(d, e).Ok? && (d.Some? ==> RecordOk(d.value))
    ensures RecordOk(Apply(d, e).value)
  {
    if e.payload.DrawStarted? {
      NothingHeld();
    } else {
      var v := d.value;
      match e.payload
      case TicketBought(_, buyer, n, _, _, _) =>
        HeldUpdate(v.tickets, n - 1, v.tickets[n - 1].(wallet := Some(buyer)));
      case RefundClaimed(_, who, _) =>
        var k := RefundPosition(v.tickets, who);
        HeldUpdate(v.tickets, k, v.tickets[k].(refunded := true));
      case _ =>
    }
  }

  lemma NothingHeld()
    ensures Held(EMPTY_BOARD) == 0
  {
    assert forall k :: 0 <= k < |EMPTY_BOARD| ==> EMPTY_BOARD[k].wallet == None;
    NoneHeld(EMPTY_BOARD);
  }

  lemma {:induction false} NoneHeld(tickets: seq<Ticket>)
    requires forall k :: 0 <= k < |tickets| ==> tickets[k].wallet == None
    ensures Held(tickets) == 0
  {
    if tickets != [] {
      NoneHeld(tickets[..|tickets| - 1]);
    }
  }

  // Whatever log the reducer accepts, made by the contract or not, every record is well-formed.
  lemma {:induction false} FoldedRecords(log: seq<Emit>, id: nat)
    requires Fold(log).Ok? && id in Fold(log).value
    ensures RecordOk(Fold(log).value[id])
    decreases |log|
  {
    hide Apply, RecordOk;
    if log != [] {
      var rest, e := log[..|log| - 1], log[|log| - 1];
      var before := Find(Fold(rest).value, e.payload.drawId);
      if before.Some? {
        FoldedRecords(rest, e.payload.drawId);
      }
      ApplyRecord(before, e);
      if id != e.payload.drawId {
        FoldedRecords(rest, id);
      }
    }
  }
}
