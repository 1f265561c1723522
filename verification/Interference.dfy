/** What others can do while a guarded call is running: settle rounds, give tokens, name a lottery. */
module Interference {
  import opened Basics
  import opened Contract
  import opened Invariants
  import opened Preservation

  // A round that waits may be settled; its tickets and refunds, and every other round, stay.
  ghost predicate SettledAtMost(r: Round, r1: Round) {
    && r1.owners == r.owners && r1.tickets == r.tickets && r1.refunded == r.refunded
    && (r.d.status != DRAWING ==> r1.d == r.d)
    && (r.d.status == DRAWING ==> r1.d.status in {DRAWING, WINNER_DECLARED, NO_WINNER})
  }

  ghost predicate OnlySettles(w: World, w1: World) {
    && w1.lot.currentDrawId == w.lot.currentDrawId && w1.locked == w.locked
    && w.log <= w1.log && (forall k :: |w.log| <= k < |w1.log| ==> w1.log[k].payload.LotteryDrawn?)
    && (forall i: nat :: SettledAtMost(RoundAt(w.lot, i), RoundAt(w1.lot, i)))
  }

  // The tokens at the address that nobody gave.
  function Own(w: World): int {
    w.balance - w.donated
  }

  lemma OnlySettlesReflexive(w: World)
    ensures OnlySettles(w, w)
  {}

  lemma OnlySettlesTransitive(w: World, w1: World, w2: World)
    requires OnlySettles(w, w1) && OnlySettles(w1, w2)
    ensures OnlySettles(w, w2)
  {
    hide RoundAt;
    forall i: nat
      ensures SettledAtMost(RoundAt(w.lot, i), RoundAt(w2.lot, i))
    {
      assert SettledAtMost(RoundAt(w.lot, i), RoundAt(w1.lot, i));
      assert SettledAtMost(RoundAt(w1.lot, i), RoundAt(w2.lot, i));
    }
  }

  // A change of nothing that is compared.
  lemma OnlySettlesIgnores(w: World, w1: World)
    requires w1.lot == w.lot && w1.log == w.log && w1.locked == w.locked
    ensures OnlySettles(w, w1)
  {
    OnlySettlesReflexive(w);
  }

  lemma FulfilledSettles(c: Config, now: nat, w: World, requestId: nat, word: nat)
    requires Fulfilled(c, now, w, requestId, word).Ok?
    ensures
      var w1 := Fulfilled(c, now, w, requestId, word).value;
      OnlySettles(w, w1) && w1.payments == w.payments && Own(w1) == Own(w)
  {
    hide Fee;
  }

  lemma DeliveredSettles(c: Config, now: nat, w: World, requestId: nat)
    requires Delivered(c, now, w, requestId).Ok?
    ensures
      var w1 := Delivered(c, now, w, requestId).value;
      OnlySettles(w, w1) && w1.payments == w.payments && Own(w1) == Own(w)
  {
    hide Fulfilled, SettledAtMost;
    OnlySettlesReflexive(w);
    if requestId !in w.vrf.delivered {
      FulfilledSettles(c, now, w, requestId, w.vrf.words[requestId]);
    }
  }

  lemma CalledBackSettles(c: Config, now: nat, w: World, requestId: nat, values: seq<nat>, runs: bool)
    ensures
      var w1 := CalledBack(c, now, w, requestId, values, runs);
      OnlySettles(w, w1) && w1.payments == w.payments && Own(w1) == Own(w)
  {
    hide Fulfilled, SettledAtMost;
    OnlySettlesReflexive(w);
    if |values| != 0 {
      var w1 := w.(vrf := w.vrf.(words := w.vrf.words[requestId := values[0]], ready := w.vrf.ready + {requestId}));
      OnlySettlesReflexive(w1);
      if Fulfilled(c, now, w1, requestId, values[0]).Ok? {
        FulfilledSettles(c, now, w1, requestId, values[0]);
      }
    }
  }

  lemma UnguardedSettles(c: Config, now: nat, w: World, call: Call)
    requires Unguarded(call)
    ensures
      var w1 := Exec(c, now, w, call);
      OnlySettles(w, w1) && w1.payments == w.payments && Own(w1) == Own(w)
  {
    hide Delivered, CalledBack, SettledAtMost, RoundAt;
    OnlySettlesReflexive(w);
    match call
    case FinalizeDraw(id) =>
      if Delivered(c, now, w, w.lot.DrawOf(id).requestId).Ok? {
        DeliveredSettles(c, now, w, w.lot.DrawOf(id).requestId);
      }
    case Deliver(requestId) =>
      if Delivered(c, now, w, requestId).Ok? {
        DeliveredSettles(c, now, w, requestId);
      }
    case Callback(_, requestId, values, runs) => CalledBackSettles(c, now, w, requestId, values, runs);
    case _ =>
  }

  // While the guard is held, nothing that others call pays anybody or changes a ticket.
  lemma {:induction false} LockedSettles(c: Config, now: nat, w: World, calls: seq<Call>)
    requires w.locked
    ensures
      var w1 := RunAll(c, now, w, calls);
      OnlySettles(w, w1) && w1.payments == w.payments && Own(w1) == Own(w)
    decreases |calls|
  {
    hide Exec, SettledAtMost, RoundAt;
    OnlySettlesReflexive(w);
    if calls != [] {
      var w1 := Exec(c, now, w, calls[0]);
      LockedSettle(c, now, w, calls[0]);
      LockedSettles(c, now, w1, calls[1..]);
      OnlySettlesTransitive(w, w1, RunAll(c, now, w1, calls[1..]));
    }
  }

  lemma LockedSettle(c: Config, now: nat, w: World, call: Call)
    requires w.locked
    ensures
      var w1 := Exec(c, now, w, call);
      OnlySettles(w, w1) && w1.payments == w.payments && Own(w1) == Own(w)
  {
    hide OnlySettles, Try;
    if Unguarded(call) {
      UnguardedSettles(c, now, w, call);
    } else {
      LockedRefuses(c, now, w, call);
      OnlySettlesReflexive(w);
    }
  }

  // A payout moves just its amount to just its recipient, whatever is called around it.
  lemma PayoutSettles(c: Config, now: nat, w: World, to: Address, pay: TokenCall, amount: nat)
    requires w.locked && TokenOut(c, now, w, to, pay, amount).Ok?
    ensures
      var w1 := TokenOut(c, now, w, to, pay, amount).value;
      && OnlySettles(w, w1) && Own(w1) == Own(w) - amount
      && w1.payments == w.payments + [Payment(LOTTERY, to, amount)]
  {
    hide OnlySettles, RunAll;
    var w1 := RunAll(c, now, w, pay.pre);
    LockedSettles(c, now, w, pay.pre);
    LockedStays(w, w1);
    var w2 := Sent(w1, to, amount);
    OnlySettlesIgnores(w1, w2);
    LockedSettles(c, now, w2, pay.post);
    OnlySettlesTransitive(w, w1, w2);
    OnlySettlesTransitive(w, w2, RunAll(c, now, w2, pay.post));
  }

  lemma LockedStays(w: World, w1: World)
    requires OnlySettles(w, w1)
    ensures w1.locked == w.locked
  {}
}
