/** Whole transactions: each guarded function keeps the invariant from one rest state to the next. */
module Transactions {
  import opened Basics
  import opened Contract
  import opened Invariants
  import opened Preservation

  /******* Token transfers with calls around them *******/

  lemma Locking(c: Config, w: World)
    requires AtRest(c, w)
    ensures Inv(c, w.(locked := true), false, 0)
  {
    hide History, Buckets, Requests;
  }

  lemma EvolvesIgnoresMoney(w: World, w1: World, w2: World)
    requires Evolves(w, w1) && w2 == w1.(balance := w2.balance, payments := w2.payments, locked := w2.locked)
    ensures Evolves(w, w2)
  {
    hide RoundAt, RoundEvolves;
  }

  lemma TokenInFacts(c: Config, now: nat, w: World, from: Address, pay: TokenCall, amount: nat)
    requires Inv(c, w, false, 0) && ValidTime(now) && w.locked
    ensures TokenIn(c, now, w, from, pay, amount).Ok? ==>
      var w1 := TokenIn(c, now, w, from, pay, amount).value;
      Inv(c, w1, false, amount) && Evolves(w, w1) && Interfered(Received(w, from, amount), w1, false)
  {
    hide History, Buckets, Requests, Evolves, RoundAt;
    var w1 := RunAll(c, now, w, pay.pre);
    LockedCalls(c, now, w, pay.pre, false, 0);
    if TokenIn(c, now, w, from, pay, amount).Ok? {
      var w2 := Received(w1, from, amount);
      EvolvesIgnoresMoney(w, w1, w2);
      var w3 := RunAll(c, now, w2, pay.post);
      LockedCalls(c, now, w2, pay.post, false, amount);
      EvolvesTransitive(w, w2, w3);
      InterferedTransitive(Received(w, from, amount), w2, w3, false);
    }
  }

  lemma TokenOutFacts(c: Config, now: nat, w: World, to: Address, pay: TokenCall, amount: nat, unbooked: nat)
    requires Inv(c, w, false, unbooked) && ValidTime(now) && w.locked && amount <= unbooked
    ensures TokenOut(c, now, w, to, pay, amount).Ok? <==> pay.succeeds
    ensures pay.succeeds ==>
      var w1 := TokenOut(c, now, w, to, pay, amount).value;
      && Inv(c, w1, false, unbooked - amount) && Evolves(w, w1) && w1.locked
      && w.balance >= amount && Interfered(Sent(w, to, amount), w1, false)
  {
    hide History, Buckets, Requests, Evolves, RoundAt;
    var w1 := RunAll(c, now, w, pay.pre);
    LockedCalls(c, now, w, pay.pre, false, unbooked);
    if pay.succeeds {
      var w2 := Sent(w1, to, amount);
      EvolvesIgnoresMoney(w, w1, w2);
      var w3 := RunAll(c, now, w2, pay.post);
      LockedCalls(c, now, w2, pay.post, false, unbooked - amount);
      EvolvesTransitive(w, w2, w3);
      InterferedTransitive(Sent(w, to, amount), w2, w3, false);
    }
  }

  lemma MoreUnbooked(c: Config, w: World, from: Address, amount: nat, unbooked: nat)
    requires Inv(c, w, false, unbooked) && w.balance + amount <= MAX_UINT256
    ensures Inv(c, Received(w, from, amount), false, unbooked + amount)
  {
    hide History, Buckets, Requests;
  }

  lemma LessUnbooked(c: Config, w: World, to: Address, amount: nat, unbooked: nat)
    requires Inv(c, w, false, unbooked) && amount <= unbooked
    ensures w.balance >= amount && Inv(c, Sent(w, to, amount), false, unbooked - amount)
  {
    hide History, Buckets, Requests;
  }

  /******* startDraw *******/

  // startDraw changes nothing but the new round and the two buckets.
  lemma StartedShape(c: Config, now: nat, w: World)
    requires AtRest(c, w) && ValidTime(now) && w.lot.CanStartDraw()
    ensures
      var l, l1 := w.lot, Started(c, now, w).lot;
      var n := l.currentDrawId + 1;
      && Started(c, now, w) == w.(lot := l1, log := Started(c, now, w).log) && w.log <= Started(c, now, w).log
      && l1 == l.(currentDrawId := n, draws := l1.draws, activePool := l.pendingRollover, pendingRollover := 0)
      && SameElsewhere(l, l1, n)
      && RoundAt(l1, n) == EMPTY_ROUND.(d := RoundAt(l1, n).d)
      && RoundOk(c, RoundAt(l1, n), n, false)
      && RoundAt(l1, n).d.inheritedRollover == l.pendingRollover == RoundAt(l1, n).d.pool
      && RoundAt(l1, n).d.status == ACTIVE && RoundAt(l1, n).d.requestId == 0 && RoundAt(l1, n).d.participantCount == 0
  {
    hide Requests, RoundOk, Buckets;
    assert RoundAt(w.lot, w.lot.currentDrawId + 1) == EMPTY_ROUND;
    hide History;
    StartedRound(c, now, w);
  }

  lemma StartedFrom(c: Config, w: World)
    requires AtRest(c, w) && w.lot.CanStartDraw()
    ensures w.lot.activePool == 0 && w.lot.pendingRollover == CarryInto(w.lot, w.lot.currentDrawId + 1)
    ensures w.lot.currentDrawId == 0 || Final(RoundAt(w.lot, w.lot.currentDrawId).d.status)
  {
    hide Requests, RoundOk, History;
    BucketFacts(c, w.lot);
  }

  lemma StartedRound(c: Config, now: nat, w: World)
    requires ValidTime(now) && RoundAt(w.lot, w.lot.currentDrawId + 1) == EMPTY_ROUND
    ensures RoundOk(c, RoundAt(Started(c, now, w).lot, w.lot.currentDrawId + 1), w.lot.currentDrawId + 1, false)
  {}

  lemma StartedInv(c: Config, now: nat, w: World)
    requires AtRest(c, w) && ValidTime(now) && w.lot.CanStartDraw()
    ensures AtRest(c, Started(c, now, w)) && Evolves(w, Started(c, now, w))
  {
    hide History, Buckets, RoundOk, RoundAt, Started, RoundEvolves;
    StartedShape(c, now, w);
    StartedHistory(c, now, w);
    StartedMoney(c, now, w);
    var l, w1 := w.lot, Started(c, now, w);
    EvolvesReflexive(w);
    forall q | q in w1.vrf.requested
      ensures RequestOk(w1.lot, w1.vrf, q)
    {
      RequestFacts(l, w.vrf, q);
    }
  }

  lemma StartedHistory(c: Config, now: nat, w: World)
    requires AtRest(c, w) && ValidTime(now) && w.lot.CanStartDraw()
    ensures History(c, Started(c, now, w).lot, false)
  {
    hide Buckets, Requests, RoundOk, RoundAt, Started;
    StartedShape(c, now, w);
    StartedFrom(c, w);
    var l, l1 := w.lot, Started(c, now, w).lot;
    var n := l1.currentDrawId;
    forall i: nat | 1 <= i <= n
      ensures RoundOk(c, RoundAt(l1, i), i, false)
      ensures RoundAt(l1, i).d.inheritedRollover == CarryInto(l1, i)
      ensures i < n ==> Final(RoundAt(l1, i).d.status)
    {
      if i < n {
        RoundFacts(c, l, false, i);
      }
    }
  }

  lemma StartedMoney(c: Config, now: nat, w: World)
    requires AtRest(c, w) && ValidTime(now) && w.lot.CanStartDraw()
    ensures Buckets(c, Started(c, now, w).lot)
    ensures Started(c, now, w).lot.Liabilities() == w.lot.Liabilities()
  {
    hide History, Requests, RoundOk, RoundAt, Started, Cost, Part, ValidConfig;
    StartedShape(c, now, w);
    StartedFrom(c, w);
    NewPart(c, RoundAt(Started(c, now, w).lot, w.lot.currentDrawId + 1));
    SumFrame(c, w.lot, Started(c, now, w).lot, w.lot.currentDrawId);
  }

  lemma NewPart(c: Config, r: Round)
    requires r == EMPTY_ROUND.(d := r.d) && r.d.status == ACTIVE && r.d.participantCount == 0
    ensures Part(c, r) == Sums(0, 0, 0, 0, 0)
  {}

  lemma StartInv(c: Config, now: nat, w: World, expected: nat)
    requires AtRest(c, w) && ValidTime(now)
    ensures TryStart(c, now, w, expected).Ok? ==>
      var w1 := TryStart(c, now, w, expected).value;
      AtRest(c, w1) && Evolves(w, w1)
  {
    hide Inv, Evolves;
    if w.lot.CanStartDraw() {
      StartedInv(c, now, w);
    }
  }

  /******* buyTicket *******/

  // The purchase, once paid for, is recorded without overflow.
  lemma BoughtInv(c: Config, now: nat, w: World, sender: Outsider, id: nat)
    requires Inv(c, w, false, c.ticketPrice) && !w.locked && BuyRefused(now, w, sender, id).None?
    ensures Bought(c, now, w, sender, id).Ok?
    ensures AtRest(c, Bought(c, now, w, sender, id).value)
    ensures Evolves(w, Bought(c, now, w, sender, id).value)
  {
    hide Buckets, RoundOk, Bought, BuyRefused, RoundEvolves, History;
    BoughtRound(c, now, w, sender, id);
    BoughtMoney(c, now, w, sender, id);
    var w1 := Bought(c, now, w, sender, id).value;
    HistoryStep(c, w.lot, w1.lot, id, false, false);
    EvolvesReflexive(w);
    forall q | q in w1.vrf.requested
      ensures RequestOk(w1.lot, w1.vrf, q)
    {
      assert RequestOk(w.lot, w.vrf, q);
    }
    forall i: nat | 1 <= i <= w1.lot.currentDrawId && RoundAt(w1.lot, i).d.requestId != 0
      ensures w1.lot.RequestDraw(RoundAt(w1.lot, i).d.requestId) == i
    {
      assert RoundAt(w1.lot, i).d.requestId == RoundAt(w.lot, i).d.requestId;
    }
  }

  // The board of a round after one more ticket.
  function WithTicket(c: Config, r: Round, sender: Address): Round
    requires |r.owners| == POSITIONS && r.d.participantCount < POSITIONS
  {
    var n := r.d.participantCount + 1;
    Round(r.d.(participantCount := n, pool := r.d.pool + c.ticketPrice), r.owners[n - 1 := sender],
        r.tickets[sender := n], r.refunded)
  }

  lemma WithTicketBoard(c: Config, r: Round, sender: Address)
    requires BoardOk(r) && r.d.participantCount < MAX_PARTICIPANTS && sender > PROVIDER && sender !in r.tickets
    ensures BoardOk(WithTicket(c, r, sender))
  {
    var r1 := WithTicket(c, r, sender);
    forall k: nat
      ensures PositionOk(r1, k)
    {
      assert PositionOk(r, k);
    }
    forall a: Address
      ensures HolderOk(r1, a)
    {
      assert HolderOk(r, a);
    }
  }

  lemma WithTicketOk(c: Config, r: Round, id: nat, sender: Address)
    requires RoundOk(c, r, id, false) && r.d.status == ACTIVE && r.d.participantCount < MAX_PARTICIPANTS
    requires sender > PROVIDER && sender !in r.tickets
    ensures RoundOk(c, WithTicket(c, r, sender), id, false)
    ensures RoundEvolves(r, WithTicket(c, r, sender))
  {
    hide Cost;
    CostAdds(c, r.d.participantCount, 1);
    WithTicketBoard(c, r, sender);
    assert PositionOk(r, r.d.participantCount);
    hide BoardOk;
  }

  lemma WithTicketPart(c: Config, r: Round, sender: Address)
    requires |r.owners| == POSITIONS && r.d.participantCount < POSITIONS && r.d.status == ACTIVE
    ensures Part(c, WithTicket(c, r, sender)) == Plus(Part(c, r), Sums(c.ticketPrice, 0, 0, 0, 0))
  {
    hide Cost;
    CostAdds(c, r.d.participantCount, 1);
  }

  // What buyTicket writes, before any question of overflow.
  lemma BoughtShape(c: Config, now: nat, w: World, sender: Outsider, id: nat)
    requires Bought(c, now, w, sender, id).Ok? && w.lot.DrawOf(id).participantCount < POSITIONS
    ensures
      var w1 := Bought(c, now, w, sender, id).value;
      && w1 == w.(lot := w1.lot, log := w1.log) && w.log <= w1.log
      && SameElsewhere(w.lot, w1.lot, id)
      && RoundAt(w1.lot, id) == WithTicket(c, RoundAt(w.lot, id), sender)
      && w1.lot == w.lot.(draws := w1.lot.draws, owners := w1.lot.owners, ticketOf := w1.lot.ticketOf,
         activePool := w.lot.activePool + c.ticketPrice)
  {}

  lemma BoughtOk(c: Config, now: nat, w: World, sender: Outsider, id: nat)
    requires Inv(c, w, false, c.ticketPrice) && BuyRefused(now, w, sender, id).None?
    ensures Bought(c, now, w, sender, id).Ok?
    ensures 1 <= id == w.lot.currentDrawId && w.lot.DrawOf(id).status == ACTIVE
      && w.lot.DrawOf(id).participantCount < MAX_PARTICIPANTS
    ensures RoundOk(c, RoundAt(w.lot, id), id, false) && sender !in w.lot.TicketsOf(id)
  {
    hide History, Requests, RoundOk, Buckets;
    BucketFacts(c, w.lot);
    RoundFacts(c, w.lot, false, id);
    LiabilitiesFit(c, w, false, c.ticketPrice);
    NoTicket(c, RoundAt(w.lot, id), id, sender);
  }

  lemma BoughtRound(c: Config, now: nat, w: World, sender: Outsider, id: nat)
    requires Inv(c, w, false, c.ticketPrice) && BuyRefused(now, w, sender, id).None?
    ensures Bought(c, now, w, sender, id).Ok?
    ensures
      var w1 := Bought(c, now, w, sender, id).value;
      var r := RoundAt(w.lot, id);
      && 1 <= id == w.lot.currentDrawId == w1.lot.currentDrawId && r.d.status == ACTIVE
      && w1 == w.(lot := w1.lot, log := w1.log) && w.log <= w1.log
      && SameElsewhere(w.lot, w1.lot, id)
      && r.d.participantCount < MAX_PARTICIPANTS
      && RoundAt(w1.lot, id) == WithTicket(c, r, sender)
      && RoundOk(c, RoundAt(w1.lot, id), id, false) && RoundEvolves(r, RoundAt(w1.lot, id))
      && w1.lot == w.lot.(draws := w1.lot.draws, owners := w1.lot.owners, ticketOf := w1.lot.ticketOf,
         activePool := w.lot.activePool + c.ticketPrice)
  {
    hide History, Requests, RoundOk, Buckets, Bought, BuyRefused, RoundEvolves, SameElsewhere;
    BoughtOk(c, now, w, sender, id);
    BoughtShape(c, now, w, sender, id);
    WithTicketOk(c, RoundAt(w.lot, id), id, sender);
  }

  lemma NoTicket(c: Config, r: Round, id: nat, who: Address)
    requires RoundOk(c, r, id, false)
    ensures who in r.tickets ==> r.tickets[who] != 0
  {
    assert HolderOk(r, who);
  }

  lemma BoughtMoney(c: Config, now: nat, w: World, sender: Outsider, id: nat)
    requires Inv(c, w, false, c.ticketPrice) && !w.locked && BuyRefused(now, w, sender, id).None?
    ensures Bought(c, now, w, sender, id).Ok?
    ensures Buckets(c, Bought(c, now, w, sender, id).value.lot)
    ensures Funds(Bought(c, now, w, sender, id).value, 0)
  {
    hide History, Requests, RoundOk, Bought, BuyRefused, RoundEvolves, Part, RoundAt;
    BoughtRound(c, now, w, sender, id);
    var w1 := Bought(c, now, w, sender, id).value;
    WithTicketPart(c, RoundAt(w.lot, id), sender);
    SumChange(c, w.lot, w1.lot, id, id);
  }

  lemma BuyInv(c: Config, now: nat, w: World, sender: Outsider, id: nat, pay: TokenCall)
    requires AtRest(c, w) && ValidTime(now)
    ensures TryBuy(c, now, w, sender, id, pay).Ok? ==>
      var w1 := TryBuy(c, now, w, sender, id, pay).value;
      AtRest(c, w1) && Evolves(w, w1)
  {
    hide Inv, Evolves, RoundAt, TokenIn, Bought;
    if TryBuy(c, now, w, sender, id, pay).Ok? {
      var w0 := w.(locked := true);
      Locking(c, w);
      TokenInFacts(c, now, w0, sender, pay, c.ticketPrice);
      var w1 := TokenIn(c, now, w0, sender, pay, c.ticketPrice).value;
      BuyingRound(now, w, sender, id);
      Unlocking(c, w1, c.ticketPrice);
      BoughtInv(c, now, w1.(locked := false), sender, id);
      EvolvesReflexive(w);
      EvolvesIgnoresMoney(w, w, w0);
      EvolvesTransitive(w, w0, w1);
      EvolvesIgnoresMoney(w, w1, w1.(locked := false));
      EvolvesTransitive(w, w1.(locked := false), Bought(c, now, w1.(locked := false), sender, id).value);
    }
  }

  lemma BuyingRound(now: nat, w: World, sender: Outsider, id: nat)
    requires BuyRefused(now, w, sender, id).None?
    ensures RoundAt(w.lot, w.lot.currentDrawId).d.status == ACTIVE
  {}

  lemma Unlocking(c: Config, w: World, unbooked: nat)
    requires Inv(c, w, false, unbooked)
    ensures Inv(c, w.(locked := false), false, unbooked)
  {
    hide History, Buckets, Requests;
  }

  /******* performDraw *******/

  lemma CancelledRound(c: Config, now: nat, w: World, id: nat)
    requires AtRest(c, w) && ValidTime(now) && w.lot.CanPerformDraw(id, now)
      && w.lot.DrawOf(id).participantCount < c.minimum
    ensures Cancelled(c, now, w, id).Ok?
    ensures
      var w1 := Cancelled(c, now, w, id).value;
      var r := RoundAt(w.lot, id);
      && 1 <= id == w.lot.currentDrawId && r.d.status == ACTIVE && RoundOk(c, r, id, false)
      && w1 == w.(lot := w1.lot, log := w1.log) && w.log <= w1.log
      && w1.lot == w.lot.(draws := w1.lot.draws, activePool := 0,
                          outstandingRefunds := w.lot.outstandingRefunds + Cost(c, r.d.participantCount),
                          pendingRollover := w.lot.pendingRollover + r.d.inheritedRollover)
      && SameElsewhere(w.lot, w1.lot, id)
      && RoundAt(w1.lot, id) == r.(d := r.d.(status := CANCELLED, finalizedAt := now % TWO_TO_THE_64))
  {
    hide History, Requests, Buckets, BoardOk;
    BucketFacts(c, w.lot);
    RoundFacts(c, w.lot, false, id);
    LiabilitiesFit(c, w, false, 0);
    CostAdds(c, w.lot.DrawOf(id).participantCount, 0);
  }

  lemma CancelledRoundOk(c: Config, now: nat, r: Round, id: nat)
    requires RoundOk(c, r, id, false) && r.d.status == ACTIVE && r.d.participantCount < c.minimum && ValidTime(now)
    ensures
      var r1 := r.(d := r.d.(status := CANCELLED, finalizedAt := now % TWO_TO_THE_64));
      && RoundOk(c, r1, id, false) && RoundEvolves(r, r1)
      && Part(c, r1) == Plus(Part(c, r), Sums(0, 0, Cost(c, r.d.participantCount), 0, 0))
      && r.d.pool == r.d.inheritedRollover + Cost(c, r.d.participantCount)
      && r.d.requestId == 0
  {
    hide Cost, BoardOk;
    BoardFrame(r, r.d.(status := CANCELLED, finalizedAt := now % TWO_TO_THE_64));
  }

  lemma CancelledInv(c: Config, now: nat, w: World, id: nat)
    requires AtRest(c, w) && ValidTime(now) && w.lot.CanPerformDraw(id, now)
      && w.lot.DrawOf(id).participantCount < c.minimum
    ensures Cancelled(c, now, w, id).Ok?
    ensures AtRest(c, Cancelled(c, now, w, id).value) && Evolves(w, Cancelled(c, now, w, id).value)
  {
    hide History, Requests, RoundOk, Cancelled, RoundEvolves, Cost, Part;
    CancelledRound(c, now, w, id);
    var w1 := Cancelled(c, now, w, id).value;
    CancelledRoundOk(c, now, RoundAt(w.lot, id), id);
    BucketFacts(c, w.lot);
    SumChange(c, w.lot, w1.lot, id, id);
    assert Buckets(c, w1.lot);
    hide Buckets;
    HistoryStep(c, w.lot, w1.lot, id, false, false);
    RequestsFrame(w, w1, id);
    EvolvesReflexive(w);
  }

  // A change of one round's status that no request refers to.
  lemma RequestsFrame(w: World, w1: World, id: nat)
    requires Requests(w.lot, w.vrf) && w1.vrf == w.vrf
    requires w1.lot.requestDraw == w.lot.requestDraw && w1.lot.currentDrawId == w.lot.currentDrawId
    requires SameElsewhere(w.lot, w1.lot, id)
    requires RoundAt(w1.lot, id).d.requestId == RoundAt(w.lot, id).d.requestId
    requires RoundAt(w1.lot, id).d.luckyNumber == RoundAt(w.lot, id).d.luckyNumber
    requires RoundAt(w.lot, id).d.requestId != 0 ==>
      Final(RoundAt(w.lot, id).d.status) == Final(RoundAt(w1.lot, id).d.status)
      && RoundAt(w1.lot, id).d.status != CANCELLED && RoundAt(w1.lot, id).d.status != ACTIVE
    ensures Requests(w1.lot, w1.vrf)
  {
    hide RoundAt;
    forall q | q in w1.vrf.requested
      ensures RequestOk(w1.lot, w1.vrf, q)
    {
      assert RequestOk(w.lot, w.vrf, q);
      assert w1.lot.RequestDraw(q) == w.lot.RequestDraw(q);
    }
  }

  lemma RequestingRoundOk(c: Config, r: Round, id: nat)
    requires RoundOk(c, r, id, false) && r.d.status == ACTIVE && r.d.participantCount >= c.minimum
    ensures
      var r1 := r.(d := r.d.(status := DRAWING));
      RoundOk(c, r1, id, true) && RoundEvolves(r, r1) && Part(c, r1) == Part(c, r) && r.d.requestId == 0
          && r.d.luckyNumber == 0
  {
    hide Cost, BoardOk;
    BoardFrame(r, r.d.(status := DRAWING));
  }

  // At the call of the provider the round is DRAWING, its pool is in activePool, and it has no request.
  lemma RequestingInv(c: Config, now: nat, w: World, id: nat)
    requires AtRest(c, w) && ValidTime(now) && w.lot.CanPerformDraw(id, now)
      && w.lot.DrawOf(id).participantCount >= c.minimum
    ensures Inv(c, Requesting(w, id), true, 0) && Evolves(w, Requesting(w, id))
    ensures 1 <= id == w.lot.currentDrawId
  {
    hide History, Requests, RoundOk, RoundEvolves, Cost, Part;
    var w1 := Requesting(w, id);
    RoundFacts(c, w.lot, false, id);
    RequestingRoundOk(c, RoundAt(w.lot, id), id);
    assert RoundAt(w1.lot, id) == RoundAt(w.lot, id).(d := RoundAt(w.lot, id).d.(status := DRAWING));
    assert SameElsewhere(w.lot, w1.lot, id);
    BucketFacts(c, w.lot);
    SumChange(c, w.lot, w1.lot, id, id);
    assert Buckets(c, w1.lot);
    hide Buckets, RoundAt;
    HistoryStep(c, w.lot, w1.lot, id, false, true);
    RequestsFrame(w, w1, id);
    EvolvesReflexive(w);
  }

  lemma RegisteredRoundOk(c: Config, r: Round, id: nat, requestId: nat)
    requires RoundOk(c, r, id, true) && requestId != 0
    ensures
      var r1 := r.(d := r.d.(requestId := requestId));
      RoundOk(c, r1, id, false) && RoundEvolves(r, r1) && Part(c, r1) == Part(c, r) && r.d.requestId == 0
          && r.d.status == DRAWING
  {
    hide Cost, BoardOk;
    BoardFrame(r, r.d.(requestId := requestId));
  }

  lemma RegisteredInv(c: Config, now: nat, w: World, id: nat, requestId: nat)
    requires Inv(c, w, true, 0) && 1 <= id == w.lot.currentDrawId && w.vrf.bound
    ensures Registered(now, w, id, requestId).Ok? ==>
      AtRest(c, Registered(now, w, id, requestId).value) && Evolves(w, Registered(now, w, id, requestId).value)
  {
    hide History, Requests, RoundOk, RoundEvolves, Cost, Part, RoundAt, Buckets;
    if Registered(now, w, id, requestId).Ok? {
      var w1 := Registered(now, w, id, requestId).value;
      RegisteredShape(now, w, id, requestId);
      RoundFacts(c, w.lot, true, id);
      RegisteredRoundOk(c, RoundAt(w.lot, id), id, requestId);
      RegisteredBuckets(c, w.lot, w1.lot, id);
      HistoryStep(c, w.lot, w1.lot, id, true, false);
      RegisteredRequests(c, w, w1, id, requestId);
      EvolvesReflexive(w);
    }
  }

  lemma RegisteredShape(now: nat, w: World, id: nat, requestId: nat)
    requires Registered(now, w, id, requestId).Ok?
    ensures
      var w1 := Registered(now, w, id, requestId).value;
      && requestId != 0 && w.lot.RequestDraw(requestId) == 0
      && SameElsewhere(w.lot, w1.lot, id)
      && RoundAt(w1.lot, id) == RoundAt(w.lot, id).(d := RoundAt(w.lot, id).d.(requestId := requestId))
      && w1.lot == w.lot.(draws := w1.lot.draws, requestDraw := w.lot.requestDraw[requestId := id])
      && w1 == w.(locked := false, vrf := w.vrf.(requested := w.vrf.requested + {requestId}), lot := w1.lot,
         log := w1.log)
      && w.log <= w1.log
  {}

  lemma RegisteredBuckets(c: Config, l: Lot, l1: Lot, id: nat)
    requires Buckets(c, l) && 1 <= id == l.currentDrawId
    requires l1 == l.(draws := l1.draws, requestDraw := l1.requestDraw) && SameElsewhere(l, l1, id)
    requires Part(c, RoundAt(l1, id)) == Part(c, RoundAt(l, id)) && RoundAt(l1, id).d.pool == RoundAt(l, id).d.pool
    requires RoundAt(l1, id).d.status == RoundAt(l, id).d.status == DRAWING
    ensures Buckets(c, l1)
  {
    hide RoundAt, Part;
    SumChange(c, l, l1, id, id);
  }

  lemma RegisteredRequests(c: Config, w: World, w1: World, id: nat, requestId: nat)
    requires Inv(c, w, true, 0) && 1 <= id == w.lot.currentDrawId && w.vrf.bound
    requires requestId != 0 && w.lot.RequestDraw(requestId) == 0
    requires w1.vrf == w.vrf.(requested := w.vrf.requested + {requestId})
    requires w1.lot.requestDraw == w.lot.requestDraw[requestId := id] && w1.lot.currentDrawId == id
    requires SameElsewhere(w.lot, w1.lot, id) && RoundAt(w.lot, id).d.requestId == 0
      && RoundAt(w.lot, id).d.status == DRAWING
    requires RoundAt(w1.lot, id).d == RoundAt(w.lot, id).d.(requestId := requestId)
    ensures Requests(w1.lot, w1.vrf)
  {
    hide RoundAt, History, Buckets, Requests;
    RequestFacts(w.lot, w.vrf, requestId);
    forall q | q in w1.vrf.requested
      ensures RequestOk(w1.lot, w1.vrf, q)
    {
      RequestFacts(w.lot, w.vrf, q);
    }
    forall i: nat | 1 <= i <= id && RoundAt(w1.lot, i).d.requestId != 0
      ensures w1.lot.RequestDraw(RoundAt(w1.lot, i).d.requestId) == i
    {
      if i != id {
        assert w.lot.RequestDraw(RoundAt(w.lot, i).d.requestId) == i;
      }
    }
    RequestsFrom(w1.lot, w1.vrf);
  }

  lemma PerformInv(c: Config, now: nat, w: World, id: nat, during: seq<Call>, answer: Option<nat>)
    requires AtRest(c, w) && ValidTime(now)
    ensures TryPerform(c, now, w, id, during, answer).Ok? ==>
      var w1 := TryPerform(c, now, w, id, during, answer).value;
      AtRest(c, w1) && Evolves(w, w1)
  {
    hide Inv, Evolves, RoundAt, RunAll, Registered, Cancelled;
    if TryPerform(c, now, w, id, during, answer).Ok? {
      if w.lot.DrawOf(id).participantCount < c.minimum {
        CancelledInv(c, now, w, id);
      } else {
        var w1 := Requesting(w, id);
        RequestingInv(c, now, w, id);
        LockedCalls(c, now, w1, during, true, 0);
        var w2 := RunAll(c, now, w1, during);
        BoundStays(w1, w2);
        RegisteredInv(c, now, w2, id, answer.value);
        EvolvesTransitive(w, w1, w2);
        EvolvesTransitive(w, w2, Registered(now, w2, id, answer.value).value);
      }
    }
  }

  lemma BoundStays(w: World, w1: World)
    requires Evolves(w, w1)
    ensures w.vrf.bound ==> w1.vrf.bound
  {}

  /******* claimPrize *******/

  lemma ReleasedPrizeRound(c: Config, r: Round, id: nat)
    requires RoundOk(c, r, id, false) && r.d.status == WINNER_DECLARED
    ensures
      var r1 := r.(d := r.d.(status := COMPLETED));
      && RoundOk(c, r1, id, false) && RoundEvolves(r, r1)
      && Part(c, r1) == Plus(Part(c, r), Sums(0, 0 - r.d.pool, 0, r.d.pool, 0))
      && r.d.daoFee + r.d.winnerPrize == r.d.pool
  {
    hide Cost, BoardOk, Fee;
    BoardFrame(r, r.d.(status := COMPLETED));
  }

  lemma PrizeReleasedInv(c: Config, w: World, sender: Outsider, id: nat)
    requires AtRest(c, w) && w.lot.DrawOf(id).status == WINNER_DECLARED
    ensures w.lot.outstandingPrizes >= w.lot.DrawOf(id).pool
    ensures
      var d := w.lot.DrawOf(id);
      var w1 := PrizeReleased(w, id);
      Inv(c, w1, false, d.pool) && Evolves(w, w1) && d.daoFee + d.winnerPrize == d.pool
  {
    hide History, Requests, RoundOk, RoundEvolves, Cost, Part, BoardOk;
    var l := w.lot;
    OnlyRounds(c, l, false, id);
    RoundFacts(c, l, false, id);
    var r := RoundAt(l, id);
    ReleasedPrizeRound(c, r, id);
    RefundedAreHolders(c, l, false);
    PartsBelowSum(c, l, l.currentDrawId, id);
    assert Part(c, r).prizes == r.d.pool by { PrizePart(c, r); }
    var w1 := PrizeReleased(w, id);
    assert RoundAt(w1.lot, id) == r.(d := r.d.(status := COMPLETED));
    assert SameElsewhere(l, w1.lot, id);
    SumChange(c, l, w1.lot, id, l.currentDrawId);
    BucketFacts(c, l);
    assert Buckets(c, w1.lot);
    hide Buckets, RoundAt;
    HistoryStep(c, l, w1.lot, id, false, false);
    RequestsFrame(w, w1, id);
    EvolvesReflexive(w);
  }

  lemma PrizePart(c: Config, r: Round)
    requires r.d.status == WINNER_DECLARED
    ensures Part(c, r).prizes == r.d.pool
  {}

  // A settled or cancelled status is only found under an id that was started.
  lemma OnlyRounds(c: Config, l: Lot, pending: bool, id: nat)
    requires History(c, l, pending) && l.DrawOf(id).status != ACTIVE
    ensures 1 <= id <= l.currentDrawId
  {
    assert RoundAt(l, id) != EMPTY_ROUND;
  }

  lemma PrizeInv(c: Config, now: nat, w: World, sender: Outsider, id: nat, toDao: TokenCall, toWinner: TokenCall)
    requires AtRest(c, w) && ValidTime(now)
    ensures
      var d := w.lot.DrawOf(id);
      var t := TryPrize(c, now, w, sender, id, toDao, toWinner);
      && (t.Ok? <==>
        d.status == WINNER_DECLARED && d.winner == sender && (d.daoFee != 0 ==> toDao.succeeds) && toWinner.succeeds)
      && (t.Ok? ==> AtRest(c, t.value) && Evolves(w, t.value))
  {
    hide Inv, Evolves, RoundAt, TokenOut, Interfered;
    var d := w.lot.DrawOf(id);
    if d.status == WINNER_DECLARED && d.winner == sender {
      PrizeReleasedInv(c, w, sender, id);
      var w1 := PrizeReleased(w, id);
      var w2 := w1;
      EvolvesReflexive(w1);
      if d.daoFee != 0 {
        TokenOutFacts(c, now, w1, c.dao, toDao, d.daoFee, d.pool);
        if toDao.succeeds {
          w2 := TokenOut(c, now, w1, c.dao, toDao, d.daoFee).value;
          CompletedStays(Sent(w1, c.dao, d.daoFee), w2, id);
        }
      }
      if d.daoFee != 0 ==> toDao.succeeds {
        EvolvesTransitive(w, w1, w2);
        TokenOutFacts(c, now, w2, sender, toWinner, d.winnerPrize, d.winnerPrize);
        if toWinner.succeeds {
          var w3 := TokenOut(c, now, w2, sender, toWinner, d.winnerPrize).value;
          EvolvesTransitive(w, w2, w3);
          Paid(c, w, w3, PrizePaid(c, now, w3, sender, id).log);
        }
      }
    }
  }

  // A round that is not DRAWING is untouched by whatever others call meanwhile.
  lemma CompletedStays(w: World, w1: World, id: nat)
    requires Interfered(w, w1, false) && w.lot.DrawOf(id).status != DRAWING
    ensures w1.lot.DrawOf(id) == w.lot.DrawOf(id)
    ensures RoundAt(w1.lot, id) == RoundAt(w.lot, id)
  {
    assert RoundAt(w1.lot, id) == RoundAt(w.lot, id);
  }

  // The end of a claim: the guard is released and the event is logged.
  lemma Paid(c: Config, w: World, w1: World, log: seq<Emit>)
    requires Inv(c, w1, false, 0) && Evolves(w, w1) && w1.log <= log
    ensures AtRest(c, w1.(locked := false, log := log)) && Evolves(w, w1.(locked := false, log := log))
  {
    hide History, Buckets, Requests, RoundAt, RoundEvolves;
  }

  /******* claimRefund *******/

  lemma ReleasedRefundRound(c: Config, r: Round, id: nat, who: Address)
    requires RoundOk(c, r, id, false) && r.d.status == CANCELLED && who in r.tickets
    ensures
      var r1 := r.(refunded := r.refunded + {who});
      RoundOk(c, r1, id, false) && RoundEvolves(r, r1) && r.d.requestId == 0
  {
    hide Cost, BoardOk;
    BoardAnyRefunds(r, r.refunded + {who});
  }

  lemma BoardAnyRefunds(r: Round, refunded: set<Address>)
    requires BoardOk(r)
    ensures BoardOk(r.(refunded := refunded))
  {
    SameBoard(r, r.(refunded := refunded));
  }

  lemma ReleasedRefundPart(c: Config, r: Round, who: Address)
    requires BoardOk(r) && r.d.status == CANCELLED && who in r.tickets && who !in r.refunded
      && r.refunded <= r.tickets.Keys
    ensures Part(c, r.(refunded := r.refunded + {who})) == Plus(Part(c, r),
      Sums(0, 0, 0 - c.ticketPrice, 0, c.ticketPrice))
    ensures Part(c, r).owed >= c.ticketPrice
  {
    hide Cost, BoardOk;
    var more := r.refunded + {who};
    assert |more| == |r.refunded| + 1;
    BoardAnyRefunds(r, more);
    RefundsFit(r.(refunded := more));
    CostAdds(c, |r.refunded|, 1);
    CostAdds(c, r.d.participantCount - |more|, 1);
  }

  lemma RefundReleasedInv(c: Config, w: World, sender: Outsider, id: nat)
    requires AtRest(c, w) && w.lot.DrawOf(id).status == CANCELLED && w.lot.Ticket(id, sender) != 0
      && sender !in w.lot.RefundedOf(id)
    ensures w.lot.outstandingRefunds >= c.ticketPrice
    ensures Inv(c, RefundReleased(c, w, sender, id), false, c.ticketPrice)
      && Evolves(w, RefundReleased(c, w, sender, id))
  {
    hide History, Requests, RoundOk, RoundEvolves, Cost, Part, BoardOk;
    var l := w.lot;
    OnlyRounds(c, l, false, id);
    RoundFacts(c, l, false, id);
    var r := RoundAt(l, id);
    ReleasedRefundRound(c, r, id, sender);
    RefundedAreHolders(c, l, false);
    ReleasedRefundPart(c, r, sender);
    PartsBelowSum(c, l, l.currentDrawId, id);
    var w1 := RefundReleased(c, w, sender, id);
    assert RoundAt(w1.lot, id) == r.(refunded := r.refunded + {sender});
    assert SameElsewhere(l, w1.lot, id);
    SumChange(c, l, w1.lot, id, l.currentDrawId);
    BucketFacts(c, l);
    assert Buckets(c, w1.lot);
    hide Buckets, RoundAt;
    HistoryStep(c, l, w1.lot, id, false, false);
    RequestsFrame(w, w1, id);
    EvolvesReflexive(w);
  }

  lemma RefundInv(c: Config, now: nat, w: World, sender: Outsider, id: nat, pay: TokenCall)
    requires AtRest(c, w) && ValidTime(now)
    ensures
      var t := TryRefund(c, now, w, sender, id, pay);
      && (t.Ok? <==>
        && w.lot.DrawOf(id).status == CANCELLED && w.lot.Ticket(id, sender) != 0
        && sender !in w.lot.RefundedOf(id) && pay.succeeds)
      && (t.Ok? ==> AtRest(c, t.value) && Evolves(w, t.value))
  {
    hide Inv, Evolves, RoundAt, TokenOut, Interfered;
    if w.lot.DrawOf(id).status == CANCELLED && w.lot.Ticket(id, sender) != 0 && sender !in w.lot.RefundedOf(id) {
      RefundReleasedInv(c, w, sender, id);
      var w1 := RefundReleased(c, w, sender, id);
      TokenOutFacts(c, now, w1, sender, pay, c.ticketPrice, c.ticketPrice);
      if pay.succeeds {
        var w2 := TokenOut(c, now, w1, sender, pay, c.ticketPrice).value;
        EvolvesTransitive(w, w1, w2);
        Paid(c, w, w2, RefundPaid(c, now, w2, sender, id).log);
      }
    }
  }

  /******* Every transaction, every run *******/

  lemma ExecInv(c: Config, now: nat, w: World, call: Call)
    requires AtRest(c, w) && ValidTime(now)
    ensures AtRest(c, Exec(c, now, w, call)) && Evolves(w, Exec(c, now, w, call))
  {
    hide Inv, Evolves, TryStart, TryBuy, TryPerform, TryPrize, TryRefund;
    EvolvesReflexive(w);
    if Unguarded(call) {
      UnguardedCall(c, now, w, call, false, 0);
    } else {
      assert Exec(c, now, w, call) == if Try(c, now, w, call).Ok? then Try(c, now, w, call).value else w;
      match call
      case StartDraw(expected) => StartInv(c, now, w, expected);
      case BuyTicket(sender, id, pay) => BuyInv(c, now, w, sender, id, pay);
      case PerformDraw(id, during, answer) => PerformInv(c, now, w, id, during, answer);
      case ClaimPrize(sender, id, toDao, toWinner) => PrizeInv(c, now, w, sender, id, toDao, toWinner);
      case ClaimRefund(sender, id, pay) => RefundInv(c, now, w, sender, id, pay);
      case _ => 
    }
  }

  lemma GenesisHistory(c: Config)
    ensures History(c, NEW_LOT, false) && Requests(NEW_LOT, NEW_VRF)
  {
    hide RoundOk, RequestOk;
  }

  lemma NoRoundsNoMoney(c: Config, l: Lot)
    requires l.currentDrawId == 0
      && l.activePool == l.pendingRollover == l.outstandingPrizes == l.outstandingRefunds == 0
    ensures Buckets(c, l)
  {
    hide RoundAt, Part, CarryOut;
  }

  lemma FreshAtRest(c: Config, w: World)
    requires ValidConfig(c) && History(c, w.lot, false) && Requests(w.lot, w.vrf) && !w.locked
    requires w.lot.activePool == w.lot.pendingRollover == w.lot.outstandingPrizes == w.lot.outstandingRefunds == 0
    requires w.lot.currentDrawId == 0 && w.balance == w.donated == 0
    ensures AtRest(c, w)
  {
    hide History, Requests, ValidConfig, Buckets;
    NoRoundsNoMoney(c, w.lot);
  }

  lemma GenesisAtRest(c: Config)
    requires ValidConfig(c)
    ensures AtRest(c, GENESIS)
  {
    hide AtRest, History, Requests, ValidConfig;
    GenesisHistory(c);
    FreshAtRest(c, GENESIS);
  }

  lemma NothingLogged()
    ensures GENESIS.log == []
  {}

  lemma {:induction false} RunInv(c: Config, w: World, txs: seq<Tx>)
    requires AtRest(c, w) && ValidTimes(txs)
    ensures AtRest(c, Run(c, w, txs)) && Evolves(w, Run(c, w, txs))
    decreases |txs|
  {
    hide Inv, Evolves, Exec;
    EvolvesReflexive(w);
    if txs != [] {
      var w1 := Exec(c, txs[0].now, w, txs[0].call);
      ExecInv(c, txs[0].now, w, txs[0].call);
      RunInv(c, w1, txs[1..]);
      EvolvesTransitive(w, w1, Run(c, w1, txs[1..]));
    }
  }
}
