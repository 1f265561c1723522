/** Every call keeps the invariant, at the points where others may call in as well as at its end. */
module Preservation {
  import opened Basics
  import opened Contract
  import opened Invariants

  /******* What never changes once it is set *******/

  ghost predicate RoundEvolves(r: Round, r1: Round) {
    && |r.owners| == |r1.owners| == POSITIONS
    && r1.d.id == r.d.id && r1.d.startTime == r.d.startTime && r1.d.deadline == r.d.deadline
    && r1.d.inheritedRollover == r.d.inheritedRollover
    && r.d.participantCount <= r1.d.participantCount
    && (forall k :: 0 <= k < POSITIONS && r.owners[k] != ZERO ==> r1.owners[k] == r.owners[k])
    && r.refunded <= r1.refunded
    && (r.d.status != ACTIVE ==>
      r1.d.pool == r.d.pool && r1.d.participantCount == r.d.participantCount && r1.owners == r.owners
          && r1.tickets == r.tickets)
    && (r.d.status == DRAWING ==> r1.d.status != ACTIVE && r1.d.status != CANCELLED)
    && (r.d.requestId != 0 ==> r1.d.requestId == r.d.requestId)
    && (Final(r.d.status) ==>
      && (r1.d.status == r.d.status || (r.d.status == WINNER_DECLARED && r1.d.status == COMPLETED))
      && r1.d == r.d.(status := r1.d.status))
  }

  ghost predicate Evolves(w: World, w1: World) {
    && w.lot.currentDrawId <= w1.lot.currentDrawId
    && (forall i: nat :: 1 <= i <= w.lot.currentDrawId ==> RoundEvolves(RoundAt(w.lot, i), RoundAt(w1.lot, i)))
    && (w.vrf.bound ==> w1.vrf.bound)
    && w.vrf.requested <= w1.vrf.requested && w.vrf.ready <= w1.vrf.ready && w.vrf.delivered <= w1.vrf.delivered
    && (forall r :: r in w.vrf.words ==> r in w1.vrf.words && w1.vrf.words[r] == w.vrf.words[r])
    && w.donated <= w1.donated
    && w.log <= w1.log
  }

  lemma EvolvesTransitive(w0: World, w1: World, w2: World)
    requires Evolves(w0, w1) && Evolves(w1, w2)
    ensures Evolves(w0, w2)
  {
    hide RoundAt;
    forall i: nat | 1 <= i <= w0.lot.currentDrawId
      ensures RoundEvolves(RoundAt(w0.lot, i), RoundAt(w2.lot, i))
    {
      assert RoundEvolves(RoundAt(w0.lot, i), RoundAt(w1.lot, i));
      assert RoundEvolves(RoundAt(w1.lot, i), RoundAt(w2.lot, i));
    }
  }

  lemma EvolvesReflexive(w: World)
    ensures Evolves(w, w)
  {
    forall i: nat
      ensures RoundEvolves(RoundAt(w.lot, i), RoundAt(w.lot, i))
    {}
  }

  /******* Settlement *******/

  // A stored, undelivered word belongs to the current round, which is waiting for it.
  lemma WaitingRound(c: Config, w: World, requestId: nat, pending: bool, unbooked: nat)
    requires Inv(c, w, pending, unbooked)
    requires requestId in w.vrf.requested && requestId !in w.vrf.delivered
    ensures !pending
    ensures w.lot.RequestDraw(requestId) == w.lot.currentDrawId >= 1
    ensures w.lot.DrawOf(w.lot.currentDrawId).status == DRAWING
    ensures w.lot.DrawOf(w.lot.currentDrawId).requestId == requestId
  {
    hide History, Buckets, Requests, BoardOk;
    RequestFacts(w.lot, w.vrf, requestId);
    var id := w.lot.RequestDraw(requestId);
    RoundFacts(c, w.lot, pending, id);
  }

  function Settled(c: Config, now: nat, d: Draw, owners: seq<Address>, word: nat): Draw
    requires |owners| == POSITIONS
  {
    var lucky := word % 10 + 1;
    var d1 := d.(luckyNumber := lucky, winner := owners[lucky - 1], finalizedAt := now % TWO_TO_THE_64);
    if d1.winner == ZERO then d1.(status := NO_WINNER)
    else if d.pool < c.ticketPrice then d1
    else
      var fee := Fee(c, d.pool);
      d1.(status := WINNER_DECLARED, daoFee := fee, winnerPrize := d.pool - fee)
  }

  lemma SettledRoundOk(c: Config, now: nat, r: Round, id: nat, word: nat)
    requires ValidConfig(c) && ValidTime(now) && RoundOk(c, r, id, false) && r.d.status == DRAWING
    ensures r.d.pool >= c.ticketPrice
    ensures RoundOk(c, r.(d := Settled(c, now, r.d, r.owners, word)), id, false)
    ensures Final(Settled(c, now, r.d, r.owners, word).status)
  {
    hide Cost, Fee;
    CostAdds(c, r.d.participantCount, 0);
    assert |r.owners| == POSITIONS;
    hide BoardOk;
    BoardFrame(r, Settled(c, now, r.d, r.owners, word));
  }

  // With a stored word, settlement succeeds: no checked addition or subtraction fails.
  lemma SettlesShape(c: Config, now: nat, w: World, requestId: nat, pending: bool, unbooked: nat)
    requires Inv(c, w, pending, unbooked) && ValidTime(now)
    requires requestId in w.vrf.ready && requestId !in w.vrf.delivered
    ensures requestId in w.vrf.words
    ensures
      var l := w.lot;
      var id := l.currentDrawId;
      var d := l.DrawOf(id);
      var d1 := Settled(c, now, d, l.OwnersOf(id), w.vrf.words[requestId]);
      && !pending && id >= 1 && d.status == DRAWING && l.RequestDraw(requestId) == id && d.requestId == requestId
      && RoundOk(c, RoundAt(l, id), id, false)
      && Fulfilled(c, now, w, requestId, w.vrf.words[requestId]) ==
        Ok(w.(lot := l.(draws := l.draws[id := d1], activePool := 0,
                        pendingRollover := l.pendingRollover + (if d1.winner == ZERO then d.pool else 0),
                        outstandingPrizes := l.outstandingPrizes + (if d1.winner == ZERO then 0 else d.pool)),
              log := w.log + [Emit(now, LotteryDrawn(id, d1.luckyNumber, d1.winner, d.pool, d1.daoFee, d1.winnerPrize,
                                                     if d1.winner == ZERO then d.pool else 0))]))
  {
    hide History, Buckets, Requests, BoardOk;
    RequestFacts(w.lot, w.vrf, requestId);
    WaitingRound(c, w, requestId, pending, unbooked);
    RoundFacts(c, w.lot, pending, w.lot.currentDrawId);
    SettledRoundOk(c, now, RoundAt(w.lot, w.lot.currentDrawId), w.lot.currentDrawId, w.vrf.words[requestId]);
    BucketFacts(c, w.lot);
    LiabilitiesFit(c, w, pending, unbooked);
  }

  function AfterDelivery(w: World, requestId: nat): World {
    w.(vrf := w.vrf.(delivered := w.vrf.delivered + {requestId}))
  }

  lemma SettlesHistory(c: Config, now: nat, w: World, l1: Lot, requestId: nat, unbooked: nat)
    requires Inv(c, w, false, unbooked) && ValidTime(now)
    requires requestId in w.vrf.ready && requestId !in w.vrf.delivered
    requires Fulfilled(c, now, w, requestId, w.vrf.words[requestId]).Ok?
    requires l1 == Fulfilled(c, now, w, requestId, w.vrf.words[requestId]).value.lot
    ensures History(c, l1, false)
    ensures SameElsewhere(w.lot, l1, w.lot.currentDrawId)
    ensures RoundAt(l1, w.lot.currentDrawId) == RoundAt(w.lot, w.lot.currentDrawId).(
      d := Settled(c, now, w.lot.DrawOf(w.lot.currentDrawId), w.lot.OwnersOf(w.lot.currentDrawId),
          w.vrf.words[requestId]))
  {
    hide History, Requests, Buckets, RoundOk, Fulfilled, Settled;
    SettlesShape(c, now, w, requestId, false, unbooked);
    var id := w.lot.currentDrawId;
    var r := RoundAt(w.lot, id);
    SettledRoundOk(c, now, r, id, w.vrf.words[requestId]);
    assert RoundAt(l1, id) == r.(d := Settled(c, now, r.d, r.owners, w.vrf.words[requestId]));
    assert SameElsewhere(w.lot, l1, id);
    SettledKeeps(c, now, r.d, r.owners, w.vrf.words[requestId]);
    HistoryStep(c, w.lot, l1, id, false, false);
  }

  lemma SettledKeeps(c: Config, now: nat, d: Draw, owners: seq<Address>, word: nat)
    requires |owners| == POSITIONS
    ensures var d1 := Settled(c, now, d, owners, word);
      && d1.inheritedRollover == d.inheritedRollover && d1.pool == d.pool && d1.participantCount == d.participantCount
      && d1.requestId == d.requestId && d1.id == d.id && d1.startTime == d.startTime && d1.deadline == d.deadline
      && (d1.winner == ZERO ==> d1.status == NO_WINNER)
      && (d1.winner != ZERO && d.pool >= c.ticketPrice ==> d1.status == WINNER_DECLARED)
  {}

  lemma SettlesBuckets(c: Config, now: nat, w: World, l1: Lot, requestId: nat, unbooked: nat)
    requires Inv(c, w, false, unbooked) && ValidTime(now)
    requires requestId in w.vrf.ready && requestId !in w.vrf.delivered
    requires Fulfilled(c, now, w, requestId, w.vrf.words[requestId]).Ok?
    requires l1 == Fulfilled(c, now, w, requestId, w.vrf.words[requestId]).value.lot
    ensures Buckets(c, l1) && l1.Liabilities() == w.lot.Liabilities()
  {
    hide History, Requests, RoundOk, Fulfilled, Settled, BoardOk;
    SettlesShape(c, now, w, requestId, false, unbooked);
    SettlesHistory(c, now, w, l1, requestId, unbooked);
    var id := w.lot.currentDrawId;
    var r := RoundAt(w.lot, id);
    SettledRoundOk(c, now, r, id, w.vrf.words[requestId]);
    SettledKeeps(c, now, r.d, r.owners, w.vrf.words[requestId]);
    BucketFacts(c, w.lot);
    SumChange(c, w.lot, l1, id, id);
    hide Cost;
  }

  lemma SettlesRequests(c: Config, now: nat, w: World, w1: World, requestId: nat, unbooked: nat)
    requires Inv(c, w, false, unbooked) && ValidTime(now)
    requires requestId in w.vrf.ready && requestId !in w.vrf.delivered
    requires Fulfilled(c, now, w, requestId, w.vrf.words[requestId]).Ok?
    requires w1 == AfterDelivery(Fulfilled(c, now, w, requestId, w.vrf.words[requestId]).value, requestId)
    ensures Requests(w1.lot, w1.vrf)
  {
    hide History, Buckets, RoundOk, Fulfilled, Settled, Requests;
    RequestFacts(w.lot, w.vrf, requestId);
    SettlesHistory(c, now, w, w1.lot, requestId, unbooked);
    var l, l1 := w.lot, w1.lot;
    var id := l.currentDrawId;
    SettlesShape(c, now, w, requestId, false, unbooked);
    var r := RoundAt(l, id);
    SettledRoundOk(c, now, r, id, w.vrf.words[requestId]);
    SettledKeeps(c, now, r.d, r.owners, w.vrf.words[requestId]);
    SettledLucky(c, now, r.d, r.owners, w.vrf.words[requestId]);
    hide RoundAt;
    forall q | q in w1.vrf.requested
      ensures RequestOk(l1, w1.vrf, q)
    {
      RequestFacts(l, w.vrf, q);
      assert l1.RequestDraw(q) == l.RequestDraw(q);
    }
    RequestsFrom(l1, w1.vrf);
  }

  lemma SettledLucky(c: Config, now: nat, d: Draw, owners: seq<Address>, word: nat)
    requires |owners| == POSITIONS
    ensures Settled(c, now, d, owners, word).luckyNumber == word % 10 + 1
  {}

  lemma SettlesInv(c: Config, now: nat, w: World, w1: World, requestId: nat, pending: bool, unbooked: nat)
    requires Inv(c, w, pending, unbooked) && ValidTime(now)
    requires requestId in w.vrf.ready && requestId !in w.vrf.delivered
    requires Fulfilled(c, now, w, requestId, w.vrf.words[requestId]).Ok?
    requires w1 == AfterDelivery(Fulfilled(c, now, w, requestId, w.vrf.words[requestId]).value, requestId)
    ensures Inv(c, w1, pending, unbooked)
  {
    hide History, Requests, Buckets, RoundAt, Fulfilled, Settled;
    SettlesShape(c, now, w, requestId, pending, unbooked);
    SettlesHistory(c, now, w, w1.lot, requestId, unbooked);
    SettlesBuckets(c, now, w, w1.lot, requestId, unbooked);
    SettlesRequests(c, now, w, w1, requestId, unbooked);
  }

  /******* Calls that others can make at any time *******/

  // How a state may differ from an earlier one after unguarded calls: only the current round can
  // change, and only from DRAWING to its outcome.
  ghost predicate Interfered(w: World, w1: World, pending: bool) {
    var n := w.lot.currentDrawId;
    && w1.locked == w.locked
    && w1.lot.currentDrawId == n
    && SameElsewhere(w.lot, w1.lot, n)
    && (RoundAt(w.lot, n).d.status != DRAWING || pending ==>
      w1.lot == w.lot && w1.vrf == w.vrf.(bound := w1.vrf.bound, elsewhere := w1.vrf.elsewhere) && w1.log == w.log)
    && w1.lot.requestDraw == w.lot.requestDraw && w1.vrf.requested == w.vrf.requested
    && w1.lot.outstandingRefunds == w.lot.outstandingRefunds
    && w1.lot.outstandingPrizes >= w.lot.outstandingPrizes
    && w1.balance - w.balance == w1.donated - w.donated >= 0
    && w1.payments == w.payments
  }

  // Every settled round's request is delivered, so only a DRAWING round leaves a word to deliver.
  lemma SettlesInterferes(c: Config, now: nat, w: World, w1: World, requestId: nat, pending: bool, unbooked: nat)
    requires Inv(c, w, pending, unbooked) && ValidTime(now)
    requires requestId in w.vrf.ready && requestId !in w.vrf.delivered
    requires Fulfilled(c, now, w, requestId, w.vrf.words[requestId]).Ok?
    requires w1 == AfterDelivery(Fulfilled(c, now, w, requestId, w.vrf.words[requestId]).value, requestId)
    ensures Evolves(w, w1) && Interfered(w, w1, pending)
  {
    hide History, Requests, Buckets, RoundOk, Fulfilled, Settled, BoardOk;
    SettlesShape(c, now, w, requestId, pending, unbooked);
    SettlesHistory(c, now, w, w1.lot, requestId, unbooked);
    EvolvesReflexive(w);
    var n := w.lot.currentDrawId;
    var r := RoundAt(w.lot, n);
    SettledRoundOk(c, now, r, n, w.vrf.words[requestId]);
    SettledKeeps(c, now, r.d, r.owners, w.vrf.words[requestId]);
    forall i: nat | 1 <= i <= n
      ensures RoundEvolves(RoundAt(w.lot, i), RoundAt(w1.lot, i))
    {
      assert RoundEvolves(RoundAt(w.lot, i), RoundAt(w.lot, i));
    }
  }

  lemma StoredInv(c: Config, w: World, w1: World, requestId: nat, value: nat, pending: bool, unbooked: nat)
    requires Inv(c, w, pending, unbooked)
    requires requestId in w.vrf.requested && requestId !in w.vrf.ready
    requires w1 == w.(vrf := w.vrf.(words := w.vrf.words[requestId := value], ready := w.vrf.ready + {requestId}))
    ensures Inv(c, w1, pending, unbooked) && Evolves(w, w1) && Interfered(w, w1, pending)
    ensures !pending && requestId !in w.vrf.delivered
  {
    hide History, Buckets, RoundAt;
    RequestFacts(w.lot, w.vrf, requestId);
    WaitingRound(c, w, requestId, pending, unbooked);
    EvolvesReflexive(w);
    RoundAtDraw(w.lot, w.lot.currentDrawId);
    forall q | q in w1.vrf.requested
      ensures RequestOk(w1.lot, w1.vrf, q)
    {
      assert RequestOk(w.lot, w.vrf, q);
    }
  }

  lemma RoundAtDraw(l: Lot, id: nat)
    ensures RoundAt(l, id).d == l.DrawOf(id)
  {}

  lemma NoInterference(w: World, pending: bool)
    ensures Interfered(w, w, pending)
  {}

  lemma InterferedTransitive(w0: World, w1: World, w2: World, pending: bool)
    requires Interfered(w0, w1, pending) && Interfered(w1, w2, pending)
    ensures Interfered(w0, w2, pending)
  {
    hide RoundAt;
  }

  lemma DeliveredInv(c: Config, now: nat, w: World, requestId: nat, pending: bool, unbooked: nat)
    requires Inv(c, w, pending, unbooked) && ValidTime(now)
    ensures Delivered(c, now, w, requestId).Ok? <==> requestId in w.vrf.ready
    ensures Delivered(c, now, w, requestId).Ok? ==>
      var w1 := Delivered(c, now, w, requestId).value;
      Inv(c, w1, pending, unbooked) && Evolves(w, w1) && Interfered(w, w1, pending) && requestId in w1.vrf.delivered
  {
    EvolvesReflexive(w);
    if requestId in w.vrf.ready && requestId !in w.vrf.delivered {
      SettlesShape(c, now, w, requestId, pending, unbooked);
      var w1 := AfterDelivery(Fulfilled(c, now, w, requestId, w.vrf.words[requestId]).value, requestId);
      SettlesInv(c, now, w, w1, requestId, pending, unbooked);
      SettlesInterferes(c, now, w, w1, requestId, pending, unbooked);
    }
  }

  lemma CalledBackInv(c: Config, now: nat, w: World, requestId: nat, values: seq<nat>, runs: bool, pending: bool,
                      unbooked: nat)
    requires Inv(c, w, pending, unbooked) && ValidTime(now)
    ensures
      var w1 := CalledBack(c, now, w, requestId, values, runs);
      Inv(c, w1, pending, unbooked) && Evolves(w, w1) && Interfered(w, w1, pending)
  {
    hide Inv, Evolves, Interfered, Fulfilled;
    NoInterference(w, pending);
    EvolvesReflexive(w);
    if requestId in w.vrf.requested && requestId !in w.vrf.ready && |values| != 0 {
      var w1 := w.(vrf := w.vrf.(words := w.vrf.words[requestId := values[0]], ready := w.vrf.ready + {requestId}));
      StoredInv(c, w, w1, requestId, values[0], pending, unbooked);
      if runs && w.vrf.bound {
        DeliveredInv(c, now, w1, requestId, pending, unbooked);
        var w2 := Delivered(c, now, w1, requestId).value;
        EvolvesTransitive(w, w1, w2);
        InterferedTransitive(w, w1, w2, pending);
      }
    }
  }

  predicate Unguarded(call: Call) {
    call.FinalizeDraw? || call.Fulfill? || call.Callback? || call.Deliver? || call.SetLottery? || call.Donate?
  }

  lemma SetLotteryInv(c: Config, w: World, target: Target, pending: bool, unbooked: nat)
    requires Inv(c, w, pending, unbooked) && !w.vrf.bound
    ensures
      var w1 := w.(vrf := w.vrf.(bound := target.ThisLottery?, elsewhere := target.OtherContract?));
      Inv(c, w1, pending, unbooked) && Evolves(w, w1) && Interfered(w, w1, pending)
  {
    hide History, Buckets, RoundAt;
    EvolvesReflexive(w);
  }

  lemma DonateInv(c: Config, w: World, amount: nat, pending: bool, unbooked: nat)
    requires Inv(c, w, pending, unbooked) && w.balance + amount <= MAX_UINT256
    ensures
      var w1 := w.(balance := w.balance + amount, donated := w.donated + amount);
      Inv(c, w1, pending, unbooked) && Evolves(w, w1) && Interfered(w, w1, pending)
  {
    hide History, Buckets, Requests, RoundAt;
    EvolvesReflexive(w);
  }

  lemma UnguardedCall(c: Config, now: nat, w: World, call: Call, pending: bool, unbooked: nat)
    requires Inv(c, w, pending, unbooked) && ValidTime(now) && Unguarded(call)
    ensures
      var w1 := Exec(c, now, w, call);
      Inv(c, w1, pending, unbooked) && Evolves(w, w1) && Interfered(w, w1, pending)
  {
    hide Inv, Evolves, Interfered, CalledBack, Delivered;
    EvolvesReflexive(w);
    NoInterference(w, pending);
    match call
    case FinalizeDraw(id) =>
      DeliveredInv(c, now, w, w.lot.DrawOf(id).requestId, pending, unbooked);
    case Callback(sender, requestId, values, runs) =>
      CalledBackInv(c, now, w, requestId, values, runs, pending, unbooked);
    case Deliver(requestId) =>
      DeliveredInv(c, now, w, requestId, pending, unbooked);
    case SetLottery(sender, target) =>
      if !w.vrf.bound {
        SetLotteryInv(c, w, target, pending, unbooked);
      }
    case Donate(amount) =>
      if w.balance + amount <= MAX_UINT256 {
        DonateInv(c, w, amount, pending, unbooked);
      }
    case Fulfill(_, _, _) =>
  }

  lemma LockedRefuses(c: Config, now: nat, w: World, call: Call)
    requires w.locked && !Unguarded(call)
    ensures Try(c, now, w, call) == Revert(ReentrantCall)
  {}

  lemma RefusedExec(c: Config, now: nat, w: World, call: Call)
    requires Try(c, now, w, call).Revert?
    ensures Exec(c, now, w, call) == w
  {}

  // Any call made while the guard is held: the guarded functions refuse it, the others keep everything.
  lemma LockedCall(c: Config, now: nat, w: World, call: Call, pending: bool, unbooked: nat)
    requires Inv(c, w, pending, unbooked) && ValidTime(now) && w.locked
    ensures
      var w1 := Exec(c, now, w, call);
      Inv(c, w1, pending, unbooked) && Evolves(w, w1) && Interfered(w, w1, pending)
  {
    hide Inv, Evolves, Interfered, Try;
    if Unguarded(call) {
      UnguardedCall(c, now, w, call, pending, unbooked);
    } else {
      LockedRefuses(c, now, w, call);
      EvolvesReflexive(w);
      NoInterference(w, pending);
    }
  }

  lemma {:induction false} LockedCalls(c: Config, now: nat, w: World, calls: seq<Call>, pending: bool, unbooked: nat)
    requires Inv(c, w, pending, unbooked) && ValidTime(now) && w.locked
    ensures
      var w1 := RunAll(c, now, w, calls);
      Inv(c, w1, pending, unbooked) && Evolves(w, w1) && Interfered(w, w1, pending) && w1.locked
    decreases |calls|
  {
    hide Inv, Evolves, Exec, RoundAt;
    NoInterference(w, pending);
    EvolvesReflexive(w);
    if calls != [] {
      var w1 := Exec(c, now, w, calls[0]);
      LockedCall(c, now, w, calls[0], pending, unbooked);
      LockedCalls(c, now, w1, calls[1..], pending, unbooked);
      var w2 := RunAll(c, now, w1, calls[1..]);
      EvolvesTransitive(w, w1, w2);
      InterferedTransitive(w, w1, w2, pending);
    }
  }
}
