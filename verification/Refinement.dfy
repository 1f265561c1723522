/**
 Folding the contract's log gives the contract's state: the projection of every run, refreshed at
 a time, is what a reader of the contract sees at that time.
 */
module Refinement {
  import opened Basics
  import opened Contract
  import opened Invariants
  import opened Preservation
  import opened Transactions
  import opened Projection

  // What the indexer stores for a round: the contract's record without the derived fields.
  function Stored(c: Config, l: Lot, id: nat): View {
    ChainDraw(c, l, id, 0).(remainingSeconds := 0, canPerformDraw := false)
  }

  function Projected(c: Config, l: Lot): Draws {
    map i: nat | 1 <= i <= l.currentDrawId :: Stored(c, l, i)
  }

  // The fold of the log is the projection of the state, except that `behind` holds the records of
  // draws whose change is in storage while its event is not yet emitted.
  ghost predicate Tracks(c: Config, w: World, behind: Draws) {
    Fold(w.log) == Ok(Projected(c, w.lot) + behind)
  }

  lemma StoredFrame(c: Config, l: Lot, l1: Lot, id: nat)
    requires RoundAt(l1, id) == RoundAt(l, id)
    ensures Stored(c, l1, id) == Stored(c, l, id)
  {
    assert ChainTickets(l1, id) == ChainTickets(l, id);
  }

  lemma FoldAppend(log: seq<Emit>, e: Emit)
    ensures Fold(log + [e]) == match Fold(log) case Ok(draws) => Step(draws, e) case Revert(x) => Revert(x)
  {
    assert (log + [e])[..|log|] == log;
  }

  // One event, about one draw that is not behind.
  lemma TrackEvent(c: Config, w: World, w1: World, e: Emit, behind: Draws)
    requires Tracks(c, w, behind) && w1.log == w.log + [e]
    requires w.lot.currentDrawId <= w1.lot.currentDrawId && SameElsewhere(w.lot, w1.lot, e.payload.drawId)
    requires w1.lot.currentDrawId == (if e.payload.DrawStarted? then w.lot.currentDrawId + 1 else w.lot.currentDrawId)
    requires 1 <= e.payload.drawId <= w1.lot.currentDrawId && e.payload.drawId !in behind
    requires e.payload.DrawStarted? ==> e.payload.drawId == w1.lot.currentDrawId
    requires
      var before := if e.payload.DrawStarted? then None else Some(Stored(c, w.lot, e.payload.drawId));
      Apply(before, e) == Ok(Stored(c, w1.lot, e.payload.drawId))
    ensures Tracks(c, w1, behind)
  {
    hide Stored, Apply, RoundAt, Fold, SameElsewhere;
    FoldAppend(w.log, e);
    var id := e.payload.drawId;
    assert Find(Projected(c, w.lot) + behind, id) ==
      if e.payload.DrawStarted? then None else Some(Stored(c, w.lot, id));
    hide Projected;
    ProjectedStep(c, w.lot, w1.lot, id, behind);
  }

  // A change of one record, or a new last one.
  lemma ProjectedStep(c: Config, l: Lot, l1: Lot, id: nat, behind: Draws)
    requires SameElsewhere(l, l1, id) && 1 <= id <= l1.currentDrawId && id !in behind
    requires l1.currentDrawId == l.currentDrawId || id == l1.currentDrawId == l.currentDrawId + 1
    ensures (Projected(c, l) + behind)[id := Stored(c, l1, id)] == Projected(c, l1) + behind
  {
    hide Stored, RoundAt;
    forall i: nat | i != id
      ensures Stored(c, l1, i) == Stored(c, l, i)
    {
      StoredFrame(c, l, l1, i);
    }
  }

  // A change of storage whose event is still to come.
  lemma TrackBehind(c: Config, w: World, w1: World, id: nat)
    requires Tracks(c, w, map[]) && w1.log == w.log && w1.lot.currentDrawId == w.lot.currentDrawId
    requires SameElsewhere(w.lot, w1.lot, id) && 1 <= id <= w.lot.currentDrawId
    ensures Tracks(c, w1, map[id := Stored(c, w.lot, id)])
  {
    hide Stored, RoundAt, Fold;
    forall i: nat | 1 <= i <= w.lot.currentDrawId && i != id
      ensures Stored(c, w1.lot, i) == Stored(c, w.lot, i)
    {
      StoredFrame(c, w.lot, w1.lot, i);
    }
    assert Projected(c, w1.lot) + map[id := Stored(c, w.lot, id)] == Projected(c, w.lot) + map[];
  }

  lemma ProjectedCaughtUp(c: Config, l: Lot, l1: Lot, id: nat, before: View)
    requires l1.currentDrawId == l.currentDrawId && SameElsewhere(l, l1, id) && 1 <= id <= l.currentDrawId
    ensures (Projected(c, l) + map[id := before])[id := Stored(c, l1, id)] == Projected(c, l1) + map[]
  {
    hide *;
    ProjectedStep(c, l, l1, id, map[]);
    var draws := Projected(c, l);
    assert draws + map[] == draws;
    assert (draws + map[id := before])[id := Stored(c, l1, id)] == draws[id := Stored(c, l1, id)];
  }

  // The event of a change that was behind.
  lemma TrackCaughtUp(c: Config, w: World, w1: World, e: Emit, before: View)
    requires Tracks(c, w, map[e.payload.drawId := before]) && w1.log == w.log + [e]
    requires w1.lot.currentDrawId == w.lot.currentDrawId && SameElsewhere(w.lot, w1.lot, e.payload.drawId)
    requires 1 <= e.payload.drawId <= w.lot.currentDrawId
    requires Apply(Some(before), e) == Ok(Stored(c, w1.lot, e.payload.drawId))
    ensures Tracks(c, w1, map[])
  {
    hide Stored, Apply, Fold, Projected, SameElsewhere;
    FoldAppend(w.log, e);
    ProjectedCaughtUp(c, w.lot, w1.lot, e.payload.drawId, before);
    var draws := Projected(c, w.lot) + map[e.payload.drawId := before];
    assert Find(draws, e.payload.drawId) == Some(before);
  }

  lemma TrackSame(c: Config, w: World, w1: World, behind: Draws)
    requires Tracks(c, w, behind) && w1.log == w.log && w1.lot == w.lot
    ensures Tracks(c, w1, behind)
  {}

  /******* Each event moves the record as storage moves *******/

  lemma BoardAt(c: Config, l: Lot, id: nat, k: nat)
    requires k < POSITIONS
    ensures Stored(c, l, id).tickets[k] == ChainTicket(l, id, k)
  {}

  lemma StartEvent(c: Config, now: nat, w: World)
    requires AtRest(c, w) && ValidTime(now) && w.lot.CanStartDraw()
    ensures
      var w1 := Started(c, now, w);
      var e := w1.log[|w.log|];
      && w1.log == w.log + [e] && e.payload.DrawStarted? && e.payload.drawId == w1.lot.currentDrawId
      && Apply(None, e) == Ok(Stored(c, w1.lot, w1.lot.currentDrawId))
  {
    hide History, Buckets, Requests;
    StartedShape(c, now, w);
    SmallMinimum(c);
    hide Inv, RoundOk, ValidConfig;
    var w1 := Started(c, now, w);
    assert RoundAt(w1.lot, w1.lot.currentDrawId).owners == NO_OWNERS;
    EmptyBoard(w1.lot, w1.lot.currentDrawId);
  }

  lemma SmallMinimum(c: Config)
    requires ValidConfig(c)
    ensures 1 <= c.minimum <= 5
  {}

  lemma EmptyBoard(l: Lot, id: nat)
    requires l.OwnersOf(id) == NO_OWNERS
    ensures ChainTickets(l, id) == EMPTY_BOARD
  {}

  lemma BuyEvent(c: Config, now: nat, w: World, sender: Outsider, id: nat)
    requires Inv(c, w, false, c.ticketPrice) && BuyRefused(now, w, sender, id).None?
    ensures Bought(c, now, w, sender, id).Ok?
    ensures
      var w1 := Bought(c, now, w, sender, id).value;
      var e := w1.log[|w.log|];
      && w1.log == w.log + [e] && e.payload.drawId == id && !e.payload.DrawStarted?
      && Apply(Some(Stored(c, w.lot, id)), e) == Ok(Stored(c, w1.lot, id))
  {
    BoughtRound(c, now, w, sender, id);
    BoughtOk(c, now, w, sender, id);
    hide Inv;
    var w1 := Bought(c, now, w, sender, id).value;
    BuyBoard(c, w.lot, w1.lot, id, sender);
    hide RoundOk, RoundEvolves;
  }

  lemma BuyBoard(c: Config, l: Lot, l1: Lot, id: nat, sender: Address)
    requires RoundOk(c, RoundAt(l, id), id, false) && RoundAt(l, id).d.participantCount < MAX_PARTICIPANTS
      && RoundAt(l, id).d.status == ACTIVE
    requires sender !in l.TicketsOf(id)
    requires RoundAt(l1, id) == WithTicket(c, RoundAt(l, id), sender) && RoundOk(c, RoundAt(l1, id), id, false)
      && sender > PROVIDER
    ensures
      var n := l.DrawOf(id).participantCount + 1;
      && l.DrawOf(id).id == id
      && Stored(c, l, id).tickets[n - 1].wallet == None
      && (forall k :: 0 <= k < POSITIONS ==> !Holds(Stored(c, l, id).tickets[k], sender))
      && (var tickets := Stored(c, l, id).tickets;
         Stored(c, l1, id).tickets == tickets[n - 1 := tickets[n - 1].(wallet := Some(sender))])
  {
    var n := l.DrawOf(id).participantCount + 1;
    var r, r1 := RoundAt(l, id), RoundAt(l1, id);
    assert l1.OwnersOf(id) == l.OwnersOf(id)[n - 1 := sender];
    forall k: nat | k < POSITIONS
      ensures
        var t := Stored(c, l, id).tickets[k];
        Stored(c, l1, id).tickets[k] == if k == n - 1 then t.(wallet := Some(sender)) else t
      ensures !Holds(Stored(c, l, id).tickets[k], sender)
      ensures k == n - 1 ==> Stored(c, l, id).tickets[k].wallet == None
    {
      BoardAt(c, l, id, k);
      BoardAt(c, l1, id, k);
      assert PositionOk(r, k);
    }
  }

  lemma CancelEvent(c: Config, now: nat, w: World, id: nat)
    requires AtRest(c, w) && ValidTime(now) && w.lot.CanPerformDraw(id, now)
      && w.lot.DrawOf(id).participantCount < c.minimum
    ensures Cancelled(c, now, w, id).Ok?
    ensures
      var w1 := Cancelled(c, now, w, id).value;
      var e := w1.log[|w.log|];
      && w1.log == w.log + [e] && e.payload.drawId == id && !e.payload.DrawStarted?
      && Apply(Some(Stored(c, w.lot, id)), e) == Ok(Stored(c, w1.lot, id))
  {
    CancelledRound(c, now, w, id);
    hide Inv;
    var l, l1 := w.lot, Cancelled(c, now, w, id).value.lot;
    UnsettledFacts(c, RoundAt(l, id), id, false);
    hide RoundOk;
    assert ChainTickets(l1, id) == ChainTickets(l, id);
  }

  lemma UnsettledFacts(c: Config, r: Round, id: nat, pending: bool)
    requires RoundOk(c, r, id, pending)
    ensures r.d.id == id
    ensures !Final(r.d.status) ==> Unsettled(r.d) && r.refunded == {}
    ensures r.d.status == ACTIVE ==> r.d.requestId == 0
    ensures Won(r.d.status) ==> r.d.winner != ZERO && 1 <= r.d.luckyNumber <= POSITIONS && r.d.finalizedAt != 0
  {
    hide BoardOk;
  }

  lemma RequestEvent(c: Config, now: nat, l: Lot, l1: Lot, id: nat, requestId: nat)
    requires RoundOk(c, RoundAt(l, id), id, false) && RoundAt(l, id).d.status == ACTIVE && requestId != 0
    requires RoundAt(l1, id) == RoundAt(l, id).(d := RoundAt(l, id).d.(status := DRAWING, requestId := requestId))
    ensures Apply(Some(Stored(c, l, id)), Emit(now, RandomnessRequested(id, requestId))) == Ok(Stored(c, l1, id))
  {
    UnsettledFacts(c, RoundAt(l, id), id, false);
    hide RoundOk;
    assert ChainTickets(l1, id) == ChainTickets(l, id);
  }

  // One more event, which moves the current draw's record as its storage moved.
  ghost predicate CurrentMoved(c: Config, w: World, w1: World) {
    && |w1.log| == |w.log| + 1
    && var e := w1.log[|w.log|];
    && w1.log == w.log + [e] && e.payload.drawId == w.lot.currentDrawId == w1.lot.currentDrawId >= 1
    && !e.payload.DrawStarted?
    && Apply(Some(Stored(c, w.lot, w.lot.currentDrawId)), e) == Ok(Stored(c, w1.lot, w.lot.currentDrawId))
  }

  lemma SettleEvent(c: Config, now: nat, w: World, requestId: nat, unbooked: nat)
    requires Inv(c, w, false, unbooked) && ValidTime(now)
    requires requestId in w.vrf.ready && requestId !in w.vrf.delivered
    ensures requestId in w.vrf.words && Fulfilled(c, now, w, requestId, w.vrf.words[requestId]).Ok?
    ensures CurrentMoved(c, w, Fulfilled(c, now, w, requestId, w.vrf.words[requestId]).value)
  {
    assert ValidConfig(c);
    hide Inv, ValidConfig;
    SettlesShape(c, now, w, requestId, false, unbooked);
    var w1 := Fulfilled(c, now, w, requestId, w.vrf.words[requestId]).value;
    SettlesHistory(c, now, w, w1.lot, requestId, unbooked);
    hide Fulfilled, Fee;
    var id := w.lot.currentDrawId;
    var word := w.vrf.words[requestId];
    UnsettledFacts(c, RoundAt(w.lot, id), id, false);
    SettledRoundOk(c, now, RoundAt(w.lot, id), id, word);
    hide RoundOk;
    assert ChainTickets(w1.lot, id) == ChainTickets(w.lot, id);
    SettledView(c, now, w.lot, w1.lot, id, word);
  }

  lemma SettledView(c: Config, now: nat, l: Lot, l1: Lot, id: nat, word: nat)
    requires ValidTime(now) && l.DrawOf(id).status == DRAWING && Unsettled(l.DrawOf(id))
      && l.DrawOf(id).pool >= c.ticketPrice
    requires l.DrawOf(id).id == id
    requires RoundAt(l1, id) == RoundAt(l, id).(d := Settled(c, now, l.DrawOf(id), l.OwnersOf(id), word))
    requires ChainTickets(l1, id) == ChainTickets(l, id)
    ensures
      var d, d1 := l.DrawOf(id), l1.DrawOf(id);
      Apply(Some(Stored(c, l, id)),
            Emit(now, LotteryDrawn(id, d1.luckyNumber, d1.winner, d.pool, d1.daoFee, d1.winnerPrize,
                if d1.winner == ZERO then d.pool else 0)))
        == Ok(Stored(c, l1, id))
  {
    hide Fee, ChainTickets;
  }

  lemma PrizeEvent(c: Config, now: nat, l: Lot, l1: Lot, id: nat)
    requires RoundOk(c, RoundAt(l, id), id, false) && l.DrawOf(id).status == WINNER_DECLARED
    requires RoundAt(l1, id) == RoundAt(l, id).(d := RoundAt(l, id).d.(status := COMPLETED))
    ensures
      var d := l.DrawOf(id);
      Apply(Some(Stored(c, l, id)),
          Emit(now, PrizeClaimed(id, d.winner, d.winnerPrize, c.dao, d.daoFee))) == Ok(Stored(c, l1, id))
  {
    UnsettledFacts(c, RoundAt(l, id), id, false);
    hide RoundOk;
    assert ChainTickets(l1, id) == ChainTickets(l, id);
  }

  lemma RefundEvent(c: Config, now: nat, l: Lot, l1: Lot, id: nat, who: Address)
    requires RoundOk(c, RoundAt(l, id), id, false) && l.DrawOf(id).status == CANCELLED
    requires who in l.TicketsOf(id) && who !in l.RefundedOf(id)
    requires RoundAt(l1, id) == RoundAt(l, id).(refunded := RoundAt(l, id).refunded + {who})
    ensures Apply(Some(Stored(c, l, id)), Emit(now, RefundClaimed(id, who, c.ticketPrice))) == Ok(Stored(c, l1, id))
  {
    var r := RoundAt(l, id);
    assert HolderOk(r, who);
    var k := r.tickets[who] - 1;
    assert PositionOk(r, k);
    var before, after := Stored(c, l, id).tickets, Stored(c, l1, id).tickets;
    forall j: nat | j < POSITIONS
      ensures Holds(before[j], who) <==> j == k
      ensures after[j] == if j == k then before[j].(refunded := true) else before[j]
    {
      BoardAt(c, l, id, j);
      BoardAt(c, l1, id, j);
      assert PositionOk(r, j);
    }
    BoardAt(c, l, id, k);
    assert !before[k].refunded;
    RefundFound(before, who, k);
    assert after == before[k := before[k].(refunded := true)];
  }

  /******* Calls under the guard *******/

  // Draws whose records are behind are not the one that may settle meanwhile.
  ghost predicate Quiet(w: World, behind: Draws, pending: bool) {
    forall i :: i in behind ==> pending || w.lot.DrawOf(i).status != DRAWING
  }

  lemma DeliveredTracks(c: Config, now: nat, w: World, requestId: nat, behind: Draws, pending: bool, unbooked: nat)
    requires Inv(c, w, pending, unbooked) && ValidTime(now) && Tracks(c, w, behind) && Quiet(w, behind, pending)
    ensures Delivered(c, now, w, requestId).Ok? ==> Tracks(c, Delivered(c, now, w, requestId).value, behind)
  {
    hide Inv, Apply, Stored;
    if requestId in w.vrf.ready && requestId !in w.vrf.delivered {
      SettlesShape(c, now, w, requestId, pending, unbooked);
      SettleEvent(c, now, w, requestId, unbooked);
      var w1 := Fulfilled(c, now, w, requestId, w.vrf.words[requestId]).value;
      SettlesHistory(c, now, w, w1.lot, requestId, unbooked);
      hide Fulfilled, Tracks, RoundAt;
      TrackEvent(c, w, w1, w1.log[|w.log|], behind);
      TrackSame(c, w1, AfterDelivery(w1, requestId), behind);
    }
  }

  lemma CalledBackTracks(c: Config, now: nat, w: World, requestId: nat, values: seq<nat>, runs: bool, behind: Draws,
                         pending: bool, unbooked: nat)
    requires Inv(c, w, pending, unbooked) && ValidTime(now) && Tracks(c, w, behind) && Quiet(w, behind, pending)
    ensures Tracks(c, CalledBack(c, now, w, requestId, values, runs), behind)
  {
    hide Inv, Fulfilled, Stored, Fold, Projected;
    if requestId in w.vrf.requested && requestId !in w.vrf.ready && |values| != 0 {
      var w1 := w.(vrf := w.vrf.(words := w.vrf.words[requestId := values[0]], ready := w.vrf.ready + {requestId}));
      StoredInv(c, w, w1, requestId, values[0], pending, unbooked);
      DeliveredTracks(c, now, w1, requestId, behind, pending, unbooked);
    }
  }

  lemma UnguardedTracks(c: Config, now: nat, w: World, call: Call, behind: Draws, pending: bool, unbooked: nat)
    requires Inv(c, w, pending, unbooked) && ValidTime(now) && Tracks(c, w, behind) && Quiet(w, behind, pending)
      && Unguarded(call)
    ensures Tracks(c, Exec(c, now, w, call), behind)
  {
    hide Inv, CalledBack, Delivered, Stored, Fold, Projected;
    match call
    case FinalizeDraw(id) => DeliveredTracks(c, now, w, w.lot.DrawOf(id).requestId, behind, pending, unbooked);
    case Callback(sender, requestId, values, runs) => CalledBackTracks(c, now, w, requestId, values, runs, behind,
      pending, unbooked);
    case Deliver(requestId) => DeliveredTracks(c, now, w, requestId, behind, pending, unbooked);
    case _ =>
  }

  lemma QuietStays(w: World, w1: World, behind: Draws, pending: bool)
    requires Quiet(w, behind, pending) && Interfered(w, w1, pending)
    ensures Quiet(w1, behind, pending)
  {
    forall i | i in behind && !pending
      ensures w1.lot.DrawOf(i).status != DRAWING
    {
      assert RoundAt(w1.lot, i) == RoundAt(w.lot, i);
    }
  }

  lemma {:induction false} LockedTracks(c: Config, now: nat, w: World, calls: seq<Call>, behind: Draws, pending: bool,
                                        unbooked: nat)
    requires Inv(c, w, pending, unbooked) && ValidTime(now) && w.locked && Tracks(c, w, behind)
      && Quiet(w, behind, pending)
    ensures Tracks(c, RunAll(c, now, w, calls), behind)
    decreases |calls|
  {
    hide Inv, Exec, Tracks, Evolves;
    if calls != [] {
      var w1 := Exec(c, now, w, calls[0]);
      LockedCall(c, now, w, calls[0], pending, unbooked);
      if Unguarded(calls[0]) {
        UnguardedTracks(c, now, w, calls[0], behind, pending, unbooked);
      } else {
        LockedRefuses(c, now, w, calls[0]);
        RefusedExec(c, now, w, calls[0]);
      }
      QuietStays(w, w1, behind, pending);
      LockedTracks(c, now, w1, calls[1..], behind, pending, unbooked);
    }
  }

  lemma TokenInTracks(c: Config, now: nat, w: World, from: Address, pay: TokenCall, amount: nat)
    requires Inv(c, w, false, 0) && ValidTime(now) && w.locked && Tracks(c, w, map[])
    ensures TokenIn(c, now, w, from, pay, amount).Ok? ==> Tracks(c, TokenIn(c, now, w, from, pay, amount).value, map[])
  {
    hide Inv, Tracks, Evolves, RunAll;
    LockedTracks(c, now, w, pay.pre, map[], false, 0);
    LockedCalls(c, now, w, pay.pre, false, 0);
    var w1 := RunAll(c, now, w, pay.pre);
    if TokenIn(c, now, w, from, pay, amount).Ok? {
      var w2 := Received(w1, from, amount);
      TrackSame(c, w1, w2, map[]);
      MoreUnbooked(c, w1, from, amount, 0);
      LockedTracks(c, now, w2, pay.post, map[], false, amount);
    }
  }

  lemma TokenOutTracks(c: Config, now: nat, w: World, to: Address, pay: TokenCall, amount: nat, behind: Draws,
                       unbooked: nat)
    requires Inv(c, w, false, unbooked) && ValidTime(now) && w.locked && amount <= unbooked
    requires Tracks(c, w, behind) && Quiet(w, behind, false) && pay.succeeds
    ensures TokenOut(c, now, w, to, pay, amount).Ok?
    ensures Tracks(c, TokenOut(c, now, w, to, pay, amount).value, behind)
      && Quiet(TokenOut(c, now, w, to, pay, amount).value, behind, false)
  {
    hide Inv, Tracks, Evolves, RunAll;
    TokenOutFacts(c, now, w, to, pay, amount, unbooked);
    LockedTracks(c, now, w, pay.pre, behind, false, unbooked);
    LockedCalls(c, now, w, pay.pre, false, unbooked);
    var w1 := RunAll(c, now, w, pay.pre);
    QuietStays(w, w1, behind, false);
    LessUnbooked(c, w1, to, amount, unbooked);
    var w2 := Sent(w1, to, amount);
    TrackSame(c, w1, w2, behind);
    LockedTracks(c, now, w2, pay.post, behind, false, unbooked - amount);
    LockedCalls(c, now, w2, pay.post, false, unbooked - amount);
    QuietStays(w2, RunAll(c, now, w2, pay.post), behind, false);
  }

  /******* Every transaction *******/

  lemma BuyTracks(c: Config, now: nat, w: World, sender: Outsider, id: nat, pay: TokenCall)
    requires AtRest(c, w) && ValidTime(now) && Tracks(c, w, map[])
    ensures TryBuy(c, now, w, sender, id, pay).Ok? ==> Tracks(c, TryBuy(c, now, w, sender, id, pay).value, map[])
  {
    hide Inv, Evolves, RoundAt, TokenIn, Bought, Tracks, Apply, Stored;
    if TryBuy(c, now, w, sender, id, pay).Ok? {
      var w0 := w.(locked := true);
      Locking(c, w);
      TrackSame(c, w, w0, map[]);
      TokenInFacts(c, now, w0, sender, pay, c.ticketPrice);
      TokenInTracks(c, now, w0, sender, pay, c.ticketPrice);
      var w1 := TokenIn(c, now, w0, sender, pay, c.ticketPrice).value;
      BuyingRound(now, w, sender, id);
      Unlocking(c, w1, c.ticketPrice);
      var w2 := w1.(locked := false);
      TrackSame(c, w1, w2, map[]);
      BoughtRound(c, now, w2, sender, id);
      BuyEvent(c, now, w2, sender, id);
      var w3 := Bought(c, now, w2, sender, id).value;
      TrackEvent(c, w2, w3, w3.log[|w2.log|], map[]);
    }
  }

  lemma PerformTracks(c: Config, now: nat, w: World, id: nat, during: seq<Call>, answer: Option<nat>)
    requires AtRest(c, w) && ValidTime(now) && Tracks(c, w, map[])
    ensures TryPerform(c, now, w, id, during, answer).Ok? ==>
      Tracks(c, TryPerform(c, now, w, id, during, answer).value, map[])
  {
    hide Inv, Evolves, RoundAt, RunAll, Registered, Cancelled, Tracks, Apply, Stored;
    if TryPerform(c, now, w, id, during, answer).Ok? {
      if w.lot.DrawOf(id).participantCount < c.minimum {
        CancelledRound(c, now, w, id);
        CancelEvent(c, now, w, id);
        var w1 := Cancelled(c, now, w, id).value;
        TrackEvent(c, w, w1, w1.log[|w.log|], map[]);
      } else {
        RegisteredTracks(c, now, w, id, during, answer.value);
      }
    }
  }

  lemma RegisteredTracks(c: Config, now: nat, w: World, id: nat, during: seq<Call>, requestId: nat)
    requires AtRest(c, w) && ValidTime(now) && Tracks(c, w, map[])
    requires w.lot.CanPerformDraw(id, now) && w.lot.DrawOf(id).participantCount >= c.minimum
    requires Registered(now, RunAll(c, now, Requesting(w, id), during), id, requestId).Ok?
    ensures Tracks(c, Registered(now, RunAll(c, now, Requesting(w, id), during), id, requestId).value, map[])
  {
    hide Inv, Evolves, RunAll, Tracks, Apply, Stored;
    var w1 := Requesting(w, id);
    RequestingInv(c, now, w, id);
    CurrentRound(c, w, id);
    assert SameElsewhere(w.lot, w1.lot, id);
    TrackBehind(c, w, w1, id);
    var behind := map[id := Stored(c, w.lot, id)];
    LockedTracks(c, now, w1, during, behind, true, 0);
    LockedCalls(c, now, w1, during, true, 0);
    var w2 := RunAll(c, now, w1, during);
    assert w2.lot == w1.lot;
    RegisteredShape(now, w2, id, requestId);
    var w3 := Registered(now, w2, id, requestId).value;
    RequestEvent(c, now, w.lot, w3.lot, id, requestId);
    TrackCaughtUp(c, w2, w3, Emit(now, RandomnessRequested(id, requestId)), Stored(c, w.lot, id));
  }

  lemma CurrentRound(c: Config, w: World, id: nat)
    requires AtRest(c, w) && 1 <= id <= w.lot.currentDrawId
    ensures RoundOk(c, RoundAt(w.lot, id), id, false)
  {
    hide Buckets, Requests, RoundOk;
    RoundFacts(c, w.lot, false, id);
  }

  lemma StartedId(c: Config, w: World, id: nat)
    requires AtRest(c, w) && w.lot.DrawOf(id).status != ACTIVE
    ensures 1 <= id <= w.lot.currentDrawId && RoundOk(c, RoundAt(w.lot, id), id, false)
  {
    hide Buckets, Requests, RoundOk;
    OnlyRounds(c, w.lot, false, id);
    RoundFacts(c, w.lot, false, id);
  }

  lemma PrizeTracks(c: Config, now: nat, w: World, sender: Outsider, id: nat, toDao: TokenCall, toWinner: TokenCall)
    requires AtRest(c, w) && ValidTime(now) && Tracks(c, w, map[])
    ensures TryPrize(c, now, w, sender, id, toDao, toWinner).Ok? ==>
      Tracks(c, TryPrize(c, now, w, sender, id, toDao, toWinner).value, map[])
  {
    hide Inv, Evolves, TokenOut, Tracks, Apply, Stored, Interfered, RoundOk;
    var d := w.lot.DrawOf(id);
    PrizeInv(c, now, w, sender, id, toDao, toWinner);
    if TryPrize(c, now, w, sender, id, toDao, toWinner).Ok? {
      StartedId(c, w, id);
      PrizeReleasedInv(c, w, sender, id);
      var w1 := PrizeReleased(w, id);
      assert SameElsewhere(w.lot, w1.lot, id);
      TrackBehind(c, w, w1, id);
      var behind := map[id := Stored(c, w.lot, id)];
      PrizeEvent(c, now, w.lot, w1.lot, id);
      var w2 := w1;
      if d.daoFee != 0 {
        TokenOutFacts(c, now, w1, c.dao, toDao, d.daoFee, d.pool);
        TokenOutTracks(c, now, w1, c.dao, toDao, d.daoFee, behind, d.pool);
        w2 := TokenOut(c, now, w1, c.dao, toDao, d.daoFee).value;
        CompletedStays(Sent(w1, c.dao, d.daoFee), w2, id);
        SameIds(Sent(w1, c.dao, d.daoFee), w2);
      }
      TokenOutFacts(c, now, w2, sender, toWinner, d.winnerPrize, d.winnerPrize);
      TokenOutTracks(c, now, w2, sender, toWinner, d.winnerPrize, behind, d.winnerPrize);
      var w3 := TokenOut(c, now, w2, sender, toWinner, d.winnerPrize).value;
      CompletedStays(Sent(w2, sender, d.winnerPrize), w3, id);
      SameIds(Sent(w2, sender, d.winnerPrize), w3);
      StoredFrame(c, w1.lot, w3.lot, id);
      hide RoundAt;
      TrackCaughtUp(c, w3, PrizePaid(c, now, w3, sender, id),
          Emit(now, PrizeClaimed(id, sender, d.winnerPrize, c.dao, d.daoFee)), Stored(c, w.lot, id));
    }
  }

  lemma SameIds(w: World, w1: World)
    requires Interfered(w, w1, false)
    ensures w1.lot.currentDrawId == w.lot.currentDrawId
  {}

  lemma RefundTracks(c: Config, now: nat, w: World, sender: Outsider, id: nat, pay: TokenCall)
    requires AtRest(c, w) && ValidTime(now) && Tracks(c, w, map[])
    ensures TryRefund(c, now, w, sender, id, pay).Ok? ==> Tracks(c, TryRefund(c, now, w, sender, id, pay).value, map[])
  {
    hide Inv, Evolves, TokenOut, Tracks, Apply, Stored, Interfered, RoundOk;
    RefundInv(c, now, w, sender, id, pay);
    if TryRefund(c, now, w, sender, id, pay).Ok? {
      StartedId(c, w, id);
      RefundReleasedInv(c, w, sender, id);
      var w1 := RefundReleased(c, w, sender, id);
      assert SameElsewhere(w.lot, w1.lot, id);
      TrackBehind(c, w, w1, id);
      RefundEvent(c, now, w.lot, w1.lot, id, sender);
      var behind := map[id := Stored(c, w.lot, id)];
      TokenOutFacts(c, now, w1, sender, pay, c.ticketPrice, c.ticketPrice);
      TokenOutTracks(c, now, w1, sender, pay, c.ticketPrice, behind, c.ticketPrice);
      var w2 := TokenOut(c, now, w1, sender, pay, c.ticketPrice).value;
      CompletedStays(Sent(w1, sender, c.ticketPrice), w2, id);
      SameIds(Sent(w1, sender, c.ticketPrice), w2);
      StoredFrame(c, w1.lot, w2.lot, id);
      hide RoundAt;
      TrackCaughtUp(c, w2, RefundPaid(c, now, w2, sender, id), Emit(now, RefundClaimed(id, sender, c.ticketPrice)),
          Stored(c, w.lot, id));
    }
  }

  lemma StartTracks(c: Config, now: nat, w: World, expected: nat)
    requires AtRest(c, w) && ValidTime(now) && Tracks(c, w, map[])
    ensures TryStart(c, now, w, expected).Ok? ==> Tracks(c, TryStart(c, now, w, expected).value, map[])
  {
    hide Inv, Tracks, Apply, Stored, RoundAt, RoundOk;
    if TryStart(c, now, w, expected).Ok? {
      StartedShape(c, now, w);
      StartEvent(c, now, w);
      var w1 := Started(c, now, w);
      TrackEvent(c, w, w1, w1.log[|w.log|], map[]);
    }
  }

  lemma ExecTracks(c: Config, now: nat, w: World, call: Call)
    requires AtRest(c, w) && ValidTime(now) && Tracks(c, w, map[])
    ensures Tracks(c, Exec(c, now, w, call), map[])
  {
    hide Inv, Tracks, TryStart, TryBuy, TryPerform, TryPrize, TryRefund;
    if Unguarded(call) {
      UnguardedTracks(c, now, w, call, map[], false, 0);
    } else {
      assert Exec(c, now, w, call) == if Try(c, now, w, call).Ok? then Try(c, now, w, call).value else w;
      match call
      case StartDraw(expected) => StartTracks(c, now, w, expected);
      case BuyTicket(sender, id, pay) => BuyTracks(c, now, w, sender, id, pay);
      case PerformDraw(id, during, answer) => PerformTracks(c, now, w, id, during, answer);
      case ClaimPrize(sender, id, toDao, toWinner) => PrizeTracks(c, now, w, sender, id, toDao, toWinner);
      case ClaimRefund(sender, id, pay) => RefundTracks(c, now, w, sender, id, pay);
      case _ =>
    }
  }

  lemma {:induction false} RunTracks(c: Config, w: World, txs: seq<Tx>)
    requires AtRest(c, w) && ValidTimes(txs) && Tracks(c, w, map[])
    ensures Tracks(c, Run(c, w, txs), map[])
    decreases |txs|
  {
    hide Inv, Tracks, Exec, Evolves;
    if txs != [] {
      ExecTracks(c, txs[0].now, w, txs[0].call);
      ExecInv(c, txs[0].now, w, txs[0].call);
      RunTracks(c, Exec(c, txs[0].now, w, txs[0].call), txs[1..]);
    }
  }

  lemma GenesisTracks(c: Config)
    ensures Tracks(c, GENESIS, map[])
  {
    assert Projected(c, NEW_LOT) + map[] == map[];
  }

  // The record a client gets from the projection is the one it would build from the contract,
  // apart from the countdown of a round that is no longer ACTIVE.
  ghost predicate Agrees(c: Config, l: Lot, id: nat, now: nat, v: View) {
    var chain := ChainDraw(c, l, id, now);
    && v == chain.(remainingSeconds := v.remainingSeconds)
    && (v.status == ACTIVE ==> v == chain)
    && v.canPerformDraw == l.CanPerformDraw(id, now)
  }

  lemma StoredAgrees(c: Config, w: World, id: nat, now: nat)
    requires AtRest(c, w) && 1 <= id <= w.lot.currentDrawId
    ensures Agrees(c, w.lot, id, now, Refreshed(Stored(c, w.lot, id), now))
  {
    CurrentRound(c, w, id);
    if w.lot.DrawOf(id).status == ACTIVE {
      ActiveIsCurrent(c, w, id);
    }
    hide Inv, RoundOk, ChainTickets;
  }

  lemma ActiveIsCurrent(c: Config, w: World, id: nat)
    requires AtRest(c, w) && 1 <= id <= w.lot.currentDrawId && w.lot.DrawOf(id).status == ACTIVE
    ensures id == w.lot.currentDrawId
  {
    hide Buckets, Requests, RoundOk;
    RoundFacts(c, w.lot, false, id);
  }

  // The countdown is the one field on which the two records can differ: they show the same number
  // exactly while the round is ACTIVE or once its deadline has passed.
  lemma CountdownAgreesIff(c: Config, l: Lot, id: nat, now: nat)
    ensures
      var shown := Refreshed(Stored(c, l, id), now).remainingSeconds;
      shown == ChainDraw(c, l, id, now).remainingSeconds <==>
          l.DrawOf(id).status == ACTIVE || now >= l.DrawOf(id).deadline
  {
    hide ChainTickets;
  }

  // For every contract run the fold of its log succeeds, has exactly the started draws, and every
  // record refreshed at any time agrees with the contract's at that time.
  lemma EventRefinement(c: Config, txs: seq<Tx>, id: nat, now: nat)
    requires ValidConfig(c) && ValidTimes(txs)
    ensures
      var w := Run(c, GENESIS, txs);
      && Fold(w.log).Ok?
      && (id in Fold(w.log).value <==> 1 <= id <= w.lot.currentDrawId)
      && (id in Fold(w.log).value ==> Agrees(c, w.lot, id, now, Refreshed(Fold(w.log).value[id], now)))
  {
    hide Inv, Run, GENESIS, Agrees, Refreshed, Stored;
    GenesisAtRest(c);
    GenesisTracks(c);
    RunInv(c, GENESIS, txs);
    RunTracks(c, GENESIS, txs);
    var w := Run(c, GENESIS, txs);
    if 1 <= id <= w.lot.currentDrawId {
      StoredAgrees(c, w, id, now);
    }
  }
}
