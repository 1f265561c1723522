/**
 What holds in every reachable state of the contract, and the proof that every call keeps it,
 whatever other calls are nested inside.
 */
module Invariants {
  import opened Basics
  import opened Contract

  /******* One round *******/

  // Everything the contract stores under one draw id.
  datatype Round = Round(d: Draw, owners: seq<Address>, tickets: map<Address, nat>, refunded: set<Address>)

  const EMPTY_ROUND := Round(ZERO_DRAW, NO_OWNERS, map[], {})

  function RoundAt(l: Lot, id: nat): (r: Round)
    ensures |r.owners| == POSITIONS
  {
    Round(l.DrawOf(id), l.OwnersOf(id), l.TicketsOf(id), l.RefundedOf(id))
  }

  // Position k of the owner table: sold positions come first, and ticketOf leads back to them.
  ghost predicate PositionOk(r: Round, k: nat)
    requires |r.owners| == POSITIONS
  {
    if k < r.d.participantCount <= POSITIONS then
      r.owners[k] > PROVIDER && r.owners[k] in r.tickets && r.tickets[r.owners[k]] == k + 1
    else
      k < POSITIONS ==> r.owners[k] == ZERO
  }

  ghost predicate HolderOk(r: Round, a: Address)
    requires |r.owners| == POSITIONS
  {
    a in r.tickets ==> 1 <= r.tickets[a] <= r.d.participantCount <= POSITIONS && r.owners[r.tickets[a] - 1] == a
  }

  // Tickets 1..participantCount have owners, and ticketOf is the inverse of the owner table.
  ghost predicate BoardOk(r: Round) {
    && |r.owners| == POSITIONS
    && r.d.participantCount <= MAX_PARTICIPANTS
    && |r.tickets| == r.d.participantCount
    && (forall k: nat :: PositionOk(r, k))
    && (forall a: Address :: HolderOk(r, a))
  }

  predicate Unsettled(d: Draw) {
    d.finalizedAt == 0 && d.luckyNumber == 0 && d.winner == ZERO && d.daoFee == 0 && d.winnerPrize == 0
  }

  predicate Won(s: Status) {
    s == WINNER_DECLARED || s == COMPLETED
  }

  ghost predicate OutcomeOk(c: Config, r: Round, pending: bool)
    requires |r.owners| == POSITIONS
  {
    var d := r.d;
    match d.status
    case ACTIVE => Unsettled(d) && d.requestId == 0 && r.refunded == {} && !pending
    case DRAWING => Unsettled(d) && (d.requestId == 0 <==> pending) && c.minimum <= d.participantCount
      && r.refunded == {}
    case CANCELLED =>
      && d.finalizedAt != 0 && d.luckyNumber == 0 && d.winner == ZERO && d.daoFee == 0 && d.winnerPrize == 0
      && d.requestId == 0 && d.participantCount < c.minimum && r.refunded <= r.tickets.Keys && !pending
    case NO_WINNER =>
      && d.finalizedAt != 0 && 1 <= d.luckyNumber <= POSITIONS && r.owners[d.luckyNumber - 1] == ZERO
      && d.winner == ZERO
      && d.daoFee == 0 && d.winnerPrize == 0 && d.requestId != 0 && c.minimum <= d.participantCount && r.refunded == {}
      && !pending
    case _ =>
      && d.finalizedAt != 0 && 1 <= d.luckyNumber <= POSITIONS && d.winner == r.owners[d.luckyNumber - 1] != ZERO
      && d.pool >= c.ticketPrice && d.daoFee == Fee(c, d.pool) && d.winnerPrize == d.pool - d.daoFee
      && d.requestId != 0 && c.minimum <= d.participantCount && r.refunded == {} && !pending
  }

  // The price of `tickets` tickets.
  function Cost(c: Config, tickets: int): int {
    c.ticketPrice * tickets
  }

  lemma CostAdds(c: Config, a: int, b: int)
    ensures Cost(c, a + b) == Cost(c, a) + Cost(c, b)
    ensures Cost(c, 0) == 0 && Cost(c, 1) == c.ticketPrice
    ensures a >= 0 ==> Cost(c, a) >= 0
    ensures a >= 1 ==> Cost(c, a) >= c.ticketPrice
  {}

  ghost predicate RoundOk(c: Config, r: Round, id: nat, pending: bool) {
    && r.d.id == id
    && r.d.deadline == r.d.startTime + DURATION
    && r.d.deadline < TWO_TO_THE_64
    && r.d.pool == r.d.inheritedRollover + Cost(c, r.d.participantCount)
    && BoardOk(r)
    && OutcomeOk(c, r, pending)
  }

  // What a round hands to the next one.
  function CarryOut(d: Draw): nat {
    match d.status
    case NO_WINNER => d.pool
    case CANCELLED => d.inheritedRollover
    case _ => 0
  }

  function CarryInto(l: Lot, id: nat): nat {
    if id <= 1 then 0 else CarryOut(RoundAt(l, id - 1).d)
  }

  /******* All rounds *******/

  // `pending` marks the moment inside performDraw at which the round is DRAWING but its request
  // has no number yet.
  ghost predicate History(c: Config, l: Lot, pending: bool) {
    && (forall i: nat :: 1 <= i <= l.currentDrawId ==> RoundOk(c, RoundAt(l, i), i, pending && i == l.currentDrawId))
    && (forall i: nat {:trigger CarryInto(l, i)} :: 1 <= i <= l.currentDrawId ==>
       RoundAt(l, i).d.inheritedRollover == CarryInto(l, i))
    && (forall i: nat :: 1 <= i < l.currentDrawId ==> Final(RoundAt(l, i).d.status))
    && (forall i: nat :: i == 0 || i > l.currentDrawId ==> RoundAt(l, i) == EMPTY_ROUND)
    && (pending ==> l.currentDrawId >= 1 && RoundAt(l, l.currentDrawId).d.status == DRAWING)
  }

  ghost predicate Requests(l: Lot, v: Vrf) {
    && l.requestDraw.Keys == v.requested
    && 0 !in v.requested
    && (!v.bound ==> v.requested == {})
    && v.delivered <= v.ready <= v.requested
    && v.words.Keys == v.ready
    && (forall r :: r in v.requested ==> RequestOk(l, v, r))
    && (forall i: nat :: 1 <= i <= l.currentDrawId && RoundAt(l, i).d.requestId != 0 ==>
       l.RequestDraw(RoundAt(l, i).d.requestId) == i)
  }

  ghost predicate RequestOk(l: Lot, v: Vrf, r: nat) {
    var id := l.RequestDraw(r);
    var d := RoundAt(l, id).d;
    && 1 <= id <= l.currentDrawId
    && d.requestId == r
    && d.status != ACTIVE && d.status != CANCELLED
    && (r in v.delivered <==> Final(d.status))
    && (r in v.delivered && r in v.words ==> d.luckyNumber == v.words[r] % 10 + 1)
  }

  /******* Money *******/

  datatype Sums = Sums(sold: int, prizes: int, owed: int, completed: int, refundsPaid: int)

  // One round's share of every total.
  function Part(c: Config, r: Round): Sums {
    Sums(Cost(c, r.d.participantCount),
         if r.d.status == WINNER_DECLARED then r.d.pool else 0,
         if r.d.status == CANCELLED then Cost(c, r.d.participantCount - |r.refunded|) else 0,
         if r.d.status == COMPLETED then r.d.pool else 0,
         Cost(c, |r.refunded|))
  }

  function Plus(a: Sums, b: Sums): Sums {
    Sums(a.sold + b.sold, a.prizes + b.prizes, a.owed + b.owed, a.completed + b.completed,
        a.refundsPaid + b.refundsPaid)
  }

  function Minus(a: Sums, b: Sums): Sums {
    Sums(a.sold - b.sold, a.prizes - b.prizes, a.owed - b.owed, a.completed - b.completed,
        a.refundsPaid - b.refundsPaid)
  }

  function SumTo(c: Config, l: Lot, n: nat): Sums {
    if n == 0 then Sums(0, 0, 0, 0, 0) else Plus(SumTo(c, l, n - 1), Part(c, RoundAt(l, n)))
  }

  ghost predicate Buckets(c: Config, l: Lot) {
    var cur := RoundAt(l, l.currentDrawId).d;
    var t := SumTo(c, l, l.currentDrawId);
    && l.activePool == (if l.currentDrawId != 0 && !Final(cur.status) then cur.pool else 0)
    && l.pendingRollover == CarryInto(l, l.currentDrawId + 1)
    && l.outstandingPrizes == t.prizes
    && l.outstandingRefunds == t.owed
    && t.sold == l.activePool + l.pendingRollover + l.outstandingPrizes + l.outstandingRefunds
                 + t.completed + t.refundsPaid
  }

  // `unbooked` tokens are in the balance although no bucket accounts for them: the payment of a
  // ticket before it is recorded, or a claim that left its bucket and is not yet paid out.
  ghost predicate Funds(w: World, unbooked: nat) {
    && w.balance == w.lot.activePool + w.lot.pendingRollover + w.lot.outstandingPrizes + w.lot.outstandingRefunds
                    + w.donated + unbooked
    && w.balance <= MAX_UINT256
  }

  ghost predicate Inv(c: Config, w: World, pending: bool, unbooked: nat) {
    && ValidConfig(c)
    && History(c, w.lot, pending)
    && Buckets(c, w.lot)
    && Requests(w.lot, w.vrf)
    && Funds(w, unbooked)
  }

  // Between transactions.
  ghost predicate AtRest(c: Config, w: World) {
    Inv(c, w, false, 0) && !w.locked
  }

  /******* Sums change with one round *******/

  ghost predicate SameElsewhere(l: Lot, l1: Lot, k: nat) {
    forall i: nat :: i != k ==> RoundAt(l1, i) == RoundAt(l, i)
  }

  lemma {:induction false} SumFrame(c: Config, l: Lot, l1: Lot, n: nat)
    requires forall i: nat :: 1 <= i <= n ==> RoundAt(l1, i) == RoundAt(l, i)
    ensures SumTo(c, l1, n) == SumTo(c, l, n)
  {
    if n > 0 {
      SumFrame(c, l, l1, n - 1);
    }
  }

  lemma {:induction false} SumChange(c: Config, l: Lot, l1: Lot, k: nat, n: nat)
    requires 1 <= k <= n && SameElsewhere(l, l1, k)
    ensures SumTo(c, l1, n) == Plus(SumTo(c, l, n), Minus(Part(c, RoundAt(l1, k)), Part(c, RoundAt(l, k))))
  {
    if k == n {
      SumFrame(c, l, l1, n - 1);
    } else {
      SumChange(c, l, l1, k, n - 1);
    }
  }

  lemma SameBoard(r: Round, r1: Round)
    requires BoardOk(r) && r1.owners == r.owners && r1.tickets == r.tickets
      && r1.d.participantCount == r.d.participantCount
    ensures BoardOk(r1)
  {
    forall k: nat
      ensures PositionOk(r1, k)
    {
      assert PositionOk(r, k);
    }
    forall a: Address
      ensures HolderOk(r1, a)
    {
      assert HolderOk(r, a);
    }
  }

  lemma BoardFrame(r: Round, d: Draw)
    requires BoardOk(r) && d.participantCount == r.d.participantCount
    ensures BoardOk(r.(d := d)) && |r.refunded| >= 0
  {
    SameBoard(r, r.(d := d));
  }

  lemma RefundsFit(r: Round)
    requires BoardOk(r) && r.refunded <= r.tickets.Keys
    ensures |r.refunded| <= r.d.participantCount
    ensures |r.refunded| == r.d.participantCount <==> r.refunded == r.tickets.Keys
  {
    Subset(r.refunded, r.tickets.Keys);
  }

  lemma Subset<T>(a: set<T>, b: set<T>)
    requires a <= b
    ensures |a| <= |b|
    ensures |a| == |b| <==> a == b
  {
    assert b == a + (b - a);
    assert |b| == |a| + |b - a|;
  }

  lemma PartIsNatural(c: Config, r: Round)
    requires BoardOk(r) && r.refunded <= r.tickets.Keys
    ensures var p := Part(c, r); p.sold >= 0 && p.prizes >= 0 && p.owed >= 0 && p.completed >= 0 && p.refundsPaid >= 0
  {
    hide Cost;
    RefundsFit(r);
    CostAdds(c, r.d.participantCount - |r.refunded|, |r.refunded|);
    CostAdds(c, |r.refunded|, 0);
  }

  // Every share is non-negative, so a total is at least any one round's share.
  lemma {:induction false} PartsBelowSum(c: Config, l: Lot, n: nat, k: nat)
    requires forall i: nat :: 1 <= i <= n ==>
      BoardOk(RoundAt(l, i)) && RoundAt(l, i).refunded <= RoundAt(l, i).tickets.Keys
    requires 0 <= k <= n
    ensures SumTo(c, l, n).prizes >= (if k == 0 then 0 else Part(c, RoundAt(l, k)).prizes)
    ensures SumTo(c, l, n).owed >= (if k == 0 then 0 else Part(c, RoundAt(l, k)).owed)
    ensures SumTo(c, l, n).completed >= 0 && SumTo(c, l, n).refundsPaid >= 0
  {
    hide RoundAt, BoardOk;
    if n > 0 {
      PartIsNatural(c, RoundAt(l, n));
      PartsBelowSum(c, l, n - 1, if k == n then 0 else k);
    }
  }

  /******* History and requests change with one round *******/

  lemma HistoryStep(c: Config, l: Lot, l1: Lot, k: nat, pending: bool, pending1: bool)
    requires History(c, l, pending)
    requires l1.currentDrawId == l.currentDrawId && 1 <= k <= l.currentDrawId && SameElsewhere(l, l1, k)
    requires (pending || pending1) ==> k == l.currentDrawId
    requires pending1 ==> RoundAt(l1, k).d.status == DRAWING
    requires RoundOk(c, RoundAt(l1, k), k, pending1 && k == l.currentDrawId)
    requires RoundAt(l1, k).d.inheritedRollover == RoundAt(l, k).d.inheritedRollover
    requires k < l.currentDrawId ==>
      Final(RoundAt(l1, k).d.status) && CarryOut(RoundAt(l1, k).d) == CarryOut(RoundAt(l, k).d)
    ensures History(c, l1, pending1)
  {
    hide RoundOk, RoundAt;
    forall i: nat | 1 <= i <= l1.currentDrawId
      ensures RoundOk(c, RoundAt(l1, i), i, pending1 && i == l1.currentDrawId)
    {
      if i != k {
        assert RoundOk(c, RoundAt(l, i), i, pending && i == l.currentDrawId);
      }
    }
    forall i: nat | 1 <= i <= l1.currentDrawId
      ensures RoundAt(l1, i).d.inheritedRollover == CarryInto(l1, i)
    {
      assert RoundAt(l, i).d.inheritedRollover == CarryInto(l, i);
    }
  }

  /******* Reading one part of the invariant *******/

  lemma RoundFacts(c: Config, l: Lot, pending: bool, i: nat)
    requires History(c, l, pending) && 1 <= i <= l.currentDrawId
    ensures RoundOk(c, RoundAt(l, i), i, pending && i == l.currentDrawId)
    ensures RoundAt(l, i).d.inheritedRollover == CarryInto(l, i)
    ensures i < l.currentDrawId ==> Final(RoundAt(l, i).d.status)
  {}

  // The refund table of every round is within its ticket table.
  lemma RefundedAreHolders(c: Config, l: Lot, pending: bool)
    requires History(c, l, pending)
    ensures forall i: nat :: 1 <= i <= l.currentDrawId ==>
      BoardOk(RoundAt(l, i)) && RoundAt(l, i).refunded <= RoundAt(l, i).tickets.Keys
  {
    forall i: nat | 1 <= i <= l.currentDrawId
      ensures BoardOk(RoundAt(l, i)) && RoundAt(l, i).refunded <= RoundAt(l, i).tickets.Keys
    {
      RoundFacts(c, l, pending, i);
    }
  }

  lemma RequestFacts(l: Lot, v: Vrf, r: nat)
    requires Requests(l, v)
    ensures r in v.requested ==> RequestOk(l, v, r)
    ensures 0 !in v.requested && (!v.bound ==> v.requested == {})
    ensures v.delivered <= v.ready <= v.requested && v.words.Keys == v.ready && l.requestDraw.Keys == v.requested
    ensures forall i: nat :: 1 <= i <= l.currentDrawId && RoundAt(l, i).d.requestId != 0 ==>
      l.RequestDraw(RoundAt(l, i).d.requestId) == i
  {}

  lemma RequestsFrom(l: Lot, v: Vrf)
    requires l.requestDraw.Keys == v.requested && 0 !in v.requested && (!v.bound ==> v.requested == {})
    requires v.delivered <= v.ready <= v.requested && v.words.Keys == v.ready
    requires forall r :: r in v.requested ==> RequestOk(l, v, r)
    requires forall i: nat :: 1 <= i <= l.currentDrawId && RoundAt(l, i).d.requestId != 0 ==>
      l.RequestDraw(RoundAt(l, i).d.requestId) == i
    ensures Requests(l, v)
  {}

  lemma BucketFacts(c: Config, l: Lot)
    requires Buckets(c, l)
    ensures
      var d := l.DrawOf(l.currentDrawId);
      l.activePool == if l.currentDrawId != 0 && !Final(d.status) then d.pool else 0
    ensures l.pendingRollover == if l.currentDrawId == 0 then 0 else CarryOut(l.DrawOf(l.currentDrawId))
  {}

  // No bucket exceeds the balance, so nothing that adds up liabilities leaves uint256.
  lemma LiabilitiesFit(c: Config, w: World, pending: bool, unbooked: nat)
    requires Inv(c, w, pending, unbooked)
    ensures w.lot.Liabilities() <= w.balance <= MAX_UINT256
  {}
}
