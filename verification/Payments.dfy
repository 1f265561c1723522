/**
 Who pays and who is paid: every call moves just what its storage says, the log reports just what
 was moved, and each account's payments add up to its rounds.
 */
module Payments {
  import opened Basics
  import opened Contract
  import opened Invariants
  import opened Preservation
  import opened Transactions
  import opened Interference
  import opened LotteryOutcomes
  import opened CallOutcomes

  /******* One call *******/

  // What a successful call moves, told from the state before it.
  function Moves(c: Config, w: World, call: Call): seq<Payment> {
    match call
    case BuyTicket(sender, id, _) => [Payment(sender, LOTTERY, c.ticketPrice)]
    case ClaimPrize(sender, id, _, _) =>
      var d := w.lot.DrawOf(id);
      (if d.daoFee == 0 then [] else [Payment(LOTTERY, c.dao, d.daoFee)]) + [Payment(LOTTERY, sender, d.winnerPrize)]
    case ClaimRefund(sender, id, _) => [Payment(LOTTERY, sender, c.ticketPrice)]
    case _ => []
  }

  // Purchases and claims move exactly their amounts between exactly their parties, and no other call
  // pays anybody, whatever calls are nested inside.
  lemma PaysExactly(c: Config, now: nat, w: World, call: Call)
    requires AtRest(c, w) && ValidTime(now)
    ensures
      var t := Try(c, now, w, call);
      Exec(c, now, w, call).payments == w.payments + (if t.Ok? then Moves(c, w, call) else [])
  {
    hide Inv, Try, RoundAt, OnSale, Drawable, SameElsewhere, OnlySettles, Claimed;
    match call
    case StartDraw(expected) => StartExactly(c, now, w, expected);
    case BuyTicket(sender, id, pay) => BuyExactly(c, now, w, sender, id, pay);
    case PerformDraw(id, during, answer) => PerformExactly(c, now, w, id, during, answer);
    case ClaimPrize(sender, id, toDao, toWinner) => PrizeExactly(c, now, w, sender, id, toDao, toWinner);
    case ClaimRefund(sender, id, pay) => RefundExactly(c, now, w, sender, id, pay);
    case _ => UnguardedSettles(c, now, w, call);
  }

  /******* The log *******/

  // What an event says was moved.
  function Reported(e: Emit): seq<Payment> {
    match e.payload
    case TicketBought(_, buyer, _, amount, _, _) => [Payment(buyer, LOTTERY, amount)]
    case PrizeClaimed(_, winner, amount, dao, fee) =>
      (if fee == 0 then [] else [Payment(LOTTERY, dao, fee)]) + [Payment(LOTTERY, winner, amount)]
    case RefundClaimed(_, participant, amount) => [Payment(LOTTERY, participant, amount)]
    case _ => []
  }

  function AllReported(log: seq<Emit>): seq<Payment> {
    if log == [] then [] else AllReported(log[..|log| - 1]) + Reported(log[|log| - 1])
  }

  lemma ReportedLast(log: seq<Emit>, e: Emit)
    ensures AllReported(log + [e]) == AllReported(log) + Reported(e)
  {
    assert (log + [e])[..|log|] == log;
  }

  lemma {:induction false} SettlementsReportNothing(log: seq<Emit>, log1: seq<Emit>)
    requires log <= log1 && forall k :: |log| <= k < |log1| ==> log1[k].payload.LotteryDrawn?
    ensures AllReported(log1) == AllReported(log)
    decreases |log1|
  {
    if |log1| > |log| {
      var rest := log1[..|log1| - 1];
      assert log <= rest;
      SettlementsReportNothing(log, rest);
    } else {
      assert log1 == log;
    }
  }

  lemma ClaimReports(w: World, w1: World, id: nat, r1: Round, report: Emit)
    requires Claimed(w, w1, id, r1, report)
    ensures AllReported(w1.log) == AllReported(w.log) + Reported(report)
  {
    hide RoundAt, Reported, SettledAtMost;
    var rest := w1.log[..|w1.log| - 1];
    SettlementsReportNothing(w.log, rest);
    assert w1.log == rest + [report];
    ReportedLast(rest, report);
  }

  lemma CallReports(c: Config, now: nat, w: World, call: Call)
    requires AtRest(c, w) && ValidTime(now)
    ensures
      var t := Try(c, now, w, call);
      AllReported(Exec(c, now, w, call).log) == AllReported(w.log) + (if t.Ok? then Moves(c, w, call) else [])
  {
    hide Inv, Try, RoundAt, OnSale, Drawable, SameElsewhere, Claimed, AllReported, SettledAtMost;
    match call
    case StartDraw(expected) =>
      StartExactly(c, now, w, expected);
      ReportedLast(w.log, LastOf(w, Exec(c, now, w, call)));
    case BuyTicket(sender, id, pay) =>
      BuyExactly(c, now, w, sender, id, pay);
      ReportedLast(w.log, LastOf(w, Exec(c, now, w, call)));
    case PerformDraw(id, during, answer) =>
      PerformExactly(c, now, w, id, during, answer);
      ReportedLast(w.log, LastOf(w, Exec(c, now, w, call)));
    case ClaimPrize(sender, id, toDao, toWinner) =>
      PrizeExactly(c, now, w, sender, id, toDao, toWinner);
      var d := w.lot.DrawOf(id);
      if Try(c, now, w, call).Ok? {
        ClaimReports(w, Try(c, now, w, call).value, id, RoundAt(w.lot, id).(d := d.(status := COMPLETED)),
            Emit(now, PrizeClaimed(id, sender, d.winnerPrize, c.dao, d.daoFee)));
      }
    case ClaimRefund(sender, id, pay) =>
      RefundExactly(c, now, w, sender, id, pay);
      if Try(c, now, w, call).Ok? {
        ClaimReports(w, Try(c, now, w, call).value, id,
            RoundAt(w.lot, id).(refunded := w.lot.RefundedOf(id) + {sender}),
            Emit(now, RefundClaimed(id, sender, c.ticketPrice)));
      }
    case _ =>
      UnguardedSettles(c, now, w, call);
      UnguardedMoves(c, w, call);
      SettlementsReportNothing(w.log, Exec(c, now, w, call).log);
  }

  lemma UnguardedMoves(c: Config, w: World, call: Call)
    requires Unguarded(call)
    ensures Moves(c, w, call) == []
  {}

  function LastOf(w: World, w1: World): Emit {
    if |w1.log| > |w.log| then w1.log[|w.log|] else Emit(0, RandomnessRequested(0, 0))
  }

  // After every run the events report exactly what was moved, in order: who paid for which ticket,
  // and who was paid a prize, a fee or a refund.
  lemma {:induction false} PaidAsLogged(c: Config, w: World, txs: seq<Tx>)
    requires AtRest(c, w) && ValidTimes(txs) && w.payments == AllReported(w.log)
    ensures Run(c, w, txs).payments == AllReported(Run(c, w, txs).log)
    decreases |txs|
  {
    hide Inv, Exec, Try, Moves, AllReported;
    if txs != [] {
      PaysExactly(c, txs[0].now, w, txs[0].call);
      CallReports(c, txs[0].now, w, txs[0].call);
      ExecInv(c, txs[0].now, w, txs[0].call);
      PaidAsLogged(c, Exec(c, txs[0].now, w, txs[0].call), txs[1..]);
    }
  }

  /******* The balance *******/

  function InFlow(p: Payment): int {
    (if p.to == LOTTERY then p.amount else 0) - (if p.from == LOTTERY then p.amount else 0)
  }

  function Flowed(ps: seq<Payment>): int {
    if ps == [] then 0 else Flowed(ps[..|ps| - 1]) + InFlow(ps[|ps| - 1])
  }

  lemma FlowedLast(ps: seq<Payment>, p: Payment)
    ensures Flowed([]) == 0 && Flowed([p]) == InFlow(p)
    ensures Flowed(ps + [p]) == Flowed(ps) + InFlow(p)
  {
    hide InFlow;
    assert (ps + [p])[..|ps|] == ps;
    assert [p][..0] == [];
  }

  lemma {:induction false} FlowedConcat(ps: seq<Payment>, qs: seq<Payment>)
    ensures Flowed(ps + qs) == Flowed(ps) + Flowed(qs)
    decreases |qs|
  {
    hide Flowed;
    if qs == [] {
      assert ps + qs == ps;
      FlowedLast([], Payment(ZERO, ZERO, 0));
    } else {
      var rest, q := qs[..|qs| - 1], qs[|qs| - 1];
      FlowedConcat(ps, rest);
      FlowedLast(rest, q);
      FlowedLast(ps + rest, q);
      assert rest + [q] == qs && (ps + rest) + [q] == ps + qs;
    }
  }

  lemma MovesFlow(c: Config, w: World, call: Call)
    requires c.dao != LOTTERY
    ensures Flowed(Moves(c, w, call)) ==
      match call
      case BuyTicket(_, _, _) => c.ticketPrice
      case ClaimPrize(_, id, _, _) => 0 - w.lot.DrawOf(id).daoFee - w.lot.DrawOf(id).winnerPrize
      case ClaimRefund(_, _, _) => 0 - c.ticketPrice
      case _ => 0
  {
    hide Flowed, Lot.DrawOf;
    match call
    case BuyTicket(sender, _, _) => FlowedLast([], Payment(sender, LOTTERY, c.ticketPrice));
    case ClaimPrize(sender, id, _, _) =>
      var fee := Payment(LOTTERY, c.dao, w.lot.DrawOf(id).daoFee);
      var prize := Payment(LOTTERY, sender, w.lot.DrawOf(id).winnerPrize);
      FlowedLast([], fee);
      FlowedLast([fee], prize);
      FlowedLast([], prize);
      assert [] + [prize] == [prize];
    case ClaimRefund(sender, _, _) => FlowedLast([], Payment(LOTTERY, sender, c.ticketPrice));
    case _ => FlowedLast([], Payment(ZERO, ZERO, 0));
  }

  lemma OwnMoves(c: Config, now: nat, w: World, call: Call)
    requires AtRest(c, w) && ValidTime(now)
    ensures Own(Exec(c, now, w, call)) ==
      Own(w) + (if Try(c, now, w, call).Ok? then Flowed(Moves(c, w, call)) else 0)
  {
    DaoIsNotLottery(c);
    MovesFlow(c, w, call);
    hide Inv, Try, RoundAt, OnSale, Drawable, SameElsewhere, OnlySettles, Claimed, Moves, Flowed;
    match call
    case StartDraw(expected) => StartExactly(c, now, w, expected);
    case BuyTicket(sender, id, pay) => BuyExactly(c, now, w, sender, id, pay);
    case PerformDraw(id, during, answer) => PerformExactly(c, now, w, id, during, answer);
    case ClaimPrize(sender, id, toDao, toWinner) => PrizeExactly(c, now, w, sender, id, toDao, toWinner);
    case ClaimRefund(sender, id, pay) => RefundExactly(c, now, w, sender, id, pay);
    case _ => UnguardedSettles(c, now, w, call);
  }

  lemma DaoIsNotLottery(c: Config)
    requires ValidConfig(c)
    ensures c.dao != LOTTERY
  {}

  // After every run the balance is what was given, plus what was paid in, minus what was paid out.
  lemma {:induction false} BalanceOfPayments(c: Config, w: World, txs: seq<Tx>)
    requires AtRest(c, w) && ValidTimes(txs) && Own(w) == Flowed(w.payments)
    ensures
      var w1 := Run(c, w, txs);
      w1.balance == w1.donated + Flowed(w1.payments)
    decreases |txs|
  {
    hide Inv, Exec, Try, Moves, Flowed;
    if txs != [] {
      var w1 := Exec(c, txs[0].now, w, txs[0].call);
      PaysExactly(c, txs[0].now, w, txs[0].call);
      OwnMoves(c, txs[0].now, w, txs[0].call);
      FlowedConcat(w.payments, Moves(c, w, txs[0].call));
      ExecInv(c, txs[0].now, w, txs[0].call);
      assert w.payments + [] == w.payments;
      BalanceOfPayments(c, w1, txs[1..]);
    }
  }

  /******* Each account *******/

  function Between(p: Payment, from: Address, to: Address): nat {
    if p.from == from && p.to == to then p.amount else 0
  }

  // All that was ever moved from one account to another.
  function Total(ps: seq<Payment>, from: Address, to: Address): nat {
    if ps == [] then 0 else Total(ps[..|ps| - 1], from, to) + Between(ps[|ps| - 1], from, to)
  }

  lemma TotalLast(ps: seq<Payment>, p: Payment, from: Address, to: Address)
    ensures Total([], from, to) == 0 && Total([p], from, to) == Between(p, from, to)
    ensures Total(ps + [p], from, to) == Total(ps, from, to) + Between(p, from, to)
  {
    hide Between;
    assert (ps + [p])[..|ps|] == ps;
    assert [p][..0] == [];
  }

  lemma {:induction false} TotalConcat(ps: seq<Payment>, qs: seq<Payment>, from: Address, to: Address)
    ensures Total(ps + qs, from, to) == Total(ps, from, to) + Total(qs, from, to)
    decreases |qs|
  {
    hide Total, Between;
    if qs == [] {
      assert ps + qs == ps;
      TotalLast([], Payment(ZERO, ZERO, 0), from, to);
    } else {
      var rest, q := qs[..|qs| - 1], qs[|qs| - 1];
      TotalConcat(ps, rest, from, to);
      TotalLast(rest, q, from, to);
      TotalLast(ps + rest, q, from, to);
      assert rest + [q] == qs && (ps + rest) + [q] == ps + qs;
    }
  }

  // What one round took from an account: the price of its ticket.
  function Spent(c: Config, r: Round, who: Address): nat {
    if who in r.tickets then c.ticketPrice else 0
  }

  // What one round gave to an account: the prize and the fee, once claimed, and the refund.
  function Gained(c: Config, r: Round, who: Address): nat {
    (if r.d.status == COMPLETED then ClaimShare(c, r.d, who) else 0) + (if who in r.refunded then c.ticketPrice else 0)
  }

  function ClaimShare(c: Config, d: Draw, who: Address): nat {
    (if d.winner == who then d.winnerPrize else 0) + (if c.dao == who then d.daoFee else 0)
  }

  function SpentTo(c: Config, l: Lot, who: Address, n: nat): nat {
    if n == 0 then 0 else SpentTo(c, l, who, n - 1) + Spent(c, RoundAt(l, n), who)
  }

  function GainedTo(c: Config, l: Lot, who: Address, n: nat): nat {
    if n == 0 then 0 else GainedTo(c, l, who, n - 1) + Gained(c, RoundAt(l, n), who)
  }

  ghost predicate SameGains(c: Config, r: Round, r1: Round, who: Address) {
    Spent(c, r1, who) == Spent(c, r, who) && Gained(c, r1, who) == Gained(c, r, who)
  }

  lemma {:induction false} SumsFrame(c: Config, l: Lot, l1: Lot, who: Address, n: nat)
    requires forall i: nat :: 1 <= i <= n ==> SameGains(c, RoundAt(l, i), RoundAt(l1, i), who)
    ensures SpentTo(c, l1, who, n) == SpentTo(c, l, who, n) && GainedTo(c, l1, who, n) == GainedTo(c, l, who, n)
  {
    hide Spent, Gained, RoundAt;
    if n > 0 {
      SumsFrame(c, l, l1, who, n - 1);
      assert SameGains(c, RoundAt(l, n), RoundAt(l1, n), who);
    }
  }

  lemma {:induction false} SumsChange(c: Config, l: Lot, l1: Lot, who: Address, k: nat, n: nat)
    requires 1 <= k <= n && forall i: nat :: i != k ==> SameGains(c, RoundAt(l, i), RoundAt(l1, i), who)
    ensures SpentTo(c, l1, who, n) - SpentTo(c, l, who, n) ==
      Spent(c, RoundAt(l1, k), who) - Spent(c, RoundAt(l, k), who)
    ensures GainedTo(c, l1, who, n) - GainedTo(c, l, who, n) ==
      Gained(c, RoundAt(l1, k), who) - Gained(c, RoundAt(l, k), who)
  {
    hide Spent, Gained, RoundAt, SameGains;
    if k == n {
      SumsFrame(c, l, l1, who, n - 1);
    } else {
      SumsChange(c, l, l1, who, k, n - 1);
      SameGainsIs(c, RoundAt(l, n), RoundAt(l1, n), who);
    }
  }

  lemma SameGainsIs(c: Config, r: Round, r1: Round, who: Address)
    requires SameGains(c, r, r1, who)
    ensures Spent(c, r1, who) == Spent(c, r, who) && Gained(c, r1, who) == Gained(c, r, who)
  {}

  // Settling a round pays nobody, nor does any other change of an unclaimed round's record.
  lemma SettlingGains(c: Config, r: Round, r1: Round, who: Address)
    requires SettledAtMost(r, r1) || (r1 == r.(d := r1.d) && r.d.status != COMPLETED && r1.d.status != COMPLETED)
    ensures SameGains(c, r, r1, who)
  {
    hide ClaimShare;
  }

  lemma SaleGains(c: Config, r: Round, buyer: Address, d: Draw, owners: seq<Address>, n: nat, who: Address)
    requires buyer !in r.tickets && r.d.status == ACTIVE && d.status == ACTIVE
    ensures
      var r1 := Round(d, owners, r.tickets[buyer := n], r.refunded);
      && Spent(c, r1, who) == Spent(c, r, who) + (if buyer == who then c.ticketPrice else 0)
      && Gained(c, r1, who) == Gained(c, r, who)
  {}

  lemma PrizeGains(c: Config, r: Round, who: Address)
    requires r.d.status == WINNER_DECLARED
    ensures
      var r1 := r.(d := r.d.(status := COMPLETED));
      && Spent(c, r1, who) == Spent(c, r, who)
      && Gained(c, r1, who) == Gained(c, r, who) + ClaimShare(c, r.d, who)
  {}

  lemma RefundGains(c: Config, r: Round, holder: Address, who: Address)
    requires holder !in r.refunded
    ensures
      var r1 := r.(refunded := r.refunded + {holder});
      && Spent(c, r1, who) == Spent(c, r, who)
      && Gained(c, r1, who) == Gained(c, r, who) + (if holder == who then c.ticketPrice else 0)
  {}

  lemma PaidBetween(from: Address, to: Address, amount: nat, from1: Address, to1: Address)
    ensures Total([], from1, to1) == 0
    ensures Total([Payment(from, to, amount)], from1, to1) == if from == from1 && to == to1 then amount else 0
  {
    hide Total;
    TotalLast([], Payment(from, to, amount), from1, to1);
  }

  lemma PrizePayments(c: Config, w: World, winner: Address, id: nat, from: Address, to: Address)
    ensures
      var d := w.lot.DrawOf(id);
      Total((if d.daoFee == 0 then [] else [Payment(LOTTERY, c.dao, d.daoFee)])
        + [Payment(LOTTERY, winner, d.winnerPrize)], from, to) ==
      (if from == LOTTERY && to == winner then d.winnerPrize else 0)
      + (if from == LOTTERY && to == c.dao then d.daoFee else 0)
  {
    hide Total;
    var d := w.lot.DrawOf(id);
    var fee, prize := Payment(LOTTERY, c.dao, d.daoFee), Payment(LOTTERY, winner, d.winnerPrize);
    TotalLast([], fee, from, to);
    TotalLast([], prize, from, to);
    TotalLast([fee], prize, from, to);
    assert [] + [prize] == [prize];
  }

  // The payments of an account are what its rounds say.
  ghost predicate Ledger(c: Config, w: World, who: Address) {
    && Total(w.payments, who, LOTTERY) == SpentTo(c, w.lot, who, w.lot.currentDrawId)
    && Total(w.payments, LOTTERY, who) == GainedTo(c, w.lot, who, w.lot.currentDrawId)
  }

  lemma LedgerMoves(c: Config, w: World, w1: World, who: Address, moves: seq<Payment>)
    requires Ledger(c, w, who) && w1.payments == w.payments + moves
    requires SpentTo(c, w1.lot, who, w1.lot.currentDrawId) ==
      SpentTo(c, w.lot, who, w.lot.currentDrawId) + Total(moves, who, LOTTERY)
    requires GainedTo(c, w1.lot, who, w1.lot.currentDrawId) ==
      GainedTo(c, w.lot, who, w.lot.currentDrawId) + Total(moves, LOTTERY, who)
    ensures Ledger(c, w1, who)
  {
    hide Total, SpentTo, GainedTo;
    TotalConcat(w.payments, moves, who, LOTTERY);
    TotalConcat(w.payments, moves, LOTTERY, who);
  }

  lemma NothingMoves(c: Config, w: World, w1: World, who: Address)
    requires Ledger(c, w, who) && w1.payments == w.payments && w1.lot.currentDrawId == w.lot.currentDrawId
    requires forall i: nat :: 1 <= i <= w.lot.currentDrawId ==> SameGains(c, RoundAt(w.lot, i), RoundAt(w1.lot, i), who)
    ensures Ledger(c, w1, who)
  {
    hide SpentTo, GainedTo, Total, SameGains, RoundAt;
    SumsFrame(c, w.lot, w1.lot, who, w.lot.currentDrawId);
  }

  lemma OnlySettlesLedger(c: Config, w: World, w1: World, who: Address)
    requires Ledger(c, w, who) && OnlySettles(w, w1) && w1.payments == w.payments
    ensures Ledger(c, w1, who)
  {
    hide Ledger, RoundAt, SettledAtMost, SameGains;
    forall i: nat
      ensures SameGains(c, RoundAt(w.lot, i), RoundAt(w1.lot, i), who)
    {
      SettlingGains(c, RoundAt(w.lot, i), RoundAt(w1.lot, i), who);
    }
    NothingMoves(c, w, w1, who);
  }

  // One round changes its record while the account neither pays nor is paid.
  lemma OneRecordLedger(c: Config, w: World, w1: World, who: Address, id: nat, d: Draw)
    requires Ledger(c, w, who) && w1.payments == w.payments && w1.lot.currentDrawId == w.lot.currentDrawId
    requires SameElsewhere(w.lot, w1.lot, id) && RoundAt(w1.lot, id) == RoundAt(w.lot, id).(d := d)
    requires w.lot.DrawOf(id).status != COMPLETED && d.status != COMPLETED
    ensures Ledger(c, w1, who)
  {
    hide Ledger, RoundAt, SameGains;
    var r := RoundAt(w.lot, id);
    RoundAtDraw(w.lot, id);
    SettlingGains(c, r, RoundAt(w1.lot, id), who);
    forall i: nat
      ensures SameGains(c, RoundAt(w.lot, i), RoundAt(w1.lot, i), who)
    {
      if i != id {
        SameGainsReflexive(c, RoundAt(w.lot, i), who);
      }
    }
    NothingMoves(c, w, w1, who);
  }

  lemma SameGainsReflexive(c: Config, r: Round, who: Address)
    ensures SameGains(c, r, r, who)
  {}

  lemma StartLedger(c: Config, w: World, w1: World, who: Address, d: Draw)
    requires Ledger(c, w, who) && w1.payments == w.payments
    requires w1.lot.currentDrawId == w.lot.currentDrawId + 1 && SameElsewhere(w.lot, w1.lot, w1.lot.currentDrawId)
    requires RoundAt(w1.lot, w1.lot.currentDrawId) == EMPTY_ROUND.(d := d) && d.status == ACTIVE
    ensures Ledger(c, w1, who)
  {
    hide RoundAt, Total, SameGains;
    var n := w.lot.currentDrawId;
    forall i: nat | 1 <= i <= n
      ensures SameGains(c, RoundAt(w.lot, i), RoundAt(w1.lot, i), who)
    {
      SameGainsReflexive(c, RoundAt(w.lot, i), who);
    }
    SumsFrame(c, w.lot, w1.lot, who, n);
  }

  // One round and the payments change together, while others may settle.
  lemma OneRoundLedger(c: Config, w: World, w1: World, who: Address, id: nat, moves: seq<Payment>)
    requires Ledger(c, w, who) && w1.payments == w.payments + moves
    requires 1 <= id <= w.lot.currentDrawId == w1.lot.currentDrawId
    requires forall i: nat :: i != id ==> SettledAtMost(RoundAt(w.lot, i), RoundAt(w1.lot, i))
    requires Spent(c, RoundAt(w1.lot, id), who) == Spent(c, RoundAt(w.lot, id), who) + Total(moves, who, LOTTERY)
    requires Gained(c, RoundAt(w1.lot, id), who) == Gained(c, RoundAt(w.lot, id), who) + Total(moves, LOTTERY, who)
    ensures Ledger(c, w1, who)
  {
    hide Ledger, RoundAt, SettledAtMost, SameGains, Spent, Gained, Total, SpentTo, GainedTo;
    forall i: nat | i != id
      ensures SameGains(c, RoundAt(w.lot, i), RoundAt(w1.lot, i), who)
    {
      SettlingGains(c, RoundAt(w.lot, i), RoundAt(w1.lot, i), who);
    }
    SumsChange(c, w.lot, w1.lot, who, id, w.lot.currentDrawId);
    LedgerMoves(c, w, w1, who, moves);
  }

  lemma BuyLedger(c: Config, now: nat, w: World, w1: World, who: Address, sender: Outsider, id: nat)
    requires AtRest(c, w) && OnSale(w.lot, now, sender, id) && Sold(c, now, w, w1, sender, id)
    requires Ledger(c, w, who) && who != LOTTERY
    ensures Ledger(c, w1, who)
  {
    TicketFree(c, w, sender, id);
    var d, n := w.lot.DrawOf(id), w.lot.DrawOf(id).participantCount + 1;
    var moves := [Payment(sender, LOTTERY, c.ticketPrice)];
    SameSettles(w.lot, w1.lot, id);
    PaidBetween(sender, LOTTERY, c.ticketPrice, who, LOTTERY);
    PaidBetween(sender, LOTTERY, c.ticketPrice, LOTTERY, who);
    SaleGains(c, RoundAt(w.lot, id), sender, d.(participantCount := n, pool := d.pool + c.ticketPrice),
        w.lot.OwnersOf(id)[n - 1 := sender], n, who);
    hide Inv, Ledger, Total, Spent, Gained, SettledAtMost, SameElsewhere;
    OneRoundLedger(c, w, w1, who, id, moves);
  }

  lemma SameSettles(l: Lot, l1: Lot, id: nat)
    requires SameElsewhere(l, l1, id)
    ensures forall i: nat :: i != id ==> SettledAtMost(RoundAt(l, i), RoundAt(l1, i))
  {
    hide RoundAt;
  }

  lemma TicketFree(c: Config, w: World, who: Address, id: nat)
    requires AtRest(c, w) && 1 <= id <= w.lot.currentDrawId && w.lot.Ticket(id, who) == 0
    ensures who !in RoundAt(w.lot, id).tickets
  {
    hide Buckets, Requests, BoardOk;
    RoundFacts(c, w.lot, false, id);
    NoTicket(c, RoundAt(w.lot, id), id, who);
  }

  lemma PrizeLedger(c: Config, w: World, w1: World, who: Address, sender: Outsider, id: nat, report: Emit)
    requires AtRest(c, w) && Ledger(c, w, who) && who != LOTTERY
    requires
      var d := w.lot.DrawOf(id);
      && d.status == WINNER_DECLARED && d.winner == sender
      && w1.payments == w.payments
           + ((if d.daoFee == 0 then [] else [Payment(LOTTERY, c.dao, d.daoFee)])
              + [Payment(LOTTERY, sender, d.winnerPrize)])
      && Claimed(w, w1, id, RoundAt(w.lot, id).(d := d.(status := COMPLETED)), report)
    ensures Ledger(c, w1, who)
  {
    var d := w.lot.DrawOf(id);
    var moves := (if d.daoFee == 0 then [] else [Payment(LOTTERY, c.dao, d.daoFee)])
      + [Payment(LOTTERY, sender, d.winnerPrize)];
    DaoIsNotLottery(c);
    OnlyRounds(c, w.lot, false, id);
    PrizePayments(c, w, sender, id, who, LOTTERY);
    PrizePayments(c, w, sender, id, LOTTERY, who);
    PrizeGains(c, RoundAt(w.lot, id), who);
    hide Inv, Ledger, Total, Spent, Gained, SettledAtMost;
    OneRoundLedger(c, w, w1, who, id, moves);
  }

  lemma RefundLedger(c: Config, w: World, w1: World, who: Address, sender: Outsider, id: nat, report: Emit)
    requires AtRest(c, w) && Ledger(c, w, who) && who != LOTTERY
    requires w.lot.DrawOf(id).status == CANCELLED && sender !in w.lot.RefundedOf(id)
    requires w1.payments == w.payments + [Payment(LOTTERY, sender, c.ticketPrice)]
    requires Claimed(w, w1, id, RoundAt(w.lot, id).(refunded := w.lot.RefundedOf(id) + {sender}), report)
    ensures Ledger(c, w1, who)
  {
    OnlyRounds(c, w.lot, false, id);
    PaidBetween(LOTTERY, sender, c.ticketPrice, who, LOTTERY);
    PaidBetween(LOTTERY, sender, c.ticketPrice, LOTTERY, who);
    RefundGains(c, RoundAt(w.lot, id), sender, who);
    hide Inv, Ledger, Total, Spent, Gained, SettledAtMost;
    OneRoundLedger(c, w, w1, who, id, [Payment(LOTTERY, sender, c.ticketPrice)]);
  }

  lemma CallLedger(c: Config, now: nat, w: World, call: Call, who: Address)
    requires AtRest(c, w) && ValidTime(now) && Ledger(c, w, who) && who != LOTTERY
    ensures Ledger(c, Exec(c, now, w, call), who)
  {
    hide Inv, Try, RoundAt, OnSale, SameElsewhere, OnlySettles, Claimed, Ledger, Sold, Drawable;
    var w1 := Exec(c, now, w, call);
    match call
    case StartDraw(expected) =>
      StartExactly(c, now, w, expected);
      if Try(c, now, w, call).Ok? {
        var n, carried := w.lot.currentDrawId, w.lot.pendingRollover;
        StartLedger(c, w, w1, who, Draw(n + 1, ACTIVE, now, now + 86400, 0, 0, 0, ZERO, carried, carried, 0, 0, 0));
      }
    case BuyTicket(sender, id, pay) =>
      BuyExactly(c, now, w, sender, id, pay);
      if Try(c, now, w, call).Ok? {
        BuyLedger(c, now, w, w1, who, sender, id);
      }
    case PerformDraw(id, during, answer) =>
      PerformExactly(c, now, w, id, during, answer);
      if Try(c, now, w, call).Ok? {
        DrawableStatus(w.lot, now, id);
        var d := w.lot.DrawOf(id);
        if d.participantCount < c.minimum {
          OneRecordLedger(c, w, w1, who, id, d.(status := CANCELLED, finalizedAt := now));
        } else {
          OneRecordLedger(c, w, w1, who, id, d.(status := DRAWING, requestId := answer.value));
        }
      }
    case ClaimPrize(sender, id, toDao, toWinner) =>
      PrizeExactly(c, now, w, sender, id, toDao, toWinner);
      if Try(c, now, w, call).Ok? {
        var d := w.lot.DrawOf(id);
        PrizeLedger(c, w, w1, who, sender, id, Emit(now, PrizeClaimed(id, sender, d.winnerPrize, c.dao, d.daoFee)));
      }
    case ClaimRefund(sender, id, pay) =>
      RefundExactly(c, now, w, sender, id, pay);
      if Try(c, now, w, call).Ok? {
        RefundLedger(c, w, w1, who, sender, id, Emit(now, RefundClaimed(id, sender, c.ticketPrice)));
      }
    case _ =>
      UnguardedSettles(c, now, w, call);
      OnlySettlesLedger(c, w, w1, who);
  }

  lemma DrawableStatus(l: Lot, now: nat, id: nat)
    requires Drawable(l, now, id)
    ensures l.DrawOf(id).status == ACTIVE
  {}

  // After every run, for every account: it has paid one ticket price for each round it holds a ticket
  // of, and has got the prizes it won and claimed, its refunds, and, if it is the DAO, the fees.
  lemma {:induction false} AccountsBalance(c: Config, w: World, txs: seq<Tx>, who: Address)
    requires AtRest(c, w) && ValidTimes(txs) && Ledger(c, w, who) && who != LOTTERY
    ensures
      var w1 := Run(c, w, txs);
      && Total(w1.payments, who, LOTTERY) == SpentTo(c, w1.lot, who, w1.lot.currentDrawId)
      && Total(w1.payments, LOTTERY, who) == GainedTo(c, w1.lot, who, w1.lot.currentDrawId)
    decreases |txs|
  {
    hide Inv, Exec, Total, SpentTo, GainedTo;
    if txs != [] {
      CallLedger(c, txs[0].now, w, txs[0].call, who);
      ExecInv(c, txs[0].now, w, txs[0].call);
      AccountsBalance(c, Exec(c, txs[0].now, w, txs[0].call), txs[1..], who);
    }
  }

  // A state in which nothing has happened meets what these theorems ask of the state they start from.
  lemma NothingPaidYet(c: Config, w: World, who: Address)
    requires w.payments == [] && w.log == [] && w.lot.currentDrawId == 0 && w.balance == w.donated
    ensures w.payments == AllReported(w.log) && Own(w) == Flowed(w.payments) && Ledger(c, w, who)
  {}

  lemma GenesisIsEmpty()
    ensures GENESIS.payments == [] && GENESIS.log == [] && GENESIS.lot.currentDrawId == 0
    ensures GENESIS.balance == GENESIS.donated
  {}
}
