/** A full round, drawn before its deadline: the two countdowns differ. */
module Countdown {
  import opened Basics
  import opened Contract
  import opened Invariants
  import opened Projection
  import opened Refinement

  // A token with eight decimals, two participants at least; the configurator is account 5.
  const USD8 := Config(4, 8, 1_000_000_000, 2, 5)

  const PAYMENT := TokenCall([], true, [])

  lemma USD8IsValid()
    ensures ValidConfig(USD8)
  {
    assert Pow10(4) == 10_000;
    assert Pow10(8) == 10_000 * Pow10(4);
  }

  // The sales from the ticket after the `sold` first ones on, and then the draw.
  function Sales(now: nat, sold: nat): seq<Tx>
    requires sold <= MAX_PARTICIPANTS
    decreases MAX_PARTICIPANTS - sold
  {
    if sold == MAX_PARTICIPANTS then [Tx(now, PerformDraw(1, [], Some(7)))]
    else [Tx(now, BuyTicket(10 + sold, 1, PAYMENT))] + Sales(now, sold + 1)
  }

  // Five wallets buy, and the draw is performed at once.
  function FullRound(now: nat): seq<Tx> {
    [Tx(now, SetLottery(5, ThisLottery))] + ([Tx(now, StartDraw(0))] + Sales(now, 0))
  }

  // The first round is on sale with `k` tickets sold, to the accounts from 10 on.
  ghost predicate OnSale(w: World, now: nat, k: nat) {
    var d := w.lot.DrawOf(1);
    && !w.locked && w.vrf.bound && w.lot.currentDrawId == 1 && w.lot.requestDraw == map[]
    && d.status == ACTIVE && d.participantCount == k && d.deadline == now + DURATION
    && w.balance == w.lot.activePool == d.pool == k * USD8.ticketPrice
    && (forall who: Address :: w.lot.Ticket(1, who) != 0 ==> who < 10 + k)
  }

  lemma Opens(now: nat)
    requires ValidTime(now)
    ensures
      var w := Exec(USD8, now, GENESIS, SetLottery(5, ThisLottery));
      OnSale(Exec(USD8, now, w, StartDraw(0)), now, 0)
  {}

  lemma Sells(now: nat, w: World, k: nat)
    requires ValidTime(now) && k < 5 && OnSale(w, now, k)
    ensures OnSale(Exec(USD8, now, w, BuyTicket(10 + k, 1, PAYMENT)), now, k + 1)
  {
    var paid := Received(w, 10 + k, USD8.ticketPrice);
    assert TokenIn(USD8, now, w.(locked := true), 10 + k, PAYMENT, USD8.ticketPrice) == Ok(paid.(locked := true));
    assert Try(USD8, now, w, BuyTicket(10 + k, 1, PAYMENT)) == Bought(USD8, now, paid, 10 + k, 1);
    SoldOne(now, paid, k);
  }

  lemma SoldOne(now: nat, w: World, k: nat)
    requires k < 5 && w.balance >= USD8.ticketPrice && OnSale(w.(balance := w.balance - USD8.ticketPrice), now, k)
    ensures Bought(USD8, now, w, 10 + k, 1).Ok? && OnSale(Bought(USD8, now, w, 10 + k, 1).value, now, k + 1)
  {
    var w1 := Bought(USD8, now, w, 10 + k, 1).value;
    forall who: Address
      ensures w1.lot.Ticket(1, who) == if who == 10 + k then k + 1 else w.lot.Ticket(1, who)
    {}
  }

  lemma Draws(now: nat, w: World)
    requires ValidTime(now) && OnSale(w, now, 5)
    ensures
      var l := Exec(USD8, now, w, PerformDraw(1, [], Some(7))).lot;
      l.currentDrawId == 1 && l.DrawOf(1).status == DRAWING && l.DrawOf(1).deadline == now + DURATION
  {
    assert Try(USD8, now, w, PerformDraw(1, [], Some(7))) == Registered(now, Requesting(w, 1), 1, 7);
  }

  lemma RunsStep(w: World, tx: Tx, txs: seq<Tx>)
    ensures Run(USD8, w, [tx] + txs) == Run(USD8, Exec(USD8, tx.now, w, tx.call), txs)
  {
    assert ([tx] + txs)[1..] == txs;
  }

  lemma {:induction false} SellsOut(now: nat, w: World, k: nat)
    requires ValidTime(now) && k <= MAX_PARTICIPANTS && OnSale(w, now, k)
    ensures
      var w1 := Run(USD8, w, Sales(now, k));
      w1.lot.currentDrawId == 1 && w1.lot.DrawOf(1).status == DRAWING && w1.lot.DrawOf(1).deadline == now + DURATION
    decreases MAX_PARTICIPANTS - k
  {
    hide Exec, OnSale, Run;
    if k == MAX_PARTICIPANTS {
      Draws(now, w);
      RunsStep(w, Tx(now, PerformDraw(1, [], Some(7))), []);
      RunsNothing(Exec(USD8, now, w, PerformDraw(1, [], Some(7))));
      assert [Tx(now, PerformDraw(1, [], Some(7)))] + [] == Sales(now, k);
    } else {
      Sells(now, w, k);
      RunsStep(w, Tx(now, BuyTicket(10 + k, 1, PAYMENT)), Sales(now, k + 1));
      SellsOut(now, Exec(USD8, now, w, BuyTicket(10 + k, 1, PAYMENT)), k + 1);
    }
  }

  lemma RunsNothing(w: World)
    ensures Run(USD8, w, []) == w
  {}

  lemma Rounds(now: nat)
    requires ValidTime(now)
    ensures
      var w := Run(USD8, GENESIS, FullRound(now));
      w.lot.currentDrawId == 1 && w.lot.DrawOf(1).status == DRAWING && w.lot.DrawOf(1).deadline == now + DURATION
  {
    Opens(now);
    hide Exec, GENESIS, OnSale, Run, Sales;
    var w := Exec(USD8, now, GENESIS, SetLottery(5, ThisLottery));
    SellsOut(now, Exec(USD8, now, w, StartDraw(0)), 0);
    RunsStep(w, Tx(now, StartDraw(0)), Sales(now, 0));
    RunsStep(GENESIS, Tx(now, SetLottery(5, ThisLottery)), [Tx(now, StartDraw(0))] + Sales(now, 0));
  }

  lemma AllAtOnce(now: nat, sold: nat)
    requires ValidTime(now) && sold <= MAX_PARTICIPANTS
    ensures ValidTimes(Sales(now, sold))
    decreases MAX_PARTICIPANTS - sold
  {
    if sold < MAX_PARTICIPANTS {
      AllAtOnce(now, sold + 1);
    }
  }

  // Right after the draw the contract's reader counts a whole day, and the projection of the same
  // state shows nothing left.
  lemma CountdownsDiffer(now: nat)
    requires ValidTime(now)
    ensures
      var w := Run(USD8, GENESIS, FullRound(now));
      && Fold(w.log).Ok? && 1 in Fold(w.log).value
      && Refreshed(Fold(w.log).value[1], now).remainingSeconds == 0
      && ChainDraw(USD8, w.lot, 1, now).remainingSeconds == DURATION
  {
    USD8IsValid();
    Rounds(now);
    AllAtOnce(now, 0);
    assert ValidTimes(FullRound(now));
    hide Run, GENESIS, Fold, ChainTickets, ValidConfig;
    EventRefinement(USD8, FullRound(now), 1, now);
  }
}
