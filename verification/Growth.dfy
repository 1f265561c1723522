/** What no call ever takes back: emitted events, and the stages and words of randomness requests. */
module Growth {
  import opened Basics
  import opened Contract

  ghost predicate Appends(now: nat, log: seq<Emit>, log1: seq<Emit>) {
    log <= log1 && forall k :: |log| <= k < |log1| ==> log1[k].time == now
  }

  // Stages are only added to, a word that has been accepted is never replaced, and the lottery that
  // the provider names never changes.
  ghost predicate Keeps(v: Vrf, v1: Vrf) {
    && v.requested <= v1.requested && v.ready <= v1.ready && v.delivered <= v1.delivered
    && (forall r :: r in v.ready && r in v.words ==> r in v1.words && v1.words[r] == v.words[r])
    && (v.bound || v.elsewhere ==> v1.bound == v.bound && v1.elsewhere == v.elsewhere)
  }

  ghost predicate Grows(now: nat, w: World, w1: World) {
    Appends(now, w.log, w1.log) && Keeps(w.vrf, w1.vrf)
  }

  lemma GrowsOn(now: nat, w: World, w1: World, w2: World)
    requires Grows(now, w, w1) && Grows(now, w1, w2)
    ensures Grows(now, w, w2)
  {}

  lemma FulfilledGrows(c: Config, now: nat, w: World, requestId: nat, word: nat)
    ensures Fulfilled(c, now, w, requestId, word).Ok? ==> Grows(now, w, Fulfilled(c, now, w, requestId, word).value)
  {}

  lemma BoughtGrows(c: Config, now: nat, w: World, sender: Address, id: nat)
    ensures Bought(c, now, w, sender, id).Ok? ==> Grows(now, w, Bought(c, now, w, sender, id).value)
  {}

  lemma BuyGrows(c: Config, now: nat, w: World, sender: Outsider, id: nat, pay: TokenCall)
    requires TokenIn(c, now, w.(locked := true), sender, pay, c.ticketPrice).Ok? ==>
      Grows(now, w, TokenIn(c, now, w.(locked := true), sender, pay, c.ticketPrice).value)
    ensures TryBuy(c, now, w, sender, id, pay).Ok? ==> Grows(now, w, TryBuy(c, now, w, sender, id, pay).value)
  {
    hide TokenIn, Bought, BuyRefused;
    if TryBuy(c, now, w, sender, id, pay).Ok? {
      BoughtGrows(c, now, TokenIn(c, now, w.(locked := true), sender, pay, c.ticketPrice).value.(locked := false),
          sender, id);
    }
  }

  lemma PerformGrows(c: Config, now: nat, w: World, id: nat, during: seq<Call>, answer: Option<nat>)
    requires Grows(now, w, RunAll(c, now, Requesting(w, id), during))
    ensures TryPerform(c, now, w, id, during, answer).Ok? ==>
      Grows(now, w, TryPerform(c, now, w, id, during, answer).value)
  {
    hide RunAll;
  }

  function AfterDao(c: Config, now: nat, w: World, toDao: TokenCall, fee: nat): World {
    if fee != 0 && TokenOut(c, now, w, c.dao, toDao, fee).Ok? then TokenOut(c, now, w, c.dao, toDao, fee).value else w
  }

  lemma PrizeGrows(c: Config, now: nat, w: World, sender: Outsider, id: nat, toDao: TokenCall, toWinner: TokenCall)
    requires PrizeRefused(w, sender, id).None?
    requires
      var w1 := PrizeReleased(w, id);
      var fee := w.lot.DrawOf(id).daoFee;
      var w2 := AfterDao(c, now, w1, toDao, fee);
      var paid := TokenOut(c, now, w2, sender, toWinner, w2.lot.DrawOf(id).winnerPrize);
      && (TokenOut(c, now, w1, c.dao, toDao, fee).Ok? ==> Grows(now, w1, TokenOut(c, now, w1, c.dao, toDao, fee).value))
      && (paid.Ok? ==> Grows(now, w2, paid.value))
    ensures TryPrize(c, now, w, sender, id, toDao, toWinner).Ok? ==>
      Grows(now, w, TryPrize(c, now, w, sender, id, toDao, toWinner).value)
  {
    hide TokenOut, PrizeRefused;
  }

  lemma PrizeReverts(c: Config, now: nat, w: World, sender: Outsider, id: nat, toDao: TokenCall, toWinner: TokenCall)
    requires PrizeRefused(w, sender, id).Some?
    ensures TryPrize(c, now, w, sender, id, toDao, toWinner).Revert?
  {}

  lemma RefundGrows(c: Config, now: nat, w: World, sender: Outsider, id: nat, pay: TokenCall)
    requires RefundRefused(c, w, sender, id).None? ==>
      var w1 := RefundReleased(c, w, sender, id);
      TokenOut(c, now, w1, sender, pay, c.ticketPrice).Ok? ==>
          Grows(now, w1, TokenOut(c, now, w1, sender, pay, c.ticketPrice).value)
    ensures TryRefund(c, now, w, sender, id, pay).Ok? ==>
      Grows(now, w, TryRefund(c, now, w, sender, id, pay).value)
  {
    hide TokenOut;
  }

  lemma {:induction false} ExecGrows(c: Config, now: nat, w: World, call: Call)
    ensures Grows(now, w, Exec(c, now, w, call))
    decreases call, 2
  {
    hide Fulfilled, RunAll, Bought, TokenIn, TokenOut, TryBuy, TryPerform, TryPrize, TryRefund, AfterDao;
    match call
    case BuyTicket(sender, id, pay) =>
      TokenGrows(c, now, w.(locked := true), sender, pay, c.ticketPrice);
      BuyGrows(c, now, w, sender, id, pay);
    case PerformDraw(id, during, answer) =>
      RunAllGrows(c, now, Requesting(w, id), during);
      PerformGrows(c, now, w, id, during, answer);
    case ClaimPrize(sender, id, toDao, toWinner) =>
      if PrizeRefused(w, sender, id).None? {
        var w1 := PrizeReleased(w, id);
        var w2 := AfterDao(c, now, w1, toDao, w.lot.DrawOf(id).daoFee);
        TokenGrows(c, now, w1, c.dao, toDao, w.lot.DrawOf(id).daoFee);
        TokenGrows(c, now, w2, sender, toWinner, w2.lot.DrawOf(id).winnerPrize);
        PrizeGrows(c, now, w, sender, id, toDao, toWinner);
      } else {
        PrizeReverts(c, now, w, sender, id, toDao, toWinner);
      }
    case ClaimRefund(sender, id, pay) =>
      if RefundRefused(c, w, sender, id).None? {
        TokenGrows(c, now, RefundReleased(c, w, sender, id), sender, pay, c.ticketPrice);
      }
      RefundGrows(c, now, w, sender, id, pay);
    case FinalizeDraw(id) => DeliveredGrows(c, now, w, w.lot.DrawOf(id).requestId);
    case Callback(_, requestId, values, runs) => CalledBackGrows(c, now, w, requestId, values, runs);
    case Deliver(requestId) => DeliveredGrows(c, now, w, requestId);
    case _ =>
  }

  lemma DeliveredGrows(c: Config, now: nat, w: World, requestId: nat)
    ensures Delivered(c, now, w, requestId).Ok? ==> Grows(now, w, Delivered(c, now, w, requestId).value)
  {
    hide Fulfilled;
    if requestId in w.vrf.words {
      FulfilledGrows(c, now, w, requestId, w.vrf.words[requestId]);
    }
  }

  lemma CalledBackGrows(c: Config, now: nat, w: World, requestId: nat, values: seq<nat>, runs: bool)
    ensures Grows(now, w, CalledBack(c, now, w, requestId, values, runs))
  {
    hide Fulfilled;
    if |values| != 0 {
      var w1 := w.(vrf := w.vrf.(words := w.vrf.words[requestId := values[0]], ready := w.vrf.ready + {requestId}));
      FulfilledGrows(c, now, w1, requestId, values[0]);
    }
  }

  lemma {:induction false} TokenGrows(c: Config, now: nat, w: World, party: Address, pay: TokenCall, amount: nat)
    ensures TokenIn(c, now, w, party, pay, amount).Ok? ==> Grows(now, w, TokenIn(c, now, w, party, pay, amount).value)
    ensures TokenOut(c, now, w, party, pay, amount).Ok? ==> Grows(now, w, TokenOut(c, now, w, party, pay, amount).value)
    decreases pay, 4
  {
    RunAllGrows(c, now, w, pay.pre);
    var w1 := RunAll(c, now, w, pay.pre);
    RunAllGrows(c, now, Received(w1, party, amount), pay.post);
    if w1.balance >= amount {
      RunAllGrows(c, now, Sent(w1, party, amount), pay.post);
    }
  }

  lemma {:induction false} RunAllGrows(c: Config, now: nat, w: World, calls: seq<Call>)
    ensures Grows(now, w, RunAll(c, now, w, calls))
    decreases calls, 3
  {
    hide Exec;
    if calls != [] {
      ExecGrows(c, now, w, calls[0]);
      RunAllGrows(c, now, Exec(c, now, w, calls[0]), calls[1..]);
    }
  }
}
