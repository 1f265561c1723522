/**
 A first word that arrives while another call waits for the token or the coordinator decides its
 round all the same.
 */
module NestedRandomness {
  import opened Basics
  import opened Contract
  import opened Growth
  import opened Invariants
  import opened Preservation
  import opened Transactions
  import opened LotteryTheorems
  import opened LotteryOutcomes

  // What happens at a point of a successful call is not taken back by the rest of the call.
  lemma PayoutGrows(c: Config, now: nat, w: World, to: Address, pay: TokenCall, amount: nat, k: nat)
    requires k < |PayoutPoints(c, now, w, to, pay, amount)| && TokenOut(c, now, w, to, pay, amount).Ok?
    ensures
      var p := PayoutPoints(c, now, w, to, pay, amount)[k];
      Grows(now, RunAll(c, now, p.state, p.script), TokenOut(c, now, w, to, pay, amount).value)
  {
    hide RunAll, Exec;
    var w1 := RunAll(c, now, w, pay.pre);
    RunAllGrows(c, now, Sent(w1, to, amount), pay.post);
  }

  lemma BuyPointGrows(c: Config, now: nat, w: World, sender: Outsider, id: nat, pay: TokenCall, k: nat)
    requires k < |CallPoints(c, now, w, BuyTicket(sender, id, pay))| && TryBuy(c, now, w, sender, id, pay).Ok?
    ensures
      var p := CallPoints(c, now, w, BuyTicket(sender, id, pay))[k];
      Grows(now, RunAll(c, now, p.state, p.script), TryBuy(c, now, w, sender, id, pay).value)
  {
    hide RunAll, Bought, BuyRefused;
    var w1 := RunAll(c, now, w.(locked := true), pay.pre);
    var w2 := Received(w1, sender, c.ticketPrice);
    var w3 := RunAll(c, now, w2, pay.post);
    RunAllGrows(c, now, w2, pay.post);
    BoughtGrows(c, now, w3.(locked := false), sender, id);
  }

  lemma PerformPointGrows(c: Config, now: nat, w: World, id: nat, during: seq<Call>, answer: Option<nat>)
    requires |CallPoints(c, now, w, PerformDraw(id, during, answer))| > 0
      && TryPerform(c, now, w, id, during, answer).Ok?
    ensures Grows(now, RunAll(c, now, Requesting(w, id), during), TryPerform(c, now, w, id, during, answer).value)
  {
    hide RunAll;
  }

  lemma PrizePointGrows(c: Config, now: nat, w: World, sender: Outsider, id: nat, toDao: TokenCall,
                        toWinner: TokenCall, k: nat)
    requires k < |CallPoints(c, now, w, ClaimPrize(sender, id, toDao, toWinner))|
    requires TryPrize(c, now, w, sender, id, toDao, toWinner).Ok?
    ensures
      var p := CallPoints(c, now, w, ClaimPrize(sender, id, toDao, toWinner))[k];
      Grows(now, RunAll(c, now, p.state, p.script), TryPrize(c, now, w, sender, id, toDao, toWinner).value)
  {
    hide RunAll, TokenOut, PrizeRefused, PayoutPoints;
    var fee := w.lot.DrawOf(id).daoFee;
    var w1 := PrizeReleased(w, id);
    var first := if fee == 0 then [] else PayoutPoints(c, now, w1, c.dao, toDao, fee);
    var w2 := if fee == 0 then w1 else TokenOut(c, now, w1, c.dao, toDao, fee).value;
    var prize := w2.lot.DrawOf(id).winnerPrize;
    TokenGrows(c, now, w2, sender, toWinner, prize);
    if k < |first| {
      PayoutGrows(c, now, w1, c.dao, toDao, fee, k);
    } else {
      PayoutGrows(c, now, w2, sender, toWinner, prize, k - |first|);
    }
  }

  lemma PointGrows(c: Config, now: nat, w: World, call: Call, k: nat)
    requires k < |CallPoints(c, now, w, call)| && Try(c, now, w, call).Ok?
    ensures
      var p := CallPoints(c, now, w, call)[k];
      Grows(now, RunAll(c, now, p.state, p.script), Exec(c, now, w, call))
  {
    hide RunAll, TryBuy, TryPerform, TryPrize, TokenOut;
    match call
    case BuyTicket(sender, id, pay) => BuyPointGrows(c, now, w, sender, id, pay, k);
    case PerformDraw(id, during, answer) => PerformPointGrows(c, now, w, id, during, answer);
    case ClaimPrize(sender, id, toDao, toWinner) => PrizePointGrows(c, now, w, sender, id, toDao, toWinner, k);
    case ClaimRefund(sender, id, pay) => PayoutGrows(c, now, RefundReleased(c, w, sender, id), sender, pay,
      c.ticketPrice, k);
    case _ =>
  }

  // The callback is accepted at the point it arrives at.
  lemma AcceptedAt(c: Config, now: nat, p: World, before: seq<Call>, requestId: nat, values: seq<nat>, runs: bool)
    requires Guarded(c, p) && ValidTime(now) && |values| >= 1
    requires
      var q := RunAll(c, now, p, before);
      requestId in q.vrf.requested && requestId !in q.vrf.ready
    ensures
      var q1 := Exec(c, now, RunAll(c, now, p, before), Callback(COORDINATOR, requestId, values, runs));
      && requestId in q1.vrf.requested && requestId in q1.vrf.ready
      && requestId in q1.vrf.words && q1.vrf.words[requestId] == values[0]
      && (runs ==> requestId in q1.vrf.delivered)
  {
    hide Inv, RunAll, Exec, CalledBack, Evolves, Interfered;
    var pending, unbooked :| Inv(c, p, pending, unbooked);
    LockedCalls(c, now, p, before, pending, unbooked);
    var q := RunAll(c, now, p, before);
    FirstWord(c, now, q, requestId, values, runs, pending, unbooked);
    CallbackExec(c, now, q, requestId, values, runs);
  }

  lemma WordKept(now: nat, w: World, w1: World, requestId: nat)
    requires Grows(now, w, w1) && requestId in w.vrf.ready && requestId in w.vrf.words
    ensures requestId in w1.vrf.words && w1.vrf.words[requestId] == w.vrf.words[requestId]
    ensures requestId in w.vrf.requested ==> requestId in w1.vrf.requested
    ensures requestId in w.vrf.delivered ==> requestId in w1.vrf.delivered
  {}

  // The first accepted word of a request decides its round also if it arrives inside another call
  // that succeeds, among any other calls made there, in every continuation.
  lemma NoRerollInside(c: Config, now: nat, w: World, call: Call, k: nat, before: seq<Call>, requestId: nat,
                       values: seq<nat>, runs: bool, after: seq<Call>, txs: seq<Tx>)
    requires AtRest(c, w) && ValidTime(now) && ValidTimes(txs) && k < |CallPoints(c, now, w, call)| && |values| >= 1
    requires CallPoints(c, now, w,
      call)[k].script == before + ([Callback(COORDINATOR, requestId, values, runs)] + after)
    requires Try(c, now, w, call).Ok?
    requires
      var q := RunAll(c, now, CallPoints(c, now, w, call)[k].state, before);
      requestId in q.vrf.requested && requestId !in q.vrf.ready
    ensures
      var w2 := Run(c, Exec(c, now, w, call), txs);
      var d := w2.lot.DrawOf(w2.lot.RequestDraw(requestId));
      && requestId in w2.vrf.words && w2.vrf.words[requestId] == values[0]
      && d.requestId == requestId
      && (d.status == DRAWING || d.luckyNumber == values[0] % 10 + 1)
      && (runs ==> d.status != DRAWING)
  {
    var callback: Call := Callback(COORDINATOR, requestId, values, runs);
    hide *;
    var p := CallPoints(c, now, w, call)[k];
    CallPointsGuarded(c, now, w, call, k);
    AcceptedAt(c, now, p.state, before, requestId, values, runs);
    RunAllConcat(c, now, p.state, before, [callback] + after);
    var q := RunAll(c, now, p.state, before);
    RunAllOne(c, now, q, callback, after);
    var q1 := Exec(c, now, q, callback);
    RunAllGrows(c, now, q1, after);
    PointGrows(c, now, w, call, k);
    var w1 := Exec(c, now, w, call);
    GrowsOn(now, q1, RunAll(c, now, p.state, p.script), w1);
    WordKept(now, q1, w1, requestId);
    ExecInv(c, now, w, call);
    RunInv(c, w1, txs);
    WordsStay(w1, Run(c, w1, txs), requestId);
    RequestRound(c, Run(c, w1, txs), requestId);
  }

  lemma RunAllOne(c: Config, now: nat, w: World, call: Call, calls: seq<Call>)
    ensures RunAll(c, now, w, [call] + calls) == RunAll(c, now, Exec(c, now, w, call), calls)
  {
    hide Exec;
    assert ([call] + calls)[1..] == calls;
  }
}
