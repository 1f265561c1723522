/**
 The ticket and claim tables say the same as the draw bodies, and projecting an event fails only
 if the reducer rejects it.
 */
module StoreTables {
  import opened Basics
  import opened Contract
  import opened Projection
  import opened Store

  /******* Records the reducer produces *******/

  ghost predicate ViewOk(v: View) {
    && (forall k :: 0 <= k < POSITIONS ==> v.tickets[k].number == k + 1)
    && (forall j, k :: 0 <= j < k < POSITIONS && v.tickets[j].wallet.Some? ==>
       v.tickets[j].wallet != v.tickets[k].wallet)
    && (forall k :: 0 <= k < POSITIONS && v.tickets[k].refunded ==> v.tickets[k].wallet.Some? && v.status == CANCELLED)
    && (v.status == COMPLETED || v.status == WINNER_DECLARED ==> v.winner.Some?)
  }

  predicate RefundedTo(v: View, who: Address) {
    exists k :: 0 <= k < POSITIONS && Holds(v.tickets[k], who) && v.tickets[k].refunded
  }

  predicate Claimed(v: View, who: Address, kind: ClaimKind) {
    match kind
    case PrizeKind => v.status == COMPLETED && v.winner == Some(who)
    case RefundKind => RefundedTo(v, who)
  }

  function ClaimedAmount(v: View, kind: ClaimKind): nat {
    match kind
    case PrizeKind => v.winnerPrize
    case RefundKind => v.ticketPrice
  }

  lemma {:induction false} FoundPosition(tickets: seq<Ticket>, who: Address)
    requires RefundPosition(tickets, who) < |tickets|
    ensures var k := RefundPosition(tickets, who); Holds(tickets[k], who) && !tickets[k].refunded
  {
    if !(Holds(tickets[0], who) && !tickets[0].refunded) {
      FoundPosition(tickets[1..], who);
    }
  }

  lemma ApplyKeepsView(d: Option<View>, e: Emit)
    requires Apply(d, e).Ok? && (d.Some? ==> ViewOk(d.value))
    ensures
      var v := Apply(d, e).value;
      && ViewOk(v) && v.id == e.payload.drawId
      && (d.Some? ==> d.value.id == v.id)
      && (d.None? <==> e.payload.DrawStarted?)
      && (d.None? ==> v.tickets == EMPTY_BOARD && v.status == ACTIVE)
      && (d.Some? ==> forall k :: 0 <= k < POSITIONS && d.value.tickets[k].wallet.Some? ==>
         v.tickets[k].wallet == d.value.tickets[k].wallet)
  {
    if d.Some? {
      if e.payload.TicketBought? {
        BoughtKeepsView(d.value, e);
      } else if e.payload.RefundClaimed? {
        RefundKeepsView(d.value, e);
      } else {
        StatusKeepsView(d.value, e);
      }
    }
  }

  lemma BoughtKeepsView(d: View, e: Emit)
    requires e.payload.TicketBought? && ApplyTo(d, e).Ok? && ViewOk(d)
    ensures
      var v := ApplyTo(d, e).value;
      && ViewOk(v) && v.id == d.id && v.status == ACTIVE
      && (forall k :: 0 <= k < POSITIONS ==> v.tickets[k].refunded == d.tickets[k].refunded)
      && (forall k :: 0 <= k < POSITIONS && d.tickets[k].wallet.Some? ==> v.tickets[k].wallet == d.tickets[k].wallet)
  {
    forall k | 0 <= k < POSITIONS
      ensures d.tickets[k].wallet != Some(e.payload.buyer)
    {
      assert !Holds(d.tickets[k], e.payload.buyer);
    }
  }

  lemma RefundKeepsView(d: View, e: Emit)
    requires e.payload.RefundClaimed? && ApplyTo(d, e).Ok? && ViewOk(d)
    ensures
      var v := ApplyTo(d, e).value;
      && ViewOk(v) && v == d.(tickets := v.tickets) && v.status == CANCELLED && e.payload.amount == d.ticketPrice
      && (forall k :: 0 <= k < POSITIONS ==> v.tickets[k].wallet == d.tickets[k].wallet)
      && !RefundedTo(d, e.payload.participant)
      && (forall who :: RefundedTo(v, who) <==> RefundedTo(d, who) || who == e.payload.participant)
  {
    var who := e.payload.participant;
    FoundPosition(d.tickets, who);
    var p := RefundPosition(d.tickets, who);
    var v := ApplyTo(d, e).value;
    assert v.tickets == d.tickets[p := d.tickets[p].(refunded := true)];
    forall k | 0 <= k < POSITIONS && k != p
      ensures !Holds(d.tickets[k], who)
    {
      assert d.tickets[k].wallet != d.tickets[p].wallet;
    }
    assert Holds(v.tickets[p], who) && v.tickets[p].refunded;
    forall x
      ensures RefundedTo(v, x) <==> RefundedTo(d, x) || x == who
    {
      if RefundedTo(v, x) && x != who {
        var k :| 0 <= k < POSITIONS && Holds(v.tickets[k], x) && v.tickets[k].refunded;
        assert k != p;
        assert Holds(d.tickets[k], x) && d.tickets[k].refunded;
      }
      if RefundedTo(d, x) {
        var k :| 0 <= k < POSITIONS && Holds(d.tickets[k], x) && d.tickets[k].refunded;
        assert k != p;
        assert Holds(v.tickets[k], x) && v.tickets[k].refunded;
      }
    }
  }

  lemma StatusKeepsView(d: View, e: Emit)
    requires !e.payload.DrawStarted? && !e.payload.TicketBought? && !e.payload.RefundClaimed? && ApplyTo(d, e).Ok?
      && ViewOk(d)
    ensures
      var v := ApplyTo(d, e).value;
      && ViewOk(v) && v.id == d.id && v.tickets == d.tickets && v.ticketPrice == d.ticketPrice
      && d.status != COMPLETED
      && (v.status == COMPLETED <==> e.payload.PrizeClaimed?)
      && (e.payload.PrizeClaimed? ==>
         v.winner == d.winner == Some(e.payload.winner) && v.winnerPrize == e.payload.amount)
  {}

  /******* The mirror *******/

  ghost predicate TicketsMirror(t: Tables, id: nat, n: nat) {
    var sold := id in t.draws && 1 <= n <= POSITIONS && t.draws[id].tickets[n - 1].wallet.Some?;
    && ((id, n) in t.tickets <==> sold)
    && (sold ==> t.tickets[(id, n)] == TicketRow(t.draws[id].tickets[n - 1].wallet.value,
       t.draws[id].tickets[n - 1].refunded))
  }

  ghost predicate ClaimsMirror(t: Tables, id: nat, who: Address, kind: ClaimKind) {
    var claimed := id in t.draws && Claimed(t.draws[id], who, kind);
    && ((id, who, kind) in t.claims <==> claimed)
    && (claimed ==> t.claims[(id, who, kind)].amount == ClaimedAmount(t.draws[id], kind))
  }

  ghost predicate AllTicketsMirror(t: Tables) {
    forall id: nat, n: nat :: TicketsMirror(t, id, n)
  }

  ghost predicate AllClaimsMirror(t: Tables) {
    forall id: nat, who: Address, kind: ClaimKind :: ClaimsMirror(t, id, who, kind)
  }

  ghost predicate Mirror(t: Tables) {
    && (forall id :: id in t.draws ==> t.draws[id].id == id && ViewOk(t.draws[id]))
    && AllTicketsMirror(t)
    && AllClaimsMirror(t)
  }

  // The rows of one draw while its tickets are written position by position.
  ghost predicate Written(table: TicketTable, table1: TicketTable, v: View, m: nat) {
    && (forall id: nat, n: nat :: (id != v.id || n == 0 || n > m) ==>
      ((id, n) in table1 <==> (id, n) in table) && ((id, n) in table ==> table1[(id, n)] == table[(id, n)]))
    && (forall n: nat :: 1 <= n <= m && m <= POSITIONS ==>
      && ((v.id, n) in table1 <==> v.tickets[n - 1].wallet.Some?)
      && (v.tickets[n - 1].wallet.Some? ==>
         table1[(v.id, n)] == TicketRow(v.tickets[n - 1].wallet.value, v.tickets[n - 1].refunded)))
  }

  // The rows of the draw before: a part of what is going to be written.
  ghost predicate Extends(table: TicketTable, v: View) {
    forall n: nat :: (v.id, n) in table ==>
      1 <= n <= POSITIONS && v.tickets[n - 1].wallet == Some(table[(v.id, n)].wallet)
  }

  lemma {:induction false} UpsertsSucceed(table: TicketTable, v: View, m: nat)
    requires ViewOk(v) && Extends(table, v) && m <= POSITIONS
    ensures UpsertTickets(table, v.id, v.tickets[..m]).Ok?
    ensures Written(table, UpsertTickets(table, v.id, v.tickets[..m]).value, v, m)
  {
    if m > 0 {
      UpsertsSucceed(table, v, m - 1);
      assert v.tickets[..m][..m - 1] == v.tickets[..m - 1];
      UpsertOne(table, UpsertTickets(table, v.id, v.tickets[..m - 1]).value, v, m);
    }
  }

  lemma UpsertOne(table: TicketTable, table1: TicketTable, v: View, m: nat)
    requires ViewOk(v) && Extends(table, v) && 1 <= m <= POSITIONS && Written(table, table1, v, m - 1)
    ensures UpsertTicket(table1, v.id, v.tickets[m - 1]).Ok?
    ensures Written(table, UpsertTicket(table1, v.id, v.tickets[m - 1]).value, v, m)
  {
    var t := v.tickets[m - 1];
    if t.wallet.Some? && (v.id, m) !in table {
      forall key | key in table1 && key.0 == v.id
        ensures table1[key].wallet != t.wallet.value
      {
        var n := key.1;
        assert key == (v.id, n);
        if 1 <= n <= m - 1 {
          assert v.tickets[n - 1].wallet != v.tickets[m - 1].wallet;
        } else {
          assert (v.id, n) in table;
          assert n != m;
        }
      }
    }
  }

  lemma ProjectedTickets(t: Tables, e: Event)
    requires Mirror(t) && Apply(Find(t.draws, e.payload.drawId), e.Emitted()).Ok?
    ensures
      var v := Apply(Find(t.draws, e.payload.drawId), e.Emitted()).value;
      && v.id == e.payload.drawId && ViewOk(v)
      && UpsertTickets(t.tickets, v.id, v.tickets).Ok?
      && AllTicketsMirror(t.(draws := t.draws[v.id := v], tickets := UpsertTickets(t.tickets, v.id, v.tickets).value))
  {
    hide Apply, UpsertTickets, ViewOk;
    var d := Find(t.draws, e.payload.drawId);
    ApplyKeepsView(d, e.Emitted());
    var v := Apply(d, e.Emitted()).value;
    assert Extends(t.tickets, v) by {
      forall n: nat | (v.id, n) in t.tickets
        ensures 1 <= n <= POSITIONS && v.tickets[n - 1].wallet == Some(t.tickets[(v.id, n)].wallet)
      {
        assert TicketsMirror(t, v.id, n);
      }
    }
    UpsertsSucceed(t.tickets, v, POSITIONS);
    assert v.tickets[..POSITIONS] == v.tickets;
    var t1 := t.(draws := t.draws[v.id := v], tickets := UpsertTickets(t.tickets, v.id, v.tickets).value);
    forall id: nat, n: nat
      ensures TicketsMirror(t1, id, n)
    {
      assert TicketsMirror(t, id, n);
    }
  }

  // How one event changes what has been claimed from its draw.
  lemma ClaimChange(d: Option<View>, e: Emit, who: Address, kind: ClaimKind)
    requires Apply(d, e).Ok? && (d.Some? ==> ViewOk(d.value))
    ensures
      var v := Apply(d, e).value;
      var p := e.payload;
      var isNew := (p.PrizeClaimed? || p.RefundClaimed?) && ClaimKey(p) == (p.drawId, who, kind);
      var was := d.Some? && Claimed(d.value, who, kind);
      && (Claimed(v, who, kind) <==> was || isNew)
      && !(was && isNew)
      && (was ==> ClaimedAmount(v, kind) == ClaimedAmount(d.value, kind))
      && (isNew ==> ClaimedAmount(v, kind) == p.amount)
  {
    ApplyKeepsView(d, e);
    var v := Apply(d, e).value;
    if d.None? {
      assert !RefundedTo(v, who);
    } else if e.payload.TicketBought? {
      BoughtKeepsView(d.value, e);
      forall x
        ensures !RefundedTo(v, x) && !RefundedTo(d.value, x)
      {}
    } else if e.payload.RefundClaimed? {
      RefundKeepsView(d.value, e);
    } else {
      StatusKeepsView(d.value, e);
    }
  }

  lemma ProjectedClaims(t: Tables, e: Event)
    requires Mirror(t) && Apply(Find(t.draws, e.payload.drawId), e.Emitted()).Ok?
    ensures InsertClaim(t.claims, e).Ok?
    ensures
      var v := Apply(Find(t.draws, e.payload.drawId), e.Emitted()).value;
      AllClaimsMirror(t.(draws := t.draws[e.payload.drawId := v], claims := InsertClaim(t.claims, e).value))
  {
    hide Apply, ViewOk, Claimed, ClaimedAmount;
    var p := e.payload;
    var d := Find(t.draws, p.drawId);
    var v := Apply(d, e.Emitted()).value;
    if p.PrizeClaimed? || p.RefundClaimed? {
      ClaimChange(d, e.Emitted(), ClaimKey(p).1, ClaimKey(p).2);
      assert ClaimsMirror(t, p.drawId, ClaimKey(p).1, ClaimKey(p).2);
    }
    var t1 := t.(draws := t.draws[p.drawId := v], claims := InsertClaim(t.claims, e).value);
    forall id: nat, who: Address, kind: ClaimKind
      ensures ClaimsMirror(t1, id, who, kind)
    {
      assert ClaimsMirror(t, id, who, kind);
      if id == p.drawId {
        ClaimChange(d, e.Emitted(), who, kind);
      }
    }
  }

  // Projecting an event fails exactly when the reducer rejects it: no table constraint is ever
  // violated, and the mirror is kept.
  lemma ProjectKeepsMirror(t: Tables, e: Event)
    requires Mirror(t)
    ensures ProjectEvent(t, e).Ok? <==> Step(t.draws, e.Emitted()).Ok?
    ensures ProjectEvent(t, e).Ok? ==>
      Mirror(ProjectEvent(t, e).value) && ProjectEvent(t, e).value.draws == Step(t.draws, e.Emitted()).value
  {
    hide Apply, UpsertTickets, InsertClaim, ViewOk, TicketsMirror, ClaimsMirror;
    if Apply(Find(t.draws, e.payload.drawId), e.Emitted()).Ok? {
      ProjectedTickets(t, e);
      ProjectedClaims(t, e);
      var v := Apply(Find(t.draws, e.payload.drawId), e.Emitted()).value;
      var tickets, claims := UpsertTickets(t.tickets, v.id, v.tickets).value, InsertClaim(t.claims, e).value;
      var t1 := Tables(t.draws[v.id := v], tickets, claims);
      forall id: nat, n: nat
        ensures TicketsMirror(t1, id, n)
      {
        TicketsOnly(t.(draws := t.draws[v.id := v], tickets := tickets), t1, id, n);
      }
      forall id: nat, who: Address, kind: ClaimKind
        ensures ClaimsMirror(t1, id, who, kind)
      {
        ClaimsOnly(t.(draws := t.draws[v.id := v], claims := claims), t1, id, who, kind);
      }
    }
  }

  lemma TicketsOnly(t: Tables, t1: Tables, id: nat, n: nat)
    requires TicketsMirror(t, id, n) && t1.draws == t.draws && t1.tickets == t.tickets
    ensures TicketsMirror(t1, id, n)
  {}

  lemma ClaimsOnly(t: Tables, t1: Tables, id: nat, who: Address, kind: ClaimKind)
    requires ClaimsMirror(t, id, who, kind) && t1.draws == t.draws && t1.claims == t.claims
    ensures ClaimsMirror(t1, id, who, kind)
  {}

  function Emitted(events: seq<Event>): (log: seq<Emit>)
    ensures |log| == |events|
  {
    if events == [] then [] else Emitted(events[..|events| - 1]) + [events[|events| - 1].Emitted()]
  }

  lemma NoTablesMirror()
    ensures Mirror(NO_TABLES)
  {}

  // The tables exist exactly when the fold of the events does; their draws are that fold.
  lemma {:induction false} TablesFollowFold(events: seq<Event>)
    ensures ProjectAll(events).Ok? <==> Fold(Emitted(events)).Ok?
    ensures ProjectAll(events).Ok? ==>
      Mirror(ProjectAll(events).value) && ProjectAll(events).value.draws == Fold(Emitted(events)).value
  {
    hide ProjectEvent, Mirror, Step;
    if events == [] {
      NoTablesMirror();
    } else {
      var rest, e := events[..|events| - 1], events[|events| - 1];
      TablesFollowFold(rest);
      assert Emitted(events)[..|events| - 1] == Emitted(rest);
      if ProjectAll(rest).Ok? {
        ProjectKeepsMirror(ProjectAll(rest).value, e);
      }
    }
  }

  // In every state of the database the three projection tables agree.
  lemma StoreMirror(db: DB)
    requires StoreOk(db)
    ensures Mirror(db.tables) && Fold(Emitted(db.events)) == Ok(db.tables.draws)
  {
    hide Mirror;
    TablesFollowFold(db.events);
  }
}
