/**
 Which events can be replayed in which order. A draw's events have a forced order, except for the
 refunds of a cancelled draw; events of different draws are independent.
 */
module EventOrder {
  import opened Basics
  import opened Contract
  import opened Projection
  import opened Store
  import opened StoreTables

  // Two events whose order matters.
  predicate Related(e: Event, f: Event) {
    e.payload.drawId == f.payload.drawId && !(e.payload.RefundClaimed? && f.payload.RefundClaimed?)
  }

  function Phase(p: Payload): nat {
    match p
    case DrawStarted(_, _, _, _, _, _) => 0
    case TicketBought(_, _, _, _, _, _) => 1
    case RandomnessRequested(_, _) => 2
    case DrawCancelled(_, _, _, _) => 2
    case LotteryDrawn(_, _, _, _, _, _, _) => 3
    case RefundClaimed(_, _, _) => 3
    case PrizeClaimed(_, _, _, _, _) => 4
  }

  // Strictly earlier in the life of a draw.
  predicate Precedes(p: Payload, q: Payload) {
    || Phase(p) < Phase(q)
    || (p.TicketBought? && q.TicketBought? && AsInt64(p.participantCount) < AsInt64(q.participantCount))
  }

  ghost predicate Causal(events: seq<Event>) {
    forall i, j :: 0 <= i < j < |events| && Related(events[i], events[j]) ==>
        Precedes(events[i].payload, events[j].payload)
  }

  /******* The order is forced *******/

  function Level(s: Status): nat {
    match s
    case ACTIVE => 1
    case DRAWING => 2
    case CANCELLED => 2
    case WINNER_DECLARED => 3
    case NO_WINNER => 3
    case COMPLETED => 4
  }

  // The record may have gone through this event.
  predicate Past(v: View, p: Payload) {
    && (Phase(p) <= Level(v.status) || (p.RefundClaimed? && v.status == CANCELLED))
    && (p.TicketBought? ==> AsInt64(p.participantCount) <= v.participantCount)
  }

  // An event comes strictly after all events that the record went through, refunds among themselves aside.
  lemma ApplyForces(d: View, e: Emit, p: Payload)
    requires !e.payload.DrawStarted? && ApplyTo(d, e).Ok?
    ensures Past(ApplyTo(d, e).value, e.payload)
    ensures Past(d, p) ==> Past(ApplyTo(d, e).value, p)
    ensures Past(d, p) && !(p.RefundClaimed? && e.payload.RefundClaimed?) ==> Precedes(p, e.payload)
  {}

  lemma StepForces(draws: Draws, e: Emit, p: Payload)
    requires Step(draws, e).Ok?
    ensures
      var draws1 := Step(draws, e).value;
      && e.payload.drawId in draws1 && Past(draws1[e.payload.drawId], e.payload)
      && (p.drawId in draws && Past(draws[p.drawId], p) ==>
        && p.drawId in draws1 && Past(draws1[p.drawId], p)
        && (p.drawId == e.payload.drawId && !(p.RefundClaimed? && e.payload.RefundClaimed?) ==> Precedes(p, e.payload)))
  {
    hide ApplyTo, Past, Precedes;
    if e.payload.DrawStarted? {
      StartPast(draws, e);
    } else {
      ApplyForces(draws[e.payload.drawId], e, p);
    }
  }

  lemma StartPast(draws: Draws, e: Emit)
    requires Step(draws, e).Ok? && e.payload.DrawStarted?
    ensures Past(Step(draws, e).value[e.payload.drawId], e.payload) && e.payload.drawId !in draws
  {}

  ghost predicate AllPast(draws: Draws, events: seq<Event>) {
    forall k :: 0 <= k < |events| ==>
        events[k].payload.drawId in draws && Past(draws[events[k].payload.drawId], events[k].payload)
  }

  // Whatever can be replayed is in causal order.
  lemma {:induction false} FoldForces(events: seq<Event>)
    requires Fold(Emitted(events)).Ok?
    ensures Causal(events) && AllPast(Fold(Emitted(events)).value, events)
  {
    hide Step, Past, Precedes;
    if events != [] {
      var rest, e := events[..|events| - 1], events[|events| - 1];
      assert Emitted(events)[..|events| - 1] == Emitted(rest);
      FoldForces(rest);
      var draws := Fold(Emitted(rest)).value;
      StepForces(draws, e.Emitted(), e.payload);
      forall k | 0 <= k < |rest|
        ensures Step(draws, e.Emitted()).Ok? && rest[k].payload.drawId in Step(draws, e.Emitted()).value
        ensures Past(Step(draws, e.Emitted()).value[rest[k].payload.drawId], rest[k].payload)
        ensures Related(rest[k], e) ==> Precedes(rest[k].payload, e.payload)
      {
        StepForces(draws, e.Emitted(), rest[k].payload);
      }
    }
  }

  lemma ProjectForces(events: seq<Event>)
    requires ProjectAll(events).Ok?
    ensures Causal(events)
  {
    hide Causal;
    TablesFollowFold(events);
    FoldForces(events);
  }

  /******* Independent events commute *******/

  lemma RefundsCommute(d: View, e: Emit, f: Emit)
    requires e.payload.RefundClaimed? && f.payload.RefundClaimed? && ViewOk(d)
    requires ApplyTo(d, e).Ok? && ApplyTo(ApplyTo(d, e).value, f).Ok?
    ensures ApplyTo(d, f).Ok? && ApplyTo(ApplyTo(d, f).value, e) == ApplyTo(ApplyTo(d, e).value, f)
  {
    var a, b := e.payload.participant, f.payload.participant;
    var i, d1 := RefundPosition(d.tickets, a), ApplyTo(d, e).value;
    var j := RefundPosition(d1.tickets, b);
    FoundPosition(d.tickets, a);
    FoundPosition(d1.tickets, b);
    assert d1.tickets == d.tickets[i := d.tickets[i].(refunded := true)];
    assert j != i && Holds(d.tickets[j], b) && !d.tickets[j].refunded;
    OnlyHolder(d, b, j);
    RefundFound(d.tickets, b, j);
    var d2 := ApplyTo(d, f).value;
    assert d2.tickets == d.tickets[j := d.tickets[j].(refunded := true)];
    OnlyHolder(d, a, i);
    assert Holds(d2.tickets[i], a) && !d2.tickets[i].refunded;
    assert forall k :: 0 <= k < i ==> !Holds(d2.tickets[k], a);
    RefundFound(d2.tickets, a, i);
    assert d1.tickets[j := d1.tickets[j].(refunded := true)] == d2.tickets[i := d2.tickets[i].(refunded := true)];
  }

  lemma OnlyHolder(d: View, who: Address, k: nat)
    requires ViewOk(d) && k < POSITIONS && Holds(d.tickets[k], who)
    ensures forall j :: 0 <= j < POSITIONS && j != k ==> !Holds(d.tickets[j], who)
  {
    forall j | 0 <= j < POSITIONS && j != k
      ensures !Holds(d.tickets[j], who)
    {
      assert d.tickets[j].wallet != d.tickets[k].wallet;
    }
  }

  lemma StepsCommute(draws: Draws, e: Event, f: Event)
    requires !Related(e, f) && forall id :: id in draws ==> ViewOk(draws[id])
    requires Step(draws, e.Emitted()).Ok? && Step(Step(draws, e.Emitted()).value, f.Emitted()).Ok?
    ensures Step(draws, f.Emitted()).Ok?
    ensures Step(Step(draws, f.Emitted()).value, e.Emitted()) == Step(Step(draws, e.Emitted()).value, f.Emitted())
  {
    hide ApplyTo, ViewOk;
    var a, b := e.payload.drawId, f.payload.drawId;
    var draws1 := Step(draws, e.Emitted()).value;
    if a != b {
      assert Find(draws1, b) == Find(draws, b);
      var draws2 := Step(draws, f.Emitted()).value;
      assert Find(draws2, a) == Find(draws, a);
      assert draws1[b := draws2[b]] == draws2[a := draws1[a]];
    } else {
      RefundsCommute(draws[a], e.Emitted(), f.Emitted());
      ApplyKeepsView(Some(draws[a]), e.Emitted());
      ApplyKeepsView(Some(draws[a]), f.Emitted());
      var draws2 := Step(draws, f.Emitted()).value;
      var last := ApplyTo(draws1[a], f.Emitted()).value;
      assert draws1[a := last] == draws2[a := last];
    }
  }

  // Agreeing tables are determined by their draws, the transaction hashes of claims aside.
  lemma SameTickets(t: Tables, u: Tables)
    requires Mirror(t) && Mirror(u) && t.draws == u.draws
    ensures t.tickets == u.tickets
  {
    forall key | key in t.tickets || key in u.tickets
      ensures key in t.tickets && key in u.tickets && t.tickets[key] == u.tickets[key]
    {
      assert key == (key.0, key.1);
      assert TicketsMirror(t, key.0, key.1) && TicketsMirror(u, key.0, key.1);
    }
  }

  lemma ProjectedClaimRows(t: Tables, e: Event)
    requires ProjectEvent(t, e).Ok?
    ensures InsertClaim(t.claims, e) == Ok(ProjectEvent(t, e).value.claims)
  {
    hide Apply, UpsertTickets, InsertClaim;
  }

  lemma ProjectsCommute(t: Tables, e: Event, f: Event)
    requires Mirror(t) && !Related(e, f)
    requires ProjectEvent(t, e).Ok? && ProjectEvent(ProjectEvent(t, e).value, f).Ok?
    ensures ProjectEvent(t, f).Ok?
    ensures ProjectEvent(ProjectEvent(t, f).value, e) == ProjectEvent(ProjectEvent(t, e).value, f)
  {
    assert forall id :: id in t.draws ==> ViewOk(t.draws[id]);
    var t1 := ProjectEvent(t, e).value;
    hide Mirror, ProjectEvent, Step, Related, InsertClaim;
    ProjectKeepsMirror(t, e);
    ProjectKeepsMirror(t1, f);
    var t12 := ProjectEvent(t1, f).value;
    StepsCommute(t.draws, e, f);
    ProjectKeepsMirror(t, f);
    var t2 := ProjectEvent(t, f).value;
    ProjectKeepsMirror(t2, e);
    var t21 := ProjectEvent(t2, e).value;
    SameTickets(t12, t21);
    ProjectedClaimRows(t, e);
    ProjectedClaimRows(t1, f);
    ProjectedClaimRows(t, f);
    ProjectedClaimRows(t2, e);
    ClaimsCommute(t.claims, e, f);
  }

  lemma ClaimsCommute(claims: ClaimTable, e: Event, f: Event)
    requires InsertClaim(claims, e).Ok? && InsertClaim(InsertClaim(claims, e).value, f).Ok?
    requires InsertClaim(claims, f).Ok? && InsertClaim(InsertClaim(claims, f).value, e).Ok?
    ensures InsertClaim(InsertClaim(claims, f).value, e) == InsertClaim(InsertClaim(claims, e).value, f)
  {
    if IsClaim(e) && IsClaim(f) {
      var k, l := ClaimKey(e.payload), ClaimKey(f.payload);
      assert k != l;
      var x, y := ClaimRow(e.payload.amount, e.txHash), ClaimRow(f.payload.amount, f.txHash);
      assert claims[k := x][l := y] == claims[l := y][k := x];
    }
  }

  predicate IsClaim(e: Event) {
    e.payload.PrizeClaimed? || e.payload.RefundClaimed?
  }

  /******* Replaying in another order *******/

  lemma {:induction false} MoveLast(a: seq<Event>, e: Event, b: seq<Event>)
    requires ProjectAll(a + [e] + b).Ok? && forall k :: 0 <= k < |b| ==> !Related(e, b[k])
    ensures ProjectAll(a + b + [e]) == ProjectAll(a + [e] + b)
  {
    hide ProjectAll, Related, ProjectEvent;
    if b == [] {
      assert a + [e] + b == a + b + [e];
    } else {
      var rest, f := b[..|b| - 1], b[|b| - 1];
      assert a + [e] + b == (a + [e] + rest) + [f] && a + b == (a + rest) + [f];
      AppendEvent(a + [e] + rest, f);
      MoveLast(a, e, rest);
      AppendEvent(a + rest, e);
      AppendEvent(a + rest, f);
      AppendEvent(a + rest + [f], e);
      TablesFollowFold(a + rest);
      hide Mirror;
      ProjectsCommute(ProjectAll(a + rest).value, e, f);
    }
  }

  ghost predicate NoRepeats(events: seq<Event>) {
    forall i, j :: 0 <= i < j < |events| ==> events[i] != events[j]
  }

  lemma PrecedesIsStrict(p: Payload, q: Payload)
    ensures !(Precedes(p, q) && Precedes(q, p))
  {}

  // In two causal orders of the same events, what comes after an event in one and before it in
  // the other is independent of it.
  lemma LaterIsUnrelated(a: seq<Event>, b: seq<Event>, p: nat, k: nat)
    requires Causal(a) && Causal(b) && NoRepeats(a) && multiset(a) == multiset(b)
    requires p < k < |a| && |b| > 0 && a[p] == b[|b| - 1]
    ensures !Related(a[p], a[k])
  {
    assert a[k] in multiset(b);
    assert a[k] in b;
    var j :| 0 <= j < |b| && b[j] == a[k];
    assert a[p] != a[k];
    PrecedesIsStrict(a[p].payload, a[k].payload);
    assert Related(b[j], b[|b| - 1]) ==> Precedes(b[j].payload, b[|b| - 1].payload);
  }

  lemma WithoutOne(a: seq<Event>, b: seq<Event>, p: nat)
    requires multiset(a) == multiset(b) && NoRepeats(a) && p < |a| && |b| > 0 && a[p] == b[|b| - 1]
    ensures multiset(a[..p] + a[p + 1..]) == multiset(b[..|b| - 1]) && NoRepeats(a[..p] + a[p + 1..])
  {
    SplitAt(a, p);
    SplitAt(b, |b| - 1);
    assert b[|b| - 1 + 1..] == [];
    var rest := a[..p] + a[p + 1..];
    forall i, j | 0 <= i < j < |rest|
      ensures rest[i] != rest[j]
    {
      assert a[if i < p then i else i + 1] != a[if j < p then j else j + 1];
    }
  }

  lemma SplitAt(a: seq<Event>, p: nat)
    requires p < |a|
    ensures multiset(a) == multiset(a[..p]) + multiset{a[p]} + multiset(a[p + 1..])
    ensures multiset(a[..p] + a[p + 1..]) == multiset(a) - multiset{a[p]}
  {
    assert a == a[..p] + [a[p]] + a[p + 1..];
  }

  lemma CausalPrefix(b: seq<Event>)
    requires Causal(b) && b != []
    ensures Causal(b[..|b| - 1])
  {}

  lemma LastOf(a: seq<Event>, b: seq<Event>) returns (p: nat)
    requires Causal(a) && Causal(b) && NoRepeats(a) && multiset(a) == multiset(b) && b != []
    ensures p < |a| && a[p] == b[|b| - 1]
    ensures forall k :: p < k < |a| ==> !Related(a[p], a[k])
  {
    assert b[|b| - 1] in multiset(b);
    assert b[|b| - 1] in a;
    p :| 0 <= p < |a| && a[p] == b[|b| - 1];
    forall k | p < k < |a|
      ensures !Related(a[p], a[k])
    {
      LaterIsUnrelated(a, b, p, k);
    }
  }

  // Events that can be replayed in one order can be replayed in every causal order, with the same
  // result.
  lemma {:induction false} SameReplay(a: seq<Event>, b: seq<Event>)
    requires ProjectAll(a).Ok? && NoRepeats(a) && multiset(a) == multiset(b) && Causal(b)
    ensures ProjectAll(b) == ProjectAll(a)
    decreases |b|
  {
    if b == [] {
      assert |multiset(a)| == 0;
      assert a == [];
    } else {
      hide *;
      ProjectForces(a);
      var p := LastOf(a, b);
      WithoutOne(a, b, p);
      CausalPrefix(b);
      var before, e, after := a[..p], a[p], a[p + 1..];
      assert a == before + [e] + after;
      MoveLast(before, e, after);
      ReplayedPrefix(before + after, e);
      SameReplay(before + after, b[..|b| - 1]);
      AppendEvent(b[..|b| - 1], e);
      assert b == b[..|b| - 1] + [e];
    }
  }

  lemma ReplayedPrefix(events: seq<Event>, e: Event)
    requires ProjectAll(events + [e]).Ok?
    ensures ProjectAll(events).Ok? && ProjectAll(events + [e]) == ProjectEvent(ProjectAll(events).value, e)
  {
    hide ProjectEvent;
    AppendEvent(events, e);
  }

  // Two orders of the same events that can both be replayed have the same result, and an order can
  // be replayed exactly if it is causal.
  lemma ReplayIffCausal(a: seq<Event>, b: seq<Event>)
    requires ProjectAll(a).Ok? && NoRepeats(a) && multiset(a) == multiset(b)
    ensures ProjectAll(b).Ok? <==> Causal(b)
    ensures ProjectAll(b).Ok? ==> ProjectAll(b) == ProjectAll(a)
  {
    hide ProjectAll, Causal, NoRepeats;
    if ProjectAll(b).Ok? {
      ProjectForces(b);
    }
    if Causal(b) {
      SameReplay(a, b);
    }
  }
}
