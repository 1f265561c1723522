/** Reading the store: one snapshot of a query, and following a history cursor page by page. */
module History {
  import opened Basics
  import opened Contract
  import opened Projection
  import opened Store

  datatype Mode = Current | Detail(id: nat) | Past(below: Option<nat>)

  datatype Snapshot = Snapshot(cursor: int, hash: Option<Hash>, chainTime: nat, draws: seq<View>, next: Option<nat>)

  predicate IsFinal(draws: Draws, id: nat) {
    id in draws && Final(draws[id].status)
  }

  predicate Selected(draws: Draws, mode: Mode, id: nat) {
    match mode
    case Current => id in draws
    case Detail(x) => id in draws && id == x
    case Past(below) => IsFinal(draws, id) && (below.Some? ==> id < below.value)
  }

  function RowLimit(mode: Mode, limit: nat): nat {
    if mode.Past? then limit + 1 else 1
  }

  // What the query may return: the selected rows with the highest ids, in descending order.
  ghost predicate IsAnswer(rows: seq<View>, draws: Draws, mode: Mode, n: nat) {
    && |rows| <= n
    && (forall k :: 0 <= k < |rows| ==> Selected(draws, mode, rows[k].id) && rows[k] == draws[rows[k].id])
    && (forall i, j :: 0 <= i < j < |rows| ==> rows[j].id < rows[i].id)
    && (forall id: nat :: Selected(draws, mode, id) ==> Covered(rows, n, id))
  }

  // The id is shown, or the rows are as many as asked for and end above it.
  ghost predicate Covered(rows: seq<View>, n: nat, id: nat) {
    (exists k :: 0 <= k < |rows| && rows[k].id == id) || (|rows| == n && (n > 0 ==> id < rows[n - 1].id))
  }

  function RefreshedAll(rows: seq<View>, now: nat): (views: seq<View>)
    ensures |views| == |rows|
    ensures forall k :: 0 <= k < |rows| ==> views[k] == Refreshed(rows[k], now)
  {
    if rows == [] then [] else RefreshedAll(rows[..|rows| - 1], now) + [Refreshed(rows[|rows| - 1], now)]
  }

  function ReadWith(db: DB, rows: seq<View>, limit: nat): Result<Snapshot>
    requires limit >= 1
  {
    if db.cursor >= db.start && db.cursor !in db.blocks then Revert(NoRows)
    else
      var now := if db.cursor >= db.start then db.blocks[db.cursor].timestamp else 0;
      var views := RefreshedAll(rows, now);
      if |views| > limit then Ok(Snapshot(db.cursor, db.cursorHash, now, views[..limit], Some(views[limit - 1].id)))
      else Ok(Snapshot(db.cursor, db.cursorHash, now, views, None))
  }

  lemma ReadShows(db: DB, rows: seq<View>, limit: nat, k: nat)
    requires limit >= 1 && (db.cursor >= db.start ==> db.cursor in db.blocks)
    ensures ReadWith(db, rows, limit).Ok?
    ensures
      var s := ReadWith(db, rows, limit).value;
      && s.cursor == db.cursor && s.hash == db.cursorHash
      && s.chainTime == (if db.cursor >= db.start then db.blocks[db.cursor].timestamp else 0)
      && |s.draws| == Least(limit, |rows|)
      && (k < |s.draws| ==> s.draws[k] == Refreshed(rows[k], s.chainTime))
  {
    hide Refreshed;
  }

  /******* The finalized draws in order *******/

  function FinalBelow(draws: Draws, bound: nat): seq<nat> {
    if bound == 0 then []
    else (if IsFinal(draws, bound - 1) then [bound - 1] else []) + FinalBelow(draws, bound - 1)
  }

  // Every finalized id below the bound once, in strictly descending order.
  lemma {:induction false} FinalBelowLists(draws: Draws, bound: nat)
    ensures
      var ids := FinalBelow(draws, bound);
      && Descending(ids)
      && (forall id: nat :: id in ids <==> IsFinal(draws, id) && id < bound)
  {
    if bound > 0 {
      FinalBelowLists(draws, bound - 1);
      var rest := FinalBelow(draws, bound - 1);
      assert forall k :: 0 <= k < |rest| ==> rest[k] in rest;
    }
  }

  // The list below one of its elements is the rest of the list.
  lemma {:induction false} FinalBelowElement(draws: Draws, bound: nat, k: nat)
    requires k < |FinalBelow(draws, bound)|
    ensures FinalBelow(draws, FinalBelow(draws, bound)[k]) == FinalBelow(draws, bound)[k + 1..]
  {
    var ids := FinalBelow(draws, bound);
    if !IsFinal(draws, bound - 1) {
      FinalBelowElement(draws, bound - 1, k);
    } else if k > 0 {
      FinalBelowElement(draws, bound - 1, k - 1);
      assert ids[k + 1..] == FinalBelow(draws, bound - 1)[k..];
    }
  }

  lemma {:induction false} FinalBelowSame(draws: Draws, draws1: Draws, bound: nat)
    requires forall id: nat :: id < bound ==> (IsFinal(draws, id) <==> IsFinal(draws1, id))
    ensures FinalBelow(draws, bound) == FinalBelow(draws1, bound)
  {
    if bound > 0 {
      FinalBelowSame(draws, draws1, bound - 1);
    }
  }

  function Ids(rows: seq<View>): (ids: seq<nat>)
    ensures |ids| == |rows| && forall k :: 0 <= k < |rows| ==> ids[k] == rows[k].id
  {
    if rows == [] then [] else [rows[0].id] + Ids(rows[1..])
  }

  function Least(a: nat, b: nat): nat {
    if a < b then a else b
  }

  ghost predicate Descending(ids: seq<nat>) {
    forall i, j :: 0 <= i < j < |ids| ==> ids[j] < ids[i]
  }

  ghost predicate Begins(ids: seq<nat>, draws: Draws, bound: nat, n: nat) {
    && |ids| <= n && Descending(ids)
    && (forall id :: id in ids ==> IsFinal(draws, id) && id < bound)
    && (forall id: nat :: IsFinal(draws, id) && id < bound ==> id in ids || (|ids| == n && (n > 0 ==> id < ids[n - 1])))
  }

  lemma BeginsWithTop(ids: seq<nat>, draws: Draws, bound: nat, n: nat)
    requires Begins(ids, draws, bound, n) && bound > 0 && n > 0 && IsFinal(draws, bound - 1)
    ensures ids != [] && ids[0] == bound - 1 && Begins(ids[1..], draws, bound - 1, n - 1)
  {
    var top: nat := bound - 1;
    assert |ids| == n ==> ids[n - 1] in ids;
    assert top in ids;
    var k :| 0 <= k < |ids| && ids[k] == top;
    assert ids[0] in ids;
    assert k == 0;
    assert ids == [ids[0]] + ids[1..];
  }

  lemma BeginsLower(ids: seq<nat>, draws: Draws, bound: nat, n: nat)
    requires Begins(ids, draws, bound, n) && bound > 0 && !IsFinal(draws, bound - 1)
    ensures Begins(ids, draws, bound - 1, n)
  {}

  lemma NothingBelow(ids: seq<nat>, draws: Draws, bound: nat, n: nat)
    requires Begins(ids, draws, bound, n) && (bound == 0 || n == 0)
    ensures ids == []
  {
    FirstIn(ids);
  }

  lemma FirstIn(ids: seq<nat>)
    ensures ids != [] ==> ids[0] in ids
  {}

  lemma FinalBelowStep(draws: Draws, bound: nat)
    ensures FinalBelow(draws, bound) ==
      if bound == 0 then []
      else if IsFinal(draws, bound - 1) then [bound - 1] + FinalBelow(draws, bound - 1)
      else FinalBelow(draws, bound - 1)
  {}

  lemma TakeFrom(ids: seq<nat>, rest: seq<nat>, n: nat)
    requires n > 0 && ids != [] && ids[1..] == rest[..Least(n - 1, |rest|)]
    ensures ids == ([ids[0]] + rest)[..Least(n, |rest| + 1)]
  {
    assert ids == [ids[0]] + ids[1..];
    assert ([ids[0]] + rest)[..Least(n, |rest| + 1)] == [ids[0]] + rest[..Least(n - 1, |rest|)];
  }

  // Descending ids of finalized draws below the bound that miss only smaller ones begin the list.
  lemma {:induction false} IsBeginning(ids: seq<nat>, draws: Draws, bound: nat, n: nat)
    requires Begins(ids, draws, bound, n)
    ensures ids == FinalBelow(draws, bound)[..Least(n, |FinalBelow(draws, bound)|)]
  {
    hide FinalBelow, IsFinal, Begins;
    FinalBelowStep(draws, bound);
    if bound == 0 || n == 0 {
      NothingBelow(ids, draws, bound, n);
    } else if IsFinal(draws, bound - 1) {
      BeginsWithTop(ids, draws, bound, n);
      IsBeginning(ids[1..], draws, bound - 1, n - 1);
      TakeFrom(ids, FinalBelow(draws, bound - 1), n);
    } else {
      BeginsLower(ids, draws, bound, n);
      IsBeginning(ids, draws, bound - 1, n);
    }
  }

  ghost predicate Bounds(draws: Draws, below: Option<nat>, bound: nat) {
    if below.Some? then bound == below.value else forall id :: id in draws ==> id < bound
  }

  lemma SelectedBelow(draws: Draws, below: Option<nat>, bound: nat, id: nat)
    requires Bounds(draws, below, bound)
    ensures Selected(draws, Past(below), id) <==> IsFinal(draws, id) && id < bound
  {}

  lemma AnswerBegins(rows: seq<View>, draws: Draws, below: Option<nat>, n: nat, bound: nat)
    requires IsAnswer(rows, draws, Past(below), n) && Bounds(draws, below, bound)
    ensures Begins(Ids(rows), draws, bound, n)
  {
    hide Ids, Selected, IsFinal, Bounds, Covered;
    var ids := Ids(rows);
    forall id | id in ids
      ensures IsFinal(draws, id) && id < bound
    {
      var k :| 0 <= k < |ids| && ids[k] == id;
      SelectedBelow(draws, below, bound, rows[k].id);
    }
    forall id: nat | IsFinal(draws, id) && id < bound
      ensures id in ids || (|ids| == n && (n > 0 ==> id < ids[n - 1]))
    {
      SelectedBelow(draws, below, bound, id);
      CoveredIds(rows, n, id);
    }
  }

  lemma CoveredIds(rows: seq<View>, n: nat, id: nat)
    ensures Covered(rows, n, id) <==> id in Ids(rows) || (|rows| == n && (n > 0 ==> id < Ids(rows)[n - 1]))
  {
    hide Ids;
    var ids := Ids(rows);
    assert forall k :: 0 <= k < |rows| ==> ids[k] == rows[k].id;
  }

  // The rows of a history query are the first `limit + 1` of the list.
  lemma HistoryRows(rows: seq<View>, draws: Draws, below: Option<nat>, limit: nat, bound: nat)
    requires IsAnswer(rows, draws, Past(below), limit + 1)
    requires if below.Some? then bound == below.value else forall id :: id in draws ==> id < bound
    ensures Ids(rows) == FinalBelow(draws, bound)[..Least(limit + 1, |FinalBelow(draws, bound)|)]
  {
    hide IsAnswer, Begins, FinalBelow, IsFinal;
    AnswerBegins(rows, draws, below, limit + 1, bound);
    IsBeginning(Ids(rows), draws, bound, limit + 1);
  }

  lemma TopBegins(draws: Draws, bound: nat, n: nat)
    ensures Begins(FinalBelow(draws, bound)[..Least(n, |FinalBelow(draws, bound)|)], draws, bound, n)
  {
    FinalBelowLists(draws, bound);
    hide FinalBelow, IsFinal;
    var all := FinalBelow(draws, bound);
    assert forall k :: 0 <= k < |all| ==> all[k] in all;
  }

  lemma BeginningAnswers(rows: seq<View>, draws: Draws, below: Option<nat>, n: nat, bound: nat)
    requires Begins(Ids(rows), draws, bound, n) && Bounds(draws, below, bound)
    requires forall k :: 0 <= k < |rows| ==> rows[k].id in draws && rows[k] == draws[rows[k].id]
    ensures IsAnswer(rows, draws, Past(below), n)
  {
    hide *;
    BeginningSize(Ids(rows), draws, bound, n);
    forall k | 0 <= k < |rows|
      ensures Selected(draws, Past(below), rows[k].id)
    {
      BeginningElement(Ids(rows), draws, bound, n, k);
      SelectedBelow(draws, below, bound, rows[k].id);
    }
    forall i, j | 0 <= i < j < |rows|
      ensures rows[j].id < rows[i].id
    {
      BeginningFalls(Ids(rows), draws, bound, n, i, j);
    }
    forall id: nat | Selected(draws, Past(below), id)
      ensures Covered(rows, n, id)
    {
      SelectedBelow(draws, below, bound, id);
      BeginningCovers(Ids(rows), draws, bound, n, id);
      CoveredIds(rows, n, id);
    }
    AnswerFrom(rows, draws, Past(below), n);
  }

  lemma AnswerFrom(rows: seq<View>, draws: Draws, mode: Mode, n: nat)
    requires |rows| <= n
    requires forall k :: 0 <= k < |rows| ==> Selected(draws, mode, rows[k].id)
    requires forall k :: 0 <= k < |rows| ==> rows[k].id in draws && rows[k] == draws[rows[k].id]
    requires forall i, j :: 0 <= i < j < |rows| ==> rows[j].id < rows[i].id
    requires forall id: nat :: Selected(draws, mode, id) ==> Covered(rows, n, id)
    ensures IsAnswer(rows, draws, mode, n)
  {
    hide Selected, Covered;
  }

  lemma BeginningSize(ids: seq<nat>, draws: Draws, bound: nat, n: nat)
    requires Begins(ids, draws, bound, n)
    ensures |ids| <= n
  {}

  lemma BeginningElement(ids: seq<nat>, draws: Draws, bound: nat, n: nat, k: nat)
    requires Begins(ids, draws, bound, n) && k < |ids|
    ensures IsFinal(draws, ids[k]) && ids[k] < bound
  {
    assert ids[k] in ids;
  }

  lemma BeginningFalls(ids: seq<nat>, draws: Draws, bound: nat, n: nat, i: nat, j: nat)
    requires Begins(ids, draws, bound, n) && i < j < |ids|
    ensures ids[j] < ids[i]
  {}

  lemma BeginningCovers(ids: seq<nat>, draws: Draws, bound: nat, n: nat, id: nat)
    requires Begins(ids, draws, bound, n) && IsFinal(draws, id) && id < bound
    ensures id in ids || (|ids| == n && (n > 0 ==> id < ids[n - 1]))
  {}

  lemma TopIds(draws: Draws, bound: nat, n: nat) returns (ids: seq<nat>)
    ensures Begins(ids, draws, bound, n)
    ensures forall k :: 0 <= k < |ids| ==> ids[k] in draws
  {
    hide FinalBelow, Begins;
    TopBegins(draws, bound, n);
    ids := FinalBelow(draws, bound)[..Least(n, |FinalBelow(draws, bound)|)];
    forall k | 0 <= k < |ids|
      ensures ids[k] in draws
    {
      BeginningElement(ids, draws, bound, n, k);
    }
  }

  // Conversely those rows are an answer, so every history query has one.
  lemma AnswerExists(draws: Draws, below: Option<nat>, n: nat, bound: nat) returns (rows: seq<View>)
    requires forall id :: id in draws ==> draws[id].id == id
    requires Bounds(draws, below, bound)
    ensures IsAnswer(rows, draws, Past(below), n)
  {
    var ids := TopIds(draws, bound, n);
    hide *;
    rows := seq(|ids|, k requires 0 <= k < |ids| => draws[ids[k]]);
    assert forall k :: 0 <= k < |ids| ==> Ids(rows)[k] == ids[k];
    assert Ids(rows) == ids;
    BeginningAnswers(rows, draws, below, n, bound);
  }

  /******* Following the cursor *******/

  function Shown(rows: seq<View>, limit: nat): seq<nat> {
    Ids(rows[..Least(limit, |rows|)])
  }

  function Next(rows: seq<View>, limit: nat): Option<nat>
    requires limit >= 1
  {
    if |rows| > limit then Some(rows[limit - 1].id) else None
  }

  // A snapshot shows just these ids and this cursor.
  lemma SnapshotPage(db: DB, rows: seq<View>, limit: nat)
    requires limit >= 1 && ReadWith(db, rows, limit).Ok?
    ensures
      var s := ReadWith(db, rows, limit).value;
      && Ids(s.draws) == Shown(rows, limit) && s.next == Next(rows, limit)
      && s.cursor == db.cursor && s.hash == db.cursorHash
  {
    hide Refreshed;
    forall k | 0 <= k < |rows|
      ensures Refreshed(rows[k], ReadWith(db, rows, limit).value.chainTime).id == rows[k].id
    {
      RefreshedId(rows[k], ReadWith(db, rows, limit).value.chainTime);
    }
  }

  lemma RefreshedId(v: View, now: nat)
    ensures Refreshed(v, now).id == v.id
  {}

  // Successive pages: each asks below the cursor that the one before returned.
  ghost predicate Traversal(states: seq<Draws>, answers: seq<seq<View>>, limit: nat, below: Option<nat>)
    requires limit >= 1 && |answers| == |states|
  {
    states == [] ||
    (IsAnswer(answers[0], states[0], Past(below), limit + 1)
     && (|states| > 1 ==>
       && Next(answers[0], limit).Some?
       && Traversal(states[1..], answers[1..], limit, Next(answers[0], limit))))
  }

  function Listed(answers: seq<seq<View>>, limit: nat): seq<nat> {
    if answers == [] then [] else Shown(answers[0], limit) + Listed(answers[1..], limit)
  }

  // What may happen between two pages: finalized draws stay so, and newly finalized ones are newer.
  ghost predicate Settles(draws: Draws, draws1: Draws) {
    && (forall id: nat :: IsFinal(draws, id) ==> IsFinal(draws1, id))
    && (forall newer: nat, older: nat :: IsFinal(draws1, newer) && !IsFinal(draws, newer) && IsFinal(draws, older) ==>
       older < newer)
  }

  ghost predicate Settling(states: seq<Draws>) {
    forall k :: 0 <= k < |states| - 1 ==> Settles(states[k], states[k + 1])
  }

  lemma {:induction false} PagesFrom(states: seq<Draws>, answers: seq<seq<View>>, limit: nat, below: Option<nat>,
                                     bound: nat)
    requires limit >= 1 && |answers| == |states| > 0 && Traversal(states, answers, limit, below) && Settling(states)
    requires if below.Some? then bound == below.value else forall id :: id in states[0] ==> id < bound
    ensures
      var all := FinalBelow(states[0], bound);
      && Listed(answers, limit) <= all
      && (Next(answers[|answers| - 1], limit).None? <==> Listed(answers, limit) == all)
      && (Next(answers[|answers| - 1], limit).Some? ==> |Listed(answers, limit)| == limit * |answers|)
    decreases |states|
  {
    hide FinalBelow, Settles, Ids, IsFinal;
    var all := FinalBelow(states[0], bound);
    HistoryRows(answers[0], states[0], below, limit, bound);
    FirstPage(answers[0], all, limit);
    if |states| == 1 {
      assert answers[1..] == [];
      assert Listed(answers, limit) == Shown(answers[0], limit);
    } else {
      var c := Next(answers[0], limit).value;
      NextPage(states[0], states[1], bound, limit);
      assert Settling(states[1..]) by {
        forall k | 0 <= k < |states[1..]| - 1
          ensures Settles(states[1..][k], states[1..][k + 1])
        {
          assert Settles(states[k + 1], states[k + 1 + 1]);
        }
      }
      PagesFrom(states[1..], answers[1..], limit, Some(c), c);
      JoinPages(answers, limit, all);
      OneMorePage(limit, |answers| - 1);
      assert answers[1..][|answers| - 2] == answers[|answers| - 1];
    }
  }

  lemma FirstPage(rows: seq<View>, all: seq<nat>, limit: nat)
    requires limit >= 1 && Ids(rows) == all[..Least(limit + 1, |all|)]
    ensures Shown(rows, limit) == all[..Least(limit, |all|)]
    ensures Next(rows, limit) == if |all| > limit then Some(all[limit - 1]) else None
  {
    assert |rows| == Least(limit + 1, |all|);
    assert forall k :: 0 <= k < |rows| ==> rows[k].id == all[k];
    assert Shown(rows, limit) == all[..Least(limit, |all|)];
  }

  lemma NextPage(draws: Draws, draws1: Draws, bound: nat, limit: nat)
    requires limit >= 1 && |FinalBelow(draws, bound)| > limit && Settles(draws, draws1)
    ensures
      var all := FinalBelow(draws, bound);
      FinalBelow(draws1, all[limit - 1]) == all[limit..]
  {
    var all := FinalBelow(draws, bound);
    var c := all[limit - 1];
    FinalBelowElement(draws, bound, limit - 1);
    FinalBelowLists(draws, bound);
    assert c in all;
    forall id: nat | id < c
      ensures IsFinal(draws, id) <==> IsFinal(draws1, id)
    {
      assert IsFinal(draws, c);
    }
    FinalBelowSame(draws, draws1, c);
  }

  lemma JoinPages(answers: seq<seq<View>>, limit: nat, all: seq<nat>)
    requires limit >= 1 && |answers| > 1 && |all| > limit && Shown(answers[0], limit) == all[..limit]
    requires Listed(answers[1..], limit) <= all[limit..]
    ensures Listed(answers, limit) <= all
    ensures Listed(answers, limit) == all <==> Listed(answers[1..], limit) == all[limit..]
    ensures |Listed(answers, limit)| == limit + |Listed(answers[1..], limit)|
  {
    hide Shown;
    JoinPrefix(all[..limit], Listed(answers[1..], limit), all);
  }

  lemma JoinPrefix(first: seq<nat>, rest: seq<nat>, all: seq<nat>)
    requires |first| <= |all| && first == all[..|first|] && rest <= all[|first|..]
    ensures first + rest <= all
    ensures first + rest == all <==> rest == all[|first|..]
  {
    assert all == first + all[|first|..];
    if first + rest == all {
      assert rest == (first + rest)[|first|..];
    }
  }

  lemma OneMorePage(limit: nat, n: nat)
    ensures limit + limit * n == limit * (n + 1)
  {}

  // Following the cursor from the start lists the draws that were finalized at the first page,
  // newest first, each once. The traversal ends exactly when all are listed, and until then every
  // page adds `limit` of them; what is finalized meanwhile is neither repeated nor hides anything.
  lemma HistoryPaging(states: seq<Draws>, answers: seq<seq<View>>, limit: nat, bound: nat)
    requires limit >= 1 && |answers| == |states| > 0 && Traversal(states, answers, limit, None) && Settling(states)
    requires forall id :: id in states[0] ==> id < bound
    ensures
      var ids := Listed(answers, limit);
      && Descending(ids)
      && (forall id :: id in ids ==> IsFinal(states[0], id))
      && (Next(answers[|answers| - 1], limit).None? <==> (forall id: nat :: IsFinal(states[0], id) ==> id in ids))
      && (Next(answers[|answers| - 1], limit).Some? ==> |ids| == limit * |answers| < |FinalBelow(states[0], bound)|)
  {
    PagesFrom(states, answers, limit, None, bound);
    FinalBelowLists(states[0], bound);
    var all := FinalBelow(states[0], bound);
    hide FinalBelow, Listed, Next, Traversal, Settling;
    PartOfList(Listed(answers, limit), all);
  }

  lemma PartOfList(ids: seq<nat>, all: seq<nat>)
    requires Descending(all) && ids <= all
    ensures Descending(ids) && (forall id :: id in ids ==> id in all)
    ensures ids == all <==> (forall id :: id in all ==> id in ids)
    ensures ids != all ==> |ids| < |all|
  {
    if ids != all {
      assert |ids| < |all|;
      assert all[|ids|] in all && all[|ids|] !in ids by {
        assert forall k :: 0 <= k < |ids| ==> all[|ids|] < all[k];
      }
    }
  }
}
