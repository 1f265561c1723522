/** Sorting a sequence by a strict order; elements that neither precede nor follow each other may come in any order. */
module Sorting {
  ghost predicate StrictOrder<T(!new)>(before: (T, T) -> bool) {
    && (forall x, y :: before(x, y) ==> !before(y, x))
    && (forall x, y, z :: before(x, y) && before(y, z) ==> before(x, z))
  }

  ghost predicate Rising<T>(s: seq<T>, before: (T, T) -> bool) {
    forall i, j :: 0 <= i < j < |s| ==> !before(s[j], s[i])
  }

  function Insert<T>(x: T, s: seq<T>, before: (T, T) -> bool): seq<T> {
    if s == [] then [x] else if before(x, s[0]) then [x] + s else [s[0]] + Insert(x, s[1..], before)
  }

  function Sort<T>(s: seq<T>, before: (T, T) -> bool): seq<T> {
    if s == [] then [] else Insert(s[0], Sort(s[1..], before), before)
  }

  lemma {:induction false} InsertAdds<T>(x: T, s: seq<T>, before: (T, T) -> bool)
    ensures multiset(Insert(x, s, before)) == multiset(s) + multiset{x}
  {
    if s != [] {
      InsertAdds(x, s[1..], before);
      assert s == [s[0]] + s[1..];
    }
  }

  lemma {:induction false} InsertRising<T(!new)>(x: T, s: seq<T>, before: (T, T) -> bool)
    requires StrictOrder(before) && Rising(s, before)
    ensures Rising(Insert(x, s, before), before)
  {
    if s != [] && before(x, s[0]) {
      assert forall j :: 0 < j < |s| ==> !before(s[j], s[0]);
    } else if s != [] {
      var rest := Insert(x, s[1..], before);
      InsertRising(x, s[1..], before);
      InsertAdds(x, s[1..], before);
      hide Insert;
      assert forall j :: 0 < j < |s| ==> !before(s[j], s[0]);
      forall j | 0 <= j < |rest|
        ensures !before(rest[j], s[0])
      {
        assert rest[j] in multiset(rest);
        assert rest[j] == x || rest[j] in s[1..];
      }
    }
  }

  lemma {:induction false} SortRising<T(!new)>(s: seq<T>, before: (T, T) -> bool)
    requires StrictOrder(before)
    ensures Rising(Sort(s, before), before) && multiset(Sort(s, before)) == multiset(s)
  {
    if s != [] {
      SortRising(s[1..], before);
      InsertRising(s[0], Sort(s[1..], before), before);
      InsertAdds(s[0], Sort(s[1..], before), before);
      assert s == [s[0]] + s[1..];
    }
  }
}
