/**
 Redacting endpoints from error messages: four passes, each replacing its marker until none is
 left, do what one pass over the words of the message would do.
 */
module Redaction {
  const MARKERS: seq<string> := ["http://", "https://", "postgres://", "postgresql://"]
  const ENDPOINT: string := "[endpoint]"

  predicate Separator(c: char) {
    c == ' ' || c == '\n'
  }

  predicate StartsWith(s: string, m: string) {
    |m| <= |s| && s[..|m|] == m
  }

  ghost predicate Contains(s: string, m: string) {
    exists j :: 0 <= j <= |s| && StartsWith(s[j..], m)
  }

  ghost predicate FirstAt(s: string, m: string, n: nat)
    requires n <= |s|
  {
    StartsWith(s[n..], m) && forall j :: 0 <= j < n ==> !StartsWith(s[j..], m)
  }

  // The end of the word that reaches position `n`.
  function WordEnd(s: string, n: nat): (end: nat)
    requires n <= |s|
    ensures n <= end <= |s|
    ensures forall k :: n <= k < end ==> !Separator(s[k])
    ensures end == |s| || Separator(s[end])
    decreases |s| - n
  {
    if n < |s| && !Separator(s[n]) then WordEnd(s, n + 1) else n
  }

  predicate AnyStarts(s: string, ms: seq<string>) {
    exists k :: 0 <= k < |ms| && StartsWith(s, ms[k])
  }

  // One pass: at the first marker in a word, the rest of the word becomes the placeholder.
  function Redacted(s: string, ms: seq<string>): string {
    if s == "" then ""
    else if AnyStarts(s, ms) then ENDPOINT + Redacted(s[WordEnd(s, 1)..], ms)
    else [s[0]] + Redacted(s[1..], ms)
  }

  function Colons(s: string): nat {
    if s == "" then 0 else (if s[0] == ':' then 1 else 0) + Colons(s[1..])
  }

  ghost predicate AreMarkers(ms: seq<string>) {
    forall k :: 0 <= k < |ms| ==> ms[k] in MARKERS
  }

  /******* The markers *******/

  predicate Plain(c: char) {
    c != '[' && c != ']' && !Separator(c)
  }

  lemma MarkerFacts(m: string)
    requires m in MARKERS
    ensures |m| >= 7 && (m[0] == 'h' || m[0] == 'p') && m[2] != 'i' && ':' in m
    ensures forall k :: 0 <= k < |m| ==> Plain(m[k])
  {
    assert m[4] == ':' || m[5] == ':' || m[8] == ':' || m[10] == ':';
  }

  lemma MarkersDiffer(m: string, n: string, j: nat)
    requires m in MARKERS && n in MARKERS && 0 < j < |m|
    ensures m[j] != n[0] || (j + 1 < |m| && m[j + 1] != n[1])
  {}

  lemma StartingChars(s: string, m: string)
    requires |m| >= 2
    ensures StartsWith(s, m) ==> |s| >= 2 && s[0] == m[0] && s[1] == m[1]
  {
    assert StartsWith(s, m) ==> s[0] == s[..|m|][0] && s[1] == s[..|m|][1];
  }

  // No marker starts inside another one.
  lemma NoOverlap(m: string, n: string, j: nat, s: string)
    requires m in MARKERS && n in MARKERS && 0 < j < |m| && StartsWith(s, m)
    ensures !StartsWith(s[j..], n)
  {
    MarkerFacts(n);
    MarkersDiffer(m, n, j);
    hide StartsWith;
    BeginningChars(s, m);
    StartingChars(s[j..], n);
  }

  lemma CharAt(s: string, m: string, i: nat)
    requires i < |m|
    ensures StartsWith(s, m) ==> i < |s| && s[i] == m[i]
  {
    if StartsWith(s, m) {
      BeginningChars(s, m);
    }
  }

  lemma BeginningChars(s: string, m: string)
    requires StartsWith(s, m)
    ensures |m| <= |s| && forall j :: 0 <= j < |m| ==> s[j] == m[j]
  {
    assert forall j :: 0 <= j < |m| ==> s[j] == s[..|m|][j];
  }

  lemma {:induction false} ColonsAdd(a: string, b: string)
    ensures Colons(a + b) == Colons(a) + Colons(b)
  {
    if a == "" {
      assert a + b == b;
    } else {
      ColonsAdd(a[1..], b);
      assert (a + b)[1..] == a[1..] + b;
    }
  }

  lemma {:induction false} HasColon(s: string)
    ensures Colons(s) > 0 <==> ':' in s
  {
    if s != "" {
      HasColon(s[1..]);
      assert s == [s[0]] + s[1..];
    }
  }

  /******* Facts of one pass *******/

  lemma {:induction false} Untouched(s: string, ms: seq<string>)
    requires forall j :: 0 <= j < |s| ==> !AnyStarts(s[j..], ms)
    ensures Redacted(s, ms) == s
  {
    if s != "" {
      assert s[0..] == s;
      forall j | 0 <= j < |s[1..]|
        ensures !AnyStarts(s[1..][j..], ms)
      {
        assert s[1..][j..] == s[j + 1..];
      }
      Untouched(s[1..], ms);
    }
  }

  // Text without a bracket that begins the result begins the message.
  lemma {:induction false} ResultBegins(s: string, ms: seq<string>, x: string)
    requires StartsWith(Redacted(s, ms), x) && forall k :: 0 <= k < |x| ==> x[k] != '['
    ensures StartsWith(s, x)
  {
    if x != "" {
      assert Redacted(s, ms)[0] == x[0];
      assert !AnyStarts(s, ms);
      assert Redacted(s, ms)[1..] == Redacted(s[1..], ms);
      assert Redacted(s[1..], ms)[..|x| - 1] == x[1..];
      ResultBegins(s[1..], ms, x[1..]);
      assert s[..|x|] == [s[0]] + s[1..][..|x| - 1];
      assert x == [x[0]] + x[1..];
    }
  }

  // Text in which no marker starts is kept at the beginning of the result.
  lemma {:induction false} KeptBeginning(s: string, ms: seq<string>, x: string)
    requires StartsWith(s, x) && forall j :: 0 <= j < |x| ==> !AnyStarts(s[j..], ms)
    ensures StartsWith(Redacted(s, ms), x)
  {
    if x != "" {
      assert s[0..] == s;
      assert s[1..][..|x| - 1] == x[1..];
      forall j | 0 <= j < |x[1..]|
        ensures !AnyStarts(s[1..][j..], ms)
      {
        assert s[1..][j..] == s[j + 1..];
      }
      KeptBeginning(s[1..], ms, x[1..]);
      assert Redacted(s, ms)[..|x|] == [s[0]] + Redacted(s[1..], ms)[..|x| - 1];
      assert x == [x[0]] + x[1..];
    }
  }

  lemma WordEndIs(s: string, n: nat, end: nat)
    requires n <= end <= |s| && (forall k :: n <= k < end ==> !Separator(s[k])) && (end == |s| || Separator(s[end]))
    ensures WordEnd(s, n) == end
    decreases end - n
  {
    if n < end {
      WordEndIs(s, n + 1, end);
    }
  }

  lemma SeparatorStays(s: string, ms: seq<string>)
    requires AreMarkers(ms) && (s == "" || Separator(s[0]))
    ensures Redacted(s, ms) == "" <==> s == ""
    ensures s != "" ==> Redacted(s, ms) == [s[0]] + Redacted(s[1..], ms)
  {
    if s != "" {
      forall k | 0 <= k < |ms|
        ensures !StartsWith(s, ms[k])
      {
        MarkerFacts(ms[k]);
      }
    }
  }

  // Dropping the first word commutes with the pass.
  lemma {:induction false} DropWord(s: string, ms: seq<string>)
    requires AreMarkers(ms)
    ensures var r := Redacted(s, ms); r[WordEnd(r, 0)..] == Redacted(s[WordEnd(s, 0)..], ms)
  {
    var r := Redacted(s, ms);
    if s == "" || Separator(s[0]) {
      SeparatorStays(s, ms);
      assert s[0..] == s && r[0..] == r;
    } else if AnyStarts(s, ms) {
      var rest := s[WordEnd(s, 1)..];
      var r1 := Redacted(rest, ms);
      SeparatorStays(rest, ms);
      assert forall k :: 0 <= k < |ENDPOINT| ==> !Separator(ENDPOINT[k]);
      assert forall k :: 0 <= k < |ENDPOINT| ==> r[k] == ENDPOINT[k];
      WordEndIs(r, 0, |ENDPOINT|);
      assert r[|ENDPOINT|..] == r1;
      assert WordEnd(s, 0) == WordEnd(s, 1);
    } else {
      var s1 := s[1..];
      var r1 := Redacted(s1, ms);
      DropWord(s1, ms);
      ShiftedEnd(s);
      ShiftedEnd(r);
      assert r[1..] == r1;
      assert s[WordEnd(s, 0)..] == s1[WordEnd(s1, 0)..];
      assert r[WordEnd(r, 0)..] == r1[WordEnd(r1, 0)..];
    }
  }

  lemma ShiftedEnd(s: string)
    requires s != "" && !Separator(s[0])
    ensures WordEnd(s, 0) == WordEnd(s[1..], 0) + 1
  {
    var end := WordEnd(s[1..], 0);
    forall k | 0 <= k < end + 1
      ensures !Separator(s[k])
    {
      assert k > 0 ==> s[k] == s[1..][k - 1];
    }
    WordEndIs(s, 0, end + 1);
  }

  /******* A second pass with one more marker *******/

  // Text in which no marker starts passes through.
  lemma {:induction false} PassesThrough(x: string, rest: string, ms: seq<string>)
    requires forall k :: 0 <= k < |x| ==> !AnyStarts(x[k..] + rest, ms)
    ensures Redacted(x + rest, ms) == x + Redacted(rest, ms)
  {
    if x == "" {
      assert x + rest == rest;
    } else {
      assert x[0..] == x && (x + rest)[1..] == x[1..] + rest;
      forall k | 0 <= k < |x[1..]|
        ensures !AnyStarts(x[1..][k..] + rest, ms)
      {
        assert x[1..][k..] == x[k + 1..];
      }
      PassesThrough(x[1..], rest, ms);
      hide AnyStarts, WordEnd;
      assert !AnyStarts(x[0..] + rest, ms) && x == [x[0]] + x[1..];
    }
  }

  lemma NotInPlaceholder(m: string, rest: string, k: nat)
    requires m in MARKERS && k < |ENDPOINT|
    ensures !StartsWith(ENDPOINT[k..] + rest, m)
  {
    MarkerFacts(m);
    var t := ENDPOINT[k..] + rest;
    CharAt(t, m, 0);
    CharAt(t, m, 2);
    assert t[0] == ENDPOINT[k] && (k == 4 ==> t[2] == 'i');
  }

  // The placeholder contains no marker and joins with what follows to none.
  lemma PlaceholderStays(m: string, rest: string)
    requires m in MARKERS
    ensures Redacted(ENDPOINT + rest, [m]) == ENDPOINT + Redacted(rest, [m])
  {
    forall k | 0 <= k < |ENDPOINT|
      ensures !AnyStarts(ENDPOINT[k..] + rest, [m])
    {
      NotInPlaceholder(m, rest, k);
    }
    PassesThrough(ENDPOINT, rest, [m]);
  }

  lemma AnyOfMore(s: string, ms: seq<string>, m: string)
    ensures AnyStarts(s, ms + [m]) <==> AnyStarts(s, ms) || StartsWith(s, m)
    ensures AnyStarts(s, [m]) <==> StartsWith(s, m)
  {
    hide StartsWith;
    assert (ms + [m])[|ms|] == m && [m][0] == m;
    assert forall k :: 0 <= k < |ms| ==> (ms + [m])[k] == ms[k];
  }

  // Redacting one more marker from a result is redacting it along with the others.
  lemma {:induction false} OneMore(s: string, ms: seq<string>, m: string)
    requires AreMarkers(ms) && m in MARKERS
    ensures Redacted(Redacted(s, ms), [m]) == Redacted(s, ms + [m])
    decreases |s|
  {
    AnyOfMore(s, ms, m);
    if s != "" {
      var r := Redacted(s, ms);
      if AnyStarts(s, ms) {
        var rest := s[WordEnd(s, 1)..];
        OneMore(rest, ms, m);
        PlaceholderStays(m, Redacted(rest, ms));
      } else if StartsWith(s, m) {
        NewMarker(s, ms, m);
        OneMore(s[WordEnd(s, 1)..], ms, m);
      } else {
        if StartsWith(r, m) {
          MarkerFacts(m);
          ResultBegins(s, ms, m);
        }
        AnyOfMore(r, ms, m);
        OneMore(s[1..], ms, m);
        assert r[1..] == Redacted(s[1..], ms);
      }
    }
  }

  // A marker that the first pass did not look for is still there afterwards, and its word still
  // ends where it did.
  lemma NewMarker(s: string, ms: seq<string>, m: string)
    requires AreMarkers(ms) && m in MARKERS && StartsWith(s, m) && !AnyStarts(s, ms)
    ensures
      var r := Redacted(s, ms);
      r != "" && StartsWith(r, m) && r[WordEnd(r, 1)..] == Redacted(s[WordEnd(s, 1)..], ms)
  {
    MarkerFacts(m);
    assert s[0..] == s;
    forall j | 0 <= j < |m|
      ensures !AnyStarts(s[j..], ms)
    {
      if j > 0 {
        forall k | 0 <= k < |ms|
          ensures !StartsWith(s[j..], ms[k])
        {
          NoOverlap(m, ms[k], j, s);
        }
      }
    }
    KeptBeginning(s, ms, m);
    DropWord(s, ms);
    var r := Redacted(s, ms);
    BeginningChars(s, m);
    BeginningChars(r, m);
    assert WordEnd(s, 0) == WordEnd(s, 1) && WordEnd(r, 0) == WordEnd(r, 1);
  }

  /******* The result *******/

  lemma {:induction false} NoMarkers(s: string)
    ensures Redacted(s, []) == s
  {
    if s != "" {
      NoMarkers(s[1..]);
      assert s == [s[0]] + s[1..];
    }
  }

  // A message that a pass leaves as it is contains no marker, and conversely.
  lemma {:induction false} UnchangedIff(s: string, ms: seq<string>)
    requires AreMarkers(ms)
    ensures Redacted(s, ms) == s <==> forall j :: 0 <= j < |s| ==> !AnyStarts(s[j..], ms)
  {
    hide AnyStarts;
    if s != "" {
      if AnyStarts(s, ms) {
        assert s[0..] == s;
        StartChanges(s, ms);
      } else {
        UnchangedIff(s[1..], ms);
        NowhereStep(s, ms);
        assert s == [s[0]] + s[1..];
        assert Redacted(s, ms)[1..] == Redacted(s[1..], ms);
      }
    }
  }

  lemma StartChanges(s: string, ms: seq<string>)
    requires AreMarkers(ms) && AnyStarts(s, ms)
    ensures s != "" && Redacted(s, ms) != s
  {
    var k :| 0 <= k < |ms| && StartsWith(s, ms[k]);
    MarkerFacts(ms[k]);
    BeginningChars(s, ms[k]);
    hide AreMarkers, Plain, StartsWith, WordEnd;
    assert Redacted(s, ms)[0] == '[';
  }

  lemma NowhereStep(s: string, ms: seq<string>)
    requires s != "" && !AnyStarts(s, ms)
    ensures (forall j :: 0 <= j < |s| ==> !AnyStarts(s[j..], ms)) <==>
      (forall j :: 0 <= j < |s[1..]| ==> !AnyStarts(s[1..][j..], ms))
  {
    hide AnyStarts;
    assert s[0..] == s;
    assert forall j :: 0 <= j < |s[1..]| ==> s[1..][j..] == s[j + 1..];
    assert forall j :: 0 < j < |s| ==> s[j..] == s[1..][j - 1..];
  }

  lemma {:induction false} OneMoreOf(s: string, ms: seq<string>, m: string)
    requires AreMarkers(ms) && m in ms
    ensures Redacted(s, ms + [m]) == Redacted(s, ms)
    decreases |s|
  {
    AnyOfMore(s, ms, m);
    var k :| 0 <= k < |ms| && ms[k] == m;
    assert StartsWith(s, m) ==> StartsWith(s, ms[k]);
    if s != "" {
      if AnyStarts(s, ms) {
        OneMoreOf(s[WordEnd(s, 1)..], ms, m);
      } else {
        OneMoreOf(s[1..], ms, m);
      }
    }
  }

  // No marker is left.
  lemma NothingLeft(s: string, m: string)
    requires m in MARKERS
    ensures !Contains(Redacted(s, MARKERS), m)
  {
    var r := Redacted(s, MARKERS);
    assert AreMarkers(MARKERS) && AreMarkers([m]);
    OneMore(s, MARKERS, m);
    OneMoreOf(s, MARKERS, m);
    UnchangedIff(r, [m]);
    MarkerFacts(m);
    forall j | 0 <= j <= |r|
      ensures !StartsWith(r[j..], m)
    {
      AnyOfMore(r[j..], [], m);
      assert j < |r| ==> !AnyStarts(r[j..], [m]);
    }
  }

  // A message is changed exactly if it contains a marker; redacting twice is redacting once.
  lemma ChangedIff(s: string)
    ensures Redacted(s, MARKERS) == s <==> forall m :: m in MARKERS ==> !Contains(s, m)
    ensures Redacted(Redacted(s, MARKERS), MARKERS) == Redacted(s, MARKERS)
  {
    CleanIff(s);
    var r := Redacted(s, MARKERS);
    forall m | m in MARKERS
      ensures !Contains(r, m)
    {
      NothingLeft(s, m);
    }
    CleanIff(r);
  }

  /******* Word by word *******/

  // One of the four markers starts here.
  predicate Marked(s: string) {
    StartsWith(s, "http://") || StartsWith(s, "https://") || StartsWith(s, "postgres://")
    || StartsWith(s, "postgresql://")
  }

  lemma MarkedIs(s: string)
    ensures AnyStarts(s, MARKERS) <==> Marked(s)
  {
    hide StartsWith;
    assert Marked(s) <==> (StartsWith(s, MARKERS[0]) || StartsWith(s, MARKERS[1]) || StartsWith(s, MARKERS[2])
      || StartsWith(s, MARKERS[3]));
  }

  // A marker that starts in a word ends in it.
  lemma MarkerInWord(word: string, rest: string, m: string)
    requires m in MARKERS && (rest == "" || Separator(rest[0]))
    ensures StartsWith(word + rest, m) <==> StartsWith(word, m)
  {
    MarkerFacts(m);
    if |m| <= |word| {
      assert (word + rest)[..|m|] == word[..|m|];
    } else if rest != "" {
      assert (word + rest)[|word|] == rest[0];
      CharAt(word + rest, m, |word|);
    }
  }

  lemma MarkedWord(word: string, rest: string)
    requires rest == "" || Separator(rest[0])
    ensures AnyStarts(word + rest, MARKERS) <==> Marked(word)
  {
    hide StartsWith;
    MarkedIs(word + rest);
    forall m | m in MARKERS
      ensures StartsWith(word + rest, m) <==> StartsWith(word, m)
    {
      MarkerInWord(word, rest, m);
    }
    assert MARKERS[0] in MARKERS && MARKERS[1] in MARKERS && MARKERS[2] in MARKERS && MARKERS[3] in MARKERS;
  }

  lemma BeforeMarker(word: string, rest: string, k: nat)
    requires k <= |word| && (rest == "" || Separator(rest[0])) && forall j :: 0 <= j < k ==> !Marked(word[j..])
    ensures Redacted(word + rest, MARKERS) == word[..k] + Redacted(word[k..] + rest, MARKERS)
  {
    hide *;
    forall j | 0 <= j < k
      ensures !AnyStarts(word[..k][j..] + (word[k..] + rest), MARKERS)
    {
      CutJoins(word, rest, k, j);
      MarkedWord(word[j..], rest);
    }
    CutJoins(word, rest, k, 0);
    WholeCut(word, k);
    PassesThrough(word[..k], word[k..] + rest, MARKERS);
  }

  lemma CutJoins(word: string, rest: string, k: nat, j: nat)
    requires j <= k <= |word|
    ensures word[..k][j..] + (word[k..] + rest) == word[j..] + rest
  {
    assert word[..k][j..] + word[k..] == word[j..];
    assert word[..k][j..] + (word[k..] + rest) == (word[..k][j..] + word[k..]) + rest;
  }

  lemma WholeCut(word: string, k: nat)
    requires k <= |word|
    ensures word[..k][0..] == word[..k] && word[0..] == word
  {}

  // Between blanks and line ends, a message is redacted word by word: a word is kept up to the first
  // marker in it and the rest of the word becomes the placeholder; a word without one is kept
  // whole, and so is everything between the words.
  lemma WordByWord(word: string, rest: string, k: nat)
    requires forall i :: 0 <= i < |word| ==> word[i] != ' ' && word[i] != '\n'
    requires rest == "" || rest[0] == ' ' || rest[0] == '\n'
    requires k <= |word| && (forall j :: 0 <= j < k ==> !Marked(word[j..])) && (k < |word| ==> Marked(word[k..]))
    ensures
      var further := if rest == "" then "" else [rest[0]] + Redacted(rest[1..], MARKERS);
      Redacted(word + rest, MARKERS) == word[..k] + ((if k < |word| then "[endpoint]" else "") + further)
  {
    hide Redacted, AnyStarts, Marked, Plain;
    BeforeMarker(word, rest, k);
    SeparatorStays(rest, MARKERS);
    if k < |word| {
      MarkedWord(word[k..], rest);
      WordDropped(word[k..], rest);
    } else {
      assert word[k..] + rest == rest;
    }
  }

  // A marker at the start of a word takes the whole word.
  lemma WordDropped(word: string, rest: string)
    requires word != "" && (forall i :: 0 <= i < |word| ==> !Separator(word[i]))
    requires rest == "" || Separator(rest[0])
    requires AnyStarts(word + rest, MARKERS)
    ensures Redacted(word + rest, MARKERS) == ENDPOINT + Redacted(rest, MARKERS)
  {
    var s := word + rest;
    WordEndIs(s, 1, |word|);
    assert s[|word|..] == rest;
  }

  lemma CleanIff(s: string)
    ensures Redacted(s, MARKERS) == s <==> forall m :: m in MARKERS ==> !Contains(s, m)
  {
    UnchangedIff(s, MARKERS);
    if forall j :: 0 <= j < |s| ==> !AnyStarts(s[j..], MARKERS) {
      forall m, j | m in MARKERS && 0 <= j <= |s|
        ensures !StartsWith(s[j..], m)
      {
        MarkerFacts(m);
        var k :| 0 <= k < |MARKERS| && MARKERS[k] == m;
        assert j < |s| ==> !AnyStarts(s[j..], MARKERS);
      }
    } else {
      var j :| 0 <= j < |s| && AnyStarts(s[j..], MARKERS);
      var k :| 0 <= k < |MARKERS| && StartsWith(s[j..], MARKERS[k]);
      assert Contains(s, MARKERS[k]);
    }
  }

  /******* The passes as they run *******/

  // The first position at which the marker occurs, or -1.
  method Index(s: string, sub: string) returns (n: int)
    ensures -1 <= n <= |s|
    ensures n >= 0 ==> FirstAt(s, sub, n)
    ensures n < 0 <==> !Contains(s, sub)
  {
    var j := 0;
    while j + |sub| <= |s|
      invariant 0 <= j <= |s| + 1
      invariant forall i :: 0 <= i < j <= |s| + 1 && i <= |s| ==> !StartsWith(s[i..], sub)
    {
      assert s[j..][..|sub|] == s[j..j + |sub|];
      if s[j..j + |sub|] == sub { return j; }
      j := j + 1;
    }
    n := -1;
  }

  // One replacement takes the marker's colon with it, so there are fewer of them; what a pass
  // makes of the message stays the same.
  lemma Replaced(s: string, m: string, n: nat, end: nat)
    requires m in MARKERS && n < |s| && FirstAt(s, m, n)
    requires end == WordEnd(s, n)
    ensures Redacted(s[..n] + ENDPOINT + s[end..], [m]) == Redacted(s, [m])
    ensures Colons(s[..n] + ENDPOINT + s[end..]) < Colons(s)
  {
    ReplacedSame(s, m, n, end);
    ReplacedColons(s, m, n, end);
  }

  lemma ReplacedColons(s: string, m: string, n: nat, end: nat)
    requires m in MARKERS && n < |s| && StartsWith(s[n..], m) && end == WordEnd(s, n)
    ensures Colons(s[..n] + ENDPOINT + s[end..]) < Colons(s)
  {
    WordHasColon(s, m, n, end);
    hide *;
    FewerWithout(s, n, end, ENDPOINT);
  }

  lemma FewerWithout(s: string, n: nat, end: nat, other: string)
    requires n <= end <= |s| && ':' in s[n..end] && ':' !in other
    ensures Colons(s[..n] + other + s[end..]) < Colons(s)
  {
    hide *;
    HasColon(s[n..end]);
    HasColon(other);
    FewerColons(s[..n], s[n..end], other, s[end..]);
    assert s == s[..n] + s[n..end] + s[end..];
  }

  lemma FewerColons(a: string, word: string, other: string, b: string)
    requires Colons(other) < Colons(word)
    ensures Colons(a + other + b) < Colons(a + word + b)
  {
    hide *;
    ColonsAdd(a + word, b);
    ColonsAdd(a, word);
    ColonsAdd(a + other, b);
    ColonsAdd(a, other);
  }

  lemma WordHasColon(s: string, m: string, n: nat, end: nat)
    requires m in MARKERS && n < |s| && StartsWith(s[n..], m) && end == WordEnd(s, n)
    ensures ':' in s[n..end] && ':' !in ENDPOINT
  {
    MarkerFacts(m);
    BeginningChars(s[n..], m);
    hide StartsWith, WordEnd;
    forall k | n <= k < n + |m|
      ensures !Separator(s[k])
    {
      assert s[k] == s[n..][k - n];
    }
    assert n + |m| <= end;
    var k :| 0 <= k < |m| && m[k] == ':';
    assert s[n..end][k] == s[n..][k];
  }

  lemma ReplacedSame(s: string, m: string, n: nat, end: nat)
    requires m in MARKERS && n < |s| && FirstAt(s, m, n)
    requires end == WordEnd(s, n)
    ensures Redacted(s[..n] + ENDPOINT + s[end..], [m]) == Redacted(s, [m])
  {
    var x, rest := s[..n], s[end..];
    RedactedAtFirst(s, m, n, end);
    hide *;
    NoneBeforePlaceholder(s, m, n, rest);
    PassesThrough(x, ENDPOINT + rest, [m]);
    PlaceholderStays(m, rest);
    assert x + ENDPOINT + rest == x + (ENDPOINT + rest);
  }

  lemma NoneBeforePlaceholder(s: string, m: string, n: nat, rest: string)
    requires m in MARKERS && n < |s| && FirstAt(s, m, n)
    ensures forall k :: 0 <= k < n ==> !AnyStarts(s[..n][k..] + (ENDPOINT + rest), [m])
  {
    forall k | 0 <= k < n
      ensures !AnyStarts(s[..n][k..] + (ENDPOINT + rest), [m])
    {
      BeforePlaceholder(s, m, n, k, rest);
      AnyOfMore(s[..n][k..] + (ENDPOINT + rest), [], m);
    }
  }

  // What one pass makes of a message whose first marker is known.
  lemma RedactedAtFirst(s: string, m: string, n: nat, end: nat)
    requires m in MARKERS && n < |s| && FirstAt(s, m, n) && end == WordEnd(s, n)
    ensures Redacted(s, [m]) == s[..n] + (ENDPOINT + Redacted(s[end..], [m]))
  {
    hide Redacted, WordEnd, StartsWith, Separator, AnyStarts;
    RedactedAtStart(s[n..], m);
    WordFrom(s, n);
    assert s[n..][end - n..] == s[end..];
    forall k | 0 <= k < n
      ensures !AnyStarts(s[..n][k..] + s[n..], [m])
    {
      assert s[..n][k..] + s[n..] == s[k..];
      AnyOfMore(s[k..], [], m);
    }
    PassesThrough(s[..n], s[n..], [m]);
    assert s == s[..n] + s[n..];
  }

  lemma RedactedAtStart(s: string, m: string)
    requires m in MARKERS && StartsWith(s, m)
    ensures s != "" && !Separator(s[0]) && Redacted(s, [m]) == ENDPOINT + Redacted(s[WordEnd(s, 1)..], [m])
  {
    MarkerFacts(m);
    BeginningChars(s, m);
    AnyOfMore(s, [], m);
  }

  lemma WordFrom(s: string, n: nat)
    requires n < |s| && !Separator(s[n])
    ensures WordEnd(s[n..], 1) == WordEnd(s, n) - n
  {
    var end := WordEnd(s, n);
    assert forall k :: 1 <= k < end - n ==> s[n..][k] == s[n + k];
    assert end < |s| ==> s[n..][end - n] == s[end];
    WordEndIs(s[n..], 1, end - n);
  }

  lemma BeforePlaceholder(s: string, m: string, n: nat, k: nat, rest: string)
    requires m in MARKERS && k < n <= |s| && !StartsWith(s[k..], m)
    ensures !StartsWith(s[..n][k..] + (ENDPOINT + rest), m)
  {
    MarkerFacts(m);
    var kept, t := s[..n][k..], s[..n][k..] + (ENDPOINT + rest);
    assert (ENDPOINT + rest)[0] == '[';
    assert |kept| == n - k && t[|kept|] == (ENDPOINT + rest)[0];
    if |m| <= n - k {
      assert t[..|m|] == s[k..][..|m|];
    } else {
      CharAt(t, m, n - k);
    }
  }

  method SafeError(message: string) returns (s: string)
    ensures s == Redacted(message, MARKERS)
  {
    s := message;
    NoMarkers(message);
    var i := 0;
    while i < |MARKERS|
      invariant 0 <= i <= |MARKERS|
      invariant s == Redacted(message, MARKERS[..i])
    {
      var m := MARKERS[i];
      s := RedactOne(s, m);
      OneMore(message, MARKERS[..i], m);
      assert MARKERS[..i + 1] == MARKERS[..i] + [m];
      i := i + 1;
    }
    assert MARKERS[..i] == MARKERS;
  }

  method EndOfWord(s: string, n: nat) returns (end: nat)
    requires n <= |s|
    ensures end == WordEnd(s, n)
  {
    end := n;
    while end < |s| && s[end] != ' ' && s[end] != '\n'
      invariant n <= end <= |s| && forall k :: n <= k < end ==> !Separator(s[k])
    {
      end := end + 1;
    }
    WordEndIs(s, n, end);
  }

  // The inner loop: it ends because every replacement removes a colon, even when it makes the
  // message longer.
  method RedactOne(message: string, m: string) returns (s: string)
    requires m in MARKERS
    ensures s == Redacted(message, [m])
  {
    MarkerFacts(m);
    hide Redacted, AnyStarts, Colons, WordEnd, Contains;
    s := message;
    var n := Index(s, m);
    while n >= 0
      invariant Redacted(s, [m]) == Redacted(message, [m])
      invariant -1 <= n <= |s|
      invariant n >= 0 ==> FirstAt(s, m, n)
      invariant n < 0 <==> !Contains(s, m)
      decreases Colons(s), n
    {
      NotAtEnd(s, m, n);
      var end := EndOfWord(s, n);
      Replaced(s, m, n, end);
      s := s[..n] + "[endpoint]" + s[end..];
      n := Index(s, m);
    }
    NoneLeft(s, m);
  }

  lemma NotAtEnd(s: string, m: string, n: nat)
    requires n <= |s| && StartsWith(s[n..], m) && |m| > 0
    ensures n < |s|
  {}

  lemma NoneLeft(s: string, m: string)
    requires !Contains(s, m)
    ensures Redacted(s, [m]) == s
  {
    forall j | 0 <= j < |s|
      ensures !AnyStarts(s[j..], [m])
    {
      AnyOfMore(s[j..], [], m);
    }
    Untouched(s, [m]);
  }
}
