/** Strings in order, and the sorts the program relies on. */
module Orders {
  import opened Basics

  // ----- The order of strings -----

  /** `a` comes before `b`, compared character by character. */
  predicate Less(a: string, b: string) {
    if a == [] then b != []
    else b != [] && (a[0] < b[0] || (a[0] == b[0] && Less(a[1..], b[1..])))
  }

  predicate AtMost(a: string, b: string) {
    a == b || Less(a, b)
  }

  lemma {:induction false} Trichotomy(a: string, b: string)
    ensures Less(a, b) || a == b || Less(b, a)
    ensures !(Less(a, b) && a == b) && !(Less(a, b) && Less(b, a)) && !(a == b && Less(b, a))
  {
    if a != [] && b != [] && a[0] == b[0] {
      Trichotomy(a[1..], b[1..]);
      assert a == [a[0]] + a[1..] && b == [b[0]] + b[1..];
    }
  }

  lemma {:induction false} LessTransitive(a: string, b: string, c: string)
    requires Less(a, b) && Less(b, c)
    ensures Less(a, c)
  {
    if a != [] && a[0] == b[0] && b[0] == c[0] { LessTransitive(a[1..], b[1..], c[1..]); }
  }

  // ----- A set of names, in order -----

  predicate IsLeast(names: set<string>, least: string) {
    least in names && forall name :: name in names ==> AtMost(least, name)
  }

  lemma {:induction false} LeastExists(names: set<string>)
    requires names != {}
    ensures exists least :: IsLeast(names, least)
    decreases names
  {
    var some :| some in names;
    if names == {some} {
      assert IsLeast(names, some);
    } else {
      LeastExists(names - {some});
      var rest :| IsLeast(names - {some}, rest);
      Trichotomy(some, rest);
      if Less(rest, some) {
        assert IsLeast(names, rest);
      } else {
        forall name | name in names ensures AtMost(some, name) {
          if name != some {
            assert name in names - {some} && AtMost(rest, name);
            if name != rest { LessTransitive(some, rest, name); }
          }
        }
        assert IsLeast(names, some);
      }
    }
  }

  lemma LeastUnique(names: set<string>, a: string, b: string)
    requires IsLeast(names, a) && IsLeast(names, b)
    ensures a == b
  {
    Trichotomy(a, b);
  }

  function Least(names: set<string>): (least: string)
    requires names != {}
    ensures IsLeast(names, least)
  {
    LeastExists(names);
    assert forall a, b :: IsLeast(names, a) && IsLeast(names, b) ==> a == b by {
      forall a, b | IsLeast(names, a) && IsLeast(names, b) ensures a == b { LeastUnique(names, a, b); }
    }
    var least :| least in names && IsLeast(names, least);
    least
  }

  ghost predicate NamesAscend(names: seq<string>) {
    forall a, b :: 0 <= a < b < |names| ==> Less(names[a], names[b])
  }

  /** The names of a set, each once, in order. */
  function Sorted(names: set<string>): (list: seq<string>)
    ensures forall name :: name in list <==> name in names
    ensures NamesAscend(list) && |list| == |names|
    decreases names
  {
    if names == {} then []
    else
      var least := Least(names);
      var rest := Sorted(names - {least});
      SortedStep(names, least, rest);
      [least] + rest
  }

  lemma SortedStep(names: set<string>, least: string, rest: seq<string>)
    requires IsLeast(names, least) && NamesAscend(rest)
    requires forall name :: name in rest <==> name in names - {least}
    ensures NamesAscend([least] + rest)
  {
    forall b | 0 <= b < |rest| ensures Less(least, rest[b]) { assert rest[b] in rest; }
  }

  lemma AscendingDistinct(names: seq<string>)
    requires NamesAscend(names)
    ensures forall a, b :: 0 <= a < b < |names| ==> names[a] != names[b]
  {
    forall a, b | 0 <= a < b < |names| ensures names[a] != names[b] { Trichotomy(names[a], names[b]); }
  }

  // ----- Lists compared whatever their order -----

  function Insert(name: string, list: seq<string>): seq<string> {
    if list == [] || !Less(list[0], name) then [name] + list else [list[0]] + Insert(name, list[1..])
  }

  function InsertionSorted(list: seq<string>): seq<string> {
    if list == [] then [] else Insert(list[0], InsertionSorted(list[1..]))
  }

  ghost predicate NonDescending(list: seq<string>) {
    forall a, b :: 0 <= a < b < |list| ==> AtMost(list[a], list[b])
  }

  lemma {:induction false} InsertRight(name: string, list: seq<string>)
    requires NonDescending(list)
    ensures NonDescending(Insert(name, list)) && multiset(Insert(name, list)) == multiset(list) + multiset{name}
  {
    if list == [] || !Less(list[0], name) {
      forall b | 0 <= b < |list| ensures AtMost(name, list[b]) {
        Trichotomy(name, list[0]);
        if b > 0 && Less(name, list[0]) && Less(list[0], list[b]) { LessTransitive(name, list[0], list[b]); }
      }
    } else {
      InsertRight(name, list[1..]);
      var rest := Insert(name, list[1..]);
      assert list == [list[0]] + list[1..];
      forall b | 0 <= b < |rest| ensures AtMost(list[0], rest[b]) {
        assert rest[b] in multiset(rest);
        if rest[b] != name {
          assert rest[b] in multiset(list[1..]) && rest[b] in list[1..];
          var k :| 0 <= k < |list[1..]| && list[1..][k] == rest[b];
          assert list[k + 1] == rest[b];
        }
      }
    }
  }

  lemma {:induction false} InsertionSortedRight(list: seq<string>)
    ensures NonDescending(InsertionSorted(list)) && multiset(InsertionSorted(list)) == multiset(list)
  {
    if list != [] {
      InsertionSortedRight(list[1..]);
      InsertRight(list[0], InsertionSorted(list[1..]));
      assert list == [list[0]] + list[1..];
    }
  }

  lemma {:induction false} SortedListsAgree(a: seq<string>, b: seq<string>)
    requires NonDescending(a) && NonDescending(b) && multiset(a) == multiset(b)
    ensures a == b
  {
    assert |multiset(a)| == |a| && |multiset(b)| == |b|;
    if a != [] {
      assert a == [a[0]] + a[1..] && b == [b[0]] + b[1..];
      FirstIsLeast(a, b[0]);
      FirstIsLeast(b, a[0]);
      Trichotomy(a[0], b[0]);
      assert multiset(a[1..]) == multiset(a) - multiset{a[0]};
      assert multiset(b[1..]) == multiset(b) - multiset{b[0]};
      SortedListsAgree(a[1..], b[1..]);
    }
  }

  lemma FirstIsLeast(list: seq<string>, name: string)
    requires NonDescending(list) && name in multiset(list)
    ensures list != [] && AtMost(list[0], name)
  {
    assert name in list;
    var k :| 0 <= k < |list| && list[k] == name;
    if k > 0 { assert AtMost(list[0], list[k]); }
  }

  /** Two lists of one length hold the same ids, however ordered, once each is sorted. */
  predicate SameIds(left: seq<string>, right: seq<string>) {
    |left| == |right| && InsertionSorted(left) == InsertionSorted(right)
  }

  lemma SameIdsAreTheSameBag(left: seq<string>, right: seq<string>)
    ensures SameIds(left, right) <==> multiset(left) == multiset(right)
  {
    InsertionSortedRight(left);
    InsertionSortedRight(right);
    if multiset(left) == multiset(right) {
      SortedListsAgree(InsertionSorted(left), InsertionSorted(right));
      assert |multiset(left)| == |left|;
    }
  }

  // ----- Turns -----

  /** After `served`, keys past it come first, then the rest, each in order. */
  predicate TurnBefore(served: string, a: string, b: string) {
    if Less(served, a) == Less(served, b) then Less(a, b) else Less(served, a)
  }

  /** The higher priority goes first; equal ones take turns. */
  predicate RanksBefore(served: string, priority: map<string, int>, a: string, b: string)
    requires a in priority && b in priority
  {
    priority[a] > priority[b] || (priority[a] == priority[b] && TurnBefore(served, a, b))
  }

  function FirstAfter(inTurn: seq<string>, served: string): (at: nat)
    ensures at <= |inTurn|
  {
    if inTurn == [] || Less(served, inTurn[0]) then 0 else FirstAfter(inTurn[1..], served) + 1
  }

  /** The keys in order, from the first past `served` on and round again. */
  function InTurn(keys: set<string>, served: string): seq<string> {
    var inTurn := Sorted(keys);
    var at := FirstAfter(inTurn, served);
    inTurn[at..] + inTurn[..at]
  }

  function InsertRanked(key: string, list: seq<string>, priority: map<string, int>): seq<string>
    requires key in priority && forall k :: k in list ==> k in priority
  {
    if list == [] || priority[list[0]] <= priority[key] then [key] + list else [list[0]] + InsertRanked(key, list[1..], priority)
  }

  /** A stable sort of `list`, by falling priority. */
  function StablyRanked(list: seq<string>, priority: map<string, int>): (ranked: seq<string>)
    requires forall k :: k in list ==> k in priority
    ensures multiset(ranked) == multiset(list)
  {
    if list == [] then []
    else
      var rest := StablyRanked(list[1..], priority);
      assert list == [list[0]] + list[1..];
      assert forall k :: k in rest ==> k in multiset(rest);
      InsertRankedSame(list[0], rest, priority);
      InsertRanked(list[0], rest, priority)
  }

  lemma {:induction false} InsertRankedSame(key: string, list: seq<string>, priority: map<string, int>)
    requires key in priority && forall k :: k in list ==> k in priority
    ensures multiset(InsertRanked(key, list, priority)) == multiset(list) + multiset{key}
  {
    if list != [] && priority[list[0]] > priority[key] {
      InsertRankedSame(key, list[1..], priority);
      assert list == [list[0]] + list[1..];
    }
  }

  function Ranked(keys: set<string>, served: string, priority: map<string, int>): (ranked: seq<string>)
    requires forall k :: k in keys ==> k in priority
  {
    InTurnSame(keys, served);
    StablyRanked(InTurn(keys, served), priority)
  }

  lemma InTurnSame(keys: set<string>, served: string)
    ensures multiset(InTurn(keys, served)) == multiset(Sorted(keys))
    ensures forall k :: k in InTurn(keys, served) <==> k in keys
  {
    var inTurn := Sorted(keys);
    var at := FirstAfter(inTurn, served);
    assert inTurn == inTurn[..at] + inTurn[at..];
    forall k ensures k in InTurn(keys, served) <==> k in keys {
      assert k in InTurn(keys, served) <==> k in multiset(InTurn(keys, served));
      assert k in inTurn <==> k in multiset(inTurn);
    }
  }

  // ----- The whole order -----

  lemma {:induction false} FirstAfterSplits(inTurn: seq<string>, served: string)
    requires NamesAscend(inTurn)
    ensures forall a :: 0 <= a < |inTurn| ==> (Less(served, inTurn[a]) <==> a >= FirstAfter(inTurn, served))
  {
    if inTurn != [] {
      FirstAfterSplits(inTurn[1..], served);
      var at := FirstAfter(inTurn, served);
      forall a | 0 <= a < |inTurn| ensures Less(served, inTurn[a]) <==> a >= at {
        if Less(served, inTurn[0]) {
          if a > 0 { LessTransitive(served, inTurn[0], inTurn[a]); }
        } else if a > 0 {
          assert inTurn[a] == inTurn[1..][a - 1];
        }
      }
    }
  }

  ghost predicate Turning(list: seq<string>, served: string) {
    forall a, b :: 0 <= a < b < |list| ==> TurnBefore(served, list[a], list[b])
  }

  lemma RotatedTurns(inTurn: seq<string>, at: nat, served: string)
    requires NamesAscend(inTurn) && at <= |inTurn|
    requires forall a :: 0 <= a < |inTurn| ==> (Less(served, inTurn[a]) <==> a >= at)
    ensures Turning(inTurn[at..] + inTurn[..at], served)
  {
    var list, n := inTurn[at..] + inTurn[..at], |inTurn| - at;
    forall a, b | 0 <= a < b < |list| ensures TurnBefore(served, list[a], list[b]) {
      var x := if a < n then a + at else a - n;
      var y := if b < n then b + at else b - n;
      assert list[a] == inTurn[x] && list[b] == inTurn[y];
      assert x < y || (x >= at && y < at);
    }
  }

  lemma InTurnTurns(keys: set<string>, served: string)
    ensures Turning(InTurn(keys, served), served)
  {
    var inTurn := Sorted(keys);
    FirstAfterSplits(inTurn, served);
    RotatedTurns(inTurn, FirstAfter(inTurn, served), served);
  }

  ghost predicate FullyRanked(list: seq<string>, served: string, priority: map<string, int>)
    requires forall k :: k in list ==> k in priority
  {
    forall a, b :: 0 <= a < b < |list| ==> RanksBefore(served, priority, list[a], list[b])
  }

  lemma {:induction false} InsertFullyRanked(key: string, list: seq<string>, served: string, priority: map<string, int>)
    requires key in priority && forall k :: k in list ==> k in priority
    requires FullyRanked(list, served, priority) && forall k :: k in list ==> TurnBefore(served, key, k)
    ensures forall k :: k in InsertRanked(key, list, priority) ==> k in priority
    ensures FullyRanked(InsertRanked(key, list, priority), served, priority)
  {
    if list == [] || priority[list[0]] <= priority[key] {
      forall b | 0 <= b < |list| ensures RanksBefore(served, priority, key, list[b]) {
        assert list[b] in list;
        if b > 0 { assert RanksBefore(served, priority, list[0], list[b]); }
      }
    } else {
      InsertFullyRanked(key, list[1..], served, priority);
      var rest := InsertRanked(key, list[1..], priority);
      InsertRankedSame(key, list[1..], priority);
      forall b | 0 <= b < |rest| ensures RanksBefore(served, priority, list[0], rest[b]) {
        assert rest[b] in multiset(rest);
        if rest[b] != key {
          assert rest[b] in multiset(list[1..]) && rest[b] in list[1..];
          var k :| 0 <= k < |list[1..]| && list[1..][k] == rest[b];
          assert list[k + 1] == rest[b];
        }
      }
    }
  }

  lemma {:induction false} StablyRankedFully(list: seq<string>, served: string, priority: map<string, int>)
    requires (forall k :: k in list ==> k in priority) && Turning(list, served)
    ensures (forall k :: k in StablyRanked(list, priority) ==> k in priority) && FullyRanked(StablyRanked(list, priority), served, priority)
  {
    if list != [] {
      StablyRankedFully(list[1..], served, priority);
      var rest := StablyRanked(list[1..], priority);
      forall k | k in rest ensures TurnBefore(served, list[0], k) {
        assert k in multiset(rest) && k in list[1..];
        var j :| 0 <= j < |list[1..]| && list[1..][j] == k;
        assert list[j + 1] == k;
      }
      InsertFullyRanked(list[0], rest, served, priority);
    }
  }

  /** The keys, each once, every one before those it outranks: by priority, and among equals in turn after `served`. */
  lemma RankedRight(keys: set<string>, served: string, priority: map<string, int>)
    requires forall k :: k in keys ==> k in priority
    ensures forall k :: k in Ranked(keys, served, priority) <==> k in keys
    ensures |Ranked(keys, served, priority)| == |keys|
    ensures forall a, b :: 0 <= a < b < |Ranked(keys, served, priority)| ==>
              RanksBefore(served, priority, Ranked(keys, served, priority)[a], Ranked(keys, served, priority)[b])
    ensures forall a, b :: 0 <= a < b < |Ranked(keys, served, priority)| ==> Ranked(keys, served, priority)[a] != Ranked(keys, served, priority)[b]
  {
    var ranked := Ranked(keys, served, priority);
    InTurnSame(keys, served);
    InTurnTurns(keys, served);
    StablyRankedFully(InTurn(keys, served), served, priority);
    forall k ensures k in ranked <==> k in keys {
      assert k in ranked <==> k in multiset(ranked);
      assert k in InTurn(keys, served) <==> k in multiset(InTurn(keys, served));
    }
    assert |multiset(ranked)| == |ranked| && |multiset(Sorted(keys))| == |Sorted(keys)|;
    forall a, b | 0 <= a < b < |ranked| ensures ranked[a] != ranked[b] {
      assert RanksBefore(served, priority, ranked[a], ranked[b]);
      Trichotomy(ranked[a], ranked[b]);
    }
  }
}
