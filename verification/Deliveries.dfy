/** Merging buffers gives back the order of the log they were filled from. */
module Deliveries {
  import opened Basics
  import opened DataValues
  import opened Graphs
  import opened Steps

  /** The deliveries `log` made at `node`, in order. */
  function LogAt(log: seq<Logged>, node: string): seq<Sequenced> {
    if log == [] then []
    else LogAt(log[..|log| - 1], node) + if log[|log| - 1].node == node then [log[|log| - 1].delivery] else []
  }

  /** What one logged write delivers to a reader: once through each `every` read of its node, in read order. */
  function MatchesFrom(edges: seq<Edge>, entry: Logged, from: nat): seq<Pulled>
    decreases |edges| - from
  {
    if from >= |edges| then [] else MatchAt(edges, entry, from) + MatchesFrom(edges, entry, from + 1)
  }

  function MatchAt(edges: seq<Edge>, entry: Logged, from: nat): seq<Pulled>
    requires from < |edges|
  {
    if edges[from] == Edge(entry.node, Every) then
      [Pulled(FoldInput(from, Occurred(entry.delivery.value), entry.delivery.stamp), entry.delivery.order)]
    else []
  }

  /** Everything `log` owes a reader of `edges`, in the order it was written. */
  function Owed(edges: seq<Edge>, log: seq<Logged>): seq<Pulled> {
    if log == [] then [] else Owed(edges, log[..|log| - 1]) + Matches(edges, log[|log| - 1])
  }

  function Matches(edges: seq<Edge>, entry: Logged): seq<Pulled> {
    MatchesFrom(edges, entry, 0)
  }

  /** Each write of the log came after the one before it, and none after `last`. */
  ghost predicate InOrder(log: seq<Logged>, last: nat) {
    && (forall a, b :: 0 <= a < b < |log| ==> log[a].delivery.order < log[b].delivery.order)
    && (forall a :: 0 <= a < |log| ==> 0 < log[a].delivery.order <= last)
  }

  /** The buffers a reader would hold had `log` been delivered to it, read after read. */
  function GatheredFromLog(edges: seq<Edge>, log: seq<Logged>, from: nat): seq<Pulled>
    decreases |edges| - from
  {
    if from >= |edges| then [] else GatheredAt(edges, log, from) + GatheredFromLog(edges, log, from + 1)
  }

  function GatheredAt(edges: seq<Edge>, log: seq<Logged>, from: nat): seq<Pulled>
    requires from < |edges|
  {
    if edges[from].mode.Every? then AsInputs(from, LogAt(log, edges[from].node)) else []
  }

  // ----- Sorting -----

  lemma {:induction false} OfOrderDistributes(a: seq<Pulled>, b: seq<Pulled>, order: nat)
    ensures OfOrder(a + b, order) == OfOrder(a, order) + OfOrder(b, order)
  {
    if a == [] {
      assert a + b == b;
    } else {
      var head := if a[0].order == order then [a[0]] else [];
      OfOrderDistributes(a[1..], b, order);
      assert (a + b)[0] == a[0] && (a + b)[1..] == a[1..] + b;
      assert head + (OfOrder(a[1..], order) + OfOrder(b, order)) == (head + OfOrder(a[1..], order)) + OfOrder(b, order);
    }
  }

  lemma {:induction false} OfOrderOfOrder(pulled: seq<Pulled>, inner: nat, outer: nat)
    ensures OfOrder(OfOrder(pulled, inner), outer) == if inner == outer then OfOrder(pulled, inner) else []
  {
    if pulled != [] {
      OfOrderOfOrder(pulled[1..], inner, outer);
      OfOrderDistributes(if pulled[0].order == inner then [pulled[0]] else [], OfOrder(pulled[1..], inner), outer);
    }
  }

  lemma {:induction false} OfOrderMerged(pulled: seq<Pulled>, upTo: nat, order: nat)
    ensures OfOrder(Merged(pulled, upTo), order) == if order <= upTo then OfOrder(pulled, order) else []
  {
    OfOrderOfOrder(pulled, upTo, order);
    if upTo > 0 {
      OfOrderMerged(pulled, upTo - 1, order);
      OfOrderDistributes(Merged(pulled, upTo - 1), OfOrder(pulled, upTo), order);
    }
  }

  lemma {:induction false} MergedByOrder(a: seq<Pulled>, b: seq<Pulled>, upTo: nat)
    requires forall order: nat :: order <= upTo ==> OfOrder(a, order) == OfOrder(b, order)
    ensures Merged(a, upTo) == Merged(b, upTo)
  {
    if upTo > 0 { MergedByOrder(a, b, upTo - 1); }
  }

  lemma {:induction false} MembersOfOrder(pulled: seq<Pulled>, order: nat)
    ensures forall p :: p in OfOrder(pulled, order) ==> p in pulled && p.order == order
  {
    if pulled != [] { MembersOfOrder(pulled[1..], order); }
  }

  lemma {:induction false} MergedAscends(pulled: seq<Pulled>, upTo: nat)
    ensures forall p :: p in Merged(pulled, upTo) ==> p.order <= upTo
    ensures forall a, b :: 0 <= a < b < |Merged(pulled, upTo)| ==> Merged(pulled, upTo)[a].order <= Merged(pulled, upTo)[b].order
  {
    MembersOfOrder(pulled, upTo);
    if upTo > 0 {
      MergedAscends(pulled, upTo - 1);
      var low, top := Merged(pulled, upTo - 1), OfOrder(pulled, upTo);
      forall b | 0 <= b < |low + top| ensures b < |low| ==> (low + top)[b] in low
                                      ensures b >= |low| ==> (low + top)[b] in top {
      }
    }
  }

  lemma OfOrderOneMore(first: Pulled, rest: seq<Pulled>, order: nat)
    ensures multiset(OfOrder([first] + rest, order)) == multiset(OfOrder(rest, order)) + if first.order == order then multiset{first} else multiset{}
  {
    assert ([first] + rest)[1..] == rest;
  }

  lemma Together(a: seq<Pulled>, b: seq<Pulled>)
    ensures multiset(a + b) == multiset(a) + multiset(b)
  {
  }

  lemma {:induction false} MergedOneMore(first: Pulled, rest: seq<Pulled>, upTo: nat)
    ensures multiset(Merged([first] + rest, upTo)) == multiset(Merged(rest, upTo)) + if first.order <= upTo then multiset{first} else multiset{}
  {
    OfOrderOneMore(first, rest, upTo);
    if upTo > 0 {
      MergedOneMore(first, rest, upTo - 1);
      Together(Merged([first] + rest, upTo - 1), OfOrder([first] + rest, upTo));
      Together(Merged(rest, upTo - 1), OfOrder(rest, upTo));
    }
  }

  lemma {:induction false} NothingMerged(upTo: nat)
    ensures Merged([], upTo) == []
  {
    if upTo > 0 { NothingMerged(upTo - 1); }
  }

  lemma {:induction false} MergedKeepsAll(pulled: seq<Pulled>, upTo: nat)
    requires forall p :: p in pulled ==> p.order <= upTo
    ensures multiset(Merged(pulled, upTo)) == multiset(pulled)
  {
    if pulled == [] {
      NothingMerged(upTo);
    } else {
      assert pulled == [pulled[0]] + pulled[1..];
      MergedKeepsAll(pulled[1..], upTo);
      MergedOneMore(pulled[0], pulled[1..], upTo);
    }
  }

  /**
   * The sort the engine relies on: ascending; equal orders stay as they stood; and of what is ordered at or
   * below `upTo`, nothing is lost and nothing added.
   */
  lemma MergedIsAStableSort(pulled: seq<Pulled>, upTo: nat)
    ensures forall a, b :: 0 <= a < b < |Merged(pulled, upTo)| ==> Merged(pulled, upTo)[a].order <= Merged(pulled, upTo)[b].order
    ensures forall order: nat :: OfOrder(Merged(pulled, upTo), order) == if order <= upTo then OfOrder(pulled, order) else []
    ensures (forall p :: p in pulled ==> p.order <= upTo) ==> multiset(Merged(pulled, upTo)) == multiset(pulled)
  {
    MergedAscends(pulled, upTo);
    forall order: nat { OfOrderMerged(pulled, upTo, order); }
    if forall p :: p in pulled ==> p.order <= upTo { MergedKeepsAll(pulled, upTo); }
  }

  // ----- From buffers back to the log -----

  lemma {:induction false} MatchesHaveOneOrder(edges: seq<Edge>, entry: Logged, from: nat, order: nat)
    ensures OfOrder(MatchesFrom(edges, entry, from), order)
            == if order == entry.delivery.order then MatchesFrom(edges, entry, from) else []
    decreases |edges| - from
  {
    if from < |edges| {
      MatchesHaveOneOrder(edges, entry, from + 1, order);
      OfOrderDistributes(MatchAt(edges, entry, from), MatchesFrom(edges, entry, from + 1), order);
    }
  }

  lemma {:induction false} OwedLater(edges: seq<Edge>, log: seq<Logged>, last: nat, order: nat)
    requires InOrder(log, last) && last < order
    ensures OfOrder(Owed(edges, log), order) == []
  {
    if log != [] {
      var init, entry := log[..|log| - 1], log[|log| - 1];
      OwedLater(edges, init, last, order);
      MatchesHaveOneOrder(edges, entry, 0, order);
      OfOrderDistributes(Owed(edges, init), Matches(edges, entry), order);
    }
  }

  lemma GatheredAtOneMore(edges: seq<Edge>, log: seq<Logged>, entry: Logged, from: nat)
    requires from < |edges|
    ensures GatheredAt(edges, log + [entry], from) == GatheredAt(edges, log, from) + MatchAt(edges, entry, from)
  {
    assert (log + [entry])[..|log|] == log;
  }

  /** One more logged write adds exactly its matches to what is gathered, all under its own order. */
  lemma {:induction false} GatheredOneMore(edges: seq<Edge>, log: seq<Logged>, entry: Logged, from: nat, order: nat)
    requires order == entry.delivery.order ==> OfOrder(GatheredFromLog(edges, log, from), order) == []
    ensures OfOrder(GatheredFromLog(edges, log + [entry], from), order)
            == if order == entry.delivery.order then MatchesFrom(edges, entry, from)
               else OfOrder(GatheredFromLog(edges, log, from), order)
    decreases |edges| - from
  {
    if from < |edges| {
      var earlier, added := GatheredAt(edges, log, from), MatchAt(edges, entry, from);
      OfOrderDistributes(earlier, GatheredFromLog(edges, log, from + 1), order);
      GatheredOneMore(edges, log, entry, from + 1, order);
      GatheredAtOneMore(edges, log, entry, from);
      OfOrderDistributes(earlier + added, GatheredFromLog(edges, log + [entry], from + 1), order);
      OfOrderDistributes(earlier, added, order);
    }
  }

  lemma {:induction false} GatheredNothing(edges: seq<Edge>, from: nat)
    ensures GatheredFromLog(edges, [], from) == []
    decreases |edges| - from
  {
    if from < |edges| { GatheredNothing(edges, from + 1); }
  }

  lemma {:induction false} GatheredIsOwedByOrder(edges: seq<Edge>, log: seq<Logged>, last: nat, order: nat)
    requires InOrder(log, last)
    ensures OfOrder(GatheredFromLog(edges, log, 0), order) == OfOrder(Owed(edges, log), order)
  {
    if log == [] {
      GatheredNothing(edges, 0);
    } else {
      var init, entry := log[..|log| - 1], log[|log| - 1];
      assert log == init + [entry];
      GatheredIsOwedByOrder(edges, init, last, order);
      MatchesHaveOneOrder(edges, entry, 0, order);
      OfOrderDistributes(Owed(edges, init), Matches(edges, entry), order);
      if order == entry.delivery.order {
        assert InOrder(init, order - 1);
        OwedLater(edges, init, order - 1, order);
      }
      GatheredOneMore(edges, init, entry, 0, order);
    }
  }

  lemma OwedOneMore(edges: seq<Edge>, log: seq<Logged>, order: nat)
    requires log != []
    ensures var init, entry := log[..|log| - 1], log[|log| - 1];
            OfOrder(Owed(edges, log), order)
            == OfOrder(Owed(edges, init), order) + if order == entry.delivery.order then Matches(edges, entry) else []
  {
    var init, entry := log[..|log| - 1], log[|log| - 1];
    MatchesHaveOneOrder(edges, entry, 0, order);
    OfOrderDistributes(Owed(edges, init), Matches(edges, entry), order);
  }

  lemma EarlierInOrder(log: seq<Logged>, last: nat)
    requires InOrder(log, last) && last > 0
    ensures log != [] && log[|log| - 1].delivery.order == last ==> InOrder(log[..|log| - 1], last - 1)
    ensures log == [] || log[|log| - 1].delivery.order != last ==> InOrder(log, last - 1)
  {
    forall a | 0 <= a < |log| - 1 ensures log[a].delivery.order < log[|log| - 1].delivery.order {}
  }

  lemma OwedOneMoreMerged(edges: seq<Edge>, log: seq<Logged>, last: nat)
    requires last > 0 && log != [] && log[|log| - 1].delivery.order == last && InOrder(log[..|log| - 1], last - 1)
    requires Merged(Owed(edges, log[..|log| - 1]), last - 1) == Owed(edges, log[..|log| - 1])
    ensures Merged(Owed(edges, log), last) == Owed(edges, log)
  {
    var init: seq<Logged>, owed := log[..|log| - 1], Owed(edges, log);
    assert Merged(owed, last - 1) == Owed(edges, init) by {
      forall order: nat | order <= last - 1 ensures OfOrder(owed, order) == OfOrder(Owed(edges, init), order) {
        OwedOneMore(edges, log, order);
      }
      MergedByOrder(owed, Owed(edges, init), last - 1);
    }
    assert OfOrder(owed, last) == Matches(edges, log[|log| - 1]) by {
      OwedLater(edges, init, last - 1, last);
      OwedOneMore(edges, log, last);
    }
  }

  lemma NothingLater(edges: seq<Edge>, log: seq<Logged>, last: nat)
    requires last > 0 && InOrder(log, last - 1) && Merged(Owed(edges, log), last - 1) == Owed(edges, log)
    ensures Merged(Owed(edges, log), last) == Owed(edges, log)
  {
    OwedLater(edges, log, last - 1, last);
  }

  lemma {:induction false} OwedIsMerged(edges: seq<Edge>, log: seq<Logged>, last: nat)
    requires InOrder(log, last)
    ensures Merged(Owed(edges, log), last) == Owed(edges, log)
    decreases last
  {
    if log == [] {
      NothingMerged(last);
    } else {
      assert log[0].delivery.order > 0;
      EarlierInOrder(log, last);
      if log[|log| - 1].delivery.order == last {
        OwedIsMerged(edges, log[..|log| - 1], last - 1);
        OwedOneMoreMerged(edges, log, last);
      } else {
        OwedIsMerged(edges, log, last - 1);
        NothingLater(edges, log, last);
      }
    }
  }

  /** Sorting the buffers a log filled gives the log's own order, each delivery once. */
  lemma MergedBuffersAreOwed(edges: seq<Edge>, log: seq<Logged>, last: nat)
    requires InOrder(log, last)
    ensures Merged(GatheredFromLog(edges, log, 0), last) == Owed(edges, log)
  {
    forall order: nat | order <= last { GatheredIsOwedByOrder(edges, log, last, order); }
    MergedByOrder(GatheredFromLog(edges, log, 0), Owed(edges, log), last);
    OwedIsMerged(edges, log, last);
  }

  // ----- Separating deliveries from watched records -----

  /** The deliveries among a fold's inputs, without the watched records. */
  function OccurrencesOf(inputs: seq<FoldInput>): seq<FoldInput> {
    if inputs == [] then []
    else OccurrencesOf(inputs[..|inputs| - 1]) + if inputs[|inputs| - 1].value.Occurred? then [inputs[|inputs| - 1]] else []
  }

  function PulledOccurrences(pulled: seq<Pulled>): seq<Pulled> {
    if pulled == [] then []
    else (if pulled[0].input.value.Occurred? then [pulled[0]] else []) + PulledOccurrences(pulled[1..])
  }

  lemma {:induction false} PulledOccurrencesDistribute(a: seq<Pulled>, b: seq<Pulled>)
    ensures PulledOccurrences(a + b) == PulledOccurrences(a) + PulledOccurrences(b)
  {
    if a == [] {
      assert a + b == b;
    } else {
      assert (a + b)[1..] == a[1..] + b;
      PulledOccurrencesDistribute(a[1..], b);
    }
  }

  lemma {:induction false} OccurrencesOfOrder(pulled: seq<Pulled>, order: nat)
    ensures PulledOccurrences(OfOrder(pulled, order)) == OfOrder(PulledOccurrences(pulled), order)
  {
    if pulled != [] {
      OccurrencesOfOrder(pulled[1..], order);
      PulledOccurrencesDistribute(if pulled[0].order == order then [pulled[0]] else [], OfOrder(pulled[1..], order));
      OfOrderDistributes(if pulled[0].input.value.Occurred? then [pulled[0]] else [], PulledOccurrences(pulled[1..]), order);
    }
  }

  lemma {:induction false} OccurrencesOfMerged(pulled: seq<Pulled>, upTo: nat)
    ensures PulledOccurrences(Merged(pulled, upTo)) == Merged(PulledOccurrences(pulled), upTo)
  {
    OccurrencesOfOrder(pulled, upTo);
    if upTo > 0 {
      OccurrencesOfMerged(pulled, upTo - 1);
      PulledOccurrencesDistribute(Merged(pulled, upTo - 1), OfOrder(pulled, upTo));
    }
  }

  lemma {:induction false} OccurrencesDistribute(a: seq<FoldInput>, b: seq<FoldInput>)
    ensures OccurrencesOf(a + b) == OccurrencesOf(a) + OccurrencesOf(b)
  {
    if b == [] {
      assert a + b == a;
    } else {
      assert (a + b)[..|a + b| - 1] == a + b[..|b| - 1];
      OccurrencesDistribute(a, b[..|b| - 1]);
    }
  }

  lemma {:induction false} OccurrencesOfInputs(pulled: seq<Pulled>)
    ensures OccurrencesOf(InputsOnly(pulled)) == InputsOnly(PulledOccurrences(pulled))
  {
    if pulled != [] {
      OccurrencesOfInputs(pulled[1..]);
      assert InputsOnly(pulled) == [pulled[0].input] + InputsOnly(pulled[1..]);
      OccurrencesDistribute([pulled[0].input], InputsOnly(pulled[1..]));
    }
  }

  lemma {:induction false} AllOccurrences(pulled: seq<Pulled>)
    requires forall p :: p in pulled ==> p.input.value.Occurred?
    ensures PulledOccurrences(pulled) == pulled
  {
    if pulled != [] { AllOccurrences(pulled[1..]); }
  }

  lemma {:induction false} NoOccurrences(pulled: seq<Pulled>)
    requires forall p :: p in pulled ==> p.input.value.Watched?
    ensures PulledOccurrences(pulled) == []
  {
    if pulled != [] { NoOccurrences(pulled[1..]); }
  }

  lemma {:induction false} MatchesAreOccurrences(edges: seq<Edge>, entry: Logged, from: nat)
    ensures forall p :: p in MatchesFrom(edges, entry, from) ==> p.input.value.Occurred?
    decreases |edges| - from
  {
    if from < |edges| { MatchesAreOccurrences(edges, entry, from + 1); }
  }

  lemma {:induction false} OwedAreOccurrences(edges: seq<Edge>, log: seq<Logged>)
    ensures forall p :: p in Owed(edges, log) ==> p.input.value.Occurred?
  {
    if log != [] {
      OwedAreOccurrences(edges, log[..|log| - 1]);
      MatchesAreOccurrences(edges, log[|log| - 1], 0);
    }
  }

  lemma {:induction false} OwedDistributes(edges: seq<Edge>, a: seq<Logged>, b: seq<Logged>)
    ensures Owed(edges, a + b) == Owed(edges, a) + Owed(edges, b)
    decreases |b|
  {
    if b == [] {
      assert a + b == a;
    } else {
      var init, last := b[..|b| - 1], b[|b| - 1];
      OwedDistributes(edges, a, init);
      assert (a + b)[..|a + b| - 1] == a + init;
      assert (a + b)[|a + b| - 1] == last;
      assert Owed(edges, a + b) == Owed(edges, a + init) + Matches(edges, last);
      assert Owed(edges, b) == Owed(edges, init) + Matches(edges, last);
    }
  }
}
