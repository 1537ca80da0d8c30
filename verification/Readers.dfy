/** The readers of each node, and that visiting them one by one does what the closed form of a write says. */
module Readers {
  import opened Basics
  import opened DataValues
  import opened Graphs
  import opened Steps

  /** One read of a node, as the node's writes see it; an effect's has no operator to schedule. */
  datatype ReaderEntry = ReaderEntry(operator: Option<nat>, key: Key, mode: Mode)

  // ----- The readers of a node -----

  function ReadersFrom(g: Graph, reader: Reader, node: string, from: nat): seq<ReaderEntry>
    decreases |EdgesOf(g, reader)| - from
  {
    var edges := EdgesOf(g, reader);
    if from >= |edges| then []
    else
      (if edges[from].node == node then
         [ReaderEntry(if reader.OfOperator? then Some(reader.index) else None, Key(reader, from), edges[from].mode)]
       else [])
      + ReadersFrom(g, reader, node, from + 1)
  }

  function OperatorReaders(g: Graph, node: string, from: nat): seq<ReaderEntry>
    decreases |g.operators| - from
  {
    if from >= |g.operators| then [] else ReadersFrom(g, OfOperator(from), node, 0) + OperatorReaders(g, node, from + 1)
  }

  function EffectReaders(g: Graph, node: string, from: nat): seq<ReaderEntry>
    decreases |g.effects| - from
  {
    if from >= |g.effects| then [] else ReadersFrom(g, OfEffect(from), node, 0) + EffectReaders(g, node, from + 1)
  }

  function ReadersOf(g: Graph, node: string): seq<ReaderEntry> {
    OperatorReaders(g, node, 0) + EffectReaders(g, node, 0)
  }

  predicate IsReader(g: Graph, node: string, entry: ReaderEntry) {
    var edges := EdgesOf(g, entry.key.reader);
    && entry.key.input < |edges| && edges[entry.key.input] == Edge(node, entry.mode)
    && entry.operator == if entry.key.reader.OfOperator? then Some(entry.key.reader.index) else None
  }

  ghost predicate DistinctKeys(list: seq<ReaderEntry>) {
    forall a, b :: 0 <= a < b < |list| ==> list[a].key != list[b].key
  }

  lemma {:induction false} ReadersFromRight(g: Graph, reader: Reader, node: string, from: nat)
    ensures forall e :: e in ReadersFrom(g, reader, node, from) <==> IsReader(g, node, e) && e.key.reader == reader && e.key.input >= from
    ensures DistinctKeys(ReadersFrom(g, reader, node, from))
    decreases |EdgesOf(g, reader)| - from
  {
    if from < |EdgesOf(g, reader)| { ReadersFromRight(g, reader, node, from + 1); }
  }

  lemma {:induction false} OperatorReadersRight(g: Graph, node: string, from: nat)
    ensures forall e :: e in OperatorReaders(g, node, from) <==> IsReader(g, node, e) && e.key.reader.OfOperator? && e.key.reader.index >= from
    ensures DistinctKeys(OperatorReaders(g, node, from))
    decreases |g.operators| - from
  {
    if from < |g.operators| {
      ReadersFromRight(g, OfOperator(from), node, 0);
      OperatorReadersRight(g, node, from + 1);
      DisjointKeys(ReadersFrom(g, OfOperator(from), node, 0), OperatorReaders(g, node, from + 1));
    }
  }

  lemma {:induction false} EffectReadersRight(g: Graph, node: string, from: nat)
    ensures forall e :: e in EffectReaders(g, node, from) <==> IsReader(g, node, e) && e.key.reader.OfEffect? && e.key.reader.index >= from
    ensures DistinctKeys(EffectReaders(g, node, from))
    decreases |g.effects| - from
  {
    if from < |g.effects| {
      ReadersFromRight(g, OfEffect(from), node, 0);
      EffectReadersRight(g, node, from + 1);
      DisjointKeys(ReadersFrom(g, OfEffect(from), node, 0), EffectReaders(g, node, from + 1));
    }
  }

  lemma DisjointKeys(a: seq<ReaderEntry>, b: seq<ReaderEntry>)
    requires DistinctKeys(a) && DistinctKeys(b)
    requires forall x, y :: x in a && y in b ==> x.key.reader != y.key.reader
    ensures DistinctKeys(a + b)
  {
    forall i, j | 0 <= i < j < |a + b| ensures (a + b)[i].key != (a + b)[j].key {
      if i < |a| <= j { assert a[i] in a && b[j - |a|] in b; }
    }
  }

  /** A node's readers are exactly the reads of it the graph declares, each once. */
  lemma ReadersRight(g: Graph, node: string)
    ensures forall e :: e in ReadersOf(g, node) <==> IsReader(g, node, e)
    ensures DistinctKeys(ReadersOf(g, node))
  {
    OperatorReadersRight(g, node, 0);
    EffectReadersRight(g, node, 0);
    DisjointKeys(OperatorReaders(g, node, 0), EffectReaders(g, node, 0));
  }

  lemma ReaderAt(g: Graph, node: string, k: nat)
    requires k < |ReadersOf(g, node)|
    ensures IsReader(g, node, ReadersOf(g, node)[k])
    ensures ReadersOf(g, node)[k].operator.Some? ==> IsOperator(g, ReadersOf(g, node)[k].operator.value)
    ensures ReadersOf(g, node)[k].mode.Every? ==> ReadersOf(g, node)[k].key in OperatorKeys(g) + EffectKeys(g)
  {
    ReadersRight(g, node);
    assert ReadersOf(g, node)[k] in ReadersOf(g, node);
    var key := ReadersOf(g, node)[k].key;
    EveryReadIsKey(g, key.reader, key.input);
  }

  lemma EveryReadIsKey(g: Graph, reader: Reader, j: nat)
    ensures Key(reader, j) in OperatorKeys(g) + EffectKeys(g) <==> j < |EdgesOf(g, reader)| && EdgesOf(g, reader)[j].mode.Every?
  {
    match reader
    case OfOperator(i) => assert Key(reader, j) == Key(OfOperator(i), j);
    case OfEffect(e) => assert Key(reader, j) == Key(OfEffect(e), j);
  }

  // ----- Visiting readers one by one -----

  /** Schedules one operator, unless it is scheduled or no longer kept; refuses one re-entered too often. */
  function ScheduleOne(g: Graph, kept: Option<set<string>>, step: Step, i: nat): Result<Step, StepError> {
    if i in step.dirty || !KeepsUnder(g, kept, i) then Ok(step)
    else if i !in step.reentries then Ok(step.(dirty := step.dirty + {i}))
    else if step.reentries[i] + 1 > CYCLE_BOUND then Err(CycleBound)
    else Ok(step.(dirty := step.dirty + {i}, reentries := step.reentries[i := step.reentries[i] + 1]))
  }

  /** What makes a node's readers run: a write to it, or an expiry of it that passed. */
  datatype Cause = Wrote(before: Record, written: Written) | Lapsed

  predicate Rouses(cause: Cause, mode: Mode) {
    match cause
    case Wrote(before, written) => Wakes(mode, before, written)
    case Lapsed => mode.Watch?
  }

  /** The step once the readers of `list` have been visited in order. */
  function Visited(g: Graph, kept: Option<set<string>>, step: Step, list: seq<ReaderEntry>, cause: Cause): Result<Step, StepError> {
    if list == [] then Ok(step)
    else
      var last := list[|list| - 1];
      var visited :- Visited(g, kept, step, list[..|list| - 1], cause);
      if last.operator.Some? && Rouses(cause, last.mode) then ScheduleOne(g, kept, visited, last.operator.value) else Ok(visited)
  }

  /** The operators the readers of `list` schedule. */
  function Roused(g: Graph, kept: Option<set<string>>, list: seq<ReaderEntry>, cause: Cause): set<nat> {
    set e | e in list && e.operator.Some? && KeepsUnder(g, kept, e.operator.value) && Rouses(cause, e.mode) :: e.operator.value
  }

  lemma ScheduleOneMore(g: Graph, kept: Option<set<string>>, step: Step, ops: set<nat>, i: nat)
    requires ScheduleAll(step, ops).Ok? && KeepsUnder(g, kept, i)
    ensures ScheduleAll(step, ops + {i}) == ScheduleOne(g, kept, ScheduleAll(step, ops).value, i)
  {
    var at := ScheduleAll(step, ops).value;
    if i in at.dirty {
      assert at.dirty == step.dirty + (ops + {i});
      assert ScheduleAll(step, ops + {i}).Ok?;
      assert ScheduleAll(step, ops + {i}).value.reentries == at.reentries;
    } else if !(i in at.reentries && at.reentries[i] + 1 > CYCLE_BOUND) {
      assert ScheduleAll(step, ops + {i}).value.reentries == if i in at.reentries then at.reentries[i := at.reentries[i] + 1] else at.reentries;
      assert at.dirty + {i} == step.dirty + (ops + {i});
    }
  }

  /** Visiting a node's readers one by one schedules what scheduling them all at once does, or fails alike. */
  lemma {:induction false} VisitedIsScheduled(g: Graph, kept: Option<set<string>>, step: Step, list: seq<ReaderEntry>, cause: Cause)
    ensures Visited(g, kept, step, list, cause) == ScheduleAll(step, Roused(g, kept, list, cause))
  {
    if list == [] {
      assert Roused(g, kept, list, cause) == {};
      assert step.dirty + {} == step.dirty;
      assert ScheduleAll(step, {}).value.reentries == step.reentries;
    } else {
      var init, last := list[..|list| - 1], list[|list| - 1];
      assert list == init + [last];
      VisitedIsScheduled(g, kept, step, init, cause);
      var ops := Roused(g, kept, init, cause);
      if last.operator.Some? && KeepsUnder(g, kept, last.operator.value) && Rouses(cause, last.mode) {
        assert Roused(g, kept, list, cause) == ops + {last.operator.value};
        if ScheduleAll(step, ops).Ok? { ScheduleOneMore(g, kept, step, ops, last.operator.value); }
      } else {
        assert Roused(g, kept, list, cause) == ops;
      }
    }
  }

  lemma RousedByWrite(g: Graph, s: State, node: string, before: Record, written: Written)
    ensures Roused(g, s.kept, ReadersOf(g, node), Wrote(before, written)) == ScheduledAt(g, s, node, before, written)
  {
    var list := ReadersOf(g, node);
    ReadersRight(g, node);
    forall i: nat | i in ScheduledAt(g, s, node, before, written) ensures i in Roused(g, s.kept, list, Wrote(before, written)) {
      var j: nat :| j < |g.operators[i].edges| && ScheduledBy(g.operators[i].edges[j], node, before, written);
      var e := ReaderEntry(Some(i), Key(OfOperator(i), j), g.operators[i].edges[j].mode);
      assert IsReader(g, node, e) && e in list;
    }
    forall i | i in Roused(g, s.kept, list, Wrote(before, written)) ensures i in ScheduledAt(g, s, node, before, written) {
      var e :| e in list && e.operator == Some(i) && KeepsUnder(g, s.kept, i) && Wakes(e.mode, before, written);
      assert ScheduledBy(g.operators[i].edges[e.key.input], node, before, written);
    }
  }

  lemma RousedByLapse(g: Graph, s: State, node: string)
    ensures Roused(g, s.kept, ReadersOf(g, node), Lapsed) == WatchersOf(g, s, node)
  {
    var list := ReadersOf(g, node);
    ReadersRight(g, node);
    forall i: nat | i in WatchersOf(g, s, node) ensures i in Roused(g, s.kept, list, Lapsed) {
      var j: nat :| j < |g.operators[i].edges| && g.operators[i].edges[j] == Edge(node, Watch);
      var e := ReaderEntry(Some(i), Key(OfOperator(i), j), Watch);
      assert IsReader(g, node, e) && e in list;
    }
    forall i | i in Roused(g, s.kept, list, Lapsed) ensures i in WatchersOf(g, s, node) {
      var e :| e in list && e.operator == Some(i) && KeepsUnder(g, s.kept, i) && e.mode.Watch?;
      assert g.operators[i].edges[e.key.input] == Edge(node, Watch);
    }
  }

  lemma {:induction false} VisitingStaysRefused(g: Graph, kept: Option<set<string>>, step: Step, list: seq<ReaderEntry>, k: nat, cause: Cause)
    requires k <= |list| && Visited(g, kept, step, list[..k], cause).Err?
    ensures Visited(g, kept, step, list, cause) == Err(CycleBound)
    decreases |list| - k
  {
    VisitedIsScheduled(g, kept, step, list[..k], cause);
    if k == |list| {
      assert list[..k] == list;
    } else {
      assert list[..k + 1][..k] == list[..k];
      VisitingStaysRefused(g, kept, step, list, k + 1, cause);
    }
  }

  /** The buffers once `delivery` is pushed to each reader of `list` that reads every write. */
  function PushedTo(buffers: map<Key, seq<Sequenced>>, list: seq<ReaderEntry>, delivery: Sequenced): map<Key, seq<Sequenced>> {
    if list == [] then buffers
    else
      var last := list[|list| - 1];
      var pushed := PushedTo(buffers, list[..|list| - 1], delivery);
      if last.mode.Every? && last.key in pushed then pushed[last.key := pushed[last.key] + [delivery]] else pushed
  }

  /** Some reader of `list` reads every write through `key`. */
  predicate Receives(list: seq<ReaderEntry>, key: Key) {
    exists k :: 0 <= k < |list| && list[k].mode.Every? && list[k].key == key
  }

  lemma OneMoreReceives(list: seq<ReaderEntry>, key: Key)
    requires list != []
    ensures var init, last := list[..|list| - 1], list[|list| - 1];
            Receives(list, key) <==> Receives(init, key) || (last.mode.Every? && last.key == key)
  {
    var init := list[..|list| - 1];
    if Receives(list, key) {
      var k :| 0 <= k < |list| && list[k].mode.Every? && list[k].key == key;
      assert k < |init| ==> init[k] == list[k];
    }
  }

  lemma LastKeyIsNew(list: seq<ReaderEntry>)
    requires list != [] && DistinctKeys(list)
    ensures DistinctKeys(list[..|list| - 1]) && !Receives(list[..|list| - 1], list[|list| - 1].key)
  {
  }

  /** Pushing to readers one by one pushes once through each key that some of them receives by. */
  lemma {:induction false} PushedOnce(buffers: map<Key, seq<Sequenced>>, list: seq<ReaderEntry>, delivery: Sequenced)
    requires DistinctKeys(list)
    ensures PushedTo(buffers, list, delivery).Keys == buffers.Keys
    ensures forall key :: key in buffers ==>
              PushedTo(buffers, list, delivery)[key] == if Receives(list, key) then buffers[key] + [delivery] else buffers[key]
  {
    if list != [] {
      LastKeyIsNew(list);
      PushedOnce(buffers, list[..|list| - 1], delivery);
      forall key | key in buffers { OneMoreReceives(list, key); }
    }
  }

  lemma AllReadersPushed(g: Graph, buffers: map<Key, seq<Sequenced>>, node: string, delivery: Sequenced)
    ensures PushedTo(buffers, ReadersOf(g, node), delivery) == Buffered(g, buffers, node, delivery)
  {
    ReadersRight(g, node);
    PushedOnce(buffers, ReadersOf(g, node), delivery);
    forall key ensures Receives(ReadersOf(g, node), key) <==> Buffers(g, key, node) { ReceivesExactly(g, node, key); }
  }

  lemma ReceivesExactly(g: Graph, node: string, key: Key)
    ensures Receives(ReadersOf(g, node), key) <==> Buffers(g, key, node)
  {
    ReadersRight(g, node);
    var list := ReadersOf(g, node);
    if Buffers(g, key, node) {
      var e := ReaderEntry(if key.reader.OfOperator? then Some(key.reader.index) else None, key, Every);
      assert IsReader(g, node, e) && e in list;
    }
    if Receives(list, key) {
      var k :| 0 <= k < |list| && list[k].mode.Every? && list[k].key == key;
      assert IsReader(g, node, list[k]);
    }
  }

  /** Visiting a write's readers one by one does what the write does at once. */
  lemma WriteByReaders(g: Graph, w: World, node: string, written: Written, derived: bool, found: seq<int>)
    requires node in g.nodes && ExpiriesOf(g.nodes[node], written) == Some(found)
    requires !(g.nodes[node].coalesces && RecordOf(w.state, node) == Held(written))
    ensures var visited := Visited(g, w.state.kept, w.step, ReadersOf(g, node), Wrote(RecordOf(w.state, node), written));
            Steps.Write(g, w, node, written, derived) ==
            if visited.Err? then Err(visited.error)
            else Ok(World(Recorded(g, w.state, node, written, found, w.step.stamp), Noted(visited.value, node, written, derived)))
  {
    VisitedIsScheduled(g, w.state.kept, w.step, ReadersOf(g, node), Wrote(RecordOf(w.state, node), written));
    RousedByWrite(g, w.state, node, RecordOf(w.state, node), written);
  }

  lemma WatcherByWatcher(g: Graph, w: World, node: string)
    ensures var visited := Visited(g, w.state.kept, w.step, ReadersOf(g, node), Lapsed);
            Steps.Wake(g, w, node) ==
            if visited.Err? then Err(visited.error) else Ok(World(Woken(w.state, node, w.step.stamp.at), visited.value))
  {
    VisitedIsScheduled(g, w.state.kept, w.step, ReadersOf(g, node), Lapsed);
    RousedByLapse(g, w.state, node);
  }

  /** `buffers` with those of the first `j` reads of `reader` emptied. */
  function EmptiedBelow(buffers: map<Key, seq<Sequenced>>, reader: Reader, j: nat): map<Key, seq<Sequenced>> {
    if j == 0 then buffers
    else
      var before := EmptiedBelow(buffers, reader, j - 1);
      if Key(reader, j - 1) in before then before[Key(reader, j - 1) := []] else before
  }

  lemma {:induction false} EmptiedExactly(buffers: map<Key, seq<Sequenced>>, reader: Reader, j: nat)
    ensures EmptiedBelow(buffers, reader, j)
            == map key | key in buffers :: if key.reader == reader && key.input < j then [] else buffers[key]
  {
    if j > 0 { EmptiedExactly(buffers, reader, j - 1); }
  }

  /** Of `reader`'s reads, `keys` holds exactly those that buffer every write. */
  ghost predicate HoldsReadsOf(g: Graph, reader: Reader, keys: set<Key>) {
    forall j: nat {:trigger Key(reader, j)} :: Key(reader, j) in keys <==> IsEveryKey(g, Key(reader, j))
  }

  lemma EveryReaderHeld(g: Graph, reader: Reader)
    ensures HoldsReadsOf(g, reader, OperatorKeys(g) + EffectKeys(g))
  {
    forall j: nat ensures Key(reader, j) in OperatorKeys(g) + EffectKeys(g) <==> IsEveryKey(g, Key(reader, j)) {
      EveryReadIsKey(g, reader, j);
    }
  }

  lemma EmptiedAll(g: Graph, s: State, reader: Reader)
    requires HoldsReadsOf(g, reader, s.buffers.Keys)
    ensures EmptiedBelow(s.buffers, reader, |EdgesOf(g, reader)|) == Emptied(s, reader).buffers
  {
    EmptiedExactly(s.buffers, reader, |EdgesOf(g, reader)|);
    forall key | key in s.buffers && key.reader == reader ensures key.input < |EdgesOf(g, reader)| {
      assert Key(reader, key.input) in s.buffers.Keys;
    }
  }

  /** Every reader of `list` that reads every write has its key in `keys`. */
  ghost predicate AllHeld(list: seq<ReaderEntry>, keys: set<Key>) {
    forall k :: 0 <= k < |list| && list[k].mode.Every? ==> list[k].key in keys
  }

  lemma ReadersHeld(g: Graph, node: string, keys: set<Key>)
    requires forall reader :: HoldsReadsOf(g, reader, keys)
    ensures AllHeld(ReadersOf(g, node), keys)
  {
    forall k | 0 <= k < |ReadersOf(g, node)| && ReadersOf(g, node)[k].mode.Every?
      ensures ReadersOf(g, node)[k].key in keys
    {
      ReaderAt(g, node, k);
      var key := ReadersOf(g, node)[k].key;
      assert HoldsReadsOf(g, key.reader, keys) && key == Key(key.reader, key.input);
    }
  }

  /** What read `j` of `reader` has to take. */
  function ReadAt(g: Graph, s: State, reader: Reader, j: nat): seq<Pulled>
    requires j < |EdgesOf(g, reader)|
  {
    if EdgesOf(g, reader)[j].mode.Every? then AsInputs(j, BufferOf(s, Key(reader, j))) else []
  }

  function GatheredBelow(g: Graph, s: State, reader: Reader, n: nat): seq<Pulled>
    requires n <= |EdgesOf(g, reader)|
  {
    if n == 0 then [] else GatheredBelow(g, s, reader, n - 1) + ReadAt(g, s, reader, n - 1)
  }

  lemma {:induction false} GatheredInTwo(g: Graph, s: State, reader: Reader, n: nat)
    requires n <= |EdgesOf(g, reader)|
    ensures GatheredBelow(g, s, reader, n) + Gathered(g, s, reader, n) == Gathered(g, s, reader, 0)
  {
    if n > 0 {
      GatheredInTwo(g, s, reader, n - 1);
      assert Gathered(g, s, reader, n - 1) == ReadAt(g, s, reader, n - 1) + Gathered(g, s, reader, n);
    }
  }

  lemma GatheredWhole(g: Graph, s: State, reader: Reader)
    ensures GatheredBelow(g, s, reader, |EdgesOf(g, reader)|) == Gathered(g, s, reader, 0)
  {
    GatheredInTwo(g, s, reader, |EdgesOf(g, reader)|);
  }
}
