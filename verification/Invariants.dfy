/** What holds of the engine's state at every moment of every step, and what a single write keeps of it. */
module Invariants {
  import opened Basics
  import opened DataValues
  import opened Graphs
  import opened Steps
  import opened Propagation
  import opened Deliveries

  // ----- Shape -----

  ghost predicate Shaped(g: Graph, s: State) {
    && s.records.Keys == g.nodes.Keys
    && s.buffers.Keys == OperatorKeys(g) + EffectKeys(g)
    && InOrder(s.history.log, s.writeSeq)
    && (forall n :: n in s.lastWrite ==> s.lastWrite[n] <= s.writeSeq)
    && (forall i :: i in s.history.cut ==> s.history.cut[i] <= |s.history.log|)
  }

  /** Nothing ever takes the value of a node that starts with one. */
  ghost predicate InitialsHeld(g: Graph, s: State) {
    forall n :: n in g.initials ==> Readable(RecordOf(s, n))
  }

  // ----- Maps agree with recomputing them -----

  predicate ReadsAllLatest(op: Operator) {
    op.MapOp? && forall j :: 0 <= j < |op.edges| ==> op.edges[j].mode == Latest(true)
  }

  predicate ReadsNoDeliveries(op: Operator) {
    op.MapOp? && forall j :: 0 <= j < |op.edges| ==> !op.edges[j].mode.Every?
  }

  /** What recomputing map `i` from its inputs' current records would make of its output. */
  ghost predicate Agrees(g: Graph, s: State, i: nat)
    requires IsMap(g, i)
  {
    var op := g.operators[i];
    var record := RecordOf(s, op.output);
    if IsBlocked(g, s, i) then
      && !Readable(record)
      && (record.Held? ==> record == Held(Blocked(IsFailed(g, s, i), None)))
      && (IsFailed(g, s, i) ==> record.Held?)
    else
      Readable(record) && op.compute(MapInputs(g, s, i)) == Some(ValueOf(record))
  }

  ghost predicate MapCurrent(g: Graph, s: State, i: nat)
    requires IsMap(g, i)
  {
    && (ReadsAllLatest(g.operators[i]) ==> Agrees(g, s, i))
    && (ReadsNoDeliveries(g.operators[i]) && !IsBlocked(g, s, i) ==> Readable(RecordOf(s, g.operators[i].output)))
  }

  /** Every kept map but `skip` is current, or is about to run. */
  ghost predicate MapsCurrent(g: Graph, w: World, skip: int) {
    forall i: nat :: IsMap(g, i) && Keeps(g, w.state, i) && i != skip && i !in w.step.dirty ==> MapCurrent(g, w.state, i)
  }

  // ----- Every delivery is taken once, in order -----

  function CutOf(h: History, i: nat): nat {
    if i in h.cut then h.cut[i] else 0
  }

  function AppliedBy(h: History, i: nat): seq<FoldInput> {
    if i in h.applied then h.applied[i] else []
  }

  /** What the log holds past the last take of operator `i`. */
  function Untaken(s: State, i: nat): seq<Logged> {
    if CutOf(s.history, i) <= |s.history.log| then s.history.log[CutOf(s.history, i)..] else []
  }

  function TakenLog(s: State, i: nat): seq<Logged> {
    if CutOf(s.history, i) <= |s.history.log| then s.history.log[..CutOf(s.history, i)] else []
  }

  /** Each buffer of an operator holds exactly what was written to its node since the operator last took it. */
  ghost predicate BuffersOwed(g: Graph, s: State) {
    forall i: nat, j: nat :: i < |g.operators| && j < |g.operators[i].edges| && g.operators[i].edges[j].mode.Every? ==>
      BufferOf(s, Key(OfOperator(i), j)) == LogAt(Untaken(s, i), g.operators[i].edges[j].node)
  }

  /** A fold has applied, of the deliveries it reads, exactly those logged up to its last take, in order. */
  ghost predicate AppliedOwed(g: Graph, s: State) {
    forall i: nat :: IsFold(g, i) ==> AppliedAsOwed(g.operators[i], AppliedBy(s.history, i), TakenLog(s, i))
  }

  ghost predicate AppliedAsOwed(op: Operator, applied: seq<FoldInput>, log: seq<Logged>) {
    && OccurrencesOf(applied) == InputsOnly(Owed(op.edges, log))
    && (ReadsNoWatches(op) ==> forall input :: input in applied ==> input.value.Occurred?)
  }

  predicate ReadsNoWatches(op: Operator) {
    forall j :: 0 <= j < |op.edges| ==> !op.edges[j].mode.Watch?
  }

  /** A kept fold that is not about to run has nothing left to take. */
  ghost predicate Drained(g: Graph, w: World, skip: int) {
    forall i: nat :: IsFold(g, i) && Keeps(g, w.state, i) && i != skip && i !in w.step.dirty ==> NothingOwed(g, w.state, i)
  }

  ghost predicate NothingOwed(g: Graph, s: State, i: nat)
    requires IsFold(g, i)
  {
    forall j: nat :: j < |g.operators[i].edges| && g.operators[i].edges[j].mode.Every? ==>
      BufferOf(s, Key(OfOperator(i), j)) == []
  }

  /** What applying a fold's history to its initial value gives. */
  ghost predicate FoldHolds(g: Graph, s: State, i: nat)
    requires IsFold(g, i)
  {
    var op := g.operators[i];
    op.afterInputs.None? ==>
      match Applied(op, op.initial, AppliedBy(s.history, i))
      case None => false
      case Some(step) => ValueOf(RecordOf(s, op.output)) == step.state
  }

  ghost predicate FoldsHold(g: Graph, s: State, skip: int) {
    forall i: nat :: IsFold(g, i) && i != skip ==> FoldHolds(g, s, i)
  }

  // ----- Expiries -----

  ghost predicate Ascending(list: seq<int>) {
    forall a, b :: 0 <= a < b < |list| ==> list[a] < list[b]
  }

  ghost predicate ExpiriesAscend(s: State) {
    forall n :: n in s.expiries ==> Ascending(s.expiries[n])
  }

  /** The invariant, of every operator but `skip`, which is under evaluation. */
  ghost predicate Inv(g: Graph, w: World, skip: int) {
    && Shaped(g, w.state)
    && Bounded(g, w.step)
    && InitialsHeld(g, w.state)
    && MapsCurrent(g, w, skip)
    && BuffersOwed(g, w.state)
    && AppliedOwed(g, w.state)
    && Drained(g, w, skip)
    && FoldsHold(g, w.state, skip)
    && ExpiriesAscend(w.state)
  }

  /** The invariant between steps. */
  ghost predicate Settled(g: Graph, s: State) {
    Inv(g, World(s, FreshStep(Stamp(0, 0))), -1)
  }

  // ----- Expiry lists -----

  lemma {:induction false} AfterKeepsOrder(list: seq<int>, at: int)
    requires Ascending(list)
    ensures Ascending(After(list, at))
    ensures forall x :: x in After(list, at) ==> x in list && x > at
  {
    if list != [] {
      AfterKeepsOrder(list[1..], at);
      forall x | x in list[1..] ensures list[0] < x {}
    }
  }

  lemma PrependingAscends(x: int, list: seq<int>)
    requires Ascending(list) && forall y :: y in list ==> x < y
    ensures Ascending([x] + list)
    ensures forall y :: y in [x] + list <==> y == x || y in list
  {
    forall a, b | 0 <= a < b < |[x] + list| ensures ([x] + list)[a] < ([x] + list)[b] {
      assert ([x] + list)[b] == list[b - 1] && list[b - 1] in list;
    }
  }

  lemma {:induction false} InsertionAscends(x: int, list: seq<int>)
    requires Ascending(list)
    ensures Ascending(InsertAscending(x, list))
    ensures forall y :: y in InsertAscending(x, list) <==> y == x || y in list
  {
    if list == [] {
    } else if x < list[0] {
      forall y | y in list ensures x < y { var k :| 0 <= k < |list| && list[k] == y; }
      PrependingAscends(x, list);
    } else if x > list[0] {
      InsertionAscends(x, list[1..]);
      PrependingAscends(list[0], InsertAscending(x, list[1..]));
      assert list == [list[0]] + list[1..];
    }
  }

  /** The expiries a write stores are those it carries, ascending and each once. */
  lemma {:induction false} SortedUniqueSorts(list: seq<int>)
    ensures Ascending(SortedUnique(list))
    ensures forall y :: y in SortedUnique(list) <==> y in list
  {
    if list != [] {
      SortedUniqueSorts(list[1..]);
      InsertionAscends(list[0], SortedUnique(list[1..]));
      assert list == [list[0]] + list[1..];
    }
  }

  lemma FoundAscends(spec: NodeSpec, written: Written)
    requires ExpiriesOf(spec, written).Some?
    ensures Ascending(ExpiriesOf(spec, written).value)
  {
    var found :=
      if spec.kind == LevelKind then
        Some(if written.Present? && written.expiry.Some? then [written.expiry.value] else [])
      else if written.Present? && spec.expiries.Some? then spec.expiries.value(written.value)
      else Some([]);
    SortedUniqueSorts(found.value);
  }

  // ----- One write -----

  /** `node` may be written while `skip` runs: no other operator's output, and not blanked if it has an initial. */
  ghost predicate MayWrite(g: Graph, node: string, written: Written, skip: int) {
    && node in g.nodes
    && (forall k :: IsOperator(g, k) && k != skip ==> g.operators[k].output != node)
    && (node in g.initials ==> written.Present?)
  }

  lemma RecordingKeepsMap(g: Graph, s: State, node: string, written: Written, found: seq<int>, stamp: Stamp, i: nat)
    requires node in g.nodes && IsMap(g, i) && Keeps(g, s, i) && g.operators[i].output != node
    requires !Schedules(g, s, i, node, RecordOf(s, node), written)
    requires MapCurrent(g, s, i)
    ensures MapCurrent(g, Recorded(g, s, node, written, found, stamp), i)
  {
    var op := g.operators[i];
    var after := Recorded(g, s, node, written, found, stamp);
    forall j: nat | j < |op.edges| ensures !ScheduledBy(op.edges[j], node, RecordOf(s, node), written) {}
    if ReadsAllLatest(op) {
      forall j: nat | j < |op.edges| ensures RecordOf(after, op.edges[j].node) == RecordOf(s, op.edges[j].node) {}
      assert forall j: nat :: j < |op.edges| ==> BlockedAt(g, after, i, j) == BlockedAt(g, s, i, j) && FailedAt(g, after, i, j) == FailedAt(g, s, i, j);
      assert MapInputs(g, after, i) == MapInputs(g, s, i);
    }
    if ReadsNoDeliveries(op) && IsBlocked(g, s, i) {
      var j: nat :| j < |op.edges| && BlockedAt(g, s, i, j);
      assert BlockedAt(g, after, i, j);
    }
  }

  lemma RecordingKeepsBuffers(g: Graph, s: State, node: string, written: Written, found: seq<int>, stamp: Stamp)
    requires Shaped(g, s) && BuffersOwed(g, s)
    ensures BuffersOwed(g, Recorded(g, s, node, written, found, stamp))
  {
    var after := Recorded(g, s, node, written, found, stamp);
    var entry := Logged(node, Sequenced(ValueOfWrite(written), stamp, s.writeSeq + 1));
    forall i: nat, j: nat | i < |g.operators| && j < |g.operators[i].edges| && g.operators[i].edges[j].mode.Every?
      ensures BufferOf(after, Key(OfOperator(i), j)) == LogAt(Untaken(after, i), g.operators[i].edges[j].node)
    {
      var key := Key(OfOperator(i), j);
      assert key in OperatorKeys(g);
      assert CutOf(s.history, i) <= |s.history.log|;
      assert Untaken(after, i) == Untaken(s, i) + [entry];
      assert (Untaken(s, i) + [entry])[..|Untaken(s, i)|] == Untaken(s, i);
    }
  }

  lemma RecordingKeepsShape(g: Graph, s: State, node: string, written: Written, found: seq<int>, stamp: Stamp)
    requires node in g.nodes && Shaped(g, s)
    ensures Shaped(g, Recorded(g, s, node, written, found, stamp))
  {
  }

  lemma PresentedAscends(s: State, node: string, list: seq<int>, at: int)
    requires ExpiriesAscend(s) && Ascending(list)
    ensures ExpiriesAscend(s.(expiries := Presented(s.expiries, node, list, at)))
  {
    AfterKeepsOrder(list, at);
  }

  lemma RecordingKeepsApplied(g: Graph, s: State, node: string, written: Written, found: seq<int>, stamp: Stamp)
    requires Shaped(g, s) && AppliedOwed(g, s)
    ensures AppliedOwed(g, Recorded(g, s, node, written, found, stamp))
  {
    var after := Recorded(g, s, node, written, found, stamp);
    forall i: nat | IsFold(g, i) ensures TakenLog(after, i) == TakenLog(s, i) {
      assert CutOf(s.history, i) <= |s.history.log|;
    }
  }

  lemma RecordingKeepsDrained(g: Graph, w: World, node: string, written: Written, found: seq<int>, skip: int, after: World)
    requires Shaped(g, w.state) && Drained(g, w, skip)
    requires after.state == Recorded(g, w.state, node, written, found, w.step.stamp)
    requires after.step.dirty == w.step.dirty + ScheduledAt(g, w.state, node, RecordOf(w.state, node), written)
    ensures Drained(g, after, skip)
  {
    forall i: nat, j: nat | IsFold(g, i) && Keeps(g, after.state, i) && i != skip && i !in after.step.dirty
                            && j < |g.operators[i].edges| && g.operators[i].edges[j].mode.Every?
      ensures BufferOf(after.state, Key(OfOperator(i), j)) == []
    {
      assert NothingOwed(g, w.state, i);
      assert !Schedules(g, w.state, i, node, RecordOf(w.state, node), written);
      assert !ScheduledBy(g.operators[i].edges[j], node, RecordOf(w.state, node), written);
    }
  }

  lemma RecordingKeepsFolds(g: Graph, s: State, node: string, written: Written, found: seq<int>, stamp: Stamp, skip: int)
    requires FoldsHold(g, s, skip) && MayWrite(g, node, written, skip)
    ensures FoldsHold(g, Recorded(g, s, node, written, found, stamp), skip)
  {
  }

  /** One write keeps the invariant: what it makes stale it schedules. */
  lemma WriteKeeps(g: Graph, w: World, node: string, written: Written, derived: bool, skip: int)
    requires Inv(g, w, skip) && MayWrite(g, node, written, skip)
    requires Write(g, w, node, written, derived).Ok?
    ensures Inv(g, Write(g, w, node, written, derived).value, skip)
    ensures RecordOf(Write(g, w, node, written, derived).value.state, node) == Held(written)
    ensures Write(g, w, node, written, derived).value.state.history.applied == w.state.history.applied
    ensures forall n :: n != node ==> RecordOf(Write(g, w, node, written, derived).value.state, n) == RecordOf(w.state, n)
  {
    var before := RecordOf(w.state, node);
    var found := ExpiriesOf(g.nodes[node], written).value;
    var after := Write(g, w, node, written, derived).value;
    WriteSpendsNothing(g, w, node, written, derived);
    if !(g.nodes[node].coalesces && before == Held(written)) {
      assert after.state == Recorded(g, w.state, node, written, found, w.step.stamp);
      RecordingKeepsShape(g, w.state, node, written, found, w.step.stamp);
      RecordingKeepsBuffers(g, w.state, node, written, found, w.step.stamp);
      RecordingKeepsApplied(g, w.state, node, written, found, w.step.stamp);
      RecordingKeepsDrained(g, w, node, written, found, skip, after);
      RecordingKeepsFolds(g, w.state, node, written, found, w.step.stamp, skip);
      RecordingKeepsMaps(g, w, node, written, found, skip, after);
      RecordingKeepsExpiries(g, w.state, node, written, found, w.step.stamp);
    }
  }

  lemma RecordingKeepsExpiries(g: Graph, s: State, node: string, written: Written, found: seq<int>, stamp: Stamp)
    requires node in g.nodes && ExpiriesOf(g.nodes[node], written) == Some(found) && ExpiriesAscend(s)
    ensures ExpiriesAscend(Recorded(g, s, node, written, found, stamp))
  {
    FoundAscends(g.nodes[node], written);
    PresentedAscends(s, node, found, stamp.at);
  }

  lemma RecordingKeepsMaps(g: Graph, w: World, node: string, written: Written, found: seq<int>, skip: int, after: World)
    requires MapsCurrent(g, w, skip) && MayWrite(g, node, written, skip)
    requires after.state == Recorded(g, w.state, node, written, found, w.step.stamp)
    requires after.step.dirty == w.step.dirty + ScheduledAt(g, w.state, node, RecordOf(w.state, node), written)
    ensures MapsCurrent(g, after, skip)
  {
    forall i: nat | IsMap(g, i) && Keeps(g, after.state, i) && i != skip && i !in after.step.dirty
      ensures MapCurrent(g, after.state, i)
    {
      assert !Schedules(g, w.state, i, node, RecordOf(w.state, node), written);
      RecordingKeepsMap(g, w.state, node, written, found, w.step.stamp, i);
    }
  }

  lemma SameBuffersOwed(g: Graph, s: State, after: State)
    requires BuffersOwed(g, s) && after.history == s.history
    requires forall i: nat, j: nat {:trigger Key(OfOperator(i), j)} :: BufferOf(after, Key(OfOperator(i), j)) == BufferOf(s, Key(OfOperator(i), j))
    ensures BuffersOwed(g, after)
  {
    forall i: nat, j: nat | i < |g.operators| && j < |g.operators[i].edges| && g.operators[i].edges[j].mode.Every?
      ensures BufferOf(after, Key(OfOperator(i), j)) == LogAt(Untaken(after, i), g.operators[i].edges[j].node)
    {
      assert BufferOf(s, Key(OfOperator(i), j)) == LogAt(Untaken(s, i), g.operators[i].edges[j].node);
    }
  }

  lemma WakeKeeps(g: Graph, w: World, node: string, skip: int)
    requires Inv(g, w, skip) && Wake(g, w, node).Ok?
    ensures Inv(g, Wake(g, w, node).value, skip)
  {
    var s := w.state;
    var after := Wake(g, w, node).value;
    SchedulingSpendsNothing(g, w.step, WatchersOf(g, s, node));
    PresentedAscends(s, node, if node in s.expiries then s.expiries[node] else [], w.step.stamp.at);
    assert MapsCurrent(g, after, skip) by {
      forall i: nat | IsMap(g, i) && Keeps(g, after.state, i) && i != skip && i !in after.step.dirty
        ensures MapCurrent(g, after.state, i)
      {
        assert MapCurrent(g, s, i);
        SameRecordsSameMap(g, s, after.state, i);
      }
    }
    assert Drained(g, after, skip) by {
      forall i: nat | IsFold(g, i) && Keeps(g, after.state, i) && i != skip && i !in after.step.dirty
        ensures NothingOwed(g, after.state, i)
      {
        assert NothingOwed(g, s, i);
      }
    }
    SameBuffersOwed(g, s, after.state);
  }

  lemma SameRecordsSameMap(g: Graph, s: State, after: State, i: nat)
    requires IsMap(g, i) && MapCurrent(g, s, i) && after.records == s.records
    ensures MapCurrent(g, after, i)
  {
    var op := g.operators[i];
    assert forall j: nat :: j < |op.edges| ==> BlockedAt(g, after, i, j) == BlockedAt(g, s, i, j) && FailedAt(g, after, i, j) == FailedAt(g, s, i, j);
    if ReadsAllLatest(op) {
      assert MapInputs(g, after, i) == MapInputs(g, s, i);
    }
  }
}
