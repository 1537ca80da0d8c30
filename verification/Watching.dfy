/** Watch reads keep up: in every reachable state a kept fold has seen the last write of each node it watches. */
module Watching {
  import opened Basics
  import opened DataValues
  import opened Graphs
  import opened Steps
  import opened Propagation
  import opened EngineRuns

  predicate IsWatch(g: Graph, i: nat, j: nat) {
    IsFold(g, i) && j < |g.operators[i].edges| && g.operators[i].edges[j].mode.Watch?
  }

  function NodeAt(g: Graph, i: nat, j: nat): string
    requires IsWatch(g, i, j)
  {
    g.operators[i].edges[j].node
  }

  /** Read `j` of fold `i` has been handed the node as it was last written. */
  ghost predicate UpToDate(g: Graph, s: State, i: nat, j: nat)
    requires IsWatch(g, i, j)
  {
    NodeAt(g, i, j) in s.lastWrite ==>
      Key(OfOperator(i), j) in s.watched && s.watched[Key(OfOperator(i), j)] == s.lastWrite[NodeAt(g, i, j)]
  }

  /** No read has been handed a write its node has not had. */
  ghost predicate NotAhead(g: Graph, s: State, i: nat, j: nat)
    requires IsWatch(g, i, j)
  {
    Key(OfOperator(i), j) in s.watched ==>
      NodeAt(g, i, j) in s.lastWrite && s.watched[Key(OfOperator(i), j)] <= s.lastWrite[NodeAt(g, i, j)]
  }

  /** Every watch read is up to date, but those of `skip` and of folds about to run. */
  ghost predicate Watches(g: Graph, w: World, skip: int) {
    && (forall n :: n in w.state.lastWrite ==> 0 < w.state.lastWrite[n] <= w.state.writeSeq)
    && (forall i: nat, j: nat {:trigger IsWatch(g, i, j)} :: IsWatch(g, i, j) ==> NotAhead(g, w.state, i, j))
    && forall i: nat, j: nat {:trigger IsWatch(g, i, j)} ::
         IsWatch(g, i, j) && Keeps(g, w.state, i) && i != skip && i !in w.step.dirty ==> UpToDate(g, w.state, i, j)
  }

  /** `after` is `w` once `node` counts as written again, and whoever watches it is scheduled. */
  ghost predicate Touches(g: Graph, w: World, node: string, after: World) {
    && after.state.lastWrite == w.state.lastWrite[node := w.state.writeSeq + 1] && after.state.writeSeq == w.state.writeSeq + 1
    && after.state.watched == w.state.watched && after.state.kept == w.state.kept
    && w.step.dirty <= after.step.dirty
    && forall i: nat, j: nat {:trigger IsWatch(g, i, j)} :: IsWatch(g, i, j) && Keeps(g, w.state, i) && NodeAt(g, i, j) == node ==> i in after.step.dirty
  }

  lemma TouchingKeeps(g: Graph, w: World, node: string, after: World, skip: int)
    requires Watches(g, w, skip) && Touches(g, w, node, after)
    ensures Watches(g, after, skip)
  {
    forall i: nat, j: nat | IsWatch(g, i, j) ensures NotAhead(g, after.state, i, j) { assert NotAhead(g, w.state, i, j); }
    forall i: nat, j: nat | IsWatch(g, i, j) && Keeps(g, after.state, i) && i != skip && i !in after.step.dirty
      ensures UpToDate(g, after.state, i, j)
    {
      assert UpToDate(g, w.state, i, j) && NodeAt(g, i, j) != node;
    }
  }

  lemma WriteKeepsWatches(g: Graph, w: World, node: string, written: Written, derived: bool, skip: int)
    requires node in g.nodes && Watches(g, w, skip) && Write(g, w, node, written, derived).Ok?
    ensures Watches(g, Write(g, w, node, written, derived).value, skip)
  {
    var after := Write(g, w, node, written, derived).value;
    if !(g.nodes[node].coalesces && RecordOf(w.state, node) == Held(written)) {
      forall i: nat, j: nat | IsWatch(g, i, j) && Keeps(g, w.state, i) && NodeAt(g, i, j) == node ensures i in after.step.dirty {
        assert ScheduledBy(g.operators[i].edges[j], node, RecordOf(w.state, node), written);
        assert i in ScheduledAt(g, w.state, node, RecordOf(w.state, node), written);
      }
      TouchingKeeps(g, w, node, after, skip);
    }
  }

  lemma WakeKeepsWatches(g: Graph, w: World, node: string)
    requires Watches(g, w, -1) && Wake(g, w, node).Ok?
    ensures Watches(g, Wake(g, w, node).value, -1)
  {
    var after := Wake(g, w, node).value;
    forall i: nat, j: nat | IsWatch(g, i, j) && Keeps(g, w.state, i) && NodeAt(g, i, j) == node ensures i in after.step.dirty {
      assert g.operators[i].edges[j] == Edge(node, Watch);
      assert i in WatchersOf(g, w.state, node);
    }
    TouchingKeeps(g, w, node, after, -1);
  }

  // ----- Taking -----

  /** Only the reads of fold `i` below `n` are brought up to date. */
  lemma {:induction false} SeenUpToDate(g: Graph, s: State, i: nat, n: nat)
    requires IsFold(g, i) && n <= |g.operators[i].edges|
    requires forall m :: m in s.lastWrite ==> s.lastWrite[m] > 0
    requires forall j: nat :: IsWatch(g, i, j) ==> NotAhead(g, s, i, j)
    ensures forall j: nat :: j < n && IsWatch(g, i, j) ==> UpToDate(g, s.(watched := SeenBelow(g, s, i, n)), i, j)
    ensures forall j: nat :: IsWatch(g, i, j) ==> NotAhead(g, s.(watched := SeenBelow(g, s, i, n)), i, j)
    ensures forall key: Key :: key.reader != OfOperator(i) || key.input >= n ==>
              (key in SeenBelow(g, s, i, n) <==> key in s.watched) && (key in s.watched ==> SeenBelow(g, s, i, n)[key] == s.watched[key])
  {
    if n > 0 {
      SeenUpToDate(g, s, i, n - 1);
      if IsWatch(g, i, n - 1) { assert NotAhead(g, s, i, n - 1); }
    }
  }

  lemma TakingKeepsWatches(g: Graph, w: World, i: nat)
    requires IsFold(g, i) && Watches(g, w, i)
    ensures Watches(g, w.(state := Taken(g, w, i)), -1)
  {
    var s, after, n := w.state, Taken(g, w, i), |g.operators[i].edges|;
    SeenUpToDate(g, s, i, n);
    forall k: nat, j: nat | IsWatch(g, k, j)
      ensures NotAhead(g, after, k, j) && (k == i ==> UpToDate(g, after, k, j))
    {
      assert NotAhead(g, s, k, j);
      assert k == i ==> NotAhead(g, s.(watched := SeenBelow(g, s, i, n)), k, j);
      assert k == i ==> UpToDate(g, s.(watched := SeenBelow(g, s, i, n)), k, j);
      assert Key(OfOperator(k), j).reader == OfOperator(i) <==> k == i;
    }
    forall k: nat, j: nat | IsWatch(g, k, j) && Keeps(g, after, k) && k !in w.step.dirty ensures UpToDate(g, after, k, j) {
      if k != i {
        assert UpToDate(g, s, k, j);
        assert Key(OfOperator(k), j).reader != OfOperator(i);
      }
    }
  }

  lemma {:induction false} EmittingKeepsWatches(g: Graph, w: World, i: nat, emits: seq<Emit>)
    requires WellFormed(g) && IsFold(g, i) && Watches(g, w, -1) && EmitAll(g, w, i, emits).Ok?
    ensures Watches(g, EmitAll(g, w, i, emits).value, -1)
    decreases |emits|
  {
    if emits != [] {
      var written := Present(emits[0].value, None, None);
      WriteKeepsWatches(g, w, emits[0].node, written, true, -1);
      EmittingKeepsWatches(g, Write(g, w, emits[0].node, written, true).value, i, emits[1..]);
    }
  }

  lemma EvaluatingMapKeepsWatches(g: Graph, w: World, i: nat)
    requires WellFormed(g) && IsMap(g, i) && Watches(g, w, i) && EvaluateMap(g, w, i).Ok?
    ensures Watches(g, EvaluateMap(g, w, i).value, -1)
  {
    var op := g.operators[i];
    assert forall j: nat :: !IsWatch(g, i, j);
    assert Watches(g, w, -1);
    if IsBlocked(g, w.state, i) {
      WriteKeepsWatches(g, w, op.output, Blocked(IsFailed(g, w.state, i), None), true, -1);
    } else {
      var taken := w.(state := TakenByMap(w.state, i));
      SameWatches(g, w, taken, -1);
      WriteKeepsWatches(g, taken, op.output, Present(op.compute(MapInputs(g, w.state, i)).value, None, None), true, -1);
    }
  }

  lemma SameWatches(g: Graph, w: World, after: World, skip: int)
    requires Watches(g, w, skip) && after.step.dirty == w.step.dirty && after.state.writeSeq == w.state.writeSeq
    requires after.state.lastWrite == w.state.lastWrite && after.state.watched == w.state.watched
    requires forall i: nat :: Keeps(g, after.state, i) ==> Keeps(g, w.state, i)
    ensures Watches(g, after, skip)
  {
    forall i: nat, j: nat | IsWatch(g, i, j) ensures NotAhead(g, after.state, i, j) { assert NotAhead(g, w.state, i, j); }
    forall i: nat, j: nat | IsWatch(g, i, j) && Keeps(g, after.state, i) && i != skip && i !in after.step.dirty
      ensures UpToDate(g, after.state, i, j)
    {
      assert UpToDate(g, w.state, i, j);
    }
  }

  lemma EvaluatingFoldKeepsWatches(g: Graph, w: World, i: nat)
    requires WellFormed(g) && IsFold(g, i) && Watches(g, w, i) && EvaluateFold(g, w, i).Ok?
    ensures Watches(g, EvaluateFold(g, w, i).value, -1)
  {
    var op := g.operators[i];
    var next := Folded(op, ValueOf(RecordOf(w.state, op.output)), FoldInputs(g, w, i), w.step.stamp).value;
    var taken := w.(state := Taken(g, w, i));
    TakingKeepsWatches(g, w, i);
    WriteKeepsWatches(g, taken, op.output, Present(next.state, None, None), true, -1);
    EmittingKeepsWatches(g, Write(g, taken, op.output, Present(next.state, None, None), true).value, i, next.emit);
  }

  // ----- Steps and runs -----

  lemma BeginningKeepsWatches(g: Graph, w: World, i: nat)
    requires Watches(g, w, -1)
    ensures Watches(g, w.(step := Begun(w.step, i)), i)
  {
  }

  lemma {:induction false} DrainKeepsWatches(g: Graph, w: World)
    requires WellFormed(g) && Bounded(g, w.step) && Watches(g, w, -1) && Drain(g, w).Ok?
    ensures Watches(g, Drain(g, w).value, -1) && Drain(g, w).value.step.dirty == {}
    decreases TotalPotential(w.step, |g.operators|)
  {
    if w.step.dirty != {} {
      var i := NextOperator(g, w.step);
      var began := w.(step := Begun(w.step, i));
      RoundSpendsOne(g, w);
      BeginningKeepsWatches(g, w, i);
      if g.operators[i].MapOp? { EvaluatingMapKeepsWatches(g, began, i); } else { EvaluatingFoldKeepsWatches(g, began, i); }
      DrainKeepsWatches(g, Evaluate(g, began, i).value);
    }
  }

  lemma {:induction false} WakingKeepsWatches(g: Graph, w: World, nodes: seq<string>)
    requires Watches(g, w, -1) && WakeAll(g, w, nodes).Ok?
    ensures Watches(g, WakeAll(g, w, nodes).value, -1)
    decreases |nodes|
  {
    if nodes != [] {
      WakeKeepsWatches(g, w, nodes[0]);
      WakingKeepsWatches(g, Wake(g, w, nodes[0]).value, nodes[1..]);
    }
  }

  lemma {:induction false} WritingKeepsWatches(g: Graph, w: World, writes: seq<Pending>)
    requires Known(g, writes) && Watches(g, w, -1) && WriteAll(g, w, writes).Ok?
    ensures Watches(g, WriteAll(g, w, writes).value, -1)
    decreases |writes|
  {
    if writes != [] {
      WriteKeepsWatches(g, w, writes[0].node, writes[0].written, false, -1);
      WritingKeepsWatches(g, Write(g, w, writes[0].node, writes[0].written, false).value, writes[1..]);
    }
  }

  /** Between steps every watch read is up to date. */
  ghost predicate AllUpToDate(g: Graph, s: State) {
    Watches(g, World(s, FreshStep(Stamp(0, 0))), -1)
  }

  lemma StepsKeepWatches(g: Graph, s: State, writes: seq<Pending>, stamp: Stamp, wakes: seq<string>)
    requires WellFormed(g) && Known(g, writes) && AllUpToDate(g, s) && Run(g, s, writes, stamp, wakes).Ok?
    ensures AllUpToDate(g, Run(g, s, writes, stamp, wakes).value.state)
  {
    var from := World(s, FreshStep(stamp));
    SameWatches(g, World(s, FreshStep(Stamp(0, 0))), from, -1);
    WakingKeepsWatches(g, from, wakes);
    WritingKeepsWatches(g, WakeAll(g, from, wakes).value, writes);
    PushingSpendsNothing(g, s, writes, stamp, wakes);
    var after := Run(g, s, writes, stamp, wakes).value;
    DrainKeepsWatches(g, Pushed(g, s, writes, stamp, wakes).value);
    SameWatches(g, after, World(after.state, FreshStep(Stamp(0, 0))), -1);
  }

  lemma NextKeepsWatches(g: Graph, s: State, event: Event)
    requires WellFormed(g) && Allowed(g, s, event) && AllUpToDate(g, s)
    ensures AllUpToDate(g, Next(g, s, event))
  {
    match event
    case Stepped(writes, stamp, wakes) =>
      if Run(g, s, writes, stamp, wakes).Ok? { StepsKeepWatches(g, s, writes, stamp, wakes); }
    case KeptOnly(_) =>
      SameWatches(g, World(s, FreshStep(Stamp(0, 0))), World(Next(g, s, event), FreshStep(Stamp(0, 0))), -1);
    case EffectTook(_) =>
      SameWatches(g, World(s, FreshStep(Stamp(0, 0))), World(Next(g, s, event), FreshStep(Stamp(0, 0))), -1);
  }

  lemma {:induction false} ReachedWatches(g: Graph, s: State, events: seq<Event>, last: State)
    requires WellFormed(g) && AllUpToDate(g, s) && Reaches(g, s, events, last)
    ensures AllUpToDate(g, last)
    decreases |events|
  {
    if events != [] {
      NextKeepsWatches(g, s, events[0]);
      ReachedWatches(g, Next(g, s, events[0]), events[1..], last);
    }
  }

  /**
   * In every reachable state a kept fold has been handed the record of each node it watches as of the node's
   * last write, or of the last time an expiry of it was seen to pass.
   */
  lemma FoldsSeeEveryWatchedWrite(g: Graph, s: State, i: nat, j: nat)
    requires WellFormed(g) && Creatable(g) && Reachable(g, s) && IsWatch(g, i, j) && Keeps(g, s, i)
    ensures UpToDate(g, s, i, j) && NotAhead(g, s, i, j)
  {
    var events :| Reaches(g, Initial(g), events, s);
    ReachedWatches(g, Initial(g), events, s);
  }
}
