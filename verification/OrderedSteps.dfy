/** A graph whose every edge points forward runs each operator at most once a step. */
module OrderedSteps {
  import opened Basics
  import opened DataValues
  import opened Graphs
  import opened Steps
  import opened Propagation

  /** Every operator reads only nodes of operators before it, and none of its own. */
  ghost predicate PointsForward(ops: seq<Operator>) {
    forall i, j, k ::
      0 <= i < |ops| && 0 <= k < |ops| && 0 <= j < |ops[i].edges| ==>
      ops[i].edges[j].node in Outputs(ops[k]) ==> k < i
  }

  /** Everything scheduled is at `bound` or after, and everything evaluated is before it. */
  ghost predicate Ahead(step: Step, bound: nat) {
    && (forall i :: i in step.dirty ==> bound <= i)
    && (forall i :: i in step.reentries ==> i < bound)
  }

  ghost predicate Increasing(trace: seq<nat>) {
    forall a, b :: 0 <= a < b < |trace| ==> trace[a] < trace[b]
  }

  lemma WriteStaysAhead(g: Graph, w: World, i: nat, node: string, written: Written, derived: bool)
    requires WellFormed(g) && PointsForward(g.operators) && Owns(g, i, node) && Ahead(w.step, i + 1)
    ensures Write(g, w, node, written, derived) != Err(CycleBound)
    ensures Write(g, w, node, written, derived).Ok? ==> Ahead(Write(g, w, node, written, derived).value.step, i + 1)
  {
    var before := RecordOf(w.state, node);
    forall k | k in ScheduledAt(g, w.state, node, before, written) ensures i < k {
      var j: nat :| j < |g.operators[k].edges| && ScheduledBy(g.operators[k].edges[j], node, before, written);
      assert g.operators[k].edges[j].node in Outputs(g.operators[i]);
    }
  }

  lemma {:induction false} EmittingStaysAhead(g: Graph, w: World, i: nat, emits: seq<Emit>)
    requires WellFormed(g) && PointsForward(g.operators) && IsFold(g, i) && Ahead(w.step, i + 1)
    ensures EmitAll(g, w, i, emits) != Err(CycleBound)
    ensures EmitAll(g, w, i, emits).Ok? ==> Ahead(EmitAll(g, w, i, emits).value.step, i + 1)
    decreases |emits|
  {
    if emits != [] && emits[0].node in g.operators[i].emits {
      assert Owns(g, i, emits[0].node);
      var next := Write(g, w, emits[0].node, Present(emits[0].value, None, None), true);
      WriteStaysAhead(g, w, i, emits[0].node, Present(emits[0].value, None, None), true);
      if next.Ok? { EmittingStaysAhead(g, next.value, i, emits[1..]); }
    }
  }

  lemma EvaluatingStaysAhead(g: Graph, w: World, i: nat)
    requires WellFormed(g) && PointsForward(g.operators) && IsOperator(g, i) && Ahead(w.step, i + 1)
    ensures Evaluate(g, w, i) != Err(CycleBound)
    ensures Evaluate(g, w, i).Ok? ==> Ahead(Evaluate(g, w, i).value.step, i + 1)
  {
    var op := g.operators[i];
    assert Owns(g, i, op.output);
    if op.MapOp? {
      if IsBlocked(g, w.state, i) {
        WriteStaysAhead(g, w, i, op.output, Blocked(IsFailed(g, w.state, i), None), true);
      } else if op.compute(MapInputs(g, w.state, i)).Some? {
        WriteStaysAhead(g, w.(state := TakenByMap(w.state, i)), i, op.output,
                        Present(op.compute(MapInputs(g, w.state, i)).value, None, None), true);
      }
    } else {
      var folded := Folded(op, ValueOf(RecordOf(w.state, op.output)), FoldInputs(g, w, i), w.step.stamp);
      if folded.Some? {
        var taken := w.(state := Taken(g, w, i));
        var written := Present(folded.value.state, None, None);
        WriteStaysAhead(g, taken, i, op.output, written, true);
        if Write(g, taken, op.output, written, true).Ok? {
          EmittingStaysAhead(g, Write(g, taken, op.output, written, true).value, i, folded.value.emit);
        }
      }
    }
  }

  lemma {:induction false} DrainRunsEachOnce(g: Graph, w: World, bound: nat)
    requires WellFormed(g) && PointsForward(g.operators) && Bounded(g, w.step) && Ahead(w.step, bound)
    ensures Increasing(Evaluated(g, w)) && forall k :: 0 <= k < |Evaluated(g, w)| ==> bound <= Evaluated(g, w)[k]
    ensures Drain(g, w) != Err(CycleBound)
    decreases TotalPotential(w.step, |g.operators|)
  {
    if w.step.dirty != {} {
      var i := NextOperator(g, w.step);
      var began := w.(step := Begun(w.step, i));
      assert Ahead(began.step, i + 1);
      EvaluatingStaysAhead(g, began, i);
      var next := Evaluate(g, began, i);
      if next.Ok? {
        RoundSpendsOne(g, w);
        DrainRunsEachOnce(g, next.value, i + 1);
        assert Evaluated(g, w) == [i] + Evaluated(g, next.value);
      }
    }
  }

  lemma {:induction false} WakingEntersNothing(g: Graph, w: World, nodes: seq<string>)
    requires w.step.reentries == map[]
    ensures WakeAll(g, w, nodes) != Err(CycleBound)
    ensures WakeAll(g, w, nodes).Ok? ==> WakeAll(g, w, nodes).value.step.reentries == map[]
    decreases |nodes|
  {
    if nodes != [] && Wake(g, w, nodes[0]).Ok? {
      WakingEntersNothing(g, Wake(g, w, nodes[0]).value, nodes[1..]);
    }
  }

  lemma {:induction false} WritingEntersNothing(g: Graph, w: World, writes: seq<Pending>)
    requires w.step.reentries == map[] && forall k :: 0 <= k < |writes| ==> writes[k].node in g.nodes
    ensures WriteAll(g, w, writes) != Err(CycleBound)
    ensures WriteAll(g, w, writes).Ok? ==> WriteAll(g, w, writes).value.step.reentries == map[]
    decreases |writes|
  {
    if writes != [] && Write(g, w, writes[0].node, writes[0].written, false).Ok? {
      WritingEntersNothing(g, Write(g, w, writes[0].node, writes[0].written, false).value, writes[1..]);
    }
  }

  lemma {:induction false} IncreasingCountsOnce(trace: seq<nat>, i: nat)
    requires Increasing(trace)
    ensures Count(trace, i) <= 1
    ensures i !in trace ==> Count(trace, i) == 0
  {
    if trace != [] {
      IncreasingCountsOnce(trace[1..], i);
      assert trace[0] !in trace[1..];
    }
  }

  /**
   * With every edge pointing forward, a step runs its operators in evaluation order, each at most once,
   * however many writes it takes, and never fails for passing the cycle bound.
   */
  lemma ForwardStepsRunEachOnce(g: Graph, s: State, writes: seq<Pending>, stamp: Stamp, wakes: seq<string>, i: nat)
    requires WellFormed(g) && PointsForward(g.operators) && Known(g, writes)
    ensures Increasing(RunTrace(g, s, writes, stamp, wakes)) && Count(RunTrace(g, s, writes, stamp, wakes), i) <= 1
    ensures Run(g, s, writes, stamp, wakes) != Err(CycleBound)
  {
    var w := World(s, FreshStep(stamp));
    WakingEntersNothing(g, w, wakes);
    if WakeAll(g, w, wakes).Ok? {
      WritingEntersNothing(g, WakeAll(g, w, wakes).value, writes);
      if Pushed(g, s, writes, stamp, wakes).Ok? {
        PushingSpendsNothing(g, s, writes, stamp, wakes);
        DrainRunsEachOnce(g, Pushed(g, s, writes, stamp, wakes).value, 0);
      }
    }
    IncreasingCountsOnce(RunTrace(g, s, writes, stamp, wakes), i);
  }
}
