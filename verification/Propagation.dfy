/** Running scheduled operators until none is left: why that ends, and how often each operator runs. */
module Propagation {
  import opened Basics
  import opened DataValues
  import opened Graphs
  import opened Steps

  /** A step that has not passed the bound, over operators of `g`. */
  ghost predicate Bounded(g: Graph, step: Step) {
    && (forall i :: i in step.dirty ==> IsOperator(g, i))
    && (forall i :: i in step.reentries ==> step.reentries[i] <= CYCLE_BOUND)
  }

  /** How many more times operator `i` may run in this step. */
  function Potential(step: Step, i: nat): int {
    CYCLE_BOUND
    - (if i in step.reentries then step.reentries[i] else 0)
    + (if i in step.dirty || i !in step.reentries then 1 else 0)
  }

  function TotalPotential(step: Step, n: nat): int {
    if n == 0 then 0 else TotalPotential(step, n - 1) + Potential(step, n - 1)
  }

  lemma {:induction false} TotalOfEqualPotentials(before: Step, after: Step, n: nat)
    requires forall i: nat :: i < n ==> Potential(after, i) == Potential(before, i)
    ensures TotalPotential(after, n) == TotalPotential(before, n)
  {
    if n > 0 { TotalOfEqualPotentials(before, after, n - 1); }
  }

  lemma {:induction false} TotalOfOneLower(before: Step, after: Step, n: nat, lowered: nat)
    requires forall i: nat :: i < n && i != lowered ==> Potential(after, i) == Potential(before, i)
    requires lowered < n && Potential(after, lowered) == Potential(before, lowered) - 1
    ensures TotalPotential(after, n) == TotalPotential(before, n) - 1
  {
    if lowered == n - 1 {
      TotalOfEqualPotentials(before, after, n - 1);
    } else {
      TotalOfOneLower(before, after, n - 1, lowered);
    }
  }

  lemma {:induction false} TotalNotNegative(g: Graph, step: Step, n: nat)
    requires Bounded(g, step)
    ensures 0 <= TotalPotential(step, n)
  {
    if n > 0 { TotalNotNegative(g, step, n - 1); }
  }

  /** Scheduling spends nothing: a pending evaluation was a re-entry, or the first run, still unspent. */
  ghost predicate SamePotentials(before: Step, after: Step) {
    forall i: nat :: Potential(after, i) == Potential(before, i)
  }

  lemma SchedulingSpendsNothing(g: Graph, step: Step, ops: set<nat>)
    requires Bounded(g, step) && (forall i :: i in ops ==> IsOperator(g, i)) && ScheduleAll(step, ops).Ok?
    ensures Bounded(g, ScheduleAll(step, ops).value)
    ensures SamePotentials(step, ScheduleAll(step, ops).value)
  {
  }

  lemma WriteSpendsNothing(g: Graph, w: World, node: string, written: Written, derived: bool)
    requires Bounded(g, w.step) && node in g.nodes && Write(g, w, node, written, derived).Ok?
    ensures Bounded(g, Write(g, w, node, written, derived).value.step)
    ensures SamePotentials(w.step, Write(g, w, node, written, derived).value.step)
  {
    var ops := ScheduledAt(g, w.state, node, RecordOf(w.state, node), written);
    if ScheduleAll(w.step, ops).Ok? {
      SchedulingSpendsNothing(g, w.step, ops);
    }
  }

  lemma {:induction false} EmittingSpendsNothing(g: Graph, w: World, i: nat, emits: seq<Emit>)
    requires Bounded(g, w.step) && IsFold(g, i) && (forall n :: n in g.operators[i].emits ==> n in g.nodes)
    requires EmitAll(g, w, i, emits).Ok?
    ensures Bounded(g, EmitAll(g, w, i, emits).value.step)
    ensures SamePotentials(w.step, EmitAll(g, w, i, emits).value.step)
    decreases |emits|
  {
    if emits != [] {
      WriteSpendsNothing(g, w, emits[0].node, Present(emits[0].value, None, None), true);
      EmittingSpendsNothing(g, Write(g, w, emits[0].node, Present(emits[0].value, None, None), true).value, i, emits[1..]);
    }
  }

  lemma EvaluatingSpendsNothing(g: Graph, w: World, i: nat)
    requires WellFormed(g) && Bounded(g, w.step) && IsOperator(g, i) && Evaluate(g, w, i).Ok?
    ensures Bounded(g, Evaluate(g, w, i).value.step)
    ensures SamePotentials(w.step, Evaluate(g, w, i).value.step)
  {
    var op := g.operators[i];
    if op.MapOp? {
      if IsBlocked(g, w.state, i) {
        WriteSpendsNothing(g, w, op.output, Blocked(IsFailed(g, w.state, i), None), true);
      } else {
        var value := op.compute(MapInputs(g, w.state, i)).value;
        WriteSpendsNothing(g, w.(state := TakenByMap(w.state, i)), op.output, Present(value, None, None), true);
      }
    } else {
      var next := Folded(op, ValueOf(RecordOf(w.state, op.output)), FoldInputs(g, w, i), w.step.stamp).value;
      var taken := w.(state := Taken(g, w, i));
      WriteSpendsNothing(g, taken, op.output, Present(next.state, None, None), true);
      var after := Write(g, taken, op.output, Present(next.state, None, None), true).value;
      EmittingSpendsNothing(g, after, i, next.emit);
    }
  }

  lemma {:induction false} WakingSpendsNothing(g: Graph, w: World, nodes: seq<string>)
    requires Bounded(g, w.step) && WakeAll(g, w, nodes).Ok?
    ensures Bounded(g, WakeAll(g, w, nodes).value.step)
    ensures SamePotentials(w.step, WakeAll(g, w, nodes).value.step)
    decreases |nodes|
  {
    if nodes != [] {
      SchedulingSpendsNothing(g, w.step, WatchersOf(g, w.state, nodes[0]));
      WakingSpendsNothing(g, Wake(g, w, nodes[0]).value, nodes[1..]);
    }
  }

  lemma {:induction false} WritingSpendsNothing(g: Graph, w: World, writes: seq<Pending>)
    requires Bounded(g, w.step) && (forall k :: 0 <= k < |writes| ==> writes[k].node in g.nodes) && WriteAll(g, w, writes).Ok?
    ensures Bounded(g, WriteAll(g, w, writes).value.step)
    ensures SamePotentials(w.step, WriteAll(g, w, writes).value.step)
    decreases |writes|
  {
    if writes != [] {
      WriteSpendsNothing(g, w, writes[0].node, writes[0].written, false);
      WritingSpendsNothing(g, Write(g, w, writes[0].node, writes[0].written, false).value, writes[1..]);
    }
  }

  // ----- The loop -----

  /** The first operator in evaluation order that is scheduled. */
  function FirstScheduled(dirty: set<nat>, from: nat, n: nat): (first: nat)
    requires exists i :: i in dirty && from <= i < n
    ensures first in dirty && from <= first < n
    ensures forall i :: i in dirty && from <= i ==> first <= i
    decreases n - from
  {
    if from in dirty then from else FirstScheduled(dirty, from + 1, n)
  }

  function NextOperator(g: Graph, step: Step): (first: nat)
    requires Bounded(g, step) && step.dirty != {}
    ensures first in step.dirty && IsOperator(g, first)
    ensures forall i :: i in step.dirty ==> first <= i
  {
    assert exists i :: i in step.dirty && 0 <= i < |g.operators| by {
      var i :| i in step.dirty;
      assert IsOperator(g, i);
    }
    FirstScheduled(step.dirty, 0, |g.operators|)
  }

  /** `step` as operator `i` starts: no longer scheduled, and evaluated from now on. */
  function Begun(step: Step, i: nat): Step {
    step.(dirty := step.dirty - {i}, reentries := if i in step.reentries then step.reentries else step.reentries[i := 0])
  }

  lemma BeginningSpendsOne(g: Graph, step: Step, i: nat)
    requires Bounded(g, step) && i in step.dirty
    ensures Bounded(g, Begun(step, i))
    ensures Potential(Begun(step, i), i) == Potential(step, i) - 1
    ensures forall k: nat :: k != i ==> Potential(Begun(step, i), k) == Potential(step, k)
    ensures TotalPotential(Begun(step, i), |g.operators|) == TotalPotential(step, |g.operators|) - 1
  {
    assert IsOperator(g, i);
    TotalOfOneLower(step, Begun(step, i), |g.operators|, i);
  }

  /** What one round of the loop leaves, with less left to run. */
  lemma RoundSpendsOne(g: Graph, w: World)
    requires WellFormed(g) && Bounded(g, w.step) && w.step.dirty != {}
    requires Evaluate(g, w.(step := Begun(w.step, NextOperator(g, w.step))), NextOperator(g, w.step)).Ok?
    ensures var i := NextOperator(g, w.step);
            var next := Evaluate(g, w.(step := Begun(w.step, i)), i).value;
            && Bounded(g, next.step)
            && Potential(next.step, i) == Potential(w.step, i) - 1
            && (forall k: nat :: k != i ==> Potential(next.step, k) == Potential(w.step, k))
            && 0 <= TotalPotential(next.step, |g.operators|) == TotalPotential(w.step, |g.operators|) - 1
  {
    var i := NextOperator(g, w.step);
    var began := w.(step := Begun(w.step, i));
    BeginningSpendsOne(g, w.step, i);
    EvaluatingSpendsNothing(g, began, i);
    var next := Evaluate(g, began, i).value;
    TotalOfEqualPotentials(began.step, next.step, |g.operators|);
    TotalNotNegative(g, next.step, |g.operators|);
  }

  /** Rounds, one after another, until nothing is scheduled or one fails. */
  function Drain(g: Graph, w: World): Outcome
    requires WellFormed(g) && Bounded(g, w.step)
    decreases TotalPotential(w.step, |g.operators|)
  {
    if w.step.dirty == {} then Ok(w)
    else
      var i := NextOperator(g, w.step);
      var next := Evaluate(g, w.(step := Begun(w.step, i)), i);
      if next.Err? then next
      else
        RoundSpendsOne(g, w);
        Drain(g, next.value)
  }

  /** The operators `Drain` evaluates, in order, up to the end of the step or the failure that ends it. */
  function Evaluated(g: Graph, w: World): seq<nat>
    requires WellFormed(g) && Bounded(g, w.step)
    decreases TotalPotential(w.step, |g.operators|)
  {
    if w.step.dirty == {} then []
    else
      var i := NextOperator(g, w.step);
      var next := Evaluate(g, w.(step := Begun(w.step, i)), i);
      if next.Err? then [i]
      else
        RoundSpendsOne(g, w);
        [i] + Evaluated(g, next.value)
  }

  function FreshStep(stamp: Stamp): Step {
    Step(stamp, {}, map[], [])
  }

  predicate Known(g: Graph, writes: seq<Pending>) {
    forall k :: 0 <= k < |writes| ==> writes[k].node in g.nodes
  }

  /** What the runner writes: only nodes no operator owns. */
  ghost predicate Writable(g: Graph, writes: seq<Pending>) {
    forall k :: 0 <= k < |writes| ==> External(g, writes[k].node)
  }

  /** The world once a step's wakes and writes are applied and its operators scheduled. */
  function Pushed(g: Graph, s: State, writes: seq<Pending>, stamp: Stamp, wakes: seq<string>): Outcome
    requires Known(g, writes)
  {
    var woken :- WakeAll(g, World(s, FreshStep(stamp)), wakes);
    WriteAll(g, woken, writes)
  }

  lemma PushingSpendsNothing(g: Graph, s: State, writes: seq<Pending>, stamp: Stamp, wakes: seq<string>)
    requires Known(g, writes) && Pushed(g, s, writes, stamp, wakes).Ok?
    ensures Bounded(g, Pushed(g, s, writes, stamp, wakes).value.step)
    ensures SamePotentials(FreshStep(stamp), Pushed(g, s, writes, stamp, wakes).value.step)
  {
    var w := World(s, FreshStep(stamp));
    WakingSpendsNothing(g, w, wakes);
    WritingSpendsNothing(g, WakeAll(g, w, wakes).value, writes);
  }

  /** One step: its wakes, its writes, then every operator they schedule; an error commits nothing. */
  function Run(g: Graph, s: State, writes: seq<Pending>, stamp: Stamp, wakes: seq<string>): Outcome
    requires WellFormed(g) && Known(g, writes)
  {
    var pushed :- Pushed(g, s, writes, stamp, wakes);
    PushingSpendsNothing(g, s, writes, stamp, wakes);
    Drain(g, pushed)
  }

  /** The operators one step evaluates. */
  function RunTrace(g: Graph, s: State, writes: seq<Pending>, stamp: Stamp, wakes: seq<string>): seq<nat>
    requires WellFormed(g) && Known(g, writes)
  {
    var pushed := Pushed(g, s, writes, stamp, wakes);
    if pushed.Err? then []
    else
      PushingSpendsNothing(g, s, writes, stamp, wakes);
      Evaluated(g, pushed.value)
  }

  // ----- How often each operator runs -----

  function Count(trace: seq<nat>, i: nat): nat {
    if trace == [] then 0 else (if trace[0] == i then 1 else 0) + Count(trace[1..], i)
  }

  lemma {:induction false} DrainSpends(g: Graph, w: World, i: nat)
    requires WellFormed(g) && Bounded(g, w.step)
    ensures Count(Evaluated(g, w), i) <= Potential(w.step, i)
    decreases TotalPotential(w.step, |g.operators|)
  {
    if w.step.dirty != {} {
      var first := NextOperator(g, w.step);
      var next := Evaluate(g, w.(step := Begun(w.step, first)), first);
      if next.Ok? {
        RoundSpendsOne(g, w);
        DrainSpends(g, next.value, i);
        assert Evaluated(g, w) == [first] + Evaluated(g, next.value);
        assert Evaluated(g, w)[1..] == Evaluated(g, next.value);
      } else {
        assert Evaluated(g, w) == [first];
      }
    }
  }

  /** However operators feed back into each other, no step runs any one of them more than 65 times. */
  lemma NoOperatorRunsPastTheBound(g: Graph, s: State, writes: seq<Pending>, stamp: Stamp, wakes: seq<string>, i: nat)
    requires WellFormed(g) && Known(g, writes)
    ensures Count(RunTrace(g, s, writes, stamp, wakes), i) <= CYCLE_BOUND + 1
  {
    if Pushed(g, s, writes, stamp, wakes).Ok? {
      PushingSpendsNothing(g, s, writes, stamp, wakes);
      DrainSpends(g, Pushed(g, s, writes, stamp, wakes).value, i);
    }
  }
}
