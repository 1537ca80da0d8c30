/** Wakes make progress: a step at `at` that wakes what is due leaves nothing due at `at`. */
module Expiring {
  import opened Basics
  import opened DataValues
  import opened Graphs
  import opened Steps
  import opened Propagation
  import opened Invariants
  import opened StepInvariants
  import opened EngineRuns

  /** Some expiry stored for `node` has passed by `at`. */
  predicate Lapsed(s: State, node: string, at: int) {
    node in s.expiries && exists k :: 0 <= k < |s.expiries[node]| && s.expiries[node][k] <= at
  }

  /** From `w` to `after`, in one step, no node newly holds a lapsed expiry and no reader is dropped. */
  ghost predicate NoneLapsed(w: World, after: World) {
    && after.step.stamp == w.step.stamp
    && after.state.kept == w.state.kept
    && forall n :: Lapsed(after.state, n, w.step.stamp.at) ==> Lapsed(w.state, n, w.step.stamp.at)
  }

  lemma {:induction false} AfterDropsLapsed(list: seq<int>, at: int)
    ensures forall x :: x in After(list, at) ==> x > at
  {
    if list != [] { AfterDropsLapsed(list[1..], at); }
  }

  lemma PresentingLapsesNone(s: State, after: State, node: string, list: seq<int>, at: int)
    requires after.expiries == Presented(s.expiries, node, list, at)
    ensures !Lapsed(after, node, at)
    ensures forall n :: Lapsed(after, n, at) ==> Lapsed(s, n, at)
  {
    AfterDropsLapsed(list, at);
    if node in after.expiries {
      forall k | 0 <= k < |after.expiries[node]| ensures after.expiries[node][k] > at {
        assert after.expiries[node][k] in After(list, at);
      }
    }
  }

  lemma WriteLapsesNone(g: Graph, w: World, node: string, written: Written, derived: bool)
    requires node in g.nodes && Write(g, w, node, written, derived).Ok?
    ensures NoneLapsed(w, Write(g, w, node, written, derived).value)
  {
    var after := Write(g, w, node, written, derived).value;
    if !(g.nodes[node].coalesces && RecordOf(w.state, node) == Held(written)) {
      PresentingLapsesNone(w.state, after.state, node, ExpiriesOf(g.nodes[node], written).value, w.step.stamp.at);
    }
  }

  lemma {:induction false} EmittingLapsesNone(g: Graph, w: World, i: nat, emits: seq<Emit>)
    requires WellFormed(g) && IsFold(g, i) && EmitAll(g, w, i, emits).Ok?
    ensures NoneLapsed(w, EmitAll(g, w, i, emits).value)
    decreases |emits|
  {
    if emits != [] {
      var written := Present(emits[0].value, None, None);
      WriteLapsesNone(g, w, emits[0].node, written, true);
      EmittingLapsesNone(g, Write(g, w, emits[0].node, written, true).value, i, emits[1..]);
    }
  }

  lemma EvaluatingLapsesNone(g: Graph, w: World, i: nat)
    requires WellFormed(g) && IsOperator(g, i) && Evaluate(g, w, i).Ok?
    ensures NoneLapsed(w, Evaluate(g, w, i).value)
  {
    var op := g.operators[i];
    if op.MapOp? {
      if IsBlocked(g, w.state, i) {
        WriteLapsesNone(g, w, op.output, Blocked(IsFailed(g, w.state, i), None), true);
      } else {
        var taken := w.(state := TakenByMap(w.state, i));
        WriteLapsesNone(g, taken, op.output, Present(op.compute(MapInputs(g, w.state, i)).value, None, None), true);
      }
    } else {
      var next := Folded(op, ValueOf(RecordOf(w.state, op.output)), FoldInputs(g, w, i), w.step.stamp).value;
      var taken := w.(state := Taken(g, w, i));
      WriteLapsesNone(g, taken, op.output, Present(next.state, None, None), true);
      EmittingLapsesNone(g, Write(g, taken, op.output, Present(next.state, None, None), true).value, i, next.emit);
    }
  }

  lemma {:induction false} DrainLapsesNone(g: Graph, w: World)
    requires WellFormed(g) && Bounded(g, w.step) && Drain(g, w).Ok?
    ensures NoneLapsed(w, Drain(g, w).value)
    decreases TotalPotential(w.step, |g.operators|)
  {
    if w.step.dirty != {} {
      var i := NextOperator(g, w.step);
      var began := w.(step := Begun(w.step, i));
      RoundSpendsOne(g, w);
      EvaluatingLapsesNone(g, began, i);
      DrainLapsesNone(g, Evaluate(g, began, i).value);
    }
  }

  lemma {:induction false} WakingLapsesNone(g: Graph, w: World, nodes: seq<string>)
    requires WakeAll(g, w, nodes).Ok?
    ensures NoneLapsed(w, WakeAll(g, w, nodes).value)
    ensures forall n :: n in nodes ==> !Lapsed(WakeAll(g, w, nodes).value.state, n, w.step.stamp.at)
    decreases |nodes|
  {
    if nodes != [] {
      var list := if nodes[0] in w.state.expiries then w.state.expiries[nodes[0]] else [];
      var next := Wake(g, w, nodes[0]).value;
      PresentingLapsesNone(w.state, next.state, nodes[0], list, w.step.stamp.at);
      WakingLapsesNone(g, next, nodes[1..]);
    }
  }

  lemma {:induction false} WritingLapsesNone(g: Graph, w: World, writes: seq<Pending>)
    requires Writable(g, writes) && WriteAll(g, w, writes).Ok?
    ensures NoneLapsed(w, WriteAll(g, w, writes).value)
    decreases |writes|
  {
    if writes != [] {
      WriteLapsesNone(g, w, writes[0].node, writes[0].written, false);
      WritingLapsesNone(g, Write(g, w, writes[0].node, writes[0].written, false).value, writes[1..]);
    }
  }

  /**
   * In every reachable state, a step that commits, having woken everything due at its time, leaves nothing due
   * at that time, though it writes nodes with expiries of their own; so the runner's loop cannot spin on one
   * expiry.
   */
  lemma WakingLeavesNothingDue(g: Graph, s: State, writes: seq<Pending>, stamp: Stamp, wakes: seq<string>)
    requires WellFormed(g) && Creatable(g) && Reachable(g, s) && Writable(g, writes)
    requires forall n :: n in Due(g, s, stamp.at) ==> n in wakes
    requires Run(g, s, writes, stamp, wakes).Ok?
    ensures Due(g, Run(g, s, writes, stamp, wakes).value.state, stamp.at) == {}
  {
    var w := World(s, FreshStep(stamp));
    var woken := WakeAll(g, w, wakes).value;
    ReachableSettled(g, s);
    WakingLapsesNone(g, w, wakes);
    WritingLapsesNone(g, woken, writes);
    PushingSpendsNothing(g, s, writes, stamp, wakes);
    DrainLapsesNone(g, Pushed(g, s, writes, stamp, wakes).value);
    NothingLapsedNothingDue(g, s, woken, Run(g, s, writes, stamp, wakes).value.state, stamp.at, wakes);
  }

  lemma NothingLapsedNothingDue(g: Graph, s: State, woken: World, after: State, at: int, wakes: seq<string>)
    requires ExpiriesAscend(s) && after.kept == s.kept
    requires forall n :: n in Due(g, s, at) ==> n in wakes
    requires forall n :: n in wakes ==> !Lapsed(woken.state, n, at)
    requires forall n :: Lapsed(after, n, at) ==> Lapsed(woken.state, n, at) && Lapsed(s, n, at)
    ensures Due(g, after, at) == {}
  {
    forall n | n in after.expiries ensures !IsDue(g, after, n, at) {
      assert IsDue(g, after, n, at) ==> Lapsed(after, n, at) && IsWatched(g, s, n);
      if IsWatched(g, s, n) && Lapsed(s, n, at) {
        LapsedIsFirst(s, n, at);
        assert n in Due(g, s, at);
      }
    }
  }

  lemma LapsedIsFirst(s: State, node: string, at: int)
    requires ExpiriesAscend(s)
    ensures Lapsed(s, node, at) <==> node in s.expiries && |s.expiries[node]| > 0 && s.expiries[node][0] <= at
  {
    if node in s.expiries && |s.expiries[node]| > 0 && s.expiries[node][0] <= at { assert Lapsed(s, node, at); }
    if Lapsed(s, node, at) {
      var k :| 0 <= k < |s.expiries[node]| && s.expiries[node][k] <= at;
      assert s.expiries[node][0] <= s.expiries[node][k];
    }
  }

  /** Each node's stored expiries ascend in every reachable state, so its next is the first of its list. */
  lemma StoredExpiriesAscend(g: Graph, s: State, node: string, at: int)
    requires WellFormed(g) && Creatable(g) && Reachable(g, s)
    ensures node in s.expiries ==> Ascending(s.expiries[node])
    ensures IsDue(g, s, node, at) <==> IsWatched(g, s, node) && Lapsed(s, node, at)
  {
    ReachableSettled(g, s);
    LapsedIsFirst(s, node, at);
  }
}
