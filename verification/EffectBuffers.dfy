/** What effects have left unread never influences a step: two states alike but for it stay alike. */
module EffectBuffers {
  import opened Basics
  import opened DataValues
  import opened Graphs
  import opened Steps
  import opened Propagation

  /** `b` is `a`, whatever effects have left unread in either. */
  ghost predicate Alike(a: State, b: State) {
    && b == a.(buffers := b.buffers)
    && b.buffers.Keys == a.buffers.Keys
    && forall key :: key in a.buffers && key.reader.OfOperator? ==> b.buffers[key] == a.buffers[key]
  }

  /** Two outcomes that fail alike, or commit the same step on states alike. */
  ghost predicate SameOutcome(a: Outcome, b: Outcome) {
    if a.Err? then b == a else b.Ok? && b.value.step == a.value.step && Alike(a.value.state, b.value.state)
  }

  lemma AlikeRecorded(g: Graph, a: State, b: State, node: string, written: Written, found: seq<int>, stamp: Stamp)
    requires Alike(a, b)
    ensures Alike(Recorded(g, a, node, written, found, stamp), Recorded(g, b, node, written, found, stamp))
  {
  }

  lemma AlikeScheduled(g: Graph, a: State, b: State, node: string, before: Record, written: Written)
    requires Alike(a, b)
    ensures ScheduledAt(g, b, node, before, written) == ScheduledAt(g, a, node, before, written)
  {
  }

  lemma AlikeWrite(g: Graph, a: World, b: World, node: string, written: Written, derived: bool)
    requires Alike(a.state, b.state) && b.step == a.step && node in g.nodes
    ensures SameOutcome(Write(g, a, node, written, derived), Write(g, b, node, written, derived))
  {
    var found := ExpiriesOf(g.nodes[node], written);
    AlikeScheduled(g, a.state, b.state, node, RecordOf(a.state, node), written);
    if found.Some? { AlikeRecorded(g, a.state, b.state, node, written, found.value, a.step.stamp); }
  }

  lemma AlikeWake(g: Graph, a: World, b: World, node: string)
    requires Alike(a.state, b.state) && b.step == a.step
    ensures SameOutcome(Wake(g, a, node), Wake(g, b, node))
  {
    assert WatchersOf(g, b.state, node) == WatchersOf(g, a.state, node);
  }

  lemma {:induction false} AlikeWakes(g: Graph, a: World, b: World, nodes: seq<string>)
    requires Alike(a.state, b.state) && b.step == a.step
    ensures SameOutcome(WakeAll(g, a, nodes), WakeAll(g, b, nodes))
    decreases |nodes|
  {
    if nodes != [] {
      AlikeWake(g, a, b, nodes[0]);
      var next := Wake(g, a, nodes[0]);
      if next.Ok? { AlikeWakes(g, next.value, Wake(g, b, nodes[0]).value, nodes[1..]); }
    }
  }

  lemma {:induction false} AlikeWrites(g: Graph, a: World, b: World, writes: seq<Pending>)
    requires Alike(a.state, b.state) && b.step == a.step && Known(g, writes)
    ensures SameOutcome(WriteAll(g, a, writes), WriteAll(g, b, writes))
    decreases |writes|
  {
    if writes != [] {
      AlikeWrite(g, a, b, writes[0].node, writes[0].written, false);
      var next := Write(g, a, writes[0].node, writes[0].written, false);
      if next.Ok? { AlikeWrites(g, next.value, Write(g, b, writes[0].node, writes[0].written, false).value, writes[1..]); }
    }
  }

  lemma {:induction false} AlikeGathered(g: Graph, a: State, b: State, i: nat, from: nat)
    requires Alike(a, b)
    ensures Gathered(g, b, OfOperator(i), from) == Gathered(g, a, OfOperator(i), from)
    decreases |EdgesOf(g, OfOperator(i))| - from
  {
    if from < |EdgesOf(g, OfOperator(i))| {
      AlikeGathered(g, a, b, i, from + 1);
      assert BufferOf(b, Key(OfOperator(i), from)) == BufferOf(a, Key(OfOperator(i), from));
    }
  }

  lemma {:induction false} AlikeWatched(g: Graph, a: State, b: State, i: nat, from: nat, stamp: Stamp)
    requires Alike(a, b) && IsOperator(g, i)
    ensures WatchedInputs(g, b, i, from, stamp) == WatchedInputs(g, a, i, from, stamp)
    decreases |g.operators[i].edges| - from
  {
    if from < |g.operators[i].edges| { AlikeWatched(g, a, b, i, from + 1, stamp); }
  }

  lemma {:induction false} AlikeSeen(g: Graph, a: State, b: State, i: nat, n: nat)
    requires Alike(a, b) && IsFold(g, i) && n <= |g.operators[i].edges|
    ensures SeenBelow(g, b, i, n) == SeenBelow(g, a, i, n)
  {
    if n > 0 { AlikeSeen(g, a, b, i, n - 1); }
  }

  lemma AlikeMapInputs(g: Graph, a: State, b: State, i: nat)
    requires Alike(a, b) && IsMap(g, i)
    ensures IsBlocked(g, b, i) == IsBlocked(g, a, i) && IsFailed(g, b, i) == IsFailed(g, a, i)
    ensures MapInputs(g, b, i) == MapInputs(g, a, i)
  {
    forall j: nat | j < |g.operators[i].edges|
      ensures BlockedAt(g, b, i, j) == BlockedAt(g, a, i, j) && FailedAt(g, b, i, j) == FailedAt(g, a, i, j)
      ensures MapInputAt(g, b, i, j) == MapInputAt(g, a, i, j)
    {
      assert BufferOf(b, Key(OfOperator(i), j)) == BufferOf(a, Key(OfOperator(i), j));
    }
  }

  lemma AlikeEvaluateMap(g: Graph, a: World, b: World, i: nat)
    requires Alike(a.state, b.state) && b.step == a.step && IsMap(g, i) && g.operators[i].output in g.nodes
    ensures SameOutcome(EvaluateMap(g, a, i), EvaluateMap(g, b, i))
  {
    var op := g.operators[i];
    AlikeMapInputs(g, a.state, b.state, i);
    if IsBlocked(g, a.state, i) {
      AlikeWrite(g, a, b, op.output, Blocked(IsFailed(g, a.state, i), None), true);
    } else if op.compute(MapInputs(g, a.state, i)).Some? {
      AlikeWrite(g, a.(state := TakenByMap(a.state, i)), b.(state := TakenByMap(b.state, i)), op.output,
                 Present(op.compute(MapInputs(g, a.state, i)).value, None, None), true);
    }
  }

  lemma AlikeFoldInputs(g: Graph, a: World, b: World, i: nat)
    requires Alike(a.state, b.state) && b.step == a.step && IsFold(g, i)
    ensures FoldInputs(g, b, i) == FoldInputs(g, a, i)
    ensures Alike(Taken(g, a, i), Taken(g, b, i))
  {
    AlikeGathered(g, a.state, b.state, i, 0);
    AlikeWatched(g, a.state, b.state, i, 0, a.step.stamp);
    AlikeSeen(g, a.state, b.state, i, |g.operators[i].edges|);
  }

  lemma {:induction false} AlikeEmits(g: Graph, a: World, b: World, i: nat, emits: seq<Emit>)
    requires Alike(a.state, b.state) && b.step == a.step && IsFold(g, i) && forall n :: n in g.operators[i].emits ==> n in g.nodes
    ensures SameOutcome(EmitAll(g, a, i, emits), EmitAll(g, b, i, emits))
    decreases |emits|
  {
    if emits != [] && emits[0].node in g.operators[i].emits {
      var written := Present(emits[0].value, None, None);
      AlikeWrite(g, a, b, emits[0].node, written, true);
      var next := Write(g, a, emits[0].node, written, true);
      if next.Ok? { AlikeEmits(g, next.value, Write(g, b, emits[0].node, written, true).value, i, emits[1..]); }
    }
  }

  lemma AlikeWriteFolded(g: Graph, a: World, b: World, i: nat, next: FoldStep)
    requires Alike(a.state, b.state) && b.step == a.step && IsFold(g, i) && g.operators[i].output in g.nodes
    requires forall n :: n in g.operators[i].emits ==> n in g.nodes
    ensures SameOutcome(WriteFolded(g, a, i, next), WriteFolded(g, b, i, next))
  {
    var output, written := g.operators[i].output, Present(next.state, None, None);
    AlikeWrite(g, a, b, output, written, true);
    var after := Write(g, a, output, written, true);
    if after.Ok? { AlikeEmits(g, after.value, Write(g, b, output, written, true).value, i, next.emit); }
  }

  lemma AlikeEvaluate(g: Graph, a: World, b: World, i: nat)
    requires WellFormed(g) && Alike(a.state, b.state) && b.step == a.step && IsOperator(g, i)
    ensures SameOutcome(Evaluate(g, a, i), Evaluate(g, b, i))
  {
    var op := g.operators[i];
    if op.MapOp? {
      AlikeEvaluateMap(g, a, b, i);
    } else {
      AlikeFoldInputs(g, a, b, i);
      var next := Folded(op, ValueOf(RecordOf(a.state, op.output)), FoldInputs(g, a, i), a.step.stamp);
      if next.Some? { AlikeWriteFolded(g, a.(state := Taken(g, a, i)), b.(state := Taken(g, b, i)), i, next.value); }
    }
  }

  lemma {:induction false} AlikeDrain(g: Graph, a: World, b: World)
    requires WellFormed(g) && Alike(a.state, b.state) && b.step == a.step && Bounded(g, a.step)
    ensures SameOutcome(Drain(g, a), Drain(g, b))
    decreases TotalPotential(a.step, |g.operators|)
  {
    if a.step.dirty != {} {
      var i := NextOperator(g, a.step);
      var began, begun := a.(step := Begun(a.step, i)), b.(step := Begun(b.step, i));
      AlikeEvaluate(g, began, begun, i);
      if Evaluate(g, began, i).Ok? {
        RoundSpendsOne(g, a);
        AlikeDrain(g, Evaluate(g, began, i).value, Evaluate(g, begun, i).value);
      }
    }
  }

  /** A step does the same, and derives the same writes, whatever effects have left unread. */
  lemma LeftoversNeverInfluenceAStep(g: Graph, a: State, b: State, writes: seq<Pending>, stamp: Stamp, wakes: seq<string>)
    requires WellFormed(g) && Alike(a, b) && Known(g, writes)
    ensures SameOutcome(Run(g, a, writes, stamp, wakes), Run(g, b, writes, stamp, wakes))
  {
    var from, from' := World(a, FreshStep(stamp)), World(b, FreshStep(stamp));
    AlikeWakes(g, from, from', wakes);
    var woken := WakeAll(g, from, wakes);
    if woken.Ok? {
      AlikeWrites(g, woken.value, WakeAll(g, from', wakes).value, writes);
      if Pushed(g, a, writes, stamp, wakes).Ok? {
        PushingSpendsNothing(g, a, writes, stamp, wakes);
        AlikeDrain(g, Pushed(g, a, writes, stamp, wakes).value, Pushed(g, b, writes, stamp, wakes).value);
      }
    }
  }
}
