/** A whole step keeps the invariant, whatever its operators do. */
module StepInvariants {
  import opened Basics
  import opened DataValues
  import opened Graphs
  import opened Steps
  import opened Propagation
  import opened Deliveries
  import opened Invariants

  // ----- Maps -----

  lemma ReadableInputsDoNotBlock(g: Graph, s: State, i: nat)
    requires WellFormed(g) && InitialsHeld(g, s) && IsMap(g, i) && g.operators[i].output in g.initials
    ensures !IsBlocked(g, s, i)
  {
    assert ReadsOnlyInitials(g.operators[i], g.initials);
  }

  /** `after` is `s` once operator `i` has taken its buffers, whatever else it noted doing so. */
  ghost predicate TookBuffers(s: State, after: State, i: nat) {
    && after.records == s.records && after.kept == s.kept && after.expiries == s.expiries
    && after.lastWrite == s.lastWrite && after.writeSeq == s.writeSeq
    && after.buffers == Emptied(s, OfOperator(i)).buffers
    && after.history.log == s.history.log
    && after.history.cut == s.history.cut[i := |s.history.log|]
  }

  lemma TakingKeepsBuffers(g: Graph, s: State, after: State, i: nat)
    requires Shaped(g, s) && BuffersOwed(g, s) && TookBuffers(s, after, i)
    ensures Shaped(g, after) && BuffersOwed(g, after)
  {
    forall k: nat, j: nat | k < |g.operators| && j < |g.operators[k].edges| && g.operators[k].edges[j].mode.Every?
      ensures BufferOf(after, Key(OfOperator(k), j)) == LogAt(Untaken(after, k), g.operators[k].edges[j].node)
    {
      assert Key(OfOperator(k), j) in OperatorKeys(g);
      assert BufferOf(s, Key(OfOperator(k), j)) == LogAt(Untaken(s, k), g.operators[k].edges[j].node);
      if k == i { assert Untaken(after, k) == []; } else { assert Untaken(after, k) == Untaken(s, k); }
    }
  }

  lemma TakingKeepsMaps(g: Graph, w: World, after: State, i: nat, skip: int)
    requires MapsCurrent(g, w, skip) && TookBuffers(w.state, after, i)
    ensures MapsCurrent(g, w.(state := after), skip)
  {
    forall k: nat | IsMap(g, k) && Keeps(g, after, k) && k != skip && k !in w.step.dirty ensures MapCurrent(g, after, k) {
      assert MapCurrent(g, w.state, k);
      SameRecordsSameMap(g, w.state, after, k);
    }
  }

  /** Once it has taken its buffers, a fold under evaluation owes nothing like any other. */
  lemma TakingDrains(g: Graph, w: World, after: State, i: nat)
    requires Shaped(g, w.state) && Drained(g, w, i) && TookBuffers(w.state, after, i)
    ensures Drained(g, w.(state := after), -1)
  {
    forall k: nat | IsFold(g, k) && Keeps(g, after, k) && k !in w.step.dirty ensures NothingOwed(g, after, k) {
      if k != i { assert NothingOwed(g, w.state, k); }
    }
  }

  lemma TakingKeeps(g: Graph, w: World, after: State, i: nat)
    requires Inv(g, w, i) && TookBuffers(w.state, after, i) && AppliedOwed(g, after)
    requires forall k: nat :: k != i ==> AppliedBy(after.history, k) == AppliedBy(w.state.history, k)
    ensures Inv(g, w.(state := after), i)
  {
    TakingKeepsBuffers(g, w.state, after, i);
    TakingKeepsMaps(g, w, after, i, i);
    TakingDrains(g, w, after, i);
    assert FoldsHold(g, after, i) by {
      forall k: nat | IsFold(g, k) && k != i ensures FoldHolds(g, after, k) { assert FoldHolds(g, w.state, k); }
    }
  }

  lemma TakingByMapKeeps(g: Graph, w: World, i: nat)
    requires WellFormed(g) && Inv(g, w, i) && IsMap(g, i)
    ensures Inv(g, w.(state := TakenByMap(w.state, i)), i)
  {
    var s := w.state;
    var after := TakenByMap(s, i);
    forall k: nat | IsFold(g, k) ensures AppliedAsOwed(g.operators[k], AppliedBy(after.history, k), TakenLog(after, k)) {
      assert AppliedAsOwed(g.operators[k], AppliedBy(s.history, k), TakenLog(s, k)) && TakenLog(after, k) == TakenLog(s, k);
    }
    TakingKeeps(g, w, after, i);
  }

  /** Writing its output leaves a map's inputs as they were: no map reads itself. */
  lemma OutputIsNoInput(g: Graph, i: nat, before: State, after: State)
    requires WellFormed(g) && IsMap(g, i)
    requires forall n :: n != g.operators[i].output ==> RecordOf(after, n) == RecordOf(before, n)
    ensures IsBlocked(g, after, i) == IsBlocked(g, before, i) && IsFailed(g, after, i) == IsFailed(g, before, i)
    ensures ReadsAllLatest(g.operators[i]) ==> MapInputs(g, after, i) == MapInputs(g, before, i)
  {
    var op := g.operators[i];
    forall j: nat | j < |op.edges| ensures RecordOf(after, op.edges[j].node) == RecordOf(before, op.edges[j].node) {
      assert op.edges[j].node != op.output;
    }
    assert forall j: nat :: j < |op.edges| ==> BlockedAt(g, after, i, j) == BlockedAt(g, before, i, j) && FailedAt(g, after, i, j) == FailedAt(g, before, i, j);
    if ReadsAllLatest(op) {
      assert MapInputs(g, after, i) == MapInputs(g, before, i);
    }
  }

  lemma OutputMayBeWritten(g: Graph, i: nat, written: Written)
    requires WellFormed(g) && IsOperator(g, i) && (g.operators[i].output in g.initials ==> written.Present?)
    ensures MayWrite(g, g.operators[i].output, written, i)
  {
    forall k | IsOperator(g, k) && g.operators[k].output == g.operators[i].output ensures k == i {
      assert g.operators[k].output in Outputs(g.operators[k]) && g.operators[k].output in Outputs(g.operators[i]);
    }
  }

  lemma EvaluatingMapKeeps(g: Graph, w: World, i: nat)
    requires WellFormed(g) && IsMap(g, i) && Inv(g, w, i) && EvaluateMap(g, w, i).Ok?
    ensures Inv(g, EvaluateMap(g, w, i).value, -1)
  {
    var op := g.operators[i];
    var after := EvaluateMap(g, w, i).value;
    if IsBlocked(g, w.state, i) {
      if op.output in g.initials { ReadableInputsDoNotBlock(g, w.state, i); }
      var written := Blocked(IsFailed(g, w.state, i), None);
      OutputMayBeWritten(g, i, written);
      WriteKeeps(g, w, op.output, written, true, i);
      OutputIsNoInput(g, i, w.state, after.state);
    } else {
      var taken := w.(state := TakenByMap(w.state, i));
      var written := Present(op.compute(MapInputs(g, w.state, i)).value, None, None);
      TakingByMapKeeps(g, w, i);
      OutputMayBeWritten(g, i, written);
      WriteKeeps(g, taken, op.output, written, true, i);
      OutputIsNoInput(g, i, w.state, after.state);
    }
    assert MapCurrent(g, after.state, i);
  }

  // ----- Folds -----

  lemma {:induction false} AppliedInTwo(op: Operator, state: Data, a: seq<FoldInput>, b: seq<FoldInput>)
    requires op.FoldOp? && Applied(op, state, a).Some?
    ensures var first := Applied(op, state, a).value;
            match Applied(op, first.state, b)
            case None => Applied(op, state, a + b).None?
            case Some(second) => Applied(op, state, a + b).Some? && Applied(op, state, a + b).value.state == second.state
    decreases |a|
  {
    if a == [] {
      assert a + b == b;
    } else {
      assert (a + b)[1..] == a[1..] + b;
      AppliedInTwo(op, op.applyInput(state, a[0]).value.state, a[1..], b);
    }
  }

  lemma {:induction false} GatheredFromBuffers(g: Graph, s: State, i: nat, from: nat)
    requires IsOperator(g, i) && BuffersOwed(g, s)
    ensures Gathered(g, s, OfOperator(i), from) == GatheredFromLog(g.operators[i].edges, Untaken(s, i), from)
    decreases |g.operators[i].edges| - from
  {
    if from < |g.operators[i].edges| { GatheredFromBuffers(g, s, i, from + 1); }
  }

  lemma {:induction false} WatchedAreWatched(g: Graph, s: State, i: nat, from: nat, stamp: Stamp)
    requires IsOperator(g, i)
    ensures forall p :: p in WatchedInputs(g, s, i, from, stamp) ==> p.input.value.Watched?
    ensures ReadsNoWatches(g.operators[i]) ==> WatchedInputs(g, s, i, from, stamp) == []
    decreases |g.operators[i].edges| - from
  {
    if from < |g.operators[i].edges| { WatchedAreWatched(g, s, i, from + 1, stamp); }
  }

  lemma UntakenInOrder(g: Graph, s: State, i: nat)
    requires Shaped(g, s)
    ensures InOrder(Untaken(s, i), s.writeSeq)
    ensures TakenLog(s, i) + Untaken(s, i) == s.history.log
  {
    assert CutOf(s.history, i) <= |s.history.log|;
  }

  /** Watched records merged in among deliveries leave the deliveries in their order. */
  lemma WatchedDoNotReorder(owed: seq<Pulled>, seen: seq<Pulled>, upTo: nat)
    requires forall p :: p in owed ==> p.input.value.Occurred?
    requires forall p :: p in seen ==> p.input.value.Watched?
    requires Merged(owed, upTo) == owed
    ensures OccurrencesOf(InputsOnly(Merged(owed + seen, upTo))) == InputsOnly(owed)
  {
    NoOccurrences(seen);
    AllOccurrences(owed);
    PulledOccurrencesDistribute(owed, seen);
    assert PulledOccurrences(owed + seen) == owed;
    OccurrencesOfMerged(owed + seen, upTo);
    OccurrencesOfInputs(Merged(owed + seen, upTo));
  }

  lemma MergedIsOwed(g: Graph, s: State, i: nat)
    requires IsOperator(g, i) && Shaped(g, s) && BuffersOwed(g, s)
    ensures Merged(Gathered(g, s, OfOperator(i), 0), s.writeSeq) == Owed(g.operators[i].edges, Untaken(s, i))
    ensures Merged(Owed(g.operators[i].edges, Untaken(s, i)), s.writeSeq) == Owed(g.operators[i].edges, Untaken(s, i))
  {
    UntakenInOrder(g, s, i);
    GatheredFromBuffers(g, s, i, 0);
    MergedBuffersAreOwed(g.operators[i].edges, Untaken(s, i), s.writeSeq);
    OwedIsMerged(g.operators[i].edges, Untaken(s, i), s.writeSeq);
  }

  /** Of what a fold takes, the deliveries are exactly what the log owes it, in the log's order. */
  lemma FoldTakesWhatIsOwed(g: Graph, w: World, i: nat)
    requires IsFold(g, i) && Shaped(g, w.state) && BuffersOwed(g, w.state)
    ensures AppliedAsOwed(g.operators[i], FoldInputs(g, w, i), Untaken(w.state, i))
  {
    var owed := Owed(g.operators[i].edges, Untaken(w.state, i));
    var seen := WatchedInputs(g, w.state, i, 0, w.step.stamp);
    MergedIsOwed(g, w.state, i);
    WatchedAreWatched(g, w.state, i, 0, w.step.stamp);
    OwedAreOccurrences(g.operators[i].edges, Untaken(w.state, i));
    WatchedDoNotReorder(owed, seen, w.state.writeSeq);
    if ReadsNoWatches(g.operators[i]) {
      assert owed + seen == owed;
    }
  }

  lemma InputsOnlyDistributes(a: seq<Pulled>, b: seq<Pulled>)
    ensures InputsOnly(a + b) == InputsOnly(a) + InputsOnly(b)
  {
  }

  lemma AppliedAsOwedInTwo(op: Operator, applied: seq<FoldInput>, inputs: seq<FoldInput>, taken: seq<Logged>, untaken: seq<Logged>)
    requires AppliedAsOwed(op, applied, taken) && AppliedAsOwed(op, inputs, untaken)
    ensures AppliedAsOwed(op, applied + inputs, taken + untaken)
  {
    OccurrencesDistribute(applied, inputs);
    OwedDistributes(op.edges, taken, untaken);
    InputsOnlyDistributes(Owed(op.edges, taken), Owed(op.edges, untaken));
  }

  lemma TakenWhole(s: State, after: State, i: nat, inputs: seq<FoldInput>, k: nat)
    requires CutOf(s.history, i) <= |s.history.log| && after.history == AppliedHistory(s.history, i, inputs)
    ensures k == i ==> TakenLog(after, k) == TakenLog(s, k) + Untaken(s, k)
    ensures k == i ==> AppliedBy(after.history, k) == AppliedBy(s.history, k) + inputs
    ensures k != i ==> TakenLog(after, k) == TakenLog(s, k) && AppliedBy(after.history, k) == AppliedBy(s.history, k)
  {
  }

  lemma AppliedByOne(g: Graph, s: State, after: State, i: nat, inputs: seq<FoldInput>, k: nat)
    requires IsFold(g, i) && IsFold(g, k) && AppliedAsOwed(g.operators[i], inputs, Untaken(s, i))
    requires CutOf(s.history, i) <= |s.history.log| && after.history == AppliedHistory(s.history, i, inputs)
    requires AppliedAsOwed(g.operators[k], AppliedBy(s.history, k), TakenLog(s, k))
    ensures AppliedAsOwed(g.operators[k], AppliedBy(after.history, k), TakenLog(after, k))
  {
    TakenWhole(s, after, i, inputs, k);
    if k == i { AppliedAsOwedInTwo(g.operators[i], AppliedBy(s.history, i), inputs, TakenLog(s, i), Untaken(s, i)); }
  }

  /** What fold `i` has applied and how far it has taken once `inputs` are applied too. */
  lemma ApplyingKeepsApplied(g: Graph, s: State, after: State, i: nat, inputs: seq<FoldInput>)
    requires Shaped(g, s) && AppliedOwed(g, s) && IsFold(g, i) && AppliedAsOwed(g.operators[i], inputs, Untaken(s, i))
    requires after.history == AppliedHistory(s.history, i, inputs)
    ensures AppliedOwed(g, after)
  {
    forall k: nat | IsFold(g, k) ensures AppliedAsOwed(g.operators[k], AppliedBy(after.history, k), TakenLog(after, k)) {
      AppliedByOne(g, s, after, i, inputs, k);
    }
  }

  lemma TakingByFoldKeeps(g: Graph, w: World, i: nat)
    requires WellFormed(g) && Inv(g, w, i) && IsFold(g, i)
    ensures Inv(g, w.(state := Taken(g, w, i)), i)
    ensures Drained(g, w.(state := Taken(g, w, i)), -1)
  {
    var s, after, inputs := w.state, Taken(g, w, i), FoldInputs(g, w, i);
    FoldTakesWhatIsOwed(g, w, i);
    ApplyingKeepsApplied(g, s, after, i, inputs);
    TakingKeeps(g, w, after, i);
    TakingDrains(g, w, after, i);
  }

  lemma EmittedMayBeWritten(g: Graph, i: nat, node: string, value: Data)
    requires WellFormed(g) && IsFold(g, i) && node in g.operators[i].emits
    ensures MayWrite(g, node, Present(value, None, None), -1)
  {
    assert node in Outputs(g.operators[i]);
    forall k | IsOperator(g, k) ensures g.operators[k].output != node {
      assert g.operators[k].output in Outputs(g.operators[k]);
    }
  }

  lemma {:induction false} EmittingKeeps(g: Graph, w: World, i: nat, emits: seq<Emit>)
    requires WellFormed(g) && IsFold(g, i) && Inv(g, w, -1) && EmitAll(g, w, i, emits).Ok?
    ensures Inv(g, EmitAll(g, w, i, emits).value, -1)
    decreases |emits|
  {
    if emits != [] {
      var written := Present(emits[0].value, None, None);
      EmittedMayBeWritten(g, i, emits[0].node, emits[0].value);
      WriteKeeps(g, w, emits[0].node, written, true, -1);
      EmittingKeeps(g, Write(g, w, emits[0].node, written, true).value, i, emits[1..]);
    }
  }

  lemma WriteKeepsDrained(g: Graph, w: World, node: string, written: Written, derived: bool)
    requires node in g.nodes && Shaped(g, w.state) && Drained(g, w, -1) && Write(g, w, node, written, derived).Ok?
    ensures Drained(g, Write(g, w, node, written, derived).value, -1)
  {
    var after := Write(g, w, node, written, derived).value;
    if !(g.nodes[node].coalesces && RecordOf(w.state, node) == Held(written)) {
      RecordingKeepsDrained(g, w, node, written, ExpiriesOf(g.nodes[node], written).value, -1, after);
    }
  }

  lemma EvaluatingFoldKeeps(g: Graph, w: World, i: nat)
    requires WellFormed(g) && IsFold(g, i) && Inv(g, w, i) && FoldHolds(g, w.state, i) && EvaluateFold(g, w, i).Ok?
    ensures Inv(g, EvaluateFold(g, w, i).value, -1)
  {
    var op := g.operators[i];
    var taken := w.(state := Taken(g, w, i));
    var next := Folded(op, ValueOf(RecordOf(w.state, op.output)), FoldInputs(g, w, i), w.step.stamp).value;
    var written := Present(next.state, None, None);
    TakingByFoldKeeps(g, w, i);
    OutputMayBeWritten(g, i, written);
    WriteKeeps(g, taken, op.output, written, true, i);
    WriteKeepsDrained(g, taken, op.output, written, true);
    var after := Write(g, taken, op.output, written, true).value;
    if op.afterInputs.None? {
      AppliedInTwo(op, op.initial, AppliedBy(w.state.history, i), FoldInputs(g, w, i));
      assert AppliedBy(after.state.history, i) == AppliedBy(w.state.history, i) + FoldInputs(g, w, i);
    }
    assert FoldHolds(g, after.state, i);
    EmittingKeeps(g, after, i, next.emit);
  }

  // ----- A whole step -----

  lemma BeginningKeeps(g: Graph, w: World, i: nat)
    requires Inv(g, w, -1) && i in w.step.dirty
    ensures Inv(g, w.(step := Begun(w.step, i)), i)
  {
  }

  lemma {:induction false} DrainKeeps(g: Graph, w: World)
    requires WellFormed(g) && Inv(g, w, -1) && Drain(g, w).Ok?
    ensures Inv(g, Drain(g, w).value, -1) && Drain(g, w).value.step.dirty == {}
    decreases TotalPotential(w.step, |g.operators|)
  {
    if w.step.dirty != {} {
      var i := NextOperator(g, w.step);
      var began := w.(step := Begun(w.step, i));
      BeginningKeeps(g, w, i);
      RoundSpendsOne(g, w);
      if g.operators[i].MapOp? {
        EvaluatingMapKeeps(g, began, i);
      } else {
        assert FoldHolds(g, w.state, i);
        EvaluatingFoldKeeps(g, began, i);
      }
      DrainKeeps(g, Evaluate(g, began, i).value);
    }
  }

  lemma {:induction false} WakingKeeps(g: Graph, w: World, nodes: seq<string>)
    requires WellFormed(g) && Inv(g, w, -1) && WakeAll(g, w, nodes).Ok?
    ensures Inv(g, WakeAll(g, w, nodes).value, -1)
    decreases |nodes|
  {
    if nodes != [] {
      WakeKeeps(g, w, nodes[0], -1);
      WakingKeeps(g, Wake(g, w, nodes[0]).value, nodes[1..]);
    }
  }

  lemma ExternalMayBeWritten(g: Graph, write: Pending)
    requires WellFormed(g) && External(g, write.node)
    ensures MayWrite(g, write.node, write.written, -1)
  {
    forall k | IsOperator(g, k) ensures g.operators[k].output != write.node {
      assert !Owns(g, k, write.node);
    }
  }

  lemma {:induction false} WritingKeeps(g: Graph, w: World, writes: seq<Pending>)
    requires WellFormed(g) && Inv(g, w, -1) && Writable(g, writes) && WriteAll(g, w, writes).Ok?
    ensures Inv(g, WriteAll(g, w, writes).value, -1)
    decreases |writes|
  {
    if writes != [] {
      ExternalMayBeWritten(g, writes[0]);
      WriteKeeps(g, w, writes[0].node, writes[0].written, false, -1);
      WritingKeeps(g, Write(g, w, writes[0].node, writes[0].written, false).value, writes[1..]);
    }
  }

  /** A step that commits leaves a settled state. */
  lemma RunKeeps(g: Graph, s: State, writes: seq<Pending>, stamp: Stamp, wakes: seq<string>)
    requires WellFormed(g) && Settled(g, s) && Writable(g, writes) && Run(g, s, writes, stamp, wakes).Ok?
    ensures Settled(g, Run(g, s, writes, stamp, wakes).value.state)
  {
    var w := World(s, FreshStep(stamp));
    WakingKeeps(g, w, wakes);
    WritingKeeps(g, WakeAll(g, w, wakes).value, writes);
    PushingSpendsNothing(g, s, writes, stamp, wakes);
    DrainKeeps(g, Pushed(g, s, writes, stamp, wakes).value);
  }
}
