/** The states an engine reaches, and what it promises its readers in each of them. */
module EngineRuns {
  import opened Basics
  import opened DataValues
  import opened Graphs
  import opened Steps
  import opened Propagation
  import opened Deliveries
  import opened Invariants
  import opened StepInvariants

  /** No initial value holds a malformed expiry; an engine over one that does is never created. */
  ghost predicate Creatable(g: Graph) {
    && (forall n :: n in g.initials ==> n in g.nodes)
    && (forall n :: n in g.initials ==> ExpiriesOf(g.nodes[n], Present(g.initials[n], None, None)).Some?)
  }

  function Initial(g: Graph): State
    requires Creatable(g)
  {
    State(
      map n | n in g.nodes :: Unwritten(if n in g.initials then Some(g.initials[n]) else None),
      map key | key in OperatorKeys(g) + EffectKeys(g) :: [],
      map[], map[],
      map n | n in g.initials :: ExpiriesOf(g.nodes[n], Present(g.initials[n], None, None)).value,
      0, None, History([], map[], map[]))
  }

  /** What happens to an engine: a step, a degrade to some operators, or an effect taking its deliveries. */
  datatype Event =
    | Stepped(writes: seq<Pending>, stamp: Stamp, wakes: seq<string>)
    | KeptOnly(operators: set<string>)
    | EffectTook(effect: nat)

  /** Steps write only what no operator owns, and a degraded engine is never given operators back. */
  ghost predicate Allowed(g: Graph, s: State, event: Event) {
    match event
    case Stepped(writes, _, _) => Writable(g, writes)
    case KeptOnly(operators) => s.kept.Some? ==> operators <= s.kept.value
    case EffectTook(_) => true
  }

  /** A step that fails leaves the state as it was. */
  function Next(g: Graph, s: State, event: Event): State
    requires WellFormed(g) && Allowed(g, s, event)
  {
    match event
    case Stepped(writes, stamp, wakes) =>
      var outcome := Run(g, s, writes, stamp, wakes);
      if outcome.Ok? then outcome.value.state else s
    case KeptOnly(operators) => s.(kept := Some(operators))
    case EffectTook(effect) => Emptied(s, OfEffect(effect))
  }

  ghost predicate Reaches(g: Graph, s: State, events: seq<Event>, last: State)
    requires WellFormed(g)
    decreases |events|
  {
    if events == [] then last == s
    else Allowed(g, s, events[0]) && Reaches(g, Next(g, s, events[0]), events[1..], last)
  }

  ghost predicate Reachable(g: Graph, s: State)
    requires WellFormed(g) && Creatable(g)
  {
    exists events :: Reaches(g, Initial(g), events, s)
  }

  lemma {:induction false} ReachesOnward(g: Graph, s: State, events: seq<Event>, last: State, event: Event)
    requires WellFormed(g) && Reaches(g, s, events, last) && Allowed(g, last, event)
    ensures Reaches(g, s, events + [event], Next(g, last, event))
    decreases |events|
  {
    var more := events + [event];
    if events == [] {
      assert more[1..] == [];
    } else {
      ReachesOnward(g, Next(g, s, events[0]), events[1..], last, event);
      assert more[0] == events[0] && more[1..] == events[1..] + [event];
    }
  }

  lemma ReachableOnward(g: Graph, s: State, event: Event)
    requires WellFormed(g) && Creatable(g) && Reachable(g, s) && Allowed(g, s, event)
    ensures Reachable(g, Next(g, s, event))
  {
    var events :| Reaches(g, Initial(g), events, s);
    ReachesOnward(g, Initial(g), events, s, event);
  }

  // ----- Every reachable state is settled -----

  lemma InitialMapsCurrent(g: Graph, i: nat)
    requires WellFormed(g) && Creatable(g) && IsMap(g, i)
    ensures MapCurrent(g, Initial(g), i)
  {
    var op, s := g.operators[i], Initial(g);
    forall j: nat | j < |op.edges| ensures RecordOf(s, op.edges[j].node).Unwritten? && (Readable(RecordOf(s, op.edges[j].node)) <==> op.edges[j].node in g.initials) {}
    if ReadsAllLatest(op) {
      if op.output in g.initials {
        assert MapInputs(g, s, i) == InitialInputs(op, g.initials);
      } else {
        var j :| 0 <= j < |op.edges| && op.edges[j].node !in g.initials;
        assert BlockedAt(g, s, i, j);
      }
    }
    if ReadsNoDeliveries(op) && op.output !in g.initials {
      var j :| 0 <= j < |op.edges| && !(op.edges[j].mode.Latest? && op.edges[j].node in g.initials);
      assert BlockedAt(g, s, i, j);
    }
  }

  lemma InitialSettled(g: Graph)
    requires WellFormed(g) && Creatable(g)
    ensures Settled(g, Initial(g))
  {
    var s := Initial(g);
    forall i: nat | IsMap(g, i) ensures MapCurrent(g, s, i) { InitialMapsCurrent(g, i); }
    forall n | n in g.initials ensures Ascending(s.expiries[n]) { FoundAscends(g.nodes[n], Present(g.initials[n], None, None)); }
    forall i: nat | IsFold(g, i) ensures FoldHolds(g, s, i) && AppliedAsOwed(g.operators[i], [], []) {
      assert RecordOf(s, g.operators[i].output) == Unwritten(Some(g.operators[i].initial));
    }
    forall i: nat | i < |g.operators| ensures Untaken(s, i) == [] && TakenLog(s, i) == [] {}
  }

  lemma NextSettled(g: Graph, s: State, event: Event)
    requires WellFormed(g) && Settled(g, s) && Allowed(g, s, event)
    ensures Settled(g, Next(g, s, event))
  {
    var after := Next(g, s, event);
    match event
    case Stepped(writes, stamp, wakes) =>
      if Run(g, s, writes, stamp, wakes).Ok? { RunKeeps(g, s, writes, stamp, wakes); }
    case KeptOnly(operators) =>
      KeepingFewerSettled(g, s, after);
    case EffectTook(effect) =>
      EffectTakingSettled(g, s, effect);
  }

  lemma KeepingFewerSettled(g: Graph, s: State, after: State)
    requires Settled(g, s) && after == s.(kept := after.kept)
    requires forall i: nat :: Keeps(g, after, i) ==> Keeps(g, s, i)
    ensures Settled(g, after)
  {
    SameDeliveriesSettled(g, s, after);
  }

  lemma EffectTakingSettled(g: Graph, s: State, effect: nat)
    requires Settled(g, s)
    ensures Settled(g, Emptied(s, OfEffect(effect)))
  {
    SameDeliveriesSettled(g, s, Emptied(s, OfEffect(effect)));
  }

  /** Keeping fewer operators, and emptying what only effects read, leave every kept operator as it was. */
  lemma SameDeliveriesSettled(g: Graph, s: State, after: State)
    requires Settled(g, s) && after == s.(kept := after.kept, buffers := after.buffers)
    requires after.buffers.Keys == s.buffers.Keys
    requires forall i: nat, j: nat {:trigger Key(OfOperator(i), j)} :: BufferOf(after, Key(OfOperator(i), j)) == BufferOf(s, Key(OfOperator(i), j))
    requires forall i: nat :: Keeps(g, after, i) ==> Keeps(g, s, i)
    ensures Settled(g, after)
  {
    var settled := World(after, FreshStep(Stamp(0, 0)));
    assert MapsCurrent(g, settled, -1) by {
      forall i: nat | IsMap(g, i) && Keeps(g, after, i) ensures MapCurrent(g, after, i) { SameMapStillCurrent(g, s, after, i); }
    }
    assert Drained(g, settled, -1) by {
      forall i: nat | IsFold(g, i) && Keeps(g, after, i) ensures NothingOwed(g, after, i) { assert NothingOwed(g, s, i); }
    }
    SameBuffersOwed(g, s, after);
    assert FoldsHold(g, after, -1) by {
      forall i: nat | IsFold(g, i) ensures FoldHolds(g, after, i) { assert FoldHolds(g, s, i); }
    }
  }

  lemma SameMapStillCurrent(g: Graph, s: State, after: State, i: nat)
    requires Settled(g, s) && after == s.(kept := after.kept, buffers := after.buffers)
    requires IsMap(g, i) && Keeps(g, after, i) && Keeps(g, s, i)
    ensures MapCurrent(g, after, i)
  {
    assert MapCurrent(g, s, i);
    SameRecordsSameMap(g, s, after, i);
  }

  lemma {:induction false} ReachedSettled(g: Graph, s: State, events: seq<Event>, last: State)
    requires WellFormed(g) && Settled(g, s) && Reaches(g, s, events, last)
    ensures Settled(g, last)
    decreases |events|
  {
    if events != [] {
      NextSettled(g, s, events[0]);
      ReachedSettled(g, Next(g, s, events[0]), events[1..], last);
    }
  }

  lemma ReachableSettled(g: Graph, s: State)
    requires WellFormed(g) && Creatable(g) && Reachable(g, s)
    ensures Settled(g, s)
  {
    var events :| Reaches(g, Initial(g), events, s);
    InitialSettled(g);
    ReachedSettled(g, Initial(g), events, s);
  }

  // ----- What readers are promised -----

  /**
   * Incremental evaluation agrees with recomputing everything: in every reachable state, of a graph with
   * cycles or without, a kept map over triggering reads holds exactly what it computes from its inputs'
   * current values when all are readable; otherwise it holds none, and says `failed` exactly when some
   * input failed.
   */
  lemma MapsReadAsRecomputed(g: Graph, s: State, i: nat)
    requires WellFormed(g) && Creatable(g) && Reachable(g, s)
    requires IsMap(g, i) && Keeps(g, s, i) && ReadsAllLatest(g.operators[i])
    ensures Readable(RecordOf(s, g.operators[i].output)) <==>
            forall j: nat :: j < |g.operators[i].edges| ==> Readable(RecordOf(s, g.operators[i].edges[j].node))
    ensures Readable(RecordOf(s, g.operators[i].output)) ==>
            g.operators[i].compute(seq(|g.operators[i].edges|, j requires 0 <= j < |g.operators[i].edges| =>
              Current(ValueOf(RecordOf(s, g.operators[i].edges[j].node)))))
            == Some(ValueOf(RecordOf(s, g.operators[i].output)))
    ensures !Readable(RecordOf(s, g.operators[i].output)) ==>
              (HasFailed(RecordOf(s, g.operators[i].output)) <==> exists j: nat :: j < |g.operators[i].edges| && FailedAt(g, s, i, j))
  {
    ReachableSettled(g, s);
    var op := g.operators[i];
    assert MapCurrent(g, s, i);
    assert forall j: nat :: j < |op.edges| ==> (BlockedAt(g, s, i, j) <==> !Readable(RecordOf(s, op.edges[j].node)));
    assert MapInputs(g, s, i) == seq(|op.edges|, j requires 0 <= j < |op.edges| => Current(ValueOf(RecordOf(s, op.edges[j].node))));
  }

  /** A kept map that samples some inputs never waits on a sample: readable whenever all its inputs are. */
  lemma SamplingMapsNeverWait(g: Graph, s: State, i: nat)
    requires WellFormed(g) && Creatable(g) && Reachable(g, s)
    requires IsMap(g, i) && Keeps(g, s, i) && ReadsNoDeliveries(g.operators[i])
    requires forall j: nat :: j < |g.operators[i].edges| ==> Readable(RecordOf(s, g.operators[i].edges[j].node))
    ensures Readable(RecordOf(s, g.operators[i].output))
  {
    ReachableSettled(g, s);
    assert MapCurrent(g, s, i);
  }

  /** In no reachable state is a node that starts with a value without one. */
  lemma InitialNodesAlwaysReadable(g: Graph, s: State, node: string)
    requires WellFormed(g) && Creatable(g) && Reachable(g, s) && node in g.initials
    ensures Readable(RecordOf(s, node))
  {
    ReachableSettled(g, s);
  }

  /**
   * Exactly once, in order: the deliveries a kept fold has applied are, one for one, the committed writes
   * to the nodes it reads with `every`, in the order they were committed. One no longer kept has applied a
   * prefix of them.
   */
  lemma FoldsTakeEachWriteOnce(g: Graph, s: State, i: nat)
    requires WellFormed(g) && Creatable(g) && Reachable(g, s) && IsFold(g, i)
    ensures OccurrencesOf(AppliedBy(s.history, i)) <= InputsOnly(Owed(g.operators[i].edges, s.history.log))
    ensures Keeps(g, s, i) ==>
            OccurrencesOf(AppliedBy(s.history, i)) == InputsOnly(Owed(g.operators[i].edges, s.history.log))
    ensures InOrder(s.history.log, s.writeSeq)
  {
    ReachableSettled(g, s);
    var edges := g.operators[i].edges;
    assert AppliedAsOwed(g.operators[i], AppliedBy(s.history, i), TakenLog(s, i));
    UntakenInOrder(g, s, i);
    OwedDistributes(edges, TakenLog(s, i), Untaken(s, i));
    InputsOnlyDistributes(Owed(edges, TakenLog(s, i)), Owed(edges, Untaken(s, i)));
    if Keeps(g, s, i) {
      assert NothingOwed(g, s, i);
      NothingBufferedNothingOwed(g, s, i);
    }
  }

  lemma NothingBufferedNothingOwed(g: Graph, s: State, i: nat)
    requires IsFold(g, i) && Shaped(g, s) && BuffersOwed(g, s) && NothingOwed(g, s, i)
    ensures Owed(g.operators[i].edges, Untaken(s, i)) == []
  {
    MergedIsOwed(g, s, i);
    GatheredEmpty(g, s, i, 0);
    NothingMerged(s.writeSeq);
  }

  lemma {:induction false} GatheredEmpty(g: Graph, s: State, i: nat, from: nat)
    requires IsFold(g, i) && NothingOwed(g, s, i)
    ensures Gathered(g, s, OfOperator(i), from) == []
    decreases |g.operators[i].edges| - from
  {
    if from < |g.operators[i].edges| { GatheredEmpty(g, s, i, from + 1); }
  }

  /**
   * A kept fold with only `every` reads and no `afterInputs` holds the left fold of `applyInput`, from its
   * initial value, over every committed write it reads.
   */
  lemma FoldsHoldTheirHistory(g: Graph, s: State, i: nat)
    requires WellFormed(g) && Creatable(g) && Reachable(g, s) && IsFold(g, i) && Keeps(g, s, i)
    requires ReadsNoWatches(g.operators[i]) && g.operators[i].afterInputs.None?
    ensures var op := g.operators[i];
            var history := Applied(op, op.initial, InputsOnly(Owed(op.edges, s.history.log)));
            history.Some? && ValueOf(RecordOf(s, op.output)) == history.value.state
  {
    ReachableSettled(g, s);
    FoldsTakeEachWriteOnce(g, s, i);
    assert AppliedAsOwed(g.operators[i], AppliedBy(s.history, i), TakenLog(s, i));
    OnlyOccurrences(AppliedBy(s.history, i));
    assert FoldHolds(g, s, i);
  }

  lemma {:induction false} OnlyOccurrences(inputs: seq<FoldInput>)
    requires forall input :: input in inputs ==> input.value.Occurred?
    ensures OccurrencesOf(inputs) == inputs
  {
    if inputs != [] {
      var init, last := inputs[..|inputs| - 1], inputs[|inputs| - 1];
      assert inputs == init + [last] && last in inputs;
      OnlyOccurrences(init);
    }
  }
}
