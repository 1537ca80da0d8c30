/** The engine's state and one step of propagation over it, updated in place and restored when it fails. */
module Core {
  import opened Basics
  import opened DataValues
  import opened Graphs
  import opened Steps
  import opened Propagation
  import opened EngineRuns
  import opened Readers
  import opened BufferStore
  import opened StepInvariants

  /** Every node operator `i` reads or writes is one of the graph's. */
  ghost predicate Declared(g: Graph, i: nat) {
    && IsOperator(g, i)
    && ReadsAllowed(g.operators[i].edges, g.nodes)
    && g.operators[i].output in g.nodes
    && (g.operators[i].FoldOp? ==> forall n :: n in g.operators[i].emits ==> n in g.nodes)
  }

  /** Everything a step may change, as it was before. */
  datatype Saved = Saved(
    records: map<string, Record>,
    buffers: map<Key, seq<Sequenced>>,
    lastWrite: map<string, nat>,
    watched: map<Key, nat>,
    expiries: map<string, seq<int>>,
    writeSeq: nat)

  function StateOf(saved: Saved, kept: Option<set<string>>, history: History): State {
    State(saved.records, saved.buffers, saved.lastWrite, saved.watched, saved.expiries, saved.writeSeq, kept, history)
  }

  datatype Blockage = Clear | Unknown | Failed

  class Core {
    const graph: Graph
    /** The reads that buffer their node's writes. */
    const keys: set<Key>
    const unread: Buffers
    var records: map<string, Record>
    var lastWrite: map<string, nat>
    var watched: map<Key, nat>
    var expiries: map<string, seq<int>>
    var writeSeq: nat
    var kept: Option<set<string>>
    var stamp: Stamp
    var dirty: set<nat>
    var reentries: map<nat, nat>
    var derived: seq<DerivedWrite>
    /** Where the last step that failed was, if an operator threw. */
    var failedOperator: Option<nat>
    ghost var history: History

    /** This engine buffers exactly the `every` reads of its graph. */
    ghost predicate Built() {
      forall reader :: HoldsReadsOf(graph, reader, keys)
    }

    ghost predicate Valid()
      reads this`records, unread, unread.table.Values
    {
      unread.Valid() && unread.contents.Keys == keys && records.Keys == graph.nodes.Keys
    }

    ghost function Repr(): set<object>
      reads unread
    {
      {this, unread} + unread.table.Values
    }

    /** The abstract state this engine is in. */
    ghost function Abstract(): State
      reads this`records, this`lastWrite, this`watched, this`expiries, this`writeSeq, this`kept, this`history, unread`contents
    {
      State(records, unread.contents, lastWrite, watched, expiries, writeSeq, kept, history)
    }

    ghost function CurrentStep(): Step
      reads this`stamp, this`dirty, this`reentries, this`derived
    {
      Step(stamp, dirty, reentries, derived)
    }

    ghost function InStep(): World
      reads this, unread
    {
      World(Abstract(), CurrentStep())
    }

    /** What a part of a step came to, by the error it returned. */
    ghost function Came(error: Option<StepError>): Outcome
      reads this, unread
    {
      if error.Some? then Err(error.value) else Ok(InStep())
    }

    constructor (g: Graph)
      requires WellFormed(g) && Creatable(g)
      ensures Built() && Valid() && fresh(Repr()) && graph == g
      ensures Abstract() == Initial(g)
    {
      graph := g;
      keys := OperatorKeys(g) + EffectKeys(g);
      unread := new Buffers(Initial(g).buffers);
      records := map n | n in g.nodes :: Unwritten(if n in g.initials then Some(g.initials[n]) else None);
      expiries := map n | n in g.initials :: ExpiriesOf(g.nodes[n], Present(g.initials[n], None, None)).value;
      lastWrite, watched, writeSeq, kept := map[], map[], 0, None;
      stamp, dirty, reentries, derived, failedOperator := Stamp(0, 0), {}, map[], [], None;
      history := History([], map[], map[]);
      new;
      forall reader { EveryReaderHeld(g, reader); }
    }

    // ----- Writing -----

    method Schedule(i: nat) returns (ok: bool)
      requires IsOperator(graph, i)
      modifies this`dirty, this`reentries
      ensures ScheduleOne(graph, kept, old(CurrentStep()), i) == if ok then Ok(CurrentStep()) else Err(StepError.CycleBound)
    {
      if i in dirty || (kept.Some? && graph.operators[i].id !in kept.value) { return true; }
      if i in reentries && reentries[i] + 1 > CYCLE_BOUND { return false; }
      if i in reentries { reentries := reentries[i := reentries[i] + 1]; }
      dirty := dirty + {i};
      return true;
    }

    /** Schedules the readers of a node, one after another, until one may not be entered again. */
    method Notify(list: seq<ReaderEntry>, cause: Cause, ghost node: string) returns (ok: bool)
      requires list == ReadersOf(graph, node)
      modifies this`dirty, this`reentries
      ensures Visited(graph, kept, old(CurrentStep()), list, cause) == if ok then Ok(CurrentStep()) else Err(StepError.CycleBound)
    {
      for k := 0 to |list|
        invariant Visited(graph, kept, old(CurrentStep()), list[..k], cause) == Ok(CurrentStep())
      {
        ReaderAt(graph, node, k);
        assert list[..k + 1][..k] == list[..k];
        if list[k].operator.Some? && Rouses(cause, list[k].mode) {
          var scheduled := Schedule(list[k].operator.value);
          if !scheduled {
            VisitingStaysRefused(graph, kept, old(CurrentStep()), list, k + 1, cause);
            return false;
          }
        }
      }
      assert list[..|list|] == list;
      return true;
    }

    /** Makes `written` the record of `node`, as the next write in order, and buffers it for its readers. */
    method Record(node: string, written: Written, found: seq<int>)
      requires Built() && Valid() && node in graph.nodes
      modifies this`records, this`writeSeq, this`lastWrite, this`expiries, this`history, unread`contents, unread.table.Values
      ensures Valid() && Abstract() == Recorded(graph, old(Abstract()), node, written, found, stamp)
    {
      ghost var before := Abstract();
      var delivery := Sequenced(ValueOfWrite(written), stamp, writeSeq + 1);
      Enter(node, written, found, delivery);
      Deliver(node, delivery);
      RecordedInPlace(graph, before, node, written, found, stamp, delivery, Abstract());
    }

    method Enter(node: string, written: Written, found: seq<int>, ghost delivery: Sequenced)
      requires Valid() && node in graph.nodes
      modifies this`records, this`writeSeq, this`lastWrite, this`expiries, this`history
      ensures Valid()
      ensures records == old(records)[node := Held(written)]
      ensures writeSeq == old(writeSeq) + 1
      ensures lastWrite == old(lastWrite)[node := old(writeSeq) + 1]
      ensures expiries == Presented(old(expiries), node, found, stamp.at)
      ensures history == old(history).(log := old(history).log + [Logged(node, delivery)])
    {
      records := records[node := Held(written)];
      writeSeq := writeSeq + 1;
      lastWrite := lastWrite[node := writeSeq];
      expiries := Presented(expiries, node, found, stamp.at);
      history := history.(log := history.log + [Logged(node, delivery)]);
    }

    method Deliver(node: string, delivery: Sequenced)
      requires Built() && Valid()
      modifies unread`contents, unread.table.Values
      ensures Valid() && unread.contents == Buffered(graph, old(unread.contents), node, delivery)
    {
      ReadersHeld(graph, node, keys);
      AllReadersPushed(graph, unread.contents, node, delivery);
      unread.PushAll(ReadersOf(graph, node), delivery);
    }

    /** A write that is not dropped: recorded, buffered, and its readers scheduled. */
    method Commit(node: string, written: Written, found: seq<int>, isDerived: bool) returns (error: Option<StepError>)
      requires Built() && Valid() && node in graph.nodes
      requires ExpiriesOf(graph.nodes[node], written) == Some(found)
      requires !(graph.nodes[node].coalesces && records[node] == Held(written))
      modifies this, unread`contents, unread.table.Values
      ensures Valid() && unchanged(this`kept, this`failedOperator)
      ensures Steps.Write(graph, old(InStep()), node, written, isDerived) == Came(error)
    {
      ghost var w := InStep();
      error := RecordAndNotify(node, written, found);
      if error.None? { Note(node, written, isDerived); }
      WrittenInPlace(graph, w, node, written, found, isDerived, error, InStep());
    }

    method RecordAndNotify(node: string, written: Written, found: seq<int>) returns (error: Option<StepError>)
      requires Built() && Valid() && node in graph.nodes
      modifies this, unread`contents, unread.table.Values
      ensures Valid() && unchanged(this`kept, this`failedOperator)
      ensures var visited := Visited(graph, old(kept), old(CurrentStep()), ReadersOf(graph, node), Wrote(old(records)[node], written));
              if error.Some? then visited == Err(error.value)
              else visited == Ok(CurrentStep()) && Abstract() == Recorded(graph, old(Abstract()), node, written, found, old(stamp))
    {
      var before := records[node];
      Record(node, written, found);
      var scheduled := Notify(ReadersOf(graph, node), Wrote(before, written), node);
      return if scheduled then None else Some(StepError.CycleBound);
    }

    method Note(node: string, written: Written, isDerived: bool)
      modifies this`derived
      ensures CurrentStep() == Noted(old(CurrentStep()), node, written, isDerived)
    {
      if isDerived { derived := derived + [DerivedWrite(node, DigestOf(written))]; }
    }

    /** One write: recorded unless its node coalesces an equal one, buffered, and its readers scheduled. */
    method Write(node: string, written: Written, isDerived: bool) returns (error: Option<StepError>)
      requires Built() && Valid() && node in graph.nodes
      modifies this, unread`contents, unread.table.Values
      ensures Valid() && unchanged(this`kept, this`failedOperator)
      ensures Steps.Write(graph, old(InStep()), node, written, isDerived) == Came(error)
    {
      var found := ExpiriesOf(graph.nodes[node], written);
      if found.None? { return Some(MalformedExpiry(node)); }
      if graph.nodes[node].coalesces && records[node] == Held(written) { return None; }
      error := Commit(node, written, found.value, isDerived);
    }

    /** A write of nothing new: `node` keeps its record, and whoever watches it is scheduled. */
    method Wake(node: string) returns (error: Option<StepError>)
      requires Valid()
      modifies this
      ensures Valid() && unchanged(this`kept, this`failedOperator)
      ensures Steps.Wake(graph, old(InStep()), node) == Came(error)
    {
      WatcherByWatcher(graph, InStep(), node);
      Touch(node);
      var ok := Notify(ReadersOf(graph, node), Lapsed, node);
      return if ok then None else Some(StepError.CycleBound);
    }

    method Touch(node: string)
      modifies this`writeSeq, this`lastWrite, this`expiries
      ensures Abstract() == Woken(old(Abstract()), node, stamp.at)
    {
      writeSeq := writeSeq + 1;
      lastWrite := lastWrite[node := writeSeq];
      expiries := Presented(expiries, node, if node in expiries then expiries[node] else [], stamp.at);
    }

    // ----- Evaluating operators -----

    /** Whether an input of map `i` that is read whole holds no value, and if so whether one failed. */
    method FindBlocked(i: nat) returns (blocked: Blockage)
      requires Valid() && IsMap(graph, i) && ReadsAllowed(graph.operators[i].edges, graph.nodes)
      ensures !blocked.Clear? <==> IsBlocked(graph, Abstract(), i)
      ensures blocked.Failed? <==> IsFailed(graph, Abstract(), i)
    {
      var edges := graph.operators[i].edges;
      blocked := Clear;
      for j := 0 to |edges|
        invariant blocked == BlockedBelow(graph, Abstract(), i, j)
      {
        var record := records[edges[j].node];
        if !edges[j].mode.Every? && !Readable(record) {
          blocked := if blocked.Failed? || HasFailed(record) then Failed else Unknown;
        }
      }
      BlockedExactly(graph, Abstract(), i, |edges|);
    }

    method EvaluateMap(i: nat) returns (error: Option<StepError>)
      requires Built() && Valid() && IsMap(graph, i) && Declared(graph, i)
      modifies Repr()
      ensures Valid() && unchanged(this`kept, this`failedOperator) && fresh(Repr() - old(Repr()))
      ensures Steps.EvaluateMap(graph, old(InStep()), i) == Came(error)
    {
      ghost var w := InStep();
      var op := graph.operators[i];
      var blocked := FindBlocked(i);
      if !blocked.Clear? {
        error := Write(op.output, Blocked(blocked.Failed?, None), true);
        return;
      }
      var value := Compute(i, w.state);
      if value.None? { return Some(Threw(i)); }
      error := Write(op.output, Present(value.value, None, None), true);
    }

    /** Computes map `i` over its inputs, having taken its deliveries. */
    method Compute(i: nat, ghost s: State) returns (value: Option<Data>)
      requires Built() && Valid() && s == Abstract() && IsMap(graph, i) && ReadsAllowed(graph.operators[i].edges, graph.nodes)
      modifies this`history, unread
      ensures Valid() && fresh(unread.table.Values - old(unread.table.Values))
      ensures value == graph.operators[i].compute(MapInputs(graph, s, i)) && Abstract() == TakenByMap(s, i)
    {
      var edges, current := graph.operators[i].edges, records;
      assert HoldsReadsOf(graph, OfOperator(i), keys);
      var taken := unread.TakeReads(graph, OfOperator(i), |edges|, s);
      EmptiedAll(graph, s, OfOperator(i));
      var upTo := writeSeq;
      var inputs := seq(|edges|, j requires 0 <= j < |edges| && |taken| == |edges| && edges[j].node in current =>
        if edges[j].mode.Every? then Batch(Steps.Deliveries(Merged(taken[j], upTo))) else Current(ValueOf(current[edges[j].node])));
      assert inputs == MapInputs(graph, s, i);
      value := graph.operators[i].compute(inputs);
      history := history.(cut := history.cut[i := |history.log|]);
    }

    /** What fold `i` watches and has not seen yet, each as it stands now and in its place among the writes. */
    method TakeWatched(i: nat, ghost s: State) returns (pulled: seq<Pulled>)
      requires IsFold(graph, i) && ReadsAllowed(graph.operators[i].edges, graph.nodes) && records.Keys == graph.nodes.Keys
      requires s.records == records && s.lastWrite == lastWrite && s.watched == watched
      modifies this`watched
      ensures pulled == WatchedInputs(graph, s, i, 0, stamp) && watched == SeenAll(graph, s, i)
    {
      var edges := graph.operators[i].edges;
      pulled := [];
      for j := 0 to |edges|
        invariant pulled == WatchedBelow(graph, s, i, j, stamp) && watched == SeenBelow(graph, s, i, j)
      {
        SeenOnlyBelow(graph, s, i, j);
        var node, key := edges[j].node, Key(OfOperator(i), j);
        if edges[j].mode.Watch? && node in lastWrite && lastWrite[node] > (if key in watched then watched[key] else 0) {
          pulled := pulled + [Pulled(FoldInput(j, Watched(records[node]), stamp), lastWrite[node])];
          watched := watched[key := lastWrite[node]];
        }
      }
      WatchedWhole(graph, s, i, |edges|, stamp);
    }

    /** Takes everything fold `i` has to apply, in the order it was written. */
    method TakeFoldInputs(i: nat, ghost w: World) returns (inputs: seq<FoldInput>)
      requires Built() && Valid() && w == InStep() && IsFold(graph, i) && ReadsAllowed(graph.operators[i].edges, graph.nodes)
      modifies this`watched, this`history, unread
      ensures Valid() && fresh(unread.table.Values - old(unread.table.Values))
      ensures inputs == FoldInputs(graph, w, i) && Abstract() == Taken(graph, w, i)
    {
      assert HoldsReadsOf(graph, OfOperator(i), keys);
      var delivered := unread.Take(graph, OfOperator(i), writeSeq, w.state);
      var seen := TakeWatched(i, w.state);
      inputs := InputsOnly(Merged(delivered + seen, writeSeq));
      Apply(i, inputs);
    }

    /** Notes that fold `i` applies `inputs`, having taken everything logged so far. */
    ghost method Apply(i: nat, inputs: seq<FoldInput>)
      modifies this`history
      ensures history == AppliedHistory(old(history), i, inputs)
    {
      history := AppliedHistory(history, i, inputs);
    }

    /** Folds `inputs` into `state`, input by input, then once more if any arrived. */
    method Fold(i: nat, state: Data, inputs: seq<FoldInput>) returns (next: Option<FoldStep>)
      requires IsFold(graph, i)
      ensures next == Folded(graph.operators[i], state, inputs, stamp)
    {
      var op := graph.operators[i];
      var current, emitted := state, [];
      for k := 0 to |inputs|
        invariant Applied(op, state, inputs[..k]) == Some(FoldStep(current, emitted))
      {
        assert inputs[..k + 1][..k] == inputs[..k];
        assert inputs == inputs[..k] + inputs[k..];
        AppliedOneMore(op, state, inputs, k);
        var applied := op.applyInput(current, inputs[k]);
        if applied.None? { return None; }
        current, emitted := applied.value.state, emitted + applied.value.emit;
      }
      assert inputs[..|inputs|] == inputs;
      if op.afterInputs.None? || inputs == [] { return Some(FoldStep(current, emitted)); }
      var after := op.afterInputs.value(current, stamp);
      return if after.None? then None else Some(FoldStep(after.value.state, emitted + after.value.emit));
    }

    method EmitEach(i: nat, emits: seq<Emit>) returns (error: Option<StepError>)
      requires Built() && Valid() && IsFold(graph, i) && forall n :: n in graph.operators[i].emits ==> n in graph.nodes
      modifies this, unread`contents, unread.table.Values
      ensures Valid() && unchanged(this`kept, this`failedOperator)
      ensures EmitAll(graph, old(InStep()), i, emits) == Came(error)
    {
      for k := 0 to |emits|
        invariant Valid() && unchanged(this`kept, this`failedOperator) && unread.table == old(unread.table)
        invariant EmitAll(graph, InStep(), i, emits[k..]) == EmitAll(graph, old(InStep()), i, emits)
      {
        if emits[k].node !in graph.operators[i].emits { return Some(NotOwned(i, emits[k].node)); }
        assert emits[k..][1..] == emits[k + 1..];
        error := Write(emits[k].node, Present(emits[k].value, None, None), true);
        if error.Some? { return; }
      }
      return None;
    }

    /** Takes fold `i`'s inputs and folds them into its state. */
    method TakeAndFold(i: nat, ghost w: World) returns (next: Option<FoldStep>)
      requires Built() && Valid() && w == InStep() && IsFold(graph, i) && ReadsAllowed(graph.operators[i].edges, graph.nodes)
      requires graph.operators[i].output in graph.nodes
      modifies this`watched, this`history, unread
      ensures Valid() && fresh(unread.table.Values - old(unread.table.Values))
      ensures next == Folded(graph.operators[i], ValueOf(RecordOf(w.state, graph.operators[i].output)), FoldInputs(graph, w, i), stamp)
      ensures Abstract() == Taken(graph, w, i)
    {
      var state := ValueOf(records[graph.operators[i].output]);
      var inputs := TakeFoldInputs(i, w);
      next := Fold(i, state, inputs);
    }

    method EvaluateFold(i: nat) returns (error: Option<StepError>)
      requires Built() && Valid() && IsFold(graph, i) && Declared(graph, i)
      modifies Repr()
      ensures Valid() && unchanged(this`kept, this`failedOperator) && fresh(Repr() - old(Repr()))
      ensures Steps.EvaluateFold(graph, old(InStep()), i) == Came(error)
    {
      var next := TakeAndFold(i, InStep());
      if next.None? { return Some(Threw(i)); }
      error := WriteFolded(i, next.value);
    }

    method WriteFolded(i: nat, next: FoldStep) returns (error: Option<StepError>)
      requires Built() && Valid() && IsFold(graph, i) && graph.operators[i].output in graph.nodes
      requires forall n :: n in graph.operators[i].emits ==> n in graph.nodes
      modifies this, unread`contents, unread.table.Values
      ensures Valid() && unchanged(this`kept, this`failedOperator)
      ensures Steps.WriteFolded(graph, old(InStep()), i, next) == Came(error)
    {
      error := Write(graph.operators[i].output, Present(next.state, None, None), true);
      if error.None? { error := EmitEach(i, next.emit); }
    }

    method Evaluate(i: nat) returns (error: Option<StepError>)
      requires Built() && Valid() && WellFormed(graph) && IsOperator(graph, i)
      modifies Repr()
      ensures Valid() && unchanged(this`kept, this`failedOperator) && fresh(Repr() - old(Repr()))
      ensures Steps.Evaluate(graph, old(InStep()), i) == Came(error)
    {
      WellFormedDeclared(graph, i);
      if graph.operators[i].MapOp? { error := EvaluateMap(i); } else { error := EvaluateFold(i); }
    }

    // ----- One step -----

    /** Evaluates the first operator scheduled. */
    method Round() returns (error: Option<StepError>)
      requires Built() && Valid() && WellFormed(graph) && Bounded(graph, CurrentStep()) && dirty != {}
      modifies Repr()
      ensures Valid() && unchanged(this`kept) && fresh(Repr() - old(Repr()))
      ensures var i := NextOperator(graph, old(CurrentStep()));
              && failedOperator == Some(i)
              && Steps.Evaluate(graph, old(InStep()).(step := Begun(old(CurrentStep()), i)), i) == Came(error)
    {
      var i := NextOperator(graph, Step(stamp, dirty, reentries, derived));
      Begin(i);
      error := Evaluate(i);
    }

    method Begin(i: nat)
      modifies this`failedOperator, this`dirty, this`reentries
      ensures failedOperator == Some(i) && CurrentStep() == Begun(old(CurrentStep()), i)
    {
      failedOperator := Some(i);
      dirty := dirty - {i};
      if i !in reentries { reentries := reentries[i := 0]; }
    }

    /** Runs rounds until nothing is scheduled or one of them fails. */
    method Drain() returns (error: Option<StepError>)
      requires Built() && Valid() && WellFormed(graph) && Bounded(graph, CurrentStep())
      modifies Repr()
      ensures Valid() && unchanged(this`kept) && fresh(Repr() - old(Repr()))
      ensures Propagation.Drain(graph, old(InStep())) == Came(error)
      ensures error.Some? ==> failedOperator == LastOf(Evaluated(graph, old(InStep())))
    {
      ghost var ran;
      error, ran := DrainAll(Propagation.Drain(graph, InStep()), Evaluated(graph, InStep()));
    }

    /** Drains what is scheduled, which is to come to `goal` by evaluating `trace`. */
    method DrainAll(ghost goal: Outcome, ghost trace: seq<nat>) returns (error: Option<StepError>, ghost ran: seq<nat>)
      requires Built() && Valid() && WellFormed(graph) && Continues(graph, goal, trace, [], InStep())
      modifies Repr()
      ensures Valid() && unchanged(this`kept) && fresh(Repr() - old(Repr()))
      ensures goal == Came(error)
      ensures error.Some? ==> failedOperator == LastOf(trace)
    {
      ran := [];
      while dirty != {}
        invariant Valid() && unchanged(this`kept) && fresh(Repr() - old(Repr()))
        invariant Continues(graph, goal, trace, ran, InStep())
        decreases TotalPotential(CurrentStep(), |graph.operators|)
      {
        error, ran := Advance(goal, trace, ran);
        if error.Some? { return; }
      }
      DrainedWhole(graph, goal, trace, ran, InStep());
      return None, ran;
    }

    /** One round of a drain that is to come to `goal` and has evaluated `ran` so far. */
    method Advance(ghost goal: Outcome, ghost trace: seq<nat>, ghost ran: seq<nat>)
      returns (error: Option<StepError>, ghost all: seq<nat>)
      requires Built() && Valid() && WellFormed(graph) && Continues(graph, goal, trace, ran, InStep()) && dirty != {}
      modifies Repr()
      ensures Valid() && unchanged(this`kept) && fresh(Repr() - old(Repr()))
      ensures error.None? ==> Continues(graph, goal, trace, all, InStep())
      ensures error.None? ==> 0 <= TotalPotential(CurrentStep(), |graph.operators|) < TotalPotential(old(CurrentStep()), |graph.operators|)
      ensures error.Some? ==> goal == Err(error.value)
      ensures error.Some? ==> failedOperator == LastOf(trace)
    {
      ghost var before := InStep();
      error := Round();
      all := ran + [NextOperator(graph, before.step)];
      DrainedByOne(graph, goal, trace, ran, before, error, InStep());
    }

    /**
     * One step: it commits everything its wakes and writes lead to or, when anything throws, leaves the
     * engine exactly as it was, though buffers are pushed in place.
     */
    method Run(writes: seq<Pending>, at: Stamp, wakes: seq<string>) returns (result: Result<seq<DerivedWrite>, StepError>)
      requires Built() && Valid() && WellFormed(graph) && Known(graph, writes)
      modifies Repr()
      ensures Valid() && fresh(Repr() - old(Repr()))
      ensures var outcome := Propagation.Run(graph, old(Abstract()), writes, at, wakes);
              if outcome.Ok? then result == Ok(outcome.value.step.derived) && Abstract() == outcome.value.state
              else result == Err(outcome.error) && Abstract() == old(Abstract())
      ensures failedOperator == if result.Ok? || Pushed(graph, old(Abstract()), writes, at, wakes).Err? then None
                                else LastOf(RunTrace(graph, old(Abstract()), writes, at, wakes))
    {
      var saved := Save();
      ghost var past := history;
      StartStep(at);
      var error := Propagate(writes, wakes);
      if error.None? { return Ok(derived); }
      Rollback(saved, past);
      return Err(error.value);
    }

    method StartStep(at: Stamp)
      modifies this`stamp, this`dirty, this`reentries, this`derived, this`failedOperator
      ensures stamp == at && CurrentStep() == FreshStep(at) && failedOperator == None
    {
      stamp, dirty, reentries, derived, failedOperator := at, {}, map[], [], None;
    }

    /** Copies everything a step may change. */
    method Save() returns (saved: Saved)
      requires Valid()
      ensures saved.records.Keys == graph.nodes.Keys && saved.buffers.Keys == keys
      ensures Abstract() == StateOf(saved, kept, history)
    {
      var buffers := unread.Saved();
      saved := Saved(records, buffers, lastWrite, watched, expiries, writeSeq);
    }

    method Rollback(saved: Saved, ghost past: History)
      requires saved.records.Keys == graph.nodes.Keys && saved.buffers.Keys == keys
      modifies this`records, this`lastWrite, this`watched, this`expiries, this`writeSeq, this`history, unread
      ensures Valid() && fresh(unread.table.Values) && Abstract() == StateOf(saved, kept, past)
    {
      unread.Restore(saved.buffers);
      records, lastWrite, watched := saved.records, saved.lastWrite, saved.watched;
      expiries, writeSeq, history := saved.expiries, saved.writeSeq, past;
    }

    method Propagate(writes: seq<Pending>, wakes: seq<string>) returns (error: Option<StepError>)
      requires Built() && Valid() && WellFormed(graph) && Known(graph, writes)
      requires CurrentStep() == FreshStep(stamp) && failedOperator == None
      modifies Repr()
      ensures Valid() && unchanged(this`kept) && fresh(Repr() - old(Repr()))
      ensures Propagation.Run(graph, old(Abstract()), writes, old(stamp), wakes) == Came(error)
      ensures failedOperator == if error.None? || Pushed(graph, old(Abstract()), writes, old(stamp), wakes).Err? then None
                                else LastOf(RunTrace(graph, old(Abstract()), writes, old(stamp), wakes))
    {
      error := Push(writes, wakes);
      if error.Some? { return; }
      PushingSpendsNothing(graph, old(Abstract()), writes, old(stamp), wakes);
      error := Drain();
      if error.None? { failedOperator := None; }
    }

    /** Applies a step's wakes, then its writes, scheduling what they lead to. */
    method Push(writes: seq<Pending>, wakes: seq<string>) returns (error: Option<StepError>)
      requires Built() && Valid() && Known(graph, writes) && CurrentStep() == FreshStep(stamp)
      modifies this, unread`contents, unread.table.Values
      ensures Valid() && unchanged(this`kept, this`failedOperator)
      ensures Pushed(graph, old(Abstract()), writes, old(stamp), wakes) == Came(error)
    {
      error := WakeEach(wakes);
      if error.None? { error := WriteEach(writes); }
    }

    method WakeEach(wakes: seq<string>) returns (error: Option<StepError>)
      requires Valid()
      modifies this
      ensures Valid() && unchanged(this`kept, this`failedOperator)
      ensures WakeAll(graph, old(InStep()), wakes) == Came(error)
    {
      for k := 0 to |wakes|
        invariant Valid() && unchanged(this`kept, this`failedOperator)
        invariant WakeAll(graph, InStep(), wakes[k..]) == WakeAll(graph, old(InStep()), wakes)
      {
        assert wakes[k..][1..] == wakes[k + 1..];
        error := Wake(wakes[k]);
        if error.Some? { return; }
      }
      return None;
    }

    method WriteEach(writes: seq<Pending>) returns (error: Option<StepError>)
      requires Built() && Valid() && Known(graph, writes)
      modifies this, unread`contents, unread.table.Values
      ensures Valid() && unchanged(this`kept, this`failedOperator)
      ensures WriteAll(graph, old(InStep()), writes) == Came(error)
    {
      for k := 0 to |writes|
        invariant Valid() && unchanged(this`kept, this`failedOperator) && unread.table == old(unread.table)
        invariant WriteAll(graph, InStep(), writes[k..]) == WriteAll(graph, old(InStep()), writes)
      {
        assert writes[k..][1..] == writes[k + 1..];
        error := Write(writes[k].node, writes[k].written, false);
        if error.Some? { return; }
      }
      return None;
    }

    // ----- Between steps -----

    /** Restricts evaluation to the operators named, for good. */
    method KeepOnly(operators: set<string>)
      requires Valid()
      modifies this`kept
      ensures Valid() && Abstract() == old(Abstract()).(kept := Some(operators))
    {
      kept := Some(operators);
    }

    /** Takes everything effect `e` has not read, in the order it was delivered. */
    method TakeRequests(e: nat) returns (pulled: seq<Pulled>)
      requires Built() && Valid()
      modifies unread
      ensures Valid() && fresh(Repr() - old(Repr()))
      ensures pulled == Merged(Gathered(graph, old(Abstract()), OfEffect(e), 0), writeSeq)
      ensures Abstract() == Emptied(old(Abstract()), OfEffect(e))
    {
      assert HoldsReadsOf(graph, OfEffect(e), keys);
      pulled := unread.Take(graph, OfEffect(e), writeSeq, Abstract());
    }

    /** Whether some operator still evaluated watches `node`. */
    method HasWatcher(node: string) returns (found: bool)
      ensures found <==> IsWatched(graph, Abstract(), node)
    {
      var list := ReadersOf(graph, node);
      found := exists k :: 0 <= k < |list| && list[k].mode.Watch? && list[k].operator.Some? && KeepsUnder(graph, kept, list[k].operator.value);
      WatchersAmongReaders(graph, Abstract(), node);
    }

    /** Which nodes' watchers are to be woken at `at`. */
    method Due(at: int) returns (due: set<string>)
      ensures due == Steps.Due(graph, Abstract(), at)
    {
      due := {};
      var left := expiries.Keys;
      while left != {}
        invariant left <= expiries.Keys
        invariant due == set node | node in expiries && node !in left && IsDue(graph, Abstract(), node, at)
        decreases left
      {
        var node :| node in left;
        var watching := HasWatcher(node);
        if watching && |expiries[node]| > 0 && expiries[node][0] <= at { due := due + {node}; }
        left := left - {node};
      }
    }

    /** When some node's watchers are next to be woken. */
    method NextExpiry() returns (next: Option<int>)
      ensures next.None? <==> forall at :: Steps.Due(graph, Abstract(), at) == {}
      ensures next.Some? ==> forall at :: at < next.value <==> Steps.Due(graph, Abstract(), at) == {}
    {
      next := None;
      ghost var seen: set<string> := {};
      var left := expiries.Keys;
      while left != {}
        invariant left <= expiries.Keys
        invariant forall node :: node in expiries && node !in left && PendingExpiry(graph, Abstract(), node).Some? ==>
                    next.Some? && next.value <= PendingExpiry(graph, Abstract(), node).value
        invariant next.Some? ==> exists node :: node in expiries && PendingExpiry(graph, Abstract(), node) == next
        decreases left
      {
        var node :| node in left;
        var watching := HasWatcher(node);
        if watching && |expiries[node]| > 0 {
          assert PendingExpiry(graph, Abstract(), node) == Some(expiries[node][0]);
          if next.None? || expiries[node][0] < next.value { next := Some(expiries[node][0]); }
        }
        left := left - {node};
      }
      if next.Some? {
        ghost var node :| node in expiries && PendingExpiry(graph, Abstract(), node) == next;
        assert node in Steps.Due(graph, Abstract(), next.value);
        assert forall at :: next.value <= at ==> node in Steps.Due(graph, Abstract(), at);
      }
    }
  }

  /** The operator a failed step ran last: the one it failed in. */
  function LastOf(trace: seq<nat>): Option<nat> {
    if trace == [] then None else Some(trace[|trace| - 1])
  }

  /** Draining `w`, having evaluated `ran` already, comes to `goal` and completes `trace`. */
  ghost predicate Continues(g: Graph, goal: Outcome, trace: seq<nat>, ran: seq<nat>, w: World)
    requires WellFormed(g)
  {
    Bounded(g, w.step) && Propagation.Drain(g, w) == goal && trace == ran + Evaluated(g, w)
  }

  lemma DrainedByOne(g: Graph, goal: Outcome, trace: seq<nat>, ran: seq<nat>, w: World, error: Option<StepError>, next: World)
    requires WellFormed(g) && Continues(g, goal, trace, ran, w) && w.step.dirty != {}
    requires var i := NextOperator(g, w.step);
             Steps.Evaluate(g, w.(step := Begun(w.step, i)), i) == if error.Some? then Err(error.value) else Ok(next)
    ensures error.Some? ==> goal == Err(error.value) && LastOf(trace) == Some(NextOperator(g, w.step))
    ensures error.None? ==> Continues(g, goal, trace, ran + [NextOperator(g, w.step)], next)
    ensures error.None? ==> 0 <= TotalPotential(next.step, |g.operators|) < TotalPotential(w.step, |g.operators|)
  {
    if error.None? {
      RoundSpendsOne(g, w);
    } else {
      assert Evaluated(g, w) == [NextOperator(g, w.step)];
    }
  }

  lemma DrainedWhole(g: Graph, goal: Outcome, trace: seq<nat>, ran: seq<nat>, w: World)
    requires WellFormed(g) && Continues(g, goal, trace, ran, w) && w.step.dirty == {}
    ensures goal == Ok(w)
  {
  }

  lemma WatchersAmongReaders(g: Graph, s: State, node: string)
    ensures IsWatched(g, s, node) <==>
            exists k :: 0 <= k < |ReadersOf(g, node)| && ReadersOf(g, node)[k].mode.Watch? && ReadersOf(g, node)[k].operator.Some?
                        && KeepsUnder(g, s.kept, ReadersOf(g, node)[k].operator.value)
  {
    var list := ReadersOf(g, node);
    ReadersRight(g, node);
    if IsWatched(g, s, node) {
      var i: nat, j: nat :| i < |g.operators| && j < |g.operators[i].edges| && Keeps(g, s, i) && g.operators[i].edges[j] == Edge(node, Watch);
      var e := ReaderEntry(Some(i), Key(OfOperator(i), j), Watch);
      assert IsReader(g, node, e) && e in list;
      var k :| 0 <= k < |list| && list[k] == e;
    }
    if k :| 0 <= k < |list| && list[k].mode.Watch? && list[k].operator.Some? && KeepsUnder(g, s.kept, list[k].operator.value) {
      var e := list[k];
      assert e in list && IsReader(g, node, e);
      var i, j := e.operator.value, e.key.input;
      assert i < |g.operators| && j < |g.operators[i].edges| && Keeps(g, s, i) && g.operators[i].edges[j] == Edge(node, Watch);
    }
  }

  lemma WellFormedDeclared(g: Graph, i: nat)
    requires WellFormed(g) && IsOperator(g, i)
    ensures Declared(g, i)
  {
    var op := g.operators[i];
    assert op.output in Outputs(op);
    if op.FoldOp? { assert forall n :: n in op.emits ==> n in Outputs(op); }
  }

  lemma {:induction false} AppliedOneMore(op: Operator, state: Data, inputs: seq<FoldInput>, k: nat)
    requires op.FoldOp? && k < |inputs| && Applied(op, state, inputs[..k]).Some?
    ensures var before: FoldStep := Applied(op, state, inputs[..k]).value;
            var last: Option<FoldStep> := op.applyInput(before.state, inputs[k]);
            if last.None? then Applied(op, state, inputs).None?
            else Applied(op, state, inputs[..k + 1]) == Some(FoldStep(last.value.state, before.emit + last.value.emit))
    decreases k
  {
    if k == 0 {
      assert inputs[..1][1..] == [];
      var last := op.applyInput(state, inputs[0]);
      if last.Some? { assert [] + last.value.emit == last.value.emit == last.value.emit + []; }
    } else {
      var first: FoldStep := op.applyInput(state, inputs[0]).value;
      assert inputs[..k][1..] == inputs[1..][..k - 1];
      assert inputs[..k + 1][1..] == inputs[1..][..k];
      AppliedOneMore(op, first.state, inputs[1..], k - 1);
      var rest := Applied(op, first.state, inputs[1..][..k - 1]).value;
      var last := op.applyInput(rest.state, inputs[k]);
      if last.Some? { assert first.emit + (rest.emit + last.value.emit) == (first.emit + rest.emit) + last.value.emit; }
    }
  }

  // ----- What a fold has watched, read by read -----

  function WatchedBelow(g: Graph, s: State, i: nat, n: nat, stamp: Stamp): seq<Pulled>
    requires IsFold(g, i) && n <= |g.operators[i].edges|
  {
    if n == 0 then []
    else
      WatchedBelow(g, s, i, n - 1, stamp)
      + if Unseen(g, s, i, n - 1) then
          var node := g.operators[i].edges[n - 1].node;
          [Pulled(FoldInput(n - 1, Watched(RecordOf(s, node)), stamp), s.lastWrite[node])]
        else []
  }

  lemma {:induction false} WatchedWhole(g: Graph, s: State, i: nat, n: nat, stamp: Stamp)
    requires IsFold(g, i) && n <= |g.operators[i].edges|
    ensures WatchedBelow(g, s, i, n, stamp) + WatchedInputs(g, s, i, n, stamp) == WatchedInputs(g, s, i, 0, stamp)
    ensures n == |g.operators[i].edges| ==> WatchedBelow(g, s, i, n, stamp) == WatchedInputs(g, s, i, 0, stamp)
  {
    if n > 0 { WatchedWhole(g, s, i, n - 1, stamp); }
  }

  lemma {:induction false} SeenOnlyBelow(g: Graph, s: State, i: nat, n: nat)
    requires IsFold(g, i) && n <= |g.operators[i].edges|
    ensures forall key: Key :: !(key.reader == OfOperator(i) && key.input < n) ==>
              (key in SeenBelow(g, s, i, n) <==> key in s.watched)
              && (key in s.watched ==> SeenBelow(g, s, i, n)[key] == s.watched[key])
  {
    if n > 0 { SeenOnlyBelow(g, s, i, n - 1); }
  }

  /** What the first `n` inputs of map `i` make of it: one that failed outweighs one that is unknown. */
  function BlockedBelow(g: Graph, s: State, i: nat, n: nat): Blockage
    requires IsMap(g, i) && n <= |g.operators[i].edges|
  {
    if n == 0 then Clear
    else
      var before := BlockedBelow(g, s, i, n - 1);
      if !BlockedAt(g, s, i, n - 1) then before
      else if before.Failed? || FailedAt(g, s, i, n - 1) then Failed
      else Unknown
  }

  lemma {:induction false} BlockedExactly(g: Graph, s: State, i: nat, n: nat)
    requires IsMap(g, i) && n <= |g.operators[i].edges|
    ensures !BlockedBelow(g, s, i, n).Clear? <==> exists j: nat :: j < n && BlockedAt(g, s, i, j)
    ensures BlockedBelow(g, s, i, n).Failed? <==> exists j: nat :: j < n && FailedAt(g, s, i, j)
  {
    if n > 0 { BlockedExactly(g, s, i, n - 1); }
  }

  lemma RecordedInPlace(g: Graph, s: State, node: string, written: Written, found: seq<int>, stamp: Stamp, delivery: Sequenced, after: State)
    requires delivery == Sequenced(ValueOfWrite(written), stamp, s.writeSeq + 1)
    requires after.records == s.records[node := Held(written)] && after.buffers == Buffered(g, s.buffers, node, delivery)
    requires after.lastWrite == s.lastWrite[node := s.writeSeq + 1] && after.writeSeq == s.writeSeq + 1
    requires after.expiries == Presented(s.expiries, node, found, stamp.at) && after.watched == s.watched && after.kept == s.kept
    requires after.history == s.history.(log := s.history.log + [Logged(node, delivery)])
    ensures after == Recorded(g, s, node, written, found, stamp)
  {
  }

  lemma WrittenInPlace(g: Graph, w: World, node: string, written: Written, found: seq<int>, isDerived: bool,
                     error: Option<StepError>, after: World)
    requires node in g.nodes && node in w.state.records && ExpiriesOf(g.nodes[node], written) == Some(found)
    requires !(g.nodes[node].coalesces && w.state.records[node] == Held(written))
    requires var visited := Visited(g, w.state.kept, w.step, ReadersOf(g, node), Wrote(w.state.records[node], written));
             if error.Some? then visited == Err(error.value)
             else visited.Ok? && after == World(Recorded(g, w.state, node, written, found, w.step.stamp), Noted(visited.value, node, written, isDerived))
    ensures Steps.Write(g, w, node, written, isDerived) == if error.Some? then Err(error.value) else Ok(after)
  {
    WriteByReaders(g, w, node, written, isDerived, found);
  }
}
