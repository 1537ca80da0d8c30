/** What effects take of the writes to their inputs: over any run each one once, in the order it was written. */
module Requests {
  import opened Basics
  import opened DataValues
  import opened Graphs
  import opened Steps
  import opened Propagation
  import opened Deliveries
  import opened Invariants
  import opened EngineRuns

  function EdgeAt(g: Graph, e: nat, j: nat): Edge
    requires j < |EdgesOf(g, OfEffect(e))|
  {
    EdgesOf(g, OfEffect(e))[j]
  }

  predicate IsRequest(g: Graph, e: nat, j: nat) {
    j < |EdgesOf(g, OfEffect(e))| && EdgeAt(g, e, j).mode.Every?
  }

  ghost predicate HasBuffers(g: Graph, s: State) {
    s.buffers.Keys == OperatorKeys(g) + EffectKeys(g)
  }

  /** From `a` to `b` the buffers of effect `e` grew by exactly what was logged meanwhile. */
  ghost predicate Delivered(g: Graph, e: nat, a: State, b: State) {
    && HasBuffers(g, a) && HasBuffers(g, b) && a.history.log <= b.history.log
    && forall j: nat :: IsRequest(g, e, j) ==>
         BufferOf(b, Key(OfEffect(e), j)) == BufferOf(a, Key(OfEffect(e), j)) + LogAt(b.history.log[|a.history.log|..], EdgeAt(g, e, j).node)
  }

  lemma {:induction false} LogAtDistributes(a: seq<Logged>, b: seq<Logged>, node: string)
    ensures LogAt(a + b, node) == LogAt(a, node) + LogAt(b, node)
  {
    if b == [] {
      assert a + b == a;
    } else {
      assert (a + b)[..|a + b| - 1] == a + b[..|b| - 1];
      LogAtDistributes(a, b[..|b| - 1], node);
    }
  }

  lemma LogInTwo(a: seq<Logged>, b: seq<Logged>, c: seq<Logged>, from: nat, node: string)
    requires a <= b <= c && from <= |a|
    ensures c[from..] == b[from..] + c[|b|..]
    ensures LogAt(c[from..], node) == LogAt(b[from..], node) + LogAt(c[|b|..], node)
  {
    assert c[from..] == b[from..] + c[|b|..];
    LogAtDistributes(b[from..], c[|b|..], node);
  }

  lemma DeliveredAtInTwo(g: Graph, e: nat, a: State, b: State, c: State, j: nat)
    requires Delivered(g, e, a, b) && Delivered(g, e, b, c) && IsRequest(g, e, j)
    ensures BufferOf(c, Key(OfEffect(e), j)) == BufferOf(a, Key(OfEffect(e), j)) + LogAt(c.history.log[|a.history.log|..], EdgeAt(g, e, j).node)
  {
    var node := EdgeAt(g, e, j).node;
    var first, second := LogAt(b.history.log[|a.history.log|..], node), LogAt(c.history.log[|b.history.log|..], node);
    LogInTwo(a.history.log, b.history.log, c.history.log, |a.history.log|, node);
    Regrouped(BufferOf(a, Key(OfEffect(e), j)), first, second);
  }

  lemma Regrouped(a: seq<Sequenced>, b: seq<Sequenced>, c: seq<Sequenced>)
    ensures a + b + c == a + (b + c)
  {
  }

  lemma DeliveredInTwo(g: Graph, e: nat, a: State, b: State, c: State)
    requires Delivered(g, e, a, b) && Delivered(g, e, b, c)
    ensures Delivered(g, e, a, c)
  {
    forall j: nat | IsRequest(g, e, j) { DeliveredAtInTwo(g, e, a, b, c, j); }
  }

  // ----- What one step delivers -----

  lemma NothingLogged(g: Graph, e: nat, a: State, b: State)
    requires HasBuffers(g, a) && HasBuffers(g, b) && b.history.log == a.history.log
    requires forall j: nat :: IsRequest(g, e, j) ==> BufferOf(b, Key(OfEffect(e), j)) == BufferOf(a, Key(OfEffect(e), j))
    ensures Delivered(g, e, a, b)
  {
    assert b.history.log[|a.history.log|..] == [];
  }

  lemma WriteDelivers(g: Graph, w: World, e: nat, node: string, written: Written, derived: bool)
    requires node in g.nodes && HasBuffers(g, w.state) && Write(g, w, node, written, derived).Ok?
    ensures Delivered(g, e, w.state, Write(g, w, node, written, derived).value.state)
  {
    var after := Write(g, w, node, written, derived).value.state;
    if g.nodes[node].coalesces && RecordOf(w.state, node) == Held(written) {
      NothingLogged(g, e, w.state, after);
    } else {
      RecordingDelivers(g, w.state, e, node, written, ExpiriesOf(g.nodes[node], written).value, w.step.stamp, after);
    }
  }

  lemma RecordingDelivers(g: Graph, s: State, e: nat, node: string, written: Written, found: seq<int>, stamp: Stamp, after: State)
    requires HasBuffers(g, s) && after == Recorded(g, s, node, written, found, stamp)
    ensures Delivered(g, e, s, after)
  {
    var entry := Logged(node, Sequenced(ValueOfWrite(written), stamp, s.writeSeq + 1));
    assert after.history.log[|s.history.log|..] == [entry];
    assert [entry][..0] == [];
    forall j: nat | IsRequest(g, e, j)
      ensures BufferOf(after, Key(OfEffect(e), j)) == BufferOf(s, Key(OfEffect(e), j)) + LogAt([entry], EdgeAt(g, e, j).node)
    {
      assert Key(OfEffect(e), j) in EffectKeys(g);
      assert LogAt([entry], EdgeAt(g, e, j).node) == if node == EdgeAt(g, e, j).node then [entry.delivery] else [];
    }
  }

  lemma {:induction false} EmittingDelivers(g: Graph, w: World, e: nat, i: nat, emits: seq<Emit>)
    requires WellFormed(g) && HasBuffers(g, w.state) && IsFold(g, i) && EmitAll(g, w, i, emits).Ok?
    ensures Delivered(g, e, w.state, EmitAll(g, w, i, emits).value.state)
    decreases |emits|
  {
    if emits == [] {
      NothingLogged(g, e, w.state, w.state);
    } else {
      var written := Present(emits[0].value, None, None);
      var next := Write(g, w, emits[0].node, written, true).value;
      WriteDelivers(g, w, e, emits[0].node, written, true);
      EmittingDelivers(g, next, e, i, emits[1..]);
      DeliveredInTwo(g, e, w.state, next.state, EmitAll(g, w, i, emits).value.state);
    }
  }

  lemma TakingDelivers(g: Graph, s: State, e: nat, i: nat, after: State)
    requires HasBuffers(g, s) && after.buffers == Emptied(s, OfOperator(i)).buffers && after.history.log == s.history.log
    ensures Delivered(g, e, s, after)
  {
    NothingLogged(g, e, s, after);
  }

  lemma EvaluatingMapDelivers(g: Graph, w: World, e: nat, i: nat)
    requires WellFormed(g) && HasBuffers(g, w.state) && IsMap(g, i) && EvaluateMap(g, w, i).Ok?
    ensures Delivered(g, e, w.state, EvaluateMap(g, w, i).value.state)
  {
    var op := g.operators[i];
    if IsBlocked(g, w.state, i) {
      WriteDelivers(g, w, e, op.output, Blocked(IsFailed(g, w.state, i), None), true);
    } else {
      var taken := w.(state := TakenByMap(w.state, i));
      TakingDelivers(g, w.state, e, i, taken.state);
      WriteDelivers(g, taken, e, op.output, Present(op.compute(MapInputs(g, w.state, i)).value, None, None), true);
      DeliveredInTwo(g, e, w.state, taken.state, EvaluateMap(g, w, i).value.state);
    }
  }

  lemma EvaluatingFoldDelivers(g: Graph, w: World, e: nat, i: nat)
    requires WellFormed(g) && HasBuffers(g, w.state) && IsFold(g, i) && EvaluateFold(g, w, i).Ok?
    ensures Delivered(g, e, w.state, EvaluateFold(g, w, i).value.state)
  {
    var op := g.operators[i];
    var next := Folded(op, ValueOf(RecordOf(w.state, op.output)), FoldInputs(g, w, i), w.step.stamp).value;
    var taken := w.(state := Taken(g, w, i));
    var written := Write(g, taken, op.output, Present(next.state, None, None), true).value;
    var after := EvaluateFold(g, w, i).value.state;
    TakingDelivers(g, w.state, e, i, taken.state);
    WriteDelivers(g, taken, e, op.output, Present(next.state, None, None), true);
    EmittingDelivers(g, written, e, i, next.emit);
    DeliveredInTwo(g, e, w.state, taken.state, written.state);
    DeliveredInTwo(g, e, w.state, written.state, after);
  }

  lemma {:induction false} DrainDelivers(g: Graph, w: World, e: nat)
    requires WellFormed(g) && HasBuffers(g, w.state) && Bounded(g, w.step) && Drain(g, w).Ok?
    ensures Delivered(g, e, w.state, Drain(g, w).value.state)
    decreases TotalPotential(w.step, |g.operators|)
  {
    if w.step.dirty == {} {
      NothingLogged(g, e, w.state, w.state);
    } else {
      var i := NextOperator(g, w.step);
      var began := w.(step := Begun(w.step, i));
      var next := Evaluate(g, began, i).value;
      RoundSpendsOne(g, w);
      if g.operators[i].MapOp? { EvaluatingMapDelivers(g, began, e, i); } else { EvaluatingFoldDelivers(g, began, e, i); }
      DrainDelivers(g, next, e);
      DeliveredInTwo(g, e, w.state, next.state, Drain(g, w).value.state);
    }
  }

  lemma {:induction false} WakingDelivers(g: Graph, w: World, e: nat, nodes: seq<string>)
    requires HasBuffers(g, w.state) && WakeAll(g, w, nodes).Ok?
    ensures Delivered(g, e, w.state, WakeAll(g, w, nodes).value.state)
    decreases |nodes|
  {
    if nodes == [] {
      NothingLogged(g, e, w.state, w.state);
    } else {
      var next := Wake(g, w, nodes[0]).value;
      NothingLogged(g, e, w.state, next.state);
      WakingDelivers(g, next, e, nodes[1..]);
      DeliveredInTwo(g, e, w.state, next.state, WakeAll(g, w, nodes).value.state);
    }
  }

  lemma {:induction false} WritingDelivers(g: Graph, w: World, e: nat, writes: seq<Pending>)
    requires Known(g, writes) && HasBuffers(g, w.state) && WriteAll(g, w, writes).Ok?
    ensures Delivered(g, e, w.state, WriteAll(g, w, writes).value.state)
    decreases |writes|
  {
    if writes == [] {
      NothingLogged(g, e, w.state, w.state);
    } else {
      var next := Write(g, w, writes[0].node, writes[0].written, false).value;
      WriteDelivers(g, w, e, writes[0].node, writes[0].written, false);
      WritingDelivers(g, next, e, writes[1..]);
      DeliveredInTwo(g, e, w.state, next.state, WriteAll(g, w, writes).value.state);
    }
  }

  /** A committed step adds to an effect's buffers just the writes it logs. */
  lemma StepsDeliver(g: Graph, s: State, e: nat, writes: seq<Pending>, stamp: Stamp, wakes: seq<string>)
    requires WellFormed(g) && Known(g, writes) && HasBuffers(g, s) && Run(g, s, writes, stamp, wakes).Ok?
    ensures Delivered(g, e, s, Run(g, s, writes, stamp, wakes).value.state)
  {
    var from := World(s, FreshStep(stamp));
    var woken, pushed := WakeAll(g, from, wakes).value, Pushed(g, s, writes, stamp, wakes).value;
    WakingDelivers(g, from, e, wakes);
    WritingDelivers(g, woken, e, writes);
    PushingSpendsNothing(g, s, writes, stamp, wakes);
    DrainDelivers(g, pushed, e);
    DeliveredInTwo(g, e, s, woken.state, pushed.state);
    DeliveredInTwo(g, e, s, pushed.state, Run(g, s, writes, stamp, wakes).value.state);
  }

  // ----- Over whole runs -----

  /** Effect `e` has yet to take exactly what was logged from `cut` on. */
  ghost predicate Waiting(g: Graph, e: nat, s: State, cut: nat) {
    && HasBuffers(g, s) && cut <= |s.history.log|
    && forall j: nat :: IsRequest(g, e, j) ==> BufferOf(s, Key(OfEffect(e), j)) == LogAt(s.history.log[cut..], EdgeAt(g, e, j).node)
  }

  /** What effect `e` would take now. */
  function Unread(g: Graph, s: State, e: nat): seq<Pulled> {
    Merged(Gathered(g, s, OfEffect(e), 0), s.writeSeq)
  }

  lemma {:induction false} GatheredFromRequests(g: Graph, e: nat, s: State, cut: nat, from: nat)
    requires Waiting(g, e, s, cut)
    ensures Gathered(g, s, OfEffect(e), from) == GatheredFromLog(EdgesOf(g, OfEffect(e)), s.history.log[cut..], from)
    decreases |EdgesOf(g, OfEffect(e))| - from
  {
    if from < |EdgesOf(g, OfEffect(e))| {
      GatheredFromRequests(g, e, s, cut, from + 1);
      assert EdgeAt(g, e, from).mode.Every? ==> IsRequest(g, e, from);
    }
  }

  lemma {:induction false} LogAtUpTo(log: seq<Logged>, last: nat, node: string)
    requires InOrder(log, last)
    ensures forall d :: d in LogAt(log, node) ==> d.order <= last
  {
    if log != [] { LogAtUpTo(log[..|log| - 1], last, node); }
  }

  lemma {:induction false} GatheredUpTo(edges: seq<Edge>, log: seq<Logged>, last: nat, from: nat)
    requires InOrder(log, last)
    ensures forall p :: p in GatheredFromLog(edges, log, from) ==> p.order <= last
    decreases |edges| - from
  {
    if from < |edges| {
      LogAtUpTo(log, last, edges[from].node);
      GatheredUpTo(edges, log, last, from + 1);
    }
  }

  /** What waits is what is owed since `cut`; and taking it leaves nothing behind. */
  lemma WaitingIsOwed(g: Graph, e: nat, s: State, cut: nat)
    requires Waiting(g, e, s, cut) && InOrder(s.history.log, s.writeSeq)
    ensures Unread(g, s, e) == Owed(EdgesOf(g, OfEffect(e)), s.history.log[cut..])
    ensures multiset(Unread(g, s, e)) == multiset(Gathered(g, s, OfEffect(e), 0))
  {
    var edges, log := EdgesOf(g, OfEffect(e)), s.history.log[cut..];
    assert InOrder(log, s.writeSeq);
    GatheredFromRequests(g, e, s, cut, 0);
    MergedBuffersAreOwed(edges, log, s.writeSeq);
    GatheredUpTo(edges, log, s.writeSeq, 0);
    MergedKeepsAll(Gathered(g, s, OfEffect(e), 0), s.writeSeq);
  }

  /** Everything effect `e` took over a run from `s` to `last`. */
  ghost function TakenOver(g: Graph, s: State, events: seq<Event>, last: State, e: nat): seq<Pulled>
    requires WellFormed(g) && EngineRuns.Reaches(g, s, events, last)
    decreases |events|
  {
    if events == [] then []
    else
      (if events[0] == EffectTook(e) then Unread(g, s, e) else [])
      + TakenOver(g, Next(g, s, events[0]), events[1..], last, e)
  }

  /** Where the next thing effect `e` will take stands in the log. */
  function CutAfter(s: State, event: Event, e: nat, cut: nat): nat {
    if event == EffectTook(e) then |s.history.log| else cut
  }

  lemma StepsKeepWaiting(g: Graph, e: nat, s: State, after: State, cut: nat)
    requires Waiting(g, e, s, cut) && Delivered(g, e, s, after)
    ensures Waiting(g, e, after, cut)
  {
    forall j: nat | IsRequest(g, e, j) ensures BufferOf(after, Key(OfEffect(e), j)) == LogAt(after.history.log[cut..], EdgeAt(g, e, j).node) {
      LogInTwo(s.history.log[..cut], s.history.log, after.history.log, cut, EdgeAt(g, e, j).node);
    }
  }

  lemma NextWaiting(g: Graph, e: nat, s: State, event: Event, cut: nat)
    requires WellFormed(g) && Allowed(g, s, event) && Waiting(g, e, s, cut)
    ensures Waiting(g, e, Next(g, s, event), CutAfter(s, event, e, cut)) && s.history.log <= Next(g, s, event).history.log
  {
    match event
    case Stepped(writes, stamp, wakes) =>
      if Run(g, s, writes, stamp, wakes).Ok? {
        StepsDeliver(g, s, e, writes, stamp, wakes);
        StepsKeepWaiting(g, e, s, Run(g, s, writes, stamp, wakes).value.state, cut);
      }
    case KeptOnly(_) =>
    case EffectTook(taker) =>
      EmptyingWaits(g, e, s, taker, cut);
  }

  lemma EmptyingWaits(g: Graph, e: nat, s: State, taker: nat, cut: nat)
    requires Waiting(g, e, s, cut)
    ensures Waiting(g, e, Emptied(s, OfEffect(taker)), if taker == e then |s.history.log| else cut)
  {
    assert s.history.log[|s.history.log|..] == [];
  }

  /** A run from `s` to `last` leaves of what is owed since `cut` only what effect `e` has not taken. */
  ghost predicate Takes(g: Graph, e: nat, s: State, last: State, cut: nat, taken: seq<Pulled>) {
    && s.history.log <= last.history.log && cut <= |s.history.log|
    && taken + Unread(g, last, e) == Owed(EdgesOf(g, OfEffect(e)), last.history.log[cut..])
    && multiset(Unread(g, last, e)) == multiset(Gathered(g, last, OfEffect(e), 0))
  }

  lemma TakesNothingYet(g: Graph, e: nat, s: State, cut: nat)
    requires Waiting(g, e, s, cut) && InOrder(s.history.log, s.writeSeq)
    ensures Takes(g, e, s, s, cut, [])
  {
    WaitingIsOwed(g, e, s, cut);
    assert [] + Unread(g, s, e) == Unread(g, s, e);
  }

  lemma TakesNow(g: Graph, e: nat, s: State, next: State, last: State, cut: nat, rest: seq<Pulled>)
    requires Waiting(g, e, s, cut) && InOrder(s.history.log, s.writeSeq)
    requires next.history.log == s.history.log && Takes(g, e, next, last, |s.history.log|, rest)
    ensures Takes(g, e, s, last, cut, Unread(g, s, e) + rest)
  {
    WaitingIsOwed(g, e, s, cut);
    assert last.history.log[cut..] == s.history.log[cut..] + last.history.log[|s.history.log|..];
    OwedDistributes(EdgesOf(g, OfEffect(e)), s.history.log[cut..], last.history.log[|s.history.log|..]);
    assert Unread(g, s, e) + rest + Unread(g, last, e) == Unread(g, s, e) + (rest + Unread(g, last, e));
  }

  lemma {:induction false} RunTakes(g: Graph, e: nat, s: State, events: seq<Event>, last: State, cut: nat)
    requires WellFormed(g) && Settled(g, s) && EngineRuns.Reaches(g, s, events, last) && Waiting(g, e, s, cut)
    ensures Takes(g, e, s, last, cut, TakenOver(g, s, events, last, e))
    decreases |events|
  {
    if events == [] {
      TakesNothingYet(g, e, s, cut);
    } else {
      var event, next := events[0], Next(g, s, events[0]);
      var rest := TakenOver(g, next, events[1..], last, e);
      NextSettled(g, s, event);
      NextWaiting(g, e, s, event, cut);
      RunTakes(g, e, next, events[1..], last, CutAfter(s, event, e, cut));
      if event == EffectTook(e) {
        TakesNow(g, e, s, next, last, cut, rest);
      } else {
        assert [] + rest == rest;
      }
    }
  }

  /**
   * Over any run, rolled back steps and a degrade included, what an effect has taken, and what it would take
   * next, are together each committed write of its inputs, once and in the order written; and taking leaves
   * nothing unread behind.
   */
  lemma EffectsTakeEachWriteOnce(g: Graph, events: seq<Event>, last: State, e: nat)
    requires WellFormed(g) && Creatable(g) && EngineRuns.Reaches(g, Initial(g), events, last)
    ensures TakenOver(g, Initial(g), events, last, e) + Unread(g, last, e) == Owed(EdgesOf(g, OfEffect(e)), last.history.log)
    ensures multiset(Unread(g, last, e)) == multiset(Gathered(g, last, OfEffect(e), 0))
  {
    InitialSettled(g);
    assert Initial(g).history.log[0..] == [];
    RunTakes(g, e, Initial(g), events, last, 0);
    assert last.history.log[0..] == last.history.log;
  }
}
