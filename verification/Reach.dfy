/** The nodes a push can lead to, found by a fixpoint, and that steps write no others. */
module Reach {
  import opened Basics
  import opened DataValues
  import opened Graphs
  import opened Steps
  import opened Propagation
  import opened Deliveries
  import opened Invariants
  import opened StepInvariants
  import opened EngineRuns

  /** An operator or effect as reachability sees it: started from any node of `from`, it may write all of `to`. */
  datatype Carrier = Carrier(id: string, from: seq<string>, to: seq<string>)

  /** The nodes whose writes can schedule a reader of `edges`: all but those it only samples and that start with a value. */
  function SchedulesFrom(g: Graph, edges: seq<Edge>): seq<string> {
    if edges == [] then []
    else
      (if edges[0].mode != Latest(false) || edges[0].node !in g.initials then [edges[0].node] else [])
      + SchedulesFrom(g, edges[1..])
  }

  function EveryNodes(edges: seq<Edge>): seq<string> {
    if edges == [] then []
    else (if edges[0].mode.Every? then [edges[0].node] else []) + EveryNodes(edges[1..])
  }

  /** The nodes whose writes can start `effect`: those it takes deliveries of and, if it waits to be ready, its samples. */
  function StartsFrom(effect: Effect): seq<string> {
    EveryNodes(effect.edges) + if effect.waitsReady then effect.samples else []
  }

  function CarriersOf(g: Graph, skipped: set<string>): seq<Carrier> {
    Unskipped(seq(|g.operators|, i requires 0 <= i < |g.operators| =>
                Carrier(g.operators[i].id, SchedulesFrom(g, g.operators[i].edges), Outputs(g.operators[i])))
              + seq(|g.effects|, e requires 0 <= e < |g.effects| =>
                Carrier(g.effects[e].id, StartsFrom(g.effects[e]),
                        if g.effects[e].results.Some? then [g.effects[e].results.value] else [])),
              skipped)
  }

  function Unskipped(carriers: seq<Carrier>, skipped: set<string>): seq<Carrier> {
    if carriers == [] then []
    else (if carriers[0].id in skipped then [] else [carriers[0]]) + Unskipped(carriers[1..], skipped)
  }

  predicate Starts(carrier: Carrier, nodes: set<string>) {
    exists k :: 0 <= k < |carrier.from| && carrier.from[k] in nodes
  }

  predicate Covers(carrier: Carrier, nodes: set<string>) {
    forall k :: 0 <= k < |carrier.to| ==> carrier.to[k] in nodes
  }

  /** Whatever starts from `nodes` writes only into `nodes`. */
  ghost predicate Closed(carriers: seq<Carrier>, nodes: set<string>) {
    forall c :: 0 <= c < |carriers| && Starts(carriers[c], nodes) ==> Covers(carriers[c], nodes)
  }

  /** Following `via` from any node strictly descends `rank` until a seed, which maps to itself. */
  ghost predicate LeadsBack(via: map<string, string>, from: seq<string>, rank: map<string, nat>) {
    rank.Keys == via.Keys && forall n {:trigger LeadsFrom(via, from, rank, n)} :: n in via ==> LeadsFrom(via, from, rank, n)
  }

  ghost predicate LeadsFrom(via: map<string, string>, from: seq<string>, rank: map<string, nat>, node: string)
    requires node in via && rank.Keys == via.Keys
  {
    && via[node] in via
    && (via[node] == node ==> node in from)
    && (via[node] != node ==> rank[via[node]] < rank[node])
  }

  function AllTargets(carriers: seq<Carrier>): set<string> {
    set c, k | 0 <= c < |carriers| && 0 <= k < |carriers[c].to| :: carriers[c].to[k]
  }

  function FirstHit(from: seq<string>, via: map<string, string>): (hit: Option<string>)
    ensures hit.Some? <==> exists k :: 0 <= k < |from| && from[k] in via
    ensures hit.Some? ==> hit.value in via && hit.value in from
  {
    if from == [] then None
    else if from[0] in via then Some(from[0])
    else
      var rest := FirstHit(from[1..], via);
      assert forall k :: 1 <= k < |from| ==> from[k] == from[1..][k - 1];
      rest
  }

  /** `via` with each node of `to` not yet reached, reached through `hit`. */
  function Grown(via: map<string, string>, hit: string, to: seq<string>): map<string, string> {
    via + map n | n in to && n !in via :: hit
  }

  lemma GrownLeadsBack(via: map<string, string>, hit: string, to: seq<string>, from: seq<string>, rank: map<string, nat>)
    returns (ranks: map<string, nat>)
    requires hit in via && LeadsBack(via, from, rank)
    ensures LeadsBack(Grown(via, hit, to), from, ranks)
  {
    ranks := rank + map n | n in to && n !in via :: rank[hit] + 1;
    var grown := Grown(via, hit, to);
    forall n | n in grown ensures LeadsFrom(grown, from, ranks, n) {
      if n in via { assert LeadsFrom(via, from, rank, n); }
    }
  }

  /** `nodes` is within every closed set that holds `from`. */
  ghost predicate Least(carriers: seq<Carrier>, from: seq<string>, nodes: set<string>) {
    forall closed: set<string> :: (forall n :: n in from ==> n in closed) && Closed(carriers, closed) ==> nodes <= closed
  }

  lemma GrownLeast(carriers: seq<Carrier>, from: seq<string>, c: nat, via: map<string, string>, hit: string)
    requires c < |carriers| && Least(carriers, from, via.Keys) && hit in via && hit in carriers[c].from
    ensures Least(carriers, from, Grown(via, hit, carriers[c].to).Keys)
  {
    var grown := Grown(via, hit, carriers[c].to).Keys;
    forall closed: set<string> | (forall n :: n in from ==> n in closed) && Closed(carriers, closed) ensures grown <= closed {
      assert via.Keys <= closed;
      assert Starts(carriers[c], closed);
      assert Covers(carriers[c], closed);
    }
  }

  ghost predicate Sound(carriers: seq<Carrier>, from: seq<string>, via: map<string, string>, rank: map<string, nat>) {
    && LeadsBack(via, from, rank)
    && (forall n :: n in from ==> n in via && via[n] == n)
    && Least(carriers, from, via.Keys)
    && via.Keys <= Possible(carriers, from)
  }

  function Possible(carriers: seq<Carrier>, from: seq<string>): set<string> {
    (set n | n in from) + AllTargets(carriers)
  }

  /** The first `c` carriers start nothing new from `nodes`. */
  ghost predicate Visited(carriers: seq<Carrier>, c: nat, nodes: set<string>) {
    forall d :: 0 <= d < c && d < |carriers| && Starts(carriers[d], nodes) ==> Covers(carriers[d], nodes)
  }

  /** `via` once carrier `c` has run: extended from the first node it starts from, if any is reached. */
  function Carried(carriers: seq<Carrier>, c: nat, via: map<string, string>): map<string, string>
    requires c < |carriers|
  {
    var hit := FirstHit(carriers[c].from, via);
    if hit.Some? then Grown(via, hit.value, carriers[c].to) else via
  }

  lemma CarriedSound(carriers: seq<Carrier>, from: seq<string>, c: nat, via: map<string, string>, rank: map<string, nat>)
    returns (ranks: map<string, nat>)
    requires c < |carriers| && Sound(carriers, from, via, rank)
    ensures Sound(carriers, from, Carried(carriers, c, via), ranks)
  {
    ranks := rank;
    var hit := FirstHit(carriers[c].from, via);
    if hit.Some? {
      ranks := GrownLeadsBack(via, hit.value, carriers[c].to, from, rank);
      GrownLeast(carriers, from, c, via, hit.value);
      forall n | n in carriers[c].to ensures n in Possible(carriers, from) {
        var k :| 0 <= k < |carriers[c].to| && carriers[c].to[k] == n;
      }
    }
  }

  lemma CarriedVisited(carriers: seq<Carrier>, c: nat, via: map<string, string>)
    requires c < |carriers|
    ensures via.Keys <= Carried(carriers, c, via).Keys
    ensures Visited(carriers, c, via.Keys) && Carried(carriers, c, via).Keys == via.Keys ==> Visited(carriers, c + 1, via.Keys)
  {
    var hit := FirstHit(carriers[c].from, via);
    if hit.Some? && Carried(carriers, c, via).Keys == via.Keys {
      forall k | 0 <= k < |carriers[c].to| ensures carriers[c].to[k] in via.Keys {
        assert carriers[c].to[k] in Carried(carriers, c, via).Keys;
      }
    }
  }

  /** One pass over the carriers, each extending what is reached from the first node it starts from. */
  method Pass(carriers: seq<Carrier>, from: seq<string>, via0: map<string, string>, ghost rank0: map<string, nat>)
    returns (via: map<string, string>, grew: bool, ghost rank: map<string, nat>)
    requires Sound(carriers, from, via0, rank0)
    ensures Sound(carriers, from, via, rank)
    ensures via0.Keys <= via.Keys && (grew <==> via.Keys != via0.Keys)
    ensures !grew ==> Visited(carriers, |carriers|, via.Keys)
  {
    via, grew, rank := via0, false, rank0;
    for c := 0 to |carriers|
      invariant Sound(carriers, from, via, rank)
      invariant via0.Keys <= via.Keys && (grew <==> via.Keys != via0.Keys)
      invariant !grew ==> Visited(carriers, c, via.Keys)
    {
      rank := CarriedSound(carriers, from, c, via, rank);
      CarriedVisited(carriers, c, via);
      var extended := Carried(carriers, c, via);
      Fewer(via, extended);
      grew := grew || |extended| > |via|;
      via := extended;
    }
  }

  lemma Fewer(a: map<string, string>, b: map<string, string>)
    requires a.Keys <= b.Keys
    ensures |b| > |a| <==> b.Keys != a.Keys
  {
    assert |b.Keys| == |a.Keys| + |b.Keys - a.Keys| by { assert b.Keys == a.Keys + (b.Keys - a.Keys); }
  }

  /**
   * The least set of nodes that holds `from` and is closed under the graph's carriers. Each is mapped to one
   * it was reached through, and following that map from any of them comes to a seed.
   */
  method Reachables(g: Graph, from: seq<string>, skipRecovery: bool) returns (via: map<string, string>, ghost rank: map<string, nat>)
    ensures Closed(CarriersOf(g, if skipRecovery then g.recovery else {}), via.Keys)
    ensures Least(CarriersOf(g, if skipRecovery then g.recovery else {}), from, via.Keys)
    ensures forall n :: n in from ==> n in via && via[n] == n
    ensures LeadsBack(via, from, rank)
  {
    var carriers := CarriersOf(g, if skipRecovery then g.recovery else {});
    via := map n | n in from :: n;
    rank := map n | n in from :: 0;
    assert forall n :: n in via ==> LeadsFrom(via, from, rank, n);
    var grew := true;
    while grew
      invariant Sound(carriers, from, via, rank)
      invariant !grew ==> Visited(carriers, |carriers|, via.Keys)
      decreases |Possible(carriers, from) - via.Keys|, grew
    {
      ghost var before := via.Keys;
      via, grew, rank := Pass(carriers, from, via, rank);
      LessLeft(Possible(carriers, from), before, via.Keys);
    }
  }

  lemma LessLeft(all: set<string>, before: set<string>, after: set<string>)
    requires before <= after <= all
    ensures |all - after| <= |all - before| && (before != after ==> |all - after| < |all - before|)
  {
    assert all - before == (all - after) + (after - before);
    if before != after { var n :| n in after && n !in before; assert n in after - before; }
  }

  /** The walk from `node` back to a seed that names the path in a refusal; it ends for every reached node. */
  method PathTo(via: map<string, string>, node: string, ghost from: seq<string>, ghost rank: map<string, nat>) returns (path: seq<string>)
    requires node in via && LeadsBack(via, from, rank)
    ensures |path| > 0 && path[0] in from && path[|path| - 1] == node
    ensures forall k :: 0 <= k < |path| ==> path[k] in via
    ensures forall k :: 0 <= k < |path| - 1 ==> via[path[k + 1]] == path[k]
  {
    path := [node];
    while via[path[0]] != path[0]
      invariant |path| > 0 && path[|path| - 1] == node
      invariant forall k :: 0 <= k < |path| ==> path[k] in via
      invariant forall k :: 0 <= k < |path| - 1 ==> via[path[k + 1]] == path[k]
      decreases rank[path[0]]
    {
      assert LeadsFrom(via, from, rank, path[0]);
      path := [via[path[0]]] + path;
    }
    assert LeadsFrom(via, from, rank, path[0]);
  }

  // ----- A step writes only what is reachable -----

  /** Everything scheduled, once it runs, writes only into `nodes`, and so did everything logged past `from`. */
  ghost predicate Within(g: Graph, w: World, nodes: set<string>, from: nat) {
    && InitialsHeld(g, w.state)
    && (forall i :: i in w.step.dirty && IsOperator(g, i) ==> Covers(CarrierOf(g, i), nodes))
    && (forall k :: from <= k < |w.state.history.log| ==> w.state.history.log[k].node in nodes)
  }

  function CarrierOf(g: Graph, i: nat): Carrier
    requires IsOperator(g, i)
  {
    Carrier(g.operators[i].id, SchedulesFrom(g, g.operators[i].edges), Outputs(g.operators[i]))
  }

  ghost predicate ClosedUnderOperators(g: Graph, nodes: set<string>) {
    forall i: nat :: IsOperator(g, i) && Starts(CarrierOf(g, i), nodes) ==> Covers(CarrierOf(g, i), nodes)
  }

  lemma {:induction false} SchedulesFromHolds(g: Graph, edges: seq<Edge>, j: nat)
    requires j < |edges| && (edges[j].mode != Latest(false) || edges[j].node !in g.initials)
    ensures edges[j].node in SchedulesFrom(g, edges)
  {
    if j > 0 { SchedulesFromHolds(g, edges[1..], j - 1); }
  }

  /** A scheduled operator's carrier starts: sampling alone schedules only at nodes without a value to start with. */
  lemma ScheduledIsStarted(g: Graph, s: State, i: nat, node: string, written: Written, nodes: set<string>)
    requires InitialsHeld(g, s) && node in nodes && Schedules(g, s, i, node, RecordOf(s, node), written)
    ensures Starts(CarrierOf(g, i), nodes)
  {
    var edges := g.operators[i].edges;
    var j: nat :| j < |edges| && ScheduledBy(edges[j], node, RecordOf(s, node), written);
    SchedulesFromHolds(g, edges, j);
    var k :| 0 <= k < |SchedulesFrom(g, edges)| && SchedulesFrom(g, edges)[k] == node;
    assert CarrierOf(g, i).from[k] in nodes;
  }

  lemma WriteStaysWithin(g: Graph, w: World, node: string, written: Written, derived: bool, nodes: set<string>, from: nat)
    requires WellFormed(g) && Within(g, w, nodes, from) && ClosedUnderOperators(g, nodes) && node in nodes
    requires node in g.nodes && (node in g.initials ==> written.Present?) && Write(g, w, node, written, derived).Ok?
    ensures Within(g, Write(g, w, node, written, derived).value, nodes, from)
  {
    var after := Write(g, w, node, written, derived).value;
    if !(g.nodes[node].coalesces && RecordOf(w.state, node) == Held(written)) {
      forall i | i in after.step.dirty && IsOperator(g, i) ensures Covers(CarrierOf(g, i), nodes) {
        if i !in w.step.dirty { ScheduledIsStarted(g, w.state, i, node, written, nodes); }
      }
    }
  }

  lemma EmittedIsCovered(g: Graph, i: nat, node: string, nodes: set<string>)
    requires WellFormed(g) && IsFold(g, i) && Covers(CarrierOf(g, i), nodes) && node in g.operators[i].emits
    ensures node in Outputs(g.operators[i]) && node in nodes
  {
    var k :| 0 <= k < |g.operators[i].emits| && g.operators[i].emits[k] == node;
    assert CarrierOf(g, i).to[k + 1] == node;
  }

  lemma {:induction false} EmittingStaysWithin(g: Graph, w: World, i: nat, emits: seq<Emit>, nodes: set<string>, from: nat)
    requires WellFormed(g) && IsFold(g, i) && Within(g, w, nodes, from) && ClosedUnderOperators(g, nodes)
    requires Covers(CarrierOf(g, i), nodes) && EmitAll(g, w, i, emits).Ok?
    ensures Within(g, EmitAll(g, w, i, emits).value, nodes, from)
    decreases |emits|
  {
    if emits != [] {
      var written := Present(emits[0].value, None, None);
      EmittedIsCovered(g, i, emits[0].node, nodes);
      WriteStaysWithin(g, w, emits[0].node, written, true, nodes, from);
      EmittingStaysWithin(g, Write(g, w, emits[0].node, written, true).value, i, emits[1..], nodes, from);
    }
  }

  lemma EvaluatingStaysWithin(g: Graph, w: World, i: nat, nodes: set<string>, from: nat)
    requires WellFormed(g) && IsOperator(g, i) && Within(g, w, nodes, from) && ClosedUnderOperators(g, nodes)
    requires Covers(CarrierOf(g, i), nodes) && Evaluate(g, w, i).Ok?
    ensures Within(g, Evaluate(g, w, i).value, nodes, from)
  {
    var op := g.operators[i];
    assert CarrierOf(g, i).to[0] == op.output;
    if op.MapOp? {
      if IsBlocked(g, w.state, i) {
        if op.output in g.initials { ReadableInputsDoNotBlock(g, w.state, i); }
        WriteStaysWithin(g, w, op.output, Blocked(IsFailed(g, w.state, i), None), true, nodes, from);
      } else {
        var taken := w.(state := TakenByMap(w.state, i));
        WriteStaysWithin(g, taken, op.output, Present(op.compute(MapInputs(g, w.state, i)).value, None, None), true, nodes, from);
      }
    } else {
      var next := Folded(op, ValueOf(RecordOf(w.state, op.output)), FoldInputs(g, w, i), w.step.stamp).value;
      var taken := w.(state := Taken(g, w, i));
      WriteStaysWithin(g, taken, op.output, Present(next.state, None, None), true, nodes, from);
      EmittingStaysWithin(g, Write(g, taken, op.output, Present(next.state, None, None), true).value, i, next.emit, nodes, from);
    }
  }

  lemma {:induction false} DrainStaysWithin(g: Graph, w: World, nodes: set<string>, from: nat)
    requires WellFormed(g) && Bounded(g, w.step) && Within(g, w, nodes, from) && ClosedUnderOperators(g, nodes) && Drain(g, w).Ok?
    ensures Within(g, Drain(g, w).value, nodes, from)
    decreases TotalPotential(w.step, |g.operators|)
  {
    if w.step.dirty != {} {
      var i := NextOperator(g, w.step);
      var began := w.(step := Begun(w.step, i));
      RoundSpendsOne(g, w);
      EvaluatingStaysWithin(g, began, i, nodes, from);
      DrainStaysWithin(g, Evaluate(g, began, i).value, nodes, from);
    }
  }

  lemma {:induction false} WritingStaysWithin(g: Graph, w: World, writes: seq<Pending>, nodes: set<string>, from: nat)
    requires WellFormed(g) && Writable(g, writes) && Within(g, w, nodes, from) && ClosedUnderOperators(g, nodes)
    requires (forall k :: 0 <= k < |writes| ==> writes[k].node in nodes) && WriteAll(g, w, writes).Ok?
    ensures Within(g, WriteAll(g, w, writes).value, nodes, from)
    decreases |writes|
  {
    if writes != [] {
      ExternalMayBeWritten(g, writes[0]);
      assert writes[0].node !in g.initials by { ExternalHasNoInitial(g, writes[0].node); }
      WriteStaysWithin(g, w, writes[0].node, writes[0].written, false, nodes, from);
      WritingStaysWithin(g, Write(g, w, writes[0].node, writes[0].written, false).value, writes[1..], nodes, from);
    }
  }

  lemma ExternalHasNoInitial(g: Graph, node: string)
    requires WellFormed(g) && External(g, node)
    ensures node !in g.initials
  {
    forall i | IsOperator(g, i) ensures g.operators[i].output != node { assert !Owns(g, i, node); }
  }

  lemma {:induction false} UnskippedAll(carriers: seq<Carrier>)
    ensures Unskipped(carriers, {}) == carriers
  {
    if carriers != [] { UnskippedAll(carriers[1..]); }
  }

  lemma ClosedSetsAreClosedUnderOperators(g: Graph, nodes: set<string>)
    requires Closed(CarriersOf(g, {}), nodes)
    ensures ClosedUnderOperators(g, nodes)
  {
    var all := seq(|g.operators|, i requires 0 <= i < |g.operators| =>
                 Carrier(g.operators[i].id, SchedulesFrom(g, g.operators[i].edges), Outputs(g.operators[i])))
               + seq(|g.effects|, e requires 0 <= e < |g.effects| =>
                 Carrier(g.effects[e].id, StartsFrom(g.effects[e]),
                         if g.effects[e].results.Some? then [g.effects[e].results.value] else []));
    UnskippedAll(all);
    forall i: nat | IsOperator(g, i) && Starts(CarrierOf(g, i), nodes) ensures Covers(CarrierOf(g, i), nodes) {
      assert all[i] == CarrierOf(g, i);
    }
  }

  /**
   * Reachability is sound: in every reachable state, a step that commits pushed writes records a write to
   * no node outside what is reachable from the nodes it pushed.
   */
  lemma StepsWriteOnlyTheReachable(g: Graph, s: State, writes: seq<Pending>, stamp: Stamp, nodes: set<string>)
    requires WellFormed(g) && Creatable(g) && Reachable(g, s) && Writable(g, writes) && Run(g, s, writes, stamp, []).Ok?
    requires Closed(CarriersOf(g, {}), nodes) && forall k :: 0 <= k < |writes| ==> writes[k].node in nodes
    ensures var log := Run(g, s, writes, stamp, []).value.state.history.log;
            forall k :: |s.history.log| <= k < |log| ==> log[k].node in nodes
  {
    ReachableSettled(g, s);
    ClosedSetsAreClosedUnderOperators(g, nodes);
    var w := World(s, FreshStep(stamp));
    WritingStaysWithin(g, w, writes, nodes, |s.history.log|);
    PushingSpendsNothing(g, s, writes, stamp, []);
    DrainStaysWithin(g, Pushed(g, s, writes, stamp, []).value, nodes, |s.history.log|);
  }
}
