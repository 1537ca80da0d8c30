/** Declaring a graph: every node gets exactly one producer, and `build` fixes the evaluation order. */
module Builder {
  import opened Basics
  import opened DataValues
  import opened Graphs
  import opened EvaluationOrder
  import opened OrderedSteps

  datatype GraphError =
    | DeclaredTwice(node: string)
    | Undeclared(user: string, node: string)
    | TwoProducers(node: string)
    | ReservedForFold(producer: string, node: string)
    | NotReserved(node: string)
    | CoalescingRead(reader: string, node: string)
    | LevelRead(reader: string, node: string)
    | NeedsPeriod(clock: string)
    | FinishesOrWaits(effect: string)
    | NestedRecovery
    | Unproduced(reserved: string)
    | NoProducer(node: string)
    | SeveralRecoveries(count: nat)
    | FailsOnInitials(map_: string)

  /** What a fold is declared as: a new node, or one reserved before. */
  datatype Target = New(id: string) | Reserved(id: string)

  /** The callbacks of a fold. */
  datatype FoldSpec = FoldSpec(
    edges: seq<Edge>,
    emits: seq<string>,
    initial: Data,
    applyInput: (Data, FoldInput) -> Option<FoldStep>,
    afterInputs: Option<(Data, Stamp) -> Option<FoldStep>>)

  /** Everything declared so far. */
  datatype Declared = Declared(
    nodes: map<string, NodeSpec>,
    claims: map<string, string>,
    operators: seq<Operator>,
    effects: seq<Effect>,
    reservations: set<string>)

  predicate IsReadable(edge: Edge, nodes: map<string, NodeSpec>) {
    && edge.node in nodes
    && (edge.mode.Every? ==> !nodes[edge.node].coalesces && nodes[edge.node].kind != LevelKind)
  }

  /** What every declaration keeps: claims name declared nodes, and each operator's outputs are claimed by it alone. */
  ghost predicate Consistent(d: Declared) {
    && (forall n :: n in d.claims ==> n in d.nodes)
    && (forall i, n :: 0 <= i < |d.operators| && n in Outputs(d.operators[i]) ==> n in d.claims)
    && OneProducer(d.operators, d.nodes)
    && OperatorsAllowed(d.operators, d.nodes)
    && (forall n :: n in d.reservations ==> n in d.nodes && d.nodes[n].kind == DerivedKind && d.nodes[n].coalesces)
    && (forall i :: 0 <= i < |d.operators| ==> d.operators[i].id == d.operators[i].output)
    && (forall i :: 0 <= i < |d.operators| && d.operators[i].MapOp? ==> d.operators[i].output !in d.reservations)
    && ReadersFollow(d)
    && EffectsConsistent(d)
  }

  /** A node that was neither reserved nor is emitted has its producer declared before any reader. */
  ghost predicate ReadersFollow(d: Declared) {
    forall i, j, k ::
      0 <= i <= k < |d.operators| && 0 <= j < |d.operators[i].edges| && d.operators[i].edges[j].node == d.operators[k].output ==>
      d.operators[k].output in d.reservations
  }

  ghost predicate EffectsConsistent(d: Declared) {
    forall e :: 0 <= e < |d.effects| ==>
      && ReadsAllowed(d.effects[e].edges, d.nodes)
      && (d.effects[e].results.Some? ==>
            && d.effects[e].results.value in d.claims
            && forall i :: 0 <= i < |d.operators| ==> d.effects[e].results.value !in Outputs(d.operators[i]))
  }

  /** The nodes whose readers may be declared before their producer. */
  function Feedback(d: Declared): set<string> {
    d.reservations + set i, n | 0 <= i < |d.operators| && n in Emits(d.operators[i]) :: n
  }

  function Emits(op: Operator): seq<string> {
    if op.FoldOp? then op.emits else []
  }

  /** A node declared anew keeps everything before it consistent, whether it is claimed or reserved at once or not. */
  lemma DeclaringKeeps(d: Declared, node: string, spec: NodeSpec, after: Declared)
    requires Consistent(d) && node !in d.nodes && after.nodes == d.nodes[node := spec]
    requires after.operators == d.operators && after.effects == d.effects
    requires after.claims == d.claims || after.claims.Keys == d.claims.Keys + {node}
    requires after.reservations == d.reservations || (after.reservations == d.reservations + {node} && spec.kind == DerivedKind && spec.coalesces)
    ensures Consistent(after)
  {
    assert OneProducer(after.operators, after.nodes);
    assert OperatorsAllowed(after.operators, after.nodes) by {
      forall i | 0 <= i < |d.operators| ensures ReadsAllowed(d.operators[i].edges, after.nodes) {}
    }
    forall i | 0 <= i < |d.operators| ensures d.operators[i].output != node {
      assert d.operators[i].output in Outputs(d.operators[i]);
    }
    forall e | 0 <= e < |d.effects| ensures ReadsAllowed(d.effects[e].edges, after.nodes) {}
  }

  /** `after` is `d` once `op`, whose outputs had no producer, is declared over readable nodes. */
  ghost predicate Adds(d: Declared, op: Operator, after: Declared) {
    && after.operators == d.operators + [op] && after.effects == d.effects && after.reservations == d.reservations
    && after.claims.Keys == d.claims.Keys + (set n | n in Outputs(op))
    && after.nodes.Keys == d.nodes.Keys + {op.output}
    && (forall n :: n in d.nodes ==> SameKind(after.nodes[n], d.nodes[n]))
    && (forall n :: n in Outputs(op) ==> n !in d.claims && n in after.nodes)
    && (op.output in d.nodes ==> op.output in d.reservations && op.FoldOp?)
    && OperatorRight(d, op, after.nodes)
  }

  predicate SameKind(a: NodeSpec, b: NodeSpec) {
    a.kind == b.kind && a.coalesces == b.coalesces
  }

  ghost predicate OperatorRight(d: Declared, op: Operator, nodes: map<string, NodeSpec>) {
    && op.id == op.output && (op.FoldOp? ==> op.output !in op.emits)
    && op.output in nodes && nodes[op.output].kind == DerivedKind && nodes[op.output].coalesces
    && (forall j :: 0 <= j < |op.edges| ==> IsReadable(op.edges[j], d.nodes))
    && (op.MapOp? ==> forall j :: 0 <= j < |op.edges| ==> !op.edges[j].mode.Watch?)
    && (op.FoldOp? ==> forall j :: 0 <= j < |op.edges| ==> !op.edges[j].mode.Latest?)
  }

  lemma AddingKeepsProducers(d: Declared, op: Operator, after: Declared)
    requires Consistent(d) && Adds(d, op, after)
    ensures OneProducer(after.operators, after.nodes)
  {
    forall i, n | 0 <= i < |d.operators| && n in Outputs(d.operators[i]) ensures n in d.nodes && n in d.claims {}
  }

  lemma AddingKeepsReads(d: Declared, op: Operator, after: Declared)
    requires Consistent(d) && Adds(d, op, after)
    ensures OperatorsAllowed(after.operators, after.nodes)
  {
    forall i | 0 <= i < |after.operators|
      ensures && ReadsAllowed(after.operators[i].edges, after.nodes)
              && after.operators[i].output in after.nodes && after.nodes[after.operators[i].output].coalesces
              && after.nodes[after.operators[i].output].kind == DerivedKind
    {
      if i < |d.operators| { assert after.operators[i] == d.operators[i]; } else { assert after.operators[i] == op; }
    }
  }

  lemma AddingKeepsReaders(d: Declared, op: Operator, after: Declared)
    requires Consistent(d) && Adds(d, op, after)
    ensures ReadersFollow(after)
  {
    var n := |d.operators|;
    forall i, j | 0 <= i <= n && 0 <= j < |after.operators[i].edges| && after.operators[i].edges[j].node == op.output
      ensures op.output in d.reservations
    {
      if i < n {
        assert after.operators[i] == d.operators[i];
      } else {
        assert IsReadable(op.edges[j], d.nodes);
      }
    }
  }

  lemma AddingKeepsEffects(d: Declared, op: Operator, after: Declared)
    requires Consistent(d) && Adds(d, op, after)
    ensures EffectsConsistent(after)
  {
    forall e | 0 <= e < |d.effects| ensures ReadsAllowed(d.effects[e].edges, after.nodes) {}
  }

  /** An operator over readable nodes, all of whose outputs were unclaimed, keeps the declaration consistent. */
  lemma AddingOperatorKeeps(d: Declared, op: Operator, after: Declared)
    requires Consistent(d) && Adds(d, op, after)
    ensures Consistent(after)
  {
    AddingKeepsProducers(d, op, after);
    AddingKeepsReads(d, op, after);
    AddingKeepsReaders(d, op, after);
    AddingKeepsEffects(d, op, after);
    assert forall i :: 0 <= i < |d.operators| ==> after.operators[i] == d.operators[i];
  }

  /** `list[..n]` names each node once, and none that `claims` already gives a producer. */
  ghost predicate MayEmit(d: Declared, emits: seq<string>, n: nat) {
    forall a :: 0 <= a < |emits| && a < n ==>
      emits[a] in d.nodes && emits[a] !in d.reservations && emits[a] !in d.claims && emits[a] !in emits[..a]
  }

  /** A new or reserved node with no producer yet may hold a fold over readable nodes. */
  ghost predicate MayFold(d: Declared, target: Target, spec: FoldSpec) {
    && (if target.New? then target.id !in d.nodes else target.id in d.reservations && target.id !in d.claims)
    && (forall j :: 0 <= j < |spec.edges| ==> IsReadable(spec.edges[j], d.nodes))
    && MayEmit(d, spec.emits, |spec.emits|)
  }

  lemma FoldAdds(d: Declared, target: Target, spec: FoldSpec, after: Declared)
    requires Consistent(d) && MayFold(d, target, spec) && forall j :: 0 <= j < |spec.edges| ==> !spec.edges[j].mode.Latest?
    requires after.operators == d.operators + [FoldOf(target.id, spec)] && after.effects == d.effects
    requires after.reservations == d.reservations && after.claims.Keys == d.claims.Keys + {target.id} + set n | n in spec.emits
    requires target.id in after.nodes && after.nodes == d.nodes[target.id := after.nodes[target.id]]
    requires SameKind(after.nodes[target.id], NodeSpec(DerivedKind, true, None))
    ensures Adds(d, FoldOf(target.id, spec), after)
  {
    var op := FoldOf(target.id, spec);
    assert (set n | n in Outputs(op)) == {target.id} + set n | n in spec.emits;
    forall n | n in Outputs(op) ensures n !in d.claims && n in after.nodes {
      if n != target.id { var a :| 0 <= a < |spec.emits| && spec.emits[a] == n; }
    }
    forall a | 0 <= a < |spec.emits| ensures spec.emits[a] != target.id {}
  }

  ghost predicate MayAddEffect(d: Declared, effect: Effect, finishOnStop: bool) {
    && (forall k :: 0 <= k < |d.effects| ==> d.effects[k].id != effect.id)
    && (forall k :: 0 <= k < |d.operators| ==> d.operators[k].id != effect.id)
    && !(finishOnStop && effect.waitsReady)
    && (forall j :: 0 <= j < |effect.edges| ==> IsReadable(effect.edges[j], d.nodes))
    && (forall k :: 0 <= k < |effect.samples| ==> effect.samples[k] in d.nodes)
    && (effect.results.Some? ==>
          effect.results.value in d.nodes && effect.results.value !in d.reservations && effect.results.value !in d.claims)
  }

  lemma AddingEffectKeeps(d: Declared, effect: Effect, after: Declared)
    requires Consistent(d) && MayAddEffect(d, effect, false) && after == d.(effects := d.effects + [effect], claims := after.claims)
    requires after.claims == if effect.results.Some? then d.claims[effect.results.value := effect.id] else d.claims
    ensures Consistent(after)
  {
    assert EffectsConsistent(after) by {
      forall e | 0 <= e < |after.effects| ensures ReadsAllowed(after.effects[e].edges, after.nodes) {
        if e < |d.effects| { assert after.effects[e] == d.effects[e]; }
      }
    }
  }

  predicate HasFold(ops: seq<Operator>, node: string) {
    exists k :: 0 <= k < |ops| && ops[k].FoldOp? && ops[k].id == node
  }

  ghost predicate AllProduced(d: Declared) {
    (forall n :: n in d.reservations ==> HasFold(d.operators, n)) && forall n :: n in d.nodes ==> n in d.claims
  }

  /** Why a declaration is not a graph. */
  ghost predicate Refusal(d: Declared, recoveries: nat, error: GraphError) {
    match error
    case Unproduced(node) => node in d.reservations && !HasFold(d.operators, node)
    case NoProducer(node) => node in d.nodes && node !in d.claims
    case SeveralRecoveries(count) => recoveries == count > 1
    case FailsOnInitials(id) => exists order, i: nat :: FailsOnInitialsOf(d, order, i) && d.operators[order[i]].id == id
    case _ => false
  }

  ghost predicate FailsOnInitialsOf(d: Declared, order: seq<nat>, i: nat) {
    Permutes(order, |d.operators|) && i < |order| && FailsInitially(Arranged(d.operators, order), i)
  }

  ghost predicate NoneReadsItself(ops: seq<Operator>) {
    forall i, j :: 0 <= i < |ops| && 0 <= j < |ops[i].edges| ==> ops[i].edges[j].node !in Outputs(ops[i])
  }

  lemma DeclaredFeedback(d: Declared)
    requires Consistent(d)
    ensures OnlyFeedbackPointsBack(d.operators, Feedback(d))
  {
    forall i, j, k | 0 <= i <= k < |d.operators| && 0 <= j < |d.operators[i].edges| && d.operators[i].edges[j].node in Outputs(d.operators[k])
      ensures d.operators[i].edges[j].node in Feedback(d)
    {
      var n := d.operators[i].edges[j].node;
      if n != d.operators[k].output { assert n in Emits(d.operators[k]); }
    }
  }

  lemma ArrangedWell(d: Declared, order: seq<nat>)
    requires Consistent(d) && Permutes(order, |d.operators|) && After(d.operators, order, false)
    ensures OnlyFeedbackPointsBack(Arranged(d.operators, order), Feedback(d))
    ensures OneProducer(Arranged(d.operators, order), d.nodes) && OperatorsAllowed(Arranged(d.operators, order), d.nodes)
    ensures SingleOutputs(Arranged(d.operators, order)) && MapsBeforeReaders(Arranged(d.operators, order))
  {
    var arranged := Arranged(d.operators, order);
    ArrangedProducers(d.operators, order, d.nodes);
    DeclaredFeedback(d);
    ArrangedPointsForward(d.operators, order, Feedback(d));
    forall k | 0 <= k < |arranged| ensures arranged[k].output in Outputs(arranged[k]) {}
    forall k | 0 <= k < |arranged| && arranged[k].MapOp? ensures arranged[k].output !in Feedback(d) {
      assert d.operators[order[k]].output in Outputs(d.operators[order[k]]);
    }
  }

  /** What `build` returns is well formed; acyclic, its every edge points forward. */
  lemma BuiltWellFormed(d: Declared, order: seq<nat>, g: Graph)
    requires Consistent(d) && Permutes(order, |d.operators|) && After(d.operators, order, false)
    requires Acyclic(d.operators) ==> After(d.operators, order, true)
    requires g.nodes == d.nodes && g.effects == d.effects && g.operators == Arranged(d.operators, order) && InitialsRight(g.operators, g.initials)
    ensures WellFormed(g)
    ensures Acyclic(d.operators) && NoneReadsItself(d.operators) ==> PointsForward(g.operators)
  {
    ArrangedWell(d, order);
    if Acyclic(d.operators) && NoneReadsItself(d.operators) { ArrangedAcyclic(d.operators, order); }
  }

  /** Evaluated in another order, the same operators start the same nodes. */
  lemma BuiltStarts(d: Declared, order: seq<nat>, initials: map<string, Data>)
    requires Consistent(d) && Permutes(order, |d.operators|) && InitialsRight(Arranged(d.operators, order), initials)
    ensures initials.Keys == Starting(d.operators, |d.operators|, true)
    ensures initials.Keys == Documented(d.operators) <==> SamplesStartNothing(d.operators)
  {
    var ops := d.operators;
    forall k | 0 <= k < |ops| ensures ops[k].output in Outputs(ops[k]) {}
    assert SingleOutputs(ops) && MapsBeforeReaders(ops);
    ArrangedInitials(ops, order, initials);
    StartsAsDocumented(ops, initials);
    InitialsAreStarting(ops, initials);
  }

  lemma ArrangedAcyclic(ops: seq<Operator>, order: seq<nat>)
    requires Permutes(order, |ops|) && After(ops, order, true) && NoneReadsItself(ops)
    ensures PointsForward(Arranged(ops, order))
  {
    var arranged := Arranged(ops, order);
    forall i, j, k | 0 <= i < |arranged| && 0 <= k < |arranged| && 0 <= j < |arranged[i].edges|
                     && arranged[i].edges[j].node in Outputs(arranged[k])
      ensures k < i
    {
      assert i != k;
      assert Upstream(ops, order[k], order[i]);
      var a :| 0 <= a < |order[..i]| && order[..i][a] == order[k];
      assert order[a] == order[k];
    }
  }

  class GraphBuilder {
    var nodes: map<string, NodeSpec>
    var claims: map<string, string>
    var operators: seq<Operator>
    var effects: seq<Effect>
    var reservations: set<string>
    /** What each recovery scope declared, and what the one being declared has so far. */
    var recoveries: seq<seq<string>>
    var members: Option<seq<string>>

    ghost function Contents(): Declared
      reads this
    {
      Declared(nodes, claims, operators, effects, reservations)
    }

    ghost predicate Valid()
      reads this
    {
      Consistent(Contents())
    }

    constructor ()
      ensures Valid() && Contents() == Declared(map[], map[], [], [], {}) && recoveries == [] && members == None
    {
      nodes, claims, operators, effects, reservations := map[], map[], [], [], {};
      recoveries, members := [], None;
    }

    method Member(id: string)
      modifies this`members
      ensures members == if old(members).Some? then Some(old(members).value + [id]) else None
    {
      if members.Some? { members := Some(members.value + [id]); }
    }

    /** A source: a level, which readers may not read every write of, or an occurrence. */
    method Source(id: string, kind: Kind) returns (error: Option<GraphError>)
      requires Valid() && (kind.LevelKind? || kind.OccurrenceKind?)
      modifies this`nodes, this`claims
      ensures Valid()
      ensures error.Some? <==> id in old(nodes)
      ensures Contents() == if error.Some? then old(Contents())
                            else old(Contents()).(nodes := old(nodes)[id := NodeSpec(kind, false, None)], claims := old(claims)[id := "source"])
    {
      if id in nodes { return Some(DeclaredTwice(id)); }
      ghost var before := Contents();
      nodes, claims := nodes[id := NodeSpec(kind, false, None)], claims[id := "source"];
      DeclaringKeeps(before, id, NodeSpec(kind, false, None), Contents());
      return None;
    }

    /** A node a fold or an effect will write, or, reserved, one a fold will hold its state in. */
    method Node(id: string, reserved: bool) returns (error: Option<GraphError>)
      requires Valid()
      modifies this`nodes, this`reservations
      ensures Valid()
      ensures error.Some? <==> id in old(nodes)
      ensures Contents() == if error.Some? then old(Contents())
                            else old(Contents()).(nodes := old(nodes)[id := NodeSpec(DerivedKind, reserved, None)],
                                                  reservations := old(reservations) + if reserved then {id} else {})
    {
      if id in nodes { return Some(DeclaredTwice(id)); }
      ghost var before := Contents();
      nodes := nodes[id := NodeSpec(DerivedKind, reserved, None)];
      if reserved { reservations := reservations + {id}; }
      DeclaringKeeps(before, id, NodeSpec(DerivedKind, reserved, None), Contents());
      return None;
    }

    method CheckReads(reader: string, edges: seq<Edge>) returns (error: Option<GraphError>)
      ensures error.None? <==> forall j :: 0 <= j < |edges| ==> IsReadable(edges[j], nodes)
    {
      for j := 0 to |edges|
        invariant forall k :: 0 <= k < j ==> IsReadable(edges[k], nodes)
      {
        var edge := edges[j];
        if edge.node !in nodes { return Some(Undeclared(reader, edge.node)); }
        if edge.mode.Every? && nodes[edge.node].coalesces { return Some(CoalescingRead(reader, edge.node)); }
        if edge.mode.Every? && nodes[edge.node].kind == LevelKind { return Some(LevelRead(reader, edge.node)); }
      }
      return None;
    }

    /** Declares a node only the runner's timer writes, as a member of the recovery scope, if one is open. */
    method Clock(id: string, everyMs: int) returns (error: Option<GraphError>)
      requires Valid()
      modifies this
      ensures Valid() && recoveries == old(recoveries)
      ensures error.Some? <==> everyMs <= 0 || id in old(nodes)
      ensures Contents() == if error.Some? then old(Contents())
                            else old(Contents()).(nodes := old(nodes)[id := NodeSpec(ClockKind, false, None)], claims := old(claims)[id := "clock"])
    {
      Member(id);
      if everyMs <= 0 { return Some(NeedsPeriod(id)); }
      if id in nodes { return Some(DeclaredTwice(id)); }
      ghost var before := Contents();
      nodes, claims := nodes[id := NodeSpec(ClockKind, false, None)], claims[id := "clock"];
      DeclaringKeeps(before, id, NodeSpec(ClockKind, false, None), Contents());
      return None;
    }

    /** A map over already declared nodes, computed again whenever one of them changes. */
    method Map(id: string, edges: seq<Edge>, compute: seq<MapInput> -> Option<Data>, expiries: Option<Data -> Option<seq<int>>>)
      returns (error: Option<GraphError>)
      requires Valid() && forall j :: 0 <= j < |edges| ==> !edges[j].mode.Watch?
      modifies this
      ensures Valid() && recoveries == old(recoveries)
      ensures error.None? <==> id !in old(nodes) && forall j :: 0 <= j < |edges| ==> IsReadable(edges[j], old(nodes))
      ensures Contents() == if error.Some? then old(Contents())
                            else Declared(old(nodes)[id := NodeSpec(DerivedKind, true, expiries)], old(claims)[id := id],
                                          old(operators) + [MapOp(id, edges, id, compute)], old(effects), old(reservations))
    {
      Member(id);
      error := CheckReads(id, edges);
      if error.Some? { return; }
      if id in nodes { return Some(DeclaredTwice(id)); }
      ghost var before := Contents();
      nodes, claims := nodes[id := NodeSpec(DerivedKind, true, expiries)], claims[id := id];
      operators := operators + [MapOp(id, edges, id, compute)];
      AddingOperatorKeeps(before, MapOp(id, edges, id, compute), Contents());
    }

    method CheckEmits(id: string, emits: seq<string>) returns (error: Option<GraphError>)
      ensures error.None? <==> MayEmit(Contents(), emits, |emits|)
    {
      for a := 0 to |emits|
        invariant forall k :: 0 <= k < a ==> emits[k] in nodes
      {
        if emits[a] !in nodes { return Some(Undeclared(id, emits[a])); }
      }
      for a := 0 to |emits|
        invariant MayEmit(Contents(), emits, a)
      {
        if emits[a] in reservations { return Some(ReservedForFold(id, emits[a])); }
        if emits[a] in claims { return Some(TwoProducers(emits[a])); }
        if emits[a] in emits[..a] { return Some(TwoProducers(emits[a])); }
      }
      return None;
    }

    /** Whether a fold may hold its state in `target`. */
    method CheckTarget(target: Target) returns (error: Option<GraphError>)
      ensures error.None? <==> target.New? || (target.id in nodes && target.id in reservations)
    {
      if target.Reserved? && target.id !in nodes { return Some(Undeclared("fold", target.id)); }
      if target.Reserved? && target.id !in reservations { return Some(NotReserved(target.id)); }
      return None;
    }

    /** A fold, which alone writes the nodes it emits to; into a reserved node, it may be read before it is declared. */
    method Fold(target: Target, spec: FoldSpec, expiries: Option<Data -> Option<seq<int>>>) returns (error: Option<GraphError>)
      requires Valid() && forall j :: 0 <= j < |spec.edges| ==> !spec.edges[j].mode.Latest?
      modifies this
      ensures Valid() && recoveries == old(recoveries)
      ensures error.None? <==> MayFold(old(Contents()), target, spec)
      ensures error.Some? ==> Contents() == old(Contents())
      ensures error.None? ==> nodes == old(nodes)[target.id := NodeSpec(DerivedKind, true,
                if target.New? || expiries.Some? then expiries else old(nodes)[target.id].expiries)]
      ensures error.None? ==> claims.Keys == old(claims).Keys + {target.id} + set n | n in spec.emits
      ensures error.None? ==> operators == old(operators) + [FoldOf(target.id, spec)]
                              && effects == old(effects) && reservations == old(reservations)
    {
      error := CheckFold(target, spec);
      if error.Some? { return; }
      Member(target.id);
      AddFold(target, spec, if target.New? || expiries.Some? then expiries else nodes[target.id].expiries);
    }

    method AddFold(target: Target, spec: FoldSpec, expiries: Option<Data -> Option<seq<int>>>)
      requires Valid() && MayFold(Contents(), target, spec) && forall j :: 0 <= j < |spec.edges| ==> !spec.edges[j].mode.Latest?
      modifies this`nodes, this`claims, this`operators
      ensures Valid()
      ensures nodes == old(nodes)[target.id := NodeSpec(DerivedKind, true, expiries)]
      ensures claims.Keys == old(claims).Keys + {target.id} + set n | n in spec.emits
      ensures operators == old(operators) + [FoldOf(target.id, spec)]
    {
      ghost var before := Contents();
      nodes := nodes[target.id := NodeSpec(DerivedKind, true, expiries)];
      claims := claims[target.id := target.id];
      ClaimAll(spec.emits, target.id);
      operators := operators + [FoldOf(target.id, spec)];
      FoldAdds(before, target, spec, Contents());
      AddingOperatorKeeps(before, FoldOf(target.id, spec), Contents());
    }

    method CheckFold(target: Target, spec: FoldSpec) returns (error: Option<GraphError>)
      requires Valid()
      ensures error.None? <==> MayFold(Contents(), target, spec)
    {
      error := CheckTarget(target);
      if error.Some? { return; }
      error := CheckReads(target.id, spec.edges);
      if error.Some? { return; }
      if target.New? && target.id in nodes { return Some(DeclaredTwice(target.id)); }
      if target.id in claims { return Some(TwoProducers(target.id)); }
      error := CheckEmits(target.id, spec.emits);
    }

    /** Every node an effect names, and whether it may write its results. */
    method CheckEffect(effect: Effect, finishOnStop: bool) returns (error: Option<GraphError>)
      ensures error.None? <==> MayAddEffect(Contents(), effect, finishOnStop)
    {
      if exists k :: 0 <= k < |effects| && effects[k].id == effect.id { return Some(DeclaredTwice(effect.id)); }
      if exists k :: 0 <= k < |operators| && operators[k].id == effect.id { return Some(DeclaredTwice(effect.id)); }
      if finishOnStop && effect.waitsReady { return Some(FinishesOrWaits(effect.id)); }
      error := CheckReads(effect.id, effect.edges);
      if error.Some? { return; }
      for k := 0 to |effect.samples|
        invariant forall a :: 0 <= a < k ==> effect.samples[a] in nodes
      {
        if effect.samples[k] !in nodes { return Some(Undeclared(effect.id, effect.samples[k])); }
      }
      if effect.results.None? { return None; }
      if effect.results.value !in nodes { return Some(Undeclared(effect.id, effect.results.value)); }
      if effect.results.value in reservations { return Some(ReservedForFold(effect.id, effect.results.value)); }
      if effect.results.value in claims { return Some(TwoProducers(effect.results.value)); }
      return None;
    }

    /** An effect, which alone writes the node its results go to. */
    method AddEffect(effect: Effect, finishOnStop: bool) returns (error: Option<GraphError>)
      requires Valid()
      modifies this
      ensures Valid() && recoveries == old(recoveries)
      ensures error.None? <==> MayAddEffect(old(Contents()), effect, finishOnStop)
      ensures error.Some? ==> Contents() == old(Contents())
      ensures error.None? ==> Contents() == old(Contents()).(
                effects := old(effects) + [effect],
                claims := if effect.results.Some? then old(claims)[effect.results.value := effect.id] else old(claims))
    {
      error := CheckEffect(effect, finishOnStop);
      if error.Some? { return; }
      ghost var before := Contents();
      if effect.results.Some? { claims := claims[effect.results.value := effect.id]; }
      Member(effect.id);
      effects := effects + [effect];
      AddingEffectKeeps(before, effect, Contents());
    }

    /** Starts collecting what a recovery scope declares; one may not be inside another. */
    method BeginRecovery() returns (error: Option<GraphError>)
      modifies this`members
      ensures error.Some? <==> old(members).Some?
      ensures members == if error.Some? then old(members) else Some([])
    {
      if members.Some? { return Some(NestedRecovery); }
      members := Some([]);
      return None;
    }

    method EndRecovery()
      requires members.Some?
      modifies this`members, this`recoveries
      ensures members == None && recoveries == old(recoveries) + [old(members).value]
    {
      recoveries, members := recoveries + [members.value], None;
    }

    /**
     * Fixes the evaluation order and the initial values. Refuses a reservation no fold produced, a node with
     * no producer, a second recovery scope, and a map that throws on its initial inputs; a graph it builds
     * is well formed, its operators are those declared, and only reserved or emitted nodes feed back.
     */
    method Build() returns (result: Result<Graph, GraphError>)
      requires Valid()
      ensures result.Ok? ==> && WellFormed(result.value)
                             && result.value.nodes == nodes && result.value.effects == effects
                             && (exists order :: Permutes(order, |operators|) && result.value.operators == Arranged(operators, order))
                             && OnlyFeedbackPointsBack(result.value.operators, Feedback(Contents()))
                             && (Acyclic(operators) && NoneReadsItself(operators) ==> PointsForward(result.value.operators))
      ensures result.Ok? ==> AllProduced(Contents()) && |recoveries| <= 1
      ensures result.Ok? ==> result.value.recovery == if |recoveries| == 1 then set id | id in recoveries[0] else {}
      ensures result.Ok? ==> result.value.initials.Keys == Starting(operators, |operators|, true)
      ensures result.Err? ==> Refusal(Contents(), |recoveries|, result.error)
      ensures AllProduced(Contents()) && |recoveries| <= 1 && result.Err? ==> result.error.FailsOnInitials?
    {
      var unproduced := FindUnproduced();
      if unproduced.Some? { return Err(unproduced.value); }
      if |recoveries| > 1 { return Err(SeveralRecoveries(|recoveries|)); }
      var order := Order(operators);
      var ordered := Arranged(operators, order);
      ArrangedWell(Contents(), order);
      var initials := InitialValues(ordered);
      if initials.Err? {
        assert FailsOnInitialsOf(Contents(), order, initials.error);
        return Err(FailsOnInitials(ordered[initials.error].id));
      }
      var recovery := if |recoveries| == 1 then set id | id in recoveries[0] else {};
      var graph := Graph(nodes, initials.value, ordered, effects, recovery);
      BuiltWellFormed(Contents(), order, graph);
      BuiltStarts(Contents(), order, initials.value);
      return Ok(graph);
    }

    method FindUnproduced() returns (error: Option<GraphError>)
      ensures error.None? <==> AllProduced(Contents())
      ensures error.Some? ==> Refusal(Contents(), |recoveries|, error.value)
    {
      var left := reservations;
      while left != {}
        invariant left <= reservations && forall n :: n in reservations && n !in left ==> HasFold(operators, n)
        decreases left
      {
        var node :| node in left;
        if !HasFold(operators, node) { return Some(Unproduced(node)); }
        left := left - {node};
      }
      left := nodes.Keys;
      while left != {}
        invariant left <= nodes.Keys && forall n :: n in nodes && n !in left ==> n in claims
        decreases left
      {
        var node :| node in left;
        if node !in claims { return Some(NoProducer(node)); }
        left := left - {node};
      }
      return None;
    }

    method ClaimAll(list: seq<string>, producer: string)
      modifies this`claims
      ensures claims.Keys == old(claims).Keys + set n | n in list
    {
      for a := 0 to |list|
        invariant claims.Keys == old(claims).Keys + set n | n in list[..a]
      {
        claims := claims[list[a] := producer];
      }
      assert list[..|list|] == list;
    }
  }

  function FoldOf(id: string, spec: FoldSpec): Operator {
    FoldOp(id, spec.edges, id, spec.emits, spec.initial, spec.applyInput, spec.afterInputs)
  }
}
