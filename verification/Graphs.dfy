/** A built graph: its nodes, operators in evaluation order and effects, and what `build` establishes. */
module Graphs {
  import opened Basics
  import opened DataValues

  datatype Mode = Latest(trigger: bool) | Every | Watch

  datatype Edge = Edge(node: string, mode: Mode)

  datatype Stamp = Stamp(number: int, at: int)

  /** A write as its node records it: a present value, or a read that failed or is unknown. */
  datatype Written =
    | Present(value: Data, basis: Option<Data>, expiry: Option<int>)
    | Blocked(failed: bool, reason: Option<string>)

  /** A node's current record; one never written carries its build-time initial value, if it has one. */
  datatype Record = Unwritten(initial: Option<Data>) | Held(write: Written)

  predicate Readable(record: Record) {
    match record
    case Unwritten(initial) => initial.Some?
    case Held(write) => write.Present?
  }

  /** What a reader of a readable record sees. */
  function ValueOf(record: Record): Data {
    match record
    case Unwritten(Some(value)) => value
    case Held(Present(value, _, _)) => value
    case _ => Null
  }

  datatype Delivered = Delivered(value: Option<Data>, stamp: Stamp)

  datatype MapInput = Current(value: Data) | Batch(deliveries: seq<Delivered>)

  datatype FoldValue = Occurred(value: Option<Data>) | Watched(record: Record)

  /** One input of a fold, from the read at position `from` among its declared reads. */
  datatype FoldInput = FoldInput(from: nat, value: FoldValue, stamp: Stamp)

  datatype Emit = Emit(node: string, value: Data)

  datatype FoldStep = FoldStep(state: Data, emit: seq<Emit>)

  /** A callback that throws, or returns what is not data, is `None`. */
  datatype Operator =
    | MapOp(id: string, edges: seq<Edge>, output: string, compute: seq<MapInput> -> Option<Data>)
    | FoldOp(id: string, edges: seq<Edge>, output: string, emits: seq<string>, initial: Data,
             applyInput: (Data, FoldInput) -> Option<FoldStep>,
             afterInputs: Option<(Data, Stamp) -> Option<FoldStep>>)

  /** The nodes an operator writes. */
  function Outputs(op: Operator): seq<string> {
    [op.output] + if op.FoldOp? then op.emits else []
  }

  datatype Kind = LevelKind | OccurrenceKind | ClockKind | DerivedKind

  datatype NodeSpec = NodeSpec(kind: Kind, coalesces: bool, expiries: Option<Data -> Option<seq<int>>>)

  datatype Effect = Effect(id: string, edges: seq<Edge>, samples: seq<string>, results: Option<string>,
                           waitsReady: bool)

  datatype Graph = Graph(
    nodes: map<string, NodeSpec>,
    initials: map<string, Data>,
    operators: seq<Operator>,
    effects: seq<Effect>,
    recovery: set<string>)

  /** Position `i` names an operator of `g`. */
  predicate IsOperator(g: Graph, i: int) {
    0 <= i < |g.operators|
  }

  predicate IsMap(g: Graph, i: int) {
    IsOperator(g, i) && g.operators[i].MapOp?
  }

  predicate IsFold(g: Graph, i: int) {
    IsOperator(g, i) && g.operators[i].FoldOp?
  }

  predicate Owns(g: Graph, i: int, node: string) {
    IsOperator(g, i) && node in Outputs(g.operators[i])
  }

  /** No operator writes `node`: a source, a clock or an effect does. */
  ghost predicate External(g: Graph, node: string) {
    node in g.nodes && forall i :: IsOperator(g, i) ==> !Owns(g, i, node)
  }

  /** Every node an operator names is declared, and each is written by at most one operator, once. */
  ghost predicate OneProducer(ops: seq<Operator>, nodes: map<string, NodeSpec>) {
    && (forall i, n :: 0 <= i < |ops| && n in Outputs(ops[i]) ==> n in nodes)
    && (forall i, j, n :: 0 <= i < |ops| && 0 <= j < |ops| && n in Outputs(ops[i]) && n in Outputs(ops[j]) ==> i == j)
    && (forall i :: 0 <= i < |ops| && ops[i].FoldOp? ==> ops[i].output !in ops[i].emits)
  }

  /** What an operator may read, and how: `every` reads only a node that records every write. */
  ghost predicate ReadsAllowed(edges: seq<Edge>, nodes: map<string, NodeSpec>) {
    forall j :: 0 <= j < |edges| ==>
      && edges[j].node in nodes
      && (edges[j].mode.Every? ==> !nodes[edges[j].node].coalesces && nodes[edges[j].node].kind != LevelKind)
  }

  ghost predicate OperatorsAllowed(ops: seq<Operator>, nodes: map<string, NodeSpec>) {
    forall i :: 0 <= i < |ops| ==>
      && ReadsAllowed(ops[i].edges, nodes)
      && ops[i].output in nodes && nodes[ops[i].output].coalesces && nodes[ops[i].output].kind == DerivedKind
      && (ops[i].MapOp? ==> forall j :: 0 <= j < |ops[i].edges| ==> !ops[i].edges[j].mode.Watch?)
      && (ops[i].FoldOp? ==> forall j :: 0 <= j < |ops[i].edges| ==> !ops[i].edges[j].mode.Latest?)
  }

  /** Only an edge through a node that is not a map's output may point to a later operator. */
  ghost predicate MapsBeforeReaders(ops: seq<Operator>) {
    forall i, j, k ::
      0 <= i < |ops| && 0 <= k < |ops| && ops[k].MapOp? && 0 <= j < |ops[i].edges| ==>
      ops[i].edges[j].node == ops[k].output ==> k < i
  }

  /** All of a map's reads are of its inputs' newest values, and each of those has an initial value. */
  predicate ReadsOnlyInitials(op: Operator, initials: map<string, Data>) {
    forall j :: 0 <= j < |op.edges| ==> op.edges[j].mode.Latest? && op.edges[j].node in initials
  }

  function InitialInputs(op: Operator, initials: map<string, Data>): seq<MapInput>
    requires ReadsOnlyInitials(op, initials)
  {
    seq(|op.edges|, j requires 0 <= j < |op.edges| => Current(initials[op.edges[j].node]))
  }

  /**
   * Which nodes hold a value before their first write: a fold's output its `initial`, a map's output
   * what it computes when every input has an initial value, and no other node.
   */
  ghost predicate InitialsRight(ops: seq<Operator>, initials: map<string, Data>) {
    && (forall n :: n in initials ==> exists i :: 0 <= i < |ops| && ops[i].output == n)
    && (forall i :: 0 <= i < |ops| && ops[i].FoldOp? ==>
          ops[i].output in initials && initials[ops[i].output] == ops[i].initial)
    && (forall i :: 0 <= i < |ops| && ops[i].MapOp? ==>
          && (ops[i].output in initials <==> ReadsOnlyInitials(ops[i], initials))
          && (ops[i].output in initials ==>
                ops[i].compute(InitialInputs(ops[i], initials)) == Some(initials[ops[i].output])))
  }

  ghost predicate EffectsAllowed(g: Graph) {
    forall e :: 0 <= e < |g.effects| ==>
      && ReadsAllowed(g.effects[e].edges, g.nodes)
      && (g.effects[e].results.Some? ==> External(g, g.effects[e].results.value))
  }

  /** Everything `build` establishes about a graph (Builder.GraphBuilder.Build proves it does). */
  ghost predicate WellFormed(g: Graph) {
    && OneProducer(g.operators, g.nodes)
    && OperatorsAllowed(g.operators, g.nodes)
    && MapsBeforeReaders(g.operators)
    && InitialsRight(g.operators, g.initials)
    && EffectsAllowed(g)
  }
}
