/** The order a graph's operators run in, and the values its nodes start from. */
module EvaluationOrder {
  import opened Basics
  import opened DataValues
  import opened Graphs

  // ----- The order -----

  /** Operator `i` reads a node that another operator `p` writes. */
  predicate Upstream(ops: seq<Operator>, p: int, i: int) {
    && 0 <= p < |ops| && 0 <= i < |ops| && p != i
    && exists j :: 0 <= j < |ops[i].edges| && ops[i].edges[j].node in Outputs(ops[p])
  }

  /** No operator reads, through any chain of others, a node it writes itself. */
  ghost predicate Ranks(ops: seq<Operator>, rank: seq<nat>) {
    |rank| == |ops| && forall p, i :: Upstream(ops, p, i) ==> rank[p] < rank[i]
  }

  ghost predicate Acyclic(ops: seq<Operator>) {
    exists rank :: Ranks(ops, rank)
  }

  ghost predicate Permutes(order: seq<nat>, n: nat) {
    && |order| == n
    && (forall a :: 0 <= a < n ==> order[a] < n)
    && (forall i: nat :: i < n ==> i in order)
    && (forall a, b :: 0 <= a < b < n ==> order[a] != order[b])
  }

  /** Whichever of its producers `kept` holds of is ordered before each operator. */
  ghost predicate After(ops: seq<Operator>, order: seq<nat>, all: bool) {
    forall b, p :: 0 <= b < |order| && Upstream(ops, p, order[b]) && (all || p < order[b]) ==> p in order[..b]
  }

  predicate IsFree(ops: seq<Operator>, i: nat, ordered: seq<nat>) {
    forall p :: 0 <= p < |ops| && Upstream(ops, p, i) ==> p in ordered
  }

  function FirstFree(ops: seq<Operator>, remaining: seq<nat>, ordered: seq<nat>, from: nat): (free: Option<nat>)
    requires from <= |remaining|
    ensures free.Some? ==> free.value < |remaining| && IsFree(ops, remaining[free.value], ordered)
    ensures free.None? ==> forall k :: from <= k < |remaining| ==> !IsFree(ops, remaining[k], ordered)
    decreases |remaining| - from
  {
    if from == |remaining| then None
    else if IsFree(ops, remaining[from], ordered) then Some(from)
    else FirstFree(ops, remaining, ordered, from + 1)
  }

  ghost predicate Sorted(s: seq<nat>) {
    forall a, b :: 0 <= a < b < |s| ==> s[a] < s[b]
  }

  /** Every operator is either ordered, once, or remains, in the order it was declared. */
  ghost predicate Partitions(ordered: seq<nat>, remaining: seq<nat>, n: nat) {
    && |ordered| + |remaining| == n
    && Sorted(remaining)
    && (forall a :: 0 <= a < |ordered| ==> ordered[a] < n)
    && (forall a :: 0 <= a < |remaining| ==> remaining[a] < n)
    && (forall a, b :: 0 <= a < b < |ordered| ==> ordered[a] != ordered[b])
    && (forall i: nat :: i < n ==> (i in ordered <==> i !in remaining))
  }

  function Removed(s: seq<nat>, k: nat): seq<nat>
    requires k < |s|
  {
    s[..k] + s[k + 1..]
  }

  lemma MovedPartitions(ordered: seq<nat>, remaining: seq<nat>, n: nat, k: nat)
    requires Partitions(ordered, remaining, n) && k < |remaining|
    ensures Partitions(ordered + [remaining[k]], Removed(remaining, k), n)
  {
    var next, rest := remaining[k], Removed(remaining, k);
    assert next !in ordered;
    assert next !in rest;
    forall i: nat | i < n && i != next ensures i in rest <==> i in remaining {
      if i in remaining {
        var a :| 0 <= a < |remaining| && remaining[a] == i;
        assert i == if a < k then rest[a] else rest[a - 1];
      }
    }
  }

  /** An operator chosen because nothing it reads remains, or because it was declared first of what remains. */
  lemma ChosenAfter(ops: seq<Operator>, ordered: seq<nat>, remaining: seq<nat>, k: nat, all: bool)
    requires Partitions(ordered, remaining, |ops|) && k < |remaining| && After(ops, ordered, all)
    requires IsFree(ops, remaining[k], ordered) || (!all && k == 0)
    ensures After(ops, ordered + [remaining[k]], all)
  {
    var next := ordered + [remaining[k]];
    forall b, p | 0 <= b < |next| && Upstream(ops, p, next[b]) && (all || p < next[b]) ensures p in next[..b] {
      if b < |ordered| {
        assert next[..b] == ordered[..b];
      } else {
        assert next[..b] == ordered;
      }
    }
  }

  function LowestRank(rank: seq<nat>, remaining: seq<nat>): (k: nat)
    requires remaining != [] && forall a :: 0 <= a < |remaining| ==> remaining[a] < |rank|
    ensures k < |remaining| && forall a :: 0 <= a < |remaining| ==> rank[remaining[k]] <= rank[remaining[a]]
  {
    if |remaining| == 1 then 0
    else
      var rest := LowestRank(rank, remaining[1..]);
      assert forall a :: 1 <= a < |remaining| ==> remaining[a] == remaining[1..][a - 1];
      if rank[remaining[0]] <= rank[remaining[1..][rest]] then 0 else rest + 1
  }

  /** Without a cycle, something remaining is always free. */
  lemma SomeFree(ops: seq<Operator>, ordered: seq<nat>, remaining: seq<nat>)
    requires Partitions(ordered, remaining, |ops|) && remaining != [] && Acyclic(ops)
    ensures exists k :: 0 <= k < |remaining| && IsFree(ops, remaining[k], ordered)
  {
    var rank :| Ranks(ops, rank);
    var k := LowestRank(rank, remaining);
    forall p | 0 <= p < |ops| && Upstream(ops, p, remaining[k]) ensures p in ordered {
      forall a | 0 <= a < |remaining| ensures remaining[a] != p {}
      var i: nat := p;
      assert i !in remaining;
    }
    assert IsFree(ops, remaining[k], ordered);
  }

  /**
   * Takes, again and again, the first operator declared whose producers have all been taken or, if there is
   * none, the first there is. So each comes once, after whatever it reads that was declared before it and,
   * when there is no cycle, after all it reads.
   */
  method Order(ops: seq<Operator>) returns (ordered: seq<nat>)
    ensures Permutes(ordered, |ops|)
    ensures After(ops, ordered, false)
    ensures Acyclic(ops) ==> After(ops, ordered, true)
  {
    var remaining: seq<nat> := seq(|ops|, k => k);
    ordered := [];
    forall i: nat | i < |ops| ensures i in remaining { assert remaining[i] == i; }
    while |remaining| > 0
      invariant Partitions(ordered, remaining, |ops|)
      invariant After(ops, ordered, false)
      invariant Acyclic(ops) ==> After(ops, ordered, true)
    {
      var free := FirstFree(ops, remaining, ordered, 0);
      var k := if free.Some? then free.value else 0;
      if Acyclic(ops) {
        SomeFree(ops, ordered, remaining);
        ChosenAfter(ops, ordered, remaining, k, true);
      }
      ChosenAfter(ops, ordered, remaining, k, false);
      MovedPartitions(ordered, remaining, |ops|, k);
      ordered, remaining := ordered + [remaining[k]], Removed(remaining, k);
    }
  }

  // ----- The operators in that order -----

  function Arranged(ops: seq<Operator>, order: seq<nat>): seq<Operator>
    requires forall a :: 0 <= a < |order| ==> order[a] < |ops|
  {
    seq(|order|, a requires 0 <= a < |order| => ops[order[a]])
  }

  /** A node read in a cycle, or before its producer runs, is one `feedback` holds. */
  ghost predicate OnlyFeedbackPointsBack(ops: seq<Operator>, feedback: set<string>) {
    forall i, j, k ::
      0 <= i < |ops| && 0 <= k < |ops| && 0 <= j < |ops[i].edges| && ops[i].edges[j].node in Outputs(ops[k]) && i <= k ==>
      ops[i].edges[j].node in feedback
  }

  lemma ArrangedProducers(ops: seq<Operator>, order: seq<nat>, nodes: map<string, NodeSpec>)
    requires Permutes(order, |ops|) && OneProducer(ops, nodes) && OperatorsAllowed(ops, nodes)
    ensures OneProducer(Arranged(ops, order), nodes) && OperatorsAllowed(Arranged(ops, order), nodes)
  {
  }

  /** In evaluation order, as in declaration order, only feedback edges point to a later operator. */
  lemma ArrangedPointsForward(ops: seq<Operator>, order: seq<nat>, feedback: set<string>)
    requires Permutes(order, |ops|) && After(ops, order, false) && OnlyFeedbackPointsBack(ops, feedback)
    ensures OnlyFeedbackPointsBack(Arranged(ops, order), feedback)
  {
    var arranged := Arranged(ops, order);
    forall i, j, k | 0 <= i < |arranged| && 0 <= k < |arranged| && 0 <= j < |arranged[i].edges|
                     && arranged[i].edges[j].node in Outputs(arranged[k]) && i <= k
      ensures arranged[i].edges[j].node in feedback
    {
      forall a | 0 <= a < i ensures order[..i][a] != order[k] {}
      assert order[i] != order[k] ==> Upstream(ops, order[k], order[i]);
    }
  }

  // ----- Initial values -----

  ghost predicate MapInitial(op: Operator, initials: map<string, Data>)
    requires op.MapOp?
  {
    && (op.output in initials <==> ReadsOnlyInitials(op, initials))
    && (op.output in initials ==> op.compute(InitialInputs(op, initials)) == Some(initials[op.output]))
  }

  ghost predicate StartsRight(op: Operator, initials: map<string, Data>) {
    if op.FoldOp? then op.output in initials && initials[op.output] == op.initial else MapInitial(op, initials)
  }

  ghost predicate IsFoldOutput(ops: seq<Operator>, n: nat, node: string) {
    exists i :: 0 <= i < |ops| && i < n && ops[i].FoldOp? && ops[i].output == node
  }

  ghost predicate IsMapOutput(ops: seq<Operator>, n: nat, node: string) {
    exists i :: 0 <= i < |ops| && i < n && ops[i].MapOp? && ops[i].output == node
  }

  /** The values every fold among the first `folds` operators, and every map among the first `maps`, starts from. */
  ghost predicate InitialsOf(ops: seq<Operator>, initials: map<string, Data>, folds: nat, maps: nat) {
    && (forall node :: node in initials ==> IsFoldOutput(ops, folds, node) || IsMapOutput(ops, maps, node))
    && (forall i :: 0 <= i < |ops| && i < folds && ops[i].FoldOp? ==>
          ops[i].output in initials && initials[ops[i].output] == ops[i].initial)
    && (forall i :: 0 <= i < |ops| && i < maps && ops[i].MapOp? ==> MapInitial(ops[i], initials))
  }

  /** Map `i` throws on the initial values of its inputs, which all have one. */
  ghost predicate FailsInitially(ops: seq<Operator>, i: nat) {
    && i < |ops| && ops[i].MapOp?
    && exists initials ::
         InitialsOf(ops, initials, |ops|, i) && ReadsOnlyInitials(ops[i], initials) && ops[i].compute(InitialInputs(ops[i], initials)).None?
  }

  ghost predicate SingleOutputs(ops: seq<Operator>) {
    forall i, k :: 0 <= i < |ops| && 0 <= k < |ops| && ops[i].output == ops[k].output ==> i == k
  }

  lemma FoldStarts(ops: seq<Operator>, initials: map<string, Data>, n: nat)
    requires SingleOutputs(ops) && n < |ops| && InitialsOf(ops, initials, n, 0)
    ensures InitialsOf(ops, if ops[n].FoldOp? then initials[ops[n].output := ops[n].initial] else initials, n + 1, 0)
  {
    var after := if ops[n].FoldOp? then initials[ops[n].output := ops[n].initial] else initials;
    forall node | node in after ensures IsFoldOutput(ops, n + 1, node) {
      if node in initials { assert IsFoldOutput(ops, n, node); }
    }
  }

  /** The first `n` maps' values stand once map `n`'s is known: no map reads one declared after it. */
  lemma MapStarts(ops: seq<Operator>, initials: map<string, Data>, n: nat, after: map<string, Data>)
    requires SingleOutputs(ops) && MapsBeforeReaders(ops) && n < |ops| && ops[n].MapOp? && InitialsOf(ops, initials, |ops|, n)
    requires if ReadsOnlyInitials(ops[n], initials)
             then ops[n].compute(InitialInputs(ops[n], initials)).Some?
                  && after == initials[ops[n].output := ops[n].compute(InitialInputs(ops[n], initials)).value]
             else after == initials
    ensures InitialsOf(ops, after, |ops|, n + 1)
  {
    var output := ops[n].output;
    assert output !in initials;
    forall node | node in after ensures IsFoldOutput(ops, |ops|, node) || IsMapOutput(ops, n + 1, node) {
      if node in initials { assert IsFoldOutput(ops, |ops|, node) || IsMapOutput(ops, n, node); }
    }
    forall i | 0 <= i < |ops| && i < n + 1 && ops[i].MapOp? ensures MapInitial(ops[i], after) {
      forall j | 0 <= j < |ops[i].edges| ensures ops[i].edges[j].node != output {}
      assert ReadsOnlyInitials(ops[i], after) <==> ReadsOnlyInitials(ops[i], initials);
      if ReadsOnlyInitials(ops[i], initials) { assert InitialInputs(ops[i], after) == InitialInputs(ops[i], initials); }
      if i < n { assert MapInitial(ops[i], initials); }
    }
  }

  lemma StartsRightAt(ops: seq<Operator>, initials: map<string, Data>, i: nat)
    requires InitialsRight(ops, initials) && i < |ops|
    ensures StartsRight(ops[i], initials)
  {
  }

  lemma AllStartRight(ops: seq<Operator>, initials: map<string, Data>)
    requires forall i: nat :: i < |ops| ==> StartsRight(ops[i], initials)
    requires forall n :: n in initials ==> exists i :: 0 <= i < |ops| && ops[i].output == n
    ensures InitialsRight(ops, initials)
  {
    forall i: nat | i < |ops| && ops[i].MapOp?
      ensures (ops[i].output in initials <==> ReadsOnlyInitials(ops[i], initials))
              && (ops[i].output in initials ==> ops[i].compute(InitialInputs(ops[i], initials)) == Some(initials[ops[i].output]))
    {
      assert StartsRight(ops[i], initials) && MapInitial(ops[i], initials);
    }
    forall i: nat | i < |ops| && ops[i].FoldOp? ensures ops[i].output in initials && initials[ops[i].output] == ops[i].initial {
      assert StartsRight(ops[i], initials);
    }
  }

  lemma InitialsOfAllAreRight(ops: seq<Operator>, initials: map<string, Data>)
    requires InitialsOf(ops, initials, |ops|, |ops|)
    ensures InitialsRight(ops, initials)
  {
    forall i: nat | i < |ops| ensures StartsRight(ops[i], initials) {}
    forall node | node in initials ensures exists i :: 0 <= i < |ops| && ops[i].output == node {
      assert IsFoldOutput(ops, |ops|, node) || IsMapOutput(ops, |ops|, node);
    }
    AllStartRight(ops, initials);
  }

  method FoldInitials(ops: seq<Operator>) returns (initials: map<string, Data>)
    requires SingleOutputs(ops)
    ensures InitialsOf(ops, initials, |ops|, 0)
  {
    initials := map[];
    for n := 0 to |ops|
      invariant InitialsOf(ops, initials, n, 0)
    {
      FoldStarts(ops, initials, n);
      if ops[n].FoldOp? { initials := initials[ops[n].output := ops[n].initial]; }
    }
  }

  /**
   * The values nodes start from, folds first and then maps in order: a map has one when each of its inputs
   * does, and it is what the map makes of them. Names a map that throws on such inputs.
   */
  method InitialValues(ops: seq<Operator>) returns (result: Result<map<string, Data>, nat>)
    requires SingleOutputs(ops) && MapsBeforeReaders(ops)
    ensures result.Ok? ==> InitialsRight(ops, result.value)
    ensures result.Err? ==> FailsInitially(ops, result.error)
  {
    var initials := FoldInitials(ops);
    for n := 0 to |ops|
      invariant InitialsOf(ops, initials, |ops|, n)
    {
      if ops[n].MapOp? {
        ghost var before := initials;
        if ReadsOnlyInitials(ops[n], initials) {
          var value := ops[n].compute(InitialInputs(ops[n], initials));
          if value.None? { return Err(n); }
          initials := initials[ops[n].output := value.value];
        }
        MapStarts(ops, before, n, initials);
      } else {
        MapSkips(ops, initials, n);
      }
    }
    InitialsOfAllAreRight(ops, initials);
    return Ok(initials);
  }

  lemma MapSkips(ops: seq<Operator>, initials: map<string, Data>, n: nat)
    requires n < |ops| && ops[n].FoldOp? && InitialsOf(ops, initials, |ops|, n)
    ensures InitialsOf(ops, initials, |ops|, n + 1)
  {
    forall node | node in initials ensures IsFoldOutput(ops, |ops|, node) || IsMapOutput(ops, n + 1, node) {
      assert IsFoldOutput(ops, |ops|, node) || IsMapOutput(ops, n, node);
    }
  }

  // ----- Which nodes start with a value, and which are documented to -----

  /** A map's read of a starting node starts it, if it triggers or the node may be sampled. */
  predicate Starts(edge: Edge, starting: set<string>, samples: bool) {
    edge.mode.Latest? && (samples || edge.mode.trigger) && edge.node in starting
  }

  predicate AllStart(op: Operator, starting: set<string>, samples: bool) {
    forall j :: 0 <= j < |op.edges| ==> Starts(op.edges[j], starting, samples)
  }

  /**
   * The nodes every fold and the first `maps` operators' maps start: a fold's output, and the output of a map
   * all of whose reads are of the newest values of such nodes. A read that samples is as good as another, or
   * is not.
   */
  function Starting(ops: seq<Operator>, maps: nat, samples: bool): set<string>
    requires maps <= |ops|
  {
    if maps == 0 then set i | 0 <= i < |ops| && ops[i].FoldOp? :: ops[i].output
    else
      var before, op := Starting(ops, maps - 1, samples), ops[maps - 1];
      if op.MapOp? && AllStart(op, before, samples) then before + {op.output} else before
  }

  /** What the documentation starts: only reads that trigger count. */
  function Documented(ops: seq<Operator>): set<string> {
    Starting(ops, |ops|, false)
  }

  /** Without a node that starts being read, as all else a map reads is, only by a sample. */
  ghost predicate SamplesStartNothing(ops: seq<Operator>) {
    forall i :: 0 <= i < |ops| && ops[i].MapOp? && AllStart(ops[i], Documented(ops), true) ==> AllStart(ops[i], Documented(ops), false)
  }

  lemma {:induction false} StartingGrows(ops: seq<Operator>, m: nat, n: nat, samples: bool)
    requires m <= n <= |ops|
    ensures Starting(ops, m, samples) <= Starting(ops, n, samples)
    ensures forall node :: node in Starting(ops, n, samples) && node !in Starting(ops, m, samples) ==>
              exists i :: m <= i < n && ops[i].MapOp? && ops[i].output == node
    decreases n
  {
    if m < n { StartingGrows(ops, m, n - 1, samples); }
  }

  lemma {:induction false} OutputsStart(ops: seq<Operator>, n: nat, samples: bool)
    requires n <= |ops|
    ensures forall node :: node in Starting(ops, n, samples) ==> exists i :: 0 <= i < |ops| && (ops[i].FoldOp? || i < n) && ops[i].output == node
    decreases n
  {
    if n > 0 { OutputsStart(ops, n - 1, samples); }
  }

  /** No map reads one declared after it, so what it reads starts before it, or never does. */
  lemma ReadsStartInTurn(ops: seq<Operator>, i: nat, before: set<string>, starting: set<string>)
    requires MapsBeforeReaders(ops) && i < |ops| && before <= starting
    requires forall node :: node in starting && node !in before ==> exists k :: i <= k < |ops| && ops[k].MapOp? && ops[k].output == node
    ensures forall j :: 0 <= j < |ops[i].edges| && ops[i].edges[j].node in starting ==> ops[i].edges[j].node in before
  {
  }

  /** So a map starts exactly when, in the end, all it reads does. */
  lemma MapStartsInTurn(ops: seq<Operator>, i: nat, samples: bool)
    requires SingleOutputs(ops) && MapsBeforeReaders(ops) && i < |ops| && ops[i].MapOp?
    ensures AllStart(ops[i], Starting(ops, i, samples), samples) <==> AllStart(ops[i], Starting(ops, |ops|, samples), samples)
    ensures ops[i].output in Starting(ops, |ops|, samples) <==> AllStart(ops[i], Starting(ops, |ops|, samples), samples)
  {
    StartingGrows(ops, i, |ops|, samples);
    StartingGrows(ops, i + 1, |ops|, samples);
    OutputsStart(ops, i, samples);
    ReadsStartInTurn(ops, i, Starting(ops, i, samples), Starting(ops, |ops|, samples));
  }

  /** The nodes that start with a value are known before the graph is built, from the operators alone. */
  lemma InitialsAreStarting(ops: seq<Operator>, initials: map<string, Data>)
    requires SingleOutputs(ops) && MapsBeforeReaders(ops) && InitialsRight(ops, initials)
    ensures initials.Keys == Starting(ops, |ops|, true)
  {
    InitialsStart(ops, initials, |ops|);
    forall node | node in initials ensures node in Starting(ops, |ops|, true) {
      var i :| 0 <= i < |ops| && ops[i].output == node;
    }
    forall node | node in Starting(ops, |ops|, true) ensures node in initials {
      var i :| 0 <= i < |ops| && ops[i].output == node;
    }
  }

  /** Of the folds and the first `n` maps, exactly those that start have an initial value; nothing else has either. */
  ghost predicate StartAlike(ops: seq<Operator>, initials: set<string>, starting: set<string>, n: nat) {
    && (forall i :: 0 <= i < |ops| && (ops[i].FoldOp? || i < n) ==> (ops[i].output in initials <==> ops[i].output in starting))
    && (forall node :: node in initials || node in starting ==> exists i :: 0 <= i < |ops| && ops[i].output == node)
  }

  lemma ReadsAlike(ops: seq<Operator>, initials: set<string>, starting: set<string>, n: nat)
    requires MapsBeforeReaders(ops) && StartAlike(ops, initials, starting, n) && n < |ops|
    ensures forall j :: 0 <= j < |ops[n].edges| ==> (ops[n].edges[j].node in initials <==> ops[n].edges[j].node in starting)
  {
    forall j | 0 <= j < |ops[n].edges| && (ops[n].edges[j].node in initials || ops[n].edges[j].node in starting)
      ensures ops[n].edges[j].node in initials && ops[n].edges[j].node in starting
    {
      var i :| 0 <= i < |ops| && ops[i].output == ops[n].edges[j].node;
    }
  }

  lemma MapStartsAlike(ops: seq<Operator>, initials: map<string, Data>, n: nat)
    requires SingleOutputs(ops) && MapsBeforeReaders(ops) && InitialsRight(ops, initials) && n < |ops| && ops[n].MapOp?
    requires StartAlike(ops, initials.Keys, Starting(ops, |ops|, true), n)
    ensures ops[n].output in initials <==> ops[n].output in Starting(ops, |ops|, true)
  {
    ReadsAlike(ops, initials.Keys, Starting(ops, |ops|, true), n);
    MapStartsInTurn(ops, n, true);
    StartsRightAt(ops, initials, n);
  }

  lemma {:induction false} InitialsStart(ops: seq<Operator>, initials: map<string, Data>, n: nat)
    requires SingleOutputs(ops) && MapsBeforeReaders(ops) && InitialsRight(ops, initials) && n <= |ops|
    ensures StartAlike(ops, initials.Keys, Starting(ops, |ops|, true), n)
    decreases n
  {
    if n == 0 {
      StartingGrows(ops, 0, |ops|, true);
      OutputsStart(ops, |ops|, true);
    } else {
      InitialsStart(ops, initials, n - 1);
      if ops[n - 1].MapOp? { MapStartsAlike(ops, initials, n - 1); }
    }
  }

  /** Initial values right of operators in one order are right of them in any. */
  lemma ArrangedInitials(ops: seq<Operator>, order: seq<nat>, initials: map<string, Data>)
    requires Permutes(order, |ops|) && InitialsRight(Arranged(ops, order), initials)
    ensures InitialsRight(ops, initials)
  {
    var arranged := Arranged(ops, order);
    forall i: nat | i < |ops| ensures StartsRight(ops[i], initials) {
      assert i in order;
      var a :| 0 <= a < |order| && order[a] == i;
      StartsRightAt(arranged, initials, a);
    }
    forall n | n in initials ensures exists i :: 0 <= i < |ops| && ops[i].output == n {
      var a :| 0 <= a < |arranged| && arranged[a].output == n;
      assert ops[order[a]].output == n;
    }
    AllStartRight(ops, initials);
  }

  lemma {:induction false} SamplesOnlyAdd(ops: seq<Operator>, n: nat)
    requires n <= |ops|
    ensures Starting(ops, n, false) <= Starting(ops, n, true)
    decreases n
  {
    if n > 0 { SamplesOnlyAdd(ops, n - 1); }
  }

  /**
   * What is documented to start always does; nothing else does exactly when no map whose reads are all of the
   * newest values of nodes documented to start samples one of them.
   */
  lemma StartsAsDocumented(ops: seq<Operator>, initials: map<string, Data>)
    requires SingleOutputs(ops) && MapsBeforeReaders(ops) && InitialsRight(ops, initials)
    ensures Documented(ops) <= initials.Keys
    ensures initials.Keys == Documented(ops) <==> SamplesStartNothing(ops)
  {
    InitialsAreStarting(ops, initials);
    SamplesOnlyAdd(ops, |ops|);
    if SamplesStartNothing(ops) { NothingSampledSameStart(ops, |ops|); }
    if initials.Keys == Documented(ops) {
      forall i | 0 <= i < |ops| && ops[i].MapOp? && AllStart(ops[i], Documented(ops), true) ensures AllStart(ops[i], Documented(ops), false) {
        MapStartsInTurn(ops, i, true);
        MapStartsInTurn(ops, i, false);
      }
    }
  }

  lemma {:induction false} NothingSampledSameStart(ops: seq<Operator>, n: nat)
    requires SamplesStartNothing(ops) && n <= |ops|
    ensures Starting(ops, n, true) == Starting(ops, n, false)
    decreases n
  {
    if n > 0 {
      NothingSampledSameStart(ops, n - 1);
      StartingGrows(ops, n - 1, |ops|, false);
      var before, op := Starting(ops, n - 1, false), ops[n - 1];
      if op.MapOp? && AllStart(op, before, true) { assert AllStart(op, Documented(ops), true); }
    }
  }

  /** One fold, and one map that samples it. */
  function Sampling(): Graph {
    var fold := FoldOp("count", [], "count", [], Null, (state, _) => Some(FoldStep(state, [])), None);
    var reader := MapOp("view", [Edge("count", Latest(false))], "view", _ => Some(Null));
    var spec := NodeSpec(DerivedKind, true, None);
    Graph(map["count" := spec, "view" := spec], map["count" := Null, "view" := Null], [fold, reader], [], {})
  }

  lemma SamplingDocumented()
    ensures Documented(Sampling().operators) == {"count"}
  {
    var ops := Sampling().operators;
    assert Starting(ops, 0, false) == {"count"} by { assert ops[0].output == "count"; }
    assert !AllStart(ops[1], {"count"}, false) by { assert !Starts(ops[1].edges[0], {"count"}, false); }
    assert Starting(ops, 1, false) == {"count"};
  }

  lemma SamplingInitials()
    ensures InitialsRight(Sampling().operators, Sampling().initials)
    ensures forall n :: !FailsInitially(Sampling().operators, n)
  {
    var ops := Sampling().operators;
    assert ops[0].output == "count" && ops[1].output == "view";
  }

  lemma SamplingProducers()
    ensures OneProducer(Sampling().operators, Sampling().nodes)
  {
    var ops := Sampling().operators;
    assert Outputs(ops[0]) == ["count"] && Outputs(ops[1]) == ["view"];
  }

  lemma SamplingReads()
    ensures OperatorsAllowed(Sampling().operators, Sampling().nodes)
    ensures MapsBeforeReaders(Sampling().operators) && EffectsAllowed(Sampling())
  {
  }

  /** A graph whose map starts with a value, though documented not to: its one read samples. */
  lemma SampledMapStarts()
    ensures WellFormed(Sampling()) && "view" in Sampling().initials && "view" !in Documented(Sampling().operators)
    ensures forall n :: !FailsInitially(Sampling().operators, n)
  {
    SamplingDocumented();
    SamplingInitials();
    SamplingProducers();
    SamplingReads();
    assert "view" !in {"count"} && "view" in Sampling().initials;
  }
}
