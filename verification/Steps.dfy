/**
 * What one step of propagation does, as functions on values. Each operation is stated in closed form:
 * which buffers receive a write and which operators it schedules, whatever order readers are visited in.
 * Core.Core implements them in place.
 */
module Steps {
  import opened Basics
  import opened DataValues
  import opened Graphs

  /** The re-entries one operator is allowed in one step. */
  const CYCLE_BOUND := 64

  /** Who reads: an operator or an effect, told apart though their ids may be equal. */
  datatype Reader = OfOperator(index: nat) | OfEffect(index: nat)

  /** One read of one reader: the read at position `input` among those it declared. */
  datatype Key = Key(reader: Reader, input: nat)

  /** A write as an `every` reader buffers it, with its place in the order of all writes. */
  datatype Sequenced = Sequenced(value: Option<Data>, stamp: Stamp, order: nat)

  /** A delivery taken from a read, before inputs are merged. */
  datatype Pulled = Pulled(input: FoldInput, order: nat)

  datatype Digest = OfValue(value: Data) | OfStatus(failed: bool)

  datatype DerivedWrite = DerivedWrite(node: string, digest: Digest)

  /** A write as it was recorded: what an exactly-once delivery is measured against. */
  datatype Logged = Logged(node: string, delivery: Sequenced)

  /**
   * The history the engine does not keep but its promises are about: every recorded write, per operator how
   * much of the log its takes have covered, and per fold the inputs it has applied.
   */
  datatype History = History(log: seq<Logged>, applied: map<nat, seq<FoldInput>>, cut: map<nat, nat>)

  datatype State = State(
    records: map<string, Record>,
    buffers: map<Key, seq<Sequenced>>,
    lastWrite: map<string, nat>,
    watched: map<Key, nat>,
    expiries: map<string, seq<int>>,
    writeSeq: nat,
    kept: Option<set<string>>,
    history: History)

  /** The step under way: the operators scheduled, and how often each one evaluated was scheduled again. */
  datatype Step = Step(stamp: Stamp, dirty: set<nat>, reentries: map<nat, nat>, derived: seq<DerivedWrite>)

  datatype World = World(state: State, step: Step)

  datatype StepError =
    | Threw(operator: nat)
    | MalformedExpiry(node: string)
    | CycleBound
    | NotOwned(operator: nat, node: string)

  type Outcome = Result<World, StepError>

  datatype Pending = Pending(node: string, written: Written)

  // ----- The graph as a step reads it -----

  function EdgesOf(g: Graph, reader: Reader): seq<Edge> {
    match reader
    case OfOperator(i) => if i < |g.operators| then g.operators[i].edges else []
    case OfEffect(i) => if i < |g.effects| then g.effects[i].edges else []
  }

  /** `key` is an `every` read of `node`. */
  predicate Buffers(g: Graph, key: Key, node: string) {
    && key.input < |EdgesOf(g, key.reader)|
    && EdgesOf(g, key.reader)[key.input] == Edge(node, Every)
  }

  predicate IsEveryKey(g: Graph, key: Key) {
    key.input < |EdgesOf(g, key.reader)| && EdgesOf(g, key.reader)[key.input].mode.Every?
  }

  function OperatorKeys(g: Graph): set<Key> {
    set i: nat, j: nat | i < |g.operators| && j < |g.operators[i].edges| && g.operators[i].edges[j].mode.Every?
      :: Key(OfOperator(i), j)
  }

  function EffectKeys(g: Graph): set<Key> {
    set i: nat, j: nat | i < |g.effects| && j < |g.effects[i].edges| && g.effects[i].edges[j].mode.Every?
      :: Key(OfEffect(i), j)
  }

  predicate Keeps(g: Graph, s: State, i: int) {
    KeepsUnder(g, s.kept, i)
  }

  predicate KeepsUnder(g: Graph, kept: Option<set<string>>, i: int) {
    IsOperator(g, i) && (kept.None? || g.operators[i].id in kept.value)
  }

  function RecordOf(s: State, node: string): Record {
    if node in s.records then s.records[node] else Unwritten(None)
  }

  function BufferOf(s: State, key: Key): seq<Sequenced> {
    if key in s.buffers then s.buffers[key] else []
  }

  /** Some kept operator watches `node`; no other reader minds that time passes. */
  predicate IsWatched(g: Graph, s: State, node: string) {
    exists i: nat, j: nat :: i < |g.operators| && j < |g.operators[i].edges| && Keeps(g, s, i)
                             && g.operators[i].edges[j] == Edge(node, Watch)
  }

  // ----- Expiries -----

  function InsertAscending(x: int, s: seq<int>): seq<int> {
    if s == [] || x < s[0] then [x] + s
    else if x == s[0] then s
    else [s[0]] + InsertAscending(x, s[1..])
  }

  function SortedUnique(s: seq<int>): seq<int> {
    if s == [] then [] else InsertAscending(s[0], SortedUnique(s[1..]))
  }

  /** The expiries a write stores, sorted: a level carries its own, any other node's are computed from its value. */
  function ExpiriesOf(spec: NodeSpec, written: Written): Option<seq<int>> {
    var found :=
      if spec.kind == LevelKind then
        Some(if written.Present? && written.expiry.Some? then [written.expiry.value] else [])
      else if written.Present? && spec.expiries.Some? then spec.expiries.value(written.value)
      else Some([]);
    if found.None? || exists k :: 0 <= k < |found.value| && !IsSafeInteger(found.value[k]) then None
    else Some(SortedUnique(found.value))
  }

  function After(list: seq<int>, at: int): seq<int> {
    if list == [] then []
    else (if list[0] > at then [list[0]] else []) + After(list[1..], at)
  }

  /** What is left to wait for at `node` once those who watch it have been told of everything up to `at`. */
  function Presented(expiries: map<string, seq<int>>, node: string, list: seq<int>, at: int): map<string, seq<int>> {
    if |After(list, at)| > 0 then expiries[node := After(list, at)] else expiries - {node}
  }

  /** When `node`'s watchers are next to be told that time passed; never if none is kept. */
  function PendingExpiry(g: Graph, s: State, node: string): Option<int> {
    if IsWatched(g, s, node) && node in s.expiries && |s.expiries[node]| > 0 then Some(s.expiries[node][0]) else None
  }

  predicate IsDue(g: Graph, s: State, node: string, at: int) {
    PendingExpiry(g, s, node).Some? && PendingExpiry(g, s, node).value <= at
  }

  function Due(g: Graph, s: State, at: int): set<string> {
    set node | node in s.expiries && IsDue(g, s, node, at)
  }

  // ----- Scheduling and writing -----

  /** Whether a read in `mode` schedules its reader at this write. */
  predicate Wakes(mode: Mode, before: Record, written: Written) {
    match mode
    case Latest(true) => before != Held(written)
    case Latest(false) => written.Present? && !Readable(before)
    case _ => true
  }

  /** Some read of operator `i` on `node` schedules it at this write. */
  predicate Schedules(g: Graph, s: State, i: nat, node: string, before: Record, written: Written) {
    Keeps(g, s, i) && exists j: nat :: j < |g.operators[i].edges| && ScheduledBy(g.operators[i].edges[j], node, before, written)
  }

  predicate ScheduledBy(edge: Edge, node: string, before: Record, written: Written) {
    edge.node == node && Wakes(edge.mode, before, written)
  }

  function ScheduledAt(g: Graph, s: State, node: string, before: Record, written: Written): set<nat> {
    set i: nat | i < |g.operators| && Schedules(g, s, i, node, before, written)
  }

  function WatchersOf(g: Graph, s: State, node: string): set<nat> {
    set i: nat | i < |g.operators| && Keeps(g, s, i) && exists j: nat :: j < |g.operators[i].edges| && g.operators[i].edges[j] == Edge(node, Watch)
  }

  /** Schedules every operator of `ops` not yet scheduled, counting each one already evaluated. */
  function ScheduleAll(step: Step, ops: set<nat>): Result<Step, StepError> {
    if exists i :: i in ops && i !in step.dirty && i in step.reentries && step.reentries[i] + 1 > CYCLE_BOUND then
      Err(CycleBound)
    else
      Ok(step.(dirty := step.dirty + ops,
               reentries := map i | i in step.reentries ::
                 if i in ops && i !in step.dirty then step.reentries[i] + 1 else step.reentries[i]))
  }

  function DigestOf(written: Written): Digest {
    match written
    case Present(value, _, _) => OfValue(value)
    case Blocked(failed, _) => OfStatus(failed)
  }

  function ValueOfWrite(written: Written): Option<Data> {
    if written.Present? then Some(written.value) else None
  }

  /** The buffers once `delivery` is pushed to each that reads every write of `node`. */
  function Buffered(g: Graph, buffers: map<Key, seq<Sequenced>>, node: string, delivery: Sequenced): map<Key, seq<Sequenced>> {
    map key | key in buffers :: if Buffers(g, key, node) then buffers[key] + [delivery] else buffers[key]
  }

  /** The state once `written` is recorded and buffered; nothing is scheduled yet. */
  function Recorded(g: Graph, s: State, node: string, written: Written, found: seq<int>, stamp: Stamp): State {
    var delivery := Sequenced(ValueOfWrite(written), stamp, s.writeSeq + 1);
    s.(records := s.records[node := Held(written)],
       buffers := Buffered(g, s.buffers, node, delivery),
       lastWrite := s.lastWrite[node := s.writeSeq + 1],
       expiries := Presented(s.expiries, node, found, stamp.at),
       writeSeq := s.writeSeq + 1,
       history := s.history.(log := s.history.log + [Logged(node, delivery)]))
  }

  function Noted(step: Step, node: string, written: Written, derived: bool): Step {
    if derived then step.(derived := step.derived + [DerivedWrite(node, DigestOf(written))]) else step
  }

  /** One write: recorded unless its node coalesces an equal one, buffered, and its readers scheduled. */
  function Write(g: Graph, w: World, node: string, written: Written, derived: bool): Outcome
    requires node in g.nodes
  {
    var before := RecordOf(w.state, node);
    var found := ExpiriesOf(g.nodes[node], written);
    if found.None? then Err(MalformedExpiry(node))
    else if g.nodes[node].coalesces && before == Held(written) then Ok(w)
    else
      var step :- ScheduleAll(w.step, ScheduledAt(g, w.state, node, before, written));
      Ok(World(
        Recorded(g, w.state, node, written, found.value, w.step.stamp),
        Noted(step, node, written, derived)))
  }

  /** The state once `node` counts as written again at `at`, its record unchanged. */
  function Woken(s: State, node: string, at: int): State {
    var list := if node in s.expiries then s.expiries[node] else [];
    s.(lastWrite := s.lastWrite[node := s.writeSeq + 1], writeSeq := s.writeSeq + 1,
       expiries := Presented(s.expiries, node, list, at))
  }

  /** Schedules whoever watches `node`, which keeps its record but counts as written. */
  function Wake(g: Graph, w: World, node: string): Outcome {
    var step :- ScheduleAll(w.step, WatchersOf(g, w.state, node));
    Ok(World(Woken(w.state, node, w.step.stamp.at), step))
  }

  function WakeAll(g: Graph, w: World, nodes: seq<string>): Outcome
    decreases |nodes|
  {
    if nodes == [] then Ok(w)
    else
      var next :- Wake(g, w, nodes[0]);
      WakeAll(g, next, nodes[1..])
  }

  function WriteAll(g: Graph, w: World, writes: seq<Pending>): Outcome
    requires forall k :: 0 <= k < |writes| ==> writes[k].node in g.nodes
    decreases |writes|
  {
    if writes == [] then Ok(w)
    else
      var next :- Write(g, w, writes[0].node, writes[0].written, false);
      WriteAll(g, next, writes[1..])
  }

  // ----- Taking deliveries -----

  function AsInputs(from: nat, buffer: seq<Sequenced>): seq<Pulled> {
    seq(|buffer|, k requires 0 <= k < |buffer| =>
      Pulled(FoldInput(from, Occurred(buffer[k].value), buffer[k].stamp), buffer[k].order))
  }

  /** Every unread delivery of `reader`, read after read, from the read at `from` on. */
  function Gathered(g: Graph, s: State, reader: Reader, from: nat): seq<Pulled>
    decreases |EdgesOf(g, reader)| - from
  {
    if from >= |EdgesOf(g, reader)| then []
    else
      (if EdgesOf(g, reader)[from].mode.Every? then AsInputs(from, BufferOf(s, Key(reader, from))) else [])
      + Gathered(g, s, reader, from + 1)
  }

  function OfOrder(pulled: seq<Pulled>, order: nat): seq<Pulled> {
    if pulled == [] then []
    else (if pulled[0].order == order then [pulled[0]] else []) + OfOrder(pulled[1..], order)
  }

  /** `pulled` sorted by order, equal ones as they stood, of those at or below `upTo`. */
  function Merged(pulled: seq<Pulled>, upTo: nat): seq<Pulled> {
    if upTo == 0 then OfOrder(pulled, 0) else Merged(pulled, upTo - 1) + OfOrder(pulled, upTo)
  }

  /** `s` with the buffers of `reader` emptied. */
  function Emptied(s: State, reader: Reader): State {
    s.(buffers := map key | key in s.buffers :: if key.reader == reader then [] else s.buffers[key])
  }

  /** Watched node `j` of fold `i` was written since the fold last ran. */
  predicate Unseen(g: Graph, s: State, i: nat, j: nat)
    requires IsOperator(g, i) && j < |g.operators[i].edges|
  {
    var edge := g.operators[i].edges[j];
    var key := Key(OfOperator(i), j);
    edge.mode.Watch? && edge.node in s.lastWrite
    && s.lastWrite[edge.node] > (if key in s.watched then s.watched[key] else 0)
  }

  /** The reads of fold `i` that watch something written since, from the read at `from` on, each as one input. */
  function WatchedInputs(g: Graph, s: State, i: nat, from: nat, stamp: Stamp): seq<Pulled>
    requires IsOperator(g, i)
    decreases |g.operators[i].edges| - from
  {
    if from >= |g.operators[i].edges| then []
    else
      (if Unseen(g, s, i, from) then
         var node := g.operators[i].edges[from].node;
         [Pulled(FoldInput(from, Watched(RecordOf(s, node)), stamp), s.lastWrite[node])]
       else [])
      + WatchedInputs(g, s, i, from + 1, stamp)
  }

  /** What fold `i` has seen of its watched nodes once the first `n` of its reads are taken. */
  function SeenBelow(g: Graph, s: State, i: nat, n: nat): map<Key, nat>
    requires IsFold(g, i) && n <= |g.operators[i].edges|
  {
    if n == 0 then s.watched
    else
      var before := SeenBelow(g, s, i, n - 1);
      if Unseen(g, s, i, n - 1) then before[Key(OfOperator(i), n - 1) := s.lastWrite[g.operators[i].edges[n - 1].node]] else before
  }

  function SeenAll(g: Graph, s: State, i: nat): map<Key, nat>
    requires IsFold(g, i)
  {
    SeenBelow(g, s, i, |g.operators[i].edges|)
  }

  function InputsOnly(pulled: seq<Pulled>): seq<FoldInput> {
    seq(|pulled|, k requires 0 <= k < |pulled| => pulled[k].input)
  }

  // ----- Evaluating operators -----

  /** An input of a map that is read whole and holds no value. */
  predicate BlockedAt(g: Graph, s: State, i: nat, j: nat)
    requires IsOperator(g, i) && j < |g.operators[i].edges|
  {
    var edge := g.operators[i].edges[j];
    !edge.mode.Every? && !Readable(RecordOf(s, edge.node))
  }

  predicate HasFailed(record: Record) {
    record.Held? && record.write.Blocked? && record.write.failed
  }

  predicate FailedAt(g: Graph, s: State, i: nat, j: nat)
    requires IsOperator(g, i) && j < |g.operators[i].edges|
  {
    BlockedAt(g, s, i, j) && HasFailed(RecordOf(s, g.operators[i].edges[j].node))
  }

  predicate IsBlocked(g: Graph, s: State, i: nat)
    requires IsOperator(g, i)
  {
    exists j: nat :: j < |g.operators[i].edges| && BlockedAt(g, s, i, j)
  }

  predicate IsFailed(g: Graph, s: State, i: nat)
    requires IsOperator(g, i)
  {
    exists j: nat :: j < |g.operators[i].edges| && FailedAt(g, s, i, j)
  }

  function Deliveries(pulled: seq<Pulled>): seq<Delivered> {
    seq(|pulled|, k requires 0 <= k < |pulled| =>
      Delivered(if pulled[k].input.value.Occurred? then pulled[k].input.value.value else None, pulled[k].input.stamp))
  }

  function MapInputAt(g: Graph, s: State, i: nat, j: nat): MapInput
    requires IsOperator(g, i) && j < |g.operators[i].edges|
  {
    var edge := g.operators[i].edges[j];
    if edge.mode.Every? then
      Batch(Deliveries(Merged(AsInputs(j, BufferOf(s, Key(OfOperator(i), j))), s.writeSeq)))
    else
      Current(ValueOf(RecordOf(s, edge.node)))
  }

  function MapInputs(g: Graph, s: State, i: nat): seq<MapInput>
    requires IsOperator(g, i)
  {
    seq(|g.operators[i].edges|, j requires 0 <= j < |g.operators[i].edges| => MapInputAt(g, s, i, j))
  }

  /** `s` once map `i` has taken its deliveries. */
  function TakenByMap(s: State, i: nat): State {
    Emptied(s, OfOperator(i)).(history := s.history.(cut := s.history.cut[i := |s.history.log|]))
  }

  function EvaluateMap(g: Graph, w: World, i: nat): Outcome
    requires IsMap(g, i) && g.operators[i].output in g.nodes
  {
    var op := g.operators[i];
    if IsBlocked(g, w.state, i) then
      Write(g, w, op.output, Blocked(IsFailed(g, w.state, i), None), true)
    else
      match op.compute(MapInputs(g, w.state, i))
      case None => Err(Threw(i))
      case Some(value) =>
        Write(g, w.(state := TakenByMap(w.state, i)), op.output, Present(value, None, None), true)
  }

  /** Applies `inputs` in order; `None` if the fold throws on one. */
  function Applied(op: Operator, state: Data, inputs: seq<FoldInput>): Option<FoldStep>
    requires op.FoldOp?
    decreases |inputs|
  {
    if inputs == [] then Some(FoldStep(state, []))
    else
      match op.applyInput(state, inputs[0])
      case None => None
      case Some(first) =>
        match Applied(op, first.state, inputs[1..])
        case None => None
        case Some(rest) => Some(FoldStep(rest.state, first.emit + rest.emit))
  }

  /** The fold's next state and emits over `inputs`, with its `afterInputs` run once if any arrived. */
  function Folded(op: Operator, state: Data, inputs: seq<FoldInput>, stamp: Stamp): Option<FoldStep>
    requires op.FoldOp?
  {
    match Applied(op, state, inputs)
    case None => None
    case Some(step) =>
      if op.afterInputs.None? || inputs == [] then Some(step)
      else
        match op.afterInputs.value(step.state, stamp)
        case None => None
        case Some(after) => Some(FoldStep(after.state, step.emit + after.emit))
  }

  /** The inputs fold `i` takes when it runs: its deliveries and watched records, in write order. */
  function FoldInputs(g: Graph, w: World, i: nat): seq<FoldInput>
    requires IsFold(g, i)
  {
    InputsOnly(Merged(Merged(Gathered(g, w.state, OfOperator(i), 0), w.state.writeSeq)
                      + WatchedInputs(g, w.state, i, 0, w.step.stamp), w.state.writeSeq))
  }

  function AppliedHistory(h: History, i: nat, inputs: seq<FoldInput>): History {
    h.(applied := h.applied[i := (if i in h.applied then h.applied[i] else []) + inputs], cut := h.cut[i := |h.log|])
  }

  /** `s` once fold `i` has taken its inputs. */
  function Taken(g: Graph, w: World, i: nat): State
    requires IsFold(g, i)
  {
    Emptied(w.state, OfOperator(i)).(
      watched := SeenAll(g, w.state, i),
      history := AppliedHistory(w.state.history, i, FoldInputs(g, w, i)))
  }

  /** Writes what a fold emitted, in order. */
  function EmitAll(g: Graph, w: World, i: nat, emits: seq<Emit>): Outcome
    requires IsFold(g, i) && forall n :: n in g.operators[i].emits ==> n in g.nodes
    decreases |emits|
  {
    if emits == [] then Ok(w)
    else if emits[0].node !in g.operators[i].emits then Err(NotOwned(i, emits[0].node))
    else
      var next :- Write(g, w, emits[0].node, Present(emits[0].value, None, None), true);
      EmitAll(g, next, i, emits[1..])
  }

  function EvaluateFold(g: Graph, w: World, i: nat): Outcome
    requires IsFold(g, i) && g.operators[i].output in g.nodes
    requires forall n :: n in g.operators[i].emits ==> n in g.nodes
  {
    var op := g.operators[i];
    match Folded(op, ValueOf(RecordOf(w.state, op.output)), FoldInputs(g, w, i), w.step.stamp)
    case None => Err(Threw(i))
    case Some(next) => WriteFolded(g, w.(state := Taken(g, w, i)), i, next)
  }

  function WriteFolded(g: Graph, w: World, i: nat, next: FoldStep): Outcome
    requires IsFold(g, i) && g.operators[i].output in g.nodes
    requires forall n :: n in g.operators[i].emits ==> n in g.nodes
  {
    var after :- Write(g, w, g.operators[i].output, Present(next.state, None, None), true);
    EmitAll(g, after, i, next.emit)
  }

  function Evaluate(g: Graph, w: World, i: nat): Outcome
    requires WellFormed(g) && IsOperator(g, i)
  {
    if g.operators[i].MapOp? then EvaluateMap(g, w, i) else EvaluateFold(g, w, i)
  }
}
