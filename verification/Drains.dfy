/** The runner's loop: each pending step first, then what expired is woken, and only then does work start. */
module Drains {
  import opened Basics
  import opened Graphs
  import opened Steps
  import opened Propagation
  import opened EngineRuns
  import Lanes
  import LaneRuns

  /** The writes of one step. */
  type Batch = seq<Pending>

  datatype Track = Track(lane: Lanes.Lane, view: Lanes.View)

  /** One start of the pump: the work and its lane, the time read, and what the pump found as it read it. */
  datatype Start = Start(lane: nat, job: Lanes.Job, at: int, started: bool, engine: State, pending: seq<Batch>)

  /** All that happened: the work started while live, the times of the wakes committed, and every step's time. */
  datatype Past = Past(begun: seq<Start>, woken: seq<int>, readings: seq<int>)

  datatype Runner = Runner(
    engine: State,
    pending: seq<Batch>,
    tracks: seq<Track>,
    live: bool,
    started: bool,
    wanted: bool,
    number: int,
    past: Past)

  // ----- What the environment decides -----

  /** What routing meets, in order: an effect's deliveries taken, a request for a lane, or a policy that throws. */
  datatype Route = Takes(effect: nat) | Admits(lane: nat, request: Lanes.Request) | Throws

  /** What a failure comes to: a stop, or a degrade to recovery scopes that still have this to write. */
  datatype Failure = Halts | Degrades(members: set<string>, keeps: nat -> bool, windDowns: seq<Batch>)

  /** What a step meets: its time, the order it wakes nodes in, the requests it leads to, and a journal that may fail. */
  datatype Meets = Meets(at: int, order: set<string> -> seq<string>, routes: seq<Route>, journal: Option<Failure>)

  /** One turn of the pump: the time, what is ready, and what the started work pushes, or whether it stops, at once. */
  datatype Try = Try(at: int, ready: Lanes.Job -> bool, pushes: seq<Batch>, stops: Option<nat -> bool>)

  /** What one pass of the loop meets; `failure` and `retry` matter where something throws, `tries` where it pumps. */
  datatype Pass = Pass(step: Meets, failure: Failure, retry: Meets, tries: seq<seq<Try>>, throws: bool)

  datatype Happening =
    | Pushes(writes: Batch)
    | Starts
    | Passes(pass: Pass)
    | Settles(lane: nat, name: Lanes.Name)
    | Rings
    | Fails(failure: Failure)
    | Stops(keeps: nat -> bool)

  ghost predicate AllWritable(g: Graph, batches: seq<Batch>) {
    forall k :: 0 <= k < |batches| ==> Writable(g, batches[k])
  }

  ghost predicate FailureFits(g: Graph, failure: Failure) {
    failure.Degrades? ==> AllWritable(g, failure.windDowns)
  }

  ghost predicate MeetsFits(g: Graph, meets: Meets) {
    && (forall due :: (set n | n in meets.order(due)) == due)
    && (meets.journal.Some? ==> FailureFits(g, meets.journal.value))
  }

  ghost predicate TriesFit(g: Graph, tries: seq<Try>) {
    forall k :: 0 <= k < |tries| ==> AllWritable(g, tries[k].pushes)
  }

  ghost predicate PassFits(g: Graph, pass: Pass) {
    && MeetsFits(g, pass.step) && MeetsFits(g, pass.retry) && FailureFits(g, pass.failure)
    && forall l :: 0 <= l < |pass.tries| ==> TriesFit(g, pass.tries[l])
  }

  /** Writes name nodes no operator owns, and wakes come in some order; nothing else is asked of the environment. */
  ghost predicate Fits(g: Graph, h: Happening) {
    match h
    case Pushes(writes) => Writable(g, writes)
    case Passes(pass) => PassFits(g, pass)
    case Fails(failure) => FailureFits(g, failure)
    case _ => true
  }

  // ----- Lanes -----

  function MovedTrack(track: Track, event: LaneRuns.Event): Track {
    track.(view := LaneRuns.After(track.lane, track.view, event))
  }

  function Moved(r: Runner, l: nat, event: LaneRuns.Event): Runner {
    if l < |r.tracks| then r.(tracks := r.tracks[l := MovedTrack(r.tracks[l], event)]) else r
  }

  function MovedAll(r: Runner, event: LaneRuns.Event): Runner {
    r.(tracks := seq(|r.tracks|, l requires 0 <= l < |r.tracks| => MovedTrack(r.tracks[l], event)))
  }

  // ----- Stopping and failing -----

  function NoneKept(): nat -> bool {
    (effect: nat) => false
  }

  /** No step runs again; of the waiting work, only what is kept starts from here on. */
  function Stopped(r: Runner, keeps: nat -> bool): Runner {
    MovedAll(MovedAll(r, LaneRuns.Keeping(keeps)), LaneRuns.Finishing).(live := false, pending := [])
  }

  function Keeping(s: State, members: set<string>): State {
    s.(kept := Some(members))
  }

  function Degraded(r: Runner, members: set<string>, keeps: nat -> bool): Runner {
    MovedAll(r, LaneRuns.Keeping(keeps)).(engine := Keeping(r.engine, members))
  }

  function WoundDown(r: Runner, windDowns: seq<Batch>): Runner {
    if windDowns == [] then Stopped(r, NoneKept()) else r.(pending := r.pending + windDowns)
  }

  /** A failure that rolled no step back; a second one stops the runner. */
  function Handled(r: Runner, failure: Failure): Runner {
    if failure.Halts? || r.engine.kept.Some? then Stopped(r, NoneKept())
    else WoundDown(Degraded(r, failure.members, failure.keeps), failure.windDowns)
  }

  // ----- One step -----

  datatype Verdict = Fine | RolledBack | Refused

  /** Every effect takes its deliveries and each is admitted, until a lane refuses one or a policy throws. */
  function Routed(r: Runner, routes: seq<Route>): (Runner, Verdict)
    decreases |routes|
  {
    if routes == [] then (r.(wanted := true), Fine)
    else
      match routes[0]
      case Takes(effect) => Routed(r.(engine := Emptied(r.engine, OfEffect(effect))), routes[1..])
      case Admits(l, request) =>
        var next := Moved(r, l, LaneRuns.Requested(request));
        if l < |r.tracks| && Lanes.RefusalOf(r.tracks[l].lane, r.tracks[l].view, request).Some? then (next, Refused)
        else Routed(next, routes[1..])
      case Throws => (r, Refused)
  }

  /** A committed step is journaled and then routed; once degraded, a journal that fails is let be. */
  function Landed(r: Runner, meets: Meets): (Runner, Verdict) {
    var journaled := if meets.journal.Some? && r.engine.kept.None? then Handled(r, meets.journal.value) else r;
    if journaled.live then Routed(journaled, meets.routes) else (journaled, Fine)
  }

  function WokenAt(past: Past, writes: Batch, at: int): Past {
    if writes == [] then past.(woken := past.woken + [at]) else past
  }

  /** The runner once the engine, stepping to `after`, has committed. */
  function Committed(r: Runner, writes: Batch, after: State, at: int): Runner {
    r.(number := r.number + 1, engine := after, past := WokenAt(r.past, writes, at))
  }

  /** What comes of a step of the engine: it landed, or was rolled back. */
  function Concluded(r: Runner, writes: Batch, outcome: Outcome, meets: Meets): (Runner, Verdict) {
    if outcome.Err? then (r.(number := r.number + 1), RolledBack)
    else Landed(Committed(r, writes, outcome.value.state, meets.at), meets)
  }

  /** The step of the engine that runs `writes`, or with none, wakes what is due. */
  function OutcomeOf(g: Graph, s: State, number: int, writes: Batch, meets: Meets): Outcome
    requires WellFormed(g) && Known(g, writes)
  {
    Run(g, s, writes, Stamp(number, meets.at), if writes == [] then meets.order(Due(g, s, meets.at)) else [])
  }

  function Propagated(g: Graph, r: Runner, writes: Batch, meets: Meets): (Runner, Verdict)
    requires WellFormed(g) && Known(g, writes)
  {
    var read := r.(past := r.past.(readings := r.past.readings + [meets.at]));
    if writes == [] && Due(g, r.engine, meets.at) == {} then (read, Fine)
    else Concluded(read, writes, OutcomeOf(g, r.engine, r.number + 1, writes, meets), meets)
  }

  /** What a step that threw comes to: a stop or a degrade, which tries a step that was rolled back once more. */
  function Recovered(g: Graph, r: Runner, retry: Option<Batch>, pass: Pass): Runner
    requires WellFormed(g) && (retry.Some? ==> Known(g, retry.value))
  {
    if retry.None? || pass.failure.Halts? || r.engine.kept.Some? then Handled(r, pass.failure)
    else
      var (after, verdict) := Propagated(g, Degraded(r, pass.failure.members, pass.failure.keeps), retry.value, pass.retry);
      if verdict.Fine? then WoundDown(after, pass.failure.windDowns) else Stopped(after, NoneKept())
  }

  function Answered(g: Graph, result: (Runner, Verdict), writes: Batch, pass: Pass): Runner
    requires WellFormed(g) && Known(g, writes)
  {
    match result.1
    case Fine => result.0
    case RolledBack => Recovered(g, result.0, Some(writes), pass)
    case Refused => Recovered(g, result.0, None, pass)
  }

  function Guarded(g: Graph, r: Runner, writes: Batch, pass: Pass): Runner
    requires WellFormed(g) && Known(g, writes)
  {
    Answered(g, Propagated(g, r, writes, pass.step), writes, pass)
  }

  // ----- Pumping -----

  /** Once started, something due by `at` has yet to be woken. */
  predicate IsOverdue(g: Graph, r: Runner, at: int) {
    r.started && Due(g, r.engine, at) != {}
  }

  predicate IsOpen(g: Graph, r: Runner, at: int) {
    r.live && r.pending == [] && !IsOverdue(g, r, at)
  }

  function TurnOf(g: Graph, r: Runner, t: Try): Lanes.Turn {
    Lanes.Turn(IsOpen(g, r, t.at), t.at, t.ready)
  }

  /** The work that turn `t` started on lane `l` of `r` runs until it first waits: it may push steps, or stop the runner. */
  function Began(r: Runner, l: nat, t: Try, next: Runner): Runner
    requires l < |next.tracks| && next.tracks[l].view.active != []
  {
    var active := next.tracks[l].view.active;
    var start := Start(l, active[|active| - 1], t.at, r.started, r.engine, r.pending);
    var begun := next.(past := next.past.(begun := next.past.begun + [start]), pending := next.pending + t.pushes);
    if t.stops.Some? then Stopped(begun, t.stops.value) else begun
  }

  /** Lane `l` starts what it may, looking again before each start. */
  function Pumped(g: Graph, r: Runner, l: nat, tries: seq<Try>): Runner
    decreases |tries|
  {
    if tries == [] || l >= |r.tracks| then r
    else
      var turn, track := TurnOf(g, r, tries[0]), r.tracks[l];
      var next := Moved(r, l, LaneRuns.Pumping([turn]));
      if !Lanes.GoesOn(track.lane, track.view, turn) then next
      else
        GoingOnStarts(track, turn);
        Pumped(g, Began(r, l, tries[0], next), l, tries[1..])
  }

  lemma GoingOnStarts(track: Track, turn: Lanes.Turn)
    requires Lanes.GoesOn(track.lane, track.view, turn)
    ensures var after := MovedTrack(track, LaneRuns.Pumping([turn])).view;
            && after.active != [] && after.past.begun == track.view.past.begun + [after.active[|after.active| - 1]]
  {
    Lanes.NextIsThere(track.view.waiting, turn.ready);
    assert [turn][1..] == [];
    var pumped := Lanes.Pumped(track.lane, track.view, turn);
    assert Lanes.PumpedAll(track.lane, pumped, []) == pumped;
  }

  function PumpedFrom(g: Graph, r: Runner, l: nat, tries: seq<seq<Try>>): Runner
    decreases |tries| - l
  {
    if l >= |tries| then r else PumpedFrom(g, Pumped(g, r, l, tries[l]), l + 1, tries)
  }

  // ----- The loop -----

  /** One pass does one thing: a pending step if there is one, a wake if something is overdue, a pump if it is wanted. */
  function Passed(g: Graph, r: Runner, pass: Pass): (Runner, bool)
    requires WellFormed(g) && forall k :: 0 <= k < |r.pending| ==> Known(g, r.pending[k])
  {
    if !r.live then (r, false)
    else if r.pending != [] then (Guarded(g, r.(pending := r.pending[1..]), r.pending[0], pass), true)
    else if IsOverdue(g, r, pass.step.at) then (Guarded(g, r, [], pass), true)
    else if r.wanted then
      var pumped := PumpedFrom(g, r.(wanted := false), 0, pass.tries);
      (if pass.throws && pumped.live then Handled(pumped, pass.failure) else pumped, true)
    else (r, false)
  }

  function Undergone(g: Graph, r: Runner, h: Happening): Runner
    requires WellFormed(g) && forall k :: 0 <= k < |r.pending| ==> Known(g, r.pending[k])
  {
    match h
    case Pushes(writes) => if !r.live || writes == [] then r else r.(pending := r.pending + [writes])
    case Starts => r.(started := true)
    case Passes(pass) => Passed(g, r, pass).0
    case Settles(l, name) =>
      var settled := Moved(r, l, LaneRuns.Settling(name));
      if r.live then settled.(wanted := true) else MovedAll(settled, LaneRuns.Finishing)
    case Rings => r.(wanted := true)
    case Fails(failure) => if r.live then Handled(r, failure) else r
    case Stops(keeps) => Stopped(r, keeps)
  }

  function Fresh(g: Graph, lanes: seq<Lanes.Lane>): Runner
    requires Creatable(g)
  {
    Runner(Initial(g), [], seq(|lanes|, l requires 0 <= l < |lanes| => Track(lanes[l], LaneRuns.Empty())), true, false, false, 0, Past([], [], []))
  }
}
