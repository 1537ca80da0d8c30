/** What every run of the runner keeps: work starts undisturbed, wakes only ever advance, and lanes keep their promises. */
module DrainRuns {
  import opened Basics
  import opened Graphs
  import opened Steps
  import opened Propagation
  import opened Invariants
  import opened StepInvariants
  import opened EngineRuns
  import opened Expiring
  import opened Drains
  import Lanes
  import LaneRuns

  /** A start of a started runner finds nothing pending, and no expiry passed that its watchers have not been told of. */
  ghost predicate Undisturbed(g: Graph, start: Start) {
    && start.pending == []
    && (start.started ==> forall node :: IsWatched(g, start.engine, node) ==> !Lapsed(start.engine, node, start.at))
  }

  ghost predicate IsLaneRun(track: Track) {
    exists events :: track.view == LaneRuns.AfterAll(track.lane, LaneRuns.Empty(), events)
  }

  function BegunOn(begun: seq<Start>, l: nat): seq<Lanes.Job> {
    if begun == [] then []
    else BegunOn(begun[..|begun| - 1], l) + if begun[|begun| - 1].lane == l then [begun[|begun| - 1].job] else []
  }

  predicate Forward(readings: seq<int>) {
    forall a, b :: 0 <= a < b < |readings| ==> readings[a] <= readings[b]
  }

  predicate Rising(times: seq<int>) {
    forall a, b :: 0 <= a < b < |times| ==> times[a] < times[b]
  }

  /** The last time read is no earlier than the last wake, and at that very time nothing is due again. */
  ghost predicate Rested(g: Graph, engine: State, past: Past) {
    && Rising(past.woken)
    && (past.woken != [] ==>
          && past.readings != []
          && var woken, read := past.woken[|past.woken| - 1], past.readings[|past.readings| - 1];
             woken <= read && (woken == read ==> Due(g, engine, read) == {}))
  }

  ghost predicate Told(g: Graph, r: Runner) {
    && (forall k :: 0 <= k < |r.past.begun| ==> Undisturbed(g, r.past.begun[k]))
    && (r.live ==> forall l :: 0 <= l < |r.tracks| ==> r.tracks[l].view.past.begun == BegunOn(r.past.begun, l))
  }

  /** States closed under what happens to an engine between its steps, each with its expiries in order. */
  ghost predicate Closed(states: iset<State>) {
    && (forall s, effect: nat :: s in states ==> Emptied(s, OfEffect(effect)) in states)
    && (forall s, members :: s in states && s.kept.None? ==> Keeping(s, members) in states)
    && (forall s :: s in states ==> ExpiriesAscend(s))
  }

  ghost predicate SoundIn(g: Graph, states: iset<State>, r: Runner) {
    && r.engine in states && AllWritable(g, r.pending)
    && (forall l :: 0 <= l < |r.tracks| ==> IsLaneRun(r.tracks[l]))
    && Told(g, r)
    && (Forward(r.past.readings) ==> Rested(g, r.engine, r.past))
  }

  // ----- Lanes only ever go on -----

  lemma {:induction false} AfterAllOnward(lane: Lanes.Lane, v: Lanes.View, events: seq<LaneRuns.Event>, event: LaneRuns.Event)
    ensures LaneRuns.AfterAll(lane, v, events + [event]) == LaneRuns.After(lane, LaneRuns.AfterAll(lane, v, events), event)
    decreases |events|
  {
    var more := events + [event];
    if events == [] {
      assert more[1..] == [];
    } else {
      AfterAllOnward(lane, LaneRuns.After(lane, v, events[0]), events[1..], event);
      assert more[0] == events[0] && more[1..] == events[1..] + [event];
    }
  }

  lemma MovedTrackRuns(track: Track, event: LaneRuns.Event)
    requires IsLaneRun(track)
    ensures IsLaneRun(MovedTrack(track, event))
  {
    var events :| track.view == LaneRuns.AfterAll(track.lane, LaneRuns.Empty(), events);
    AfterAllOnward(track.lane, LaneRuns.Empty(), events, event);
    assert MovedTrack(track, event).view == LaneRuns.AfterAll(track.lane, LaneRuns.Empty(), events + [event]);
  }

  /** Moves of the lanes that start nothing while the runner lives. */
  lemma MovedSound(g: Graph, states: iset<State>, r: Runner, l: nat, event: LaneRuns.Event)
    requires Closed(states) && SoundIn(g, states, r) && (r.live ==> !event.Pumping? && !event.Finishing?)
    ensures SoundIn(g, states, Moved(r, l, event))
  {
    if l < |r.tracks| { MovedTrackRuns(r.tracks[l], event); }
  }

  lemma MovedAllSound(g: Graph, states: iset<State>, r: Runner, event: LaneRuns.Event)
    requires Closed(states) && SoundIn(g, states, r) && (r.live ==> !event.Pumping? && !event.Finishing?)
    ensures SoundIn(g, states, MovedAll(r, event))
  {
    forall l | 0 <= l < |r.tracks| ensures IsLaneRun(MovedAll(r, event).tracks[l]) { MovedTrackRuns(r.tracks[l], event); }
  }

  lemma StoppedSound(g: Graph, states: iset<State>, r: Runner, keeps: nat -> bool)
    requires Closed(states) && SoundIn(g, states, r)
    ensures SoundIn(g, states, Stopped(r, keeps))
  {
    var dead := r.(live := false, pending := []);
    MovedAllSound(g, states, dead, LaneRuns.Keeping(keeps));
    MovedAllSound(g, states, MovedAll(dead, LaneRuns.Keeping(keeps)), LaneRuns.Finishing);
  }

  // ----- What is due -----

  /** `after` tells its watchers of nothing that `s` would not. */
  ghost predicate NoneNewlyDue(g: Graph, s: State, after: State) {
    forall at :: Due(g, after, at) <= Due(g, s, at)
  }

  lemma FewerDue(g: Graph, s: State, members: set<string>)
    requires s.kept.None?
    ensures NoneNewlyDue(g, s, Keeping(s, members))
  {
    var after := Keeping(s, members);
    forall at, node | node in Due(g, after, at) ensures node in Due(g, s, at) {
      var i: nat, j: nat :| i < |g.operators| && j < |g.operators[i].edges| && Keeps(g, after, i) && g.operators[i].edges[j] == Edge(node, Watch);
      assert Keeps(g, s, i);
      assert IsWatched(g, s, node);
    }
  }

  lemma DegradedSound(g: Graph, states: iset<State>, r: Runner, members: set<string>, keeps: nat -> bool)
    requires Closed(states) && SoundIn(g, states, r) && r.engine.kept.None?
    ensures SoundIn(g, states, Degraded(r, members, keeps)) && NoneNewlyDue(g, r.engine, Degraded(r, members, keeps).engine)
  {
    MovedAllSound(g, states, r, LaneRuns.Keeping(keeps));
    FewerDue(g, r.engine, members);
  }

  lemma WoundDownSound(g: Graph, states: iset<State>, r: Runner, windDowns: seq<Batch>)
    requires Closed(states) && SoundIn(g, states, r) && AllWritable(g, windDowns)
    ensures SoundIn(g, states, WoundDown(r, windDowns))
  {
    if windDowns == [] { StoppedSound(g, states, r, NoneKept()); }
  }

  lemma HandledSound(g: Graph, states: iset<State>, r: Runner, failure: Failure)
    requires Closed(states) && SoundIn(g, states, r) && FailureFits(g, failure)
    ensures SoundIn(g, states, Handled(r, failure)) && NoneNewlyDue(g, r.engine, Handled(r, failure).engine)
  {
    if failure.Halts? || r.engine.kept.Some? {
      StoppedSound(g, states, r, NoneKept());
    } else {
      DegradedSound(g, states, r, failure.members, failure.keeps);
      WoundDownSound(g, states, Degraded(r, failure.members, failure.keeps), failure.windDowns);
    }
  }

  // ----- Steps -----

  lemma SameDue(g: Graph, s: State, after: State)
    requires after.kept == s.kept && after.expiries == s.expiries
    ensures NoneNewlyDue(g, s, after)
  {
  }

  lemma TakenSound(g: Graph, states: iset<State>, r: Runner, effect: nat, next: Runner)
    requires Closed(states) && SoundIn(g, states, r) && next == r.(engine := Emptied(r.engine, OfEffect(effect)))
    ensures SoundIn(g, states, next) && NoneNewlyDue(g, r.engine, next.engine)
  {
    SameDue(g, r.engine, next.engine);
  }

  lemma {:induction false} RoutedSound(g: Graph, states: iset<State>, r: Runner, routes: seq<Route>)
    requires Closed(states) && SoundIn(g, states, r)
    ensures SoundIn(g, states, Routed(r, routes).0) && NoneNewlyDue(g, r.engine, Routed(r, routes).0.engine)
    decreases |routes|
  {
    if routes != [] {
      match routes[0]
      case Takes(effect) =>
        var next := r.(engine := Emptied(r.engine, OfEffect(effect)));
        TakenSound(g, states, r, effect, next);
        RoutedSound(g, states, next, routes[1..]);
      case Admits(l, request) =>
        MovedSound(g, states, r, l, LaneRuns.Requested(request));
        RoutedSound(g, states, Moved(r, l, LaneRuns.Requested(request)), routes[1..]);
      case Throws =>
    }
  }

  lemma LandedSound(g: Graph, states: iset<State>, r: Runner, meets: Meets)
    requires Closed(states) && SoundIn(g, states, r) && MeetsFits(g, meets)
    ensures SoundIn(g, states, Landed(r, meets).0) && NoneNewlyDue(g, r.engine, Landed(r, meets).0.engine)
  {
    if meets.journal.Some? && r.engine.kept.None? {
      HandledSound(g, states, r, meets.journal.value);
      RoutedSound(g, states, Handled(r, meets.journal.value), meets.routes);
    } else {
      RoutedSound(g, states, r, meets.routes);
    }
  }

  lemma ReadingStays(g: Graph, states: iset<State>, r: Runner, at: int, read: Runner)
    requires Closed(states) && SoundIn(g, states, r) && read == r.(past := r.past.(readings := r.past.readings + [at]))
    ensures SoundIn(g, states, read)
  {
    var before, more := r.past.readings, read.past.readings;
    if Forward(more) {
      assert Forward(before) by { forall a, b | 0 <= a < b < |before| ensures before[a] <= before[b] { assert more[a] <= more[b]; } }
      if r.past.woken != [] { assert more[|before| - 1] <= more[|before|]; }
    }
  }

  predicate JustRead(past: Past, at: int) {
    past.readings != [] && past.readings[|past.readings| - 1] == at
  }

  /** A wake comes strictly after the wake before it: at the time of that one nothing was due. */
  lemma WakingRests(g: Graph, s: State, after: State, past: Past, at: int)
    requires Rested(g, s, past) && JustRead(past, at) && Due(g, s, at) != {} && Due(g, after, at) == {}
    ensures Rested(g, after, past.(woken := past.woken + [at]))
  {
  }

  lemma SteppingRests(g: Graph, s: State, after: State, past: Past, at: int)
    requires Rested(g, s, past) && JustRead(past, at) && (Due(g, s, at) == {} ==> Due(g, after, at) == {})
    ensures Rested(g, after, past)
  {
  }

  /** With writes nothing is woken, and without any, all that is due. */
  ghost predicate WakesFit(g: Graph, s: State, writes: Batch, at: int, wakes: seq<string>) {
    if writes == [] then Due(g, s, at) != {} && (set n | n in wakes) == Due(g, s, at) else wakes == []
  }

  /** A step leaves nothing due at its time if nothing was, or if it woke what was. */
  ghost predicate Quiets(g: Graph, s: State, writes: Batch, result: (Runner, Verdict), at: int) {
    Due(g, s, at) == {} || (writes == [] && result.1 != RolledBack) ==> Due(g, result.0.engine, at) == {}
  }

  lemma LandedQuiets(g: Graph, s: State, writes: Batch, landed: State, result: (Runner, Verdict), at: int)
    requires NoneNewlyDue(g, landed, result.0.engine)
    requires writes == [] || Due(g, s, at) == {} ==> Due(g, landed, at) == {}
    ensures Quiets(g, s, writes, result, at)
  {
    assert Due(g, result.0.engine, at) <= Due(g, landed, at);
  }

  /** What a step that commits, with these writes or waking all that is due, makes of the engine. */
  ghost predicate Commits(g: Graph, states: iset<State>, s: State, writes: Batch, after: State, at: int) {
    && after in states
    && (writes == [] ==> Due(g, s, at) != {})
    && (writes == [] || Due(g, s, at) == {} ==> Due(g, after, at) == {})
  }

  lemma CommittedSound(g: Graph, states: iset<State>, r: Runner, writes: Batch, after: State, at: int)
    requires Closed(states) && SoundIn(g, states, r) && JustRead(r.past, at) && Commits(g, states, r.engine, writes, after, at)
    ensures SoundIn(g, states, Committed(r, writes, after, at))
  {
    if Forward(r.past.readings) {
      if writes == [] {
        WakingRests(g, r.engine, after, r.past, at);
      } else {
        SteppingRests(g, r.engine, after, r.past, at);
      }
    }
  }

  lemma ConcludedSound(g: Graph, states: iset<State>, r: Runner, writes: Batch, outcome: Outcome, meets: Meets)
    requires Closed(states) && SoundIn(g, states, r) && JustRead(r.past, meets.at) && MeetsFits(g, meets)
    requires outcome.Ok? ==> Commits(g, states, r.engine, writes, outcome.value.state, meets.at)
    ensures SoundIn(g, states, Concluded(r, writes, outcome, meets).0) && Quiets(g, r.engine, writes, Concluded(r, writes, outcome, meets), meets.at)
  {
    if outcome.Ok? {
      var landed := Committed(r, writes, outcome.value.state, meets.at);
      CommittedSound(g, states, r, writes, outcome.value.state, meets.at);
      LandedSound(g, states, landed, meets);
      LandedQuiets(g, r.engine, writes, landed.engine, Landed(landed, meets), meets.at);
    } else {
      NumberedSound(g, states, r, r.number + 1);
    }
  }

  lemma NumberedSound(g: Graph, states: iset<State>, r: Runner, number: int)
    requires Closed(states) && SoundIn(g, states, r)
    ensures SoundIn(g, states, r.(number := number))
  {
  }

  // ----- The pump -----

  /** An open turn finds nothing pending and, once started, every watcher told. */
  lemma OpenUndisturbed(g: Graph, r: Runner, l: nat, job: Lanes.Job, at: int)
    requires ExpiriesAscend(r.engine) && IsOpen(g, r, at)
    ensures Undisturbed(g, Start(l, job, at, r.started, r.engine, r.pending))
  {
    if r.started {
      forall node | IsWatched(g, r.engine, node) ensures !Lapsed(r.engine, node, at) {
        LapsedIsFirst(r.engine, node, at);
        assert node !in Due(g, r.engine, at);
      }
    }
  }

  lemma BegunOnOneMore(begun: seq<Start>, start: Start, l: nat)
    ensures BegunOn(begun + [start], l) == BegunOn(begun, l) + if start.lane == l then [start.job] else []
  {
    assert (begun + [start])[..|begun|] == begun;
  }

  lemma BeganTold(g: Graph, r: Runner, l: nat, t: Try, next: Runner)
    requires Told(g, r) && l < |r.tracks| && Lanes.GoesOn(r.tracks[l].lane, r.tracks[l].view, TurnOf(g, r, t))
    requires next == Moved(r, l, LaneRuns.Pumping([TurnOf(g, r, t)])) && next.tracks[l].view.active != [] && t.stops.None?
    requires Undisturbed(g, Start(l, next.tracks[l].view.active[|next.tracks[l].view.active| - 1], t.at, r.started, r.engine, r.pending))
    ensures Told(g, Began(r, l, t, next))
  {
    var active := next.tracks[l].view.active;
    var start := Start(l, active[|active| - 1], t.at, r.started, r.engine, r.pending);
    GoingOnStarts(r.tracks[l], TurnOf(g, r, t));
    forall k: nat { BegunOnOneMore(r.past.begun, start, k); }
  }

  lemma BeganSound(g: Graph, states: iset<State>, r: Runner, l: nat, t: Try, next: Runner)
    requires Closed(states) && SoundIn(g, states, r) && AllWritable(g, t.pushes)
    requires l < |r.tracks| && Lanes.GoesOn(r.tracks[l].lane, r.tracks[l].view, TurnOf(g, r, t))
    requires next == Moved(r, l, LaneRuns.Pumping([TurnOf(g, r, t)])) && next.tracks[l].view.active != []
    ensures SoundIn(g, states, Began(r, l, t, next))
  {
    var going := t.(stops := None);
    MovedTrackRuns(r.tracks[l], LaneRuns.Pumping([TurnOf(g, r, t)]));
    OpenUndisturbed(g, r, l, next.tracks[l].view.active[|next.tracks[l].view.active| - 1], t.at);
    BeganTold(g, r, l, going, next);
    assert SoundIn(g, states, Began(r, l, going, next));
    if t.stops.Some? { StoppedSound(g, states, Began(r, l, going, next), t.stops.value); }
  }

  /** A turn that does not let the pump go on has started nothing. */
  lemma NotGoingOnStartsNothing(track: Track, turn: Lanes.Turn)
    requires !Lanes.GoesOn(track.lane, track.view, turn)
    ensures MovedTrack(track, LaneRuns.Pumping([turn])).view.past.begun == track.view.past.begun
  {
    Lanes.NextIsThere(track.view.waiting, turn.ready);
  }

  lemma HeldSound(g: Graph, states: iset<State>, r: Runner, l: nat, turn: Lanes.Turn)
    requires Closed(states) && SoundIn(g, states, r) && l < |r.tracks| && !Lanes.GoesOn(r.tracks[l].lane, r.tracks[l].view, turn)
    ensures SoundIn(g, states, Moved(r, l, LaneRuns.Pumping([turn])))
  {
    MovedTrackRuns(r.tracks[l], LaneRuns.Pumping([turn]));
    NotGoingOnStartsNothing(r.tracks[l], turn);
  }

  lemma {:induction false} PumpedSound(g: Graph, states: iset<State>, r: Runner, l: nat, tries: seq<Try>)
    requires Closed(states) && SoundIn(g, states, r) && TriesFit(g, tries)
    ensures SoundIn(g, states, Pumped(g, r, l, tries))
    decreases |tries|
  {
    if tries != [] && l < |r.tracks| {
      var turn, track := TurnOf(g, r, tries[0]), r.tracks[l];
      var next := Moved(r, l, LaneRuns.Pumping([turn]));
      if Lanes.GoesOn(track.lane, track.view, turn) {
        GoingOnStarts(track, turn);
        BeganSound(g, states, r, l, tries[0], next);
        PumpedSound(g, states, Began(r, l, tries[0], next), l, tries[1..]);
      } else {
        HeldSound(g, states, r, l, turn);
      }
    }
  }

  lemma {:induction false} PumpedFromSound(g: Graph, states: iset<State>, r: Runner, l: nat, tries: seq<seq<Try>>)
    requires Closed(states) && SoundIn(g, states, r) && forall k :: 0 <= k < |tries| ==> TriesFit(g, tries[k])
    ensures SoundIn(g, states, PumpedFrom(g, r, l, tries))
    decreases |tries| - l
  {
    if l < |tries| {
      PumpedSound(g, states, r, l, tries[l]);
      PumpedFromSound(g, states, Pumped(g, r, l, tries[l]), l + 1, tries);
    }
  }

  // ----- Steps of the engine -----

  /** A step from any of `states` that commits leads to another of them, and leaves nothing due that it woke. */
  ghost predicate StepsIn(g: Graph, states: iset<State>)
    requires WellFormed(g)
  {
    forall s, writes, stamp: Stamp, wakes ::
      s in states && Writable(g, writes) && WakesFit(g, s, writes, stamp.at, wakes) && Run(g, s, writes, stamp, wakes).Ok? ==>
      Commits(g, states, s, writes, Run(g, s, writes, stamp, wakes).value.state, stamp.at)
  }

  lemma StepSound(g: Graph, states: iset<State>, r: Runner, writes: Batch, wakes: seq<string>, meets: Meets, outcome: Outcome)
    requires WellFormed(g) && Closed(states) && StepsIn(g, states) && SoundIn(g, states, r) && Writable(g, writes) && MeetsFits(g, meets)
    requires WakesFit(g, r.engine, writes, meets.at, wakes) && JustRead(r.past, meets.at)
    requires outcome == Run(g, r.engine, writes, Stamp(r.number + 1, meets.at), wakes)
    ensures SoundIn(g, states, Concluded(r, writes, outcome, meets).0) && Quiets(g, r.engine, writes, Concluded(r, writes, outcome, meets), meets.at)
  {
    var stamp := Stamp(r.number + 1, meets.at);
    assert outcome.Ok? ==> Commits(g, states, r.engine, writes, outcome.value.state, stamp.at);
    ConcludedSound(g, states, r, writes, outcome, meets);
  }

  lemma PropagatedSound(g: Graph, states: iset<State>, r: Runner, writes: Batch, meets: Meets)
    requires WellFormed(g) && Closed(states) && StepsIn(g, states) && SoundIn(g, states, r) && Writable(g, writes) && MeetsFits(g, meets)
    ensures SoundIn(g, states, Propagated(g, r, writes, meets).0)
    ensures Quiets(g, r.engine, writes, Propagated(g, r, writes, meets), meets.at)
  {
    var read := r.(past := r.past.(readings := r.past.readings + [meets.at]));
    ReadingStays(g, states, r, meets.at, read);
    if writes != [] || Due(g, r.engine, meets.at) != {} {
      var wakes := if writes == [] then meets.order(Due(g, r.engine, meets.at)) else [];
      StepSound(g, states, read, writes, wakes, meets, OutcomeOf(g, r.engine, r.number + 1, writes, meets));
    }
  }

  lemma RecoveredSound(g: Graph, states: iset<State>, r: Runner, retry: Option<Batch>, pass: Pass)
    requires WellFormed(g) && Closed(states) && StepsIn(g, states) && SoundIn(g, states, r) && PassFits(g, pass) && (retry.Some? ==> Writable(g, retry.value))
    ensures SoundIn(g, states, Recovered(g, r, retry, pass))
  {
    if retry.None? || pass.failure.Halts? || r.engine.kept.Some? {
      HandledSound(g, states, r, pass.failure);
    } else {
      var degraded := Degraded(r, pass.failure.members, pass.failure.keeps);
      DegradedSound(g, states, r, pass.failure.members, pass.failure.keeps);
      PropagatedSound(g, states, degraded, retry.value, pass.retry);
      var after := Propagated(g, degraded, retry.value, pass.retry).0;
      WoundDownSound(g, states, after, pass.failure.windDowns);
      StoppedSound(g, states, after, NoneKept());
    }
  }

  lemma GuardedSound(g: Graph, states: iset<State>, r: Runner, writes: Batch, pass: Pass)
    requires WellFormed(g) && Closed(states) && StepsIn(g, states) && SoundIn(g, states, r) && PassFits(g, pass) && Writable(g, writes)
    ensures SoundIn(g, states, Guarded(g, r, writes, pass))
  {
    PropagatedSound(g, states, r, writes, pass.step);
    var (after, verdict) := Propagated(g, r, writes, pass.step);
    RecoveredSound(g, states, after, Some(writes), pass);
    RecoveredSound(g, states, after, None, pass);
  }

  // ----- Whole runs -----

  lemma PassedSound(g: Graph, states: iset<State>, r: Runner, pass: Pass)
    requires WellFormed(g) && Closed(states) && StepsIn(g, states) && SoundIn(g, states, r) && PassFits(g, pass)
    ensures SoundIn(g, states, Passed(g, r, pass).0)
  {
    if r.live {
      if r.pending != [] {
        GuardedSound(g, states, r.(pending := r.pending[1..]), r.pending[0], pass);
      } else if IsOverdue(g, r, pass.step.at) {
        GuardedSound(g, states, r, [], pass);
      } else if r.wanted {
        PumpedFromSound(g, states, r.(wanted := false), 0, pass.tries);
        HandledSound(g, states, PumpedFrom(g, r.(wanted := false), 0, pass.tries), pass.failure);
      }
    }
  }

  lemma AfterSound(g: Graph, states: iset<State>, r: Runner, h: Happening)
    requires WellFormed(g) && Closed(states) && StepsIn(g, states) && SoundIn(g, states, r) && Fits(g, h)
    ensures SoundIn(g, states, Undergone(g, r, h))
  {
    match h
    case Pushes(writes) =>
    case Starts =>
    case Passes(pass) => PassedSound(g, states, r, pass);
    case Settles(l, name) =>
      var settled := Moved(r, l, LaneRuns.Settling(name));
      MovedSound(g, states, r, l, LaneRuns.Settling(name));
      if !r.live { MovedAllSound(g, states, settled, LaneRuns.Finishing); }
    case Rings =>
    case Fails(failure) => HandledSound(g, states, r, failure);
    case Stops(keeps) => StoppedSound(g, states, r, keeps);
  }

  // ----- The states an engine reaches -----

  ghost function Reached(g: Graph): iset<State>
    requires WellFormed(g) && Creatable(g)
  {
    iset s | Reachable(g, s)
  }

  lemma RunCommits(g: Graph, s: State, writes: Batch, stamp: Stamp, wakes: seq<string>)
    requires WellFormed(g) && Creatable(g) && Reachable(g, s) && Writable(g, writes) && WakesFit(g, s, writes, stamp.at, wakes)
    requires Run(g, s, writes, stamp, wakes).Ok?
    ensures Commits(g, Reached(g), s, writes, Run(g, s, writes, stamp, wakes).value.state, stamp.at)
  {
    ReachableOnward(g, s, Stepped(writes, stamp, wakes));
    if writes == [] || Due(g, s, stamp.at) == {} {
      forall n | n in Due(g, s, stamp.at) ensures n in wakes { assert n in set m | m in wakes; }
      WakingLeavesNothingDue(g, s, writes, stamp, wakes);
    }
  }

  lemma ReachedClosed(g: Graph)
    requires WellFormed(g) && Creatable(g)
    ensures Closed(Reached(g)) && StepsIn(g, Reached(g))
  {
    forall s, effect: nat | s in Reached(g) ensures Emptied(s, OfEffect(effect)) in Reached(g) { ReachableOnward(g, s, EffectTook(effect)); }
    forall s, members | s in Reached(g) && s.kept.None? ensures Keeping(s, members) in Reached(g) {
      ReachableOnward(g, s, KeptOnly(members));
      assert Next(g, s, KeptOnly(members)) == Keeping(s, members);
    }
    forall s | s in Reached(g) ensures ExpiriesAscend(s) { ReachableSettled(g, s); }
    forall s, writes, stamp: Stamp, wakes |
      s in Reached(g) && Writable(g, writes) && WakesFit(g, s, writes, stamp.at, wakes) && Run(g, s, writes, stamp, wakes).Ok?
      ensures Commits(g, Reached(g), s, writes, Run(g, s, writes, stamp, wakes).value.state, stamp.at)
    {
      RunCommits(g, s, writes, stamp, wakes);
    }
  }

  /** What holds of a runner throughout its runs. */
  ghost predicate Sound(g: Graph, r: Runner)
    requires WellFormed(g) && Creatable(g)
  {
    SoundIn(g, Reached(g), r)
  }

  /** `last` is what a new runner comes to through `happenings`. */
  ghost predicate Runs(g: Graph, r: Runner, happenings: seq<Happening>, last: Runner)
    requires WellFormed(g) && Creatable(g) && Sound(g, r)
    decreases |happenings|
  {
    if happenings == [] then last == r
    else
      && Fits(g, happenings[0])
      && (ReachedClosed(g); AfterSound(g, Reached(g), r, happenings[0]); Runs(g, Undergone(g, r, happenings[0]), happenings[1..], last))
  }

  lemma FreshSound(g: Graph, lanes: seq<Lanes.Lane>)
    requires WellFormed(g) && Creatable(g)
    ensures Sound(g, Fresh(g, lanes))
  {
    assert Reaches(g, Initial(g), [], Initial(g));
    forall l | 0 <= l < |lanes| ensures IsLaneRun(Fresh(g, lanes).tracks[l]) {
      assert LaneRuns.AfterAll(lanes[l], LaneRuns.Empty(), []) == LaneRuns.Empty();
    }
  }

  lemma {:induction false} RunsSound(g: Graph, r: Runner, happenings: seq<Happening>, last: Runner)
    requires WellFormed(g) && Creatable(g) && Sound(g, r) && Runs(g, r, happenings, last)
    ensures Sound(g, last)
    decreases |happenings|
  {
    ReachedClosed(g);
    if happenings != [] {
      AfterSound(g, Reached(g), r, happenings[0]);
      RunsSound(g, Undergone(g, r, happenings[0]), happenings[1..], last);
    }
  }

  ghost predicate RunsFrom(g: Graph, lanes: seq<Lanes.Lane>, happenings: seq<Happening>, last: Runner)
    requires WellFormed(g) && Creatable(g)
  {
    FreshSound(g, lanes);
    Runs(g, Fresh(g, lanes), happenings, last)
  }

  /**
   * However steps, failures, settlements and stops interleave, every piece of work a live runner ever started
   * it started with no step pending and, once started itself, with no expiry passed that a kept watcher of its
   * node had not been told of. So a decision always sees what expired before an effect acts on it.
   */
  lemma StartsAreUndisturbed(g: Graph, lanes: seq<Lanes.Lane>, happenings: seq<Happening>, last: Runner)
    requires WellFormed(g) && Creatable(g) && RunsFrom(g, lanes, happenings, last)
    ensures forall k :: 0 <= k < |last.past.begun| ==> Undisturbed(g, last.past.begun[k])
    ensures last.live ==> forall l :: 0 <= l < |last.tracks| ==> last.tracks[l].view.past.begun == BegunOn(last.past.begun, l)
  {
    FreshSound(g, lanes);
    RunsSound(g, Fresh(g, lanes), happenings, last);
  }

  /** Each lane of a runner has been through a run of its own, so it keeps all that lanes promise. */
  lemma RunnersLanesKeepTheirPromises(g: Graph, lanes: seq<Lanes.Lane>, happenings: seq<Happening>, last: Runner, l: nat)
    requires WellFormed(g) && Creatable(g) && RunsFrom(g, lanes, happenings, last) && l < |last.tracks|
    ensures var track := last.tracks[l];
            LaneRuns.Conserved(track.view) && (Lanes.IsLane(track.lane) ==> LaneRuns.WithinBounds(track.lane, track.view))
  {
    FreshSound(g, lanes);
    RunsSound(g, Fresh(g, lanes), happenings, last);
    var track := last.tracks[l];
    var events :| track.view == LaneRuns.AfterAll(track.lane, LaneRuns.Empty(), events);
    LaneRuns.LanesStartInOrder(track.lane, events);
    if Lanes.IsLane(track.lane) { LaneRuns.LanesKeepTheirBounds(track.lane, events); }
  }

  /** While the clock does not run backwards, each wake is strictly later than the one before: no time is woken twice. */
  lemma WakesAdvance(g: Graph, lanes: seq<Lanes.Lane>, happenings: seq<Happening>, last: Runner)
    requires WellFormed(g) && Creatable(g) && RunsFrom(g, lanes, happenings, last) && Forward(last.past.readings)
    ensures Rising(last.past.woken)
  {
    FreshSound(g, lanes);
    RunsSound(g, Fresh(g, lanes), happenings, last);
  }
}
