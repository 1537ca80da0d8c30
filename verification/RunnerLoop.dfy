/** The runner's loop in place: its queue of steps, its lanes and its flags change as it goes. */
module RunnerLoop {
  import opened Basics
  import opened Graphs
  import opened Steps
  import opened Propagation
  import opened EngineRuns
  import opened Drains
  import opened DrainRuns
  import opened DrainEnds
  import Lanes
  import LaneRuns

  /** The runner's own state, which its loop changes as it goes; the engine's and the lanes' are values here. */
  class Loop {
    const graph: Graph
    var engine: State
    var pending: seq<Batch>
    var tracks: seq<Track>
    var live: bool
    var started: bool
    var wanted: bool
    var number: int
    ghost var past: Past

    ghost function Status(): Runner
      reads this
    {
      Runner(engine, pending, tracks, live, started, wanted, number, past)
    }

    constructor (graph: Graph, lanes: seq<Lanes.Lane>)
      requires Creatable(graph)
      ensures this.graph == graph && Status() == Fresh(graph, lanes)
    {
      this.graph, engine, pending := graph, Initial(graph), [];
      tracks := seq(|lanes|, l requires 0 <= l < |lanes| => Track(lanes[l], LaneRuns.Empty()));
      live, started, wanted, number, past := true, false, false, 0, Past([], [], []);
    }

    method Move(l: nat, event: LaneRuns.Event)
      modifies this`tracks
      ensures Status() == Moved(old(Status()), l, event)
    {
      if l < |tracks| { tracks := tracks[l := MovedTrack(tracks[l], event)]; }
    }

    method MoveAll(event: LaneRuns.Event)
      modifies this`tracks
      ensures Status() == MovedAll(old(Status()), event)
    {
      var moved: seq<Track> := [];
      for l := 0 to |tracks|
        invariant |moved| == l && forall k :: 0 <= k < l ==> moved[k] == MovedTrack(tracks[k], event)
      {
        moved := moved + [MovedTrack(tracks[l], event)];
      }
      tracks := moved;
    }

    /** Nothing pending runs any more; the lanes drop all but what is kept, and finish that. */
    method Stop(keeps: nat -> bool)
      modifies this`tracks, this`live, this`pending
      ensures Status() == Stopped(old(Status()), keeps)
    {
      live, pending := false, [];
      MoveAll(LaneRuns.Keeping(keeps));
      MoveAll(LaneRuns.Finishing);
    }

    method Handle(failure: Failure)
      modifies this`tracks, this`live, this`pending, this`engine
      ensures Status() == Handled(old(Status()), failure)
    {
      if failure.Halts? || engine.kept.Some? {
        Stop(NoneKept());
        return;
      }
      Degrade(failure.members, failure.keeps);
      WindDown(failure.windDowns);
    }

    method Degrade(members: set<string>, keeps: nat -> bool)
      modifies this`tracks, this`engine
      ensures Status() == Degraded(old(Status()), members, keeps)
    {
      engine := Keeping(engine, members);
      MoveAll(LaneRuns.Keeping(keeps));
    }

    method WindDown(windDowns: seq<Batch>)
      modifies this`tracks, this`live, this`pending
      ensures Status() == WoundDown(old(Status()), windDowns)
    {
      if windDowns == [] { Stop(NoneKept()); } else { pending := pending + windDowns; }
    }

    method Route(routes: seq<Route>) returns (verdict: Verdict)
      modifies this`tracks, this`engine, this`wanted
      ensures (Status(), verdict) == Routed(old(Status()), routes)
    {
      for k := 0 to |routes|
        invariant Routed(Status(), routes[k..]) == Routed(old(Status()), routes)
      {
        assert routes[k..][0] == routes[k] && routes[k..][1..] == routes[k + 1..];
        match routes[k] {
          case Takes(effect) => engine := Emptied(engine, OfEffect(effect));
          case Admits(l, request) =>
            var refused := l < |tracks| && Lanes.RefusalOf(tracks[l].lane, tracks[l].view, request).Some?;
            Move(l, LaneRuns.Requested(request));
            if refused { return Refused; }
          case Throws => return Refused;
        }
      }
      wanted := true;
      return Fine;
    }

    method Land(meets: Meets) returns (verdict: Verdict)
      modifies this`tracks, this`live, this`pending, this`engine, this`wanted
      ensures (Status(), verdict) == Landed(old(Status()), meets)
    {
      if meets.journal.Some? && engine.kept.None? { Handle(meets.journal.value); }
      if !live { return Fine; }
      verdict := Route(meets.routes);
    }

    /** What the engine made of a step: rolled back, or committed, journaled and routed. */
    method Conclude(writes: Batch, outcome: Outcome, meets: Meets) returns (verdict: Verdict)
      modifies this
      ensures (Status(), verdict) == Concluded(old(Status()), writes, outcome, meets)
    {
      number := number + 1;
      if outcome.Err? { return RolledBack; }
      engine, past := outcome.value.state, WokenAt(past, writes, meets.at);
      verdict := Land(meets);
    }

    /** A step over `writes`; without any, one that wakes whatever is due. */
    method Propagate(writes: Batch, meets: Meets) returns (verdict: Verdict)
      requires WellFormed(graph) && Known(graph, writes)
      modifies this
      ensures (Status(), verdict) == Propagated(graph, old(Status()), writes, meets)
    {
      var idle := writes == [] && Due(graph, engine, meets.at) == {};
      var outcome := OutcomeOf(graph, engine, number + 1, writes, meets);
      past := past.(readings := past.readings + [meets.at]);
      if idle { return Fine; }
      verdict := Conclude(writes, outcome, meets);
    }

    method Recover(retry: Option<Batch>, pass: Pass)
      requires WellFormed(graph) && (retry.Some? ==> Known(graph, retry.value))
      modifies this
      ensures Status() == Recovered(graph, old(Status()), retry, pass)
    {
      if retry.None? || pass.failure.Halts? || engine.kept.Some? {
        Handle(pass.failure);
        return;
      }
      Degrade(pass.failure.members, pass.failure.keeps);
      var verdict := Propagate(retry.value, pass.retry);
      if verdict.Fine? { WindDown(pass.failure.windDowns); } else { Stop(NoneKept()); }
    }

    method Guard(writes: Batch, pass: Pass)
      requires WellFormed(graph) && Known(graph, writes)
      modifies this
      ensures Status() == Guarded(graph, old(Status()), writes, pass)
    {
      var verdict := Propagate(writes, pass.step);
      match verdict {
        case Fine =>
        case RolledBack => Recover(Some(writes), pass);
        case Refused => Recover(None, pass);
      }
    }

    /** Lane `l` starts what it may, looking again before each start at what is pending and what expired. */
    method PumpLane(l: nat, tries: seq<Try>)
      modifies this
      ensures Status() == Pumped(graph, old(Status()), l, tries)
    {
      if l >= |tracks| { return; }
      for k := 0 to |tries|
        invariant l < |tracks| && Pumped(graph, Status(), l, tries[k..]) == Pumped(graph, old(Status()), l, tries)
      {
        assert tries[k..][0] == tries[k] && tries[k..][1..] == tries[k + 1..];
        ghost var before := Status();
        var open := live && pending == [] && !(started && Due(graph, engine, tries[k].at) != {});
        var turn, track := Lanes.Turn(open, tries[k].at, tries[k].ready), tracks[l];
        assert turn == TurnOf(graph, before, tries[k]);
        Move(l, LaneRuns.Pumping([turn]));
        if !Lanes.GoesOn(track.lane, track.view, turn) { return; }
        GoingOnStarts(track, turn);
        Begin(l, tries[k], before);
      }
    }

    /** The work just started on lane `l` runs until it first waits. */
    method Begin(l: nat, t: Try, ghost before: Runner)
      requires l < |tracks| && tracks[l].view.active != []
      modifies this
      ensures Status() == Began(before, l, t, old(Status()))
      ensures |tracks| == old(|tracks|)
    {
      var active := tracks[l].view.active;
      past := past.(begun := past.begun + [Start(l, active[|active| - 1], t.at, before.started, before.engine, before.pending)]);
      pending := pending + t.pushes;
      if t.stops.Some? { Stop(t.stops.value); }
    }

    method Pump(tries: seq<seq<Try>>)
      modifies this
      ensures Status() == PumpedFrom(graph, old(Status()), 0, tries)
    {
      for l := 0 to |tries|
        invariant PumpedFrom(graph, Status(), l, tries) == PumpedFrom(graph, old(Status()), 0, tries)
      {
        PumpLane(l, tries[l]);
      }
    }

    /** Steps before wakes, wakes before the pump, one of them a call; false when it found none to do. */
    method Work(pass: Pass) returns (more: bool)
      requires WellFormed(graph) && live && forall k :: 0 <= k < |pending| ==> Known(graph, pending[k])
      modifies this
      ensures (Status(), more) == Passed(graph, old(Status()), pass)
    {
      if pending != [] {
        var next := pending[0];
        pending := pending[1..];
        Guard(next, pass);
      } else if started && Due(graph, engine, pass.step.at) != {} {
        Guard([], pass);
      } else if wanted {
        wanted := false;
        Pump(pass.tries);
        if pass.throws && live { Handle(pass.failure); }
      } else {
        return false;
      }
      return true;
    }

    /** Works for as long as the runner lives and there is something to do; `done` counts the passes that found something. */
    method Drain(passes: seq<Pass>) returns (done: nat)
      requires WellFormed(graph) && Creatable(graph) && Sound(graph, Status()) && AllFit(graph, passes)
      modifies this
      ensures (Status(), done) == WorkedOff(graph, old(Status()), passes)
    {
      done := 0;
      ghost var trail := [Status()];
      while done < |passes| && live
        invariant done <= |passes| && |trail| == done + 1 && trail[0] == old(Status()) && trail[done] == Status()
        invariant Sound(graph, Status()) && IsTrail(graph, trail, passes)
      {
        PassKeepsSound(graph, Status(), passes[done]);
        var more := Work(passes[done]);
        if !more { break; }
        TrailGoesOn(graph, trail, passes, Status());
        trail, done := trail + [Status()], done + 1;
      }
      TrailWorksOff(graph, trail, passes);
    }
  }
}
