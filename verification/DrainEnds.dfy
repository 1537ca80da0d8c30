/** The runner's loop ends: at one reading of the clock each pass leaves less to do. */
module DrainEnds {
  import opened Basics
  import opened Graphs
  import opened Steps
  import opened Propagation
  import opened EngineRuns
  import opened Drains
  import opened DrainRuns
  import Lanes
  import LaneRuns

  /** What is left to do at one time: a pending step may lead to a pump, a wake to no other, and a pump to nothing. */
  function Left(g: Graph, r: Runner, at: int): nat {
    if !r.live then 0
    else 2 * |r.pending| + (if Due(g, r.engine, at) != {} then 2 else 0) + if r.wanted then 1 else 0
  }

  function AddedBy(failure: Failure): nat {
    if failure.Degrades? then |failure.windDowns| else 0
  }

  function AddedByJournal(meets: Meets): nat {
    if meets.journal.Some? then AddedBy(meets.journal.value) else 0
  }

  function AddedByTries(tries: seq<Try>): nat {
    if tries == [] then 0 else |tries[0].pushes| + AddedByTries(tries[1..])
  }

  function AddedFrom(tries: seq<seq<Try>>, l: nat): nat
    decreases |tries| - l
  {
    if l >= |tries| then 0 else AddedByTries(tries[l]) + AddedFrom(tries, l + 1)
  }

  /** The steps that work started in a pass pushes at once, and those a degrade in it has to wind down with. */
  function AddedIn(pass: Pass): nat {
    AddedBy(pass.failure) + AddedByJournal(pass.step) + AddedByJournal(pass.retry) + AddedFrom(pass.tries, 0)
  }

  function AddedInAll(passes: seq<Pass>): nat {
    if passes == [] then 0 else AddedIn(passes[0]) + AddedInAll(passes[1..])
  }

  /** While it lives, `after` has at most `n` more steps pending than `r` had. */
  predicate Adds(r: Runner, after: Runner, n: nat) {
    after.live ==> r.live && |after.pending| <= |r.pending| + n
  }

  /** A step adds so much, and leaves the runner live if it throws. */
  predicate AddsUp(r: Runner, result: (Runner, Verdict), n: nat) {
    Adds(r, result.0, n) && (!result.1.Fine? ==> result.0.live)
  }

  lemma {:induction false} RoutedAdds(r: Runner, routes: seq<Route>)
    ensures Routed(r, routes).0.live == r.live && Routed(r, routes).0.pending == r.pending
    decreases |routes|
  {
    if routes != [] {
      match routes[0]
      case Takes(effect) => RoutedAdds(r.(engine := Emptied(r.engine, OfEffect(effect))), routes[1..]);
      case Admits(l, request) => RoutedAdds(Moved(r, l, LaneRuns.Requested(request)), routes[1..]);
      case Throws =>
    }
  }

  lemma LandedAdds(r: Runner, meets: Meets)
    requires r.live
    ensures AddsUp(r, Landed(r, meets), AddedByJournal(meets))
  {
    RoutedAdds(r, meets.routes);
    if meets.journal.Some? { RoutedAdds(Handled(r, meets.journal.value), meets.routes); }
  }

  lemma ConcludedAdds(r: Runner, writes: Batch, outcome: Outcome, meets: Meets)
    requires r.live
    ensures AddsUp(r, Concluded(r, writes, outcome, meets), AddedByJournal(meets))
  {
    if outcome.Ok? {
      LandedAdds(Committed(r, writes, outcome.value.state, meets.at), meets);
    }
  }

  lemma PropagatedAdds(g: Graph, r: Runner, writes: Batch, meets: Meets)
    requires WellFormed(g) && Known(g, writes) && r.live
    ensures AddsUp(r, Propagated(g, r, writes, meets), AddedByJournal(meets))
  {
    var read := r.(past := r.past.(readings := r.past.readings + [meets.at]));
    ConcludedAdds(read, writes, OutcomeOf(g, r.engine, r.number + 1, writes, meets), meets);
  }

  lemma RecoveredAdds(g: Graph, r: Runner, retry: Option<Batch>, pass: Pass)
    requires WellFormed(g) && (retry.Some? ==> Known(g, retry.value)) && r.live
    ensures Adds(r, Recovered(g, r, retry, pass), AddedBy(pass.failure) + AddedByJournal(pass.retry))
  {
    if retry.Some? && !pass.failure.Halts? {
      PropagatedAdds(g, Degraded(r, pass.failure.members, pass.failure.keeps), retry.value, pass.retry);
    }
  }

  lemma GuardedAdds(g: Graph, r: Runner, writes: Batch, pass: Pass)
    requires WellFormed(g) && Known(g, writes) && r.live
    ensures Adds(r, Guarded(g, r, writes, pass), AddedBy(pass.failure) + AddedByJournal(pass.step) + AddedByJournal(pass.retry))
  {
    PropagatedAdds(g, r, writes, pass.step);
    var (after, verdict) := Propagated(g, r, writes, pass.step);
    if !verdict.Fine? {
      RecoveredAdds(g, after, Some(writes), pass);
      RecoveredAdds(g, after, None, pass);
    }
  }

  predicate ReadsAt(pass: Pass, at: int) {
    pass.step.at == at && pass.retry.at == at
  }

  lemma RecoveredQuiets(g: Graph, states: iset<State>, r: Runner, retry: Option<Batch>, pass: Pass, at: int)
    requires WellFormed(g) && Closed(states) && StepsIn(g, states) && SoundIn(g, states, r) && PassFits(g, pass) && (retry.Some? ==> Writable(g, retry.value)) && ReadsAt(pass, at)
    requires Due(g, r.engine, at) == {} || retry == Some([])
    ensures var after := Recovered(g, r, retry, pass); after.live ==> Due(g, after.engine, at) == {}
  {
    if retry.None? || pass.failure.Halts? || r.engine.kept.Some? {
      HandledSound(g, states, r, pass.failure);
      assert Due(g, Handled(r, pass.failure).engine, at) <= Due(g, r.engine, at);
    } else {
      var degraded := Degraded(r, pass.failure.members, pass.failure.keeps);
      DegradedSound(g, states, r, pass.failure.members, pass.failure.keeps);
      assert Due(g, degraded.engine, at) <= Due(g, r.engine, at);
      PropagatedSound(g, states, degraded, retry.value, pass.retry);
    }
  }

  lemma AnsweredQuiets(g: Graph, states: iset<State>, result: (Runner, Verdict), writes: Batch, pass: Pass, at: int)
    requires WellFormed(g) && Closed(states) && StepsIn(g, states) && SoundIn(g, states, result.0) && PassFits(g, pass)
    requires Writable(g, writes) && ReadsAt(pass, at)
    requires Due(g, result.0.engine, at) == {} || (writes == [] && result.1.RolledBack?)
    ensures var after := Answered(g, result, writes, pass); after.live ==> Due(g, after.engine, at) == {}
  {
    match result.1
    case Fine =>
    case RolledBack => RecoveredQuiets(g, states, result.0, Some(writes), pass, at);
    case Refused => RecoveredQuiets(g, states, result.0, None, pass, at);
  }

  /** A pass that wakes what is due, or runs a step where nothing is, leaves nothing due at its time, or the runner stopped. */
  lemma GuardedQuiets(g: Graph, states: iset<State>, r: Runner, writes: Batch, pass: Pass, at: int)
    requires WellFormed(g) && Closed(states) && StepsIn(g, states) && SoundIn(g, states, r) && PassFits(g, pass) && Writable(g, writes) && ReadsAt(pass, at)
    requires Due(g, r.engine, at) == {} || writes == []
    ensures var after := Guarded(g, r, writes, pass); after.live ==> Due(g, after.engine, at) == {}
  {
    PropagatedSound(g, states, r, writes, pass.step);
    AnsweredQuiets(g, states, Propagated(g, r, writes, pass.step), writes, pass, at);
  }

  /** The pump changes neither the engine nor whether it is wanted; it adds only what the work it starts pushes. */
  lemma {:induction false} PumpedAdds(g: Graph, r: Runner, l: nat, tries: seq<Try>)
    ensures var after := Pumped(g, r, l, tries);
            after.engine == r.engine && after.wanted == r.wanted && Adds(r, after, AddedByTries(tries))
    decreases |tries|
  {
    if tries != [] && l < |r.tracks| {
      var turn, track := TurnOf(g, r, tries[0]), r.tracks[l];
      if Lanes.GoesOn(track.lane, track.view, turn) {
        GoingOnStarts(track, turn);
        PumpedAdds(g, Began(r, l, tries[0], Moved(r, l, LaneRuns.Pumping([turn]))), l, tries[1..]);
      }
    }
  }

  lemma {:induction false} PumpedFromAdds(g: Graph, r: Runner, l: nat, tries: seq<seq<Try>>)
    ensures var after := PumpedFrom(g, r, l, tries);
            after.engine == r.engine && after.wanted == r.wanted && Adds(r, after, AddedFrom(tries, l))
    decreases |tries| - l
  {
    if l < |tries| {
      PumpedAdds(g, r, l, tries[l]);
      PumpedFromAdds(g, Pumped(g, r, l, tries[l]), l + 1, tries);
    }
  }

  lemma SteppingSpends(g: Graph, states: iset<State>, r: Runner, pass: Pass, at: int)
    requires WellFormed(g) && Closed(states) && StepsIn(g, states) && SoundIn(g, states, r) && PassFits(g, pass) && ReadsAt(pass, at)
    requires r.live && r.pending != []
    ensures Left(g, Guarded(g, r.(pending := r.pending[1..]), r.pending[0], pass), at) + 1 <= Left(g, r, at) + 2 * AddedIn(pass)
  {
    var shifted := r.(pending := r.pending[1..]);
    GuardedAdds(g, shifted, r.pending[0], pass);
    if Due(g, r.engine, at) == {} { GuardedQuiets(g, states, shifted, r.pending[0], pass, at); }
  }

  lemma WakingSpends(g: Graph, states: iset<State>, r: Runner, pass: Pass, at: int)
    requires WellFormed(g) && Closed(states) && StepsIn(g, states) && SoundIn(g, states, r) && PassFits(g, pass) && ReadsAt(pass, at)
    requires r.live && IsOverdue(g, r, at)
    ensures Left(g, Guarded(g, r, [], pass), at) + 1 <= Left(g, r, at) + 2 * AddedIn(pass)
  {
    GuardedAdds(g, r, [], pass);
    GuardedQuiets(g, states, r, [], pass, at);
  }

  lemma PumpingSpends(g: Graph, states: iset<State>, r: Runner, pass: Pass, at: int)
    requires Closed(states) && SoundIn(g, states, r) && PassFits(g, pass) && r.live && r.wanted
    ensures var pumped := PumpedFrom(g, r.(wanted := false), 0, pass.tries);
            Left(g, pumped, at) + 1 <= Left(g, r, at) + 2 * AddedIn(pass)
            && Left(g, Handled(pumped, pass.failure), at) + 1 <= Left(g, r, at) + 2 * AddedIn(pass)
  {
    var pumped := PumpedFrom(g, r.(wanted := false), 0, pass.tries);
    PumpedFromAdds(g, r.(wanted := false), 0, pass.tries);
    PumpedFromSound(g, states, r.(wanted := false), 0, pass.tries);
    HandledSound(g, states, pumped, pass.failure);
    assert Due(g, Handled(pumped, pass.failure).engine, at) <= Due(g, pumped.engine, at);
  }

  /** Each pass that does something leaves one thing less to do at its time, but for what it adds. */
  lemma PassedSpends(g: Graph, states: iset<State>, r: Runner, pass: Pass, at: int)
    requires WellFormed(g) && Closed(states) && StepsIn(g, states) && SoundIn(g, states, r) && PassFits(g, pass) && ReadsAt(pass, at)
    requires Passed(g, r, pass).1
    ensures Left(g, Passed(g, r, pass).0, at) + 1 <= Left(g, r, at) + 2 * AddedIn(pass)
  {
    if r.pending != [] {
      SteppingSpends(g, states, r, pass, at);
    } else if IsOverdue(g, r, at) {
      WakingSpends(g, states, r, pass, at);
    } else {
      PumpingSpends(g, states, r, pass, at);
    }
  }

  // ----- Whole drains -----

  ghost predicate AllFit(g: Graph, passes: seq<Pass>) {
    forall k :: 0 <= k < |passes| ==> PassFits(g, passes[k])
  }

  /** What a drain makes of a runner, and in how many passes: it goes on while the runner lives and there is something to do. */
  ghost function WorkedOff(g: Graph, r: Runner, passes: seq<Pass>): (worked: (Runner, nat))
    requires WellFormed(g) && Creatable(g) && Sound(g, r) && AllFit(g, passes)
    ensures worked.1 <= |passes|
    decreases |passes|
  {
    if passes == [] || !r.live then (r, 0)
    else
      PassKeepsSound(g, r, passes[0]);
      var (next, more) := Passed(g, r, passes[0]);
      if more then OneMore(WorkedOff(g, next, passes[1..])) else (next, 0)
  }

  function OneMore(worked: (Runner, nat)): (Runner, nat) {
    (worked.0, worked.1 + 1)
  }

  lemma PassKeepsSound(g: Graph, r: Runner, pass: Pass)
    requires WellFormed(g) && Creatable(g) && Sound(g, r) && PassFits(g, pass)
    ensures Sound(g, Passed(g, r, pass).0)
  {
    ReachedClosed(g);
    PassedSound(g, Reached(g), r, pass);
  }

  lemma PassGoesOn(g: Graph, r: Runner, pass: Pass, at: int)
    requires WellFormed(g) && Creatable(g) && Sound(g, r) && PassFits(g, pass) && ReadsAt(pass, at) && Passed(g, r, pass).1
    ensures Left(g, Passed(g, r, pass).0, at) + 1 <= Left(g, r, at) + 2 * AddedIn(pass)
  {
    ReachedClosed(g);
    PassedSpends(g, Reached(g), r, pass, at);
  }

  /** Nothing is left to do: no step pending, nothing due, no pump wanted. */
  predicate IsIdle(g: Graph, r: Runner, at: int) {
    r.pending == [] && !IsOverdue(g, r, at) && !r.wanted
  }

  /** A drain that could make `left` passes, but for what they add, and ended stopped or idle or out of passes. */
  ghost predicate Ends(g: Graph, worked: (Runner, nat), passes: seq<Pass>, left: nat, at: int) {
    && worked.1 <= |passes| && worked.1 <= left + 2 * AddedInAll(passes[..worked.1])
    && (worked.1 < |passes| ==> !worked.0.live || IsIdle(g, worked.0, at))
  }

  lemma OneMoreEnds(g: Graph, worked: (Runner, nat), passes: seq<Pass>, left: nat, before: nat, at: int)
    requires passes != [] && Ends(g, worked, passes[1..], left, at) && left + 1 <= before + 2 * AddedIn(passes[0])
    ensures Ends(g, OneMore(worked), passes, before, at)
  {
    var done := worked.1;
    assert passes[..done + 1][1..] == passes[1..][..done];
  }

  /** One pass of a drain, and the rest of it. */
  lemma WorkedOnce(g: Graph, r: Runner, passes: seq<Pass>)
    requires WellFormed(g) && Creatable(g) && Sound(g, r) && AllFit(g, passes) && passes != [] && r.live
    ensures Sound(g, Passed(g, r, passes[0]).0) && AllFit(g, passes[1..])
    ensures var (next, more) := Passed(g, r, passes[0]);
            WorkedOff(g, r, passes) == if more then OneMore(WorkedOff(g, next, passes[1..])) else (next, 0)
  {
    PassKeepsSound(g, r, passes[0]);
  }

  /** The runners a drain goes through, one more with each pass. */
  ghost predicate IsTrail(g: Graph, trail: seq<Runner>, passes: seq<Pass>)
    requires WellFormed(g)
  {
    && 1 <= |trail| <= |passes| + 1
    && forall k :: 0 <= k < |trail| - 1 ==> GoesOnTo(g, trail[k], passes[k], trail[k + 1])
  }

  ghost predicate GoesOnTo(g: Graph, r: Runner, pass: Pass, next: Runner)
    requires WellFormed(g)
  {
    r.live && AllWritable(g, r.pending) && Passed(g, r, pass) == (next, true)
  }

  lemma TrailGoesOn(g: Graph, trail: seq<Runner>, passes: seq<Pass>, next: Runner)
    requires WellFormed(g) && IsTrail(g, trail, passes) && |trail| <= |passes| && GoesOnTo(g, trail[|trail| - 1], passes[|trail| - 1], next)
    ensures IsTrail(g, trail + [next], passes)
  {
  }

  lemma TrailShortens(g: Graph, trail: seq<Runner>, passes: seq<Pass>)
    requires WellFormed(g) && IsTrail(g, trail, passes) && |trail| > 1
    ensures IsTrail(g, trail[1..], passes[1..])
  {
    forall k | 0 <= k < |trail| - 2 ensures GoesOnTo(g, trail[1..][k], passes[1..][k], trail[1..][k + 1]) {
      assert GoesOnTo(g, trail[k + 1], passes[k + 1], trail[k + 2]);
    }
  }

  lemma NothingDone(g: Graph, r: Runner, pass: Pass)
    requires WellFormed(g) && AllWritable(g, r.pending) && !Passed(g, r, pass).1
    ensures Passed(g, r, pass).0 == r
  {
  }

  lemma {:induction false} TrailWorksOff(g: Graph, trail: seq<Runner>, passes: seq<Pass>)
    requires WellFormed(g) && Creatable(g) && IsTrail(g, trail, passes) && Sound(g, trail[0]) && AllFit(g, passes)
    requires var last := trail[|trail| - 1];
             last.live && AllWritable(g, last.pending) && |trail| <= |passes| ==> !Passed(g, last, passes[|trail| - 1]).1
    ensures WorkedOff(g, trail[0], passes) == (trail[|trail| - 1], |trail| - 1)
    decreases |passes|
  {
    if |trail| > 1 {
      assert GoesOnTo(g, trail[0], passes[0], trail[1]);
      WorkedOnce(g, trail[0], passes);
      TrailShortens(g, trail, passes);
      TrailWorksOff(g, trail[1..], passes[1..]);
    } else if passes != [] && trail[0].live {
      NothingDone(g, trail[0], passes[0]);
    }
  }

  lemma {:induction false} WorkingOffSpends(g: Graph, r: Runner, passes: seq<Pass>, at: int)
    requires WellFormed(g) && Creatable(g) && Sound(g, r) && AllFit(g, passes)
    requires forall k :: 0 <= k < |passes| ==> ReadsAt(passes[k], at)
    ensures Ends(g, WorkedOff(g, r, passes), passes, Left(g, r, at), at)
    decreases |passes|
  {
    if passes != [] && r.live {
      WorkedOnce(g, r, passes);
      var (next, more) := Passed(g, r, passes[0]);
      if more {
        PassGoesOn(g, r, passes[0], at);
        WorkingOffSpends(g, next, passes[1..], at);
        OneMoreEnds(g, WorkedOff(g, next, passes[1..]), passes, Left(g, next, at), Left(g, r, at), at);
      }
    }
  }

  /**
   * In no state a runner comes to can its loop spin: at one reading of the clock it makes at most two passes
   * for each step pending, or pushed meanwhile by work it starts or a wind-down, and three more; and it ends
   * with the runner stopped or nothing left to do.
   */
  lemma DrainsEnd(g: Graph, lanes: seq<Lanes.Lane>, happenings: seq<Happening>, r: Runner, passes: seq<Pass>, at: int)
    requires WellFormed(g) && Creatable(g) && RunsFrom(g, lanes, happenings, r) && AllFit(g, passes)
    requires forall k :: 0 <= k < |passes| ==> ReadsAt(passes[k], at)
    ensures Sound(g, r)
    ensures Ends(g, WorkedOff(g, r, passes), passes, 2 * |r.pending| + 3, at)
  {
    FreshSound(g, lanes);
    RunsSound(g, Fresh(g, lanes), happenings, r);
    WorkingOffSpends(g, r, passes, at);
  }
}
