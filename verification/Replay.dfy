/** Replaying a journal: each recorded step, run again on a fresh engine, derives what it derived. */
module Replay {
  import opened Basics
  import opened DataValues
  import opened Graphs
  import opened Steps
  import opened Propagation
  import opened EngineRuns
  import opened EffectBuffers
  import opened Pushes
  import opened Journal
  import Core

  datatype Reason = NoEarlierComplete | StepThrew | DerivedDiffer

  datatype Report = Reproduced(steps: nat) | Diverged(step: nat, reason: Reason)

  // ----- What replay does -----

  /** The pushes of a step, as they were queued; `None` if one would have been refused. */
  function PendingAll(g: Graph, writes: seq<JournalWrite>): Option<seq<Pending>>
    requires forall k :: 0 <= k < |writes| ==> writes[k].Full?
    decreases |writes|
  {
    if writes == [] then Some([])
    else
      var first := PendingOf(g, writes[0].node, writes[0].value);
      var rest := PendingAll(g, writes[1..]);
      if first.Err? || rest.None? then None else Some([first.value] + rest.value)
  }

  lemma {:induction false} ExpandedAreFull(previous: DeltaState, writes: seq<JournalWrite>)
    ensures ExpandedAll(previous, writes).Some? ==>
              forall k :: 0 <= k < |ExpandedAll(previous, writes).value| ==> ExpandedAll(previous, writes).value[k].Full?
    decreases |writes|
  {
    if writes != [] { ExpandedAreFull(AfterExpanding(previous, writes[0]), writes[1..]); }
  }

  function TakenByEffects(g: Graph, s: State, from: nat): State
    decreases |g.effects| - from
  {
    if from >= |g.effects| then s else TakenByEffects(g, Emptied(s, OfEffect(from)), from + 1)
  }

  /** Runs one recorded step again: the state after it, once every effect has taken what it delivered. */
  function ReplayedStep(g: Graph, s: State, previous: DeltaState, step: JournaledStep, derived: seq<DerivedWrite>): Result<State, Reason>
    requires WellFormed(g)
  {
    var expanded := ExpandedAll(previous, step.writes);
    if expanded.None? then Err(NoEarlierComplete)
    else
      ExpandedAreFull(previous, step.writes);
      var writes := PendingAll(g, expanded.value);
      if writes.None? || !Known(g, writes.value) then Err(StepThrew)
      else
        Rerun(g, s, writes.value, step, derived)
  }

  function Rerun(g: Graph, s: State, writes: seq<Pending>, step: JournaledStep, derived: seq<DerivedWrite>): Result<State, Reason>
    requires WellFormed(g) && Known(g, writes)
  {
    var outcome := Run(g, s, writes, step.stamp, step.wakes);
    if outcome.Err? then Err(StepThrew)
    else if outcome.value.step.derived != derived then Err(DerivedDiffer)
    else Ok(TakenByEffects(g, outcome.value.state, 0))
  }

  function Replayed(g: Graph, s: State, previous: DeltaState, entries: seq<Entry>, steps: nat): Report
    requires WellFormed(g)
    decreases |entries|
  {
    if entries == [] then Reproduced(steps)
    else
      match entries[0]
      case RecoveryEntry(_, _) => Replayed(g, s.(kept := Some(g.recovery)), previous, entries[1..], steps)
      case StepEntry(step, derived) =>
        (match ReplayedStep(g, s, previous, step, derived)
         case Err(reason) => Diverged(steps + 1, reason)
         case Ok(after) => Replayed(g, after, AfterExpandingAll(previous, step.writes), entries[1..], steps + 1))
      case _ => Replayed(g, s, previous, entries[1..], steps)
  }

  /** The recorded steps of a journal. */
  function StepCount(entries: seq<Entry>): nat {
    if entries == [] then 0 else (if entries[0].StepEntry? then 1 else 0) + StepCount(entries[1..])
  }

  // ----- What a run records -----

  datatype Push = Push(node: string, value: Data)

  /** What happens to a running graph, in the order it happens. */
  datatype Happening =
    | Attempted(pushes: seq<Push>, stamp: Stamp, wakes: seq<string>)
    | FailureNoted(origin: Option<string>, at: int, rolledBack: Option<JournaledStep>)
    | Degraded(failedIn: string, at: int)
    | Noted(effect: string, at: int, note: Data)
    | Routed(index: nat)

  function FullWrites(pushes: seq<Push>): seq<JournalWrite> {
    seq(|pushes|, k requires 0 <= k < |pushes| => Full(pushes[k].node, pushes[k].value))
  }

  /** Every push was accepted, and only writes what no operator owns. */
  ghost predicate Pushable(g: Graph, happening: Happening) {
    happening.Attempted? ==>
      && PendingAll(g, FullWrites(happening.pushes)).Some?
      && Writable(g, PendingAll(g, FullWrites(happening.pushes)).value)
  }

  ghost predicate AllPushable(g: Graph, run: seq<Happening>) {
    forall k {:trigger Pushable(g, run[k])} :: 0 <= k < |run| ==> Pushable(g, run[k])
  }

  function Attempt(g: Graph, s: State, happening: Happening): Outcome
    requires WellFormed(g) && happening.Attempted? && Pushable(g, happening)
  {
    Run(g, s, PendingAll(g, FullWrites(happening.pushes)).value, happening.stamp, happening.wakes)
  }

  /** A step that fails is rolled back; a failure outside recovery leaves only the recovery scope running. */
  function AfterHappening(g: Graph, s: State, happening: Happening): State
    requires WellFormed(g) && Pushable(g, happening)
  {
    match happening
    case Attempted(_, _, _) => (var outcome := Attempt(g, s, happening); if outcome.Ok? then outcome.value.state else s)
    case Degraded(_, _) => s.(kept := Some(g.recovery))
    case Routed(effect) => Emptied(s, OfEffect(effect))
    case _ => s
  }

  /** What is journaled: a step only once it has committed, with what it derived. */
  function EntriesOf(g: Graph, s: State, happening: Happening): seq<Entry>
    requires WellFormed(g) && Pushable(g, happening)
  {
    match happening
    case Attempted(pushes, stamp, wakes) =>
      (var outcome := Attempt(g, s, happening);
       if outcome.Ok? then [StepEntry(JournaledStep(stamp, FullWrites(pushes), wakes), outcome.value.step.derived)] else [])
    case FailureNoted(origin, at, rolledBack) => [FailedEntry(origin, at, rolledBack, None)]
    case Degraded(failedIn, at) => [RecoveryEntry(failedIn, at)]
    case Noted(effect, at, note) => [NoteEntry(effect, at, note)]
    case Routed(_) => []
  }

  function Recorded(g: Graph, s: State, run: seq<Happening>): seq<Entry>
    requires WellFormed(g) && AllPushable(g, run)
    decreases |run|
  {
    assert run != [] ==> Pushable(g, run[0]);
    assert forall k :: 0 <= k < |run| - 1 ==> run[1..][k] == run[k + 1] && Pushable(g, run[k + 1]);
    if run == [] then [] else EntriesOf(g, s, run[0]) + Recorded(g, AfterHappening(g, s, run[0]), run[1..])
  }

  /** `compacted` is how a journal may hold `entries`, from a state where `previous` was last written. */
  ghost predicate CompactsEntries(previous: DeltaState, entries: seq<Entry>, compacted: seq<Entry>)
    decreases |entries|
  {
    if entries == [] then compacted == []
    else if compacted == [] then false
    else if entries[0].StepEntry? then
      && compacted[0] == StepEntry(entries[0].step.(writes := WritesOf(compacted[0])), entries[0].derived)
      && CompactsAll(previous, entries[0].step.writes, WritesOf(compacted[0]))
      && CompactsEntries(AfterCompactingAll(previous, entries[0].step.writes), entries[1..], compacted[1..])
    else Describes(entries[0], compacted[0]) && CompactsEntries(previous, entries[1..], compacted[1..])
  }

  function WritesOf(entry: Entry): seq<JournalWrite> {
    if entry.StepEntry? then entry.step.writes else []
  }

  // ----- Replay reproduces every run -----

  lemma {:induction false} EffectsTakingStaysAlike(g: Graph, a: State, b: State, from: nat)
    requires Alike(a, b)
    ensures Alike(a, TakenByEffects(g, b, from))
    decreases |g.effects| - from
  {
    if from < |g.effects| { EffectsTakingStaysAlike(g, a, Emptied(b, OfEffect(from)), from + 1); }
  }

  /** A committed step, journaled compacted and expanded again, replays to a state alike. */
  lemma CommittedStepReplays(g: Graph, live: State, replaying: State, previous: DeltaState, happening: Happening, compacted: seq<JournalWrite>)
    requires WellFormed(g) && Alike(live, replaying) && happening.Attempted? && Pushable(g, happening)
    requires Attempt(g, live, happening).Ok? && CompactsAll(previous, FullWrites(happening.pushes), compacted)
    ensures var step := JournaledStep(happening.stamp, compacted, happening.wakes);
            var replayed := ReplayedStep(g, replaying, previous, step, Attempt(g, live, happening).value.step.derived);
            && replayed.Ok?
            && Alike(Attempt(g, live, happening).value.state, replayed.value)
            && AfterExpandingAll(previous, compacted) == AfterCompactingAll(previous, FullWrites(happening.pushes))
  {
    var writes := FullWrites(happening.pushes);
    ExpansionInvertsCompaction(previous, writes, compacted);
    var pending := PendingAll(g, writes).value;
    LeftoversNeverInfluenceAStep(g, live, replaying, pending, happening.stamp, happening.wakes);
    EffectsTakingStaysAlike(g, Attempt(g, live, happening).value.state, Run(g, replaying, pending, happening.stamp, happening.wakes).value.state, 0);
  }

  /** A live run and its replay side by side: what is still to be recorded of the run is `compacted`. */
  ghost predicate InStride(g: Graph, live: State, replaying: State, previous: DeltaState, run: seq<Happening>, compacted: seq<Entry>)
    requires WellFormed(g)
  {
    && Alike(live, replaying) && AllPushable(g, run)
    && CompactsEntries(previous, Recorded(g, live, run), compacted)
  }

  lemma QuietInStride(g: Graph, live: State, replaying: State, previous: DeltaState, run: seq<Happening>, compacted: seq<Entry>)
    requires WellFormed(g) && InStride(g, live, replaying, previous, run, compacted) && run != [] && EntriesOf(g, live, run[0]) == []
    ensures InStride(g, AfterHappening(g, live, run[0]), replaying, previous, run[1..], compacted)
  {
    assert Recorded(g, live, run) == Recorded(g, AfterHappening(g, live, run[0]), run[1..]);
    assert forall k :: 0 <= k < |run| - 1 ==> run[1..][k] == run[k + 1] && Pushable(g, run[k + 1]);
  }

  lemma {:induction false} ReplayFollows(g: Graph, live: State, replaying: State, previous: DeltaState, run: seq<Happening>, compacted: seq<Entry>,
                                         n: nat, steps: nat)
    requires WellFormed(g) && InStride(g, live, replaying, previous, run, compacted) && n <= |compacted|
    ensures Replayed(g, replaying, previous, compacted[..n], steps) == Reproduced(steps + StepCount(compacted[..n]))
    decreases |run|, 1
  {
    if run != [] && n > 0 {
      if EntriesOf(g, live, run[0]) == [] {
        QuietInStride(g, live, replaying, previous, run, compacted);
        ReplayFollows(g, AfterHappening(g, live, run[0]), replaying, previous, run[1..], compacted, n, steps);
      } else if run[0].Attempted? {
        ReplayFollowsStep(g, live, replaying, previous, run, compacted, n, steps);
      } else {
        ReplayFollowsOther(g, live, replaying, previous, run, compacted, n, steps);
      }
    }
  }

  lemma RecordedFirst(g: Graph, live: State, run: seq<Happening>)
    requires WellFormed(g) && AllPushable(g, run)
    requires run != [] && EntriesOf(g, live, run[0]) != []
    ensures Recorded(g, live, run) == [EntriesOf(g, live, run[0])[0]] + Recorded(g, AfterHappening(g, live, run[0]), run[1..])
    ensures Recorded(g, live, run)[1..] == Recorded(g, AfterHappening(g, live, run[0]), run[1..])
  {
  }

  lemma {:induction false} ReplayFollowsStep(g: Graph, live: State, replaying: State, previous: DeltaState, run: seq<Happening>,
                                             compacted: seq<Entry>, n: nat, steps: nat)
    requires WellFormed(g) && InStride(g, live, replaying, previous, run, compacted) && 0 < n <= |compacted|
    requires run != [] && run[0].Attempted? && EntriesOf(g, live, run[0]) != []
    ensures Replayed(g, replaying, previous, compacted[..n], steps) == Reproduced(steps + StepCount(compacted[..n]))
    decreases |run|, 0
  {
    var first, writes := run[0], WritesOf(compacted[0]);
    RecordedFirst(g, live, run);
    CommittedStepReplays(g, live, replaying, previous, first, writes);
    var derived := Attempt(g, live, first).value.step.derived;
    var replayed := ReplayedStep(g, replaying, previous, JournaledStep(first.stamp, writes, first.wakes), derived).value;
    ReplayFollows(g, AfterHappening(g, live, first), replayed, AfterExpandingAll(previous, writes), run[1..], compacted[1..], n - 1, steps + 1);
    assert compacted[..n][0] == compacted[0] == StepEntry(JournaledStep(first.stamp, writes, first.wakes), derived);
    assert compacted[..n][1..] == compacted[1..][..n - 1];
  }

  /** What is recorded of anything but a step leaves the replaying state alike, and stands for no step. */
  lemma OthersStayAlike(g: Graph, live: State, replaying: State, happening: Happening, replayed: State)
    requires WellFormed(g) && Alike(live, replaying) && Pushable(g, happening) && !happening.Attempted?
    requires EntriesOf(g, live, happening) != []
    requires replayed == if happening.Degraded? then replaying.(kept := Some(g.recovery)) else replaying
    ensures Alike(AfterHappening(g, live, happening), replayed)
    ensures EntriesOf(g, live, happening)[0].RecoveryEntry? <==> happening.Degraded?
    ensures !EntriesOf(g, live, happening)[0].StepEntry?
  {
  }

  lemma OtherEntriesPass(g: Graph, s: State, previous: DeltaState, entries: seq<Entry>, steps: nat)
    requires WellFormed(g) && entries != [] && !entries[0].StepEntry?
    ensures Replayed(g, s, previous, entries, steps)
            == Replayed(g, if entries[0].RecoveryEntry? then s.(kept := Some(g.recovery)) else s, previous, entries[1..], steps)
    ensures StepCount(entries) == StepCount(entries[1..])
  {
  }

  lemma FirstOfPrefix(entries: seq<Entry>, n: nat)
    requires 0 < n <= |entries|
    ensures entries[..n][0] == entries[0] && entries[..n][1..] == entries[1..][..n - 1]
  {
  }

  lemma OtherInStride(g: Graph, live: State, replaying: State, previous: DeltaState, run: seq<Happening>, compacted: seq<Entry>, replayed: State)
    requires WellFormed(g) && InStride(g, live, replaying, previous, run, compacted)
    requires run != [] && !run[0].Attempted? && EntriesOf(g, live, run[0]) != []
    requires replayed == if run[0].Degraded? then replaying.(kept := Some(g.recovery)) else replaying
    ensures compacted != [] && !compacted[0].StepEntry? && (compacted[0].RecoveryEntry? <==> run[0].Degraded?)
    ensures InStride(g, AfterHappening(g, live, run[0]), replayed, previous, run[1..], compacted[1..])
  {
    RecordedFirst(g, live, run);
    OthersStayAlike(g, live, replaying, run[0], replayed);
    assert forall k :: 0 <= k < |run| - 1 ==> run[1..][k] == run[k + 1] && Pushable(g, run[k + 1]);
  }

  lemma {:induction false} ReplayFollowsOther(g: Graph, live: State, replaying: State, previous: DeltaState, run: seq<Happening>,
                                              compacted: seq<Entry>, n: nat, steps: nat)
    requires WellFormed(g) && InStride(g, live, replaying, previous, run, compacted) && 0 < n <= |compacted|
    requires run != [] && !run[0].Attempted? && EntriesOf(g, live, run[0]) != []
    ensures Replayed(g, replaying, previous, compacted[..n], steps) == Reproduced(steps + StepCount(compacted[..n]))
    decreases |run|, 0
  {
    var entries := compacted[..n];
    var replayed := if run[0].Degraded? then replaying.(kept := Some(g.recovery)) else replaying;
    OtherInStride(g, live, replaying, previous, run, compacted, replayed);
    FirstOfPrefix(compacted, n);
    ReplayFollows(g, AfterHappening(g, live, run[0]), replayed, previous, run[1..], compacted[1..], n - 1, steps);
    OtherEntriesPass(g, replaying, previous, entries, steps);
  }

  /**
   * Whatever a run did, including a step it rolled back and degrading to its recovery scope, replaying any
   * prefix of what it journaled reproduces every step in that prefix.
   */
  lemma ReplayReproducesEveryRun(g: Graph, run: seq<Happening>, compacted: seq<Entry>, n: nat)
    requires WellFormed(g) && Creatable(g) && AllPushable(g, run)
    requires CompactsEntries(map[], Recorded(g, Initial(g), run), compacted) && n <= |compacted|
    ensures Replayed(g, Initial(g), map[], compacted[..n], 0) == Reproduced(StepCount(compacted[..n]))
  {
    StartsInStride(g, Initial(g), run, compacted);
    ReplayFollows(g, Initial(g), Initial(g), map[], run, compacted, n, 0);
  }

  lemma StartsInStride(g: Graph, s: State, run: seq<Happening>, compacted: seq<Entry>)
    requires WellFormed(g) && AllPushable(g, run)
    requires CompactsEntries(map[], Recorded(g, s, run), compacted)
    ensures InStride(g, s, s, map[], run, compacted)
  {
    assert Alike(s, s);
  }

  // ----- The loop -----

  /** Replays a journal on a fresh engine, reporting the first step that does not come out as recorded. */
  method ReplayAll(g: Graph, entries: seq<Entry>) returns (report: Report)
    requires WellFormed(g) && Creatable(g)
    ensures report == Replayed(g, Initial(g), map[], entries, 0)
  {
    var core := new Core.Core(g);
    var deltas := new Deltas();
    report := ReplayOn(core, deltas, entries);
  }

  method ReplayOn(core: Core.Core, deltas: Deltas, entries: seq<Entry>) returns (report: Report)
    requires core.Built() && core.Valid() && WellFormed(core.graph) && deltas !in core.Repr()
    modifies core, core.Repr(), deltas
    ensures report == Replayed(core.graph, old(core.Abstract()), old(deltas.previous), entries, 0)
  {
    var index := 0;
    ghost var goal := Replayed(core.graph, core.Abstract(), deltas.previous, entries, 0);
    assert entries[0..] == entries;
    for k := 0 to |entries|
      invariant core.Valid() && fresh(core.Repr() - old(core.Repr())) && deltas !in core.Repr()
      invariant Comes(core.graph, core.Abstract(), deltas.previous, entries[k..], index, goal)
    {
      var reason := ReplayOne(core, deltas, entries[k], entries[k..], index, goal);
      assert entries[k..][1..] == entries[k + 1..];
      if entries[k].StepEntry? { index := index + 1; }
      if reason.Some? { return Diverged(index, reason.value); }
    }
    return Reproduced(index);
  }

  /** Replaying what is left comes to `goal`. */
  ghost predicate Comes(g: Graph, s: State, previous: DeltaState, entries: seq<Entry>, steps: nat, goal: Report)
    requires WellFormed(g)
  {
    Replayed(g, s, previous, entries, steps) == goal
  }

  method ReplayOne(core: Core.Core, deltas: Deltas, entry: Entry, ghost entries: seq<Entry>, ghost index: nat, ghost goal: Report)
    returns (reason: Option<Reason>)
    requires core.Built() && core.Valid() && WellFormed(core.graph) && deltas !in core.Repr()
    requires entries != [] && entry == entries[0] && Comes(core.graph, core.Abstract(), deltas.previous, entries, index, goal)
    modifies core, core.Repr(), deltas
    ensures core.Valid() && fresh(core.Repr() - old(core.Repr()))
    ensures reason.Some? ==> entry.StepEntry? && goal == Diverged(index + 1, reason.value)
    ensures reason.None? ==>
              Comes(core.graph, core.Abstract(), deltas.previous, entries[1..], index + if entry.StepEntry? then 1 else 0, goal)
  {
    match entry
    case RecoveryEntry(_, _) =>
      core.KeepOnly(core.graph.recovery);
      return None;
    case StepEntry(step, derived) =>
      reason := ReplayStep(core, deltas, step, derived);
    case _ =>
      return None;
  }

  method ReplayStep(core: Core.Core, deltas: Deltas, step: JournaledStep, derived: seq<DerivedWrite>) returns (reason: Option<Reason>)
    requires core.Built() && core.Valid() && WellFormed(core.graph) && deltas !in core.Repr()
    modifies core.Repr(), deltas
    ensures core.Valid() && fresh(core.Repr() - old(core.Repr()))
    ensures ReplayedStep(core.graph, old(core.Abstract()), old(deltas.previous), step, derived)
            == if reason.Some? then Err(reason.value) else Ok(core.Abstract())
    ensures reason.None? ==> deltas.previous == AfterExpandingAll(old(deltas.previous), step.writes)
  {
    ExpandedAreFull(deltas.previous, step.writes);
    var expanded := deltas.ExpandAll(step.writes);
    if expanded.None? { return Some(NoEarlierComplete); }
    var writes := PendingAll(core.graph, expanded.value);
    if writes.None? || !Known(core.graph, writes.value) { return Some(StepThrew); }
    reason := RerunStep(core, writes.value, step, derived);
  }

  method RerunStep(core: Core.Core, writes: seq<Pending>, step: JournaledStep, derived: seq<DerivedWrite>) returns (reason: Option<Reason>)
    requires core.Built() && core.Valid() && WellFormed(core.graph) && Known(core.graph, writes)
    modifies core.Repr()
    ensures core.Valid() && fresh(core.Repr() - old(core.Repr()))
    ensures Rerun(core.graph, old(core.Abstract()), writes, step, derived)
            == if reason.Some? then Err(reason.value) else Ok(core.Abstract())
  {
    var result := core.Run(writes, step.stamp, step.wakes);
    if result.Err? { return Some(StepThrew); }
    if result.value != derived { return Some(DerivedDiffer); }
    ghost var ran := core.Repr();
    TakeEffects(core);
    assert core.Repr() - old(core.Repr()) <= (core.Repr() - ran) + (ran - old(core.Repr()));
    return None;
  }

  method TakeEffects(core: Core.Core)
    requires core.Built() && core.Valid()
    modifies core.unread
    ensures core.Valid() && fresh(core.Repr() - old(core.Repr()))
    ensures core.Abstract() == TakenByEffects(core.graph, old(core.Abstract()), 0)
  {
    for e := 0 to |core.graph.effects|
      invariant core.Valid() && fresh(core.Repr() - old(core.Repr()))
      invariant TakenByEffects(core.graph, old(core.Abstract()), 0) == TakenByEffects(core.graph, core.Abstract(), e)
    {
      var _ := core.TakeRequests(e);
    }
  }
}
