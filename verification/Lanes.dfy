/** One lane: admitting requests, starting them within its concurrency and call budget, and settling them. */
module Lanes {
  import opened Basics

  /** How many starts a sliding window of `perMs` may hold. */
  datatype Budget = Budget(calls: int, perMs: int)

  /** `concurrency` is `None` for a lane without a bound. */
  datatype Lane = Lane(concurrency: Option<int>, queue: int, budget: Option<Budget>)

  /** What a lane is checked for when it is declared. */
  predicate IsLane(lane: Lane) {
    && (lane.concurrency.Some? ==> lane.concurrency.value > 0)
    && lane.queue > 0
    && (lane.budget.Some? ==> lane.budget.value.calls > 0 && lane.budget.value.perMs > 0)
  }

  datatype Job = Job(effect: nat, identity: string, recovery: bool, delivered: nat)

  type Name = (nat, string)

  function NameOf(job: Job): Name {
    (job.effect, job.identity)
  }

  /** A delivered request, with what its effect's lane policies said of it. */
  datatype Request = Request(job: Job, position: Option<int>)

  datatype Refusal = AtOrBelow(highest: int) | AlreadyThere | Overflow

  /** What the scheduler does not keep but promises things about: all it ever admitted, began, dropped and drew. */
  datatype Past = Past(admitted: seq<Job>, begun: seq<Job>, dropped: seq<Job>, drawn: seq<int>, clock: int)

  datatype View = View(waiting: seq<Job>, active: seq<Job>, starts: seq<int>, sequenced: map<nat, int>, past: Past)

  /** The environment of one turn of the pump: whether it may go on, the time, and which waiting work is ready. */
  datatype Turn = Turn(open: bool, at: int, ready: Job -> bool)

  // ----- Admitting -----

  function OfKind(jobs: seq<Job>, recovery: bool): seq<Job> {
    if jobs == [] then []
    else OfKind(jobs[..|jobs| - 1], recovery) + if jobs[|jobs| - 1].recovery == recovery then [jobs[|jobs| - 1]] else []
  }

  predicate Holds(jobs: seq<Job>, name: Name) {
    exists k :: 0 <= k < |jobs| && NameOf(jobs[k]) == name
  }

  /** The slots free for one more job of this kind: a normal one stands behind every waiting recovery job. */
  function Free(lane: Lane, running: nat, waiting: seq<Job>, recovery: bool): int {
    if lane.concurrency.None? then 0
    else Max(0, lane.concurrency.value - (running + if recovery then 0 else |OfKind(waiting, true)|))
  }

  predicate Overflows(lane: Lane, running: nat, waiting: seq<Job>, recovery: bool) {
    |OfKind(waiting, recovery)| - Free(lane, running, waiting, recovery) >= lane.queue
  }

  predicate BelowMark(v: View, request: Request) {
    request.position.Some? && request.job.effect in v.sequenced && request.position.value <= v.sequenced[request.job.effect]
  }

  function RefusalOf(lane: Lane, v: View, request: Request): Option<Refusal> {
    if BelowMark(v, request) then Some(AtOrBelow(v.sequenced[request.job.effect]))
    else if Holds(v.active, NameOf(request.job)) || Holds(v.waiting, NameOf(request.job)) then Some(AlreadyThere)
    else if Overflows(lane, |v.active|, v.waiting, request.job.recovery) then Some(Overflow)
    else None
  }

  /** The high-water mark advances as each request passes it, whether or not the lane then holds it. */
  function Marked(v: View, request: Request): map<nat, int> {
    if request.position.None? || BelowMark(v, request) then v.sequenced
    else v.sequenced[request.job.effect := request.position.value]
  }

  function Admitted(lane: Lane, v: View, request: Request): View {
    var marked := v.(sequenced := Marked(v, request));
    if RefusalOf(lane, v, request).Some? then marked
    else marked.(waiting := v.waiting + [request.job], past := v.past.(admitted := v.past.admitted + [request.job]))
  }

  // ----- Starting -----

  function Dropped(starts: seq<int>, at: int, perMs: int): seq<int> {
    if starts != [] && at - starts[0] >= perMs then Dropped(starts[1..], at, perMs) else starts
  }

  predicate Draws(lane: Lane, starts: seq<int>, at: int) {
    lane.budget.Some? ==> |Dropped(starts, at, lane.budget.value.perMs)| < lane.budget.value.calls
  }

  function Drawn(lane: Lane, starts: seq<int>, at: int): seq<int> {
    if lane.budget.None? then starts
    else Dropped(starts, at, lane.budget.value.perMs) + if Draws(lane, starts, at) then [at] else []
  }

  function FirstReady(waiting: seq<Job>, ready: Job -> bool, recovery: bool, from: nat): Option<nat>
    decreases |waiting| - from
  {
    if from >= |waiting| then None
    else if waiting[from].recovery == recovery && ready(waiting[from]) then Some(from)
    else FirstReady(waiting, ready, recovery, from + 1)
  }

  /** The first ready recovery job, or else the first ready normal one. */
  function Next(waiting: seq<Job>, ready: Job -> bool): Option<nat> {
    var first := FirstReady(waiting, ready, true, 0);
    if first.Some? then first else FirstReady(waiting, ready, false, 0)
  }

  lemma {:induction false} FirstReadyIsFirst(waiting: seq<Job>, ready: Job -> bool, recovery: bool, from: nat)
    ensures var first := FirstReady(waiting, ready, recovery, from);
            && (first.Some? ==> from <= first.value < |waiting| && waiting[first.value].recovery == recovery && ready(waiting[first.value]))
            && forall k :: from <= k < |waiting| && k < (if first.Some? then first.value else |waiting|) && waiting[k].recovery == recovery ==>
                 !ready(waiting[k])
    decreases |waiting| - from
  {
    if from < |waiting| { FirstReadyIsFirst(waiting, ready, recovery, from + 1); }
  }

  function Without<T>(s: seq<T>, k: nat): seq<T>
    requires k < |s|
  {
    s[..k] + s[k + 1..]
  }

  predicate HasRoom(lane: Lane, running: nat) {
    lane.concurrency.Some? ==> running < lane.concurrency.value
  }

  function Begun(v: View, k: nat): View
    requires k < |v.waiting|
  {
    v.(waiting := Without(v.waiting, k), active := v.active + [v.waiting[k]],
       past := v.past.(begun := v.past.begun + [v.waiting[k]]))
  }

  /** One turn of the pump: the next ready job starts, unless it is normal and the budget refuses it. */
  function Pumped(lane: Lane, v: View, turn: Turn): View {
    if !turn.open || !HasRoom(lane, |v.active|) then v
    else
      var next := Next(v.waiting, turn.ready);
      if next.None? then v
      else
        NextIsThere(v.waiting, turn.ready);
        var k := next.value;
        if v.waiting[k].recovery then Begun(v, k)
        else if Draws(lane, v.starts, turn.at) then
          var begun := Begun(v, k);
          begun.(starts := Drawn(lane, v.starts, turn.at), past := begun.past.(drawn := v.past.drawn + [turn.at], clock := turn.at))
        else
          v.(starts := Drawn(lane, v.starts, turn.at), waiting := [v.waiting[k]] + Without(v.waiting, k), past := v.past.(clock := turn.at))
  }

  /** A turn that lets the pump take another: one whose job starts. */
  predicate GoesOn(lane: Lane, v: View, turn: Turn) {
    && turn.open && HasRoom(lane, |v.active|) && Next(v.waiting, turn.ready).Some?
    && (NextIsThere(v.waiting, turn.ready);
        v.waiting[Next(v.waiting, turn.ready).value].recovery || Draws(lane, v.starts, turn.at))
  }

  lemma NextIsThere(waiting: seq<Job>, ready: Job -> bool)
    ensures Next(waiting, ready).Some? ==> Next(waiting, ready).value < |waiting|
  {
    FirstReadyIsFirst(waiting, ready, true, 0);
    FirstReadyIsFirst(waiting, ready, false, 0);
  }

  function PumpedAll(lane: Lane, v: View, turns: seq<Turn>): View
    decreases |turns|
  {
    if turns == [] then v
    else if GoesOn(lane, v, turns[0]) then PumpedAll(lane, Pumped(lane, v, turns[0]), turns[1..])
    else Pumped(lane, v, turns[0])
  }

  function PlaceOf(jobs: seq<Job>, name: Name, from: nat): Option<nat>
    decreases |jobs| - from
  {
    if from >= |jobs| then None else if NameOf(jobs[from]) == name then Some(from) else PlaceOf(jobs, name, from + 1)
  }

  lemma {:induction false} IndexIsThere(jobs: seq<Job>, name: Name, from: nat)
    ensures PlaceOf(jobs, name, from).Some? ==> from <= PlaceOf(jobs, name, from).value < |jobs| && NameOf(jobs[PlaceOf(jobs, name, from).value]) == name
    ensures PlaceOf(jobs, name, from).None? ==> forall k :: from <= k < |jobs| ==> NameOf(jobs[k]) != name
    decreases |jobs| - from
  {
    if from < |jobs| { IndexIsThere(jobs, name, from + 1); }
  }

  function Settled(v: View, name: Name): View {
    IndexIsThere(v.active, name, 0);
    var k := PlaceOf(v.active, name, 0);
    if k.None? then v else v.(active := Without(v.active, k.value))
  }

  function Filtered(jobs: seq<Job>, keeps: nat -> bool): seq<Job> {
    if jobs == [] then []
    else Filtered(jobs[..|jobs| - 1], keeps) + if keeps(jobs[|jobs| - 1].effect) then [jobs[|jobs| - 1]] else []
  }

  /** After a stop, everything kept starts as slots come free, in the same order. */
  function Finished(lane: Lane, v: View): View
    decreases |v.waiting|
  {
    var next := Next(v.waiting, _ => true);
    if !HasRoom(lane, |v.active|) || next.None? then v
    else
      NextIsThere(v.waiting, _ => true);
      Finished(lane, Begun(v, next.value))
  }

  function Others(keeps: nat -> bool): nat -> bool {
    (effect: nat) => !keeps(effect)
  }

  /** Work dropped at a degrade or a stop. */
  function Kept(v: View, keeps: nat -> bool): View {
    v.(waiting := Filtered(v.waiting, keeps), past := v.past.(dropped := v.past.dropped + Filtered(v.waiting, Others(keeps))))
  }

  // ----- The lane's state, updated in place -----

  ghost predicate DistinctNames(jobs: seq<Job>) {
    forall a, b :: 0 <= a < b < |jobs| ==> NameOf(jobs[a]) != NameOf(jobs[b])
  }

  function NamesOf(jobs: seq<Job>): set<Name> {
    set k | 0 <= k < |jobs| :: NameOf(jobs[k])
  }

  class LaneState {
    const lane: Lane
    var running: nat
    var waiting: seq<Job>
    /** The times of the starts still in the window, in order. */
    var starts: seq<int>
    /** The work running, by effect and identity. */
    var names: set<Name>
    /** Each effect's highest admitted position. */
    var sequenced: map<nat, int>
    ghost var active: seq<Job>
    ghost var past: Past

    ghost predicate Valid()
      reads this
    {
      running == |active| && names == NamesOf(active) && DistinctNames(active + waiting)
    }

    ghost function Status(): View
      reads this
    {
      View(waiting, active, starts, sequenced, past)
    }

    constructor (lane: Lane)
      ensures Valid() && this.lane == lane
      ensures Status() == View([], [], [], map[], Past([], [], [], [], 0))
    {
      this.lane := lane;
      running, waiting, starts, names, sequenced := 0, [], [], {}, map[];
      active, past := [], Past([], [], [], [], 0);
    }

    /** Admits a request, or refuses it; one refused for its place in line still raises the high-water mark. */
    method Admit(request: Request) returns (refusal: Option<Refusal>)
      requires Valid()
      modifies this`waiting, this`sequenced, this`past
      ensures Valid()
      ensures refusal == RefusalOf(lane, old(Status()), request)
      ensures Status() == Admitted(lane, old(Status()), request)
    {
      var job := request.job;
      if request.position.Some? {
        if job.effect in sequenced && request.position.value <= sequenced[job.effect] {
          return Some(AtOrBelow(sequenced[job.effect]));
        }
        sequenced := sequenced[job.effect := request.position.value];
      }
      NamesHeld(active, NameOf(job));
      if NameOf(job) in names || exists k :: 0 <= k < |waiting| && NameOf(waiting[k]) == NameOf(job) { return Some(AlreadyThere); }
      var ahead := running + if job.recovery then 0 else |OfKind(waiting, true)|;
      var free := if lane.concurrency.Some? then Max(0, lane.concurrency.value - ahead) else 0;
      if |OfKind(waiting, job.recovery)| - free >= lane.queue { return Some(Overflow); }
      AppendedDistinct(active, waiting, job);
      waiting := waiting + [job];
      past := past.(admitted := past.admitted + [job]);
      return None;
    }

    /** Forgets what left the window by `at`, and adds `at` if there is room. */
    method DrawBudget(at: int) returns (drawn: bool)
      modifies this`starts
      ensures drawn <==> Draws(lane, old(starts), at)
      ensures starts == Drawn(lane, old(starts), at)
    {
      if lane.budget.None? { return true; }
      var budget := lane.budget.value;
      while starts != [] && at - starts[0] >= budget.perMs
        invariant Dropped(starts, at, budget.perMs) == Dropped(old(starts), at, budget.perMs)
        decreases |starts|
      {
        starts := starts[1..];
      }
      drawn := |starts| < budget.calls;
      if drawn { starts := starts + [at]; }
    }

    /** The next job `ready` accepts, recovery work first, no longer waiting. */
    method NextJob(ready: Job -> bool) returns (job: Option<Job>)
      requires Valid()
      modifies this`waiting
      ensures job.None? <==> Next(old(waiting), ready).None?
      ensures job.None? ==> waiting == old(waiting)
      ensures job.Some? ==> var k := Next(old(waiting), ready).value;
                            k < |old(waiting)| && job.value == old(waiting)[k] && waiting == Without(old(waiting), k)
    {
      var ordered := OfKind(waiting, true) + OfKind(waiting, false);
      var k := 0;
      while k < |ordered| && !ready(ordered[k])
        invariant k <= |ordered| && FirstIn(ordered, ready, 0) == FirstIn(ordered, ready, k)
      {
        k := k + 1;
      }
      NextInOrder(waiting, ready);
      NextIsThere(waiting, ready);
      if k == |ordered| { return None; }
      IndexIsThere(waiting, NameOf(ordered[k]), 0);
      var at := PlaceOf(waiting, NameOf(ordered[k]), 0).value;
      SameName(active, waiting, at, Next(waiting, ready).value);
      waiting := Without(waiting, at);
      return Some(ordered[k]);
    }

    method Start(job: Job)
      requires running == |active| && names == NamesOf(active)
      modifies this`running, this`names, this`active, this`past
      ensures running == |active| && names == NamesOf(active)
      ensures active == old(active) + [job] && past == old(past).(begun := old(past).begun + [job])
    {
      running := running + 1;
      assert NamesOf(active + [job]) == NamesOf(active) + {NameOf(job)} by { NamesOfOneMore(active, job); }
      names := names + {NameOf(job)};
      active := active + [job];
      past := past.(begun := past.begun + [job]);
    }

    /** One turn of the pump: true while it may take another. */
    method Turn(turn: Turn) returns (more: bool)
      requires Valid()
      modifies this`running, this`waiting, this`starts, this`names, this`active, this`past
      ensures Valid()
      ensures more <==> GoesOn(lane, old(Status()), turn)
      ensures Status() == Pumped(lane, old(Status()), turn)
    {
      if !turn.open || (lane.concurrency.Some? && running >= lane.concurrency.value) { return false; }
      ghost var before, k := waiting, Next(waiting, turn.ready);
      var job := NextJob(turn.ready);
      if job.None? { return false; }
      MovedDistinct(active, before, k.value);
      if !job.value.recovery {
        var drawn := DrawBudget(turn.at);
        past := past.(clock := turn.at);
        if !drawn {
          waiting := [job.value] + waiting;
          return false;
        }
        past := past.(drawn := past.drawn + [turn.at]);
      }
      Start(job.value);
      return true;
    }

    /** Starts what may start, until the lane is full, nothing is ready, or the budget refuses. */
    method Pump(turns: seq<Turn>)
      requires Valid()
      modifies this`running, this`waiting, this`starts, this`names, this`active, this`past
      ensures Valid()
      ensures Status() == PumpedAll(lane, old(Status()), turns)
    {
      for k := 0 to |turns|
        invariant Valid()
        invariant PumpedAll(lane, Status(), turns[k..]) == PumpedAll(lane, old(Status()), turns)
      {
        assert turns[k..][0] == turns[k] && turns[k..][1..] == turns[k + 1..];
        var more := Turn(turns[k]);
        if !more { return; }
      }
    }

    /** Work that has settled frees its slot and its identity. */
    method Settle(name: Name)
      requires Valid() && name in names
      modifies this`running, this`names, this`active
      ensures Valid()
      ensures Status() == Settled(old(Status()), name)
    {
      NamesHeld(active, name);
      IndexIsThere(active, name, 0);
      ghost var k := PlaceOf(active, name, 0).value;
      SettledNames(active, waiting, k);
      running := running - 1;
      names := names - {name};
      active := Without(active, k);
    }

    /** Drops the waiting work of every effect but those kept. */
    method Keep(keeps: nat -> bool)
      requires Valid()
      modifies this`waiting, this`past
      ensures Valid()
      ensures Status() == Kept(old(Status()), keeps)
    {
      FilteredDistinct(active, waiting, keeps);
      past := past.(dropped := past.dropped + Filtered(waiting, Others(keeps)));
      waiting := Filtered(waiting, keeps);
    }

    /** After a stop, starts the work it kept, within the lane's concurrency. */
    method FinishQueued()
      requires Valid()
      modifies this`running, this`waiting, this`names, this`active, this`past
      ensures Valid()
      ensures Status() == Finished(lane, old(Status()))
    {
      while lane.concurrency.None? || running < lane.concurrency.value
        invariant Valid()
        invariant Finished(lane, Status()) == Finished(lane, old(Status()))
        decreases |waiting|
      {
        ghost var before, k := waiting, Next(waiting, _ => true);
        var job := NextJob(_ => true);
        if job.None? { return; }
        MovedDistinct(active, before, k.value);
        Start(job.value);
      }
    }
  }

  // ----- What the methods rest on -----

  lemma NamesHeld(jobs: seq<Job>, name: Name)
    ensures name in NamesOf(jobs) <==> Holds(jobs, name)
  {
  }

  lemma AppendedDistinct(active: seq<Job>, waiting: seq<Job>, job: Job)
    requires DistinctNames(active + waiting) && !Holds(active, NameOf(job)) && !Holds(waiting, NameOf(job))
    ensures DistinctNames(active + (waiting + [job]))
  {
    assert active + (waiting + [job]) == (active + waiting) + [job];
    forall a | 0 <= a < |active + waiting| ensures NameOf((active + waiting)[a]) != NameOf(job) {
      if a < |active| { assert (active + waiting)[a] == active[a]; } else { assert (active + waiting)[a] == waiting[a - |active|]; }
    }
  }

  lemma NamesOfOneMore(jobs: seq<Job>, job: Job)
    ensures NamesOf(jobs + [job]) == NamesOf(jobs) + {NameOf(job)}
  {
    var all := jobs + [job];
    forall name | name in NamesOf(jobs) + {NameOf(job)} ensures name in NamesOf(all) {
      if name == NameOf(job) {
        assert NameOf(all[|jobs|]) == name;
      } else {
        var k :| 0 <= k < |jobs| && NameOf(jobs[k]) == name;
        assert NameOf(all[k]) == name;
      }
    }
  }

  function FirstIn(jobs: seq<Job>, ready: Job -> bool, from: nat): Option<Job>
    decreases |jobs| - from
  {
    if from >= |jobs| then None else if ready(jobs[from]) then Some(jobs[from]) else FirstIn(jobs, ready, from + 1)
  }

  lemma {:induction false} FirstInTwo(a: seq<Job>, b: seq<Job>, ready: Job -> bool, from: nat)
    requires from <= |a|
    ensures FirstIn(a + b, ready, from) == if FirstIn(a, ready, from).Some? then FirstIn(a, ready, from) else FirstIn(b, ready, 0)
    decreases |a| - from
  {
    if from < |a| {
      FirstInTwo(a, b, ready, from + 1);
    } else {
      FirstInTail(a, b, ready, 0);
    }
  }

  lemma {:induction false} FirstInTail(a: seq<Job>, b: seq<Job>, ready: Job -> bool, from: nat)
    ensures FirstIn(a + b, ready, |a| + from) == FirstIn(b, ready, from)
    decreases |b| - from
  {
    if from < |b| {
      assert (a + b)[|a| + from] == b[from];
      FirstInTail(a, b, ready, from + 1);
    }
  }

  lemma {:induction false} OfKindDistributes(a: seq<Job>, b: seq<Job>, recovery: bool)
    ensures OfKind(a + b, recovery) == OfKind(a, recovery) + OfKind(b, recovery)
  {
    if b == [] {
      assert a + b == a;
    } else {
      assert (a + b)[..|a + b| - 1] == a + b[..|b| - 1];
      OfKindDistributes(a, b[..|b| - 1], recovery);
    }
  }

  lemma {:induction false} FirstOfKind(waiting: seq<Job>, ready: Job -> bool, recovery: bool, from: nat)
    requires from <= |waiting|
    ensures var first := FirstReady(waiting, ready, recovery, from);
            FirstIn(OfKind(waiting[from..], recovery), ready, 0)
            == if first.Some? && first.value < |waiting| then Some(waiting[first.value]) else None
    decreases |waiting| - from
  {
    if from < |waiting| {
      FirstOfKind(waiting, ready, recovery, from + 1);
      assert waiting[from..] == [waiting[from]] + waiting[from + 1..];
      OfKindDistributes([waiting[from]], waiting[from + 1..], recovery);
      assert [waiting[from]][..0] == [];
      FirstInTwo(OfKind([waiting[from]], recovery), OfKind(waiting[from + 1..], recovery), ready, 0);
      FirstReadyIsFirst(waiting, ready, recovery, from + 1);
    }
  }

  /** Recovery work then normal work, each as it waits: the first ready of these is the next job. */
  lemma NextInOrder(waiting: seq<Job>, ready: Job -> bool)
    ensures FirstIn(OfKind(waiting, true) + OfKind(waiting, false), ready, 0)
            == if Next(waiting, ready).Some? && Next(waiting, ready).value < |waiting| then Some(waiting[Next(waiting, ready).value]) else None
  {
    assert waiting[0..] == waiting;
    FirstOfKind(waiting, ready, true, 0);
    FirstOfKind(waiting, ready, false, 0);
    FirstReadyIsFirst(waiting, ready, true, 0);
    FirstReadyIsFirst(waiting, ready, false, 0);
    FirstInTwo(OfKind(waiting, true), OfKind(waiting, false), ready, 0);
  }

  lemma SameName(active: seq<Job>, waiting: seq<Job>, a: nat, b: nat)
    requires DistinctNames(active + waiting) && a < |waiting| && b < |waiting| && NameOf(waiting[a]) == NameOf(waiting[b])
    ensures a == b
  {
    assert (active + waiting)[|active| + a] == waiting[a] && (active + waiting)[|active| + b] == waiting[b];
  }

  /** A job that starts, or is put back first in line, leaves every identity distinct. */
  lemma MovedDistinct(active: seq<Job>, waiting: seq<Job>, k: nat)
    requires DistinctNames(active + waiting) && k < |waiting|
    ensures DistinctNames(active + [waiting[k]] + Without(waiting, k))
    ensures DistinctNames(active + ([waiting[k]] + Without(waiting, k)))
  {
    var all, moved := active + waiting, active + [waiting[k]] + Without(waiting, k);
    forall a | 0 <= a < |moved| ensures moved[a] == all[Source(|active|, k, a)] && Source(|active|, k, a) < |all| {}
    assert active + ([waiting[k]] + Without(waiting, k)) == moved;
  }

  /** Where the job now at `a` stood before job `k` of those waiting moved to the front of them. */
  function Source(active: nat, k: nat, a: nat): nat {
    if a < active then a else if a == active then active + k else if a <= active + k then a - 1 else a
  }

  lemma SettledNames(active: seq<Job>, waiting: seq<Job>, k: nat)
    requires DistinctNames(active + waiting) && k < |active|
    ensures DistinctNames(Without(active, k) + waiting)
    ensures NamesOf(Without(active, k)) == NamesOf(active) - {NameOf(active[k])}
  {
    var left, all := Without(active, k), active + waiting;
    forall a | 0 <= a < |left + waiting| ensures (left + waiting)[a] == all[if a < k then a else a + 1] {}
    forall name | name in NamesOf(active) && name != NameOf(active[k]) ensures name in NamesOf(left) {
      var a :| 0 <= a < |active| && NameOf(active[a]) == name;
      assert left[if a < k then a else a - 1] == active[a];
    }
    forall name | name in NamesOf(left) ensures name in NamesOf(active) && name != NameOf(active[k]) {
      var a :| 0 <= a < |left| && NameOf(left[a]) == name;
      var b := if a < k then a else a + 1;
      assert active[b] == left[a] && NameOf(active[b]) in NamesOf(active);
      assert all[b] == left[a] && all[k] == active[k];
    }
  }

  lemma {:induction false} FilteredDistinct(active: seq<Job>, waiting: seq<Job>, keeps: nat -> bool)
    requires DistinctNames(active + waiting)
    ensures DistinctNames(active + Filtered(waiting, keeps))
    ensures forall job :: job in Filtered(waiting, keeps) ==> job in waiting && keeps(job.effect)
  {
    if waiting != [] {
      var init, last := waiting[..|waiting| - 1], waiting[|waiting| - 1];
      assert active + waiting == (active + init) + [last];
      assert forall a :: 0 <= a < |active + init| ==> (active + waiting)[a] == (active + init)[a];
      FilteredDistinct(active, init, keeps);
      var kept := Filtered(init, keeps);
      forall a | 0 <= a < |active + kept| ensures NameOf((active + kept)[a]) != NameOf(last) {
        assert (active + waiting)[|active + waiting| - 1] == last;
        if a < |active| {
          assert (active + waiting)[a] == (active + kept)[a];
        } else {
          assert kept[a - |active|] in init;
          var b :| 0 <= b < |init| && init[b] == kept[a - |active|];
          assert (active + waiting)[|active| + b] == (active + kept)[a];
        }
      }
      assert active + (kept + [last]) == (active + kept) + [last] && kept + [] == kept;
      assert last in waiting && forall job :: job in init ==> job in waiting;
    }
  }
}
