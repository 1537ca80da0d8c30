/** What a lane promises over whole runs: its bounds, its order, its budget, and what recovery work never waits for. */
module LaneRuns {
  import opened Basics
  import opened Lanes

  datatype Event =
    | Requested(request: Request)
    | Pumping(turns: seq<Turn>)
    | Settling(name: Name)
    | Keeping(keeps: nat -> bool)
    | Finishing

  function After(lane: Lane, v: View, event: Event): View {
    match event
    case Requested(request) => Admitted(lane, v, request)
    case Pumping(turns) => PumpedAll(lane, v, turns)
    case Settling(name) => Settled(v, name)
    case Keeping(keeps) => Kept(v, keeps)
    case Finishing => Finished(lane, v)
  }

  function Empty(): View {
    View([], [], [], map[], Past([], [], [], [], 0))
  }

  function AfterAll(lane: Lane, v: View, events: seq<Event>): View
    decreases |events|
  {
    if events == [] then v else AfterAll(lane, After(lane, v, events[0]), events[1..])
  }

  // ----- Bounds -----

  /** What a lane keeps to, whatever happens to it. */
  ghost predicate WithinBounds(lane: Lane, v: View) {
    && (lane.concurrency.Some? ==> |v.active| <= lane.concurrency.value)
    && DistinctNames(v.active + v.waiting)
    && Queued(lane, v.waiting, true) && Queued(lane, v.waiting, false)
  }

  /** Waiting work of one kind stays within the queue bound and the free slots. */
  predicate Queued(lane: Lane, waiting: seq<Job>, recovery: bool) {
    |OfKind(waiting, recovery)| <= lane.queue + if lane.concurrency.Some? then lane.concurrency.value else 0
  }

  /** What is of a kind among `waiting`, around the job at `k` and without it. */
  lemma WithoutOfKind(waiting: seq<Job>, k: nat, recovery: bool)
    requires k < |waiting|
    ensures OfKind(waiting, recovery) == OfKind(waiting[..k], recovery) + (OneOfKind(waiting[k], recovery) + OfKind(waiting[k + 1..], recovery))
    ensures OfKind(Without(waiting, k), recovery) == OfKind(waiting[..k], recovery) + OfKind(waiting[k + 1..], recovery)
  {
    OfKindDistributes(waiting[..k], waiting[k + 1..], recovery);
    assert waiting == waiting[..k] + ([waiting[k]] + waiting[k + 1..]);
    OfKindDistributes(waiting[..k], [waiting[k]] + waiting[k + 1..], recovery);
    OneFirst(waiting[k], waiting[k + 1..], recovery);
  }

  function OneOfKind(job: Job, recovery: bool): seq<Job> {
    if job.recovery == recovery then [job] else []
  }

  lemma OneFirst(job: Job, jobs: seq<Job>, recovery: bool)
    ensures OfKind([job] + jobs, recovery) == OneOfKind(job, recovery) + OfKind(jobs, recovery)
  {
    OneLast([], job, recovery);
    assert [] + [job] == [job];
    OfKindDistributes([job], jobs, recovery);
  }

  lemma OneLast(jobs: seq<Job>, job: Job, recovery: bool)
    ensures OfKind(jobs + [job], recovery) == OfKind(jobs, recovery) + OneOfKind(job, recovery)
  {
    assert (jobs + [job])[..|jobs|] == jobs;
  }

  lemma BegunWithinBounds(lane: Lane, v: View, k: nat)
    requires WithinBounds(lane, v) && k < |v.waiting| && HasRoom(lane, |v.active|)
    ensures WithinBounds(lane, Begun(v, k))
  {
    MovedDistinct(v.active, v.waiting, k);
    WithoutOfKind(v.waiting, k, true);
    WithoutOfKind(v.waiting, k, false);
  }

  lemma PutBackWithinBounds(lane: Lane, v: View, k: nat, after: View)
    requires WithinBounds(lane, v) && k < |v.waiting| && after.active == v.active
    requires after.waiting == [v.waiting[k]] + Without(v.waiting, k)
    ensures WithinBounds(lane, after)
  {
    MovedDistinct(v.active, v.waiting, k);
    WithoutOfKind(v.waiting, k, true);
    WithoutOfKind(v.waiting, k, false);
    OneFirst(v.waiting[k], Without(v.waiting, k), true);
    OneFirst(v.waiting[k], Without(v.waiting, k), false);
  }

  lemma PumpedWithinBounds(lane: Lane, v: View, turn: Turn)
    requires WithinBounds(lane, v)
    ensures WithinBounds(lane, Pumped(lane, v, turn))
  {
    NextIsThere(v.waiting, turn.ready);
    var next := Next(v.waiting, turn.ready);
    if turn.open && HasRoom(lane, |v.active|) && next.Some? {
      BegunWithinBounds(lane, v, next.value);
      if !v.waiting[next.value].recovery && !Draws(lane, v.starts, turn.at) {
        PutBackWithinBounds(lane, v, next.value, Pumped(lane, v, turn));
      }
    }
  }

  lemma {:induction false} PumpedAllWithinBounds(lane: Lane, v: View, turns: seq<Turn>)
    requires WithinBounds(lane, v)
    ensures WithinBounds(lane, PumpedAll(lane, v, turns))
    decreases |turns|
  {
    if turns != [] {
      PumpedWithinBounds(lane, v, turns[0]);
      PumpedAllWithinBounds(lane, Pumped(lane, v, turns[0]), turns[1..]);
    }
  }

  lemma AdmittedWithinBounds(lane: Lane, v: View, request: Request)
    requires IsLane(lane) && WithinBounds(lane, v)
    ensures WithinBounds(lane, Admitted(lane, v, request))
  {
    if RefusalOf(lane, v, request).None? {
      AppendedDistinct(v.active, v.waiting, request.job);
      assert (v.waiting + [request.job])[..|v.waiting|] == v.waiting;
    }
  }

  lemma {:induction false} FinishedWithinBounds(lane: Lane, v: View)
    requires WithinBounds(lane, v)
    ensures WithinBounds(lane, Finished(lane, v))
    decreases |v.waiting|
  {
    NextIsThere(v.waiting, _ => true);
    var next := Next(v.waiting, _ => true);
    if HasRoom(lane, |v.active|) && next.Some? {
      BegunWithinBounds(lane, v, next.value);
      FinishedWithinBounds(lane, Begun(v, next.value));
    }
  }

  lemma SettledWithinBounds(lane: Lane, v: View, name: Name)
    requires WithinBounds(lane, v)
    ensures WithinBounds(lane, Settled(v, name))
  {
    IndexIsThere(v.active, name, 0);
    var k := PlaceOf(v.active, name, 0);
    if k.Some? { SettledNames(v.active, v.waiting, k.value); }
  }

  lemma {:induction false} FewerOfKind(waiting: seq<Job>, keeps: nat -> bool, recovery: bool)
    ensures |OfKind(Filtered(waiting, keeps), recovery)| <= |OfKind(waiting, recovery)|
  {
    if waiting != [] {
      var init, last := waiting[..|waiting| - 1], waiting[|waiting| - 1];
      FewerOfKind(init, keeps, recovery);
      var kept := Filtered(init, keeps);
      assert (kept + [last])[..|kept|] == kept && kept + [] == kept;
    }
  }

  lemma KeptWithinBounds(lane: Lane, v: View, keeps: nat -> bool)
    requires WithinBounds(lane, v)
    ensures WithinBounds(lane, Kept(v, keeps))
  {
    FilteredDistinct(v.active, v.waiting, keeps);
    FewerOfKind(v.waiting, keeps, true);
    FewerOfKind(v.waiting, keeps, false);
  }

  lemma AfterWithinBounds(lane: Lane, v: View, event: Event)
    requires IsLane(lane) && WithinBounds(lane, v)
    ensures WithinBounds(lane, After(lane, v, event))
  {
    match event
    case Requested(request) => AdmittedWithinBounds(lane, v, request);
    case Pumping(turns) => PumpedAllWithinBounds(lane, v, turns);
    case Settling(name) => SettledWithinBounds(lane, v, name);
    case Keeping(keeps) => KeptWithinBounds(lane, v, keeps);
    case Finishing => FinishedWithinBounds(lane, v);
  }

  lemma {:induction false} RunsWithinBounds(lane: Lane, v: View, events: seq<Event>)
    requires IsLane(lane) && WithinBounds(lane, v)
    ensures WithinBounds(lane, AfterAll(lane, v, events))
    decreases |events|
  {
    if events != [] {
      AfterWithinBounds(lane, v, events[0]);
      RunsWithinBounds(lane, After(lane, v, events[0]), events[1..]);
    }
  }

  /**
   * However requests, starts, settlements, drops and the last drain interleave, no lane runs more than its
   * concurrency, no two of its waiting or running requests share an identity, and neither kind of waiting
   * work outgrows the queue and the slots.
   */
  lemma LanesKeepTheirBounds(lane: Lane, events: seq<Event>)
    requires IsLane(lane)
    ensures WithinBounds(lane, AfterAll(lane, Empty(), events))
  {
    RunsWithinBounds(lane, Empty(), events);
  }

  // ----- Recovery work -----

  /**
   * Of what normal work waits, only one thing can cost a recovery request its place: a normal job of the same
   * effect and identity. Where `v`, with the same recovery work, admits the request, that alone refuses it.
   */
  lemma NormalWorkNeverRefusesRecovery(lane: Lane, v: View, other: View, request: Request)
    requires request.job.recovery && other.active == v.active && other.sequenced == v.sequenced
    requires OfKind(other.waiting, true) == OfKind(v.waiting, true) && RefusalOf(lane, v, request).None?
    ensures RefusalOf(lane, other, request).None? <==> !Holds(other.waiting, NameOf(request.job))
    ensures Holds(other.waiting, NameOf(request.job)) ==>
              RefusalOf(lane, other, request) == Some(AlreadyThere)
              && exists k :: 0 <= k < |other.waiting| && NameOf(other.waiting[k]) == NameOf(request.job) && !other.waiting[k].recovery
  {
    if Holds(other.waiting, NameOf(request.job)) {
      var k :| 0 <= k < |other.waiting| && NameOf(other.waiting[k]) == NameOf(request.job);
      if other.waiting[k].recovery {
        OfKindHolds(other.waiting, other.waiting[k]);
        OfKindHolds(v.waiting, other.waiting[k]);
        assert false;
      }
    }
  }

  lemma {:induction false} OfKindHolds(jobs: seq<Job>, job: Job)
    ensures job in OfKind(jobs, job.recovery) <==> job in jobs
  {
    if jobs != [] {
      OfKindHolds(jobs[..|jobs| - 1], job);
      assert jobs == jobs[..|jobs| - 1] + [jobs[|jobs| - 1]];
    }
  }

  /** A turn that starts a normal job found no waiting recovery job ready, and nothing starts unready. */
  lemma RecoveryStartsFirst(lane: Lane, v: View, turn: Turn)
    ensures var after := Pumped(lane, v, turn);
            after.active != v.active ==>
              && turn.open && |after.active| == |v.active| + 1
              && var job := after.active[|v.active|];
                 && job in v.waiting && turn.ready(job)
                 && (!job.recovery ==> forall k :: 0 <= k < |v.waiting| && v.waiting[k].recovery ==> !turn.ready(v.waiting[k]))
  {
    FirstReadyIsFirst(v.waiting, turn.ready, true, 0);
    FirstReadyIsFirst(v.waiting, turn.ready, false, 0);
    NextIsThere(v.waiting, turn.ready);
  }

  /** A ready recovery job starts in any free slot, however much of the budget is drawn. */
  lemma RecoveryNeverWaitsOnTheBudget(lane: Lane, v: View, turn: Turn, k: nat)
    requires turn.open && HasRoom(lane, |v.active|) && k < |v.waiting| && v.waiting[k].recovery && turn.ready(v.waiting[k])
    ensures |Pumped(lane, v, turn).active| == |v.active| + 1 && Pumped(lane, v, turn).active[|v.active|].recovery
    ensures Pumped(lane, v, turn).starts == v.starts
  {
    FirstReadyIsFirst(v.waiting, turn.ready, true, 0);
    NextIsThere(v.waiting, turn.ready);
  }

  // ----- First in, first out -----

  /** `part` is `whole` less some of its jobs, in the same order. */
  predicate OutOf(part: seq<Job>, whole: seq<Job>)
    decreases |whole|
  {
    || part == []
    || (whole != [] && part[|part| - 1] == whole[|whole| - 1] && OutOf(part[..|part| - 1], whole[..|whole| - 1]))
    || (whole != [] && OutOf(part, whole[..|whole| - 1]))
  }

  lemma {:induction false} AllOutOf(jobs: seq<Job>)
    ensures OutOf(jobs, jobs)
  {
    if jobs != [] { AllOutOf(jobs[..|jobs| - 1]); }
  }

  lemma OneMoreOutOf(part: seq<Job>, whole: seq<Job>, job: Job)
    requires OutOf(part, whole)
    ensures OutOf(part + [job], whole + [job]) && OutOf(part, whole + [job])
  {
    assert (part + [job])[..|part|] == part && (whole + [job])[..|whole|] == whole;
  }

  lemma OneMoreOfKind(part: seq<Job>, whole: seq<Job>, job: Job, recovery: bool)
    requires OutOf(part, whole)
    ensures OutOf(part + OneOfKind(job, recovery), whole + OneOfKind(job, recovery)) && OutOf(part, whole + OneOfKind(job, recovery))
  {
    OneMoreOutOf(part, whole, job);
    assert part + [] == part && whole + [] == whole;
  }

  lemma {:induction false} OutOfThrough(a: seq<Job>, b: seq<Job>, c: seq<Job>)
    requires OutOf(a, b) && OutOf(b, c)
    ensures OutOf(a, c)
    decreases |b| + |c|
  {
    if a != [] && b != [] && c != [] {
      var a', b', c' := a[..|a| - 1], b[..|b| - 1], c[..|c| - 1];
      if OutOf(b, c') {
        OutOfThrough(a, b, c');
      } else if OutOf(a, b') {
        OutOfThrough(a, b', c');
      } else {
        OutOfThrough(a', b', c');
      }
    }
  }

  lemma {:induction false} AfterSameOutOf(begun: seq<Job>, part: seq<Job>, whole: seq<Job>)
    requires OutOf(part, whole)
    ensures OutOf(begun + part, begun + whole)
    decreases |whole|
  {
    if part == [] {
      assert begun + part == begun;
      PrefixOutOf(begun, whole);
    } else {
      var part', whole' := part[..|part| - 1], whole[..|whole| - 1];
      assert begun + whole == (begun + whole') + [whole[|whole| - 1]];
      if OutOf(part, whole') {
        AfterSameOutOf(begun, part, whole');
        OneMoreOutOf(begun + part, begun + whole', whole[|whole| - 1]);
      } else {
        assert begun + part == (begun + part') + [part[|part| - 1]];
        AfterSameOutOf(begun, part', whole');
        OneMoreOutOf(begun + part', begun + whole', whole[|whole| - 1]);
      }
    }
  }

  lemma Appended(begun: seq<Job>, waiting: seq<Job>, one: seq<Job>)
    ensures begun + (waiting + one) == (begun + waiting) + one
  {
  }

  lemma {:induction false} PrefixOutOf(begun: seq<Job>, more: seq<Job>)
    ensures OutOf(begun, begun + more)
    decreases |more|
  {
    if more == [] {
      assert begun + more == begun;
      AllOutOf(begun);
    } else {
      var init, last := more[..|more| - 1], more[|more| - 1];
      PrefixOutOf(begun, init);
      OneMoreOutOf(begun, begun + init, last);
      assert more == init + [last];
      Appended(begun, init, [last]);
    }
  }

  lemma {:induction false} OutOfIsShorter(part: seq<Job>, whole: seq<Job>)
    requires OutOf(part, whole)
    ensures |part| <= |whole| && (|part| == |whole| ==> part == whole)
    decreases |whole|
  {
    if part != [] {
      if OutOf(part, whole[..|whole| - 1]) {
        OutOfIsShorter(part, whole[..|whole| - 1]);
      } else {
        OutOfIsShorter(part[..|part| - 1], whole[..|whole| - 1]);
      }
    }
  }

  lemma {:induction false} FilteredOutOf(waiting: seq<Job>, keeps: nat -> bool, recovery: bool)
    ensures OutOf(OfKind(Filtered(waiting, keeps), recovery), OfKind(waiting, recovery))
  {
    if waiting != [] {
      var init, last := waiting[..|waiting| - 1], waiting[|waiting| - 1];
      FilteredOutOf(init, keeps, recovery);
      OneMoreOfKind(OfKind(Filtered(init, keeps), recovery), OfKind(init, recovery), last, recovery);
      if keeps(last.effect) {
        OneLast(Filtered(init, keeps), last, recovery);
        assert Filtered(waiting, keeps) == Filtered(init, keeps) + [last];
      } else {
        assert Filtered(waiting, keeps) == Filtered(init, keeps);
      }
    }
  }

  /** What began of a kind, and then what waits of it. */
  function Line(v: View, recovery: bool): seq<Job> {
    OfKind(v.past.begun, recovery) + OfKind(v.waiting, recovery)
  }

  /** What began of a kind, and then what waits of it, is what was admitted less what was dropped, in order. */
  ghost predicate InOrder(v: View, recovery: bool) {
    OutOf(Line(v, recovery), OfKind(v.past.admitted, recovery))
  }

  ghost predicate FirstInFirstOut(v: View) {
    InOrder(v, true) && InOrder(v, false)
  }

  /** Whatever was admitted began, waits or was dropped, once. */
  ghost predicate Conserved(v: View) {
    multiset(v.past.admitted) == multiset(v.past.begun) + multiset(v.waiting) + multiset(v.past.dropped)
  }

  /** No effect on the lane makes its requests wait to be ready. */
  ghost predicate NeverUnready(event: Event) {
    event.Pumping? ==> forall t, job :: 0 <= t < |event.turns| ==> event.turns[t].ready(job)
  }

  lemma {:induction false} NoneBefore(waiting: seq<Job>, k: nat, recovery: bool)
    requires k <= |waiting| && forall a :: 0 <= a < k ==> waiting[a].recovery != recovery
    ensures OfKind(waiting[..k], recovery) == []
  {
    if k > 0 {
      assert waiting[..k][..k - 1] == waiting[..k - 1];
      NoneBefore(waiting, k - 1, recovery);
    }
  }

  /** With everything ready, the next job is the first of its kind. */
  lemma NextIsFirstOfKind(waiting: seq<Job>, ready: Job -> bool)
    requires forall job :: ready(job)
    ensures Next(waiting, ready).Some? ==>
              var k := Next(waiting, ready).value;
              k < |waiting| && OfKind(waiting[..k], waiting[k].recovery) == []
    ensures Next(waiting, ready).None? ==> waiting == []
  {
    FirstReadyIsFirst(waiting, ready, true, 0);
    FirstReadyIsFirst(waiting, ready, false, 0);
    var next := Next(waiting, ready);
    if next.Some? { NoneBefore(waiting, next.value, waiting[next.value].recovery); }
    if next.None? && waiting != [] { assert waiting[0].recovery || !waiting[0].recovery; }
  }

  lemma BegunInOrder(v: View, k: nat, recovery: bool)
    requires InOrder(v, recovery) && k < |v.waiting| && OfKind(v.waiting[..k], v.waiting[k].recovery) == []
    ensures InOrder(Begun(v, k), recovery) && Line(Begun(v, k), recovery) == Line(v, recovery)
  {
    WithoutOfKind(v.waiting, k, recovery);
    OneLast(v.past.begun, v.waiting[k], recovery);
    Moved(OfKind(v.past.begun, recovery), OfKind(v.waiting[..k], recovery), OneOfKind(v.waiting[k], recovery), OfKind(v.waiting[k + 1..], recovery));
  }

  lemma Moved(begun: seq<Job>, before: seq<Job>, one: seq<Job>, after: seq<Job>)
    requires before == [] || one == []
    ensures begun + (before + (one + after)) == (begun + one) + (before + after)
    ensures before + (one + after) == one + (before + after)
  {
  }

  lemma PutBackInOrder(v: View, k: nat, after: View, recovery: bool)
    requires InOrder(v, recovery) && k < |v.waiting| && OfKind(v.waiting[..k], v.waiting[k].recovery) == []
    requires after.waiting == [v.waiting[k]] + Without(v.waiting, k)
    requires after.past.begun == v.past.begun && after.past.admitted == v.past.admitted
    ensures InOrder(after, recovery)
  {
    WithoutOfKind(v.waiting, k, recovery);
    OneFirst(v.waiting[k], Without(v.waiting, k), recovery);
    Moved([], OfKind(v.waiting[..k], recovery), OneOfKind(v.waiting[k], recovery), OfKind(v.waiting[k + 1..], recovery));
  }

  lemma PumpedInOrder(lane: Lane, v: View, turn: Turn)
    requires FirstInFirstOut(v) && forall job :: turn.ready(job)
    ensures FirstInFirstOut(Pumped(lane, v, turn))
  {
    NextIsFirstOfKind(v.waiting, turn.ready);
    var next := Next(v.waiting, turn.ready);
    if turn.open && HasRoom(lane, |v.active|) && next.Some? {
      var k := next.value;
      BegunInOrder(v, k, true);
      BegunInOrder(v, k, false);
      if !v.waiting[k].recovery && !Draws(lane, v.starts, turn.at) {
        PutBackInOrder(v, k, Pumped(lane, v, turn), true);
        PutBackInOrder(v, k, Pumped(lane, v, turn), false);
      }
    }
  }

  lemma {:induction false} PumpedAllInOrder(lane: Lane, v: View, turns: seq<Turn>)
    requires FirstInFirstOut(v) && forall t, job :: 0 <= t < |turns| ==> turns[t].ready(job)
    ensures FirstInFirstOut(PumpedAll(lane, v, turns))
    decreases |turns|
  {
    if turns != [] {
      PumpedInOrder(lane, v, turns[0]);
      forall t, job | 0 <= t < |turns[1..]| ensures turns[1..][t].ready(job) { assert turns[1..][t] == turns[t + 1]; }
      PumpedAllInOrder(lane, Pumped(lane, v, turns[0]), turns[1..]);
    }
  }

  lemma {:induction false} FinishedInOrder(lane: Lane, v: View)
    requires FirstInFirstOut(v)
    ensures FirstInFirstOut(Finished(lane, v))
    decreases |v.waiting|
  {
    NextIsFirstOfKind(v.waiting, _ => true);
    NextIsThere(v.waiting, _ => true);
    var next := Next(v.waiting, _ => true);
    if HasRoom(lane, |v.active|) && next.Some? {
      BegunInOrder(v, next.value, true);
      BegunInOrder(v, next.value, false);
      FinishedInOrder(lane, Begun(v, next.value));
    }
  }

  lemma AppendedInOrder(v: View, job: Job, after: View, recovery: bool)
    requires InOrder(v, recovery) && after.waiting == v.waiting + [job]
    requires after.past.admitted == v.past.admitted + [job] && after.past.begun == v.past.begun
    ensures InOrder(after, recovery)
  {
    OneLast(v.waiting, job, recovery);
    OneLast(v.past.admitted, job, recovery);
    OneMoreOfKind(Line(v, recovery), OfKind(v.past.admitted, recovery), job, recovery);
    Appended(OfKind(v.past.begun, recovery), OfKind(v.waiting, recovery), OneOfKind(job, recovery));
  }

  lemma KeptInOrder(v: View, keeps: nat -> bool, recovery: bool)
    requires InOrder(v, recovery)
    ensures InOrder(Kept(v, keeps), recovery)
  {
    FilteredOutOf(v.waiting, keeps, recovery);
    AfterSameOutOf(OfKind(v.past.begun, recovery), OfKind(Filtered(v.waiting, keeps), recovery), OfKind(v.waiting, recovery));
    OutOfThrough(Line(Kept(v, keeps), recovery), Line(v, recovery), OfKind(v.past.admitted, recovery));
  }

  lemma AfterInOrder(lane: Lane, v: View, event: Event)
    requires FirstInFirstOut(v) && NeverUnready(event)
    ensures FirstInFirstOut(After(lane, v, event))
  {
    match event
    case Requested(request) =>
      if RefusalOf(lane, v, request).None? {
        AppendedInOrder(v, request.job, After(lane, v, event), true);
        AppendedInOrder(v, request.job, After(lane, v, event), false);
      }
    case Pumping(turns) => PumpedAllInOrder(lane, v, turns);
    case Settling(name) =>
    case Keeping(keeps) =>
      KeptInOrder(v, keeps, true);
      KeptInOrder(v, keeps, false);
    case Finishing => FinishedInOrder(lane, v);
  }

  lemma {:induction false} RunsInOrder(lane: Lane, v: View, events: seq<Event>)
    requires FirstInFirstOut(v) && forall k :: 0 <= k < |events| ==> NeverUnready(events[k])
    ensures FirstInFirstOut(AfterAll(lane, v, events))
    decreases |events|
  {
    if events != [] {
      AfterInOrder(lane, v, events[0]);
      RunsInOrder(lane, After(lane, v, events[0]), events[1..]);
    }
  }

  // ----- Nothing is lost or started twice -----

  lemma BegunConserves(v: View, k: nat)
    requires Conserved(v) && k < |v.waiting|
    ensures Conserved(Begun(v, k))
    ensures multiset([v.waiting[k]] + Without(v.waiting, k)) == multiset(v.waiting)
  {
    assert v.waiting == v.waiting[..k] + [v.waiting[k]] + v.waiting[k + 1..];
  }

  lemma PumpedConserves(lane: Lane, v: View, turn: Turn)
    requires Conserved(v)
    ensures Conserved(Pumped(lane, v, turn))
  {
    NextIsThere(v.waiting, turn.ready);
    var next := Next(v.waiting, turn.ready);
    if next.Some? { BegunConserves(v, next.value); }
  }

  lemma {:induction false} PumpedAllConserves(lane: Lane, v: View, turns: seq<Turn>)
    requires Conserved(v)
    ensures Conserved(PumpedAll(lane, v, turns))
    decreases |turns|
  {
    if turns != [] {
      PumpedConserves(lane, v, turns[0]);
      PumpedAllConserves(lane, Pumped(lane, v, turns[0]), turns[1..]);
    }
  }

  lemma {:induction false} FinishedConserves(lane: Lane, v: View)
    requires Conserved(v)
    ensures Conserved(Finished(lane, v))
    decreases |v.waiting|
  {
    NextIsThere(v.waiting, _ => true);
    var next := Next(v.waiting, _ => true);
    if HasRoom(lane, |v.active|) && next.Some? {
      BegunConserves(v, next.value);
      FinishedConserves(lane, Begun(v, next.value));
    }
  }

  lemma {:induction false} FilteredSplits(jobs: seq<Job>, keeps: nat -> bool)
    ensures multiset(jobs) == multiset(Filtered(jobs, keeps)) + multiset(Filtered(jobs, Others(keeps)))
  {
    if jobs != [] {
      FilteredSplits(jobs[..|jobs| - 1], keeps);
      assert jobs == jobs[..|jobs| - 1] + [jobs[|jobs| - 1]];
    }
  }

  lemma AfterConserves(lane: Lane, v: View, event: Event)
    requires Conserved(v)
    ensures Conserved(After(lane, v, event))
  {
    match event
    case Requested(request) =>
    case Pumping(turns) => PumpedAllConserves(lane, v, turns);
    case Settling(name) =>
    case Keeping(keeps) => FilteredSplits(v.waiting, keeps);
    case Finishing => FinishedConserves(lane, v);
  }

  lemma {:induction false} RunsConserve(lane: Lane, v: View, events: seq<Event>)
    requires Conserved(v)
    ensures Conserved(AfterAll(lane, v, events))
    decreases |events|
  {
    if events != [] {
      AfterConserves(lane, v, events[0]);
      RunsConserve(lane, After(lane, v, events[0]), events[1..]);
    }
  }

  lemma {:induction false} KindsAddUp(jobs: seq<Job>)
    ensures |OfKind(jobs, true)| + |OfKind(jobs, false)| == |jobs|
  {
    if jobs != [] { KindsAddUp(jobs[..|jobs| - 1]); }
  }

  /**
   * Over any run, whatever a lane admitted began, waits or was dropped, and once. When no effect on it waits
   * to be ready, work of each kind begins in the order it was admitted, though a budget puts a job it refuses
   * back at the front of the line: what began, and then what waits, is what was admitted less what was
   * dropped, and all of it when nothing was.
   */
  lemma LanesStartInOrder(lane: Lane, events: seq<Event>)
    ensures Conserved(AfterAll(lane, Empty(), events))
    ensures (forall k :: 0 <= k < |events| ==> NeverUnready(events[k])) ==> FirstInFirstOut(AfterAll(lane, Empty(), events))
    ensures (forall k :: 0 <= k < |events| ==> NeverUnready(events[k])) && AfterAll(lane, Empty(), events).past.dropped == [] ==>
              forall recovery :: Line(AfterAll(lane, Empty(), events), recovery) == OfKind(AfterAll(lane, Empty(), events).past.admitted, recovery)
  {
    RunsConserve(lane, Empty(), events);
    if forall k :: 0 <= k < |events| ==> NeverUnready(events[k]) {
      RunsInOrder(lane, Empty(), events);
      if AfterAll(lane, Empty(), events).past.dropped == [] { NothingDroppedAllInOrder(AfterAll(lane, Empty(), events)); }
    }
  }

  lemma NothingDroppedAllInOrder(v: View)
    requires Conserved(v) && FirstInFirstOut(v) && v.past.dropped == []
    ensures forall recovery :: Line(v, recovery) == OfKind(v.past.admitted, recovery)
  {
    assert |v.past.admitted| == |v.past.begun| + |v.waiting| by {
      assert |multiset(v.past.admitted)| == |multiset(v.past.begun) + multiset(v.waiting) + multiset(v.past.dropped)|;
    }
    KindsAddUp(v.past.admitted);
    KindsAddUp(v.past.begun);
    KindsAddUp(v.waiting);
    OutOfIsShorter(Line(v, true), OfKind(v.past.admitted, true));
    OutOfIsShorter(Line(v, false), OfKind(v.past.admitted, false));
    forall recovery: bool ensures Line(v, recovery) == OfKind(v.past.admitted, recovery) {
      if recovery {} else {}
    }
  }

  // ----- A lane knows only what it was asked -----

  predicate IsRequestOf(event: Event, job: Job) {
    event.Requested? && event.request.job == job
  }

  predicate IsMarkOf(event: Event, effect: nat, mark: int) {
    event.Requested? && event.request.job.effect == effect && event.request.position == Some(mark)
  }

  predicate Has(v: View, job: Job) {
    job in v.active || job in v.waiting
  }

  /** Every job `v` holds, and every mark it keeps, came in a request among `events`. */
  ghost predicate KnowsOnly(v: View, events: seq<Event>) {
    && (forall job :: Has(v, job) ==> exists k :: 0 <= k < |events| && IsRequestOf(events[k], job))
    && (forall effect :: effect in v.sequenced ==> exists k :: 0 <= k < |events| && IsMarkOf(events[k], effect, v.sequenced[effect]))
  }

  /** `after` holds no job and no mark that `v` does not. */
  ghost predicate NothingNew(v: View, after: View) {
    after.sequenced == v.sequenced && forall job :: Has(after, job) ==> Has(v, job)
  }

  lemma BegunNothingNew(v: View, k: nat)
    requires k < |v.waiting|
    ensures NothingNew(v, Begun(v, k))
  {
  }

  lemma PumpedNothingNew(lane: Lane, v: View, turn: Turn)
    ensures NothingNew(v, Pumped(lane, v, turn))
  {
    NextIsThere(v.waiting, turn.ready);
  }

  lemma {:induction false} PumpedAllNothingNew(lane: Lane, v: View, turns: seq<Turn>)
    ensures NothingNew(v, PumpedAll(lane, v, turns))
    decreases |turns|
  {
    if turns != [] {
      PumpedNothingNew(lane, v, turns[0]);
      PumpedAllNothingNew(lane, Pumped(lane, v, turns[0]), turns[1..]);
    }
  }

  lemma {:induction false} FinishedNothingNew(lane: Lane, v: View)
    ensures NothingNew(v, Finished(lane, v))
    decreases |v.waiting|
  {
    NextIsThere(v.waiting, _ => true);
    var next := Next(v.waiting, _ => true);
    if HasRoom(lane, |v.active|) && next.Some? {
      BegunNothingNew(v, next.value);
      FinishedNothingNew(lane, Begun(v, next.value));
    }
  }

  lemma {:induction false} FilteredAreThere(jobs: seq<Job>, keeps: nat -> bool)
    ensures forall job :: job in Filtered(jobs, keeps) ==> job in jobs
  {
    if jobs != [] {
      FilteredAreThere(jobs[..|jobs| - 1], keeps);
      assert jobs == jobs[..|jobs| - 1] + [jobs[|jobs| - 1]];
    }
  }

  lemma AfterKnowsOnly(lane: Lane, v: View, before: seq<Event>, event: Event)
    requires KnowsOnly(v, before)
    ensures KnowsOnly(After(lane, v, event), before + [event])
  {
    var after, events := After(lane, v, event), before + [event];
    assert events[|before|] == event;
    match event {
      case Requested(request) =>
      case Pumping(turns) => PumpedAllNothingNew(lane, v, turns);
      case Settling(name) => IndexIsThere(v.active, name, 0);
      case Keeping(keeps) => FilteredAreThere(v.waiting, keeps);
      case Finishing => FinishedNothingNew(lane, v);
    }
    forall job | Has(after, job) ensures exists k :: 0 <= k < |events| && IsRequestOf(events[k], job) {
      if Has(v, job) {
        var k :| 0 <= k < |before| && IsRequestOf(before[k], job);
        assert IsRequestOf(events[k], job);
      } else {
        assert IsRequestOf(events[|before|], job);
      }
    }
    forall effect | effect in after.sequenced ensures exists k :: 0 <= k < |events| && IsMarkOf(events[k], effect, after.sequenced[effect]) {
      if effect in v.sequenced && after.sequenced[effect] == v.sequenced[effect] {
        var k :| 0 <= k < |before| && IsMarkOf(before[k], effect, v.sequenced[effect]);
        assert IsMarkOf(events[k], effect, v.sequenced[effect]);
      } else {
        assert IsMarkOf(events[|before|], effect, after.sequenced[effect]);
      }
    }
  }

  lemma {:induction false} RunsKnowOnly(lane: Lane, v: View, before: seq<Event>, events: seq<Event>)
    requires KnowsOnly(v, before)
    ensures KnowsOnly(AfterAll(lane, v, events), before + events)
    decreases |events|
  {
    if events == [] {
      assert before + events == before;
    } else {
      AfterKnowsOnly(lane, v, before, events[0]);
      RunsKnowOnly(lane, After(lane, v, events[0]), before + [events[0]], events[1..]);
      assert before + [events[0]] + events[1..] == before + events;
    }
  }

  /** Whatever a lane has been through, each job it holds and each mark it keeps came in one of its requests. */
  lemma LanesKnowOnlyRequests(lane: Lane, events: seq<Event>)
    ensures KnowsOnly(AfterAll(lane, Empty(), events), events)
  {
    RunsKnowOnly(lane, Empty(), [], events);
    assert [] + events == events;
  }

  // ----- The call budget -----

  function InWindow(drawn: seq<int>, from: int, perMs: int): nat {
    if drawn == [] then 0 else (if from <= drawn[0] < from + perMs then 1 else 0) + InWindow(drawn[1..], from, perMs)
  }

  /** The clock never runs backwards, from `clock` on. */
  ghost predicate Forward(turns: seq<Turn>, clock: int) {
    && (forall t :: 0 <= t < |turns| ==> clock <= turns[t].at)
    && (forall t, u :: 0 <= t < u < |turns| ==> turns[t].at <= turns[u].at)
  }

  /** Any start and the one `calls` after it are a window apart. */
  ghost predicate Spaced(drawn: seq<int>, budget: Budget)
    requires budget.calls > 0
  {
    && (forall a, b :: 0 <= a < b < |drawn| ==> drawn[a] <= drawn[b])
    && (forall a :: 0 <= a < |drawn| - budget.calls ==> drawn[a + budget.calls] - drawn[a] >= budget.perMs)
  }

  /** What the lane remembers of its starts is the last of them, and what it forgot is out of every window from now on. */
  ghost predicate Budgeted(v: View, budget: Budget)
    requires budget.calls > 0
  {
    |v.starts| <= budget.calls && Remembers(v.past.drawn, v.starts, v.past.clock, budget.perMs) && Spaced(v.past.drawn, budget)
  }

  ghost predicate Remembers(drawn: seq<int>, starts: seq<int>, clock: int, perMs: int) {
    && |starts| <= |drawn| && drawn[|drawn| - |starts|..] == starts
    && (forall a :: 0 <= a < |drawn| - |starts| ==> clock - drawn[a] >= perMs)
    && (forall a :: 0 <= a < |drawn| ==> drawn[a] <= clock)
  }

  lemma {:induction false} DroppedAreOld(starts: seq<int>, at: int, perMs: int)
    ensures |Dropped(starts, at, perMs)| <= |starts|
    ensures var n := |starts| - |Dropped(starts, at, perMs)|;
            starts[n..] == Dropped(starts, at, perMs) && forall a :: 0 <= a < n ==> at - starts[a] >= perMs
  {
    if starts != [] && at - starts[0] >= perMs {
      DroppedAreOld(starts[1..], at, perMs);
      var n := |starts| - |Dropped(starts, at, perMs)|;
      assert starts[1..][n - 1..] == starts[n..];
      forall a | 0 <= a < n ensures at - starts[a] >= perMs { if a > 0 { assert starts[a] == starts[1..][a - 1]; } }
    }
  }

  /** Of all that was drawn, what a draw at `at` still remembers is the end; the rest is a window old by then. */
  lemma DroppingRemembers(drawn: seq<int>, starts: seq<int>, clock: int, perMs: int, at: int)
    requires Remembers(drawn, starts, clock, perMs) && clock <= at
    ensures |Dropped(starts, at, perMs)| <= |starts| && Remembers(drawn, Dropped(starts, at, perMs), at, perMs)
  {
    DroppedAreOld(starts, at, perMs);
    var left, before := Dropped(starts, at, perMs), |drawn| - |starts|;
    assert drawn[|drawn| - |left|..] == drawn[before..][|starts| - |left|..];
    forall a | 0 <= a < |drawn| - |left| ensures at - drawn[a] >= perMs {
      if a >= before { assert drawn[a] == starts[a - before]; }
    }
  }

  lemma DrawingRemembers(drawn: seq<int>, left: seq<int>, at: int, perMs: int)
    requires Remembers(drawn, left, at, perMs)
    ensures Remembers(drawn + [at], left + [at], at, perMs)
  {
    assert (drawn + [at])[|drawn| - |left|..] == drawn[|drawn| - |left|..] + [at];
  }

  lemma DrawingSpaced(drawn: seq<int>, left: seq<int>, at: int, budget: Budget)
    requires budget.calls > 0 && Spaced(drawn, budget) && Remembers(drawn, left, at, budget.perMs) && |left| < budget.calls
    ensures Spaced(drawn + [at], budget)
  {
    var next := drawn + [at];
    forall a | 0 <= a < |next| - budget.calls ensures next[a + budget.calls] - next[a] >= budget.perMs {
      if a + budget.calls < |drawn| { assert drawn[a + budget.calls] - drawn[a] >= budget.perMs; }
    }
  }

  lemma DrawnBudgeted(v: View, budget: Budget, at: int, after: View)
    requires budget.calls > 0 && Budgeted(v, budget) && v.past.clock <= at
    requires after.past.clock == at
    requires var left := Dropped(v.starts, at, budget.perMs);
             if |left| < budget.calls then after.starts == left + [at] && after.past.drawn == v.past.drawn + [at]
             else after.starts == left && after.past.drawn == v.past.drawn
    ensures Budgeted(after, budget)
  {
    var left := Dropped(v.starts, at, budget.perMs);
    DroppingRemembers(v.past.drawn, v.starts, v.past.clock, budget.perMs, at);
    if |left| < budget.calls {
      DrawingRemembers(v.past.drawn, left, at, budget.perMs);
      DrawingSpaced(v.past.drawn, left, at, budget);
    }
  }

  lemma PumpedBudgeted(lane: Lane, v: View, turn: Turn)
    requires IsLane(lane) && lane.budget.Some? && Budgeted(v, lane.budget.value) && v.past.clock <= turn.at
    ensures Budgeted(Pumped(lane, v, turn), lane.budget.value)
    ensures Pumped(lane, v, turn).past.clock <= turn.at
  {
    NextIsThere(v.waiting, turn.ready);
    var next := Next(v.waiting, turn.ready);
    if turn.open && HasRoom(lane, |v.active|) && next.Some? && !v.waiting[next.value].recovery {
      DrawnBudgeted(v, lane.budget.value, turn.at, Pumped(lane, v, turn));
    }
  }

  lemma {:induction false} PumpedAllBudgeted(lane: Lane, v: View, turns: seq<Turn>)
    requires IsLane(lane) && lane.budget.Some? && Budgeted(v, lane.budget.value) && Forward(turns, v.past.clock)
    ensures Budgeted(PumpedAll(lane, v, turns), lane.budget.value)
    decreases |turns|
  {
    if turns != [] {
      PumpedBudgeted(lane, v, turns[0]);
      PumpedAllBudgeted(lane, Pumped(lane, v, turns[0]), turns[1..]);
    }
  }

  lemma {:induction false} FinishedSamePast(lane: Lane, v: View)
    ensures Finished(lane, v).starts == v.starts && Finished(lane, v).past.drawn == v.past.drawn && Finished(lane, v).past.clock == v.past.clock
    decreases |v.waiting|
  {
    NextIsThere(v.waiting, _ => true);
    var next := Next(v.waiting, _ => true);
    if HasRoom(lane, |v.active|) && next.Some? { FinishedSamePast(lane, Begun(v, next.value)); }
  }

  ghost predicate Timely(lane: Lane, v: View, events: seq<Event>)
    decreases |events|
  {
    events != [] ==>
      && (events[0].Pumping? ==> Forward(events[0].turns, v.past.clock))
      && Timely(lane, After(lane, v, events[0]), events[1..])
  }

  lemma {:induction false} RunsBudgeted(lane: Lane, v: View, events: seq<Event>)
    requires IsLane(lane) && lane.budget.Some? && Budgeted(v, lane.budget.value) && Timely(lane, v, events)
    ensures Budgeted(AfterAll(lane, v, events), lane.budget.value)
    decreases |events|
  {
    if events != [] {
      if events[0].Pumping? { PumpedAllBudgeted(lane, v, events[0].turns); }
      if events[0].Finishing? { FinishedSamePast(lane, v); }
      RunsBudgeted(lane, After(lane, v, events[0]), events[1..]);
    }
  }

  lemma {:induction false} NoneInWindow(drawn: seq<int>, from: int, perMs: int)
    requires forall a :: 0 <= a < |drawn| ==> drawn[a] >= from + perMs
    ensures InWindow(drawn, from, perMs) == 0
  {
    if drawn != [] { NoneInWindow(drawn[1..], from, perMs); }
  }

  lemma {:induction false} WindowAtMost(drawn: seq<int>, from: int, perMs: int, calls: nat)
    requires forall a :: calls <= a < |drawn| ==> drawn[a] >= from + perMs
    ensures InWindow(drawn, from, perMs) <= calls
  {
    if calls == 0 {
      NoneInWindow(drawn, from, perMs);
    } else if drawn != [] {
      WindowAtMost(drawn[1..], from, perMs, calls - 1);
    }
  }

  lemma {:induction false} SpacedWindows(drawn: seq<int>, budget: Budget, from: int)
    requires budget.calls > 0 && Spaced(drawn, budget)
    ensures InWindow(drawn, from, budget.perMs) <= budget.calls
  {
    if drawn != [] {
      if drawn[0] < from {
        assert Spaced(drawn[1..], budget) by {
          forall a | 0 <= a < |drawn[1..]| - budget.calls ensures drawn[1..][a + budget.calls] - drawn[1..][a] >= budget.perMs {
            assert drawn[a + 1 + budget.calls] - drawn[a + 1] >= budget.perMs;
          }
        }
        SpacedWindows(drawn[1..], budget, from);
      } else {
        forall a | budget.calls <= a < |drawn| ensures drawn[a] >= from + budget.perMs {
          assert drawn[0 + budget.calls] - drawn[0] >= budget.perMs;
        }
        WindowAtMost(drawn, from, budget.perMs, budget.calls);
      }
    }
  }

  /**
   * With a clock that never runs backwards, at most `calls` normal starts the pump makes fall in any window
   * of `perMs`, wherever it begins.
   */
  lemma LanesKeepTheirBudget(lane: Lane, events: seq<Event>, from: int)
    requires IsLane(lane) && lane.budget.Some? && Timely(lane, Empty(), events)
    ensures InWindow(AfterAll(lane, Empty(), events).past.drawn, from, lane.budget.value.perMs) <= lane.budget.value.calls
  {
    RunsBudgeted(lane, Empty(), events);
    SpacedWindows(AfterAll(lane, Empty(), events).past.drawn, lane.budget.value, from);
  }
}
