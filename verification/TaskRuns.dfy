/** What a task family promises over whole runs: what it submits, what it holds, and how it numbers what it asks. */
module TaskRuns {
  import opened Basics
  import opened DataValues
  import opened KeyedLevels
  import opened Intents
  import opened TaskEntries
  import opened Backoff
  import opened Orders
  import opened Acts
  import opened Families

  // ----- Drafts -----

  /** No key is preparing, ready and submitted at once, and every reservation is counted. */
  ghost predicate Sane(d: Draft, reserved: nat) {
    && d.preparing.Keys !! d.ready.Keys && d.preparing.Keys !! d.submitted.Keys && d.ready.Keys !! d.submitted.Keys
    && d.numReservations == reserved + |d.submitted|
    && forall key :: key in d.ready ==> !d.ready[key].asked.isVoid
  }

  function Load(d: Draft): nat {
    d.numReservations + |d.preparing| + |d.ready|
  }

  function ReservedBy(family: Family): nat {
    if family.view.Some? then family.view.value.numReservations else 0
  }

  function NumberOf(e: Emitted): Option<nat> {
    match e
    case Asked(request) => Some(request.number)
    case Submitted(_, number, _, _, _) => Some(number)
    case _ => None
  }

  /** What was numbered was numbered upwards, from `from` and below `to`. */
  ghost predicate Numbered(list: seq<Emitted>, from: nat, to: nat) {
    && from <= to
    && (forall a :: 0 <= a < |list| && NumberOf(list[a]).Some? ==> from <= NumberOf(list[a]).value < to)
    && (forall a, b :: 0 <= a < b < |list| && NumberOf(list[a]).Some? && NumberOf(list[b]).Some? ==>
          NumberOf(list[a]).value < NumberOf(list[b]).value)
  }

  lemma NumberedInTwo(a: seq<Emitted>, b: seq<Emitted>, from: nat, mid: nat, to: nat)
    requires Numbered(a, from, mid) && Numbered(b, mid, to)
    ensures Numbered(a + b, from, to)
  {
  }

  lemma NumberedOneMore(list: seq<Emitted>, e: Emitted, from: nat, to: nat)
    requires Numbered(list, from, to)
    ensures NumberOf(e).None? ==> Numbered(list + [e], from, to)
    ensures NumberOf(e) == Some(to) ==> Numbered(list + [e], from, to + 1)
  {
  }

  // ----- Screening -----

  /** What screening may change of a draft: it voids, drops and reports, and does nothing else. */
  ghost predicate OnlyScreened(d: Draft, after: Draft) {
    && after.submitted == d.submitted && after.issued == d.issued && after.served == d.served
    && after.numReservations == d.numReservations && after.preparing.Keys == d.preparing.Keys
    && (forall key :: key in d.preparing ==> after.preparing[key] == d.preparing[key].(isVoid := after.preparing[key].isVoid))
    && (forall key :: key in after.ready ==> key in d.ready && after.ready[key] == d.ready[key])
    && d.emitted <= after.emitted
    && (forall e :: d.emitted <= after.emitted && e in after.emitted[|d.emitted|..] ==> e.Dropped? || e.Rejected?)
  }

  lemma ScreenedInTwo(a: Draft, b: Draft, c: Draft)
    requires OnlyScreened(a, b) && OnlyScreened(b, c)
    ensures OnlyScreened(a, c)
  {
    var more, most := b.emitted[|a.emitted|..], c.emitted[|b.emitted|..];
    assert c.emitted[|a.emitted|..] == more + most;
  }

  lemma NormalizingOneScreens(family: Family, wanted: map<string, Wanted>, d: Draft, key: string)
    ensures OnlyScreened(d, NormalizedOne(family, wanted, d, key)) && NormalizedOne(family, wanted, d, key).ready == d.ready
  {
  }

  lemma {:induction false} NormalizingScreens(family: Family, wanted: map<string, Wanted>, d: Draft, keys: seq<string>)
    ensures OnlyScreened(d, Normalized(family, wanted, d, keys)) && Normalized(family, wanted, d, keys).ready == d.ready
    decreases |keys|
  {
    if keys != [] {
      var before := Normalized(family, wanted, d, keys[..|keys| - 1]);
      NormalizingScreens(family, wanted, d, keys[..|keys| - 1]);
      NormalizingOneScreens(family, wanted, before, keys[|keys| - 1]);
      ScreenedInTwo(d, before, Normalized(family, wanted, d, keys));
    }
  }

  /** A key whose policy return is refused has its outstanding preparation voided, and no other key has. */
  lemma {:induction false} NormalizingVoids(family: Family, wanted: map<string, Wanted>, d: Draft, keys: seq<string>, key: string)
    requires key in d.preparing
    ensures key in Normalized(family, wanted, d, keys).preparing
    ensures Normalized(family, wanted, d, keys).preparing[key]
            == if key in keys && key in wanted && wanted[key].RejectedFor? then d.preparing[key].(isVoid := true) else d.preparing[key]
    decreases |keys|
  {
    if keys != [] {
      var init, last := keys[..|keys| - 1], keys[|keys| - 1];
      assert keys == init + [last];
      NormalizingVoids(family, wanted, d, init, key);
    }
  }

  lemma HoldingOneScreens(wanted: map<string, Wanted>, now: int, d: Draft, key: string)
    ensures OnlyScreened(d, HeldOne(wanted, now, d, key)) && HeldOne(wanted, now, d, key).preparing == d.preparing
  {
  }

  /** A ready act is kept exactly when it still holds and its key still wants that task with those conflicts. */
  lemma {:induction false} HoldingKeeps(wanted: map<string, Wanted>, now: int, d: Draft, keys: seq<string>)
    ensures OnlyScreened(d, Held(wanted, now, d, keys)) && Held(wanted, now, d, keys).preparing == d.preparing
    ensures forall key :: key in keys ==>
              (key in Held(wanted, now, d, keys).ready <==> key in d.ready && HeldDrop(d.ready[key], WantAt(wanted, key), now).None?)
    ensures forall key :: key in d.ready && key !in keys ==> key in Held(wanted, now, d, keys).ready
    decreases |keys|
  {
    if keys != [] {
      var init, last := keys[..|keys| - 1], keys[|keys| - 1];
      var before := Held(wanted, now, d, init);
      assert keys == init + [last];
      HoldingKeeps(wanted, now, d, init);
      HoldingOneScreens(wanted, now, before, last);
      ScreenedInTwo(d, before, Held(wanted, now, d, keys));
      assert last in before.ready ==> before.ready[last] == d.ready[last];
    }
  }

  lemma {:induction false} ScreeningNumbers(d: Draft, after: Draft, list: seq<Emitted>, from: nat)
    requires OnlyScreened(d, after) && Numbered(d.emitted, from, d.issued) && list <= after.emitted && d.emitted <= list
    ensures Numbered(list, from, d.issued)
    decreases |list|
  {
    if |list| > |d.emitted| {
      var init, last := list[..|list| - 1], list[|list| - 1];
      assert last == after.emitted[|d.emitted|..][|list| - 1 - |d.emitted|];
      assert last in after.emitted[|d.emitted|..];
      ScreeningNumbers(d, after, init, from);
      NumberedOneMore(init, last, from, d.issued);
      assert list == init + [last];
    }
  }

  lemma FewerReady(a: map<string, Ready>, b: map<string, Ready>)
    requires forall key :: key in b ==> key in a
    ensures |b| <= |a|
  {
    Fewer(b.Keys, a.Keys);
    assert |a| == |a.Keys| && |b| == |b.Keys|;
  }

  lemma {:induction false} Fewer(a: set<string>, b: set<string>)
    requires a <= b
    ensures |a| <= |b|
    decreases a
  {
    if a != {} {
      var x :| x in a;
      Fewer(a - {x}, b - {x});
    }
  }

  lemma ScreeningKeepsSane(d: Draft, after: Draft, reserved: nat)
    requires Sane(d, reserved) && OnlyScreened(d, after)
    ensures Sane(after, reserved) && Load(after) <= Load(d) && |after.preparing| == |d.preparing|
  {
    FewerReady(d.ready, after.ready);
    assert |after.preparing| == |after.preparing.Keys| && |d.preparing| == |d.preparing.Keys|;
  }

  // ----- Submitting -----

  /** Everything an act going to the kernel rests on, as the family stands when it decides. */
  ghost predicate SafeSubmit(o: Options, family: Family, now: int, e: Emitted)
    requires e.Submitted?
  {
    var wanted := WantedBy(o, family);
    && family.view.Some? && family.view.value.acceptingNewWork
    && e.key !in family.view.value.busy && e.key !in family.submitted
    && e.key in family.ready
    && var ready := family.ready[e.key];
       && e.key in wanted && wanted[e.key].Wants?
       && wanted[e.key].task.name == ready.asked.task && SameConflicts(wanted[e.key].task.conflicts, ready.asked.conflicts)
       && e.priority == wanted[e.key].task.priority
       && !BackedOff(family, e.key, ready.asked.task)
       && FactOf(family.facts, e.key).Ok? && FactOf(family.facts, e.key).value.Some?
       && FactOf(family.facts, e.key).value.value.version == ready.asked.reading.version
       && ready.asked.reading.expiry.Some? && now < ready.asked.reading.expiry.value && now < ready.validUntil
       && PlanOf(o, ready, e.key, e.number) == Ok(e.plan) && e.prepared == ready.asked.id
       && now < e.plan.grounds.notAfter
  }

  /** A draft whose ready acts all hold and are all still wanted, as the family has them. */
  ghost predicate Screening(o: Options, family: Family, now: int, d: Draft) {
    forall key :: key in d.ready ==>
      key in family.ready && d.ready[key] == family.ready[key] && HeldDrop(d.ready[key], WantAt(WantedBy(o, family), key), now).None?
  }

  lemma DeadlinesHold(o: Options, ready: Ready, key: string, number: nat, now: int)
    requires now < ready.validUntil && ready.asked.reading.expiry.Some? && now < ready.asked.reading.expiry.value
    ensures PlanOf(o, ready, key, number).Ok? && now < PlanOf(o, ready, key, number).value.grounds.notAfter
  {
    GroundsAreTight([ready.asked.reading], None, Some(ready.validUntil));
    var grounds := GroundsOf([ready.asked.reading], None, Some(ready.validUntil)).value;
    assert [ready.asked.reading][0].expiry.Some?;
  }

  /** What submitting has left of a draft, and what it has emitted since. */
  ghost predicate OnlySubmitted(o: Options, family: Family, now: int, d: Draft, after: Draft) {
    && after.preparing == d.preparing
    && (forall key :: key in after.ready ==> key in d.ready && after.ready[key] == d.ready[key])
    && (forall key :: key in after.submitted ==> key in d.submitted || key in d.ready)
    && d.emitted <= after.emitted
    && (forall e :: e in after.emitted ==> e in d.emitted || e.Dropped? || (e.Submitted? && SafeSubmit(o, family, now, e)))
  }

  lemma SubmittingIsSafe(o: Options, family: Family, now: int, d: Draft, key: string)
    requires Screening(o, family, now, d) && key in d.ready && family.submitted.Keys <= d.submitted.Keys
    requires family.view.Some? && family.view.value.acceptingNewWork
    requires !Busy(family, d, key) && !BackedOff(family, key, d.ready[key].asked.task)
    requires SubmittedOne(o, family, WantedBy(o, family), now, d, key).Ok?
    ensures var after := SubmittedOne(o, family, WantedBy(o, family), now, d, key).value;
            && |after.emitted| == |d.emitted| + 1 && after.emitted[..|d.emitted|] == d.emitted
            && var e := after.emitted[|d.emitted|];
               e.Dropped? || (e.Submitted? && e.number == d.issued && SafeSubmit(o, family, now, e))
  {
    var after := SubmittedOne(o, family, WantedBy(o, family), now, d, key).value;
    var ready := d.ready[key];
    if SubmitDrop(ready.asked.reading, FactOf(family.facts, key).value, now).None? {
      DeadlinesHold(o, ready, key, d.issued, now);
      assert SafeSubmit(o, family, now, after.emitted[|d.emitted|]);
    }
  }

  lemma SubmittingOne(o: Options, family: Family, now: int, d: Draft, key: string, after: Draft, reserved: nat, from: nat)
    requires Screening(o, family, now, d) && Sane(d, reserved) && Numbered(d.emitted, from, d.issued) && key in d.ready
    requires family.view.Some? && family.view.value.acceptingNewWork && family.submitted.Keys <= d.submitted.Keys
    requires !Busy(family, d, key) && !BackedOff(family, key, d.ready[key].asked.task)
    requires SubmittedOne(o, family, WantedBy(o, family), now, d, key) == Ok(after)
    ensures OnlySubmitted(o, family, now, d, after) && Sane(after, reserved) && Load(after) <= Load(d) && Screening(o, family, now, after)
    ensures Numbered(after.emitted, from, after.issued) && d.submitted.Keys <= after.submitted.Keys && after.ready == d.ready - {key}
  {
    SubmittingIsSafe(o, family, now, d, key);
    SubmittingMoves(o, family, now, d, key, after);
    MovingKeepsSane(d, after, key, reserved);
    MovedIsSubmitted(o, family, now, d, key, after, from);
  }

  lemma MovedIsSubmitted(o: Options, family: Family, now: int, d: Draft, key: string, after: Draft, from: nat)
    requires Numbered(d.emitted, from, d.issued) && key in d.ready && after.preparing == d.preparing && after.ready == d.ready - {key}
    requires d.submitted.Keys <= after.submitted.Keys <= d.submitted.Keys + {key}
    requires |after.emitted| == |d.emitted| + 1 && after.emitted[..|d.emitted|] == d.emitted
    requires var e := after.emitted[|d.emitted|];
             if e.Submitted? then e.number == d.issued && after.issued == d.issued + 1 && SafeSubmit(o, family, now, e)
             else e.Dropped? && after.issued == d.issued
    ensures OnlySubmitted(o, family, now, d, after) && Numbered(after.emitted, from, after.issued)
  {
    var e := after.emitted[|d.emitted|];
    assert after.emitted == d.emitted + [e];
    NumberedOneMore(d.emitted, e, from, d.issued);
  }

  /** From `d` to `after` one key left those ready, to be submitted or dropped: nothing else of the draft moved. */
  ghost predicate Moved(d: Draft, after: Draft, key: string) {
    && after.preparing == d.preparing && key in d.ready && after.ready == d.ready - {key} && |after.emitted| == |d.emitted| + 1
    && var e := after.emitted[|d.emitted|];
       if e.Submitted? then
         && after.submitted.Keys == d.submitted.Keys + {key}
         && after.numReservations == d.numReservations + 1 && after.issued == d.issued + 1
       else
         after.submitted == d.submitted && after.numReservations == d.numReservations && after.issued == d.issued
  }

  lemma SubmittingMoves(o: Options, family: Family, now: int, d: Draft, key: string, after: Draft)
    requires key in d.ready && SubmittedOne(o, family, WantedBy(o, family), now, d, key) == Ok(after)
    ensures Moved(d, after, key)
  {
  }

  lemma MovingKeepsSane(d: Draft, after: Draft, key: string, reserved: nat)
    requires Sane(d, reserved) && Moved(d, after, key)
    ensures Sane(after, reserved) && Load(after) <= Load(d)
  {
    OneFewer(d.ready, key);
    assert key !in d.submitted;
    assert |after.submitted| == |after.submitted.Keys| && |d.submitted| == |d.submitted.Keys|;
  }

  lemma OneFewer(ready: map<string, Ready>, key: string)
    requires key in ready
    ensures |ready - {key}| == |ready| - 1
  {
    assert ready.Keys == (ready - {key}).Keys + {key};
  }

  lemma SubmittingLeavesReady(d: Draft, next: Draft, keys: seq<string>)
    requires keys != [] && AllReady(d, keys) && next.ready == d.ready - {keys[0]}
    ensures AllReady(next, keys[1..])
  {
    forall k | 0 <= k < |keys[1..]| ensures keys[1..][k] in next.ready { assert keys[1..][k] == keys[k + 1]; }
  }

  lemma SubmittedInTwo(o: Options, family: Family, now: int, a: Draft, b: Draft, c: Draft)
    requires OnlySubmitted(o, family, now, a, b) && OnlySubmitted(o, family, now, b, c)
    ensures OnlySubmitted(o, family, now, a, c)
  {
  }

  lemma {:induction false} SubmittingAll(o: Options, family: Family, now: int, d: Draft, keys: seq<string>, reserved: nat, from: nat)
    requires Screening(o, family, now, d) && Sane(d, reserved) && Numbered(d.emitted, from, d.issued) && AllReady(d, keys)
    requires family.view.Some? && family.view.value.acceptingNewWork && family.submitted.Keys <= d.submitted.Keys
    requires SubmittedAll(o, family, WantedBy(o, family), now, d, keys).Ok?
    ensures var after := SubmittedAll(o, family, WantedBy(o, family), now, d, keys).value;
            && OnlySubmitted(o, family, now, d, after) && Sane(after, reserved) && Load(after) <= Load(d)
            && Numbered(after.emitted, from, after.issued)
    decreases |keys|
  {
    if keys != [] && d.numReservations < o.maxReservations {
      if Busy(family, d, keys[0]) || BackedOff(family, keys[0], d.ready[keys[0]].asked.task) {
        SubmittingAll(o, family, now, d, keys[1..], reserved, from);
      } else {
        var next := SubmittedOne(o, family, WantedBy(o, family), now, d, keys[0]).value;
        SubmittingOne(o, family, now, d, keys[0], next, reserved, from);
        SubmittingLeavesReady(d, next, keys);
        SubmittingAll(o, family, now, next, keys[1..], reserved, from);
        SubmittedInTwo(o, family, now, d, next, SubmittedAll(o, family, WantedBy(o, family), now, d, keys).value);
      }
    }
  }

  // ----- Asking -----

  ghost predicate OnlyAsked(o: Options, d: Draft, after: Draft) {
    && after.ready == d.ready && after.submitted == d.submitted && after.numReservations == d.numReservations
    && (forall key :: key in d.preparing ==> key in after.preparing && after.preparing[key] == d.preparing[key])
    && d.emitted <= after.emitted
    && (forall e :: e in after.emitted ==> e in d.emitted || (e.Asked? && e.request.id == TicketOf(o.runId, e.request.number)))
    && (forall key :: key in after.preparing && key !in d.preparing ==> AskedFor(after.emitted, key, after.preparing[key]))
  }

  /** A preparation was asked for, under its ticket, of its key and task, from the reading it captured. */
  ghost predicate AskedFor(emitted: seq<Emitted>, key: string, asked: Preparation) {
    exists k :: 0 <= k < |emitted| && IsAsked(emitted[k], key, asked)
  }

  predicate IsAsked(e: Emitted, key: string, asked: Preparation) {
    e.Asked? && e.request.id == asked.id && e.request.key == key && e.request.task == asked.task && e.request.version == asked.reading.version
  }

  lemma AskedForStays(emitted: seq<Emitted>, more: seq<Emitted>, key: string, asked: Preparation)
    requires AskedFor(emitted, key, asked) && emitted <= more
    ensures AskedFor(more, key, asked)
  {
    var k :| 0 <= k < |emitted| && IsAsked(emitted[k], key, asked);
    assert more[k] == emitted[k];
  }

  lemma AskingOne(o: Options, family: Family, task: Task, reading: Reading, input: Data, d: Draft, key: string, reserved: nat, from: nat)
    requires Sane(d, reserved) && Numbered(d.emitted, from, d.issued) && key !in d.preparing && key !in d.ready && key !in d.submitted
    ensures var after := AskedOne(o, family, task, reading, input, d, key);
            && OnlyAsked(o, d, after) && Sane(after, reserved) && Load(after) == Load(d) + 1
            && |after.preparing| == |d.preparing| + 1 && Numbered(after.emitted, from, after.issued)
  {
    var after := AskedOne(o, family, task, reading, input, d, key);
    var e := after.emitted[|d.emitted|];
    assert after.emitted == d.emitted + [e] && IsAsked(e, key, after.preparing[key]);
    NumberedOneMore(d.emitted, e, from, d.issued);
  }

  lemma AskedInTwo(o: Options, a: Draft, b: Draft, c: Draft)
    requires OnlyAsked(o, a, b) && OnlyAsked(o, b, c)
    ensures OnlyAsked(o, a, c)
  {
    forall key | key in c.preparing && key !in a.preparing ensures AskedFor(c.emitted, key, c.preparing[key]) {
      if key in b.preparing { AskedForStays(b.emitted, c.emitted, key, b.preparing[key]); }
    }
  }

  ghost predicate Askables(d: Draft, family: Family, wanted: map<string, Wanted>, keys: seq<string>) {
    && (forall k :: 0 <= k < |keys| ==> Askable(family, wanted, keys[k]))
    && (forall k :: 0 <= k < |keys| ==> keys[k] !in d.preparing && keys[k] !in d.ready && keys[k] !in d.submitted)
    && (forall a, b :: 0 <= a < b < |keys| ==> keys[a] != keys[b])
  }

  lemma AskingLeavesAskables(o: Options, family: Family, wanted: map<string, Wanted>, task: Task, reading: Reading, input: Data, d: Draft, keys: seq<string>)
    requires keys != [] && Askables(d, family, wanted, keys)
    ensures Askables(AskedOne(o, family, task, reading, input, d, keys[0]), family, wanted, keys[1..])
  {
    var rest := keys[1..];
    forall k | 0 <= k < |rest| ensures rest[k] == keys[k + 1] && rest[k] != keys[0] {}
  }

  lemma {:induction false} AskingAll(o: Options, family: Family, wanted: map<string, Wanted>, d: Draft, keys: seq<string>, reserved: nat, from: nat)
    requires Sane(d, reserved) && Numbered(d.emitted, from, d.issued) && Askables(d, family, wanted, keys)
    ensures var after := AskedAll(o, family, wanted, d, keys);
            && OnlyAsked(o, d, after) && Sane(after, reserved) && Load(after) <= Max(o.maxReservations, Load(d))
            && Numbered(after.emitted, from, after.issued)
            && (o.concurrency.Some? ==> |after.preparing| <= Max(o.concurrency.value, |d.preparing|))
    decreases |keys|
  {
    if keys != [] && !LaneFull(o, |d.preparing|) && !Spent(o, d) {
      var key := keys[0];
      assert Askable(family, wanted, keys[0]);
      var task, reading, input := wanted[key].task, FactOf(family.facts, key).value.value, DigestAt(family.inputs, key).value;
      AskingOne(o, family, task, reading, input, d, key, reserved, from);
      var next := AskedOne(o, family, task, reading, input, d, key);
      AskingLeavesAskables(o, family, wanted, task, reading, input, d, keys);
      AskingAll(o, family, wanted, next, keys[1..], reserved, from);
      AskedInTwo(o, d, next, AskedAll(o, family, wanted, d, keys));
    }
  }

  // ----- Deciding -----

  /** Everything a decision leaves of a family, whose candidates, facts and view it decides on. */
  ghost predicate WellDecided(o: Options, family: Family, now: int, after: Family, emitted: seq<Emitted>) {
    && SaneFamily(after)
    && Numbered(emitted, family.issued, after.issued)
    && LoadOf(after, ReservedBy(family)) <= Max(o.maxReservations, LoadOf(family, ReservedBy(family)))
    && (o.concurrency.Some? ==> |after.preparing| <= Max(o.concurrency.value, |family.preparing|))
    && (forall e :: e in emitted && e.Submitted? ==> SafeSubmit(o, family, now, e))
    && (forall e :: e in emitted && e.Asked? ==> e.request.id == TicketOf(o.runId, e.request.number))
    && (forall key :: key in after.preparing ==>
          (key in family.preparing && SameAsked(family.preparing[key], after.preparing[key])) || AskedFor(emitted, key, after.preparing[key]))
    && (forall key :: key in after.ready ==> key in family.ready && after.ready[key] == family.ready[key])
  }

  /** One preparation, whether it has been voided since or not. */
  predicate SameAsked(a: Preparation, b: Preparation) {
    b == a.(isVoid := b.isVoid)
  }

  ghost predicate SaneFamily(family: Family) {
    && family.preparing.Keys !! family.ready.Keys && family.preparing.Keys !! family.submitted.Keys
    && family.ready.Keys !! family.submitted.Keys
    && forall key :: key in family.ready ==> !family.ready[key].asked.isVoid
  }

  function LoadOf(family: Family, reserved: nat): nat {
    reserved + |family.submitted| + |family.preparing| + |family.ready|
  }

  lemma ScreenedRight(o: Options, family: Family, now: int)
    requires SaneFamily(family)
    ensures var d := Screened(o, family, now);
            && OnlyScreened(Drafted(family), d) && Screening(o, family, now, d) && Sane(d, ReservedBy(family))
            && Load(d) <= LoadOf(family, ReservedBy(family)) && |d.preparing| == |family.preparing|
            && Numbered(d.emitted, family.issued, d.issued)
  {
    var wanted := WantedBy(o, family);
    var start := Drafted(family);
    var keys := Sorted(CandidateKeys(family));
    var normalized := Normalized(family, wanted, start, keys);
    NormalizingScreens(family, wanted, start, keys);
    HoldingKeeps(wanted, now, normalized, Sorted(normalized.ready.Keys));
    var d := Screened(o, family, now);
    ScreenedInTwo(start, normalized, d);
    ScreeningKeepsSane(start, d, ReservedBy(family));
    ScreeningNumbers(start, d, d.emitted, family.issued);
  }

  lemma RankedReady(d: Draft, served: string, priority: map<string, int>)
    requires forall key :: key in d.ready.Keys ==> key in priority
    ensures AllReady(d, Ranked(d.ready.Keys, served, priority))
  {
    RankedRight(d.ready.Keys, served, priority);
    var keys := Ranked(d.ready.Keys, served, priority);
    forall k | 0 <= k < |keys| ensures keys[k] in d.ready { assert keys[k] in keys; }
  }

  lemma PreparedAskables(o: Options, family: Family, now: int, d: Draft)
    requires PreparableAll(o, family, WantedBy(o, family), now, d).Ok?
    ensures var keys := PreparableAll(o, family, WantedBy(o, family), now, d).value;
            (forall key :: key in keys ==> key in Priorities(WantedBy(o, family), keys))
            && Askables(d, family, WantedBy(o, family), Ranked(keys, family.served, Priorities(WantedBy(o, family), keys)))
  {
    var wanted := WantedBy(o, family);
    var keys := PreparableAll(o, family, wanted, now, d).value;
    var ranked := Ranked(keys, family.served, Priorities(wanted, keys));
    RankedRight(keys, family.served, Priorities(wanted, keys));
    forall k | 0 <= k < |ranked|
      ensures Askable(family, wanted, ranked[k]) && ranked[k] !in d.preparing && ranked[k] !in d.ready && ranked[k] !in d.submitted
    {
      assert ranked[k] in ranked && ranked[k] in keys;
      PreparableAskable(o, family, wanted, now, d, ranked[k]);
    }
  }

  lemma PreparedRight(o: Options, family: Family, now: int, d: Draft, reserved: nat, from: nat)
    requires Sane(d, reserved) && Numbered(d.emitted, from, d.issued) && PreparedNext(o, family, WantedBy(o, family), now, d).Ok?
    ensures var after := PreparedNext(o, family, WantedBy(o, family), now, d).value;
            && OnlyAsked(o, d, after) && Sane(after, reserved) && Load(after) <= Max(o.maxReservations, Load(d))
            && Numbered(after.emitted, from, after.issued)
            && (o.concurrency.Some? ==> |after.preparing| <= Max(o.concurrency.value, |d.preparing|))
  {
    var wanted := WantedBy(o, family);
    var keys := PreparableAll(o, family, wanted, now, d).value;
    PreparedAskables(o, family, now, d);
    AskingAll(o, family, wanted, d, Ranked(keys, family.served, Priorities(wanted, keys)), reserved, from);
  }

  /** What acting on a screened draft leaves and emits. */
  ghost predicate WellActed(o: Options, family: Family, now: int, d: Draft, after: Draft) {
    && Sane(after, ReservedBy(family)) && Load(after) <= Max(o.maxReservations, Load(d))
    && Numbered(after.emitted, family.issued, after.issued)
    && (o.concurrency.Some? ==> |after.preparing| <= Max(o.concurrency.value, |d.preparing|))
    && (forall e :: e in after.emitted && e.Submitted? ==> SafeSubmit(o, family, now, e))
    && (forall e :: e in after.emitted && e.Asked? ==> e.request.id == TicketOf(o.runId, e.request.number))
    && (forall key :: key in after.preparing && key !in d.preparing ==> AskedFor(after.emitted, key, after.preparing[key]))
    && (forall key :: key in d.preparing ==> key in after.preparing && after.preparing[key] == d.preparing[key])
    && (forall key :: key in after.ready ==> key in d.ready && after.ready[key] == d.ready[key])
  }

  lemma ActingIsRight(o: Options, family: Family, now: int, d: Draft)
    requires Screening(o, family, now, d) && Sane(d, ReservedBy(family)) && Numbered(d.emitted, family.issued, d.issued)
    requires d.submitted == family.submitted && (forall e :: e in d.emitted ==> !e.Submitted? && !e.Asked?) && Acted(o, family, now, d).Ok?
    ensures WellActed(o, family, now, d, Acted(o, family, now, d).value)
  {
    if family.view.Some? && family.view.value.acceptingNewWork {
      var wanted, priority := WantedBy(o, family), Priorities(WantedBy(o, family), d.ready.Keys);
      RankedReady(d, family.served, priority);
      var keys := Ranked(d.ready.Keys, family.served, priority);
      SubmittingAll(o, family, now, d, keys, ReservedBy(family), family.issued);
      var submitted := SubmittedAll(o, family, wanted, now, d, keys).value;
      PreparedRight(o, family, now, submitted, ReservedBy(family), family.issued);
      SubmittedThenAsked(o, family, now, d, submitted, Acted(o, family, now, d).value);
    }
  }

  lemma SubmittedThenAsked(o: Options, family: Family, now: int, d: Draft, submitted: Draft, after: Draft)
    requires OnlySubmitted(o, family, now, d, submitted) && OnlyAsked(o, submitted, after) && (forall e :: e in d.emitted ==> !e.Submitted? && !e.Asked?)
    requires Sane(after, ReservedBy(family)) && Numbered(after.emitted, family.issued, after.issued)
    requires Load(submitted) <= Load(d) && Load(after) <= Max(o.maxReservations, Load(submitted))
    requires o.concurrency.Some? ==> |after.preparing| <= Max(o.concurrency.value, |submitted.preparing|)
    ensures WellActed(o, family, now, d, after)
  {
  }

  lemma ActedRight(o: Options, family: Family, now: int)
    requires SaneFamily(family) && Acted(o, family, now, Screened(o, family, now)).Ok?
    ensures WellActed(o, family, now, Screened(o, family, now), Acted(o, family, now, Screened(o, family, now)).value)
  {
    ScreenedRight(o, family, now);
    var d := Screened(o, family, now);
    assert d.emitted[|Drafted(family).emitted|..] == d.emitted;
    ActingIsRight(o, family, now, d);
  }

  lemma DecidingIsRight(o: Options, family: Family, now: int)
    requires SaneFamily(family) && Decided(o, family, now).Ok?
    ensures WellDecided(o, family, now, Decided(o, family, now).value.0, Decided(o, family, now).value.1)
  {
    ScreenedRight(o, family, now);
    ActedRight(o, family, now);
    var d := Screened(o, family, now);
    DecisionIsRight(o, family, now, d, Acted(o, family, now, d).value, Decided(o, family, now).value.0);
  }

  lemma DecisionIsRight(o: Options, family: Family, now: int, d: Draft, acted: Draft, after: Family)
    requires OnlyScreened(Drafted(family), d) && Sane(d, ReservedBy(family)) && Numbered(d.emitted, family.issued, d.issued)
    requires Load(d) <= LoadOf(family, ReservedBy(family)) && |d.preparing| == |family.preparing|
    requires WellActed(o, family, now, d, acted)
    requires after.preparing == acted.preparing && after.ready == acted.ready && after.submitted == acted.submitted && after.issued == acted.issued
    ensures WellDecided(o, family, now, after, acted.emitted)
  {
    forall key | key in acted.preparing
      ensures (key in family.preparing && SameAsked(family.preparing[key], acted.preparing[key])) || AskedFor(acted.emitted, key, acted.preparing[key])
    {
      assert key in d.preparing ==> d.preparing[key] == family.preparing[key].(isVoid := d.preparing[key].isVoid);
    }
  }

  // ----- Runs -----

  /** One step of the family: the inputs it took, and when it then decided. */
  datatype Step = Step(inputs: seq<FamilyInput>, now: int)

  function AppliedAll(family: Family, inputs: seq<FamilyInput>): Family
    decreases |inputs|
  {
    if inputs == [] then family else Applied(AppliedAll(family, inputs[..|inputs| - 1]), inputs[|inputs| - 1])
  }

  /** A step that fails is rolled back: the family is as it was, and nothing was emitted. */
  function Stepped(o: Options, family: Family, step: Step): (Family, seq<Emitted>) {
    if step.inputs == [] then (family, [])
    else
      var decided := Decided(o, AppliedAll(family, step.inputs), step.now);
      if decided.Ok? then decided.value else (family, [])
  }

  /** The family after a run, and everything it has emitted. */
  function Ran(o: Options, steps: seq<Step>): (Family, seq<Emitted>)
    decreases |steps|
  {
    if steps == [] then (Started(), [])
    else
      var before := Ran(o, steps[..|steps| - 1]);
      var after := Stepped(o, before.0, steps[|steps| - 1]);
      (after.0, before.1 + after.1)
  }

  /** What holds of a family and everything it has emitted, at any point of any run. */
  ghost predicate Traced(o: Options, family: Family, emitted: seq<Emitted>) {
    && SaneFamily(family)
    && Numbered(emitted, 0, family.issued)
    && (o.concurrency.Some? ==> |family.preparing| <= o.concurrency.value)
    && (forall key :: key in family.preparing ==> AskedFor(emitted, key, family.preparing[key]))
    && (forall key :: key in family.ready ==> AskedFor(emitted, key, family.ready[key].asked))
    && (forall e :: e in emitted && e.Asked? ==> e.request.id == TicketOf(o.runId, e.request.number))
    && (forall e :: e in emitted && e.Submitted? ==> IssuedFor(o, e))
  }

  /** An act's id names its key, its run and a task the policy wanted. */
  ghost predicate IssuedFor(o: Options, e: Emitted)
    requires e.Submitted?
  {
    exists candidate: Data, task: string :: WantsNamed(o, candidate, e.key, task) && e.plan.intentId == IntentIdOf(e.key, o.runId, e.number, Some(task))
  }

  predicate WantsNamed(o: Options, candidate: Data, key: string, task: string) {
    o.policy(candidate, key).Wants? && o.policy(candidate, key).task.name == task
  }

  /** A key that stops preparing becomes ready, from a ticket never voided, or neither. */
  lemma TakingTraced(o: Options, family: Family, key: string, after: Family, emitted: seq<Emitted>)
    requires Traced(o, family, emitted) && key in family.preparing
    requires after == family.(preparing := family.preparing - {key}, ready := after.ready, declined := after.declined)
    requires after.ready == family.ready
             || (key in after.ready && !family.preparing[key].isVoid && after.ready[key].asked == family.preparing[key]
                 && after.ready == family.ready[key := after.ready[key]])
    ensures Traced(o, after, emitted)
  {
    TakingStaysSane(family, key, after);
    forall k | k in after.ready ensures AskedFor(emitted, k, after.ready[k].asked) {
      if k == key && after.ready != family.ready {
        assert AskedFor(emitted, key, family.preparing[key]);
      } else {
        assert AskedFor(emitted, k, family.ready[k].asked);
      }
    }
    forall k | k in after.preparing ensures AskedFor(emitted, k, after.preparing[k]) {
      assert AskedFor(emitted, k, family.preparing[k]);
    }
  }

  lemma TakingStaysSane(family: Family, key: string, after: Family)
    requires SaneFamily(family) && key in family.preparing && after.submitted == family.submitted
    requires after.preparing == family.preparing - {key}
    requires after.ready == family.ready
             || (key in after.ready && !family.preparing[key].isVoid && after.ready[key].asked == family.preparing[key]
                 && after.ready == family.ready[key := after.ready[key]])
    ensures SaneFamily(after) && |after.preparing| == |family.preparing| - 1
  {
    assert |family.preparing - {key}| == |family.preparing| - 1;
  }

  /** An answer that changes anything takes its key from those preparing, and may ready its act. */
  lemma AnsweringTakes(family: Family, result: PrepareResult, after: Family)
    requires after == Answered(family, result) && after != family
    ensures result.key in family.preparing
    ensures after == family.(preparing := family.preparing - {result.key}, ready := after.ready, declined := after.declined)
    ensures after.ready == family.ready
            || (result.key in after.ready && !family.preparing[result.key].isVoid
                && after.ready[result.key].asked == family.preparing[result.key]
                && after.ready == family.ready[result.key := after.ready[result.key]])
  {
  }

  lemma AnsweringTraced(o: Options, family: Family, result: PrepareResult, emitted: seq<Emitted>)
    requires Traced(o, family, emitted)
    ensures Traced(o, Answered(family, result), emitted)
  {
    if Answered(family, result) != family {
      AnsweringTakes(family, result, Answered(family, result));
      TakingTraced(o, family, result.key, Answered(family, result), emitted);
    }
  }

  lemma ApplyingTraced(o: Options, family: Family, input: FamilyInput, emitted: seq<Emitted>)
    requires Traced(o, family, emitted)
    ensures Traced(o, Applied(family, input), emitted) && Applied(family, input).issued == family.issued
  {
    if input.Answers? {
      AnsweringTraced(o, family, input.result, emitted);
    } else {
      ApplyingLessSubmitted(family, input);
      LessSubmittedTraced(o, family, Applied(family, input), emitted);
    }
  }

  /** Nothing but an answer touches what is preparing or ready; notices only forget what was submitted. */
  ghost predicate LessSubmitted(family: Family, after: Family) {
    && after.preparing == family.preparing && after.ready == family.ready && after.issued == family.issued
    && after.submitted.Keys <= family.submitted.Keys
  }

  lemma ApplyingLessSubmitted(family: Family, input: FamilyInput)
    requires !input.Answers?
    ensures LessSubmitted(family, Applied(family, input))
  {
  }

  lemma LessSubmittedTraced(o: Options, family: Family, after: Family, emitted: seq<Emitted>)
    requires Traced(o, family, emitted) && LessSubmitted(family, after)
    ensures Traced(o, after, emitted)
  {
  }

  lemma {:induction false} ApplyingAllTraced(o: Options, family: Family, inputs: seq<FamilyInput>, emitted: seq<Emitted>)
    requires Traced(o, family, emitted)
    ensures Traced(o, AppliedAll(family, inputs), emitted) && AppliedAll(family, inputs).issued == family.issued
    decreases |inputs|
  {
    if inputs != [] {
      ApplyingAllTraced(o, family, inputs[..|inputs| - 1], emitted);
      ApplyingTraced(o, AppliedAll(family, inputs[..|inputs| - 1]), inputs[|inputs| - 1], emitted);
    }
  }

  lemma SafeSubmitsIssued(o: Options, family: Family, now: int, e: Emitted)
    requires e.Submitted? && SafeSubmit(o, family, now, e)
    ensures IssuedFor(o, e)
  {
    var candidate := family.candidates.value.keys[e.key].value;
    assert WantsNamed(o, candidate, e.key, family.ready[e.key].asked.task);
  }

  lemma SameTicket(emitted: seq<Emitted>, key: string, a: Preparation, b: Preparation)
    requires AskedFor(emitted, key, a) && SameAsked(a, b)
    ensures AskedFor(emitted, key, b)
  {
    var k :| 0 <= k < |emitted| && IsAsked(emitted[k], key, a);
    assert IsAsked(emitted[k], key, b);
  }

  lemma DecidingTraced(o: Options, family: Family, now: int, emitted: seq<Emitted>)
    requires Traced(o, family, emitted) && Decided(o, family, now).Ok?
    ensures var decided := Decided(o, family, now).value; Traced(o, decided.0, emitted + decided.1)
  {
    DecidingIsRight(o, family, now);
    var (after, more) := Decided(o, family, now).value;
    NumberedInTwo(emitted, more, 0, family.issued, after.issued);
    forall key | key in after.preparing ensures AskedFor(emitted + more, key, after.preparing[key]) {
      if key in family.preparing && SameAsked(family.preparing[key], after.preparing[key]) {
        SameTicket(emitted, key, family.preparing[key], after.preparing[key]);
        AskedForStays(emitted, emitted + more, key, after.preparing[key]);
      } else {
        AskedForLater(emitted, more, key, after.preparing[key]);
      }
    }
    forall key | key in after.ready ensures AskedFor(emitted + more, key, after.ready[key].asked) {
      AskedForStays(emitted, emitted + more, key, after.ready[key].asked);
    }
    forall e | e in more && e.Submitted? ensures IssuedFor(o, e) { SafeSubmitsIssued(o, family, now, e); }
  }

  lemma AskedForLater(emitted: seq<Emitted>, more: seq<Emitted>, key: string, asked: Preparation)
    requires AskedFor(more, key, asked)
    ensures AskedFor(emitted + more, key, asked)
  {
    var k :| 0 <= k < |more| && IsAsked(more[k], key, asked);
    assert (emitted + more)[|emitted| + k] == more[k];
  }

  lemma {:induction false} RunsTraced(o: Options, steps: seq<Step>)
    requires o.concurrency.Some? ==> o.concurrency.value >= 0
    ensures Traced(o, Ran(o, steps).0, Ran(o, steps).1)
    decreases |steps|
  {
    if steps != [] {
      var before, step := Ran(o, steps[..|steps| - 1]), steps[|steps| - 1];
      RunsTraced(o, steps[..|steps| - 1]);
      ApplyingAllTraced(o, before.0, step.inputs, before.1);
      if step.inputs != [] && Decided(o, AppliedAll(before.0, step.inputs), step.now).Ok? {
        DecidingTraced(o, AppliedAll(before.0, step.inputs), step.now, before.1);
      } else {
        assert before.1 + [] == before.1;
      }
    }
  }

  /** The family as it stands when its run's next step decides. */
  function Deciding(o: Options, steps: seq<Step>, step: Step): Family {
    AppliedAll(Ran(o, steps).0, step.inputs)
  }

  /**
   * In every run, each act sent to the kernel is for a present candidate whose policy still wants that task
   * with those conflicts; rests on its key's fact, still at the version captured when it was prepared, with
   * its deadlines yet to come; is of a key neither busy, submitted nor backed off; comes while the kernel
   * accepts new work; and answers a preparation the run asked for, never one it voided.
   */
  lemma SubmitsAreSafe(o: Options, steps: seq<Step>, step: Step)
    requires o.concurrency.Some? ==> o.concurrency.value >= 0
    ensures var family, emitted := Deciding(o, steps, step), Stepped(o, Ran(o, steps).0, step).1;
            forall e :: e in emitted && e.Submitted? ==>
              && SafeSubmit(o, family, step.now, e)
              && !family.ready[e.key].asked.isVoid
              && AskedFor(Ran(o, steps).1, e.key, family.ready[e.key].asked)
  {
    RunsTraced(o, steps);
    ApplyingAllTraced(o, Ran(o, steps).0, step.inputs, Ran(o, steps).1);
    var family := Deciding(o, steps, step);
    if step.inputs != [] && Decided(o, family, step.now).Ok? { DecidingIsRight(o, family, step.now); }
  }

  /**
   * In every run no key is preparing, ready and submitted at once, the preparations outstanding stay within
   * the lane, and no decision takes the reservations held and promised past their maximum, nor any further
   * past it than it found them.
   */
  lemma FamiliesKeepTheirBounds(o: Options, steps: seq<Step>, step: Step)
    requires o.concurrency.Some? ==> o.concurrency.value >= 0
    ensures SaneFamily(Ran(o, steps).0)
    ensures o.concurrency.Some? ==> |Ran(o, steps).0.preparing| <= o.concurrency.value
    ensures var family, after := Deciding(o, steps, step), Stepped(o, Ran(o, steps).0, step).0;
            step.inputs != [] && Decided(o, family, step.now).Ok? ==>
              LoadOf(after, ReservedBy(family)) <= Max(o.maxReservations, LoadOf(family, ReservedBy(family)))
  {
    RunsTraced(o, steps);
    ApplyingAllTraced(o, Ran(o, steps).0, step.inputs, Ran(o, steps).1);
    var family := Deciding(o, steps, step);
    if step.inputs != [] && Decided(o, family, step.now).Ok? { DecidingIsRight(o, family, step.now); }
  }

  /** A policy only ever wants tasks built with a proper name. */
  ghost predicate NamesTasks(o: Options) {
    forall candidate, key :: o.policy(candidate, key).Wants? ==> IsTaskName(o.policy(candidate, key).task.name)
  }

  /**
   * In every run preparations are numbered strictly upwards under tickets of their own, and no two acts
   * share an intent id, from which each act's key and run can be read back.
   */
  lemma IssuedOnce(o: Options, steps: seq<Step>, a: nat, b: nat)
    requires (o.concurrency.Some? ==> o.concurrency.value >= 0) && Plain(o.runId) && NamesTasks(o)
    requires a < b < |Ran(o, steps).1|
    ensures var first, second := Ran(o, steps).1[a], Ran(o, steps).1[b];
            && (first.Asked? && second.Asked? ==> first.request.number < second.request.number && first.request.id != second.request.id)
            && (first.Submitted? && second.Submitted? ==> first.plan.intentId != second.plan.intentId)
            && (first.Submitted? ==> var parsed := ParseIntentId(first.plan.intentId);
                  parsed.Some? && parsed.value.key == first.key && parsed.value.runId == o.runId && parsed.value.task.Some?)
  {
    RunsTraced(o, steps);
    var first, second := Ran(o, steps).1[a], Ran(o, steps).1[b];
    assert first in Ran(o, steps).1 && second in Ran(o, steps).1;
    if first.Asked? && second.Asked? && first.request.id == second.request.id {
      TicketsDiffer(o.runId, first.request.number, second.request.number);
    }
    if first.Submitted? {
      var task := TaskIssued(o, first);
      IssuedIdsParse(first.key, o.runId, first.number, Some(task));
      if second.Submitted? && first.plan.intentId == second.plan.intentId {
        var other := TaskIssued(o, second);
        IssuedIdsDiffer(o.runId, first.key, first.number, Some(task), second.key, second.number, Some(other));
      }
    }
  }

  lemma TaskIssued(o: Options, e: Emitted) returns (task: string)
    requires NamesTasks(o) && e.Submitted? && IssuedFor(o, e)
    ensures IsTaskName(task) && e.plan.intentId == IntentIdOf(e.key, o.runId, e.number, Some(task))
  {
    var candidate: Data, name: string :| WantsNamed(o, candidate, e.key, name) && e.plan.intentId == IntentIdOf(e.key, o.runId, e.number, Some(name));
    task := name;
  }

  /** `e` submits what `asked` asked for: under its ticket, its key and its task. */
  predicate AnswersTo(o: Options, asked: Emitted, e: Emitted)
    requires e.Submitted?
  {
    && asked.Asked? && asked.request.id == e.prepared && asked.request.key == e.key
    && ParseIntentId(e.plan.intentId) == Some(Parsed(e.key, o.runId, Some(asked.request.task)))
  }

  lemma PlansAreNamed(o: Options, ready: Ready, key: string, number: nat)
    ensures PlanOf(o, ready, key, number).Ok? ==>
              PlanOf(o, ready, key, number).value.intentId == IntentIdOf(key, o.runId, number, Some(ready.asked.task))
  {
  }

  lemma SubmitsTheirTask(o: Options, family: Family, now: int, e: Emitted, asked: Emitted)
    requires Plain(o.runId) && NamesTasks(o) && e.Submitted? && SafeSubmit(o, family, now, e)
    requires IsAsked(asked, e.key, family.ready[e.key].asked)
    ensures AnswersTo(o, asked, e)
  {
    var task, candidate := family.ready[e.key].asked.task, family.candidates.value.keys[e.key].value;
    PlansAreNamed(o, family.ready[e.key], e.key, e.number);
    assert IsTaskName(task) by { assert WantsNamed(o, candidate, e.key, task); }
    IssuedIdsParse(e.key, o.runId, e.number, Some(task));
  }

  /**
   * In every run, the id of each act sent to the kernel reads back as its key, this run and the task of the
   * preparation it answers, which some earlier request asked for.
   */
  lemma SubmitsNameTheirTask(o: Options, steps: seq<Step>, step: Step)
    requires (o.concurrency.Some? ==> o.concurrency.value >= 0) && Plain(o.runId) && NamesTasks(o)
    ensures var before, emitted := Ran(o, steps).1, Stepped(o, Ran(o, steps).0, step).1;
            forall e :: e in emitted && e.Submitted? ==> exists k :: 0 <= k < |before| && AnswersTo(o, before[k], e)
  {
    SubmitsAreSafe(o, steps, step);
    var family, before, emitted := Deciding(o, steps, step), Ran(o, steps).1, Stepped(o, Ran(o, steps).0, step).1;
    forall e | e in emitted && e.Submitted? ensures exists k :: 0 <= k < |before| && AnswersTo(o, before[k], e) {
      var k :| 0 <= k < |before| && IsAsked(before[k], e.key, family.ready[e.key].asked);
      SubmitsTheirTask(o, family, step.now, e, before[k]);
    }
  }
}
