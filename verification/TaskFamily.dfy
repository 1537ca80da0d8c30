/** One decision of a task family, drafted in place. */
module TaskFamily {
  import opened Basics
  import opened DataValues
  import opened KeyedLevels
  import opened Intents
  import opened TaskEntries
  import opened Backoff
  import opened Orders
  import opened Acts
  import opened Families

  class Drafting {
    const o: Options
    const family: Family
    const now: int
    var wanted: map<string, Wanted>
    var rejected: map<string, Rejection>
    var declined: ByTask<Fingerprint>
    var ready: map<string, Ready>
    var preparing: map<string, Preparation>
    var submitted: map<string, Sent>
    var issued: nat
    var served: string
    var numReservations: nat
    var emitted: seq<Emitted>

    ghost function Drafted(): Draft
      reads this
    {
      Draft(declined, ready, preparing, submitted, issued, served, numReservations, emitted)
    }

    constructor (o: Options, family: Family, now: int)
      ensures this.o == o && this.family == family && this.now == now
      ensures Drafted() == Families.Drafted(family) && wanted == map[] && rejected == map[]
    {
      this.o, this.family, this.now := o, family, now;
      wanted, rejected := map[], map[];
      declined, ready, preparing, submitted := family.declined, family.ready, family.preparing, family.submitted;
      issued, served, emitted := family.issued, family.served, [];
      numReservations := (if family.view.Some? then family.view.value.numReservations else 0) + |family.submitted|;
    }

    method Emit(e: Emitted)
      modifies this`emitted
      ensures emitted == old(emitted) + [e]
    {
      emitted := emitted + [e];
    }

    /** Asks the policy about one candidate; one it is refused for voids its preparation and is reported. */
    method NormalizeOne(key: string)
      requires key in CandidateKeys(family)
      modifies this`wanted, this`rejected, this`preparing, this`emitted
      ensures wanted == if key in WantedBy(o, family) then old(wanted)[key := WantedBy(o, family)[key]] else old(wanted)
      ensures rejected == if key in RejectedBy(WantedBy(o, family)) then old(rejected)[key := RejectedBy(WantedBy(o, family))[key]] else old(rejected)
      ensures Drafted() == NormalizedOne(family, WantedBy(o, family), old(Drafted()), key)
    {
      var candidate := RecordAt(family.candidates.value, key);
      if !candidate.PresentKey? { return; }
      var want := o.policy(candidate.value, key);
      wanted := wanted[key := want];
      if want.Wants? { return; }
      rejected := rejected[key := want.reason];
      if key in preparing { preparing := preparing[key := preparing[key].(isVoid := true)]; }
      if !(key in family.rejected && family.rejected[key] == want.reason) { Emit(Rejected(key, want.reason)); }
    }

    /** Asks the policy about every present candidate. */
    method NormalizePolicies(keys: seq<string>)
      requires wanted == map[] && rejected == map[] && forall key :: key in keys <==> key in CandidateKeys(family)
      modifies this`wanted, this`rejected, this`preparing, this`emitted
      ensures wanted == WantedBy(o, family) && rejected == RejectedBy(WantedBy(o, family))
      ensures Drafted() == Normalized(family, WantedBy(o, family), old(Drafted()), keys)
    {
      for k := 0 to |keys|
        invariant Drafted() == Normalized(family, WantedBy(o, family), old(Drafted()), keys[..k])
        invariant wanted == Below(WantedBy(o, family), keys[..k])
        invariant rejected == Below(RejectedBy(WantedBy(o, family)), keys[..k])
      {
        assert keys[..k + 1][..k] == keys[..k] && keys[k] in keys;
        NormalizeOne(keys[k]);
      }
      assert keys[..|keys|] == keys;
      BelowWhole(WantedBy(o, family), keys);
      BelowWhole(RejectedBy(WantedBy(o, family)), keys);
    }

    /** Discards a ready act; one whose fact can never lapse declines its task until something it reads changes. */
    method Drop(key: string, reason: DropReason)
      requires key in ready
      modifies this`ready, this`declined, this`emitted
      ensures Drafted() == DroppedReady(old(Drafted()), key, reason)
    {
      var asked := ready[key].asked;
      ready := ready - {key};
      if reason.FactUnbounded? { declined := With(declined, key, asked.task, Some(asked.inputFingerprint)); }
      Emit(Dropped(key, asked.task, reason));
    }

    method DropHeld(keys: seq<string>)
      modifies this`ready, this`declined, this`emitted
      ensures Drafted() == Held(wanted, now, old(Drafted()), keys)
    {
      for k := 0 to |keys|
        invariant Drafted() == Held(wanted, now, old(Drafted()), keys[..k])
      {
        assert keys[..k + 1][..k] == keys[..k];
        DropIfHeld(keys[k]);
      }
      assert keys[..|keys|] == keys;
    }

    method DropIfHeld(key: string)
      modifies this`ready, this`declined, this`emitted
      ensures Drafted() == HeldOne(wanted, now, old(Drafted()), key)
    {
      if key in ready {
        var reason := HeldDrop(ready[key], WantAt(wanted, key), now);
        if reason.Some? { Drop(key, reason.value); }
      }
    }

    /** Rejections and lapses first, whatever the kernel accepts. */
    method Screen()
      requires wanted == map[] && rejected == map[] && Drafted() == Families.Drafted(family)
      modifies this`wanted, this`rejected, this`ready, this`declined, this`preparing, this`emitted
      ensures wanted == WantedBy(o, family) && rejected == RejectedBy(WantedBy(o, family))
      ensures Drafted() == Screened(o, family, now)
    {
      NormalizePolicies(Sorted(CandidateKeys(family)));
      DropHeld(Sorted(ready.Keys));
    }

    method Submit(key: string) returns (defect: Option<Defect>)
      requires key in ready && wanted == WantedBy(o, family)
      modifies this`ready, this`declined, this`submitted, this`issued, this`served, this`numReservations, this`emitted
      ensures SubmittedOne(o, family, wanted, now, old(Drafted()), key) == if defect.Some? then Err(defect.value) else Ok(Drafted())
    {
      var act := ready[key];
      var reading := FactOf(family.facts, key);
      if reading.Err? { return Some(reading.error); }
      var reason := SubmitDrop(act.asked.reading, reading.value, now);
      if reason.Some? {
        Drop(key, reason.value);
        return None;
      }
      var number := issued;
      issued := issued + 1;
      var plan := PlanOf(o, act, key, number);
      if plan.Err? { return Some(plan.error); }
      ready := ready - {key};
      submitted := submitted[key := Sent(plan.value.intentId, act.asked.task, act.asked.reading)];
      served := key;
      numReservations := numReservations + 1;
      Emit(Submitted(key, number, plan.value, act.asked.id, PriorityOf(WantAt(wanted, key))));
      return None;
    }

    method SubmitAll(keys: seq<string>) returns (defect: Option<Defect>)
      requires wanted == WantedBy(o, family) && AllReady(Drafted(), keys)
      modifies this`ready, this`declined, this`submitted, this`issued, this`served, this`numReservations, this`emitted
      ensures SubmittedAll(o, family, wanted, now, old(Drafted()), keys) == if defect.Some? then Err(defect.value) else Ok(Drafted())
    {
      var k := 0;
      while k < |keys| && numReservations < o.maxReservations
        invariant k <= |keys| && AllReady(Drafted(), keys[k..])
        invariant SubmittedAll(o, family, wanted, now, Drafted(), keys[k..]) == SubmittedAll(o, family, wanted, now, old(Drafted()), keys)
      {
        var key := keys[k];
        assert keys[k..][0] == key && keys[k..][1..] == keys[k + 1..] && key in ready;
        StillReady(Drafted(), keys[k..]);
        var busy := (family.view.Some? && key in family.view.value.busy) || key in submitted;
        if !busy && !BackedOff(family, key, ready[key].asked.task) {
          defect := Submit(key);
          if defect.Some? { return; }
        }
        k := k + 1;
      }
      return None;
    }

    /** Every candidate that may be prepared now, unless a reading of one names no block. */
    method FindPreparable() returns (keys: Result<set<string>, Defect>)
      requires wanted == WantedBy(o, family)
      ensures keys == PreparableAll(o, family, wanted, now, Drafted())
    {
      var found: set<string> := {};
      var left := wanted.Keys;
      var d := Draft(declined, ready, preparing, submitted, issued, served, numReservations, emitted);
      while left != {}
        invariant left <= wanted.Keys
        invariant forall key :: key in wanted && key !in left ==> Preparable(o, family, wanted, now, d, key).Ok?
        invariant found == set key | key in wanted && key !in left && Preparable(o, family, wanted, now, d, key) == Ok(true)
        decreases left
      {
        var key :| key in left;
        var may := Preparable(o, family, wanted, now, d, key);
        if may.Err? {
          PreparableFails(o, family, wanted, now, d, key);
          return Err(may.error);
        }
        if may.value { found := found + {key}; }
        left := left - {key};
      }
      assert found == set key | key in wanted && Preparable(o, family, wanted, now, d, key) == Ok(true);
      return Ok(found);
    }

    method AskAll(keys: seq<string>)
      requires wanted == WantedBy(o, family) && forall k :: 0 <= k < |keys| ==> Askable(family, wanted, keys[k])
      modifies this`preparing, this`issued, this`served, this`emitted
      ensures Drafted() == AskedAll(o, family, wanted, old(Drafted()), keys)
    {
      for k := 0 to |keys|
        invariant forall j :: 0 <= j < |keys[k..]| ==> Askable(family, wanted, keys[k..][j])
        invariant AskedAll(o, family, wanted, Drafted(), keys[k..]) == AskedAll(o, family, wanted, old(Drafted()), keys)
      {
        var outstanding := |preparing|;
        if o.concurrency.Some? && outstanding >= o.concurrency.value { return; }
        if numReservations + outstanding + |ready| >= o.maxReservations { return; }
        assert Askable(family, wanted, keys[k..][0]) && keys[k..][1..] == keys[k + 1..];
        AskFor(keys[k], wanted[keys[k]].task, FactOf(family.facts, keys[k]).value.value, DigestAt(family.inputs, keys[k]).value);
      }
    }

    method AskFor(key: string, task: Task, reading: Reading, input: Data)
      modifies this`preparing, this`issued, this`served, this`emitted
      ensures Drafted() == AskedOne(o, family, task, reading, input, old(Drafted()), key)
    {
      var number := issued;
      issued := issued + 1;
      var ticket := TicketOf(o.runId, number);
      preparing := preparing[key := Preparation(ticket, reading, FingerprintOf(family, key), task.name, task.conflicts, false)];
      served := key;
      Emit(Asked(PrepareRequest(ticket, key, task.name, number, reading.version, input)));
    }

    method RankPreparable(keys: set<string>, ghost d: Draft) returns (ranked: seq<string>)
      requires PreparableAll(o, family, wanted, now, d) == Ok(keys)
      ensures ranked == Ranked(keys, family.served, Priorities(wanted, keys))
      ensures forall k :: 0 <= k < |ranked| ==> Askable(family, wanted, ranked[k])
    {
      var priority := Priorities(wanted, keys);
      RankedRight(keys, family.served, priority);
      PreparableAreAskable(o, family, wanted, now, d, keys);
      ranked := Ranked(keys, family.served, priority);
      forall k | 0 <= k < |ranked| ensures Askable(family, wanted, ranked[k]) { assert ranked[k] in ranked; }
    }

    method PrepareNext() returns (defect: Option<Defect>)
      requires wanted == WantedBy(o, family)
      modifies this`preparing, this`issued, this`served, this`emitted
      ensures PreparedNext(o, family, wanted, now, old(Drafted())) == if defect.Some? then Err(defect.value) else Ok(Drafted())
    {
      ghost var before := Drafted();
      var keys := FindPreparable();
      if keys.Err? { return Some(keys.error); }
      var ranked := RankPreparable(keys.value, before);
      AskAll(ranked);
      PreparedInTurn(o, family, wanted, now, before, keys.value);
      return None;
    }

    /** What is done only while the kernel accepts new work. */
    method ActOn() returns (defect: Option<Defect>)
      requires wanted == WantedBy(o, family)
      modifies this`ready, this`declined, this`preparing, this`submitted, this`issued, this`served, this`numReservations, this`emitted
      ensures Acted(o, family, now, old(Drafted())) == if defect.Some? then Err(defect.value) else Ok(Drafted())
    {
      if family.view.None? || !family.view.value.acceptingNewWork { return None; }
      var priority := Priorities(wanted, ready.Keys);
      RankedRight(ready.Keys, family.served, priority);
      var keys := Ranked(ready.Keys, family.served, priority);
      assert AllReady(Drafted(), keys) by {
        forall k | 0 <= k < |keys| ensures keys[k] in ready { assert keys[k] in keys; }
      }
      defect := SubmitAll(keys);
      if defect.Some? { return; }
      defect := PrepareNext();
    }
  }

  lemma PreparedInTurn(o: Options, family: Family, wanted: map<string, Wanted>, now: int, d: Draft, keys: set<string>)
    requires PreparableAll(o, family, wanted, now, d) == Ok(keys)
    ensures forall key :: key in keys ==> key in Priorities(wanted, keys)
    ensures forall k :: 0 <= k < |Ranked(keys, family.served, Priorities(wanted, keys))| ==>
              Askable(family, wanted, Ranked(keys, family.served, Priorities(wanted, keys))[k])
    ensures PreparedNext(o, family, wanted, now, d) == Ok(AskedAll(o, family, wanted, d, Ranked(keys, family.served, Priorities(wanted, keys))))
  {
    var ranked := Ranked(keys, family.served, Priorities(wanted, keys));
    RankedRight(keys, family.served, Priorities(wanted, keys));
    PreparableAreAskable(o, family, wanted, now, d, keys);
    forall k | 0 <= k < |ranked| ensures Askable(family, wanted, ranked[k]) { assert ranked[k] in ranked; }
  }

  /** What `all` holds of `keys`. */
  function Below<T>(all: map<string, T>, keys: seq<string>): map<string, T> {
    if keys == [] then map[]
    else
      var before, last := Below(all, keys[..|keys| - 1]), keys[|keys| - 1];
      if last in all then before[last := all[last]] else before
  }

  lemma {:induction false} BelowExactly<T>(all: map<string, T>, keys: seq<string>)
    ensures Below(all, keys) == map key | key in all && key in keys :: all[key]
  {
    if keys != [] {
      BelowExactly(all, keys[..|keys| - 1]);
      assert keys == keys[..|keys| - 1] + [keys[|keys| - 1]];
    }
  }

  lemma BelowWhole<T>(all: map<string, T>, keys: seq<string>)
    requires forall key :: key in all ==> key in keys
    ensures Below(all, keys) == all
  {
    BelowExactly(all, keys);
  }

  lemma StillReady(d: Draft, keys: seq<string>)
    requires AllReady(d, keys) && keys != []
    ensures AllReady(d.(ready := d.ready - {keys[0]}), keys[1..])
  {
  }

  lemma PreparableFails(o: Options, family: Family, wanted: map<string, Wanted>, now: int, d: Draft, key: string)
    requires key in wanted && Preparable(o, family, wanted, now, d, key).Err?
    ensures PreparableAll(o, family, wanted, now, d) == Err(Preparable(o, family, wanted, now, d, key).error)
  {
  }

  /** What the family decides, drafted in place from what it holds. */
  method Decide(o: Options, family: Family, now: int) returns (result: Result<(Family, seq<Emitted>), Defect>)
    ensures result == Decided(o, family, now)
  {
    var draft := new Drafting(o, family, now);
    draft.Screen();
    var defect := draft.ActOn();
    if defect.Some? { return Err(defect.value); }
    if StaleUnread(family) { return Err(NamesNoBlock); }
    return Ok((family.(ready := draft.ready, preparing := draft.preparing, submitted := draft.submitted, served := draft.served,
                       issued := draft.issued, rejected := draft.rejected,
                       declined := StillDeclined(family, draft.declined), stale := StillStale(family)),
               draft.emitted));
  }
}
