/** Levels keyed by names, written whole or in part, and what each key of one then reads as. */
module KeyedLevels {
  import opened Basics
  import opened DataValues

  /** What a key reads as: a value or an absence, each with the read point and deadline it came with, or not known. */
  datatype KeyRecord<+T> =
    | PresentKey(value: T, basis: Data, expiry: Option<int>)
    | AbsentKey(basis: Data, expiry: Option<int>)
    | Unread(failed: bool, reason: Option<string>)

  datatype Coverage = Covered | Uncovered(failed: bool, reason: Option<string>)

  /** What is known of each key, and of those not listed: absent as of `absentBasis`, or unknown if that was never said. */
  datatype Keyed<+T> = Keyed(coverage: Coverage, absentBasis: Option<Data>, absentExpiry: Option<int>, keys: map<string, KeyRecord<T>>)

  /** A write that says all there is, one that says some keys, or one that a read of all or of some keys failed. */
  datatype KeyedWrite<+T> =
    | Complete(entries: map<string, T>, basis: Data, expiry: Option<int>, empty: bool)
    | Carried(entries: map<string, T>, absent: seq<string>, failed: seq<string>, basis: Data, expiry: Option<int>)
    | Unreadable(failing: bool, keys: Option<seq<string>>, reason: Option<string>)

  function Never<T>(): Keyed<T> {
    Keyed(Uncovered(false, None), None, None, map[])
  }

  /** A key not listed is absent if the whole was ever written, and unknown otherwise. */
  function RecordAt<T>(keyed: Keyed<T>, key: string): KeyRecord<T> {
    if key in keyed.keys then keyed.keys[key]
    else if keyed.absentBasis.None? then Unread(false, None)
    else AbsentKey(keyed.absentBasis.value, keyed.absentExpiry)
  }

  /** An empty complete scope must be asserted. */
  predicate Accepted<T>(write: KeyedWrite<T>) {
    write.Complete? && |write.entries| == 0 ==> write.empty
  }

  function Presents<T>(entries: map<string, T>, basis: Data, expiry: Option<int>): map<string, KeyRecord<T>> {
    map key | key in entries :: PresentKey(entries[key], basis, expiry)
  }

  function Marks<T>(keys: seq<string>, record: KeyRecord<T>): map<string, KeyRecord<T>> {
    map key | key in keys :: record
  }

  /** The level after one write; none if it claims emptiness unasked. */
  function Apply<T>(keyed: Keyed<T>, write: KeyedWrite<T>): Option<Keyed<T>> {
    match write
    case Unreadable(failing, keys, reason) =>
      if keys.None? then Some(keyed.(coverage := Uncovered(failing, reason)))
      else Some(keyed.(keys := keyed.keys + Marks(keys.value, Unread(failing, reason))))
    case Carried(entries, absent, failed, basis, expiry) =>
      Some(keyed.(keys := keyed.keys + Marks(failed, Unread(true, None)) + Marks(absent, AbsentKey(basis, expiry))
                          + Presents(entries, basis, expiry)))
    case Complete(entries, basis, expiry, empty) =>
      if !Accepted(write) then None
      else Some(Keyed(Covered, Some(basis), expiry, Presents(entries, basis, expiry)))
  }

  function ApplyAll<T>(keyed: Keyed<T>, writes: seq<KeyedWrite<T>>): Option<Keyed<T>>
    decreases |writes|
  {
    if writes == [] then Some(keyed)
    else
      var before := ApplyAll(keyed, writes[..|writes| - 1]);
      if before.None? then None else Apply(before.value, writes[|writes| - 1])
  }

  // ----- The last word -----

  /** What one write says of `key`, if anything: an entry outweighs an absence, and an absence a failure. */
  function Says<T>(write: KeyedWrite<T>, key: string): Option<KeyRecord<T>> {
    match write
    case Complete(entries, basis, expiry, _) =>
      Some(if key in entries then PresentKey(entries[key], basis, expiry) else AbsentKey(basis, expiry))
    case Carried(entries, absent, failed, basis, expiry) =>
      if key in entries then Some(PresentKey(entries[key], basis, expiry))
      else if key in absent then Some(AbsentKey(basis, expiry))
      else if key in failed then Some(Unread(true, None))
      else None
    case Unreadable(failing, keys, reason) =>
      if keys.Some? && key in keys.value then Some(Unread(failing, reason)) else None
  }

  function LastWord<T>(writes: seq<KeyedWrite<T>>, key: string): KeyRecord<T>
    decreases |writes|
  {
    if writes == [] then Unread(false, None)
    else
      var last := Says(writes[|writes| - 1], key);
      if last.Some? then last.value else LastWord(writes[..|writes| - 1], key)
  }

  lemma ApplyingSays<T>(keyed: Keyed<T>, write: KeyedWrite<T>, key: string)
    requires Apply(keyed, write).Some?
    ensures RecordAt(Apply(keyed, write).value, key)
            == if Says(write, key).Some? then Says(write, key).value else RecordAt(keyed, key)
  {
  }

  /**
   * After any history of accepted writes a key reads as the last of them that was complete or named it
   * says, and as unknown before any; a scope that could not be read changes no key.
   */
  lemma {:induction false} KeysReadAsTheLastWord<T>(writes: seq<KeyedWrite<T>>, key: string)
    requires ApplyAll(Never<T>(), writes).Some?
    ensures RecordAt(ApplyAll(Never<T>(), writes).value, key) == LastWord(writes, key)
    decreases |writes|
  {
    if writes != [] {
      var init := writes[..|writes| - 1];
      KeysReadAsTheLastWord(init, key);
      ApplyingSays(ApplyAll(Never<T>(), init).value, writes[|writes| - 1], key);
    }
  }

  /** A history is refused exactly when some write of it is an empty complete scope no one asserted. */
  lemma {:induction false} RefusedHistories<T>(keyed: Keyed<T>, writes: seq<KeyedWrite<T>>)
    ensures ApplyAll(keyed, writes).Some? <==> forall k :: 0 <= k < |writes| ==> Accepted(writes[k])
    decreases |writes|
  {
    if writes != [] {
      var init, last := writes[..|writes| - 1], writes[|writes| - 1];
      assert writes == init + [last];
      RefusedHistories(keyed, init);
      if ApplyAll(keyed, writes).Some? {
        forall k | 0 <= k < |writes| ensures Accepted(writes[k]) { if k < |init| { assert init[k] == writes[k]; } }
      } else if ApplyAll(keyed, init).Some? {
        assert !Accepted(writes[|writes| - 1]);
      } else {
        var k :| 0 <= k < |init| && !Accepted(init[k]);
        assert writes[k] == init[k];
      }
    }
  }

  // ----- Maps over keyed levels -----

  function Earlier(left: Option<int>, right: Option<int>): Option<int> {
    if left.None? then right else if right.None? then left else Some(Min(left.value, right.value))
  }

  /** How a map projects one key: `None` makes it absent; a deadline only ever shortens its expiry. */
  datatype Projection<!I, !O> = Projection(
    project: (I, string, Data, Option<int>) -> Option<O>,
    expiry: Option<(I, string) -> Option<int>>)

  predicate DeadlineAllowed(deadline: Option<int>) {
    deadline.None? || (IsSafeInteger(deadline.value) && deadline.value >= 0)
  }

  function DeadlineOf<I, O>(p: Projection<I, O>, value: I, key: string): Option<int> {
    if p.expiry.None? then None else p.expiry.value(value, key)
  }

  /** A projected key; `None` if its deadline is malformed. */
  function ProjectKey<I, O>(p: Projection<I, O>, key: string, fact: KeyRecord<I>): Option<KeyRecord<O>> {
    match fact
    case AbsentKey(basis, expiry) => Some(AbsentKey(basis, expiry))
    case Unread(failed, reason) => Some(Unread(failed, reason))
    case PresentKey(value, basis, expiry) =>
      match p.project(value, key, basis, expiry)
      case None => Some(AbsentKey(basis, expiry))
      case Some(projected) =>
        var deadline := DeadlineOf(p, value, key);
        if !DeadlineAllowed(deadline) then None else Some(PresentKey(projected, basis, Earlier(expiry, deadline)))
  }

  /** Applies `p` to the keys that hold a value, and to nothing else of the level. */
  function MapKeyed<I, O>(p: Projection<I, O>, keyed: Keyed<I>): Option<Keyed<O>> {
    if exists key :: key in keyed.keys && ProjectKey(p, key, keyed.keys[key]).None? then None
    else Some(Keyed(keyed.coverage, keyed.absentBasis, keyed.absentExpiry,
                    map key | key in keyed.keys :: ProjectKey(p, key, keyed.keys[key]).value))
  }

  /**
   * Projecting a level and then reading a key is reading the key and then projecting it; the scope's
   * coverage is kept, and so is the read point every key known at all came from.
   */
  lemma MappingCommutesWithReading<I, O>(p: Projection<I, O>, keyed: Keyed<I>, key: string)
    requires MapKeyed(p, keyed).Some?
    ensures ProjectKey(p, key, RecordAt(keyed, key)) == Some(RecordAt(MapKeyed(p, keyed).value, key))
    ensures MapKeyed(p, keyed).value.coverage == keyed.coverage
    ensures BasisOf(RecordAt(MapKeyed(p, keyed).value, key)) == BasisOf(RecordAt(keyed, key))
  {
  }

  function BasisOf<T>(record: KeyRecord<T>): Option<Data> {
    if record.Unread? then None else Some(record.basis)
  }

  function ExpiryOf<T>(record: KeyRecord<T>): Option<int> {
    if record.Unread? then None else record.expiry
  }

  /** No projection makes a key hold longer than the read it came from, nor an absent one any less absent. */
  lemma MappingNeverLengthens<I, O>(p: Projection<I, O>, keyed: Keyed<I>, key: string)
    requires MapKeyed(p, keyed).Some?
    ensures ExpiryOf(RecordAt(keyed, key)).Some? ==>
              var after := ExpiryOf(RecordAt(MapKeyed(p, keyed).value, key));
              after.Some? && after.value <= ExpiryOf(RecordAt(keyed, key)).value
    ensures RecordAt(keyed, key).AbsentKey? ==> RecordAt(MapKeyed(p, keyed).value, key) == AbsentKey(RecordAt(keyed, key).basis, RecordAt(keyed, key).expiry)
    ensures RecordAt(keyed, key).Unread? <==> RecordAt(MapKeyed(p, keyed).value, key).Unread?
  {
    MappingCommutesWithReading(p, keyed, key);
  }

  /** Two projections in turn read, key by key, as one after the other. */
  lemma MappingTwice<I, M, O>(p: Projection<I, M>, q: Projection<M, O>, keyed: Keyed<I>, key: string)
    requires MapKeyed(p, keyed).Some? && MapKeyed(q, MapKeyed(p, keyed).value).Some?
    ensures ProjectKey(q, key, ProjectKey(p, key, RecordAt(keyed, key)).value)
            == Some(RecordAt(MapKeyed(q, MapKeyed(p, keyed).value).value, key))
  {
    MappingCommutesWithReading(p, keyed, key);
    MappingCommutesWithReading(q, MapKeyed(p, keyed).value, key);
  }

  // ----- When a level's knowledge lapses -----

  /** Some key of the level, or the absence of all others, lapses at `at`. */
  ghost predicate Carries<T>(keyed: Keyed<T>, at: int) {
    keyed.absentExpiry == Some(at) || exists key :: key in keyed.keys && ExpiryOf(keyed.keys[key]) == Some(at)
  }

  /** Whatever a key's record says it lapses at is among the expiries its level wakes watchers at. */
  lemma KeysLapseWithTheirLevel<T>(keyed: Keyed<T>, key: string, at: int)
    requires ExpiryOf(RecordAt(keyed, key)) == Some(at)
    ensures Carries(keyed, at)
  {
    if key in keyed.keys { assert ExpiryOf(keyed.keys[key]) == Some(at); }
  }

  /**
   * After any history of accepted writes a projected key reads as the projection of the last word said of
   * it, and the projected level wakes its watchers whenever that lapses.
   */
  lemma ProjectedKeysReadAsTheLastWord<I, O>(p: Projection<I, O>, writes: seq<KeyedWrite<I>>, key: string)
    requires ApplyAll(Never<I>(), writes).Some? && MapKeyed(p, ApplyAll(Never<I>(), writes).value).Some?
    ensures var projected := RecordAt(MapKeyed(p, ApplyAll(Never<I>(), writes).value).value, key);
            && ProjectKey(p, key, LastWord(writes, key)) == Some(projected)
            && (ExpiryOf(projected).Some? ==> Carries(MapKeyed(p, ApplyAll(Never<I>(), writes).value).value, ExpiryOf(projected).value))
  {
    var level := ApplyAll(Never<I>(), writes).value;
    var projected := RecordAt(MapKeyed(p, level).value, key);
    KeysReadAsTheLastWord(writes, key);
    MappingCommutesWithReading(p, level, key);
    if ExpiryOf(projected).Some? { KeysLapseWithTheirLevel(MapKeyed(p, level).value, key, ExpiryOf(projected).value); }
  }
}
