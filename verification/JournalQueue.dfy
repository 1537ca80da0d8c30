/** The journal's write queue: one append at a time, in order, within a byte capacity, and finalized at most once. */
module JournalQueue {
  import opened Basics
  import opened DataValues
  import opened Graphs
  import opened EngineRuns
  import opened Journal
  import opened Replay

  datatype Failure = Overflowed | AppendFailed

  datatype Queued = Queued(entry: Entry, bytes: nat)

  /** The one write under way: taken from the queue, or handed to the sink as it was compacted. */
  datatype Flight =
    | Idle
    | Shifted(entry: Entry, bytes: nat)
    | Appending(entry: Entry, bytes: nat, compacted: Entry, next: DeltaState)

  /** What the queue does not keep: what it was offered and took, what the sink accepted, and how it ended. */
  datatype Past = Past(offered: seq<Entry>, admitted: seq<Entry>, accepted: seq<Entry>, finals: nat, broken: bool)

  datatype Status = Status(
    queue: seq<Queued>,
    bytes: int,
    flight: Flight,
    closed: bool,
    closing: bool,
    finalizing: bool,
    timedOut: bool,
    failure: Option<Failure>,
    deltas: DeltaState,
    past: Past)

  function Opened(): Status {
    Status([], 0, Idle, false, false, false, false, None, map[], Past([], [], [], 0, false))
  }

  function FlightBytes(flight: Flight): nat {
    if flight.Idle? then 0 else flight.bytes
  }

  function TotalBytes(queue: seq<Queued>): nat {
    if queue == [] then 0 else queue[0].bytes + TotalBytes(queue[1..])
  }

  function Entries(queue: seq<Queued>): seq<Entry> {
    seq(|queue|, k requires 0 <= k < |queue| => queue[k].entry)
  }

  function InFlight(flight: Flight): seq<Entry> {
    if flight.Idle? then [] else [flight.entry]
  }

  // ----- What each callback does -----

  /** Takes the next write from the queue or, once nothing is left of a journal being closed, finalizes it. */
  function WriteNext(q: Status): Status {
    if !q.flight.Idle? || q.finalizing then q
    else if q.queue != [] then q.(queue := q.queue[1..], flight := Shifted(q.queue[0].entry, q.queue[0].bytes))
    else if !q.closing then q
    else q.(finalizing := true, past := q.past.(finals := q.past.finals + if q.timedOut then 0 else 1))
  }

  function Finalized(q: Status): Status {
    WriteNext(q.(closed := true, closing := true))
  }

  /** The journal closes at its first failure only; `stops` says that failing the graph finalizes it on the way. */
  function Closed(q: Status, failure: Failure, stops: bool): Status {
    if q.failure.Some? then q
    else if stops then Finalized(q.(closed := true, failure := Some(failure)))
    else q.(closed := true, failure := Some(failure))
  }

  function Appended(q: Status, capacity: nat, entry: Entry, size: nat, stops: bool): Status {
    var offered := q.(past := q.past.(offered := q.past.offered + [entry]));
    if q.closed || q.closing then offered
    else if q.bytes + size > capacity then Closed(offered, Overflowed, stops)
    else WriteNext(offered.(queue := q.queue + [Queued(entry, size)], bytes := q.bytes + size,
                            past := offered.past.(admitted := q.past.admitted + [entry])))
  }

  /** Everything not yet accepted is dropped. */
  function Cleared(q: Status): Status {
    q.(queue := [], bytes := 0, flight := Idle, past := q.past.(broken := true))
  }

  /** A write under way that the sink has not been handed yet no longer fits once it takes `size` bytes. */
  predicate Outgrows(q: Status, capacity: nat, size: nat) {
    q.flight.Shifted? && size > q.flight.bytes && q.bytes + (size - q.flight.bytes) > capacity
  }

  /** The write under way is compacted and sized again; one that no longer fits fails the journal instead. */
  function Sized(q: Status, capacity: nat, compacted: Entry, size: nat, stops: bool): Status
    requires q.flight.Shifted?
  {
    if Outgrows(q, capacity, size) then WriteNext(Closed(Cleared(q), Overflowed, stops))
    else q.(bytes := q.bytes + (size - q.flight.bytes),
            flight := Appending(q.flight.entry, size, compacted, AfterEntry(q.deltas, q.flight.entry)))
  }

  function AfterEntry(previous: DeltaState, entry: Entry): DeltaState {
    if entry.StepEntry? then AfterCompactingAll(previous, entry.step.writes) else previous
  }

  function Landed(q: Status): Status
    requires q.flight.Appending?
  {
    q.(deltas := q.flight.next, bytes := q.bytes - q.flight.bytes, flight := Idle,
       past := q.past.(accepted := q.past.accepted + [q.flight.compacted]))
  }

  function Succeeded(q: Status): Status
    requires q.flight.Appending?
  {
    WriteNext(Landed(q))
  }

  function Failed(q: Status, timeout: bool, stops: bool): Status {
    WriteNext(Closed(Cleared(q).(timedOut := q.timedOut || timeout), AppendFailed, stops))
  }

  // ----- What every callback keeps -----

  ghost predicate CompactsEntry(previous: DeltaState, entry: Entry, compacted: Entry) {
    if entry.StepEntry? then
      compacted == StepEntry(entry.step.(writes := WritesOf(compacted)), entry.derived)
      && CompactsAll(previous, entry.step.writes, WritesOf(compacted))
    else Describes(entry, compacted)
  }

  /** `accepted` is how the first entries of `admitted` were compacted, and `deltas` what that left. */
  ghost predicate Journaled(admitted: seq<Entry>, accepted: seq<Entry>, deltas: DeltaState) {
    && |accepted| <= |admitted|
    && CompactsEntries(map[], admitted[..|accepted|], accepted)
    && deltas == AfterEntries(map[], admitted[..|accepted|])
  }

  function AfterEntries(previous: DeltaState, entries: seq<Entry>): DeltaState
    decreases |entries|
  {
    if entries == [] then previous else AfterEntries(AfterEntry(previous, entries[0]), entries[1..])
  }

  ghost predicate Counted(q: Status, capacity: nat) {
    q.bytes == TotalBytes(q.queue) + FlightBytes(q.flight) && q.bytes <= capacity
  }

  /** What was taken and not yet accepted is under way or waits its turn, in order; or everything was dropped. */
  ghost predicate InTurn(q: Status) {
    && Journaled(q.past.admitted, q.past.accepted, q.deltas)
    && (if q.past.broken then q.flight.Idle? && q.queue == [] && q.failure.Some?
        else q.past.admitted[|q.past.accepted|..] == InFlight(q.flight) + Entries(q.queue))
    && (q.flight.Appending? ==> CompactsEntry(q.deltas, q.flight.entry, q.flight.compacted) && q.flight.next == AfterEntry(q.deltas, q.flight.entry))
  }

  ghost predicate Ending(q: Status) {
    && (q.failure.Some? || q.closing ==> q.closed)
    && (q.finalizing ==> q.closing && q.flight.Idle? && q.queue == [])
    && q.past.finals == (if q.finalizing && !q.timedOut then 1 else 0)
    && (q.timedOut ==> q.past.broken)
  }

  ghost predicate Offered(q: Status) {
    q.past.admitted <= q.past.offered && (q.past.admitted == q.past.offered || q.closed)
  }

  ghost predicate Sound(q: Status, capacity: nat) {
    Counted(q, capacity) && InTurn(q) && Ending(q) && Offered(q)
  }

  lemma WritingNextKeeps(q: Status, capacity: nat)
    requires Sound(q, capacity)
    ensures Sound(WriteNext(q), capacity)
  {
    if q.flight.Idle? && !q.finalizing && q.queue != [] {
      var next := WriteNext(q);
      assert Entries(q.queue) == [q.queue[0].entry] + Entries(q.queue[1..]);
    }
  }

  lemma FinalizingKeeps(q: Status, capacity: nat)
    requires Sound(q, capacity)
    ensures Sound(Finalized(q), capacity)
  {
    WritingNextKeeps(q.(closed := true, closing := true), capacity);
  }

  lemma ClosingKeeps(q: Status, capacity: nat, failure: Failure, stops: bool)
    requires q.failure.Some? ==> q.closed
    requires Sound(q.(closed := true, failure := if q.failure.Some? then q.failure else Some(failure)), capacity)
    ensures Sound(Closed(q, failure, stops), capacity)
  {
    if q.failure.Some? {
      assert q.(closed := true, failure := q.failure) == q;
    } else if stops {
      FinalizingKeeps(q.(closed := true, failure := Some(failure)), capacity);
    }
  }

  lemma {:induction false} TotalOneMore(queue: seq<Queued>, one: Queued)
    ensures TotalBytes(queue + [one]) == TotalBytes(queue) + one.bytes
  {
    if queue == [] {
      assert queue + [one] == [one];
    } else {
      assert (queue + [one])[1..] == queue[1..] + [one];
      TotalOneMore(queue[1..], one);
    }
  }

  lemma AppendingKeeps(q: Status, capacity: nat, entry: Entry, size: nat, stops: bool)
    requires Sound(q, capacity)
    ensures Sound(Appended(q, capacity, entry, size, stops), capacity)
  {
    var offered := q.(past := q.past.(offered := q.past.offered + [entry]));
    if q.closed || q.closing {
    } else if q.bytes + size > capacity {
      ClosingOfferedKeeps(q, capacity, offered, stops);
    } else {
      var admitted := offered.(queue := q.queue + [Queued(entry, size)], bytes := q.bytes + size,
                               past := offered.past.(admitted := q.past.admitted + [entry]));
      TotalOneMore(q.queue, Queued(entry, size));
      AdmittingInTurn(q, admitted, entry, size);
      WritingNextKeeps(admitted, capacity);
    }
  }

  lemma ClosingOfferedKeeps(q: Status, capacity: nat, offered: Status, stops: bool)
    requires Sound(q, capacity) && !q.closed && offered == q.(past := q.past.(offered := offered.past.offered))
    requires q.past.admitted <= offered.past.offered
    ensures Sound(Closed(offered, Overflowed, stops), capacity)
  {
    var closed := offered.(closed := true, failure := Some(Overflowed));
    assert Sound(closed, capacity);
    FinalizingKeeps(closed, capacity);
  }

  lemma AdmittingInTurn(q: Status, admitted: Status, entry: Entry, size: nat)
    requires InTurn(q) && q.failure.None?
    requires admitted == q.(queue := q.queue + [Queued(entry, size)], bytes := admitted.bytes,
                            past := q.past.(admitted := q.past.admitted + [entry], offered := admitted.past.offered))
    ensures InTurn(admitted)
  {
    var n := |q.past.accepted|;
    assert (q.past.admitted + [entry])[..n] == q.past.admitted[..n];
    assert (q.past.admitted + [entry])[n..] == q.past.admitted[n..] + [entry];
    assert Entries(admitted.queue) == Entries(q.queue) + [entry];
  }

  lemma ClearingKeeps(q: Status, capacity: nat, failure: Failure, timedOut: bool)
    requires Sound(q, capacity) && !q.flight.Idle?
    ensures Sound(Cleared(q).(timedOut := timedOut, closed := true, failure := if q.failure.Some? then q.failure else Some(failure)), capacity)
  {
  }

  lemma BreakingKeeps(q: Status, capacity: nat, failure: Failure, timedOut: bool, stops: bool)
    requires Sound(q, capacity) && !q.flight.Idle?
    ensures Sound(WriteNext(Closed(Cleared(q).(timedOut := timedOut), failure, stops)), capacity)
  {
    var cleared := Cleared(q).(timedOut := timedOut);
    ClearingKeeps(q, capacity, failure, timedOut);
    ClosingKeeps(cleared, capacity, failure, stops);
    WritingNextKeeps(Closed(cleared, failure, stops), capacity);
  }

  lemma SizingKeeps(q: Status, capacity: nat, compacted: Entry, size: nat, stops: bool)
    requires Sound(q, capacity) && q.flight.Shifted? && CompactsEntry(q.deltas, q.flight.entry, compacted)
    ensures Sound(Sized(q, capacity, compacted, size, stops), capacity)
  {
    if Outgrows(q, capacity, size) {
      BreakingKeeps(q, capacity, Overflowed, q.timedOut, stops);
      assert Cleared(q) == Cleared(q).(timedOut := q.timedOut);
    }
  }

  lemma {:induction false} CompactedEntryOneMore(previous: DeltaState, entries: seq<Entry>, compacted: seq<Entry>, entry: Entry, one: Entry)
    requires CompactsEntries(previous, entries, compacted) && CompactsEntry(AfterEntries(previous, entries), entry, one)
    ensures CompactsEntries(previous, entries + [entry], compacted + [one])
    ensures AfterEntries(previous, entries + [entry]) == AfterEntry(AfterEntries(previous, entries), entry)
    decreases |entries|
  {
    if entries == [] {
      assert entries + [entry] == [entry] && compacted + [one] == [one] && [entry][1..] == [] && [one][1..] == [];
    } else {
      CompactedEntryOneMore(AfterEntry(previous, entries[0]), entries[1..], compacted[1..], entry, one);
      assert (entries + [entry])[1..] == entries[1..] + [entry] && (compacted + [one])[1..] == compacted[1..] + [one];
    }
  }

  lemma SucceedingInTurn(q: Status, after: Status)
    requires InTurn(q) && q.flight.Appending?
    requires after == q.(deltas := q.flight.next, bytes := after.bytes, flight := Idle,
                         past := q.past.(accepted := q.past.accepted + [q.flight.compacted]))
    ensures InTurn(after)
  {
    var n, admitted := |q.past.accepted|, q.past.admitted;
    assert admitted[n..] == [q.flight.entry] + Entries(q.queue);
    assert admitted[n] == admitted[n..][0] && admitted[n + 1..] == admitted[n..][1..];
    assert admitted[..n + 1] == admitted[..n] + [admitted[n]];
    CompactedEntryOneMore(map[], admitted[..n], q.past.accepted, q.flight.entry, q.flight.compacted);
  }

  lemma SucceedingKeeps(q: Status, capacity: nat)
    requires Sound(q, capacity) && q.flight.Appending?
    ensures Sound(Succeeded(q), capacity)
  {
    SucceedingInTurn(q, Landed(q));
    WritingNextKeeps(Landed(q), capacity);
  }

  lemma FailingKeeps(q: Status, capacity: nat, timeout: bool, stops: bool)
    requires Sound(q, capacity) && !q.flight.Idle?
    ensures Sound(Failed(q, timeout, stops), capacity)
  {
    BreakingKeeps(q, capacity, AppendFailed, q.timedOut || timeout, stops);
  }

  // ----- Over whole runs -----

  datatype Event =
    | Append(entry: Entry, size: nat, stops: bool)
    | Size(compacted: Entry, size: nat, stops: bool)
    | Accept
    | Refuse(timeout: bool, stops: bool)
    | Finalize

  ghost predicate Possible(q: Status, event: Event) {
    match event
    case Append(_, _, _) => true
    case Size(compacted, _, _) => q.flight.Shifted? && CompactsEntry(q.deltas, q.flight.entry, compacted)
    case Accept => q.flight.Appending?
    case Refuse(_, _) => !q.flight.Idle?
    case Finalize => true
  }

  function After(q: Status, capacity: nat, event: Event): Status
    requires Possible(q, event)
  {
    match event
    case Append(entry, size, stops) => Appended(q, capacity, entry, size, stops)
    case Size(compacted, size, stops) => Sized(q, capacity, compacted, size, stops)
    case Accept => Succeeded(q)
    case Refuse(timeout, stops) => Failed(q, timeout, stops)
    case Finalize => Finalized(q)
  }

  ghost predicate Reaches(q: Status, capacity: nat, events: seq<Event>, last: Status)
    decreases |events|
  {
    if events == [] then last == q
    else Possible(q, events[0]) && Reaches(After(q, capacity, events[0]), capacity, events[1..], last)
  }

  lemma AfterSound(q: Status, capacity: nat, event: Event)
    requires Sound(q, capacity) && Possible(q, event)
    ensures Sound(After(q, capacity, event), capacity)
  {
    match event
    case Append(entry, size, stops) => AppendingKeeps(q, capacity, entry, size, stops);
    case Size(compacted, size, stops) => SizingKeeps(q, capacity, compacted, size, stops);
    case Accept => SucceedingKeeps(q, capacity);
    case Refuse(timeout, stops) => FailingKeeps(q, capacity, timeout, stops);
    case Finalize => FinalizingKeeps(q, capacity);
  }

  lemma {:induction false} ReachedSound(q: Status, capacity: nat, events: seq<Event>, last: Status)
    requires Sound(q, capacity) && Reaches(q, capacity, events, last)
    ensures Sound(last, capacity)
    decreases |events|
  {
    if events != [] {
      AfterSound(q, capacity, events[0]);
      ReachedSound(After(q, capacity, events[0]), capacity, events[1..], last);
    }
  }

  /**
   * At every moment of every run the counted bytes are those queued and under way, within the capacity;
   * what the sink accepted is, in order and compacted, the first of what the journal took, which is the
   * first of what it was offered; until a write fails, the rest of what was taken is under way or queued, in
   * order, though the journal may have closed; compaction's memory is what the accepted writes left; and
   * the journal is finalized at most once, with nothing queued or under way, never after a write timed out.
   */
  lemma JournalConserves(capacity: nat, events: seq<Event>, last: Status)
    requires Reaches(Opened(), capacity, events, last)
    ensures Counted(last, capacity)
    ensures last.past.admitted <= last.past.offered && (!last.closed ==> last.past.admitted == last.past.offered)
    ensures Journaled(last.past.admitted, last.past.accepted, last.deltas)
    ensures !last.past.broken ==> last.past.admitted[|last.past.accepted|..] == InFlight(last.flight) + Entries(last.queue)
    ensures last.past.finals <= 1 && (last.past.finals == 1 ==> last.flight.Idle? && last.queue == [] && !last.timedOut)
  {
    OpenedSound(capacity);
    ReachedSound(Opened(), capacity, events, last);
  }

  lemma OpenedSound(capacity: nat)
    ensures Sound(Opened(), capacity)
  {
  }

  // ----- After a failure -----

  /** How much is queued and under way. */
  function Left(q: Status): nat {
    |q.queue| + if q.flight.Idle? then 0 else 1
  }

  lemma ClosedTakesNoMoreAtOnce(q: Status, capacity: nat, event: Event)
    requires Sound(q, capacity) && q.closed && Possible(q, event)
    ensures var after := After(q, capacity, event);
            && after.closed && after.past.admitted == q.past.admitted
            && |after.past.accepted| + Left(after) <= |q.past.accepted| + Left(q)
  {
    match event
    case Append(_, _, _) =>
    case Size(_, _, stops) => ClearedLeavesNothing(Cleared(q), Overflowed, stops);
    case Accept =>
    case Refuse(timeout, stops) => ClearedLeavesNothing(Cleared(q).(timedOut := q.timedOut || timeout), AppendFailed, stops);
    case Finalize =>
  }

  lemma ClearedLeavesNothing(q: Status, failure: Failure, stops: bool)
    requires q.queue == [] && q.flight.Idle? && q.closed
    ensures var after := WriteNext(Closed(q, failure, stops));
            Left(after) == 0 && after.closed && after.past.accepted == q.past.accepted && after.past.admitted == q.past.admitted
  {
  }

  lemma {:induction false} ClosedTakesNoMore(q: Status, capacity: nat, events: seq<Event>, last: Status)
    requires Sound(q, capacity) && q.closed && Reaches(q, capacity, events, last)
    ensures last.closed && last.past.admitted == q.past.admitted
    ensures |last.past.accepted| + Left(last) <= |q.past.accepted| + Left(q)
    decreases |events|
  {
    if events != [] {
      AfterSound(q, capacity, events[0]);
      ClosedTakesNoMoreAtOnce(q, capacity, events[0]);
      ClosedTakesNoMore(After(q, capacity, events[0]), capacity, events[1..], last);
    }
  }

  /** A write that fails, or outgrows the capacity as it is compacted. */
  ghost predicate Fails(q: Status, capacity: nat, event: Event)
    requires Possible(q, event)
  {
    event.Refuse? || (event.Size? && Outgrows(q, capacity, event.size))
  }

  /** What one event may do to the past: accept more, and, by failing only, drop what waits. */
  ghost predicate Grows(q: Status, after: Status, fails: bool) {
    && q.past.accepted <= after.past.accepted && (fails ==> after.past.accepted == q.past.accepted)
    && (after.past.broken <==> q.past.broken || fails)
  }

  /** Closing and finalizing change nothing of what was taken and accepted. */
  lemma ClosingSamePast(q: Status, failure: Failure, stops: bool)
    ensures Grows(q, Closed(q, failure, stops), false) && Closed(q, failure, stops).past.accepted == q.past.accepted
  {
  }

  lemma WritingSamePast(q: Status)
    ensures Grows(q, WriteNext(q), false) && WriteNext(q).past.accepted == q.past.accepted
  {
  }

  lemma AppendGrows(q: Status, capacity: nat, entry: Entry, size: nat, stops: bool)
    ensures Grows(q, Appended(q, capacity, entry, size, stops), false)
  {
    var offered := q.(past := q.past.(offered := q.past.offered + [entry]));
    ClosingSamePast(offered, Overflowed, stops);
    WritingSamePast(offered.(queue := q.queue + [Queued(entry, size)], bytes := q.bytes + size,
                             past := offered.past.(admitted := q.past.admitted + [entry])));
  }

  lemma BreakingGrows(q: Status, cleared: Status, failure: Failure, stops: bool)
    requires cleared == Cleared(q).(timedOut := cleared.timedOut)
    ensures Grows(q, WriteNext(Closed(cleared, failure, stops)), true)
  {
    ClosingSamePast(cleared, failure, stops);
    WritingSamePast(Closed(cleared, failure, stops));
  }

  lemma SizeGrows(q: Status, capacity: nat, compacted: Entry, size: nat, stops: bool)
    requires q.flight.Shifted?
    ensures Grows(q, Sized(q, capacity, compacted, size, stops), Outgrows(q, capacity, size))
  {
    if Outgrows(q, capacity, size) { BreakingGrows(q, Cleared(q), Overflowed, stops); }
  }

  lemma AcceptGrows(q: Status)
    requires q.flight.Appending?
    ensures Grows(q, Succeeded(q), false)
  {
    WritingSamePast(Landed(q));
  }

  /** Only a write that fails breaks the journal, and none is accepted with it. */
  lemma AfterGrows(q: Status, capacity: nat, event: Event)
    requires Possible(q, event)
    ensures Grows(q, After(q, capacity, event), Fails(q, capacity, event))
  {
    match event
    case Append(entry, size, stops) => AppendGrows(q, capacity, entry, size, stops);
    case Size(compacted, size, stops) => SizeGrows(q, capacity, compacted, size, stops);
    case Accept => AcceptGrows(q);
    case Refuse(timeout, stops) => BreakingGrows(q, Cleared(q).(timedOut := q.timedOut || timeout), AppendFailed, stops);
    case Finalize => WritingSamePast(q.(closed := true, closing := true));
  }

  lemma {:induction false} AcceptedGrows(q: Status, capacity: nat, events: seq<Event>, last: Status)
    requires Reaches(q, capacity, events, last)
    ensures q.past.accepted <= last.past.accepted && (q.past.broken ==> last.past.broken)
    decreases |events|
  {
    if events != [] {
      AfterGrows(q, capacity, events[0]);
      AcceptedGrows(After(q, capacity, events[0]), capacity, events[1..], last);
    }
  }

  /**
   * In any run, once a write fails, or outgrows the capacity when it is compacted, the sink accepts nothing
   * more, whatever happens.
   */
  lemma NothingFollowsAFailedAppend(capacity: nat, before: seq<Event>, q: Status, failing: Event, events: seq<Event>, last: Status)
    requires Reaches(Opened(), capacity, before, q) && Possible(q, failing) && Fails(q, capacity, failing)
    requires Reaches(After(q, capacity, failing), capacity, events, last)
    ensures last.past.accepted == q.past.accepted && Left(last) == 0
  {
    var failed := After(q, capacity, failing);
    OpenedSound(capacity);
    ReachedSound(Opened(), capacity, before, q);
    AfterSound(q, capacity, failing);
    AfterGrows(q, capacity, failing);
    ClosedTakesNoMore(failed, capacity, events, last);
    ReachedSound(failed, capacity, events, last);
    AcceptedGrows(failed, capacity, events, last);
  }

  /** Nothing waits while nothing is under way. */
  predicate Eager(q: Status) {
    q.flight.Idle? ==> q.queue == []
  }

  lemma AfterEager(q: Status, capacity: nat, event: Event)
    requires Sound(q, capacity) && Eager(q) && Possible(q, event)
    ensures Eager(After(q, capacity, event))
  {
  }

  lemma {:induction false} ReachedEager(q: Status, capacity: nat, events: seq<Event>, last: Status)
    requires Sound(q, capacity) && Eager(q) && Reaches(q, capacity, events, last)
    ensures Eager(last)
    decreases |events|
  {
    if events != [] {
      AfterSound(q, capacity, events[0]);
      AfterEager(q, capacity, events[0]);
      ReachedEager(After(q, capacity, events[0]), capacity, events[1..], last);
    }
  }

  lemma {:induction false} SomeOrder(keys: set<string>) returns (list: seq<string>)
    ensures Names(list) == keys && forall a, b :: 0 <= a < b < |list| ==> list[a] != list[b]
    decreases keys
  {
    if keys == {} {
      list := [];
    } else {
      var key :| key in keys;
      var rest := SomeOrder(keys - {key});
      assert key !in Names(rest);
      list := rest + [key];
      assert Names(list) == Names(rest) + {key};
    }
  }

  lemma SomeCompaction(previous: DeltaState, write: JournalWrite) returns (compacted: JournalWrite)
    ensures Compacts(previous, write, compacted)
  {
    compacted := write;
    if write.Full? && CompleteKeyed(write.value).Some? && write.node in previous {
      var complete := CompleteKeyed(write.value).value;
      var removed := SomeOrder(previous[write.node].entries.Keys - complete.entries.Keys);
      compacted := Delta(write.node, complete.fields, Changed(previous[write.node].entries, complete.entries), removed);
    }
  }

  lemma {:induction false} SomeCompactions(previous: DeltaState, writes: seq<JournalWrite>) returns (compacted: seq<JournalWrite>)
    ensures CompactsAll(previous, writes, compacted)
    decreases |writes|
  {
    compacted := [];
    if writes != [] {
      var first := SomeCompaction(previous, writes[0]);
      var rest := SomeCompactions(AfterCompacting(previous, writes[0]), writes[1..]);
      compacted := [first] + rest;
    }
  }

  lemma SomeCompactedEntry(previous: DeltaState, entry: Entry) returns (compacted: Entry)
    ensures CompactsEntry(previous, entry, compacted)
  {
    compacted := entry;
    if entry.StepEntry? {
      var writes := SomeCompactions(previous, entry.step.writes);
      compacted := StepEntry(entry.step.(writes := writes), entry.derived);
    }
  }

  /** An entry's size is its own, both as it is offered and as it is compacted. */
  predicate Measured(event: Event, sizes: Entry -> nat) {
    match event
    case Append(entry, size, _) => size == sizes(entry)
    case Size(compacted, size, _) => size == sizes(compacted)
    case _ => true
  }

  ghost predicate AllMeasured(events: seq<Event>, sizes: Entry -> nat) {
    forall k :: 0 <= k < |events| ==> Measured(events[k], sizes)
  }

  /** What is under way is with the sink already, or fits in some compacted form. */
  ghost predicate MayLand(q: Status, capacity: nat, sizes: Entry -> nat) {
    q.flight.Appending? || exists compacted :: MayHand(q, capacity, sizes, compacted)
  }

  ghost predicate MayHand(q: Status, capacity: nat, sizes: Entry -> nat, compacted: Entry) {
    q.flight.Shifted? && CompactsEntry(q.deltas, q.flight.entry, compacted) && !Outgrows(q, capacity, sizes(compacted))
  }

  /** What is under way may still be accepted, even by a journal that has closed. */
  lemma UnderWayMayBeAccepted(q: Status, capacity: nat, sizes: Entry -> nat) returns (events: seq<Event>, last: Status)
    requires Sound(q, capacity) && MayLand(q, capacity, sizes)
    ensures AllMeasured(events, sizes) && Reaches(q, capacity, events, last) && |last.past.accepted| == |q.past.accepted| + 1
  {
    if q.flight.Appending? {
      events, last := [Accept], Succeeded(q);
      AcceptReaches(q, capacity);
    } else {
      var compacted :| MayHand(q, capacity, sizes, compacted);
      var size := Size(compacted, sizes(compacted), false);
      var sized := After(q, capacity, size);
      events, last := [size, Accept], Succeeded(sized);
      AcceptReaches(sized, capacity);
      assert Possible(q, size) && sized.past == q.past;
      assert events[0] == size && events[1..] == [Accept];
      assert Reaches(q, capacity, events, last);
    }
  }

  lemma AcceptReaches(q: Status, capacity: nat)
    requires q.flight.Appending?
    ensures Reaches(q, capacity, [Accept], Succeeded(q)) && |Succeeded(q).past.accepted| == |q.past.accepted| + 1
  {
    assert [Accept][1..] == [] && Reaches(Succeeded(q), capacity, [], Succeeded(q));
  }

  /** Some run has the sink accept more. */
  ghost predicate MayStillAccept(q: Status, capacity: nat, sizes: Entry -> nat) {
    exists events, last :: AllMeasured(events, sizes) && Reaches(q, capacity, events, last) && |last.past.accepted| > |q.past.accepted|
  }

  /** Until what is under way is sized nothing about it changes, and then it fails, if nothing else failed before. */
  lemma StuckAtOnce(q: Status, capacity: nat, sizes: Entry -> nat, event: Event)
    requires Sound(q, capacity) && q.closed && q.flight.Shifted? && !MayLand(q, capacity, sizes)
    requires Possible(q, event) && Measured(event, sizes)
    ensures var after := After(q, capacity, event);
            && after.closed && after.past.accepted == q.past.accepted
            && (Left(after) == 0 || (after.flight == q.flight && after.bytes == q.bytes && after.deltas == q.deltas))
  {
    match event
    case Append(_, _, _) =>
    case Size(compacted, size, stops) =>
      assert !MayHand(q, capacity, sizes, compacted);
      ClearedLeavesNothing(Cleared(q), Overflowed, stops);
    case Accept =>
    case Refuse(timeout, stops) => ClearedLeavesNothing(Cleared(q).(timedOut := q.timedOut || timeout), AppendFailed, stops);
    case Finalize =>
  }

  lemma {:induction false} StuckStays(q: Status, capacity: nat, sizes: Entry -> nat, events: seq<Event>, last: Status)
    requires Sound(q, capacity) && q.closed && AllMeasured(events, sizes) && Reaches(q, capacity, events, last)
    requires Left(q) == 0 || (q.flight.Shifted? && !MayLand(q, capacity, sizes))
    ensures |last.past.accepted| <= |q.past.accepted|
    decreases |events|
  {
    if Left(q) == 0 {
      ClosedTakesNoMore(q, capacity, events, last);
    } else if events != [] {
      var after := After(q, capacity, events[0]);
      AfterSound(q, capacity, events[0]);
      StuckAtOnce(q, capacity, sizes, events[0]);
      if Left(after) > 0 {
        forall compacted ensures !MayHand(after, capacity, sizes, compacted) { assert !MayHand(q, capacity, sizes, compacted); }
      }
      StuckStays(after, capacity, sizes, events[1..], last);
    }
  }

  /**
   * An entry refused for its size closes the journal too, but what was taken before it still goes out: in
   * any run, whatever entries take, the sink may accept something after that failure exactly when a write was
   * under way that it had been handed already, or that fits once compacted, whether or not failing the graph
   * finalizes the journal at once.
   */
  lemma OverflowLetsTheQueueDrain(capacity: nat, sizes: Entry -> nat, before: seq<Event>, q: Status, entry: Entry, stops: bool)
    requires Reaches(Opened(), capacity, before, q) && !q.closed && !q.closing && q.bytes + sizes(entry) > capacity
    ensures var failed := Appended(q, capacity, entry, sizes(entry), stops);
            && failed.failure == Some(Overflowed)
            && (MayLand(q, capacity, sizes) <==> MayStillAccept(failed, capacity, sizes))
  {
    var failed := Appended(q, capacity, entry, sizes(entry), stops);
    OpenedSound(capacity);
    ReachedSound(Opened(), capacity, before, q);
    ReachedEager(Opened(), capacity, before, q);
    AppendingKeeps(q, capacity, entry, sizes(entry), stops);
    forall compacted ensures MayHand(failed, capacity, sizes, compacted) <==> MayHand(q, capacity, sizes, compacted) {}
    if MayLand(q, capacity, sizes) {
      var events, last := UnderWayMayBeAccepted(failed, capacity, sizes);
      assert MayStillAccept(failed, capacity, sizes);
    } else {
      forall events, last | AllMeasured(events, sizes) && Reaches(failed, capacity, events, last) ensures |last.past.accepted| <= |failed.past.accepted| {
        StuckStays(failed, capacity, sizes, events, last);
      }
    }
  }

  /** For one: with room for 10 bytes, the second of two entries of 6 fails the journal, and the first is appended after that. */
  lemma AppendedAfterAnOverflow(first: Entry, second: Entry, stops: bool) returns (events: seq<Event>, last: Status)
    requires first.NoteEntry?
    ensures var one := Appended(Opened(), 10, first, 6, stops);
            var failed := Appended(one, 10, second, 6, stops);
            && failed.failure == Some(Overflowed) && failed.past.accepted == []
            && Reaches(failed, 10, events, last) && last.past.accepted == [first]
  {
    var failed := Appended(Appended(Opened(), 10, first, 6, stops), 10, second, 6, stops);
    var size := Size(first, 6, stops);
    assert Possible(failed, size);
    var sized := After(failed, 10, size);
    events, last := [size, Accept], Succeeded(sized);
    AcceptReaches(sized, 10);
    assert events[0] == size && events[1..] == [Accept];
  }

  // ----- What the sink accepted can be replayed -----

  lemma {:induction false} CompactionExtends(previous: DeltaState, entries: seq<Entry>, accepted: seq<Entry>, more: seq<Entry>) returns (compacted: seq<Entry>)
    requires CompactsEntries(previous, entries, accepted)
    ensures CompactsEntries(previous, entries + more, accepted + compacted)
    decreases |more|
  {
    if more == [] {
      compacted := [];
      assert entries + more == entries && accepted + compacted == accepted;
    } else {
      var one := SomeCompactedEntry(AfterEntries(previous, entries), more[0]);
      CompactedEntryOneMore(previous, entries, accepted, more[0], one);
      var rest := CompactionExtends(previous, entries + [more[0]], accepted + [one], more[1..]);
      compacted := [one] + rest;
      assert entries + more == (entries + [more[0]]) + more[1..];
      assert accepted + compacted == (accepted + [one]) + rest;
    }
  }

  /**
   * However the queue and the sink fared, replaying what the sink accepted of a run's journal, on a fresh
   * engine, reproduces every step in it.
   */
  lemma AcceptedJournalsReplay(g: Graph, run: seq<Happening>, capacity: nat, events: seq<Event>, last: Status)
    requires WellFormed(g) && Creatable(g) && AllPushable(g, run)
    requires Reaches(Opened(), capacity, events, last) && last.past.offered == Recorded(g, Initial(g), run)
    ensures Replayed(g, Initial(g), map[], last.past.accepted, 0) == Reproduced(StepCount(last.past.accepted))
  {
    JournalConserves(capacity, events, last);
    var more := RestCompacted(last.past.offered, last.past.admitted, last.past.accepted, last.deltas);
    ReplayReproducesEveryRun(g, run, last.past.accepted + more, |last.past.accepted|);
  }

  /** What was accepted begins some compaction of everything offered. */
  lemma RestCompacted(offered: seq<Entry>, admitted: seq<Entry>, accepted: seq<Entry>, deltas: DeltaState) returns (more: seq<Entry>)
    requires admitted <= offered && Journaled(admitted, accepted, deltas)
    ensures CompactsEntries(map[], offered, accepted + more) && (accepted + more)[..|accepted|] == accepted
  {
    var n := |accepted|;
    assert admitted[..n] == offered[..n];
    more := CompactionExtends(map[], offered[..n], accepted, offered[n..]);
    assert offered[..n] + offered[n..] == offered;
  }

  // ----- The queue, updated in place -----

  class Journaling {
    const capacity: nat
    /** The bytes an entry takes encoded. */
    const size: Entry -> nat
    /** How a failure is put in words, if it is. */
    const describe: Entry -> Option<Data>
    var queue: seq<Queued>
    var bytes: int
    var writing: Option<Entry>
    var writingBytes: nat
    /** The write handed to the sink, as it was compacted, and what compaction will remember once it is accepted. */
    var handed: Option<(Entry, DeltaState)>
    var closed: bool
    var closing: bool
    var finalizing: bool
    var timedOut: bool
    var failure: Option<Failure>
    var deltas: DeltaState
    ghost var past: Past

    ghost function UnderWay(): Flight
      reads this
    {
      if writing.None? then Idle
      else if handed.None? then Shifted(writing.value, writingBytes)
      else Appending(writing.value, writingBytes, handed.value.0, handed.value.1)
    }

    ghost function Now(): Status
      reads this
    {
      Status(queue, bytes, UnderWay(), closed, closing, finalizing, timedOut, failure, deltas, past)
    }

    ghost predicate Valid()
      reads this
    {
      writing.None? ==> handed.None? && writingBytes == 0
    }

    constructor (capacity: nat, size: Entry -> nat, describe: Entry -> Option<Data>)
      ensures Valid() && Now() == Opened() && this.capacity == capacity && this.size == size && this.describe == describe
    {
      this.capacity, this.size, this.describe := capacity, size, describe;
      queue, bytes, writing, writingBytes, handed := [], 0, None, 0, None;
      closed, closing, finalizing, timedOut, failure, deltas := false, false, false, false, None, map[];
      past := Past([], [], [], 0, false);
    }

    method WriteJournal()
      requires Valid()
      modifies this
      ensures Valid() && Now() == WriteNext(old(Now()))
    {
      if writing.Some? || finalizing { return; }
      if queue == [] {
        if !closing { return; }
        finalizing := true;
        past := past.(finals := past.finals + if timedOut then 0 else 1);
        return;
      }
      writing, writingBytes, queue := Some(queue[0].entry), queue[0].bytes, queue[1..];
    }

    /** Closes a journal that failed, once; failing the graph may finalize it before this returns. */
    method CloseJournal(error: Failure, stops: bool)
      requires Valid()
      modifies this
      ensures Valid() && Now() == Closed(old(Now()), error, stops)
    {
      if failure.Some? { return; }
      closed, failure := true, Some(error);
      if stops { FinalizeJournal(); }
    }

    method FinalizeJournal()
      requires Valid()
      modifies this
      ensures Valid() && Now() == Finalized(old(Now()))
    {
      closed, closing := true, true;
      WriteJournal();
    }

    method Append(entry: Entry, stops: bool)
      requires Valid()
      modifies this
      ensures Valid() && Now() == Appended(old(Now()), capacity, entry, size(entry), stops)
    {
      past := past.(offered := past.offered + [entry]);
      if closed || closing { return; }
      var added := size(entry);
      if bytes + added > capacity {
        CloseJournal(Overflowed, stops);
        return;
      }
      bytes := bytes + added;
      queue := queue + [Queued(entry, added)];
      past := past.(admitted := past.admitted + [entry]);
      WriteJournal();
    }

    method Clear()
      modifies this
      ensures Valid() && Now() == Cleared(old(Now()))
    {
      writing, writingBytes, handed := None, 0, None;
      queue, bytes := [], 0;
      past := past.(broken := true);
    }

    /** The entry as it is written: a failure with its description, if it has one. */
    function Described(entry: Entry): (written: Entry)
      ensures Describes(entry, written)
      ensures entry.FailedEntry? && describe(entry).Some? ==> written.description == describe(entry)
    {
      if entry.FailedEntry? && describe(entry).Some? then entry.(description := describe(entry)) else entry
    }

    /**
     * Describes the write under way, compacts it against what the sink has accepted, sizes it again, and
     * hands it to the sink.
     */
    method Hand(stops: bool) returns (compacted: Entry)
      requires Valid() && UnderWay().Shifted?
      modifies this
      ensures Valid()
      ensures CompactsEntry(old(deltas), old(writing).value, compacted)
      ensures !old(writing).value.StepEntry? ==> compacted == Described(old(writing).value)
      ensures Now() == Sized(old(Now()), capacity, compacted, size(compacted), stops)
    {
      var next := new Deltas();
      next.previous := deltas;
      compacted := next.CompactEntry(Described(writing.value));
      var sized := size(compacted);
      if sized > writingBytes && bytes + (sized - writingBytes) > capacity {
        Clear();
        CloseJournal(Overflowed, stops);
        WriteJournal();
        return;
      }
      bytes := bytes + (sized - writingBytes);
      writingBytes := sized;
      handed := Some((compacted, next.previous));
    }

    /** The sink accepted the write: only now does compaction remember it. */
    method Accepted()
      requires Valid() && UnderWay().Appending?
      modifies this
      ensures Valid() && Now() == Succeeded(old(Now()))
    {
      Land();
      WriteJournal();
    }

    /** Counts the write under way as accepted; nothing is under way then. */
    method Land()
      requires Valid() && UnderWay().Appending?
      modifies this
      ensures Valid() && Now() == Landed(old(Now()))
    {
      past := past.(accepted := past.accepted + [handed.value.0]);
      deltas := handed.value.1;
      bytes := bytes - writingBytes;
      writing, writingBytes, handed := None, 0, None;
    }

    /** The write failed, or took too long: nothing more is written. */
    method Refused(timeout: bool, stops: bool)
      requires Valid() && !UnderWay().Idle?
      modifies this
      ensures Valid() && Now() == Failed(old(Now()), timeout, stops)
    {
      Clear();
      if timeout { timedOut := true; }
      CloseJournal(AppendFailed, stops);
      WriteJournal();
    }
  }
}
