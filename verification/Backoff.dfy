/** How long each task of each key waits, in blocks, after failures in a row. */
module Backoff {
  import opened Basics
  import opened Intents
  import opened TaskEntries

  datatype Policy = Policy(baseBlocks: int, maxBlocks: int)

  predicate IsPolicy(policy: Policy) {
    policy.baseBlocks >= 1 && policy.maxBlocks >= 1
  }

  /** How often in a row one task of a key has failed, and the block its wait ends at. */
  datatype KeyBackoff = KeyBackoff(failures: nat, until: int)

  datatype Backoff = Backoff(block: int, keys: ByTask<KeyBackoff>)

  /** The task of an act whose id names none; every task of its key waits with it. */
  const UNTASKED := ""

  /** No wait doubles more often than this. */
  const MAX_SHIFT := 32

  datatype NoticeKind = SettledNotice | RefusedNotice(stale: bool) | AbandonedNotice | CompensatingNotice | FailedNotice | OtherNotice

  /** What the kernel says of an act; only notices concern backoff. */
  datatype Activity = Notice(intentId: string, kind: NoticeKind) | OtherActivity

  datatype Input =
    | Head(number: int)
    | Prepared(key: string, task: string, backsOff: bool, reason: string)
    | Activities(list: seq<Activity>)

  datatype Slot = Slot(key: string, task: string)

  datatype Event =
    | Widened(slot: Slot, entry: KeyBackoff, block: int)
    | Cleared(slot: Slot)

  predicate IsStaleRefusal(activity: Activity) {
    activity.Notice? && activity.kind == RefusedNotice(true)
  }

  predicate Holds(block: int, entry: Option<KeyBackoff>) {
    entry.Some? && block < entry.value.until
  }

  /** Whether a preparation of `task` waits: on that task's own failures, or on those of acts of `key` without a task. */
  predicate IsBackedOff(backoff: Backoff, key: string, task: string) {
    Holds(backoff.block, EntryAt(backoff.keys, key, task)) || Holds(backoff.block, EntryAt(backoff.keys, key, UNTASKED))
  }

  /** `base` doubled `times` times. */
  function Doubled(base: int, times: nat): int {
    if times == 0 then base else 2 * Doubled(base, times - 1)
  }

  function WaitOf(policy: Policy, failures: nat): int {
    Min(Doubled(policy.baseBlocks, if failures == 0 then 0 else Min(failures - 1, MAX_SHIFT)), policy.maxBlocks)
  }

  function Widen(policy: Policy, block: int, entry: Option<KeyBackoff>): KeyBackoff {
    var failures := (if entry.Some? then entry.value.failures else 0) + 1;
    KeyBackoff(failures, block + WaitOf(policy, failures))
  }

  /** Still worth keeping at `block`: the wait is on, or ended less than `maxBlocks` ago. */
  predicate Remembered(policy: Policy, block: int, entry: KeyBackoff) {
    entry.until + policy.maxBlocks > block
  }

  function Pruned(policy: Policy, backoff: Backoff): ByTask<KeyBackoff> {
    Kept(backoff.keys, (_, entry) => Remembered(policy, backoff.block, entry))
  }

  // ----- What an input fails and settles -----

  function SlotOf(intentId: string): Option<(Slot, string)> {
    var parsed := ParseIntentId(intentId);
    if parsed.None? then None
    else Some((Slot(parsed.value.key, if parsed.value.task.Some? then parsed.value.task.value else UNTASKED), parsed.value.runId))
  }

  /**
   * The slot of an act that ended badly through a fault of its own. A refusal for staleness is no fault, and
   * an act of another run that merely did not survive a restart has none either.
   */
  function FailureOf(activity: Activity, runId: string): Option<Slot> {
    if !activity.Notice? || activity.kind.SettledNotice? || activity.kind.OtherNotice? then None
    else
      var slot := SlotOf(activity.intentId);
      if slot.None? then None
      else if (activity.kind.AbandonedNotice? || activity.kind.CompensatingNotice?) && slot.value.1 != runId then None
      else if IsStaleRefusal(activity) then None
      else Some(slot.value.0)
  }

  function SettlementOf(activity: Activity): Option<Slot> {
    if !activity.Notice? || !activity.kind.SettledNotice? then None
    else
      var slot := SlotOf(activity.intentId);
      if slot.None? then None else Some(slot.value.0)
  }

  function Failures(list: seq<Activity>, runId: string): seq<Slot> {
    if list == [] then []
    else
      var first := FailureOf(list[0], runId);
      (if first.Some? then [first.value] else []) + Failures(list[1..], runId)
  }

  function Settlements(list: seq<Activity>): seq<Slot> {
    if list == [] then []
    else
      var first := SettlementOf(list[0]);
      (if first.Some? then [first.value] else []) + Settlements(list[1..])
  }

  function FailuresIn(input: Input, runId: string): seq<Slot> {
    match input
    case Head(_) => []
    case Prepared(key, task, backsOff, _) => if backsOff then [Slot(key, task)] else []
    case Activities(list) => Failures(list, runId)
  }

  function SettlementsIn(input: Input): seq<Slot> {
    if input.Activities? then Settlements(input.list) else []
  }

  // ----- One input -----

  function ClearAll(keys: ByTask<KeyBackoff>, slots: seq<Slot>): ByTask<KeyBackoff> {
    if slots == [] then keys
    else
      var before, last := ClearAll(keys, slots[..|slots| - 1]), slots[|slots| - 1];
      if EntryAt(before, last.key, last.task).None? then before else With(before, last.key, last.task, None)
  }

  function WidenAll(policy: Policy, block: int, keys: ByTask<KeyBackoff>, slots: seq<Slot>): ByTask<KeyBackoff> {
    if slots == [] then keys
    else
      var before, last := WidenAll(policy, block, keys, slots[..|slots| - 1]), slots[|slots| - 1];
      With(before, last.key, last.task, Some(Widen(policy, block, EntryAt(before, last.key, last.task))))
  }

  function Next(policy: Policy, runId: string, backoff: Backoff, input: Input): Backoff {
    if input.Head? then
      var moved := backoff.(block := Max(backoff.block, input.number));
      moved.(keys := Pruned(policy, moved))
    else
      backoff.(keys := WidenAll(policy, backoff.block, ClearAll(backoff.keys, SettlementsIn(input)), FailuresIn(input, runId)))
  }

  function After(policy: Policy, runId: string, backoff: Backoff, inputs: seq<Input>): Backoff
    decreases |inputs|
  {
    if inputs == [] then backoff else Next(policy, runId, After(policy, runId, backoff, inputs[..|inputs| - 1]), inputs[|inputs| - 1])
  }

  function Fresh(): Backoff {
    Backoff(0, map[])
  }

  function ClearedEvents(keys: ByTask<KeyBackoff>, slots: seq<Slot>): seq<Event> {
    if slots == [] then []
    else
      var before, last := ClearAll(keys, slots[..|slots| - 1]), slots[|slots| - 1];
      ClearedEvents(keys, slots[..|slots| - 1]) + if EntryAt(before, last.key, last.task).None? then [] else [Cleared(last)]
  }

  function WidenedEvents(policy: Policy, block: int, keys: ByTask<KeyBackoff>, slots: seq<Slot>): seq<Event> {
    if slots == [] then []
    else
      var before, last := WidenAll(policy, block, keys, slots[..|slots| - 1]), slots[|slots| - 1];
      WidenedEvents(policy, block, keys, slots[..|slots| - 1])
      + [Widened(last, Widen(policy, block, EntryAt(before, last.key, last.task)), block)]
  }

  method ClearEach(start: ByTask<KeyBackoff>, slots: seq<Slot>) returns (keys: ByTask<KeyBackoff>, events: seq<Event>)
    ensures keys == ClearAll(start, slots) && events == ClearedEvents(start, slots)
  {
    keys, events := start, [];
    for k := 0 to |slots|
      invariant keys == ClearAll(start, slots[..k]) && events == ClearedEvents(start, slots[..k])
    {
      assert slots[..k + 1][..k] == slots[..k];
      if EntryAt(keys, slots[k].key, slots[k].task).Some? {
        keys := With(keys, slots[k].key, slots[k].task, None);
        events := events + [Cleared(slots[k])];
      }
    }
    assert slots[..|slots|] == slots;
  }

  method WidenEach(policy: Policy, block: int, start: ByTask<KeyBackoff>, slots: seq<Slot>) returns (keys: ByTask<KeyBackoff>, events: seq<Event>)
    ensures keys == WidenAll(policy, block, start, slots) && events == WidenedEvents(policy, block, start, slots)
  {
    keys, events := start, [];
    for k := 0 to |slots|
      invariant keys == WidenAll(policy, block, start, slots[..k]) && events == WidenedEvents(policy, block, start, slots[..k])
    {
      assert slots[..k + 1][..k] == slots[..k];
      var entry := Widen(policy, block, EntryAt(keys, slots[k].key, slots[k].task));
      keys := With(keys, slots[k].key, slots[k].task, Some(entry));
      events := events + [Widened(slots[k], entry, block)];
    }
    assert slots[..|slots|] == slots;
  }

  /** The fold's step: settlements clear their slots, then each failure widens its own, with an event for each. */
  method ApplyInput(policy: Policy, runId: string, backoff: Backoff, input: Input) returns (next: Backoff, events: seq<Event>)
    ensures next == Next(policy, runId, backoff, input)
    ensures events == ClearedEvents(backoff.keys, SettlementsIn(input))
                      + WidenedEvents(policy, backoff.block, ClearAll(backoff.keys, SettlementsIn(input)), FailuresIn(input, runId))
  {
    if input.Head? {
      var moved := backoff.(block := Max(backoff.block, input.number));
      return moved.(keys := Pruned(policy, moved)), [];
    }
    var cleared, clearings := ClearEach(backoff.keys, SettlementsIn(input));
    var widened, widenings := WidenEach(policy, backoff.block, cleared, FailuresIn(input, runId));
    return backoff.(keys := widened), clearings + widenings;
  }

  // ----- One slot at a time -----

  function CountOf(slots: seq<Slot>, slot: Slot): nat {
    if slots == [] then 0 else CountOf(slots[..|slots| - 1], slot) + if slots[|slots| - 1] == slot then 1 else 0
  }

  /** What failing `slots` in turn makes of one of them. */
  function WidenIn(policy: Policy, block: int, entry: Option<KeyBackoff>, slots: seq<Slot>, slot: Slot): Option<KeyBackoff> {
    if slots == [] then entry
    else
      var before := WidenIn(policy, block, entry, slots[..|slots| - 1], slot);
      if slots[|slots| - 1] == slot then Some(Widen(policy, block, before)) else before
  }

  /** What one input makes of one slot, seen on its own. */
  function NextEntry(policy: Policy, runId: string, block: int, entry: Option<KeyBackoff>, input: Input, slot: Slot): Option<KeyBackoff> {
    if input.Head? then
      if entry.Some? && Remembered(policy, Max(block, input.number), entry.value) then entry else None
    else
      WidenIn(policy, block, if CountOf(SettlementsIn(input), slot) > 0 then None else entry, FailuresIn(input, runId), slot)
  }

  lemma {:induction false} ClearedSlot(keys: ByTask<KeyBackoff>, slots: seq<Slot>, slot: Slot)
    ensures EntryAt(ClearAll(keys, slots), slot.key, slot.task)
            == if CountOf(slots, slot) > 0 then None else EntryAt(keys, slot.key, slot.task)
  {
    if slots != [] {
      var before, last := ClearAll(keys, slots[..|slots| - 1]), slots[|slots| - 1];
      ClearedSlot(keys, slots[..|slots| - 1], slot);
      WithReadsBack(before, last.key, last.task, None, slot.key, slot.task);
    }
  }

  lemma {:induction false} WidenedSlot(policy: Policy, block: int, keys: ByTask<KeyBackoff>, slots: seq<Slot>, slot: Slot)
    ensures EntryAt(WidenAll(policy, block, keys, slots), slot.key, slot.task)
            == WidenIn(policy, block, EntryAt(keys, slot.key, slot.task), slots, slot)
    decreases |slots|
  {
    if slots != [] {
      var before, last := WidenAll(policy, block, keys, slots[..|slots| - 1]), slots[|slots| - 1];
      WidenedSlot(policy, block, keys, slots[..|slots| - 1], slot);
      WithReadsBack(before, last.key, last.task, Some(Widen(policy, block, EntryAt(before, last.key, last.task))), slot.key, slot.task);
    }
  }

  /** Every slot lives alone: an input does to it what it would do were no other slot kept. */
  lemma SlotsKeepToThemselves(policy: Policy, runId: string, backoff: Backoff, input: Input, slot: Slot)
    ensures EntryAt(Next(policy, runId, backoff, input).keys, slot.key, slot.task)
            == NextEntry(policy, runId, backoff.block, EntryAt(backoff.keys, slot.key, slot.task), input, slot)
  {
    if input.Head? {
      var moved := backoff.(block := Max(backoff.block, input.number));
      KeptReadsBack(backoff.keys, (_, entry) => Remembered(policy, moved.block, entry), slot.key, slot.task);
    } else {
      ClearedSlot(backoff.keys, SettlementsIn(input), slot);
      WidenedSlot(policy, backoff.block, ClearAll(backoff.keys, SettlementsIn(input)), FailuresIn(input, runId), slot);
    }
  }

  // ----- Waits -----

  lemma {:induction false} DoublingGrows(base: int, m: nat, n: nat)
    requires m <= n && base >= 1
    ensures base <= Doubled(base, m) <= Doubled(base, n)
    decreases n
  {
    if m < n {
      DoublingGrows(base, m, n - 1);
    } else if m > 0 {
      DoublingGrows(base, m - 1, n - 1);
    }
  }

  lemma WaitsWiden(policy: Policy, failures: nat)
    requires IsPolicy(policy)
    ensures 1 <= WaitOf(policy, failures) <= WaitOf(policy, failures + 1) <= policy.maxBlocks
  {
    var m := if failures == 0 then 0 else Min(failures - 1, MAX_SHIFT);
    DoublingGrows(policy.baseBlocks, m, Min(failures, MAX_SHIFT));
  }

  /** A slot's wait is what its count says, from some block already reached. */
  ghost predicate Waits(policy: Policy, block: int, entry: Option<KeyBackoff>) {
    entry.Some? ==> entry.value.failures > 0 && entry.value.until <= block + WaitOf(policy, entry.value.failures)
  }

  /** `next` is kept, waits no less long than `entry`, and counts no fewer failures. */
  predicate Longer(next: Option<KeyBackoff>, entry: KeyBackoff) {
    next.Some? && next.value.until >= entry.until && next.value.failures >= entry.failures
  }

  lemma {:induction false} WideningWaits(policy: Policy, block: int, entry: Option<KeyBackoff>, slots: seq<Slot>, slot: Slot)
    requires IsPolicy(policy) && Waits(policy, block, entry)
    ensures Waits(policy, block, WidenIn(policy, block, entry, slots, slot))
    ensures entry.Some? ==> Longer(WidenIn(policy, block, entry, slots, slot), entry.value)
    decreases |slots|
  {
    if slots != [] {
      WideningWaits(policy, block, entry, slots[..|slots| - 1], slot);
      var before := WidenIn(policy, block, entry, slots[..|slots| - 1], slot);
      if before.Some? { WaitsWiden(policy, before.value.failures); }
    }
  }

  /** Each failure of a slot counts one more; failures of other slots count nothing. */
  lemma {:induction false} WideningCounts(policy: Policy, block: int, entry: Option<KeyBackoff>, slots: seq<Slot>, slot: Slot)
    ensures CountOf(slots, slot) == 0 ==> WidenIn(policy, block, entry, slots, slot) == entry
    ensures CountOf(slots, slot) > 0 ==>
              var failures := FailureCount(entry) + CountOf(slots, slot);
              WidenIn(policy, block, entry, slots, slot) == Some(KeyBackoff(failures, block + WaitOf(policy, failures)))
    decreases |slots|
  {
    if slots != [] { WideningCounts(policy, block, entry, slots[..|slots| - 1], slot); }
  }

  function FailureCount(entry: Option<KeyBackoff>): nat {
    if entry.Some? then entry.value.failures else 0
  }

  lemma NextWaits(policy: Policy, runId: string, block: int, entry: Option<KeyBackoff>, input: Input, slot: Slot)
    requires IsPolicy(policy) && Waits(policy, block, entry)
    ensures Waits(policy, if input.Head? then Max(block, input.number) else block, NextEntry(policy, runId, block, entry, input, slot))
  {
    if !input.Head? {
      WideningWaits(policy, block, if CountOf(SettlementsIn(input), slot) > 0 then None else entry, FailuresIn(input, runId), slot);
    }
  }

  lemma {:induction false} EverySlotWaits(policy: Policy, runId: string, inputs: seq<Input>, slot: Slot)
    requires IsPolicy(policy)
    ensures Waits(policy, After(policy, runId, Fresh(), inputs).block,
                  EntryAt(After(policy, runId, Fresh(), inputs).keys, slot.key, slot.task))
    decreases |inputs|
  {
    if inputs != [] {
      var init, last := inputs[..|inputs| - 1], inputs[|inputs| - 1];
      var before := After(policy, runId, Fresh(), init);
      EverySlotWaits(policy, runId, init, slot);
      SlotsKeepToThemselves(policy, runId, before, last, slot);
      NextWaits(policy, runId, before.block, EntryAt(before.keys, slot.key, slot.task), last, slot);
    }
  }

  /** The block `slot` last failed at in a run of inputs: the one reached before the last input that failed it. */
  function LastFailedAt(policy: Policy, runId: string, inputs: seq<Input>, slot: Slot): Option<int>
    decreases |inputs|
  {
    if inputs == [] then None
    else
      var init, last := inputs[..|inputs| - 1], inputs[|inputs| - 1];
      if CountOf(FailuresIn(last, runId), slot) > 0 then Some(After(policy, runId, Fresh(), init).block)
      else LastFailedAt(policy, runId, init, slot)
  }

  /** The wait of `entry` runs from block `at`, for as long as its count says. */
  predicate RunsFrom(policy: Policy, at: Option<int>, entry: KeyBackoff) {
    at.Some? && entry.failures > 0 && entry.until == at.value + WaitOf(policy, entry.failures)
  }

  lemma NextRunsFrom(policy: Policy, runId: string, block: int, entry: Option<KeyBackoff>, input: Input, slot: Slot, at: Option<int>)
    requires entry.Some? ==> RunsFrom(policy, at, entry.value)
    ensures var next := NextEntry(policy, runId, block, entry, input, slot);
            next.Some? ==> RunsFrom(policy, if CountOf(FailuresIn(input, runId), slot) > 0 then Some(block) else at, next.value)
  {
    WideningCounts(policy, block, if CountOf(SettlementsIn(input), slot) > 0 then None else entry, FailuresIn(input, runId), slot);
  }

  /**
   * In any run, whatever a slot still waits for is the wait its failures in a row earned, counted from the
   * block it last failed at: no head, no other slot and nothing forgotten ever moves it.
   */
  lemma {:induction false} WaitsRunFromTheLastFailure(policy: Policy, runId: string, inputs: seq<Input>, slot: Slot)
    requires IsPolicy(policy)
    ensures var entry, at := EntryAt(After(policy, runId, Fresh(), inputs).keys, slot.key, slot.task), LastFailedAt(policy, runId, inputs, slot);
            entry.Some? ==> RunsFrom(policy, at, entry.value) && at.value < entry.value.until <= at.value + policy.maxBlocks
    decreases |inputs|
  {
    if inputs != [] {
      var init, last := inputs[..|inputs| - 1], inputs[|inputs| - 1];
      var before := After(policy, runId, Fresh(), init);
      WaitsRunFromTheLastFailure(policy, runId, init, slot);
      SlotsKeepToThemselves(policy, runId, before, last, slot);
      NextRunsFrom(policy, runId, before.block, EntryAt(before.keys, slot.key, slot.task), last, slot, LastFailedAt(policy, runId, init, slot));
      var next := EntryAt(After(policy, runId, Fresh(), inputs).keys, slot.key, slot.task);
      if next.Some? { WaitsWiden(policy, next.value.failures); }
    }
  }

  /** However long a slot keeps failing, it holds nothing from `maxBlocks` after its last failure on, nor ever if it never failed. */
  lemma NothingHeldBeyondTheMaximum(policy: Policy, runId: string, inputs: seq<Input>, key: string, task: string, later: int)
    requires IsPolicy(policy)
    requires forall at :: LastFailedAt(policy, runId, inputs, Slot(key, task)) == Some(at) ==> later >= at + policy.maxBlocks
    requires forall at :: LastFailedAt(policy, runId, inputs, Slot(key, UNTASKED)) == Some(at) ==> later >= at + policy.maxBlocks
    ensures !IsBackedOff(After(policy, runId, Fresh(), inputs).(block := later), key, task)
  {
    WaitsRunFromTheLastFailure(policy, runId, inputs, Slot(key, task));
    WaitsRunFromTheLastFailure(policy, runId, inputs, Slot(key, UNTASKED));
  }

  /** A slot an input fails, and does not settle, counts those failures and waits from the block reached. */
  lemma FailuresWiden(policy: Policy, runId: string, block: int, entry: Option<KeyBackoff>, input: Input, slot: Slot)
    requires !input.Head? && CountOf(SettlementsIn(input), slot) == 0 && CountOf(FailuresIn(input, runId), slot) > 0
    ensures var failures := FailureCount(entry) + CountOf(FailuresIn(input, runId), slot);
            NextEntry(policy, runId, block, entry, input, slot) == Some(KeyBackoff(failures, block + WaitOf(policy, failures)))
  {
    WideningCounts(policy, block, entry, FailuresIn(input, runId), slot);
  }

  lemma EntryNeverShortens(policy: Policy, runId: string, block: int, entry: KeyBackoff, input: Input, slot: Slot)
    requires IsPolicy(policy) && Waits(policy, block, Some(entry))
    ensures var next := NextEntry(policy, runId, block, Some(entry), input, slot);
            || Longer(next, entry)
            || CountOf(SettlementsIn(input), slot) > 0
            || (next.None? && input.Head? && entry.until + policy.maxBlocks <= Max(block, input.number))
  {
    if !input.Head? { WideningWaits(policy, block, Some(entry), FailuresIn(input, runId), slot); }
  }

  /**
   * Between settlements the block a task waits until never moves earlier, nor does its count fall, while it
   * is kept; and it is forgotten only once its last wait ended at least a maximum wait ago.
   */
  lemma WaitsNeverShorten(policy: Policy, runId: string, inputs: seq<Input>, input: Input, slot: Slot)
    requires IsPolicy(policy) && CountOf(SettlementsIn(input), slot) == 0
    ensures var before := After(policy, runId, Fresh(), inputs);
            var after := Next(policy, runId, before, input);
            var entry := EntryAt(before.keys, slot.key, slot.task);
            var next := EntryAt(after.keys, slot.key, slot.task);
            entry.Some? ==> Longer(next, entry.value) || (next.None? && entry.value.until + policy.maxBlocks <= after.block)
  {
    var before := After(policy, runId, Fresh(), inputs);
    var entry := EntryAt(before.keys, slot.key, slot.task);
    EverySlotWaits(policy, runId, inputs, slot);
    SlotsKeepToThemselves(policy, runId, before, input, slot);
    if entry.Some? { EntryNeverShortens(policy, runId, before.block, entry.value, input, slot); }
  }

  /** Forgetting what lapsed long ago changes no answer, at the block it happens at or at any later one. */
  lemma PruningChangesNoAnswer(policy: Policy, backoff: Backoff, later: int, key: string, task: string)
    requires IsPolicy(policy) && later >= backoff.block
    ensures IsBackedOff(Backoff(later, Pruned(policy, backoff)), key, task) == IsBackedOff(Backoff(later, backoff.keys), key, task)
  {
    KeptReadsBack(backoff.keys, (_, entry) => Remembered(policy, backoff.block, entry), key, task);
    KeptReadsBack(backoff.keys, (_, entry) => Remembered(policy, backoff.block, entry), key, UNTASKED);
  }
}
