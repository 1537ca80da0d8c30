/** A task family as values: what each answer, notice and decision makes of it, and what it asks of the kernel. */
module Families {
  import opened Basics
  import opened DataValues
  import opened KeyedLevels
  import opened Intents
  import opened TaskEntries
  import opened Backoff
  import opened Orders
  import opened Acts

  datatype Conflicts = Conflicts(reads_: seq<string>, writes: seq<string>)

  /** A key's wish to act, ranked by `priority`. */
  datatype Task = Task(name: string, priority: int, conflicts: Conflicts)

  datatype Rejection = PolicyThrew | PolicyInvalid

  datatype Wanted = Wants(task: Task) | RejectedFor(reason: Rejection)

  /** The three values a preparation is built from, by digest; none where a key holds none. */
  datatype Fingerprint = Fingerprint(candidate: Option<Data>, fact: Option<Data>, input: Option<Data>)

  /** A reading told from every other: by version, block hash and deadline, so that reading again shows. */
  datatype ReadingPrint = NoReading | ReadAs(version: Option<Data>, blockHash: string, expiry: Option<int>)

  /** What was asked for a key. Once void it may still answer, and its answer readies nothing. */
  datatype Preparation = Preparation(
    id: string, reading: Reading, inputFingerprint: Fingerprint, task: string, conflicts: Conflicts, isVoid: bool)

  datatype Ready = Ready(asked: Preparation, steps: seq<Data>, validUntil: int)

  datatype Sent = Sent(intentId: string, task: string, reading: Reading)

  datatype View = View(busy: set<string>, numReservations: nat, acceptingNewWork: bool, conflictMarks: map<string, int>)

  datatype Family = Family(
    candidates: Option<Keyed<Data>>,
    facts: Option<Keyed<Data>>,
    inputs: Option<Keyed<Data>>,
    view: Option<View>,
    backoff: Option<Backoff>,
    preparing: map<string, Preparation>,
    ready: map<string, Ready>,
    declined: ByTask<Fingerprint>,
    stale: ByTask<ReadingPrint>,
    rejected: map<string, Rejection>,
    submitted: map<string, Sent>,
    served: string,
    issued: nat)

  datatype Answer = ActsOn(steps: seq<Data>, validUntil: int) | Declines(backsOff: bool)

  datatype PrepareResult = PrepareResult(id: string, key: string, task: string, version: Option<Data>, answer: Answer)

  datatype PrepareRequest = PrepareRequest(id: string, key: string, task: string, number: nat, version: Option<Data>, input: Data)

  datatype Plan = Plan(intentId: string, steps: seq<Data>, conflicts: Conflicts, grounds: Grounds)

  datatype DropReason =
    | PreparationExpired | NotCandidate | PolicyRejected | TaskChanged
    | FactUnavailable | FactUnbounded | FactExpired | FactChanged

  /** What deciding asks of the kernel and the preparers, and what it reports; each by the key it is about. */
  datatype Emitted =
    | Asked(request: PrepareRequest)
    | Submitted(key: string, number: nat, plan: Plan, prepared: string, priority: int)
    | Dropped(key: string, task: string, reason: DropReason)
    | Rejected(key: string, why: Rejection)

  datatype Options = Options(
    runId: string,
    maxReservations: nat,
    concurrency: Option<int>,
    policy: (Data, string) -> Wanted)

  predicate SameConflicts(left: Conflicts, right: Conflicts) {
    SameIds(left.reads_, right.reads_) && SameIds(left.writes, right.writes)
  }

  // ----- Why a ready act is discarded -----

  /** The first reason, if any, to discard an act that waits to be sent. */
  function HeldDrop(ready: Ready, wanted: Option<Wanted>, now: int): Option<DropReason> {
    if ready.validUntil <= now then Some(PreparationExpired)
    else if wanted.None? then Some(NotCandidate)
    else if wanted.value.RejectedFor? then Some(PolicyRejected)
    else if wanted.value.task.name != ready.asked.task || !SameConflicts(wanted.value.task.conflicts, ready.asked.conflicts) then Some(TaskChanged)
    else None
  }

  /** The first reason, if any, to discard an act about to be sent, from what its fact reads as by now. */
  function SubmitDrop(captured: Reading, reading: Option<Reading>, now: int): Option<DropReason> {
    if reading.None? then Some(FactUnavailable)
    else if captured.expiry.None? then Some(FactUnbounded)
    else if captured.expiry.value <= now then Some(FactExpired)
    else if reading.value.version != captured.version then Some(FactChanged)
    else None
  }

  // ----- What a key reads -----

  function DigestAt(keyed: Option<Keyed<Data>>, key: string): Option<Data> {
    if keyed.Some? && RecordAt(keyed.value, key).PresentKey? then Some(RecordAt(keyed.value, key).value) else None
  }

  function FingerprintOf(family: Family, key: string): Fingerprint {
    Fingerprint(DigestAt(family.candidates, key), DigestAt(family.facts, key), DigestAt(family.inputs, key))
  }

  function PrintOf(reading: Option<Reading>): ReadingPrint {
    if reading.None? then NoReading else ReadAs(reading.value.version, reading.value.blockHash, reading.value.expiry)
  }

  /** Some conflict id of `task` was last marked by an act of ours at a block past that of `reading`. */
  predicate PredatesOwnEffect(view: Option<View>, task: Task, reading: Option<Reading>) {
    view.Some? && reading.Some?
    && exists k :: 0 <= k < |task.conflicts.reads_ + task.conflicts.writes|
                   && (task.conflicts.reads_ + task.conflicts.writes)[k] in view.value.conflictMarks
                   && reading.value.block < view.value.conflictMarks[(task.conflicts.reads_ + task.conflicts.writes)[k]]
  }

  predicate BackedOff(family: Family, key: string, task: string) {
    family.backoff.Some? && IsBackedOff(family.backoff.value, key, task)
  }

  /** The keys that may act, and what the policy makes of each. */
  function WantedBy(o: Options, family: Family): map<string, Wanted> {
    if family.candidates.None? then map[]
    else
      var keys := family.candidates.value.keys;
      map key | key in keys && keys[key].PresentKey? :: o.policy(keys[key].value, key)
  }

  function CandidateKeys(family: Family): set<string> {
    if family.candidates.None? then {} else family.candidates.value.keys.Keys
  }

  function WantAt(wanted: map<string, Wanted>, key: string): Option<Wanted> {
    if key in wanted then Some(wanted[key]) else None
  }

  // ----- Answers and notices -----

  /** The key's answer is consumed if it bears the ticket and version asked for; only a live one that is a plan becomes ready. */
  function Answered(family: Family, result: PrepareResult): Family {
    if result.key !in family.preparing then family
    else
      var asked := family.preparing[result.key];
      if asked.id != result.id || asked.reading.version != result.version then family
      else
        var declines := result.answer.Declines? && !result.answer.backsOff && !asked.isVoid;
        var taken := family.(
          preparing := family.preparing - {result.key},
          declined := With(family.declined, result.key, asked.task, if declines then Some(asked.inputFingerprint) else None));
        if asked.isVoid || result.answer.Declines? then taken
        else taken.(ready := family.ready[result.key := Ready(asked, result.answer.steps, result.answer.validUntil)])
  }

  /** The last notice among `activity` for an intent id. */
  function NoticeFor(activity: seq<Activity>, intentId: string): Option<Activity> {
    if activity == [] then None
    else
      var last := activity[|activity| - 1];
      if last.Notice? && last.intentId == intentId then Some(last) else NoticeFor(activity[..|activity| - 1], intentId)
  }

  function StaleAfter(family: Family, activity: seq<Activity>, keys: seq<string>): ByTask<ReadingPrint>
    requires forall k :: k in keys ==> k in family.submitted
  {
    if keys == [] then family.stale
    else
      var key := keys[|keys| - 1];
      var before := StaleAfter(family, activity, keys[..|keys| - 1]);
      var notice := NoticeFor(activity, family.submitted[key].intentId);
      if notice.Some? && IsStaleRefusal(notice.value)
      then With(before, key, family.submitted[key].task, Some(PrintOf(Some(family.submitted[key].reading))))
      else before
  }

  /** What was sent and has an answer is forgotten; where that is a refusal for staleness, its task waits for a new reading. */
  function Noticed(family: Family, activity: seq<Activity>): Family {
    family.(
      submitted := map key | key in family.submitted && NoticeFor(activity, family.submitted[key].intentId).None? :: family.submitted[key],
      stale := StaleAfter(family, activity, Sorted(family.submitted.Keys)))
  }

  datatype FamilyInput =
    | SetCandidates(candidates: Option<Keyed<Data>>)
    | SetFacts(facts: Option<Keyed<Data>>)
    | SetInputs(inputs: Option<Keyed<Data>>)
    | SetView(view: Option<View>)
    | SetBackoff(backoff: Option<Backoff>)
    | Answers(result: PrepareResult)
    | Notices(activity: seq<Activity>)

  function Applied(family: Family, input: FamilyInput): Family {
    match input
    case SetCandidates(candidates) => family.(candidates := candidates)
    case SetFacts(facts) => family.(facts := facts)
    case SetInputs(inputs) => family.(inputs := inputs)
    case SetView(view) => family.(view := view)
    case SetBackoff(backoff) => family.(backoff := backoff)
    case Answers(result) => Answered(family, result)
    case Notices(activity) => Noticed(family, activity)
  }

  // ----- Deciding -----

  datatype Draft = Draft(
    declined: ByTask<Fingerprint>,
    ready: map<string, Ready>,
    preparing: map<string, Preparation>,
    submitted: map<string, Sent>,
    issued: nat,
    served: string,
    numReservations: nat,
    emitted: seq<Emitted>)

  function Drafted(family: Family): Draft {
    Draft(family.declined, family.ready, family.preparing, family.submitted, family.issued, family.served,
          (if family.view.Some? then family.view.value.numReservations else 0) + |family.submitted|, [])
  }

  predicate Busy(family: Family, d: Draft, key: string) {
    (family.view.Some? && key in family.view.value.busy) || key in d.submitted
  }

  /** Why each candidate the policy has no task for is refused. */
  function RejectedBy(wanted: map<string, Wanted>): map<string, Rejection> {
    map key | key in wanted && wanted[key].RejectedFor? :: wanted[key].reason
  }

  /** A key whose policy return is refused voids its outstanding preparation, and is reported once per reason. */
  function NormalizedOne(family: Family, wanted: map<string, Wanted>, d: Draft, key: string): Draft {
    if key !in wanted || !wanted[key].RejectedFor? then d
    else
      var reason := wanted[key].reason;
      var voided := if key in d.preparing then d.(preparing := d.preparing[key := d.preparing[key].(isVoid := true)]) else d;
      if key in family.rejected && family.rejected[key] == reason then voided
      else voided.(emitted := d.emitted + [Rejected(key, reason)])
  }

  function Normalized(family: Family, wanted: map<string, Wanted>, d: Draft, keys: seq<string>): Draft {
    if keys == [] then d
    else NormalizedOne(family, wanted, Normalized(family, wanted, d, keys[..|keys| - 1]), keys[|keys| - 1])
  }

  function DroppedReady(d: Draft, key: string, reason: DropReason): Draft
    requires key in d.ready
  {
    var asked := d.ready[key].asked;
    d.(ready := d.ready - {key},
       declined := if reason.FactUnbounded? then With(d.declined, key, asked.task, Some(asked.inputFingerprint)) else d.declined,
       emitted := d.emitted + [Dropped(key, asked.task, reason)])
  }

  function HeldOne(wanted: map<string, Wanted>, now: int, d: Draft, key: string): Draft {
    if key !in d.ready then d
    else
      var reason := HeldDrop(d.ready[key], WantAt(wanted, key), now);
      if reason.None? then d else DroppedReady(d, key, reason.value)
  }

  /** Discards every ready act that has lapsed or is no longer wanted. */
  function Held(wanted: map<string, Wanted>, now: int, d: Draft, keys: seq<string>): Draft {
    if keys == [] then d else HeldOne(wanted, now, Held(wanted, now, d, keys[..|keys| - 1]), keys[|keys| - 1])
  }

  function PriorityOf(want: Option<Wanted>): int {
    if want.Some? && want.value.Wants? then want.value.task.priority else 0
  }

  function Priorities(wanted: map<string, Wanted>, keys: set<string>): map<string, int> {
    map key | key in keys :: PriorityOf(WantAt(wanted, key))
  }

  function PlanOf(o: Options, ready: Ready, key: string, number: nat): Result<Plan, Defect> {
    var grounds :- GroundsOf([ready.asked.reading], None, Some(ready.validUntil));
    Ok(Plan(IntentIdOf(key, o.runId, number, Some(ready.asked.task)), ready.steps, ready.asked.conflicts, grounds))
  }

  /** Sends one ready act to the kernel, unless its fact has moved since it was prepared. */
  function SubmittedOne(o: Options, family: Family, wanted: map<string, Wanted>, now: int, d: Draft, key: string): Result<Draft, Defect>
    requires key in d.ready
  {
    var ready := d.ready[key];
    var reading :- FactOf(family.facts, key);
    var reason := SubmitDrop(ready.asked.reading, reading, now);
    if reason.Some? then Ok(DroppedReady(d, key, reason.value))
    else
      var plan :- PlanOf(o, ready, key, d.issued);
      Ok(d.(issued := d.issued + 1,
            ready := d.ready - {key},
            submitted := d.submitted[key := Sent(plan.intentId, ready.asked.task, ready.asked.reading)],
            served := key,
            numReservations := d.numReservations + 1,
            emitted := d.emitted + [Submitted(key, d.issued, plan, ready.asked.id, PriorityOf(WantAt(wanted, key)))]))
  }

  /** Sends ready acts, best ranked first, while reservations are left; a busy or backed off key keeps its own. */
  function SubmittedAll(o: Options, family: Family, wanted: map<string, Wanted>, now: int, d: Draft, keys: seq<string>): Result<Draft, Defect>
    requires AllReady(d, keys)
    decreases |keys|
  {
    if keys == [] || d.numReservations >= o.maxReservations then Ok(d)
    else if Busy(family, d, keys[0]) || BackedOff(family, keys[0], d.ready[keys[0]].asked.task) then
      SubmittedAll(o, family, wanted, now, d, keys[1..])
    else
      var next :- SubmittedOne(o, family, wanted, now, d, keys[0]);
      SubmittedAll(o, family, wanted, now, next, keys[1..])
  }

  /** Each of `keys` is named once and has an act ready. */
  ghost predicate AllReady(d: Draft, keys: seq<string>) {
    && (forall k :: 0 <= k < |keys| ==> keys[k] in d.ready)
    && (forall a, b :: 0 <= a < b < |keys| ==> keys[a] != keys[b])
  }

  /** Whether a preparation of `key` may be asked for. */
  function Preparable(o: Options, family: Family, wanted: map<string, Wanted>, now: int, d: Draft, key: string): Result<bool, Defect> {
    var want := WantAt(wanted, key);
    if want.None? || want.value.RejectedFor? then Ok(false)
    else
      var task := want.value.task;
      var reading :- FactOf(family.facts, key);
      Ok(&& family.facts.Some? && RecordAt(family.facts.value, key).PresentKey?
         && !(ExpiryOf(RecordAt(family.facts.value, key)).Some? && ExpiryOf(RecordAt(family.facts.value, key)).value <= now)
         && DigestAt(family.inputs, key).Some?
         && EntryAt(d.declined, key, task.name) != Some(FingerprintOf(family, key))
         && EntryAt(family.stale, key, task.name) != Some(PrintOf(reading))
         && !PredatesOwnEffect(family.view, task, reading)
         && !Busy(family, d, key)
         && key !in d.preparing && key !in d.ready
         && !BackedOff(family, key, task.name))
  }

  /** The candidates that may be prepared now, none if some reading of one names no block. */
  function PreparableAll(o: Options, family: Family, wanted: map<string, Wanted>, now: int, d: Draft): Result<set<string>, Defect> {
    if exists key :: key in wanted && Preparable(o, family, wanted, now, d, key).Err? then Err(NamesNoBlock)
    else Ok(set key | key in wanted && Preparable(o, family, wanted, now, d, key) == Ok(true))
  }

  predicate LaneFull(o: Options, outstanding: nat) {
    o.concurrency.Some? && outstanding >= o.concurrency.value
  }

  predicate Spent(o: Options, d: Draft) {
    d.numReservations + |d.preparing| + |d.ready| >= o.maxReservations
  }

  function AskedOne(o: Options, family: Family, task: Task, reading: Reading, input: Data, d: Draft, key: string): Draft {
    d.(issued := d.issued + 1,
       preparing := d.preparing[key := Preparation(TicketOf(o.runId, d.issued), reading, FingerprintOf(family, key), task.name, task.conflicts, false)],
       served := key,
       emitted := d.emitted + [Asked(PrepareRequest(TicketOf(o.runId, d.issued), key, task.name, d.issued, reading.version, input))])
  }

  /** `key` wants a task, and both its fact and its input can be read. */
  ghost predicate Askable(family: Family, wanted: map<string, Wanted>, key: string) {
    && key in wanted && wanted[key].Wants?
    && FactOf(family.facts, key).Ok? && FactOf(family.facts, key).value.Some?
    && DigestAt(family.inputs, key).Some?
  }

  /** Asks for preparations, best ranked first, while the lane and the reservations have room. */
  function AskedAll(o: Options, family: Family, wanted: map<string, Wanted>, d: Draft, keys: seq<string>): Draft
    requires forall k :: 0 <= k < |keys| ==> Askable(family, wanted, keys[k])
    decreases |keys|
  {
    if keys == [] || LaneFull(o, |d.preparing|) || Spent(o, d) then d
    else
      var key := keys[0];
      assert Askable(family, wanted, keys[0]);
      AskedAll(o, family, wanted,
               AskedOne(o, family, wanted[key].task, FactOf(family.facts, key).value.value, DigestAt(family.inputs, key).value, d, key),
               keys[1..])
  }

  lemma PreparableAskable(o: Options, family: Family, wanted: map<string, Wanted>, now: int, d: Draft, key: string)
    ensures Preparable(o, family, wanted, now, d, key) == Ok(true) ==> Askable(family, wanted, key)
  {
  }

  lemma PreparableAreAskable(o: Options, family: Family, wanted: map<string, Wanted>, now: int, d: Draft, keys: set<string>)
    requires PreparableAll(o, family, wanted, now, d) == Ok(keys)
    ensures forall key :: key in keys ==> Askable(family, wanted, key)
  {
    forall key | key in keys ensures Askable(family, wanted, key) { PreparableAskable(o, family, wanted, now, d, key); }
  }

  /** Preparations are asked for only of keys that may be prepared. */
  function PreparedNext(o: Options, family: Family, wanted: map<string, Wanted>, now: int, d: Draft): Result<Draft, Defect> {
    var keys :- PreparableAll(o, family, wanted, now, d);
    var priority := Priorities(wanted, keys);
    RankedRight(keys, family.served, priority);
    PreparableAreAskable(o, family, wanted, now, d, keys);
    Ok(AskedAll(o, family, wanted, d, Ranked(keys, family.served, priority)))
  }

  /** Rejections and lapses first, whatever the kernel accepts. */
  function Screened(o: Options, family: Family, now: int): Draft {
    var wanted := WantedBy(o, family);
    var normalized := Normalized(family, wanted, Drafted(family), Sorted(CandidateKeys(family)));
    Held(wanted, now, normalized, Sorted(normalized.ready.Keys))
  }

  function Acted(o: Options, family: Family, now: int, d: Draft): Result<Draft, Defect> {
    if family.view.None? || !family.view.value.acceptingNewWork then Ok(d)
    else
      var wanted, priority := WantedBy(o, family), Priorities(WantedBy(o, family), d.ready.Keys);
      RankedRight(d.ready.Keys, family.served, priority);
      var submitted :- SubmittedAll(o, family, wanted, now, d, Ranked(d.ready.Keys, family.served, priority));
      PreparedNext(o, family, wanted, now, submitted)
  }

  /** A declined task stays so until something its preparation read changes. */
  function StillDeclined(family: Family, declined: ByTask<Fingerprint>): ByTask<Fingerprint> {
    Kept(declined, (key, fingerprint) => fingerprint == FingerprintOf(family, key))
  }

  /** Tasks held for staleness whose fact still reads just as it did. */
  function StillStale(family: Family): ByTask<ReadingPrint> {
    Kept(family.stale, (key, print_) => FactOf(family.facts, key).Ok? && print_ == PrintOf(FactOf(family.facts, key).value))
  }

  predicate StaleUnread(family: Family) {
    exists key :: key in family.stale && FactOf(family.facts, key).Err?
  }

  /** The family once it has decided, and everything it emitted. */
  function Decided(o: Options, family: Family, now: int): Result<(Family, seq<Emitted>), Defect> {
    var d :- Acted(o, family, now, Screened(o, family, now));
    if StaleUnread(family) then Err(NamesNoBlock)
    else
      Ok((family.(ready := d.ready, preparing := d.preparing, submitted := d.submitted, served := d.served, issued := d.issued,
                  rejected := RejectedBy(WantedBy(o, family)),
                  declined := StillDeclined(family, d.declined), stale := StillStale(family)),
          d.emitted))
  }

  function Started(): Family {
    Family(None, None, None, None, None, map[], map[], map[], map[], map[], map[], "", 0)
  }
}
