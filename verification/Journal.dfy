/** The journal's delta compression of complete keyed writes, its inverse, and its shape-only checker. */
module Journal {
  import opened Basics
  import opened DataValues
  import opened Graphs
  import opened Steps

  /** A write as the journal holds it: whole, or as what changed since the node's last complete keyed write. */
  datatype JournalWrite =
    | Full(node: string, value: Data)
    | Delta(node: string, fields: map<string, Data>, entries: map<string, Data>, removed: seq<string>)

  datatype JournaledStep = JournaledStep(stamp: Stamp, writes: seq<JournalWrite>, wakes: seq<string>)

  datatype Entry =
    | StepEntry(step: JournaledStep, derived: seq<DerivedWrite>)
    | NoteEntry(effect: string, at: int, note: Data)
    | FailedEntry(origin: Option<string>, at: int, rolledBack: Option<JournaledStep>, description: Option<Data>)
    | RecoveryEntry(failedIn: string, at: int)

  /** A failure may be described in words as it is written; nothing else of any entry changes. */
  ghost predicate Describes(entry: Entry, written: Entry) {
    written == entry || (entry.FailedEntry? && written.FailedEntry? && written == entry.(description := written.description))
  }

  /** A complete keyed write: its entries, and every other field it carries. */
  datatype Complete = Complete(fields: map<string, Data>, entries: map<string, Data>)

  /** Each node's last complete keyed write. */
  type DeltaState = map<string, Complete>

  function CompleteKeyed(value: Data): Option<Complete> {
    if value.Obj? && FieldOf(value, "coverage") == Some(Str("complete"))
       && "entries" in value.fields && value.fields["entries"].Obj?
    then Some(Complete(value.fields - {"entries"}, value.fields["entries"].fields))
    else None
  }

  predicate ValidDelta(before: set<string>, delta: JournalWrite)
    requires delta.Delta?
  {
    && "coverage" in delta.fields && delta.fields["coverage"] == Str("complete")
    && "entries" !in delta.fields
    && (forall a, b :: 0 <= a < b < |delta.removed| ==> delta.removed[a] != delta.removed[b])
    && (forall a :: 0 <= a < |delta.removed| ==> delta.removed[a] in before && delta.removed[a] !in delta.entries)
  }

  /** The state once `value` is written whole to `node`. */
  function Advanced(previous: DeltaState, node: string, value: Data): DeltaState {
    var complete := CompleteKeyed(value);
    if complete.Some? then previous[node := complete.value] else previous - {node}
  }

  function Names(list: seq<string>): set<string> {
    set name | name in list
  }

  // ----- What each operation does -----

  /** The write a journaled one stands for; `None` for a delta with nothing to apply to. */
  function Expanded(previous: DeltaState, write: JournalWrite): Option<Data> {
    match write
    case Full(_, value) => Some(value)
    case Delta(node, fields, entries, removed) =>
      if node in previous && ValidDelta(previous[node].entries.Keys, write)
      then Some(Obj(fields["entries" := Obj(previous[node].entries - Names(removed) + entries)]))
      else None
  }

  /** The state once `write` is expanded; one that cannot be leaves it as it was. */
  function AfterExpanding(previous: DeltaState, write: JournalWrite): DeltaState {
    var value := Expanded(previous, write);
    if value.Some? then Advanced(previous, write.node, value.value) else previous
  }

  /** `compacted` is how the journal may hold `write`: removed keys may come in any order. */
  ghost predicate Compacts(previous: DeltaState, write: JournalWrite, compacted: JournalWrite) {
    match write
    case Delta(_, _, _, _) => compacted == write
    case Full(node, value) =>
      match CompleteKeyed(value)
      case None => compacted == write
      case Some(complete) =>
        if node !in previous then compacted == write
        else
          && compacted.Delta? && compacted.node == node && compacted.fields == complete.fields
          && compacted.entries == Changed(previous[node].entries, complete.entries)
          && (forall a, b :: 0 <= a < b < |compacted.removed| ==> compacted.removed[a] != compacted.removed[b])
          && Names(compacted.removed) == previous[node].entries.Keys - complete.entries.Keys
  }

  function Changed(before: map<string, Data>, after: map<string, Data>): map<string, Data> {
    map key | key in after && !(key in before && before[key] == after[key]) :: after[key]
  }

  function AfterCompacting(previous: DeltaState, write: JournalWrite): DeltaState {
    if write.Full? then Advanced(previous, write.node, write.value) else previous
  }

  // ----- Expansion inverts compaction -----

  lemma CompactedWriteExpands(previous: DeltaState, write: JournalWrite, compacted: JournalWrite)
    requires write.Full? && Compacts(previous, write, compacted)
    ensures compacted.node == write.node && Expanded(previous, compacted) == Some(write.value)
  {
    if compacted.Delta? {
      var before, complete := previous[write.node].entries, CompleteKeyed(write.value).value;
      forall a | 0 <= a < |compacted.removed| ensures compacted.removed[a] in before && compacted.removed[a] !in compacted.entries {
        assert compacted.removed[a] in Names(compacted.removed) && compacted.removed[a] !in complete.entries;
      }
      assert before - Names(compacted.removed) + compacted.entries == complete.entries;
      assert write.value.fields == complete.fields["entries" := Obj(complete.entries)];
    }
  }

  ghost predicate CompactsAll(previous: DeltaState, writes: seq<JournalWrite>, compacted: seq<JournalWrite>)
    decreases |writes|
  {
    if writes == [] then compacted == []
    else
      && compacted != [] && Compacts(previous, writes[0], compacted[0])
      && CompactsAll(AfterCompacting(previous, writes[0]), writes[1..], compacted[1..])
  }

  function AfterCompactingAll(previous: DeltaState, writes: seq<JournalWrite>): DeltaState
    decreases |writes|
  {
    if writes == [] then previous else AfterCompactingAll(AfterCompacting(previous, writes[0]), writes[1..])
  }

  /** The writes a sequence of journaled ones stands for, while every one of them can be expanded. */
  function ExpandedAll(previous: DeltaState, writes: seq<JournalWrite>): Option<seq<JournalWrite>>
    decreases |writes|
  {
    if writes == [] then Some([])
    else
      var value := Expanded(previous, writes[0]);
      var rest := ExpandedAll(AfterExpanding(previous, writes[0]), writes[1..]);
      if value.None? || rest.None? then None else Some([Full(writes[0].node, value.value)] + rest.value)
  }

  function AfterExpandingAll(previous: DeltaState, writes: seq<JournalWrite>): DeltaState
    decreases |writes|
  {
    if writes == [] then previous else AfterExpandingAll(AfterExpanding(previous, writes[0]), writes[1..])
  }

  /**
   * Whatever is written to whatever nodes, expanding what was compacted gives back every write, in order,
   * and never meets a delta it cannot apply; both sides come to the same state, ready for the next entry.
   */
  lemma {:induction false} ExpansionInvertsCompaction(previous: DeltaState, writes: seq<JournalWrite>, compacted: seq<JournalWrite>)
    requires (forall k :: 0 <= k < |writes| ==> writes[k].Full?) && CompactsAll(previous, writes, compacted)
    ensures ExpandedAll(previous, compacted) == Some(writes)
    ensures AfterExpandingAll(previous, compacted) == AfterCompactingAll(previous, writes)
    decreases |writes|
  {
    if writes != [] {
      CompactedWriteExpands(previous, writes[0], compacted[0]);
      ExpansionInvertsCompaction(AfterCompacting(previous, writes[0]), writes[1..], compacted[1..]);
      assert writes == [writes[0]] + writes[1..];
    }
  }

  // ----- The shape-only checker -----

  /** The keys each node's last complete write had entries for. */
  function ShapeOf(previous: DeltaState): map<string, set<string>> {
    map node | node in previous :: previous[node].entries.Keys
  }

  predicate ShapeAccepts(shape: map<string, set<string>>, write: JournalWrite) {
    write.Full? || (write.node in shape && ValidDelta(shape[write.node], write))
  }

  function AfterShape(shape: map<string, set<string>>, write: JournalWrite): map<string, set<string>> {
    if !ShapeAccepts(shape, write) then shape
    else
      match write
      case Full(node, value) =>
        var complete := CompleteKeyed(value);
        if complete.Some? then shape[node := complete.value.entries.Keys] else shape - {node}
      case Delta(node, _, entries, removed) => shape[node := shape[node] - Names(removed) + entries.Keys]
  }

  /** The shape alone accepts exactly the writes that can be expanded, and stays the shape of the state. */
  lemma ShapeDecidesExpansion(previous: DeltaState, write: JournalWrite)
    ensures ShapeAccepts(ShapeOf(previous), write) <==> Expanded(previous, write).Some?
    ensures AfterShape(ShapeOf(previous), write) == ShapeOf(AfterExpanding(previous, write))
  {
    if write.Delta? && Expanded(previous, write).Some? {
      var value := Expanded(previous, write).value;
      assert FieldOf(value, "coverage") == Some(Str("complete"));
      assert CompleteKeyed(value).Some?;
      assert CompleteKeyed(value).value.entries == previous[write.node].entries - Names(write.removed) + write.entries;
    }
  }

  predicate ShapeAcceptsAll(shape: map<string, set<string>>, writes: seq<JournalWrite>)
    decreases |writes|
  {
    writes == [] || (ShapeAccepts(shape, writes[0]) && ShapeAcceptsAll(AfterShape(shape, writes[0]), writes[1..]))
  }

  function AfterShapeOfAll(shape: map<string, set<string>>, writes: seq<JournalWrite>): map<string, set<string>>
    decreases |writes|
  {
    if writes == [] then shape else AfterShapeOfAll(AfterShape(shape, writes[0]), writes[1..])
  }

  /** So it does over a journal: the two accept the same writes, and the key sets stay those of the whole state. */
  lemma {:induction false} ShapeDecidesExpansionOfAll(previous: DeltaState, writes: seq<JournalWrite>)
    ensures ShapeAcceptsAll(ShapeOf(previous), writes) <==> ExpandedAll(previous, writes).Some?
    ensures AfterShapeOfAll(ShapeOf(previous), writes) == ShapeOf(AfterExpandingAll(previous, writes))
    decreases |writes|
  {
    if writes != [] {
      ShapeDecidesExpansion(previous, writes[0]);
      ShapeDecidesExpansionOfAll(AfterExpanding(previous, writes[0]), writes[1..]);
    }
  }

  // ----- The operations, over a state they update -----

  /** The journal's memory of complete keyed writes, shared by the entries compacted or expanded with it. */
  class Deltas {
    var previous: DeltaState

    constructor ()
      ensures previous == map[]
    {
      previous := map[];
    }

    method Compact(write: JournalWrite) returns (compacted: JournalWrite)
      modifies this
      ensures Compacts(old(previous), write, compacted) && previous == AfterCompacting(old(previous), write)
    {
      if write.Delta? { return write; }
      var complete := CompleteKeyed(write.value);
      if complete.None? {
        previous := previous - {write.node};
        return write;
      }
      var before := if write.node in previous then Some(previous[write.node]) else None;
      previous := previous[write.node := complete.value];
      if before.None? { return write; }
      var removed := InSomeOrder(before.value.entries.Keys - complete.value.entries.Keys);
      return Delta(write.node, complete.value.fields, Changed(before.value.entries, complete.value.entries), removed);
    }

    /** Compacts a step's writes; every other entry is journaled as it is. */
    method CompactEntry(entry: Entry) returns (compacted: Entry)
      modifies this
      ensures !entry.StepEntry? ==> compacted == entry && previous == old(previous)
      ensures entry.StepEntry? ==> && compacted.StepEntry? && compacted == entry.(step := entry.step.(writes := compacted.step.writes))
                                   && CompactsAll(old(previous), entry.step.writes, compacted.step.writes)
                                   && previous == AfterCompactingAll(old(previous), entry.step.writes)
    {
      if !entry.StepEntry? { return entry; }
      var writes: seq<JournalWrite> := [];
      for k := 0 to |entry.step.writes|
        invariant previous == AfterCompactingAll(old(previous), entry.step.writes[..k])
        invariant CompactsAll(old(previous), entry.step.writes[..k], writes)
      {
        ghost var before := previous;
        var compacted := Compact(entry.step.writes[k]);
        CompactedOneMore(old(previous), entry.step.writes[..k], writes, entry.step.writes[k], compacted);
        assert entry.step.writes[..k + 1] == entry.step.writes[..k] + [entry.step.writes[k]];
        writes := writes + [compacted];
      }
      assert entry.step.writes[..|entry.step.writes|] == entry.step.writes;
      return entry.(step := entry.step.(writes := writes));
    }

    method Expand(write: JournalWrite) returns (value: Option<Data>)
      modifies this
      ensures value == Expanded(old(previous), write) && previous == AfterExpanding(old(previous), write)
    {
      match write
      case Full(node, whole) =>
        var complete := CompleteKeyed(whole);
        previous := if complete.Some? then previous[node := complete.value] else previous - {node};
        return Some(whole);
      case Delta(node, fields, changed, removed) =>
        if node !in previous || !ValidDelta(previous[node].entries.Keys, write) { return None; }
        var before := previous[node].entries;
        var entries := before;
        assert entries == before - Names(removed[..0]);
        for k := 0 to |removed|
          invariant entries == before - Names(removed[..k])
        {
          assert Names(removed[..k + 1]) == Names(removed[..k]) + {removed[k]};
          assert entries - {removed[k]} == before - Names(removed[..k + 1]);
          entries := entries - {removed[k]};
        }
        assert removed[..|removed|] == removed;
        entries := entries + changed;
        ghost var expanded := Obj(fields["entries" := Obj(entries)]);
        assert CompleteKeyed(expanded) == Some(Complete(fields, entries)) by {
          assert expanded.fields - {"entries"} == fields;
        }
        previous := previous[node := Complete(fields, entries)];
        return Some(Obj(fields["entries" := Obj(entries)]));
    }

    /** Expands a step's writes, in order, giving up at the first that cannot be. */
    method ExpandAll(writes: seq<JournalWrite>) returns (whole: Option<seq<JournalWrite>>)
      modifies this
      ensures whole == ExpandedAll(old(previous), writes)
      ensures whole.Some? ==> previous == AfterExpandingAll(old(previous), writes)
    {
      var done: seq<JournalWrite> := [];
      assert writes[0..] == writes;
      assert ExpandedAll(previous, writes).Some? ==> [] + ExpandedAll(previous, writes).value == ExpandedAll(previous, writes).value;
      for k := 0 to |writes|
        invariant AfterExpandingAll(old(previous), writes) == AfterExpandingAll(previous, writes[k..])
        invariant ExpandedAll(old(previous), writes) == if ExpandedAll(previous, writes[k..]).None? then None
                                                        else Some(done + ExpandedAll(previous, writes[k..]).value)
      {
        assert writes[k..][0] == writes[k] && writes[k..][1..] == writes[k + 1..];
        var value := Expand(writes[k]);
        if value.None? { return None; }
        ghost var rest := ExpandedAll(previous, writes[k + 1..]);
        var next := Full(writes[k].node, value.value);
        assert rest.Some? ==> (done + [next]) + rest.value == done + ([next] + rest.value);
        done := done + [next];
      }
      assert done + [] == done;
      return Some(done);
    }
  }

  method InSomeOrder(keys: set<string>) returns (list: seq<string>)
    ensures Names(list) == keys
    ensures forall a, b :: 0 <= a < b < |list| ==> list[a] != list[b]
  {
    list := [];
    var left := keys;
    while left != {}
      invariant left <= keys && Names(list) == keys - left
      invariant forall a, b :: 0 <= a < b < |list| ==> list[a] != list[b]
      decreases left
    {
      var key :| key in left;
      assert key !in Names(list);
      assert Names(list + [key]) == Names(list) + {key};
      list, left := list + [key], left - {key};
    }
  }

  lemma {:induction false} CompactedOneMore(previous: DeltaState, writes: seq<JournalWrite>, compacted: seq<JournalWrite>,
                                            write: JournalWrite, one: JournalWrite)
    requires CompactsAll(previous, writes, compacted) && Compacts(AfterCompactingAll(previous, writes), write, one)
    ensures CompactsAll(previous, writes + [write], compacted + [one])
    ensures AfterCompactingAll(previous, writes + [write]) == AfterCompacting(AfterCompactingAll(previous, writes), write)
    decreases |writes|
  {
    if writes == [] {
      assert writes + [write] == [write] && compacted + [one] == [one];
      assert [write][1..] == [] && [one][1..] == [];
    } else {
      CompactedOneMore(AfterCompacting(previous, writes[0]), writes[1..], compacted[1..], write, one);
      assert (writes + [write])[1..] == writes[1..] + [write];
      assert (compacted + [one])[1..] == compacted[1..] + [one];
    }
  }

  /** The key sets a checker that never holds whole values keeps. */
  class Shapes {
    var previous: map<string, set<string>>

    constructor ()
      ensures previous == map[]
    {
      previous := map[];
    }

    method Advance(write: JournalWrite) returns (accepted: bool)
      modifies this
      ensures accepted <==> ShapeAccepts(old(previous), write)
      ensures previous == AfterShape(old(previous), write)
    {
      match write
      case Full(node, value) =>
        var complete := CompleteKeyed(value);
        previous := if complete.Some? then previous[node := complete.value.entries.Keys] else previous - {node};
        return true;
      case Delta(node, _, changed, removed) =>
        if node !in previous || !ValidDelta(previous[node], write) { return false; }
        var entries := previous[node];
        for k := 0 to |removed|
          invariant entries == previous[node] - Names(removed[..k])
        {
          entries := entries - {removed[k]};
          assert Names(removed[..k + 1]) == Names(removed[..k]) + {removed[k]};
        }
        assert removed[..|removed|] == removed;
        previous := previous[node := entries + changed.Keys];
        return true;
    }
  }
}
