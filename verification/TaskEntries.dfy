/** Records of an entry per task per key, never holding a key without one. */
module TaskEntries {
  import opened Basics

  type ByTask<T> = map<string, map<string, T>>

  function EntryAt<T>(byTask: ByTask<T>, key: string, task: string): Option<T> {
    if key in byTask && task in byTask[key] then Some(byTask[key][task]) else None
  }

  /** One slot set, or removed when `value` is `None`, and with it a key that has no other. */
  function With<T>(byTask: ByTask<T>, key: string, task: string, value: Option<T>): ByTask<T> {
    var others := (if key in byTask then byTask[key] else map[]) - {task};
    var entries := if value.None? then others else others[task := value.value];
    if |entries| == 0 then byTask - {key} else byTask[key := entries]
  }

  /** The slots `keep` holds of, and the keys that have one. */
  function Kept<T>(byTask: ByTask<T>, keep: (string, T) -> bool): ByTask<T> {
    map key | key in byTask && KeptOf(byTask, key, keep) != map[] :: KeptOf(byTask, key, keep)
  }

  function KeptOf<T>(byTask: ByTask<T>, key: string, keep: (string, T) -> bool): map<string, T>
    requires key in byTask
  {
    map task | task in byTask[key] && keep(key, byTask[key][task]) :: byTask[key][task]
  }

  ghost predicate NoneEmpty<T>(byTask: ByTask<T>) {
    forall key :: key in byTask ==> byTask[key] != map[]
  }

  /** Setting one entry sets that entry, and no other. */
  lemma WithReadsBack<T>(byTask: ByTask<T>, key: string, task: string, value: Option<T>, k: string, t: string)
    ensures EntryAt(With(byTask, key, task, value), k, t) == if k == key && t == task then value else EntryAt(byTask, k, t)
  {
    var old': map<string, T> := if key in byTask then byTask[key] else map[];
    var others := old' - {task};
    var entries := if value.None? then others else others[task := value.value];
    assert |entries| == 0 <==> entries == map[];
    assert t in entries <==> if t == task then value.Some? else t in old';
  }

  lemma KeptReadsBack<T>(byTask: ByTask<T>, keep: (string, T) -> bool, k: string, t: string)
    ensures EntryAt(Kept(byTask, keep), k, t)
            == if EntryAt(byTask, k, t).Some? && keep(k, EntryAt(byTask, k, t).value) then EntryAt(byTask, k, t) else None
  {
    if EntryAt(byTask, k, t).Some? && keep(k, EntryAt(byTask, k, t).value) { assert t in KeptOf(byTask, k, keep); }
  }

  /** No key is ever left without an entry. */
  lemma NoKeyLeftEmpty<T>(byTask: ByTask<T>, key: string, task: string, value: Option<T>, keep: (string, T) -> bool)
    requires NoneEmpty(byTask)
    ensures NoneEmpty(With(byTask, key, task, value)) && NoneEmpty(Kept(byTask, keep))
  {
    var old': map<string, T> := if key in byTask then byTask[key] else map[];
    var entries := if value.None? then old' - {task} else (old' - {task})[task := value.value];
    assert |entries| == 0 <==> entries == map[];
  }
}
