/** Intent ids: which key, run and task an act belongs to, read back from the id alone. */
module Intents {
  import opened Basics

  // ----- Strings -----

  function DigitOf(d: nat): char
    requires d < 10
  {
    ['0', '1', '2', '3', '4', '5', '6', '7', '8', '9'][d]
  }

  predicate IsDigit(c: char) {
    '0' <= c <= '9'
  }

  function Decimal(n: nat): (text: string)
    ensures text != [] && forall k :: 0 <= k < |text| ==> IsDigit(text[k])
  {
    if n < 10 then [DigitOf(n)] else Decimal(n / 10) + [DigitOf(n % 10)]
  }

  function DigitValue(c: char): nat
    requires IsDigit(c)
  {
    (c as int) - ('0' as int)
  }

  function ValueOf(text: string): nat
    requires forall k :: 0 <= k < |text| ==> IsDigit(text[k])
  {
    if text == [] then 0 else 10 * ValueOf(text[..|text| - 1]) + DigitValue(text[|text| - 1])
  }

  lemma {:induction false} DecimalReadsBack(n: nat)
    ensures ValueOf(Decimal(n)) == n
  {
    if n < 10 {
      assert Decimal(n)[..0] == [];
      assert DigitValue(DigitOf(n)) == n;
    } else {
      DecimalReadsBack(n / 10);
      assert Decimal(n)[..|Decimal(n)| - 1] == Decimal(n / 10);
      assert DigitValue(DigitOf(n % 10)) == n % 10;
    }
  }

  function LastIndexOf(s: string, c: char): (at: Option<nat>)
    ensures at.Some? ==> at.value < |s|
  {
    if s == [] then None
    else if s[|s| - 1] == c then Some(|s| - 1)
    else LastIndexOf(s[..|s| - 1], c)
  }

  function IndexOf(s: string, c: char): (at: nat)
    ensures at <= |s| && (at < |s| ==> s[at] == c) && c !in s[..at]
  {
    if s == [] || s[0] == c then 0
    else
      var rest := IndexOf(s[1..], c);
      assert s[..rest + 1] == [s[0]] + s[1..][..rest];
      rest + 1
  }

  /** `s` cut at every `c`, as many parts as there are cuts and one more. */
  function Split(s: string, c: char): (parts: seq<string>)
    ensures parts != [] && forall k :: 0 <= k < |parts| ==> c !in parts[k]
    decreases |s|
  {
    var at := IndexOf(s, c);
    if at == |s| then assert s[..at] == s; [s] else [s[..at]] + Split(s[at + 1..], c)
  }

  lemma SplitFirst(a: string, b: string, c: char)
    requires c !in a
    ensures Split(a + [c] + b, c) == [a] + Split(b, c)
  {
    var s := a + [c] + b;
    var at := IndexOf(s, c);
    forall k | 0 <= k < |a| ensures s[k] != c { assert s[k] == a[k]; }
    forall k | 0 <= k < at ensures s[k] != c { assert s[k] == s[..at][k]; }
    assert s[|a|] == c;
    assert s[..|a|] == a && s[|a| + 1..] == b;
  }

  lemma SplitWhole(a: string, c: char)
    requires c !in a
    ensures Split(a, c) == [a]
  {
    forall k | 0 <= k < |a| ensures a[k] != c {}
  }

  lemma {:induction false} LastIndexAfter(a: string, b: string, c: char)
    requires c !in b
    ensures LastIndexOf(a + [c] + b, c) == Some(|a|)
  {
    var s := a + [c] + b;
    if b != [] {
      assert s[|s| - 1] == b[|b| - 1] && b[|b| - 1] in b;
      assert s[..|s| - 1] == a + [c] + b[..|b| - 1];
      LastIndexAfter(a, b[..|b| - 1], c);
    }
  }

  lemma {:induction false} NoneAfterLast(s: string, c: char)
    ensures LastIndexOf(s, c).Some? ==> c !in s[LastIndexOf(s, c).value + 1..]
  {
    if s != [] && s[|s| - 1] != c {
      NoneAfterLast(s[..|s| - 1], c);
      var at := LastIndexOf(s, c);
      if at.Some? { assert s[at.value + 1..] == s[..|s| - 1][at.value + 1..] + [s[|s| - 1]]; }
    }
  }

  // ----- Ids -----

  /** Names an act: its key, then the run, the number and perhaps the task after the last `#`. */
  function IntentIdOf(key: string, runId: string, n: nat, task: Option<string>): string {
    key + ['#'] + TailOf(runId, n, task)
  }

  datatype Parsed = Parsed(key: string, runId: string, task: Option<string>)

  predicate IsNumeral(text: string) {
    text != [] && forall k :: 0 <= k < |text| ==> IsDigit(text[k])
  }

  /** The key, run, number and task an id names, if it has the form of one this library issued. */
  function PartsOf(intentId: string): Option<(Parsed, string)> {
    var at := LastIndexOf(intentId, '#');
    if at.None? then None
    else PartsIn(intentId[..at.value], Split(intentId[at.value + 1..], '.'))
  }

  function PartsIn(key: string, parts: seq<string>): Option<(Parsed, string)> {
    if |parts| < 2 || !IsNumeral(parts[1]) then None
    else if (|parts| > 2 && parts[2] == "") || |parts| > 3 then None
    else Some((Parsed(key, parts[0], if |parts| == 3 then Some(parts[2]) else None), parts[1]))
  }

  function ParseIntentId(intentId: string): Option<Parsed> {
    var parts := PartsOf(intentId);
    if parts.None? then None else Some(parts.value.0)
  }

  /** Neither separator of an id's own parts. */
  predicate Plain(name: string) {
    '.' !in name && '#' !in name
  }

  /** What a task may be called. */
  predicate IsTaskName(name: string) {
    name != "" && Plain(name)
  }

  lemma DigitsArePlain(n: nat)
    ensures Plain(Decimal(n))
  {
  }

  /** What follows an id's last `#`. */
  function TailOf(runId: string, n: nat, task: Option<string>): string {
    runId + "." + Decimal(n) + if task.None? then "" else "." + task.value
  }

  lemma TailSplits(runId: string, n: nat, task: Option<string>)
    requires Plain(runId) && (task.Some? ==> IsTaskName(task.value))
    ensures Split(TailOf(runId, n, task), '.') == [runId, Decimal(n)] + if task.None? then [] else [task.value]
  {
    var digits := Decimal(n);
    DigitsArePlain(n);
    if task.None? {
      assert TailOf(runId, n, task) == runId + ['.'] + digits;
      SplitFirst(runId, digits, '.');
      SplitWhole(digits, '.');
    } else {
      assert TailOf(runId, n, task) == runId + ['.'] + (digits + ['.'] + task.value);
      SplitFirst(runId, digits + ['.'] + task.value, '.');
      SplitFirst(digits, task.value, '.');
      SplitWhole(task.value, '.');
    }
  }

  lemma TailIsPlain(runId: string, n: nat, task: Option<string>)
    requires Plain(runId) && (task.Some? ==> IsTaskName(task.value))
    ensures '#' !in TailOf(runId, n, task)
  {
    DigitsArePlain(n);
  }

  lemma PartsReadBack(key: string, runId: string, n: nat, task: Option<string>)
    requires Plain(runId) && (task.Some? ==> IsTaskName(task.value))
    ensures PartsOf(IntentIdOf(key, runId, n, task)) == Some((Parsed(key, runId, task), Decimal(n)))
  {
    TailIsPlain(runId, n, task);
    TailSplits(runId, n, task);
    PartsOfTail(key, TailOf(runId, n, task));
    IssuedPartsIn(key, runId, Decimal(n), task);
  }

  lemma PartsOfTail(key: string, tail: string)
    requires '#' !in tail
    ensures PartsOf(key + ['#'] + tail) == PartsIn(key, Split(tail, '.'))
  {
    var id := key + ['#'] + tail;
    LastIndexAfter(key, tail, '#');
    assert id[..|key|] == key && id[|key| + 1..] == tail;
  }

  lemma IssuedPartsIn(key: string, runId: string, digits: string, task: Option<string>)
    requires IsNumeral(digits) && (task.Some? ==> IsTaskName(task.value))
    ensures PartsIn(key, [runId, digits] + if task.None? then [] else [task.value]) == Some((Parsed(key, runId, task), digits))
  {
  }

  /** Whatever its key holds, even the separators themselves, an issued id gives back key, run and task. */
  lemma IssuedIdsParse(key: string, runId: string, n: nat, task: Option<string>)
    requires Plain(runId) && (task.Some? ==> IsTaskName(task.value))
    ensures ParseIntentId(IntentIdOf(key, runId, n, task)) == Some(Parsed(key, runId, task))
  {
    PartsReadBack(key, runId, n, task);
  }

  /** No two issued ids are equal unless they were issued for the same key, task and number. */
  lemma IssuedIdsDiffer(runId: string, key: string, n: nat, task: Option<string>, key': string, n': nat, task': Option<string>)
    requires Plain(runId) && (task.Some? ==> IsTaskName(task.value)) && (task'.Some? ==> IsTaskName(task'.value))
    requires IntentIdOf(key, runId, n, task) == IntentIdOf(key', runId, n', task')
    ensures key == key' && n == n' && task == task'
  {
    PartsReadBack(key, runId, n, task);
    PartsReadBack(key', runId, n', task');
    DecimalReadsBack(n);
    DecimalReadsBack(n');
  }

  /** Probing a run id with one issued id tells exactly whether all of its ids will parse. */
  lemma RunIdsProbed(runId: string)
    ensures Plain(runId) <==>
            var parsed := ParseIntentId(IntentIdOf("key", runId, 0, Some("task")));
            parsed.Some? && parsed.value.runId == runId
  {
    if Plain(runId) {
      assert IsTaskName("task");
      IssuedIdsParse("key", runId, 0, Some("task"));
    } else {
      var id := IntentIdOf("key", runId, 0, Some("task"));
      ParsedRunIdIsPlain(id);
    }
  }

  lemma ParsedRunIdIsPlain(intentId: string)
    ensures ParseIntentId(intentId).Some? ==> Plain(ParseIntentId(intentId).value.runId)
  {
    var at := LastIndexOf(intentId, '#');
    if at.Some? {
      NoneAfterLast(intentId, '#');
      SplitWithin(intentId[at.value + 1..], '.', '#');
    }
  }

  lemma {:induction false} SplitWithin(s: string, c: char, d: char)
    requires d !in s
    ensures forall k :: 0 <= k < |Split(s, c)| ==> d !in Split(s, c)[k]
    decreases |s|
  {
    var at := IndexOf(s, c);
    if at < |s| {
      assert d !in s[..at] && d !in s[at + 1..];
      SplitWithin(s[at + 1..], c, d);
    }
  }

  /** A run's `seq`th preparation ticket. */
  function TicketOf(runId: string, n: nat): string {
    runId + ".p" + Decimal(n)
  }

  lemma TicketsDiffer(runId: string, n: nat, n': nat)
    requires TicketOf(runId, n) == TicketOf(runId, n')
    ensures n == n'
  {
    var prefix := runId + ".p";
    assert Decimal(n) == TicketOf(runId, n)[|prefix|..] && Decimal(n') == TicketOf(runId, n')[|prefix|..];
    DecimalReadsBack(n);
    DecimalReadsBack(n');
  }
}
