/** Canonical encoding: one text for each value that is data, and reading it back. */
module Encoding {
  import opened Basics
  import opened DataValues
  import J = JsonTexts
  import Orders

  /**
   * A value as a program holds it. A number is known by its shortest decimal text, or `NaN`, `Infinity`
   * and `-Infinity`; an object has its fields in some order; `Other` is anything that is no value of
   * these kinds, such as a function or a `Date`.
   */
  datatype Value =
    | Undefined
    | Nothing
    | Truth(b: bool)
    | Number(text: string)
    | MinusZero
    | Text(s: string)
    | BigInt(i: int)
    | Array(items: seq<Value>)
    | Object(entries: seq<Entry>)
    | Other

  datatype Entry = Entry(name: string, value: Value)

  datatype NotData = NotFinite | NotAValue | ReservedField

  const BIGINT_FIELD := "$bigint"

  /** No object has two fields of one name, all the way down. */
  ghost predicate IsValue(value: Value) {
    match value
    case Array(items) => forall k :: 0 <= k < |items| ==> IsValue(items[k])
    case Object(entries) =>
      (forall k :: 0 <= k < |entries| ==> IsValue(entries[k].value)) && NamesDiffer(entries)
    case _ => true
  }

  ghost predicate NamesDiffer(entries: seq<Entry>) {
    forall a, b :: 0 <= a < b < |entries| ==> entries[a].name != entries[b].name
  }

  /** JSON plus bigint: finite numbers, no `undefined` but as a field's value, no field that marks a bigint. */
  ghost predicate IsData(value: Value) {
    match value
    case Undefined => false
    case Other => false
    case Number(text) => J.IsNumeral(text)
    case Array(items) => forall k :: 0 <= k < |items| ==> IsData(items[k])
    case Object(entries) => forall k :: 0 <= k < |entries| ==> EntryIsData(entries[k])
    case _ => true
  }

  ghost predicate EntryIsData(entry: Entry) {
    entry.value.Undefined? || (entry.name != BIGINT_FIELD && IsData(entry.value))
  }

  // ----- Encoding -----

  /** The fields that are not `undefined`. */
  function Kept(entries: seq<Entry>): (kept: seq<Entry>)
    ensures forall e :: e in kept ==> e in entries
  {
    if entries == [] then []
    else (if entries[0].value.Undefined? then [] else [entries[0]]) + Kept(entries[1..])
  }

  function Place(entry: Entry, list: seq<Entry>): (placed: seq<Entry>)
    ensures forall e :: e in placed <==> e == entry || e in list
  {
    if list == [] || Orders.Less(entry.name, list[0].name) then [entry] + list
    else [list[0]] + Place(entry, list[1..])
  }

  /** The fields in order of their names. */
  function InOrder(entries: seq<Entry>): (list: seq<Entry>)
    ensures forall e :: e in list <==> e in entries
  {
    if entries == [] then [] else Place(entries[0], InOrder(entries[1..]))
  }

  function Encode(value: Value): Result<string, NotData>
    decreases value, 1, 0
  {
    match value
    case Undefined => Err(NotAValue)
    case Other => Err(NotAValue)
    case Nothing => Ok("null")
    case Truth(b) => Ok(if b then "true" else "false")
    case Number(text) => if J.IsNumeral(text) then Ok(text) else Err(NotFinite)
    case MinusZero => Ok("0")
    case Text(s) => Ok(J.Quote(s))
    case BigInt(i) => Ok("{\"" + BIGINT_FIELD + "\":\"" + J.WholeText(i) + "\"}")
    case Array(_) =>
      var items :- EncodeItems(value, 0);
      Ok("[" + items + "]")
    case Object(entries) =>
      var fields :- EncodeFields(value, InOrder(Kept(entries)));
      Ok("{" + fields + "}")
  }

  function EncodeItems(value: Value, k: nat): Result<string, NotData>
    requires value.Array? && k <= |value.items|
    decreases value, 0, |value.items| - k
  {
    if k == |value.items| then Ok("")
    else
      var item :- Encode(value.items[k]);
      if k + 1 == |value.items| then Ok(item)
      else
        var rest :- EncodeItems(value, k + 1);
        Ok(item + "," + rest)
  }

  function EncodeFields(value: Value, fields: seq<Entry>): Result<string, NotData>
    requires value.Object? && forall k :: 0 <= k < |fields| ==> fields[k] in value.entries
    decreases value, 0, |fields|
  {
    if fields == [] then Ok("")
    else
      var field :- EncodeField(value, fields[0]);
      if |fields| == 1 then Ok(field)
      else
        var rest :- EncodeFields(value, fields[1..]);
        Ok(field + "," + rest)
  }

  function EncodeField(value: Value, field: Entry): Result<string, NotData>
    requires value.Object? && field in value.entries
    decreases value, 0, 0
  {
    if field.name == BIGINT_FIELD then Err(ReservedField)
    else
      var text :- Encode(field.value);
      Ok(J.Quote(field.name) + ":" + text)
  }

  // ----- The data a value is -----

  /** A number read from its numeral: an integer in the safe range by its value, any other by its text. */
  function NumberData(text: string): Data {
    var whole := J.WholeOf(text);
    if whole.Some? && IsSafeInteger(whole.value) && J.WholeText(whole.value) == text then Whole(whole.value) else Fraction(text)
  }

  /** The data a value is: minus zero is zero, an object its fields that are not `undefined`, whatever their order. */
  ghost function Canon(value: Value): Data
    requires IsData(value)
    decreases value, 1, 0
  {
    match value
    case Nothing => Null
    case Truth(b) => Bool(b)
    case Number(text) => NumberData(text)
    case MinusZero => Whole(0)
    case Text(s) => Str(s)
    case BigInt(i) => Big(i)
    case Array(items) => List(seq(|items|, k requires 0 <= k < |items| => Canon(items[k])))
    case Object(entries) => Obj(CanonFields(value, 0))
  }

  ghost function CanonFields(value: Value, k: nat): map<string, Data>
    requires value.Object? && IsData(value) && k <= |value.entries|
    decreases value, 0, |value.entries| - k
  {
    if k == |value.entries| then map[]
    else
      var entry := value.entries[k];
      assert EntryIsData(entry);
      if entry.value.Undefined? then CanonFields(value, k + 1)
      else CanonFields(value, k + 1)[entry.name := Canon(entry.value)]
  }

  // ----- The one text of data -----

  /** Data as JSON: a bigint is an object of one reserved field. */
  function Raw(data: Data): J.Json {
    match data
    case Null => J.Nil
    case Bool(b) => J.Truth(b)
    case Whole(n) => J.Number(J.WholeText(n))
    case Fraction(text) => J.Number(text)
    case Str(s) => J.Text(s)
    case Big(i) => J.Obj(map[BIGINT_FIELD := J.Text(J.WholeText(i))])
    case List(items) => J.List(seq(|items|, k requires 0 <= k < |items| => Raw(items[k])))
    case Obj(fields) => J.Obj(map name | name in fields :: Raw(fields[name]))
  }

  function TextOf(data: Data): string {
    J.Write(Raw(data))
  }

  /** Data in its one form: integers in the safe range are whole, fractions are not, and no field marks a bigint. */
  ghost predicate IsCanonical(data: Data) {
    match data
    case Whole(n) => IsSafeInteger(n)
    case Fraction(text) => J.IsNumeral(text) && NumberData(text) == data
    case List(items) => forall k :: 0 <= k < |items| ==> IsCanonical(items[k])
    case Obj(fields) => BIGINT_FIELD !in fields && forall name :: name in fields ==> IsCanonical(fields[name])
    case _ => true
  }

  // ----- Decoding -----

  /** JSON with its bigints back; none if the digits of one are not an integer's. */
  function Revive(json: J.Json): Option<Data> {
    match json
    case Nil => Some(Null)
    case Truth(b) => Some(Bool(b))
    case Number(text) => Some(NumberData(text))
    case Text(s) => Some(Str(s))
    case List(items) =>
      var revived := seq(|items|, k requires 0 <= k < |items| => Revive(items[k]));
      if exists k :: 0 <= k < |items| && revived[k].None? then None
      else Some(List(seq(|items|, k requires 0 <= k < |items| => revived[k].value)))
    case Obj(fields) =>
      if fields.Keys == {BIGINT_FIELD} && fields[BIGINT_FIELD].Text? then
        var whole := J.WholeOf(fields[BIGINT_FIELD].s);
        if whole.None? then None else Some(Big(whole.value))
      else
        var revived := map name | name in fields :: Revive(fields[name]);
        if exists name :: name in fields && revived[name].None? then None
        else Some(Obj(map name | name in fields :: revived[name].value))
  }

  function Decode(text: string): Option<Data> {
    var json := J.Parse(text);
    if json.None? then None else Revive(json.value)
  }

  lemma {:induction false} RawIsJson(data: Data)
    requires IsCanonical(data)
    ensures J.IsJson(Raw(data))
  {
    match data {
      case Whole(n) => J.WholeTextIsNumeral(n);
      case List(items) => forall k | 0 <= k < |items| ensures J.IsJson(Raw(data).items[k]) { RawIsJson(items[k]); }
      case Obj(fields) => forall name | name in fields ensures J.IsJson(Raw(data).fields[name]) { RawIsJson(fields[name]); }
      case _ =>
    }
  }

  lemma RevivedItems(items: seq<J.Json>, data: seq<Data>)
    requires |items| == |data| && forall k :: 0 <= k < |items| ==> Revive(items[k]) == Some(data[k])
    ensures Revive(J.List(items)) == Some(List(data))
  {
    assert Revive(J.List(items)).value.items == data;
  }

  lemma RevivedFields(fields: map<string, J.Json>, data: map<string, Data>)
    requires fields.Keys == data.Keys && BIGINT_FIELD !in data
    requires forall name :: name in fields ==> Revive(fields[name]) == Some(data[name])
    ensures Revive(J.Obj(fields)) == Some(Obj(data))
  {
    assert Revive(J.Obj(fields)).value.fields == data;
  }

  lemma {:induction false} ReviveInvertsRaw(data: Data)
    requires IsCanonical(data)
    ensures Revive(Raw(data)) == Some(data)
  {
    match data {
      case Whole(n) => J.WholeReadsBack(n);
      case Big(i) => J.WholeReadsBack(i);
      case List(items) =>
        forall k | 0 <= k < |items| ensures Revive(Raw(data).items[k]) == Some(items[k]) { ReviveInvertsRaw(items[k]); }
        RevivedItems(Raw(data).items, items);
      case Obj(fields) =>
        forall name | name in fields ensures Revive(Raw(data).fields[name]) == Some(fields[name]) { ReviveInvertsRaw(fields[name]); }
        assert Raw(data).fields.Keys == fields.Keys;
        RevivedFields(Raw(data).fields, fields);
      case _ =>
    }
  }

  /** Decoding inverts the one text of any data. */
  lemma DecodeInvertsText(data: Data)
    requires IsCanonical(data)
    ensures Decode(TextOf(data)) == Some(data)
  {
    RawIsJson(data);
    J.ParseInvertsWrite(Raw(data));
    ReviveInvertsRaw(data);
  }

  // ----- Encoding writes the one text of the data a value is -----

  lemma {:induction false} CanonIsCanonical(value: Value)
    requires IsData(value)
    ensures IsCanonical(Canon(value))
    decreases value, 1, 0
  {
    match value {
      case Number(text) => NumbersAreCanonical(text);
      case Array(items) => forall k | 0 <= k < |items| ensures IsCanonical(Canon(value).items[k]) { CanonIsCanonical(items[k]); }
      case Object(entries) => CanonFieldsAreCanonical(value, 0);
      case _ =>
    }
  }

  lemma NumbersAreCanonical(text: string)
    requires J.IsNumeral(text)
    ensures IsCanonical(NumberData(text)) && Raw(NumberData(text)) == J.Number(text)
  {
  }

  lemma {:induction false} CanonFieldsAreCanonical(value: Value, k: nat)
    requires value.Object? && IsData(value) && k <= |value.entries|
    ensures BIGINT_FIELD !in CanonFields(value, k)
    ensures forall name :: name in CanonFields(value, k) ==> IsCanonical(CanonFields(value, k)[name])
    decreases value, 0, |value.entries| - k
  {
    if k < |value.entries| {
      var entry := value.entries[k];
      assert EntryIsData(entry);
      CanonFieldsAreCanonical(value, k + 1);
      if !entry.value.Undefined? { CanonIsCanonical(entry.value); }
    }
  }

  // Only data is encoded.

  lemma {:induction false} OnlyDataEncodes(value: Value)
    requires Encode(value).Ok?
    ensures IsData(value)
    decreases value, 1, 0
  {
    match value {
      case Array(items) => OnlyDataItems(value, 0);
      case Object(entries) =>
        OnlyDataFields(value, InOrder(Kept(entries)));
        forall k | 0 <= k < |entries| ensures EntryIsData(entries[k]) {
          if !entries[k].value.Undefined? {
            KeptKeeps(entries, k);
            assert entries[k] in InOrder(Kept(entries));
          }
        }
      case _ =>
    }
  }

  lemma {:induction false} KeptKeeps(entries: seq<Entry>, k: nat)
    requires k < |entries| && !entries[k].value.Undefined?
    ensures entries[k] in Kept(entries)
  {
    if k > 0 {
      KeptKeeps(entries[1..], k - 1);
      assert entries[1..][k - 1] == entries[k];
    }
  }

  lemma {:induction false} OnlyDataItems(value: Value, k: nat)
    requires value.Array? && k <= |value.items| && EncodeItems(value, k).Ok?
    ensures forall j :: k <= j < |value.items| ==> IsData(value.items[j])
    decreases value, 0, |value.items| - k
  {
    if k < |value.items| {
      OnlyDataEncodes(value.items[k]);
      if k + 1 < |value.items| { OnlyDataItems(value, k + 1); }
    }
  }

  lemma {:induction false} OnlyDataFields(value: Value, fields: seq<Entry>)
    requires value.Object? && (forall k :: 0 <= k < |fields| ==> fields[k] in value.entries) && EncodeFields(value, fields).Ok?
    ensures forall e :: e in fields ==> EntryIsData(e)
    decreases value, 0, |fields|
  {
    if fields != [] {
      var first := fields[0];
      assert first in value.entries;
      assert EncodeField(value, first).Ok? && Encode(first.value).Ok?;
      OnlyDataEncodes(first.value);
      assert fields == [first] + fields[1..];
      if |fields| > 1 { OnlyDataFields(value, fields[1..]); }
    }
  }

  // Names in order.

  function NamesOf(entries: seq<Entry>): (names: seq<string>)
    ensures |names| == |entries| && forall k :: 0 <= k < |names| ==> names[k] == entries[k].name
  {
    if entries == [] then [] else [entries[0].name] + NamesOf(entries[1..])
  }

  lemma {:induction false} KeptDiffers(entries: seq<Entry>)
    requires NamesDiffer(entries)
    ensures NamesDiffer(Kept(entries))
  {
    if entries != [] {
      KeptDiffers(entries[1..]);
      var rest := Kept(entries[1..]);
      forall b | 0 <= b < |rest| ensures rest[b].name != entries[0].name {
        assert rest[b] in rest && rest[b] in entries[1..];
        var k :| 0 <= k < |entries[1..]| && entries[1..][k] == rest[b];
        assert entries[k + 1] == rest[b];
      }
    }
  }

  lemma {:induction false} PlaceAscends(entry: Entry, list: seq<Entry>)
    requires Orders.NamesAscend(NamesOf(list)) && forall e :: e in list ==> e.name != entry.name
    ensures Orders.NamesAscend(NamesOf(Place(entry, list)))
  {
    var placed := Place(entry, list);
    if list != [] {
      assert list[0] in list;
      Orders.Trichotomy(entry.name, list[0].name);
      if Orders.Less(entry.name, list[0].name) {
        var names := NamesOf(list);
        forall b | 0 <= b < |names| ensures Orders.Less(entry.name, names[b]) {
          if b > 0 { Orders.LessTransitive(entry.name, names[0], names[b]); }
        }
        assert placed[1..] == list;
        AscendsFrom(placed, names);
      } else {
        TailAscends(list);
        PlaceAscends(entry, list[1..]);
        var rest := Place(entry, list[1..]);
        forall b | 0 <= b < |rest| ensures Orders.Less(list[0].name, rest[b].name) {
          assert rest[b] in rest;
          if rest[b] != entry { LaterIsMore(list, rest[b]); }
        }
        assert placed[1..] == rest;
        AscendsFrom(placed, NamesOf(rest));
      }
    }
  }

  lemma TailAscends(list: seq<Entry>)
    requires list != [] && Orders.NamesAscend(NamesOf(list))
    ensures Orders.NamesAscend(NamesOf(list[1..]))
  {
    var names, tail := NamesOf(list), NamesOf(list[1..]);
    forall a, b | 0 <= a < b < |tail| ensures Orders.Less(tail[a], tail[b]) {
      assert tail[a] == names[a + 1] && tail[b] == names[b + 1];
    }
  }

  lemma LaterIsMore(list: seq<Entry>, entry: Entry)
    requires list != [] && Orders.NamesAscend(NamesOf(list)) && entry in list[1..]
    ensures Orders.Less(list[0].name, entry.name)
  {
    var k :| 0 <= k < |list[1..]| && list[1..][k] == entry;
    assert NamesOf(list)[0] == list[0].name && NamesOf(list)[k + 1] == entry.name;
  }

  lemma AscendsFrom(list: seq<Entry>, tail: seq<string>)
    requires list != [] && tail == NamesOf(list[1..]) && Orders.NamesAscend(tail)
    requires forall b :: 0 <= b < |tail| ==> Orders.Less(list[0].name, tail[b])
    ensures Orders.NamesAscend(NamesOf(list))
  {
    var names := NamesOf(list);
    assert names == [list[0].name] + tail;
    forall a, b | 0 <= a < b < |names| ensures Orders.Less(names[a], names[b]) {
      assert names[b] == tail[b - 1];
      if a > 0 { assert names[a] == tail[a - 1]; }
    }
  }

  lemma {:induction false} InOrderAscends(entries: seq<Entry>)
    requires NamesDiffer(entries)
    ensures Orders.NamesAscend(NamesOf(InOrder(entries)))
  {
    if entries != [] {
      InOrderAscends(entries[1..]);
      forall e | e in InOrder(entries[1..]) ensures e.name != entries[0].name {
        var k :| 0 <= k < |entries[1..]| && entries[1..][k] == e;
        assert entries[k + 1] == e;
      }
      PlaceAscends(entries[0], InOrder(entries[1..]));
    }
  }

  // The fields of an object's data.

  lemma {:induction false} CanonFieldAt(value: Value, k: nat, at: nat)
    requires value.Object? && IsData(value) && NamesDiffer(value.entries) && k <= at < |value.entries| && !value.entries[at].value.Undefined?
    ensures var entry := value.entries[at];
            EntryIsData(entry) && entry.name in CanonFields(value, k) && CanonFields(value, k)[entry.name] == Canon(entry.value)
    decreases at - k
  {
    assert EntryIsData(value.entries[at]) && EntryIsData(value.entries[k]);
    if k < at { CanonFieldAt(value, k + 1, at); }
  }

  lemma {:induction false} CanonFieldsFrom(value: Value, k: nat, name: string)
    requires value.Object? && IsData(value) && k <= |value.entries| && name in CanonFields(value, k)
    ensures exists at :: k <= at < |value.entries| && value.entries[at].name == name && !value.entries[at].value.Undefined?
    decreases |value.entries| - k
  {
    assert EntryIsData(value.entries[k]);
    if value.entries[k].value.Undefined? || value.entries[k].name != name { CanonFieldsFrom(value, k + 1, name); }
  }

  lemma {:induction false} KeptIsDefined(entries: seq<Entry>)
    ensures forall e :: e in Kept(entries) ==> !e.value.Undefined?
  {
    if entries != [] { KeptIsDefined(entries[1..]); }
  }

  /** A field that is encoded is one of the data's. */
  lemma KeptIsField(value: Value, entry: Entry)
    requires value.Object? && IsData(value) && NamesDiffer(value.entries) && entry in Kept(value.entries)
    ensures EntryIsData(entry) && !entry.value.Undefined? && entry in value.entries
    ensures entry.name in CanonFields(value, 0) && CanonFields(value, 0)[entry.name] == Canon(entry.value)
  {
    KeptIsDefined(value.entries);
    var at :| 0 <= at < |value.entries| && value.entries[at] == entry;
    CanonFieldAt(value, 0, at);
  }

  lemma NamesAreTheFields(value: Value)
    requires value.Object? && IsData(value) && NamesDiffer(value.entries)
    ensures NamesOf(InOrder(Kept(value.entries))) == Orders.Sorted(CanonFields(value, 0).Keys)
  {
    var inOrder := InOrder(Kept(value.entries));
    var names, fields := NamesOf(inOrder), CanonFields(value, 0);
    KeptDiffers(value.entries);
    InOrderAscends(Kept(value.entries));
    forall name ensures name in names <==> name in fields {
      if name in names {
        var k :| 0 <= k < |names| && names[k] == name;
        assert inOrder[k] in inOrder;
        KeptIsField(value, inOrder[k]);
      }
      if name in fields {
        CanonFieldsFrom(value, 0, name);
        var at :| 0 <= at < |value.entries| && value.entries[at].name == name && !value.entries[at].value.Undefined?;
        KeptKeeps(value.entries, at);
        assert value.entries[at] in inOrder;
        var k :| 0 <= k < |inOrder| && inOrder[k] == value.entries[at];
        assert names[k] == name;
      }
    }
    AscendingListsAgree(names, Orders.Sorted(fields.Keys));
  }

  /** The names of a set stand in one order only. */
  lemma {:induction false} AscendingListsAgree(a: seq<string>, b: seq<string>)
    requires Orders.NamesAscend(a) && Orders.NamesAscend(b) && forall name :: name in a <==> name in b
    ensures a == b
  {
    assert (a != [] ==> a[0] in a) && (b != [] ==> b[0] in b);
    if a != [] && b != [] {
      FirstAscends(a, b[0]);
      FirstAscends(b, a[0]);
      Orders.Trichotomy(a[0], b[0]);
      forall name ensures name in a[1..] <==> name in b[1..] {
        InTail(a, name);
        InTail(b, name);
      }
      AscendingListsAgree(a[1..], b[1..]);
    }
  }

  lemma FirstAscends(names: seq<string>, name: string)
    requires Orders.NamesAscend(names) && name in names
    ensures names[0] == name || Orders.Less(names[0], name)
  {
    var k :| 0 <= k < |names| && names[k] == name;
  }

  lemma InTail(names: seq<string>, name: string)
    requires names != [] && Orders.NamesAscend(names)
    ensures name in names[1..] <==> name in names && name != names[0]
  {
    Orders.AscendingDistinct(names);
    assert names == [names[0]] + names[1..];
    forall k | 1 <= k < |names| ensures names[k] != names[0] {}
  }

  // The text of an object's fields.

  lemma {:induction false} DataEncodes(value: Value)
    requires IsValue(value) && IsData(value)
    ensures Encode(value) == Ok(TextOf(Canon(value)))
    decreases value, 1, 0
  {
    match value {
      case Number(text) => NumbersAreCanonical(text);
      case BigInt(i) => BigIntEncodes(i);
      case MinusZero => assert J.WholeText(0) == "0";
      case Array(items) =>
        ItemsEncode(value, 0);
        ArrayEncodes(value, Raw(Canon(value)));
      case Object(entries) =>
        var fields := CanonFields(value, 0);
        NamesAreTheFields(value);
        RawKeepsNames(fields);
        FieldsEncode(value, InOrder(Kept(entries)));
        ObjectEncodes(value, Raw(Obj(fields)), NamesOf(InOrder(Kept(entries))));
      case _ =>
    }
  }

  lemma RawKeepsNames(fields: map<string, Data>)
    ensures Raw(Obj(fields)).Obj? && Raw(Obj(fields)).fields.Keys == fields.Keys
  {
  }

  lemma ArrayEncodes(value: Value, json: J.Json)
    requires value.Array? && json.List? && EncodeItems(value, 0) == Ok(J.WriteItems(json, 0))
    ensures Encode(value) == Ok(J.Write(json))
  {
  }

  lemma ObjectEncodes(value: Value, json: J.Json, names: seq<string>)
    requires value.Object? && json.Obj? && names == Orders.Sorted(json.fields.Keys)
    requires EncodeFields(value, InOrder(Kept(value.entries))) == Ok(J.WriteFields(json, names))
    ensures Encode(value) == Ok(J.Write(json))
  {
  }

  lemma {:induction false} ItemsEncode(value: Value, k: nat)
    requires value.Array? && IsValue(value) && IsData(value) && k <= |value.items|
    ensures EncodeItems(value, k) == Ok(J.WriteItems(Raw(Canon(value)), k))
    decreases value, 0, |value.items| - k
  {
    if k < |value.items| {
      DataEncodes(value.items[k]);
      if k + 1 < |value.items| { ItemsEncode(value, k + 1); }
    }
  }

  lemma {:induction false} FieldsEncode(value: Value, fields: seq<Entry>)
    requires value.Object? && IsValue(value) && IsData(value)
    requires forall k :: 0 <= k < |fields| ==> fields[k] in value.entries && fields[k] in Kept(value.entries)
    ensures forall k :: 0 <= k < |fields| ==> NamesOf(fields)[k] in Raw(Canon(value)).fields
    ensures EncodeFields(value, fields) == Ok(J.WriteFields(Raw(Canon(value)), NamesOf(fields)))
    decreases value, 0, |fields|
  {
    if fields != [] {
      FieldEncodes(value, fields[0]);
      if |fields| > 1 {
        FieldsEncode(value, fields[1..]);
        assert NamesOf(fields)[1..] == NamesOf(fields[1..]);
      }
    }
  }

  lemma {:induction false} FieldEncodes(value: Value, field: Entry)
    requires value.Object? && IsValue(value) && IsData(value) && field in value.entries && field in Kept(value.entries)
    ensures field.name in Raw(Canon(value)).fields && EncodeField(value, field) == Ok(J.WriteField(Raw(Canon(value)), field.name))
    decreases value, 0, 0
  {
    KeptIsField(value, field);
    DataEncodes(field.value);
  }

  /** The marker and the digits of a bigint need no escapes. */
  lemma {:induction false} NothingToEscape(s: string)
    requires forall k :: 0 <= k < |s| ==> J.Escape(s[k]) == [s[k]]
    ensures J.Escaped(s) == s
  {
    if s != "" {
      NothingToEscape(s[1..]);
      assert s == [s[0]] + s[1..];
    }
  }

  lemma BigIntEncodes(i: int)
    ensures Encode(BigInt(i)) == Ok(TextOf(Big(i)))
  {
    DigitsNeedNoEscape(i);
    NothingToEscape(BIGINT_FIELD);
    MarkedText(Raw(Big(i)), BIGINT_FIELD, J.WholeText(i));
  }

  lemma DigitsNeedNoEscape(i: int)
    ensures J.Escaped(J.WholeText(i)) == J.WholeText(i)
  {
    var digits := J.WholeText(i);
    J.WholeTextIsNumeral(i);
    J.NumeralsInNumerals(digits);
    forall k | 0 <= k < |digits| ensures J.Escape(digits[k]) == [digits[k]] { assert J.InNumerals(digits[k]); }
    NothingToEscape(digits);
  }

  lemma MarkedText(json: J.Json, mark: string, digits: string)
    requires json == J.Obj(map[mark := J.Text(digits)]) && J.Escaped(mark) == mark && J.Escaped(digits) == digits
    ensures J.Write(json) == "{\"" + mark + "\":\"" + digits + "\"}"
  {
    assert json.fields.Keys == {mark};
    AscendingListsAgree(Orders.Sorted({mark}), [mark]);
    OneFieldText(json, mark, digits);
    MarkedFieldText(mark, digits);
  }

  lemma OneFieldText(json: J.Json, mark: string, digits: string)
    requires json == J.Obj(map[mark := J.Text(digits)]) && J.Escaped(mark) == mark && J.Escaped(digits) == digits
    ensures J.WriteFields(json, [mark]) == "\"" + mark + "\"" + ":" + ("\"" + digits + "\"")
  {
    assert J.WriteFields(json, [mark]) == J.WriteField(json, mark);
    assert J.Write(json.fields[mark]) == J.Quote(digits);
  }

  lemma MarkedFieldText(mark: string, digits: string)
    ensures "{" + ("\"" + mark + "\"" + ":" + ("\"" + digits + "\"")) + "}" == "{\"" + mark + "\":\"" + digits + "\"}"
  {
    assert "{\"" == "{" + "\"" && "\":\"" == "\"" + ":" + "\"" && "\"}" == "\"" + "}";
  }

  // ----- What encoding promises -----

  /** Exactly the values that are data are encoded, each as the one text of the data it is. */
  lemma EncodingIsCanonical(value: Value)
    requires IsValue(value)
    ensures Encode(value).Ok? <==> IsData(value)
    ensures IsData(value) ==> Encode(value) == Ok(TextOf(Canon(value)))
  {
    if IsData(value) { DataEncodes(value); }
    if Encode(value).Ok? { OnlyDataEncodes(value); }
  }

  /** Decoding what was encoded gives the value back, but for `undefined` fields, the order of fields and minus zero. */
  lemma DecodingInvertsEncoding(value: Value)
    requires IsValue(value) && Encode(value).Ok?
    ensures IsData(value) && Decode(Encode(value).value) == Some(Canon(value))
  {
    EncodingIsCanonical(value);
    CanonIsCanonical(value);
    DecodeInvertsText(Canon(value));
  }

  /** Two values encode equally exactly when they are the same data. */
  lemma EncodesEquallyExactlyWhenSameData(a: Value, b: Value)
    requires IsValue(a) && IsValue(b) && IsData(a) && IsData(b)
    ensures Encode(a) == Encode(b) <==> Canon(a) == Canon(b)
  {
    EncodingIsCanonical(a);
    EncodingIsCanonical(b);
    DecodingInvertsEncoding(a);
    DecodingInvertsEncoding(b);
  }

  /** Objects whose defined fields agree are the same data, whatever the order of their fields. */
  lemma FieldOrderIsNoData(a: Value, b: Value)
    requires a.Object? && b.Object? && IsData(a) && IsData(b) && NamesDiffer(a.entries) && NamesDiffer(b.entries)
    requires forall e :: e in Kept(a.entries) <==> e in Kept(b.entries)
    ensures Canon(a) == Canon(b)
  {
    forall name ensures name in CanonFields(a, 0) ==> name in CanonFields(b, 0) && CanonFields(a, 0)[name] == CanonFields(b, 0)[name] {
      if name in CanonFields(a, 0) { SharedField(a, b, name); }
    }
    forall name ensures name in CanonFields(b, 0) ==> name in CanonFields(a, 0) {
      if name in CanonFields(b, 0) { SharedField(b, a, name); }
    }
    assert CanonFields(a, 0) == CanonFields(b, 0);
  }

  lemma SharedField(a: Value, b: Value, name: string)
    requires a.Object? && b.Object? && IsData(a) && IsData(b) && NamesDiffer(a.entries) && NamesDiffer(b.entries)
    requires (forall e :: e in Kept(a.entries) <==> e in Kept(b.entries)) && name in CanonFields(a, 0)
    ensures name in CanonFields(b, 0) && CanonFields(a, 0)[name] == CanonFields(b, 0)[name]
  {
    CanonFieldsFrom(a, 0, name);
    var at :| 0 <= at < |a.entries| && a.entries[at].name == name && !a.entries[at].value.Undefined?;
    KeptKeeps(a.entries, at);
    KeptIsField(a, a.entries[at]);
    KeptIsField(b, a.entries[at]);
  }
}
