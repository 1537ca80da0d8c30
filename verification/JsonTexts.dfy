/** JSON texts, written one way and read back: strings, numerals, lists and objects (RFC 8259, sections 3 to 7). */
module JsonTexts {
  import opened Basics
  import Intents
  import Orders

  /** What a JSON text says: a number by its numeral, an object by its fields. */
  datatype Json =
    | Nil
    | Truth(b: bool)
    | Number(text: string)
    | Text(s: string)
    | List(items: seq<Json>)
    | Obj(fields: map<string, Json>)

  // ----- Strings -----

  function HexDigit(d: nat): char
    requires d < 16
  {
    "0123456789abcdef"[d]
  }

  function HexValue(c: char): Option<nat> {
    if '0' <= c <= '9' then Some((c as int) - ('0' as int))
    else if 'a' <= c <= 'f' then Some((c as int) - ('a' as int) + 10)
    else if 'A' <= c <= 'F' then Some((c as int) - ('A' as int) + 10)
    else None
  }

  /** Quotation marks, backslashes and control characters are escaped, with the short form where there is one. */
  function Escape(c: char): string {
    if c == '"' || c == '\\' then ['\\', c]
    else if c == 8 as char then "\\b"
    else if c == 9 as char then "\\t"
    else if c == 10 as char then "\\n"
    else if c == 12 as char then "\\f"
    else if c == 13 as char then "\\r"
    else if c < ' ' then "\\u00" + [HexDigit((c as int) / 16), HexDigit((c as int) % 16)]
    else [c]
  }

  function Escaped(s: string): string {
    if s == "" then "" else Escape(s[0]) + Escaped(s[1..])
  }

  function Quote(s: string): string {
    "\"" + Escaped(s) + "\""
  }

  /** The character four hexadecimal digits name, unless they name half of a surrogate pair. */
  function CodeOf(digits: string): Option<char>
    requires |digits| == 4
  {
    var a, b, c, d := HexValue(digits[0]), HexValue(digits[1]), HexValue(digits[2]), HexValue(digits[3]);
    if a.None? || b.None? || c.None? || d.None? then None
    else
      var code := 4096 * a.value + 256 * b.value + 16 * c.value + d.value;
      if 0xd800 <= code < 0xe000 || code >= 0x10000 then None else Some(code as char)
  }

  /** The character an escape names, past its backslash, and what follows it. */
  function Unescape(text: string): (read: Option<(char, string)>)
    ensures read.Some? ==> |read.value.1| < |text|
  {
    if text == "" then None
    else if text[0] == '"' || text[0] == '\\' || text[0] == '/' then Some((text[0], text[1..]))
    else if text[0] == 'b' then Some((8 as char, text[1..]))
    else if text[0] == 't' then Some((9 as char, text[1..]))
    else if text[0] == 'n' then Some((10 as char, text[1..]))
    else if text[0] == 'f' then Some((12 as char, text[1..]))
    else if text[0] == 'r' then Some((13 as char, text[1..]))
    else if text[0] == 'u' && |text| >= 5 then
      var code := CodeOf(text[1..5]);
      if code.None? then None else Some((code.value, text[5..]))
    else None
  }

  /** The string `text` opens with, past its first quotation mark, and what follows its last. */
  function ReadString(text: string): (read: Option<(string, string)>)
    ensures read.Some? ==> |read.value.1| < |text|
    decreases |text|
  {
    if text == "" || text[0] < ' ' then None
    else if text[0] == '"' then Some(("", text[1..]))
    else
      var first := if text[0] == '\\' then Unescape(text[1..]) else Some((text[0], text[1..]));
      if first.None? then None
      else
        var more := ReadString(first.value.1);
        if more.None? then None else Some(([first.value.0] + more.value.0, more.value.1))
  }

  lemma ControlReadsBack(c: char, rest: string)
    requires c < ' '
    ensures Unescape("u00" + [HexDigit((c as int) / 16), HexDigit((c as int) % 16)] + rest) == Some((c, rest))
  {
    var digits := "00" + [HexDigit((c as int) / 16), HexDigit((c as int) % 16)];
    var text := "u00" + [HexDigit((c as int) / 16), HexDigit((c as int) % 16)] + rest;
    assert text[1..5] == digits && text[5..] == rest;
    assert HexValue(HexDigit((c as int) / 16)) == Some((c as int) / 16);
    assert HexValue(HexDigit((c as int) % 16)) == Some((c as int) % 16);
  }

  lemma EscapeReadsBack(c: char, rest: string)
    ensures Escape(c)[0] == '\\' ==> Unescape(Escape(c)[1..] + rest) == Some((c, rest))
    ensures Escape(c)[0] != '\\' ==> Escape(c) == [c] && c >= ' ' && c != '"'
  {
    if Escape(c)[0] == '\\' {
      if |Escape(c)| == 2 {
        var text := [Escape(c)[1]] + rest;
        assert Escape(c)[1..] + rest == text && text[1..] == rest;
      } else {
        ControlReadsBack(c, rest);
        assert Escape(c)[1..] == "u00" + [HexDigit((c as int) / 16), HexDigit((c as int) % 16)];
      }
    }
  }

  lemma Regrouped(a: string, b: string, rest: string)
    ensures a + b + rest == a + (b + rest)
  {
  }

  lemma ReadsOneCharacter(c: char, after: string, s: string, rest: string)
    requires ReadString(after) == Some((s, rest))
    ensures ReadString(Escape(c) + after) == Some(([c] + s, rest))
  {
    var text := Escape(c) + after;
    EscapeReadsBack(c, after);
    assert text[0] == Escape(c)[0] && text[1..] == Escape(c)[1..] + after;
  }

  /** Quoting is self-delimiting: whatever follows, reading a quoted string gives it back and stops after it. */
  lemma {:induction false} QuoteReadsBack(s: string, rest: string)
    ensures ReadString(Escaped(s) + "\"" + rest) == Some((s, rest))
  {
    var text := Escaped(s) + "\"" + rest;
    if s == "" {
      assert text[1..] == rest;
    } else {
      var after := Escaped(s[1..]) + "\"" + rest;
      QuoteReadsBack(s[1..], rest);
      ReadsOneCharacter(s[0], after, s[1..], rest);
      assert s == [s[0]] + s[1..];
      RegroupedPair(Escape(s[0]), "", Escaped(s[1..]), "\"", rest);
      assert Escape(s[0]) + "" == Escape(s[0]) && "" + after == after;
    }
  }

  // ----- Numerals -----

  predicate InNumerals(c: char) {
    Intents.IsDigit(c) || c == '-' || c == '+' || c == '.' || c == 'e' || c == 'E'
  }

  function Digits(text: string): (n: nat)
    ensures n <= |text| && (forall k :: 0 <= k < n ==> Intents.IsDigit(text[k])) && (n < |text| ==> !Intents.IsDigit(text[n]))
  {
    if text == "" || !Intents.IsDigit(text[0]) then 0 else Digits(text[1..]) + 1
  }

  function Unsigned(text: string): string {
    if text != "" && (text[0] == '-' || text[0] == '+') then text[1..] else text
  }

  predicate IsExponent(text: string) {
    text == "" || ((text[0] == 'e' || text[0] == 'E') && Unsigned(text[1..]) != "" && Digits(Unsigned(text[1..])) == |Unsigned(text[1..])|)
  }

  predicate IsTail(text: string) {
    IsExponent(text) || (text != "" && text[0] == '.' && Digits(text[1..]) > 0 && IsExponent(text[1 + Digits(text[1..])..]))
  }

  /** A JSON number (section 6). */
  predicate IsNumeral(text: string) {
    var magnitude := if text != "" && text[0] == '-' then text[1..] else text;
    Digits(magnitude) > 0 && (magnitude[0] == '0' ==> Digits(magnitude) == 1) && IsTail(magnitude[Digits(magnitude)..])
  }

  predicate AllInNumerals(text: string) {
    forall k :: 0 <= k < |text| ==> InNumerals(text[k])
  }

  lemma ExponentsInNumerals(text: string)
    requires IsExponent(text)
    ensures AllInNumerals(text)
  {
    if text != "" {
      var digits := Unsigned(text[1..]);
      forall k | 0 <= k < |text| ensures InNumerals(text[k]) {
        var skipped := |text| - |digits|;
        if k >= skipped { assert text[k] == digits[k - skipped]; }
      }
    }
  }

  lemma TailsInNumerals(text: string)
    requires IsTail(text)
    ensures AllInNumerals(text)
  {
    if IsExponent(text) {
      ExponentsInNumerals(text);
    } else {
      var n := Digits(text[1..]);
      ExponentsInNumerals(text[1 + n..]);
      forall k | 0 <= k < |text| ensures InNumerals(text[k]) {
        if 0 < k <= n { assert text[k] == text[1..][k - 1]; }
        if k > n { assert text[k] == text[1 + n..][k - 1 - n]; }
      }
    }
  }

  lemma NumeralsInNumerals(text: string)
    requires IsNumeral(text)
    ensures text != "" && (text[0] == '-' || Intents.IsDigit(text[0])) && AllInNumerals(text)
  {
    var skipped := if text[0] == '-' then 1 else 0;
    var magnitude := text[skipped..];
    assert magnitude == if text[0] == '-' then text[1..] else text;
    var n := Digits(magnitude);
    TailsInNumerals(magnitude[n..]);
    forall k | 0 <= k < |text| ensures InNumerals(text[k]) {
      if skipped <= k < skipped + n { assert text[k] == magnitude[k - skipped]; }
      if k >= skipped + n { assert text[k] == magnitude[n..][k - skipped - n]; }
    }
  }

  /** How far the characters of numerals go on. */
  function NumeralEnd(text: string): (n: nat)
    ensures n <= |text|
  {
    if text == "" || !InNumerals(text[0]) then 0 else NumeralEnd(text[1..]) + 1
  }

  /** Nothing that follows would lengthen a numeral. */
  predicate Delimits(rest: string) {
    rest == "" || !InNumerals(rest[0])
  }

  lemma {:induction false} NumeralEnds(text: string, rest: string)
    requires AllInNumerals(text) && Delimits(rest)
    ensures NumeralEnd(text + rest) == |text|
  {
    if text == "" {
      assert text + rest == rest;
    } else {
      NumeralEnds(text[1..], rest);
      assert (text + rest)[1..] == text[1..] + rest;
      assert InNumerals(text[0]);
    }
  }

  function WholeText(n: int): string {
    if n < 0 then "-" + Intents.Decimal(-n) else Intents.Decimal(n)
  }

  lemma {:induction false} AllDigits(text: string)
    requires forall k :: 0 <= k < |text| ==> Intents.IsDigit(text[k])
    ensures Digits(text) == |text|
  {
    if text != "" { AllDigits(text[1..]); }
  }

  lemma {:induction false} LeadsWithoutZero(n: nat)
    ensures Intents.Decimal(n)[0] == '0' ==> n == 0
  {
    if n >= 10 { LeadsWithoutZero(n / 10); }
  }

  lemma WholeTextIsNumeral(n: int)
    ensures IsNumeral(WholeText(n))
  {
    var magnitude := Intents.Decimal(if n < 0 then -n else n);
    AllDigits(magnitude);
    LeadsWithoutZero(if n < 0 then -n else n);
    assert magnitude[|magnitude|..] == "";
    if n < 0 { assert WholeText(n)[1..] == magnitude; }
    assert WholeText(n) == if n < 0 then "-" + magnitude else magnitude;
  }

  /** The integer `text` writes, if it is an optional minus sign and decimal digits. */
  function WholeOf(text: string): Option<int> {
    var magnitude := if text != "" && text[0] == '-' then text[1..] else text;
    if !Intents.IsNumeral(magnitude) then None
    else
      var value: int := Intents.ValueOf(magnitude);
      Some(if text[0] == '-' then -value else value)
  }

  lemma SignedReads(digits: string, value: nat)
    requires Intents.IsNumeral(digits) && Intents.ValueOf(digits) == value
    ensures WholeOf(digits) == Some(value) && WholeOf("-" + digits) == Some(-(value as int))
  {
    assert Intents.IsDigit(digits[0]);
    assert ("-" + digits)[1..] == digits;
  }

  lemma WholeReadsBack(n: int)
    ensures WholeOf(WholeText(n)) == Some(n)
  {
    var magnitude := if n < 0 then -n else n;
    Intents.DecimalReadsBack(magnitude);
    SignedReads(Intents.Decimal(magnitude), magnitude);
  }

  // ----- Values -----

  /** Every number is a numeral. */
  ghost predicate IsJson(json: Json) {
    match json
    case Number(text) => IsNumeral(text)
    case List(items) => forall k :: 0 <= k < |items| ==> IsJson(items[k])
    case Obj(fields) => forall name :: name in fields ==> IsJson(fields[name])
    case _ => true
  }

  /** The one text of a value: no blanks, fields in order of their names. */
  function Write(json: Json): (text: string)
    decreases json, 1, 0
  {
    match json
    case Nil => "null"
    case Truth(b) => if b then "true" else "false"
    case Number(text) => text
    case Text(s) => Quote(s)
    case List(_) => "[" + WriteItems(json, 0) + "]"
    case Obj(fields) => "{" + WriteFields(json, Orders.Sorted(fields.Keys)) + "}"
  }

  /** The items from the `k`th on, with commas between. */
  function WriteItems(json: Json, k: nat): string
    requires json.List? && k <= |json.items|
    decreases json, 0, |json.items| - k
  {
    if k == |json.items| then ""
    else if k + 1 == |json.items| then Write(json.items[k])
    else Write(json.items[k]) + "," + WriteItems(json, k + 1)
  }

  function WriteFields(json: Json, names: seq<string>): string
    requires json.Obj? && forall k :: 0 <= k < |names| ==> names[k] in json.fields
    decreases json, 0, |names|
  {
    if names == [] then ""
    else if |names| == 1 then WriteField(json, names[0])
    else WriteField(json, names[0]) + "," + WriteFields(json, names[1..])
  }

  function WriteField(json: Json, name: string): string
    requires json.Obj? && name in json.fields
    decreases json, 0, 0
  {
    Quote(name) + ":" + Write(json.fields[name])
  }

  predicate StartsWith(text: string, word: string) {
    word == "" || (text != "" && text[0] == word[0] && StartsWith(text[1..], word[1..]))
  }

  lemma {:induction false} StartsWithItself(word: string, rest: string)
    ensures StartsWith(word + rest, word) && (word + rest)[|word|..] == rest
  {
    if word == "" {
      assert word + rest == rest;
    } else {
      StartsWithItself(word[1..], rest);
      assert (word + rest)[1..] == word[1..] + rest;
    }
  }

  lemma {:induction false} StartsNoShorter(text: string, word: string)
    requires StartsWith(text, word)
    ensures |word| <= |text|
  {
    if word != "" { StartsNoShorter(text[1..], word[1..]); }
  }

  /** One of the three words, and what follows it. */
  function ReadWord(text: string): (read: Option<(Json, string)>)
    ensures read.Some? ==> |read.value.1| < |text|
  {
    if StartsWith(text, "null") then StartsNoShorter(text, "null"); Some((Nil, text[4..]))
    else if StartsWith(text, "true") then StartsNoShorter(text, "true"); Some((Truth(true), text[4..]))
    else if StartsWith(text, "false") then StartsNoShorter(text, "false"); Some((Truth(false), text[5..]))
    else None
  }

  function ReadNumber(text: string): (read: Option<(Json, string)>)
    ensures read.Some? ==> |read.value.1| < |text|
  {
    var n := NumeralEnd(text);
    if n > 0 && IsNumeral(text[..n]) then Some((Number(text[..n]), text[n..])) else None
  }

  /** The value `text` opens with, and what follows it. */
  function Read(text: string): (read: Option<(Json, string)>)
    ensures read.Some? ==> |read.value.1| < |text|
    decreases |text|, 1
  {
    if text == "" then None
    else if text[0] == '"' then
      var s := ReadString(text[1..]);
      if s.None? then None else Some((Text(s.value.0), s.value.1))
    else if text[0] == '[' then
      if |text| > 1 && text[1] == ']' then Some((List([]), text[2..]))
      else
        var items := ReadItems(text[1..]);
        if items.None? then None else Some((List(items.value.0), items.value.1))
    else if text[0] == '{' then
      if |text| > 1 && text[1] == '}' then Some((Obj(map[]), text[2..]))
      else
        var fields := ReadFields(text[1..]);
        if fields.None? then None else Some((Obj(fields.value.0), fields.value.1))
    else if text[0] == 'n' || text[0] == 't' || text[0] == 'f' then ReadWord(text)
    else ReadNumber(text)
  }

  /** The items up to the closing bracket. */
  function ReadItems(text: string): (read: Option<(seq<Json>, string)>)
    ensures read.Some? ==> |read.value.1| < |text|
    decreases |text|, 2
  {
    var first := Read(text);
    if first.None? then None
    else
      var (item, rest) := first.value;
      if rest == "" then None
      else if rest[0] == ']' then Some(([item], rest[1..]))
      else if rest[0] == ',' then
        var more := ReadItems(rest[1..]);
        if more.None? then None else Some(([item] + more.value.0, more.value.1))
      else None
  }

  /** The fields up to the closing brace, a later field over an earlier one of its name. */
  function ReadFields(text: string): (read: Option<(map<string, Json>, string)>)
    ensures read.Some? ==> |read.value.1| < |text|
    decreases |text|, 2
  {
    var first := ReadField(text);
    if first.None? then None
    else
      var (name, value, rest) := first.value;
      if rest == "" then None
      else if rest[0] == '}' then Some((map[name := value], rest[1..]))
      else if rest[0] == ',' then
        var more := ReadFields(rest[1..]);
        if more.None? then None else Some((map[name := value] + more.value.0, more.value.1))
      else None
  }

  function ReadField(text: string): (read: Option<(string, Json, string)>)
    ensures read.Some? ==> |read.value.2| < |text|
    decreases |text|, 1
  {
    if text == "" || text[0] != '"' then None
    else
      var name := ReadString(text[1..]);
      if name.None? || name.value.1 == "" || name.value.1[0] != ':' then None
      else
        var value := Read(name.value.1[1..]);
        if value.None? then None else Some((name.value.0, value.value.0, value.value.1))
  }

  // ----- Reading back what was written -----

  lemma RegroupedPair(a: string, comma: string, b: string, close: string, rest: string)
    ensures a + comma + b + close + rest == a + (comma + (b + close + rest))
  {
  }

  lemma Opened(mark: char, body: string, close: string, rest: string)
    requires body != ""
    ensures var whole := [mark] + body + close + rest; whole[1..] == body + close + rest && whole[0] == mark && whole[1] == body[0]
  {
    assert [mark] + body + close + rest == [mark] + (body + close + rest);
  }

  lemma PastTheName(name: string, value: string, rest: string)
    ensures (Quote(name) + ":" + value + rest)[1..] == Escaped(name) + "\"" + (":" + (value + rest))
    ensures (Quote(name) + ":" + value + rest)[0] == '"'
  {
    var tail := ":" + (value + rest);
    assert Quote(name) + ":" + value + rest == "\"" + (Escaped(name) + "\"" + tail);
  }

  lemma NumberReadsBack(text: string, rest: string)
    requires IsNumeral(text) && Delimits(rest)
    ensures Read(text + rest) == Some((Number(text), rest))
  {
    NumeralsInNumerals(text);
    NumeralEnds(text, rest);
    var whole := text + rest;
    assert whole[0] == text[0] && whole[..|text|] == text && whole[|text|..] == rest;
  }

  lemma WordReadsBack(json: Json, rest: string)
    requires json.Nil? || json.Truth?
    ensures Read(Write(json) + rest) == Some((json, rest))
  {
    var word := Write(json);
    StartsWithItself(word, rest);
    assert (word + rest)[0] == word[0];
  }

  lemma TextReadsBack(s: string, rest: string)
    ensures Read(Quote(s) + rest) == Some((Text(s), rest))
  {
    QuoteReadsBack(s, rest);
    assert (Quote(s) + rest)[1..] == Escaped(s) + "\"" + rest;
  }

  /** A written value opens with none of the marks that close a list or an object. */
  lemma WritesOpen(json: Json)
    requires IsJson(json)
    ensures Write(json) != "" && Write(json)[0] != ']' && Write(json)[0] != '}'
  {
    if json.Number? { NumeralsInNumerals(json.text); }
  }

  /** Writing is self-delimiting: reading gives back the value written and stops after it. */
  lemma {:induction false} WriteReadsBack(json: Json, rest: string)
    requires IsJson(json) && Delimits(rest)
    ensures Read(Write(json) + rest) == Some((json, rest))
    decreases json, 1, 0
  {
    match json {
      case Nil => WordReadsBack(json, rest);
      case Truth(_) => WordReadsBack(json, rest);
      case Number(text) => NumberReadsBack(text, rest);
      case Text(s) => TextReadsBack(s, rest);
      case List(items) => ListReadsBack(json, rest);
      case Obj(fields) => ObjReadsBack(json, rest);
    }
  }

  lemma NoItemsRead(rest: string)
    ensures Read("[]" + rest) == Some((List([]), rest))
  {
    var whole := "[]" + rest;
    assert whole[0] == '[' && whole[1] == ']' && whole[2..] == rest;
  }

  lemma OpenedItemsRead(body: string, items: seq<Json>, rest: string)
    requires body != "" && body[0] != ']' && ReadItems(body + "]" + rest) == Some((items, rest))
    ensures Read("[" + body + "]" + rest) == Some((List(items), rest))
  {
    Opened('[', body, "]", rest);
  }

  lemma {:induction false} ListReadsBack(json: Json, rest: string)
    requires IsJson(json) && json.List?
    ensures Read(Write(json) + rest) == Some((json, rest))
    decreases json, 0, |json.items| + 1
  {
    if json.items == [] {
      assert Write(json) == "[]";
      NoItemsRead(rest);
    } else {
      WritesOpen(json.items[0]);
      ItemsReadBack(json, 0, rest);
      assert json.items[0..] == json.items;
      OpenedItemsRead(WriteItems(json, 0), json.items, rest);
    }
  }

  lemma LastItemReads(text: string, item: Json, rest: string)
    requires Read(text) == Some((item, "]" + rest))
    ensures ReadItems(text) == Some(([item], rest))
  {
    assert ("]" + rest)[1..] == rest;
  }

  lemma OneMoreItemReads(text: string, item: Json, more: string, items: seq<Json>, rest: string)
    requires Read(text) == Some((item, "," + more)) && ReadItems(more) == Some((items, rest))
    ensures ReadItems(text) == Some(([item] + items, rest))
  {
    assert ("," + more)[1..] == more;
  }

  lemma {:induction false} ItemsReadBack(json: Json, k: nat, rest: string)
    requires IsJson(json) && json.List? && k < |json.items|
    ensures ReadItems(WriteItems(json, k) + "]" + rest) == Some((json.items[k..], rest))
    decreases json, 0, |json.items| - k
  {
    var whole, item := WriteItems(json, k) + "]" + rest, json.items[k];
    if k + 1 == |json.items| {
      WriteReadsBack(item, "]" + rest);
      Regrouped(Write(item), "]", rest);
      assert json.items[k..] == [item];
      LastItemReads(whole, item, rest);
    } else {
      var more := WriteItems(json, k + 1) + "]" + rest;
      WriteReadsBack(item, "," + more);
      ItemsReadBack(json, k + 1, rest);
      RegroupedPair(Write(item), ",", WriteItems(json, k + 1), "]", rest);
      assert json.items[k..] == [item] + json.items[k + 1..];
      OneMoreItemReads(whole, item, more, json.items[k + 1..], rest);
    }
  }

  function Among(fields: map<string, Json>, names: seq<string>): map<string, Json>
    requires forall k :: 0 <= k < |names| ==> names[k] in fields
  {
    map name | name in names :: fields[name]
  }

  lemma NoFieldsRead(rest: string)
    ensures Read("{}" + rest) == Some((Obj(map[]), rest))
  {
    var whole := "{}" + rest;
    assert whole[0] == '{' && whole[1] == '}' && whole[2..] == rest;
  }

  lemma OpenedFieldsRead(body: string, fields: map<string, Json>, rest: string)
    requires body != "" && body[0] != '}' && ReadFields(body + "}" + rest) == Some((fields, rest))
    ensures Read("{" + body + "}" + rest) == Some((Obj(fields), rest))
  {
    Opened('{', body, "}", rest);
  }

  lemma NamesCover(fields: map<string, Json>, names: seq<string>)
    requires names == Orders.Sorted(fields.Keys)
    ensures forall k :: 0 <= k < |names| ==> names[k] in fields
    ensures Among(fields, names) == fields
    ensures names == [] ==> fields == map[]
  {
    assert forall name :: name in fields <==> name in names;
  }

  lemma {:induction false} ObjReadsBack(json: Json, rest: string)
    requires IsJson(json) && json.Obj?
    ensures Read(Write(json) + rest) == Some((json, rest))
    decreases json, 0, |json.fields| + 1
  {
    var names := Orders.Sorted(json.fields.Keys);
    NamesCover(json.fields, names);
    if names == [] {
      assert Write(json) == "{}";
      NoFieldsRead(rest);
    } else {
      FieldsReadBack(json, names, rest);
      OpenedFieldsRead(WriteFields(json, names), json.fields, rest);
    }
  }

  lemma LastFieldReads(text: string, name: string, value: Json, rest: string)
    requires ReadField(text) == Some((name, value, "}" + rest))
    ensures ReadFields(text) == Some((map[name := value], rest))
  {
    assert ("}" + rest)[1..] == rest;
  }

  lemma OneMoreFieldReads(text: string, name: string, value: Json, more: string, fields: map<string, Json>, rest: string)
    requires ReadField(text) == Some((name, value, "," + more)) && ReadFields(more) == Some((fields, rest))
    ensures ReadFields(text) == Some((map[name := value] + fields, rest))
  {
    assert ("," + more)[1..] == more;
  }

  lemma OneMoreAmong(fields: map<string, Json>, names: seq<string>)
    requires names != [] && forall k :: 0 <= k < |names| ==> names[k] in fields
    ensures Among(fields, names) == map[names[0] := fields[names[0]]] + Among(fields, names[1..])
  {
    assert names == [names[0]] + names[1..];
  }

  lemma {:induction false} FieldsReadBack(json: Json, names: seq<string>, rest: string)
    requires IsJson(json) && json.Obj? && names != [] && forall k :: 0 <= k < |names| ==> names[k] in json.fields
    ensures ReadFields(WriteFields(json, names) + "}" + rest) == Some((Among(json.fields, names), rest))
    decreases json, 0, |names|
  {
    var whole, name := WriteFields(json, names) + "}" + rest, names[0];
    var value := json.fields[name];
    OneMoreAmong(json.fields, names);
    if |names| == 1 {
      FieldReadsBack(json, name, "}" + rest);
      Regrouped(WriteField(json, name), "}", rest);
      LastFieldReads(whole, name, value, rest);
      assert Among(json.fields, names[1..]) == map[];
      assert Among(json.fields, names) == map[name := value];
    } else {
      var more := WriteFields(json, names[1..]) + "}" + rest;
      FieldReadsBack(json, name, "," + more);
      FieldsReadBack(json, names[1..], rest);
      RegroupedPair(WriteField(json, name), ",", WriteFields(json, names[1..]), "}", rest);
      OneMoreFieldReads(whole, name, value, more, Among(json.fields, names[1..]), rest);
    }
  }

  lemma {:induction false} FieldReadsBack(json: Json, name: string, rest: string)
    requires IsJson(json) && json.Obj? && name in json.fields && Delimits(rest)
    ensures ReadField(WriteField(json, name) + rest) == Some((name, json.fields[name], rest))
    decreases json, 0, 0
  {
    var value := Write(json.fields[name]);
    QuoteReadsBack(name, ":" + (value + rest));
    PastTheName(name, value, rest);
    WriteReadsBack(json.fields[name], rest);
    assert (":" + (value + rest))[1..] == value + rest;
  }

  /** The value a whole text says. */
  function Parse(text: string): Option<Json> {
    var read := Read(text);
    if read.None? || read.value.1 != "" then None else Some(read.value.0)
  }

  lemma ParseInvertsWrite(json: Json)
    requires IsJson(json)
    ensures Parse(Write(json)) == Some(json)
  {
    assert Write(json) + "" == Write(json);
    WriteReadsBack(json, "");
  }
}
