/** The values a node may hold, identified when they are equal as data. */
module DataValues {
  import opened Basics

  /**
   * JSON plus bigint. An integer within the safe range is `Whole`; any other finite number is
   * `Fraction`, known by its JSON text. An object is a finite map, so field order and fields that are
   * `undefined` are not part of a value, and `==` is equality as data: exactly what comparing two
   * digests decides (Encoding.EncodesEquallyExactlyWhenSameData).
   */
  datatype Data =
    | Null
    | Bool(b: bool)
    | Whole(n: int)
    | Fraction(text: string)
    | Str(s: string)
    | Big(i: int)
    | List(items: seq<Data>)
    | Obj(fields: map<string, Data>)

  const MAX_SAFE_INTEGER := 9_007_199_254_740_991

  predicate IsSafeInteger(n: int) {
    -MAX_SAFE_INTEGER <= n <= MAX_SAFE_INTEGER
  }

  function FieldOf(value: Data, name: string): Option<Data> {
    if value.Obj? && name in value.fields then Some(value.fields[name]) else None
  }
}
