/**
 * Decoded JSON as PHP sees it after json_decode($body, true): scalars,
 * lists and string-keyed dictionaries (both are PHP arrays), with the
 * access idioms the plugin uses on them: `$v[$k] ?? $default`,
 * `(float)` casts and iteration with foreach / array_map.
 */
module Json {
  import opened Wrappers

  datatype Json =
    | JNull
    | JBool(b: bool)
    | JNum(n: real)
    | JStr(s: string)
    | JList(items: seq<Json>)
    | JDict(fields: map<string, Json>)

  /** PHP's empty array `array()`. */
  const EmptyArray: Json := JList([])

  /** is_array() */
  predicate IsArray(v: Json) {
    v.JList? || v.JDict?
  }

  /** `$v[$key]` as seen by `??` and isset(): present and not null. */
  function Get(v: Json, key: string): (r: Option<Json>)
    ensures r.Some? <==> v.JDict? && key in v.fields && v.fields[key] != JNull
    ensures r.Some? ==> r.value == v.fields[key]
  {
    if v.JDict? && key in v.fields && v.fields[key] != JNull then Some(v.fields[key]) else None
  }

  /** `$v[$i]` on a list, as seen by `??`: present and not null. */
  function At(v: Json, i: nat): (r: Option<Json>)
    ensures r.Some? <==> v.JList? && i < |v.items| && v.items[i] != JNull
    ensures r.Some? ==> r.value == v.items[i]
  {
    if v.JList? && i < |v.items| && v.items[i] != JNull then Some(v.items[i]) else None
  }

  /**
   * PHP's (float) cast. Numeric strings are read by `numeric`, which stands
   * for PHP's string-to-number conversion; arrays cast to 1 when non-empty.
   */
  function FloatOf(v: Json, numeric: string -> real): real {
    match v
    case JNull => 0.0
    case JBool(b) => if b then 1.0 else 0.0
    case JNum(n) => n
    case JStr(s) => numeric(s)
    case JList(items) => if items == [] then 0.0 else 1.0
    case JDict(fields) => if fields == map[] then 0.0 else 1.0
  }

  /** `(float) ($v[$key] ?? 0)` */
  function FloatField(v: Json, key: string, numeric: string -> real): (r: real)
    ensures Get(v, key).None? ==> r == 0.0
    ensures Get(v, key).Some? ==> r == FloatOf(Get(v, key).value, numeric)
  {
    match Get(v, key)
    case None => 0.0
    case Some(x) => FloatOf(x, numeric)
  }

  /** `$v[$key] ?? $default` for a field holding text; a non-string value counts as absent. */
  function TextField(v: Json, key: string, default: string): (r: string)
    ensures (Get(v, key).Some? && Get(v, key).value.JStr?) ==> r == Get(v, key).value.s
    ensures !(Get(v, key).Some? && Get(v, key).value.JStr?) ==> r == default
  {
    match Get(v, key)
    case Some(JStr(s)) => s
    case _ => default
  }

  /** The elements foreach / array_map visit: the items of a list; nothing otherwise. */
  function Elements(v: Json): seq<Json> {
    if v.JList? then v.items else []
  }

  /** `$v[$key] ?? array()` read as a list. */
  function ListField(v: Json, key: string): (r: seq<Json>)
    ensures Get(v, key).None? ==> r == []
    ensures Get(v, key).Some? ==> r == Elements(Get(v, key).value)
  {
    match Get(v, key)
    case None => []
    case Some(x) => Elements(x)
  }
}
