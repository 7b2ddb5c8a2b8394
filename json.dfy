/** The JavaScript values the message engine inspects: field values it
    exports and the bodies the service sends back. */
module Json {
  import opened Wrappers

  /** A JSON-shaped JavaScript value. Numbers are integers here. */
  datatype Json =
    | JNull
    | JBool(b: bool)
    | JNum(n: int)
    | JStr(s: string)
    | JArr(items: seq<Json>)
    | JObj(fields: map<string, Json>)

  /** JavaScript truthiness of a value. */
  predicate Truthy(j: Json)
  {
    match j
    case JNull => false
    case JBool(b) => b
    case JNum(n) => n != 0
    case JStr(s) => s != ""
    case JArr(_) => true
    case JObj(_) => true
  }

  /** Truthiness of a property read, where `None` is `undefined`. */
  predicate TruthyMember(m: Option<Json>)
  {
    m.Some? && Truthy(m.value)
  }

  /** Truthiness of an optional string argument (`null` and "" are falsy). */
  predicate TruthyString(s: Option<string>)
  {
    s.Some? && s.value != ""
  }

  /** The property read `j.key`: only objects have own properties here;
      reading any other value yields `undefined` (`None`). */
  function Member(j: Json, key: string): Option<Json>
  {
    if j.JObj? && key in j.fields then Some(j.fields[key]) else None
  }

  /** The JSON image of an optional string field: `null` or the string. */
  function StrOrNull(s: Option<string>): Json
  {
    if s.Some? then JStr(s.value) else JNull
  }

  /** The JSON image of an optional number field. */
  function NumOrNull(n: Option<int>): Json
  {
    if n.Some? then JNum(n.value) else JNull
  }

  /** lodash `omitBy(m, isNull)`: the payload without its `null` entries. */
  function OmitNull<K(!new)>(m: map<K, Json>): (r: map<K, Json>)
    ensures forall k :: k in r <==> k in m && m[k] != JNull
    ensures forall k :: k in r ==> r[k] == m[k]
  {
    map k | k in m && m[k] != JNull :: m[k]
  }

}
