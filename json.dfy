/**
 * Decoded JSON values, as the importers see them through Go's `interface{}`.
 * Only the shapes the importers test for are told apart: strings, arrays and
 * objects. Numbers, booleans, `null` and a key that is absent from an object
 * (which Go reads back as `nil`) are all `JOther`.
 */
module Json {

  datatype JVal =
    | JStr(s: string)
    | JArr(items: seq<JVal>)
    | JObj(fields: map<string, JVal>)
    | JOther

  type Obj = map<string, JVal>

  /** Indexing a Go map: an absent key gives the zero value `nil`. */
  function Get(o: Obj, key: string): (v: JVal)
    ensures key !in o ==> v == JOther
    ensures key in o ==> v == o[key]
  {
    if key in o then o[key] else JOther
  }

  /**
   * `safeString`: a checked type assertion to `string`. Anything that is not a
   * string gives the empty string and `false`.
   */
  function SafeString(v: JVal): (r: (string, bool))
    ensures r.1 <==> v.JStr?
    ensures r.1 ==> r.0 == v.s
    ensures !r.1 ==> r.0 == ""
  {
    match v
    case JStr(s) => (s, true)
    case _ => ("", false)
  }

  /** The string under `key`, or "" when it is absent or not a string. */
  function StrField(o: Obj, key: string): (s: string)
    ensures Get(o, key).JStr? ==> s == Get(o, key).s
    ensures !Get(o, key).JStr? ==> s == ""
  {
    SafeString(Get(o, key)).0
  }

  /** True when `key` holds a string (`_, ok := safeString(o[key])`). */
  predicate HasStr(o: Obj, key: string)
  {
    SafeString(Get(o, key)).1
  }
}
