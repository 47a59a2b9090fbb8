/** JSON values as Python's `json` module hands them to the core: the
    OpenID metadata document, the key set, JWT headers and claims. */
module Json {

  /** Numbers are integers; objects are unordered (Python compares dicts
      without regard to order). */
  datatype Json =
    | JNull
    | JBool(b: bool)
    | JNum(n: int)
    | JStr(s: string)
    | JArr(items: seq<Json>)
    | JObj(fields: map<string, Json>)

  type Object = map<string, Json>

  /** `obj.get(name)`: a missing member reads as `None`, like an explicit null. */
  function Get(obj: Object, name: string): Json
  {
    if name in obj then obj[name] else JNull
  }

  /** `obj.get(name, default)`: the default is used only when the member is missing. */
  function GetOr(obj: Object, name: string, default: Json): Json
  {
    if name in obj then obj[name] else default
  }

  /** Lists and dicts cannot be dictionary keys in Python. */
  predicate Hashable(v: Json)
  {
    !v.JArr? && !v.JObj?
  }
}
