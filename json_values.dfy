/** The JSON-like values that cross the boundary between the UI and the server actions.
    Numbers are restricted to integers; an object field that is absent is a key missing from the map. */
module JsonValues {
  import opened Wrappers

  datatype Json =
    | JNull
    | JBool(b: bool)
    | JNum(n: int)
    | JStr(s: string)
    | JArr(items: seq<Json>)
    | JObj(fields: map<string, Json>)

  /** The string stored under `key`, if the key is present and holds a string. */
  function StringAt(fields: map<string, Json>, key: string): (r: Option<string>)
    ensures r.Some? <==> key in fields && fields[key].JStr?
    ensures r.Some? ==> fields[key] == JStr(r.value)
  {
    if key in fields && fields[key].JStr? then Some(fields[key].s) else None
  }

  /** The number stored under `key`, if the key is present and holds a number. */
  function NumberAt(fields: map<string, Json>, key: string): (r: Option<int>)
    ensures r.Some? <==> key in fields && fields[key].JNum?
    ensures r.Some? ==> fields[key] == JNum(r.value)
  {
    if key in fields && fields[key].JNum? then Some(fields[key].n) else None
  }

  /** An optional string field: `Some(None)` when the key is absent, `None` when it holds a non-string. */
  function OptionalStringAt(fields: map<string, Json>, key: string): (r: Option<Option<string>>)
    ensures r == Some(None) <==> key !in fields
    ensures r.None? <==> key in fields && !fields[key].JStr?
    ensures r.Some? && r.value.Some? ==> key in fields && fields[key] == JStr(r.value.value)
  {
    if key !in fields then Some(None)
    else if fields[key].JStr? then Some(Some(fields[key].s))
    else None
  }
}
