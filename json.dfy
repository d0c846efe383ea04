/**
 * The nested `Map<String, Object>` / `List<Object>` trees that OpenSearch hands to
 * the plugin for index mappings, processor configurations and ingest documents.
 */
module JsonTree {
  /** A value of such a tree; `JOther` is any other scalar, kept as its `toString()`. */
  datatype Json =
    | JMap(fields: map<string, Json>)
    | JList(items: seq<Json>)
    | JStr(str: string)
    | JInt(num: int)
    | JBool(flag: bool)
    | JNull
    | JOther(text: string)

  /** A `Map<String, Object>`. */
  type Object = map<string, Json>

  /** `map.get(key)`: Java returns null both for a missing key and for a key bound to null. */
  function Get(o: Object, key: string): (r: Json)
    ensures key in o ==> r == o[key]
    ensures key !in o ==> r == JNull
  {
    if key in o then o[key] else JNull
  }

  /** What the Java cast `(String) value` does: null passes as null, a non-string throws. */
  datatype StringCast = NullString | CastString(s: string) | NotAString

  function AsString(j: Json): StringCast {
    match j
    case JNull => NullString
    case JStr(s) => CastString(s)
    case _ => NotAString
  }
}
