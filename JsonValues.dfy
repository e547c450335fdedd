/** JSON values as json.load produces them, and the configuration dicts built
    from them. */
module JsonValues {
  import opened Options

  datatype Json =
    | JNull
    | JBool(b: bool)
    | JNum(n: real)
    | JStr(s: string)
    | JArr(items: seq<Json>)
    | JObj(obj: map<string, Json>)

  /** A configuration file's top-level object. */
  type Config = map<string, Json>

  /** The value reached by following the keys of path from j, if every key is
      present in an object on the way. */
  function Lookup(j: Json, path: seq<string>): Option<Json>
    decreases |path|
  {
    if path == [] then Some(j)
    else if j.JObj? && path[0] in j.obj then Lookup(j.obj[path[0]], path[1..])
    else None
  }

  /** str.startswith(prefix) */
  predicate StartsWith(s: string, prefix: string)
  {
    |prefix| <= |s| && s[..|prefix|] == prefix
  }
}
