/** The parameter tree: the values of a YAML document or of Go's `map[string]interface{}`. */
module Values {
  import opened Wrappers

  datatype Value =
    | Null
    | Bool(b: bool)
    | Int(i: int)
    | Float(f: real)
    | Str(s: string)
    | List(items: seq<Value>)
    | Object(fields: map<string, Value>)

  /** A dotted key such as `deployment.tag`, split at its dots; never without a segment. */
  type KeyPath = p: seq<string> | |p| > 0 witness [""]

  /** Go's `m[k].(map[string]interface{})`: the nested map, if that is what is stored. */
  function MapAt(m: map<string, Value>, k: string): Option<map<string, Value>> {
    if k in m && m[k].Object? then Some(m[k].fields) else None
  }

  /** Go's `m[k].(string)`: the string stored under `k`, if a string is stored there. */
  function StringAt(m: map<string, Value>, k: string): Option<string> {
    if k in m && m[k].Str? then Some(m[k].s) else None
  }

  /** The value a dotted key addresses, walking nested maps. */
  function Lookup(m: map<string, Value>, p: KeyPath): Option<Value>
    decreases |p|
  {
    if p[0] !in m then None
    else if |p| == 1 then Some(m[p[0]])
    else match m[p[0]]
      case Object(inner) => Lookup(inner, p[1..])
      case _ => None
  }

  /** Stores `v` under the dotted key `p`, creating the intermediate maps it needs. */
  function SetPath(m: map<string, Value>, p: KeyPath, v: Value): (r: map<string, Value>)
    ensures r.Keys == m.Keys + {p[0]}
    ensures forall k :: k in m && k != p[0] ==> r[k] == m[k]
    ensures Lookup(r, p) == Some(v)
    ensures |p| > 1 ==> MapAt(r, p[0]).Some?
    ensures |p| > 1 && MapAt(m, p[0]).Some? ==>
      && MapAt(r, p[0]).value.Keys == MapAt(m, p[0]).value.Keys + {p[1]}
      && forall k :: k in MapAt(m, p[0]).value && k != p[1] ==> MapAt(r, p[0]).value[k] == MapAt(m, p[0]).value[k]
    decreases |p|
  {
    if |p| == 1 then m[p[0] := v]
    else
      var inner := MapAt(m, p[0]).GetOr(map[]);
      m[p[0] := Object(SetPath(inner, p[1..], v))]
  }
}
