/** Values that flow between workflow steps: JSON values and objects keyed by strings. */
module Values {

  datatype Option<+T> = None | Some(value: T)

  /** A parsed JSON value. Only own keys exist; numbers are finite, so `real` orders them. */
  datatype Json =
    | Null
    | Bool(flag: bool)
    | Number(number: real)
    | Text(text: string)
    | List(items: seq<Json>)
    | Object(fields: map<string, Json>)

  /** What a step reads and what it produces. */
  type WorkflowData = map<string, Json>

  function Lookup<K, V>(m: map<K, V>, k: K): Option<V> {
    if k in m then Some(m[k]) else None
  }
}
