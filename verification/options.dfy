/** Swift optionals (`T?`), as a plain Some/None datatype. */
module Options {

  datatype Option<+T> = None | Some(value: T)

  /** The `x ?? default` operator: the wrapped value, or `default` when absent. */
  function GetOr<T>(o: Option<T>, default: T): T
  {
    match o
    case Some(v) => v
    case None => default
  }

  /** Dictionary subscript `m[k]`, which yields nil for a missing key. */
  function Lookup<K, V>(m: map<K, V>, k: K): (r: Option<V>)
    ensures r.Some? <==> k in m
    ensures r.Some? ==> r.value == m[k]
  {
    if k in m then Some(m[k]) else None
  }
}
