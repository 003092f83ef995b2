/** The Option datatype used for JavaScript's `undefined`/`null` and for "absent" results. */
module Wrappers {

  datatype Option<+T> = None | Some(value: T) {

    /** The value when present, else the default: JavaScript's `x ?? d`. */
    function GetOr(default: T): T {
      match this
      case Some(v) => v
      case None => default
    }
  }

  /** A map lookup that returns None for a missing key, as `record[key]` gives `undefined`. */
  function Lookup<K, V>(m: map<K, V>, k: K): (r: Option<V>)
    ensures r.Some? <==> k in m
    ensures r.Some? ==> r.value == m[k]
  {
    if k in m then Some(m[k]) else None
  }
}
