/** Small shared definitions. */
module Common {

  datatype Option<+T> = None | Some(value: T)

  /** A property lookup on a JavaScript object used as a dictionary. */
  function Lookup<K, V>(m: map<K, V>, k: K): Option<V> {
    if k in m then Some(m[k]) else None
  }
}
