/** Optional values, and lookups in maps that may miss. */
module Options {
  datatype Option<+T> = None | Some(value: T)

  function Get<V>(m: map<string, V>, key: string, missing: V): V {
    if key in m then m[key] else missing
  }

  function Find<V>(m: map<string, V>, key: string): Option<V> {
    if key in m then Some(m[key]) else None
  }
}
