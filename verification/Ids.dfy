/** Identifiers shared by every component. UUIDs are modelled as numbers; only
    equality and freshness matter. */
module Ids {
  type UserId = nat
  type GroupId = nat
  type SocketId = nat
  type WorkerId = nat
  type MessageId = nat

  datatype Option<+T> = None | Some(value: T)

  /** `mapping.get(k, set())`: the stored set, or the empty set for an absent key. */
  function At<K, V>(m: map<K, set<V>>, k: K): set<V> {
    if k in m then m[k] else {}
  }

  /** The value stored in a counter table, with absent keys counting as zero. */
  function Count<K>(m: map<K, int>, k: K): int {
    if k in m then m[k] else 0
  }
}
