/** A keyspace whose entries may carry an expiry: what every service sees of Redis.
    Instants are milliseconds since the epoch; TTLs are whole seconds. An entry is
    readable strictly before its expiry instant and invisible from then on. */
module Ttl {
  import opened Wrappers

  type Instant = int

  datatype Cell<+V> = Cell(value: V, expiresAt: Option<Instant>)

  type Store<K(==), V> = map<K, Cell<V>>

  predicate Unexpired<V>(c: Cell<V>, now: Instant) {
    c.expiresAt.None? || now < c.expiresAt.value
  }

  predicate Live<K, V>(m: Store<K, V>, k: K, now: Instant) {
    k in m && Unexpired(m[k], now)
  }

  function Get<K, V>(m: Store<K, V>, k: K, now: Instant): Option<V> {
    if Live(m, k, now) then Some(m[k].value) else None
  }

  /** `SET k v EX ttl`; a TTL of zero is dropped by the caller, so the entry never expires. */
  function Put<K, V>(m: Store<K, V>, k: K, v: V, ttl: nat, now: Instant): Store<K, V> {
    m[k := Cell(v, if ttl == 0 then None else Some(now + 1000 * ttl))]
  }

  function Del<K, V>(m: Store<K, V>, k: K): Store<K, V> {
    m - {k}
  }
}
