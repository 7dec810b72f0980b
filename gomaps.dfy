/**
  Go's built-in `map[string]V` as a value. A Go map variable may be nil:
  reading a nil map reports every key absent, `delete` on it does nothing,
  and writing into it panics. `None` stands for the nil map.
 */
module GoMaps {
  import opened Wrappers

  type GoMap<V> = Option<map<string, V>>

  /** `v, ok := m[k]`: `Some(v)` when `ok`. */
  function Lookup<V>(m: GoMap<V>, k: string): Option<V>
  {
    if m.Some? && k in m.value then Some(m.value[k]) else None
  }

  predicate Has<V>(m: GoMap<V>, k: string)
  {
    Lookup(m, k).Some?
  }

  /** The keys a `for k := range m` visits; none for a nil map. */
  function Keys<V>(m: GoMap<V>): set<string>
  {
    if m.Some? then m.value.Keys else {}
  }

  /** `if m == nil { m = make(map[string]V) }`: a nil map reads like an empty one. */
  function InitIfNil<V>(m: GoMap<V>): (r: GoMap<V>)
    ensures r.Some?
    ensures m.Some? ==> r == m
    ensures Keys(r) == Keys(m)
    ensures forall k :: Lookup(r, k) == Lookup(m, k)
  {
    if m.Some? then m else Some(map[])
  }

  /** `m[k] = v`; the map must exist, because a write into a nil map panics. */
  function Store<V>(m: GoMap<V>, k: string, v: V): (r: GoMap<V>)
    requires m.Some?
    ensures r.Some?
    ensures Lookup(r, k) == Some(v)
    ensures forall j :: j != k ==> Lookup(r, j) == Lookup(m, j)
    ensures Keys(r) == Keys(m) + {k}
  {
    Some(m.value[k := v])
  }

  /** `delete(m, k)`: a no-op on a nil map or a missing key. */
  function Remove<V>(m: GoMap<V>, k: string): (r: GoMap<V>)
    ensures r.None? <==> m.None?
    ensures Lookup(r, k) == None
    ensures forall j :: j != k ==> Lookup(r, j) == Lookup(m, j)
    ensures Keys(r) == Keys(m) - {k}
    ensures !Has(m, k) ==> r == m
    ensures Has(m, k) ==> |Keys(r)| == |Keys(m)| - 1
  {
    if m.Some? && k in m.value then Some(m.value - {k}) else m
  }

  /** Storing twice under one key leaves one entry, holding the second value. */
  lemma StoreLastWriteWins<V>(m: GoMap<V>, k: string, v1: V, v2: V)
    requires m.Some?
    ensures Store(Store(m, k, v1), k, v2) == Store(m, k, v2)
    ensures Keys(Store(Store(m, k, v1), k, v2)) == Keys(m) + {k}
  {
    assert Store(m, k, v1).value[k := v2] == m.value[k := v2];
  }
}
