/** Laws of finite maps: what is moved can be moved back, and disjoint moves commute. */
module Maps {

  /** The rows of `m` whose keys are in `ks`. */
  function Restrict<K, V>(m: map<K, V>, ks: set<K>): map<K, V> {
    map k | k in ks && k in m :: m[k]
  }

  /** Move the rows `out` away and add `rows`. */
  function Swap<K, V>(m: map<K, V>, out: set<K>, rows: map<K, V>): map<K, V> {
    (m - out) + rows
  }

  lemma SwapBack<K, V>(u: map<K, V>, s: map<K, V>, out: set<K>, rows: map<K, V>)
    requires out <= u.Keys && rows.Keys !! u.Keys
    ensures Swap(Swap(u, out, rows), rows.Keys, Restrict(s + Restrict(u, out), out)) == u
  {
  }

  lemma AddBack<K, V>(m: map<K, V>, rows: map<K, V>)
    requires rows.Keys !! m.Keys
    ensures (m + rows) - rows.Keys == m
  {
  }

  lemma SwapsCommute<K, V>(m: map<K, V>, a: set<K>, x: map<K, V>, b: set<K>, y: map<K, V>)
    requires a !! y.Keys && b !! x.Keys && x.Keys !! y.Keys
    ensures Swap(Swap(m, a, x), b, y) == Swap(Swap(m, b, y), a, x)
  {
  }

  lemma RestrictSwap<K, V>(m: map<K, V>, a: set<K>, x: map<K, V>, b: set<K>)
    requires a !! b && b !! x.Keys
    ensures Restrict(Swap(m, a, x), b) == Restrict(m, b)
  {
  }

  lemma AddsCommute<K, V>(m: map<K, V>, x: map<K, V>, y: map<K, V>)
    requires x.Keys !! y.Keys
    ensures (m + x) + y == (m + y) + x
  {
  }

  lemma AddRemoveCommute<K, V>(m: map<K, V>, x: map<K, V>, b: set<K>)
    requires x.Keys !! b
    ensures (m + x) - b == (m - b) + x
  {
  }

  lemma MovedKeys<K, V>(u: map<K, V>, s: map<K, V>, out: set<K>, rows: map<K, V>)
    requires out <= u.Keys
    ensures Swap(u, out, rows).Keys == (u.Keys - out) + rows.Keys
    ensures (s + Restrict(u, out)).Keys == s.Keys + out
  {
  }

  lemma MovedRows<K, V>(u: map<K, V>, s: map<K, V>, out: set<K>, rows: map<K, V>, k: K)
    requires out <= u.Keys
    ensures k in Swap(u, out, rows) ==> Swap(u, out, rows)[k] == if k in rows then rows[k] else u[k]
    ensures k in s + Restrict(u, out) ==> (s + Restrict(u, out))[k] == if k in out then u[k] else s[k]
  {
  }

  lemma AddPut<K, V>(m: map<K, V>, rows: map<K, V>, k: K, v: V)
    ensures (m + rows)[k := v] == m + rows[k := v]
  {
  }

  lemma DropMore<K, V>(m: map<K, V>, out: set<K>, k: K)
    ensures (m - out) - {k} == m - (out + {k})
  {
  }
}
