/** The key-value store: transactions that buffer their writes, table keys, prefix iterators. */
module Storage {

  /** A stored value; reading a missing key gives null. */
  datatype Json = JsonNull | JsonValue(text: string)

  type Rows = map<string, Json>

  function Lookup(m: Rows, key: string): Json {
    if key in m then m[key] else JsonNull
  }

  // ---- buffered writes ----

  datatype Op = Put(key: string, data: Json) | Erase(key: string)

  function ApplyOne(m: Rows, op: Op): Rows {
    match op
    case Put(key, data) => m[key := data]
    case Erase(key) => m - {key}
  }

  /** The operations applied one after the other to a plain map. */
  function ApplyOps(m: Rows, ops: seq<Op>): Rows {
    if ops == [] then m else ApplyOne(ApplyOps(m, ops[..|ops| - 1]), ops[|ops| - 1])
  }

  datatype Entry = Entry(data: Json, erased: bool)

  type Cache = map<string, Entry>

  /** What a reader sees: the cache in front of the base rows. */
  function Overlay(base: Rows, cache: Cache): Rows {
    map key | key in base.Keys + cache.Keys && !(key in cache && cache[key].erased) ::
      if key in cache then cache[key].data else base[key]
  }

  /** Erased entries carry null. */
  predicate Clean(cache: Cache) {
    forall key :: key in cache && cache[key].erased ==> cache[key].data == JsonNull
  }

  lemma OverlayPut(base: Rows, cache: Cache, key: string, data: Json)
    ensures Overlay(base, cache[key := Entry(data, false)]) == ApplyOne(Overlay(base, cache), Put(key, data))
  {
  }

  lemma OverlayErase(base: Rows, cache: Cache, key: string)
    ensures Overlay(base, cache[key := Entry(JsonNull, true)]) == ApplyOne(Overlay(base, cache), Erase(key))
  {
  }

  function Part(cache: Cache, done: set<string>): Cache {
    map key | key in done && key in cache :: cache[key]
  }

  lemma NoBatch(base: Rows, cache: Cache)
    ensures ApplyOps(base, []) == Overlay(base, Part(cache, {}))
  {
  }

  lemma BatchStep(base: Rows, cache: Cache, done: set<string>, key: string, batch: seq<Op>)
    requires Clean(cache) && key in cache && key !in done && ApplyOps(base, batch) == Overlay(base, Part(cache, done))
    ensures var op := if cache[key].erased then Erase(key) else Put(key, cache[key].data);
            ApplyOps(base, batch + [op]) == Overlay(base, Part(cache, done + {key}))
  {
    var op := if cache[key].erased then Erase(key) else Put(key, cache[key].data);
    hide ApplyOps, Overlay, Part, ApplyOne, Clean;
    ApplyLast(base, batch, op);
    OverlayPut(base, Part(cache, done), key, cache[key].data);
    OverlayErase(base, Part(cache, done), key);
    PartMore(cache, done, key);
    EntryIs(cache, key);
  }

  lemma ApplyLast(base: Rows, batch: seq<Op>, op: Op)
    ensures ApplyOps(base, batch + [op]) == ApplyOne(ApplyOps(base, batch), op)
  {
    assert (batch + [op])[..|batch|] == batch;
  }

  lemma PartMore(cache: Cache, done: set<string>, key: string)
    requires key in cache
    ensures Part(cache, done + {key}) == Part(cache, done)[key := cache[key]]
  {
  }

  lemma EntryIs(cache: Cache, key: string)
    requires Clean(cache) && key in cache
    ensures cache[key] == if cache[key].erased then Entry(JsonNull, true) else Entry(cache[key].data, false)
  {
  }

  /** The database: committed rows, and whether a writer holds it. */
  class Store {
    var rows: Rows
    var locked: bool

    constructor ()
      ensures rows == map[] && !locked
    {
      rows, locked := map[], false;
    }
  }

  class Transaction {
    const db: Store
    const readonly: bool
    const snapshot: Rows
    var cache: Cache
    var finished: bool
    ghost var base: Rows
    ghost var ops: seq<Op>

    /** The rows behind the cache. */
    ghost function Base(): Rows
      reads this, db
    {
      if readonly then snapshot else db.rows
    }

    ghost function View(): Rows
      reads this
    {
      Overlay(base, cache)
    }

    /** The view is the base with every operation so far applied to it. A writer holds the lock until
        it is finished, so the rows behind its cache stay as they were at the start. */
    ghost predicate Valid()
      reads this, db
    {
      && Clean(cache)
      && View() == ApplyOps(base, ops)
      && (!finished || readonly ==> Base() == base)
      && (!finished ==> !readonly && db.locked)
    }

    constructor (db: Store)
      requires !db.locked
      modifies db
      ensures Valid() && !finished && !readonly && this.db == db && View() == db.rows && db.rows == old(db.rows) && ops == []
    {
      this.db, readonly, snapshot, cache := db, false, map[], map[];
      finished, base, ops := false, db.rows, [];
      db.locked := true;
      new;
    }

    constructor ReadOnly(db: Store)
      ensures Valid() && finished && readonly && this.db == db && View() == db.rows && ops == []
    {
      this.db, readonly, snapshot, cache := db, true, db.rows, map[];
      finished, base, ops := true, db.rows, [];
      new;
    }

    method Put(key: string, data: Json)
      requires Valid()
      modifies `cache, `ops
      ensures Valid() && ops == old(ops) + [Op.Put(key, data)] && View() == old(View())[key := data]
    {
      OverlayPut(base, cache, key, data);
      cache := cache[key := Entry(data, false)];
      ops := ops + [Op.Put(key, data)];
      assert ops[..|ops| - 1] == old(ops);
    }

    method Erase(key: string)
      requires Valid()
      modifies `cache, `ops
      ensures Valid() && ops == old(ops) + [Op.Erase(key)] && View() == old(View()) - {key}
    {
      OverlayErase(base, cache, key);
      cache := cache[key := Entry(JsonNull, true)];
      ops := ops + [Op.Erase(key)];
      assert ops[..|ops| - 1] == old(ops);
    }

    method Get(key: string) returns (data: Json)
      requires Valid() && (readonly || !finished)
      ensures data == Lookup(ApplyOps(base, ops), key)
    {
      if key in cache {
        data := cache[key].data;
      } else if readonly {
        data := Lookup(snapshot, key);
      } else {
        data := Lookup(db.rows, key);
      }
    }

    method MakeBatch() returns (batch: seq<Op>)
      requires Clean(cache)
      ensures ApplyOps(base, batch) == View()
    {
      hide ApplyOps, Overlay;
      batch := [];
      var done: set<string> := {};
      var todo := cache.Keys;
      NoBatch(base, cache);
      while todo != {}
        invariant todo + done == cache.Keys && todo !! done
        invariant ApplyOps(base, batch) == Overlay(base, Part(cache, done))
        decreases |todo|
      {
        var key :| key in todo;
        BatchStep(base, cache, done, key, batch);
        batch := batch + [if cache[key].erased then Op.Erase(key) else Op.Put(key, cache[key].data)];
        todo, done := todo - {key}, done + {key};
      }
      assert Part(cache, done) == cache;
    }

    /** Write the cache back in one batch. False stands for the exception on a finished transaction. */
    method Commit() returns (ok: bool)
      requires Valid()
      modifies `finished, db
      ensures ok == !old(finished)
      ensures ok ==> db.rows == old(View()) && finished && !db.locked
      ensures !ok ==> db.rows == old(db.rows) && finished == old(finished) && db.locked == old(db.locked)
    {
      if finished {
        return false;
      }
      hide ApplyOps, Overlay;
      var batch := MakeBatch();
      db.rows := ApplyOps(db.rows, batch);
      Abort();
      ok := true;
    }

    method Abort()
      modifies this`finished, db`locked
      ensures finished
      ensures db.locked == (readonly && old(db.locked))
    {
      finished := true;
      if !readonly {
        db.locked := false;
      }
    }
  }

  // ---- table keys ----

  predicate NoSlash(s: string) {
    forall i :: 0 <= i < |s| ==> s[i] != '/'
  }

  function Digit(d: nat): char
    requires d < 10
  {
    "0123456789"[d]
  }

  function Decimal(n: nat): (r: string)
    ensures |r| > 0 && NoSlash(r)
  {
    if n < 10 then [Digit(n)] else Decimal(n / 10) + [Digit(n % 10)]
  }

  lemma {:induction false} DecimalInjective(a: nat, b: nat)
    requires Decimal(a) == Decimal(b)
    ensures a == b
  {
    var s, t := Decimal(a), Decimal(b);
    DigitInjective(a % 10, b % 10);
    assert s[|s| - 1] == Digit(a % 10) && t[|t| - 1] == Digit(b % 10);
    if a >= 10 && b >= 10 {
      assert s[..|s| - 1] == Decimal(a / 10) && t[..|t| - 1] == Decimal(b / 10);
      DecimalInjective(a / 10, b / 10);
    }
  }

  lemma DigitInjective(a: nat, b: nat)
    requires a < 10 && b < 10
    ensures Digit(a) == Digit(b) ==> a == b
  {
  }

  /** The database key of `key` in an index of a table; index -1 is the table itself. */
  function GetKey(table: string, index: int, key: string): string
    requires index >= -1
  {
    table + "/" + Decimal(index + 1) + "/" + key
  }

  /** The number a text of digits spells, the highest first. */
  function Spelled(s: string): int {
    if s == [] then 0 else 10 * Spelled(s[..|s| - 1]) + (s[|s| - 1] as int - '0' as int)
  }

  lemma {:induction false} DecimalSpells(n: nat)
    ensures Spelled(Decimal(n)) == n && (forall i :: 0 <= i < |Decimal(n)| ==> '0' <= Decimal(n)[i] <= '9')
  {
    DigitSpells(n % 10);
    var s := Decimal(n);
    if n >= 10 {
      DecimalSpells(n / 10);
      assert s[..|s| - 1] == Decimal(n / 10);
    } else {
      assert s == [Digit(n)] && s[..0] == [];
    }
  }

  lemma DigitSpells(d: nat)
    requires d < 10
    ensures '0' <= Digit(d) <= '9' && Digit(d) as int - '0' as int == d
  {
  }

  lemma SplitSlash(a: string, x: string, b: string, y: string)
    requires NoSlash(a) && NoSlash(b) && a + "/" + x <= b + "/" + y
    ensures a == b && x <= y
  {
    var s, t := a + "/" + x, b + "/" + y;
    assert s[|a|] == '/' && t[|b|] == '/';
    assert forall i :: 0 <= i < |a| ==> s[i] != '/';
    assert forall i :: 0 <= i < |b| ==> t[i] != '/';
    assert |a| == |b|;
    assert a == s[..|a|] == t[..|b|] == b;
    assert x == s[|a| + 1..] && y == t[|b| + 1..];
  }

  /** A key of one table or index starts with the prefix of another only if they are the same and the
      keys start alike: tables and indexes never alias. */
  lemma KeysApart(t: string, i: int, k: string, u: string, j: int, l: string)
    requires NoSlash(t) && NoSlash(u) && i >= -1 && j >= -1
    ensures GetKey(t, i, k) <= GetKey(u, j, l) <==> t == u && i == j && k <= l
  {
    if GetKey(t, i, k) <= GetKey(u, j, l) {
      var a, b := Decimal(i + 1), Decimal(j + 1);
      assert GetKey(t, i, k) == t + "/" + (a + "/" + k) && GetKey(u, j, l) == u + "/" + (b + "/" + l);
      SplitSlash(t, a + "/" + k, u, b + "/" + l);
      SplitSlash(a, k, b, l);
      DecimalInjective(i + 1, j + 1);
    }
  }

  // ---- prefix iterators ----

  /** Byte order of keys. */
  predicate Before(a: string, b: string) {
    b != [] && (a == [] || a[0] < b[0] || (a[0] == b[0] && Before(a[1..], b[1..])))
  }

  predicate Sorted(keys: seq<string>) {
    forall i, j :: 0 <= i < j < |keys| ==> Before(keys[i], keys[j])
  }

  lemma {:induction false} PrefixNotBefore(p: string, x: string)
    requires p <= x
    ensures !Before(x, p)
  {
    if p != [] {
      assert p[0] == x[0];
      PrefixNotBefore(p[1..], x[1..]);
    }
  }

  /** Between a prefix and a key that has it, every key has it. */
  lemma {:induction false} PrefixBetween(p: string, a: string, b: string)
    requires !Before(a, p) && Before(a, b) && p <= b
    ensures p <= a
  {
    if p != [] {
      assert p[0] == b[0];
      assert a != [] && a[0] == p[0];
      PrefixBetween(p[1..], a[1..], b[1..]);
    }
  }

  lemma {:induction false} BeforeTransitive(a: string, b: string, c: string)
    requires Before(a, b) && Before(b, c)
    ensures Before(a, c)
  {
    if a != [] && a[0] == b[0] && b[0] == c[0] {
      BeforeTransitive(a[1..], b[1..], c[1..]);
    }
  }

  /** The iterator loop: seek the prefix, then read keys while they start with it. */
  method Scan(keys: seq<string>, prefix: string) returns (found: seq<string>)
    requires Sorted(keys)
    ensures forall s :: s in found <==> prefix + s in keys
    ensures forall i, j :: 0 <= i < j < |found| ==> found[i] != found[j]
  {
    var pos := 0;
    while pos < |keys| && Before(keys[pos], prefix)
      invariant 0 <= pos <= |keys|
      invariant forall i :: 0 <= i < pos ==> !(prefix <= keys[i])
    {
      if prefix <= keys[pos] { PrefixNotBefore(prefix, keys[pos]); }
      pos := pos + 1;
    }
    ghost var first := pos;
    found := [];
    while pos < |keys| && prefix <= keys[pos]
      invariant first <= pos <= |keys|
      invariant |found| == pos - first
      invariant forall i :: 0 <= i < |found| ==> prefix + found[i] == keys[first + i]
    {
      found := found + [keys[pos][|prefix|..]];
      pos := pos + 1;
    }
    Complete(keys, prefix, first, pos, found);
  }

  lemma Complete(keys: seq<string>, prefix: string, first: nat, last: nat, found: seq<string>)
    requires Sorted(keys) && first <= last <= |keys| && |found| == last - first
    requires forall i :: 0 <= i < first ==> !(prefix <= keys[i])
    requires first < |keys| ==> !Before(keys[first], prefix)
    requires last < |keys| ==> !(prefix <= keys[last])
    requires forall i :: 0 <= i < |found| ==> prefix + found[i] == keys[first + i]
    ensures forall s :: s in found <==> prefix + s in keys
    ensures forall i, j :: 0 <= i < j < |found| ==> found[i] != found[j]
  {
    forall s | prefix + s in keys ensures s in found {
      var k :| 0 <= k < |keys| && keys[k] == prefix + s;
      assert prefix <= keys[k];
      if last < k {
        NotBeforeLater(keys, prefix, first, last);
        PrefixBetween(prefix, keys[last], keys[k]);
      }
      assert prefix + found[k - first] == prefix + s;
      assert found[k - first] == (prefix + found[k - first])[|prefix|..] == s;
    }
    forall i, j | 0 <= i < j < |found| ensures found[i] != found[j] {
      assert Before(keys[first + i], keys[first + j]);
      Irreflexive(keys[first + i]);
    }
  }

  lemma NotBeforeLater(keys: seq<string>, prefix: string, first: nat, last: nat)
    requires Sorted(keys) && first <= last < |keys| && !Before(keys[first], prefix)
    ensures !Before(keys[last], prefix)
  {
    if first < last && Before(keys[last], prefix) {
      BeforeTransitive(keys[first], keys[last], prefix);
    }
  }

  lemma {:induction false} Irreflexive(a: string)
    ensures !Before(a, a)
  {
    if a != [] { Irreflexive(a[1..]); }
  }
}
