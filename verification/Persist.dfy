/** The ledger's tables as rows of the key-value store: where each row is kept, and what one put or
    erase does to the tables. */
module Persist {
  import opened Types
  import opened Blocks
  import opened Steps
  import Storage

  /** A row of some table or index. */
  datatype Spot =
    | AtTip
    | AtBlock(id: Id)
    | AtHeight(height: nat)
    | AtCandidate(id: Id)
    | AtTx(id: Id)
    | AtUtxo(id: Id)
    | AtUtxoKey(text: string)
    | AtStxo(id: Id)
    | AtStxoKey(text: string)
    | AtInput(id: Id)

  /** The JSON written for each kind of row. */
  datatype Codec = Codec(block: DbBlock -> Storage.Json,
                         id: Id -> Storage.Json,
                         candidate: Block -> Storage.Json,
                         tx: DbTx -> Storage.Json,
                         output: DbOutput -> Storage.Json,
                         input: Input -> Storage.Json)

  /** Table, index and key of a place. */
  function TableOf(pl: Spot): (r: (string, int, string))
    ensures Storage.NoSlash(r.0) && r.1 >= -1
  {
    match pl
    case AtTip => ("blocks", -1, "tip")
    case AtBlock(id) => ("blocks", -1, id.hex)
    case AtHeight(n) => ("blocks", 0, Storage.Decimal(n))
    case AtCandidate(id) => ("candidates", -1, id.hex)
    case AtTx(id) => ("transactions", -1, id.hex)
    case AtUtxo(id) => ("utxos", -1, id.hex)
    case AtUtxoKey(s) => ("utxos", 0, s)
    case AtStxo(id) => ("stxos", -1, id.hex)
    case AtStxoKey(s) => ("stxos", 0, s)
    case AtInput(id) => ("inputs", -1, id.hex)
  }

  function KeyOf(pl: Spot): string {
    var (table, index, key) := TableOf(pl);
    Storage.GetKey(table, index, key)
  }

  lemma KeyIn(table: string, key: string)
    ensures Storage.GetKey(table, -1, key) == table + "/0/" + key && Storage.GetKey(table, 0, key) == table + "/1/" + key
  {
    assert Storage.Decimal(0) == "0" && Storage.Decimal(1) == "1";
    assert "/" + "0" + "/" == "/0/" && "/" + "1" + "/" == "/1/";
    assert table + "/" + "0" + "/" + key == table + ("/" + "0" + "/") + key;
    assert table + "/" + "1" + "/" + key == table + ("/" + "1" + "/") + key;
  }

  /** The keys: a table's own rows under index 0, and under index 1 the heights of blocks and the public
      keys of outputs. */
  lemma KeysAre(id: Id, n: nat, s: string)
    ensures KeyOf(AtTip) == "blocks" + "/0/" + "tip" && KeyOf(AtBlock(id)) == "blocks" + "/0/" + id.hex
    ensures KeyOf(AtHeight(n)) == "blocks" + "/1/" + Storage.Decimal(n)
    ensures KeyOf(AtCandidate(id)) == "candidates" + "/0/" + id.hex && KeyOf(AtTx(id)) == "transactions" + "/0/" + id.hex
    ensures KeyOf(AtUtxo(id)) == "utxos" + "/0/" + id.hex && KeyOf(AtUtxoKey(s)) == "utxos" + "/1/" + s
    ensures KeyOf(AtStxo(id)) == "stxos" + "/0/" + id.hex && KeyOf(AtStxoKey(s)) == "stxos" + "/1/" + s
    ensures KeyOf(AtInput(id)) == "inputs" + "/0/" + id.hex
  {
    hide Storage.GetKey, Storage.Decimal;
    KeyIn("blocks", "tip");
    KeyIn("blocks", id.hex);
    KeyIn("blocks", Storage.Decimal(n));
    KeyIn("candidates", id.hex);
    KeyIn("transactions", id.hex);
    KeyIn("utxos", id.hex);
    KeyIn("utxos", s);
    KeyIn("stxos", id.hex);
    KeyIn("stxos", s);
    KeyIn("inputs", id.hex);
  }

  /** The tip is kept among the blocks, under a key that no block id may be. */
  predicate Proper(pl: Spot) {
    pl.AtBlock? ==> pl.id.hex != "tip"
  }

  ghost predicate NoTipId(h: Hashes) {
    forall x, c, p, t, d :: h.block(x, c, p, t, d).hex != "tip"
  }

  lemma TableOfInjective(a: Spot, b: Spot)
    requires Proper(a) && Proper(b) && TableOf(a) == TableOf(b)
    ensures a == b
  {
    if a.AtHeight? && b.AtHeight? {
      Storage.DecimalInjective(a.height, b.height);
    }
  }

  /** No two places share a key. */
  lemma KeyOfInjective(a: Spot, b: Spot)
    requires Proper(a) && Proper(b) && KeyOf(a) == KeyOf(b)
    ensures a == b
  {
    hide TableOf, Storage.GetKey;
    var (t, i, k) := TableOf(a);
    var (u, j, l) := TableOf(b);
    Storage.KeysApart(t, i, k, u, j, l);
    Storage.KeysApart(u, j, l, t, i, k);
    assert k <= l && l <= k && k == l;
    TableOfInjective(a, b);
  }

  // ---- what the rows hold ----

  function Stored(m: Storage.Rows, key: string): Option<Storage.Json> {
    if key in m then Some(m[key]) else None
  }

  /** The row of a state at a place, if it has one there. */
  function RowAt(k: Codec, t: State, pl: Spot): Option<Storage.Json> {
    match pl
    case AtTip => if t.tip.Some? then Some(k.block(t.tip.value)) else None
    case AtBlock(id) => if id in t.blocks then Some(k.block(t.blocks[id])) else None
    case AtHeight(n) => if n in t.heights then Some(k.id(t.heights[n])) else None
    case AtCandidate(id) => if id in t.candidates then Some(k.candidate(t.candidates[id])) else None
    case AtTx(id) => if id in t.core.txs then Some(k.tx(t.core.txs[id])) else None
    case AtUtxo(id) => if id in t.core.utxos then Some(k.output(t.core.utxos[id])) else None
    case AtUtxoKey(s) => if s in t.keys.utxo then Some(Storage.JsonNull) else None
    case AtStxo(id) => if id in t.core.stxos then Some(k.output(t.core.stxos[id])) else None
    case AtStxoKey(s) => if s in t.keys.stxo then Some(Storage.JsonNull) else None
    case AtInput(id) => if id in t.core.inputs then Some(k.input(t.core.inputs[id])) else None
  }

  /** The rows are those of the state. */
  ghost predicate Holds(k: Codec, rows: Storage.Rows, t: State) {
    && Id("tip") !in t.blocks
    && forall pl: Spot :: Proper(pl) ==> Stored(rows, KeyOf(pl)) == RowAt(k, t, pl)
  }

  /** JSON texts that can be read back. */
  ghost predicate Readable(k: Codec) {
    && (forall a, b :: k.block(a) == k.block(b) ==> a == b)
    && (forall a, b :: k.id(a) == k.id(b) ==> a == b)
    && (forall a, b :: k.candidate(a) == k.candidate(b) ==> a == b)
    && (forall a, b :: k.tx(a) == k.tx(b) ==> a == b)
    && (forall a, b :: k.output(a) == k.output(b) ==> a == b)
    && (forall a, b :: k.input(a) == k.input(b) ==> a == b)
  }

  /** Rows hold at most one state: whoever reads them back gets that one. */
  lemma HoldsOne(k: Codec, rows: Storage.Rows, t: State, u: State)
    requires Readable(k) && Holds(k, rows, t) && Holds(k, rows, u)
    ensures t == u
  {
    hide KeyOf, Stored;
    forall pl: Spot | Proper(pl) ensures RowAt(k, t, pl) == RowAt(k, u, pl) {
      assert Stored(rows, KeyOf(pl)) == RowAt(k, t, pl);
    }
    hide Holds;
    SameChainRows(k, t, u);
    SameCoreRows(k, t, u);
    SameKeyRows(k, t, u);
  }

  /** Reading finds the tables that the rows hold. */
  ghost predicate Reads(k: Codec, read: Storage.Rows -> State) {
    forall rows, t :: Holds(k, rows, t) ==> read(rows) == t
  }

  ghost function ReadBack(k: Codec, rows: Storage.Rows): State {
    if exists t :: Holds(k, rows, t) then (var t :| Holds(k, rows, t); t) else EmptyState
  }

  /** Rows in a readable form can be read. */
  lemma ReadableReads(k: Codec)
    requires Readable(k)
    ensures Reads(k, rows => ReadBack(k, rows))
  {
    hide Holds, Readable;
    forall rows, t | Holds(k, rows, t) ensures ReadBack(k, rows) == t {
      HoldsOne(k, rows, t, ReadBack(k, rows));
    }
  }

  lemma SameChainRows(k: Codec, t: State, u: State)
    requires Readable(k) && Id("tip") !in t.blocks && Id("tip") !in u.blocks
    requires forall pl: Spot :: Proper(pl) ==> RowAt(k, t, pl) == RowAt(k, u, pl)
    ensures t.tip == u.tip && t.blocks == u.blocks && t.heights == u.heights && t.candidates == u.candidates
  {
    assert RowAt(k, t, AtTip) == RowAt(k, u, AtTip);
    forall id ensures (id in t.blocks <==> id in u.blocks) && (id in t.blocks ==> t.blocks[id] == u.blocks[id]) {
      if id.hex != "tip" { assert RowAt(k, t, AtBlock(id)) == RowAt(k, u, AtBlock(id)); } else { assert id == Id("tip"); }
    }
    forall n: nat ensures (n in t.heights <==> n in u.heights) && (n in t.heights ==> t.heights[n] == u.heights[n]) {
      assert RowAt(k, t, AtHeight(n)) == RowAt(k, u, AtHeight(n));
    }
    forall id ensures (id in t.candidates <==> id in u.candidates) && (id in t.candidates ==> t.candidates[id] == u.candidates[id]) {
      assert RowAt(k, t, AtCandidate(id)) == RowAt(k, u, AtCandidate(id));
    }
  }

  lemma SameCoreRows(k: Codec, t: State, u: State)
    requires Readable(k)
    requires forall pl: Spot :: Proper(pl) ==> RowAt(k, t, pl) == RowAt(k, u, pl)
    ensures t.core == u.core
  {
    forall id ensures (id in t.core.txs <==> id in u.core.txs) && (id in t.core.txs ==> t.core.txs[id] == u.core.txs[id]) {
      assert RowAt(k, t, AtTx(id)) == RowAt(k, u, AtTx(id));
    }
    forall id ensures (id in t.core.utxos <==> id in u.core.utxos) && (id in t.core.utxos ==> t.core.utxos[id] == u.core.utxos[id]) {
      assert RowAt(k, t, AtUtxo(id)) == RowAt(k, u, AtUtxo(id));
    }
    forall id ensures (id in t.core.stxos <==> id in u.core.stxos) && (id in t.core.stxos ==> t.core.stxos[id] == u.core.stxos[id]) {
      assert RowAt(k, t, AtStxo(id)) == RowAt(k, u, AtStxo(id));
    }
    forall id ensures (id in t.core.inputs <==> id in u.core.inputs) && (id in t.core.inputs ==> t.core.inputs[id] == u.core.inputs[id]) {
      assert RowAt(k, t, AtInput(id)) == RowAt(k, u, AtInput(id));
    }
    assert t.core.txs == u.core.txs && t.core.utxos == u.core.utxos && t.core.stxos == u.core.stxos && t.core.inputs == u.core.inputs;
  }

  lemma SameKeyRows(k: Codec, t: State, u: State)
    requires forall pl: Spot :: Proper(pl) ==> RowAt(k, t, pl) == RowAt(k, u, pl)
    ensures t.keys == u.keys
  {
    forall s ensures s in t.keys.utxo <==> s in u.keys.utxo {
      assert RowAt(k, t, AtUtxoKey(s)) == RowAt(k, u, AtUtxoKey(s));
    }
    forall s ensures s in t.keys.stxo <==> s in u.keys.stxo {
      assert RowAt(k, t, AtStxoKey(s)) == RowAt(k, u, AtStxoKey(s));
    }
    assert t.keys.utxo == u.keys.utxo && t.keys.stxo == u.keys.stxo;
  }

  // ---- single writes ----

  datatype Write<K, V> = Put(key: K, value: V) | Erase(key: K)

  function Updated<K, V>(m: map<K, V>, w: Write<K, V>): map<K, V> {
    match w
    case Put(key, value) => m[key := value]
    case Erase(key) => m - {key}
  }

  /** One put or erase on a table; on an index of keys, one text put or erased. */
  datatype Change =
    | Tip(row: DbBlock)
    | Blocks(block: Write<Id, DbBlock>)
    | Heights(height: Write<nat, Id>)
    | Candidates(candidate: Write<Id, Block>)
    | Txs(tx: Write<Id, DbTx>)
    | Utxos(utxo: Write<Id, DbOutput>)
    | UtxoKeys(utxoKey: Write<string, ()>)
    | Stxos(stxo: Write<Id, DbOutput>)
    | StxoKeys(stxoKey: Write<string, ()>)
    | Inputs(input: Write<Id, Input>)

  function PlaceOf(c: Change): Spot {
    match c
    case Tip(_) => AtTip
    case Blocks(w) => AtBlock(w.key)
    case Heights(w) => AtHeight(w.key)
    case Candidates(w) => AtCandidate(w.key)
    case Txs(w) => AtTx(w.key)
    case Utxos(w) => AtUtxo(w.key)
    case UtxoKeys(w) => AtUtxoKey(w.key)
    case Stxos(w) => AtStxo(w.key)
    case StxoKeys(w) => AtStxoKey(w.key)
    case Inputs(w) => AtInput(w.key)
  }

  function Encoded<K, V>(f: V -> Storage.Json, w: Write<K, V>): Option<Storage.Json> {
    if w.Put? then Some(f(w.value)) else None
  }

  /** The JSON put, or None for an erase. */
  function DataOf(k: Codec, c: Change): Option<Storage.Json> {
    match c
    case Tip(row) => Some(k.block(row))
    case Blocks(w) => Encoded(k.block, w)
    case Heights(w) => Encoded(k.id, w)
    case Candidates(w) => Encoded(k.candidate, w)
    case Txs(w) => Encoded(k.tx, w)
    case Utxos(w) => Encoded(k.output, w)
    case UtxoKeys(w) => if w.Put? then Some(Storage.JsonNull) else None
    case Stxos(w) => Encoded(k.output, w)
    case StxoKeys(w) => if w.Put? then Some(Storage.JsonNull) else None
    case Inputs(w) => Encoded(k.input, w)
  }

  function Listed(s: set<string>, w: Write<string, ()>): set<string> {
    if w.Put? then s + {w.key} else s - {w.key}
  }

  /** The tables after the write. */
  function Changed(t: State, c: Change): State {
    match c
    case Tip(row) => t.(tip := Some(row))
    case Blocks(w) => t.(blocks := Updated(t.blocks, w))
    case Heights(w) => t.(heights := Updated(t.heights, w))
    case Candidates(w) => t.(candidates := Updated(t.candidates, w))
    case Txs(w) => t.(core := t.core.(txs := Updated(t.core.txs, w)))
    case Utxos(w) => t.(core := t.core.(utxos := Updated(t.core.utxos, w)))
    case UtxoKeys(w) => t.(keys := t.keys.(utxo := Listed(t.keys.utxo, w)))
    case Stxos(w) => t.(core := t.core.(stxos := Updated(t.core.stxos, w)))
    case StxoKeys(w) => t.(keys := t.keys.(stxo := Listed(t.keys.stxo, w)))
    case Inputs(w) => t.(core := t.core.(inputs := Updated(t.core.inputs, w)))
  }

  // ---- the loops' steps as writes, in the program's order ----

  lemma SpendWrites(h: Hashes, t: State, i: Input)
    requires i.outputId in t.core.utxos
    ensures var row := t.core.utxos[i.outputId];
            var a := Changed(t, Stxos(Put(i.outputId, row)));
            var b := if row.output.key.None? then a else
                       var s := row.output.key.value + i.outputId.hex;
                       Changed(Changed(a, StxoKeys(Put(s, ()))), UtxoKeys(Erase(s)));
            Changed(Changed(b, Utxos(Erase(i.outputId))), Inputs(Put(h.input(i), i))) == SpendOne(h, t, i)
  {
  }

  lemma RestoreWrites(h: Hashes, t: State, i: Input)
    requires i.outputId in t.core.stxos
    ensures var row := t.core.stxos[i.outputId];
            var s := if row.output.key.Some? then row.output.key.value + i.outputId.hex else "";
            var a := Changed(Changed(t, Inputs(Erase(h.input(i)))), Stxos(Erase(i.outputId)));
            var b := if row.output.key.None? then a else Changed(a, StxoKeys(Erase(s)));
            var c := Changed(b, Utxos(Put(i.outputId, row)));
            (if row.output.key.None? then c else Changed(c, UtxoKeys(Put(s, ())))) == RestoreOne(h, t, i)
  {
  }

  // ---- writes reach the rows they name and no others ----

  lemma ChangeAt(k: Codec, t: State, c: Change, pl: Spot)
    ensures RowAt(k, Changed(t, c), pl) == if pl == PlaceOf(c) then DataOf(k, c) else RowAt(k, t, pl)
  {
  }

  lemma KeepsTipOut(t: State, c: Change)
    requires Id("tip") !in t.blocks && Proper(PlaceOf(c))
    ensures Id("tip") !in Changed(t, c).blocks
  {
  }

  function Written(rows: Storage.Rows, key: string, data: Option<Storage.Json>): Storage.Rows {
    if data.Some? then rows[key := data.value] else rows - {key}
  }

  /** Writing a row changes the tables there and nowhere else. */
  lemma ChangeHolds(k: Codec, rows: Storage.Rows, t: State, c: Change)
    requires Holds(k, rows, t) && Proper(PlaceOf(c))
    ensures Holds(k, Written(rows, KeyOf(PlaceOf(c)), DataOf(k, c)), Changed(t, c))
  {
    hide RowAt, Changed, PlaceOf, DataOf, KeyOf;
    var key := KeyOf(PlaceOf(c));
    var after := Written(rows, key, DataOf(k, c));
    KeepsTipOut(t, c);
    forall pl: Spot | Proper(pl) ensures Stored(after, KeyOf(pl)) == RowAt(k, Changed(t, c), pl) {
      ChangeAt(k, t, c, pl);
      if pl != PlaceOf(c) && KeyOf(pl) == key {
        KeyOfInjective(pl, PlaceOf(c));
        assert false;
      }
    }
  }

  lemma EmptyHolds(k: Codec)
    ensures Holds(k, map[], EmptyState)
  {
    hide KeyOf;
  }
}
