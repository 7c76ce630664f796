/** The public-key indexes: strings of a key followed by an output id, kept beside `utxos` and
    `stxos`. With keys of one length the strings can be read back, and the indexes stay exact. */
module Index {
  import opened Types
  import opened Maps
  import opened Ledger
  import opened Blocks
  import opened Reversal

  predicate PlainOutput(len: nat, o: Output) {
    o.key.Some? ==> |o.key.value| == len
  }

  predicate PlainTx(len: nat, tx: Tx) {
    forall i :: 0 <= i < |tx.outputs| ==> PlainOutput(len, tx.outputs[i])
  }

  predicate PlainBlock(len: nat, b: Block) {
    && PlainTx(len, b.coinbase)
    && (forall i :: 0 <= i < |b.txs| ==> PlainTx(len, b.txs[i]))
  }

  predicate PlainRows(len: nat, m: map<Id, DbOutput>) {
    forall id :: id in m ==> PlainOutput(len, m[id].output)
  }

  /** Both indexes hold exactly the strings of the outputs they index. */
  ghost predicate Exact(len: nat, t: State) {
    && PlainRows(len, t.core.utxos)
    && PlainRows(len, t.core.stxos)
    && t.keys == Keys(KeyStrings(t.core.utxos), KeyStrings(t.core.stxos))
  }

  // ---- key strings of tables ----

  lemma SameString(len: nat, a: Output, i: Id, b: Output, j: Id)
    requires PlainOutput(len, a) && PlainOutput(len, b) && a.key.Some? && b.key.Some?
    requires a.key.value + i.hex == b.key.value + j.hex
    ensures a.key == b.key && i == j
  {
    var s, t := a.key.value + i.hex, b.key.value + j.hex;
    assert s[..len] == a.key.value && t[..len] == b.key.value;
    assert s[len..] == i.hex && t[len..] == j.hex;
  }

  lemma StringsAdd(m: map<Id, DbOutput>, rows: map<Id, DbOutput>)
    requires m.Keys !! rows.Keys
    ensures KeyStrings(m + rows) == KeyStrings(m) + KeyStrings(rows)
  {
    var s := m + rows;
    forall x | x in KeyStrings(m) + KeyStrings(rows) ensures x in KeyStrings(s) {
      if x in KeyStrings(m) {
        var id :| id in m && m[id].output.key.Some? && m[id].output.key.value + id.hex == x;
        assert id in s && s[id] == m[id];
      } else {
        var id :| id in rows && rows[id].output.key.Some? && rows[id].output.key.value + id.hex == x;
        assert id in s && s[id] == rows[id];
      }
    }
    forall x | x in KeyStrings(s) ensures x in KeyStrings(m) + KeyStrings(rows) {
      var id :| id in s && s[id].output.key.Some? && s[id].output.key.value + id.hex == x;
      if id in rows { assert s[id] == rows[id]; } else { assert s[id] == m[id]; }
    }
  }

  lemma StringsRemove(len: nat, m: map<Id, DbOutput>, out: set<Id>)
    requires PlainRows(len, m)
    ensures KeyStrings(m - out) == KeyStrings(m) - KeyStrings(Restrict(m, out))
  {
    var gone := Restrict(m, out);
    var left := m - out;
    StringsAdd(left, gone);
    assert left + gone == m;
    forall x | x in KeyStrings(left) && x in KeyStrings(gone) ensures false {
      var i :| i in left && left[i].output.key.Some? && left[i].output.key.value + i.hex == x;
      var j :| j in gone && gone[j].output.key.Some? && gone[j].output.key.value + j.hex == x;
      assert PlainOutput(len, m[i].output) && PlainOutput(len, m[j].output);
      SameString(len, m[i].output, i, m[j].output, j);
    }
  }

  lemma StringsSwap(len: nat, m: map<Id, DbOutput>, out: set<Id>, rows: map<Id, DbOutput>)
    requires PlainRows(len, m) && (m.Keys - out) !! rows.Keys
    ensures KeyStrings(Swap(m, out, rows)) == (KeyStrings(m) - KeyStrings(Restrict(m, out))) + KeyStrings(rows)
  {
    hide KeyStrings;
    StringsRemove(len, m, out);
    StringsAdd(m - out, rows);
  }

  lemma RowsPlain(h: Hashes, len: nat, tx: Tx)
    requires PlainTx(len, tx)
    ensures PlainRows(len, OutputRows(h, tx.outputs, TxId(h, tx)))
  {
    hide OutputRows, TxId;
    var rows := OutputRows(h, tx.outputs, TxId(h, tx));
    forall id | id in rows ensures PlainOutput(len, rows[id].output) {
      var i :| 0 <= i < |tx.outputs| && tx.outputs[i] == rows[id].output;
    }
  }

  // ---- confirming ----

  lemma ConfirmExact(h: Hashes, len: nat, t: State, tx: Tx, block: Id, coinbase: bool)
    requires Coherent(h, t.core) && Fits(h, t.core, tx) && PlainTx(len, tx) && Exact(len, t)
    ensures Exact(len, ConfirmTx(h, t, tx, block, coinbase))
  {
    hide OutputRows, KeyStrings, TxId, InputRows, ToDbTx;
    var rows := OutputRows(h, tx.outputs, TxId(h, tx));
    var gone := Restrict(t.core.utxos, Spent(tx));
    RowsPlain(h, len, tx);
    StringsSwap(len, t.core.utxos, Spent(tx), rows);
    StringsAdd(t.core.stxos, gone);
  }

  lemma {:induction false} ConfirmTxsExact(h: Hashes, len: nat, t: State, txs: seq<Tx>, block: Id)
    requires Sound(h) && Coherent(h, t.core) && AllFit(h, t.core, txs) && AllApart(h, txs) && Exact(len, t)
    requires forall i :: 0 <= i < |txs| ==> PlainTx(len, txs[i])
    ensures Exact(len, ConfirmTxs(h, t, txs, block))
  {
    if txs != [] {
      hide Coherent, Fits, AllFit, AllApart, Exact, PlainTx, ConfirmTx, CoreTxs, Sound, ApartFrom;
      var n := |txs| - 1;
      NextFits(h, t.core, txs, block, n);
      ConfirmTxsExact(h, len, t, txs[..n], block);
      ConfirmTxsCore(h, t, txs[..n], block);
      ConfirmExact(h, len, ConfirmTxs(h, t, txs[..n], block), txs[n], block, false);
    }
  }

  lemma AcceptExact(h: Hashes, len: nat, t: State, b: Block, height: nat)
    requires Sound(h) && Coherent(h, t.core) && BlockFits(h, t.core, b) && PlainBlock(len, b) && Exact(len, t)
    ensures Exact(len, Accept(h, t, b, height))
  {
    hide Coherent, BlockRep, PlainTx, ConfirmTxs, BlockId, KeyStrings;
    var id := BlockId(h, b);
    StillFit(h, t.core, b);
    ConfirmExact(h, len, t, b.coinbase, id, true);
    ConfirmTxsExact(h, len, ConfirmTx(h, t, b.coinbase, id, true), b.txs, id);
  }

  // ---- undoing ----

  /** What the tables hold of a transaction of the tip: its outputs unspent, its inputs spent. */
  ghost predicate OnTop(h: Hashes, c: Core, tx: Tx) {
    var rows := OutputRows(h, tx.outputs, TxId(h, tx));
    && (forall id :: id in rows ==> id in c.utxos && c.utxos[id] == rows[id])
    && Spent(tx) <= c.stxos.Keys
    && Spent(tx) !! c.utxos.Keys
  }

  lemma UndoExact(h: Hashes, len: nat, t: State, tx: Tx)
    requires OnTop(h, t.core, tx) && Exact(len, t)
    ensures Exact(len, UndoTx(h, t, tx))
  {
    hide OutputRows, KeyStrings, TxId;
    var rows := OutputRows(h, tx.outputs, TxId(h, tx));
    var back := Restrict(t.core.stxos, Spent(tx));
    assert Restrict(t.core.utxos, Made(h, tx)) == rows;
    StringsSwap(len, t.core.utxos, Made(h, tx), back);
    StringsRemove(len, t.core.stxos, Spent(tx));
  }

  lemma ConfirmedOnTop(h: Hashes, c: Core, tx: Tx, block: Id, coinbase: bool)
    requires Fits(h, c, tx)
    ensures OnTop(h, Confirm(h, c, tx, block, coinbase), tx)
  {
    hide OutputRows, TxId, InputRows, ToDbTx;
  }

  lemma {:induction false} OnTopUnder(h: Hashes, c: Core, a: Tx, txs: seq<Tx>, block: Id)
    requires ApartFrom(h, a, txs) && OnTop(h, c, a)
    ensures OnTop(h, CoreTxs(h, c, txs, block), a)
  {
    if txs != [] {
      hide Apart, OnTop, Confirm;
      var n := |txs| - 1;
      OnTopUnder(h, c, a, txs[..n], block);
      OnTopStays(h, CoreTxs(h, c, txs[..n], block), a, txs[n], block);
    }
  }

  lemma OnTopStays(h: Hashes, c: Core, a: Tx, b: Tx, block: Id)
    requires Apart(h, a, b) && OnTop(h, c, a)
    ensures OnTop(h, Confirm(h, c, b, block, false), a)
  {
    hide OutputRows, TxId, InputRows, ToDbTx;
  }

  /** Undoing the transactions of the tip, front to back, keeps the indexes exact at every step. */
  lemma {:induction false} UndoTxsExact(h: Hashes, len: nat, t: State, c: Core, txs: seq<Tx>, k: nat, block: Id)
    requires Sound(h) && Coherent(h, c) && AllFit(h, c, txs) && AllApart(h, txs) && k <= |txs|
    requires t.core == CoreTxs(h, c, txs, block) && Exact(len, t)
    ensures Exact(len, UndoTxs(h, t, txs[..k]))
  {
    hide Coherent, Fits, Apart, Exact, UndoTx, CoreTxs, CoreUndos, OnTop, Confirm;
    if k > 0 {
      UndoTxsExact(h, len, t, c, txs, k - 1, block);
      assert txs[..k][..k - 1] == txs[..k - 1];
      UndoTxsCore(h, t, txs[..k - 1]);
      UndoAll(h, c, txs, k - 1, block);
      var rest := txs[k - 1..];
      CoreTxsFront(h, c, rest, block);
      ConfirmedOnTop(h, c, rest[0], block, false);
      OnTopUnder(h, Confirm(h, c, rest[0], block, false), rest[0], rest[1..], block);
      UndoExact(h, len, UndoTxs(h, t, txs[..k - 1]), txs[k - 1]);
    }
  }

  /** Taking the tip off keeps the indexes exact. */
  lemma TakeOffExact(h: Hashes, len: nat, t: State, c: Core, b: Block, height: nat)
    requires Sound(h) && Coherent(h, c) && BlockFits(h, c, b)
    requires t.core == CoreBlock(h, c, b) && Exact(len, t)
    ensures TakeOff(h, t, b, height).Some? ==> Exact(len, TakeOff(h, t, b, height).value)
  {
    hide Coherent, BlockRep, Fits, CoreTxs, UndoTxs, Confirm, OnTop, KeyStrings, Undo, UndoKeys;
    var id := BlockId(h, b);
    var d := Confirm(h, c, b.coinbase, id, true);
    StillFit(h, c, b);
    ConfirmedOnTop(h, c, b.coinbase, id, true);
    OnTopUnder(h, d, b.coinbase, b.txs, id);
    UndoExact(h, len, t, b.coinbase);
    UndoUnder(h, d, b.coinbase, b.txs, id);
    UndoConfirm(h, c, b.coinbase, id, true);
    var u := UndoTx(h, t, b.coinbase);
    assert u.core == CoreTxs(h, c, b.txs, id);
    UndoTxsExact(h, len, u, c, b.txs, |b.txs|, id);
    assert b.txs[..|b.txs|] == b.txs;
  }

  /** With exact indexes the reversal gives back the whole database, indexes included. */
  lemma ReverseExact(h: Hashes, len: nat, t: State, b: Block, height: nat)
    requires Sound(h) && Ready(h, t, b, height) && b.data.Null? && PlainBlock(len, b) && Exact(len, t)
    ensures Reverse(h, Accept(h, t, b, height)) == Some(Reversed(h, t, b, height))
  {
    hide Coherent, BlockFits, Accept, BlockId, BlockRecorded, TakeOff, KeyStrings, PlainRows, Reverse, PlainBlock;
    var b' := b.(height := height);
    SameBlock(h, t, b, height);
    PlainAnyHeight(len, b, height);
    var a := Accept(h, t, b', height);
    AcceptExact(h, len, t, b', height);
    ReverseNull(h, t, b', height);
    ReverseRebuilds(h, t, b', height);
    assert b'.(height := height, data := Null) == b';
    AcceptBare(h, t, b', height);
    assert a.core == Bare(a).core;
    TakeOffExact(h, len, a, t.core, b', height);
    SameCoreSameKeys(len, Reverse(h, a).value, Reversed(h, t, b', height));
  }

  lemma PlainAnyHeight(len: nat, b: Block, height: nat)
    ensures PlainBlock(len, b.(height := height)) == PlainBlock(len, b)
  {
  }

  lemma SameCoreSameKeys(len: nat, t: State, u: State)
    requires Bare(t) == Bare(u) && Exact(len, t) && Exact(len, u)
    ensures t == u
  {
    hide KeyStrings, PlainRows;
    assert t.core == Bare(t).core && u.core == Bare(u).core;
    assert t.keys == u.keys;
    assert t == Bare(t).(keys := t.keys) && u == Bare(u).(keys := u.keys);
  }

  // ---- queries ----

  /** `getUnspentOutputs` and `getSpentOutputs`: scan an index for the keys starting with the
      public key and read the ids back from what follows it. */
  function ScanPrefix(index: set<string>, key: string): set<Id> {
    set s | s in index && key <= s :: Id(s[|key|..])
  }

  /** The scan returns exactly the outputs paid to that key. */
  lemma ScanIsFilter(len: nat, m: map<Id, DbOutput>, key: string)
    requires PlainRows(len, m) && |key| == len
    ensures ScanPrefix(KeyStrings(m), key) == set id | id in m && m[id].output.key == Some(key)
  {
    var want := set id | id in m && m[id].output.key == Some(key);
    forall id | id in want ensures id in ScanPrefix(KeyStrings(m), key) {
      var s := m[id].output.key.value + id.hex;
      assert s in KeyStrings(m) && key <= s && s[|key|..] == id.hex;
    }
    forall id | id in ScanPrefix(KeyStrings(m), key) ensures id in want {
      var s :| s in KeyStrings(m) && key <= s && Id(s[|key|..]) == id;
      var j :| j in m && m[j].output.key.Some? && m[j].output.key.value + j.hex == s;
      assert PlainOutput(len, m[j].output);
      assert s[..len] == m[j].output.key.value && s[len..] == j.hex;
      assert s[..len] == key;
    }
  }
}
