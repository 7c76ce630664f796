/** Whole blocks: accepting one, rebuilding one from its stored pieces, reversing the tip. */
module Blocks {
  import opened Types
  import opened Maps
  import opened Ledger

  /** The two public-key indexes, as the strings stored in index 0 of `utxos` and `stxos`. */
  datatype Keys = Keys(utxo: set<string>, stxo: set<string>)

  /** The database: the main chain (tip, blocks, height index), the transaction tables it has
      produced, side-chain blocks and the public-key indexes. */
  datatype State = State(tip: Option<DbBlock>,
                         blocks: map<Id, DbBlock>,
                         heights: map<nat, Id>,
                         core: Core,
                         candidates: map<Id, Block>,
                         keys: Keys)

  const EmptyState := State(None, map[], map[], Empty, map[], Keys({}, {}))

  function KeyStrings(m: map<Id, DbOutput>): set<string> {
    set id | id in m && m[id].output.key.Some? :: m[id].output.key.value + id.hex
  }

  function ConfirmKeys(h: Hashes, t: State, tx: Tx): Keys {
    var gone := KeyStrings(Restrict(t.core.utxos, Spent(tx)));
    var made := KeyStrings(OutputRows(h, tx.outputs, TxId(h, tx)));
    Keys((t.keys.utxo - gone) + made, t.keys.stxo + gone)
  }

  function UndoKeys(h: Hashes, t: State, tx: Tx): Keys {
    var back := KeyStrings(Restrict(t.core.stxos, Spent(tx)));
    var made := KeyStrings(OutputRows(h, tx.outputs, TxId(h, tx)));
    Keys((t.keys.utxo - made) + back, t.keys.stxo - back)
  }

  function ConfirmTx(h: Hashes, t: State, tx: Tx, block: Id, coinbase: bool): State {
    t.(core := Confirm(h, t.core, tx, block, coinbase), keys := ConfirmKeys(h, t, tx))
  }

  function UndoTx(h: Hashes, t: State, tx: Tx): State {
    t.(core := Undo(h, t.core, tx), keys := UndoKeys(h, t, tx))
  }

  function ConfirmTxs(h: Hashes, t: State, txs: seq<Tx>, block: Id): State {
    if txs == [] then t else
      ConfirmTx(h, ConfirmTxs(h, t, txs[..|txs| - 1], block), txs[|txs| - 1], block, false)
  }

  function UndoTxs(h: Hashes, t: State, txs: seq<Tx>): State {
    if txs == [] then t else UndoTx(h, UndoTxs(h, t, txs[..|txs| - 1]), txs[|txs| - 1])
  }

  /** Confirm the coinbase, then the other transactions, and make the block the tip. */
  function Accept(h: Hashes, t: State, b: Block, height: nat): State {
    var id := BlockId(h, b);
    var u := ConfirmTxs(h, ConfirmTx(h, t, b.coinbase, id, true), b.txs, id);
    var row := ToDbBlock(h, b, height);
    u.(tip := Some(row), heights := u.heights[height := id], blocks := u.blocks[id := row],
       candidates := u.candidates - {id})
  }

  // ---- rebuilding ----

  function FindOutput(c: Core, id: Id): Option<Output> {
    if id in c.utxos then Some(c.utxos[id].output)
    else if id in c.stxos then Some(c.stxos[id].output)
    else None
  }

  /** A missing input row parses as the zero id with null data. */
  function FindInput(c: Core, id: Id): Input {
    if id in c.inputs then c.inputs[id] else Input(Id("0"), "null\n")
  }

  /** `getTransaction`: None is NotFoundException. */
  function RebuildTx(c: Core, id: Id): Option<Tx> {
    if id !in c.txs then None else
      var row := c.txs[id];
      if exists i :: 0 <= i < |row.outputs| && FindOutput(c, row.outputs[i]).None? then None else
        Some(Tx(seq(|row.inputs|, i requires 0 <= i < |row.inputs| => FindInput(c, row.inputs[i])),
                seq(|row.outputs|, i requires 0 <= i < |row.outputs| => FindOutput(c, row.outputs[i]).value),
                row.timestamp))
  }

  /** `buildBlock`: the data field is not passed on, and a block whose transactions are gone
      comes from `candidates`. */
  function RebuildBlock(h: Hashes, t: State, row: DbBlock): Option<Block> {
    if RebuildTx(t.core, row.coinbase).None?
       || (exists i :: 0 <= i < |row.txs| && RebuildTx(t.core, row.txs[i]).None?) then
      var id := DbBlockId(h, row);
      if id in t.candidates then Some(t.candidates[id]) else None
    else
      Some(Block(seq(|row.txs|, i requires 0 <= i < |row.txs| => RebuildTx(t.core, row.txs[i]).value),
                 RebuildTx(t.core, row.coinbase).value, row.prev, row.timestamp,
                 row.consensus, row.height, Null))
  }

  /** `getBlockDB`: the main chain first, then the candidates. */
  function FindBlock(h: Hashes, t: State, id: Id): Option<DbBlock> {
    if id in t.blocks then Some(t.blocks[id])
    else if id in t.candidates then Some(ToDbBlock(h, t.candidates[id], t.candidates[id].height))
    else None
  }

  /** Take the rebuilt tip `b`, stored at `height`, off the main chain. None stands for the
      exceptions `reverseBlock` can throw on the way. */
  function TakeOff(h: Hashes, t: State, b: Block, height: nat): Option<State> {
    if exists i :: 0 <= i < |b.txs| && !(Spent(b.txs[i]) <= t.core.stxos.Keys) then None else
      var id := BlockId(h, b);
      var u := UndoTxs(h, UndoTx(h, t, b.coinbase), b.txs);
      var v := u.(heights := u.heights - {height}, blocks := u.blocks - {id});
      match FindBlock(h, v, b.prev)
      case None => None
      case Some(prev) => Some(v.(tip := Some(prev), candidates := v.candidates[id := b]))
  }

  /** `reverseBlock`: rebuild the tip, then take it off. */
  function Reverse(h: Hashes, t: State): Option<State> {
    if t.tip.None? then None else
      match RebuildBlock(h, t, t.tip.value)
      case None => None
      case Some(b) => TakeOff(h, t, b, t.tip.value.height)
  }

  // ---- independence inside a block ----

  lemma DistinctParts<T>(a: seq<T>, b: seq<T>)
    requires Distinct(a + b)
    ensures Distinct(a) && Distinct(b) && ToSet(a) !! ToSet(b)
  {
    var c := a + b;
    assert forall i :: 0 <= i < |a| ==> c[i] == a[i];
    assert forall i :: 0 <= i < |b| ==> c[|a| + i] == b[i];
    forall x | x in a ensures x !in b {
      var i :| 0 <= i < |a| && a[i] == x;
      assert forall j :: 0 <= j < |b| ==> c[i] != b[j];
    }
  }

  lemma ClaimSets(h: Hashes, tx: Tx)
    ensures ToSet(Claims(h, tx)) == Spent(tx) + Made(h, tx)
  {
  }

  ghost predicate AllApart(h: Hashes, txs: seq<Tx>) {
    forall i, j :: 0 <= i < j < |txs| ==> Apart(h, txs[i], txs[j])
  }

  ghost predicate ApartFrom(h: Hashes, a: Tx, txs: seq<Tx>) {
    forall i :: 0 <= i < |txs| ==> Apart(h, a, txs[i])
  }

  lemma ClaimsOf(h: Hashes, txs: seq<Tx>, i: nat)
    requires i < |txs|
    ensures Spent(txs[i]) + Made(h, txs[i]) <= ToSet(AllClaims(h, txs))
    ensures Uses(h, txs[i]) <= ToSet(AllInputIds(h, txs))
  {
    ClaimSets(h, txs[|txs| - 1]);
    if i < |txs| - 1 {
      ClaimsOf(h, txs[..|txs| - 1], i);
    }
  }

  lemma {:induction false} TxsApart(h: Hashes, txs: seq<Tx>)
    requires Distinct(AllClaims(h, txs)) && Distinct(AllInputIds(h, txs)) && Distinct(TxIds(h, txs))
    ensures AllApart(h, txs)
  {
    if txs != [] {
      var n := |txs| - 1;
      DistinctParts(AllClaims(h, txs[..n]), Claims(h, txs[n]));
      DistinctParts(AllInputIds(h, txs[..n]), InputIds(h, txs[n].inputs));
      assert TxIds(h, txs) == TxIds(h, txs[..n]) + [TxId(h, txs[n])];
      DistinctParts(TxIds(h, txs[..n]), [TxId(h, txs[n])]);
      TxsApart(h, txs[..n]);
      ClaimSets(h, txs[n]);
      forall i | 0 <= i < n ensures Apart(h, txs[i], txs[n]) {
        ClaimsOf(h, txs[..n], i);
        assert TxIds(h, txs)[i] != TxIds(h, txs)[n];
      }
    }
  }

  /** The counting tests of `block::checkRep` leave no conflict and no chaining in a block. */
  lemma BlockApart(h: Hashes, b: Block)
    requires Sound(h) && BlockRep(h, b)
    ensures AllApart(h, b.txs) && ApartFrom(h, b.coinbase, b.txs)
  {
    DistinctParts(AllClaims(h, b.txs), OutputIds(h, b.coinbase.outputs));
    TxsApart(h, b.txs);
    forall i | 0 <= i < |b.txs| ensures Apart(h, b.coinbase, b.txs[i]) {
      ClaimsOf(h, b.txs, i);
      assert TxRep(h, b.txs[i], false);
      assert InputIds(h, b.coinbase.inputs) == [];
      assert InputIds(h, b.txs[i].inputs) != [];
    }
  }
}
