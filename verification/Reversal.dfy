/** `reverseBlock` exactly undoes the confirming path of `submitBlock`. */
module Reversal {
  import opened Types
  import opened Ledger
  import opened Blocks

  // ---- one transaction after another ----

  ghost predicate AllFit(h: Hashes, c: Core, txs: seq<Tx>) {
    forall i :: 0 <= i < |txs| ==> Fits(h, c, txs[i])
  }

  /** The core tables evolve without looking at the candidates or the key indexes. */
  function CoreTxs(h: Hashes, c: Core, txs: seq<Tx>, block: Id): Core {
    if txs == [] then c else Confirm(h, CoreTxs(h, c, txs[..|txs| - 1], block), txs[|txs| - 1], block, false)
  }

  lemma {:induction false} ConfirmTxsCore(h: Hashes, t: State, txs: seq<Tx>, block: Id)
    ensures ConfirmTxs(h, t, txs, block)
         == t.(core := CoreTxs(h, t.core, txs, block), keys := ConfirmTxs(h, t, txs, block).keys)
  {
    if txs != [] { ConfirmTxsCore(h, t, txs[..|txs| - 1], block); }
  }

  function CoreUndos(h: Hashes, c: Core, txs: seq<Tx>): Core {
    if txs == [] then c else Undo(h, CoreUndos(h, c, txs[..|txs| - 1]), txs[|txs| - 1])
  }

  lemma {:induction false} UndoTxsCore(h: Hashes, t: State, txs: seq<Tx>)
    ensures UndoTxs(h, t, txs) == t.(core := CoreUndos(h, t.core, txs), keys := UndoTxs(h, t, txs).keys)
  {
    if txs != [] { UndoTxsCore(h, t, txs[..|txs| - 1]); }
  }

  /** A transaction confirmed below others can be undone as if they were not there. */
  lemma {:induction false} UndoUnder(h: Hashes, c: Core, a: Tx, txs: seq<Tx>, block: Id)
    requires ApartFrom(h, a, txs)
    ensures Undo(h, CoreTxs(h, c, txs, block), a) == CoreTxs(h, Undo(h, c, a), txs, block)
  {
    if txs != [] {
      var n := |txs| - 1;
      UndoUnder(h, c, a, txs[..n], block);
      UndoCommutes(h, CoreTxs(h, c, txs[..n], block), a, txs[n], block, false);
    }
  }

  lemma {:induction false} CoreTxsFront(h: Hashes, c: Core, txs: seq<Tx>, block: Id)
    requires txs != []
    ensures CoreTxs(h, c, txs, block) == CoreTxs(h, Confirm(h, c, txs[0], block, false), txs[1..], block)
  {
    var n := |txs| - 1;
    if n > 0 {
      CoreTxsFront(h, c, txs[..n], block);
      assert txs[..n][1..] == txs[1..][..n - 1];
    }
  }

  lemma UndoFirst(h: Hashes, c: Core, txs: seq<Tx>, block: Id)
    requires Sound(h) && Coherent(h, c) && txs != [] && Fits(h, c, txs[0]) && AllApart(h, txs)
    ensures Undo(h, CoreTxs(h, c, txs, block), txs[0]) == CoreTxs(h, c, txs[1..], block)
  {
    CoreTxsFront(h, c, txs, block);
    UndoUnder(h, Confirm(h, c, txs[0], block, false), txs[0], txs[1..], block);
    UndoConfirm(h, c, txs[0], block, false);
  }

  /** Undoing front to back what was confirmed front to back. */
  lemma {:induction false} UndoAll(h: Hashes, c: Core, txs: seq<Tx>, k: nat, block: Id)
    requires Sound(h) && Coherent(h, c) && AllFit(h, c, txs) && AllApart(h, txs) && k <= |txs|
    ensures CoreUndos(h, CoreTxs(h, c, txs, block), txs[..k]) == CoreTxs(h, c, txs[k..], block)
  {
    hide Coherent, Fits, Apart, Undo, Confirm;
    if k == 0 {
      assert txs[..0] == [] && txs[0..] == txs;
    } else {
      UndoAll(h, c, txs, k - 1, block);
      assert txs[..k][..k - 1] == txs[..k - 1];
      UndoFirst(h, c, txs[k - 1..], block);
      assert txs[k - 1..][1..] == txs[k..];
    }
  }

  // ---- stored pieces ----

  /** Every piece of `tx` can be found again in the tables. */
  ghost predicate Recorded(h: Hashes, c: Core, tx: Tx, block: Id, coinbase: bool) {
    && TxId(h, tx) in c.txs
    && c.txs[TxId(h, tx)] == ToDbTx(h, tx, block, coinbase)
    && (forall i :: 0 <= i < |tx.outputs| ==> FindOutput(c, h.output(tx.outputs[i])) == Some(tx.outputs[i]))
    && (forall i :: 0 <= i < |tx.inputs| ==> h.input(tx.inputs[i]) in c.inputs)
    && (forall i :: 0 <= i < |tx.inputs| ==> FindInput(c, h.input(tx.inputs[i])) == tx.inputs[i])
  }

  lemma RebuildRecorded(h: Hashes, c: Core, tx: Tx, block: Id, coinbase: bool)
    requires Recorded(h, c, tx, block, coinbase)
    ensures RebuildTx(c, TxId(h, tx)) == Some(tx)
  {
    var r := RebuildTx(c, TxId(h, tx));
    var row := c.txs[TxId(h, tx)];
    forall i | 0 <= i < |row.outputs| ensures FindOutput(c, row.outputs[i]) == Some(tx.outputs[i]) {
      assert row.outputs[i] == h.output(tx.outputs[i]);
    }
    assert r.Some?;
    assert r.value.outputs == tx.outputs;
    assert r.value.inputs == tx.inputs;
  }

  lemma OutputRowAt(h: Hashes, outs: seq<Output>, tx: Id, i: nat)
    requires i < |outs| && Distinct(OutputIds(h, outs))
    ensures h.output(outs[i]) in OutputRows(h, outs, tx)
    ensures OutputRows(h, outs, tx)[h.output(outs[i])].output == outs[i]
  {
    var rows := OutputRows(h, outs, tx);
    var id := OutputIds(h, outs)[i];
    assert id in rows;
    var j :| 0 <= j < |outs| && outs[j] == rows[id].output;
    assert OutputIds(h, outs)[j] == id;
  }

  lemma InputRowAt(h: Hashes, ins: seq<Input>, i: nat)
    requires Sound(h) && i < |ins| && Distinct(SpentIds(ins))
    ensures h.input(ins[i]) in InputRows(h, ins)
    ensures InputRows(h, ins)[h.input(ins[i])] == ins[i]
  {
    hide InputRows, Sound;
    var rows := InputRows(h, ins);
    var id := InputIds(h, ins)[i];
    assert id in rows;
    var j :| 0 <= j < |ins| && ins[j] == rows[id];
    SameSpent(h, ins[i], ins[j]);
    assert SpentIds(ins)[i] == SpentIds(ins)[j];
  }

  lemma SameSpent(h: Hashes, i: Input, j: Input)
    requires Sound(h) && h.input(i) == h.input(j)
    ensures i.outputId == j.outputId
  {
  }

  lemma ConfirmRecords(h: Hashes, c: Core, tx: Tx, block: Id, coinbase: bool)
    requires Sound(h) && TxRep(h, tx, coinbase)
    ensures Recorded(h, Confirm(h, c, tx, block, coinbase), tx, block, coinbase)
  {
    hide OutputRows, InputRows, TxId, ToDbTx, OutputTotal;
    DistinctParts(SpentIds(tx.inputs), OutputIds(h, tx.outputs));
    forall i | 0 <= i < |tx.outputs| {
      OutputRowAt(h, tx.outputs, TxId(h, tx), i);
    }
    forall i | 0 <= i < |tx.inputs| {
      InputRowAt(h, tx.inputs, i);
    }
  }

  lemma FoundKept(h: Hashes, c: Core, id: Id, tx: Tx, block: Id, coinbase: bool)
    requires Coherent(h, c) && Fits(h, c, tx) && FindOutput(c, id).Some?
    ensures FindOutput(Confirm(h, c, tx, block, coinbase), id) == FindOutput(c, id)
  {
  }

  /** Later confirmations never lose or change a recorded piece. */
  lemma RecordedKept(h: Hashes, c: Core, a: Tx, block: Id, coinbase: bool, tx: Tx, block': Id, coinbase': bool)
    requires Sound(h) && Coherent(h, c) && Fits(h, c, tx) && Recorded(h, c, a, block, coinbase)
    ensures Recorded(h, Confirm(h, c, tx, block', coinbase'), a, block, coinbase)
  {
    FreshInputs(h, c, tx);
    var d := Confirm(h, c, tx, block', coinbase');
    forall i | 0 <= i < |a.outputs| ensures FindOutput(d, h.output(a.outputs[i])) == Some(a.outputs[i]) {
      FoundKept(h, c, h.output(a.outputs[i]), tx, block', coinbase');
    }
  }

  lemma {:induction false} CoreTxsKeep(h: Hashes, c: Core, txs: seq<Tx>, block: Id)
    requires Sound(h) && Coherent(h, c) && AllFit(h, c, txs) && AllApart(h, txs)
    ensures Coherent(h, CoreTxs(h, c, txs, block))
    ensures forall a: Tx :: ApartFrom(h, a, txs) && Fits(h, c, a) ==> Fits(h, CoreTxs(h, c, txs, block), a)
    ensures forall a: Tx, b, k :: Recorded(h, c, a, b, k) ==> Recorded(h, CoreTxs(h, c, txs, block), a, b, k)
  {
    if txs != [] {
      var n := |txs| - 1;
      var d := CoreTxs(h, c, txs[..n], block);
      CoreTxsKeep(h, c, txs[..n], block);
      assert ApartFrom(h, txs[n], txs[..n]) by { ApartSymmetric(h, txs); }
      ConfirmCoherent(h, d, txs[n], block, false);
      forall a: Tx | ApartFrom(h, a, txs) && Fits(h, c, a) ensures Fits(h, CoreTxs(h, c, txs, block), a) {
        assert ApartFrom(h, a, txs[..n]);
        assert Apart(h, txs[n], a);
        FitsAfter(h, d, txs[n], a, block, false);
      }
      forall a: Tx, b, k | Recorded(h, c, a, b, k) ensures Recorded(h, CoreTxs(h, c, txs, block), a, b, k) {
        RecordedKept(h, d, a, b, k, txs[n], block, false);
      }
    }
  }

  lemma ApartSymmetric(h: Hashes, txs: seq<Tx>)
    requires AllApart(h, txs)
    ensures forall i, j :: 0 <= i < |txs| && 0 <= j < |txs| && i != j ==> Apart(h, txs[i], txs[j])
  {
    forall i, j | 0 <= i < |txs| && 0 <= j < |txs| && i != j ensures Apart(h, txs[i], txs[j]) {
      if j < i { assert Apart(h, txs[j], txs[i]); }
    }
  }

  /** The next transaction still fits once those before it are confirmed. */
  lemma NextFits(h: Hashes, c: Core, txs: seq<Tx>, block: Id, i: nat)
    requires Sound(h) && Coherent(h, c) && AllFit(h, c, txs) && AllApart(h, txs) && i < |txs|
    ensures AllFit(h, c, txs[..i]) && AllApart(h, txs[..i]) && ApartFrom(h, txs[i], txs[..i])
    ensures Coherent(h, CoreTxs(h, c, txs[..i], block)) && Fits(h, CoreTxs(h, c, txs[..i], block), txs[i])
  {
    hide Coherent, Fits, Apart, Recorded, CoreTxs, Sound;
    ApartSymmetric(h, txs);
    assert ApartFrom(h, txs[i], txs[..i]);
    CoreTxsKeep(h, c, txs[..i], block);
  }

  // ---- blocks ----

  /** The transactions of `b` can be confirmed on `c`: what `submitBlock` has checked. */
  ghost predicate BlockFits(h: Hashes, c: Core, b: Block) {
    && BlockRep(h, b)
    && Fits(h, c, b.coinbase)
    && AllFit(h, c, b.txs)
  }

  ghost predicate BlockRecorded(h: Hashes, c: Core, b: Block) {
    && Recorded(h, c, b.coinbase, BlockId(h, b), true)
    && (forall i :: 0 <= i < |b.txs| ==> Recorded(h, c, b.txs[i], BlockId(h, b), false))
  }

  lemma {:induction false} CoreTxsRecord(h: Hashes, c: Core, txs: seq<Tx>, block: Id)
    requires Sound(h) && Coherent(h, c) && AllFit(h, c, txs) && AllApart(h, txs)
    requires forall i :: 0 <= i < |txs| ==> TxRep(h, txs[i], false)
    ensures forall i :: 0 <= i < |txs| ==> Recorded(h, CoreTxs(h, c, txs, block), txs[i], block, false)
  {
    if txs != [] {
      var n := |txs| - 1;
      var d := CoreTxs(h, c, txs[..n], block);
      CoreTxsRecord(h, c, txs[..n], block);
      CoreTxsKeep(h, c, txs[..n], block);
      ApartSymmetric(h, txs);
      assert ApartFrom(h, txs[n], txs[..n]);
      forall i | 0 <= i < |txs| ensures Recorded(h, CoreTxs(h, c, txs, block), txs[i], block, false) {
        if i == n {
          ConfirmRecords(h, d, txs[n], block, false);
        } else {
          assert Recorded(h, d, txs[..n][i], block, false);
          RecordedKept(h, d, txs[i], block, false, txs[n], block, false);
        }
      }
    }
  }

  /** The tables after confirming the block's transactions, before it is made the tip. */
  function CoreBlock(h: Hashes, c: Core, b: Block): Core {
    CoreTxs(h, Confirm(h, c, b.coinbase, BlockId(h, b), true), b.txs, BlockId(h, b))
  }

  lemma StillFit(h: Hashes, c: Core, b: Block)
    requires Sound(h) && Coherent(h, c) && BlockFits(h, c, b)
    ensures Coherent(h, Confirm(h, c, b.coinbase, BlockId(h, b), true))
    ensures AllFit(h, Confirm(h, c, b.coinbase, BlockId(h, b), true), b.txs)
    ensures AllApart(h, b.txs) && ApartFrom(h, b.coinbase, b.txs)
  {
    BlockApart(h, b);
    ConfirmCoherent(h, c, b.coinbase, BlockId(h, b), true);
    forall i | 0 <= i < |b.txs| ensures Fits(h, Confirm(h, c, b.coinbase, BlockId(h, b), true), b.txs[i]) {
      FitsAfter(h, c, b.coinbase, b.txs[i], BlockId(h, b), true);
    }
  }

  lemma CoreBlockRecords(h: Hashes, c: Core, b: Block)
    requires Sound(h) && Coherent(h, c) && BlockFits(h, c, b)
    ensures Coherent(h, CoreBlock(h, c, b)) && BlockRecorded(h, CoreBlock(h, c, b), b)
  {
    var d := Confirm(h, c, b.coinbase, BlockId(h, b), true);
    StillFit(h, c, b);
    ConfirmRecords(h, c, b.coinbase, BlockId(h, b), true);
    CoreTxsKeep(h, d, b.txs, BlockId(h, b));
    CoreTxsRecord(h, d, b.txs, BlockId(h, b));
  }

  lemma CoreBlockUndo(h: Hashes, c: Core, b: Block)
    requires Sound(h) && Coherent(h, c) && BlockFits(h, c, b)
    ensures CoreUndos(h, Undo(h, CoreBlock(h, c, b), b.coinbase), b.txs) == c
  {
    hide Coherent, Fits, Apart, Undo, Confirm, BlockRep, BlockId;
    var id := BlockId(h, b);
    StillFit(h, c, b);
    UndoUnder(h, Confirm(h, c, b.coinbase, id, true), b.coinbase, b.txs, id);
    UndoConfirm(h, c, b.coinbase, id, true);
    UndoAll(h, c, b.txs, |b.txs|, id);
    assert b.txs[..|b.txs|] == b.txs;
  }

  /** Everything but the key indexes. */
  function Bare(t: State): State {
    t.(keys := Keys({}, {}))
  }

  lemma AcceptBare(h: Hashes, t: State, b: Block, height: nat)
    ensures var id := BlockId(h, b);
            Bare(Accept(h, t, b, height)) ==
              Bare(t).(tip := Some(ToDbBlock(h, b, height)), core := CoreBlock(h, t.core, b),
                       heights := t.heights[height := id], blocks := t.blocks[id := ToDbBlock(h, b, height)],
                       candidates := t.candidates - {id})
  {
    var id := BlockId(h, b);
    ConfirmTxsCore(h, ConfirmTx(h, t, b.coinbase, id, true), b.txs, id);
  }

  /** A block just accepted is rebuilt from its rows, apart from its data field. */
  lemma RebuildAccepted(h: Hashes, t: State, b: Block, height: nat)
    requires BlockRecorded(h, t.core, b)
    ensures RebuildBlock(h, t, ToDbBlock(h, b, height)) == Some(b.(height := height, data := Null))
  {
    RebuildRecorded(h, t.core, b.coinbase, BlockId(h, b), true);
    forall i | 0 <= i < |b.txs| ensures RebuildTx(t.core, TxId(h, b.txs[i])) == Some(b.txs[i]) {
      RebuildRecorded(h, t.core, b.txs[i], BlockId(h, b), false);
    }
    var r := RebuildBlock(h, t, ToDbBlock(h, b, height));
    assert r.value.txs == b.txs;
  }

  lemma RecordedSpent(h: Hashes, c: Core, tx: Tx, block: Id, coinbase: bool)
    requires Coherent(h, c) && Recorded(h, c, tx, block, coinbase)
    ensures Spent(tx) <= c.stxos.Keys
  {
    forall id | id in Spent(tx) ensures id in c.stxos {
      var i :| 0 <= i < |tx.inputs| && SpentIds(tx.inputs)[i] == id;
      assert h.input(tx.inputs[i]) in c.inputs;
    }
  }

  /** `b` is about to become the tip of `t`, one above the current tip. */
  ghost predicate Ready(h: Hashes, t: State, b: Block, height: nat) {
    && Coherent(h, t.core)
    && BlockFits(h, t.core, b)
    && BlockId(h, b) !in t.blocks
    && height !in t.heights
    && b.prev in t.blocks
    && t.tip == Some(t.blocks[b.prev])
  }

  /** What reversing the tip must give back: every table as it was before the block was accepted,
      and the block itself, at its height, among the candidates. */
  function Reversed(h: Hashes, t: State, b: Block, height: nat): State {
    t.(candidates := t.candidates[BlockId(h, b) := b.(height := height)])
  }

  lemma TakeOffBare(h: Hashes, t: State, b: Block, height: nat)
    requires forall i :: 0 <= i < |b.txs| ==> Spent(b.txs[i]) <= t.core.stxos.Keys
    requires b.prev in t.blocks && b.prev != BlockId(h, b)
    ensures var r := TakeOff(h, t, b, height);
            r.Some? && Bare(r.value) ==
              Bare(t).(tip := Some(t.blocks[b.prev]), blocks := t.blocks - {BlockId(h, b)},
                       heights := t.heights - {height},
                       core := CoreUndos(h, Undo(h, t.core, b.coinbase), b.txs),
                       candidates := t.candidates[BlockId(h, b) := b])
  {
    UndoTxsCore(h, UndoTx(h, t, b.coinbase), b.txs);
  }

  lemma ReverseRebuilds(h: Hashes, t: State, b: Block, height: nat)
    requires Sound(h) && Ready(h, t, b, height)
    ensures var a := Accept(h, t, b, height);
            Reverse(h, a) == TakeOff(h, a, b.(height := height, data := Null), height)
    ensures Coherent(h, Accept(h, t, b, height).core) && BlockRecorded(h, Accept(h, t, b, height).core, b)
  {
    hide Coherent, CoreBlock, Accept, TakeOff, BlockId, BlockRep, BlockRecorded;
    var a := Accept(h, t, b, height);
    AcceptBare(h, t, b, height);
    assert a.core == CoreBlock(h, t.core, b) by { assert Bare(a).core == CoreBlock(h, t.core, b); }
    CoreBlockRecords(h, t.core, b);
    RebuildAccepted(h, a, b, height);
  }

  lemma TakeOffAccepted(h: Hashes, t: State, a: State, b: Block, height: nat)
    requires forall i :: 0 <= i < |b.txs| ==> Spent(b.txs[i]) <= a.core.stxos.Keys
    requires CoreUndos(h, Undo(h, a.core, b.coinbase), b.txs) == t.core
    requires BlockId(h, b) !in t.blocks && height !in t.heights
    requires b.prev in t.blocks && t.tip == Some(t.blocks[b.prev])
    requires a.blocks == t.blocks[BlockId(h, b) := ToDbBlock(h, b, height)]
    requires a.heights == t.heights[height := BlockId(h, b)]
    requires a.candidates == t.candidates - {BlockId(h, b)}
    ensures var r := TakeOff(h, a, b, height);
            r.Some? && Bare(r.value) == Bare(t.(candidates := t.candidates[BlockId(h, b) := b]))
  {
    hide UndoTxs, UndoTx, CoreUndos, Undo, Spent, TakeOff;
    TakeOffBare(h, a, b, height);
    assert a.heights - {height} == t.heights;
    assert a.blocks - {BlockId(h, b)} == t.blocks;
    assert a.candidates[BlockId(h, b) := b] == t.candidates[BlockId(h, b) := b];
  }

  lemma AcceptedUndoes(h: Hashes, t: State, a: State, b: Block)
    requires Sound(h) && Coherent(h, t.core) && BlockFits(h, t.core, b)
    requires a.core == CoreBlock(h, t.core, b)
    ensures forall i :: 0 <= i < |b.txs| ==> Spent(b.txs[i]) <= a.core.stxos.Keys
    ensures CoreUndos(h, Undo(h, a.core, b.coinbase), b.txs) == t.core
  {
    CoreBlockRecords(h, t.core, b);
    forall i | 0 <= i < |b.txs| ensures Spent(b.txs[i]) <= a.core.stxos.Keys {
      RecordedSpent(h, a.core, b.txs[i], BlockId(h, b), false);
    }
    CoreBlockUndo(h, t.core, b);
  }

  /** With no data to lose, reversing the new tip restores the database. */
  lemma ReverseNull(h: Hashes, t: State, b: Block, height: nat)
    requires Sound(h) && Ready(h, t, b, height) && b.data.Null?
    ensures var r := Reverse(h, Accept(h, t, b, height));
            r.Some? && Bare(r.value) == Bare(Reversed(h, t, b, height))
  {
    var b' := b.(height := height);
    SameBlock(h, t, b, height);
    ReverseRebuilds(h, t, b', height);
    AcceptBare(h, t, b', height);
    assert Accept(h, t, b', height).core == CoreBlock(h, t.core, b') by {
      assert Bare(Accept(h, t, b', height)).core == CoreBlock(h, t.core, b');
    }
    AcceptedUndoes(h, t, Accept(h, t, b', height), b');
    TakeOffAccepted(h, t, Accept(h, t, b', height), b', height);
  }

  /** The height a block claims does not matter, only the one it is given. */
  lemma SameBlock(h: Hashes, t: State, b: Block, height: nat)
    ensures var b' := b.(height := height);
            BlockId(h, b') == BlockId(h, b) && Accept(h, t, b', height) == Accept(h, t, b, height)
    ensures Ready(h, t, b, height) ==> Ready(h, t, b.(height := height), height)
  {
  }

  /** The tip as it is rebuilt: without its data. */
  function Stripped(b: Block, height: nat): Block {
    b.(height := height, data := Null)
  }

  /** What reversing a tip with data leaves behind: its own row stays in `blocks`, and the copy
      without the data is a candidate under the copy's id. */
  function Misfiled(h: Hashes, t: State, b: Block, height: nat): State {
    var id, c := BlockId(h, b), Stripped(b, height);
    t.(blocks := t.blocks[id := ToDbBlock(h, b, height)] - {BlockId(h, c)},
       candidates := (t.candidates - {id})[BlockId(h, c) := c])
  }

  lemma StrippedId(h: Hashes, b: Block, height: nat)
    requires Sound(h) && !b.data.Null?
    ensures BlockId(h, Stripped(b, height)) != BlockId(h, b)
  {
  }

  /** The tables after accepting a block. */
  lemma AcceptedTables(h: Hashes, t: State, b: Block, height: nat)
    ensures var a, id := Accept(h, t, b, height), BlockId(h, b);
            && a.core == CoreBlock(h, t.core, b)
            && a.blocks == t.blocks[id := ToDbBlock(h, b, height)]
            && a.heights == t.heights[height := id]
            && a.candidates == t.candidates - {id}
  {
    hide Accept, CoreBlock, BlockId, ToDbBlock;
    AcceptBare(h, t, b, height);
    var a := Bare(Accept(h, t, b, height));
    assert a.core == CoreBlock(h, t.core, b);
  }

  lemma TakeOffStripped(h: Hashes, t: State, a: State, b: Block, height: nat)
    requires forall i :: 0 <= i < |b.txs| ==> Spent(b.txs[i]) <= a.core.stxos.Keys
    requires CoreUndos(h, Undo(h, a.core, b.coinbase), b.txs) == t.core
    requires height !in t.heights && b.prev in t.blocks && t.tip == Some(t.blocks[b.prev]) && b.prev != BlockId(h, b)
    requires a.blocks == t.blocks[BlockId(h, b) := ToDbBlock(h, b, height)]
    requires a.heights == t.heights[height := BlockId(h, b)] && a.candidates == t.candidates - {BlockId(h, b)}
    requires b.prev != BlockId(h, Stripped(b, height))
    ensures var r := TakeOff(h, a, Stripped(b, height), height);
            r.Some? && Bare(r.value) == Bare(Misfiled(h, t, b, height))
  {
    hide UndoTxs, UndoTx, CoreUndos, Undo, Spent, TakeOff, BlockId, ToDbBlock;
    TakeOffBare(h, a, Stripped(b, height), height);
    assert a.heights - {height} == t.heights;
  }

  /** Taking a block off leaves every other row, and needs its parent to be found without its own. */
  lemma TakeOffNeeds(h: Hashes, a: State, b: Block, height: nat)
    requires forall i :: 0 <= i < |b.txs| ==> Spent(b.txs[i]) <= a.core.stxos.Keys
    ensures var r, id := TakeOff(h, a, b, height), BlockId(h, b);
            && (r.Some? <==> (b.prev in a.blocks && b.prev != id) || b.prev in a.candidates)
            && (r.Some? ==> r.value.blocks == a.blocks - {id})
  {
    hide Spent, BlockId, ToDbBlock, UndoTxs, UndoTx;
    UndoTxsCore(h, UndoTx(h, a, b.coinbase), b.txs);
    assert UndoTx(h, a, b.coinbase).blocks == a.blocks && UndoTx(h, a, b.coinbase).candidates == a.candidates by {
      UndoTxFrame(h, a, b.coinbase);
    }
  }

  lemma UndoTxFrame(h: Hashes, t: State, tx: Tx)
    ensures UndoTx(h, t, tx) == t.(core := UndoTx(h, t, tx).core, keys := UndoTx(h, t, tx).keys)
  {
  }

  /** A block with data is rebuilt under another id. Unless that id is its parent's, reversing it
      succeeds and misfiles it. */
  lemma ReverseData(h: Hashes, t: State, b: Block, height: nat)
    requires Sound(h) && Ready(h, t, b, height) && !b.data.Null?
    ensures var r, c := Reverse(h, Accept(h, t, b, height)), BlockId(h, Stripped(b, height));
            && c != BlockId(h, b)
            && (b.prev != c ==> r.Some? && Bare(r.value) == Bare(Misfiled(h, t, b, height)))
            && (b.prev == c ==> (r.Some? <==> c in t.candidates))
            && (r.Some? ==> BlockId(h, b) in r.value.blocks)
  {
    hide Accept, CoreBlock, CoreUndos, Undo, BlockId, Coherent, BlockFits, BlockRecorded, Reverse, ToDbBlock, Sound;
    hide TakeOff, Misfiled;
    var a, c := Accept(h, t, b, height), Stripped(b, height);
    StrippedId(h, b, height);
    ReverseRebuilds(h, t, b, height);
    AcceptedTables(h, t, b, height);
    AcceptedUndoes(h, t, a, b);
    TakeOffNeeds(h, a, c, height);
    if b.prev != BlockId(h, c) {
      TakeOffStripped(h, t, a, b, height);
    }
  }

  /** A block with data to lose, on a database of one block, for any sound hashes: it is accepted,
      reversed, and not restored. */
  lemma DataLost(h: Hashes) returns (t: State, b: Block)
    requires Sound(h)
    ensures Ready(h, t, b, 2) && !b.data.Null?
    ensures var r := Reverse(h, Accept(h, t, b, 2));
            r.Some? && Bare(r.value) == Bare(Misfiled(h, t, b, 2)) && Bare(r.value) != Bare(Reversed(h, t, b, 2))
  {
    var parent := DbBlock([], Id("0"), Id("0"), 0, Consensus(0, 0, 0), 1, Null);
    var root := Id("1");
    t := EmptyState.(tip := Some(parent), blocks := map[root := parent], heights := map[1 := root]);
    var pay := Tx([], [Output(1, 0, None, "")], 0);
    b := Block([], pay, root, 0, Consensus(0, 0, 0), 2, Object("x"));
    if BlockId(h, b) == root || BlockId(h, Stripped(b, 2)) == root {
      b := b.(timestamp := 1);
    }
    LoneBlock(h, t.core, b);
    StrippedId(h, b, 2);
    hide BlockFits, Coherent, Accept, Reverse;
    ReverseData(h, t, b, 2);
    assert BlockId(h, b) !in Bare(Reversed(h, t, b, 2)).blocks;
  }

  lemma LoneBlock(h: Hashes, c: Core, b: Block)
    requires c == Empty && b.txs == [] && b.coinbase.inputs == []
    requires |b.coinbase.outputs| == 1 && GoodValue(b.coinbase.outputs[0])
    ensures Coherent(h, c) && BlockFits(h, c, b)
  {
    var pay := b.coinbase;
    assert pay.outputs[..0] == [];
    assert OutputTotal(pay.outputs) == pay.outputs[0].value;
    assert Claims(h, pay) == [h.output(pay.outputs[0])];
    assert AllClaims(h, b.txs) == [] && AllInputIds(h, b.txs) == [];
  }

  /** Reversing the tip restores the database exactly when the block carries no data. */
  lemma ReverseExactIffNoData(h: Hashes, t: State, b: Block, height: nat)
    requires Sound(h) && Ready(h, t, b, height)
    ensures var r := Reverse(h, Accept(h, t, b, height));
            (r.Some? && Bare(r.value) == Bare(Reversed(h, t, b, height))) <==> b.data.Null?
  {
    if b.data.Null? {
      ReverseNull(h, t, b, height);
    } else {
      ReverseData(h, t, b, height);
      assert BlockId(h, b) !in Bare(Reversed(h, t, b, height)).blocks;
    }
  }
}
