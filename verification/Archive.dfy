/** What ids fix when the hashes do not clash, and what the tables keep of everything confirmed. */
module Archive {
  import opened Types
  import opened Ledger
  import opened Blocks
  import opened Reversal
  import opened Submission
  import opened Chain
  import opened Ordering
  import opened Tree
  import opened Runs

  /** No two different things share an id. */
  ghost predicate NoClash(h: Hashes) {
    && (forall a, b :: h.output(a) == h.output(b) ==> a == b)
    && (forall a, b :: h.input(a) == h.input(b) ==> a == b)
    && (forall i, o, t, i', o', t' :: h.tx(i, o, t) == h.tx(i', o', t') ==> i == i' && o == o' && t == t')
    && (forall x, c, p, t, d, x', c', p', t', d' ::
          h.block(x, c, p, t, d) == h.block(x', c', p', t', d') ==> x == x' && c == c' && p == p' && t == t' && d == d')
  }

  lemma SameTx(h: Hashes, a: Tx, b: Tx)
    requires NoClash(h) && TxId(h, a) == TxId(h, b)
    ensures a == b
  {
    assert |a.inputs| == |InputIds(h, a.inputs)| == |b.inputs|;
    assert |a.outputs| == |OutputIds(h, a.outputs)| == |b.outputs|;
    forall i | 0 <= i < |a.inputs| ensures a.inputs[i] == b.inputs[i] {
      assert InputIds(h, a.inputs)[i] == InputIds(h, b.inputs)[i];
    }
    forall i | 0 <= i < |a.outputs| ensures a.outputs[i] == b.outputs[i] {
      assert OutputIds(h, a.outputs)[i] == OutputIds(h, b.outputs)[i];
    }
  }

  /** A block id fixes everything in the block but its consensus data and height. */
  lemma SameParts(h: Hashes, a: Block, b: Block)
    requires NoClash(h) && BlockId(h, a) == BlockId(h, b)
    ensures a.txs == b.txs && a.coinbase == b.coinbase && a.prev == b.prev
  {
    assert TxIds(h, a.txs) == TxIds(h, b.txs) && TxId(h, a.coinbase) == TxId(h, b.coinbase);
    assert |a.txs| == |TxIds(h, a.txs)| == |b.txs|;
    hide TxId;
    SameTx(h, a.coinbase, b.coinbase);
    forall i | 0 <= i < |a.txs| ensures a.txs[i] == b.txs[i] {
      assert TxIds(h, a.txs)[i] == TxIds(h, b.txs)[i];
      SameTx(h, a.txs[i], b.txs[i]);
    }
  }

  lemma SameOutput(h: Hashes, a: Output, b: Output)
    requires NoClash(h) && h.output(a) == h.output(b)
    ensures a == b
  {
  }

  // ---- rows of transactions ----

  /** Every stored transaction sits under its own id and has all its inputs and outputs stored. */
  ghost predicate Complete(h: Hashes, c: Core) {
    forall id :: id in c.txs ==>
      && DbTxId(h, c.txs[id]) == id
      && ToSet(c.txs[id].inputs) <= c.inputs.Keys
      && ToSet(c.txs[id].outputs) <= c.utxos.Keys + c.stxos.Keys
  }

  lemma ConfirmComplete(h: Hashes, c: Core, tx: Tx, block: Id, coinbase: bool)
    requires Complete(h, c)
    ensures Complete(h, Confirm(h, c, tx, block, coinbase))
  {
    hide OutputRows, InputRows;
    var d := Confirm(h, c, tx, block, coinbase);
    assert c.utxos.Keys + c.stxos.Keys + Made(h, tx) <= d.utxos.Keys + d.stxos.Keys;
  }

  lemma {:induction false} CoreTxsComplete(h: Hashes, c: Core, txs: seq<Tx>, block: Id)
    requires Complete(h, c)
    ensures Complete(h, CoreTxs(h, c, txs, block))
  {
    hide Complete, Confirm;
    if txs != [] {
      var n := |txs| - 1;
      CoreTxsComplete(h, c, txs[..n], block);
      ConfirmComplete(h, CoreTxs(h, c, txs[..n], block), txs[n], block, false);
    }
  }

  lemma CoreBlockComplete(h: Hashes, c: Core, b: Block)
    requires Complete(h, c)
    ensures Complete(h, CoreBlock(h, c, b))
  {
    hide Complete, Confirm, CoreTxs, BlockId;
    ConfirmComplete(h, c, b.coinbase, BlockId(h, b), true);
    CoreTxsComplete(h, Confirm(h, c, b.coinbase, BlockId(h, b), true), b.txs, BlockId(h, b));
  }

  lemma {:induction false} ReplayComplete(h: Hashes, chain: seq<Block>)
    ensures Complete(h, Replay(h, chain).core)
  {
    hide Accept, CoreBlock;
    if chain != [] {
      var n := |chain| - 1;
      ReplayComplete(h, chain[..n]);
      CoreBlockComplete(h, Replay(h, chain[..n]).core, chain[n]);
      AcceptCore(h, Replay(h, chain[..n]), chain[n], n + 1);
    }
  }

  /** A transaction that can be rebuilt is rebuilt under its own id. */
  lemma RebuiltTx(h: Hashes, c: Core, id: Id)
    requires Coherent(h, c) && Complete(h, c) && RebuildTx(c, id).Some?
    ensures TxId(h, RebuildTx(c, id).value) == id
  {
    var row := c.txs[id];
    var tx := RebuildTx(c, id).value;
    forall i | 0 <= i < |row.inputs| ensures h.input(tx.inputs[i]) == row.inputs[i] {
      assert row.inputs[i] in ToSet(row.inputs);
    }
    assert InputIds(h, tx.inputs) == row.inputs;
    forall i | 0 <= i < |row.outputs| ensures h.output(tx.outputs[i]) == row.outputs[i] {
      assert FindOutput(c, row.outputs[i]).Some?;
    }
    assert OutputIds(h, tx.outputs) == row.outputs;
  }

  lemma RebuildsAll(h: Hashes, c: Core, id: Id)
    requires Complete(h, c) && id in c.txs
    ensures RebuildTx(c, id).Some?
  {
    var row := c.txs[id];
    forall i | 0 <= i < |row.outputs| ensures FindOutput(c, row.outputs[i]).Some? {
      assert row.outputs[i] in ToSet(row.outputs);
    }
  }

  /** A block that can be rebuilt, from its rows or from the candidates, has the id of its row. */
  lemma RebuiltBlock(p: Params, t: State, row: DbBlock)
    requires Coherent(p.h, t.core) && Complete(p.h, t.core) && Side(p, t) && row.data.Null?
    requires RebuildBlock(p.h, t, row).Some?
    ensures BlockId(p.h, RebuildBlock(p.h, t, row).value) == DbBlockId(p.h, row)
  {
    hide Coherent, Complete, TxId, BlockRep, Plain, RebuildTx;
    var b := RebuildBlock(p.h, t, row).value;
    if RebuildTx(t.core, row.coinbase).Some? && (forall i :: 0 <= i < |row.txs| ==> RebuildTx(t.core, row.txs[i]).Some?) {
      RebuiltTx(p.h, t.core, row.coinbase);
      forall i | 0 <= i < |row.txs| ensures TxId(p.h, b.txs[i]) == row.txs[i] {
        RebuiltTx(p.h, t.core, row.txs[i]);
      }
      assert TxIds(p.h, b.txs) == row.txs;
    }
  }

  // ---- nothing confirmed is forgotten ----

  ghost predicate Grown(c: Core, d: Core) {
    c.txs.Keys <= d.txs.Keys && c.utxos.Keys + c.stxos.Keys <= d.utxos.Keys + d.stxos.Keys
  }

  lemma ConfirmGrown(h: Hashes, c: Core, tx: Tx, block: Id, coinbase: bool)
    ensures Grown(c, Confirm(h, c, tx, block, coinbase)) && TxId(h, tx) in Confirm(h, c, tx, block, coinbase).txs
  {
    hide OutputRows, InputRows, TxId;
  }

  lemma {:induction false} CoreTxsGrown(h: Hashes, c: Core, txs: seq<Tx>, block: Id)
    ensures Grown(c, CoreTxs(h, c, txs, block))
    ensures forall i :: 0 <= i < |txs| ==> TxId(h, txs[i]) in CoreTxs(h, c, txs, block).txs
  {
    hide Confirm, TxId;
    if txs != [] {
      var n := |txs| - 1;
      CoreTxsGrown(h, c, txs[..n], block);
      ConfirmGrown(h, CoreTxs(h, c, txs[..n], block), txs[n], block, false);
      forall i | 0 <= i < |txs| ensures TxId(h, txs[i]) in CoreTxs(h, c, txs, block).txs {
        if i < n { assert txs[..n][i] == txs[i]; }
      }
    }
  }

  lemma CoreBlockGrown(h: Hashes, c: Core, b: Block)
    ensures Grown(c, CoreBlock(h, c, b))
    ensures TxId(h, b.coinbase) in CoreBlock(h, c, b).txs
    ensures forall i :: 0 <= i < |b.txs| ==> TxId(h, b.txs[i]) in CoreBlock(h, c, b).txs
  {
    hide Confirm, TxId, BlockId;
    ConfirmGrown(h, c, b.coinbase, BlockId(h, b), true);
    CoreTxsGrown(h, Confirm(h, c, b.coinbase, BlockId(h, b), true), b.txs, BlockId(h, b));
  }

  lemma ReplayLast(h: Hashes, chain: seq<Block>)
    requires chain != []
    ensures var n := |chain| - 1; Replay(h, chain).core == CoreBlock(h, Replay(h, chain[..n]).core, chain[n])
  {
    hide Accept, CoreBlock;
    var n := |chain| - 1;
    AcceptCore(h, Replay(h, chain[..n]), chain[n], n + 1);
  }

  lemma {:induction false} ReplayGrown(h: Hashes, chain: seq<Block>, n: nat)
    requires n <= |chain|
    ensures Grown(Replay(h, chain[..n]).core, Replay(h, chain).core)
  {
    hide Replay, CoreBlock;
    if n == |chain| {
      assert chain[..n] == chain;
    } else {
      hide Grown;
      var m := |chain| - 1;
      ReplayGrown(h, chain[..m], n);
      assert chain[..m][..n] == chain[..n];
      ReplayLast(h, chain);
      CoreBlockGrown(h, Replay(h, chain[..m]).core, chain[m]);
      GrownTwice(Replay(h, chain[..n]).core, Replay(h, chain[..m]).core, Replay(h, chain).core);
    }
  }

  lemma GrownTwice(c: Core, d: Core, e: Core)
    requires Grown(c, d) && Grown(d, e)
    ensures Grown(c, e)
  {
  }

  /** One block of a valid chain, as a step of the transaction tables. */
  lemma LastBlockFits(p: Params, chain: seq<Block>)
    requires Sound(p.h) && chain != [] && Valid(p, chain)
    ensures var n := |chain| - 1;
            var c := Replay(p.h, chain[..n]).core;
            && Coherent(p.h, c) && BlockFits(p.h, c, chain[n])
            && Replay(p.h, chain).core == CoreBlock(p.h, c, chain[n])
  {
    hide Accept, CoreBlock, Acceptable, BlockRep, Coherent;
    var n := |chain| - 1;
    ReplayCoherent(p, chain[..n]);
    AcceptableFits(p, Replay(p.h, chain[..n]).core, chain[n], n + 1);
    AcceptCore(p.h, Replay(p.h, chain[..n]), chain[n], n + 1);
  }

  // ---- the transactions of a block in any order ----

  /** Transactions that can be confirmed one after the other in any order. */
  ghost predicate Lined(h: Hashes, c: Core, items: seq<Item>) {
    && Family(h, multiset(items))
    && (forall x :: x in items ==> Fits(h, c, x.tx) && TxRep(h, x.tx, x.coinbase))
  }

  lemma {:induction false} FoldSnoc(h: Hashes, c: Core, items: seq<Item>, x: Item, block: Id)
    ensures Fold(h, c, items + [x], block) == Confirm(h, Fold(h, c, items, block), x.tx, block, x.coinbase)
    decreases |items|
  {
    hide Confirm;
    if items == [] {
      assert (items + [x])[1..] == [];
    } else {
      assert (items + [x])[1..] == items[1..] + [x];
      FoldSnoc(h, Confirm(h, c, items[0].tx, block, items[0].coinbase), items[1..], x, block);
    }
  }

  lemma ConfirmAround(h: Hashes, c: Core, a: Tx, b: Tx, block: Id, ca: bool)
    requires Coherent(h, c) && Fits(h, c, a) && Fits(h, c, b) && Apart(h, a, b)
    ensures var d := Confirm(h, c, a, block, ca);
            Coherent(h, d) && Fits(h, d, b) && (forall id :: id in Spent(b) ==> id in d.utxos && d.utxos[id] == c.utxos[id])
  {
    hide OutputRows, InputRows, TxId, ToDbTx, Coherent;
    ConfirmCoherent(h, c, a, block, ca);
    FitsAfter(h, c, a, b, block, ca);
  }

  /** Confirming the others does not disturb a transaction that is apart from them. */
  lemma {:induction false} FoldAround(h: Hashes, c: Core, items: seq<Item>, x: Tx, block: Id)
    requires Coherent(h, c) && Lined(h, c, items) && Fits(h, c, x)
    requires forall y :: y in items ==> Apart(h, y.tx, x)
    ensures var d := Fold(h, c, items, block);
            Coherent(h, d) && Fits(h, d, x) && (forall id :: id in Spent(x) ==> id in d.utxos && d.utxos[id] == c.utxos[id])
    decreases |items|
  {
    if items != [] {
      hide Confirm, Coherent, Fits, Apart, TxRep, Family, Spent;
      var f := items[0];
      var d := Confirm(h, c, f.tx, block, f.coinbase);
      FamilyFront(h, items);
      assert f in items;
      FitsSpends(h, c, x);
      ConfirmAround(h, c, f.tx, x, block, f.coinbase);
      forall y | y in items[1..] ensures Fits(h, d, y.tx) {
        ConfirmAround(h, c, f.tx, y.tx, block, f.coinbase);
      }
      FoldAround(h, d, items[1..], x, block);
      AroundTwice(c, d, Fold(h, d, items[1..], block), Spent(x));
    } else {
      FitsSpends(h, c, x);
    }
  }

  lemma AroundTwice(c: Core, d: Core, e: Core, ids: set<Id>)
    requires forall id :: id in ids ==> id in c.utxos && id in d.utxos && d.utxos[id] == c.utxos[id]
    requires forall id :: id in ids ==> id in e.utxos && e.utxos[id] == d.utxos[id]
    ensures forall id :: id in ids ==> id in e.utxos && e.utxos[id] == c.utxos[id]
  {
  }

  lemma ItemsDiffer(h: Hashes, items: seq<Item>, i: nat, j: nat)
    requires Family(h, multiset(items)) && i < j < |items|
    ensures items[i] != items[j]
  {
    hide Apart;
    var a, b := items[..j], items[j..];
    assert items == a + b;
    assert multiset(items)[items[i]] <= 1;
    assert items[i] in a && items[j] in b;
  }

  /** An item and the ones before and after it. */
  lemma LinedParts(h: Hashes, c: Core, items: seq<Item>, i: nat)
    requires Lined(h, c, items) && i < |items|
    ensures Lined(h, c, items[..i]) && Lined(h, c, items[i..]) && Lined(h, c, items[i + 1..])
    ensures forall y :: y in items[..i] || y in items[i + 1..] ==> Apart(h, y.tx, items[i].tx)
  {
    assert items[..i] + items[i..] == items && items[..i + 1] + items[i + 1..] == items;
    hide Apart, Fits, TxRep;
    assert Lined(h, c, items[..i]) && Lined(h, c, items[i..]) && Lined(h, c, items[i + 1..]) by {
      hide Family;
      PartFamily(h, items[..i], items[i..]);
      PartFamily(h, items[..i + 1], items[i + 1..]);
    }
    forall y | y in items[..i] || y in items[i + 1..] ensures Apart(h, y.tx, items[i].tx) {
      var j :| 0 <= j < |items| && j != i && items[j] == y;
      ItemsApart(h, items, i, j);
    }
  }

  lemma ItemsApart(h: Hashes, items: seq<Item>, i: nat, j: nat)
    requires Family(h, multiset(items)) && i < |items| && j < |items| && i != j
    ensures Apart(h, items[j].tx, items[i].tx)
  {
    hide Apart;
    if i < j { ItemsDiffer(h, items, i, j); } else { ItemsDiffer(h, items, j, i); }
    assert items[i] in multiset(items) && items[j] in multiset(items);
  }

  lemma PartFamily(h: Hashes, a: seq<Item>, b: seq<Item>)
    requires Family(h, multiset(a + b))
    ensures Family(h, multiset(a)) && Family(h, multiset(b))
  {
    hide Apart;
    assert multiset(a + b) == multiset(a) + multiset(b);
    forall x ensures multiset(a)[x] <= 1 && multiset(b)[x] <= 1 {
      assert multiset(a + b)[x] <= 1;
    }
    forall x, y | x in multiset(a) && y in multiset(a) && x != y ensures Apart(h, x.tx, y.tx) {
      assert x in multiset(a + b) && y in multiset(a + b);
    }
    forall x, y | x in multiset(b) && y in multiset(b) && x != y ensures Apart(h, x.tx, y.tx) {
      assert x in multiset(a + b) && y in multiset(a + b);
    }
  }

  /** Confirming in order: the next item is confirmed on the tables of those before it. */
  lemma NextInOrder(h: Hashes, c: Core, items: seq<Item>, i: nat, block: Id)
    requires Coherent(h, c) && Lined(h, c, items) && i < |items|
    ensures var d, x := Fold(h, c, items[..i], block), items[i];
            && Coherent(h, d) && Fits(h, d, x.tx) && TxRep(h, x.tx, x.coinbase)
            && (forall id :: id in Spent(x.tx) ==> id in c.utxos && id in d.utxos && d.utxos[id] == c.utxos[id])
            && Fold(h, c, items[..i + 1], block) == Confirm(h, d, x.tx, block, x.coinbase)
  {
    hide Coherent, Fits, Apart, TxRep, Family, Confirm, Fold;
    LinedParts(h, c, items, i);
    assert items[i] in items;
    FitsSpends(h, c, items[i].tx);
    FoldAround(h, c, items[..i], items[i].tx, block);
    FoldSnoc(h, c, items[..i], items[i], block);
    assert items[..i] + [items[i]] == items[..i + 1];
  }

  /** Undoing in order: the tables of the remaining items are those of the ones after the next,
      with the next confirmed last. */
  lemma NextToUndo(h: Hashes, c: Core, items: seq<Item>, i: nat, block: Id)
    requires Coherent(h, c) && Lined(h, c, items) && i < |items|
    ensures var d, x := Fold(h, c, items[i + 1..], block), items[i];
            && Coherent(h, d) && Fits(h, d, x.tx) && TxRep(h, x.tx, x.coinbase)
            && (forall id :: id in Spent(x.tx) ==> id in c.utxos && id in d.utxos && d.utxos[id] == c.utxos[id])
            && Fold(h, c, items[i..], block) == Confirm(h, d, x.tx, block, x.coinbase)
  {
    hide Coherent, Fits, Apart, TxRep, Family, Confirm, Fold;
    LinedParts(h, c, items, i);
    assert items[i] in items;
    FitsSpends(h, c, items[i].tx);
    var rest := items[i + 1..];
    FoldAround(h, c, rest, items[i].tx, block);
    FoldSnoc(h, c, rest, items[i], block);
    assert items[i..] == [items[i]] + rest;
    assert multiset(rest + [items[i]]) == multiset(items[i..]);
    AnyOrder(h, c, rest + [items[i]], items[i..], block);
  }

  /** The transactions of a block, coinbase included, in any order. */
  lemma BlockLined(h: Hashes, c: Core, b: Block, order: seq<Item>)
    requires Sound(h) && BlockFits(h, c, b) && multiset(order) == multiset(BlockItems(b))
    ensures Lined(h, c, order) && Fold(h, c, order, BlockId(h, b)) == CoreBlock(h, c, b)
  {
    hide Confirm, BlockId, Family, Sound, Fits, TxRep;
    var id := BlockId(h, b);
    var items := BlockItems(b);
    BlockFamily(h, b);
    AnyOrder(h, c, order, items, id);
    assert items[0] == Item(b.coinbase, true) && items[1..] == ItemsOf(b.txs);
    FoldTxs(h, Confirm(h, c, b.coinbase, id, true), b.txs, id);
    SameMembers(order, items);
  }

  lemma {:induction false} FoldGrown(h: Hashes, c: Core, items: seq<Item>, block: Id)
    ensures Grown(c, Fold(h, c, items, block))
    decreases |items|
  {
    if items != [] {
      hide Confirm, TxId;
      var d := Confirm(h, c, items[0].tx, block, items[0].coinbase);
      ConfirmGrown(h, c, items[0].tx, block, items[0].coinbase);
      FoldGrown(h, d, items[1..], block);
      GrownTwice(c, d, Fold(h, d, items[1..], block));
    }
  }

  lemma {:induction false} FoldPrefix(h: Hashes, c: Core, items: seq<Item>, i: nat, block: Id)
    requires i <= |items|
    ensures Grown(Fold(h, c, items[..i], block), Fold(h, c, items, block))
    decreases |items|
  {
    hide Confirm, Grown;
    if i == 0 {
      assert items[..0] == [];
      FoldGrown(h, c, items, block);
    } else {
      assert items[..i][1..] == items[1..][..i - 1];
      FoldPrefix(h, Confirm(h, c, items[0].tx, block, items[0].coinbase), items[1..], i - 1, block);
    }
  }

  // ---- chains with the same tip ----

  lemma ValidTail(p: Params, chain: seq<Block>)
    requires Valid(p, chain) && chain != []
    ensures var n := |chain| - 1;
            && Valid(p, chain[..n]) && chain[n].height == n + 1 && BlockRep(p.h, chain[n]) && Plain(p, chain[n])
            && (n > 0 ==> chain[n].prev == BlockId(p.h, chain[n - 1]))
  {
    hide BlockId, BlockRep, Acceptable, Replay, Plain;
  }

  lemma {:induction false} ValidPrefix(p: Params, chain: seq<Block>, n: nat)
    requires Valid(p, chain) && n <= |chain|
    ensures Valid(p, chain[..n])
  {
    hide Valid, BlockRep, Plain, BlockId;
    if n == |chain| {
      assert chain[..n] == chain;
    } else {
      ValidTail(p, chain);
      ValidPrefix(p, chain[..|chain| - 1], n);
      assert chain[..|chain| - 1][..n] == chain[..n];
    }
  }

  /** Two valid chains of one length that end in the same block are the same chain, as far as the
      tables can tell. */
  lemma {:induction false} SameChain(p: Params, a: seq<Block>, b: seq<Block>)
    requires NoClash(p.h) && Valid(p, a) && Valid(p, b) && |a| == |b|
    requires a != [] ==> BlockId(p.h, a[|a| - 1]) == BlockId(p.h, b[|b| - 1])
    ensures Replay(p.h, a).core == Replay(p.h, b).core
  {
    assert a == [] ==> a == b;
    if a != [] {
      hide BlockId, BlockRep, NoClash, Valid, CoreBlock, Replay;
      var n := |a| - 1;
      SameParts(p.h, a[n], b[n]);
      ValidTail(p, a);
      ValidTail(p, b);
      SameChain(p, a[..n], b[..n]);
      SameCoreBlock(p.h, Replay(p.h, a[..n]).core, a[n], b[n]);
      ReplayLast(p.h, a);
      ReplayLast(p.h, b);
    }
  }

  lemma SameCoreBlock(h: Hashes, c: Core, a: Block, b: Block)
    requires BlockId(h, a) == BlockId(h, b) && a.txs == b.txs && a.coinbase == b.coinbase
    ensures CoreBlock(h, c, a) == CoreBlock(h, c, b)
  {
  }

  /** Blocks of one valid chain have different ids. */
  lemma IdsDiffer(p: Params, chain: seq<Block>)
    requires Valid(p, chain) && |chain| > 1
    ensures BlockId(p.h, chain[0]) != BlockId(p.h, chain[|chain| - 1])
  {
    hide BlockId, BlockRep, Acceptable, Replay;
    var n := |chain| - 1;
    ReplayTables(p, chain[..n]);
    assert At(p.h, MainOf(Replay(p.h, chain[..n])), chain[..n], 0);
  }

  /** A block of another valid chain from the same genesis has, if known, the height it had there. */
  lemma {:induction false} KnownHeight(p: Params, t: State, chain: seq<Block>, other: seq<Block>)
    requires Sound(p.h) && Base(p, t, chain) && Valid(p, other) && other != []
    requires BlockId(p.h, other[0]) == BlockId(p.h, chain[0])
    ensures var id := BlockId(p.h, other[|other| - 1]);
            id in Known(p.h, t) ==> Known(p.h, t)[id].height == |other|
  {
    hide BlockId, DbBlockId, BlockRep, Acceptable, Replay, Known, Mined, FindBlock, Side, Sound;
    var n := |other| - 1;
    var id := BlockId(p.h, other[n]);
    if n > 0 && id in Known(p.h, t) {
      KnownHeight(p, t, chain, other[..n]);
      IdsDiffer(p, other);
      Found(p, t, chain, id);
      SameParent(p.h, FindBlock(p.h, t, id).value, other[n]);
    }
  }

  lemma SameParent(h: Hashes, row: DbBlock, b: Block)
    requires Sound(h) && DbBlockId(h, row) == BlockId(h, b)
    ensures row.prev == b.prev
  {
  }

  // ---- looking blocks up ----

  lemma {:induction false} ValidPlain(p: Params, chain: seq<Block>, i: nat)
    requires Valid(p, chain) && i < |chain|
    ensures Plain(p, chain[i])
  {
    hide Valid, Plain;
    ValidTail(p, chain);
    if i < |chain| - 1 {
      ValidPlain(p, chain[..|chain| - 1], i);
    }
  }

  lemma FoundPlain(p: Params, t: State, chain: seq<Block>, id: Id)
    requires Sound(p.h) && Base(p, t, chain) && FindBlock(p.h, t, id).Some?
    ensures FindBlock(p.h, t, id).value.data.Null?
  {
    hide Replay, Valid, BlockId, Rooted, Mined, Coherent, BlockRep, Known;
    BaseTables(p, t, chain);
    if id in t.blocks {
      var i :| 0 <= i < |chain| && BlockIds(p.h, chain)[i] == id;
      assert At(p.h, MainOf(t), chain, i);
      ValidPlain(p, chain, i);
    }
  }

  /** Whatever block `getBlock` returns for an id has that id. */
  lemma BuiltBlock(p: Params, t: State, chain: seq<Block>, id: Id)
    requires Sound(p.h) && Base(p, t, chain) && FindBlock(p.h, t, id).Some?
    requires RebuildBlock(p.h, t, FindBlock(p.h, t, id).value).Some?
    ensures BlockId(p.h, RebuildBlock(p.h, t, FindBlock(p.h, t, id).value).value) == id
  {
    hide Replay, Valid, BlockId, Rooted, Mined, Coherent, Known, Complete, FindBlock, RebuildBlock, Side;
    BaseTables(p, t, chain);
    ReplayComplete(p.h, chain);
    FoundPlain(p, t, chain, id);
    RebuiltBlock(p, t, FindBlock(p.h, t, id).value);
    Found(p, t, chain, id);
    FoundKnown(p.h, t, id);
  }

  lemma FoundKnown(h: Hashes, t: State, id: Id)
    requires FindBlock(h, t, id).Some?
    ensures id in Known(h, t)
  {
  }

  /** Every block of the main chain can be rebuilt. */
  lemma MainBlock(p: Params, t: State, chain: seq<Block>, i: nat)
    requires Sound(p.h) && Base(p, t, chain) && i < |chain|
    ensures i + 1 in t.heights && t.heights[i + 1] == BlockId(p.h, chain[i])
    ensures FindBlock(p.h, t, t.heights[i + 1]) == Some(ToDbBlock(p.h, chain[i], i + 1))
    ensures var b := RebuildBlock(p.h, t, ToDbBlock(p.h, chain[i], i + 1)); b.Some? && b.value.height == i + 1
  {
    hide Valid, BlockId, Rooted, Mined, Coherent, Known, Complete, Side, Replay, CoreBlock, TxId, RebuildTx, Grown;
    BaseTables(p, t, chain);
    assert At(p.h, MainOf(t), chain, i);
    ReplayComplete(p.h, chain);
    ReplayGrown(p.h, chain, i + 1);
    ReplayLast(p.h, chain[..i + 1]);
    var c := Replay(p.h, chain[..i + 1]).core;
    CoreBlockGrown(p.h, Replay(p.h, chain[..i + 1][..i]).core, chain[i]);
    StoredStays(c, t.core, TxId(p.h, chain[i].coinbase));
    RebuildsAll(p.h, t.core, TxId(p.h, chain[i].coinbase));
    forall j | 0 <= j < |chain[i].txs| ensures RebuildTx(t.core, TxIds(p.h, chain[i].txs)[j]).Some? {
      StoredStays(c, t.core, TxId(p.h, chain[i].txs[j]));
      RebuildsAll(p.h, t.core, TxId(p.h, chain[i].txs[j]));
    }
  }

  lemma StoredStays(c: Core, d: Core, id: Id)
    requires Grown(c, d) && id in c.txs
    ensures id in d.txs
  {
  }
}
