/** The transactions of a block may be verified together and then confirmed, or verified and
    confirmed one at a time in any order: same verdict, same tables. */
module Ordering {
  import opened Types
  import opened Ledger
  import opened Blocks
  import opened Reversal
  import opened Submission

  /** A transaction and whether it is the coinbase. */
  datatype Item = Item(tx: Tx, coinbase: bool)

  function ItemsOf(txs: seq<Tx>): (r: seq<Item>)
    ensures |r| == |txs|
  {
    seq(|txs|, i requires 0 <= i < |txs| => Item(txs[i], false))
  }

  function BlockItems(b: Block): seq<Item> {
    [Item(b.coinbase, true)] + ItemsOf(b.txs)
  }

  /** Verify and confirm one at a time; None if some check fails on the way. */
  function OneByOne(p: Params, c: Core, items: seq<Item>, block: Id): Option<Core>
    decreases |items|
  {
    if items == [] then Some(c)
    else if !Verify(p, c, items[0].tx, items[0].coinbase) then None
    else OneByOne(p, Confirm(p.h, c, items[0].tx, block, items[0].coinbase), items[1..], block)
  }

  function Fold(h: Hashes, c: Core, items: seq<Item>, block: Id): Core
    decreases |items|
  {
    if items == [] then c
    else Fold(h, Confirm(h, c, items[0].tx, block, items[0].coinbase), items[1..], block)
  }

  /** Contract verdicts do not depend on the tables. */
  ghost predicate Stateless(p: Params) {
    forall c, c', tx :: p.contract(c, tx) == p.contract(c', tx)
  }

  // ---- one transaction past another ----

  lemma {:induction false} ScanUnmoved(p: Params, c: Core, d: Core, tx: Tx, i: nat, total: nat, seen: seq<DbOutput>)
    requires i <= |tx.inputs|
    requires forall id :: id in Spent(tx) ==> (id in c.utxos <==> id in d.utxos) && (id in c.utxos ==> c.utxos[id] == d.utxos[id])
    ensures ScanInputs(p, c, tx, i, total, seen) == ScanInputs(p, d, tx, i, total, seen)
    decreases |tx.inputs| - i
  {
    if i < |tx.inputs| {
      assert SpentIds(tx.inputs)[i] == tx.inputs[i].outputId;
      assert tx.inputs[i].outputId in Spent(tx);
      if tx.inputs[i].outputId in c.utxos {
        var o := c.utxos[tx.inputs[i].outputId];
        ScanUnmoved(p, c, d, tx, i + 1, Add64(total, o.output.value), seen + [o]);
      }
    }
  }

  lemma RowsUnmoved(h: Hashes, c: Core, a: Tx, b: Tx, block: Id, ca: bool)
    requires Apart(h, a, b)
    ensures var d := Confirm(h, c, a, block, ca);
            && (forall id :: id in Spent(b) ==> (id in c.utxos <==> id in d.utxos) && (id in c.utxos ==> c.utxos[id] == d.utxos[id]))
            && (forall id :: id in Made(h, b) ==> (id in c.utxos <==> id in d.utxos))
            && (forall id :: id in Made(h, b) ==> (id in c.stxos <==> id in d.stxos))
            && (TxId(h, b) in c.txs <==> TxId(h, b) in d.txs)
  {
    hide OutputRows, InputRows, TxId, ToDbTx;
  }

  /** Confirming an unrelated transaction does not change another's verdict. */
  lemma VerdictUnmoved(p: Params, c: Core, a: Tx, b: Tx, block: Id, ca: bool, cb: bool)
    requires Stateless(p) && Apart(p.h, a, b)
    ensures Verify(p, Confirm(p.h, c, a, block, ca), b, cb) == Verify(p, c, b, cb)
  {
    hide Confirm, ScanInputs, TxId, Endorsed, Apart;
    var d := Confirm(p.h, c, a, block, ca);
    RowsUnmoved(p.h, c, a, b, block, ca);
    ScanUnmoved(p, c, d, b, 0, 0, []);
    forall i | 0 <= i < |b.inputs| ensures b.inputs[i].outputId in Spent(b) {
      assert SpentIds(b.inputs)[i] == b.inputs[i].outputId;
    }
    forall i | 0 <= i < |b.outputs| ensures p.h.output(b.outputs[i]) in Made(p.h, b) {
      assert OutputIds(p.h, b.outputs)[i] == p.h.output(b.outputs[i]);
    }
  }

  // ---- families ----

  /** No item twice, and any two apart. */
  ghost predicate Family(h: Hashes, items: multiset<Item>) {
    && (forall x :: items[x] <= 1)
    && (forall x, y :: x in items && y in items && x != y ==> Apart(h, x.tx, y.tx))
  }

  lemma FamilyFront(h: Hashes, items: seq<Item>)
    requires items != [] && Family(h, multiset(items))
    ensures Family(h, multiset(items[1..]))
    ensures forall y :: y in items[1..] ==> Apart(h, items[0].tx, y.tx)
  {
    hide Apart;
    WithoutFirst(items);
    FamilyLess(h, multiset(items), items[0]);
    forall y | y in items[1..] ensures Apart(h, items[0].tx, y.tx) {
      assert y in multiset(items[1..]);
      assert multiset(items)[y] <= 1;
      assert items[0] in multiset(items) && y in multiset(items) && y != items[0];
    }
  }

  lemma {:induction false} VerdictsTogether(p: Params, c: Core, items: seq<Item>, block: Id)
    requires Stateless(p) && Family(p.h, multiset(items))
    ensures OneByOne(p, c, items, block).Some? <==> forall x :: x in items ==> Verify(p, c, x.tx, x.coinbase)
    ensures OneByOne(p, c, items, block).Some? ==> OneByOne(p, c, items, block).value == Fold(p.h, c, items, block)
    decreases |items|
  {
    if items != [] {
      hide Verify, Confirm, Apart, Family;
      FamilyFront(p.h, items);
      var x := items[0];
      var d := Confirm(p.h, c, x.tx, block, x.coinbase);
      forall y | y in items[1..] ensures Verify(p, d, y.tx, y.coinbase) == Verify(p, c, y.tx, y.coinbase) {
        VerdictUnmoved(p, c, x.tx, y.tx, block, x.coinbase, y.coinbase);
      }
      VerdictsTogether(p, d, items[1..], block);
      assert forall y :: y in items <==> y == x || y in items[1..] by { assert items == [x] + items[1..]; }
    }
  }

  lemma {:induction false} MoveFront(h: Hashes, c: Core, items: seq<Item>, i: nat, block: Id)
    requires i < |items| && Family(h, multiset(items))
    ensures Fold(h, c, items, block)
         == Fold(h, Confirm(h, c, items[i].tx, block, items[i].coinbase), items[..i] + items[i + 1..], block)
    decreases i
  {
    hide Confirm, Apart, Family;
    var x := items[i];
    if i == 0 {
      assert items[..0] + items[1..] == items[1..];
    } else {
      var f := items[0];
      var d := Confirm(h, c, f.tx, block, f.coinbase);
      var e := Confirm(h, c, x.tx, block, x.coinbase);
      FamilyFront(h, items);
      assert items[1..][i - 1] == x;
      MoveFront(h, d, items[1..], i - 1, block);
      ConfirmsCommute(h, c, f.tx, x.tx, block, f.coinbase, x.coinbase);
      var rest := items[..i] + items[i + 1..];
      assert rest[0] == f && rest[1..] == items[1..][..i - 1] + items[1..][i..];
      assert Fold(h, e, rest, block) == Fold(h, Confirm(h, e, f.tx, block, f.coinbase), rest[1..], block);
    }
  }

  lemma FoldHead(h: Hashes, c: Core, items: seq<Item>, block: Id)
    requires items != []
    ensures Fold(h, c, items, block)
         == Fold(h, Confirm(h, c, items[0].tx, block, items[0].coinbase), items[1..], block)
  {
    hide Confirm;
  }

  /** The tables do not depend on the order of confirmation. */
  lemma {:induction false} AnyOrder(h: Hashes, c: Core, a: seq<Item>, b: seq<Item>, block: Id)
    requires multiset(a) == multiset(b) && Family(h, multiset(b))
    ensures Fold(h, c, a, block) == Fold(h, c, b, block)
    decreases |a|
  {
    hide Confirm, Apart, Family, Fold;
    if a == [] {
      assert |multiset(b)| == 0;
      assert b == [];
    } else {
      var i := PickOut(a, b);
      FoldHead(h, c, a, block);
      MoveFront(h, c, b, i, block);
      FamilyLess(h, multiset(b), a[0]);
      AnyOrder(h, Confirm(h, c, a[0].tx, block, a[0].coinbase), a[1..], b[..i] + b[i + 1..], block);
    }
  }

  lemma PlaceOf(b: seq<Item>, x: Item) returns (i: nat)
    requires x in multiset(b)
    ensures i < |b| && b[i] == x
  {
    assert x in b;
    i :| 0 <= i < |b| && b[i] == x;
  }

  /** Where the first item of one order stands in another, and what is left of both without it. */
  lemma PickOut(a: seq<Item>, b: seq<Item>) returns (i: nat)
    requires a != [] && multiset(a) == multiset(b)
    ensures i < |b| && b[i] == a[0]
    ensures multiset(a[1..]) == multiset(b[..i] + b[i + 1..]) == multiset(b) - multiset{a[0]}
  {
    i := PlaceOf(b, a[0]) by {
      assert a[0] in multiset(a);
    }
    WithoutFirst(a);
    WithoutOne(b, i);
  }

  lemma WithoutFirst(items: seq<Item>)
    requires items != []
    ensures multiset(items[1..]) == multiset(items) - multiset{items[0]}
  {
    assert items == [items[0]] + items[1..];
  }

  lemma WithoutOne(items: seq<Item>, i: nat)
    requires i < |items|
    ensures multiset(items[..i] + items[i + 1..]) == multiset(items) - multiset{items[i]}
  {
    assert items == items[..i] + [items[i]] + items[i + 1..];
  }

  lemma FamilyLess(h: Hashes, items: multiset<Item>, x: Item)
    requires Family(h, items)
    ensures Family(h, items - multiset{x})
  {
    hide Apart;
  }

  // ---- blocks ----

  lemma {:induction false} ItemsOnce(items: seq<Item>)
    requires forall i, j :: 0 <= i < j < |items| ==> items[i] != items[j]
    ensures forall x :: multiset(items)[x] <= 1
  {
    if items != [] {
      var n := |items| - 1;
      ItemsOnce(items[..n]);
      assert items == items[..n] + [items[n]];
      assert items[n] !in items[..n];
    }
  }

  lemma BlockFamily(h: Hashes, b: Block)
    requires Sound(h) && BlockRep(h, b)
    ensures Family(h, multiset(BlockItems(b)))
  {
    BlockApart(h, b);
    hide Apart, BlockRep, Sound;
    ApartSymmetric(h, b.txs);
    var items := BlockItems(b);
    forall i, j | 0 <= i < |items| && 0 <= j < |items| && i != j
      ensures Apart(h, items[i].tx, items[j].tx)
    {
      if i > 0 && j > 0 {
        assert Apart(h, b.txs[i - 1], b.txs[j - 1]);
      } else if i > 0 {
        ApartFlip(h, b.coinbase, b.txs[i - 1]);
      }
    }
    forall i, j | 0 <= i < j < |items| ensures items[i] != items[j] {
      NotApartFromSelf(h, items[i].tx);
    }
    ItemsOnce(items);
  }

  lemma ApartFlip(h: Hashes, a: Tx, b: Tx)
    requires Apart(h, a, b)
    ensures Apart(h, b, a)
  {
  }

  lemma NotApartFromSelf(h: Hashes, a: Tx)
    ensures !Apart(h, a, a)
  {
  }

  lemma {:induction false} FoldTxs(h: Hashes, c: Core, txs: seq<Tx>, block: Id)
    ensures Fold(h, c, ItemsOf(txs), block) == CoreTxs(h, c, txs, block)
    decreases |txs|
  {
    hide Confirm;
    if txs != [] {
      CoreTxsFront(h, c, txs, block);
      FoldTxs(h, Confirm(h, c, txs[0], block, false), txs[1..], block);
      assert ItemsOf(txs)[1..] == ItemsOf(txs[1..]);
    }
  }

  /** Every order of a block's transactions, coinbase included, gives the verdict and the tables that
      `submitBlock` computes by verifying everything against the tables before the block. */
  lemma BlockAnyOrder(p: Params, c: Core, b: Block, order: seq<Item>)
    requires Sound(p.h) && Stateless(p) && BlockRep(p.h, b)
    requires multiset(order) == multiset(BlockItems(b))
    ensures var r := OneByOne(p, c, order, BlockId(p.h, b));
            && (r.Some? <==> VerifyAll(p, c, b.txs) && Verify(p, c, b.coinbase, true))
            && (r.Some? ==> r.value == CoreBlock(p.h, c, b))
  {
    hide Verify, Confirm, BlockRep, BlockId, Family, Sound;
    var id := BlockId(p.h, b);
    var items := BlockItems(b);
    BlockFamily(p.h, b);
    VerdictsTogether(p, c, order, id);
    AnyOrder(p.h, c, order, items, id);
    var d := Confirm(p.h, c, b.coinbase, id, true);
    assert items[0] == Item(b.coinbase, true) && items[1..] == ItemsOf(b.txs);
    assert Fold(p.h, c, items, id) == Fold(p.h, d, items[1..], id);
    FoldTxs(p.h, d, b.txs, id);
    SameMembers(order, items);
    MembersVerify(p, c, b);
  }

  lemma SameMembers(a: seq<Item>, b: seq<Item>)
    requires multiset(a) == multiset(b)
    ensures forall x :: x in a <==> x in b
  {
    forall x ensures x in a <==> x in b {
      assert x in a <==> x in multiset(a);
      assert x in b <==> x in multiset(b);
    }
  }

  lemma MembersVerify(p: Params, c: Core, b: Block)
    ensures (forall x :: x in BlockItems(b) ==> Verify(p, c, x.tx, x.coinbase))
       <==> VerifyAll(p, c, b.txs) && Verify(p, c, b.coinbase, true)
  {
    hide Verify;
    var items := BlockItems(b);
    assert items[0] == Item(b.coinbase, true);
    assert forall i :: 0 <= i < |b.txs| ==> items[i + 1] == Item(b.txs[i], false);
    assert forall i :: 0 <= i < |b.txs| ==> Item(b.txs[i], false) in items;
  }
}
