/** The unconfirmed transactions across a reorganisation. `reverseBlock` puts the transactions of the
    block it takes off back into the pool. The pool is not part of the database transaction, so it keeps
    them when the submission fails and the database goes back. */
module Pooling {
  import opened Types
  import opened Ledger
  import opened Blocks
  import opened Reversal
  import opened Submission
  import opened Chain
  import opened Archive
  import Database
  import Kimoto
  import Mempool

  /** Every pooled transaction verifies on these tables. */
  ghost predicate Fresh(p: Params, c: Core, txs: map<Id, Tx>) {
    forall id :: id in txs ==> Verify(p, c, txs[id], false)
  }

  ghost function Survivors(p: Params, c: Core, txs: map<Id, Tx>): map<Id, Tx> {
    map id | id in txs && Verify(p, c, txs[id], false) :: txs[id]
  }

  ghost function ById(h: Hashes, txs: seq<Tx>): map<Id, Tx> {
    if txs == [] then map[] else ById(h, txs[..|txs| - 1])[TxId(h, txs[|txs| - 1]) := txs[|txs| - 1]]
  }

  /** `d` are the tables `c` with the block `b` confirmed on them. */
  ghost predicate Above(p: Params, c: Core, d: Core, b: Block) {
    && Coherent(p.h, c) && Coherent(p.h, d) && Grown(c, d)
    && BlockRep(p.h, b) && VerifyAll(p, c, b.txs) && BlockRecorded(p.h, d, b)
  }

  lemma Reversed(p: Params, t: State, chain: seq<Block>, s: State)
    requires Sound(p.h) && Base(p, t, chain) && |chain| >= 2 && Reverse(p.h, t) == Some(s)
    ensures Base(p, s, chain[..|chain| - 1]) && Above(p, s.core, t.core, chain[|chain| - 1])
  {
    var n := |chain| - 1;
    assert Acceptable(p, Replay(p.h, chain[..n]).core, chain[n], n + 1) && BlockRep(p.h, chain[n]);
    assert VerifyAll(p, Replay(p.h, chain[..n]).core, chain[n].txs);
    hide Sound, Valid, Replay, Side, Known, Coherent, Reverse, BlockRecorded, BlockFits, BlockRep, Acceptable;
    hide CoreBlock, Grown, Verify, VerifyAll;
    ReverseBase(p, t, chain);
    LastBlockFits(p, chain);
    CoreBlockRecords(p.h, s.core, chain[n]);
    CoreBlockGrown(p.h, s.core, chain[n]);
  }

  // ---- conflicts ----

  lemma UsesApart(h: Hashes, a: Tx, b: Tx)
    requires Sound(h) && Spent(a) !! Spent(b)
    ensures Uses(h, a) !! Uses(h, b)
  {
    forall i, j | 0 <= i < |a.inputs| && 0 <= j < |b.inputs|
      ensures InputIds(h, a.inputs)[i] != InputIds(h, b.inputs)[j]
    {
      assert SpentIds(a.inputs)[i] in Spent(a) && SpentIds(b.inputs)[j] in Spent(b);
    }
  }

  lemma RecordedMade(h: Hashes, c: Core, tx: Tx, block: Id)
    requires Recorded(h, c, tx, block, false)
    ensures Made(h, tx) <= c.utxos.Keys + c.stxos.Keys && TxId(h, tx) in c.txs
  {
    forall id | id in Made(h, tx) ensures id in c.utxos.Keys + c.stxos.Keys {
      var i :| 0 <= i < |tx.outputs| && OutputIds(h, tx.outputs)[i] == id;
      assert FindOutput(c, h.output(tx.outputs[i])).Some?;
    }
  }

  /** A transaction that verifies with and without the block shares nothing with the block's. */
  lemma BothWaysApart(p: Params, c: Core, d: Core, b: Block, tx: Tx, i: nat)
    requires Sound(p.h) && Above(p, c, d, b) && i < |b.txs| && TxRep(p.h, tx, false)
    requires Verify(p, c, tx, false) && Verify(p, d, tx, false)
    ensures Apart(p.h, tx, b.txs[i])
  {
    assert TxRep(p.h, b.txs[i], false) && Verify(p, c, b.txs[i], false) && Recorded(p.h, d, b.txs[i], BlockId(p.h, b), false);
    assert d.utxos.Keys !! d.stxos.Keys;
    RecordedSpent(p.h, d, b.txs[i], BlockId(p.h, b), false);
    hide Sound, Verify, TxRep, Recorded, Above, Uses, Spent, Made, TxId, BlockId;
    VerifyFits(p, c, tx, false);
    VerifyFits(p, d, tx, false);
    VerifyFits(p, c, b.txs[i], false);
    RecordedMade(p.h, d, b.txs[i], BlockId(p.h, b));
    UsesApart(p.h, tx, b.txs[i]);
  }

  lemma AdmitsApart(h: Hashes, m: Mempool.Pool, tx: Tx)
    requires Mempool.Claimed(h, m) && forall id :: id in m.txs ==> Apart(h, m.txs[id], tx)
    ensures Mempool.Admits(h, m, tx)
  {
    Mempool.AdmitsSets(h, m, tx);
    ClaimSets(h, tx);
    hide Mempool.Admits, TxId, Claims, Uses, Spent, Made, TxRep;
    forall x | x in m.outputs ensures x !in Mempool.ClaimSet(h, tx) {
      ClaimSets(h, m.txs[m.outputs[x]]);
    }
    forall x | x in m.inputs ensures x !in Uses(h, tx) {
      assert x in Mempool.InputSets(h, m.txs)[m.inputs[x]];
    }
  }

  lemma {:induction false} ByIdFrom(h: Hashes, txs: seq<Tx>, id: Id)
    requires id in ById(h, txs)
    ensures exists j :: 0 <= j < |txs| && ById(h, txs)[id] == txs[j] && TxId(h, txs[j]) == id
  {
    hide TxId;
    var n := |txs| - 1;
    if id == TxId(h, txs[n]) {
      assert ById(h, txs)[id] == txs[n];
    } else {
      ByIdFrom(h, txs[..n], id);
      var j :| 0 <= j < n && ById(h, txs[..n])[id] == txs[..n][j] && TxId(h, txs[..n][j]) == id;
      assert txs[j] == txs[..n][j];
    }
  }

  lemma {:induction false} ByIdHas(h: Hashes, txs: seq<Tx>, i: nat)
    requires AllApart(h, txs) && i < |txs|
    ensures TxId(h, txs[i]) in ById(h, txs) && ById(h, txs)[TxId(h, txs[i])] == txs[i]
  {
    var n := |txs| - 1;
    if i < n {
      ByIdHas(h, txs[..n], i);
      assert Apart(h, txs[i], txs[n]);
    }
  }

  lemma EarlierApart(h: Hashes, txs: seq<Tx>, i: nat, id: Id)
    requires i < |txs| && AllApart(h, txs) && id in ById(h, txs[..i])
    ensures Apart(h, ById(h, txs[..i])[id], txs[i])
  {
    hide Apart, TxId, ById;
    ByIdFrom(h, txs[..i], id);
    var j :| 0 <= j < i && ById(h, txs[..i])[id] == txs[..i][j];
    assert txs[..i][j] == txs[j];
  }

  lemma NextAdmitted(p: Params, c: Core, d: Core, b: Block, kept: map<Id, Tx>, size: Tx -> nat, m: Mempool.Pool, i: nat)
    requires Sound(p.h) && Above(p, c, d, b) && i < |b.txs| && Fresh(p, c, kept) && Fresh(p, d, kept)
    requires Mempool.Valid(p.h, size, m) && m.txs == kept + ById(p.h, b.txs[..i])
    ensures TxRep(p.h, b.txs[i], false) && Mempool.Admits(p.h, m, b.txs[i])
  {
    BlockApart(p.h, b);
    assert TxRep(p.h, b.txs[i], false);
    hide Sound, Above, Verify, Apart, AllApart, ById, TxId, TxRep, BlockRep, Mempool.Owns, Mempool.Admits;
    forall id | id in m.txs ensures Apart(p.h, m.txs[id], b.txs[i]) {
      if id in ById(p.h, b.txs[..i]) {
        EarlierApart(p.h, b.txs, i, id);
      } else {
        BothWaysApart(p, c, d, b, kept[id], i);
      }
    }
    AdmitsApart(p.h, m, b.txs[i]);
  }

  // ---- one block ----

  ghost predicate Keyed(h: Hashes, txs: map<Id, Tx>) {
    forall id :: id in txs ==> TxId(h, txs[id]) == id
  }

  lemma PoolKeyed(h: Hashes, size: Tx -> nat, m: Mempool.Pool)
    requires Mempool.Valid(h, size, m)
    ensures Keyed(h, m.txs)
  {
    hide TxId, TxRep, Mempool.Owns;
  }

  /** A transaction already in the table of confirmed ones does not verify. */
  lemma VerifiedIsNew(p: Params, c: Core, tx: Tx)
    requires Verify(p, c, tx, false)
    ensures TxId(p.h, tx) !in c.txs
  {
  }

  lemma FromBlock(p: Params, c: Core, d: Core, b: Block, id: Id)
    requires Above(p, c, d, b) && id in ById(p.h, b.txs)
    ensures var tx := ById(p.h, b.txs)[id];
            TxId(p.h, tx) == id && id in d.txs && Verify(p, c, tx, false) && !Verify(p, d, tx, false)
  {
    hide TxId, Verify, Coherent, BlockRep, Grown;
    ByIdFrom(p.h, b.txs, id);
    var j :| 0 <= j < |b.txs| && ById(p.h, b.txs)[id] == b.txs[j] && TxId(p.h, b.txs[j]) == id;
    if Verify(p, d, b.txs[j], false) { VerifiedIsNew(p, d, b.txs[j]); }
  }

  lemma BlockInPool(p: Params, b: Block, i: nat)
    requires Sound(p.h) && BlockRep(p.h, b) && i < |b.txs|
    ensures var id := TxId(p.h, b.txs[i]);
            id in ById(p.h, b.txs) && ById(p.h, b.txs)[id] == b.txs[i]
  {
    hide Sound, BlockRep, AllApart, TxId;
    BlockApart(p.h, b);
    ByIdHas(p.h, b.txs, i);
  }

  /** What the pool holds once `b` is off suits the tables without `b`. On the tables with `b` exactly
      the transactions of `b` fail. */
  lemma StaleIff(p: Params, c: Core, d: Core, b: Block, before: map<Id, Tx>, after: map<Id, Tx>)
    requires Sound(p.h) && Above(p, c, d, b) && Keyed(p.h, before) && Fresh(p, d, before)
    requires after == Survivors(p, c, before) + ById(p.h, b.txs)
    ensures Keyed(p.h, after) && Fresh(p, c, after)
    ensures forall i :: 0 <= i < |b.txs| ==> TxId(p.h, b.txs[i]) in after && after[TxId(p.h, b.txs[i])] == b.txs[i]
    ensures forall id :: id in after ==> (Verify(p, d, after[id], false) <==> id !in ById(p.h, b.txs))
    ensures Fresh(p, d, after) <==> b.txs == []
  {
    hide Sound, Above, ById, TxId, Verify;
    forall id | id in after
      ensures TxId(p.h, after[id]) == id && Verify(p, c, after[id], false)
      ensures Verify(p, d, after[id], false) <==> id !in ById(p.h, b.txs)
    {
      if id in ById(p.h, b.txs) { FromBlock(p, c, d, b, id); }
    }
    forall i | 0 <= i < |b.txs|
      ensures TxId(p.h, b.txs[i]) in ById(p.h, b.txs) && ById(p.h, b.txs)[TxId(p.h, b.txs[i])] == b.txs[i]
    {
      AboveRep(p, c, d, b);
      BlockInPool(p, b, i);
    }
    NoneById(p.h, b.txs);
    if b.txs != [] { assert TxId(p.h, b.txs[0]) in after; }
  }

  /** An instance, for any hashes without clashes: a block with one payment, on tables with one output. */
  lemma StaleExample(h: Hashes) returns (p: Params, c: Core, d: Core, b: Block)
    requires Sound(h) && NoClash(h)
    ensures p.h == h && Above(p, c, d, b) && |b.txs| == 1
    ensures !Fresh(p, d, Survivors(p, c, map[]) + ById(h, b.txs))
  {
    hide Sound, NoClash, AnythingGoes, Lenient, Above, CoreBlock, Coherent, BlockFits, BlockRep, VerifyAll;
    hide Survivors, ById, Fresh, Keyed;
    var coin, paid, mint := Output(3, 0, None, ""), Output(2, 1, None, ""), Output(1, 2, None, "");
    p := AnythingGoes(h);
    c := Empty.(utxos := map[h.output(coin) := DbOutput(coin, Id(""))]);
    b := Block([Tx([Input(h.output(coin), "")], [paid], 0)], Tx([], [mint], 0), Id(""), 0, Consensus(0, 0, 0), 1, Null);
    d := CoreBlock(h, c, b);
    IsLenient(h);
    OnePayment(p, c, b, coin, paid, mint);
    Confirmed(p, c, b);
    NothingPooled(p, d);
    StaleIff(p, c, d, b, map[], Survivors(p, c, map[]) + ById(h, b.txs));
  }

  function AnythingGoes(h: Hashes): Params {
    Params(h, _ => 1, (_, _, _) => Good, (_, _) => true, (_, _) => true, _ => 0, (_, _: nat) => 0,
           Kimoto.Rules(1, (_: nat, _, _) => false), None)
  }

  lemma IsLenient(h: Hashes)
    ensures AnythingGoes(h).h == h && Lenient(AnythingGoes(h))
  {
  }

  lemma NothingPooled(p: Params, d: Core)
    ensures Keyed(p.h, map[]) && Fresh(p, d, map[])
  {
  }

  lemma Confirmed(p: Params, c: Core, b: Block)
    requires Sound(p.h) && Coherent(p.h, c) && BlockFits(p.h, c, b) && VerifyAll(p, c, b.txs)
    ensures Above(p, c, CoreBlock(p.h, c, b), b)
  {
    hide Sound, VerifyAll, CoreBlock, BlockRep, Coherent, BlockRecorded, Grown;
    CoreBlockRecords(p.h, c, b);
    CoreBlockGrown(p.h, c, b);
  }

  lemma OnePayment(p: Params, c: Core, b: Block, coin: Output, paid: Output, mint: Output)
    requires NoClash(p.h) && c == Empty.(utxos := map[p.h.output(coin) := DbOutput(coin, Id(""))])
    requires b.txs == [Tx([Input(p.h.output(coin), "")], [paid], 0)] && b.coinbase == Tx([], [mint], 0)
    requires coin != paid && paid != mint && mint != coin && paid.value <= coin.value < U64 && GoodValue(paid) && GoodValue(mint)
    requires Lenient(p)
    ensures Coherent(p.h, c) && BlockFits(p.h, c, b) && BlockRep(p.h, b) && VerifyAll(p, c, b.txs)
  {
    hide NoClash;
    OneRep(p.h, b, coin, paid, mint);
    OneFits(p.h, c, b, coin, paid, mint);
    OneVerifies(p, c, b.txs[0], coin, paid);
  }

  ghost predicate Lenient(p: Params) {
    && (forall o, i, tx :: p.signed(o, i, tx) == Good)
    && (forall seen, tx :: p.aggregate(seen, tx))
    && (forall c, tx :: p.contract(c, tx))
    && (forall tx :: p.feeUnits(tx) == 0)
  }

  lemma Clashless(h: Hashes, a: Output, b: Output)
    requires NoClash(h) && a != b
    ensures h.output(a) != h.output(b)
  {
  }

  lemma OneTotal(o: Output)
    ensures OutputTotal([o]) == o.value
  {
    assert [o][..0] == [];
  }

  lemma OneRep(h: Hashes, b: Block, coin: Output, paid: Output, mint: Output)
    requires NoClash(h) && coin != paid && paid != mint && mint != coin && GoodValue(paid) && GoodValue(mint)
    requires b.txs == [Tx([Input(h.output(coin), "")], [paid], 0)] && b.coinbase == Tx([], [mint], 0)
    ensures BlockRep(h, b)
  {
    Clashless(h, coin, paid);
    Clashless(h, paid, mint);
    Clashless(h, mint, coin);
    hide NoClash, TxId, TxRep, Distinct, Claims, InputIds, OutputIds, AllClaims, AllInputIds, TxIds;
    var tx := b.txs[0];
    OneTxRep(h, tx, b.coinbase);
    OneClaims(h, tx, b.coinbase);
    OneList(h, b.txs);
    ThreeDistinct(h.output(coin), h.output(paid), h.output(mint));
    ThreeDistinct(h.input(tx.inputs[0]), Id(""), Id(""));
    ThreeDistinct(TxId(h, tx), Id(""), Id(""));
  }

  lemma ThreeDistinct(a: Id, b: Id, c: Id)
    ensures Distinct([a])
    ensures a != b ==> Distinct([a, b])
    ensures a != b && b != c && c != a ==> Distinct([a, b] + [c])
  {
  }

  lemma OneTxRep(h: Hashes, tx: Tx, pay: Tx)
    requires |tx.inputs| == |tx.outputs| == 1 && pay.inputs == [] && |pay.outputs| == 1
    requires GoodValue(tx.outputs[0]) && GoodValue(pay.outputs[0]) && tx.inputs[0].outputId != h.output(tx.outputs[0])
    ensures TxRep(h, tx, false) && TxRep(h, pay, true)
  {
    hide Distinct, Claims, OutputTotal;
    OneClaims(h, tx, pay);
    ThreeDistinct(tx.inputs[0].outputId, h.output(tx.outputs[0]), Id(""));
    ThreeDistinct(h.output(pay.outputs[0]), Id(""), Id(""));
    OneTotal(tx.outputs[0]);
    OneTotal(pay.outputs[0]);
    assert tx.outputs == [tx.outputs[0]] && pay.outputs == [pay.outputs[0]];
  }

  lemma OneClaims(h: Hashes, tx: Tx, pay: Tx)
    requires |tx.inputs| == |tx.outputs| == 1 && pay.inputs == [] && |pay.outputs| == 1
    ensures Claims(h, tx) == [tx.inputs[0].outputId, h.output(tx.outputs[0])]
    ensures Claims(h, pay) == OutputIds(h, pay.outputs) == [h.output(pay.outputs[0])]
    ensures InputIds(h, tx.inputs) == [h.input(tx.inputs[0])]
  {
  }

  lemma OneList(h: Hashes, txs: seq<Tx>)
    requires |txs| == 1
    ensures AllClaims(h, txs) == Claims(h, txs[0]) && AllInputIds(h, txs) == InputIds(h, txs[0].inputs)
    ensures TxIds(h, txs) == [TxId(h, txs[0])]
  {
    hide Claims, InputIds, TxId;
    assert txs[..0] == [];
  }

  lemma OneFits(h: Hashes, c: Core, b: Block, coin: Output, paid: Output, mint: Output)
    requires NoClash(h) && BlockRep(h, b) && coin != paid && paid != mint && mint != coin
    requires c == Empty.(utxos := map[h.output(coin) := DbOutput(coin, Id(""))])
    requires b.txs == [Tx([Input(h.output(coin), "")], [paid], 0)] && b.coinbase == Tx([], [mint], 0)
    ensures Coherent(h, c) && BlockFits(h, c, b)
  {
    Clashless(h, coin, paid);
    Clashless(h, mint, coin);
    hide NoClash, TxId, BlockRep;
    assert SpentIds(b.txs[0].inputs) == [h.output(coin)] && OutputIds(h, b.txs[0].outputs) == [h.output(paid)];
    assert SpentIds(b.coinbase.inputs) == [] && OutputIds(h, b.coinbase.outputs) == [h.output(mint)];
  }

  lemma OneVerifies(p: Params, c: Core, tx: Tx, coin: Output, paid: Output)
    requires NoClash(p.h) && Lenient(p) && coin != paid && paid.value <= coin.value < U64
    requires c == Empty.(utxos := map[p.h.output(coin) := DbOutput(coin, Id(""))])
    requires tx == Tx([Input(p.h.output(coin), "")], [paid], 0)
    ensures Verify(p, c, tx, false)
  {
    Clashless(p.h, coin, paid);
    hide NoClash, TxId;
    var seen := [DbOutput(coin, Id(""))];
    assert [] + seen == seen;
    assert ScanInputs(p, c, tx, 1, coin.value, seen) == Some((coin.value, seen));
    assert ScanInputs(p, c, tx, 0, 0, []) == Some((coin.value, seen));
    assert tx.outputs[..0] == [];
    assert OutputSum64(tx.outputs) == paid.value;
  }

  lemma AboveRep(p: Params, c: Core, d: Core, b: Block)
    requires Above(p, c, d, b)
    ensures BlockRep(p.h, b)
  {
  }

  lemma NoneById(h: Hashes, txs: seq<Tx>)
    ensures txs == [] ==> ById(h, txs) == map[]
  {
  }

  /** The pool's part of `reverseBlock`: rescan without the block, then submit its transactions again.
      Every one of them is pooled. */
  method ReverseTip(pool: Mempool.Transactions, p: Params, t: State, s: State, b: Block, order: seq<Id>, ghost chain: seq<Block>)
    requires Sound(p.h) && Base(p, t, chain) && |chain| >= 2 && b == chain[|chain| - 1] && Reverse(p.h, t) == Some(s)
    requires pool.h == p.h && Mempool.Valid(pool.h, pool.size, pool.View()) && Fresh(p, t.core, pool.txs)
    requires Distinct(order) && ToSet(order) == pool.txs.Keys
    modifies pool
    ensures Mempool.Valid(pool.h, pool.size, pool.View())
    ensures pool.txs == Survivors(p, s.core, old(pool.txs)) + ById(p.h, b.txs)
  {
    hide Base, Sound, Mempool.Valid, Verify, TxId, Reverse, Above, Distinct, ToSet;
    ghost var kept := Survivors(p, s.core, pool.txs);
    Reversed(p, t, chain, s);
    pool.Rescan(order, tx => Verify(p, s.core, tx, false));
    assert pool.txs == kept;
    NoneById(p.h, b.txs[..0]);
    for i := 0 to |b.txs|
      invariant Mempool.Valid(pool.h, pool.size, pool.View())
      invariant pool.txs == kept + ById(p.h, b.txs[..i])
    {
      AboveVerifies(p, s.core, t.core, b, i);
      NextAdmitted(p, s.core, t.core, b, kept, pool.size, pool.View(), i);
      ById1(p.h, b.txs, kept, i);
      if Verify(p, s.core, b.txs[i], false) {
        var _ := pool.Insert(b.txs[i]);
      }
    }
    assert b.txs[..|b.txs|] == b.txs;
  }

  lemma AboveVerifies(p: Params, c: Core, d: Core, b: Block, i: nat)
    requires Above(p, c, d, b) && i < |b.txs|
    ensures Verify(p, c, b.txs[i], false)
  {
    hide Verify, Coherent, BlockRep, BlockRecorded;
  }

  lemma ById1(h: Hashes, txs: seq<Tx>, kept: map<Id, Tx>, i: nat)
    requires i < |txs|
    ensures kept + ById(h, txs[..i + 1]) == (kept + ById(h, txs[..i]))[TxId(h, txs[i]) := txs[i]]
  {
    hide TxId;
    assert txs[..i + 1][..i] == txs[..i];
  }

  // ---- a whole rewind ----

  /** The order in which the pool's map is walked. */
  ghost predicate Lists(list: map<Id, Tx> -> seq<Id>) {
    forall txs :: Distinct(list(txs)) && ToSet(list(txs)) == txs.Keys
  }

  /** Whatever is not a confirmed transaction of `d` was pooled before. */
  ghost predicate OldOrConfirmed(d: Core, before: map<Id, Tx>, txs: map<Id, Tx>) {
    forall id :: id in txs && id !in d.txs ==> id in before && before[id] == txs[id]
  }

  /** The transactions are pooled again, though `d` has confirmed them. */
  ghost predicate Back(h: Hashes, d: Core, txs: seq<Tx>, pooled: map<Id, Tx>) {
    forall i :: 0 <= i < |txs| ==> TxId(h, txs[i]) in pooled && pooled[TxId(h, txs[i])] == txs[i] && TxId(h, txs[i]) in d.txs
  }

  lemma AllOld(d: Core, before: map<Id, Tx>)
    ensures OldOrConfirmed(d, before, before)
  {
  }

  lemma StillOld(p: Params, c: Core, d: Core, e: Core, b: Block, before: map<Id, Tx>, txs: map<Id, Tx>)
    requires Above(p, c, d, b) && d.txs.Keys <= e.txs.Keys && OldOrConfirmed(e, before, txs)
    ensures OldOrConfirmed(e, before, Survivors(p, c, txs) + ById(p.h, b.txs)) && c.txs.Keys <= e.txs.Keys
  {
    assert c.txs.Keys <= d.txs.Keys;
    hide Above, ById, Verify;
    forall id | id in ById(p.h, b.txs) ensures id in e.txs { FromBlock(p, c, d, b, id); }
  }

  lemma OneOff(p: Params, u: State, chain: seq<Block>, s: State, e: Core, before: map<Id, Tx>, txs: map<Id, Tx>, after: map<Id, Tx>)
    requires Sound(p.h) && Base(p, u, chain) && |chain| >= 2 && Reverse(p.h, u) == Some(s)
    requires Keyed(p.h, txs) && Fresh(p, u.core, txs) && OldOrConfirmed(e, before, txs) && u.core.txs.Keys <= e.txs.Keys
    requires after == Survivors(p, s.core, txs) + ById(p.h, chain[|chain| - 1].txs)
    ensures Base(p, s, chain[..|chain| - 1]) && s.tip.Some? && s.tip.value.height == |chain| - 1
    ensures Fresh(p, s.core, after) && OldOrConfirmed(e, before, after) && s.core.txs.Keys <= e.txs.Keys
    ensures Back(p.h, e, chain[|chain| - 1].txs, after)
  {
    hide Base, Sound, Verify, TxId, Reverse, Above, Survivors, ById, Fresh, Keyed, OldOrConfirmed;
    var b := chain[|chain| - 1];
    Reversed(p, u, chain, s);
    StaleIff(p, s.core, u.core, b, txs, after);
    StillOld(p, s.core, u.core, e, b, before, txs);
    forall i | 0 <= i < |b.txs| ensures TxId(p.h, b.txs[i]) in e.txs { OfBlock(p, s.core, u.core, b, i); }
    Length(p, s, chain[..|chain| - 1]);
  }

  /** Whatever later rescans drop, as the accepted blocks of a branch do: of what is left of the pool
      exactly the confirmed transactions fail. */
  lemma ConfirmedAreStale(p: Params, d: Core, before: map<Id, Tx>, txs: map<Id, Tx>, left: map<Id, Tx>)
    requires Keyed(p.h, txs) && Fresh(p, d, before) && OldOrConfirmed(d, before, txs)
    requires forall id :: id in left ==> id in txs && left[id] == txs[id]
    ensures forall id :: id in left ==> (Verify(p, d, left[id], false) <==> id !in d.txs)
  {
    hide Verify, TxId;
    forall id | id in left && Verify(p, d, left[id], false) ensures id !in d.txs { VerifiedIsNew(p, d, left[id]); }
  }

  /** `reverseBlock`, the database and the pool. */
  method ReverseBlock(pool: Mempool.Transactions, p: Params, t: State, list: map<Id, Tx> -> seq<Id>, ghost chain: seq<Block>)
    returns (s: State)
    requires Sound(p.h) && Base(p, t, chain) && |chain| >= 2 && Lists(list)
    requires pool.h == p.h && Mempool.Valid(pool.h, pool.size, pool.View()) && Fresh(p, t.core, pool.txs)
    modifies pool
    ensures Reverse(p.h, t) == Some(s) && Mempool.Valid(pool.h, pool.size, pool.View())
    ensures pool.txs == Survivors(p, s.core, old(pool.txs)) + ById(p.h, chain[|chain| - 1].txs)
  {
    hide Base, Sound, Mempool.Valid, Verify, Reverse, Distinct, ToSet, Survivors, ById, RebuildBlock, Fresh;
    ReverseBase(p, t, chain);
    Database.TipPieces(p, t, chain);
    s := Reverse(p.h, t).value;
    var b := RebuildBlock(p.h, t, t.tip.value).value;
    ReverseTip(pool, p, t, s, b, list(pool.txs), chain);
  }

  /** Take blocks off down to the first `k`, as `reorgChain` does before it submits the branch. The pool
      then suits the tables at the fork. If the submission fails and the database goes back to `t`, the
      pooled transactions that no longer verify are exactly those that `t` has confirmed; every one of
      the last block taken off is among them. */
  method Rewind(pool: Mempool.Transactions, p: Params, t: State, k: nat, list: map<Id, Tx> -> seq<Id>, ghost chain: seq<Block>)
    returns (u: State)
    requires Sound(p.h) && Base(p, t, chain) && 1 <= k < |chain| && Lists(list)
    requires pool.h == p.h && Mempool.Valid(pool.h, pool.size, pool.View()) && Fresh(p, t.core, pool.txs)
    modifies pool
    ensures Base(p, u, chain[..k]) && Mempool.Valid(pool.h, pool.size, pool.View()) && Fresh(p, u.core, pool.txs)
    ensures forall id :: id in pool.txs ==> (Verify(p, t.core, pool.txs[id], false) <==> id !in t.core.txs)
    ensures Keyed(p.h, pool.txs) && OldOrConfirmed(t.core, old(pool.txs), pool.txs)
    ensures Back(p.h, t.core, chain[k].txs, pool.txs)
  {
    hide Base, Sound, Mempool.Valid, Verify, TxId, Reverse, Lists, Survivors, ById, Fresh, Keyed, OldOrConfirmed, Back;
    ghost var before := pool.txs;
    AllOld(t.core, before);
    u := t;
    ghost var j := |chain|;
    assert chain[..j] == chain;
    Length(p, u, chain);
    while u.tip.value.height > k
      invariant k <= j <= |chain| && Base(p, u, chain[..j]) && u.tip.Some? && u.tip.value.height == j
      invariant Mempool.Valid(pool.h, pool.size, pool.View()) && Fresh(p, u.core, pool.txs)
      invariant u.core.txs.Keys <= t.core.txs.Keys && OldOrConfirmed(t.core, before, pool.txs)
      invariant j < |chain| ==> Back(p.h, t.core, chain[j].txs, pool.txs)
      decreases j
    {
      ghost var here := chain[..j];
      ghost var pooled := pool.txs;
      PoolKeyed(pool.h, pool.size, pool.View());
      var s := ReverseBlock(pool, p, u, list, here);
      OneOff(p, u, here, s, t.core, before, pooled, pool.txs);
      assert here[..j - 1] == chain[..j - 1];
      u := s;
      j := j - 1;
    }
    PoolKeyed(pool.h, pool.size, pool.View());
    ConfirmedAreStale(p, t.core, before, pool.txs, pool.txs);
  }

  lemma OfBlock(p: Params, c: Core, d: Core, b: Block, i: nat)
    requires Above(p, c, d, b) && i < |b.txs|
    ensures TxId(p.h, b.txs[i]) in d.txs
  {
    hide TxId, Verify, Coherent, BlockRep, Grown;
    RecordedMade(p.h, d, b.txs[i], BlockId(p.h, b));
  }

  lemma Length(p: Params, t: State, chain: seq<Block>)
    requires Sound(p.h) && Base(p, t, chain)
    ensures t.tip.Some? && t.tip.value.height == |chain|
  {
    hide BlockId, Valid, Replay, Side, Known, Coherent;
    BaseTables(p, t, chain);
  }
}
