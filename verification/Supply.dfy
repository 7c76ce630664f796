/** Conservation of value: unspent outputs never exceed the rewards paid out, so no 64-bit total in
    verification, fees or the coinbase check ever wraps. */
module Supply {
  import opened Types
  import opened Ledger
  import opened Blocks
  import opened Reversal
  import opened Submission
  import opened Chain

  /** The total value of a table of outputs. */
  ghost function Total(m: map<Id, DbOutput>): nat
    decreases m.Keys
  {
    if m == map[] then 0 else
      var id :| id in m;
      m[id].output.value + Total(m - {id})
  }

  lemma {:induction false} TotalPick(m: map<Id, DbOutput>, id: Id)
    requires id in m
    ensures Total(m) == m[id].output.value + Total(m - {id})
    decreases m.Keys
  {
    var x :| x in m && Total(m) == m[x].output.value + Total(m - {x});
    if x != id {
      TotalPick(m - {x}, id);
      TotalPick(m - {id}, x);
      assert m - {x} - {id} == m - {id} - {x};
    }
  }

  lemma TotalPut(m: map<Id, DbOutput>, id: Id, row: DbOutput)
    requires id !in m
    ensures Total(m[id := row]) == Total(m) + row.output.value
  {
    TotalPick(m[id := row], id);
    assert m[id := row] - {id} == m;
  }

  /** The value a list of inputs spends. */
  function InputTotal(m: map<Id, DbOutput>, ins: seq<Input>): nat {
    if ins == [] then 0 else
      var id := ins[|ins| - 1].outputId;
      InputTotal(m, ins[..|ins| - 1]) + (if id in m then m[id].output.value else 0)
  }

  lemma {:induction false} TotalSpend(m: map<Id, DbOutput>, ins: seq<Input>)
    requires Distinct(SpentIds(ins))
    ensures Total(m) == Total(m - ToSet(SpentIds(ins))) + InputTotal(m, ins)
  {
    if ins == [] {
      assert m - ToSet(SpentIds(ins)) == m;
    } else {
      var n := |ins| - 1;
      var id := ins[n].outputId;
      assert SpentIds(ins) == SpentIds(ins[..n]) + [id];
      DistinctParts(SpentIds(ins[..n]), [id]);
      TotalSpend(m, ins[..n]);
      var rest := m - ToSet(SpentIds(ins[..n]));
      assert id in [id];
      assert rest - {id} == m - ToSet(SpentIds(ins));
      if id in m {
        TotalPick(rest, id);
      } else {
        assert rest - {id} == rest;
      }
    }
  }

  lemma RowsStep(h: Hashes, outs: seq<Output>, tx: Id)
    requires outs != []
    ensures var n := |outs| - 1;
            OutputRows(h, outs, tx) == OutputRows(h, outs[..n], tx)[h.output(outs[n]) := DbOutput(outs[n], tx)]
    ensures var n := |outs| - 1; OutputIds(h, outs) == OutputIds(h, outs[..n]) + [h.output(outs[n])]
  {
  }

  lemma {:induction false} TotalMake(h: Hashes, m: map<Id, DbOutput>, outs: seq<Output>, tx: Id)
    requires Distinct(OutputIds(h, outs)) && ToSet(OutputIds(h, outs)) !! m.Keys
    ensures Total(m + OutputRows(h, outs, tx)) == Total(m) + OutputTotal(outs)
  {
    if outs == [] {
      assert m + OutputRows(h, outs, tx) == m;
    } else {
      hide OutputRows, Total, OutputIds;
      var n := |outs| - 1;
      var id := h.output(outs[n]);
      RowsStep(h, outs, tx);
      DistinctParts(OutputIds(h, outs[..n]), [id]);
      TotalMake(h, m, outs[..n], tx);
      assert id in [id] && id in OutputIds(h, outs);
      TotalAddPut(m, OutputRows(h, outs[..n], tx), id, DbOutput(outs[n], tx));
    }
  }

  lemma TotalAddPut(m: map<Id, DbOutput>, rows: map<Id, DbOutput>, id: Id, row: DbOutput)
    requires id !in m && id !in rows
    ensures Total(m + rows[id := row]) == Total(m + rows) + row.output.value
  {
    hide Total;
    TotalPut(m + rows, id, row);
    assert m + rows[id := row] == (m + rows)[id := row];
  }

  /** Confirming a transaction takes its inputs' value out and puts its outputs' value in. */
  lemma ConfirmTotal(h: Hashes, c: Core, tx: Tx, block: Id, coinbase: bool)
    requires Fits(h, c, tx) && TxRep(h, tx, coinbase)
    ensures InputTotal(c.utxos, tx.inputs) <= Total(c.utxos)
    ensures Total(Confirm(h, c, tx, block, coinbase).utxos)
         == Total(c.utxos) - InputTotal(c.utxos, tx.inputs) + OutputTotal(tx.outputs)
  {
    hide OutputRows, TxId;
    DistinctParts(SpentIds(tx.inputs), OutputIds(h, tx.outputs));
    TotalSpend(c.utxos, tx.inputs);
    TotalMake(h, c.utxos - Spent(tx), tx.outputs, TxId(h, tx));
  }

  // ---- 64-bit sums ----

  lemma {:induction false} OutputSumExact(outs: seq<Output>)
    requires OutputTotal(outs) < U64
    ensures OutputSum64(outs) == OutputTotal(outs)
  {
    if outs != [] { OutputSumExact(outs[..|outs| - 1]); }
  }

  lemma {:induction false} InputSumExact(c: Core, ins: seq<Input>)
    requires InputTotal(c.utxos, ins) < U64
    ensures InputSum64(c, ins) == InputTotal(c.utxos, ins)
  {
    if ins != [] { InputSumExact(c, ins[..|ins| - 1]); }
  }

  lemma {:induction false} InputTotalPrefix(m: map<Id, DbOutput>, ins: seq<Input>, i: nat)
    requires i <= |ins|
    ensures InputTotal(m, ins[..i]) <= InputTotal(m, ins)
  {
    if i == |ins| {
      assert ins[..i] == ins;
    } else {
      InputTotalPrefix(m, ins[..|ins| - 1], i);
      assert ins[..|ins| - 1][..i] == ins[..i];
    }
  }

  lemma InputTotalNext(m: map<Id, DbOutput>, ins: seq<Input>, i: nat)
    requires i < |ins|
    ensures var id := ins[i].outputId;
            InputTotal(m, ins[..i + 1]) == InputTotal(m, ins[..i]) + (if id in m then m[id].output.value else 0)
  {
    assert ins[..i + 1][..i] == ins[..i];
  }

  /** The loop's total is exactly what the inputs it has seen spend. */
  lemma {:induction false} ScanExact(p: Params, c: Core, tx: Tx, i: nat, seen: seq<DbOutput>)
    requires i == |seen| <= |tx.inputs| && InputTotal(c.utxos, tx.inputs) < U64
    ensures var r := ScanInputs(p, c, tx, i, InputTotal(c.utxos, tx.inputs[..i]), seen);
            r.Some? ==>
              && i <= |r.value.1| <= |tx.inputs|
              && r.value.0 == InputTotal(c.utxos, tx.inputs[..|r.value.1|]) <= InputTotal(c.utxos, tx.inputs)
    decreases |tx.inputs| - i
  {
    hide InputTotal;
    InputTotalPrefix(c.utxos, tx.inputs, i);
    if i < |tx.inputs| {
      InputTotalNext(c.utxos, tx.inputs, i);
      InputTotalPrefix(c.utxos, tx.inputs, i + 1);
      if tx.inputs[i].outputId in c.utxos {
        ScanExact(p, c, tx, i + 1, seen + [c.utxos[tx.inputs[i].outputId]]);
      }
    }
  }

  /** A verified transaction creates no more than it spends, and its fee is the exact difference. */
  lemma VerifiedPays(p: Params, c: Core, tx: Tx)
    requires Verify(p, c, tx, false) && TxRep(p.h, tx, false) && InputTotal(c.utxos, tx.inputs) < U64
    ensures OutputTotal(tx.outputs) <= InputTotal(c.utxos, tx.inputs)
    ensures Fee64(c, tx) == InputTotal(c.utxos, tx.inputs) - OutputTotal(tx.outputs)
  {
    hide ScanInputs, InputSum64, OutputSum64, InputTotal, OutputTotal, Claims;
    OutputSumExact(tx.outputs);
    InputSumExact(c, tx.inputs);
    ScanExact(p, c, tx, 0, []);
    EmptyTotal(c.utxos, tx.inputs);
  }

  lemma EmptyTotal(m: map<Id, DbOutput>, ins: seq<Input>)
    ensures InputTotal(m, ins[..0]) == 0
  {
  }

  // ---- blocks ----

  /** What the transactions of a block leave for the coinbase, by exact arithmetic. */
  function FeeTotal(c: Core, txs: seq<Tx>): int {
    if txs == [] then 0 else
      var tx := txs[|txs| - 1];
      FeeTotal(c, txs[..|txs| - 1]) + (InputTotal(c.utxos, tx.inputs) - OutputTotal(tx.outputs))
  }

  lemma {:induction false} SameInputs(a: map<Id, DbOutput>, b: map<Id, DbOutput>, ins: seq<Input>)
    requires forall id :: id in SpentIds(ins) ==> id in a && id in b && a[id] == b[id]
    ensures InputTotal(a, ins) == InputTotal(b, ins)
  {
    if ins != [] {
      var n := |ins| - 1;
      assert SpentIds(ins) == SpentIds(ins[..n]) + [ins[n].outputId];
      SameInputs(a, b, ins[..n]);
    }
  }

  lemma {:induction false} RowsKept(h: Hashes, c: Core, txs: seq<Tx>, block: Id, a: Tx)
    requires ApartFrom(h, a, txs) && Spent(a) <= c.utxos.Keys
    ensures var d := CoreTxs(h, c, txs, block);
            forall id :: id in Spent(a) ==> id in d.utxos && d.utxos[id] == c.utxos[id]
  {
    if txs != [] {
      hide OutputRows, TxId;
      RowsKept(h, c, txs[..|txs| - 1], block, a);
      assert Apart(h, a, txs[|txs| - 1]);
    }
  }

  /** Confirming a block's transactions removes exactly their fees. */
  lemma {:induction false} TxsTotal(h: Hashes, c: Core, txs: seq<Tx>, block: Id)
    requires Sound(h) && Coherent(h, c) && AllFit(h, c, txs) && AllApart(h, txs)
    requires forall i :: 0 <= i < |txs| ==> TxRep(h, txs[i], false)
    ensures Total(CoreTxs(h, c, txs, block).utxos) == Total(c.utxos) - FeeTotal(c, txs)
  {
    if txs != [] {
      assert Fits(h, c, txs[|txs| - 1]);
      hide Coherent, Fits, AllFit, AllApart, TxRep, Confirm, Total, InputTotal, OutputTotal, Sound, ApartFrom;
      var n := |txs| - 1;
      var d := CoreTxs(h, c, txs[..n], block);
      NextFits(h, c, txs, block, n);
      TxsTotal(h, c, txs[..n], block);
      ConfirmTotal(h, d, txs[n], block, false);
      FitsSpends(h, c, txs[n]);
      RowsKept(h, c, txs[..n], block, txs[n]);
      SameInputs(d.utxos, c.utxos, txs[n].inputs);
    }
  }

  /** The transactions of a block, checked against the tables before it. */
  ghost predicate Checked(p: Params, c: Core, txs: seq<Tx>) {
    && Coherent(p.h, c)
    && VerifyAll(p, c, txs)
    && AllFit(p.h, c, txs)
    && AllApart(p.h, txs)
    && (forall i :: 0 <= i < |txs| ==> TxRep(p.h, txs[i], false))
  }

  lemma CheckedPrefix(p: Params, c: Core, txs: seq<Tx>, n: nat)
    requires Checked(p, c, txs) && n <= |txs|
    ensures Checked(p, c, txs[..n])
  {
    hide Coherent, Verify, Fits, Apart, TxRep;
  }

  /** No transaction without repeated inputs can add up to more than there is. */
  lemma SpendsWithin(h: Hashes, c: Core, tx: Tx, coinbase: bool)
    requires TxRep(h, tx, coinbase)
    ensures InputTotal(c.utxos, tx.inputs) <= Total(c.utxos)
  {
    DistinctParts(SpentIds(tx.inputs), OutputIds(h, tx.outputs));
    TotalSpend(c.utxos, tx.inputs);
  }

  /** Every fee and every running total of fees is exact and non-negative. */
  lemma {:induction false} FeesExact(p: Params, c: Core, txs: seq<Tx>)
    requires Sound(p.h) && Checked(p, c, txs) && Total(c.utxos) < U64
    ensures 0 <= FeeTotal(c, txs) <= Total(c.utxos)
    ensures Fees64(c, txs) == FeeTotal(c, txs)
  {
    hide Coherent, Verify, Fits, Apart, TxRep, Total, InputTotal, OutputTotal, Fee64, CoreTxs;
    TxsTotal(p.h, c, txs, Id(""));
    if txs != [] {
      var n := |txs| - 1;
      CheckedPrefix(p, c, txs, n);
      FeesExact(p, c, txs[..n]);
      SpendsWithin(p.h, c, txs[n], false);
      VerifiedPays(p, c, txs[n]);
    }
  }

  lemma {:induction false} FeesUnder(h: Hashes, c: Core, a: Tx, block: Id, txs: seq<Tx>)
    requires ApartFrom(h, a, txs) && AllFit(h, c, txs)
    ensures FeeTotal(Confirm(h, c, a, block, true), txs) == FeeTotal(c, txs)
  {
    if txs != [] {
      hide InputTotal, OutputTotal, OutputRows, TxId;
      var n := |txs| - 1;
      var d := Confirm(h, c, a, block, true);
      FeesUnder(h, c, a, block, txs[..n]);
      assert Apart(h, a, txs[n]) && Fits(h, c, txs[n]);
      forall id | id in SpentIds(txs[n].inputs) ensures id in c.utxos && id in d.utxos && d.utxos[id] == c.utxos[id] {
        assert id in Spent(txs[n]);
      }
      SameInputs(d.utxos, c.utxos, txs[n].inputs);
    }
  }

  lemma BlockChecked(p: Params, c: Core, b: Block, height: nat)
    requires Sound(p.h) && Coherent(p.h, c) && BlockRep(p.h, b) && Acceptable(p, c, b, height)
    ensures Checked(p, c, b.txs) && Fits(p.h, c, b.coinbase) && TxRep(p.h, b.coinbase, true)
    ensures ApartFrom(p.h, b.coinbase, b.txs)
  {
    hide Coherent, Verify, Apart, TxRep, Fits;
    AcceptableFits(p, c, b, height);
    BlockApart(p.h, b);
  }

  /** A block adds at most its reward, and its own 64-bit totals do not wrap. */
  lemma BlockSupply(p: Params, c: Core, b: Block, height: nat)
    requires Sound(p.h) && Coherent(p.h, c) && BlockRep(p.h, b) && Acceptable(p, c, b, height)
    requires Total(c.utxos) + p.reward(height) < U64
    ensures Total(CoreBlock(p.h, c, b).utxos) <= Total(c.utxos) + p.reward(height)
    ensures Fees64(c, b.txs) == FeeTotal(c, b.txs) && FeeTotal(c, b.txs) + p.reward(height) < U64
    ensures OutputSum64(b.coinbase.outputs) == OutputTotal(b.coinbase.outputs) <= FeeTotal(c, b.txs) + p.reward(height)
  {
    hide Coherent, Verify, Apart, Fits, Total, InputTotal, OutputTotal, Fees64, OutputSum64, CoreTxs, Confirm;
    hide BlockId, FeeTotal, Claims, AllClaims;
    var id := BlockId(p.h, b);
    BlockChecked(p, c, b, height);
    FeesExact(p, c, b.txs);
    OutputSumExact(b.coinbase.outputs);
    CoinbaseTotal(p.h, c, b.coinbase, id);
    BlockStillFits(p, c, b, height);
    TxsTotal(p.h, Confirm(p.h, c, b.coinbase, id, true), b.txs, id);
    FeesUnder(p.h, c, b.coinbase, id, b.txs);
  }

  lemma CoinbaseTotal(h: Hashes, c: Core, tx: Tx, block: Id)
    requires Fits(h, c, tx) && TxRep(h, tx, true)
    ensures Total(Confirm(h, c, tx, block, true).utxos) == Total(c.utxos) + OutputTotal(tx.outputs)
  {
    hide OutputTotal, Total, Confirm, Claims;
    ConfirmTotal(h, c, tx, block, true);
  }

  lemma BlockStillFits(p: Params, c: Core, b: Block, height: nat)
    requires Sound(p.h) && Coherent(p.h, c) && BlockRep(p.h, b) && Acceptable(p, c, b, height)
    ensures var d := Confirm(p.h, c, b.coinbase, BlockId(p.h, b), true);
            Coherent(p.h, d) && AllFit(p.h, d, b.txs) && AllApart(p.h, b.txs)
  {
    hide Coherent, Fits, Apart, Acceptable, BlockRep, Confirm, BlockId;
    AcceptableFits(p, c, b, height);
    StillFit(p.h, c, b);
  }

  // ---- chains ----

  /** The rewards of heights one to `n`. */
  function RewardSum(p: Params, n: nat): nat {
    if n == 0 then 0 else RewardSum(p, n - 1) + p.reward(n)
  }

  ghost predicate Bounded(p: Params) {
    forall n: nat :: RewardSum(p, n) < U64
  }

  /** On every valid chain the unspent value is covered by the rewards of its blocks. */
  lemma {:induction false} ChainSupply(p: Params, chain: seq<Block>)
    requires Sound(p.h) && Bounded(p) && Valid(p, chain)
    ensures Total(Replay(p.h, chain).core.utxos) <= RewardSum(p, |chain|) < U64
  {
    if chain != [] {
      hide Accept, Coherent, BlockRep, Acceptable, CoreBlock, Total, BlockId;
      var n := |chain| - 1;
      var c := Replay(p.h, chain[..n]).core;
      ChainSupply(p, chain[..n]);
      ReplayCoherent(p, chain[..n]);
      assert RewardSum(p, n + 1) < U64;
      BlockSupply(p, c, chain[n], n + 1);
      AcceptCore(p.h, Replay(p.h, chain[..n]), chain[n], n + 1);
    }
  }

  /** In every reachable database, for any well-formed transaction, whether or not it verifies: the
      fee calculation's input totals, the output total and the verification loop's running total are
      exact. */
  lemma NoTotalWraps(p: Params, t: State, chain: seq<Block>, tx: Tx, coinbase: bool, k: nat)
    requires Sound(p.h) && Bounded(p) && Base(p, t, chain) && TxRep(p.h, tx, coinbase) && k <= |tx.inputs|
    ensures Total(t.core.utxos) <= RewardSum(p, |chain|) < U64
    ensures InputSum64(t.core, tx.inputs[..k]) == InputTotal(t.core.utxos, tx.inputs[..k]) <= Total(t.core.utxos)
    ensures OutputSum64(tx.outputs) == OutputTotal(tx.outputs) < U64
    ensures var scan := ScanInputs(p, t.core, tx, 0, 0, []);
            scan.Some? ==>
              && |scan.value.1| <= |tx.inputs|
              && scan.value.0 == InputTotal(t.core.utxos, tx.inputs[..|scan.value.1|])
  {
    hide Total, InputTotal, OutputTotal, OutputSum64, InputSum64, Replay, Valid, Known, Side, ScanInputs, Claims;
    ChainSupply(p, chain);
    SpendsWithin(p.h, t.core, tx, coinbase);
    InputTotalPrefix(t.core.utxos, tx.inputs, k);
    InputSumExact(t.core, tx.inputs[..k]);
    OutputSumExact(tx.outputs);
    EmptyTotal(t.core.utxos, tx.inputs);
    ScanExact(p, t.core, tx, 0, []);
  }

  /** For a block whose transactions verify, as `submitBlock` asks before it adds up fees: every fee,
      the fee total, the coinbase limit and the coinbase total are exact too. */
  lemma NothingWraps(p: Params, t: State, chain: seq<Block>, b: Block)
    requires Sound(p.h) && Bounded(p) && Base(p, t, chain) && BlockRep(p.h, b)
    requires VerifyAll(p, t.core, b.txs)
    ensures Total(t.core.utxos) <= RewardSum(p, |chain|) < U64
    ensures forall i :: 0 <= i < |b.txs| ==>
              && InputSum64(t.core, b.txs[i].inputs) == InputTotal(t.core.utxos, b.txs[i].inputs)
              && OutputSum64(b.txs[i].outputs) == OutputTotal(b.txs[i].outputs)
              && OutputTotal(b.txs[i].outputs) <= InputTotal(t.core.utxos, b.txs[i].inputs)
    ensures Fees64(t.core, b.txs) == FeeTotal(t.core, b.txs)
    ensures Add64(Fees64(t.core, b.txs), p.reward(|chain| + 1)) == FeeTotal(t.core, b.txs) + p.reward(|chain| + 1)
    ensures OutputSum64(b.coinbase.outputs) == OutputTotal(b.coinbase.outputs)
  {
    hide Coherent, Verify, Total, InputTotal, OutputTotal, Fees64, OutputSum64, InputSum64, Replay, Valid, Known, FeeTotal, Side;
    var c := t.core;
    ChainSupply(p, chain);
    ReplayCoherent(p, chain);
    TxsChecked(p, c, b);
    FeesExact(p, c, b.txs);
    assert RewardSum(p, |chain| + 1) < U64;
    assert TxRep(p.h, b.coinbase, true);
    OutputSumExact(b.coinbase.outputs);
    forall i | 0 <= i < |b.txs|
      ensures InputSum64(c, b.txs[i].inputs) == InputTotal(c.utxos, b.txs[i].inputs)
      ensures OutputSum64(b.txs[i].outputs) == OutputTotal(b.txs[i].outputs) <= InputTotal(c.utxos, b.txs[i].inputs)
    {
      SpendsWithin(p.h, c, b.txs[i], false);
      InputSumExact(c, b.txs[i].inputs);
      OutputSumExact(b.txs[i].outputs);
      VerifiedPays(p, c, b.txs[i]);
    }
  }

  lemma TxsChecked(p: Params, c: Core, b: Block)
    requires Sound(p.h) && Coherent(p.h, c) && BlockRep(p.h, b) && VerifyAll(p, c, b.txs)
    ensures Checked(p, c, b.txs)
  {
    hide Coherent, Verify, Apart, TxRep, Fits;
    BlockApart(p.h, b);
    forall i | 0 <= i < |b.txs| ensures Fits(p.h, c, b.txs[i]) {
      VerifyFits(p, c, b.txs[i], false);
    }
  }
}
