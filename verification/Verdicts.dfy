/** Exactly which transactions and blocks pass the checks, told without the loops that decide it. */
module Verdicts {
  import opened Types
  import opened Ledger
  import opened Submission
  import opened Supply

  /** The rows that the first `n` inputs spend. */
  ghost function Rows(c: Core, ins: seq<Input>, n: nat): seq<DbOutput>
    requires n <= |ins| && Unspent(c, ins)
  {
    seq(n, i requires 0 <= i < n => c.utxos[ins[i].outputId])
  }

  ghost predicate Unspent(c: Core, ins: seq<Input>) {
    forall i :: 0 <= i < |ins| ==> ins[i].outputId in c.utxos
  }

  ghost function Values(rows: seq<DbOutput>): nat {
    if rows == [] then 0 else Values(rows[..|rows| - 1]) + rows[|rows| - 1].output.value
  }

  /** The signature verdict on input `i`. */
  ghost function SignedAt(p: Params, c: Core, tx: Tx, i: nat): Signature
    requires i < |tx.inputs| && Unspent(c, tx.inputs)
  {
    p.signed(c.utxos[tx.inputs[i].outputId], tx.inputs[i], tx)
  }

  /** The first `n` inputs are those the checks look at: all are good but the last, and the last is good
      too unless it is one that ends the looking. */
  ghost predicate LookedAt(p: Params, c: Core, tx: Tx, n: nat)
    requires Unspent(c, tx.inputs)
  {
    && n <= |tx.inputs|
    && (forall i :: 0 <= i < n - 1 ==> SignedAt(p, c, tx, i) == Good)
    && (n > 0 ==> SignedAt(p, c, tx, n - 1) == Last || (SignedAt(p, c, tx, n - 1) == Good && n == |tx.inputs|))
    && (n == 0 ==> tx.inputs == [])
  }

  /** What is asked of the rows looked at: the aggregate signature, and, unless it is a coinbase, that
      their 64-bit total covers the outputs and half the fee units. */
  ghost predicate Covered(p: Params, tx: Tx, rows: seq<DbOutput>, coinbase: bool) {
    var ins, outs := Values(rows) % U64, OutputTotal(tx.outputs) % U64;
    p.aggregate(rows, tx) && (coinbase || (outs <= ins && p.feeUnits(tx) <= 2 * (ins - outs)))
  }

  ghost predicate New(h: Hashes, c: Core, tx: Tx) {
    && TxId(h, tx) !in c.txs
    && (forall i :: 0 <= i < |tx.outputs| ==> h.output(tx.outputs[i]) !in c.utxos && h.output(tx.outputs[i]) !in c.stxos)
  }

  lemma {:induction false} OutputSumMod(outs: seq<Output>)
    ensures OutputSum64(outs) == OutputTotal(outs) % U64
  {
    if outs != [] {
      OutputSumMod(outs[..|outs| - 1]);
    }
  }

  lemma RowsNext(c: Core, ins: seq<Input>, n: nat)
    requires n < |ins| && Unspent(c, ins)
    ensures Rows(c, ins, n + 1) == Rows(c, ins, n) + [c.utxos[ins[n].outputId]]
    ensures Add64(Values(Rows(c, ins, n)) % U64, c.utxos[ins[n].outputId].output.value) == Values(Rows(c, ins, n + 1)) % U64
  {
    var rows := Rows(c, ins, n + 1);
    assert rows == Rows(c, ins, n) + [c.utxos[ins[n].outputId]];
    assert rows[..n] == Rows(c, ins, n);
  }

  /** The input loop from input `i` on: it ends with the rows of the inputs looked at and their 64-bit
      total, or nowhere. */
  lemma {:induction false} ScanIs(p: Params, c: Core, tx: Tx, i: nat) returns (n: nat)
    requires i <= |tx.inputs| && Unspent(c, tx.inputs)
    requires forall j :: 0 <= j < i ==> SignedAt(p, c, tx, j) == Good
    ensures var r := ScanInputs(p, c, tx, i, Values(Rows(c, tx.inputs, i)) % U64, Rows(c, tx.inputs, i));
            && (r.Some? <==> n <= |tx.inputs|)
            && (r.Some? ==> r.value == (Values(Rows(c, tx.inputs, n)) % U64, Rows(c, tx.inputs, n)))
    ensures if n <= |tx.inputs| then LookedAt(p, c, tx, n) else forall m :: !LookedAt(p, c, tx, m)
    decreases |tx.inputs| - i
  {
    hide Values, Rows, Add64;
    if i == |tx.inputs| {
      n := i;
    } else {
      RowsNext(c, tx.inputs, i);
      match SignedAt(p, c, tx, i)
      case Bad =>
        n := |tx.inputs| + 1;
        forall m ensures !LookedAt(p, c, tx, m) { BadStops(p, c, tx, i, m); }
      case Last =>
        n := i + 1;
      case Good =>
        n := ScanIs(p, c, tx, i + 1);
    }
  }

  lemma BadStops(p: Params, c: Core, tx: Tx, i: nat, m: nat)
    requires i < |tx.inputs| && Unspent(c, tx.inputs) && SignedAt(p, c, tx, i) == Bad
    requires forall j :: 0 <= j < i ==> SignedAt(p, c, tx, j) == Good
    ensures !LookedAt(p, c, tx, m)
  {
    hide SignedAt;
  }

  lemma LookedAtOnce(p: Params, c: Core, tx: Tx, n: nat, m: nat)
    requires Unspent(c, tx.inputs) && LookedAt(p, c, tx, n) && LookedAt(p, c, tx, m)
    ensures n == m
  {
    hide SignedAt;
  }

  /** A transaction verifies exactly when its id and outputs are new, its inputs are unspent, the inputs
      looked at are signed, their rows cover it, and the contract holds. */
  lemma VerifyIff(p: Params, c: Core, tx: Tx, coinbase: bool)
    ensures Verify(p, c, tx, coinbase) <==>
              && New(p.h, c, tx) && Unspent(c, tx.inputs) && p.contract(c, tx)
              && exists n :: LookedAt(p, c, tx, n) && Covered(p, tx, Rows(c, tx.inputs, n), coinbase)
  {
    hide TxId, ScanInputs, Values, OutputSum64, OutputTotal, LookedAt, Rows;
    OutputSumMod(tx.outputs);
    if Unspent(c, tx.inputs) {
      NoRows(c, tx.inputs);
      var n := ScanIs(p, c, tx, 0);
      forall m | LookedAt(p, c, tx, m) ensures m == n {
        LookedAtOnce(p, c, tx, n, m);
      }
    }
  }

  lemma NoRows(c: Core, ins: seq<Input>)
    requires Unspent(c, ins)
    ensures Rows(c, ins, 0) == [] && Values(Rows(c, ins, 0)) % U64 == 0
  {
  }

  /** No verified transaction has a badly signed input before the first one that ends the looking. */
  lemma NoBadInput(p: Params, c: Core, tx: Tx, coinbase: bool, i: nat)
    requires Verify(p, c, tx, coinbase) && i < |tx.inputs|
    ensures Unspent(c, tx.inputs)
    ensures (forall j :: 0 <= j < i ==> SignedAt(p, c, tx, j) != Last) ==> SignedAt(p, c, tx, i) != Bad
  {
    hide Verify, SignedAt, Covered;
    VerifyIff(p, c, tx, coinbase);
    var n :| LookedAt(p, c, tx, n);
  }

  // ---- blocks ----

  lemma ModAdd(a: int, b: int)
    ensures (a % U64 + b % U64) % U64 == (a + b) % U64
  {
    var q, r := a / U64, b / U64;
    assert a == q * U64 + a % U64 && b == r * U64 + b % U64;
    assert a + b == (q + r) * U64 + (a % U64 + b % U64);
  }

  lemma ModSub(a: int, b: int)
    ensures (a % U64 - b % U64) % U64 == (a - b) % U64
  {
    var q, r := a / U64, b / U64;
    assert a == q * U64 + a % U64 && b == r * U64 + b % U64;
    assert a - b == (q - r) * U64 + (a % U64 - b % U64);
  }

  lemma {:induction false} InputSumMod(c: Core, ins: seq<Input>)
    ensures InputSum64(c, ins) == InputTotal(c.utxos, ins) % U64
  {
    if ins != [] {
      var n := |ins| - 1;
      var v := if ins[n].outputId in c.utxos then c.utxos[ins[n].outputId].output.value else 0;
      InputSumMod(c, ins[..n]);
      ModMore(InputTotal(c.utxos, ins[..n]), v);
    }
  }

  /** Fees are added up modulo 2^64. */
  lemma {:induction false} FeesMod(c: Core, txs: seq<Tx>)
    ensures Fees64(c, txs) == FeeTotal(c, txs) % U64
  {
    if txs != [] {
      hide OutputSum64, OutputTotal, InputSum64, InputTotal;
      var n := |txs| - 1;
      FeesMod(c, txs[..n]);
      InputSumMod(c, txs[n].inputs);
      OutputSumMod(txs[n].outputs);
      ModSub(InputTotal(c.utxos, txs[n].inputs), OutputTotal(txs[n].outputs));
      ModAdd(FeeTotal(c, txs[..n]), InputTotal(c.utxos, txs[n].inputs) - OutputTotal(txs[n].outputs));
    }
  }

  /** A block passes exactly when each of its transactions and its coinbase verify and the coinbase pays
      out no more than the fees and the reward, all modulo 2^64. */
  lemma AcceptableIff(p: Params, c: Core, b: Block, height: nat)
    ensures Acceptable(p, c, b, height) <==>
              && (forall i :: 0 <= i < |b.txs| ==> Verify(p, c, b.txs[i], false))
              && Verify(p, c, b.coinbase, true)
              && OutputTotal(b.coinbase.outputs) % U64 <= (FeeTotal(c, b.txs) + p.reward(height)) % U64
  {
    hide Verify, Fees64, FeeTotal, OutputSum64, OutputTotal;
    FeesMod(c, b.txs);
    OutputSumMod(b.coinbase.outputs);
    ModMore(FeeTotal(c, b.txs), p.reward(height));
  }

  lemma ModMore(a: int, b: nat)
    ensures (a % U64 + b) % U64 == (a + b) % U64
  {
    var q := a / U64;
    assert a + b == q * U64 + (a % U64 + b);
  }
}
