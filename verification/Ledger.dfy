/** The transaction tables and the effect of one transaction on them. */
module Ledger {
  import opened Types
  import opened Maps

  datatype Core = Core(txs: map<Id, DbTx>,
                       utxos: map<Id, DbOutput>,
                       stxos: map<Id, DbOutput>,
                       inputs: map<Id, Input>)

  const Empty := Core(map[], map[], map[], map[])

  function OutputRows(h: Hashes, outs: seq<Output>, tx: Id): (r: map<Id, DbOutput>)
    ensures forall id :: id in r ==> h.output(r[id].output) == id && r[id].creationTx == tx && r[id].output in outs
    ensures r.Keys == ToSet(OutputIds(h, outs))
  {
    if outs == [] then map[] else
      var n := |outs| - 1;
      var r := OutputRows(h, outs[..n], tx)[h.output(outs[n]) := DbOutput(outs[n], tx)];
      assert OutputIds(h, outs) == OutputIds(h, outs[..n]) + [h.output(outs[n])];
      r
  }

  function InputRows(h: Hashes, ins: seq<Input>): (r: map<Id, Input>)
    ensures forall id :: id in r ==> h.input(r[id]) == id && r[id] in ins
    ensures r.Keys == ToSet(InputIds(h, ins))
  {
    if ins == [] then map[] else
      var n := |ins| - 1;
      var r := InputRows(h, ins[..n])[h.input(ins[n]) := ins[n]];
      assert InputIds(h, ins) == InputIds(h, ins[..n]) + [h.input(ins[n])];
      r
  }

  function Spent(tx: Tx): set<Id> {
    ToSet(SpentIds(tx.inputs))
  }

  function Made(h: Hashes, tx: Tx): set<Id> {
    ToSet(OutputIds(h, tx.outputs))
  }

  function Uses(h: Hashes, tx: Tx): set<Id> {
    ToSet(InputIds(h, tx.inputs))
  }

  /** `confirmTransaction`: spent outputs move from `utxos` to `stxos`, new ones appear. */
  function Confirm(h: Hashes, c: Core, tx: Tx, block: Id, coinbase: bool): Core {
    c.(utxos := Swap(c.utxos, Spent(tx), OutputRows(h, tx.outputs, TxId(h, tx))),
       stxos := c.stxos + Restrict(c.utxos, Spent(tx)),
       inputs := c.inputs + InputRows(h, tx.inputs),
       txs := c.txs[TxId(h, tx) := ToDbTx(h, tx, block, coinbase)])
  }

  /** What `reverseBlock` does for one transaction of the tip. */
  function Undo(h: Hashes, c: Core, tx: Tx): Core {
    c.(utxos := Swap(c.utxos, Made(h, tx), Restrict(c.stxos, Spent(tx))),
       stxos := c.stxos - Spent(tx),
       inputs := c.inputs - Uses(h, tx),
       txs := c.txs - {TxId(h, tx)})
  }

  /** The tables agree with themselves: rows sit under their own ids, nothing is both spent and
      unspent, and every recorded input spent something. */
  ghost predicate Coherent(h: Hashes, c: Core) {
    && c.utxos.Keys !! c.stxos.Keys
    && (forall id :: id in c.utxos ==> h.output(c.utxos[id].output) == id)
    && (forall id :: id in c.stxos ==> h.output(c.stxos[id].output) == id)
    && (forall id :: id in c.inputs ==> h.input(c.inputs[id]) == id && c.inputs[id].outputId in c.stxos)
  }

  /** `tx` can be confirmed on `c`: the existence checks of `verifyTransaction`. */
  ghost predicate Fits(h: Hashes, c: Core, tx: Tx) {
    && TxId(h, tx) !in c.txs
    && Made(h, tx) !! c.utxos.Keys
    && Made(h, tx) !! c.stxos.Keys
    && Spent(tx) <= c.utxos.Keys
    && Made(h, tx) !! Spent(tx)
  }

  lemma FitsSpends(h: Hashes, c: Core, tx: Tx)
    requires Fits(h, c, tx)
    ensures Spent(tx) <= c.utxos.Keys
  {
  }

  lemma FreshInputs(h: Hashes, c: Core, tx: Tx)
    requires Sound(h) && Coherent(h, c) && Fits(h, c, tx)
    ensures Uses(h, tx) !! c.inputs.Keys
  {
    forall id | id in Uses(h, tx) ensures id !in c.inputs {
      var i :| 0 <= i < |tx.inputs| && InputIds(h, tx.inputs)[i] == id;
      assert SpentIds(tx.inputs)[i] in Spent(tx);
    }
  }

  lemma ConfirmCoherent(h: Hashes, c: Core, tx: Tx, block: Id, coinbase: bool)
    requires Coherent(h, c) && Fits(h, c, tx)
    ensures Coherent(h, Confirm(h, c, tx, block, coinbase))
  {
    hide OutputRows, InputRows, TxId, ToDbTx, Spent, Made, Swap, Restrict, Fits;
    ConfirmOutputs(h, c, tx);
    ConfirmInputs(h, c, tx);
    var d := Confirm(h, c, tx, block, coinbase);
    assert d.utxos == Swap(c.utxos, Spent(tx), OutputRows(h, tx.outputs, TxId(h, tx)));
    assert d.stxos == c.stxos + Restrict(c.utxos, Spent(tx));
    assert d.inputs == c.inputs + InputRows(h, tx.inputs);
  }

  lemma ConfirmOutputs(h: Hashes, c: Core, tx: Tx)
    requires Coherent(h, c) && Fits(h, c, tx)
    ensures var u := Swap(c.utxos, Spent(tx), OutputRows(h, tx.outputs, TxId(h, tx)));
            var s := c.stxos + Restrict(c.utxos, Spent(tx));
            && u.Keys !! s.Keys
            && (forall id :: id in u ==> h.output(u[id].output) == id)
            && (forall id :: id in s ==> h.output(s[id].output) == id)
  {
    var rows := OutputRows(h, tx.outputs, TxId(h, tx));
    assert rows.Keys == Made(h, tx);
    hide OutputRows, TxId, Spent, Made, Swap, Restrict;
    MovedKeys(c.utxos, c.stxos, Spent(tx), rows);
    var u, s := Swap(c.utxos, Spent(tx), rows), c.stxos + Restrict(c.utxos, Spent(tx));
    forall id | id in u ensures h.output(u[id].output) == id {
      MovedRows(c.utxos, c.stxos, Spent(tx), rows, id);
    }
    forall id | id in s ensures h.output(s[id].output) == id {
      MovedRows(c.utxos, c.stxos, Spent(tx), rows, id);
    }
  }

  lemma ConfirmInputs(h: Hashes, c: Core, tx: Tx)
    requires Coherent(h, c) && Fits(h, c, tx)
    ensures var ins := c.inputs + InputRows(h, tx.inputs);
            var s := c.stxos + Restrict(c.utxos, Spent(tx));
            forall id :: id in ins ==> h.input(ins[id]) == id && ins[id].outputId in s
  {
    hide InputRows, Spent, Made, Swap, Restrict, TxId;
    RowsSpend(h, tx);
    MovedKeys(c.utxos, c.stxos, Spent(tx), map[]);
  }

  lemma RowsSpend(h: Hashes, tx: Tx)
    ensures forall id :: id in InputRows(h, tx.inputs) ==> InputRows(h, tx.inputs)[id].outputId in Spent(tx)
  {
    hide InputRows;
    forall id | id in InputRows(h, tx.inputs) ensures InputRows(h, tx.inputs)[id].outputId in Spent(tx) {
      var i :| 0 <= i < |tx.inputs| && tx.inputs[i] == InputRows(h, tx.inputs)[id];
      assert SpentIds(tx.inputs)[i] == tx.inputs[i].outputId;
    }
  }

  /** Undoing a transaction that was just confirmed restores every table. */
  lemma UndoConfirm(h: Hashes, c: Core, tx: Tx, block: Id, coinbase: bool)
    requires Sound(h) && Coherent(h, c) && Fits(h, c, tx)
    ensures Undo(h, Confirm(h, c, tx, block, coinbase), tx) == c
  {
    hide OutputRows, InputRows, TxId, ToDbTx, Spent, Uses, Made, Swap, Restrict, Coherent, Fits, Sound;
    UndoOutputs(h, c, tx);
    UndoInputs(h, c, tx);
    UndoRow(h, c, tx, ToDbTx(h, tx, block, coinbase));
  }

  lemma UndoOutputs(h: Hashes, c: Core, tx: Tx)
    requires Fits(h, c, tx) && Coherent(h, c)
    ensures var gone := Restrict(c.utxos, Spent(tx));
            && Swap(Swap(c.utxos, Spent(tx), OutputRows(h, tx.outputs, TxId(h, tx))), Made(h, tx), Restrict(c.stxos + gone, Spent(tx))) == c.utxos
            && (c.stxos + gone) - Spent(tx) == c.stxos
  {
    var rows := OutputRows(h, tx.outputs, TxId(h, tx));
    assert rows.Keys == Made(h, tx);
    hide OutputRows, TxId, Made, Spent;
    SwapBack(c.utxos, c.stxos, Spent(tx), rows);
    assert Restrict(c.utxos, Spent(tx)).Keys == Spent(tx);
    AddBack(c.stxos, Restrict(c.utxos, Spent(tx)));
  }

  lemma UndoInputs(h: Hashes, c: Core, tx: Tx)
    requires Sound(h) && Coherent(h, c) && Fits(h, c, tx)
    ensures (c.inputs + InputRows(h, tx.inputs)) - Uses(h, tx) == c.inputs
  {
    FreshInputs(h, c, tx);
    assert InputRows(h, tx.inputs).Keys == Uses(h, tx);
    hide InputRows, Uses;
    AddBack(c.inputs, InputRows(h, tx.inputs));
  }

  lemma UndoRow(h: Hashes, c: Core, tx: Tx, row: DbTx)
    requires Fits(h, c, tx)
    ensures c.txs[TxId(h, tx) := row] - {TxId(h, tx)} == c.txs
  {
    hide TxId, Made, Spent;
  }

  /** Two transactions that touch no common output, input or id. */
  ghost predicate Apart(h: Hashes, a: Tx, b: Tx) {
    && Spent(a) !! Spent(b)
    && Spent(a) !! Made(h, b)
    && Made(h, a) !! Spent(b)
    && Made(h, a) !! Made(h, b)
    && Uses(h, a) !! Uses(h, b)
    && TxId(h, a) != TxId(h, b)
  }

  lemma ConfirmsCommute(h: Hashes, c: Core, a: Tx, b: Tx, block: Id, ca: bool, cb: bool)
    requires Apart(h, a, b)
    ensures Confirm(h, Confirm(h, c, a, block, ca), b, block, cb)
         == Confirm(h, Confirm(h, c, b, block, cb), a, block, ca)
  {
    var x, y := OutputRows(h, a.outputs, TxId(h, a)), OutputRows(h, b.outputs, TxId(h, b));
    SwapsCommute(c.utxos, Spent(a), x, Spent(b), y);
    RestrictSwap(c.utxos, Spent(a), x, Spent(b));
    RestrictSwap(c.utxos, Spent(b), y, Spent(a));
    AddsCommute(c.stxos, Restrict(c.utxos, Spent(a)), Restrict(c.utxos, Spent(b)));
    AddsCommute(c.inputs, InputRows(h, a.inputs), InputRows(h, b.inputs));
    var p, q := ToDbTx(h, a, block, ca), ToDbTx(h, b, block, cb);
    assert c.txs[TxId(h, a) := p][TxId(h, b) := q] == c.txs[TxId(h, b) := q][TxId(h, a) := p];
  }

  lemma UndoCommutes(h: Hashes, c: Core, a: Tx, b: Tx, block: Id, cb: bool)
    requires Apart(h, a, b)
    ensures Undo(h, Confirm(h, c, b, block, cb), a) == Confirm(h, Undo(h, c, a), b, block, cb)
  {
    var y := OutputRows(h, b.outputs, TxId(h, b));
    var back := Restrict(c.stxos, Spent(a));
    var gone := Restrict(c.utxos, Spent(b));
    assert Restrict(c.stxos + gone, Spent(a)) == back;
    SwapsCommute(c.utxos, Spent(b), y, Made(h, a), back);
    RestrictSwap(c.utxos, Made(h, a), back, Spent(b));
    AddRemoveCommute(c.stxos, gone, Spent(a));
    AddRemoveCommute(c.inputs, InputRows(h, b.inputs), Uses(h, a));
    var q := ToDbTx(h, b, block, cb);
    assert c.txs[TxId(h, b) := q] - {TxId(h, a)} == (c.txs - {TxId(h, a)})[TxId(h, b) := q];
  }

  lemma FitsAfter(h: Hashes, c: Core, a: Tx, b: Tx, block: Id, ca: bool)
    requires Apart(h, a, b) && Spent(a) <= c.utxos.Keys
    ensures Fits(h, Confirm(h, c, a, block, ca), b) <==> Fits(h, c, b)
  {
    hide OutputRows, InputRows, TxId, ToDbTx, Spent, Swap, Restrict, Uses;
    MovedKeys(c.utxos, c.stxos, Spent(a), OutputRows(h, a.outputs, TxId(h, a)));
    assert OutputRows(h, a.outputs, TxId(h, a)).Keys == Made(h, a);
    hide Made;
    var d := Confirm(h, c, a, block, ca);
    assert d.utxos.Keys == (c.utxos.Keys - Spent(a)) + Made(h, a);
    hide Confirm;
    var mine, rest := Made(h, b), Spent(b);
    assert mine !! d.utxos.Keys <==> mine !! c.utxos.Keys;
  }
}
