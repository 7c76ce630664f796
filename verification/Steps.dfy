/** The single table updates that `confirmTransaction` and `reverseBlock` perform in their loops,
    and what whole loops of them amount to. */
module Steps {
  import opened Types
  import opened Maps
  import opened Ledger
  import opened Blocks
  import opened Index

  function KeyString(o: Output, id: Id): set<string> {
    if o.key.Some? then {o.key.value + id.hex} else {}
  }

  /** Move one spent output and record the input; a missing output would throw. */
  function SpendOne(h: Hashes, t: State, i: Input): State {
    if i.outputId !in t.core.utxos then t else
      var row := t.core.utxos[i.outputId];
      var ks := KeyString(row.output, i.outputId);
      t.(core := t.core.(stxos := t.core.stxos[i.outputId := row],
                         utxos := t.core.utxos - {i.outputId},
                         inputs := t.core.inputs[h.input(i) := i]),
         keys := Keys(t.keys.utxo - ks, t.keys.stxo + ks))
  }

  function MakeOne(h: Hashes, t: State, o: Output, tx: Id): State {
    t.(core := t.core.(utxos := t.core.utxos[h.output(o) := DbOutput(o, tx)]),
       keys := t.keys.(utxo := t.keys.utxo + KeyString(o, h.output(o))))
  }

  function EraseOne(h: Hashes, t: State, o: Output): State {
    t.(core := t.core.(utxos := t.core.utxos - {h.output(o)}),
       keys := t.keys.(utxo := t.keys.utxo - KeyString(o, h.output(o))))
  }

  /** Forget one input and make its output unspent again; a missing output would throw. */
  function RestoreOne(h: Hashes, t: State, i: Input): State {
    if i.outputId !in t.core.stxos then t else
      var row := t.core.stxos[i.outputId];
      var ks := KeyString(row.output, i.outputId);
      t.(core := t.core.(inputs := t.core.inputs - {h.input(i)},
                         stxos := t.core.stxos - {i.outputId},
                         utxos := t.core.utxos[i.outputId := row]),
         keys := Keys(t.keys.utxo + ks, t.keys.stxo - ks))
  }

  function Spends(h: Hashes, t: State, ins: seq<Input>): State {
    if ins == [] then t else SpendOne(h, Spends(h, t, ins[..|ins| - 1]), ins[|ins| - 1])
  }

  function Makes(h: Hashes, t: State, outs: seq<Output>, tx: Id): State {
    if outs == [] then t else MakeOne(h, Makes(h, t, outs[..|outs| - 1], tx), outs[|outs| - 1], tx)
  }

  function Erases(h: Hashes, t: State, outs: seq<Output>): State {
    if outs == [] then t else EraseOne(h, Erases(h, t, outs[..|outs| - 1]), outs[|outs| - 1])
  }

  function Restores(h: Hashes, t: State, ins: seq<Input>): State {
    if ins == [] then t else RestoreOne(h, Restores(h, t, ins[..|ins| - 1]), ins[|ins| - 1])
  }

  // ---- closed forms ----

  lemma StringsOne(id: Id, row: DbOutput)
    ensures KeyStrings(map[id := row]) == KeyString(row.output, id)
  {
    var m := map[id := row];
    if row.output.key.Some? {
      assert row.output.key.value + id.hex in KeyStrings(m) by { assert id in m; }
    }
  }

  /** One more row of a restriction. */
  lemma RestrictMore(m: map<Id, DbOutput>, ids: set<Id>, id: Id)
    requires id in m && id !in ids
    ensures Restrict(m, ids + {id}) == Restrict(m, ids)[id := m[id]]
    ensures KeyStrings(Restrict(m, ids + {id})) == KeyStrings(Restrict(m, ids)) + KeyString(m[id].output, id)
  {
    var r := Restrict(m, ids);
    assert r[id := m[id]] == r + map[id := m[id]];
    StringsAdd(r, map[id := m[id]]);
    StringsOne(id, m[id]);
  }

  lemma LastSpent(ins: seq<Input>)
    requires ins != [] && Distinct(SpentIds(ins))
    ensures var n := |ins| - 1;
            && Distinct(SpentIds(ins[..n])) && ins[n].outputId !in ToSet(SpentIds(ins[..n]))
            && ToSet(SpentIds(ins)) == ToSet(SpentIds(ins[..n])) + {ins[n].outputId}
  {
    var n := |ins| - 1;
    assert SpentIds(ins) == SpentIds(ins[..n]) + [ins[n].outputId];
    DistinctParts(SpentIds(ins[..n]), [ins[n].outputId]);
    assert ins[n].outputId in [ins[n].outputId];
  }

  /** All of `ins` spent at once. */
  function SpendForm(h: Hashes, t: State, ids: set<Id>, rows: map<Id, Input>): State {
    var gone := Restrict(t.core.utxos, ids);
    t.(core := t.core.(stxos := t.core.stxos + gone, utxos := t.core.utxos - ids, inputs := t.core.inputs + rows),
       keys := Keys(t.keys.utxo - KeyStrings(gone), t.keys.stxo + KeyStrings(gone)))
  }

  lemma FormNothing(h: Hashes, t: State)
    ensures SpendForm(h, t, {}, map[]) == t && RestoreForm(h, t, {}, {}) == t
  {
    assert Restrict(t.core.utxos, {}) == map[] && Restrict(t.core.stxos, {}) == map[];
    assert KeyStrings(map[]) == {};
    assert t.core.stxos + map[] == t.core.stxos && t.core.utxos + map[] == t.core.utxos && t.core.inputs + map[] == t.core.inputs;
    assert t.core.utxos - {} == t.core.utxos && t.core.stxos - {} == t.core.stxos && t.core.inputs - {} == t.core.inputs;
  }

  lemma SpendFormStep(h: Hashes, t: State, ids: set<Id>, rows: map<Id, Input>, i: Input)
    requires i.outputId in t.core.utxos && i.outputId !in ids
    ensures SpendOne(h, SpendForm(h, t, ids, rows), i) == SpendForm(h, t, ids + {i.outputId}, rows[h.input(i) := i])
  {
    hide KeyStrings, KeyString, Restrict;
    var id := i.outputId;
    var u, v := t.core.utxos, SpendForm(h, t, ids, rows);
    RestrictMore(u, ids, id);
    assert v.core.utxos[id] == u[id];
    DropMore(u, ids, id);
    AddPut(t.core.stxos, Restrict(u, ids), id, u[id]);
    AddPut(t.core.inputs, rows, h.input(i), i);
    assert t.keys.utxo - KeyStrings(Restrict(u, ids)) - KeyString(u[id].output, id)
        == t.keys.utxo - (KeyStrings(Restrict(u, ids)) + KeyString(u[id].output, id));
  }

  lemma {:induction false} SpendsClosed(h: Hashes, t: State, ins: seq<Input>)
    requires Distinct(SpentIds(ins)) && ToSet(SpentIds(ins)) <= t.core.utxos.Keys
    ensures Spends(h, t, ins) == SpendForm(h, t, ToSet(SpentIds(ins)), InputRows(h, ins))
  {
    if ins == [] {
      FormNothing(h, t);
      assert ToSet(SpentIds(ins)) == {} && InputRows(h, ins) == map[];
    } else {
      hide SpentIds, ToSet, Distinct, SpendForm, SpendOne;
      var n := |ins| - 1;
      LastSpent(ins);
      SpendsClosed(h, t, ins[..n]);
      SpendFormStep(h, t, ToSet(SpentIds(ins[..n])), InputRows(h, ins[..n]), ins[n]);
    }
  }

  lemma LastMade(h: Hashes, outs: seq<Output>)
    requires outs != [] && Distinct(OutputIds(h, outs))
    ensures var n := |outs| - 1;
            && Distinct(OutputIds(h, outs[..n])) && h.output(outs[n]) !in ToSet(OutputIds(h, outs[..n]))
            && ToSet(OutputIds(h, outs)) == ToSet(OutputIds(h, outs[..n])) + {h.output(outs[n])}
  {
    var n := |outs| - 1;
    assert OutputIds(h, outs) == OutputIds(h, outs[..n]) + [h.output(outs[n])];
    DistinctParts(OutputIds(h, outs[..n]), [h.output(outs[n])]);
    assert h.output(outs[n]) in [h.output(outs[n])];
  }

  function MakeForm(t: State, rows: map<Id, DbOutput>): State {
    t.(core := t.core.(utxos := t.core.utxos + rows), keys := t.keys.(utxo := t.keys.utxo + KeyStrings(rows)))
  }

  function EraseForm(t: State, rows: map<Id, DbOutput>): State {
    t.(core := t.core.(utxos := t.core.utxos - rows.Keys), keys := t.keys.(utxo := t.keys.utxo - KeyStrings(rows)))
  }

  lemma MakeFormStep(h: Hashes, t: State, rows: map<Id, DbOutput>, o: Output, tx: Id)
    requires h.output(o) !in rows
    ensures MakeOne(h, MakeForm(t, rows), o, tx) == MakeForm(t, rows[h.output(o) := DbOutput(o, tx)])
    ensures EraseOne(h, EraseForm(t, rows), o) == EraseForm(t, rows[h.output(o) := DbOutput(o, tx)])
  {
    var id, row := h.output(o), DbOutput(o, tx);
    assert rows[id := row] == rows + map[id := row];
    StringsAdd(rows, map[id := row]);
    StringsOne(id, row);
    hide KeyStrings, KeyString;
    AddPut(t.core.utxos, rows, id, row);
    DropMore(t.core.utxos, rows.Keys, id);
    assert rows[id := row].Keys == rows.Keys + {id};
    assert t.keys.utxo - KeyStrings(rows) - KeyString(o, id) == t.keys.utxo - KeyStrings(rows[id := row]);
  }

  lemma MakeNothing(t: State)
    ensures MakeForm(t, map[]) == t && EraseForm(t, map[]) == t
  {
    var none: map<Id, DbOutput> := map[];
    assert KeyStrings(none) == {} && none.Keys == {};
    assert t.core.utxos + none == t.core.utxos && t.core.utxos - none.Keys == t.core.utxos;
  }

  lemma {:induction false} MakesClosed(h: Hashes, t: State, outs: seq<Output>, tx: Id)
    requires Distinct(OutputIds(h, outs))
    ensures Makes(h, t, outs, tx) == MakeForm(t, OutputRows(h, outs, tx))
    ensures Erases(h, t, outs) == EraseForm(t, OutputRows(h, outs, tx))
  {
    if outs == [] {
      MakeNothing(t);
    } else {
      hide OutputIds, Distinct, MakeForm, EraseForm, MakeOne, EraseOne;
      var n := |outs| - 1;
      LastMade(h, outs);
      MakesClosed(h, t, outs[..n], tx);
      MakeFormStep(h, t, OutputRows(h, outs[..n], tx), outs[n], tx);
    }
  }

  lemma UsesMore(h: Hashes, ins: seq<Input>)
    requires ins != []
    ensures var n := |ins| - 1; ToSet(InputIds(h, ins)) == ToSet(InputIds(h, ins[..n])) + {h.input(ins[n])}
  {
    var n := |ins| - 1;
    assert InputIds(h, ins) == InputIds(h, ins[..n]) + [h.input(ins[n])];
  }

  function RestoreForm(h: Hashes, t: State, ids: set<Id>, uses: set<Id>): State {
    var back := Restrict(t.core.stxos, ids);
    t.(core := t.core.(inputs := t.core.inputs - uses, stxos := t.core.stxos - ids, utxos := t.core.utxos + back),
       keys := Keys(t.keys.utxo + KeyStrings(back), t.keys.stxo - KeyStrings(back)))
  }

  lemma RestoreFormStep(h: Hashes, t: State, ids: set<Id>, uses: set<Id>, i: Input)
    requires i.outputId in t.core.stxos && i.outputId !in ids
    ensures RestoreOne(h, RestoreForm(h, t, ids, uses), i) == RestoreForm(h, t, ids + {i.outputId}, uses + {h.input(i)})
  {
    hide KeyStrings, KeyString, Restrict;
    var id := i.outputId;
    var s, v := t.core.stxos, RestoreForm(h, t, ids, uses);
    RestrictMore(s, ids, id);
    assert v.core.stxos[id] == s[id];
    assert s - ids - {id} == s - (ids + {id});
    assert (t.core.utxos + Restrict(s, ids))[id := s[id]] == t.core.utxos + Restrict(s, ids)[id := s[id]];
    assert t.core.inputs - uses - {h.input(i)} == t.core.inputs - (uses + {h.input(i)});
    assert t.keys.stxo - KeyStrings(Restrict(s, ids)) - KeyString(s[id].output, id)
        == t.keys.stxo - (KeyStrings(Restrict(s, ids)) + KeyString(s[id].output, id));
  }

  lemma {:induction false} RestoresClosed(h: Hashes, t: State, ins: seq<Input>)
    requires Distinct(SpentIds(ins)) && ToSet(SpentIds(ins)) <= t.core.stxos.Keys
    ensures Restores(h, t, ins) == RestoreForm(h, t, ToSet(SpentIds(ins)), ToSet(InputIds(h, ins)))
  {
    if ins == [] {
      FormNothing(h, t);
      assert ToSet(SpentIds(ins)) == {} && ToSet(InputIds(h, ins)) == {};
    } else {
      hide SpentIds, ToSet, Distinct, RestoreForm, RestoreOne, InputIds;
      var n := |ins| - 1;
      LastSpent(ins);
      UsesMore(h, ins);
      RestoresClosed(h, t, ins[..n]);
      RestoreFormStep(h, t, ToSet(SpentIds(ins[..n])), ToSet(InputIds(h, ins[..n])), ins[n]);
    }
  }

  /** The two loops of `confirmTransaction`, then the transaction's row, have the effect of `ConfirmTx`. */
  lemma ConfirmSteps(h: Hashes, t: State, tx: Tx, block: Id, coinbase: bool)
    requires Distinct(Claims(h, tx)) && Spent(tx) <= t.core.utxos.Keys
    ensures var u := Makes(h, Spends(h, t, tx.inputs), tx.outputs, TxId(h, tx));
            u.(core := u.core.(txs := u.core.txs[TxId(h, tx) := ToDbTx(h, tx, block, coinbase)]))
              == ConfirmTx(h, t, tx, block, coinbase)
  {
    hide KeyStrings, OutputRows, InputRows, TxId, ToDbTx, Spends, Makes;
    DistinctParts(SpentIds(tx.inputs), OutputIds(h, tx.outputs));
    SpendsClosed(h, t, tx.inputs);
    MakesClosed(h, Spends(h, t, tx.inputs), tx.outputs, TxId(h, tx));
  }

  /** The two loops of `reverseBlock` for one transaction, then its row, have the effect of `UndoTx`. */
  lemma UndoSteps(h: Hashes, t: State, tx: Tx)
    requires Distinct(Claims(h, tx)) && Spent(tx) <= t.core.stxos.Keys
    ensures var u := Restores(h, Erases(h, t, tx.outputs), tx.inputs);
            u.(core := u.core.(txs := u.core.txs - {TxId(h, tx)})) == UndoTx(h, t, tx)
  {
    hide KeyStrings, OutputRows, InputRows, TxId, Restores, Erases;
    DistinctParts(SpentIds(tx.inputs), OutputIds(h, tx.outputs));
    MakesClosed(h, t, tx.outputs, TxId(h, tx));
    RestoresClosed(h, Erases(h, t, tx.outputs), tx.inputs);
  }
}
