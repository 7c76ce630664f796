/** Where every row of the transaction tables comes from: the tables of a chain, told from the list of
    everything it confirms. */
module Provenance {
  import opened Types
  import opened Ledger
  import opened Blocks
  import opened Reversal
  import opened Submission
  import opened Chain
  import opened Archive

  /** One confirmation: which transaction, by which block, and whether as its coinbase. */
  datatype Entry = Entry(tx: Tx, block: Id, coinbase: bool)

  function Entries(txs: seq<Tx>, block: Id): seq<Entry> {
    seq(|txs|, i requires 0 <= i < |txs| => Entry(txs[i], block, false))
  }

  /** Everything a chain confirms, in order. */
  function Log(h: Hashes, chain: seq<Block>): seq<Entry> {
    if chain == [] then [] else
      var b := chain[|chain| - 1];
      Log(h, chain[..|chain| - 1]) + [Entry(b.coinbase, BlockId(h, b), true)] + Entries(b.txs, BlockId(h, b))
  }

  function SpentBy(log: seq<Entry>): set<Id> {
    if log == [] then {} else SpentBy(log[..|log| - 1]) + Spent(log[|log| - 1].tx)
  }

  function MadeBy(h: Hashes, log: seq<Entry>): set<Id> {
    if log == [] then {} else MadeBy(h, log[..|log| - 1]) + Made(h, log[|log| - 1].tx)
  }

  function UsedBy(h: Hashes, log: seq<Entry>): set<Id> {
    if log == [] then {} else UsedBy(h, log[..|log| - 1]) + Uses(h, log[|log| - 1].tx)
  }

  function IdsBy(h: Hashes, log: seq<Entry>): set<Id> {
    if log == [] then {} else IdsBy(h, log[..|log| - 1]) + {TxId(h, log[|log| - 1].tx)}
  }

  /** The row of a confirmation, field by field. */
  ghost predicate RowOf(h: Hashes, txs: map<Id, DbTx>, e: Entry) {
    var id := TxId(h, e.tx);
    && id in txs
    && txs[id].confirmingBlock == e.block && txs[id].coinbase == e.coinbase && txs[id].timestamp == e.tx.timestamp
    && txs[id].inputs == InputIds(h, e.tx.inputs) && txs[id].outputs == OutputIds(h, e.tx.outputs)
  }

  /** An output's row names the transaction that made it, and that one's row names the output. */
  ghost predicate MadeRow(h: Hashes, txs: map<Id, DbTx>, id: Id, row: DbOutput) {
    h.output(row.output) == id && row.creationTx in txs && id in txs[row.creationTx].outputs
  }

  /** The tables hold what the log says and nothing else. */
  ghost predicate Logged(h: Hashes, c: Core, log: seq<Entry>) {
    && c.txs.Keys == IdsBy(h, log) && (forall i :: 0 <= i < |log| ==> RowOf(h, c.txs, log[i]))
    && c.stxos.Keys == SpentBy(log) && c.utxos.Keys == MadeBy(h, log) - SpentBy(log)
    && c.inputs.Keys == UsedBy(h, log)
    && (forall id :: id in c.utxos ==> MadeRow(h, c.txs, id, c.utxos[id]))
    && (forall id :: id in c.stxos ==> MadeRow(h, c.txs, id, c.stxos[id]))
    && (forall id :: id in c.inputs ==> h.input(c.inputs[id]) == id)
  }

  lemma Sets(h: Hashes, log: seq<Entry>, e: Entry)
    ensures SpentBy(log + [e]) == SpentBy(log) + Spent(e.tx) && MadeBy(h, log + [e]) == MadeBy(h, log) + Made(h, e.tx)
    ensures UsedBy(h, log + [e]) == UsedBy(h, log) + Uses(h, e.tx) && IdsBy(h, log + [e]) == IdsBy(h, log) + {TxId(h, e.tx)}
  {
    hide TxId, Spent, Made, Uses;
    assert (log + [e])[..|log|] == log;
  }

  /** One confirmation more. */
  lemma ConfirmLogged(h: Hashes, c: Core, log: seq<Entry>, e: Entry)
    requires Logged(h, c, log) && Fits(h, c, e.tx)
    ensures Logged(h, Confirm(h, c, e.tx, e.block, e.coinbase), log + [e])
  {
    var d := Confirm(h, c, e.tx, e.block, e.coinbase);
    Sets(h, log, e);
    KeysAfter(h, c, log, e);
    RowsAfter(h, c, log, e);
    OutputsAfter(h, c, log, e);
    hide Confirm, RowOf, MadeRow, SpentBy, MadeBy, UsedBy, IdsBy, Spent, Made, Uses, TxId, Fits;
    forall i | 0 <= i < |log + [e]| ensures RowOf(h, d.txs, (log + [e])[i]) {
      if i < |log| { assert (log + [e])[i] == log[i]; }
    }
  }

  lemma KeysAfter(h: Hashes, c: Core, log: seq<Entry>, e: Entry)
    requires Logged(h, c, log) && Fits(h, c, e.tx)
    ensures var d := Confirm(h, c, e.tx, e.block, e.coinbase);
            && d.txs.Keys == IdsBy(h, log) + {TxId(h, e.tx)}
            && d.stxos.Keys == SpentBy(log) + Spent(e.tx)
            && d.utxos.Keys == MadeBy(h, log) + Made(h, e.tx) - (SpentBy(log) + Spent(e.tx))
            && d.inputs.Keys == UsedBy(h, log) + Uses(h, e.tx)
  {
    hide TxId, OutputRows, InputRows, Spent, Made, Uses, ToDbTx, RowOf, MadeRow, SpentBy, MadeBy, UsedBy, IdsBy;
    var rows := OutputRows(h, e.tx.outputs, TxId(h, e.tx));
    assert rows.Keys == Made(h, e.tx) by { hide *; MadeIs(h, e.tx); }
    assert InputRows(h, e.tx.inputs).Keys == Uses(h, e.tx) by { hide *; UsesIs(h, e.tx); }
  }

  lemma MadeIs(h: Hashes, tx: Tx)
    ensures OutputRows(h, tx.outputs, TxId(h, tx)).Keys == Made(h, tx)
  {
    hide OutputRows;
  }

  lemma UsesIs(h: Hashes, tx: Tx)
    ensures InputRows(h, tx.inputs).Keys == Uses(h, tx)
  {
    hide InputRows;
  }

  lemma RowsAfter(h: Hashes, c: Core, log: seq<Entry>, e: Entry)
    requires Logged(h, c, log) && Fits(h, c, e.tx)
    ensures var d := Confirm(h, c, e.tx, e.block, e.coinbase);
            RowOf(h, d.txs, e) && forall i :: 0 <= i < |log| ==> RowOf(h, d.txs, log[i])
  {
    hide TxId, OutputRows, InputRows, Spent, Made, Uses, MadeRow, SpentBy, MadeBy, UsedBy, IdsBy, InputIds, OutputIds;
  }

  lemma OutputsAfter(h: Hashes, c: Core, log: seq<Entry>, e: Entry)
    requires Logged(h, c, log) && Fits(h, c, e.tx)
    ensures var d := Confirm(h, c, e.tx, e.block, e.coinbase);
            && (forall id :: id in d.utxos ==> MadeRow(h, d.txs, id, d.utxos[id]))
            && (forall id :: id in d.stxos ==> MadeRow(h, d.txs, id, d.stxos[id]))
            && (forall id :: id in d.inputs ==> h.input(d.inputs[id]) == id)
  {
    hide TxId, OutputRows, InputRows, RowOf, SpentBy, MadeBy, UsedBy, IdsBy, Uses, InputIds, OutputIds;
    var rows := OutputRows(h, e.tx.outputs, TxId(h, e.tx));
    var d := Confirm(h, c, e.tx, e.block, e.coinbase);
    assert d.txs[TxId(h, e.tx)].outputs == OutputIds(h, e.tx.outputs);
    forall id | id in rows ensures MadeRow(h, d.txs, id, rows[id]) {
      assert id in OutputIds(h, e.tx.outputs);
    }
  }

  lemma {:induction false} TxsLogged(h: Hashes, c: Core, log: seq<Entry>, txs: seq<Tx>, block: Id)
    requires Sound(h) && Coherent(h, c) && AllFit(h, c, txs) && AllApart(h, txs) && Logged(h, c, log)
    ensures Logged(h, CoreTxs(h, c, txs, block), log + Entries(txs, block))
  {
    hide Sound, Coherent, Fits, Apart, Logged, Confirm;
    if txs == [] {
      assert log + Entries(txs, block) == log;
    } else {
      var n := |txs| - 1;
      NextFits(h, c, txs, block, n);
      TxsLogged(h, c, log, txs[..n], block);
      ConfirmLogged(h, CoreTxs(h, c, txs[..n], block), log + Entries(txs[..n], block), Entry(txs[n], block, false));
      assert log + Entries(txs[..n], block) + [Entry(txs[n], block, false)] == log + Entries(txs, block);
    }
  }

  /** The four transaction tables of a valid chain: every confirmed transaction has its row, with the
      block that confirmed it and whether it is that block's coinbase; an output is spent if some
      confirmed transaction spends it and unspent if one made it and none spends it; each is kept with
      the transaction that made it; and there are no other rows. */
  lemma {:induction false} ReplayLogged(p: Params, chain: seq<Block>)
    requires Sound(p.h) && Valid(p, chain)
    ensures Logged(p.h, Replay(p.h, chain).core, Log(p.h, chain))
  {
    if chain == [] {
      EmptyLogged(p.h);
    } else {
      hide Sound, Valid, Logged, Coherent, BlockFits, Confirm, Replay, BlockId, AllFit, AllApart, BlockRep;
      var n := |chain| - 1;
      var b, c := chain[n], Replay(p.h, chain[..n]).core;
      ValidTail(p, chain);
      ReplayLogged(p, chain[..n]);
      LastBlockFits(p, chain);
      BlockLogged(p.h, c, Log(p.h, chain[..n]), b);
    }
  }

  lemma EmptyLogged(h: Hashes)
    ensures Logged(h, Empty, [])
  {
  }

  lemma BlockLogged(h: Hashes, c: Core, log: seq<Entry>, b: Block)
    requires Sound(h) && Coherent(h, c) && BlockFits(h, c, b) && Logged(h, c, log)
    ensures Logged(h, CoreBlock(h, c, b), log + [Entry(b.coinbase, BlockId(h, b), true)] + Entries(b.txs, BlockId(h, b)))
  {
    assert Fits(h, c, b.coinbase);
    hide Sound, Logged, Coherent, BlockFits, Confirm, BlockId, AllFit, AllApart, BlockRep, Fits, CoreTxs;
    var e := Entry(b.coinbase, BlockId(h, b), true);
    ConfirmLogged(h, c, log, e);
    StillFit(h, c, b);
    TxsLogged(h, Confirm(h, c, b.coinbase, BlockId(h, b), true), log + [e], b.txs, BlockId(h, b));
  }
}
