/** The wallet: an incremental view of the main chain that rewinds and digests whole blocks. */
module Wallet {
  import opened Types
  import opened Maps
  import opened Ledger
  import opened Blocks
  import opened Submission
  import opened Supply
  import opened Reversal
  import opened Chain
  import opened Ordering
  import opened Runs
  import opened Archive

  /** The public keys of each account: the index of the `accounts` table. */
  type KeyBook = map<string, string>

  function Owner(k: KeyBook, o: Output): Option<string> {
    if o.key.Some? && o.key.value in k then Some(k[o.key.value]) else None
  }

  /** Account balances and the values of the wallet's unspent outputs. */
  datatype Purse = Purse(balances: map<string, nat>, utxos: map<Id, nat>)

  // ---- the purse as a view of a table of unspent outputs ----

  function Mine(k: KeyBook, u: map<Id, DbOutput>): map<Id, nat> {
    map id | id in u && Owner(k, u[id].output).Some? :: u[id].output.value
  }

  function Share(k: KeyBook, u: map<Id, DbOutput>, name: string): map<Id, DbOutput> {
    map id | id in u && Owner(k, u[id].output) == Some(name) :: u[id]
  }

  /** What a 64-bit balance shows of a sum. */
  function Low64(n: nat): nat {
    n % U64
  }

  ghost predicate Named(k: KeyBook, p: Purse) {
    forall key :: key in k ==> k[key] in p.balances
  }

  /** The purse holds exactly the outputs of `u` that pay its keys, and every balance is the sum of
      its account's outputs, in 64 bits. */
  ghost predicate Mirror(k: KeyBook, u: map<Id, DbOutput>, p: Purse) {
    && Named(k, p)
    && p.utxos == Mine(k, u)
    && (forall name :: name in p.balances ==> p.balances[name] == Low64(Total(Share(k, u, name))))
  }

  /** Two purses over the same accounts that mirror the same outputs are the same. */
  lemma MirrorUnique(k: KeyBook, u: map<Id, DbOutput>, p: Purse, q: Purse)
    requires Mirror(k, u, p) && Mirror(k, u, q) && p.balances.Keys == q.balances.Keys
    ensures p == q
  {
    assert p.balances == q.balances;
  }

  lemma OnlyMirror(k: KeyBook, u: map<Id, DbOutput>, p: Purse)
    requires Mirror(k, u, p)
    ensures forall q :: Mirror(k, u, q) && q.balances.Keys == p.balances.Keys ==> q == p
  {
    forall q | Mirror(k, u, q) && q.balances.Keys == p.balances.Keys ensures q == p {
      MirrorUnique(k, u, p, q);
    }
  }

  function Take(k: KeyBook, p: Purse, id: Id, o: Output): Purse
    requires Named(k, p) && Owner(k, o).Some?
  {
    var name := Owner(k, o).value;
    Purse(p.balances[name := Sub64(p.balances[name], o.value)], p.utxos - {id})
  }

  function Give(k: KeyBook, p: Purse, id: Id, o: Output): Purse
    requires Named(k, p)
  {
    match Owner(k, o)
    case None => p
    case Some(name) => Purse(p.balances[name := Add64(p.balances[name], o.value)], p.utxos[id := o.value])
  }

  lemma OwnerNamed(k: KeyBook, p: Purse, o: Output)
    requires Named(k, p)
    ensures Owner(k, o).Some? ==> Owner(k, o).value in p.balances
  {
  }

  lemma SubMod(t: nat, v: nat)
    requires v <= t
    ensures Sub64(Low64(t), v) == Low64(t - v)
  {
  }

  lemma ShareLess(k: KeyBook, u: map<Id, DbOutput>, id: Id, name: string)
    requires id in u
    ensures Total(Share(k, u - {id}, name))
         == Total(Share(k, u, name)) - (if Owner(k, u[id].output) == Some(name) then u[id].output.value else 0)
  {
    hide Total;
    assert Share(k, u - {id}, name) == Share(k, u, name) - {id};
    if Owner(k, u[id].output) == Some(name) {
      TotalPick(Share(k, u, name), id);
    } else {
      assert Share(k, u, name) - {id} == Share(k, u, name);
    }
  }

  lemma MineLess(k: KeyBook, u: map<Id, DbOutput>, id: Id)
    ensures Mine(k, u - {id}) == Mine(k, u) - {id}
  {
    hide Owner;
  }

  lemma TakeBalance(k: KeyBook, p: Purse, id: Id, o: Output, name: string)
    requires Named(k, p) && name in p.balances && Owner(k, o).Some? && Owner(k, o).value in p.balances
    ensures var q := Take(k, p, id, o).balances;
            && name in q
            && q[name] == if Owner(k, o) == Some(name) then Sub64(p.balances[name], o.value) else p.balances[name]
  {
    hide Sub64;
  }

  lemma TakeShare(k: KeyBook, u: map<Id, DbOutput>, p: Purse, id: Id, name: string)
    requires Mirror(k, u, p) && id in u && Owner(k, u[id].output).Some? && name in p.balances
    ensures name in Take(k, p, id, u[id].output).balances
    ensures Take(k, p, id, u[id].output).balances[name] == Low64(Total(Share(k, u - {id}, name)))
  {
    hide Mirror, Named, Take, Low64, Total, Share, Sub64, Owner;
    MirrorBalance(k, u, p, name);
    OwnerNamed(k, p, u[id].output);
    TakeBalance(k, p, id, u[id].output, name);
    ShareLess(k, u, id, name);
    if Owner(k, u[id].output) == Some(name) {
      SubMod(Total(Share(k, u, name)), u[id].output.value);
    }
  }

  /** Removing an output the wallet owns. */
  lemma TakeMirror(k: KeyBook, u: map<Id, DbOutput>, p: Purse, id: Id)
    requires Mirror(k, u, p) && id in u && Owner(k, u[id].output).Some?
    ensures Mirror(k, u - {id}, Take(k, p, id, u[id].output))
  {
    OwnerNamed(k, p, u[id].output);
    MineLess(k, u, id);
    hide Low64, Total, Share, Sub64, Owner, Mine;
    var q := Take(k, p, id, u[id].output);
    assert q.balances.Keys == p.balances.Keys;
    forall name | name in q.balances
      ensures q.balances[name] == Low64(Total(Share(k, u - {id}, name)))
    {
      TakeShare(k, u, p, id, name);
    }
  }

  /** Removing an output that is not the wallet's. */
  lemma SkipMirror(k: KeyBook, u: map<Id, DbOutput>, p: Purse, id: Id)
    requires Mirror(k, u, p) && id in u && Owner(k, u[id].output).None?
    ensures Mirror(k, u - {id}, p)
  {
    hide Low64, Total, Share, Owner;
    assert p.utxos == Mine(k, u - {id});
    forall name | name in p.balances
      ensures p.balances[name] == Low64(Total(Share(k, u - {id}, name)))
    {
      ShareLess(k, u, id, name);
    }
  }

  lemma MineMore(k: KeyBook, u: map<Id, DbOutput>, id: Id, row: DbOutput)
    ensures Mine(k, u[id := row])
         == if Owner(k, row.output).Some? then Mine(k, u)[id := row.output.value] else Mine(k, u) - {id}
  {
    hide Owner;
  }

  lemma ShareMore(k: KeyBook, u: map<Id, DbOutput>, id: Id, row: DbOutput, name: string)
    requires id !in u
    ensures Total(Share(k, u[id := row], name))
         == Total(Share(k, u, name)) + (if Owner(k, row.output) == Some(name) then row.output.value else 0)
  {
    hide Low64, Total, Share, Owner;
    ShareLess(k, u[id := row], id, name);
    assert u[id := row] - {id} == u;
  }

  /** Adding an output, whoever owns it. */
  lemma GiveMirror(k: KeyBook, u: map<Id, DbOutput>, p: Purse, id: Id, row: DbOutput)
    requires Mirror(k, u, p) && id !in u
    ensures Mirror(k, u[id := row], Give(k, p, id, row.output))
  {
    assert Mine(k, u) - {id} == Mine(k, u);
    OwnerNamed(k, p, row.output);
    MineMore(k, u, id, row);
    hide Low64, Total, Share, Add64, Owner, Mine;
    var v := u[id := row];
    var q := Give(k, p, id, row.output);
    assert q.balances.Keys == p.balances.Keys;
    forall name | name in q.balances
      ensures q.balances[name] == Low64(Total(Share(k, v, name)))
    {
      GiveShare(k, u, p, id, row, name);
    }
  }

  lemma GiveBalance(k: KeyBook, p: Purse, id: Id, o: Output, name: string)
    requires Named(k, p) && name in p.balances
    ensures var q := Give(k, p, id, o).balances;
            && name in q
            && q[name] == if Owner(k, o) == Some(name) then Add64(p.balances[name], o.value) else p.balances[name]
  {
    hide Add64;
  }

  lemma MirrorBalance(k: KeyBook, u: map<Id, DbOutput>, p: Purse, name: string)
    requires Mirror(k, u, p) && name in p.balances
    ensures Named(k, p) && p.balances[name] == Low64(Total(Share(k, u, name)))
  {
    hide Low64, Total, Share, Mine;
  }

  lemma GiveShare(k: KeyBook, u: map<Id, DbOutput>, p: Purse, id: Id, row: DbOutput, name: string)
    requires Mirror(k, u, p) && id !in u && name in p.balances
    ensures name in Give(k, p, id, row.output).balances
    ensures Give(k, p, id, row.output).balances[name] == Low64(Total(Share(k, u[id := row], name)))
  {
    hide Mirror, Named, Give, Low64, Total, Share, Add64, Owner;
    MirrorBalance(k, u, p, name);
    GiveBalance(k, p, id, row.output, name);
    ShareMore(k, u, id, row, name);
    AddMod(Total(Share(k, u, name)), row.output.value);
  }

  lemma AddMod(t: nat, v: nat)
    ensures Add64(Low64(t), v) == Low64(t + v)
  {
  }

  // ---- one transaction ----

  function After(h: Hashes, u: map<Id, DbOutput>, tx: Tx): map<Id, DbOutput> {
    Swap(u, Spent(tx), OutputRows(h, tx.outputs, TxId(h, tx)))
  }

  /** `tx` can be applied to the table `u`. */
  ghost predicate Applies(h: Hashes, u: map<Id, DbOutput>, tx: Tx) {
    && Distinct(SpentIds(tx.inputs)) && Distinct(OutputIds(h, tx.outputs))
    && Spent(tx) <= u.Keys && Made(h, tx) !! u.Keys
  }

  /** Whether `tx` spends or pays one of the wallet's outputs. */
  ghost predicate Relevant(k: KeyBook, u: map<Id, DbOutput>, tx: Tx) {
    || (exists i :: 0 <= i < |tx.inputs| && tx.inputs[i].outputId in Mine(k, u))
    || (exists i :: 0 <= i < |tx.outputs| && Owner(k, tx.outputs[i]).Some?)
  }

  /** A transaction is relevant exactly when it changes which outputs the wallet holds. */
  lemma RelevantIff(k: KeyBook, h: Hashes, u: map<Id, DbOutput>, tx: Tx)
    requires Applies(h, u, tx)
    ensures Relevant(k, u, tx) <==> Mine(k, After(h, u, tx)).Keys != Mine(k, u).Keys
  {
    hide Mine, After, Applies, Owner;
    if Relevant(k, u, tx) {
      if i :| 0 <= i < |tx.inputs| && tx.inputs[i].outputId in Mine(k, u) {
        SpentGoes(k, h, u, tx, i);
      } else {
        var i :| 0 <= i < |tx.outputs| && Owner(k, tx.outputs[i]).Some?;
        PaidComes(k, h, u, tx, i);
      }
    } else {
      OthersStay(k, h, u, tx);
    }
  }

  lemma SpentGoes(k: KeyBook, h: Hashes, u: map<Id, DbOutput>, tx: Tx, i: nat)
    requires Applies(h, u, tx) && i < |tx.inputs|
    ensures tx.inputs[i].outputId !in Mine(k, After(h, u, tx))
  {
    hide Owner, TxId, OutputRows;
    assert SpentIds(tx.inputs)[i] == tx.inputs[i].outputId;
    assert tx.inputs[i].outputId in Spent(tx) && Spent(tx) <= u.Keys && Made(h, tx) !! u.Keys;
  }

  lemma PaidComes(k: KeyBook, h: Hashes, u: map<Id, DbOutput>, tx: Tx, i: nat)
    requires Applies(h, u, tx) && i < |tx.outputs| && Owner(k, tx.outputs[i]).Some?
    ensures h.output(tx.outputs[i]) in Mine(k, After(h, u, tx)) && h.output(tx.outputs[i]) !in Mine(k, u)
  {
    hide Owner, TxId, OutputRows;
    NewRow(h, tx, i);
  }

  lemma OthersStay(k: KeyBook, h: Hashes, u: map<Id, DbOutput>, tx: Tx)
    requires Applies(h, u, tx) && !Relevant(k, u, tx)
    ensures Mine(k, After(h, u, tx)).Keys == Mine(k, u).Keys
  {
    hide Owner, TxId, OutputRows;
    var rows := OutputRows(h, tx.outputs, TxId(h, tx));
    forall id ensures id in Mine(k, After(h, u, tx)) <==> id in Mine(k, u) {
      if id in Spent(tx) {
        var i :| 0 <= i < |tx.inputs| && SpentIds(tx.inputs)[i] == id;
        assert tx.inputs[i].outputId == id;
      } else if id in rows {
        var i :| 0 <= i < |tx.outputs| && rows[id].output == tx.outputs[i];
        assert id in Made(h, tx);
      }
    }
  }

  lemma NewRow(h: Hashes, tx: Tx, i: nat)
    requires Distinct(OutputIds(h, tx.outputs)) && i < |tx.outputs|
    ensures var rows, id := OutputRows(h, tx.outputs, TxId(h, tx)), h.output(tx.outputs[i]);
            id in rows && rows[id].output == tx.outputs[i] && id in Made(h, tx)
  {
    hide TxId;
    OutputRowAt(h, tx.outputs, TxId(h, tx), i);
    assert OutputIds(h, tx.outputs)[i] == h.output(tx.outputs[i]);
  }

  /** The chain's output lookup never contradicts `u`. */
  ghost predicate Agrees(c: Core, u: map<Id, DbOutput>) {
    forall id :: id in u && FindOutput(c, id).Some? ==> FindOutput(c, id).value == u[id].output
  }

  ghost predicate Backed(c: Core, u: map<Id, DbOutput>) {
    Agrees(c, u) && forall id :: id in u ==> FindOutput(c, id).Some?
  }

  lemma SpendOne(u: map<Id, DbOutput>, ins: seq<Input>, i: nat)
    requires Distinct(SpentIds(ins)) && ToSet(SpentIds(ins)) <= u.Keys && i < |ins|
    ensures var id := ins[i].outputId;
            && id in u - ToSet(SpentIds(ins[..i]))
            && (u - ToSet(SpentIds(ins[..i]))) - {id} == u - ToSet(SpentIds(ins[..i + 1]))
  {
    var id := ins[i].outputId;
    assert SpentIds(ins)[i] == id;
    assert SpentIds(ins[..i + 1]) == SpentIds(ins[..i]) + [id];
    assert SpentIds(ins[..i]) == SpentIds(ins)[..i];
    assert id !in SpentIds(ins)[..i];
  }

  lemma MakeOne(h: Hashes, base: map<Id, DbOutput>, outs: seq<Output>, tx: Id, j: nat)
    requires Distinct(OutputIds(h, outs)) && ToSet(OutputIds(h, outs)) !! base.Keys && j < |outs|
    ensures var id := h.output(outs[j]);
            && id !in base + OutputRows(h, outs[..j], tx)
            && (base + OutputRows(h, outs[..j], tx))[id := DbOutput(outs[j], tx)] == base + OutputRows(h, outs[..j + 1], tx)
  {
    var id, row := h.output(outs[j]), DbOutput(outs[j], tx);
    NewOutput(h, outs, j);
    assert outs[..j + 1][..j] == outs[..j];
    RowsStep(h, outs[..j + 1], tx);
    hide OutputRows, OutputIds, Distinct;
    AddPut(base, OutputRows(h, outs[..j], tx), id, row);
  }

  lemma NewOutput(h: Hashes, outs: seq<Output>, j: nat)
    requires Distinct(OutputIds(h, outs)) && j < |outs|
    ensures h.output(outs[j]) in ToSet(OutputIds(h, outs)) && h.output(outs[j]) !in ToSet(OutputIds(h, outs[..j]))
  {
    assert OutputIds(h, outs)[j] == h.output(outs[j]);
    assert OutputIds(h, outs[..j]) == OutputIds(h, outs)[..j];
    assert h.output(outs[j]) !in OutputIds(h, outs)[..j];
  }

  lemma FitsApplies(h: Hashes, c: Core, x: Item)
    requires Fits(h, c, x.tx) && TxRep(h, x.tx, x.coinbase)
    ensures Applies(h, c.utxos, x.tx)
  {
    DistinctParts(SpentIds(x.tx.inputs), OutputIds(h, x.tx.outputs));
  }

  lemma AgreesWith(h: Hashes, c: Core, d: Core)
    requires NoClash(h) && Coherent(h, c) && Coherent(h, d)
    ensures Agrees(d, c.utxos)
  {
    forall id | id in c.utxos && FindOutput(d, id).Some? ensures FindOutput(d, id).value == c.utxos[id].output {
      SameOutput(h, FindOutput(d, id).value, c.utxos[id].output);
    }
  }

  lemma BackedBy(h: Hashes, c: Core, d: Core)
    requires NoClash(h) && Coherent(h, c) && Coherent(h, d) && Grown(c, d)
    ensures Backed(d, c.utxos)
  {
    AgreesWith(h, c, d);
  }

  /** Relevance depends only on the outputs the transaction spends. */
  lemma SameRelevance(k: KeyBook, u: map<Id, DbOutput>, v: map<Id, DbOutput>, tx: Tx)
    requires forall id :: id in Spent(tx) ==> id in u && id in v && u[id] == v[id]
    ensures Relevant(k, u, tx) == Relevant(k, v, tx)
  {
    hide Owner;
    forall i | 0 <= i < |tx.inputs| ensures tx.inputs[i].outputId in Spent(tx) {
      assert SpentIds(tx.inputs)[i] == tx.inputs[i].outputId;
    }
  }

  // ---- what must be remembered to rewind ----

  /** The relevant transactions among `items`. */
  ghost function Marks(k: KeyBook, h: Hashes, u: map<Id, DbOutput>, items: seq<Item>): set<Id> {
    set x | x in items && Relevant(k, u, x.tx) :: TxId(h, x.tx)
  }

  /** The ids of the relevant transactions of a chain. */
  ghost function Needed(k: KeyBook, h: Hashes, chain: seq<Block>): set<Id> {
    if chain == [] then {} else
      var n := |chain| - 1;
      Needed(k, h, chain[..n]) + Marks(k, h, Replay(h, chain[..n]).core.utxos, BlockItems(chain[n]))
  }

  lemma MarksMore(k: KeyBook, h: Hashes, u: map<Id, DbOutput>, items: seq<Item>, x: Item)
    ensures Marks(k, h, u, items + [x]) == Marks(k, h, u, items) + if Relevant(k, u, x.tx) then {TxId(h, x.tx)} else {}
  {
    hide Relevant, TxId;
    assert forall y :: y in items + [x] <==> y in items || y == x;
  }

  lemma MarksReordered(k: KeyBook, h: Hashes, u: map<Id, DbOutput>, a: seq<Item>, b: seq<Item>)
    requires multiset(a) == multiset(b)
    ensures Marks(k, h, u, a) == Marks(k, h, u, b)
  {
    hide Relevant, TxId;
    SameMembers(a, b);
  }

  lemma {:induction false} NeededStored(k: KeyBook, h: Hashes, chain: seq<Block>)
    ensures Needed(k, h, chain) <= Replay(h, chain).core.txs.Keys
  {
    if chain != [] {
      hide Marks, CoreBlock, Replay;
      var n := |chain| - 1;
      NeededStored(k, h, chain[..n]);
      ReplayLast(h, chain);
      MarksStored(k, h, Replay(h, chain[..n]).core, chain[n]);
    }
  }

  lemma MarksStored(k: KeyBook, h: Hashes, c: Core, b: Block)
    ensures c.txs.Keys + Marks(k, h, c.utxos, BlockItems(b)) <= CoreBlock(h, c, b).txs.Keys
  {
    hide Relevant, TxId, CoreBlock;
    CoreBlockGrown(h, c, b);
  }

  lemma {:induction false} SameNeeded(k: KeyBook, p: Params, a: seq<Block>, b: seq<Block>)
    requires NoClash(p.h) && Valid(p, a) && Valid(p, b) && |a| == |b|
    requires a != [] ==> BlockId(p.h, a[|a| - 1]) == BlockId(p.h, b[|b| - 1])
    ensures Needed(k, p.h, a) == Needed(k, p.h, b)
  {
    hide BlockId, BlockRep, Valid, Replay, NoClash, Marks, Needed, BlockItems;
    if a == [] {
      assert a == b;
    } else {
      var n := |a| - 1;
      SameParts(p.h, a[n], b[n]);
      assert BlockItems(a[n]) == BlockItems(b[n]) by { SameItems(a[n], b[n]); }
      ValidTail(p, a);
      ValidTail(p, b);
      SameNeeded(k, p, a[..n], b[..n]);
      SameChain(p, a[..n], b[..n]);
      NeededLast(k, p.h, a);
      NeededLast(k, p.h, b);
    }
  }

  lemma SameItems(a: Block, b: Block)
    requires a.txs == b.txs && a.coinbase == b.coinbase
    ensures BlockItems(a) == BlockItems(b)
  {
  }

  lemma NeededLast(k: KeyBook, h: Hashes, chain: seq<Block>)
    requires chain != []
    ensures var n := |chain| - 1;
            Needed(k, h, chain) == Needed(k, h, chain[..n]) + Marks(k, h, Replay(h, chain[..n]).core.utxos, BlockItems(chain[n]))
  {
    hide Marks, Replay;
  }

  /** The same block apart from consensus data and height. */
  predicate SameBlocks(h: Hashes, a: Block, b: Block) {
    BlockId(h, a) == BlockId(h, b) && a.txs == b.txs && a.coinbase == b.coinbase && a.prev == b.prev
  }

  /** A block's transactions, coinbase included, in the order of their ids: any order will do. */
  ghost predicate Arranges(arrange: Block -> seq<Item>) {
    forall b :: multiset(arrange(b)) == multiset(BlockItems(b))
  }

  /** Rewinding one item forgets its own id only. */
  lemma MarksRest(k: KeyBook, h: Hashes, c: Core, items: seq<Item>, i: nat)
    requires Lined(h, c, items) && i < |items|
    ensures Marks(k, h, c.utxos, items[i + 1..]) <= Marks(k, h, c.utxos, items[i..]) - {TxId(h, items[i].tx)}
  {
    hide TxId, Relevant, Lined;
    OtherIds(h, c, items, i);
    assert items[i..] == [items[i]] + items[i + 1..];
  }

  lemma OtherIds(h: Hashes, c: Core, items: seq<Item>, i: nat)
    requires Lined(h, c, items) && i < |items|
    ensures forall y :: y in items[i + 1..] ==> TxId(h, y.tx) != TxId(h, items[i].tx)
  {
    hide TxId, Lined, Apart;
    LinedParts(h, c, items, i);
    forall y | y in items[i + 1..] ensures TxId(h, y.tx) != TxId(h, items[i].tx) {
      ApartIds(h, y.tx, items[i].tx);
    }
  }

  lemma ApartIds(h: Hashes, a: Tx, b: Tx)
    requires Apart(h, a, b)
    ensures TxId(h, a) != TxId(h, b)
  {
    hide TxId, Spent, Made, Uses;
  }

  /** What the wallet looks up when it digests block `n` of the main chain. */
  lemma DigestReady(p: Params, chain: seq<Block>, n: nat, order: seq<Item>)
    requires Sound(p.h) && NoClash(p.h) && Valid(p, chain) && n < |chain|
    requires multiset(order) == multiset(BlockItems(chain[n]))
    ensures var c := Replay(p.h, chain[..n]).core;
            var id := BlockId(p.h, chain[n]);
            && Coherent(p.h, c) && Lined(p.h, c, order)
            && Fold(p.h, c, order, id) == Replay(p.h, chain[..n + 1]).core
            && (forall i :: 0 <= i <= |order| ==> Grown(Fold(p.h, c, order[..i], id), Replay(p.h, chain).core))
  {
    hide BlockId, BlockRep, Valid, Replay, NoClash, CoreBlock, Sound, Coherent, BlockFits, Lined, Fold, Grown;
    ValidPrefix(p, chain, n + 1);
    var past := chain[..n + 1];
    assert past[..n] == chain[..n];
    LastBlockFits(p, past);
    var c := Replay(p.h, chain[..n]).core;
    BlockLined(p.h, c, chain[n], order);
    ReplayGrown(p.h, chain, n + 1);
    forall i | 0 <= i <= |order| ensures Grown(Fold(p.h, c, order[..i], BlockId(p.h, chain[n])), Replay(p.h, chain).core) {
      FoldPrefix(p.h, c, order, i, BlockId(p.h, chain[n]));
      GrownTwice(Fold(p.h, c, order[..i], BlockId(p.h, chain[n])), Fold(p.h, c, order, BlockId(p.h, chain[n])), Replay(p.h, chain).core);
    }
  }

  class Book {
    const keys: KeyBook
    const arrange: Block -> seq<Item>
    var balances: map<string, nat>
    var utxos: map<Id, nat>
    var txs: set<Id>
    var height: nat
    var tip: Option<Id>

    /** A new wallet: accounts without money, nothing digested. */
    constructor (keys: KeyBook, arrange: Block -> seq<Item>)
      ensures Mirror(keys, map[], Held()) && txs == {} && height == 0 && tip == None
      ensures this.keys == keys && this.arrange == arrange
    {
      this.keys, this.arrange := keys, arrange;
      balances := map name | name in keys.Values :: 0;
      utxos, txs, height, tip := map[], {}, 0, None;
      new;
      NothingYet(keys, Held());
    }

    ghost function Held(): Purse
      reads this
    {
      Purse(balances, utxos)
    }

    /** Credit an output to the account that owns its key, if there is one. */
    method Credit(id: Id, o: Output, ghost u: map<Id, DbOutput>, ghost row: DbOutput) returns (mine: bool)
      requires Mirror(keys, u, Held()) && id !in u && row.output == o
      modifies `balances, `utxos
      ensures mine == Owner(keys, o).Some? && balances.Keys == old(balances.Keys)
      ensures Mirror(keys, u[id := row], Held())
    {
      GiveMirror(keys, u, Held(), id, row);
      hide Mirror, Owner, Add64;
      var owner := Owner(keys, o);
      mine := owner.Some?;
      if mine {
        OwnerNamed(keys, Held(), o);
        balances := balances[owner.value := Add64(balances[owner.value], o.value)];
        utxos := utxos[id := o.value];
      }
    }

    /** Take one of the wallet's outputs away again; false when `o` has no owner. */
    method Debit(id: Id, o: Output, ghost u: map<Id, DbOutput>) returns (ok: bool)
      requires Mirror(keys, u, Held()) && id in u && id in utxos && u[id].output == o
      modifies `balances, `utxos
      ensures ok && Mirror(keys, u - {id}, Held()) && balances.Keys == old(balances.Keys)
    {
      TakeMirror(keys, u, Held(), id);
      hide Mirror, Sub64;
      var owner := Owner(keys, o);
      if owner.None? { return false; }
      balances := balances[owner.value := Sub64(balances[owner.value], o.value)];
      utxos := utxos - {id};
      ok := true;
    }
  
    /** Take the spent outputs that are the wallet's. False stands for an exception. */
    method DigestInputs(c: Core, ins: seq<Input>, unconfirmed: bool, ghost u: map<Id, DbOutput>)
      returns (ok: bool, track: bool)
      requires Mirror(keys, u, Held()) && Backed(c, u)
      requires !unconfirmed ==> Distinct(SpentIds(ins)) && ToSet(SpentIds(ins)) <= u.Keys
      modifies `balances, `utxos
      ensures ok && balances.Keys == old(balances.Keys)
      ensures unconfirmed ==> Held() == old(Held())
      ensures !unconfirmed ==> Mirror(keys, u - ToSet(SpentIds(ins)), Held())
      ensures track == exists j :: 0 <= j < |ins| && ins[j].outputId in Mine(keys, u)
    {
      hide Mirror, Owner, FindOutput;
      ok, track := true, false;
      ghost var start := Held();
      MirrorNone(keys, u, Held());
      for i := 0 to |ins|
        invariant ok && balances.Keys == old(balances.Keys)
        invariant unconfirmed ==> Held() == start
        invariant !unconfirmed ==> Mirror(keys, u - ToSet(SpentIds(ins[..i])), Held())
        invariant track == exists j :: 0 <= j < i && ins[j].outputId in Mine(keys, u)
      {
        var id := ins[i].outputId;
        if unconfirmed {
          MirrorIds(keys, u, Held());
          track := track || id in utxos;
        } else {
          ghost var v := u - ToSet(SpentIds(ins[..i]));
          SpendOne(u, ins, i);
          MirrorIds(keys, v, Held());
          assert id in Mine(keys, v) <==> id in Mine(keys, u);
          if id in utxos {
            track := true;
            var found := FindOutput(c, id);
            if found.None? { return false, track; }
            ok := Debit(id, found.value, v);
            if !ok { return; }
          } else {
            SkipMirror(keys, v, Held(), id);
          }
        }
      }
      assert ins[..|ins|] == ins;
    }

    /** Credit the new outputs that are the wallet's. */
    method DigestOutputs(h: Hashes, outs: seq<Output>, tx: Id, unconfirmed: bool, ghost u: map<Id, DbOutput>)
      returns (track: bool)
      requires !unconfirmed ==> Mirror(keys, u, Held()) && Distinct(OutputIds(h, outs)) && ToSet(OutputIds(h, outs)) !! u.Keys
      modifies `balances, `utxos
      ensures balances.Keys == old(balances.Keys)
      ensures unconfirmed ==> Held() == old(Held())
      ensures !unconfirmed ==> Mirror(keys, u + OutputRows(h, outs, tx), Held())
      ensures track == exists k :: 0 <= k < |outs| && Owner(keys, outs[k]).Some?
    {
      hide Mirror, Owner, OutputRows, OutputIds, Distinct;
      track := false;
      ghost var start := Held();
      NoRows(h, u, outs, tx);
      for j := 0 to |outs|
        invariant balances.Keys == old(balances.Keys)
        invariant unconfirmed ==> Held() == start
        invariant !unconfirmed ==> Mirror(keys, u + OutputRows(h, outs[..j], tx), Held())
        invariant track == exists k :: 0 <= k < j && Owner(keys, outs[k]).Some?
      {
        var o := outs[j];
        if unconfirmed {
          track := track || Owner(keys, o).Some?;
        } else {
          MakeOne(h, u, outs, tx, j);
          var mine := Credit(h.output(o), o, u + OutputRows(h, outs[..j], tx), DbOutput(o, tx));
          track := track || mine;
        }
      }
      assert outs[..|outs|] == outs;
    }

    /** Record what a transaction does to the wallet. False stands for an exception. */
    method DigestTx(h: Hashes, c: Core, tx: Tx, unconfirmed: bool, ghost u: map<Id, DbOutput>) returns (ok: bool)
      requires Mirror(keys, u, Held()) && Backed(c, u)
      requires !unconfirmed ==> Applies(h, u, tx)
      modifies `balances, `utxos, `txs
      ensures ok
      ensures balances.Keys == old(balances.Keys)
      ensures unconfirmed ==> Held() == old(Held())
      ensures !unconfirmed ==> Mirror(keys, After(h, u, tx), Held())
      ensures txs == old(txs) + if Relevant(keys, u, tx) then {TxId(h, tx)} else {}
    {
      hide Mirror, Owner, OutputRows, TxId, Backed, Mine;
      var spends, pays: bool;
      ok, spends := DigestInputs(c, tx.inputs, unconfirmed, u);
      if !ok { return; }
      pays := DigestOutputs(h, tx.outputs, TxId(h, tx), unconfirmed, u - Spent(tx));
      if spends || pays {
        txs := txs + {TxId(h, tx)};
      }
    }

    /** Undo what a digested transaction did. False stands for an output the chain no longer has. */
    method RewindTx(h: Hashes, c: Core, tx: Tx, ghost u: map<Id, DbOutput>) returns (found: bool)
      requires Applies(h, u, tx) && Mirror(keys, After(h, u, tx), Held()) && Agrees(c, u)
      requires Relevant(keys, u, tx) ==> TxId(h, tx) in txs
      modifies `balances, `utxos, `txs
      ensures balances.Keys == old(balances.Keys)
      ensures found ==> Mirror(keys, u, Held()) && txs == old(txs) - {TxId(h, tx)}
    {
      if TxId(h, tx) !in txs {
        OthersTx(keys, h, u, tx, Held());
        return true;
      }
      hide Mirror, Owner, OutputRows, TxId, FindOutput, After, Returned, Mine;
      txs := txs - {TxId(h, tx)};
      ghost var v := After(h, u, tx);
      UnmakeEnds(h, u, tx);
      for j := 0 to |tx.outputs|
        invariant txs == old(txs) - {TxId(h, tx)} && balances.Keys == old(balances.Keys)
        invariant Mirror(keys, v - ToSet(OutputIds(h, tx.outputs[..j])), Held())
      {
        var o := tx.outputs[j];
        ghost var now := v - ToSet(OutputIds(h, tx.outputs[..j]));
        UnmakeOne(h, v, tx.outputs, j);
        MirrorIds(keys, now, Held());
        MineAt(keys, now, h.output(o));
        if h.output(o) in utxos {
          var _ := Debit(h.output(o), o, now);
        } else {
          SkipMirror(keys, now, Held(), h.output(o));
        }
      }
      ReturnEnds(u, tx.inputs);
      for i := 0 to |tx.inputs|
        invariant txs == old(txs) - {TxId(h, tx)} && balances.Keys == old(balances.Keys)
        invariant Mirror(keys, Returned(u, tx.inputs, i), Held())
      {
        var id := tx.inputs[i].outputId;
        ReturnOne(u, tx.inputs, i);
        var out := FindOutput(c, id);
        if out.None? { return false; }
        var _ := Credit(id, out.value, Returned(u, tx.inputs, i), u[id]);
      }
      found := true;
    }

    /** The wallet is the view of `chain` and remembers enough to rewind it. */
    ghost predicate Synced(p: Params, chain: seq<Block>)
      reads this
    {
      && Valid(p, chain)
      && Mirror(keys, Replay(p.h, chain).core.utxos, Held())
      && height == |chain|
      && tip == (if chain == [] then None else Some(BlockId(p.h, chain[|chain| - 1])))
      && Needed(keys, p.h, chain) <= txs
    }

    /** Digest the next block of the main chain. */
    method DigestBlock(p: Params, t: State, b: Block, ghost chain: seq<Block>) returns (ok: bool)
      requires Sound(p.h) && NoClash(p.h) && Valid(p, chain) && t.core == Replay(p.h, chain).core
      requires height < |chain| && Synced(p, chain[..height]) && Arranges(arrange)
      requires SameBlocks(p.h, b, chain[height]) && b.height == height + 1
      modifies `balances, `utxos, `txs, `height, `tip
      ensures ok && balances.Keys == old(balances.Keys)
      ensures height == old(height) + 1 && Synced(p, chain[..height])
    {
      hide BlockId, Valid, Replay, NoClash, CoreBlock, Sound, Coherent, Lined, Fold, Grown, Mirror, Needed, Marks;
      hide Backed, Applies, Relevant, BlockItems, After, TxId;
      ghost var n := height;
      ghost var c := Replay(p.h, chain[..n]).core;
      var order := arrange(b);
      ghost var id := BlockId(p.h, chain[n]);
      SameItems(b, chain[n]);
      DigestReady(p, chain, n, order);
      ReplayCoherent(p, chain);
      FoldNone(p.h, c, order, id);
      MarksNone(keys, p.h, c.utxos, order);
      for i := 0 to |order|
        invariant height == n && balances.Keys == old(balances.Keys)
        invariant Mirror(keys, Fold(p.h, c, order[..i], id).utxos, Held())
        invariant txs >= old(txs) + Marks(keys, p.h, c.utxos, order[..i])
      {
        ghost var d := Fold(p.h, c, order[..i], id);
        var x := order[i];
        NextInOrder(p.h, c, order, i, id);
        FitsApplies(p.h, d, x);
        BackedBy(p.h, d, t.core);
        SameRelevance(keys, c.utxos, d.utxos, x.tx);
        MarksMore(keys, p.h, c.utxos, order[..i], x);
        assert order[..i] + [x] == order[..i + 1];
        ConfirmAfter(p.h, d, x, id);
        ok := DigestTx(p.h, t.core, x.tx, false, d.utxos);
      }
      assert order[..|order|] == order;
      height := b.height;
      tip := Some(BlockId(p.h, b));
      ValidPrefix(p, chain, n + 1);
      assert chain[..n + 1][..n] == chain[..n];
      MarksReordered(keys, p.h, c.utxos, order, BlockItems(chain[n]));
      NeededLast(keys, p.h, chain[..n + 1]);
      ok := true;
    }

    /** Take the wallet's last block back. False stands for a block or output the chain no longer has. */
    method RewindBlock(p: Params, t: State, ghost chain: seq<Block>, ghost past: seq<Block>) returns (found: bool)
      requires Sound(p.h) && NoClash(p.h) && Base(p, t, chain) && Arranges(arrange)
      requires Synced(p, past) && Kin(p, t, chain, past) && past != []
      requires |past| == 1 ==> BlockId(p.h, past[0]) != BlockId(p.h, chain[0])
      modifies `balances, `utxos, `txs, `height, `tip
      ensures balances.Keys == old(balances.Keys)
      ensures found ==> |past| > 1 && BlockId(p.h, past[0]) == BlockId(p.h, chain[0]) && Synced(p, past[..|past| - 1])
    {
      hide BlockId, DbBlockId, Base, Valid, Replay, NoClash, CoreBlock, Sound, Coherent, Lined, Fold, Grown, Mirror;
      hide Needed, Marks, Agrees, Applies, Relevant, BlockItems, After, TxId, FindBlock, RebuildBlock, Kin, Known;
      BaseCoherent(p, t, chain);
      KinFound(p, t, chain, past);
      var row := FindBlock(p.h, t, tip.value);
      if row.None? { return false; }
      var built := RebuildBlock(p.h, t, row.value);
      if built.None? { return false; }
      var b := built.value;
      BuiltBlock(p, t, chain, tip.value);
      ghost var n := |past| - 1;
      SameParts(p.h, b, past[n]);
      SameItems(b, past[n]);
      ghost var c := Replay(p.h, past[..n]).core;
      ghost var id := BlockId(p.h, past[n]);
      var order := arrange(b);
      RewindReady(keys, p, past, order);
      FoldWhole(p.h, c, order, id);
      for i := 0 to |order|
        invariant balances.Keys == old(balances.Keys)
        invariant Mirror(keys, Fold(p.h, c, order[i..], id).utxos, Held())
        invariant Needed(keys, p.h, past[..n]) <= txs && Marks(keys, p.h, c.utxos, order[i..]) <= txs
      {
        ghost var d := Fold(p.h, c, order[i + 1..], id);
        var x := order[i];
        NextToUndo(p.h, c, order, i, id);
        FitsApplies(p.h, d, x);
        AgreesWith(p.h, d, t.core);
        SameRelevance(keys, c.utxos, d.utxos, x.tx);
        ConfirmAfter(p.h, d, x, id);
        MarksRest(keys, p.h, c, order, i);
        if Relevant(keys, c.utxos, x.tx) { MarkedFirst(keys, p.h, c.utxos, order, i); }
        found := RewindTx(p.h, t.core, x.tx, d.utxos);
        if !found { return; }
      }
      FoldLast(p.h, c, order, id);
      var prev := FindBlock(p.h, t, b.prev);
      if prev.None? { return false; }
      ValidTail(p, past);
      PreviousTip(p, t, chain, past);
      tip := Some(DbBlockId(p.h, prev.value));
      height := prev.value.height;
      found := true;
    }

    /** Forget everything but the accounts and their keys. */
    method ClearDb(p: Params)
      requires Named(keys, Held())
      modifies `balances, `utxos, `txs, `height, `tip
      ensures Synced(p, []) && balances.Keys == old(balances.Keys)
    {
      balances := map name | name in balances :: 0;
      utxos := map[];
      txs := {};
      height := 0;
      tip := None;
      NothingYet(keys, Held());
    }

    /** Go back to the last block that is still on the main chain, or start over. */
    method Rewind(p: Params, t: State, ghost chain: seq<Block>, ghost past: seq<Block>)
      requires Sound(p.h) && NoClash(p.h) && Base(p, t, chain) && Arranges(arrange)
      requires Synced(p, past) && Kin(p, t, chain, past)
      modifies `balances, `utxos, `txs, `height, `tip
      ensures balances.Keys == old(balances.Keys)
      ensures height <= |chain| && Synced(p, chain[..height])
    {
      hide BlockId, Base, Valid, Replay, NoClash, Sound, Mirror, Needed;
      MainTip(p, t, chain);
      ghost var kept := past;
      while height > 0 && (height !in t.heights || Some(t.heights[height]) != tip)
        invariant Synced(p, kept) && balances.Keys == old(balances.Keys)
        invariant Kin(p, t, chain, kept)
        decreases height
      {
        MirrorNamed(keys, Replay(p.h, kept).core.utxos, Held());
        var found := RewindBlock(p, t, chain, kept);
        if found {
          kept := kept[..|kept| - 1];
        } else {
          SameNames(keys, old(Held()), Held());
          ClearDb(p);
          kept := [];
        }
      }
      Resume(keys, p, t, chain, kept);
    }

    /** One pass of the watch thread. False stands for an exception that ends it. */
    method Pass(p: Params, t: State, pool: seq<Tx>, ghost chain: seq<Block>, ghost past: seq<Block>) returns (ok: bool)
      requires Sound(p.h) && NoClash(p.h) && Base(p, t, chain) && Arranges(arrange)
      requires Synced(p, past) && Kin(p, t, chain, past)
      modifies `balances, `utxos, `txs, `height, `tip
      ensures ok && Synced(p, chain)
      ensures Mirror(keys, t.core.utxos, Held()) && balances.Keys == old(balances.Keys)
      ensures forall q :: Mirror(keys, t.core.utxos, q) && q.balances.Keys == balances.Keys ==> q == Held()
    {
      hide BlockId, Base, Valid, Replay, NoClash, Sound, Mirror, Needed, FindBlock, RebuildBlock, Backed, Relevant;
      BaseCoherent(p, t, chain);
      MainTip(p, t, chain);
      Rewind(p, t, chain, past);
      while height < t.tip.value.height
        invariant height <= |chain| && Synced(p, chain[..height]) && balances.Keys == old(balances.Keys)
        decreases |chain| - height
      {
        MainBlock(p, t, chain, height);
        BuiltBlock(p, t, chain, t.heights[height + 1]);
        var row := FindBlock(p.h, t, t.heights[height + 1]);
        var built := RebuildBlock(p.h, t, row.value);
        SameParts(p.h, built.value, chain[height]);
        ok := DigestBlock(p, t, built.value, chain);
      }
      assert chain[..height] == chain;
      WholeBacked(p, t, chain);
      for i := 0 to |pool|
        invariant Synced(p, chain) && balances.Keys == old(balances.Keys)
      {
        ok := DigestTx(p.h, t.core, pool[i], true, t.core.utxos);
      }
      ok := true;
      OnlyMirror(keys, t.core.utxos, Held());
    }

    /** Start over from genesis: the same purse as a pass that only rewinds to the fork. */
    method Rescan(p: Params, t: State, pool: seq<Tx>, ghost chain: seq<Block>) returns (ok: bool)
      requires Sound(p.h) && NoClash(p.h) && Base(p, t, chain) && Arranges(arrange) && Named(keys, Held())
      modifies `balances, `utxos, `txs, `height, `tip
      ensures ok && Synced(p, chain) && balances.Keys == old(balances.Keys)
      ensures forall q :: Mirror(keys, t.core.utxos, q) && q.balances.Keys == balances.Keys ==> q == Held()
    {
      hide Base, NoClash, Sound, Mirror;
      ClearDb(p);
      ok := Pass(p, t, pool, chain, []);
    }

    /** Any interleaving of submitted blocks and watch passes, from any reachable database. */
    method Follow(p: Params, t: State, events: seq<Event>, ghost start: seq<Block>, ghost past: seq<Block>)
      returns (u: State, ghost chain: seq<Block>, ghost seen: seq<Block>)
      requires Sound(p.h) && NoClash(p.h) && Inv(p, t, start) && Arranges(arrange) && Submittable(p, Arrivals(events))
      requires start != [] && Synced(p, past) && (past != [] ==> BlockId(p.h, past[0]) == BlockId(p.h, start[0]))
      modifies `balances, `utxos, `txs, `height, `tip
      ensures u == Run(p, t, Arrivals(events)) && Follows(p, t, u, chain) && balances.Keys == old(balances.Keys)
      ensures Synced(p, seen) && (seen != [] && chain != [] ==> BlockId(p.h, seen[0]) == BlockId(p.h, chain[0]))
      ensures events != [] && events[|events| - 1].Watch? ==> seen == chain && Mirror(keys, u.core.utxos, Held())
    {
      hide Sound, NoClash, Inv, Base, Mirror, Follows, BlockId, Known, Run, Submit, Synced, Submittable, Arranges;
      hide Arrivals, Commit;
      u, chain, seen := t, start, past;
      NoEvents(p, t, events, start);
      for i := 0 to |events|
        invariant u == Run(p, t, Arrivals(events[..i])) && Follows(p, t, u, chain) && balances.Keys == old(balances.Keys)
        invariant chain != [] && BlockId(p.h, chain[0]) == BlockId(p.h, start[0])
        invariant Synced(p, seen) && (seen != [] ==> BlockId(p.h, seen[0]) == BlockId(p.h, start[0]))
        invariant i > 0 && events[i - 1].Watch? ==> seen == chain && Mirror(keys, u.core.utxos, Held())
      {
        ArrivalsMore(p, t, events, i);
        match events[i]
        case Arrive(b) =>
          chain := FollowsCommit(p, t, u, chain, b);
          u := Commit(u, Submit(p, u, b, 1));
          SameGenesis(p, t, start, u, chain);
        case Watch(pool) =>
          FollowsBase(p, t, u, chain);
          var _ := Pass(p, u, pool, chain, seen);
          seen := chain;
      }
      assert events[..|events|] == events;
    }
  }

  /** What reaches the node: a block from a peer or a miner, or a tick of the wallet's watch thread with
      the unconfirmed transactions of that moment. */
  datatype Event = Arrive(block: Block) | Watch(pool: seq<Tx>)

  function Arrivals(events: seq<Event>): seq<Block> {
    if events == [] then [] else
      var n := |events| - 1;
      Arrivals(events[..n]) + if events[n].Arrive? then [events[n].block] else []
  }

  lemma NoEvents(p: Params, t: State, events: seq<Event>, start: seq<Block>)
    requires Inv(p, t, start)
    ensures Run(p, t, Arrivals(events[..0])) == t && Follows(p, t, t, start)
  {
    hide Inv, Submit, Follows;
    FollowsSelf(p, t, start);
  }

  /** The next submission of a run, when the next event is one. */
  lemma ArrivalsMore(p: Params, t: State, events: seq<Event>, i: nat)
    requires i < |events| && Submittable(p, Arrivals(events))
    ensures events[i].Watch? ==> Arrivals(events[..i + 1]) == Arrivals(events[..i])
    ensures events[i].Arrive? ==>
              var u := Run(p, t, Arrivals(events[..i]));
              var b := events[i].block;
              && BlockRep(p.h, b) && Plain(p, b)
              && Run(p, t, Arrivals(events[..i + 1])) == Commit(u, Submit(p, u, b, 1))
  {
    hide Submit, BlockRep, Plain;
    var bs, cs := Arrivals(events[..i]), Arrivals(events[..i + 1]);
    assert events[..i + 1][..i] == events[..i];
    if events[i].Arrive? {
      assert cs == bs + [events[i].block] && cs[..|cs| - 1] == bs;
      ArrivalsPrefix(events, i + 1);
      assert Arrivals(events)[|bs|] == cs[|bs|] == events[i].block;
    }
  }

  lemma {:induction false} ArrivalsPrefix(events: seq<Event>, i: nat)
    requires i <= |events|
    ensures Arrivals(events[..i]) <= Arrivals(events)
  {
    if i == |events| {
      assert events[..i] == events;
    } else {
      ArrivalsPrefix(events[..|events| - 1], i);
      assert events[..|events| - 1][..i] == events[..i];
    }
  }

  lemma FollowsBase(p: Params, t: State, u: State, chain: seq<Block>)
    requires Follows(p, t, u, chain)
    ensures Base(p, u, chain)
  {
    hide Base, Best, Known, Replay;
  }

  lemma SameGenesis(p: Params, t: State, start: seq<Block>, u: State, chain: seq<Block>)
    requires Sound(p.h) && Inv(p, t, start) && Follows(p, t, u, chain)
    ensures start != [] && chain != [] && BlockId(p.h, chain[0]) == BlockId(p.h, start[0])
  {
    hide Base, Best, Known, Replay, Sound, BlockId;
    BaseNonEmpty(p, t, start);
    BaseNonEmpty(p, u, chain);
    GenesisStays(p, t, start, u, chain);
  }

  /** The wallet's chain and the node's have one genesis, unless the node does not know the wallet's
      last block: such a wallet is cleared by the first rewind. */
  ghost predicate Kin(p: Params, t: State, chain: seq<Block>, past: seq<Block>) {
    past != [] && chain != [] && BlockId(p.h, past[|past| - 1]) in Known(p.h, t) ==> BlockId(p.h, past[0]) == BlockId(p.h, chain[0])
  }

  lemma KinFound(p: Params, t: State, chain: seq<Block>, past: seq<Block>)
    requires Sound(p.h) && Base(p, t, chain) && chain != [] && Kin(p, t, chain, past) && past != []
    ensures FindBlock(p.h, t, BlockId(p.h, past[|past| - 1])).Some? ==> BlockId(p.h, past[0]) == BlockId(p.h, chain[0])
  {
    hide BlockId, Known, FindBlock, Base, Sound;
    Found(p, t, chain, BlockId(p.h, past[|past| - 1]));
  }

  lemma WholeBacked(p: Params, t: State, chain: seq<Block>)
    requires Sound(p.h) && NoClash(p.h) && Base(p, t, chain)
    ensures Backed(t.core, t.core.utxos)
  {
    hide NoClash, Sound, Base, Coherent, Backed;
    BaseCoherent(p, t, chain);
    BackedBy(p.h, t.core, t.core);
  }

  lemma MirrorNamed(k: KeyBook, u: map<Id, DbOutput>, p: Purse)
    requires Mirror(k, u, p)
    ensures Named(k, p)
  {
  }

  lemma SameNames(k: KeyBook, p: Purse, q: Purse)
    requires Named(k, p) && p.balances.Keys == q.balances.Keys
    ensures Named(k, q)
  {
  }

  /** The tip of the database is the last block of its chain, and genesis sits at height one. */
  lemma MainTip(p: Params, t: State, chain: seq<Block>)
    requires Sound(p.h) && Base(p, t, chain)
    ensures chain != [] && t.tip.Some? && t.tip.value.height == |chain|
    ensures 1 in t.heights && t.heights[1] == BlockId(p.h, chain[0])
  {
    hide BlockId, Valid, Replay, Side, Known, Coherent;
    BaseTables(p, t, chain);
    assert At(p.h, MainOf(t), chain, 0);
  }

  /** A chain whose tip is on the main chain at its own height is a prefix of it. */
  lemma Resume(k: KeyBook, p: Params, t: State, chain: seq<Block>, kept: seq<Block>)
    requires Sound(p.h) && NoClash(p.h) && Base(p, t, chain) && Valid(p, kept)
    requires kept != [] ==> |kept| in t.heights && t.heights[|kept|] == BlockId(p.h, kept[|kept| - 1])
    ensures |kept| <= |chain| && Valid(p, chain[..|kept|])
    ensures kept != [] ==> BlockId(p.h, chain[|kept| - 1]) == BlockId(p.h, kept[|kept| - 1])
    ensures Replay(p.h, kept).core == Replay(p.h, chain[..|kept|]).core && Needed(k, p.h, kept) == Needed(k, p.h, chain[..|kept|])
  {
    hide BlockId, Valid, Replay, Side, Known, Coherent, NoClash, Needed, Sound;
    BaseTables(p, t, chain);
    var n := |kept|;
    if n > 0 {
      assert At(p.h, MainOf(t), chain, n - 1);
    }
    ValidPrefix(p, chain, n);
    SameChain(p, kept, chain[..n]);
    SameNeeded(k, p, kept, chain[..n]);
  }

  lemma NothingYet(k: KeyBook, p: Purse)
    requires Named(k, p) && p.utxos == map[] && forall name :: name in p.balances ==> p.balances[name] == 0
    ensures Mirror(k, map[], p)
  {
    assert Mine(k, map[]) == map[];
    forall name ensures Share(k, map[], name) == map[] {}
  }

  /** The tables of the wallet's chain as those of its last block, in the order it rewinds them. */
  lemma RewindReady(k: KeyBook, p: Params, past: seq<Block>, order: seq<Item>)
    requires Sound(p.h) && Valid(p, past) && past != []
    requires multiset(order) == multiset(BlockItems(past[|past| - 1]))
    ensures var n := |past| - 1;
            var c := Replay(p.h, past[..n]).core;
            && Coherent(p.h, c) && Lined(p.h, c, order)
            && Fold(p.h, c, order, BlockId(p.h, past[n])) == Replay(p.h, past).core
            && Needed(k, p.h, past) == Needed(k, p.h, past[..n]) + Marks(k, p.h, c.utxos, order)
            && (forall x :: x in order ==> TxId(p.h, x.tx) !in Needed(k, p.h, past[..n]))
  {
    hide BlockId, BlockRep, Valid, Replay, CoreBlock, Sound, Coherent, Family, TxRep, Fold, Needed, Marks, TxId;
    var n := |past| - 1;
    LastBlockFits(p, past);
    BlockLined(p.h, Replay(p.h, past[..n]).core, past[n], order);
    NeededLast(k, p.h, past);
    MarksReordered(k, p.h, Replay(p.h, past[..n]).core.utxos, order, BlockItems(past[n]));
    NeededStored(k, p.h, past[..n]);
  }

  lemma FoldWhole(h: Hashes, c: Core, items: seq<Item>, block: Id)
    ensures Fold(h, c, items[0..], block) == Fold(h, c, items, block) && items[0..] == items
  {
    assert items[0..] == items;
  }

  lemma FoldLast(h: Hashes, c: Core, items: seq<Item>, block: Id)
    ensures Fold(h, c, items[|items|..], block) == c
  {
  }

  lemma MarkedFirst(k: KeyBook, h: Hashes, u: map<Id, DbOutput>, items: seq<Item>, i: nat)
    requires i < |items| && Relevant(k, u, items[i].tx)
    ensures TxId(h, items[i].tx) in Marks(k, h, u, items[i..])
  {
    hide Relevant, TxId;
    assert items[i] in items[i..];
  }

  lemma BaseCoherent(p: Params, t: State, chain: seq<Block>)
    requires Sound(p.h) && Base(p, t, chain)
    ensures Coherent(p.h, t.core) && t.core == Replay(p.h, chain).core && Valid(p, chain) && chain != []
  {
    hide Valid, Replay, Coherent, Side, Known, Tables;
    BaseTables(p, t, chain);
  }

  /** The block before the wallet's last one, when it is still known, is found with its own id and height. */
  lemma PreviousTip(p: Params, t: State, chain: seq<Block>, past: seq<Block>)
    requires Sound(p.h) && Base(p, t, chain) && Valid(p, past) && |past| > 1
    requires BlockId(p.h, past[0]) == BlockId(p.h, chain[0])
    ensures var n := |past| - 1;
            var prev := FindBlock(p.h, t, past[n].prev);
            prev.Some? ==> DbBlockId(p.h, prev.value) == BlockId(p.h, past[n - 1]) && prev.value.height == n
  {
    hide BlockId, DbBlockId, Valid, Replay, Base, FindBlock, Known, Sound;
    var n := |past| - 1;
    ValidTail(p, past);
    if FindBlock(p.h, t, past[n].prev).Some? {
      FoundKnown(p.h, t, past[n].prev);
      Found(p, t, chain, past[n].prev);
      KnownHeight(p, t, chain, past[..n]);
    }
  }

  lemma MarksNone(k: KeyBook, h: Hashes, u: map<Id, DbOutput>, items: seq<Item>)
    ensures Marks(k, h, u, items[..0]) == {}
  {
  }

  lemma FoldNone(h: Hashes, c: Core, items: seq<Item>, block: Id)
    ensures Fold(h, c, items[..0], block) == c
  {
  }

  lemma ConfirmAfter(h: Hashes, c: Core, x: Item, block: Id)
    ensures Confirm(h, c, x.tx, block, x.coinbase).utxos == After(h, c.utxos, x.tx)
  {
  }

  /** A transaction that is not the wallet's leaves its view alone. */
  lemma OthersTx(k: KeyBook, h: Hashes, u: map<Id, DbOutput>, tx: Tx, p: Purse)
    requires Applies(h, u, tx) && !Relevant(k, u, tx) && Mirror(k, After(h, u, tx), p)
    ensures Mirror(k, u, p)
  {
    hide OutputRows, TxId, Owner, Total;
    var v := After(h, u, tx);
    forall id | id in Spent(tx) ensures id in u && Owner(k, u[id].output).None? {
      var i :| 0 <= i < |tx.inputs| && SpentIds(tx.inputs)[i] == id;
      assert tx.inputs[i].outputId == id;
      assert id !in Mine(k, u);
    }
    forall id | id in Made(h, tx) ensures id in v && Owner(k, v[id].output).None? {
      var o := v[id].output;
      assert o in tx.outputs;
    }
    SameShares(k, u, v, Spent(tx), Made(h, tx));
  }

  lemma SameShares(k: KeyBook, u: map<Id, DbOutput>, v: map<Id, DbOutput>, gone: set<Id>, made: set<Id>)
    requires gone <= u.Keys && made !! u.Keys && v.Keys == (u.Keys - gone) + made
    requires forall id :: id in u && id !in gone ==> v[id] == u[id]
    requires forall id :: id in gone ==> Owner(k, u[id].output).None?
    requires forall id :: id in made ==> Owner(k, v[id].output).None?
    ensures Mine(k, u) == Mine(k, v)
    ensures forall name :: Share(k, u, name) == Share(k, v, name)
  {
    hide Owner;
  }

  lemma UnmakeOne(h: Hashes, v: map<Id, DbOutput>, outs: seq<Output>, j: nat)
    requires Distinct(OutputIds(h, outs)) && ToSet(OutputIds(h, outs)) <= v.Keys && j < |outs|
    ensures var id := h.output(outs[j]);
            && id in v - ToSet(OutputIds(h, outs[..j]))
            && (v - ToSet(OutputIds(h, outs[..j]))) - {id} == v - ToSet(OutputIds(h, outs[..j + 1]))
  {
    var id := h.output(outs[j]);
    assert OutputIds(h, outs)[j] == id;
    assert OutputIds(h, outs[..j + 1]) == OutputIds(h, outs[..j]) + [id];
    assert OutputIds(h, outs[..j]) == OutputIds(h, outs)[..j];
    assert id !in OutputIds(h, outs)[..j];
  }

  /** The table with the first `i` spent outputs given back. */
  ghost function Returned(u: map<Id, DbOutput>, ins: seq<Input>, i: nat): map<Id, DbOutput>
    requires i <= |ins|
  {
    u - ToSet(SpentIds(ins)) + Restrict(u, ToSet(SpentIds(ins[..i])))
  }

  lemma SpentMore(ins: seq<Input>, i: nat)
    requires Distinct(SpentIds(ins)) && i < |ins|
    ensures var id := ins[i].outputId;
            && id in ToSet(SpentIds(ins)) && id !in ToSet(SpentIds(ins[..i]))
            && ToSet(SpentIds(ins[..i + 1])) == ToSet(SpentIds(ins[..i])) + {id}
  {
    var id := ins[i].outputId;
    assert SpentIds(ins)[i] == id;
    assert SpentIds(ins[..i + 1]) == SpentIds(ins[..i]) + [id];
    assert SpentIds(ins[..i]) == SpentIds(ins)[..i];
    assert id !in SpentIds(ins)[..i];
  }

  lemma ReturnRow(u: map<Id, DbOutput>, gone: set<Id>, back: set<Id>, id: Id)
    requires id in u && id in gone && id !in back
    ensures var v := u - gone + Restrict(u, back);
            id !in v && v[id := u[id]] == u - gone + Restrict(u, back + {id})
  {
  }

  lemma ReturnOne(u: map<Id, DbOutput>, ins: seq<Input>, i: nat)
    requires Distinct(SpentIds(ins)) && ToSet(SpentIds(ins)) <= u.Keys && i < |ins|
    ensures var id := ins[i].outputId;
            && id in u && id !in Returned(u, ins, i)
            && Returned(u, ins, i)[id := u[id]] == Returned(u, ins, i + 1)
  {
    hide SpentIds, ToSet, Restrict, Distinct;
    SpentMore(ins, i);
    ReturnRow(u, ToSet(SpentIds(ins)), ToSet(SpentIds(ins[..i])), ins[i].outputId);
  }

  lemma ReturnEnds(u: map<Id, DbOutput>, ins: seq<Input>)
    requires ToSet(SpentIds(ins)) <= u.Keys
    ensures Returned(u, ins, 0) == u - ToSet(SpentIds(ins))
    ensures Returned(u, ins, |ins|) == u
  {
    assert ins[..|ins|] == ins;
  }

  lemma UnmakeEnds(h: Hashes, u: map<Id, DbOutput>, tx: Tx)
    requires Applies(h, u, tx)
    ensures Made(h, tx) <= After(h, u, tx).Keys
    ensures After(h, u, tx) - ToSet(OutputIds(h, tx.outputs[..0])) == After(h, u, tx)
    ensures After(h, u, tx) - ToSet(OutputIds(h, tx.outputs[..|tx.outputs|])) == u - Spent(tx)
    ensures forall j :: 0 <= j < |tx.outputs| ==>
            h.output(tx.outputs[j]) in After(h, u, tx) && After(h, u, tx)[h.output(tx.outputs[j])].output == tx.outputs[j]
  {
    hide OutputRows, TxId;
    assert tx.outputs[..|tx.outputs|] == tx.outputs;
    forall j | 0 <= j < |tx.outputs| {
      OutputRowAt(h, tx.outputs, TxId(h, tx), j);
    }
  }

  lemma NoRows(h: Hashes, u: map<Id, DbOutput>, outs: seq<Output>, tx: Id)
    ensures u + OutputRows(h, outs[..0], tx) == u
  {
  }

  lemma MirrorNone(k: KeyBook, u: map<Id, DbOutput>, p: Purse)
    requires Mirror(k, u, p)
    ensures Mirror(k, u - ToSet(SpentIds([])), p)
  {
    assert u - ToSet(SpentIds([])) == u;
  }

  lemma MineAt(k: KeyBook, u: map<Id, DbOutput>, id: Id)
    ensures id in Mine(k, u) <==> id in u && Owner(k, u[id].output).Some?
  {
  }

  lemma MirrorIds(k: KeyBook, u: map<Id, DbOutput>, p: Purse)
    requires Mirror(k, u, p)
    ensures p.utxos == Mine(k, u)
    ensures forall id :: id in p.utxos ==> id in u && Owner(k, u[id].output).Some?
  {
  }
}
