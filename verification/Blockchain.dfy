/** The ledger as the program runs it: tables updated in place, step by step. Every method is proved
    to have exactly the effect of the state machine in `Submission`. */
module Database {
  import opened Types
  import opened Ledger
  import opened Blocks
  import opened Reversal
  import opened Index
  import opened Steps
  import opened Kimoto
  import opened Tree
  import opened Submission
  import opened Chain
  import opened Runs
  import opened Persist
  import Storage

  /** The tables as objects, and the store that holds their rows. Every method that writes is given the
      open database transaction and writes each row through it. */
  class Blockchain {
    const p: Params
    const codec: Codec
    const read: Storage.Rows -> State
    const store: Storage.Store

    var tip: Option<DbBlock>
    var blocks: map<Id, DbBlock>
    var heights: map<nat, Id>
    var candidates: map<Id, Block>
    var txs: map<Id, DbTx>
    var utxos: map<Id, DbOutput>
    var stxos: map<Id, DbOutput>
    var inputs: map<Id, Input>
    var utxoKeys: set<string>
    var stxoKeys: set<string>
    /** The main chain, genesis first. */
    ghost var chain: seq<Block>

    function Confirmed(): Core
      reads this
    {
      Core(txs, utxos, stxos, inputs)
    }

    function View(): State
      reads this
    {
      State(tip, blocks, heights, Confirmed(), candidates, Keys(utxoKeys, stxoKeys))
    }

    ghost predicate Ready()
      reads this
    {
      Sound(p.h) && Inv(p, View(), chain)
    }

    /** What a reader of the open transaction sees is the tables. */
    ghost predicate Open(tx: Storage.Transaction)
      reads this, tx, tx.db
    {
      tx.Valid() && !tx.finished && tx.db == store && NoTipId(p.h) && Holds(codec, tx.View(), View())
    }

    /** No transaction is open, and the store holds the tables. */
    ghost predicate Stored()
      reads this, store
    {
      !store.locked && NoTipId(p.h) && Reads(codec, read) && Holds(codec, store.rows, View())
    }

    constructor (p: Params, codec: Codec, read: Storage.Rows -> State)
      requires NoTipId(p.h) && Reads(codec, read)
      ensures this.p == p && this.codec == codec && this.read == read
      ensures View() == EmptyState && Stored() && fresh(store)
    {
      this.p, this.codec, this.read := p, codec, read;
      store := new Storage.Store();
      tip, blocks, heights, candidates := None, map[], map[], map[];
      txs, utxos, stxos, inputs := map[], map[], map[], map[];
      utxoKeys, stxoKeys := {}, {};
      EmptyHolds(codec);
    }

    /** One put or erase on a table, and on the transaction. */
    method Write(tx: Storage.Transaction, c: Change)
      requires Open(tx) && Proper(PlaceOf(c))
      modifies this, tx`cache, tx`ops
      ensures Open(tx) && View() == Changed(old(View()), c)
    {
      hide Holds, KeyOf, NoTipId, Storage.Overlay, Storage.ApplyOps;
      ChangeHolds(codec, tx.View(), View(), c);
      Assign(c);
      match DataOf(codec, c)
      case Some(data) => tx.Put(KeyOf(PlaceOf(c)), data);
      case None => tx.Erase(KeyOf(PlaceOf(c)));
    }

    method Assign(c: Change)
      modifies this
      ensures View() == Changed(old(View()), c)
    {
      match c
      case Tip(row) => tip := Some(row);
      case Blocks(w) => blocks := Updated(blocks, w);
      case Heights(w) => heights := Updated(heights, w);
      case Candidates(w) => candidates := Updated(candidates, w);
      case Txs(w) => txs := Updated(txs, w);
      case Utxos(w) => utxos := Updated(utxos, w);
      case UtxoKeys(w) => utxoKeys := Listed(utxoKeys, w);
      case Stxos(w) => stxos := Updated(stxos, w);
      case StxoKeys(w) => stxoKeys := Listed(stxoKeys, w);
      case Inputs(w) => inputs := Updated(inputs, w);
    }

    // ---- verification ----

    method VerifyTransaction(tx: Tx, coinbase: bool) returns (ok: bool)
      ensures ok <==> Verify(p, Confirmed(), tx, coinbase)
    {
      hide TxId;
      if TxId(p.h, tx) in txs { return false; }
      var outputTotal := 0;
      for i := 0 to |tx.outputs|
        invariant outputTotal == OutputSum64(tx.outputs[..i])
        invariant forall j :: 0 <= j < i ==> p.h.output(tx.outputs[j]) !in utxos && p.h.output(tx.outputs[j]) !in stxos
      {
        var id := p.h.output(tx.outputs[i]);
        if id in utxos || id in stxos { return false; }
        assert tx.outputs[..i + 1][..i] == tx.outputs[..i];
        outputTotal := Add64(outputTotal, tx.outputs[i].value);
      }
      assert tx.outputs[..|tx.outputs|] == tx.outputs;

      var inputTotal, seen, i, last := 0, [], 0, false;
      while i < |tx.inputs| && !last
        invariant i <= |tx.inputs|
        invariant ScanInputs(p, Confirmed(), tx, 0, 0, []) ==
                  if last then Some((inputTotal, seen)) else ScanInputs(p, Confirmed(), tx, i, inputTotal, seen)
        decreases |tx.inputs| - i, !last
      {
        var id := tx.inputs[i].outputId;
        if id !in utxos { return false; }
        var o := utxos[id];
        match p.signed(o, tx.inputs[i], tx)
        case Bad => return false;
        case Last =>
          last := true;
          inputTotal, seen := Add64(inputTotal, o.output.value), seen + [o];
        case Good =>
          inputTotal, seen, i := Add64(inputTotal, o.output.value), seen + [o], i + 1;
      }
      if !p.aggregate(seen, tx) { return false; }
      if !coinbase {
        if outputTotal > inputTotal { return false; }
        var fee := inputTotal - outputTotal;
        if 2 * fee < p.feeUnits(tx) { return false; }
      }
      for j := 0 to |tx.inputs|
        invariant forall k :: 0 <= k < j ==> tx.inputs[k].outputId in utxos
      {
        if tx.inputs[j].outputId !in utxos { return false; }
      }
      return p.contract(Confirmed(), tx);
    }

    method CalculateTransactionFee(tx: Tx) returns (fee: nat)
      ensures fee == Fee64(Confirmed(), tx)
    {
      var inputTotal, outputTotal := 0, 0;
      for i := 0 to |tx.outputs|
        invariant outputTotal == OutputSum64(tx.outputs[..i])
      {
        assert tx.outputs[..i + 1][..i] == tx.outputs[..i];
        outputTotal := Add64(outputTotal, tx.outputs[i].value);
      }
      for i := 0 to |tx.inputs|
        invariant inputTotal == InputSum64(Confirmed(), tx.inputs[..i])
      {
        assert tx.inputs[..i + 1][..i] == tx.inputs[..i];
        var id := tx.inputs[i].outputId;
        inputTotal := Add64(inputTotal, if id in utxos then utxos[id].output.value else 0);
      }
      assert tx.outputs[..|tx.outputs|] == tx.outputs && tx.inputs[..|tx.inputs|] == tx.inputs;
      fee := Sub64(inputTotal, outputTotal);
    }

    /** The checks of `submitBlock` on a block for the tip. */
    method CheckBlock(b: Block, height: nat) returns (ok: bool)
      ensures ok <==> Acceptable(p, Confirmed(), b, height)
    {
      hide Verify, Fee64;
      for i := 0 to |b.txs|
        invariant forall j :: 0 <= j < i ==> Verify(p, Confirmed(), b.txs[j], false)
      {
        var good := VerifyTransaction(b.txs[i], false);
        if !good { return false; }
      }
      var fees := 0;
      for i := 0 to |b.txs|
        invariant fees == Fees64(Confirmed(), b.txs[..i])
      {
        var fee := CalculateTransactionFee(b.txs[i]);
        assert b.txs[..i + 1][..i] == b.txs[..i];
        fees := Add64(fees, fee);
      }
      assert b.txs[..|b.txs|] == b.txs;
      var good := VerifyTransaction(b.coinbase, true);
      if !good { return false; }
      var outputTotal := 0;
      for i := 0 to |b.coinbase.outputs|
        invariant outputTotal == OutputSum64(b.coinbase.outputs[..i])
      {
        assert b.coinbase.outputs[..i + 1][..i] == b.coinbase.outputs[..i];
        outputTotal := Add64(outputTotal, b.coinbase.outputs[i].value);
      }
      assert b.coinbase.outputs[..|b.coinbase.outputs|] == b.coinbase.outputs;
      return outputTotal <= Add64(fees, p.reward(height));
    }

    // ---- confirming ----

    method SpendInput(dbTx: Storage.Transaction, inp: Input)
      requires Open(dbTx) && inp.outputId in utxos
      modifies this, dbTx`cache, dbTx`ops
      ensures Open(dbTx) && View() == SpendOne(p.h, old(View()), inp)
    {
      hide Open, Changed, SpendOne;
      SpendWrites(p.h, View(), inp);
      var row := utxos[inp.outputId];
      Write(dbTx, Stxos(Put(inp.outputId, row)));
      if row.output.key.Some? {
        var s := row.output.key.value + inp.outputId.hex;
        Write(dbTx, StxoKeys(Put(s, ())));
        Write(dbTx, UtxoKeys(Erase(s)));
      }
      Write(dbTx, Utxos(Erase(inp.outputId)));
      Write(dbTx, Inputs(Put(p.h.input(inp), inp)));
    }

    method AddOutput(dbTx: Storage.Transaction, out: Output, tx: Id)
      requires Open(dbTx)
      modifies this, dbTx`cache, dbTx`ops
      ensures Open(dbTx) && View() == MakeOne(p.h, old(View()), out, tx)
    {
      hide Open;
      var id := p.h.output(out);
      if out.key.Some? {
        Write(dbTx, UtxoKeys(Put(out.key.value + id.hex, ())));
      }
      Write(dbTx, Utxos(Put(id, DbOutput(out, tx))));
    }

    method ConfirmTransaction(dbTx: Storage.Transaction, tx: Tx, block: Id, coinbase: bool)
      requires Open(dbTx) && Distinct(Claims(p.h, tx)) && Spent(tx) <= utxos.Keys
      modifies this, dbTx`cache, dbTx`ops
      ensures Open(dbTx) && View() == ConfirmTx(p.h, old(View()), tx, block, coinbase)
    {
      hide Open, TxId, ConfirmTx, ToDbTx, Claims, Spent, SpendOne, MakeOne;
      ghost var t := View();
      ConfirmSteps(p.h, t, tx, block, coinbase);
      for i := 0 to |tx.inputs|
        invariant Open(dbTx) && View() == Spends(p.h, t, tx.inputs[..i])
      {
        StillUnspent(p.h, t, tx, i);
        SpendInput(dbTx, tx.inputs[i]);
        assert tx.inputs[..i + 1][..i] == tx.inputs[..i];
      }
      assert tx.inputs[..|tx.inputs|] == tx.inputs;
      ghost var u := View();
      var id := TxId(p.h, tx);
      for i := 0 to |tx.outputs|
        invariant Open(dbTx) && View() == Makes(p.h, u, tx.outputs[..i], id)
      {
        AddOutput(dbTx, tx.outputs[i], id);
        assert tx.outputs[..i + 1][..i] == tx.outputs[..i];
      }
      assert tx.outputs[..|tx.outputs|] == tx.outputs;
      Write(dbTx, Txs(Put(id, ToDbTx(p.h, tx, block, coinbase))));
    }

    /** Confirm a checked block on the tip and make it the new tip. */
    method AcceptBlock(dbTx: Storage.Transaction, b: Block, height: nat)
      requires Open(dbTx) && Sound(p.h) && Coherent(p.h, Confirmed()) && BlockFits(p.h, Confirmed(), b)
      modifies this, dbTx`cache, dbTx`ops
      ensures Open(dbTx) && View() == Accept(p.h, old(View()), b, height)
    {
      hide Open, Coherent, BlockFits, BlockRep, BlockId, ConfirmTx;
      ghost var t := View();
      var id := BlockId(p.h, b);
      NotTip(dbTx, b);
      CoinbaseReady(p.h, t, b);
      ConfirmTransaction(dbTx, b.coinbase, id, true);
      ghost var u := View();
      for i := 0 to |b.txs|
        invariant Open(dbTx) && View() == ConfirmTxs(p.h, u, b.txs[..i], id)
      {
        TxReady(p.h, t, b, i);
        ConfirmTransaction(dbTx, b.txs[i], id, false);
        ConfirmTxsStep(p.h, u, b.txs, i, id);
      }
      assert b.txs[..|b.txs|] == b.txs;
      var row := ToDbBlock(p.h, b, height);
      Write(dbTx, Candidates(Erase(id)));
      Write(dbTx, Tip(row));
      Write(dbTx, Heights(Put(height, id)));
      Write(dbTx, Blocks(Put(id, row)));
    }

    lemma NotTip(dbTx: Storage.Transaction, b: Block)
      requires Open(dbTx)
      ensures BlockId(p.h, b).hex != "tip"
    {
    }

    // ---- rebuilding ----

    method GetTransaction(id: Id) returns (r: Option<Tx>)
      ensures r == RebuildTx(Confirmed(), id)
    {
      if id !in txs { return None; }
      var row := txs[id];
      var outputs: seq<Output> := [];
      for i := 0 to |row.outputs|
        invariant |outputs| == i
        invariant forall j :: 0 <= j < i ==> FindOutput(Confirmed(), row.outputs[j]) == Some(outputs[j])
      {
        var o := FindOutput(Confirmed(), row.outputs[i]);
        if o.None? { return None; }
        outputs := outputs + [o.value];
      }
      var ins: seq<Input> := [];
      for i := 0 to |row.inputs|
        invariant |ins| == i
        invariant forall j :: 0 <= j < i ==> FindInput(Confirmed(), row.inputs[j]) == ins[j]
      {
        ins := ins + [FindInput(Confirmed(), row.inputs[i])];
      }
      r := Some(Tx(ins, outputs, row.timestamp));
      assert RebuildTx(Confirmed(), id).value.outputs == outputs;
      assert RebuildTx(Confirmed(), id).value.inputs == ins;
    }

    method BuildBlock(row: DbBlock) returns (r: Option<Block>)
      ensures r == RebuildBlock(p.h, View(), row)
    {
      hide RebuildTx;
      var found: seq<Tx> := [];
      var missing := false;
      var i := 0;
      while i < |row.txs| && !missing
        invariant |found| == i <= |row.txs|
        invariant forall j :: 0 <= j < i ==> RebuildTx(Confirmed(), row.txs[j]) == Some(found[j])
        invariant missing ==> exists j :: 0 <= j < |row.txs| && RebuildTx(Confirmed(), row.txs[j]).None?
        decreases |row.txs| - i, !missing
      {
        var tx := GetTransaction(row.txs[i]);
        if tx.Some? {
          found, i := found + [tx.value], i + 1;
        } else {
          missing := true;
        }
      }
      var coinbase := GetTransaction(row.coinbase);
      if missing || coinbase.None? {
        var id := DbBlockId(p.h, row);
        return if id in candidates then Some(candidates[id]) else None;
      }
      r := Some(Block(found, coinbase.value, row.prev, row.timestamp, row.consensus, row.height, Null));
      assert RebuildBlock(p.h, View(), row).value.txs == found;
    }

    // ---- reversing ----

    /** `eraseUtxo` on the unspent outputs. */
    method EraseOutput(dbTx: Storage.Transaction, out: Output)
      requires Open(dbTx)
      modifies this, dbTx`cache, dbTx`ops
      ensures Open(dbTx) && View() == EraseOne(p.h, old(View()), out)
    {
      hide Open;
      var id := p.h.output(out);
      Write(dbTx, Utxos(Erase(id)));
      if out.key.Some? {
        Write(dbTx, UtxoKeys(Erase(out.key.value + id.hex)));
      }
    }

    method RestoreInput(dbTx: Storage.Transaction, inp: Input)
      requires Open(dbTx) && inp.outputId in stxos
      modifies this, dbTx`cache, dbTx`ops
      ensures Open(dbTx) && View() == RestoreOne(p.h, old(View()), inp)
    {
      hide Open, Changed, RestoreOne;
      RestoreWrites(p.h, View(), inp);
      var row := stxos[inp.outputId];
      Write(dbTx, Inputs(Erase(p.h.input(inp))));
      Write(dbTx, Stxos(Erase(inp.outputId)));
      if row.output.key.Some? {
        Write(dbTx, StxoKeys(Erase(row.output.key.value + inp.outputId.hex)));
      }
      Write(dbTx, Utxos(Put(inp.outputId, row)));
      if row.output.key.Some? {
        Write(dbTx, UtxoKeys(Put(row.output.key.value + inp.outputId.hex, ())));
      }
    }

    method UndoTransaction(dbTx: Storage.Transaction, tx: Tx)
      requires Open(dbTx) && Distinct(Claims(p.h, tx)) && Spent(tx) <= stxos.Keys
      modifies this, dbTx`cache, dbTx`ops
      ensures Open(dbTx) && View() == UndoTx(p.h, old(View()), tx)
    {
      hide Open, TxId, UndoTx, Claims, Spent, EraseOne, RestoreOne;
      ghost var t := View();
      UndoSteps(p.h, t, tx);
      for i := 0 to |tx.outputs|
        invariant Open(dbTx) && View() == Erases(p.h, t, tx.outputs[..i])
      {
        EraseOutput(dbTx, tx.outputs[i]);
        assert tx.outputs[..i + 1][..i] == tx.outputs[..i];
      }
      assert tx.outputs[..|tx.outputs|] == tx.outputs;
      ghost var u := View();
      for i := 0 to |tx.inputs|
        invariant Open(dbTx) && View() == Restores(p.h, u, tx.inputs[..i])
      {
        StillSpent(p.h, t, u, tx, i);
        RestoreInput(dbTx, tx.inputs[i]);
        assert tx.inputs[..i + 1][..i] == tx.inputs[..i];
      }
      assert tx.inputs[..|tx.inputs|] == tx.inputs;
      Write(dbTx, Txs(Erase(TxId(p.h, tx))));
    }

    method GetBlockDB(id: Id) returns (r: Option<DbBlock>)
      ensures r == FindBlock(p.h, View(), id)
    {
      if id in blocks { return Some(blocks[id]); }
      if id in candidates { return Some(ToDbBlock(p.h, candidates[id], candidates[id].height)); }
      return None;
    }

    method ReverseBlock(dbTx: Storage.Transaction, ghost chain: seq<Block>)
      requires Open(dbTx) && Sound(p.h) && Base(p, View(), chain) && |chain| >= 2
      modifies this, dbTx`cache, dbTx`ops
      ensures Open(dbTx) && Reverse(p.h, old(View())) == Some(View())
    {
      hide Open, Base, BlockId, UndoTx, RebuildBlock, Claims, Spent, Sound, Distinct, ToDbBlock;
      ghost var t := View();
      TipPieces(p, t, chain);
      var row := tip.value;
      var built := BuildBlock(row);
      var b := built.value;
      NotTip(dbTx, b);
      UndoTransaction(dbTx, b.coinbase);
      ghost var u := View();
      for i := 0 to |b.txs|
        invariant Open(dbTx) && View() == UndoTxs(p.h, u, b.txs[..i])
      {
        PieceReady(p, t, chain, i);
        UndoTransaction(dbTx, b.txs[i]);
        UndoTxsStep(p.h, u, b.txs, i);
      }
      assert b.txs[..|b.txs|] == b.txs;
      var id := BlockId(p.h, b);
      Write(dbTx, Heights(Erase(row.height)));
      Write(dbTx, Blocks(Erase(id)));
      var prev := GetBlockDB(b.prev);
      UndoTxsFrame(p.h, t, b);
      Write(dbTx, Tip(prev.value));
      Write(dbTx, Candidates(Put(id, b)));
    }

    // ---- consensus ----

    method HeaderAt(id: Id) returns (r: Header)
      requires id in Known(p.h, View())
      ensures r == Known(p.h, View())[id]
    {
      hide HeaderOf, ToDbBlock;
      var row := GetBlockDB(id);
      r := HeaderOf(row.value);
    }

    method CalculateTarget(prevId: Id, ghost genesis: Id) returns (target: int)
      requires Rooted(Known(p.h, View()), genesis) && prevId in Known(p.h, View())
      ensures target == Target(p.kgw, Ancestors(Known(p.h, View()), prevId))
    {
      hide Known, Rate, Quotient, Signed64, Rooted, Walk, Scale;
      ghost var m := Known(p.h, View());
      ghost var hs := Ancestors(m, prevId);
      ghost var at := prevId;
      WalkWhole(m, genesis, prevId, m[prevId].height);
      RootedHeight(m, genesis, prevId);
      var current := HeaderAt(prevId);
      var last := current;
      if current.height < MIN_BLOCKS { return MIN_DIFFICULTY; }
      if current.height % 12 != 0 { return current.target; }
      var w, i, stop := Well(0, 0, 0), 0, false;
      assert hs[0..] == hs && hs[0] == last;
      while current.height != 1 && i < MAX_BLOCKS && !stop
        invariant at in m && current == m[at] && current.height >= 1
        invariant i + current.height == |hs| && hs[i..] == Walk(m, at, current.height)
        invariant Scan(p.kgw, hs, 0, Well(0, 0, 0)) == if stop then w else Scan(p.kgw, hs, i, w)
        decreases |hs| - i, !stop
      {
        WalkWhole(m, genesis, at, current.height);
        assert hs[i] == hs[i..][0] == current;
        var scanned := i + 1;
        var average := if scanned == 1 then current.target
                       else Quotient(current.target - w.average, scanned) + w.average;
        w := Well(average, Rate(last, current), Signed64(p.kgw.blockTarget * scanned));
        if scanned >= MIN_BLOCKS && p.kgw.horizon(scanned, w.actualRate, w.targetRate) {
          stop := true;
        } else {
          at := current.prev;
          current := HeaderAt(current.prev);
          assert hs[i..][1..] == hs[i + 1..];
          i := scanned;
        }
      }
      if !stop && i < |hs| { WalkWhole(m, genesis, at, current.height); assert hs[i] == hs[i..][0]; }
      target := Scale(w);
    }

    method CheckConsensusRules(b: Block, prev: DbBlock, ghost genesis: Id) returns (r: Option<Block>)
      requires Rooted(Known(p.h, View()), genesis) && b.prev in Known(p.h, View())
      ensures r == CheckRules(p, View(), b, prev)
    {
      hide Known, Target, Ancestors, BlockId, Rooted;
      var target := CalculateTarget(b.prev, genesis);
      if target <= p.pow(BlockId(p.h, b), b.consensus.nonce) { return None; }
      var work := MAX_WORK - target + prev.consensus.work;
      return Some(b.(consensus := Consensus(target, work, b.consensus.nonce)));
    }

    // ---- submission ----

    method ExtendTip(dbTx: Storage.Transaction, b: Block, height: nat) returns (ok: bool)
      requires Open(dbTx) && Sound(p.h) && Coherent(p.h, Confirmed()) && BlockRep(p.h, b)
      modifies this, dbTx`cache, dbTx`ops
      ensures Open(dbTx) && Done(ok, View()) == Extend(p, old(View()), b, height)
    {
      hide Open, Coherent, BlockRep, Acceptable, BlockFits, Accept;
      ok := CheckBlock(b, height);
      if ok {
        AcceptableFits(p, Confirmed(), b, height);
        AcceptBlock(dbTx, b, height);
      }
    }

    /** `submitBlock` inside an open database transaction. `nested` marks a resubmission by
        `reorgChain`, which never reorganises again. */
    method Submitted(dbTx: Storage.Transaction, b: Block, ghost chain: seq<Block>, ghost nested: bool) returns (ok: bool)
      requires Open(dbTx) && Sound(p.h) && Base(p, View(), chain) && BlockRep(p.h, b)
      requires Submit(p, View(), b, if nested then 0 else 1).Done?
      modifies this, dbTx`cache, dbTx`ops
      ensures Open(dbTx) && Done(ok, View()) == Submit(p, old(View()), b, if nested then 0 else 1)
      decreases if nested then 0 else 3, 1
    {
      hide Open, Base, Known, BlockId, BlockRep, CheckRules, Place, Coherent, Rooted;
      ghost var t := View();
      BaseFacts(p, t, chain);
      if BlockId(p.h, b) in blocks { return true; }
      var prev := GetBlockDB(b.prev);
      if prev.None? { return false; }
      Found(p, t, chain, b.prev);
      var checked := CheckConsensusRules(b, prev.value, BlockId(p.h, chain[0]));
      if checked.None? { return false; }
      CheckKeepsRep(p, t, b, checked.value, prev.value);
      ok := PlaceBlock(dbTx, checked.value, prev.value, chain, nested);
    }

    /** The rest of `submitBlock`: extend the tip, file a candidate, or reorganise and extend. */
    method PlaceBlock(dbTx: Storage.Transaction, b: Block, prev: DbBlock, ghost chain: seq<Block>, ghost nested: bool)
      returns (ok: bool)
      requires Open(dbTx) && Sound(p.h) && Base(p, View(), chain) && BlockRep(p.h, b)
      requires Place(p, View(), b, prev, if nested then 0 else 1).Done?
      modifies this, dbTx`cache, dbTx`ops
      ensures Open(dbTx) && Done(ok, View()) == Place(p, old(View()), b, prev, if nested then 0 else 1)
      decreases if nested then 0 else 3, 0
    {
      hide Open, Changed, Base, Known, BlockId, DbBlockId, BlockRep, Extend, Reorg, Coherent, Rooted, Sound;
      ghost var t := View();
      BaseFacts(p, t, chain);
      if DbBlockId(p.h, prev) == DbBlockId(p.h, tip.value) {
        ok := ExtendTip(dbTx, b, tip.value.height + 1);
      } else if b.consensus.work <= tip.value.consensus.work {
        var saved := b.(height := prev.height + 1);
        Write(dbTx, Candidates(Put(BlockId(p.h, b), saved)));
        SavedAs(t, BlockId(p.h, b), saved);
        ok := true;
      } else {
        ReorgHasBranch(p, t, DbBlockId(p.h, prev));
        ghost var k, chain' := ReorgBase(p, t, chain, DbBlockId(p.h, prev));
        ok := ReorgChain(dbTx, DbBlockId(p.h, prev), chain);
        if ok {
          BaseFacts(p, View(), chain');
          ok := ExtendTip(dbTx, b, tip.value.height + 1);
        }
      }
    }

    method ReorgChain(dbTx: Storage.Transaction, newTip: Id, ghost chain: seq<Block>) returns (ok: bool)
      requires Open(dbTx) && Sound(p.h) && Base(p, View(), chain) && newTip in candidates
      modifies this, dbTx`cache, dbTx`ops
      ensures Open(dbTx) && Done(ok, View()) == Reorg(p, old(View()), newTip, 0)
      decreases 2, 0
    {
      hide Open, Base, Known, BlockId, DbBlockId, Resubmit, ReverseTo, Path;
      ghost var t := View();
      var branch := FindBranch(newTip, chain);
      BranchPath(p, t, chain, newTip, t.candidates[newTip].height);
      var fork := branch[0].prev;
      ghost var k := RewindTo(dbTx, fork, chain);
      PathKept(p.h, t, View(), branch);
      ok := ResubmitBranch(dbTx, branch, chain[..k]);
    }

    /** Walk back from a candidate to the main chain. */
    method FindBranch(newTip: Id, ghost chain: seq<Block>) returns (branch: seq<Block>)
      requires Sound(p.h) && Base(p, View(), chain) && newTip in candidates
      ensures branch == Branch(candidates, newTip, candidates[newTip].height)
    {
      hide Base, Known, BlockId;
      branch := [];
      var id := newTip;
      ghost var n := candidates[newTip].height;
      while id in candidates
        invariant Branch(candidates, newTip, candidates[newTip].height) == Branch(candidates, id, n) + branch
        invariant id in candidates ==> candidates[id].height <= n
        decreases if id in candidates then candidates[id].height + 1 else 0
      {
        ParentOfCandidate(p, View(), chain, id);
        branch := [candidates[id]] + branch;
        id, n := candidates[id].prev, n - 1;
      }
    }

    /** Reverse blocks until `fork` is the tip. */
    method RewindTo(dbTx: Storage.Transaction, fork: Id, ghost chain: seq<Block>) returns (ghost k: nat)
      requires Open(dbTx) && Sound(p.h) && Base(p, View(), chain) && fork in blocks
      modifies this, dbTx`cache, dbTx`ops
      ensures Open(dbTx)
      ensures 1 <= k <= |chain| && BlockId(p.h, chain[k - 1]) == fork
      ensures ReverseTo(p.h, old(View()), fork) == Some(View())
      ensures Base(p, View(), chain[..k]) && Known(p.h, View()) == Known(p.h, old(View())) && Keeps(old(View()), View())
    {
      hide Open, Base, Known, BlockId, Reverse, DbBlockId;
      ghost var t := View();
      k := |chain|;
      assert chain[..k] == chain;
      TipKnown(p, View(), chain);
      while DbBlockId(p.h, tip.value) != fork
        invariant Open(dbTx)
        invariant 1 <= k <= |chain| && Base(p, View(), chain[..k]) && tip.Some?
        invariant DbBlockId(p.h, tip.value) == BlockId(p.h, chain[k - 1]) && fork in blocks
        invariant Known(p.h, View()) == Known(p.h, t) && Keeps(t, View())
        invariant ReverseTo(p.h, t, fork) == ReverseTo(p.h, View(), fork)
        decreases k
      {
        NotGenesis(p, View(), chain[..k], fork);
        ReversedKeeps(p, View(), chain[..k], fork);
        ReverseBlock(dbTx, chain[..k]);
        assert chain[..k][..k - 1] == chain[..k - 1];
        k := k - 1;
        TipKnown(p, View(), chain[..k]);
      }
    }

    method ResubmitBranch(dbTx: Storage.Transaction, branch: seq<Block>, ghost chain: seq<Block>) returns (ok: bool)
      requires Open(dbTx) && Sound(p.h) && Base(p, View(), chain) && Path(p.h, candidates, branch)
      requires branch != [] ==> branch[0].prev == BlockId(p.h, chain[|chain| - 1])
      modifies this, dbTx`cache, dbTx`ops
      ensures Open(dbTx) && Done(ok, View()) == Resubmit(p, old(View()), branch, 0)
      decreases 1, 0
    {
      hide Open, Base, BlockId, Known, Submit, Path, BlockRep;
      ghost var t := View();
      BaseFacts(p, t, chain);
      var i := 0;
      ghost var c := chain;
      while i < |branch|
        invariant Open(dbTx) && 0 <= i <= |branch| && c != [] && Base(p, View(), c) && Path(p.h, candidates, branch[i..])
        invariant i < |branch| ==> branch[i].prev == BlockId(p.h, c[|c| - 1])
        invariant Resubmit(p, t, branch, 0) == Resubmit(p, View(), branch[i..], 0)
      {
        ghost var rest := branch[i..];
        PathHead(p.h, candidates, rest);
        PathTail(p.h, candidates, rest);
        ParentOfCandidate(p, View(), c, BlockId(p.h, rest[0]));
        ResubmitOne(p, View(), c, rest[0]);
        ok := Submitted(dbTx, branch[i], c, true);
        if !ok { return false; }
        c := c + [branch[i]];
        assert rest[1..] == branch[i + 1..];
        i := i + 1;
      }
      ok := true;
    }

    // ---- the public interface ----

    /** `loadChain` submitting the genesis block to an empty database. */
    method LoadGenesis(g: Block) returns (ok: bool)
      requires Stored() && Sound(p.h) && View() == EmptyState && BlockRep(p.h, g) && Plain(p, g)
      modifies this, store
      ensures Stored() && ok == Genesis(p, g).ok
      ensures ok ==> Ready() && View() == Genesis(p, g).state && chain == [g.(height := 1)]
      ensures !ok ==> View() == EmptyState && store.rows == old(store.rows)
    {
      hide Inv, Extend, Accept, Holds, NoTipId, Storage.Overlay, Storage.ApplyOps, Storage.Clean;
      assert Coherent(p.h, Empty);
      var dbTx := new Storage.Transaction(store);
      ok := ExtendTip(dbTx, g, 1);
      if ok {
        GenesisInv(p, g);
        chain := [g.(height := 1)];
        var _ := dbTx.Commit();
      } else {
        ExtendRejects(p, EmptyState, g, 1);
        dbTx.Abort();
      }
    }

    /** `submitBlock`: the database transaction is committed on success and dropped on failure. */
    method SubmitBlock(b: Block) returns (ok: bool)
      requires Ready() && Stored() && BlockRep(p.h, b) && Plain(p, b)
      modifies this, store
      ensures Stored() && (!ok ==> store.rows == old(store.rows))
      ensures Submit(p, old(View()), b, 1).Done? && ok == Submit(p, old(View()), b, 1).ok
      ensures View() == Commit(old(View()), Submit(p, old(View()), b, 1))
      ensures Ready() && MainOf(View()) == MainOf(Replay(p.h, chain))
      ensures ok ==> Advanced(p, old(View()), View(), chain)
      ensures !ok ==> chain == old(chain)
    {
      hide Inv, BlockRep, Submit, Replay, Advanced, Sound, Plain, Holds, NoTipId, Reads;
      hide Storage.Overlay, Storage.ApplyOps, Storage.Clean;
      ghost var saved := View();
      ghost var before := chain;
      ghost var after := SubmitInv(p, saved, chain, b);
      BaseOf(p, saved, chain);
      var dbTx := new Storage.Transaction(store);
      ok := Submitted(dbTx, b, chain, false);
      if ok {
        AdvancedInv(p, saved, View(), after);
        chain := after;
        var _ := dbTx.Commit();
      } else {
        dbTx.Abort();
        Reload(saved);
        chain := before;
      }
      InvReplay(p, View(), chain);
    }

    /** Take the tables from the store's rows again, after a transaction that was dropped. */
    method Reload(ghost held: State)
      requires Reads(codec, read) && Holds(codec, store.rows, held)
      modifies this
      ensures View() == held && chain == old(chain)
    {
      hide Holds;
      var t := read(store.rows);
      tip, blocks, heights, candidates := t.tip, t.blocks, t.heights, t.candidates;
      txs, utxos, stxos, inputs := t.core.txs, t.core.utxos, t.core.stxos, t.core.inputs;
      utxoKeys, stxoKeys := t.keys.utxo, t.keys.stxo;
    }
  }

  lemma SavedAs(t: State, id: Id, b: Block)
    ensures Changed(t, Candidates(Put(id, b))) == t.(candidates := t.candidates[id := b])
  {
  }

  lemma BaseOf(p: Params, t: State, chain: seq<Block>)
    requires Inv(p, t, chain)
    ensures Base(p, t, chain)
  {
  }

  lemma AdvancedInv(p: Params, t: State, u: State, chain: seq<Block>)
    requires Advanced(p, t, u, chain)
    ensures Inv(p, u, chain)
  {
  }

  lemma StillUnspent(h: Hashes, t: State, tx: Tx, i: nat)
    requires i < |tx.inputs| && Distinct(Claims(h, tx)) && Spent(tx) <= t.core.utxos.Keys
    ensures tx.inputs[i].outputId in Spends(h, t, tx.inputs[..i]).core.utxos
  {
    hide Spends, KeyStrings;
    var ids := SpentIds(tx.inputs);
    DistinctParts(ids, OutputIds(h, tx.outputs));
    assert SpentIds(tx.inputs[..i]) == ids[..i];
    SpendsClosed(h, t, tx.inputs[..i]);
    assert ids[i] == tx.inputs[i].outputId;
    assert ids[i] in Spent(tx) && ids[i] !in ids[..i];
  }

  lemma StillSpent(h: Hashes, t: State, u: State, tx: Tx, i: nat)
    requires i < |tx.inputs| && Distinct(Claims(h, tx)) && Spent(tx) <= t.core.stxos.Keys
    requires u == Erases(h, t, tx.outputs)
    ensures tx.inputs[i].outputId in Restores(h, u, tx.inputs[..i]).core.stxos
  {
    hide Restores, Erases, KeyStrings;
    var ids := SpentIds(tx.inputs);
    DistinctParts(ids, OutputIds(h, tx.outputs));
    MakesClosed(h, t, tx.outputs, TxId(h, tx));
    assert SpentIds(tx.inputs[..i]) == ids[..i];
    RestoresClosed(h, u, tx.inputs[..i]);
    assert ids[i] == tx.inputs[i].outputId;
    assert ids[i] in Spent(tx) && ids[i] !in ids[..i];
  }

  lemma CoinbaseReady(h: Hashes, t: State, b: Block)
    requires BlockFits(h, t.core, b)
    ensures Distinct(Claims(h, b.coinbase)) && Spent(b.coinbase) <= t.core.utxos.Keys
  {
  }

  lemma TxReady(h: Hashes, t: State, b: Block, i: nat)
    requires Sound(h) && Coherent(h, t.core) && BlockFits(h, t.core, b) && i < |b.txs|
    ensures Distinct(Claims(h, b.txs[i]))
    ensures var id := BlockId(h, b);
            Spent(b.txs[i]) <= ConfirmTxs(h, ConfirmTx(h, t, b.coinbase, id, true), b.txs[..i], id).core.utxos.Keys
  {
    var id := BlockId(h, b);
    var u := ConfirmTx(h, t, b.coinbase, id, true);
    assert Distinct(Claims(h, b.txs[i])) by { assert TxRep(h, b.txs[i], false); }
    hide Coherent, BlockFits, AllFit, AllApart, Confirm, ConfirmTxs, BlockId, CoreTxs, Fits, Sound, ApartFrom, Claims, Distinct;
    StillFit(h, t.core, b);
    ConfirmTxsCore(h, u, b.txs[..i], id);
    NextFits(h, u.core, b.txs, id, i);
    FitsSpends(h, CoreTxs(h, u.core, b.txs[..i], id), b.txs[i]);
  }

  lemma ConfirmTxsStep(h: Hashes, t: State, txs: seq<Tx>, i: nat, block: Id)
    requires i < |txs|
    ensures ConfirmTxs(h, t, txs[..i + 1], block)
         == ConfirmTx(h, ConfirmTxs(h, t, txs[..i], block), txs[i], block, false)
  {
    hide ConfirmTx;
    assert txs[..i + 1][..i] == txs[..i];
  }

  lemma UndoTxsStep(h: Hashes, t: State, txs: seq<Tx>, i: nat)
    requires i < |txs|
    ensures UndoTxs(h, t, txs[..i + 1]) == UndoTx(h, UndoTxs(h, t, txs[..i]), txs[i])
  {
    hide UndoTx;
    assert txs[..i + 1][..i] == txs[..i];
  }

  /** What `reverseBlock` finds on a reachable database. */
  lemma TipPieces(p: Params, t: State, chain: seq<Block>)
    requires Sound(p.h) && Base(p, t, chain) && |chain| >= 2
    ensures t.tip.Some?
    ensures var b := chain[|chain| - 1];
            && RebuildBlock(p.h, t, t.tip.value) == Some(b)
            && Distinct(Claims(p.h, b.coinbase)) && Spent(b.coinbase) <= t.core.stxos.Keys
            && (forall i :: 0 <= i < |b.txs| ==> Spent(b.txs[i]) <= t.core.stxos.Keys)
            && b.prev in t.blocks && b.prev != BlockId(p.h, b)
  {
    hide Base, Accept, Coherent, BlockId, CoreBlock, Claims, RebuildBlock;
    var n := |chain| - 1;
    var b := chain[n];
    var s := BeforeTip(p, t, chain);
    TipTwice(p, t, chain);
    AcceptTables(p.h, s, b, n + 1);
    assert MainOf(Bare(t)) == MainOf(t) && t.candidates == Bare(t).candidates;
    CoreBlockRecords(p.h, s.core, b);
    RebuildAccepted(p.h, t, b, n + 1);
    forall i | 0 <= i < |b.txs| ensures Spent(b.txs[i]) <= t.core.stxos.Keys {
      RecordedSpent(p.h, t.core, b.txs[i], BlockId(p.h, b), false);
    }
    RecordedSpent(p.h, t.core, b.coinbase, BlockId(p.h, b), true);
  }

  lemma TipTwice(p: Params, t: State, chain: seq<Block>)
    requires Sound(p.h) && Base(p, t, chain) && |chain| >= 2
    ensures var b := chain[|chain| - 1];
            && b.height == |chain| && b.data.Null?
            && t.tip == Some(ToDbBlock(p.h, b, |chain|))
            && BlockRep(p.h, b) && b.prev in t.blocks && b.prev != BlockId(p.h, b)
  {
    hide Replay, Coherent, BlockId, ToDbBlock, Known, BlockRep, Acceptable;
    BaseTables(p, t, chain);
    assert At(p.h, MainOf(t), chain, |chain| - 1);
    assert At(p.h, MainOf(t), chain, |chain| - 2);
    if BlockId(p.h, chain[|chain| - 1]) == BlockId(p.h, chain[|chain| - 2]) {
      assert ToDbBlock(p.h, chain[|chain| - 1], |chain|).height == ToDbBlock(p.h, chain[|chain| - 2], |chain| - 1).height;
      SameRowSameHeight(p.h, chain[|chain| - 1], |chain|, chain[|chain| - 2], |chain| - 1);
    }
  }

  lemma SameRowSameHeight(h: Hashes, a: Block, i: nat, b: Block, j: nat)
    requires ToDbBlock(h, a, i) == ToDbBlock(h, b, j)
    ensures i == j
  {
  }

  lemma PieceReady(p: Params, t: State, chain: seq<Block>, i: nat)
    requires Sound(p.h) && Base(p, t, chain) && |chain| >= 2 && i < |chain[|chain| - 1].txs|
    ensures var b := chain[|chain| - 1];
            && Distinct(Claims(p.h, b.txs[i]))
            && Spent(b.txs[i]) <= UndoTxs(p.h, UndoTx(p.h, t, b.coinbase), b.txs[..i]).core.stxos.Keys
  {
    hide Base, Accept, Coherent, BlockId, CoreTxs, Confirm, Undo, UndoKeys, UndoTxs, CoreUndos, Claims, Fits;
    var n := |chain| - 1;
    var b := chain[n];
    var id := BlockId(p.h, b);
    var s := BeforeTip(p, t, chain);
    AcceptTables(p.h, s, b, n + 1);
    assert MainOf(Bare(t)) == MainOf(t);
    StillFit(p.h, s.core, b);
    var d := Confirm(p.h, s.core, b.coinbase, id, true);
    UndoUnder(p.h, d, b.coinbase, b.txs, id);
    UndoConfirm(p.h, s.core, b.coinbase, id, true);
    var u := UndoTx(p.h, t, b.coinbase);
    UndoTxsCore(p.h, u, b.txs[..i]);
    UndoAll(p.h, s.core, b.txs, i, id);
    var rest := b.txs[i..];
    CoreTxsFront(p.h, s.core, rest, id);
    ConfirmedOnTop(p.h, s.core, rest[0], id, false);
    OnTopUnder(p.h, Confirm(p.h, s.core, rest[0], id, false), rest[0], rest[1..], id);
    assert TxRep(p.h, b.txs[i], false);
  }

  lemma UndoTxsFrame(h: Hashes, t: State, b: Block)
    ensures var u := UndoTxs(h, UndoTx(h, t, b.coinbase), b.txs);
            && u.blocks == t.blocks && u.heights == t.heights && u.candidates == t.candidates && u.tip == t.tip
  {
    UndoTxsCore(h, UndoTx(h, t, b.coinbase), b.txs);
  }

  lemma RootedHeight(m: Headers, genesis: Id, id: Id)
    requires Rooted(m, genesis) && id in m
    ensures m[id].height >= 1
  {
  }

  lemma BaseFacts(p: Params, t: State, chain: seq<Block>)
    requires Sound(p.h) && Base(p, t, chain)
    ensures chain != [] && t.tip.Some? && Coherent(p.h, t.core)
    ensures Rooted(Known(p.h, t), BlockId(p.h, chain[0]))
  {
    BaseTables(p, t, chain);
  }

  lemma CheckKeepsRep(p: Params, t: State, b: Block, c: Block, prev: DbBlock)
    requires BlockRep(p.h, b) && CheckRules(p, t, b, prev) == Some(c)
    ensures BlockRep(p.h, c)
  {
    hide TxRep, Target;
  }

  lemma ReorgHasBranch(p: Params, t: State, newTip: Id)
    requires Reorg(p, t, newTip, 0).Done?
    ensures newTip in t.candidates
  {
  }

  lemma ExtendRejects(p: Params, t: State, b: Block, height: nat)
    ensures Extend(p, t, b, height).Done? && (!Extend(p, t, b, height).ok ==> Extend(p, t, b, height).state == t)
  {
  }
}
