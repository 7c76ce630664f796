/** The tables as a replay of the main chain, and the steps that keep them so. */
module Chain {
  import opened Types
  import opened Ledger
  import opened Blocks
  import opened Reversal
  import opened Index
  import opened Kimoto
  import opened Tree
  import opened Submission

  /** The database after confirming `chain` block by block on an empty one. */
  function Replay(h: Hashes, chain: seq<Block>): State {
    if chain == [] then EmptyState else
      Accept(h, Replay(h, chain[..|chain| - 1]), chain[|chain| - 1], |chain|)
  }

  function BlockIds(h: Hashes, chain: seq<Block>): (r: seq<Id>)
    ensures |r| == |chain|
  {
    seq(|chain|, i requires 0 <= i < |chain| => BlockId(h, chain[i]))
  }

  // ---- verification implies the existence checks ----

  lemma VerifyFits(p: Params, c: Core, tx: Tx, coinbase: bool)
    requires Verify(p, c, tx, coinbase) && TxRep(p.h, tx, coinbase)
    ensures Fits(p.h, c, tx)
  {
    hide TxId, Endorsed;
    DistinctParts(SpentIds(tx.inputs), OutputIds(p.h, tx.outputs));
    assert forall i :: 0 <= i < |tx.inputs| ==> SpentIds(tx.inputs)[i] == tx.inputs[i].outputId;
    assert forall i :: 0 <= i < |tx.outputs| ==> OutputIds(p.h, tx.outputs)[i] == p.h.output(tx.outputs[i]);
  }

  lemma AcceptableFits(p: Params, c: Core, b: Block, height: nat)
    requires Acceptable(p, c, b, height) && BlockRep(p.h, b)
    ensures BlockFits(p.h, c, b)
  {
    hide Verify, TxRep;
    VerifyFits(p, c, b.coinbase, true);
    forall i | 0 <= i < |b.txs| ensures Fits(p.h, c, b.txs[i]) {
      VerifyFits(p, c, b.txs[i], false);
    }
  }

  /** A block the claims below cover: no data field, and keys of the fixed length if there is one. */
  predicate Plain(p: Params, b: Block) {
    b.data.Null? && (p.keyLength.Some? ==> PlainBlock(p.keyLength.value, b))
  }

  ghost predicate Indexed(p: Params, t: State) {
    p.keyLength.Some? ==> Exact(p.keyLength.value, t)
  }

  /** A main chain: heights count up from one, each block names the one before it, ids are new,
      and each block passes every check against the replay of those before it. */
  ghost predicate Valid(p: Params, chain: seq<Block>) {
    chain != [] ==>
      var n := |chain| - 1;
      && Valid(p, chain[..n])
      && chain[n].height == n + 1
      && Plain(p, chain[n])
      && (n > 0 ==> chain[n].prev == BlockId(p.h, chain[n - 1]))
      && BlockId(p.h, chain[n]) !in Replay(p.h, chain[..n]).blocks
      && BlockRep(p.h, chain[n])
      && Acceptable(p, Replay(p.h, chain[..n]).core, chain[n], n + 1)
  }

  lemma AcceptCore(h: Hashes, t: State, b: Block, height: nat)
    ensures Accept(h, t, b, height).core == CoreBlock(h, t.core, b)
  {
    AcceptBare(h, t, b, height);
    assert Bare(Accept(h, t, b, height)).core == CoreBlock(h, t.core, b);
  }

  lemma {:induction false} ReplayCoherent(p: Params, chain: seq<Block>)
    requires Sound(p.h) && Valid(p, chain)
    ensures Coherent(p.h, Replay(p.h, chain).core)
  {
    if chain != [] {
      hide Accept, Coherent, CoreBlock, BlockRep, Acceptable;
      var n := |chain| - 1;
      ReplayCoherent(p, chain[..n]);
      AcceptableFits(p, Replay(p.h, chain[..n]).core, chain[n], n + 1);
      CoreBlockRecords(p.h, Replay(p.h, chain[..n]).core, chain[n]);
      AcceptCore(p.h, Replay(p.h, chain[..n]), chain[n], n + 1);
    }
  }

  /** The part of the database that is a function of the main chain. */
  datatype Main = Main(tip: Option<DbBlock>, blocks: map<Id, DbBlock>, heights: map<nat, Id>, core: Core)

  function MainOf(t: State): Main {
    Main(t.tip, t.blocks, t.heights, t.core)
  }

  lemma AcceptTables(h: Hashes, t: State, b: Block, height: nat)
    ensures var id, row := BlockId(h, b), ToDbBlock(h, b, height);
            MainOf(Accept(h, t, b, height))
              == Main(Some(row), t.blocks[id := row], t.heights[height := id], CoreBlock(h, t.core, b))
    ensures Accept(h, t, b, height).candidates == t.candidates - {BlockId(h, b)}
  {
    hide Accept, CoreBlock, BlockId;
    AcceptBare(h, t, b, height);
    var a := Bare(Accept(h, t, b, height));
    assert MainOf(a) == MainOf(Accept(h, t, b, height));
  }

  function Heights(n: nat): (r: set<nat>)
    ensures forall i :: i in r <==> 1 <= i <= n
  {
    if n == 0 then {} else Heights(n - 1) + {n}
  }

  /** Block `i` of the chain is stored under its own id, indexed under its height, and names the
      block before it. */
  ghost predicate At(h: Hashes, t: Main, chain: seq<Block>, i: nat)
    requires i < |chain|
  {
    var id := BlockId(h, chain[i]);
    && id in t.blocks && t.blocks[id] == ToDbBlock(h, chain[i], i + 1)
    && i + 1 in t.heights && t.heights[i + 1] == id
    && (i > 0 ==> chain[i].prev == BlockId(h, chain[i - 1]))
  }

  /** The chain tables hold the main chain and nothing else. */
  ghost predicate Tables(h: Hashes, t: Main, chain: seq<Block>) {
    && t.blocks.Keys == ToSet(BlockIds(h, chain))
    && t.heights.Keys == Heights(|chain|)
    && (forall i {:trigger At(h, t, chain, i)} :: 0 <= i < |chain| ==> At(h, t, chain, i))
    && t.tip == (if chain == [] then None else Some(ToDbBlock(h, chain[|chain| - 1], |chain|)))
  }

  lemma TablesGrow(h: Hashes, t: Main, u: Main, chain: seq<Block>, b: Block)
    requires Tables(h, t, chain) && BlockId(h, b) !in t.blocks
    requires chain != [] ==> b.prev == BlockId(h, chain[|chain| - 1])
    requires u.blocks == t.blocks[BlockId(h, b) := ToDbBlock(h, b, |chain| + 1)]
    requires u.heights == t.heights[|chain| + 1 := BlockId(h, b)]
    requires u.tip == Some(ToDbBlock(h, b, |chain| + 1))
    ensures Tables(h, u, chain + [b])
  {
    hide BlockId, ToDbBlock;
    var c := chain + [b];
    assert BlockIds(h, c) == BlockIds(h, chain) + [BlockId(h, b)];
    forall i | 0 <= i < |c| ensures At(h, u, c, i) {
      if i < |chain| { assert At(h, t, chain, i); }
    }
  }

  lemma TablesEmpty(h: Hashes)
    ensures Tables(h, MainOf(EmptyState), [])
  {
    assert BlockIds(h, []) == [];
  }

  lemma TablesStep(h: Hashes, t: State, chain: seq<Block>, b: Block)
    requires Tables(h, MainOf(t), chain) && BlockId(h, b) !in t.blocks
    requires chain != [] ==> b.prev == BlockId(h, chain[|chain| - 1])
    ensures Tables(h, MainOf(Accept(h, t, b, |chain| + 1)), chain + [b])
  {
    hide Accept, Tables, CoreBlock, BlockId, ToDbBlock;
    AcceptTables(h, t, b, |chain| + 1);
    TablesGrow(h, MainOf(t), MainOf(Accept(h, t, b, |chain| + 1)), chain, b);
  }

  lemma {:induction false} ReplayTables(p: Params, chain: seq<Block>)
    requires Valid(p, chain)
    ensures Tables(p.h, MainOf(Replay(p.h, chain)), chain)
  {
    hide Accept, Tables, BlockId, BlockRep, Acceptable;
    if chain == [] {
      TablesEmpty(p.h);
    } else {
      var n := |chain| - 1;
      ReplayTables(p, chain[..n]);
      TablesStep(p.h, Replay(p.h, chain[..n]), chain[..n], chain[n]);
      assert chain[..n] + [chain[n]] == chain;
    }
  }

  /** Side-chain blocks are well formed, sit under their own ids and are not on the main chain. */
  ghost predicate Side(p: Params, t: State) {
    && t.candidates.Keys !! t.blocks.Keys
    && (forall id :: id in t.candidates ==>
          BlockId(p.h, t.candidates[id]) == id && Plain(p, t.candidates[id]) && BlockRep(p.h, t.candidates[id]))
  }

  /** The proof-of-work hash of the block stored under `id` is below the target it carries. */
  ghost predicate Worked(p: Params, id: Id, c: Consensus) {
    p.pow(id, c.nonce) < c.target
  }

  /** Every stored block but genesis, on the main chain or beside it, meets its own target. */
  ghost predicate Proven(p: Params, t: State, genesis: Id) {
    && (forall id :: id in t.blocks && id != genesis ==> Worked(p, id, t.blocks[id].consensus))
    && (forall id :: id in t.candidates && id != genesis ==> Worked(p, id, t.candidates[id].consensus))
  }

  /** The invariant of every reachable database, before fork choice: `chain` is the main chain, the
      tables are its replay, all known blocks form one correctly mined tree, and each of them but
      genesis meets its target. */
  ghost predicate Base(p: Params, t: State, chain: seq<Block>) {
    && chain != []
    && Valid(p, chain)
    && MainOf(t) == MainOf(Replay(p.h, chain))
    && Side(p, t)
    && Rooted(Known(p.h, t), BlockId(p.h, chain[0]))
    && Mined(p.kgw, Known(p.h, t), BlockId(p.h, chain[0]))
    && Proven(p, t, BlockId(p.h, chain[0]))
    && Indexed(p, t)
  }

  lemma BaseTables(p: Params, t: State, chain: seq<Block>)
    requires Sound(p.h) && Base(p, t, chain)
    ensures Tables(p.h, MainOf(t), chain) && Coherent(p.h, t.core)
  {
    hide Tables, Coherent, Valid;
    ReplayTables(p, chain);
    ReplayCoherent(p, chain);
  }

  // ---- extension ----

  lemma AcceptMain(h: Hashes, t: State, s: State, b: Block, height: nat)
    requires MainOf(t) == MainOf(s)
    ensures MainOf(Accept(h, t, b, height)) == MainOf(Accept(h, s, b, height))
  {
    hide Accept, CoreBlock, BlockId, ToDbBlock;
    AcceptTables(h, t, b, height);
    AcceptTables(h, s, b, height);
  }

  /** Two databases that find the same rows, but for one id, know the same headers but for that one. */
  lemma KnownButOne(h: Hashes, t: State, u: State, id: Id, row: DbBlock)
    requires FindBlock(h, u, id) == Some(row)
    requires forall x :: x != id ==> FindBlock(h, u, x) == FindBlock(h, t, x)
    ensures Known(h, u) == Known(h, t)[id := HeaderOf(row)]
  {
    hide HeaderOf, FindBlock, Known;
    KnownIsFound(h, t);
    KnownIsFound(h, u);
    var m, m' := Known(h, t), Known(h, u);
    assert m'.Keys == m.Keys + {id};
  }

  lemma KnownIsFound(h: Hashes, t: State)
    ensures forall x :: x in Known(h, t) <==> FindBlock(h, t, x).Some?
    ensures forall x :: x in Known(h, t) ==> Known(h, t)[x] == HeaderOf(FindBlock(h, t, x).value)
  {
    hide HeaderOf, ToDbBlock;
  }

  lemma KnownPut(h: Hashes, t: State, u: State, id: Id, row: DbBlock)
    requires u.blocks == t.blocks[id := row] && u.candidates == t.candidates - {id}
    ensures Known(h, u) == Known(h, t)[id := HeaderOf(row)]
  {
    hide HeaderOf, ToDbBlock, Known;
    KnownButOne(h, t, u, id, row);
  }

  lemma KnownSave(h: Hashes, t: State, u: State, b: Block)
    requires BlockId(h, b) !in t.blocks
    requires u.blocks == t.blocks && u.candidates == t.candidates[BlockId(h, b) := b]
    ensures Known(h, u) == Known(h, t)[BlockId(h, b) := HeaderOf(ToDbBlock(h, b, b.height))]
  {
    hide HeaderOf, ToDbBlock, BlockId, Known;
    KnownButOne(h, t, u, BlockId(h, b), ToDbBlock(h, b, b.height));
  }

  /** A mined header for `b` on the known tree. */
  ghost predicate Fresh(p: Params, m: Headers, b: Block) {
    && b.prev in m
    && b.height == m[b.prev].height + 1
    && b.consensus.target == Target(p.kgw, Ancestors(m, b.prev))
    && b.consensus.work == Work(m, b.prev, b.consensus.target)
    && Worked(p, BlockId(p.h, b), b.consensus)
  }

  /** A block seen before comes back with the header it had. */
  lemma SameHeader(p: Params, t: State, genesis: Id, b: Block)
    requires Sound(p.h) && Side(p, t)
    requires Rooted(Known(p.h, t), genesis) && Mined(p.kgw, Known(p.h, t), genesis)
    requires genesis in t.blocks && BlockId(p.h, b) in t.candidates && Fresh(p, Known(p.h, t), b)
    ensures Known(p.h, t)[BlockId(p.h, b)] == HeaderOf(ToDbBlock(p.h, b, b.height))
  {
    var id := BlockId(p.h, b);
    var c := t.candidates[id];
    assert id != genesis;
    assert Known(p.h, t)[id] == HeaderOf(ToDbBlock(p.h, c, c.height));
    assert BlockId(p.h, c) == BlockId(p.h, b);
    assert c.prev == b.prev && c.timestamp == b.timestamp;
  }

  lemma TreeGrows(p: Params, t: State, genesis: Id, b: Block)
    requires Sound(p.h) && Side(p, t) && BlockId(p.h, b) !in t.blocks
    requires Rooted(Known(p.h, t), genesis) && Mined(p.kgw, Known(p.h, t), genesis)
    requires genesis in t.blocks && Fresh(p, Known(p.h, t), b)
    ensures var m' := Known(p.h, t)[BlockId(p.h, b) := HeaderOf(ToDbBlock(p.h, b, b.height))];
            Rooted(m', genesis) && Mined(p.kgw, m', genesis) && Extends(Known(p.h, t), m')
  {
    hide BlockId, HeaderOf, ToDbBlock, Mined, Rooted, Side, Sound, Fresh, Known;
    var m := Known(p.h, t);
    var id := BlockId(p.h, b);
    var hd := HeaderOf(ToDbBlock(p.h, b, b.height));
    if id in t.candidates {
      SameHeader(p, t, genesis, b);
      assert id in m by { CandidateKnown(p.h, t, id); }
      assert m[id := hd] == m;
    } else {
      assert id !in m by { StrangerUnknown(p.h, t, id); }
      FreshGrows(p, m, genesis, b);
    }
  }

  lemma CandidateKnown(h: Hashes, t: State, id: Id)
    requires id in t.candidates
    ensures id in Known(h, t)
  {
  }

  lemma StrangerUnknown(h: Hashes, t: State, id: Id)
    requires id !in t.candidates && id !in t.blocks
    ensures id !in Known(h, t)
  {
  }

  lemma FreshGrows(p: Params, m: Headers, genesis: Id, b: Block)
    requires Rooted(m, genesis) && Mined(p.kgw, m, genesis) && BlockId(p.h, b) !in m && Fresh(p, m, b)
    ensures var m' := m[BlockId(p.h, b) := HeaderOf(ToDbBlock(p.h, b, b.height))];
            Rooted(m', genesis) && Mined(p.kgw, m', genesis) && Extends(m, m')
  {
    hide BlockId, Mined;
    Grow(p.kgw, m, genesis, BlockId(p.h, b), HeaderOf(ToDbBlock(p.h, b, b.height)));
  }

  lemma ChainGrows(p: Params, chain: seq<Block>, b: Block)
    requires Valid(p, chain) && chain != [] && BlockRep(p.h, b) && Plain(p, b)
    requires b.prev == BlockId(p.h, chain[|chain| - 1]) && b.height == |chain| + 1
    requires BlockId(p.h, b) !in Replay(p.h, chain).blocks && Acceptable(p, Replay(p.h, chain).core, b, b.height)
    ensures Valid(p, chain + [b])
    ensures Replay(p.h, chain + [b]) == Accept(p.h, Replay(p.h, chain), b, |chain| + 1)
  {
    hide Acceptable, BlockRep, BlockId, Accept;
    assert (chain + [b])[..|chain|] == chain;
  }

  /** Confirming a checked block on the tip keeps the invariant. */
  lemma ExtendBase(p: Params, t: State, chain: seq<Block>, b: Block)
    requires Sound(p.h) && Base(p, t, chain)
    requires BlockRep(p.h, b) && BlockId(p.h, b) !in t.blocks && Plain(p, b)
    requires Acceptable(p, t.core, b, b.height)
    requires b.prev == BlockId(p.h, chain[|chain| - 1]) && Fresh(p, Known(p.h, t), b)
    ensures var u := Accept(p.h, t, b, b.height);
            && b.height == |chain| + 1
            && Base(p, u, chain + [b])
            && Known(p.h, u) == Known(p.h, t)[BlockId(p.h, b) := HeaderOf(ToDbBlock(p.h, b, b.height))]
  {
    hide Accept, CoreBlock, Replay, Valid, Known, Mined, Rooted, Side, BlockRep, Acceptable, Tables, Coherent;
    hide BlockId, HeaderOf, ToDbBlock, Plain, Indexed, BlockFits, Proven, Worked;
    BaseTables(p, t, chain);
    TipKnown(p, t, chain);
    var u := Accept(p.h, t, b, b.height);
    ChainGrows(p, chain, b);
    AcceptMain(p.h, t, Replay(p.h, chain), b, b.height);
    AcceptTables(p.h, t, b, b.height);
    KnownPut(p.h, t, u, BlockId(p.h, b), ToDbBlock(p.h, b, b.height));
    TreeGrows(p, t, BlockId(p.h, chain[0]), b);
    assert (chain + [b])[0] == chain[0];
    SideShrinks(p, t, u, BlockId(p.h, b), ToDbBlock(p.h, b, b.height));
    ProvenPut(p, t, u, BlockId(p.h, chain[0]), b);
    AcceptableFits(p, t.core, b, b.height);
    AcceptIndexed(p, t, b, b.height);
  }

  lemma AcceptIndexed(p: Params, t: State, b: Block, height: nat)
    requires Sound(p.h) && Coherent(p.h, t.core) && BlockFits(p.h, t.core, b) && Plain(p, b) && Indexed(p, t)
    ensures Indexed(p, Accept(p.h, t, b, height))
  {
    hide Coherent, BlockFits, Exact, Accept, PlainBlock;
    if p.keyLength.Some? {
      AcceptExact(p.h, p.keyLength.value, t, b, height);
    }
  }

  lemma SideShrinks(p: Params, t: State, u: State, id: Id, row: DbBlock)
    requires Side(p, t) && u.blocks == t.blocks[id := row] && u.candidates == t.candidates - {id}
    ensures Side(p, u)
  {
    hide Plain, BlockRep, BlockId;
  }

  lemma ProvenPut(p: Params, t: State, u: State, genesis: Id, b: Block)
    requires Proven(p, t, genesis) && Worked(p, BlockId(p.h, b), b.consensus)
    requires u.blocks == t.blocks[BlockId(p.h, b) := ToDbBlock(p.h, b, b.height)]
    requires u.candidates == t.candidates - {BlockId(p.h, b)}
    ensures Proven(p, u, genesis)
  {
    hide BlockId, Worked;
    assert ToDbBlock(p.h, b, b.height).consensus == b.consensus;
  }

  lemma ProvenSave(p: Params, t: State, u: State, genesis: Id, b: Block)
    requires Proven(p, t, genesis) && Worked(p, BlockId(p.h, b), b.consensus)
    requires u.blocks == t.blocks && u.candidates == t.candidates[BlockId(p.h, b) := b]
    ensures Proven(p, u, genesis)
  {
    hide BlockId, Worked;
  }

  lemma ProvenMove(p: Params, t: State, u: State, genesis: Id, b: Block)
    requires Proven(p, t, genesis)
    requires BlockId(p.h, b) in t.blocks && t.blocks[BlockId(p.h, b)] == ToDbBlock(p.h, b, b.height)
    requires u.blocks == t.blocks - {BlockId(p.h, b)} && u.candidates == t.candidates[BlockId(p.h, b) := b]
    ensures Proven(p, u, genesis)
  {
    hide BlockId, Worked;
    assert ToDbBlock(p.h, b, b.height).consensus == b.consensus;
  }

  lemma TipKnown(p: Params, t: State, chain: seq<Block>)
    requires Sound(p.h) && Base(p, t, chain)
    ensures chain != []
    ensures var id := BlockId(p.h, chain[|chain| - 1]);
            && t.tip.Some? && DbBlockId(p.h, t.tip.value) == id
            && id in t.blocks && t.blocks[id] == t.tip.value && id in Known(p.h, t) && BlockId(p.h, chain[0]) in t.blocks
            && Known(p.h, t)[id] == HeaderOf(t.tip.value)
            && Known(p.h, t)[id].height == |chain|
  {
    BaseTables(p, t, chain);
    assert At(p.h, MainOf(t), chain, |chain| - 1);
    assert At(p.h, MainOf(t), chain, 0);
  }

  // ---- reversal ----

  lemma TakeOffIgnoresKeys(h: Hashes, t: State, s: State, b: Block, height: nat)
    requires Bare(t) == Bare(s)
    ensures var x, y := TakeOff(h, t, b, height), TakeOff(h, s, b, height);
            (x.Some? <==> y.Some?) && (x.Some? ==> Bare(x.value) == Bare(y.value))
  {
    hide Undo, CoreUndos, UndoKeys, BlockId, Spent;
    assert t.core == Bare(t).core && s.core == Bare(s).core;
    assert t.(keys := s.keys) == s;
    UndoTxsCore(h, UndoTx(h, t, b.coinbase), b.txs);
    UndoTxsCore(h, UndoTx(h, s, b.coinbase), b.txs);
  }

  lemma ReverseIgnoresKeys(h: Hashes, t: State, s: State)
    requires Bare(t) == Bare(s)
    ensures (Reverse(h, t).Some? <==> Reverse(h, s).Some?)
    ensures Reverse(h, t).Some? ==> Bare(Reverse(h, t).value) == Bare(Reverse(h, s).value)
  {
    hide TakeOff, RebuildTx;
    assert t.(keys := s.keys) == s;
    assert forall row :: RebuildBlock(h, t, row) == RebuildBlock(h, s, row);
    if t.tip.Some? && RebuildBlock(h, t, t.tip.value).Some? {
      TakeOffIgnoresKeys(h, t, s, RebuildBlock(h, t, t.tip.value).value, t.tip.value.height);
    }
  }

  lemma BeforeTip(p: Params, t: State, chain: seq<Block>) returns (s: State)
    requires Sound(p.h) && Base(p, t, chain) && |chain| >= 2
    ensures var n := |chain| - 1;
            && MainOf(s) == MainOf(Replay(p.h, chain[..n])) && s.candidates == t.candidates
            && Ready(p.h, s, chain[n], n + 1)
            && Bare(Accept(p.h, s, chain[n], n + 1)) == Bare(t)
  {
    hide Accept, Replay, Coherent, BlockFits, BlockId, Known, Mined, Rooted, CoreBlock, BlockRep, Acceptable;
    var n := |chain| - 1;
    var r := Replay(p.h, chain[..n]);
    s := State(r.tip, r.blocks, r.heights, r.core, t.candidates, t.keys);
    ReplayCoherent(p, chain[..n]);
    ReplayTables(p, chain[..n]);
    AcceptableFits(p, r.core, chain[n], n + 1);
    assert At(p.h, MainOf(r), chain[..n], n - 1);
    ReplayStep(p.h, chain);
    AcceptMain(p.h, s, r, chain[n], n + 1);
    AcceptTables(p.h, s, chain[n], n + 1);
    BaseTables(p, t, chain);
    assert At(p.h, MainOf(t), chain, n);
    assert t.candidates - {BlockId(p.h, chain[n])} == t.candidates;
  }

  lemma ReplayStep(h: Hashes, chain: seq<Block>)
    requires chain != []
    ensures var n := |chain| - 1; Replay(h, chain) == Accept(h, Replay(h, chain[..n]), chain[n], n + 1)
  {
  }

  lemma KnownMove(h: Hashes, t: State, u: State, b: Block)
    requires BlockId(h, b) in t.blocks && t.blocks[BlockId(h, b)] == ToDbBlock(h, b, b.height)
    requires u.blocks == t.blocks - {BlockId(h, b)} && u.candidates == t.candidates[BlockId(h, b) := b]
    ensures Known(h, u) == Known(h, t)
  {
    hide HeaderOf, ToDbBlock, BlockId;
  }

  lemma ReverseIndexed(p: Params, t: State, s: State, b: Block, height: nat)
    requires Sound(p.h) && Ready(p.h, s, b, height) && b.data.Null? && b.height == height
    requires Bare(t) == Bare(Accept(p.h, s, b, height)) && Indexed(p, t)
    ensures Reverse(p.h, t).Some? ==> Indexed(p, Reverse(p.h, t).value)
  {
    hide Coherent, Exact, Accept, CoreBlock, TakeOff, BlockRep, BlockRecorded, BlockId, RebuildTx;
    AcceptTables(p.h, s, b, height);
    ReverseRebuilds(p.h, s, b, height);
    assert t.core == Bare(t).core && t.tip == Bare(t).tip && t.candidates == Bare(t).candidates;
    RebuildAccepted(p.h, t, b, height);
    assert b.(height := height, data := Null) == b;
    if p.keyLength.Some? {
      TakeOffExact(p.h, p.keyLength.value, t, s.core, b, height);
    }
  }

  /** Reversing the tip of any reachable database steps the main chain back by exactly one block,
      which joins the candidates; no known header changes. */
  lemma ReverseBase(p: Params, t: State, chain: seq<Block>)
    requires Sound(p.h) && Base(p, t, chain) && |chain| >= 2
    ensures Reverse(p.h, t).Some?
    ensures var u, n := Reverse(p.h, t).value, |chain| - 1;
            && Base(p, u, chain[..n])
            && Known(p.h, u) == Known(p.h, t)
            && u.candidates == t.candidates[BlockId(p.h, chain[n]) := chain[n]]
            && u.blocks == t.blocks - {BlockId(p.h, chain[n])} && BlockId(p.h, chain[n]) in t.blocks
  {
    hide Accept, Replay, Coherent, BlockFits, BlockId, Known, Mined, Rooted, CoreBlock, Reverse, ToDbBlock, BlockRep;
    hide Acceptable, Indexed, PlainBlock, Proven;
    var n := |chain| - 1;
    var id := BlockId(p.h, chain[n]);
    var s := BeforeTip(p, t, chain);
    ReverseNull(p.h, s, chain[n], n + 1);
    ReverseIgnoresKeys(p.h, t, Accept(p.h, s, chain[n], n + 1));
    var u := Reverse(p.h, t).value;
    assert Bare(u) == Bare(Reversed(p.h, s, chain[n], n + 1));
    assert MainOf(u) == MainOf(Bare(u)) == MainOf(s);
    assert u.candidates == Bare(u).candidates == t.candidates[id := chain[n]];
    AcceptTables(p.h, s, chain[n], n + 1);
    assert MainOf(t) == MainOf(Bare(t)) == MainOf(Accept(p.h, s, chain[n], n + 1));
    KnownMove(p.h, t, u, chain[n]);
    SideGains(p, t, u, chain[n]);
    ProvenMove(p, t, u, BlockId(p.h, chain[0]), chain[n]);
    ReverseIndexed(p, t, s, chain[n], n + 1);
  }

  lemma SideGains(p: Params, t: State, u: State, b: Block)
    requires Side(p, t) && Plain(p, b) && BlockRep(p.h, b)
    requires u.candidates == t.candidates[BlockId(p.h, b) := b]
    requires u.blocks.Keys == t.blocks.Keys - {BlockId(p.h, b)}
    ensures Side(p, u)
  {
    hide BlockId, BlockRep, Plain;
  }
}
