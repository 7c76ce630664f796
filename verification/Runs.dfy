/** Every run of submissions: the tables stay the replay of the heaviest known chain, and no
    submission gets stuck. */
module Runs {
  import opened Types
  import opened Ledger
  import opened Blocks
  import opened Reversal
  import opened Kimoto
  import opened Tree
  import opened Submission
  import opened Chain

  // ---- looking blocks up ----

  lemma Found(p: Params, t: State, chain: seq<Block>, id: Id)
    requires Sound(p.h) && Base(p, t, chain)
    ensures FindBlock(p.h, t, id).Some? <==> id in Known(p.h, t)
    ensures id in Known(p.h, t) ==> HeaderOf(FindBlock(p.h, t, id).value) == Known(p.h, t)[id]
    ensures id in Known(p.h, t) ==> DbBlockId(p.h, FindBlock(p.h, t, id).value) == id
  {
    hide Replay, Valid, BlockId, DbBlockId, ToDbBlock, Rooted, Mined, Coherent, Tables;
    BaseTables(p, t, chain);
    if id in t.blocks {
      FoundMain(p.h, t, chain, id);
    } else if id in t.candidates {
      RowId(p.h, t.candidates[id], t.candidates[id].height);
    }
  }

  lemma FoundMain(h: Hashes, t: State, chain: seq<Block>, id: Id)
    requires Tables(h, MainOf(t), chain) && id in t.blocks
    ensures DbBlockId(h, t.blocks[id]) == id
  {
    hide BlockId, DbBlockId, ToDbBlock;
    var i :| 0 <= i < |chain| && BlockIds(h, chain)[i] == id;
    assert At(h, MainOf(t), chain, i);
    RowId(h, chain[i], i + 1);
  }

  lemma RowId(h: Hashes, b: Block, height: nat)
    ensures DbBlockId(h, ToDbBlock(h, b, height)) == BlockId(h, b)
  {
  }

  /** What `checkConsensusRules` returns is a freshly mined header on the known tree. */
  lemma Checked(p: Params, t: State, chain: seq<Block>, b: Block)
    requires Sound(p.h) && Base(p, t, chain) && b.prev in Known(p.h, t)
    ensures var prev := FindBlock(p.h, t, b.prev).value;
            var c := CheckRules(p, t, b, prev);
            c.Some? ==>
              && Fresh(p, Known(p.h, t), c.value.(height := prev.height + 1))
              && c.value == b.(consensus := c.value.consensus)
              && BlockId(p.h, c.value.(height := prev.height + 1)) == BlockId(p.h, b)
  {
    hide Known, Base, Target, Ancestors;
    Found(p, t, chain, b.prev);
  }

  lemma ExtendStep(p: Params, t: State, chain: seq<Block>, b: Block, height: nat)
    requires Sound(p.h) && Base(p, t, chain) && BlockRep(p.h, b) && Plain(p, b)
    requires BlockId(p.h, b) !in t.blocks && b.prev == BlockId(p.h, chain[|chain| - 1])
    requires Fresh(p, Known(p.h, t), b.(height := height))
    ensures var o := Extend(p, t, b, height);
            var b' := b.(height := height);
            o.Done? && (o.ok ==>
              && Base(p, o.state, chain + [b'])
              && Known(p.h, o.state) == Known(p.h, t)[BlockId(p.h, b) := HeaderOf(ToDbBlock(p.h, b', height))]
              && o.state.candidates == t.candidates - {BlockId(p.h, b)})
  {
    hide Known, Base, Accept, Acceptable, BlockId, BlockRep, ToDbBlock, HeaderOf;
    var b' := b.(height := height);
    SameBlock(p.h, t, b, height);
    if Acceptable(p, t.core, b, height) {
      HeightIgnored(p, t.core, b, height);
      ExtendBase(p, t, chain, b');
      AcceptTables(p.h, t, b', height);
    }
  }

  lemma HeightIgnored(p: Params, c: Core, b: Block, height: nat)
    ensures Acceptable(p, c, b.(height := height), height) == Acceptable(p, c, b, height)
    ensures BlockRep(p.h, b.(height := height)) == BlockRep(p.h, b)
    ensures Plain(p, b.(height := height)) == Plain(p, b)
  {
    hide Verify, TxRep;
  }

  // ---- reorganisation ----

  /** A side branch: stored candidates, each the parent of the next, heights counting up. */
  ghost predicate Path(h: Hashes, candidates: map<Id, Block>, branch: seq<Block>) {
    && (forall i :: 0 <= i < |branch| ==> BlockId(h, branch[i]) in candidates && candidates[BlockId(h, branch[i])] == branch[i])
    && (forall i, j :: 0 <= i < j < |branch| ==> branch[i].height < branch[j].height)
    && (forall i :: 0 < i < |branch| ==> branch[i].prev == BlockId(h, branch[i - 1]))
  }

  lemma PathSnoc(h: Hashes, candidates: map<Id, Block>, branch: seq<Block>, b: Block)
    requires Path(h, candidates, branch) && BlockId(h, b) in candidates && candidates[BlockId(h, b)] == b
    requires branch != [] ==> b.prev == BlockId(h, branch[|branch| - 1]) && branch[|branch| - 1].height < b.height
    ensures Path(h, candidates, branch + [b])
  {
    hide BlockId;
  }

  lemma ParentOfCandidate(p: Params, t: State, chain: seq<Block>, id: Id)
    requires Sound(p.h) && Base(p, t, chain) && id in t.candidates
    ensures var b := t.candidates[id];
            && BlockId(p.h, b) == id && BlockRep(p.h, b) && Plain(p, b)
            && b.prev in Known(p.h, t) && b.height == Known(p.h, t)[b.prev].height + 1 && b.height >= 2
            && Fresh(p, Known(p.h, t), b)
            && (b.prev !in t.candidates ==> b.prev in t.blocks)
            && (b.prev in t.candidates ==> t.candidates[b.prev].height < b.height)
            && Known(p.h, t)[id] == HeaderOf(ToDbBlock(p.h, b, b.height))
  {
    hide Replay, Valid, BlockId, Coherent, BlockRep, Target, Ancestors;
    TipKnown(p, t, chain);
    assert id != BlockId(p.h, chain[0]);
    assert Known(p.h, t)[id] == HeaderOf(ToDbBlock(p.h, t.candidates[id], t.candidates[id].height));
  }

  /** The candidate walk ends on a main-chain block. */
  lemma {:induction false} BranchPath(p: Params, t: State, chain: seq<Block>, id: Id, n: nat)
    requires Sound(p.h) && Base(p, t, chain) && id in t.candidates && n >= t.candidates[id].height
    ensures var br := Branch(t.candidates, id, n);
            && br != [] && Path(p.h, t.candidates, br)
            && br[|br| - 1] == t.candidates[id]
            && br[0].prev in t.blocks
    decreases n
  {
    hide Base, BlockId, BlockRep, Fresh, Known;
    ParentOfCandidate(p, t, chain, id);
    var b := t.candidates[id];
    if b.prev in t.candidates {
      BranchPath(p, t, chain, b.prev, n - 1);
      var br := Branch(t.candidates, b.prev, n - 1);
      ParentOfCandidate(p, t, chain, b.prev);
      PathSnoc(p.h, t.candidates, br, b);
    } else {
      assert Branch(t.candidates, b.prev, n - 1) == [];
      assert Branch(t.candidates, id, n) == [b];
    }
  }

  /** Nothing already among the candidates is lost. */
  ghost predicate Keeps(t: State, u: State) {
    forall id :: id in t.candidates ==> id in u.candidates && u.candidates[id] == t.candidates[id]
  }

  /** Reversing to a main-chain block terminates there and only moves blocks to the candidates. */
  lemma {:induction false} ReverseToBase(p: Params, t: State, chain: seq<Block>, fork: Id) returns (k: nat)
    requires Sound(p.h) && Base(p, t, chain) && fork in t.blocks
    ensures ReverseTo(p.h, t, fork).Some?
    ensures var u := ReverseTo(p.h, t, fork).value;
            && 1 <= k <= |chain| && BlockId(p.h, chain[k - 1]) == fork
            && Base(p, u, chain[..k])
            && Known(p.h, u) == Known(p.h, t)
            && Keeps(t, u)
    decreases |chain|
  {
    hide Base, BlockId, Known, Reverse;
    TipKnown(p, t, chain);
    var n := |chain| - 1;
    if BlockId(p.h, chain[n]) == fork {
      k := |chain|;
      assert chain[..k] == chain;
    } else {
      NotGenesis(p, t, chain, fork);
      ReversedKeeps(p, t, chain, fork);
      k := ReverseToBase(p, Reverse(p.h, t).value, chain[..n], fork);
      assert chain[..n][..k] == chain[..k];
    }
  }

  lemma NotGenesis(p: Params, t: State, chain: seq<Block>, fork: Id)
    requires Sound(p.h) && Base(p, t, chain) && fork in t.blocks && BlockId(p.h, chain[|chain| - 1]) != fork
    ensures |chain| >= 2
  {
    hide Replay, Valid, BlockId, Rooted, Mined, Coherent, Known;
    BaseTables(p, t, chain);
    var i :| 0 <= i < |chain| && BlockIds(p.h, chain)[i] == fork;
  }

  lemma ReversedKeeps(p: Params, t: State, chain: seq<Block>, fork: Id)
    requires Sound(p.h) && Base(p, t, chain) && |chain| >= 2
    requires fork in t.blocks && fork != BlockId(p.h, chain[|chain| - 1])
    ensures Reverse(p.h, t).Some?
    ensures var u := Reverse(p.h, t).value;
            && Base(p, u, chain[..|chain| - 1]) && Known(p.h, u) == Known(p.h, t) && Keeps(t, u)
            && u.blocks.Keys < t.blocks.Keys && fork in u.blocks
  {
    hide Replay, Valid, BlockId, Rooted, Mined, Coherent, Known, Reverse;
    ReverseBase(p, t, chain);
  }

  /** A stored candidate is resubmitted unchanged, on the tip, without another reorg. */
  lemma ResubmitOne(p: Params, t: State, chain: seq<Block>, b: Block)
    requires Sound(p.h) && Base(p, t, chain)
    requires BlockId(p.h, b) in t.candidates && t.candidates[BlockId(p.h, b)] == b
    requires b.prev == BlockId(p.h, chain[|chain| - 1])
    ensures var o := Submit(p, t, b, 0);
            o.Done? && (o.ok ==>
              && Base(p, o.state, chain + [b])
              && Known(p.h, o.state) == Known(p.h, t)
              && o.state.candidates == t.candidates - {BlockId(p.h, b)})
  {
    hide Base, BlockId, Known, Extend, BlockRep, DbBlockId, ToDbBlock, HeaderOf, Target, Ancestors;
    TipKnown(p, t, chain);
    SideApart(p, t, chain, BlockId(p.h, b));
    ParentOfCandidate(p, t, chain, BlockId(p.h, b));
    Found(p, t, chain, b.prev);
    Checked(p, t, chain, b);
    var prev := FindBlock(p.h, t, b.prev).value;
    Rechecked(p, t, chain, b);
    assert prev == t.tip.value;
    ExtendStep(p, t, chain, b, b.height);
    assert b.(height := b.height) == b;
    KnownAgain(p, t, b);
  }

  lemma KnownAgain(p: Params, t: State, b: Block)
    requires BlockId(p.h, b) in Known(p.h, t)
    requires Known(p.h, t)[BlockId(p.h, b)] == HeaderOf(ToDbBlock(p.h, b, b.height))
    ensures Known(p.h, t)[BlockId(p.h, b) := HeaderOf(ToDbBlock(p.h, b, b.height))] == Known(p.h, t)
  {
    hide Known, BlockId, HeaderOf, ToDbBlock;
  }

  lemma SideApart(p: Params, t: State, chain: seq<Block>, id: Id)
    requires Base(p, t, chain) && id in t.candidates
    ensures id !in t.blocks && id in Known(p.h, t)
  {
  }

  /** Rechecking a stored candidate finds the target and the work it already carries, and its proof of
      work is still good. */
  lemma Rechecked(p: Params, t: State, chain: seq<Block>, b: Block)
    requires Sound(p.h) && Base(p, t, chain) && b.prev in Known(p.h, t) && Fresh(p, Known(p.h, t), b)
    ensures var c := CheckRules(p, t, b, FindBlock(p.h, t, b.prev).value);
            c == Some(b)
    ensures b.height == FindBlock(p.h, t, b.prev).value.height + 1
  {
    hide Known, Base, Target, Ancestors, BlockId;
    Found(p, t, chain, b.prev);
  }

  lemma PathTail(h: Hashes, t: map<Id, Block>, branch: seq<Block>)
    requires branch != [] && Path(h, t, branch)
    ensures Path(h, t - {BlockId(h, branch[0])}, branch[1..])
    ensures |branch| > 1 ==> branch[1].prev == BlockId(h, branch[0])
  {
    hide BlockId;
    forall i | 1 <= i < |branch| ensures BlockId(h, branch[i]) != BlockId(h, branch[0]) {
      assert branch[0].height < branch[i].height;
    }
  }

  /** Resubmitting a branch on its fork block replaces the main chain above it, block by block. */
  lemma {:induction false} ResubmitBase(p: Params, t: State, chain: seq<Block>, branch: seq<Block>)
    requires Sound(p.h) && Base(p, t, chain) && Path(p.h, t.candidates, branch)
    requires branch != [] ==> branch[0].prev == BlockId(p.h, chain[|chain| - 1])
    ensures var o := Resubmit(p, t, branch, 0);
            o.Done? && (o.ok ==> Base(p, o.state, chain + branch) && Known(p.h, o.state) == Known(p.h, t))
    decreases |branch|
  {
    hide Base, BlockId, Known, Submit, Path;
    if branch == [] {
      assert chain + branch == chain;
    } else {
      PathHead(p.h, t.candidates, branch);
      ResubmitOne(p, t, chain, branch[0]);
      var o := Submit(p, t, branch[0], 0);
      if o.ok {
        PathTail(p.h, t.candidates, branch);
        assert chain + branch == (chain + [branch[0]]) + branch[1..];
        ResubmitBase(p, o.state, chain + [branch[0]], branch[1..]);
      }
    }
  }

  lemma PathHead(h: Hashes, candidates: map<Id, Block>, branch: seq<Block>)
    requires branch != [] && Path(h, candidates, branch)
    ensures BlockId(h, branch[0]) in candidates && candidates[BlockId(h, branch[0])] == branch[0]
  {
  }

  lemma PathKept(h: Hashes, t: State, u: State, branch: seq<Block>)
    requires Path(h, t.candidates, branch) && Keeps(t, u)
    ensures Path(h, u.candidates, branch)
  {
    hide BlockId;
  }

  /** `reorgChain` to a candidate: it always finds its fork, never nests another reorg, and on
      success the main chain is the old one up to the fork and then the candidate's branch, with no
      known header touched. */
  lemma ReorgBase(p: Params, t: State, chain: seq<Block>, newTip: Id) returns (k: nat, chain': seq<Block>)
    requires Sound(p.h) && Base(p, t, chain) && newTip in t.candidates
    ensures 0 < k <= |chain| && chain' == chain[..k] + Branch(t.candidates, newTip, t.candidates[newTip].height)
    ensures var o := Reorg(p, t, newTip, 0);
            o.Done? && (o.ok ==>
              && Base(p, o.state, chain')
              && Known(p.h, o.state) == Known(p.h, t)
              && BlockId(p.h, chain'[|chain'| - 1]) == newTip)
  {
    hide Base, BlockId, Known, Resubmit, Path, Branch, ReverseTo;
    ParentOfCandidate(p, t, chain, newTip);
    var n := t.candidates[newTip].height;
    BranchPath(p, t, chain, newTip, n);
    var branch := Branch(t.candidates, newTip, n);
    k := ReverseToBase(p, t, chain, branch[0].prev);
    var u := ReverseTo(p.h, t, branch[0].prev).value;
    PathKept(p.h, t, u, branch);
    ResubmitBase(p, u, chain[..k], branch);
    chain' := chain[..k] + branch;
  }

  // ---- fork choice ----

  /** The tip carries at least as much work as any known block. */
  ghost predicate Best(p: Params, t: State) {
    && t.tip.Some?
    && (forall id :: id in Known(p.h, t) ==> Known(p.h, t)[id].work <= t.tip.value.consensus.work)
  }

  /** The invariant of every reachable database. */
  ghost predicate Inv(p: Params, t: State, chain: seq<Block>) {
    Base(p, t, chain) && Best(p, t)
  }

  /** A child of a main-chain block below the tip never beats the tip: its sibling on the main
      chain has the same target, hence the same work. */
  lemma SiblingCannotWin(p: Params, t: State, chain: seq<Block>, b: Block)
    requires Sound(p.h) && Inv(p, t, chain)
    requires b.prev in t.blocks && b.prev != BlockId(p.h, chain[|chain| - 1])
    requires Fresh(p, Known(p.h, t), b)
    ensures b.consensus.work <= t.tip.value.consensus.work
  {
    hide Replay, Valid, BlockId, Coherent, Target, Ancestors, HeaderOf, ToDbBlock;
    BaseTables(p, t, chain);
    var i :| 0 <= i < |chain| && BlockIds(p.h, chain)[i] == b.prev;
    assert At(p.h, MainOf(t), chain, i + 1);
    var id := BlockId(p.h, chain[i + 1]);
    assert id in Known(p.h, t);
    SiblingHeader(p, t, chain, i + 1);
  }

  lemma SiblingHeader(p: Params, t: State, chain: seq<Block>, i: nat)
    requires Sound(p.h) && Base(p, t, chain) && 0 < i < |chain|
    ensures var id := BlockId(p.h, chain[i]);
            && id in Known(p.h, t) && id != BlockId(p.h, chain[0])
            && Known(p.h, t)[id].prev == BlockId(p.h, chain[i - 1])
  {
    hide Replay, Valid, BlockId, Coherent, Rooted, Mined;
    BaseTables(p, t, chain);
    assert At(p.h, MainOf(t), chain, i);
    assert At(p.h, MainOf(t), chain, 0);
  }

  lemma NotYetOnChain(p: Params, t: State, chain: seq<Block>, u: State, chain': seq<Block>, b: Block)
    requires Sound(p.h) && Base(p, t, chain) && Base(p, u, chain') && Known(p.h, u) == Known(p.h, t)
    requires BlockId(p.h, b) !in t.blocks && Fresh(p, Known(p.h, t), b)
    requires b.prev == BlockId(p.h, chain'[|chain'| - 1])
    ensures BlockId(p.h, b) !in u.blocks
  {
    hide Replay, Valid, BlockId, Coherent, Rooted, Mined, Target, Ancestors;
    var id := BlockId(p.h, b);
    BaseTables(p, u, chain');
    TipKnown(p, u, chain');
    TipKnown(p, t, chain);
    if id in u.blocks {
      var i :| 0 <= i < |chain'| && BlockIds(p.h, chain')[i] == id;
      assert At(p.h, MainOf(u), chain', i);
      assert id in Known(p.h, u);
      SameHeader(p, t, BlockId(p.h, chain[0]), b);
    }
  }

  lemma SaveBase(p: Params, t: State, chain: seq<Block>, b: Block, height: nat)
    requires Sound(p.h) && Base(p, t, chain) && BlockRep(p.h, b) && Plain(p, b)
    requires BlockId(p.h, b) !in t.blocks && Fresh(p, Known(p.h, t), b.(height := height))
    ensures Base(p, Save(p, t, b, height), chain)
    ensures Known(p.h, Save(p, t, b, height))
         == Known(p.h, t)[BlockId(p.h, b) := HeaderOf(ToDbBlock(p.h, b.(height := height), height))]
  {
    hide Replay, Valid, Coherent, Rooted, Mined, Target, Ancestors, Known, BlockRep, Fresh;
    var b' := b.(height := height);
    var u := Save(p, t, b, height);
    assert BlockId(p.h, b') == BlockId(p.h, b);
    TipKnown(p, t, chain);
    HeightIgnored(p, t.core, b, height);
    SideGains(p, t, u, b');
    KnownSave(p.h, t, u, b');
    TreeGrows(p, t, BlockId(p.h, chain[0]), b');
    FreshWorked(p, Known(p.h, t), b');
    ProvenSave(p, t, u, BlockId(p.h, chain[0]), b');
  }

  lemma FreshWorked(p: Params, m: Headers, b: Block)
    requires Fresh(p, m, b)
    ensures Worked(p, BlockId(p.h, b), b.consensus)
  {
  }

  lemma BestTip(p: Params, t: State, u: State, chain': seq<Block>, b: Block)
    requires Sound(p.h) && Best(p, t) && Base(p, u, chain') && chain'[|chain'| - 1] == b
    requires Known(p.h, u) == Known(p.h, t)[BlockId(p.h, b) := HeaderOf(ToDbBlock(p.h, b, b.height))]
    requires b.consensus.work > t.tip.value.consensus.work
    ensures Best(p, u) && u.tip.Some? && u.tip.value.consensus.work == b.consensus.work
  {
    hide Known, Base, BlockId;
    TipKnown(p, u, chain');
  }

  lemma BestSave(p: Params, t: State, u: State, b: Block)
    requires Best(p, t) && u.tip == t.tip
    requires Known(p.h, u) == Known(p.h, t)[BlockId(p.h, b) := HeaderOf(ToDbBlock(p.h, b, b.height))]
    requires b.consensus.work <= t.tip.value.consensus.work
    ensures Best(p, u)
  {
    hide Known, BlockId;
  }

  lemma TipChildWins(p: Params, t: State, chain: seq<Block>, b: Block)
    requires Sound(p.h) && Base(p, t, chain) && Fresh(p, Known(p.h, t), b)
    requires b.prev == BlockId(p.h, chain[|chain| - 1])
    ensures t.tip.Some? && b.consensus.work > t.tip.value.consensus.work
  {
    hide Replay, Valid, BlockId, Coherent, Known, Target, Ancestors;
    TipKnown(p, t, chain);
    NextTarget(p.kgw, Known(p.h, t), BlockId(p.h, chain[0]), b.prev);
  }

  /** What one accepted submission does to the tree of known blocks and to the tip. */
  ghost predicate Advanced(p: Params, t: State, u: State, chain': seq<Block>) {
    && Inv(p, u, chain')
    && Extends(Known(p.h, t), Known(p.h, u))
    && t.tip.Some? && u.tip.Some?
    && (u.tip == t.tip || u.tip.value.consensus.work > t.tip.value.consensus.work)
  }

  lemma KnownExtends(p: Params, t: State, chain: seq<Block>, b: Block)
    requires Sound(p.h) && Base(p, t, chain) && BlockId(p.h, b) !in t.blocks && Fresh(p, Known(p.h, t), b)
    ensures Extends(Known(p.h, t), Known(p.h, t)[BlockId(p.h, b) := HeaderOf(ToDbBlock(p.h, b, b.height))])
  {
    hide Replay, Valid, BlockId, Coherent, Known, Target, Ancestors, HeaderOf, ToDbBlock, Fresh;
    TipKnown(p, t, chain);
    TreeGrows(p, t, BlockId(p.h, chain[0]), b);
  }

  /** A block on the tip. */
  lemma SubmitOnTip(p: Params, t: State, chain: seq<Block>, u: State, chain': seq<Block>, b: Block, height: nat)
    requires Sound(p.h) && Inv(p, t, chain) && Base(p, u, chain') && Known(p.h, u) == Known(p.h, t)
    requires BlockRep(p.h, b) && Plain(p, b) && BlockId(p.h, b) !in t.blocks
    requires b.prev == BlockId(p.h, chain'[|chain'| - 1]) && Fresh(p, Known(p.h, t), b.(height := height))
    requires t.tip.Some? && b.consensus.work > t.tip.value.consensus.work
    ensures var o := Extend(p, u, b, height);
            o.Done? && (o.ok ==> Advanced(p, t, o.state, chain' + [b.(height := height)]))
  {
    hide Base, Known, Best, BlockId, Extend, BlockRep, Fresh, Extends, ToDbBlock, HeaderOf;
    var b' := b.(height := height);
    SameId(p.h, b, height);
    NotYetOnChain(p, t, chain, u, chain', b');
    ExtendStep(p, u, chain', b, height);
    KnownExtends(p, t, chain, b');
    var o := Extend(p, u, b, height);
    if o.ok {
      BestTip(p, t, o.state, chain' + [b'], b');
    }
  }

  lemma SameId(h: Hashes, b: Block, height: nat)
    ensures BlockId(h, b.(height := height)) == BlockId(h, b)
  {
  }

  lemma Resting(p: Params, t: State, chain: seq<Block>)
    requires Inv(p, t, chain)
    ensures Advanced(p, t, t, chain)
  {
    hide Known, Base;
  }

  /** Any well-formed block without data, submitted to any reachable database: the submission
      terminates with a verdict, and if it accepts, the tables are again the replay of a main
      chain that no known block outweighs. */
  lemma SubmitInv(p: Params, t: State, chain: seq<Block>, b: Block) returns (chain': seq<Block>)
    requires Sound(p.h) && Inv(p, t, chain) && BlockRep(p.h, b) && Plain(p, b)
    ensures var o := Submit(p, t, b, 1);
            o.Done? && (o.ok ==> Advanced(p, t, o.state, chain'))
  {
    hide Base, Known, Best, BlockId, BlockRep, Fresh, Extends, ToDbBlock, HeaderOf, DbBlockId, Advanced, Extend;
    hide Reorg, Save, CheckRules;
    chain' := chain;
    TipKnown(p, t, chain);
    Found(p, t, chain, b.prev);
    Resting(p, t, chain);
    if BlockId(p.h, b) !in t.blocks && b.prev in Known(p.h, t) {
      var prev := FindBlock(p.h, t, b.prev).value;
      var c := CheckRules(p, t, b, prev);
      Checked(p, t, chain, b);
      if c.Some? {
        chain' := SubmitChecked(p, t, chain, b, c.value);
      }
    }
  }

  lemma SubmitChecked(p: Params, t: State, chain: seq<Block>, b: Block, c: Block) returns (chain': seq<Block>)
    requires Sound(p.h) && Inv(p, t, chain) && BlockRep(p.h, b) && Plain(p, b)
    requires BlockId(p.h, b) !in t.blocks && b.prev in Known(p.h, t) && FindBlock(p.h, t, b.prev).Some?
    requires CheckRules(p, t, b, FindBlock(p.h, t, b.prev).value) == Some(c)
    ensures var o := Place(p, t, c, FindBlock(p.h, t, b.prev).value, 1);
            o.Done? && (o.ok ==> Advanced(p, t, o.state, chain'))
  {
    hide Base, Known, Best, BlockId, BlockRep, Extends, ToDbBlock, HeaderOf, DbBlockId, Advanced, Extend, Reorg;
    hide CheckRules, Fresh;
    var prev := FindBlock(p.h, t, b.prev).value;
    Checked(p, t, chain, b);
    CheckedRep(p, b, c);
    TipKnown(p, t, chain);
    Found(p, t, chain, b.prev);
    var d := c.(height := prev.height + 1);
    if b.prev == BlockId(p.h, chain[|chain| - 1]) {
      assert prev == t.tip.value;
      TipChildWins(p, t, chain, d);
      SubmitOnTip(p, t, chain, t, chain, c, prev.height + 1);
      chain' := chain + [d];
    } else if c.consensus.work <= t.tip.value.consensus.work {
      SubmitSaved(p, t, chain, c, prev.height + 1);
      chain' := chain;
    } else {
      chain' := SubmitForked(p, t, chain, c, prev.height + 1);
    }
  }

  lemma CheckedRep(p: Params, b: Block, c: Block)
    requires BlockRep(p.h, b) && Plain(p, b) && c == b.(consensus := c.consensus)
    ensures BlockRep(p.h, c) && Plain(p, c) && BlockId(p.h, c) == BlockId(p.h, b)
  {
    hide TxRep;
  }

  lemma SubmitSaved(p: Params, t: State, chain: seq<Block>, c: Block, height: nat)
    requires Sound(p.h) && Inv(p, t, chain) && BlockRep(p.h, c) && Plain(p, c) && BlockId(p.h, c) !in t.blocks
    requires Fresh(p, Known(p.h, t), c.(height := height)) && c.consensus.work <= t.tip.value.consensus.work
    ensures Advanced(p, t, Save(p, t, c, height), chain)
  {
    hide Base, Known, BlockId, BlockRep, Extends, ToDbBlock, HeaderOf, Fresh;
    SameId(p.h, c, height);
    SaveBase(p, t, chain, c, height);
    BestSave(p, t, Save(p, t, c, height), c.(height := height));
    KnownExtends(p, t, chain, c.(height := height));
  }

  lemma SubmitForked(p: Params, t: State, chain: seq<Block>, c: Block, height: nat) returns (chain': seq<Block>)
    requires Sound(p.h) && Inv(p, t, chain) && BlockRep(p.h, c) && Plain(p, c) && BlockId(p.h, c) !in t.blocks
    requires Fresh(p, Known(p.h, t), c.(height := height)) && t.tip.Some?
    requires c.prev != BlockId(p.h, chain[|chain| - 1]) && c.consensus.work > t.tip.value.consensus.work
    ensures var o := Reorg(p, t, c.prev, 0);
            && o.Done?
            && (o.ok ==> o.state.tip.Some? && o.state.tip.value.height + 1 == height)
            && (o.ok ==> Extend(p, o.state, c, height).Done?)
            && (o.ok && Extend(p, o.state, c, height).ok ==> Advanced(p, t, Extend(p, o.state, c, height).state, chain'))
  {
    hide Base, Known, BlockId, BlockRep, Best, Extends, ToDbBlock, HeaderOf, Advanced, Extend, Reorg, Fresh;
    OnCandidate(p, t, chain, c, height);
    var k, chain1 := ReorgBase(p, t, chain, c.prev);
    var o := Reorg(p, t, c.prev, 0);
    chain' := chain1 + [c.(height := height)];
    if o.ok {
      NewHeight(p, t, o.state, chain1, c.(height := height));
      SubmitOnTip(p, t, chain, o.state, chain1, c, height);
    }
  }

  /** Only a child of a candidate can force a reorg. */
  lemma OnCandidate(p: Params, t: State, chain: seq<Block>, c: Block, height: nat)
    requires Sound(p.h) && Inv(p, t, chain) && Fresh(p, Known(p.h, t), c.(height := height))
    requires c.prev != BlockId(p.h, chain[|chain| - 1])
    requires t.tip.Some? && c.consensus.work > t.tip.value.consensus.work
    ensures c.prev in t.candidates
  {
    hide Base, BlockId, ToDbBlock, HeaderOf, Target, Ancestors;
    if c.prev in t.blocks {
      SiblingCannotWin(p, t, chain, c.(height := height));
    }
  }

  lemma NewHeight(p: Params, t: State, u: State, chain: seq<Block>, d: Block)
    requires Sound(p.h) && Base(p, u, chain) && Known(p.h, u) == Known(p.h, t) && Fresh(p, Known(p.h, t), d)
    requires d.prev == BlockId(p.h, chain[|chain| - 1])
    ensures u.tip.Some? && u.tip.value.height + 1 == d.height
  {
    hide Base, BlockId, Known, Target, Ancestors;
    TipKnown(p, u, chain);
  }

  // ---- whole runs ----

  /** `submitBlock` of the genesis block on an empty database: no consensus rules, height one. */
  function Genesis(p: Params, g: Block): (r: Outcome)
    ensures r.Done?
  {
    Extend(p, EmptyState, g, 1)
  }

  lemma GenesisInv(p: Params, g: Block)
    requires Sound(p.h) && BlockRep(p.h, g) && Plain(p, g) && Genesis(p, g).ok
    ensures Inv(p, Genesis(p, g).state, [g.(height := 1)])
  {
    hide Accept, BlockRep, Acceptable, BlockId;
    var g' := g.(height := 1);
    var t := Genesis(p, g).state;
    SameBlock(p.h, EmptyState, g, 1);
    HeightIgnored(p, Empty, g, 1);
    GenesisChain(p, g');
    AcceptTables(p.h, EmptyState, g', 1);
    GenesisTree(p, t, g');
    GenesisIndexed(p, g');
  }

  lemma GenesisIndexed(p: Params, g: Block)
    requires Sound(p.h) && BlockRep(p.h, g) && Plain(p, g) && Acceptable(p, Empty, g, 1)
    ensures Indexed(p, Accept(p.h, EmptyState, g, 1))
  {
    hide Accept, BlockRep, Acceptable, BlockFits, Plain;
    AcceptableFits(p, Empty, g, 1);
    assert Coherent(p.h, Empty) && Indexed(p, EmptyState) by {
      assert KeyStrings(map[]) == {};
    }
    AcceptIndexed(p, EmptyState, g, 1);
  }

  lemma GenesisChain(p: Params, g: Block)
    requires BlockRep(p.h, g) && Plain(p, g) && g.height == 1 && Acceptable(p, Empty, g, 1)
    ensures Valid(p, [g]) && Replay(p.h, [g]) == Accept(p.h, EmptyState, g, 1)
  {
    hide Accept, BlockRep, Acceptable, BlockId;
    assert [g][..0] == [];
  }

  lemma GenesisTree(p: Params, t: State, g: Block)
    requires t.blocks == map[BlockId(p.h, g) := ToDbBlock(p.h, g, 1)] && t.candidates == map[]
    requires t.tip == Some(ToDbBlock(p.h, g, 1))
    ensures Side(p, t) && Best(p, t) && Proven(p, t, BlockId(p.h, g))
    ensures Rooted(Known(p.h, t), BlockId(p.h, g)) && Mined(p.kgw, Known(p.h, t), BlockId(p.h, g))
  {
    hide BlockId;
    assert Known(p.h, t) == map[BlockId(p.h, g) := HeaderOf(ToDbBlock(p.h, g, 1))];
  }

  /** The committed database after submitting `bs` one by one. */
  function Run(p: Params, t: State, bs: seq<Block>): State {
    if bs == [] then t else
      var u := Run(p, t, bs[..|bs| - 1]);
      Commit(u, Submit(p, u, bs[|bs| - 1], 1))
  }

  ghost predicate Submittable(p: Params, bs: seq<Block>) {
    forall i :: 0 <= i < |bs| ==> BlockRep(p.h, bs[i]) && Plain(p, bs[i])
  }

  /** `u` is the database some submissions after `t`, with main chain `chain`: it satisfies the
      invariant, so its tables are the replay of `chain` and no known block outweighs the tip;
      nothing known was forgotten; and the tip's work did not go down. */
  ghost predicate Follows(p: Params, t: State, u: State, chain: seq<Block>) {
    && Inv(p, u, chain)
    && MainOf(u) == MainOf(Replay(p.h, chain))
    && Extends(Known(p.h, t), Known(p.h, u))
    && t.tip.Some? && u.tip.Some? && t.tip.value.consensus.work <= u.tip.value.consensus.work
  }

  lemma FollowsSelf(p: Params, t: State, chain: seq<Block>)
    requires Inv(p, t, chain)
    ensures Follows(p, t, t, chain)
  {
    hide Known, Replay, Valid;
  }

  lemma FollowsCommit(p: Params, t: State, u: State, chain: seq<Block>, b: Block) returns (chain': seq<Block>)
    requires Sound(p.h) && Follows(p, t, u, chain) && BlockRep(p.h, b) && Plain(p, b)
    ensures Follows(p, t, Commit(u, Submit(p, u, b, 1)), chain')
  {
    hide Base, Best, BlockRep, Submit, Known, MainOf, Replay;
    chain' := SubmitInv(p, u, chain, b);
    var o := Submit(p, u, b, 1);
    if o.ok {
      InvReplay(p, o.state, chain');
    } else {
      chain' := chain;
    }
  }

  /** Any run of submissions, from any reachable database. */
  lemma {:induction false} RunInv(p: Params, t: State, chain: seq<Block>, bs: seq<Block>) returns (chain': seq<Block>)
    requires Sound(p.h) && Inv(p, t, chain) && Submittable(p, bs)
    ensures Follows(p, t, Run(p, t, bs), chain')
  {
    hide Follows, Inv, Submit, BlockRep, Commit;
    if bs == [] {
      chain' := chain;
      FollowsSelf(p, t, chain);
    } else {
      chain' := RunInv(p, t, chain, bs[..|bs| - 1]);
      chain' := FollowsCommit(p, t, Run(p, t, bs[..|bs| - 1]), chain', bs[|bs| - 1]);
    }
  }

  lemma InvReplay(p: Params, t: State, chain: seq<Block>)
    requires Inv(p, t, chain)
    ensures MainOf(t) == MainOf(Replay(p.h, chain))
  {
    hide Known, Replay;
  }

  /** The genesis block is the one known block of height one, so it stays as headers are added. */
  lemma GenesisStays(p: Params, t: State, chain: seq<Block>, u: State, chain': seq<Block>)
    requires Sound(p.h) && Base(p, t, chain) && Base(p, u, chain') && Extends(Known(p.h, t), Known(p.h, u))
    ensures BlockId(p.h, chain'[0]) == BlockId(p.h, chain[0])
  {
    hide Valid, Replay, Known, Mined, Side, BlockId;
    assert BlockId(p.h, chain[0]) in Known(p.h, t);
  }

  /** From the genesis block on: after any submissions the database is the replay of a chain that
      starts with genesis, the tip outweighs or equals every known block, no known header has been
      lost and the tip's work has not gone down. */
  lemma EveryRun(p: Params, g: Block, bs: seq<Block>) returns (chain: seq<Block>)
    requires Sound(p.h) && BlockRep(p.h, g) && Plain(p, g) && Genesis(p, g).ok && Submittable(p, bs)
    ensures Follows(p, Genesis(p, g).state, Run(p, Genesis(p, g).state, bs), chain)
    ensures chain != [] && BlockId(p.h, chain[0]) == BlockId(p.h, g)
  {
    hide Base, Best, BlockRep, Submit, Known, Run, BlockId, Genesis, Extends, Replay, Plain;
    GenesisInv(p, g);
    var t := Genesis(p, g).state;
    chain := RunInv(p, t, [g.(height := 1)], bs);
    BaseNonEmpty(p, Run(p, t, bs), chain);
    GenesisStays(p, t, [g.(height := 1)], Run(p, t, bs), chain);
    SameId(p.h, g, 1);
  }

  /** After any run from genesis, every known block but genesis carries the target its ancestors dictate
      and has a proof-of-work hash below it. */
  lemma EveryBlockMined(p: Params, g: Block, bs: seq<Block>, id: Id)
    requires Sound(p.h) && BlockRep(p.h, g) && Plain(p, g) && Genesis(p, g).ok && Submittable(p, bs)
    requires var m := Known(p.h, Run(p, Genesis(p, g).state, bs)); id in m && id != BlockId(p.h, g)
    ensures var u := Run(p, Genesis(p, g).state, bs);
            var row := FindBlock(p.h, u, id);
            && row.Some? && row.value.prev in Known(p.h, u)
            && row.value.consensus.target == Target(p.kgw, Ancestors(Known(p.h, u), row.value.prev))
            && p.pow(id, row.value.consensus.nonce) < row.value.consensus.target
  {
    hide BlockRep, Submit, Run, BlockId, Genesis, Extends, Replay, Plain, Sound, Known, Follows, FindBlock;
    var chain := EveryRun(p, g, bs);
    BlockMined(p, Genesis(p, g).state, Run(p, Genesis(p, g).state, bs), chain, id);
  }

  lemma BlockMined(p: Params, t: State, u: State, chain: seq<Block>, id: Id)
    requires Sound(p.h) && Follows(p, t, u, chain) && chain != [] && id in Known(p.h, u) && id != BlockId(p.h, chain[0])
    ensures var row := FindBlock(p.h, u, id);
            && row.Some? && row.value.prev in Known(p.h, u)
            && row.value.consensus.target == Target(p.kgw, Ancestors(Known(p.h, u), row.value.prev))
            && p.pow(id, row.value.consensus.nonce) < row.value.consensus.target
  {
    hide BlockId, Valid, Replay, Side, Indexed, Best, Target, Ancestors, Sound, Known, Extends;
    Found(p, u, chain, id);
  }

  lemma BaseNonEmpty(p: Params, t: State, chain: seq<Block>)
    requires Base(p, t, chain)
    ensures chain != []
  {
    hide Valid, Replay, Known, Mined, Side, Rooted;
  }

  /** No submission in any run gets stuck: every lookup succeeds, every reorg finds its fork and
      its stack is not empty, and a resubmitted block never reorganises again. */
  lemma NeverStuck(p: Params, t: State, chain: seq<Block>, bs: seq<Block>, b: Block)
    requires Sound(p.h) && Inv(p, t, chain) && Submittable(p, bs) && BlockRep(p.h, b) && Plain(p, b)
    ensures Submit(p, Run(p, t, bs), b, 1).Done?
  {
    hide Base, Best, BlockRep, Submit, Known, Run;
    var chain' := RunInv(p, t, chain, bs);
    assert Follows(p, t, Run(p, t, bs), chain');
    var chain'' := SubmitInv(p, Run(p, t, bs), chain', b);
  }
}
