/** When a submitted block is accepted, and what the main chain then is, told from the known headers,
    the proof-of-work hash and the rules of a valid chain. */
module Choice {
  import opened Types
  import opened Ledger
  import opened Blocks
  import opened Kimoto
  import opened Tree
  import opened Submission
  import opened Chain
  import opened Runs
  import opened Archive

  /** The target that the ancestors of a block dictate. */
  ghost function Due(p: Params, m: Headers, b: Block): int {
    Target(p.kgw, Ancestors(m, b.prev))
  }

  /** The block with the header that its place in the tree gives it. */
  ghost function Placed(p: Params, m: Headers, b: Block): Block
    requires b.prev in m
  {
    var target := Due(p, m, b);
    b.(consensus := Consensus(target, m[b.prev].work + (MAX_WORK - target), b.consensus.nonce),
       height := m[b.prev].height + 1)
  }

  ghost predicate Meets(p: Params, m: Headers, b: Block) {
    p.pow(BlockId(p.h, b), b.consensus.nonce) < Due(p, m, b)
  }

  // ---- refusals ----

  /** A block already on the main chain changes nothing; one without a known parent, or whose hash is
      not below its target, is refused and changes nothing. */
  lemma SubmitRefuses(p: Params, t: State, chain: seq<Block>, b: Block, depth: nat)
    requires Sound(p.h) && Base(p, t, chain)
    ensures BlockId(p.h, b) in t.blocks ==> Submit(p, t, b, depth) == Done(true, t)
    ensures BlockId(p.h, b) !in t.blocks && (b.prev !in Known(p.h, t) || !Meets(p, Known(p.h, t), b)) ==>
              Submit(p, t, b, depth) == Done(false, t)
  {
    hide Base, Known, BlockId, Target, Ancestors, Place;
    Found(p, t, chain, b.prev);
  }

  /** Otherwise the consensus rules hold, and the header is the one of its place. */
  lemma RulesHold(p: Params, t: State, chain: seq<Block>, b: Block)
    requires Sound(p.h) && Base(p, t, chain) && b.prev in Known(p.h, t) && Meets(p, Known(p.h, t), b)
    ensures FindBlock(p.h, t, b.prev).Some?
    ensures var prev := FindBlock(p.h, t, b.prev).value;
            var c := CheckRules(p, t, b, prev);
            && prev.height == Known(p.h, t)[b.prev].height
            && c.Some? && c.value.(height := prev.height + 1) == Placed(p, Known(p.h, t), b)
            && c.value == b.(consensus := c.value.consensus)
  {
    hide Base, Known, BlockId, Target, Ancestors;
    Found(p, t, chain, b.prev);
  }

  // ---- one block on the tip ----

  /** A block fits on a valid chain exactly when it passes every check against the chain's replay. */
  lemma ValidSnoc(p: Params, chain: seq<Block>, b: Block)
    requires Valid(p, chain) && chain != [] && BlockRep(p.h, b) && Plain(p, b)
    requires b.prev == BlockId(p.h, chain[|chain| - 1]) && b.height == |chain| + 1
    requires BlockId(p.h, b) !in Replay(p.h, chain).blocks
    ensures Valid(p, chain + [b]) <==> Acceptable(p, Replay(p.h, chain).core, b, |chain| + 1)
  {
    hide Acceptable, BlockRep, BlockId, Replay, Plain;
    assert (chain + [b])[..|chain|] == chain;
  }

  lemma ExtendIff(p: Params, t: State, chain: seq<Block>, b: Block, height: nat)
    requires Sound(p.h) && Base(p, t, chain) && BlockRep(p.h, b) && Plain(p, b)
    requires BlockId(p.h, b) !in t.blocks && b.prev == BlockId(p.h, chain[|chain| - 1])
    requires height == |chain| + 1
    ensures Extend(p, t, b, height).ok <==> Acceptable(p, t.core, b, height)
    ensures Extend(p, t, b, height).ok <==> Valid(p, chain + [b.(height := height)])
  {
    hide Acceptable, BlockRep, BlockId, Replay, Plain, Valid, Known, Accept, Side, Rooted, Mined, Proven, Indexed;
    var b' := b.(height := height);
    SameId(p.h, b, height);
    HeightIgnored(p, t.core, b, height);
    assert t.core == MainOf(t).core && t.blocks == MainOf(t).blocks;
    ValidSnoc(p, chain, b');
  }

  // ---- a branch ----

  lemma ResubmitOneIff(p: Params, t: State, chain: seq<Block>, b: Block)
    requires Sound(p.h) && Base(p, t, chain)
    requires BlockId(p.h, b) in t.candidates && t.candidates[BlockId(p.h, b)] == b
    requires b.prev == BlockId(p.h, chain[|chain| - 1])
    ensures Submit(p, t, b, 0).Done? && (Submit(p, t, b, 0).ok <==> Valid(p, chain + [b]))
  {
    hide Base, BlockId, Known, Extend, BlockRep, DbBlockId, ToDbBlock, HeaderOf, Target, Ancestors, Valid, CheckRules;
    TipKnown(p, t, chain);
    SideApart(p, t, chain, BlockId(p.h, b));
    ParentOfCandidate(p, t, chain, BlockId(p.h, b));
    Found(p, t, chain, b.prev);
    Rechecked(p, t, chain, b);
    ExtendIff(p, t, chain, b, b.height);
    assert b.(height := b.height) == b;
  }

  /** Resubmitting a branch succeeds exactly when it continues the chain validly. */
  lemma {:induction false} ResubmitIff(p: Params, t: State, chain: seq<Block>, branch: seq<Block>)
    requires Sound(p.h) && Base(p, t, chain) && Path(p.h, t.candidates, branch)
    requires branch != [] ==> branch[0].prev == BlockId(p.h, chain[|chain| - 1])
    ensures Resubmit(p, t, branch, 0).Done?
    ensures Resubmit(p, t, branch, 0).ok <==> Valid(p, chain + branch)
    decreases |branch|
  {
    hide Base, BlockId, Known, Submit, Path, Valid;
    BaseValid(p, t, chain);
    if branch == [] {
      assert chain + branch == chain;
    } else {
      PathHead(p.h, t.candidates, branch);
      ResubmitOne(p, t, chain, branch[0]);
      ResubmitOneIff(p, t, chain, branch[0]);
      var o := Submit(p, t, branch[0], 0);
      assert chain + branch == (chain + [branch[0]]) + branch[1..];
      if o.ok {
        PathTail(p.h, t.candidates, branch);
        ResubmitIff(p, o.state, chain + [branch[0]], branch[1..]);
      } else {
        NotValidFurther(p, chain + [branch[0]], branch[1..]);
      }
    }
  }

  lemma BaseValid(p: Params, t: State, chain: seq<Block>)
    requires Base(p, t, chain)
    ensures chain != [] && Valid(p, chain)
  {
    hide Known, Replay, Rooted, Mined, Side, Proven, Indexed;
  }

  lemma NotValidFurther(p: Params, a: seq<Block>, b: seq<Block>)
    requires !Valid(p, a)
    ensures !Valid(p, a + b)
  {
    hide Valid;
    assert (a + b)[..|a|] == a;
    if Valid(p, a + b) {
      ValidPrefix(p, a + b, |a|);
    }
  }

  /** The candidates that lead from the main chain to `tip`, and where they leave it. */
  ghost predicate Leads(h: Hashes, t: State, chain: seq<Block>, k: nat, branch: seq<Block>, tip: Id) {
    && 1 <= k <= |chain| && branch != [] && Path(h, t.candidates, branch)
    && branch[0].prev == BlockId(h, chain[k - 1])
    && BlockId(h, branch[|branch| - 1]) == tip
  }

  lemma ReorgIff(p: Params, t: State, chain: seq<Block>, newTip: Id) returns (k: nat, branch: seq<Block>)
    requires Sound(p.h) && Base(p, t, chain) && newTip in t.candidates
    ensures Leads(p.h, t, chain, k, branch, newTip)
    ensures var o := Reorg(p, t, newTip, 0);
            && o.Done? && (o.ok <==> Valid(p, chain[..k] + branch))
            && (o.ok ==> Base(p, o.state, chain[..k] + branch) && Known(p.h, o.state) == Known(p.h, t))
  {
    hide Base, BlockId, Known, Resubmit, Path, Branch, ReverseTo, Valid;
    ParentOfCandidate(p, t, chain, newTip);
    var n := t.candidates[newTip].height;
    BranchPath(p, t, chain, newTip, n);
    branch := Branch(t.candidates, newTip, n);
    k := ReverseToBase(p, t, chain, branch[0].prev);
    var u := ReverseTo(p.h, t, branch[0].prev).value;
    PathKept(p.h, t, u, branch);
    ResubmitBase(p, u, chain[..k], branch);
    ResubmitIff(p, u, chain[..k], branch);
  }

  // ---- the verdict ----

  /** A block with a known parent and a hash below its target, not yet on the main chain. On the tip it
      is accepted exactly when it passes the checks there, and extends the chain. Elsewhere, with no
      more work than the tip, it is filed as a candidate. With more work it is accepted exactly when the
      main chain cut at its fork, its branch and the block itself are a valid chain, which then is the
      main chain. */
  lemma SubmitDecides(p: Params, t: State, chain: seq<Block>, b: Block) returns (k: nat, branch: seq<Block>)
    requires Sound(p.h) && Inv(p, t, chain) && BlockRep(p.h, b) && Plain(p, b) && BlockId(p.h, b) !in t.blocks
    requires b.prev in Known(p.h, t) && Meets(p, Known(p.h, t), b)
    ensures chain != [] && t.tip.Some? && Submit(p, t, b, 1).Done?
    ensures var o := Submit(p, t, b, 1);
            var c := Placed(p, Known(p.h, t), b);
            if b.prev == BlockId(p.h, chain[|chain| - 1]) then
              && (o.ok <==> Acceptable(p, t.core, b, |chain| + 1))
              && (o.ok ==> Inv(p, o.state, chain + [c]))
            else if c.consensus.work <= t.tip.value.consensus.work then
              o == Done(true, t.(candidates := t.candidates[BlockId(p.h, b) := c]))
            else
              && Leads(p.h, t, chain, k, branch, b.prev)
              && (o.ok <==> Valid(p, chain[..k] + branch + [c]))
              && (o.ok ==> Inv(p, o.state, chain[..k] + branch + [c]))
  {
    hide Base, Known, Best, BlockId, BlockRep, Extends, ToDbBlock, HeaderOf, DbBlockId, Advanced, Extend, Reorg;
    hide CheckRules, Fresh, Meets, Placed, Valid, Acceptable, Leads;
    k, branch := 0, [];
    TipKnown(p, t, chain);
    Found(p, t, chain, b.prev);
    RulesHold(p, t, chain, b);
    Checked(p, t, chain, b);
    var prev := FindBlock(p.h, t, b.prev).value;
    var c := CheckRules(p, t, b, prev).value;
    CheckedRep(p, b, c);
    var d := c.(height := prev.height + 1);
    if b.prev == BlockId(p.h, chain[|chain| - 1]) {
      assert prev == t.tip.value;
      TipChildWins(p, t, chain, d);
      SubmitOnTip(p, t, chain, t, chain, c, prev.height + 1);
      ExtendIff(p, t, chain, c, prev.height + 1);
      ConsensusIgnored(p, t.core, b, c, prev.height + 1);
      AdvancedKeeps(p, t, Extend(p, t, c, prev.height + 1).state, chain + [d]);
    } else if c.consensus.work <= t.tip.value.consensus.work {
      SameId(p.h, c, prev.height + 1);
    } else {
      k, branch := Forked(p, t, chain, c, prev.height + 1);
    }
  }

  lemma AdvancedKeeps(p: Params, t: State, u: State, chain: seq<Block>)
    ensures Advanced(p, t, u, chain) ==> Inv(p, u, chain)
  {
  }

  lemma ConsensusIgnored(p: Params, t: Core, b: Block, c: Block, height: nat)
    requires c == b.(consensus := c.consensus)
    ensures Acceptable(p, t, c, height) <==> Acceptable(p, t, b, height)
  {
    hide Verify;
  }

  lemma Forked(p: Params, t: State, chain: seq<Block>, c: Block, height: nat) returns (k: nat, branch: seq<Block>)
    requires Sound(p.h) && Inv(p, t, chain) && BlockRep(p.h, c) && Plain(p, c) && BlockId(p.h, c) !in t.blocks
    requires Fresh(p, Known(p.h, t), c.(height := height)) && t.tip.Some?
    requires c.prev != BlockId(p.h, chain[|chain| - 1]) && c.consensus.work > t.tip.value.consensus.work
    ensures Leads(p.h, t, chain, k, branch, c.prev)
    ensures var o := Reorg(p, t, c.prev, 0);
            var chain' := chain[..k] + branch + [c.(height := height)];
            && o.Done?
            && (o.ok ==> o.state.tip.Some? && o.state.tip.value.height + 1 == height && Extend(p, o.state, c, height).Done?)
            && (o.ok && Extend(p, o.state, c, height).ok <==> Valid(p, chain'))
            && (o.ok && Extend(p, o.state, c, height).ok ==> Inv(p, Extend(p, o.state, c, height).state, chain'))
  {
    hide Base, Known, BlockId, BlockRep, Best, Extends, ToDbBlock, HeaderOf, Advanced, Extend, Reorg, Fresh, Leads, Valid;
    OnCandidate(p, t, chain, c, height);
    k, branch := ReorgIff(p, t, chain, c.prev);
    LeadsEnd(p.h, t, chain, k, branch, c.prev);
    var chain1 := chain[..k] + branch;
    var d := c.(height := height);
    var o := Reorg(p, t, c.prev, 0);
    if o.ok {
      NewHeight(p, t, o.state, chain1, d);
      SubmitOnTip(p, t, chain, o.state, chain1, c, height);
      AdvancedKeeps(p, t, Extend(p, o.state, c, height).state, chain1 + [d]);
      SameId(p.h, c, height);
      NotYetOnChain(p, t, chain, o.state, chain1, d);
      TipKnown(p, o.state, chain1);
      HeightOf(o.state);
      ExtendIff(p, o.state, chain1, c, height);
    } else {
      NotValidFurther(p, chain1, [d]);
    }
  }

  lemma LeadsEnd(h: Hashes, t: State, chain: seq<Block>, k: nat, branch: seq<Block>, tip: Id)
    requires Leads(h, t, chain, k, branch, tip)
    ensures k <= |chain|
    ensures var c := chain[..k] + branch; c != [] && BlockId(h, c[|c| - 1]) == tip
  {
  }

  lemma HeightOf(t: State)
    requires t.tip.Some?
    ensures HeaderOf(t.tip.value).height == t.tip.value.height
  {
  }
}
