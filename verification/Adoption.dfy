/** A node that has heard of a valid chain, block by block and among any other submissions, is never
    left on a lighter one. */
module Adoption {
  import opened Types
  import opened Ledger
  import opened Blocks
  import opened Kimoto
  import opened Tree
  import opened Submission
  import opened Chain
  import opened Runs
  import opened Archive
  import opened Choice

  // ---- a chain by itself ----

  /** The header of a block as the block itself tells it. */
  ghost function Head(b: Block): Header {
    Header(b.prev, b.timestamp, b.height, b.consensus.target, b.consensus.work)
  }

  /** The headers of a chain, last block first. */
  ghost function Heads(ch: seq<Block>): seq<Header> {
    if ch == [] then [] else [Head(ch[|ch| - 1])] + Heads(ch[..|ch| - 1])
  }

  /** Each block but the first carries the target its predecessors dictate, the work that follows, and a
      hash below the target. */
  ghost predicate MinedBlock(p: Params, ch: seq<Block>, i: nat)
    requires 0 < i < |ch|
  {
    && ch[i].consensus.target == Target(p.kgw, Heads(ch[..i]))
    && ch[i].consensus.work == ch[i - 1].consensus.work + (MAX_WORK - ch[i].consensus.target)
    && p.pow(BlockId(p.h, ch[i]), ch[i].consensus.nonce) < ch[i].consensus.target
  }

  ghost predicate MinedChain(p: Params, ch: seq<Block>) {
    forall i :: 0 < i < |ch| ==> MinedBlock(p, ch, i)
  }

  /** Heights count up, each block names the one before, and each is well formed by itself. */
  ghost predicate LinkAt(p: Params, ch: seq<Block>, i: nat)
    requires i < |ch|
  {
    ch[i].height == i + 1 && BlockRep(p.h, ch[i]) && Plain(p, ch[i]) && (i > 0 ==> ch[i].prev == BlockId(p.h, ch[i - 1]))
  }

  ghost predicate Linked(p: Params, ch: seq<Block>) {
    forall i :: 0 <= i < |ch| ==> LinkAt(p, ch, i)
  }

  lemma {:induction false} ValidLinked(p: Params, ch: seq<Block>)
    requires Valid(p, ch)
    ensures Linked(p, ch)
  {
    hide Valid, BlockId, BlockRep, Plain;
    if ch != [] {
      var n := |ch| - 1;
      ValidTail(p, ch);
      ValidLinked(p, ch[..n]);
      forall i | 0 <= i < |ch| ensures LinkAt(p, ch, i) {
        if i < n { assert LinkAt(p, ch[..n], i); }
      }
    }
  }

  lemma LinkedFront(p: Params, ch: seq<Block>)
    requires Linked(p, ch) && ch != []
    ensures Linked(p, ch[..|ch| - 1])
  {
    hide BlockId, BlockRep, Plain;
    var n := |ch| - 1;
    forall i | 0 <= i < n ensures LinkAt(p, ch[..n], i) { assert LinkAt(p, ch, i); }
  }

  /** A linked chain that ends in the last block of a valid one, by id, is valid too. */
  lemma {:induction false} ValidById(p: Params, a: seq<Block>, b: seq<Block>)
    requires NoClash(p.h) && Valid(p, a) && Linked(p, b) && |a| == |b|
    requires a != [] ==> BlockId(p.h, a[|a| - 1]) == BlockId(p.h, b[|b| - 1])
    ensures Valid(p, b) && BlockIds(p.h, b) == BlockIds(p.h, a) && Replay(p.h, b).core == Replay(p.h, a).core
  {
    hide BlockId, BlockRep, Plain, NoClash, Replay, Linked, Acceptable, Valid, BlockIds;
    assert a == [] ==> a == b;
    if a != [] {
      var n := |a| - 1;
      SameParts(p.h, a[n], b[n]);
      LinkedAt(p, b, n);
      LastChecks(p, a);
      LinkedFront(p, b);
      if n > 0 { assert BlockId(p.h, a[..n][n - 1]) == BlockId(p.h, b[..n][n - 1]); }
      ValidById(p, a[..n], b[..n]);
      SameIds(p.h, a, b);
      SameStored(p, a[..n], b[..n]);
      SameVerdict(p, Replay(p.h, a[..n]).core, a[n], b[n], n + 1);
      ValidLast(p, b);
      SameChain(p, a, b);
    }
  }

  lemma SameStored(p: Params, a: seq<Block>, b: seq<Block>)
    requires Valid(p, a) && Valid(p, b) && BlockIds(p.h, a) == BlockIds(p.h, b)
    ensures Replay(p.h, a).blocks.Keys == Replay(p.h, b).blocks.Keys
  {
    hide Valid, Replay, BlockIds;
    ReplayTables(p, a);
    ReplayTables(p, b);
  }

  lemma ValidLast(p: Params, b: seq<Block>)
    requires b != [] && Valid(p, b[..|b| - 1]) && LinkAt(p, b, |b| - 1)
    requires BlockId(p.h, b[|b| - 1]) !in Replay(p.h, b[..|b| - 1]).blocks
    requires Acceptable(p, Replay(p.h, b[..|b| - 1]).core, b[|b| - 1], |b|)
    ensures Valid(p, b)
  {
    hide BlockId, BlockRep, Plain, Replay, Acceptable;
  }

  lemma LastChecks(p: Params, a: seq<Block>)
    requires a != [] && Valid(p, a)
    ensures var n := |a| - 1;
            && Valid(p, a[..n]) && (n > 0 ==> a[n].prev == BlockId(p.h, a[n - 1]))
            && BlockId(p.h, a[n]) !in Replay(p.h, a[..n]).blocks
            && Acceptable(p, Replay(p.h, a[..n]).core, a[n], n + 1)
  {
    hide BlockId, BlockRep, Plain, Replay, Acceptable;
  }

  lemma SameIds(h: Hashes, a: seq<Block>, b: seq<Block>)
    requires |a| == |b| > 0 && BlockId(h, a[|a| - 1]) == BlockId(h, b[|b| - 1])
    requires BlockIds(h, a[..|a| - 1]) == BlockIds(h, b[..|b| - 1])
    ensures BlockIds(h, a) == BlockIds(h, b)
  {
    hide BlockId;
    var n := |a| - 1;
    forall i | 0 <= i < |a| ensures BlockIds(h, a)[i] == BlockIds(h, b)[i] {
      if i < n { assert BlockIds(h, a[..n])[i] == BlockIds(h, b[..n])[i]; }
    }
  }

  lemma SameVerdict(p: Params, c: Core, a: Block, b: Block, height: nat)
    requires a.txs == b.txs && a.coinbase == b.coinbase
    ensures Acceptable(p, c, a, height) <==> Acceptable(p, c, b, height)
  {
    hide Verify;
  }

  // ---- a chain among the known headers ----

  ghost predicate KnownTo(h: Hashes, m: Headers, ch: seq<Block>, n: nat) {
    n <= |ch| && forall i :: 0 <= i < n ==> BlockId(h, ch[i]) in m && m[BlockId(h, ch[i])] == Head(ch[i])
  }

  lemma {:induction false} AncestorsAre(p: Params, m: Headers, ch: seq<Block>, n: nat)
    requires Linked(p, ch) && 0 < n && KnownTo(p.h, m, ch, n)
    ensures Walk(m, BlockId(p.h, ch[n - 1]), n) == Heads(ch[..n])
    ensures Ancestors(m, BlockId(p.h, ch[n - 1])) == Heads(ch[..n])
    decreases n
  {
    hide BlockId, BlockRep, Plain;
    assert LinkAt(p, ch, n - 1);
    assert ch[..n][..n - 1] == ch[..n - 1];
    if n > 1 {
      AncestorsAre(p, m, ch, n - 1);
    } else {
      assert Walk(m, BlockId(p.h, ch[0]), 1) == [Head(ch[0])] + Walk(m, ch[0].prev, 0);
    }
  }

  /** Once its predecessors are known, a known block of the chain has the header the chain gives it. */
  lemma KnownNext(p: Params, t: State, chain: seq<Block>, ch: seq<Block>, n: nat)
    requires Sound(p.h) && Base(p, t, chain) && Valid(p, ch) && MinedChain(p, ch)
    requires 0 < n < |ch| && KnownTo(p.h, Known(p.h, t), ch, n) && BlockId(p.h, ch[n]) in Known(p.h, t)
    requires BlockId(p.h, ch[0]) == BlockId(p.h, chain[0])
    ensures KnownTo(p.h, Known(p.h, t), ch, n + 1)
  {
    hide BlockRep, Plain, Valid, Target, Base, Known, DbBlockId, FindBlock, BlockId, Heads, Linked, MinedChain, Sound;
    hide HeaderOf, Ancestors, KnownTo;
    var m := Known(p.h, t);
    var id := BlockId(p.h, ch[n]);
    ValidLinked(p, ch);
    LinkedAt(p, ch, n);
    LinkedAt(p, ch, n - 1);
    MinedAt(p, ch, n);
    ValidPrefix(p, ch, n + 1);
    IdsDiffer(p, ch[..n + 1]);
    Found(p, t, chain, id);
    HeaderParts(p.h, FindBlock(p.h, t, id).value, ch[n]);
    AncestorsAre(p, m, ch, n);
    TreeAt(p, t, chain, id);
    KnownAt(p.h, m, ch, n, n - 1);
    KnownSnoc(p.h, m, ch, n);
  }

  lemma LinkedAt(p: Params, ch: seq<Block>, i: nat)
    requires Linked(p, ch) && i < |ch|
    ensures LinkAt(p, ch, i)
  {
  }

  lemma MinedAt(p: Params, ch: seq<Block>, i: nat)
    requires MinedChain(p, ch) && 0 < i < |ch|
    ensures MinedBlock(p, ch, i)
  {
  }

  lemma KnownAt(h: Hashes, m: Headers, ch: seq<Block>, n: nat, i: nat)
    requires KnownTo(h, m, ch, n) && i < n
    ensures BlockId(h, ch[i]) in m && m[BlockId(h, ch[i])] == Head(ch[i])
  {
    hide BlockId;
  }

  lemma KnownSnoc(h: Hashes, m: Headers, ch: seq<Block>, n: nat)
    requires KnownTo(h, m, ch, n) && n < |ch| && BlockId(h, ch[n]) in m && m[BlockId(h, ch[n])] == Head(ch[n])
    ensures KnownTo(h, m, ch, n + 1)
  {
    hide BlockId;
  }

  lemma TreeAt(p: Params, t: State, chain: seq<Block>, id: Id)
    requires Base(p, t, chain) && id in Known(p.h, t) && id != BlockId(p.h, chain[0])
    ensures var m := Known(p.h, t);
            && m[id].prev in m && m[id].height == m[m[id].prev].height + 1
            && m[id].target == Target(p.kgw, Ancestors(m, m[id].prev))
            && m[id].work == MAX_WORK - m[id].target + m[m[id].prev].work
  {
    hide Known, Valid, Replay, Side, Proven, Indexed, Target, Ancestors, BlockId;
  }

  lemma HeaderParts(h: Hashes, row: DbBlock, b: Block)
    requires Sound(h) && DbBlockId(h, row) == BlockId(h, b)
    ensures HeaderOf(row).prev == b.prev && HeaderOf(row).timestamp == b.timestamp
  {
  }

  // ---- hearing one more block ----

  /** The block of the chain, whatever header it was sent with. */
  ghost predicate Sent(h: Hashes, b: Block, c: Block) {
    BlockId(h, b) == BlockId(h, c) && b.consensus.nonce == c.consensus.nonce
  }

  /** The branch of a heavier fork with the part of the main chain below it is a linked chain. */
  lemma BranchLinked(p: Params, t: State, chain: seq<Block>, k: nat, branch: seq<Block>, tip: Id)
    requires Sound(p.h) && Base(p, t, chain) && Leads(p.h, t, chain, k, branch, tip)
    ensures Linked(p, chain[..k] + branch)
    ensures tip in Known(p.h, t) && Known(p.h, t)[tip].height == k + |branch|
  {
    hide BlockId, BlockRep, Plain, Valid, Base, Known, Fresh, Linked, Path;
    BaseValid(p, t, chain);
    ValidLinked(p, chain);
    LinkedTo(p, chain, k);
    assert chain[..k] + branch[..0] == chain[..k];
    MainHeader(p, t, chain, k - 1);
    var i := 0;
    while i < |branch|
      invariant 0 <= i <= |branch| && Linked(p, chain[..k] + branch[..i])
      invariant i > 0 ==> BlockId(p.h, branch[i - 1]) in Known(p.h, t) && Known(p.h, t)[BlockId(p.h, branch[i - 1])].height == k + i
    {
      PathAt(p.h, t.candidates, branch, i);
      ParentOfCandidate(p, t, chain, BlockId(p.h, branch[i]));
      HeightOfRow(p.h, branch[i]);
      SideApart(p, t, chain, BlockId(p.h, branch[i]));
      assert (chain[..k] + branch[..i]) + [branch[i]] == chain[..k] + branch[..i + 1];
      LinkedSnoc(p, chain[..k] + branch[..i], branch[i]);
      i := i + 1;
    }
    assert branch[..|branch|] == branch;
  }

  lemma PathAt(h: Hashes, candidates: map<Id, Block>, branch: seq<Block>, i: nat)
    requires Path(h, candidates, branch) && i < |branch|
    ensures BlockId(h, branch[i]) in candidates && candidates[BlockId(h, branch[i])] == branch[i]
    ensures i > 0 ==> branch[i].prev == BlockId(h, branch[i - 1])
  {
    hide BlockId;
  }

  lemma HeightOfRow(h: Hashes, b: Block)
    ensures HeaderOf(ToDbBlock(h, b, b.height)).height == b.height
  {
  }

  lemma LinkedTo(p: Params, ch: seq<Block>, k: nat)
    requires Linked(p, ch) && k <= |ch|
    ensures Linked(p, ch[..k])
  {
    hide BlockId, BlockRep, Plain;
    forall i | 0 <= i < k ensures LinkAt(p, ch[..k], i) { assert LinkAt(p, ch, i); }
  }

  lemma LinkedSnoc(p: Params, ch: seq<Block>, b: Block)
    requires Linked(p, ch) && BlockRep(p.h, b) && Plain(p, b) && b.height == |ch| + 1
    requires ch != [] ==> b.prev == BlockId(p.h, ch[|ch| - 1])
    ensures Linked(p, ch + [b])
  {
    hide BlockId, BlockRep, Plain;
    forall i | 0 <= i <= |ch| ensures LinkAt(p, ch + [b], i) {
      if i < |ch| { assert LinkAt(p, ch, i); }
    }
  }

  lemma MainHeader(p: Params, t: State, chain: seq<Block>, i: nat)
    requires Sound(p.h) && Base(p, t, chain) && i < |chain|
    ensures var id := BlockId(p.h, chain[i]); id in Known(p.h, t) && Known(p.h, t)[id].height == i + 1
  {
    hide BlockId, Valid, Replay, Coherent, Rooted, Mined, Side, Proven, Indexed;
    BaseTables(p, t, chain);
    assert At(p.h, MainOf(t), chain, i);
  }

  lemma PlacedParts(p: Params, m: Headers, b: Block)
    requires b.prev in m && BlockRep(p.h, b) && Plain(p, b)
    ensures var c := Placed(p, m, b);
            && BlockId(p.h, c) == BlockId(p.h, b) && BlockRep(p.h, c) && Plain(p, c)
            && c.prev == b.prev && c.height == m[b.prev].height + 1
  {
    hide TxRep, Target, Ancestors;
  }

  /** On the tip: the chain below is the heard one, so the checks pass. */
  lemma TipAccepts(p: Params, t: State, chain: seq<Block>, ch: seq<Block>, n: nat, b: Block)
    requires Sound(p.h) && NoClash(p.h) && Base(p, t, chain) && Valid(p, ch) && 0 < n < |ch|
    requires |chain| == n && BlockId(p.h, chain[n - 1]) == BlockId(p.h, ch[n - 1])
    requires b.txs == ch[n].txs && b.coinbase == ch[n].coinbase
    ensures Acceptable(p, t.core, b, n + 1)
  {
    hide BlockId, Valid, Replay, Known, Side, Rooted, Mined, Proven, Indexed, Acceptable, NoClash;
    ValidPrefix(p, ch, n);
    ValidPrefix(p, ch, n + 1);
    assert ch[..n + 1][..n] == ch[..n];
    LastChecks(p, ch[..n + 1]);
    SameChain(p, chain, ch[..n]);
    assert t.core == MainOf(t).core;
    SameVerdict(p, t.core, ch[n], b, n + 1);
  }

  /** On a branch: what the main chain would become is the heard chain. */
  lemma ForkAccepts(p: Params, t: State, chain: seq<Block>, ch: seq<Block>, n: nat, k: nat, branch: seq<Block>, c: Block)
    requires Sound(p.h) && NoClash(p.h) && Base(p, t, chain) && Valid(p, ch) && 0 < n < |ch|
    requires KnownTo(p.h, Known(p.h, t), ch, n) && Leads(p.h, t, chain, k, branch, BlockId(p.h, ch[n - 1]))
    requires BlockRep(p.h, c) && Plain(p, c) && c.height == n + 1
    requires BlockId(p.h, c) == BlockId(p.h, ch[n]) && c.prev == BlockId(p.h, ch[n - 1])
    ensures k <= |chain| && Valid(p, chain[..k] + branch + [c])
  {
    hide BlockId, Valid, Known, Base, BlockRep, Plain, NoClash, Leads, KnownTo, Linked;
    BranchLinked(p, t, chain, k, branch, BlockId(p.h, ch[n - 1]));
    LeadsEnd(p.h, t, chain, k, branch, BlockId(p.h, ch[n - 1]));
    KnownAt(p.h, Known(p.h, t), ch, n, n - 1);
    ValidLinked(p, ch);
    LinkedAt(p, ch, n - 1);
    LinkedSnoc(p, chain[..k] + branch, c);
    ValidPrefix(p, ch, n + 1);
    ValidById(p, ch[..n + 1], chain[..k] + branch + [c]);
  }

  /** The next block of a valid chain becomes known, whatever the node has done so far. */
  lemma HearOne(p: Params, t: State, chain: seq<Block>, ch: seq<Block>, n: nat, b: Block)
    requires Sound(p.h) && NoClash(p.h) && Inv(p, t, chain) && BlockRep(p.h, b) && Plain(p, b)
    requires Valid(p, ch) && MinedChain(p, ch) && 0 < n < |ch| && KnownTo(p.h, Known(p.h, t), ch, n) && Sent(p.h, b, ch[n])
    ensures BlockId(p.h, ch[n]) in Known(p.h, Commit(t, Submit(p, t, b, 1)))
  {
    hide BlockId, Valid, Known, Base, Best, BlockRep, Plain, Submit, NoClash, Sound, KnownTo, Leads, Acceptable, Placed, Meets;
    var m := Known(p.h, t);
    SubmitRefuses(p, t, chain, b, 1);
    if BlockId(p.h, b) in t.blocks {
      BlockKnown(p.h, t, BlockId(p.h, b));
    } else {
      SameParts(p.h, b, ch[n]);
      ValidLinked(p, ch);
      LinkedAt(p, ch, n);
      LinkedAt(p, ch, n - 1);
      KnownAt(p.h, m, ch, n, n - 1);
      HeardMeets(p, m, ch, n, b);
      PlacedParts(p, m, b);
      TipKnown(p, t, chain);
      var c := Placed(p, m, b);
      var k, branch := SubmitDecides(p, t, chain, b);
      var o := Submit(p, t, b, 1);
      if b.prev == BlockId(p.h, chain[|chain| - 1]) {
        TipAccepts(p, t, chain, ch, n, b);
        EndKnown(p, o.state, chain, c);
      } else if c.consensus.work <= t.tip.value.consensus.work {
        CandidateKnown(p.h, o.state, BlockId(p.h, b));
      } else {
        ForkAccepts(p, t, chain, ch, n, k, branch, c);
        EndKnown(p, o.state, chain[..k] + branch, c);
      }
    }
  }

  lemma BlockKnown(h: Hashes, t: State, id: Id)
    requires id in t.blocks
    ensures id in Known(h, t)
  {
  }

  lemma EndKnown(p: Params, t: State, chain: seq<Block>, c: Block)
    requires Sound(p.h) && Inv(p, t, chain + [c])
    ensures BlockId(p.h, c) in Known(p.h, t)
  {
    hide BlockId, Known, Base, Best, Sound;
    TipKnown(p, t, chain + [c]);
  }

  lemma HeardMeets(p: Params, m: Headers, ch: seq<Block>, n: nat, b: Block)
    requires Linked(p, ch) && MinedChain(p, ch) && 0 < n < |ch| && KnownTo(p.h, m, ch, n)
    requires Sent(p.h, b, ch[n]) && b.prev == BlockId(p.h, ch[n - 1])
    ensures Meets(p, m, b)
  {
    hide BlockId, Linked, Target, Ancestors, Heads, KnownTo;
    AncestorsAre(p, m, ch, n);
    MinedAt(p, ch, n);
  }

  // ---- whole runs ----

  /** How many blocks of the chain, from genesis on, have been sent in their order among `bs`. */
  ghost function Heard(h: Hashes, ch: seq<Block>, bs: seq<Block>): (n: nat)
    requires ch != []
    ensures 1 <= n <= |ch|
  {
    if bs == [] then 1 else
      var n := Heard(h, ch, bs[..|bs| - 1]);
      if n < |ch| && Sent(h, bs[|bs| - 1], ch[n]) then n + 1 else n
  }

  /** Any run of submissions in which the blocks of a valid, mined chain occur in order, other blocks
      between them or not: every block heard is known, and the tip has at least its work. */
  lemma {:induction false} Adopts(p: Params, t: State, start: seq<Block>, ch: seq<Block>, bs: seq<Block>) returns (chain: seq<Block>)
    requires Sound(p.h) && NoClash(p.h) && Inv(p, t, start) && Submittable(p, bs)
    requires Valid(p, ch) && MinedChain(p, ch) && ch != [] && start != [] && BlockId(p.h, ch[0]) == BlockId(p.h, start[0])
    requires KnownTo(p.h, Known(p.h, t), ch, 1)
    ensures var u, n := Run(p, t, bs), Heard(p.h, ch, bs);
            && Follows(p, t, u, chain)
            && KnownTo(p.h, Known(p.h, u), ch, n)
            && u.tip.Some? && ch[n - 1].consensus.work <= u.tip.value.consensus.work
  {
    hide Follows, Inv, Submit, Submittable, Commit, Valid, Known, KnownTo, MinedChain, BlockId, Sound, NoClash, Sent;
    if bs == [] {
      chain := start;
      FollowsSelf(p, t, start);
    } else {
      var front := bs[..|bs| - 1];
      LastSubmittable(p, bs);
      var before := Adopts(p, t, start, ch, front);
      chain := HearNext(p, t, start, ch, Run(p, t, front), before, Heard(p.h, ch, front), bs[|bs| - 1]);
    }
    HeaviestHeard(p, t, Run(p, t, bs), chain, ch, Heard(p.h, ch, bs));
  }

  lemma LastSubmittable(p: Params, bs: seq<Block>)
    requires Submittable(p, bs) && bs != []
    ensures Submittable(p, bs[..|bs| - 1]) && BlockRep(p.h, bs[|bs| - 1]) && Plain(p, bs[|bs| - 1])
  {
    hide BlockRep, Plain;
  }

  lemma HearNext(p: Params, t: State, start: seq<Block>, ch: seq<Block>, u: State, before: seq<Block>, n: nat, b: Block)
    returns (chain: seq<Block>)
    requires Sound(p.h) && NoClash(p.h) && Inv(p, t, start) && Follows(p, t, u, before) && BlockRep(p.h, b) && Plain(p, b)
    requires Valid(p, ch) && MinedChain(p, ch) && 0 < n <= |ch| && start != [] && BlockId(p.h, ch[0]) == BlockId(p.h, start[0])
    requires KnownTo(p.h, Known(p.h, u), ch, n)
    ensures var v := Commit(u, Submit(p, u, b, 1));
            && Follows(p, t, v, chain)
            && KnownTo(p.h, Known(p.h, v), ch, if n < |ch| && Sent(p.h, b, ch[n]) then n + 1 else n)
  {
    hide Follows, Inv, Submit, BlockRep, Plain, Commit, Valid, Known, KnownTo, MinedChain, BlockId, Sound, NoClash, Sent;
    var v := Commit(u, Submit(p, u, b, 1));
    chain := FollowsCommit(p, t, u, before, b);
    SubmitKeeps(p, t, u, before, b, v, ch, n);
    if n < |ch| && Sent(p.h, b, ch[n]) {
      FollowsInv(p, t, u, before);
      FollowsInv(p, t, v, chain);
      HearOne(p, u, before, ch, n, b);
      RunGenesis(p, t, start, v, chain);
      KnownNext(p, v, chain, ch, n);
    }
  }

  lemma FollowsInv(p: Params, t: State, u: State, chain: seq<Block>)
    requires Follows(p, t, u, chain)
    ensures Inv(p, u, chain) && Base(p, u, chain)
  {
    hide Known, Base, Best, Replay;
  }

  lemma RunGenesis(p: Params, t: State, start: seq<Block>, u: State, chain: seq<Block>)
    requires Sound(p.h) && Inv(p, t, start) && Follows(p, t, u, chain)
    ensures start != [] && chain != [] && BlockId(p.h, chain[0]) == BlockId(p.h, start[0])
  {
    hide Base, Best, Known, Replay, Sound, BlockId;
    BaseNonEmpty(p, t, start);
    BaseNonEmpty(p, u, chain);
    GenesisStays(p, t, start, u, chain);
  }

  /** A submission forgets no known header. */
  lemma SubmitKeeps(p: Params, t: State, u: State, chain: seq<Block>, b: Block, v: State, ch: seq<Block>, n: nat)
    requires Sound(p.h) && Follows(p, t, u, chain) && BlockRep(p.h, b) && Plain(p, b) && v == Commit(u, Submit(p, u, b, 1))
    requires KnownTo(p.h, Known(p.h, u), ch, n)
    ensures KnownTo(p.h, Known(p.h, v), ch, n)
  {
    hide Base, Best, BlockRep, Plain, Submit, Known, Replay, BlockId, Sound;
    var chain' := SubmitInv(p, u, chain, b);
  }

  lemma HeaviestHeard(p: Params, t: State, u: State, chain: seq<Block>, ch: seq<Block>, n: nat)
    requires Follows(p, t, u, chain) && KnownTo(p.h, Known(p.h, u), ch, n) && 0 < n
    ensures u.tip.Some? && ch[n - 1].consensus.work <= u.tip.value.consensus.work
  {
    hide Base, Known, Replay, BlockId;
    KnownAt(p.h, Known(p.h, u), ch, n, n - 1);
  }
}
