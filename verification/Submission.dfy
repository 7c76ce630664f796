/** Block submission as a state machine: verification, extension, side-chain saves and reorgs. */
module Submission {
  import opened Types
  import opened Ledger
  import opened Blocks
  import opened Kimoto
  import opened Tree

  /** The verdict on one input's signatures: rejected, accepted, or accepted by the
      pay-to-merkleroot public-key branch, which leaves the input loop. */
  datatype Signature = Bad | Good | Last

  /** What the ledger is built over: hashes, rewards, signature checks, contracts, fee sizes, the
      proof-of-work hash and the retargeting rules, all arbitrary. Claims about the public-key
      indexes are made where a `keyLength` is fixed. */
  datatype Params = Params(h: Hashes,
                           reward: nat -> nat,
                           signed: (DbOutput, Input, Tx) -> Signature,
                           aggregate: (seq<DbOutput>, Tx) -> bool,
                           contract: (Core, Tx) -> bool,
                           feeUnits: Tx -> nat,
                           pow: (Id, nat) -> int,
                           kgw: Rules,
                           keyLength: Option<nat>)

  // ---- verification ----

  function Add64(a: nat, b: nat): nat {
    (a + b) % U64
  }

  function Sub64(a: nat, b: nat): nat {
    (a - b) % U64
  }

  function OutputSum64(outs: seq<Output>): nat {
    if outs == [] then 0 else Add64(OutputSum64(outs[..|outs| - 1]), outs[|outs| - 1].value)
  }

  /** The input loop of `verifyTransaction` from input `i` on: the running total and the outputs
      looked at, or None where it rejects. */
  function ScanInputs(p: Params, c: Core, tx: Tx, i: nat, total: nat, seen: seq<DbOutput>): Option<(nat, seq<DbOutput>)>
    requires i <= |tx.inputs|
    decreases |tx.inputs| - i
  {
    if i == |tx.inputs| then Some((total, seen)) else
      var id := tx.inputs[i].outputId;
      if id !in c.utxos then None else
        var o := c.utxos[id];
        match p.signed(o, tx.inputs[i], tx)
        case Bad => None
        case Last => Some((Add64(total, o.output.value), seen + [o]))
        case Good => ScanInputs(p, c, tx, i + 1, Add64(total, o.output.value), seen + [o])
  }

  predicate Paid(p: Params, tx: Tx, inputs: nat, outputs: nat) {
    outputs <= inputs && p.feeUnits(tx) <= 2 * (inputs - outputs)
  }

  /** The checks on what the input loop collected. */
  predicate Endorsed(p: Params, tx: Tx, scan: Option<(nat, seq<DbOutput>)>, coinbase: bool) {
    && scan.Some?
    && p.aggregate(scan.value.1, tx)
    && (coinbase || Paid(p, tx, scan.value.0, OutputSum64(tx.outputs)))
  }

  /** `verifyTransaction`. Contract evaluation looks up every input again and throws on a missing
      one, which rejects the block. */
  predicate Verify(p: Params, c: Core, tx: Tx, coinbase: bool) {
    && TxId(p.h, tx) !in c.txs
    && (forall i :: 0 <= i < |tx.outputs| ==> p.h.output(tx.outputs[i]) !in c.utxos && p.h.output(tx.outputs[i]) !in c.stxos)
    && Endorsed(p, tx, ScanInputs(p, c, tx, 0, 0, []), coinbase)
    && (forall i :: 0 <= i < |tx.inputs| ==> tx.inputs[i].outputId in c.utxos)
    && p.contract(c, tx)
  }

  predicate VerifyAll(p: Params, c: Core, txs: seq<Tx>) {
    forall i :: 0 <= i < |txs| ==> Verify(p, c, txs[i], false)
  }

  /** `calculateTransactionFee`'s input total; a missing output would throw and counts nothing. */
  function InputSum64(c: Core, ins: seq<Input>): nat {
    if ins == [] then 0 else
      var i := ins[|ins| - 1];
      Add64(InputSum64(c, ins[..|ins| - 1]), if i.outputId in c.utxos then c.utxos[i.outputId].output.value else 0)
  }

  function Fee64(c: Core, tx: Tx): nat {
    Sub64(InputSum64(c, tx.inputs), OutputSum64(tx.outputs))
  }

  function Fees64(c: Core, txs: seq<Tx>): nat {
    if txs == [] then 0 else Add64(Fees64(c, txs[..|txs| - 1]), Fee64(c, txs[|txs| - 1]))
  }

  /** Everything `submitBlock` checks before confirming a block on the tip. */
  predicate Acceptable(p: Params, c: Core, b: Block, height: nat) {
    && VerifyAll(p, c, b.txs)
    && Verify(p, c, b.coinbase, true)
    && OutputSum64(b.coinbase.outputs) <= Add64(Fees64(c, b.txs), p.reward(height))
  }

  // ---- consensus ----

  function HeaderOf(row: DbBlock): Header {
    Header(row.prev, row.timestamp, row.height, row.consensus.target, row.consensus.work)
  }

  /** The headers `getBlockDB` can serve. */
  function Known(h: Hashes, t: State): Headers {
    map id | id in t.blocks.Keys + t.candidates.Keys :: HeaderOf(FindBlock(h, t, id).value)
  }

  /** `checkConsensusRules`: recompute target and total work, then test the proof of work. */
  function CheckRules(p: Params, t: State, b: Block, prev: DbBlock): Option<Block> {
    var target := Target(p.kgw, Ancestors(Known(p.h, t), b.prev));
    if target <= p.pow(BlockId(p.h, b), b.consensus.nonce) then None else
      Some(b.(consensus := Consensus(target, MAX_WORK - target + prev.consensus.work, b.consensus.nonce)))
  }

  // ---- submission ----

  /** Done: the verdict and the tables as the database transaction sees them. Stuck: an exception
      out of the submission, an empty block stack, or an endless loop. */
  datatype Outcome = Done(ok: bool, state: State) | Stuck

  function Extend(p: Params, t: State, b: Block, height: nat): (r: Outcome)
    ensures r.Done?
  {
    if Acceptable(p, t.core, b, height) then Done(true, Accept(p.h, t, b, height)) else Done(false, t)
  }

  function Save(p: Params, t: State, b: Block, height: nat): State {
    t.(candidates := t.candidates[BlockId(p.h, b) := b.(height := height)])
  }

  /** The candidates from `id` back to the fork, oldest first: `reorgChain`'s stack, top first.
      Heights fall by one at every step, so `n` steps with `n` the height of `id` always reach it. */
  function Branch(candidates: map<Id, Block>, id: Id, n: nat): seq<Block>
    decreases n
  {
    if n == 0 || id !in candidates then [] else Branch(candidates, candidates[id].prev, n - 1) + [candidates[id]]
  }

  /** Reverse blocks until `fork` is the tip. */
  function ReverseTo(h: Hashes, t: State, fork: Id): Option<State>
    decreases t.blocks.Keys
  {
    if t.tip.None? then None
    else if DbBlockId(h, t.tip.value) == fork then Some(t)
    else match Reverse(h, t)
      case None => None
      case Some(u) => if u.blocks.Keys < t.blocks.Keys then ReverseTo(h, u, fork) else None
  }

  /** `submitBlock`. The `depth` is how many nested reorgs are still allowed; one is enough. */
  function Submit(p: Params, t: State, b: Block, depth: nat): Outcome
    decreases depth, 2, 0
  {
    if BlockId(p.h, b) in t.blocks then Done(true, t) else
      match FindBlock(p.h, t, b.prev)
      case None => Done(false, t)
      case Some(prev) =>
        match CheckRules(p, t, b, prev)
        case None => Done(false, t)
        case Some(c) => Place(p, t, c, prev, depth)
  }

  /** The rest of `submitBlock`, once the consensus rules hold. */
  function Place(p: Params, t: State, b: Block, prev: DbBlock, depth: nat): Outcome
    decreases depth, 1, 0
  {
    if t.tip.None? then Stuck
    else if DbBlockId(p.h, prev) == DbBlockId(p.h, t.tip.value) then Extend(p, t, b, t.tip.value.height + 1)
    else if b.consensus.work <= t.tip.value.consensus.work then Done(true, Save(p, t, b, prev.height + 1))
    else if depth == 0 then Stuck
    else match Reorg(p, t, DbBlockId(p.h, prev), depth - 1)
      case Stuck => Stuck
      case Done(ok, u) =>
        if !ok || u.tip.None? then Done(false, u) else Extend(p, u, b, u.tip.value.height + 1)
  }

  /** `reorgChain` */
  function Reorg(p: Params, t: State, newTip: Id, depth: nat): Outcome
    decreases depth, 4, 0
  {
    var branch := Branch(t.candidates, newTip, if newTip in t.candidates then t.candidates[newTip].height else 0);
    if branch == [] then Stuck else
      match ReverseTo(p.h, t, branch[0].prev)
      case None => Stuck
      case Some(u) => Resubmit(p, u, branch, depth)
  }

  function Resubmit(p: Params, t: State, branch: seq<Block>, depth: nat): Outcome
    decreases depth, 3, |branch|
  {
    if branch == [] then Done(true, t) else
      match Submit(p, t, branch[0], depth)
      case Stuck => Stuck
      case Done(ok, u) => if ok then Resubmit(p, u, branch[1..], depth) else Done(false, u)
  }

  /** The committed database after a submission: a rejected one leaves no trace. */
  function Commit(t: State, o: Outcome): State {
    if o.Done? && o.ok then o.state else t
  }
}
