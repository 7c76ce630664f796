/** The values CryptoKernel moves around: outputs, inputs, transactions and blocks, together
    with their stored counterparts, and the rules their constructors enforce.

    A `std::set` ordered by id is a sequence without repeated ids. An id is the lower-case hex
    text of a hash; the hashes themselves are arbitrary functions, collected in `Hashes`. */
module Types {

  datatype Option<+T> = None | Some(value: T)

  /** An id, by its lower-case hex text. */
  datatype Id = Id(hex: string)

  const U64: nat := 0x1_0000_0000_0000_0000

  datatype Output = Output(value: nat, nonce: nat, key: Option<string>, rest: string)

  datatype Input = Input(outputId: Id, data: string)

  datatype Tx = Tx(inputs: seq<Input>, outputs: seq<Output>, timestamp: nat)

  datatype Consensus = Consensus(target: int, work: int, nonce: nat)

  datatype Data = Null | Object(text: string)

  datatype Block = Block(txs: seq<Tx>, coinbase: Tx, prev: Id, timestamp: nat,
                         consensus: Consensus, height: nat, data: Data)

  datatype DbOutput = DbOutput(output: Output, creationTx: Id)

  datatype DbTx = DbTx(inputs: seq<Id>, outputs: seq<Id>, confirmingBlock: Id,
                       coinbase: bool, timestamp: nat)

  datatype DbBlock = DbBlock(txs: seq<Id>, coinbase: Id, prev: Id, timestamp: nat,
                             consensus: Consensus, height: nat, data: Data)

  /** The four id hashes. A transaction hashes the ids of its parts, a block the ids of its
      transactions, so a stored row and the object it came from hash to the same id. */
  datatype Hashes = Hashes(output: Output -> Id,
                           input: Input -> Id,
                           tx: (seq<Id>, seq<Id>, nat) -> Id,
                           block: (seq<Id>, Id, Id, nat, Data) -> Id)

  /** What the ledger relies on from the hashes. Equal input ids spend the same output, a
      transaction without inputs never shares its id with one that has some, and a block id
      fixes the parent, the timestamp and the data. */
  ghost predicate Sound(h: Hashes) {
    && (forall i, j :: h.input(i) == h.input(j) ==> i.outputId == j.outputId)
    && (forall ins, os, t, os', t' :: ins != [] ==> h.tx(ins, os, t) != h.tx([], os', t'))
    && (forall ts, c, p, t, d, ts', c', p', t', d' ::
          h.block(ts, c, p, t, d) == h.block(ts', c', p', t', d') ==> p == p' && t == t' && d == d')
  }

  // ---- ids ----

  function SpentIds(ins: seq<Input>): (r: seq<Id>)
    ensures |r| == |ins|
  {
    seq(|ins|, i requires 0 <= i < |ins| => ins[i].outputId)
  }

  function InputIds(h: Hashes, ins: seq<Input>): (r: seq<Id>)
    ensures |r| == |ins|
  {
    seq(|ins|, i requires 0 <= i < |ins| => h.input(ins[i]))
  }

  function OutputIds(h: Hashes, outs: seq<Output>): (r: seq<Id>)
    ensures |r| == |outs|
  {
    seq(|outs|, i requires 0 <= i < |outs| => h.output(outs[i]))
  }

  function TxId(h: Hashes, tx: Tx): Id {
    h.tx(InputIds(h, tx.inputs), OutputIds(h, tx.outputs), tx.timestamp)
  }

  function TxIds(h: Hashes, txs: seq<Tx>): (r: seq<Id>)
    ensures |r| == |txs|
  {
    seq(|txs|, i requires 0 <= i < |txs| => TxId(h, txs[i]))
  }

  function BlockId(h: Hashes, b: Block): Id {
    h.block(TxIds(h, b.txs), TxId(h, b.coinbase), b.prev, b.timestamp, b.data)
  }

  function DbTxId(h: Hashes, t: DbTx): Id {
    h.tx(t.inputs, t.outputs, t.timestamp)
  }

  function DbBlockId(h: Hashes, b: DbBlock): Id {
    h.block(b.txs, b.coinbase, b.prev, b.timestamp, b.data)
  }

  function ToDbTx(h: Hashes, tx: Tx, confirmingBlock: Id, coinbase: bool): (r: DbTx)
    ensures DbTxId(h, r) == TxId(h, tx)
  {
    DbTx(InputIds(h, tx.inputs), OutputIds(h, tx.outputs), confirmingBlock, coinbase, tx.timestamp)
  }

  function ToDbBlock(h: Hashes, b: Block, height: nat): (r: DbBlock)
    ensures DbBlockId(h, r) == BlockId(h, b)
  {
    DbBlock(TxIds(h, b.txs), TxId(h, b.coinbase), b.prev, b.timestamp, b.consensus, height, b.data)
  }

  // ---- sequences as sets ----

  function ToSet<T>(s: seq<T>): set<T> {
    set x | x in s
  }

  predicate Distinct<T(==)>(s: seq<T>) {
    forall i, j :: 0 <= i < j < |s| ==> s[i] != s[j]
  }

  // ---- representation rules ----

  function OutputTotal(outs: seq<Output>): nat {
    if outs == [] then 0 else OutputTotal(outs[..|outs| - 1]) + outs[|outs| - 1].value
  }

  /** Every output a transaction consumes or creates. */
  function Claims(h: Hashes, tx: Tx): seq<Id> {
    SpentIds(tx.inputs) + OutputIds(h, tx.outputs)
  }

  function AllClaims(h: Hashes, txs: seq<Tx>): seq<Id> {
    if txs == [] then [] else AllClaims(h, txs[..|txs| - 1]) + Claims(h, txs[|txs| - 1])
  }

  function AllInputIds(h: Hashes, txs: seq<Tx>): seq<Id> {
    if txs == [] then [] else AllInputIds(h, txs[..|txs| - 1]) + InputIds(h, txs[|txs| - 1].inputs)
  }

  predicate GoodValue(o: Output) {
    1 <= o.value < U64
  }

  /** What `transaction::checkRep` establishes, byte sizes aside. */
  predicate TxRep(h: Hashes, tx: Tx, coinbase: bool) {
    && tx.outputs != []
    && (coinbase <==> tx.inputs == [])
    && (forall i :: 0 <= i < |tx.outputs| ==> GoodValue(tx.outputs[i]))
    && OutputTotal(tx.outputs) < U64
    && Distinct(Claims(h, tx))
  }

  /** What `block::checkRep` establishes, byte sizes aside; the block's transactions form a
      `std::set`, so their ids are distinct. */
  predicate BlockRep(h: Hashes, b: Block) {
    && (forall i :: 0 <= i < |b.txs| ==> TxRep(h, b.txs[i], false))
    && TxRep(h, b.coinbase, true)
    && Distinct(TxIds(h, b.txs))
    && Distinct(AllClaims(h, b.txs) + OutputIds(h, b.coinbase.outputs))
    && Distinct(AllInputIds(h, b.txs))
  }
}
