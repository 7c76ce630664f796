# CryptoKernel ledger, wallet and hash internals in Dafny

This project models the parts of CryptoKernel where a mistake would be hardest to see: the block
database with its reorganisations, the proof-of-work rules that drive them, the conservation of
value, the mempool, the wallet that follows the main chain, Merkle proofs, the key-value overlay
underneath, and the internals of the proof-of-work hash (Lyra2's row schedule, BLAKE-256's buffering,
Keccak's lane-complemented permutation). `dafny verify dfyconfig.toml` checks all of it.

## How it is built

A database state is a value (`Blocks.State`), and every operation of the block database is a function
on such values (`Submission`). The theorems are lemmas about those functions. Where the C++ code
works by changing tables and arrays in place, a class with the same fields and methods does so too
(`Database.Blockchain`, `Mempool.Transactions`, `Wallet.Book`, `Storage.Transaction`, `Blake.Hasher`,
`Keccak.Permutation`, `Sponge.Context`), and each method is proved against the function or against the
property itself.

- `Types`, `Texts`, `Ledger`, `Blocks`, `Steps`: transactions and their ids, the four transaction
  tables, blocks, and the statement-by-statement form of confirming and undoing.
- `Reversal`, `Index`, `Ordering`, `Supply`: exact undo, the public-key indexes, order independence,
  conservation of value.
- `Kimoto`, `Retarget`, `Tree`, `Submission`, `Chain`, `Runs`: targets, the tree of known headers,
  submission with fork choice and reorganisation, and invariants over whole runs.
- `Verdicts`, `Choice`, `Adoption`, `Provenance`: exactly which transactions, blocks and forks are
  accepted, that a heavier valid chain is adopted, and what every row of the tables stands for.
- `Storage`, `Persist`, `Blockchain` (module `Database`), `Rep`, `Queries`, `Mempool`: the imperative
  side. `Persist` says where each row of the tables is kept in the store; every method of `Database`
  that writes a row writes it through the open database transaction.
- `Archive`, `Wallet`, `Pooling`: what the tables keep of everything confirmed, the wallet that follows
  the main chain, and the pool across a reorganisation.
- `Merkle`, `Lyra2`, `Buffering`, `Blake`, `PaddedBits`, `Constants`, `Keccak`, `Sponge`, `Base64`.

## Assumptions

- Ids are arbitrary functions of the hashed parts (`Types.Hashes`). The ledger theorems need only
  `Types.Sound`: equal input ids spend the same output, a transaction without inputs never shares its
  id with one that has some, and a block id fixes the parent, the timestamp and the data field. The
  wallet theorems also need `Archive.NoClash`: no two different things share an id. The tip's row is
  kept among the blocks under the key "tip", so `Database` needs `Persist.NoTipId`: no block id is that
  text. Ids are unbounded texts here, and `Texts.AssumptionsMet` gives functions that meet all three.
  `Merkle.Injective` is needed for positions in Merkle proofs only.
- Signatures, aggregate signatures, contracts, the proof-of-work hash, the block reward, byte fees and
  the floating-point event-horizon test are arbitrary functions in `Submission.Params` and
  `Kimoto.Rules`; every theorem holds for all of them. `Ordering` alone asks that contract verdicts do
  not depend on the tables.
- A row's JSON is an arbitrary function of the row (`Persist.Codec`), and reading the rows of a state
  gives that state back (`Persist.Reads`). `Persist.ReadableReads` shows that this asks no more than
  that different rows have different JSON.
- A `std::set` ordered by id is a sequence without repeated ids. Exceptions are `None`, `Stuck`,
  `NotFound`-style booleans, and where an exception would escape, the contract says that it does not.
- `Submission.Submit` takes a depth for nested reorganisations, and `Submission.Branch` a number of
  steps. Neither shrinks a claim: running out would be `Stuck`, and `Runs.NeverStuck` proves that the
  depth and steps used are always enough.

## Findings

- Reversing the tip drops its `data` field, because `buildBlock` does not pass it on. The reversal is
  exact if and only if that field is null (`Reversal.ReverseExactIffNoData`). Otherwise the block's own
  row stays in the block table, though it is no longer on the main chain, and a copy without data is
  filed as a candidate under that copy's id (`Reversal.ReverseData`, with `Reversal.DataLost` as an
  instance for any hashes). The run theorems are about blocks with null data.
- The pool of unconfirmed transactions is not part of the database transaction. A reorganisation that
  takes blocks off and then fails puts the database back and leaves their transactions pooled, though
  they are confirmed. After one block was taken off, every pooled transaction still verifies if and only
  if that block carried none (`Pooling.StaleIff`, with `Pooling.StaleExample` as an instance); after any
  number of blocks, the pooled transactions that fail are exactly the confirmed ones
  (`Pooling.Rewind`). The rescan after the next accepted block drops them.
- An extracted Merkle proof leaves out the top node's position bit. It evaluates to the root if and
  only if the element is in the left half or the pair hash does not see the order at the top
  (`Merkle.RoundTripIff`, with `Merkle.RoundTripFails` as an instance). On a tree paired with itself
  it always does.
- Lyra2's setup loop fills row 2 before it looks at the row count, so it stays inside the matrix if and
  only if there are at least three rows (`Lyra2.SetupInRangeIff`).
- A wandering pass of Lyra2 over 2^k rows visits every row once unless there are exactly two rows and
  the pass is odd (`Lyra2.WanderVisitsAllIff`). With two rows the setup has left the matrix before that.
- A blank in a public-key file repeats the digit before it instead of being skipped. The digits of a
  readable file are the ones it spells if and only if no blank stands before the first `=`
  (`Base64.SkipsBlanksIff`). The key loaded is the one spelled if and only if there is no such blank, or
  exactly one, every digit after it equals the one before it, and the digits fill whole groups of four
  (`Base64.LoadsSpelledKeyIff`). `Base64.BlankMisread` is an instance. `savePublicKey` writes no blanks.

## Model

| member | source | states |
|---|---|---|
| `Rep.CheckTransaction` | src/kernel/blockchaintypes.cpp:224-267 | The counting loops accept a transaction exactly when its claims are distinct, it has outputs, it has inputs unless it is a coinbase, every value is positive and the total fits in 64 bits. |
| `Rep.CheckBlockConflicts` | src/kernel/blockchaintypes.cpp:528-595 | The conflict loops accept a block's transactions exactly when all claims and all input ids are distinct. |
| `Blocks.BlockApart` | src/kernel/blockchaintypes.cpp:528-595 | A block that passes the tests holds no two transactions that share an output, an input or an id, and none that spends another's output. |
| `Ledger.ConfirmCoherent` | src/kernel/blockchain.cpp:721-766 | Confirming keeps rows under their own ids, spent and unspent disjoint, and every recorded input pointing at a spent output. |
| `Ledger.UndoConfirm` | src/kernel/blockchain.cpp:721-761 | Undoing a transaction that was just confirmed restores all four tables. |
| `Ledger.ConfirmsCommute` | src/kernel/blockchain.cpp:721-761 | Two unrelated transactions give the same tables in either order. |
| `Ledger.FitsAfter` | src/kernel/blockchain.cpp:245-272 | Confirming one transaction does not change whether an unrelated one passes the existence checks. |
| `Steps.ConfirmSteps` | src/kernel/blockchain.cpp:728-761 | The input loop followed by the output loop, row by row and index string by index string, is the one-step confirmation. |
| `Steps.UndoSteps` | src/kernel/blockchain.cpp:924-960 | The erasing loop followed by the restoring loop is the one-step undo. |
| `Reversal.CoreBlockRecords` | src/kernel/blockchain.cpp:687-693 | After a block is confirmed every piece of it can be found again in the tables. |
| `Reversal.RebuildAccepted` | src/kernel/blockchain.cpp:144-164 | A confirmed block is rebuilt from its rows, apart from its data field. |
| `Reversal.CoreBlockUndo` | src/kernel/blockchain.cpp:921-960 | Undoing a block's transactions front to back, coinbase first, restores the tables it was confirmed on. |
| `Reversal.ReverseNull` | src/kernel/blockchain.cpp:921-975 | With null data, reversing the accepted tip restores every table and moves the block to the candidates with height and consensus data intact. |
| `Reversal.ReverseData` | src/kernel/blockchain.cpp:144-164 | Reversing a block with a data field succeeds unless the copy without data would be its own parent; the copy is filed as a candidate under its own, different id, and the row of the block itself stays in the block table. |
| `Reversal.DataLost` | src/kernel/blockchain.cpp:144-164 | For any hashes, a block with data on a one-block database that is accepted, reversed and not restored. |
| `Reversal.ReverseExactIffNoData` | src/kernel/blockchain.cpp:921-975 | Reversal is an exact undo if and only if the data field is null. |
| `Index.AcceptExact` | src/kernel/blockchain.cpp:728-757 | Accepting a block keeps both public-key indexes equal to the strings of their tables. |
| `Index.ReverseExact` | src/kernel/blockchain.cpp:924-960 | Reversing the tip restores the whole database, indexes included. |
| `Index.ScanIsFilter` | src/kernel/blockchain.cpp:891-919 | With keys of one length a prefix scan of an index returns exactly the outputs paid to that key. |
| `Ordering.VerdictUnmoved` | src/kernel/blockchain.cpp:238-513 | Confirming an unrelated transaction does not change another's verdict. |
| `Ordering.AnyOrder` | src/kernel/blockchain.cpp:687-693 | The tables do not depend on the order in which a block's transactions are confirmed. |
| `Ordering.BlockAnyOrder` | src/kernel/blockchain.cpp:637-693 | Verifying everything before confirming anything gives the verdict and tables of verifying and confirming one at a time in any order. |
| `Kimoto.ScanBetween` | src/kernel/consensus/PoW.cpp:227-275 | For any stopping decisions the truncated running average lies between the targets of two blocks that were scanned. |
| `Kimoto.AverageNearMean` | src/kernel/consensus/PoW.cpp:234-243 | The truncated running average of n targets is within (n-1)/2 of their exact mean. |
| `Kimoto.ScanAverages` | src/kernel/consensus/PoW.cpp:227-275 | The scan's result is the running average of exactly the blocks it visited. |
| `Kimoto.TargetRange` | src/kernel/consensus/PoW.cpp:200-294 | A computed target lies between zero and the minimum difficulty when the ancestors' targets do. |
| `Retarget.TargetExact` | src/kernel/consensus/PoW.cpp:216-291 | On a retarget the scan ends at the first count at which it may, and the target is the average of the blocks scanned times the seconds they took over the seconds they should have taken, rounded down, or the floor if that is less; without elapsed time it is the average. |
| `Retarget.AverageStep` | src/kernel/consensus/PoW.cpp:234-243 | Each block moves the average towards its target by its share of the difference, rounded towards the old average. |
| `Retarget.TargetKept` | src/kernel/consensus/PoW.cpp:212-215 | Below height 144 the target is the floor, and off the period of twelve it is the parent's. |
| `Retarget.SlowerIsEasier` | src/kernel/consensus/PoW.cpp:279-291 | Of two histories with the same average over as many blocks, the one that took longer gets the higher target. |
| `Tree.Grow` | src/kernel/consensus/PoW.cpp:141-163 | Adding a block with the computed target and work keeps the tree of known headers rooted and correctly mined. |
| `Tree.TargetLegal` | src/kernel/consensus/PoW.cpp:200-294 | In such a tree every non-genesis target is legal. |
| `Tree.WorkGrows` | src/kernel/consensus/PoW.cpp:154-159 | Total work strictly increases from parent to child. |
| `Chain.VerifyFits` | src/kernel/blockchain.cpp:245-272 | A verified transaction passes the existence checks the tables rely on. |
| `Chain.ReplayCoherent` | src/kernel/blockchain.cpp:560-719 | The replay of a valid chain has coherent tables. |
| `Chain.ReplayTables` | src/kernel/blockchain.cpp:695-705 | After a replay the block table, height index and tip hold that chain and nothing else. |
| `Chain.ExtendBase` | src/kernel/blockchain.cpp:634-705 | Confirming a checked block on the tip keeps the database the replay of its chain and the header tree correct. |
| `Chain.ReverseBase` | src/kernel/blockchain.cpp:921-975 | Reversing the tip keeps the database the replay of the shorter chain, with the block known as a candidate. |
| `Runs.BranchPath` | src/kernel/blockchain.cpp:772-779 | The candidate walk ends on a main-chain block after finitely many steps. |
| `Runs.ReverseToBase` | src/kernel/blockchain.cpp:781-785 | The reverse loop terminates at the fork block and keeps the invariant. |
| `Runs.ResubmitBase` | src/kernel/blockchain.cpp:787-798 | Resubmitting the branch never reorganises again and keeps the invariant or rejects. |
| `Runs.ReorgBase` | src/kernel/blockchain.cpp:768-799 | A reorganisation that succeeds leaves the replay of the old chain cut at the fork followed by the branch of candidates, both named exactly. |
| `Runs.SiblingCannotWin` | src/kernel/blockchain.cpp:604-624 | A child of a main-chain block below the tip never beats the tip, so the block stack of a reorganisation is never empty. |
| `Runs.TipChildWins` | src/kernel/blockchain.cpp:597-603 | A child of the tip always has more work than the tip. |
| `Runs.SubmitInv` | src/kernel/blockchain.cpp:560-719 | A submission never gets stuck, and when it succeeds the database is again the replay of a chain that no known block outweighs, no known header is lost, and the tip is unchanged or heavier. |
| `Runs.GenesisInv` | src/kernel/blockchain.cpp:49-99 | Loading the genesis block establishes the invariant. |
| `Runs.RunInv` | src/kernel/blockchain.cpp:524-799 | After every run of submissions the tables are the replay of the main chain, the tip has the most work of all known blocks, and neither work nor known headers ever decrease. |
| `Runs.EveryRun` | src/kernel/blockchain.cpp:49-799 | From a loaded genesis block on, after every run of submissions the database is the replay of a chain that starts with that block, no known block outweighs the tip, and neither work nor known headers ever decrease. |
| `Runs.EveryBlockMined` | src/kernel/consensus/PoW.cpp:141-167 | After every run from genesis each known block but genesis, on the main chain or beside it, carries the target its ancestors dictate and has a proof-of-work hash below it. |
| `Runs.GenesisStays` | src/kernel/blockchain.cpp:49-99 | The genesis block never changes while the known headers grow. |
| `Runs.NeverStuck` | src/kernel/blockchain.cpp:604-624 | After any run the next submission returns a verdict: no unbounded recursion, no empty stack, no missing block. |
| `Choice.SubmitRefuses` | src/kernel/blockchain.cpp:564-602 | A block already on the main chain is accepted and changes nothing; one without a known parent, or whose hash is not below the target its ancestors dictate, is refused and changes nothing. |
| `Choice.SubmitDecides` | src/kernel/blockchain.cpp:604-705 | Any other block: on the tip it is accepted if and only if it passes the checks there; elsewhere with no more work than the tip it is filed as a candidate with the header of its place; with more work it is accepted if and only if the main chain cut at the fork, the branch and the block are a valid chain, which then is the main chain. |
| `Choice.ReorgIff` | src/kernel/blockchain.cpp:768-799 | A reorganisation succeeds if and only if the main chain cut at the fork and the branch of candidates are a valid chain. |
| `Adoption.ValidById` | src/kernel/blockchain.cpp:634-705 | A chain of well-formed blocks that ends in the last block of a valid chain, by id, is valid and has the same tables. |
| `Adoption.HearOne` | src/kernel/blockchain.cpp:560-719 | The next block of a valid, mined chain becomes known whatever the node has done so far. |
| `Adoption.Adopts` | src/kernel/blockchain.cpp:524-799 | In any run in which the blocks of a valid, mined chain are submitted in order, other blocks between them or not, every block heard is known with its own header and the tip has at least its work. |
| `Supply.VerifiedPays` | src/kernel/blockchain.cpp:484-496 | When totals fit in 64 bits a verified transaction's inputs cover its outputs exactly. |
| `Supply.FeesExact` | src/kernel/blockchain.cpp:815-830 | Fees computed in 64 bits are the true fees when the unspent total fits. |
| `Supply.BlockSupply` | src/kernel/blockchain.cpp:659-679 | An accepted block raises the unspent total by at most its reward. |
| `Supply.ChainSupply` | src/kernel/blockchain.cpp:659-679 | If the rewards up to any height sum to less than 2^64, the unspent outputs of every valid chain total at most its rewards. |
| `Supply.NoTotalWraps` | src/kernel/blockchain.cpp:245-281 | Under that bound, for every well-formed transaction on a reachable database, whether or not it verifies, the input totals, the output total and the running total of the verification loop do not wrap. |
| `Supply.NothingWraps` | src/kernel/blockchain.cpp:637-679 | For a block whose transactions verify on a reachable database, every fee, the fee total, the coinbase limit and the coinbase total are exact as well. |
| `Verdicts.VerifyIff` | src/kernel/blockchain.cpp:238-513 | A transaction verifies if and only if its id and outputs are new, its inputs are unspent, the inputs looked at are signed (all of them, or those up to the first one that ends the looking), the aggregate and the contract hold, and, unless it is a coinbase, their 64-bit total covers the outputs and half the fee units. |
| `Verdicts.NoBadInput` | src/kernel/blockchain.cpp:264-470 | No verified transaction has a badly signed input before the first one that ends the looking. |
| `Verdicts.AcceptableIff` | src/kernel/blockchain.cpp:637-685 | A block passes if and only if its transactions and its coinbase verify and the coinbase pays out no more than fees and reward, modulo 2^64. |
| `Provenance.ReplayLogged` | src/kernel/blockchain.cpp:721-761 | The tables of a valid chain: each confirmed transaction with its block and whether it is that block's coinbase, spent outputs exactly those a confirmed transaction spends, unspent ones exactly those made and not spent, each with the transaction that made it, and no other rows. |
| `Database.Blockchain.VerifyTransaction` | src/kernel/blockchain.cpp:238-513 | The early-exit loops decide exactly what `Verdicts.VerifyIff` describes. |
| `Database.Blockchain.CalculateTransactionFee` | src/kernel/blockchain.cpp:815-830 | The loops compute the wrapped input total minus the wrapped output total. |
| `Database.Blockchain.CheckBlock` | src/kernel/blockchain.cpp:637-685 | Transaction verdicts, fees and the coinbase amount decide exactly what `Verdicts.AcceptableIff` describes. |
| `Database.Blockchain.ConfirmTransaction` | src/kernel/blockchain.cpp:721-766 | Moving rows one at a time is the one-step confirmation on all tables and indexes, and what a reader of the open transaction sees stays the rows of the tables. |
| `Database.Blockchain.AcceptBlock` | src/kernel/blockchain.cpp:687-705 | The new state is the accepted block on the old state. |
| `Database.Blockchain.GetTransaction` | src/kernel/blockchain.cpp:999-1019 | Reading the pieces back gives the rebuilt transaction, or not found. |
| `Database.Blockchain.BuildBlock` | src/kernel/blockchain.cpp:144-164 | Reading the pieces back gives the rebuilt block, the candidate, or not found. |
| `Database.Blockchain.UndoTransaction` | src/kernel/blockchain.cpp:924-960 | Moving rows back one at a time is the one-step undo on all tables and indexes. |
| `Database.Blockchain.ReverseBlock` | src/kernel/blockchain.cpp:921-975 | The in-place reversal never fails on a reachable state and gives the specified state. |
| `Database.Blockchain.CalculateTarget` | src/kernel/consensus/PoW.cpp:200-294 | Walking parents with running averages computes the target that `Retarget` describes, and always ends. |
| `Database.Blockchain.CheckConsensusRules` | src/kernel/consensus/PoW.cpp:141-167 | The header written into the block is the recomputed one, or the block is refused. |
| `Database.Blockchain.ReorgChain` | src/kernel/blockchain.cpp:768-799 | Stack, reverse loop and resubmission compute the specified reorganisation. |
| `Database.Blockchain.LoadGenesis` | src/kernel/blockchain.cpp:49-99 | The object starts in a state that satisfies the invariant and that the store holds; a refused genesis block leaves the store empty. |
| `Database.Blockchain.SubmitBlock` | src/kernel/blockchain.cpp:524-719 | Every call gives the verdict that `Choice` describes, keeps the database the replay of a chain that no known block outweighs and the store the rows of the database; when the transaction of a rejected block is aborted, even after a half-done reorganisation, the store still holds the rows of before the call. |
| `Mempool.InsertValid` | src/kernel/blockchain.cpp:1036-1072 | Insertion keeps the claim maps the disjoint union of the pooled transactions' claims and the byte count their total modulo 2^32. |
| `Mempool.RemoveValid` | src/kernel/blockchain.cpp:1074-1089 | So does removal. |
| `Mempool.RemoveInserted` | src/kernel/blockchain.cpp:1036-1089 | Inserting and then removing a transaction gives back the pool. |
| `Mempool.PickedDistinct` | src/kernel/blockchain.cpp:1105-1120 | Any distinct pooled transactions together pass the duplicate tests of a block. |
| `Mempool.Transactions.Insert` | src/kernel/blockchain.cpp:1036-1072 | Conflicts are refused and leave the pool alone; otherwise the pool is the specified one. |
| `Mempool.Transactions.Remove` | src/kernel/blockchain.cpp:1074-1089 | The claims of the removed transaction, and no others, are released. |
| `Mempool.Transactions.Rescan` | src/kernel/blockchain.cpp:1091-1103 | Exactly the transactions that still verify stay. |
| `Mempool.Transactions.GetTransactions` | src/kernel/blockchain.cpp:1105-1120 | The selection is the longest prefix in id order below the size limit, and passes the non-coinbase duplicate tests of a block. |
| `Pooling.BothWaysApart` | src/kernel/blockchain.cpp:977-986 | A pooled transaction that verifies both with and without the tip shares no output, input or id with any transaction of the tip. |
| `Pooling.ReverseTip` | src/kernel/blockchain.cpp:977-986 | Rescanning and submitting again puts every transaction of the reversed tip into the pool, beside exactly those that verify without it. |
| `Pooling.StaleIff` | src/kernel/blockchain.cpp:524-531 | Once the tip is off, the pool suits the tables without it; on the tables with it exactly the tip's own transactions fail, so the pool suits those tables if and only if the tip carried none. |
| `Pooling.StaleExample` | src/kernel/blockchain.cpp:977-986 | For any hashes without clashes, a block with one payment whose reversal leaves a pooled transaction that fails once the block is back. |
| `Pooling.Rewind` | src/kernel/blockchain.cpp:781-798 | After any number of reversals the pool suits the tables at the fork; if the database then goes back, the pooled transactions that fail are exactly the confirmed ones, those of the last block taken off among them. |
| `Pooling.ConfirmedAreStale` | src/kernel/blockchain.cpp:787-798 | So they are when blocks of the branch were accepted and rescanned the pool before the failure. |
| `Queries.UnspentOutputs` | src/kernel/blockchain.cpp:891-904 | In every reachable state the query returns exactly the unspent outputs of the main chain that pay the key. |
| `Queries.SpentOutputs` | src/kernel/blockchain.cpp:906-919 | Likewise for spent outputs. |
| `Storage.Transaction.Put` | src/kernel/storage.cpp:197-200 | The reader's view is the base with every operation so far applied in order. |
| `Storage.Transaction.Erase` | src/kernel/storage.cpp:202-204 | The key disappears from the view and nothing else changes. |
| `Storage.Transaction.Get` | src/kernel/storage.cpp:206-221 | Reads what a plain map would hold after the same operations. |
| `Storage.Transaction.Commit` | src/kernel/storage.cpp:163-188 | The committed rows become exactly the view; a finished transaction changes nothing. |
| `Storage.Transaction.Abort` | src/kernel/storage.cpp:190-195 | The rows stay as they were and the write lock is released. |
| `Storage.KeysApart` | src/kernel/storage.cpp:227-230 | A key of one table or index starts with the prefix of another only if they are the same table and index and the keys start alike. |
| `Storage.DecimalSpells` | src/kernel/storage.cpp:227-230 | Indexes and heights are written as the decimal digits that spell them. |
| `Storage.Scan` | src/kernel/storage.cpp:278-296 | Seeking the prefix and reading on yields exactly the keys with that prefix, each once. |
| `Storage.PrefixBetween` | src/kernel/storage.cpp:278-288 | In byte order the keys with a prefix are contiguous. |
| `Persist.KeyOfInjective` | src/kernel/blockchain.cpp:35-47 | No two rows of the ledger's tables and indexes share a key of the store, the tip's row among the blocks included. |
| `Persist.KeysAre` | src/kernel/blockchain.cpp:35-47 | The key of every row: its table, the index, and the id, height or public-key text. |
| `Persist.ChangeHolds` | src/kernel/storage.cpp:232-240 | Putting or erasing one row in the store is that put or erase on the tables, and touches no other row. |
| `Persist.HoldsOne` | src/kernel/storage.cpp:227-245 | The rows of the store determine every table and index. |
| `Persist.ReadableReads` | src/kernel/storage.cpp:242-245 | If different rows have different JSON, what the store holds can be read back. |
| `Persist.SpendWrites` | src/kernel/blockchain.cpp:728-746 | The five writes for one input, in their order, are the one-step spending of it. |
| `Persist.RestoreWrites` | src/kernel/blockchain.cpp:947-961 | The writes that give one output back, in their order, are the one-step restoring of it. |
| `Database.Blockchain.Write` | src/kernel/storage.cpp:197-204 | One put or erase keeps what a reader of the open transaction sees equal to the rows of the tables. |
| `Archive.SameParts` | src/kernel/blockchaintypes.cpp:514-526 | Without hash clashes a block id fixes transactions, coinbase and parent. |
| `Texts.AssumptionsMet` | src/kernel/blockchaintypes.cpp:269-285 | There are id functions that meet every assumption made of ids. |
| `Archive.BuiltBlock` | src/kernel/blockchain.cpp:144-164 | Whatever block is returned for an id has that id. |
| `Archive.MainBlock` | src/kernel/blockchain.cpp:144-182 | Every block of the main chain can be rebuilt, by its height. |
| `Archive.KnownHeight` | src/kernel/consensus/PoW.cpp:141-163 | A block of another chain from the same genesis has, while it is known, the height it had there. |
| `Wallet.MirrorUnique` | src/client/wallet.cpp:303-349 | Utxos and balances are determined by the chain's unspent outputs, so a rewound wallet and one rescanned from genesis agree. |
| `Wallet.TakeMirror` | src/client/wallet.cpp:361-372 | Taking one of the wallet's outputs keeps utxos and every balance in step with the chain. |
| `Wallet.GiveMirror` | src/client/wallet.cpp:376-395 | So does crediting an output, whoever owns it. |
| `Wallet.RelevantIff` | src/client/wallet.cpp:352-401 | A transaction is remembered as relevant if and only if it changes which outputs the wallet holds. |
| `Wallet.Book.DigestTx` | src/client/wallet.cpp:352-401 | The wallet's view moves from before the transaction to after it, an unconfirmed one changes no money, relevant ones are remembered, and no exception escapes. |
| `Wallet.Book.RewindTx` | src/client/wallet.cpp:235-270 | The view moves back to before the transaction unless the chain no longer has one of the outputs. |
| `Wallet.Book.DigestBlock` | src/client/wallet.cpp:403-426 | In any order of its transactions the block takes the wallet from one prefix of the main chain to the next. |
| `Wallet.Book.RewindBlock` | src/client/wallet.cpp:273-301 | In any order of its transactions the wallet goes back to the chain without its last block, with that chain's tip and height, or reports not found, as it does for a block the node does not know. |
| `Wallet.Book.ClearDb` | src/client/wallet.cpp:303-349 | The wallet becomes the view of the empty chain over the same accounts. |
| `Wallet.Book.Rewind` | src/client/wallet.cpp:182-209 | The fork loop ends, with the wallet on a prefix of the main chain; a wallet of another genesis is cleared. |
| `Wallet.Book.Pass` | src/client/wallet.cpp:169-233 | A pass ends at the tip of the main chain: the utxos are exactly the chain's unspent outputs paying the wallet's keys, every balance is the 64-bit sum of its account's utxos, and no other balances and utxos would do. |
| `Wallet.Book.Rescan` | src/client/wallet.cpp:182-220 | Clearing and scanning from genesis gives the very balances and utxos that a pass with rewinds gives. |
| `Wallet.Book.Follow` | src/client/wallet.cpp:169-233 | Over any interleaving of submitted blocks and passes the wallet stays the view of a chain with the node's genesis, and after every pass it is exactly the view of the main chain of that moment. |
| `Merkle.PairLevel` | src/kernel/merkletree.cpp:91-106 | The queue loop pairs neighbours and an odd last item with itself. |
| `Merkle.MakeTree` | src/kernel/merkletree.cpp:86-130 | Level by level the loops build the specified tree. |
| `Merkle.TreeCovers` | src/kernel/merkletree.cpp:86-130 | The built tree has one depth, and its leaves from left to right start with the given ones. |
| `Merkle.RootIs` | src/kernel/merkletree.cpp:86-130 | The root is what hashing neighbours in order, an odd last one with itself, gives level by level. |
| `Merkle.FoundIffLeaf` | src/kernel/merkletree.cpp:132-144 | A non-zero needle is found exactly when it is a leaf. |
| `Merkle.MakeProof` | src/kernel/merkletree.cpp:146-165 | The ancestor loop extracts the specified siblings and position bits. |
| `Merkle.TreeFromProof` | src/kernel/merkletree.cpp:167-200 | The tree built from a proof has the root that climbing the proof gives, for any position, and an empty proof is refused. |
| `Merkle.RoundTripIff` | src/kernel/merkletree.cpp:146-200 | A proof exists exactly for members, and evaluates to the root exactly when the member is in the left half or the hash ignores the order at the top. |
| `Merkle.RoundTripFails` | src/kernel/merkletree.cpp:157-158 | A two-leaf tree whose proof for the right leaf does not evaluate to the root. |
| `Merkle.WrappedRoundTrip` | src/kernel/merkletree.cpp:38-41 | On a tree paired with itself every member's proof evaluates to the root, for any pair hash. |
| `Merkle.WrappedPosition` | src/kernel/merkletree.cpp:146-165 | There, under an injective pair hash, the recorded position is the member's index among the leaves. |
| `Lyra2.Setup` | src/kernel/consensus/Lyra2REv2/Lyra2.c:145-164 | For any row count the schedule loop performs the specified steps, and at least one. |
| `Lyra2.SetupInRangeIff` | src/kernel/consensus/Lyra2REv2/Lyra2.c:145-164 | The steps stay inside the matrix if and only if it has at least three rows. |
| `Lyra2.RowsApart` | src/kernel/consensus/Lyra2REv2/Lyra2.c:145-164 | In every setup step the rows read and written are in range and pairwise different. |
| `Lyra2.WindowVisitsAll` | src/kernel/consensus/Lyra2REv2/Lyra2.c:145-164 | Each window of size w revisits rows 0 to w-1 exactly once. |
| `Lyra2.FirstRows` | src/kernel/consensus/Lyra2REv2/Lyra2.c:145-164 | The rows revisited in the first three windows. |
| `Lyra2.Wander` | src/kernel/consensus/Lyra2REv2/Lyra2.c:168-192 | A pass ends, and visits the rows of its stride. |
| `Lyra2.PassRows` | src/kernel/consensus/Lyra2REv2/Lyra2.c:168-192 | An even pass goes down from the top row; an odd one goes on by one less than half the rows each time. |
| `Lyra2.WanderVisitsAllIff` | src/kernel/consensus/Lyra2REv2/Lyra2.c:168-192 | A pass over 2^k rows visits each row exactly once unless there are two rows and the pass is odd. |
| `Buffering.AbsorbSplit` | src/kernel/consensus/Lyra2REv2/sha3/blake.c:800-836 | How input is cut into update calls does not matter, for any block step. |
| `Blake.StepCounts` | src/kernel/consensus/Lyra2REv2/sha3/blake.c:826-829 | The carry between the counter words is exact: every block adds 512 to the 64-bit counter. |
| `Blake.AbsorbFresh` | src/kernel/consensus/Lyra2REv2/sha3/blake.c:790-836 | Any input leaves the fold of its whole blocks with counters 512 times the block number, and the bytes after them. |
| `Blake.PresetExact` | src/kernel/consensus/Lyra2REv2/sha3/blake.c:857-867 | The wrapped presets make the closing compression see the exact message bit count, or zero for a padding-only block. |
| `Blake.PaddedLength` | src/kernel/consensus/Lyra2REv2/sha3/blake.c:868-885 | The padded message has the fewest blocks that hold the message, its two marks and the length. |
| `PaddedBits.PaddedIs` | src/kernel/consensus/Lyra2REv2/sha3/blake.c:850-884 | The padded message, bit by bit: the message bits, a one, zeros, a last bit that is one for the 256-bit variant, and the message's bit count modulo 2^64 as a big-endian number. |
| `PaddedBits.EncodedIs` | src/kernel/consensus/Lyra2REv2/sha3/blake.c:886-888 | Each word of the digest is written as four bytes that spell it, the highest first. |
| `Blake.DigestCloses` | src/kernel/consensus/Lyra2REv2/sha3/blake.c:838-889 | One closing block or two give the reference digest of the padded message. |
| `Blake.Hasher.Update` | src/kernel/consensus/Lyra2REv2/sha3/blake.c:800-836 | After any calls the context is that of one call with everything fed. |
| `Blake.Hasher.Close` | src/kernel/consensus/Lyra2REv2/sha3/blake.c:838-889 | The bytes of the fold over the padded message, each block with the count of message bits up to its end or zero, for any bit length. |
| `Keccak.ThetaIs` | src/kernel/consensus/Lyra2REv2/sha3/keccak.c:958-1014 | The reordered column sums are theta. |
| `Keccak.ThetaFlip` | src/kernel/consensus/Lyra2REv2/sha3/keccak.c:974-1014 | Theta turns the mask between rounds into the mask before rho. |
| `Keccak.KhiRowFlip` | src/kernel/consensus/Lyra2REv2/sha3/keccak.c:1072-1135 | Each of the five row variants computes chi on the uncomplemented lanes and leaves the mask between rounds. |
| `Constants.OffsetIs` | src/kernel/consensus/Lyra2REv2/sha3/keccak.c:1016-1045 | The 25 rotation amounts are those of the walk of section 3.2.2 of FIPS 202. |
| `Constants.RoundConstantIs` | src/kernel/consensus/Lyra2REv2/sha3/keccak.c:136-149 | The 24 round constants are those of the shift register of section 3.2.5 of FIPS 202. |
| `Keccak.RhoIs` | src/kernel/consensus/Lyra2REv2/sha3/keccak.c:1016-1045 | Rotating by the table is rho. |
| `Keccak.RotMoves` | src/kernel/consensus/Lyra2REv2/sha3/keccak.c:364 | A rotation moves every bit up, round the end. |
| `Keccak.RoundFlip` | src/kernel/consensus/Lyra2REv2/sha3/keccak.c:1392-1397 | A complemented round is the round of sections 3.2 to 3.4 of FIPS 202, complemented. |
| `Keccak.NamesStep` | src/kernel/consensus/Lyra2REv2/sha3/keccak.c:1139-1156 | Each round's parameter list is the previous one moved by pi. |
| `Keccak.PlacesApart` | src/kernel/consensus/Lyra2REv2/sha3/keccak.c:1139-1156 | Each list names all 25 words, each once. |
| `Keccak.Permutation.KfElt` | src/kernel/consensus/Lyra2REv2/sha3/keccak.c:1392-1397 | In place and under permuted names, a round keeps exactly the right lanes complemented. |
| `Keccak.Permutation.RestoreOrder` | src/kernel/consensus/Lyra2REv2/sha3/keccak.c:1313-1347 | The eight cycles put the lanes of the eighth round back in order. |
| `Keccak.Permutation.KeccakF` | src/kernel/consensus/Lyra2REv2/sha3/keccak.c:1454-1467 | The unrolled loop computes Keccak-f[1600] of FIPS 202 on the uncomplemented state, with words 1, 2, 8, 12, 17 and 20 complemented before and after. |
| `Sponge.ClosingPads` | src/kernel/consensus/Lyra2REv2/sha3/keccak.c:1607-1635 | The closing bytes are the extra bits and the padding pad10*1 of section 5.1 of FIPS 202. |
| `Sponge.ConsumeBits` | src/kernel/consensus/Lyra2REv2/sha3/keccak.c:1568-1603 | Absorbing bytes block by block is absorbing their bit string. |
| `Sponge.AbsorbedWhole` | src/kernel/consensus/Lyra2REv2/sha3/keccak.c:1568-1635 | A padded message is a whole number of blocks, and absorbing it leaves nothing pending. |
| `Sponge.Context.constructor` | src/kernel/consensus/Lyra2REv2/sha3/keccak.c:1525-1566 | The initial words are the complemented zero state. |
| `Sponge.Context.InputBuf` | src/kernel/consensus/Lyra2REv2/sha3/keccak.c:180-185 | Adding a block into complemented words keeps the mask. |
| `Sponge.Context.Update` | src/kernel/consensus/Lyra2REv2/sha3/keccak.c:1568-1603 | After any calls the context is that of one call with everything fed. |
| `Sponge.Context.Close` | src/kernel/consensus/Lyra2REv2/sha3/keccak.c:1607-1647 | The digest is the sponge of section 4 of FIPS 202 over the padded message, for any bit length, and the context is afterwards as new. |
| `Sponge.Context.Output` | src/kernel/consensus/Lyra2REv2/sha3/keccak.c:1641-1643 | The leading words are written as bytes, the lowest first: the leading bits of the state. |
| `Base64.RoundTrip` | src/kernel/base64.cpp:41-123 | Decoding recovers every byte string. |
| `Base64.AlphabetIs` | src/kernel/base64.cpp:31-34 | Digits are written and read by Table 1 of RFC 4648, and nothing else is a digit. |
| `Base64.DigitsAreBits` | src/kernel/base64.cpp:41-81 | The digits are the bits of the bytes, six at a time from the highest, with zeros in the last. |
| `Base64.EncodeLength` | src/kernel/base64.cpp:41-81 | With its padding an encoding has four characters for every three bytes or part of them. |
| `Base64.EncodeBytes` | src/kernel/base64.cpp:41-81 | The scratch-array loop writes the encoding of section 4 of RFC 4648. |
| `Base64.DecodeText` | src/kernel/base64.cpp:83-123 | The loop returns the bytes of the leading digits of any text. |
| `Base64.UnpackDigits` | src/kernel/base64.cpp:106-120 | Failed lookups in unused positions do not reach the bytes a last group yields. |
| `Base64.SavePublicKey` | src/kernel/NoiseUtil.cpp:144-180 | The written text is the encoding. |
| `Base64.LoadPublicKey` | src/kernel/NoiseUtil.cpp:58-127 | The shift register accepts exactly the texts whose digits, a blank counted as a repeated digit, give a key of the wanted length. |
| `Base64.SkipsBlanksIff` | src/kernel/NoiseUtil.cpp:73-92 | The digits taken from a readable text are the ones it spells if and only if no blank stands before the first `=`. |
| `Base64.LoadsSpelledKeyIff` | src/kernel/NoiseUtil.cpp:73-127 | A key of the right length is loaded as spelled if and only if the text has no blank, or one only, with equal digits from the one before it on and in whole groups of four. |
| `Base64.BlankMisread` | src/kernel/NoiseUtil.cpp:86-91 | The text "AB\nCD" loads as another key than the one it spells. |
| `Base64.LoadSaved` | src/kernel/NoiseUtil.cpp:58-180 | Loading a saved key of up to 2048 bytes gives it back. |

## Left out

- Database.Blockchain.SubmitBlock: only for blocks with a null data field, because a reorganisation over other blocks does not restore the database (see the findings).
- Queries.UnspentOutputs: only when all public keys have the queried key's length, because an index string does not separate key and id.
- Queries.SpentOutputs: as for unspent outputs.
- Wallet.Book.Pass: the key set is fixed, and the local `spent` flag and the `unconfirmed` mark of a transaction are not modelled. Of wallets with another genesis than the node's it covers those whose last block the node does not know; the code clears no others.
- Wallet.Book.Follow: starts from a new wallet or one with the node's genesis; a first pass brings any other there.
- Mempool.Transactions.Rescan: the verdict of each transaction is a parameter.
- Storage.Transaction.Commit: the form of the JSON is arbitrary (see the assumptions), and a failing disk write is not modelled.
- Database.Blockchain.Write: lookups read the tables and not the rows; that the rows of the open transaction are those of the tables is kept by every write.
- Merkle.MakeProof: ancestor pointers are modelled as the path the search returns; a proof asked of a node that has ancestors of its own is not modelled, nor is a position that overflows 32 bits.
- Keccak.Permutation.KfElt: the straight-line macros write their 25 lanes as one simultaneous assignment, and a 64-bit word is the sequence of its bits.
- Lyra2.Wander: which second row a step mixes in depends on the state and is not modelled.
- Byte sizes of transactions and blocks, and the second component of the verdict tuples (whether a peer should be banned).
- A public key that is JSON but not a string.
- Lock files, mutexes and the concurrent batching of signature checks.
- Networking, peers, handshakes, RPC, HTTP, the miner, block templates, logging: input and output only.
- Signatures, contracts, AES, big-number arithmetic: wrappers over libraries, kept abstract.
- The other consensus modules, the block reward schedule, and the other hashes of the Lyra2REv2 chain (CubeHash, Skein, BMW), whose inner mixing has no law to prove against.
- Account creation, key encryption, coin selection and transaction listing in the wallet, which the sync does not depend on.
