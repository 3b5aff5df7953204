# A model of SiaPrime's consensus set

This project models the part of SiaPrime that decides which blocks count and what they do to the
ledger, and proves that it keeps what its own consistency checks sample. It covers the ledger
database and its diffs, transaction and block validation, the chain engine with its reorgs, the
change log and its subscribers, the difficulty and time rules, block synchronisation, the wire
format, and two small protocols: the try-lock `TryRWMutex` and the two-file JSON save.

`dafny verify dfyconfig.toml` checks the whole project.

## How it is laid out

- `Types`, `Sums`, `Diffs`, `Money`, `Ledgers`: the data, sums over it, lists of diffs, the coinbase
  and tax arithmetic, and what a transaction and a block do to a ledger, as the diffs they record.
- `Validity`, `Signatures`, `Checks`: what makes a transaction valid, and the loops that decide it.
- `Tracking`, `Conservation`, `Blocks`, `Steps`, `BlockSteps`: what one transaction and one block
  keep. No id is ever created twice, and coins move but are not lost.
- `Reverting`, `BlockReverts`: when reverting a block restores the ledger, and that the order in
  which a block's maintenance scans the buckets does not matter.
- `Chains`, `Witnesses`, `Consistency`: what every valid chain keeps, chains on which the plain
  statements fail, and the consistency checks.
- `Effects`, `Agreements`, `Settlements`, `Ownership`: what a block does to each output, siafund and
  contract, said in the fields of its transactions: who signed, what a contract says after each
  revision, and what is paid to whom.
- `Database`: the `ConsensusDB` class, whose methods update the buckets in place.
- `Targets`, `Work`, `ChangeLogs`, `BlockTrees`: fork choice and the work it stands for, the change
  log, and the tree of blocks.
- `Admission`, `Engine`, `Rulebook`: which blocks of a batch are refused, the `ConsensusSet` class that
  decides it, and the engine under the median-time, Oak and dev fund rules.
- `Replays`, `Subscriptions`: what a subscriber is told, and catching up while blocks arrive.
- `Timestamps`, `Oak`, `Synchronize`: the median rule, the Oak rule, and finding a common block.
- `Encoding`, `Codecs`, `Marshaling`: layouts and why they are unambiguous, the encoder and decoder,
  and the marshal, unmarshal and size methods of every object, field by field.
- `TryMutex`, `Persistence`: the two protocols, as state machines over their atomic steps.

Amounts are natural numbers. A hash is a value of a free datatype, so it is injective, and a block id
contains its block, so chains are followed by recursion on the id. Bolt buckets are maps, and a
database transaction is a copy that is restored when it fails. Constants are those of the standard
release. The genesis allocations, signature verification, Merkle proofs and the transaction size
check come in through the record `Env`.

## Where the code does not do what it promises

- Reverting the block at height 7200. The swap of siafunds records removed outputs with value zero,
  so reverting it does not restore them (`Witnesses.SwapDoesNotRevert`, on every network).
- Reverting a block above height 10000 that spends the one siafund whose address is rewritten when
  it is read (`Witnesses.RewrittenSiafundDoesNotRevert`).
  These two are the only ways: `BlockReverts.RevertsIff` is the exact condition.
- The siafund count after height 7200, when a siafund moved before it
  (`Witnesses.MovedSiafundBreaksCount`, both with and without a taxed contract).
  `Chains.ChainCountIff` is the exact condition.
- The siacoin count after height 7200, when a siafund moved before it and a contract has been taxed
  (`Witnesses.MovedSiafundBreaksCount`, with `taxed`). `Chains.ChainSupply` gives the error and
  `Chains.SupplyIff` the exact condition.
- The factor of two that `blockHistory` promises, on a chain higher than 8388624 blocks
  (`Synchronize.BelowTheSamples`). `Synchronize.FactorOfTwo` is the exact condition.
- The square in `childTargetOak`, when the chain is more than 3037000499 seconds off schedule: it
  overflows and turns the correction round (`Oak.OverflowTurnsTheShift`). `Oak.SquareFits` is the
  exact condition.

The documentation and the code disagree in places, and the model follows the code. The minimum
coinbase is 10,000 coins and outputs mature after 144 blocks, where `doc/Consensus.md` says 30,000 and
50. The mask in `TryRWMutex` covers the low 40 bits, where its comment says 39. The median is over the parent and its ten closest ancestors.

## Model

| member | source | states |
|---|---|---|
| `Chains.ChainInv` | modules/consensus/consistency.go:315-328 | in the ledger of every valid chain: every id was created once and is live exactly until consumed, delayed buckets are exactly those due, every open contract expires later with equal valid and missed sums, pool and claim starts are multiples of 10000 with no start above the pool, and the path is the ancestry |
| `Chains.ChainSupply` | modules/consensus/consistency.go:81-173 | on every valid chain, delayed and unspent outputs, open contracts and claims sum to CalculateNumSiacoins of the height plus the accrued share of the siafunds over or under 10000 |
| `Chains.SupplyIff` | modules/consensus/consistency.go:158-172 | so the supply equals the closed form exactly when no siafund moved before the swap, or nothing has been taxed |
| `Chains.ChainCountIff` | modules/consensus/consistency.go:177-194 | on every valid chain the siafunds sum to 10000 exactly when none had moved before the swap block |
| `Money.NumSiacoinsIsSum` | types/block.go:87-109 | the closed form for the coins in circulation is the airdrop plus the sum of every coinbase from 0 to the height |
| `Money.TaxIsFloor` | types/filecontracts.go:122-129 | the tax is the largest multiple of 10000 within 3.9% of the payout, with the float64 nearest 0.039 in its place before the hardfork |
| `Money.DevShareDecays` | types/block.go:58-83 | the dev fund's share is 20% until height 30000, 10% from 105000, and in between falls by a tenth of a percent every 750 blocks |
| `Chains.NothingReturns` | modules/consensus/consensusdb.go:306-469 | on one chain an output, a contract or a siafund that has left the ledger never comes back: each is spent or closed at most once |
| `Chains.BucketContents` | modules/consensus/diffs.go:118-174 | the delayed bucket of height k holds exactly what block k - 144 delayed, until it matures |
| `Chains.BucketStartsEmpty` | modules/consensus/diffs.go:118-126 | before the block that opens a delayed bucket nothing is due at its height |
| `Chains.BucketMinimum` | modules/consensus/consistency.go:246-251 | every delayed bucket of a valid chain holds at least the coinbase of the block that opened it |
| `Consistency.CheckSiacoinCount` | modules/consensus/consistency.go:81-173 | the four summing scans pass exactly when the supply is the closed form |
| `Consistency.CheckSiafundCount` | modules/consensus/consistency.go:177-194 | the scan passes exactly when the siafunds sum to 10000 |
| `Consistency.CheckDSCOs` | modules/consensus/consistency.go:198-277 | the scan passes exactly when no output is in two buckets, each bucket holds its minimum, and the buckets are exactly those due |
| `Consistency.ChecksPass` | modules/consensus/consistency.go:315-328 | what the three checks decide on every valid chain: the delayed check always passes, the other two exactly under their conditions |
| `Witnesses.SwapDoesNotRevert` | modules/consensus/diffs.go:233-264 | on every network the 7200-block chain without transactions is valid and reverting its last block does not restore the ledger |
| `Witnesses.RewrittenSiafundDoesNotRevert` | modules/consensus/consensusdb.go:422-437 | a valid block above height 10000 whose reverting does not restore the ledger |
| `Witnesses.MovedSiafundBreaksCount` | modules/consensus/diffs.go:233-264 | two valid chains through the swap with a wrong siafund count; the siacoin count is wrong on exactly the taxed one |
| `BlockReverts.RevertsIff` | modules/consensus/diffs.go:129-197 | reverting a block's recorded diffs restores every bucket, the pool and the path, and restores the siafunds too exactly when no siafund it spends reads back with another address and, at height 7200, it spends every genesis siafund |
| `BlockReverts.GeneratesApplyBlock` | modules/consensus/diffs.go:187-197 | replaying the diffs grouped by kind reaches the one ledger that interleaved generation reaches, whatever order maintenance scans the buckets in |
| `BlockSteps.BlockKeepsInv` | modules/consensus/diffs.go:204-289 | a valid block keeps the ledger invariant, swap and maintenance included |
| `BlockSteps.BlockKeepsBalance` | modules/consensus/diffs.go:204-289 | a valid block that pays its subsidy adds exactly its coinbase to the coins counted with all siafunds present |
| `Conservation.TxnNet` | modules/consensus/applytransaction.go:206-214 | a valid transaction destroys exactly its miner fees: tax becomes claims, payouts become contracts, claims become delayed outputs |
| `Conservation.TxnFundCount` | modules/consensus/applytransaction.go:152-201 | a valid transaction creates as many siafunds as it spends |
| `Steps.MaintenanceSupply` | modules/consensus/maintenance.go:189-193 | maintenance creates exactly the miner payouts: maturing and missed proofs only move coins |
| `Steps.SwapCountIff` | modules/consensus/diffs.go:233-264 | the swap leaves 10000 siafunds exactly when only genesis outputs were left |
| `Conservation.ClaimForms` | modules/consensus/consistency.go:144-157 | for sound siafunds, dividing before multiplying pays the same claim as multiplying before dividing |
| `Database.ConsensusDB.constructor` | modules/consensus/consensusdb.go:87-147 | creating the database leaves exactly the genesis ledger |
| `Database.ConsensusDB.AddFileContract` | modules/consensus/consensusdb.go:357-383 | adds the contract and keeps the expiration index equal to the open contracts by window end |
| `Database.ConsensusDB.RemoveFileContract` | modules/consensus/consensusdb.go:386-413 | removes the contract and keeps the expiration index |
| `Database.ConsensusDB.DeleteDelayedBucket` | modules/consensus/consensusdb.go:546-561 | drops an emptied bucket and nothing else |
| `Database.ConsensusDB.CommitNodeDiffs` | modules/consensus/diffs.go:129-144 | committing each kind in order is committing the diff set |
| `Database.ConsensusDB.RevertNodeDiffs` | modules/consensus/diffs.go:145-162 | committing each kind backwards is reverting the diff set |
| `Database.ConsensusDB.CommitDiffSet` | modules/consensus/diffs.go:187-197 | moves the whole database one block forward or back along its recorded diffs |
| `Database.ConsensusDB.ApplySiacoinInputs` | modules/consensus/applytransaction.go:16-31 | the new outputs and the recorded diffs are those of spending the inputs |
| `Database.ConsensusDB.ApplySiacoinOutputs` | modules/consensus/applytransaction.go:35-47 | the new outputs and the recorded diffs are those of creating the outputs |
| `Database.ConsensusDB.ApplyFileContracts` | modules/consensus/applytransaction.go:52-74 | the contracts, their diffs, the pool and its diffs after forming the contracts |
| `Database.ConsensusDB.ApplyFileContractRevisions` | modules/consensus/applytransaction.go:79-115 | the contracts and diffs after the revisions, index kept |
| `Database.ConsensusDB.ApplyStorageProofs` | modules/consensus/applytransaction.go:120-148 | the contracts closed and their valid payouts delayed, with diffs |
| `Database.ConsensusDB.ApplySiafundInputs` | modules/consensus/applytransaction.go:152-186 | the siafunds spent and their claims delayed, with diffs |
| `Database.ConsensusDB.ApplySiafundOutputs` | modules/consensus/applytransaction.go:189-201 | the siafunds created with the current pool as claim start, with diffs |
| `Database.ConsensusDB.ApplyTransaction` | modules/consensus/applytransaction.go:206-214 | the seven loops in order leave the ledger of the transaction's diffs and record exactly those |
| `Database.ConsensusDB.ApplyMinerPayouts` | modules/consensus/maintenance.go:23-35 | the payouts delayed by the maturity delay, with diffs |
| `Database.ConsensusDB.ApplyMaturedSiacoinOutputs` | modules/consensus/maintenance.go:40-102 | exactly the outputs due at this height become spendable, and their bucket is deleted empty |
| `Database.ConsensusDB.ApplyFileContractMaintenance` | modules/consensus/maintenance.go:150-184 | exactly the contracts whose window ends at this height are closed and their missed payouts delayed |
| `Database.ConsensusDB.ApplyMaintenance` | modules/consensus/maintenance.go:189-193 | the three stages leave the ledger of the maintenance diffs for the order scanned, and record them |
| `Database.ConsensusDB.SwapSiafunds` | modules/consensus/diffs.go:233-264 | at height 7200 only, removes the genesis siafunds and adds the forked allocation, recording those diffs |
| `Database.ConsensusDB.GenerateAndApplyDiff` | modules/consensus/diffs.go:204-289 | succeeds exactly when the block's transactions are valid in turn; then the database is what the recorded diffs make of it |
| `Database.ConsensusDB.TryTransactionSet` | modules/consensus/validtransaction.go:321-356 | accepts exactly the sets valid in turn, returns their diffs, and leaves the database as it was |
| `Checks.CorrectFileContracts` | types/validtransaction.go:52-91 | decides exactly the rules on new contracts |
| `Checks.CorrectFileContractRevisions` | types/validtransaction.go:95-129 | decides exactly the rules on revisions |
| `Checks.FollowsMinimumValues` | types/validtransaction.go:150-178 | decides exactly that no amount is zero and no claim start is set |
| `Checks.FollowsStorageProofRules` | types/validtransaction.go:182-209 | decides exactly that storage proofs come without other outputs or contracts |
| `Checks.CheckNoRepeats` | types/validtransaction.go:217-252 | decides exactly that no id is consumed twice, proofs and revisions sharing one set |
| `Checks.CheckStandalone` | types/validtransaction.go:294-328 | decides exactly validity without a ledger |
| `Checks.ValidSiacoins` | modules/consensus/validtransaction.go:32-58 | decides exactly that inputs exist, unlock and sum to outputs, payouts and fees |
| `Checks.ValidStorageProofs` | modules/consensus/validtransaction.go:165-206 | decides exactly that each proof is of an open window and verifies |
| `Checks.ValidFileContractRevisions` | modules/consensus/validtransaction.go:210-255 | decides exactly that each revision is of an open contract, newer, unlocked and of the same sums |
| `Checks.ValidSiafunds` | modules/consensus/validtransaction.go:259-283 | decides exactly that siafund inputs exist, unlock and sum to the outputs |
| `Checks.ValidTransaction` | modules/consensus/validtransaction.go:287-314 | decides exactly validity on top of a ledger |
| `Ownership.SpentByOwner` | modules/consensus/validtransaction.go:32-58 | on every valid chain a spendable output leaves the ledger exactly when an input of the block names it; that input's unlock conditions hash to the output's address, their timelock has passed, and exactly the required number of signatures name it, by distinct keys, each Ed25519 key verifying over a digest of this transaction |
| `Ownership.SignedMeans` | types/signatures.go:382-475 | a legally signed transaction meets the conditions of everything it names: timelock, number of signatures, distinct keys in range, and digests made of its own fields |
| `Ownership.SigHashIsDigest` | types/signatures.go:183-296 | the signed digest is of the whole transaction with the signature's own parent, key and timelock, or of exactly the covered items in order |
| `Ownership.SpendableAfter` | modules/consensus/applytransaction.go:16-48 | the spendable outputs after a block are those of the parent or made by the block that no input names, and those that mature, with the value and address each was made with |
| `Ownership.FundSpentByOwner` | modules/consensus/validtransaction.go:259-283 | a siafund output leaves the ledger exactly when an input names it or the swap drops a genesis one; the input's conditions hash to the address as read, rewritten above height 10000, and are met by signatures as above |
| `Ownership.SiafundsOf` | modules/consensus/applytransaction.go:152-201 | the siafund outputs after a block are those of the parent or made by the block that no input names, with the value and address each was made with, and at height 7200 the forked allocation in place of genesis |
| `Ownership.RevisedByOwner` | modules/consensus/validtransaction.go:210-255 | a contract a block changes without closing has each field of a revision in the block; the revision is newer, in time, of the same sums, and signed under the conditions of the contract's last terms |
| `Ownership.ProofIsGood` | modules/consensus/validtransaction.go:165-206 | a proof closes a contract only in its window, and verifies against the terms of its last revision and the block before the window |
| `Ownership.ClaimsPaid` | modules/consensus/applytransaction.go:152-185 | every siafund output a block spends delays its share of what the pool has taken since its claim started, to the address the input names |
| `Ownership.BucketOpened` | modules/consensus/maintenance.go:23-36 | besides proof outputs, the bucket a block opens holds exactly those claims and the block's own payouts, each under its index |
| `Settlements.ContractTerms` | modules/consensus/applytransaction.go:79-115 | every open contract of a valid chain reads as formed or has each field of its last revision on the chain, and always the payout it was formed with |
| `Settlements.ContractFate` | modules/consensus/maintenance.go:106-186 | what a block does to any contract: proven, it is gone and exactly the valid outputs of its last revision are delayed, each under its index; at the end of its window, exactly the missed ones; otherwise it stays open by its terms and pays nothing |
| `Signatures.CheckSortedUnique` | types/signatures.go:300-316 | decides exactly that indices rise strictly and stay in range |
| `Signatures.CheckCoveredFields` | types/signatures.go:322-379 | decides exactly that every signature covers legal fields |
| `Signatures.ValidSignatures` | types/signatures.go:382-494 | accepts exactly when covered fields are legal, parents are pairwise distinct, every signature names a parent with a distinct in-range unlocked key that verifies, and every parent has exactly its required number |
| `Money.CheckMinerPayouts` | modules/consensus/block_validation.go:101-107 | decides exactly the payout rule with or without the dev fund |
| `Money.PayoutTotal` | modules/consensus/block_validation.go:47-94 | accepted payouts sum to the coinbase and the fees |
| `Targets.SumIsFloor` | types/target.go:29-36 | the sum of two targets is the easiest depth with at least the work 1/x + 1/y: it has that work, and the next easier depth does not |
| `Targets.ProductIsFloor` | types/target.go:86-90 | scaling a difficulty gives the easiest target with at least the scaled work, cut off at the root depth |
| `Targets.HeavierIff` | modules/consensus/processedblock.go:15-50 | a block is heavier exactly when a depth one easier than its own still has the current block's work and a fifth of a block more |
| `Targets.ChildIsHeavier` | modules/consensus/processedblock.go:43-57 | a child of the current block replaces it exactly when some depth has the work of a fifth of a block more but not of a whole one |
| `Targets.NotSwallowed` | modules/consensus/processedblock.go:43-57 | so it replaces it whenever the square of the depth is at least fifteen times the target: the depth one easier than a child's then still has the work of a fifth of a block more |
| `Work.DepthIsWork` | modules/consensus/processedblock.go:52-57 | in every tree the engine builds, the depth of a block is the inverse of the summed difficulties of its chain, to within the block's height |
| `Work.HeavierHasMoreWork` | modules/consensus/processedblock.go:43-50 | of two blocks whose depths invert their work like that, the heavier one has the other's work and a fifth of a block more, to within the rounding of its own depth |
| `Targets.HeaviestStays` | modules/consensus/processedblock.go:47-50 | what was not heavier than a replaced tip is not heavier than its replacement |
| `BlockTrees.ReplayMoves` | modules/consensus/fork.go:79-106 | committing a stored block's diffs on its parent's ledger gives its own ledger |
| `BlockTrees.RevertMoves` | modules/consensus/fork.go:49-75 | reverting a stored block's diffs always can be done, and gives its parent's ledger exactly when the block is reversible |
| `BlockTrees.DepthsFall` | modules/consensus/accept.go:169-199 | every later tip of a run has a strictly smaller depth |
| `BlockTrees.EntriesDiffer` | modules/consensus/changelog.go:56-93 | so no change entry of a run ever recurs |
| `ChangeLogs.AppendLinked` | modules/consensus/changelog.go:56-93 | appending keeps the log a simple path from the genesis entry to the tail |
| `ChangeLogs.NextWalks` | modules/consensus/changelog.go:117-129 | following next entries walks that path and ends at the tail |
| `Engine.ConsensusSet.constructor` | modules/consensus/consensusdb.go:87-147 | a new consensus set is at the genesis block and satisfies the engine's invariant |
| `Engine.ConsensusSet.BacktrackToCurrentPath` | modules/consensus/fork.go:20-44 | returns the new block's ancestry from the exact fork with the current path |
| `Engine.ConsensusSet.RevertToBlock` | modules/consensus/fork.go:49-75 | ends at the target's ledger and reports the blocks reverted, tip first |
| `Engine.ConsensusSet.ApplyUntilBlock` | modules/consensus/fork.go:79-106 | ends at the new block's ledger, generating or replaying each block, or stops at a block of the path that is invalid on its parent's ledger, and remembers only that one |
| `Engine.ConsensusSet.ForkBlockchain` | modules/consensus/fork.go:112-120 | succeeds exactly when the chain of the new block is valid, and then moves the database to that block's ledger, which depends on the block alone, and reports exactly the blocks off and onto the fork |
| `Engine.ConsensusSet.AddBlockToTree` | modules/consensus/accept.go:169-199 | rejects the block exactly for a zero weight or for outweighing the tip with an invalid chain; otherwise stores it, and moves the tip to it exactly when it is heavier, with a logged change |
| `Engine.ConsensusSet.AcceptBlocks` | modules/consensus/accept.go:241-330 | fails exactly when the batch is not linear or some block is refused at its turn, and then changes nothing; otherwise stores every block with the weight of its turn and moves the tip exactly when a block outweighs it at its turn; afterwards the database is the ledger of applying the tip's ancestry once from genesis, no known block is heavier than the tip, the tip is deeper if it moved, and the change log is the run of tips |
| `Engine.ConsensusSet.AcceptOne` | modules/consensus/accept.go:34-81 | rejects a block exactly when it is remembered as bad or is new and has an unknown parent, fails the header or payout checks, meets a zero weight, or outweighs the tip with a chain that is invalid or shorter; a known block is skipped |
| `Admission.InvalidPastFork` | modules/consensus/fork.go:79-106 | such a chain is invalid exactly when a block on it, past the fork with the current chain, is not valid on its parent's ledger |
| `Admission.BatchAdmits` | modules/consensus/accept.go:34-81 | in every tree the engine builds each block but the genesis passed the header and payout checks and has the weight the rules gave it |
| `Rulebook.AcceptedTimesGrow` | modules/consensus/block_validation.go:117-121 | on every chain the engine stores the earliest acceptable child time never moves back |
| `Rulebook.AcceptedTargets` | modules/consensus/processedblock.go:124-154 | on every chain the engine stores above the Oak fork, n blocks move the target by at most the factor (1004/1000)^n either way |
| `Rulebook.DevFundPaid` | modules/consensus/block_validation.go:61-107 | every block the engine stores above genesis pays last the dev fund's share of the coinbase, rounded down, to the address of its height, and the miners the rest and the fees |
| `Timestamps.MinimumValidChildTimestamp` | modules/consensus/block_rules.go:25-51 | the walk up the parents returns the median of the eleven genesis-padded times |
| `Timestamps.MedianRank` | modules/consensus/block_rules.go:46-51 | the median is at least m exactly when at most half the times are earlier than m |
| `Timestamps.MinimumTimeGrows` | modules/consensus/block_rules.go:25-51 | along a chain that respects it the minimum never decreases, genesis padding included |
| `Timestamps.NoBlockBeforeItsPast` | modules/consensus/block_validation.go:117-121 | no block of such a chain is timed before the minimum of any proper ancestor |
| `Oak.ChildTarget` | modules/consensus/difficulty.go:61-123 | away from the ASIC fork the target stays within four parts in a thousand of the current one, and is the ideal target when that lies within; at the fork it is the ideal one |
| `Oak.LaterIsEasier` | modules/consensus/difficulty.go:61-123 | while the square fits, a later parent timestamp never gives a lower target |
| `Oak.SlowerIsEasier` | modules/consensus/difficulty.go:92-123 | a larger total time or a larger total target never gives a lower target |
| `Oak.OnSchedule` | modules/consensus/difficulty.go:92-107 | on schedule the ideal target is the floor of the maximum over the hashes made in 600 seconds |
| `Oak.HashrateIsFloor` | modules/consensus/difficulty.go:92-101 | the visible hashrate is the difficulty of the total target over the total time, rounded down, and at least one |
| `Oak.DeltaIsAhead` | modules/consensus/difficulty.go:72-73 | the delta is the seconds ahead of schedule, whenever its square fits |
| `Oak.TimeAimedAt` | modules/consensus/difficulty.go:75-90 | the block time aimed at is 600 seconds plus the square of the seconds ahead, or less that of the seconds behind, over ten million, within 200 and 1800 |
| `Oak.BlockTimeFollowsDelta` | modules/consensus/difficulty.go:75-90 | while the square fits, the block time never falls as the chain gets further ahead, and is above 600 only ahead and below only behind |
| `Oak.SquareFits` | modules/consensus/difficulty.go:75-80 | the signed square is exact for exactly the deltas up to 3037000499 seconds either way |
| `Oak.OverflowTurnsTheShift` | modules/consensus/difficulty.go:75-90 | one second more and a chain far ahead is given the shortest block time instead of the longest |
| `Oak.TargetsRise` | modules/consensus/difficulty.go:108-121 | over n blocks the target rises at most by (1004/1000)^n |
| `Oak.TargetsDrop` | modules/consensus/difficulty.go:108-121 | over n blocks the target falls at most by that factor, up to rounding |
| `Oak.TotalTimeBounded` | modules/consensus/difficulty.go:137-162 | if no gap exceeds B the decayed total time stays within 200 B, wrap-around and truncation included |
| `Oak.TotalIsDecayedSum` | modules/consensus/difficulty.go:142-145 | the new total target is the easiest with the work of the old total, scaled by 995/1000, and of the block |
| `Oak.TimeIsDecayedSum` | modules/consensus/difficulty.go:142-144 | the new total time is 995/1000 of the old one, towards zero, plus the new gap |
| `Oak.OakBucket.StoreBlockTotals` | modules/consensus/difficulty.go:137-162 | records the next totals under the block's id and nothing else |
| `Oak.OakBucket.Init` | modules/consensus/difficulty.go:170-222 | records for every block of the path the totals that follow from its parent's, once |
| `Oak.OakBucket.NewChild` | modules/consensus/processedblock.go:133-148 | extends those totals by one block, and above the Oak fork gives the child the Oak target |
| `Oak.RebuildAgrees` | modules/consensus/difficulty.go:170-222 | a path has one sequence of totals, so rebuilding agrees with maintaining |
| `Synchronize.BlockHistory` | modules/consensus/synchronize.go:99-133 | the ten most recent ids, then ids at doubling strides, empty ids, and the genesis block last |
| `Synchronize.ChainsFork` | modules/consensus/synchronize.go:93-98 | the paths of any two blocks fork somewhere, as the search for a common block expects |
| `Synchronize.FindStart` | modules/consensus/synchronize.go:295-324 | starts after the first known id on the responder's path, unless that is its tip |
| `Synchronize.SendFrom` | modules/consensus/synchronize.go:341-383 | terminates, and the batches, none empty or over ten blocks, concatenate to exactly the rest of the path |
| `Synchronize.FactorOfTwo` | modules/consensus/synchronize.go:93-98 | every responder resumes within twice the fork depth exactly when the requester's height is at most 8388624 |
| `Synchronize.CatchUp` | modules/consensus/synchronize.go:267-386 | one round completes the responder's whole path on top of the requester's shared part, unless the responder is only behind |
| `Replays.ComputeConsensusChange` | modules/consensus/subscribe.go:16-99 | the change sent is the reversed diffs of the reverted blocks and the diffs of the applied ones, or an error exactly when a block is unknown |
| `Replays.ReplayRebuilds` | modules/consensus/subscribe.go:16-99 | applying all changes of a run rebuilds the outputs, contracts, siafunds, pool and delayed outputs of the tip, where the genesis payout is missing exactly until a change mentions it |
| `Subscriptions.SendBatch` | modules/consensus/subscribe.go:171-208 | one batch sends the next entries of the log in order, at most a hundred |
| `Subscriptions.EveryRunInOrder` | modules/consensus/subscribe.go:130-285 | under every interleaving with accepted blocks what the subscriber has received is a contiguous stretch of the log, each entry once |
| `Subscriptions.ReceivedAll` | modules/consensus/subscribe.go:232-285 | a subscriber from the beginning that has subscribed has received the whole log |
| `Subscriptions.SubscriberSeesAll` | modules/consensus/subscribe.go:130-285 | so replaying what it received rebuilds the state of the current tip |
| `Encoding.MarshalMoney` | types/encoding.go:395-423 | the words' bytes from the top non-zero one down, after their number, are the big-endian amount |
| `Encoding.MoneySize` | types/encoding.go:426-448 | the word count less leading zero bytes is the length of that encoding |
| `Encoding.Injective` | types/encoding.go:200-229 | two objects of one layout with the same bytes are the same object |
| `Encoding.ParseUnique` | types/encoding.go:115-183 | no bytes can be decoded in two ways, whatever follows them |
| `Encoding.ParsedConforms` | types/encoding.go:115-183 | what a decoder accepts is an object within the limits whose own encoding is no longer |
| `Codecs.DecHelper.ReadFull` | types/encoding.go:125-146 | reads exactly k bytes, and fails exactly after an error, on too little input, or past the object limit |
| `Codecs.DecHelper.NextPrefix` | types/encoding.go:173-183 | reads a length and rejects exactly those over the limits |
| `Codecs.DecHelper.ReadPrefix` | types/encoding.go:151-159 | succeeds exactly when a prefixed byte string is there |
| `Marshaling.MarshalBlock` | types/encoding.go:200-229 | the field-by-field writer appends exactly the block's encoding |
| `Marshaling.MarshalNoSignatures` | types/encoding.go:906-944 | the nine loops append exactly the unsigned encoding |
| `Marshaling.MarshalTransaction` | types/encoding.go:876-902 | appends exactly the transaction's encoding |
| `Marshaling.UnmarshalBlock` | types/encoding.go:232-271 | from any state, succeeds with the block the bytes consumed stand for, or fails when no block is there |
| `Marshaling.UnmarshalTransaction` | types/encoding.go:1012-1055 | from any state, succeeds with the transaction the bytes consumed stand for, or fails when none is there |
| `Marshaling.RoundTripTransaction` | types/encoding.go:876-1055 | unmarshalling a marshalled transaction within the decoder's limits returns it |
| `Marshaling.RoundTripBlock` | types/encoding.go:200-271 | unmarshalling a marshalled block within the decoder's limits returns it |
| `Marshaling.UnsignedInjective` | types/encoding.go:904-944 | transactions with the same unsigned bytes differ in their signatures only |
| `Marshaling.UnlockConditionsSize` | types/encoding.go:1107-1116 | the sum written by hand is the length of the encoding |
| `Marshaling.CoveredFieldsSize` | types/encoding.go:325-338 | the sum written by hand is the length of the encoding |
| `Marshaling.FileContractSize` | types/encoding.go:530-548 | the sum written by hand is the length of the encoding |
| `Marshaling.FileContractRevisionSize` | types/encoding.go:594-613 | the sum written by hand is the length of the encoding |
| `Marshaling.TransactionSize` | types/encoding.go:947-1009 | the sum written by hand is the length of the encoding |
| `Marshaling.BlockInPlace` | modules/consensus/block_rules.go:38-45 | bytes 0-32 and 40-48 of an encoded block are its parent and its timestamp |
| `Marshaling.ContractInPlace` | modules/consensus/consensusdb.go:399-403 | bytes 48-56 of an encoded contract are its window end |
| `TryMutex.StepKeeps` | sync/tryrwmutex.go:27-102 | every atomic step keeps the counter packed and the threads compatible |
| `TryMutex.TryNeverBlocks` | sync/tryrwmutex.go:27-102 | in every state of every run with fewer than 2^20 active calls, the counter packs the counts, writers exclude everyone, and a successful try call can take the inner mutex at once |
| `Persistence.LoadJSON` | persist/json.go:177-221 | loads the primary file if it is readable and the temporary file otherwise |
| `Persistence.StepKeeps` | persist/json.go:228-341 | every step of a save, and a crash at any point, keeps the old or the new version readable |
| `Persistence.SavesAreAtomic` | persist/json.go:228-341 | in every run, a crash leaves what was readable before the save or the version being saved, and a finished save the new version |
| `Persistence.BeforeIsBefore` | persist/json.go:228-341 | what was readable before is what loading returned when the save began |

## Left out

- Engine.ConsensusSet.AcceptBlocks: asks that, until the batch moves the tip, a block which passes the header checks and would become the tip be reached from it through reversible blocks, because past the swap the code's own revert does not restore the ledger (see above); nothing is asked of other blocks. A zero weight, which makes the code panic, counts as a rejection.
- Work.HeavierHasMoreWork: asks that the tip's target be no easier than the root depth, which every target the code sets is.
- Rulebook.AcceptedTargets: asks that no target on the stretch be zero and that it stay away from the ASIC fork height; the difficulty rule below height 1500 is a parameter.
- Subscriptions.EveryRunInOrder: models one subscriber; unsubscribing is not modelled.
- Marshaling.RoundTripBlock: its objects hold 32-byte hashes, while the ledger's objects hold abstract hashes; the two are not connected, since no function on abstract hashes into 32 bytes is injective.
- Persistence.SavesAreAtomic: takes torn writes to be detectable, and leaves out parsing the checksum line, including the torn file of exactly 67 bytes.
- TryMutex.TryNeverBlocks: takes the inner mutex to be the standard one, and says nothing about how long spinning lasts.
- Hashing, signature verification and storage-proof Merkle verification, with its variants below heights 21,000 and 100,000, are parameters; hashes are taken to be injective.
- Header checks on target, nonce, size and the future are a parameter of the engine; so is the size limit of a transaction.
- The reflection-driven encoder, the JSON and string encodings, and the debug sanity checks.
- Gateway, RPC connections, peers, timeouts, the initial download and relaying of headers.
- The explorer, wallet, host, renter, miner and transaction pool.
- Logging, database files, and the other locks of the sync package.
