/**
 The consensus database as a value, the diffs a block generates, and what applying or reverting
 a block's diffs does to it.
 */
module Ledgers {
  import opened Types
  import opened Diffs
  import opened Money

  // Height of the block that swaps the genesis siafunds for the forked allocation.
  const SWAP_HEIGHT: nat := 7200
  // Above this height the last genesis siafund address reads as the developers' address.
  const REWRITE_HEIGHT: nat := 10_000

  // The buckets of the database. path is BlockPath together with BlockHeight; delayed flattens
  // the buckets of delayed outputs, keyed by maturity height and id, and buckets are the heights
  // for which such a bucket exists.
  datatype Ledger = Ledger(
    path: seq<Hash>,
    siacoins: map<Hash, SiacoinOutput>,
    contracts: map<Hash, FileContract>,
    siafunds: map<Hash, SiafundOutput>,
    pool: nat,
    delayed: map<(nat, Hash), SiacoinOutput>,
    buckets: set<nat>)

  type DelayedDiff = Diff<(nat, Hash), SiacoinOutput>

  datatype PoolDiff = PoolDiff(previous: nat, adjusted: nat)

  datatype DiffSet = DiffSet(
    siacoins: seq<Diff<Hash, SiacoinOutput>>,
    contracts: seq<Diff<Hash, FileContract>>,
    siafunds: seq<Diff<Hash, SiafundOutput>>,
    delayed: seq<DelayedDiff>,
    pool: seq<PoolDiff>)

  const NO_DIFFS := DiffSet([], [], [], [], [])

  function Height(l: Ledger): nat { if l.path == [] then 0 else |l.path| - 1 }

  // The diffs of d followed, kind by kind, by those of e.
  function Then(d: DiffSet, e: DiffSet): DiffSet
  {
    DiffSet(d.siacoins + e.siacoins, d.contracts + e.contracts, d.siafunds + e.siafunds,
            d.delayed + e.delayed, d.pool + e.pool)
  }

  function CommitPool(pool: nat, ds: seq<PoolDiff>): nat
  {
    if ds == [] then pool else ds[|ds| - 1].adjusted
  }

  function RevertPool(pool: nat, ds: seq<PoolDiff>): nat
  {
    if ds == [] then pool else ds[0].previous
  }

  // Commit a set of diffs kind by kind, as replaying a block does.
  function CommitSet(l: Ledger, d: DiffSet): Ledger
  {
    l.(siacoins := CommitAll(l.siacoins, d.siacoins),
       contracts := CommitAll(l.contracts, d.contracts),
       siafunds := CommitAll(l.siafunds, d.siafunds),
       delayed := CommitAll(l.delayed, d.delayed),
       pool := CommitPool(l.pool, d.pool))
  }

  function RevertSet(l: Ledger, d: DiffSet): Ledger
  {
    l.(siacoins := RevertAll(l.siacoins, d.siacoins),
       contracts := RevertAll(l.contracts, d.contracts),
       siafunds := RevertAll(l.siafunds, d.siafunds),
       delayed := RevertAll(l.delayed, d.delayed),
       pool := RevertPool(l.pool, d.pool))
  }

  function OpenBucket(l: Ledger, height: nat): Ledger
  {
    l.(buckets := l.buckets + {height})
  }

  function WithoutHeight(m: map<(nat, Hash), SiacoinOutput>, height: nat): map<(nat, Hash), SiacoinOutput>
  {
    map k | k in m && k.0 != height :: m[k]
  }

  function DropBucket(l: Ledger, height: nat): Ledger
  {
    l.(buckets := l.buckets - {height}, delayed := WithoutHeight(l.delayed, height))
  }

  // commitDiffSet in the apply direction, for a block with this id and height.
  function ApplyDiffs(l: Ledger, d: DiffSet, id: Hash, height: nat): Ledger
  {
    var committed := CommitSet(OpenBucket(l, height + MATURITY_DELAY), d);
    var trimmed := if height >= MATURITY_DELAY then DropBucket(committed, height) else committed;
    trimmed.(path := l.path + [id])
  }

  // commitDiffSet in the revert direction.
  function RevertDiffs(l: Ledger, d: DiffSet, height: nat): Ledger
  {
    var widened := if height >= MATURITY_DELAY then OpenBucket(l, height) else l;
    var trimmed := DropBucket(RevertSet(widened, d), height + MATURITY_DELAY);
    trimmed.(path := if l.path == [] then [] else l.path[..|l.path| - 1])
  }

  // Reads that return the zero value when the entry is missing.
  function StoredSiacoin(m: map<Hash, SiacoinOutput>, id: Hash): SiacoinOutput
  {
    if id in m then m[id] else SiacoinOutput(0, ZERO_HASH)
  }

  function StoredContract(m: map<Hash, FileContract>, id: Hash): FileContract
  {
    if id in m then m[id] else FileContract(0, ZERO_HASH, 0, 0, 0, [], [], ZERO_HASH, 0)
  }

  function StoredDelayed(m: map<(nat, Hash), SiacoinOutput>, k: (nat, Hash)): SiacoinOutput
  {
    if k in m then m[k] else SiacoinOutput(0, ZERO_HASH)
  }

  // Whether reading this siafund output yields a rewritten unlock hash.
  predicate Rewritten(env: Env, l: Ledger, id: Hash)
  {
    && id in l.siafunds
    && env.genesisSiafunds != []
    && l.siafunds[id].unlockHash == env.genesisSiafunds[|env.genesisSiafunds| - 1].unlockHash
    && Height(l) > REWRITE_HEIGHT
  }

  // getSiafundOutput.
  function ReadSiafund(env: Env, l: Ledger, id: Hash): SiafundOutput
  {
    var o := if id in l.siafunds then l.siafunds[id] else SiafundOutput(0, ZERO_HASH, 0);
    if Rewritten(env, l, id) then o.(unlockHash := env.devAddr) else o
  }

  // ---------------------------------------------------------------- one transaction

  function SpendSiacoins(m: map<Hash, SiacoinOutput>, ins: seq<SiacoinInput>): seq<Diff<Hash, SiacoinOutput>>
  {
    seq(|ins|, i requires 0 <= i < |ins| => Diff(false, ins[i].parentID, StoredSiacoin(m, ins[i].parentID)))
  }

  function CreateSiacoins(t: TxnCore, n: nat): seq<Diff<Hash, SiacoinOutput>>
    requires n <= |t.siacoinOutputs|
  {
    seq(n, i requires 0 <= i < n => Diff(true, SiacoinOutputHash(t, i), t.siacoinOutputs[i]))
  }

  function CreateContracts(t: TxnCore, n: nat): seq<Diff<Hash, FileContract>>
    requires n <= |t.fileContracts|
  {
    seq(n, i requires 0 <= i < n => Diff(true, FileContractHash(t, i), t.fileContracts[i]))
  }

  function Revised(c: FileContract, r: FileContractRevision): FileContract
  {
    FileContract(r.newFileSize, r.newFileMerkleRoot, r.newWindowStart, r.newWindowEnd, c.payout,
                 r.newValidProofOutputs, r.newMissedProofOutputs, r.newUnlockHash, r.newRevisionNumber)
  }

  // Each revision removes the old contract and adds the revised one under the same id.
  function ReviseContracts(m: map<Hash, FileContract>, rs: seq<FileContractRevision>): seq<Diff<Hash, FileContract>>
  {
    if rs == [] then [] else
      var r := rs[|rs| - 1];
      var current := StoredContract(m, r.parentID);
      ReviseContracts(m, rs[..|rs| - 1]) + [Diff(false, r.parentID, current), Diff(true, r.parentID, Revised(current, r))]
  }

  function ProvenIDs(ps: seq<StorageProof>): seq<Hash>
  {
    seq(|ps|, i requires 0 <= i < |ps| => ps[i].parentID)
  }

  function CloseContracts(m: map<Hash, FileContract>, ids: seq<Hash>): seq<Diff<Hash, FileContract>>
  {
    seq(|ids|, i requires 0 <= i < |ids| => Diff(false, ids[i], StoredContract(m, ids[i])))
  }

  function ProofOutputs(c: FileContract, valid: bool): seq<SiacoinOutput>
  {
    if valid then c.validProofOutputs else c.missedProofOutputs
  }

  // The delayed outputs of one closing contract.
  function ContractPayouts(id: Hash, valid: bool, outs: seq<SiacoinOutput>, maturity: nat): seq<DelayedDiff>
  {
    seq(|outs|, i requires 0 <= i < |outs| => Diff(true, (maturity, StorageProofHash(id, valid, i)), outs[i]))
  }

  function ClosingPayouts(m: map<Hash, FileContract>, ids: seq<Hash>, valid: bool, maturity: nat): seq<DelayedDiff>
  {
    if ids == [] then [] else
      var id := ids[|ids| - 1];
      ClosingPayouts(m, ids[..|ids| - 1], valid, maturity) +
      ContractPayouts(id, valid, ProofOutputs(StoredContract(m, id), valid), maturity)
  }

  function TaxTotal(height: nat, cs: seq<FileContract>): nat
  {
    if cs == [] then 0 else TaxTotal(height, cs[..|cs| - 1]) + Tax(height, cs[|cs| - 1].payout)
  }

  function PoolAfter(pool: nat, height: nat, cs: seq<FileContract>): nat
  {
    pool + TaxTotal(height, cs)
  }

  function PoolDiffs(pool: nat, height: nat, cs: seq<FileContract>): seq<PoolDiff>
  {
    if cs == [] then [] else
      var front := cs[..|cs| - 1];
      PoolDiffs(pool, height, front) + [PoolDiff(PoolAfter(pool, height, front), PoolAfter(pool, height, cs))]
  }

  function SpendSiafunds(env: Env, l: Ledger, ins: seq<SiafundInput>): seq<Diff<Hash, SiafundOutput>>
  {
    seq(|ins|, i requires 0 <= i < |ins| => Diff(false, ins[i].parentID, ReadSiafund(env, l, ins[i].parentID)))
  }

  function CreateSiafunds(t: TxnCore, n: nat, pool: nat): seq<Diff<Hash, SiafundOutput>>
    requires n <= |t.siafundOutputs|
  {
    seq(n, i requires 0 <= i < n => Diff(true, SiafundOutputHash(t, i), t.siafundOutputs[i].(claimStart := pool)))
  }

  // Currency subtraction does not go below zero.
  function Sub(x: nat, y: nat): nat { if x < y then 0 else x - y }

  function ClaimPortion(pool: nat, o: SiafundOutput): nat
  {
    Sub(pool, o.claimStart) / 10000 * o.value
  }

  function ClaimPayouts(env: Env, l: Ledger, pool: nat, ins: seq<SiafundInput>, maturity: nat): seq<DelayedDiff>
  {
    seq(|ins|, i requires 0 <= i < |ins| =>
      Diff(true, (maturity, ClaimHash(ins[i].parentID)),
           SiacoinOutput(ClaimPortion(pool, ReadSiafund(env, l, ins[i].parentID)), ins[i].claimUnlockHash)))
  }

  // The diffs applyTransaction generates in a block of this height.
  function TxnDiffs(env: Env, l: Ledger, t: TxnCore, height: nat): DiffSet
  {
    var pool := PoolAfter(l.pool, Height(l), t.fileContracts);
    var proven := ProvenIDs(t.storageProofs);
    DiffSet(
      SpendSiacoins(l.siacoins, t.siacoinInputs) + CreateSiacoins(t, |t.siacoinOutputs|),
      CreateContracts(t, |t.fileContracts|) + ReviseContracts(l.contracts, t.fileContractRevisions) +
      CloseContracts(l.contracts, proven),
      SpendSiafunds(env, l, t.siafundInputs) + CreateSiafunds(t, |t.siafundOutputs|, pool),
      ClosingPayouts(l.contracts, proven, true, height + MATURITY_DELAY) +
      ClaimPayouts(env, l, pool, t.siafundInputs, height + MATURITY_DELAY),
      PoolDiffs(l.pool, Height(l), t.fileContracts))
  }

  // The diffs of a list of transactions, each generated in the state the earlier ones leave.
  function TxnsDiffs(env: Env, l: Ledger, ts: seq<Transaction>, height: nat): DiffSet
  {
    if ts == [] then NO_DIFFS else
      var before := TxnsDiffs(env, l, ts[..|ts| - 1], height);
      Then(before, TxnDiffs(env, CommitSet(l, before), ts[|ts| - 1].core, height))
  }

  // ---------------------------------------------------------------- maintenance

  function PayoutDiffs(id: Hash, payouts: seq<SiacoinOutput>, maturity: nat): seq<DelayedDiff>
  {
    seq(|payouts|, i requires 0 <= i < |payouts| => Diff(true, (maturity, MinerPayoutHash(id, i)), payouts[i]))
  }

  ghost function MaturingIDs(l: Ledger, height: nat): set<Hash>
  {
    set k | k in l.delayed && k.0 == height :: k.1
  }

  ghost function ExpiringIDs(l: Ledger, height: nat): set<Hash>
  {
    set id | id in l.contracts && l.contracts[id].windowEnd == height
  }

  function MatureDiffs(l: Ledger, ids: seq<Hash>, height: nat): seq<Diff<Hash, SiacoinOutput>>
  {
    seq(|ids|, i requires 0 <= i < |ids| => Diff(true, ids[i], StoredDelayed(l.delayed, (height, ids[i]))))
  }

  function UndelayDiffs(l: Ledger, ids: seq<Hash>, height: nat): seq<DelayedDiff>
  {
    seq(|ids|, i requires 0 <= i < |ids| => Diff(false, (height, ids[i]), StoredDelayed(l.delayed, (height, ids[i]))))
  }

  // The order in which a bucket scan meets the maturing outputs and the expiring contracts.
  datatype Order = Order(matured: seq<Hash>, expired: seq<Hash>)

  ghost predicate Enumerates(s: seq<Hash>, elements: set<Hash>)
  {
    && (forall x :: x in s <==> x in elements)
    && (forall i, j :: 0 <= i < j < |s| ==> s[i] != s[j])
  }

  ghost predicate OrderOK(l: Ledger, height: nat, o: Order)
  {
    && Enumerates(o.matured, if height >= MATURITY_DELAY then MaturingIDs(l, height) else {})
    && Enumerates(o.expired, ExpiringIDs(l, height))
  }

  // The diffs applyMaintenance generates.
  function MaintenanceDiffs(l: Ledger, id: Hash, b: Block, height: nat, o: Order): DiffSet
  {
    DiffSet(
      MatureDiffs(l, o.matured, height),
      CloseContracts(l.contracts, o.expired),
      [],
      PayoutDiffs(id, b.minerPayouts, height + MATURITY_DELAY) +
      UndelayDiffs(l, o.matured, height) +
      ClosingPayouts(l.contracts, o.expired, false, height + MATURITY_DELAY),
      [])
  }

  function GenesisTxn(outs: seq<SiacoinOutput>, funds: seq<SiafundOutput>): TxnCore
  {
    TxnCore([], outs, [], [], [], [], funds, [], [])
  }

  function GenesisSiafundID(env: Env, i: nat): Hash
  {
    SiafundOutputHash(GenesisTxn([], env.genesisSiafunds), i)
  }

  // The removals of the swap record value zero, not the value removed.
  function SwapRemovals(env: Env, n: nat): seq<Diff<Hash, SiafundOutput>>
    requires n <= |env.genesisSiafunds|
  {
    seq(n, i requires 0 <= i < n =>
      Diff(false, GenesisSiafundID(env, i), SiafundOutput(0, env.genesisSiafunds[i].unlockHash, 0)))
  }

  function SwapAdditions(env: Env, n: nat): seq<Diff<Hash, SiafundOutput>>
    requires n <= |env.forkedSiafunds|
  {
    seq(n, i requires 0 <= i < n => Diff(true, env.forkedSiafunds[i].unlockHash, env.forkedSiafunds[i]))
  }

  function SwapDiffs(env: Env, height: nat): DiffSet
  {
    if height == SWAP_HEIGHT then
      NO_DIFFS.(siafunds := SwapRemovals(env, |env.genesisSiafunds|) + SwapAdditions(env, |env.forkedSiafunds|))
    else NO_DIFFS
  }

  // ---------------------------------------------------------------- one block

  // The state maintenance starts from: the block's bucket opened and its transactions applied.
  function AfterTxns(env: Env, l: Ledger, b: Block, height: nat): Ledger
  {
    var widened := OpenBucket(l, height + MATURITY_DELAY);
    CommitSet(widened, TxnsDiffs(env, widened, b.transactions, height))
  }

  // All the diffs generateAndApplyDiff stores for a block.
  function BlockDiffs(env: Env, l: Ledger, id: Hash, b: Block, height: nat, o: Order): DiffSet
  {
    var widened := OpenBucket(l, height + MATURITY_DELAY);
    Then(Then(TxnsDiffs(env, widened, b.transactions, height),
              MaintenanceDiffs(AfterTxns(env, l, b, height), id, b, height, o)),
         SwapDiffs(env, height))
  }

  ghost function Enumerate(s: set<Hash>): (r: seq<Hash>)
    ensures Enumerates(r, s)
  {
    if s == {} then [] else
      var x :| x in s;
      var rest := Enumerate(s - {x});
      assert forall y :: y in rest + [x] <==> y in s;
      rest + [x]
  }

  ghost function SomeOrder(l: Ledger, height: nat): (o: Order)
    ensures OrderOK(l, height, o)
  {
    Order(Enumerate(if height >= MATURITY_DELAY then MaturingIDs(l, height) else {}),
          Enumerate(ExpiringIDs(l, height)))
  }

  // Applying the block leads to this ledger, whatever the scan order.
  ghost predicate Leads(env: Env, l: Ledger, id: Hash, b: Block, height: nat, next: Ledger)
  {
    forall o :: OrderOK(AfterTxns(env, l, b, height), height, o) ==>
      ApplyDiffs(l, BlockDiffs(env, l, id, b, height, o), id, height) == next
  }

  // The ledger after a block. BlockReverts.GeneratesApplyBlock shows that for a valid block every
  // scan order leads to it.
  ghost function ApplyBlock(env: Env, l: Ledger, id: Hash, b: Block, height: nat): Ledger
  {
    if exists next :: Leads(env, l, id, b, height, next) then
      var next :| Leads(env, l, id, b, height, next);
      next
    else l
  }

  // ---------------------------------------------------------------- genesis

  function GenesisBlock(env: Env): Block
  {
    Block(ZERO_HASH, 0, env.genesisTimestamp, [],
          [Transaction(GenesisTxn(env.genesisSiacoins, []), []),
           Transaction(GenesisTxn([], env.genesisSiafunds), [])])
  }

  function GenesisID(env: Env): Hash { BlockHash(GenesisBlock(env)) }

  // The diffs recorded for the genesis block. The genesis payout is not among them.
  function GenesisDiffs(env: Env): DiffSet
  {
    var scs := GenesisTxn(env.genesisSiacoins, []);
    NO_DIFFS.(
      siacoins := CreateSiacoins(scs, |scs.siacoinOutputs|),
      siafunds := seq(|env.genesisSiafunds|, i requires 0 <= i < |env.genesisSiafunds| =>
        Diff(true, GenesisSiafundID(env, i), env.genesisSiafunds[i])))
  }

  function GenesisPayoutKey(env: Env): (nat, Hash)
  {
    (MATURITY_DELAY, MinerPayoutHash(GenesisID(env), 0))
  }

  // createConsensusDB.
  function GenesisLedger(env: Env): Ledger
  {
    Ledger([GenesisID(env)],
           CommitAll(map[], GenesisDiffs(env).siacoins),
           map[],
           CommitAll(map[], GenesisDiffs(env).siafunds),
           0,
           map[GenesisPayoutKey(env) := SiacoinOutput(Coinbase(0), ZERO_HASH)],
           {MATURITY_DELAY})
  }
}
