/**
 Whole chains. A block id contains its block, which names its parent, so an id determines its
 ancestry and with it the one ledger that applying that ancestry from genesis leaves.
 */
module Chains {
  import opened Types
  import opened Sums
  import opened Diffs
  import opened Money
  import opened Ledgers
  import opened Validity
  import opened Tracking
  import opened Conservation
  import opened Blocks
  import opened Steps
  import opened BlockSteps
  import opened BlockReverts

  // ---------------------------------------------------------------- the genesis block

  ghost function GenesisHistory(env: Env): History
  {
    History(OutputIDs(GenesisTxn(env.genesisSiacoins, [])) + {GenesisPayoutKey(env).1}, {}, {}, {},
            GenesisSiafundIDs(env), {}, {GenesisID(env)}, false)
  }

  lemma GenesisSiacoins(env: Env)
    ensures GenesisLedger(env).siacoins.Keys == OutputIDs(GenesisTxn(env.genesisSiacoins, []))
    ensures SumMap(GenesisLedger(env).siacoins, Value) == SumSeq(env.genesisSiacoins, Value)
  {
    var t := GenesisTxn(env.genesisSiacoins, []);
    var ds := CreateSiacoins(t, |t.siacoinOutputs|);
    FillsEmpty(ds, env.genesisSiacoins);
    assert Ids(ds) == OutputIDs(t) by {
      forall i | 0 <= i < |ds| ensures SiacoinOutputHash(t, i) in Ids(ds) { assert ds[i] in ds; }
    }
  }

  lemma {:induction false} FillsEmpty(ds: seq<Diff<Hash, SiacoinOutput>>, outs: seq<SiacoinOutput>)
    requires AllApply(ds) && Distinct(ds) && |ds| == |outs|
    requires forall i :: 0 <= i < |ds| ==> ds[i].value == outs[i]
    ensures var m := CommitAll(map[], ds); m.Keys == Ids(ds) && SumMap(m, Value) == SumSeq(outs, Value)
  {
    var none: map<Hash, SiacoinOutput> := map[];
    Insertions(none, ds);
    RecordsView(none, ds, Value);
    Balance(none, ds, Value);
    OneSided(ds, Value, outs, Value);
  }

  // A list of additions under distinct keys fills an empty bucket with exactly its values.
  lemma {:induction false} Allocates(ds: seq<Diff<Hash, SiafundOutput>>, funds: seq<SiafundOutput>)
    requires AllApply(ds) && Distinct(ds) && |ds| == |funds| && AllocationOK(funds)
    requires forall i :: 0 <= i < |ds| ==> ds[i].value == funds[i]
    ensures var m := CommitAll(map[], ds);
      m.Keys == Ids(ds) && SumMap(m, FundValue) == 10000 && FundsSound(m, 0)
  {
    var none: map<Hash, SiafundOutput> := map[];
    Insertions(none, ds);
    RecordsView(none, ds, FundValue);
    Balance(none, ds, FundValue);
    OneSided(ds, FundValue, funds, FundValue);
    forall id | id in CommitAll(none, ds) ensures FundSound(CommitAll(none, ds)[id], 0) {
      var d :| d in ds && d.id == id;
      var i :| 0 <= i < |ds| && ds[i] == d;
    }
  }

  lemma GenesisSiafunds(env: Env)
    requires EnvOK(env)
    ensures GenesisLedger(env).siafunds.Keys == GenesisSiafundIDs(env)
    ensures SumMap(GenesisLedger(env).siafunds, FundValue) == 10000
    ensures FundsSound(GenesisLedger(env).siafunds, 0) && GenesisClaims(env, GenesisLedger(env).siafunds)
  {
    var ds := GenesisDiffs(env).siafunds;
    Allocates(ds, env.genesisSiafunds);
    assert Ids(ds) == GenesisSiafundIDs(env) by {
      forall i | 0 <= i < |ds| ensures GenesisSiafundID(env, i) in Ids(ds) { assert ds[i] in ds; }
    }
    assert GenesisClaims(env, GenesisLedger(env).siafunds) by {
      forall id | id in GenesisLedger(env).siafunds ensures GenesisLedger(env).siafunds[id].claimStart == 0 {
        assert FundSound(GenesisLedger(env).siafunds[id], 0);
      }
    }
  }

  lemma GenesisInv(env: Env)
    requires EnvOK(env)
    ensures Inv(env, GenesisLedger(env), GenesisHistory(env))
  {
    hide SumMap, SumSeq;
    var l := GenesisLedger(env);
    GenesisSiacoins(env);
    GenesisSiafunds(env);
    assert l.buckets == ExpectedBuckets(0) by {
      forall k | k in ExpectedBuckets(0) ensures k == MATURITY_DELAY { assert BucketDue(k, 0); }
      assert BucketDue(MATURITY_DELAY, 0);
    }
    assert Elements(l.path) == {GenesisID(env)};
  }

  lemma GenesisBalanced(env: Env)
    requires EnvOK(env)
    ensures Balanced(GenesisLedger(env), 0)
  {
    GenesisSiacoins(env);
    GenesisSiafunds(env);
    ZeroClaims(GenesisLedger(env).siafunds);
    var none: map<(nat, Hash), SiacoinOutput> := map[];
    SumMapInsert(none, GenesisPayoutKey(env), SiacoinOutput(Coinbase(0), ZERO_HASH), Value);
    assert none[GenesisPayoutKey(env) := SiacoinOutput(Coinbase(0), ZERO_HASH)] == GenesisLedger(env).delayed;
  }

  // The database a new node starts from satisfies the invariant and both counts.
  lemma GenesisGood(env: Env)
    requires EnvOK(env)
    ensures Inv(env, GenesisLedger(env), GenesisHistory(env)) && Balanced(GenesisLedger(env), 0)
  {
    GenesisInv(env);
    GenesisBalanced(env);
  }

  // ---------------------------------------------------------------- ancestry

  // Following parents from this id ends at the genesis block.
  ghost predicate Rooted(env: Env, id: Hash)
  {
    id == GenesisID(env) || (id.BlockHash? && Rooted(env, id.block.parentID))
  }

  ghost function HeightOf(env: Env, id: Hash): nat
    requires Rooted(env, id)
  {
    if id == GenesisID(env) then 0 else HeightOf(env, id.block.parentID) + 1
  }

  ghost function PathOf(env: Env, id: Hash): seq<Hash>
    requires Rooted(env, id)
  {
    if id == GenesisID(env) then [id] else PathOf(env, id.block.parentID) + [id]
  }

  // The ledger that applying the ancestry of a block once, from genesis, leaves.
  ghost function LedgerOf(env: Env, id: Hash): Ledger
    requires Rooted(env, id)
  {
    if id == GenesisID(env) then GenesisLedger(env)
    else ApplyBlock(env, LedgerOf(env, id.block.parentID), id, id.block, HeightOf(env, id))
  }

  ghost function HistoryNext(env: Env, l: Ledger, h: History, id: Hash, b: Block, height: nat): History
  {
    HistoryAfter(env, l, h, id, b, height, SomeOrder(AfterTxns(env, l, b, height), height))
  }

  ghost function HistoryOf(env: Env, id: Hash): History
    requires Rooted(env, id)
  {
    if id == GenesisID(env) then GenesisHistory(env) else
      HistoryNext(env, LedgerOf(env, id.block.parentID), HistoryOf(env, id.block.parentID), id, id.block, HeightOf(env, id))
  }

  // A block may follow its parent: its transactions are valid there and it pays out its subsidy,
  // which either payout rule demands.
  ghost predicate ValidChild(env: Env, id: Hash)
    requires Rooted(env, id) && id != GenesisID(env)
  {
    && BlockValid(env, LedgerOf(env, id.block.parentID), id.block, HeightOf(env, id))
    && PaysSubsidy(id.block, HeightOf(env, id))
  }

  ghost predicate ValidChain(env: Env, id: Hash)
    requires Rooted(env, id)
  {
    id != GenesisID(env) ==> ValidChain(env, id.block.parentID) && ValidChild(env, id)
  }

  // No siafund had moved when the chain went through the swap.
  ghost predicate SwapSafe(env: Env, id: Hash)
    requires Rooted(env, id)
  {
    id != GenesisID(env) ==>
      && SwapSafe(env, id.block.parentID)
      && (HeightOf(env, id) == SWAP_HEIGHT ==>
           Unmoved(env, AfterTxns(env, LedgerOf(env, id.block.parentID), id.block, HeightOf(env, id)).siafunds))
  }

  // The path lists one ancestor of each height, so no block is its own ancestor.
  lemma {:induction false} PathHeights(env: Env, id: Hash)
    requires Rooted(env, id)
    ensures |PathOf(env, id)| == HeightOf(env, id) + 1 && PathOf(env, id)[HeightOf(env, id)] == id
    ensures forall i :: 0 <= i < |PathOf(env, id)| ==> Rooted(env, PathOf(env, id)[i]) && HeightOf(env, PathOf(env, id)[i]) == i
    ensures forall i :: 0 <= i < |PathOf(env, id)| ==> PathOf(env, PathOf(env, id)[i]) == PathOf(env, id)[..i + 1]
  {
    if id != GenesisID(env) {
      var p := id.block.parentID;
      PathHeights(env, p);
      forall i | 0 <= i < |PathOf(env, id)|
        ensures Rooted(env, PathOf(env, id)[i]) && HeightOf(env, PathOf(env, id)[i]) == i
        ensures PathOf(env, PathOf(env, id)[i]) == PathOf(env, id)[..i + 1]
      {
        if i < |PathOf(env, p)| {
          assert PathOf(env, id)[i] == PathOf(env, p)[i];
          assert PathOf(env, id)[..i + 1] == PathOf(env, p)[..i + 1];
        }
      }
    }
  }

  lemma {:induction false} NotOnOwnPath(env: Env, id: Hash)
    requires Rooted(env, id) && id != GenesisID(env)
    ensures id !in PathOf(env, id.block.parentID)
  {
    PathHeights(env, id.block.parentID);
  }

  // ---------------------------------------------------------------- what every valid chain keeps

  // A valid block on top of a ledger that satisfies the invariant.
  ghost predicate GoodStep(env: Env, l: Ledger, h: History, id: Hash, b: Block, height: nat)
  {
    && EnvOK(env) && Inv(env, l, h) && |l.path| == height
    && BlockValid(env, l, b, height) && id !in l.path && PaysSubsidy(b, height)
  }

  // The block step in terms of ApplyBlock.
  lemma StepInv(env: Env, l: Ledger, h: History, id: Hash, b: Block, height: nat)
    requires GoodStep(env, l, h, id, b, height)
    ensures Inv(env, ApplyBlock(env, l, id, b, height), HistoryNext(env, l, h, id, b, height))
    ensures ApplyBlock(env, l, id, b, height).path == l.path + [id]
  {
    var o := SomeOrder(AfterTxns(env, l, b, height), height);
    GeneratesApplyBlock(env, l, h, id, b, height, o);
    BlockKeepsInv(env, l, h, id, b, height, o);
  }

  // The invariant holds of the ledger of every valid chain, whose path is its ancestry.
  lemma {:induction false} ChainInv(env: Env, id: Hash)
    requires EnvOK(env) && Rooted(env, id) && ValidChain(env, id)
    ensures Inv(env, LedgerOf(env, id), HistoryOf(env, id)) && LedgerOf(env, id).path == PathOf(env, id)
  {
    if id == GenesisID(env) {
      GenesisGood(env);
    } else {
      var p := id.block.parentID;
      ChainInv(env, p);
      PathHeights(env, p);
      NotOnOwnPath(env, id);
      StepInv(env, LedgerOf(env, p), HistoryOf(env, p), id, id.block, HeightOf(env, id));
    }
  }

  lemma {:induction false} ParentReady(env: Env, id: Hash)
    requires EnvOK(env) && Rooted(env, id) && ValidChain(env, id) && id != GenesisID(env)
    ensures var p := id.block.parentID; GoodStep(env, LedgerOf(env, p), HistoryOf(env, p), id, id.block, HeightOf(env, id))
  {
    ChainInv(env, id.block.parentID);
    PathHeights(env, id.block.parentID);
    NotOnOwnPath(env, id);
  }

  lemma StepBalanced(env: Env, l: Ledger, h: History, id: Hash, b: Block, height: nat)
    requires GoodStep(env, l, h, id, b, height) && Balanced(l, height - 1)
    ensures Balanced(ApplyBlock(env, l, id, b, height), height)
  {
    var o := SomeOrder(AfterTxns(env, l, b, height), height);
    GeneratesApplyBlock(env, l, h, id, b, height, o);
    BlockKeepsBalance(env, l, h, id, b, height, o);
  }

  // What the genesis ledger has and every step keeps, every valid chain has.
  lemma {:induction false} ChainInduction(env: Env, id: Hash, P: Ledger -> bool)
    requires EnvOK(env) && Rooted(env, id) && ValidChain(env, id)
    requires P(GenesisLedger(env))
    requires forall l, h, x, b, height :: GoodStep(env, l, h, x, b, height) && P(l) ==> P(ApplyBlock(env, l, x, b, height))
    ensures P(LedgerOf(env, id))
  {
    if id != GenesisID(env) {
      var p := id.block.parentID;
      ChainInduction(env, p, P);
      ParentReady(env, id);
    }
  }

  lemma {:induction false} ChainHeight(env: Env, id: Hash)
    requires EnvOK(env) && Rooted(env, id) && ValidChain(env, id)
    ensures Height(LedgerOf(env, id)) == HeightOf(env, id)
  {
    ChainInv(env, id);
    PathHeights(env, id);
  }

  // ---------------------------------------------------------------- the siafund count

  lemma {:induction false} TxnsFundCount(env: Env, l: Ledger, h: History, ts: seq<Transaction>, height: nat)
    requires Tracked(l, h) && TxnsValid(env, l, ts, height)
    ensures SumMap(CommitSet(l, TxnsDiffs(env, l, ts, height)).siafunds, FundValue) == SumMap(l.siafunds, FundValue)
  {
    if ts != [] {
      var n := |ts| - 1;
      LastValid(env, l, ts, height);
      TxnsFundCount(env, l, h, ts[..n], height);
      TxnsTracked(env, l, h, ts[..n], height);
      var before := TxnsDiffs(env, l, ts[..n], height);
      var mid := CommitSet(l, before);
      TxnFundCount(env, mid, TxnsHistory(env, l, h, ts[..n], height), ts[n].core, height);
      CommitSetThen(l, before, TxnDiffs(env, mid, ts[n].core, height));
    }
  }

  lemma FundsAfter(env: Env, l: Ledger, id: Hash, b: Block, height: nat, o: Order)
    ensures AfterSwap(env, l, id, b, height, o).siafunds ==
            CommitAll(AfterTxns(env, l, b, height).siafunds, SwapDiffs(env, height).siafunds)
  {
  }

  lemma CountAfterTxns(env: Env, l: Ledger, h: History, b: Block, height: nat)
    requires Tracked(l, h) && BlockValid(env, l, b, height)
    ensures SumMap(AfterTxns(env, l, b, height).siafunds, FundValue) == SumMap(l.siafunds, FundValue)
  {
    var widened := OpenBucket(l, height + MATURITY_DELAY);
    assert Tracked(widened, h);
    TxnsFundCount(env, widened, h, b.transactions, height);
  }

  // Only the swap can change the number of siafunds, and it keeps it exactly when none has moved.
  lemma StepFundCount(env: Env, l: Ledger, h: History, id: Hash, b: Block, height: nat)
    requires GoodStep(env, l, h, id, b, height)
    ensures height != SWAP_HEIGHT ==>
      SumMap(ApplyBlock(env, l, id, b, height).siafunds, FundValue) == SumMap(l.siafunds, FundValue)
    ensures height == SWAP_HEIGHT ==>
      (SumMap(ApplyBlock(env, l, id, b, height).siafunds, FundValue) == 10000 <==>
       Unmoved(env, AfterTxns(env, l, b, height).siafunds))
  {
    var mid := AfterTxns(env, l, b, height);
    var o := SomeOrder(mid, height);
    GeneratesApplyBlock(env, l, h, id, b, height, o);
    NextLedger(env, l, h, id, b, height, o);
    FundsAfter(env, l, id, b, height, o);
    if height == SWAP_HEIGHT {
      TxnsStage(env, l, h, b, height);
      ForkedFresh(env, TxnsHistory(env, OpenBucket(l, height + MATURITY_DELAY), h, b.transactions, height));
      SwapCountIff(env, mid.siafunds, mid.pool);
    } else {
      CountAfterTxns(env, l, h, b, height);
    }
  }

  // A chain has 10000 siafunds exactly when none had moved before the swap.
  lemma {:induction false} ChainCountIff(env: Env, id: Hash)
    requires EnvOK(env) && Rooted(env, id) && ValidChain(env, id)
    ensures SumMap(LedgerOf(env, id).siafunds, FundValue) == 10000 <==> SwapSafe(env, id)
  {
    hide SumMap, GoodStep, Unmoved;
    if id == GenesisID(env) {
      GenesisSiafunds(env);
    } else {
      var p := id.block.parentID;
      ChainCountIff(env, p);
      ParentReady(env, id);
      StepFundCount(env, LedgerOf(env, p), HistoryOf(env, p), id, id.block, HeightOf(env, id));
      if HeightOf(env, id) == SWAP_HEIGHT {
        EarlySafe(env, p);
      }
    }
  }

  ghost predicate Accounted(l: Ledger) { Balanced(l, Height(l)) }

  lemma StepAccounted(env: Env, l: Ledger, h: History, id: Hash, b: Block, height: nat)
    requires GoodStep(env, l, h, id, b, height) && Accounted(l)
    ensures Accounted(ApplyBlock(env, l, id, b, height))
  {
    hide Balanced, BlockValid, Tracked, BucketsExact, ContractsSound, FundsSound, GenesisClaims;
    StepInv(env, l, h, id, b, height);
    assert Height(l) == height - 1 && Height(ApplyBlock(env, l, id, b, height)) == height;
    StepBalanced(env, l, h, id, b, height);
  }

  // On every valid chain the siacoins are those of the airdrop and one coinbase for each block,
  // which the closed form computes, corrected by what the siafunds over or under 10000 have accrued.
  lemma {:induction false} ChainSupply(env: Env, id: Hash)
    requires EnvOK(env) && Rooted(env, id) && ValidChain(env, id)
    ensures var l := LedgerOf(env, id);
      && l.pool % 10000 == 0
      && Net(l) == NumSiacoins(HeightOf(env, id))
      && Supply(l) == NumSiacoins(HeightOf(env, id)) + l.pool / 10000 * (SumMap(l.siafunds, FundValue) - 10000)
  {
    hide GoodStep, Supply, SumMap, ValidChain, Tracked, BucketsExact, ContractsSound;
    GenesisBalanced(env);
    forall l, h, x, b, height | GoodStep(env, l, h, x, b, height) && Accounted(l)
      ensures Accounted(ApplyBlock(env, l, x, b, height))
    {
      StepAccounted(env, l, h, x, b, height);
    }
    ChainInduction(env, id, Accounted);
    ChainHeight(env, id);
    ChainInv(env, id);
    NumSiacoinsIsSum(HeightOf(env, id));
    NetIsSupply(LedgerOf(env, id));
  }

  // So the supply is right exactly when no siafund had moved before the swap, or nothing has been
  // taxed yet.
  lemma SupplyIff(env: Env, id: Hash)
    requires EnvOK(env) && Rooted(env, id) && ValidChain(env, id)
    ensures Supply(LedgerOf(env, id)) == NumSiacoins(HeightOf(env, id)) <==> SwapSafe(env, id) || LedgerOf(env, id).pool == 0
  {
    ChainSupply(env, id);
    ChainCountIff(env, id);
    NetIsSupply(LedgerOf(env, id));
  }

  lemma {:induction false} EarlySafe(env: Env, id: Hash)
    requires Rooted(env, id) && HeightOf(env, id) < SWAP_HEIGHT
    ensures SwapSafe(env, id)
  {
    if id != GenesisID(env) {
      EarlySafe(env, id.block.parentID);
    }
  }

  // ---------------------------------------------------------------- nothing comes back

  ghost predicate Grows(g: History, h: History)
  {
    && g.siacoins <= h.siacoins && g.spent <= h.spent && g.contracts <= h.contracts && g.closed <= h.closed
    && g.siafunds <= h.siafunds && g.spentFunds <= h.spentFunds && g.blocks <= h.blocks
  }

  lemma {:induction false} TxnsHistoryGrows(env: Env, l: Ledger, h: History, ts: seq<Transaction>, height: nat)
    ensures Grows(h, TxnsHistory(env, l, h, ts, height))
  {
    if ts != [] {
      TxnsHistoryGrows(env, l, h, ts[..|ts| - 1], height);
    }
  }

  lemma GrowsOn(f: History, g: History, h: History)
    requires Grows(f, g) && Grows(g, h)
    ensures Grows(f, h)
  {
  }

  lemma MaintenanceGrows(h: History, l: Ledger, id: Hash, b: Block, height: nat, o: Order)
    ensures Grows(h, MaintenanceHistory(h, l, id, b, height, o))
  {
  }

  lemma StepGrows(env: Env, l: Ledger, h: History, id: Hash, b: Block, height: nat)
    ensures Grows(h, HistoryNext(env, l, h, id, b, height))
  {
    var o := SomeOrder(AfterTxns(env, l, b, height), height);
    var widened := OpenBucket(l, height + MATURITY_DELAY);
    var g := TxnsHistory(env, widened, h, b.transactions, height);
    TxnsHistoryGrows(env, widened, h, b.transactions, height);
    MaintenanceGrows(g, AfterTxns(env, l, b, height), id, b, height, o);
    var done := MaintenanceHistory(g, AfterTxns(env, l, b, height), id, b, height, o);
    GrowsOn(h, g, done);
    GrowsOn(h, done, HistoryNext(env, l, h, id, b, height));
  }

  lemma {:induction false} HistoryGrows(env: Env, ancestor: Hash, id: Hash)
    requires Rooted(env, id) && Rooted(env, ancestor) && ancestor in PathOf(env, id)
    ensures Grows(HistoryOf(env, ancestor), HistoryOf(env, id))
  {
    if ancestor != id {
      var p, height := id.block.parentID, HeightOf(env, id);
      HistoryGrows(env, ancestor, p);
      StepGrows(env, LedgerOf(env, p), HistoryOf(env, p), id, id.block, height);
    }
  }

  // The siacoin outputs a ledger holds, spendable or delayed.
  ghost function Coins(l: Ledger): set<Hash> { l.siacoins.Keys + Seconds(l.delayed.Keys) }

  lemma CoinsExact(l: Ledger, h: History)
    requires Tracked(l, h)
    ensures Coins(l) == h.siacoins - h.spent
  {
  }

  // An output or a contract that has left the ledger of a chain never comes back on it: each is
  // spent, or closed, at most once.
  lemma {:induction false} NothingReturns(env: Env, a: Hash, b: Hash, c: Hash, x: Hash)
    requires EnvOK(env) && Rooted(env, a) && Rooted(env, b) && Rooted(env, c) && ValidChain(env, a) && ValidChain(env, b) && ValidChain(env, c)
    requires a in PathOf(env, b) && b in PathOf(env, c)
    ensures x in Coins(LedgerOf(env, a)) && x in Coins(LedgerOf(env, c)) ==> x in Coins(LedgerOf(env, b))
    ensures x in LedgerOf(env, a).contracts && x in LedgerOf(env, c).contracts ==> x in LedgerOf(env, b).contracts
    ensures x in LedgerOf(env, a).siafunds && x in LedgerOf(env, c).siafunds ==> x in LedgerOf(env, b).siafunds
  {
    ChainInv(env, a);
    ChainInv(env, b);
    ChainInv(env, c);
    HistoryGrows(env, a, b);
    HistoryGrows(env, b, c);
    StaysGone(LedgerOf(env, a), HistoryOf(env, a), LedgerOf(env, b), HistoryOf(env, b), LedgerOf(env, c), HistoryOf(env, c), x);
  }

  lemma StaysGone(a: Ledger, f: History, b: Ledger, g: History, c: Ledger, h: History, x: Hash)
    requires Tracked(a, f) && Tracked(b, g) && Tracked(c, h) && Grows(f, g) && Grows(g, h)
    ensures x in Coins(a) && x in Coins(c) ==> x in Coins(b)
    ensures x in a.contracts && x in c.contracts ==> x in b.contracts
    ensures x in a.siafunds && x in c.siafunds ==> x in b.siafunds
  {
    CoinsExact(a, f);
    CoinsExact(b, g);
    CoinsExact(c, h);
  }

  // ---------------------------------------------------------------- delayed buckets

  // The bucket of delayed outputs for one height.
  ghost function Bucket(m: map<(nat, Hash), SiacoinOutput>, height: nat): map<(nat, Hash), SiacoinOutput>
  {
    map k | k in m && k.0 == height :: m[k]
  }

  lemma BucketUntouched(m: map<(nat, Hash), SiacoinOutput>, ds: seq<DelayedDiff>, k: nat)
    requires forall d :: d in ds ==> d.id.0 != k
    ensures Bucket(CommitAll(m, ds), k) == Bucket(m, k)
  {
    forall x: (nat, Hash) | x.0 == k
      ensures x in CommitAll(m, ds) <==> x in m
      ensures x in m ==> x in CommitAll(m, ds) && CommitAll(m, ds)[x] == m[x]
    {
      assert x !in Ids(ds);
      Untouched(m, ds, x);
    }
  }

  lemma BucketKept(env: Env, l: Ledger, id: Hash, b: Block, height: nat, o: Order, k: nat)
    requires BlockValid(env, l, b, height) && OrderOK(AfterTxns(env, l, b, height), height, o)
    requires k != height && k != height + MATURITY_DELAY
    ensures Bucket(ApplyDiffs(l, BlockDiffs(env, l, id, b, height, o), id, height).delayed, k) == Bucket(l.delayed, k)
  {
    var d := BlockDiffs(env, l, id, b, height, o);
    forall e | e in d.delayed ensures e.id.0 != k {
      DelayedKeys(env, l, id, b, height, o, e);
    }
    BucketUntouched(l.delayed, d.delayed, k);
    BucketOfRest(CommitAll(l.delayed, d.delayed), height, k);
    assert ApplyDiffs(l, d, id, height).delayed ==
      if height >= MATURITY_DELAY then WithoutHeight(CommitAll(l.delayed, d.delayed), height) else CommitAll(l.delayed, d.delayed);
  }

  lemma StepKeepsBucket(env: Env, l: Ledger, h: History, id: Hash, b: Block, height: nat, k: nat)
    requires GoodStep(env, l, h, id, b, height)
    requires k != height && k != height + MATURITY_DELAY
    ensures Bucket(ApplyBlock(env, l, id, b, height).delayed, k) == Bucket(l.delayed, k)
  {
    var o := SomeOrder(AfterTxns(env, l, b, height), height);
    GeneratesApplyBlock(env, l, h, id, b, height, o);
    BucketKept(env, l, id, b, height, o, k);
  }

  lemma BucketOfRest(m: map<(nat, Hash), SiacoinOutput>, height: nat, k: nat)
    requires k != height
    ensures Bucket(WithoutHeight(m, height), k) == Bucket(m, k)
  {
  }

  lemma OwnBucketIsNew(l: Ledger, height: nat)
    requires |l.path| == height > 0 && BucketsExact(l, Height(l))
    ensures NothingDue(l, height + MATURITY_DELAY)
  {
    assert Bucket(l.delayed, height + MATURITY_DELAY).Keys == {};
  }

  ghost predicate NothingDue(l: Ledger, height: nat)
  {
    Bucket(l.delayed, height) == map[]
  }

  // The bucket a block opens holds what that block delays, and later blocks leave it alone until
  // it matures.
  lemma {:induction false} BucketContents(env: Env, id: Hash, k: nat)
    requires EnvOK(env) && Rooted(env, id) && ValidChain(env, id) && BucketDue(k, HeightOf(env, id))
    ensures k - MATURITY_DELAY < |PathOf(env, id)| && Rooted(env, PathOf(env, id)[k - MATURITY_DELAY])
    ensures Bucket(LedgerOf(env, id).delayed, k) == Bucket(LedgerOf(env, PathOf(env, id)[k - MATURITY_DELAY]).delayed, k)
  {
    PathHeights(env, id);
    if k < HeightOf(env, id) + MATURITY_DELAY {
      var p := id.block.parentID;
      BucketContents(env, p, k);
      ParentReady(env, id);
      StepKeepsBucket(env, LedgerOf(env, p), HistoryOf(env, p), id, id.block, HeightOf(env, id), k);
      PathHeights(env, p);
      assert PathOf(env, id)[k - MATURITY_DELAY] == PathOf(env, p)[k - MATURITY_DELAY];
    }
  }

  // Before the block that opens it, a bucket holds nothing.
  lemma {:induction false} BucketStartsEmpty(env: Env, id: Hash)
    requires EnvOK(env) && Rooted(env, id) && ValidChain(env, id) && id != GenesisID(env)
    ensures NothingDue(LedgerOf(env, id.block.parentID), HeightOf(env, id) + MATURITY_DELAY)
  {
    ParentReady(env, id);
    OwnBucketIsNew(LedgerOf(env, id.block.parentID), HeightOf(env, id));
  }

  // A part of a map made of known entries sums to no more than the map.
  lemma {:induction false} SumAtLeast<K>(m: map<K, SiacoinOutput>, ds: seq<Diff<K, SiacoinOutput>>)
    requires AllApply(ds) && Distinct(ds)
    requires forall d :: d in ds ==> d.id in m && m[d.id] == d.value
    ensures SumMap(m, Value) >= Added(ds, Value)
  {
    var rest := m - Ids(ds);
    Insertions(rest, ds);
    RecordsView(rest, ds, Value);
    Balance(rest, ds, Value);
    OneSided(ds, Value, ds, (d: Diff<K, SiacoinOutput>) => d.value.value);
    Rejoins(m, ds);
  }

  lemma {:induction false} Rejoins<K, V>(m: map<K, V>, ds: seq<Diff<K, V>>)
    requires AllApply(ds) && Distinct(ds)
    requires forall d :: d in ds ==> d.id in m && m[d.id] == d.value
    ensures CommitAll(m - Ids(ds), ds) == m
  {
    Insertions(m - Ids(ds), ds);
    var all := CommitAll(m - Ids(ds), ds);
    forall k | k in m ensures k in all && all[k] == m[k] {
      if k in Ids(ds) {
        var d :| d in ds && d.id == k;
      }
    }
    assert all.Keys == m.Keys;
  }

  // The payouts of a block stay in the bucket it opens.
  lemma PayoutsLand(l: Ledger, h: History, id: Hash, b: Block, height: nat, o: Order, d: DelayedDiff)
    requires Tracked(l, h) && id !in h.blocks && OrderOK(l, height, o)
    requires d in PayoutDiffs(id, b.minerPayouts, height + MATURITY_DELAY)
    ensures var after := CommitAll(l.delayed, MaintenanceDiffs(l, id, b, height, o).delayed);
      d.id in after && after[d.id] == d.value
  {
    var maturity := height + MATURITY_DELAY;
    var payouts := PayoutDiffs(id, b.minerPayouts, maturity);
    var undelayed := UndelayDiffs(l, o.matured, height);
    var missed := ClosingPayouts(l.contracts, o.expired, false, maturity);
    forall e: DelayedDiff | e in payouts ensures e.id !in l.delayed {
      assert NewDelayedKey(e.id, id, o, maturity);
      NewDelayedFresh(l, h, id, b, height, o, e.id);
    }
    Insertions(l.delayed, payouts);
    ClosingShape(l.contracts, o.expired, false, maturity);
    assert d.id !in Ids(undelayed + missed) by {
      forall e: DelayedDiff | e in undelayed + missed ensures e.id != d.id {
        assert e in undelayed || e in missed;
      }
    }
    Untouched(CommitAll(l.delayed, payouts), undelayed + missed, d.id);
    CommitAppend(l.delayed, payouts, undelayed + missed);
    assert payouts + undelayed + missed == payouts + (undelayed + missed);
  }

  // The bucket holds at least the coinbase of this height.
  ghost predicate Covers(bucket: map<(nat, Hash), SiacoinOutput>, height: nat)
  {
    SumMap(bucket, Value) >= Coinbase(height)
  }

  lemma BucketPaid(env: Env, l: Ledger, h: History, id: Hash, b: Block, height: nat, o: Order)
    requires EnvOK(env) && Inv(env, l, h) && |l.path| == height && BlockValid(env, l, b, height) && id !in l.path
    requires OrderOK(AfterTxns(env, l, b, height), height, o) && PaysSubsidy(b, height)
    ensures Covers(Bucket(ApplyDiffs(l, BlockDiffs(env, l, id, b, height, o), id, height).delayed, height + MATURITY_DELAY), height)
  {
    var mid := AfterTxns(env, l, b, height);
    var payouts := PayoutDiffs(id, b.minerPayouts, height + MATURITY_DELAY);
    TxnsStage(env, l, h, b, height);
    var after := AfterSwap(env, l, id, b, height, o).delayed;
    forall d: DelayedDiff | d in payouts ensures d.id in after && after[d.id] == d.value && d.id.0 == height + MATURITY_DELAY {
      PayoutsLand(mid, TxnsHistory(env, OpenBucket(l, height + MATURITY_DELAY), h, b.transactions, height), id, b, height, o, d);
    }
    NextLedger(env, l, h, id, b, height, o);
    PayoutsCover(b, height, after, payouts);
  }

  lemma StepPaid(env: Env, l: Ledger, h: History, id: Hash, b: Block, height: nat)
    requires GoodStep(env, l, h, id, b, height)
    ensures Covers(Bucket(ApplyBlock(env, l, id, b, height).delayed, height + MATURITY_DELAY), height)
  {
    var o := SomeOrder(AfterTxns(env, l, b, height), height);
    GeneratesApplyBlock(env, l, h, id, b, height, o);
    BucketPaid(env, l, h, id, b, height, o);
  }

  lemma {:induction false} PayoutsCover(b: Block, height: nat, m: map<(nat, Hash), SiacoinOutput>, ds: seq<DelayedDiff>)
    requires PaysSubsidy(b, height) && AllApply(ds) && Distinct(ds) && |ds| == |b.minerPayouts|
    requires forall i :: 0 <= i < |ds| ==> ds[i].value == b.minerPayouts[i]
    requires forall d :: d in ds ==> d.id in m && m[d.id] == d.value && d.id.0 == height + MATURITY_DELAY
    ensures Covers(Bucket(m, height + MATURITY_DELAY), height)
  {
    SumAtLeast(Bucket(m, height + MATURITY_DELAY), ds);
    OneSided(ds, Value, b.minerPayouts, Value);
  }

  lemma GenesisCovered(env: Env)
    ensures BucketsCovered(GenesisLedger(env))
  {
    var m := GenesisLedger(env).delayed;
    SumMapRemove(m, GenesisPayoutKey(env), Value);
    assert Bucket(m, MATURITY_DELAY) == m;
  }

  // Every bucket holds at least the coinbase of the block that opened it.
  ghost predicate BucketsCovered(l: Ledger)
  {
    forall k: nat :: BucketDue(k, Height(l)) ==> Covers(Bucket(l.delayed, k), k - MATURITY_DELAY)
  }

  ghost predicate OtherBucketsKept(l: Ledger, next: Ledger, height: nat)
  {
    forall k: nat :: k != height && k != height + MATURITY_DELAY ==> Bucket(next.delayed, k) == Bucket(l.delayed, k)
  }

  lemma CoveredNext(l: Ledger, next: Ledger, height: nat)
    requires BucketsCovered(l) && |l.path| == height > 0 && |next.path| == height + 1
    requires Covers(Bucket(next.delayed, height + MATURITY_DELAY), height) && OtherBucketsKept(l, next, height)
    ensures BucketsCovered(next)
  {
    forall k: nat | BucketDue(k, height) ensures Covers(Bucket(next.delayed, k), k - MATURITY_DELAY) {
      if k != height + MATURITY_DELAY {
        assert BucketDue(k, Height(l));
      }
    }
  }

  lemma StepCovered(env: Env, l: Ledger, h: History, id: Hash, b: Block, height: nat)
    requires GoodStep(env, l, h, id, b, height) && BucketsCovered(l)
    ensures BucketsCovered(ApplyBlock(env, l, id, b, height))
  {
    StepInv(env, l, h, id, b, height);
    StepPaid(env, l, h, id, b, height);
    assert OtherBucketsKept(l, ApplyBlock(env, l, id, b, height), height) by {
      forall k: nat | k != height && k != height + MATURITY_DELAY
        ensures Bucket(ApplyBlock(env, l, id, b, height).delayed, k) == Bucket(l.delayed, k)
      {
        StepKeepsBucket(env, l, h, id, b, height, k);
      }
    }
    CoveredNext(l, ApplyBlock(env, l, id, b, height), height);
  }

  // checkDSCOs: in the ledger of every valid chain.
  lemma {:induction false} BucketMinimum(env: Env, id: Hash)
    requires EnvOK(env) && Rooted(env, id) && ValidChain(env, id)
    ensures BucketsCovered(LedgerOf(env, id)) && Height(LedgerOf(env, id)) == HeightOf(env, id)
  {
    GenesisCovered(env);
    forall l, h, x, b, height | GoodStep(env, l, h, x, b, height) && BucketsCovered(l)
      ensures BucketsCovered(ApplyBlock(env, l, x, b, height))
    {
      StepCovered(env, l, h, x, b, height);
    }
    ChainInduction(env, id, BucketsCovered);
    ChainHeight(env, id);
  }
}
