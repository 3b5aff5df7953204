/** Reverting a whole block, and independence of the order in which buckets are scanned. */
module BlockReverts {
  import opened Types
  import opened Diffs
  import opened Money
  import opened Ledgers
  import opened Tracking
  import opened Conservation
  import opened Blocks
  import opened Steps
  import opened BlockSteps
  import opened Reverting

  // ---------------------------------------------------------------- the pool

  lemma {:induction false} PoolDiffsStart(pool: nat, height: nat, cs: seq<FileContract>)
    ensures PoolDiffs(pool, height, cs) != [] ==> PoolDiffs(pool, height, cs)[0].previous == pool
  {
    if cs != [] {
      PoolDiffsStart(pool, height, cs[..|cs| - 1]);
    }
  }

  lemma {:induction false} PoolReverts(env: Env, l: Ledger, ts: seq<Transaction>, height: nat)
    ensures var ds := TxnsDiffs(env, l, ts, height).pool; RevertPool(CommitPool(l.pool, ds), ds) == l.pool
  {
    if ts != [] {
      var n := |ts| - 1;
      var before := TxnsDiffs(env, l, ts[..n], height);
      var mid := CommitSet(l, before);
      PoolReverts(env, l, ts[..n], height);
      PoolDiffsStart(mid.pool, Height(mid), ts[n].core.fileContracts);
    }
  }

  // ---------------------------------------------------------------- the other kinds

  // The diffs of transactions and maintenance fit and record what they remove.
  lemma KindsFit(env: Env, l: Ledger, h: History, id: Hash, b: Block, height: nat, o: Order)
    requires Inv(env, l, h) && |l.path| == height && BlockValid(env, l, b, height) && id !in l.path
    requires OrderOK(AfterTxns(env, l, b, height), height, o)
    ensures var widened := OpenBucket(l, height + MATURITY_DELAY);
      var d := Then(TxnsDiffs(env, widened, b.transactions, height),
                    MaintenanceDiffs(AfterTxns(env, l, b, height), id, b, height, o));
      FitsSet(widened, d) && RecordsSet(widened, d)
  {
    hide TxnsDiffs, TxnsHistory, MaintenanceDiffs, Then, OrderOK;
    var widened := OpenBucket(l, height + MATURITY_DELAY);
    var mid := AfterTxns(env, l, b, height);
    var g := TxnsHistory(env, widened, h, b.transactions, height);
    TxnsTracked(env, widened, h, b.transactions, height);
    TxnsHistoryKeeps(env, widened, h, b.transactions, height);
    MaintenanceFits(mid, g, id, b, height, o);
    FitsSetThen(widened, TxnsDiffs(env, widened, b.transactions, height), MaintenanceDiffs(mid, id, b, height, o));
    RecordsSetThen(widened, TxnsDiffs(env, widened, b.transactions, height), MaintenanceDiffs(mid, id, b, height, o));
  }

  // The part of a block's diffs that is not about siafunds, and the part that is.
  lemma DiffKinds(env: Env, l: Ledger, id: Hash, b: Block, height: nat, o: Order)
    ensures var widened := OpenBucket(l, height + MATURITY_DELAY);
      var txns := TxnsDiffs(env, widened, b.transactions, height);
      var d := Then(txns, MaintenanceDiffs(AfterTxns(env, l, b, height), id, b, height, o));
      var all := BlockDiffs(env, l, id, b, height, o);
      && all.siacoins == d.siacoins && all.contracts == d.contracts && all.delayed == d.delayed
      && all.pool == txns.pool && d.siafunds == txns.siafunds
      && all.siafunds == txns.siafunds + SwapDiffs(env, height).siafunds
  {
  }

  lemma OtherKindsRevert(l: Ledger, d: DiffSet)
    requires FitsSet(l, d) && RecordsSet(l, d)
    ensures RevertAll(CommitAll(l.siacoins, d.siacoins), d.siacoins) == l.siacoins
    ensures RevertAll(CommitAll(l.contracts, d.contracts), d.contracts) == l.contracts
    ensures RevertAll(CommitAll(l.delayed, d.delayed), d.delayed) == l.delayed
  {
    RevertUndoesCommit(l.siacoins, d.siacoins);
    RevertUndoesCommit(l.contracts, d.contracts);
    RevertUndoesCommit(l.delayed, d.delayed);
  }

  // If every kind but siafunds reverts, the block reverts up to siafunds: the buckets deleted on
  // the way are empty, and the path and the set of buckets come back.
  lemma RevertAssembles(l: Ledger, d: DiffSet, id: Hash, height: nat)
    requires BucketsExact(l, Height(l)) && |l.path| == height > 0
    requires WithoutHeight(CommitAll(l.delayed, d.delayed), height) == CommitAll(l.delayed, d.delayed)
    requires RevertAll(CommitAll(l.siacoins, d.siacoins), d.siacoins) == l.siacoins
    requires RevertAll(CommitAll(l.contracts, d.contracts), d.contracts) == l.contracts
    requires RevertAll(CommitAll(l.delayed, d.delayed), d.delayed) == l.delayed
    requires RevertPool(CommitPool(l.pool, d.pool), d.pool) == l.pool
    ensures RevertDiffs(ApplyDiffs(l, d, id, height), d, height) ==
            l.(siafunds := RevertAll(CommitAll(l.siafunds, d.siafunds), d.siafunds))
  {
    hide CommitAll, RevertAll, CommitPool, RevertPool;
    assert Height(l) == height - 1;
    BucketsMove(height);
    var after := CommitSet(OpenBucket(l, height + MATURITY_DELAY), d);
    NextAssembles(l, d, after, id, height);
    var applied := ApplyDiffs(l, d, id, height);
    assert applied.path[..|applied.path| - 1] == l.path;
    assert WithoutHeight(l.delayed, height + MATURITY_DELAY) == l.delayed by {
      forall k | k in l.delayed ensures k.0 != height + MATURITY_DELAY { assert BucketDue(k.0, height - 1); }
    }
    BucketsReturn(height);
  }

  lemma BucketsReturn(height: nat)
    requires height > 0
    ensures var back := if height >= MATURITY_DELAY then ExpectedBuckets(height) + {height} else ExpectedBuckets(height);
      back - {height + MATURITY_DELAY} == ExpectedBuckets(height - 1)
  {
  }

  // ---------------------------------------------------------------- siafunds

  lemma FundsRevertCase(env: Env, l: Ledger, ds: seq<Diff<Hash, SiafundOutput>>, spent: set<Hash>, height: nat)
    requires EnvOK(env) && FundsSound(l.siafunds, l.pool) && |l.path| == height
    requires Fits(l.siafunds, ds) && FundShape(env, ds, spent)
    requires FirstRecordsTrue(l.siafunds, ds) <==> ReadsTrue(env, l, spent)
    requires height == SWAP_HEIGHT ==> ForkedIDs(env) !! CommitAll(l.siafunds, ds).Keys
    ensures var all := ds + SwapDiffs(env, height).siafunds;
      RevertAll(CommitAll(l.siafunds, all), all) == l.siafunds <==> ReversibleSpending(env, l, spent, height)
  {
    RevertRestoresIff(l.siafunds, ds);
    if height == SWAP_HEIGHT {
      SwapReverts(env, l.siafunds, ds, l.pool);
      GenesisTouched(env, ds, spent);
    } else {
      assert ds + SwapDiffs(env, height).siafunds == ds;
    }
  }

  lemma FundsRevert(env: Env, l: Ledger, h: History, b: Block, height: nat)
    requires EnvOK(env) && Inv(env, l, h) && |l.path| == height && BlockValid(env, l, b, height)
    ensures var txns := TxnsDiffs(env, OpenBucket(l, height + MATURITY_DELAY), b.transactions, height);
      var all := txns.siafunds + SwapDiffs(env, height).siafunds;
      RevertAll(CommitAll(l.siafunds, all), all) == l.siafunds <==> Reversible(env, l, b, height)
  {
    var widened := OpenBucket(l, height + MATURITY_DELAY);
    var ds := TxnsDiffs(env, widened, b.transactions, height).siafunds;
    assert Fits(l.siafunds, ds) by { TxnsTracked(env, widened, h, b.transactions, height); }
    TxnsFirstRecords(env, widened, b.transactions, height);
    SameReads(env, l, widened, SpentFundIDs(b.transactions));
    TxnsFundDiffs(env, widened, b.transactions, height);
    if height == SWAP_HEIGHT {
      ForkedAbsent(env, l, h, b, height);
    }
    FundsRevertCase(env, l, ds, SpentFundIDs(b.transactions), height);
  }

  lemma SameReads(env: Env, l: Ledger, m: Ledger, spent: set<Hash>)
    requires m.siafunds == l.siafunds && m.path == l.path
    ensures ReadsTrue(env, l, spent) <==> ReadsTrue(env, m, spent)
  {
  }

  lemma ForkedAbsent(env: Env, l: Ledger, h: History, b: Block, height: nat)
    requires EnvOK(env) && Inv(env, l, h) && |l.path| == height == SWAP_HEIGHT && BlockValid(env, l, b, height)
    ensures ForkedIDs(env) !! AfterTxns(env, l, b, height).siafunds.Keys
  {
    TxnsStage(env, l, h, b, height);
    ForkedFresh(env, TxnsHistory(env, OpenBucket(l, height + MATURITY_DELAY), h, b.transactions, height));
  }

  lemma GenesisTouched(env: Env, ds: seq<Diff<Hash, SiafundOutput>>, spent: set<Hash>)
    requires FundShape(env, ds, spent)
    ensures GenesisSiafundIDs(env) <= Ids(ds) <==> GenesisSiafundIDs(env) <= spent
  {
  }

  // Reverting a block restores the ledger exactly when the block is reversible.
  lemma RevertsIff(env: Env, l: Ledger, h: History, id: Hash, b: Block, height: nat, o: Order)
    requires EnvOK(env) && Inv(env, l, h) && |l.path| == height && BlockValid(env, l, b, height) && id !in l.path
    requires OrderOK(AfterTxns(env, l, b, height), height, o)
    ensures var d := BlockDiffs(env, l, id, b, height, o);
      && RevertDiffs(ApplyDiffs(l, d, id, height), d, height) ==
         l.(siafunds := RevertAll(CommitAll(l.siafunds, d.siafunds), d.siafunds))
      && (RevertDiffs(ApplyDiffs(l, d, id, height), d, height) == l <==> Reversible(env, l, b, height))
  {
    var d := BlockDiffs(env, l, id, b, height, o);
    var widened := OpenBucket(l, height + MATURITY_DELAY);
    KindsFit(env, l, h, id, b, height, o);
    DiffKinds(env, l, id, b, height, o);
    OtherKindsRevert(widened, Then(TxnsDiffs(env, widened, b.transactions, height),
                                   MaintenanceDiffs(AfterTxns(env, l, b, height), id, b, height, o)));
    PoolReverts(env, widened, b.transactions, height);
    NothingDropped(env, l, h, id, b, height, o);
    Stages(env, l, id, b, height, o);
    RevertAssembles(l, d, id, height);
    FundsRevert(env, l, h, b, height);
  }

  // ---------------------------------------------------------------- the scan order does not matter

  lemma {:induction false} ClosingMember(m: map<Hash, FileContract>, ids: seq<Hash>, valid: bool, maturity: nat, d: DelayedDiff)
    ensures d in ClosingPayouts(m, ids, valid, maturity) <==>
      exists id :: id in ids && d in ContractPayouts(id, valid, ProofOutputs(StoredContract(m, id), valid), maturity)
  {
    if ids != [] {
      var n := |ids| - 1;
      ClosingMember(m, ids[..n], valid, maturity, d);
      assert forall id :: id in ids <==> id in ids[..n] || id == ids[n];
    }
  }

  lemma MatureMembers(l: Ledger, a: seq<Hash>, b: seq<Hash>, height: nat, d: Diff<Hash, SiacoinOutput>)
    requires forall m :: m in a ==> m in b
    requires d in MatureDiffs(l, a, height)
    ensures d in MatureDiffs(l, b, height)
  {
    var i :| 0 <= i < |a| && MatureDiffs(l, a, height)[i] == d;
    assert a[i] in b;
    var j :| 0 <= j < |b| && b[j] == a[i];
    assert MatureDiffs(l, b, height)[j] == d;
  }

  lemma MaturedOrder(l: Ledger, h: History, height: nat, o: Order, p: Order)
    requires Tracked(l, h) && OrderOK(l, height, o) && OrderOK(l, height, p)
    ensures CommitAll(l.siacoins, MatureDiffs(l, o.matured, height)) == CommitAll(l.siacoins, MatureDiffs(l, p.matured, height))
  {
    var a, b := MatureDiffs(l, o.matured, height), MatureDiffs(l, p.matured, height);
    forall d | d in a ensures d.id !in l.siacoins {
      var i :| 0 <= i < |a| && a[i] == d;
      MaturingKey(l, height, o, i);
    }
    forall d ensures d in a <==> d in b {
      if d in a { MatureMembers(l, o.matured, p.matured, height, d); }
      if d in b { MatureMembers(l, p.matured, o.matured, height, d); }
    }
    InsertionOrder(l.siacoins, a, b);
  }

  lemma UndelayedOrder(l: Ledger, m: map<(nat, Hash), SiacoinOutput>, height: nat, a: seq<Hash>, b: seq<Hash>)
    requires forall x :: x in a <==> x in b
    ensures CommitAll(m, UndelayDiffs(l, a, height)) == CommitAll(m, UndelayDiffs(l, b, height))
  {
    UndelayIDs(l, a, height);
    UndelayIDs(l, b, height);
    RemovalsAny(m, UndelayDiffs(l, a, height));
    RemovalsAny(m, UndelayDiffs(l, b, height));
    assert MaturedKeys(a, height) == MaturedKeys(b, height);
  }

  lemma UndelayIDs(l: Ledger, ids: seq<Hash>, height: nat)
    ensures Ids(UndelayDiffs(l, ids, height)) == MaturedKeys(ids, height)
  {
    var ds := UndelayDiffs(l, ids, height);
    forall i | 0 <= i < |ds| ensures (height, ids[i]) in Ids(ds) { assert ds[i] in ds; }
  }

  lemma DelayedOrder(l: Ledger, h: History, id: Hash, b: Block, height: nat, o: Order, p: Order)
    requires Tracked(l, h) && id !in h.blocks && OrderOK(l, height, o) && OrderOK(l, height, p)
    ensures CommitAll(l.delayed, MaintenanceDiffs(l, id, b, height, o).delayed) ==
            CommitAll(l.delayed, MaintenanceDiffs(l, id, b, height, p).delayed)
  {
    var maturity := height + MATURITY_DELAY;
    var payouts := PayoutDiffs(id, b.minerPayouts, maturity);
    var m := CommitAll(l.delayed, payouts);
    var uo, up := UndelayDiffs(l, o.matured, height), UndelayDiffs(l, p.matured, height);
    var co, cp := ClosingPayouts(l.contracts, o.expired, false, maturity), ClosingPayouts(l.contracts, p.expired, false, maturity);
    CommitAppend(l.delayed, payouts, uo);
    CommitAppend(l.delayed, payouts + uo, co);
    CommitAppend(l.delayed, payouts, up);
    CommitAppend(l.delayed, payouts + up, cp);
    UndelayedOrder(l, m, height, o.matured, p.matured);
    ClosingOrder(l, h, id, b, height, o, p);
  }

  lemma ClosingOrder(l: Ledger, h: History, id: Hash, b: Block, height: nat, o: Order, p: Order)
    requires Tracked(l, h) && id !in h.blocks && OrderOK(l, height, o) && OrderOK(l, height, p)
    ensures var maturity := height + MATURITY_DELAY;
      var m := CommitAll(CommitAll(l.delayed, PayoutDiffs(id, b.minerPayouts, maturity)), UndelayDiffs(l, o.matured, height));
      CommitAll(m, ClosingPayouts(l.contracts, o.expired, false, maturity)) ==
      CommitAll(m, ClosingPayouts(l.contracts, p.expired, false, maturity))
  {
    var maturity := height + MATURITY_DELAY;
    var payouts := PayoutDiffs(id, b.minerPayouts, maturity);
    var undelay := UndelayDiffs(l, o.matured, height);
    var m := CommitAll(CommitAll(l.delayed, payouts), undelay);
    var co, cp := ClosingPayouts(l.contracts, o.expired, false, maturity), ClosingPayouts(l.contracts, p.expired, false, maturity);
    ClosingShape(l.contracts, o.expired, false, maturity);
    ClosingShape(l.contracts, p.expired, false, maturity);
    forall d: DelayedDiff ensures d in co <==> d in cp {
      ClosingMember(l.contracts, o.expired, false, maturity, d);
      ClosingMember(l.contracts, p.expired, false, maturity, d);
    }
    RemovalsAny(CommitAll(l.delayed, payouts), undelay);
    forall d: DelayedDiff | d in co ensures d.id !in m {
      assert NewDelayedKey(d.id, id, o, maturity);
      NewDelayedFresh(l, h, id, b, height, o, d.id);
      if d.id in CommitAll(l.delayed, payouts) {
        Sources(l.delayed, payouts, d.id);
      }
    }
    InsertionOrder(m, co, cp);
  }

  // Whatever order the buckets are scanned in, maintenance leaves the same ledger.
  lemma MaintenanceOrder(l: Ledger, h: History, id: Hash, b: Block, height: nat, o: Order, p: Order)
    requires Tracked(l, h) && id !in h.blocks && OrderOK(l, height, o) && OrderOK(l, height, p)
    ensures CommitSet(l, MaintenanceDiffs(l, id, b, height, o)) == CommitSet(l, MaintenanceDiffs(l, id, b, height, p))
  {
    MaturedOrder(l, h, height, o, p);
    DelayedOrder(l, h, id, b, height, o, p);
    assert Elements(o.expired) == Elements(p.expired);
    assert Elements(o.expired) <= l.contracts.Keys by {
      forall c | c in o.expired ensures c in l.contracts { assert c in ExpiringIDs(l, height); }
    }
    ClosingFits(l.contracts, o.expired);
    ClosingFits(l.contracts, p.expired);
  }

  lemma OrderIrrelevant(env: Env, l: Ledger, h: History, id: Hash, b: Block, height: nat, o: Order, p: Order)
    requires EnvOK(env) && Inv(env, l, h) && |l.path| == height && BlockValid(env, l, b, height) && id !in l.path
    requires OrderOK(AfterTxns(env, l, b, height), height, o) && OrderOK(AfterTxns(env, l, b, height), height, p)
    ensures ApplyDiffs(l, BlockDiffs(env, l, id, b, height, o), id, height) ==
            ApplyDiffs(l, BlockDiffs(env, l, id, b, height, p), id, height)
  {
    TxnsStage(env, l, h, b, height);
    MaintenanceOrder(AfterTxns(env, l, b, height),
                     TxnsHistory(env, OpenBucket(l, height + MATURITY_DELAY), h, b.transactions, height), id, b, height, o, p);
    NextLedger(env, l, h, id, b, height, o);
    NextLedger(env, l, h, id, b, height, p);
  }

  // Every way of generating the diffs of a valid block leads to the one ledger ApplyBlock names.
  lemma GeneratesApplyBlock(env: Env, l: Ledger, h: History, id: Hash, b: Block, height: nat, o: Order)
    requires EnvOK(env) && Inv(env, l, h) && |l.path| == height && BlockValid(env, l, b, height) && id !in l.path
    requires OrderOK(AfterTxns(env, l, b, height), height, o)
    ensures ApplyDiffs(l, BlockDiffs(env, l, id, b, height, o), id, height) == ApplyBlock(env, l, id, b, height)
  {
    var next := ApplyDiffs(l, BlockDiffs(env, l, id, b, height, o), id, height);
    assert Leads(env, l, id, b, height, next) by {
      forall p | OrderOK(AfterTxns(env, l, b, height), height, p)
        ensures ApplyDiffs(l, BlockDiffs(env, l, id, b, height, p), id, height) == next
      {
        OrderIrrelevant(env, l, h, id, b, height, o, p);
      }
    }
  }

  // ---------------------------------------------------------------- the delayed buckets a block touches

  lemma MaintenanceKeys(l: Ledger, id: Hash, b: Block, height: nat, o: Order, d: DelayedDiff)
    requires OrderOK(l, height, o) && d in MaintenanceDiffs(l, id, b, height, o).delayed
    ensures d.id.0 == height + MATURITY_DELAY || (height >= MATURITY_DELAY && d.id.0 == height)
  {
    ClosingShape(l.contracts, o.expired, false, height + MATURITY_DELAY);
    if d in UndelayDiffs(l, o.matured, height) {
      assert |o.matured| > 0 && o.matured[0] in o.matured;
    }
  }

  // A block touches only the bucket that matures with it and the one it opens.
  lemma DelayedKeys(env: Env, l: Ledger, id: Hash, b: Block, height: nat, o: Order, d: DelayedDiff)
    requires BlockValid(env, l, b, height) && OrderOK(AfterTxns(env, l, b, height), height, o)
    requires d in BlockDiffs(env, l, id, b, height, o).delayed
    ensures d.id.0 == height + MATURITY_DELAY || (height >= MATURITY_DELAY && d.id.0 == height)
  {
    var widened := OpenBucket(l, height + MATURITY_DELAY);
    TxnsDelayed(env, widened, b.transactions, height);
    if d !in TxnsDiffs(env, widened, b.transactions, height).delayed {
      MaintenanceKeys(AfterTxns(env, l, b, height), id, b, height, o, d);
    }
  }
}
