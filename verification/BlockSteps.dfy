/** The invariant of the consensus set, kept by every valid block. */
module BlockSteps {
  import opened Types
  import opened Sums
  import opened Diffs
  import opened Money
  import opened Ledgers
  import opened Validity
  import opened Tracking
  import opened Conservation
  import opened Blocks
  import opened Steps

  // Whether height k has a bucket of delayed outputs after a block of this height.
  ghost predicate BucketDue(k: nat, height: nat)
  {
    height < k <= height + MATURITY_DELAY && k >= MATURITY_DELAY
  }

  ghost function ExpectedBuckets(height: nat): set<nat>
  {
    set k: nat | 0 <= k <= height + MATURITY_DELAY && BucketDue(k, height)
  }

  ghost predicate BucketsExact(l: Ledger, height: nat)
  {
    && l.buckets == ExpectedBuckets(height)
    && (forall k :: k in l.delayed ==> BucketDue(k.0, height))
  }

  // What holds of the ledger between blocks, besides the sums.
  ghost predicate Inv(env: Env, l: Ledger, h: History)
  {
    && l.path != [] && h.blocks == Elements(l.path) && (h.swapped <==> |l.path| > SWAP_HEIGHT)
    && Tracked(l, h)
    && BucketsExact(l, Height(l))
    && ContractsSound(l.contracts, Height(l))
    && FundsSound(l.siafunds, l.pool)
    && GenesisClaims(env, l.siafunds)
  }

  // The net siacoins are the airdrop and every coinbase so far.
  ghost predicate Balanced(l: Ledger, height: nat)
  {
    Net(l) == AIRDROP_COINS + CoinbaseSum(height)
  }

  // The block's transactions are valid one after another.
  ghost predicate BlockValid(env: Env, l: Ledger, b: Block, height: nat)
  {
    TxnsValid(env, OpenBucket(l, height + MATURITY_DELAY), b.transactions, height)
  }

  // ---------------------------------------------------------------- the stages of a block

  ghost function AfterMaintenance(env: Env, l: Ledger, id: Hash, b: Block, height: nat, o: Order): Ledger
  {
    var mid := AfterTxns(env, l, b, height);
    CommitSet(mid, MaintenanceDiffs(mid, id, b, height, o))
  }

  ghost function AfterSwap(env: Env, l: Ledger, id: Hash, b: Block, height: nat, o: Order): Ledger
  {
    CommitSet(AfterMaintenance(env, l, id, b, height, o), SwapDiffs(env, height))
  }

  ghost function HistoryAfter(env: Env, l: Ledger, h: History, id: Hash, b: Block, height: nat, o: Order): History
  {
    var txns := TxnsHistory(env, OpenBucket(l, height + MATURITY_DELAY), h, b.transactions, height);
    var done := MaintenanceHistory(txns, AfterTxns(env, l, b, height), id, b, height, o);
    if height == SWAP_HEIGHT then SwapHistory(env, AfterMaintenance(env, l, id, b, height, o), done) else done
  }

  // Replaying the grouped diffs reaches the state the stages reach one after another.
  lemma Stages(env: Env, l: Ledger, id: Hash, b: Block, height: nat, o: Order)
    ensures CommitSet(OpenBucket(l, height + MATURITY_DELAY), BlockDiffs(env, l, id, b, height, o)) ==
            AfterSwap(env, l, id, b, height, o)
  {
    var widened := OpenBucket(l, height + MATURITY_DELAY);
    var txns := TxnsDiffs(env, widened, b.transactions, height);
    var upkeep := MaintenanceDiffs(AfterTxns(env, l, b, height), id, b, height, o);
    CommitSetThen(widened, txns, upkeep);
    CommitSetThen(widened, Then(txns, upkeep), SwapDiffs(env, height));
  }

  lemma TxnsStage(env: Env, l: Ledger, h: History, b: Block, height: nat)
    requires Inv(env, l, h) && |l.path| == height && BlockValid(env, l, b, height)
    ensures var mid := AfterTxns(env, l, b, height);
      var g := TxnsHistory(env, OpenBucket(l, height + MATURITY_DELAY), h, b.transactions, height);
      && Tracked(mid, g) && g.blocks == h.blocks && g.swapped == h.swapped
      && ContractsSound(mid.contracts, height - 1) && FundsSound(mid.siafunds, mid.pool)
      && mid.path == l.path
  {
    var widened := OpenBucket(l, height + MATURITY_DELAY);
    assert Tracked(widened, h);
    TxnsTracked(env, widened, h, b.transactions, height);
    TxnsSound(env, widened, b.transactions, height);
    TxnsHistoryKeeps(env, widened, h, b.transactions, height);
  }

  lemma {:induction false} TxnsHistoryKeeps(env: Env, l: Ledger, h: History, ts: seq<Transaction>, height: nat)
    ensures var g := TxnsHistory(env, l, h, ts, height); g.blocks == h.blocks && g.swapped == h.swapped
  {
    if ts != [] {
      TxnsHistoryKeeps(env, l, h, ts[..|ts| - 1], height);
    }
  }

  lemma TrackedAfter(env: Env, l: Ledger, h: History, id: Hash, b: Block, height: nat, o: Order)
    requires EnvOK(env) && Inv(env, l, h) && |l.path| == height && BlockValid(env, l, b, height) && id !in l.path
    requires OrderOK(AfterTxns(env, l, b, height), height, o)
    ensures Tracked(AfterSwap(env, l, id, b, height, o), HistoryAfter(env, l, h, id, b, height, o))
    ensures var g := HistoryAfter(env, l, h, id, b, height, o);
      g.blocks == h.blocks + {id} && (g.swapped <==> h.swapped || height == SWAP_HEIGHT)
  {
    hide TxnsDiffs, TxnsHistory, MaintenanceDiffs, Tracked, BlockValid, OrderOK;
    TxnsStage(env, l, h, b, height);
    var mid := AfterTxns(env, l, b, height);
    var g := TxnsHistory(env, OpenBucket(l, height + MATURITY_DELAY), h, b.transactions, height);
    MaintenanceTracked(mid, g, id, b, height, o);
    var done := AfterMaintenance(env, l, id, b, height, o);
    if height == SWAP_HEIGHT {
      SwapTracked(env, done, MaintenanceHistory(g, mid, id, b, height, o));
    } else {
      assert CommitSet(done, SwapDiffs(env, height)) == done;
    }
  }

  // ---------------------------------------------------------------- delayed outputs

  lemma DueIsMatured(l: Ledger, height: nat, o: Order, k: (nat, Hash))
    requires OrderOK(l, height, o) && k in l.delayed
    ensures k.0 == height >= MATURITY_DELAY ==> k in MaturedKeys(o.matured, height)
  {
    if k.0 == height >= MATURITY_DELAY {
      assert k.1 in MaturingIDs(l, height) && k == (height, k.1);
      assert k.1 in o.matured;
    }
  }

  // Maintenance empties the bucket it is about to delete.
  lemma BucketEmptied(env: Env, l: Ledger, h: History, id: Hash, b: Block, height: nat, o: Order, k: (nat, Hash))
    requires EnvOK(env) && Inv(env, l, h) && |l.path| == height && BlockValid(env, l, b, height) && id !in l.path
    requires OrderOK(AfterTxns(env, l, b, height), height, o)
    requires k in AfterSwap(env, l, id, b, height, o).delayed
    ensures k.0 != height && BucketDue(k.0, height) && (k in l.delayed || k.0 == height + MATURITY_DELAY)
  {
    var mid := AfterTxns(env, l, b, height);
    var widened := OpenBucket(l, height + MATURITY_DELAY);
    TxnsStage(env, l, h, b, height);
    MaintenanceDelayed(mid, TxnsHistory(env, widened, h, b.transactions, height), id, b, height, o);
    TxnsDelayed(env, widened, b.transactions, height);
    NewDelayedShape(mid, id, b, height, o);
    if k in Ids(NewDelayed(mid, id, b, height, o)) {
      var d :| d in NewDelayed(mid, id, b, height, o) && d.id == k;
      assert NewDelayedKey(d.id, id, o, height + MATURITY_DELAY);
    } else {
      assert k in mid.delayed && k !in MaturedKeys(o.matured, height);
      Sources(l.delayed, TxnsDiffs(env, widened, b.transactions, height).delayed, k);
      assert k in l.delayed ==> BucketDue(k.0, Height(l));
      DueIsMatured(mid, height, o, k);
    }
  }

  lemma NothingDropped(env: Env, l: Ledger, h: History, id: Hash, b: Block, height: nat, o: Order)
    requires EnvOK(env) && Inv(env, l, h) && |l.path| == height && BlockValid(env, l, b, height) && id !in l.path
    requires OrderOK(AfterTxns(env, l, b, height), height, o)
    ensures var next := AfterSwap(env, l, id, b, height, o); WithoutHeight(next.delayed, height) == next.delayed
  {
    forall k | k in AfterSwap(env, l, id, b, height, o).delayed ensures k.0 != height {
      BucketEmptied(env, l, h, id, b, height, o, k);
    }
  }

  // The state after a block: the stages, with one bucket fewer and one block more.
  lemma NextLedger(env: Env, l: Ledger, h: History, id: Hash, b: Block, height: nat, o: Order)
    requires EnvOK(env) && Inv(env, l, h) && |l.path| == height && BlockValid(env, l, b, height) && id !in l.path
    requires OrderOK(AfterTxns(env, l, b, height), height, o)
    ensures ApplyDiffs(l, BlockDiffs(env, l, id, b, height, o), id, height) ==
            AfterSwap(env, l, id, b, height, o).(path := l.path + [id], buckets := ExpectedBuckets(height))
  {
    Stages(env, l, id, b, height, o);
    NothingDropped(env, l, h, id, b, height, o);
    NextAssembles(l, BlockDiffs(env, l, id, b, height, o), AfterSwap(env, l, id, b, height, o), id, height);
  }

  lemma NextAssembles(l: Ledger, d: DiffSet, after: Ledger, id: Hash, height: nat)
    requires BucketsExact(l, Height(l)) && |l.path| == height > 0
    requires CommitSet(OpenBucket(l, height + MATURITY_DELAY), d) == after
    requires WithoutHeight(after.delayed, height) == after.delayed
    ensures ApplyDiffs(l, d, id, height) == after.(path := l.path + [id], buckets := ExpectedBuckets(height))
  {
    assert Height(l) == height - 1;
    assert l.buckets == ExpectedBuckets(height - 1);
    BucketsMove(height);
  }

  lemma BucketsMove(height: nat)
    requires height > 0
    ensures var wide := ExpectedBuckets(height - 1) + {height + MATURITY_DELAY};
      (if height >= MATURITY_DELAY then wide - {height} else wide) == ExpectedBuckets(height)
    ensures height + MATURITY_DELAY !in ExpectedBuckets(height - 1)
    ensures height >= MATURITY_DELAY ==> height in ExpectedBuckets(height - 1)
  {
  }

  // ---------------------------------------------------------------- the invariant

  lemma TxnGenesisClaims(env: Env, l: Ledger, c: TxnCore, height: nat)
    requires Applicable(env, l, c) && GenesisClaims(env, l.siafunds)
    ensures GenesisClaims(env, CommitSet(l, TxnDiffs(env, l, c, height)).siafunds)
  {
    Funded(env, l, c);
    var pool := PoolAfter(l.pool, Height(l), c.fileContracts);
    var spends, creates := SpendSiafunds(env, l, c.siafundInputs), CreateSiafunds(c, |c.siafundOutputs|, pool);
    var ds := spends + creates;
    forall id | id in CommitAll(l.siafunds, ds) && id in GenesisSiafundIDs(env)
      ensures CommitAll(l.siafunds, ds)[id].claimStart == 0
    {
      Sources(l.siafunds, ds, id);
    }
  }

  lemma {:induction false} TxnsGenesisClaims(env: Env, l: Ledger, ts: seq<Transaction>, height: nat)
    requires TxnsValid(env, l, ts, height) && GenesisClaims(env, l.siafunds)
    ensures GenesisClaims(env, CommitSet(l, TxnsDiffs(env, l, ts, height)).siafunds)
  {
    if ts != [] {
      var n := |ts| - 1;
      LastValid(env, l, ts, height);
      TxnsGenesisClaims(env, l, ts[..n], height);
      var before := TxnsDiffs(env, l, ts[..n], height);
      var mid := CommitSet(l, before);
      TxnGenesisClaims(env, mid, ts[n].core, height);
      CommitSetThen(l, before, TxnDiffs(env, mid, ts[n].core, height));
    }
  }

  lemma SoundAfter(env: Env, l: Ledger, h: History, id: Hash, b: Block, height: nat, o: Order)
    requires EnvOK(env) && Inv(env, l, h) && |l.path| == height && BlockValid(env, l, b, height) && id !in l.path
    requires OrderOK(AfterTxns(env, l, b, height), height, o)
    ensures var next := AfterSwap(env, l, id, b, height, o);
      ContractsSound(next.contracts, height) && FundsSound(next.siafunds, next.pool) && GenesisClaims(env, next.siafunds)
  {
    var mid := AfterTxns(env, l, b, height);
    TxnsStage(env, l, h, b, height);
    MaintenanceContracts(mid, id, b, height, o);
    TxnsGenesisClaims(env, OpenBucket(l, height + MATURITY_DELAY), b.transactions, height);
    if height == SWAP_HEIGHT {
      ForkedFresh(env, TxnsHistory(env, OpenBucket(l, height + MATURITY_DELAY), h, b.transactions, height));
      SwapSound(env, mid.siafunds, mid.pool);
      SwapResult(env, mid.siafunds);
    }
  }

  lemma BucketsAfter(env: Env, l: Ledger, h: History, id: Hash, b: Block, height: nat, o: Order)
    requires EnvOK(env) && Inv(env, l, h) && |l.path| == height && BlockValid(env, l, b, height) && id !in l.path
    requires OrderOK(AfterTxns(env, l, b, height), height, o)
    ensures forall k :: k in AfterSwap(env, l, id, b, height, o).delayed ==> BucketDue(k.0, height)
  {
    forall k | k in AfterSwap(env, l, id, b, height, o).delayed ensures BucketDue(k.0, height) {
      BucketEmptied(env, l, h, id, b, height, o, k);
    }
  }

  // A valid block keeps the invariant, whatever the scan order.
  lemma BlockKeepsInv(env: Env, l: Ledger, h: History, id: Hash, b: Block, height: nat, o: Order)
    requires EnvOK(env) && Inv(env, l, h) && |l.path| == height && BlockValid(env, l, b, height) && id !in l.path
    requires OrderOK(AfterTxns(env, l, b, height), height, o)
    ensures Inv(env, ApplyDiffs(l, BlockDiffs(env, l, id, b, height, o), id, height),
                HistoryAfter(env, l, h, id, b, height, o))
  {
    NextLedger(env, l, h, id, b, height, o);
    TrackedAfter(env, l, h, id, b, height, o);
    SoundAfter(env, l, h, id, b, height, o);
    BucketsAfter(env, l, h, id, b, height, o);
    InvAssembles(env, AfterSwap(env, l, id, b, height, o), HistoryAfter(env, l, h, id, b, height, o), l.path, id, height);
  }

  lemma InvAssembles(env: Env, l: Ledger, h: History, path: seq<Hash>, id: Hash, height: nat)
    requires |path| == height && h.blocks == Elements(path) + {id} && (h.swapped <==> height >= SWAP_HEIGHT)
    requires Tracked(l, h)
    requires forall k :: k in l.delayed ==> BucketDue(k.0, height)
    requires ContractsSound(l.contracts, height) && FundsSound(l.siafunds, l.pool) && GenesisClaims(env, l.siafunds)
    ensures Inv(env, l.(path := path + [id], buckets := ExpectedBuckets(height)), h)
  {
    assert Elements(path + [id]) == Elements(path) + {id};
  }

  // The sums after a block: its payouts come in and its fees go out.
  lemma SumsAfter(env: Env, l: Ledger, h: History, id: Hash, b: Block, height: nat, o: Order)
    requires EnvOK(env) && Inv(env, l, h) && |l.path| == height && BlockValid(env, l, b, height) && id !in l.path
    requires OrderOK(AfterTxns(env, l, b, height), height, o)
    ensures Net(AfterSwap(env, l, id, b, height, o)) + MinerFees(b) == Net(l) + SumSeq(b.minerPayouts, Value)
  {
    hide TxnsDiffs, TxnsHistory, OrderOK, SumMap, OriginsOK, LiveSiacoins, Live;
    var widened := OpenBucket(l, height + MATURITY_DELAY);
    var mid := AfterTxns(env, l, b, height);
    var g := TxnsHistory(env, widened, h, b.transactions, height);
    TxnsStage(env, l, h, b, height);
    assert Net(widened) == Net(l);
    TxnsNet(env, widened, h, b.transactions, height);
    MaintenanceSupply(mid, g, id, b, height, o);
    if height == SWAP_HEIGHT {
      TxnsGenesisClaims(env, widened, b.transactions, height);
      SwapKeepsSums(env, AfterMaintenance(env, l, id, b, height, o), mid, g);
    }
  }

  // A valid block that pays its miners correctly adds exactly its coinbase to the net coins.
  lemma BlockKeepsBalance(env: Env, l: Ledger, h: History, id: Hash, b: Block, height: nat, o: Order)
    requires EnvOK(env) && Inv(env, l, h) && |l.path| == height && BlockValid(env, l, b, height) && id !in l.path
    requires OrderOK(AfterTxns(env, l, b, height), height, o)
    requires height > 0 && Balanced(l, height - 1) && PaysSubsidy(b, height)
    ensures Balanced(ApplyDiffs(l, BlockDiffs(env, l, id, b, height, o), id, height), height)
  {
    SumsAfter(env, l, h, id, b, height, o);
    NextLedger(env, l, h, id, b, height, o);
  }

  lemma SwapKeepsSums(env: Env, done: Ledger, mid: Ledger, g: History)
    requires EnvOK(env) && Tracked(mid, g) && !g.swapped
    requires done.siafunds == mid.siafunds && done.pool == mid.pool && FundsSound(mid.siafunds, mid.pool)
    requires GenesisClaims(env, mid.siafunds)
    ensures Net(CommitSet(done, SwapDiffs(env, SWAP_HEIGHT))) == Net(done)
  {
    ForkedFresh(env, g);
    SwapClaims(env, mid.siafunds, mid.pool);
  }
}
