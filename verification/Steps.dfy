/**
 One block, from the state its parent leaves to the state it leaves: the consistency checks
 hold again afterwards.
 */
module Steps {
  import opened Types
  import opened Sums
  import opened Diffs
  import opened Money
  import opened Ledgers
  import opened Validity
  import opened Tracking
  import opened Conservation
  import opened Blocks

  // ---------------------------------------------------------------- maintenance and the sums

  function MaturedValue(l: Ledger, height: nat): Hash -> nat
  {
    (m: Hash) => StoredDelayed(l.delayed, (height, m)).value
  }

  lemma {:induction false} ClosingEqual(m: map<Hash, FileContract>, ids: seq<Hash>)
    requires forall id :: id in ids ==> id in m && ValidSum(m[id]) == MissedSum(m[id])
    ensures ClosingTotal(m, ids, true) == ClosingTotal(m, ids, false)
  {
    if ids != [] {
      assert ids[|ids| - 1] in ids;
      assert forall id :: id in ids[..|ids| - 1] ==> id in ids;
      ClosingEqual(m, ids[..|ids| - 1]);
    }
  }

  lemma MaturedSum(l: Ledger, h: History, id: Hash, b: Block, height: nat, o: Order)
    requires Tracked(l, h) && OrderOK(l, height, o)
    ensures SumMap(CommitAll(l.siacoins, MaintenanceDiffs(l, id, b, height, o).siacoins), Value) ==
            SumMap(l.siacoins, Value) + SumSeq(o.matured, MaturedValue(l, height))
  {
    hide LiveSiacoins, OriginsOK, Live, SumMap, SumSeq, Fits, Records, CommitAll;
    var ds := MatureDiffs(l, o.matured, height);
    assert Fits(l.siacoins, ds) && Records(l.siacoins, ds, Itself) by { MaintenanceSiacoins(l, h, id, b, height, o); }
    RecordsView(l.siacoins, ds, Value);
    Balance(l.siacoins, ds, Value);
    OneSided(ds, Value, o.matured, MaturedValue(l, height));
  }

  lemma ExpiredSum(l: Ledger, height: nat, o: Order)
    requires OrderOK(l, height, o)
    ensures SumMap(CommitAll(l.contracts, CloseContracts(l.contracts, o.expired)), ValidSum) +
            ClosingTotal(l.contracts, o.expired, true) == SumMap(l.contracts, ValidSum)
  {
    var ds := CloseContracts(l.contracts, o.expired);
    assert Elements(o.expired) <= l.contracts.Keys by {
      forall c | c in o.expired ensures c in l.contracts { assert c in ExpiringIDs(l, height); }
    }
    ClosingFits(l.contracts, o.expired);
    RecordsView(l.contracts, ds, ValidSum);
    Balance(l.contracts, ds, ValidSum);
    CloseBalance(l.contracts, o.expired);
  }

  lemma DelayedSum(l: Ledger, h: History, id: Hash, b: Block, height: nat, o: Order)
    requires Tracked(l, h) && id !in h.blocks && OrderOK(l, height, o)
    ensures SumMap(CommitAll(l.delayed, MaintenanceDiffs(l, id, b, height, o).delayed), Value) +
            SumSeq(o.matured, MaturedValue(l, height)) ==
            SumMap(l.delayed, Value) + SumSeq(b.minerPayouts, Value) + ClosingTotal(l.contracts, o.expired, false)
  {
    var ds := MaintenanceDiffs(l, id, b, height, o).delayed;
    assert Fits(l.delayed, ds) && Records(l.delayed, ds, Itself) by { MaintenanceDelayed(l, h, id, b, height, o); }
    RecordsView(l.delayed, ds, Value);
    Balance(l.delayed, ds, Value);
    MaintenanceDelayedSums(l, id, b, height, o);
  }

  lemma MaintenanceDelayedSums(l: Ledger, id: Hash, b: Block, height: nat, o: Order)
    requires OrderOK(l, height, o)
    ensures var ds := MaintenanceDiffs(l, id, b, height, o).delayed;
      && Added(ds, Value) == SumSeq(b.minerPayouts, Value) + ClosingTotal(l.contracts, o.expired, false)
      && Removed(ds, Value) == SumSeq(o.matured, MaturedValue(l, height))
  {
    var maturity := height + MATURITY_DELAY;
    var payouts := PayoutDiffs(id, b.minerPayouts, maturity);
    var removals := UndelayDiffs(l, o.matured, height);
    var missed := ClosingPayouts(l.contracts, o.expired, false, maturity);
    AddedAppend(payouts + removals, missed, Value);
    AddedAppend(payouts, removals, Value);
    OneSided(payouts, Value, b.minerPayouts, Value);
    OneSided(removals, Value, o.matured, MaturedValue(l, height));
    ClosingBalance(l.contracts, o.expired, false, maturity);
    ClosingShape(l.contracts, o.expired, false, maturity);
    NothingRemoved(missed);
  }

  // Maintenance creates exactly the miner payouts.
  lemma MaintenanceSupply(l: Ledger, h: History, id: Hash, b: Block, height: nat, o: Order)
    requires Tracked(l, h) && id !in h.blocks && OrderOK(l, height, o)
    requires height > 0 && ContractsSound(l.contracts, height - 1)
    ensures Supply(CommitSet(l, MaintenanceDiffs(l, id, b, height, o))) == Supply(l) + SumSeq(b.minerPayouts, Value)
  {
    MaturedSum(l, h, id, b, height, o);
    ExpiredSum(l, height, o);
    DelayedSum(l, h, id, b, height, o);
    forall c | c in o.expired ensures c in l.contracts && ValidSum(l.contracts[c]) == MissedSum(l.contracts[c]) {
      assert c in ExpiringIDs(l, height);
      assert ContractSound(l.contracts[c], height - 1);
    }
    ClosingEqual(l.contracts, o.expired);
  }

  // After maintenance every open contract expires later.
  lemma MaintenanceContracts(l: Ledger, id: Hash, b: Block, height: nat, o: Order)
    requires OrderOK(l, height, o) && height > 0 && ContractsSound(l.contracts, height - 1)
    ensures ContractsSound(CommitSet(l, MaintenanceDiffs(l, id, b, height, o)).contracts, height)
  {
    assert Elements(o.expired) <= l.contracts.Keys by {
      forall c | c in o.expired ensures c in l.contracts { assert c in ExpiringIDs(l, height); }
    }
    ClosingFits(l.contracts, o.expired);
    forall c | c in l.contracts && c !in Elements(o.expired) ensures ContractSound(l.contracts[c], height) {
      assert ContractSound(l.contracts[c], height - 1);
      assert c !in ExpiringIDs(l, height);
    }
  }

  // ---------------------------------------------------------------- the siafund swap

  ghost function GenesisSiafundIDs(env: Env): set<Hash>
  {
    set i | 0 <= i < |env.genesisSiafunds| :: GenesisSiafundID(env, i)
  }

  ghost function ForkedIDs(env: Env): set<Hash>
  {
    set i | 0 <= i < |env.forkedSiafunds| :: env.forkedSiafunds[i].unlockHash
  }

  ghost predicate AllocationOK(a: seq<SiafundOutput>)
  {
    && SumSeq(a, FundValue) == 10000
    && (forall i :: 0 <= i < |a| ==> a[i].value > 0 && a[i].claimStart == 0)
  }

  // What the constants of the network satisfy.
  ghost predicate EnvOK(env: Env)
  {
    && AllocationOK(env.genesisSiafunds)
    && AllocationOK(env.forkedSiafunds)
    && SumSeq(env.genesisSiacoins, Value) == AIRDROP_COINS
    && (forall i :: 0 <= i < |env.forkedSiafunds| ==> IsAddress(env.forkedSiafunds[i].unlockHash))
    && (forall i, j :: 0 <= i < j < |env.forkedSiafunds| ==>
         env.forkedSiafunds[i].unlockHash != env.forkedSiafunds[j].unlockHash)
  }

  lemma {:induction false} RemovalsAny<K, V>(m: map<K, V>, ds: seq<Diff<K, V>>)
    requires AllRemove(ds)
    ensures CommitAll(m, ds) == m - Ids(ds)
  {
    if ds != [] {
      var n := |ds| - 1;
      assert ds[n] in ds;
      assert forall d :: d in ds <==> d in ds[..n] || d == ds[n];
      RemovalsAny(m, ds[..n]);
      assert Ids(ds) == Ids(ds[..n]) + {ds[n].id};
    }
  }

  // What the swap leaves: no genesis siafund, and the forked allocation.
  lemma SwapResult(env: Env, m: map<Hash, SiafundOutput>)
    requires EnvOK(env) && ForkedIDs(env) !! m.Keys
    ensures var mid := m - GenesisSiafundIDs(env);
      var adds := SwapAdditions(env, |env.forkedSiafunds|);
      && CommitAll(m, SwapDiffs(env, SWAP_HEIGHT).siafunds) == CommitAll(mid, adds)
      && Fits(mid, adds) && Records(mid, adds, Itself)
      && CommitAll(mid, adds).Keys == mid.Keys + ForkedIDs(env)
      && (forall id :: id in CommitAll(mid, adds) ==>
           (id in mid && CommitAll(mid, adds)[id] == mid[id]) ||
           (exists i :: 0 <= i < |env.forkedSiafunds| && CommitAll(mid, adds)[id] == env.forkedSiafunds[i]))
  {
    hide Fits, Records;
    var removals := SwapRemovals(env, |env.genesisSiafunds|);
    var adds := SwapAdditions(env, |env.forkedSiafunds|);
    var mid := m - GenesisSiafundIDs(env);
    assert Ids(removals) == GenesisSiafundIDs(env) by {
      forall i | 0 <= i < |removals| ensures GenesisSiafundID(env, i) in Ids(removals) { assert removals[i] in removals; }
    }
    assert Ids(adds) == ForkedIDs(env) by {
      forall i | 0 <= i < |adds| ensures env.forkedSiafunds[i].unlockHash in Ids(adds) { assert adds[i] in adds; }
    }
    RemovalsAny(m, removals);
    CommitAppend(m, removals, adds);
    forall d | d in adds ensures d.id !in mid { assert d.id in Ids(adds); }
    Insertions(mid, adds);
    forall id | id in CommitAll(mid, adds) && id !in mid
      ensures exists i :: 0 <= i < |env.forkedSiafunds| && CommitAll(mid, adds)[id] == env.forkedSiafunds[i]
    {
      var d :| d in adds && d.id == id;
      var i :| 0 <= i < |adds| && adds[i] == d;
    }
  }

  ghost function SwapHistory(env: Env, l: Ledger, h: History): History
  {
    h.(siafunds := h.siafunds + ForkedIDs(env),
       spentFunds := h.spentFunds + (GenesisSiafundIDs(env) * l.siafunds.Keys),
       swapped := true)
  }

  lemma ForkedFresh(env: Env, h: History)
    requires EnvOK(env) && OriginsOK(h) && !h.swapped
    ensures ForkedIDs(env) !! h.siafunds
  {
    forall id | id in ForkedIDs(env) ensures id !in h.siafunds {
      assert IsAddress(id);
      assert !SiafundOrigin(h, id);
    }
  }

  lemma SwapTracked(env: Env, l: Ledger, h: History)
    requires EnvOK(env) && Tracked(l, h) && !h.swapped
    ensures Tracked(CommitSet(l, SwapDiffs(env, SWAP_HEIGHT)), SwapHistory(env, l, h))
  {
    ForkedFresh(env, h);
    SwapResult(env, l.siafunds);
    OriginsGrow(h, SwapHistory(env, l, h));
    LiveStep(l.siafunds.Keys, h.siafunds, h.spentFunds, ForkedIDs(env), GenesisSiafundIDs(env) * l.siafunds.Keys);
    assert (l.siafunds - GenesisSiafundIDs(env)).Keys == l.siafunds.Keys - (GenesisSiafundIDs(env) * l.siafunds.Keys);
  }

  lemma SwapSound(env: Env, m: map<Hash, SiafundOutput>, pool: nat)
    requires EnvOK(env) && ForkedIDs(env) !! m.Keys && FundsSound(m, pool)
    ensures FundsSound(CommitAll(m, SwapDiffs(env, SWAP_HEIGHT).siafunds), pool)
  {
    hide CommitAll, SwapDiffs, Fits, Records;
    SwapResult(env, m);
  }

  // No siafund has moved: only outputs of the genesis block are left.
  ghost predicate Unmoved(env: Env, m: map<Hash, SiafundOutput>)
  {
    m.Keys <= GenesisSiafundIDs(env)
  }

  lemma NothingLeft(m: map<Hash, SiafundOutput>, f: SiafundOutput -> nat)
    requires forall id :: id in m ==> f(m[id]) > 0
    ensures SumMap(m, f) == 0 <==> m == map[]
  {
    if m != map[] {
      var id :| id in m;
      SumMapRemove(m, id, f);
    }
  }

  // The swap keeps the number of siafunds exactly when none has moved before it.
  lemma SwapCountIff(env: Env, m: map<Hash, SiafundOutput>, pool: nat)
    requires EnvOK(env) && ForkedIDs(env) !! m.Keys && FundsSound(m, pool)
    ensures SumMap(CommitAll(m, SwapDiffs(env, SWAP_HEIGHT).siafunds), FundValue) == 10000 <==> Unmoved(env, m)
  {
    hide CommitAll, SwapDiffs, Fits, SumMap;
    var mid := m - GenesisSiafundIDs(env);
    var adds := SwapAdditions(env, |env.forkedSiafunds|);
    SwapResult(env, m);
    RecordsView(mid, adds, FundValue);
    Balance(mid, adds, FundValue);
    OneSided(adds, FundValue, env.forkedSiafunds, FundValue);
    NothingLeft(mid, FundValue);
    assert mid == map[] <==> m.Keys <= GenesisSiafundIDs(env) by {
      assert mid.Keys == m.Keys - GenesisSiafundIDs(env);
    }
  }

  // Outputs of the genesis block still claim from the start.
  ghost predicate GenesisClaims(env: Env, m: map<Hash, SiafundOutput>)
  {
    forall id :: id in m && id in GenesisSiafundIDs(env) ==> m[id].claimStart == 0
  }

  // What a siafund output would be owed more had it claimed from the start.
  function Forgone(o: SiafundOutput): nat { o.claimStart / 10000 * o.value }

  lemma ForgoneOne(pool: nat, o: SiafundOutput)
    requires pool % 10000 == 0 && FundSound(o, pool)
    ensures Claim(pool)(o) + Forgone(o) == pool / 10000 * o.value
  {
    var n, s := (pool - o.claimStart) / 10000, o.claimStart / 10000;
    assert pool - o.claimStart == n * 10000 && pool / 10000 == n + s;
    assert (pool - o.claimStart) * o.value == (n * o.value) * 10000;
    DivideMultiple(n * o.value);
    assert (n + s) * o.value == n * o.value + s * o.value;
  }

  // The claims and what has been forgone are every siafund's full share of the pool.
  lemma {:induction false} ForgoneTotal(m: map<Hash, SiafundOutput>, pool: nat)
    requires FundsSound(m, pool)
    ensures SumMap(m, Claim(pool)) + SumMap(m, Forgone) == pool / 10000 * SumMap(m, FundValue)
    decreases |m|
  {
    if m != map[] {
      var id :| id in m;
      SmallerMap(m, id);
      SumMapRemove(m, id, Claim(pool));
      SumMapRemove(m, id, Forgone);
      SumMapRemove(m, id, FundValue);
      ForgoneOne(pool, m[id]);
      ForgoneTotal(m - {id}, pool);
      Distribute(pool / 10000, m[id].value, SumMap(m - {id}, FundValue));
    }
  }

  lemma {:induction false} DropZeros(m: map<Hash, SiafundOutput>, ids: set<Hash>)
    requires forall id :: id in m && id in ids ==> Forgone(m[id]) == 0
    ensures SumMap(m - ids, Forgone) == SumMap(m, Forgone)
    decreases ids
  {
    if ids == {} {
      assert m - ids == m;
    } else {
      var id :| id in ids;
      DropZeros(m, ids - {id});
      var rest := m - (ids - {id});
      assert m - ids == rest - {id};
      if id in rest {
        SumMapRemove(rest, id, Forgone);
      } else {
        assert rest - {id} == rest;
      }
    }
  }

  lemma {:induction false} NothingForgone(a: seq<SiafundOutput>)
    requires forall i :: 0 <= i < |a| ==> a[i].claimStart == 0
    ensures SumSeq(a, Forgone) == 0
  {
    if a != [] {
      NothingForgone(a[..|a| - 1]);
    }
  }

  lemma {:induction false} ZeroClaims(m: map<Hash, SiafundOutput>)
    ensures SumMap(m, Claim(0)) == 0
    decreases |m|
  {
    if m != map[] {
      var id :| id in m;
      SmallerMap(m, id);
      SumMapRemove(m, id, Claim(0));
      ZeroClaims(m - {id});
    }
  }

  // What the swap removes and what it adds all claims from the start.
  lemma SwapForgone(env: Env, m: map<Hash, SiafundOutput>)
    requires EnvOK(env) && ForkedIDs(env) !! m.Keys && GenesisClaims(env, m)
    ensures SumMap(CommitAll(m, SwapDiffs(env, SWAP_HEIGHT).siafunds), Forgone) == SumMap(m, Forgone)
  {
    hide CommitAll, SwapDiffs, Fits, SumMap, SumSeq;
    var mid, adds := m - GenesisSiafundIDs(env), SwapAdditions(env, |env.forkedSiafunds|);
    SwapResult(env, m);
    DropZeros(m, GenesisSiafundIDs(env));
    RecordsView(mid, adds, Forgone);
    Balance(mid, adds, Forgone);
    OneSided(adds, Forgone, env.forkedSiafunds, Forgone);
    NothingForgone(env.forkedSiafunds);
  }

  // The swap changes the claims by the share of the siafunds it adds or loses.
  lemma SwapClaims(env: Env, m: map<Hash, SiafundOutput>, pool: nat)
    requires EnvOK(env) && ForkedIDs(env) !! m.Keys && FundsSound(m, pool) && GenesisClaims(env, m)
    ensures var next := CommitAll(m, SwapDiffs(env, SWAP_HEIGHT).siafunds);
      SumMap(next, Claim(pool)) - pool / 10000 * SumMap(next, FundValue) ==
      SumMap(m, Claim(pool)) - pool / 10000 * SumMap(m, FundValue)
  {
    hide CommitAll, SwapDiffs, SumMap, FundsSound;
    var next := CommitAll(m, SwapDiffs(env, SWAP_HEIGHT).siafunds);
    SwapSound(env, m, pool);
    SwapForgone(env, m);
    ForgoneTotal(m, pool);
    ForgoneTotal(next, pool);
  }
}
