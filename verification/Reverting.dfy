/** When reverting a block restores the ledger it was applied to, and that scan order does not matter. */
module Reverting {
  import opened Types
  import opened Diffs
  import opened Ledgers
  import opened Validity
  import opened Tracking
  import opened Conservation
  import opened Steps

  // ---------------------------------------------------------------- siafunds spent by a block

  ghost function SpentFundIDs(ts: seq<Transaction>): set<Hash>
  {
    if ts == [] then {} else SpentFundIDs(ts[..|ts| - 1]) + FundInputIDs(ts[|ts| - 1].core)
  }

  // Reverting a block restores the ledger under this condition, and only then: no siafund output
  // the block takes from the ledger reads back with another address, and the block of the swap
  // itself spends every genesis siafund output.
  ghost predicate Reversible(env: Env, l: Ledger, b: Block, height: nat)
  {
    ReversibleSpending(env, l, SpentFundIDs(b.transactions), height)
  }

  ghost predicate ReversibleSpending(env: Env, l: Ledger, spent: set<Hash>, height: nat)
  {
    ReadsTrue(env, l, spent) && (height == SWAP_HEIGHT ==> GenesisSiafundIDs(env) <= spent)
  }

  // What one transaction adds to the condition on first records.
  lemma {:induction false} FirstRecordsSpends(m: map<Hash, SiafundOutput>, a: seq<Diff<Hash, SiafundOutput>>, env: Env, mid: Ledger, ins: seq<SiafundInput>)
    requires forall i, j :: 0 <= i < j < |ins| ==> ins[i].parentID != ins[j].parentID
    ensures FirstRecordsTrue(m, a + SpendSiafunds(env, mid, ins)) <==>
      FirstRecordsTrue(m, a) &&
      (forall i :: 0 <= i < |ins| && ins[i].parentID in m && ins[i].parentID !in Ids(a) ==>
        m[ins[i].parentID] == ReadSiafund(env, mid, ins[i].parentID))
  {
    var spends := SpendSiafunds(env, mid, ins);
    if ins == [] {
      assert a + spends == a;
    } else {
      var n := |ins| - 1;
      var front := SpendSiafunds(env, mid, ins[..n]);
      assert (a + spends)[..|a + spends| - 1] == a + front;
      FirstRecordsSpends(m, a, env, mid, ins[..n]);
      assert ins[n].parentID in Ids(a + front) <==> ins[n].parentID in Ids(a) by {
        IdsAppend(a, front);
        forall d | d in front ensures d.id != ins[n].parentID {
          var i :| 0 <= i < |front| && front[i] == d;
        }
      }
    }
  }

  lemma {:induction false} FirstRecordsCreates<K, V>(m: map<K, V>, a: seq<Diff<K, V>>, b: seq<Diff<K, V>>)
    requires AllApply(b)
    ensures FirstRecordsTrue(m, a + b) <==> FirstRecordsTrue(m, a)
  {
    if b == [] {
      assert a + b == a;
    } else {
      var n := |b| - 1;
      assert (a + b)[..|a + b| - 1] == a + b[..n];
      assert b[n] in b && forall d :: d in b[..n] ==> d in b;
      FirstRecordsCreates(m, a, b[..n]);
    }
  }

  // A key present before is touched only by removing it.
  lemma {:induction false} TouchedIsRemoved<K, V>(m: map<K, V>, ds: seq<Diff<K, V>>, k: K)
    requires Fits(m, ds) && k in m && k in Ids(ds)
    ensures exists d :: d in ds && !d.apply && d.id == k
  {
    var n := |ds| - 1;
    assert forall d :: d in ds <==> d in ds[..n] || d == ds[n];
    if k in Ids(ds[..n]) {
      TouchedIsRemoved(m, ds[..n], k);
    } else {
      Untouched(m, ds[..n], k);
      assert ds[n].id == k;
    }
  }

  // Removals are of spent outputs, every spent output is touched, and no genesis output is created.
  ghost predicate FundShape(env: Env, ds: seq<Diff<Hash, SiafundOutput>>, spent: set<Hash>)
  {
    && (forall d :: d in ds && !d.apply ==> d.id in spent)
    && spent <= Ids(ds)
    && (forall d :: d in ds && d.apply ==> d.id !in GenesisSiafundIDs(env))
  }

  lemma FundShapeAppend(env: Env, a: seq<Diff<Hash, SiafundOutput>>, b: seq<Diff<Hash, SiafundOutput>>, s: set<Hash>, t: set<Hash>)
    requires FundShape(env, a, s) && FundShape(env, b, t)
    ensures FundShape(env, a + b, s + t)
  {
    assert forall d :: d in a + b <==> d in a || d in b;
    IdsAppend(a, b);
  }

  lemma TxnFundDiffs(env: Env, l: Ledger, c: TxnCore, height: nat)
    requires Applicable(env, l, c)
    ensures FundShape(env, TxnDiffs(env, l, c, height).siafunds, FundInputIDs(c))
  {
    var pool := PoolAfter(l.pool, Height(l), c.fileContracts);
    var spends, creates := SpendSiafunds(env, l, c.siafundInputs), CreateSiafunds(c, |c.siafundOutputs|, pool);
    Funded(env, l, c);
    forall d: Diff<Hash, SiafundOutput> | d in spends + creates
      ensures if d.apply then d.id !in GenesisSiafundIDs(env) else d.id in FundInputIDs(c)
    {
      if d in spends {
        var i :| 0 <= i < |spends| && spends[i] == d;
      } else {
        var i :| 0 <= i < |creates| && creates[i] == d;
      }
    }
    forall i | 0 <= i < |c.siafundInputs| ensures c.siafundInputs[i].parentID in Ids(spends + creates) {
      assert (spends + creates)[i] in spends + creates;
    }
  }

  lemma {:induction false} TxnsFundDiffs(env: Env, l: Ledger, ts: seq<Transaction>, height: nat)
    requires TxnsValid(env, l, ts, height)
    ensures FundShape(env, TxnsDiffs(env, l, ts, height).siafunds, SpentFundIDs(ts))
  {
    if ts != [] {
      var n := |ts| - 1;
      LastValid(env, l, ts, height);
      TxnsFundDiffs(env, l, ts[..n], height);
      var before := TxnsDiffs(env, l, ts[..n], height);
      var mid := CommitSet(l, before);
      TxnFundDiffs(env, mid, ts[n].core, height);
      FundShapeAppend(env, before.siafunds, TxnDiffs(env, mid, ts[n].core, height).siafunds,
                      SpentFundIDs(ts[..n]), FundInputIDs(ts[n].core));
    }
  }

  // No siafund the transactions take from the ledger reads back differently.
  ghost predicate ReadsTrue(env: Env, l: Ledger, touched: set<Hash>)
  {
    forall k :: k in l.siafunds && k in touched ==> ReadSiafund(env, l, k) == l.siafunds[k]
  }

  lemma TxnFirstRecords(env: Env, l: Ledger, a: DiffSet, c: TxnCore, height: nat)
    requires NoRepeats(c)
    ensures FirstRecordsTrue(l.siafunds, a.siafunds + TxnDiffs(env, CommitSet(l, a), c, height).siafunds) <==>
            FirstRecordsTrue(l.siafunds, a.siafunds) && ReadsTrue(env, l, FundInputIDs(c) - Ids(a.siafunds))
  {
    var mid := CommitSet(l, a);
    var m, ins := l.siafunds, c.siafundInputs;
    var spends := SpendSiafunds(env, mid, ins);
    var creates := CreateSiafunds(c, |c.siafundOutputs|, PoolAfter(mid.pool, Height(mid), c.fileContracts));
    assert a.siafunds + (spends + creates) == a.siafunds + spends + creates;
    FirstRecordsCreates(m, a.siafunds + spends, creates);
    FirstRecordsSpends(m, a.siafunds, env, mid, ins);
    forall i | 0 <= i < |ins| && ins[i].parentID in m && ins[i].parentID !in Ids(a.siafunds)
      ensures ReadSiafund(env, mid, ins[i].parentID) == ReadSiafund(env, l, ins[i].parentID)
    {
      Untouched(m, a.siafunds, ins[i].parentID);
    }
    forall i | 0 <= i < |ins| ensures ins[i].parentID in FundInputIDs(c) {
    }
  }

  // The first records of the transactions' siafund diffs are true exactly when every siafund
  // they take reads back as stored.
  lemma {:induction false} TxnsFirstRecords(env: Env, l: Ledger, ts: seq<Transaction>, height: nat)
    requires TxnsValid(env, l, ts, height) && Fits(l.siafunds, TxnsDiffs(env, l, ts, height).siafunds)
    ensures FirstRecordsTrue(l.siafunds, TxnsDiffs(env, l, ts, height).siafunds) <==> ReadsTrue(env, l, SpentFundIDs(ts))
  {
    if ts != [] {
      var n := |ts| - 1;
      LastValid(env, l, ts, height);
      var before := TxnsDiffs(env, l, ts[..n], height);
      var last := TxnDiffs(env, CommitSet(l, before), ts[n].core, height).siafunds;
      assert TxnsDiffs(env, l, ts, height).siafunds == before.siafunds + last;
      FitsSplit(l.siafunds, before.siafunds, last);
      TxnsFirstRecords(env, l, ts[..n], height);
      TxnFirstRecords(env, l, before, ts[n].core, height);
      TxnsFundDiffs(env, l, ts[..n], height);
      forall k | k in l.siafunds && k in Ids(before.siafunds) ensures k in SpentFundIDs(ts[..n]) {
        TouchedIsRemoved(l.siafunds, before.siafunds, k);
      }
      SplitReads(env, l, SpentFundIDs(ts[..n]), FundInputIDs(ts[n].core), Ids(before.siafunds));
    }
  }

  lemma SplitReads(env: Env, l: Ledger, earlier: set<Hash>, ins: set<Hash>, touched: set<Hash>)
    requires forall k :: k in l.siafunds && k in touched ==> k in earlier
    ensures ReadsTrue(env, l, earlier + ins) <==> ReadsTrue(env, l, earlier) && ReadsTrue(env, l, ins - touched)
  {
  }

  // ---------------------------------------------------------------- reverting the swap

  // Reverting removals sets every key to what was recorded, which a list touching all of them forgets.
  lemma {:induction false} RevertRemovals<K, V>(m: map<K, V>, ds: seq<Diff<K, V>>, earlier: seq<Diff<K, V>>)
    requires AllRemove(ds) && Distinct(ds)
    ensures forall d :: d in ds ==> d.id in RevertAll(m, ds) && RevertAll(m, ds)[d.id] == d.value
    ensures Ids(ds) <= Ids(earlier) ==> RevertAll(RevertAll(m, ds), earlier) == RevertAll(m, earlier)
    decreases |ds|
  {
    if ds != [] {
      var n := |ds| - 1;
      var front, d := ds[..n], ds[n];
      assert d in ds && forall e :: e in ds <==> e in front || e == d;
      var next := Commit(m, d, false);
      assert AllRemove(front) && Distinct(front);
      RevertRemovals(next, front, earlier);
      assert d.id !in Ids(front) by {
        forall e | e in front ensures e.id != d.id {
          var i :| 0 <= i < n && front[i] == e;
          assert ds[i].id != ds[n].id;
        }
      }
      RevertUntouched(next, front, d.id);
      assert Ids(front) <= Ids(ds) && d.id in Ids(ds);
      RevertForgets(m, earlier, d.id, d.value);
    }
  }

  // Reverting the swap leaves the genesis outputs with the values its removals recorded.
  lemma SwapBack(env: Env, a: map<Hash, SiafundOutput>)
    requires EnvOK(env) && ForkedIDs(env) !! a.Keys
    ensures var swap := SwapDiffs(env, SWAP_HEIGHT).siafunds;
      RevertAll(CommitAll(a, swap), swap) ==
      RevertAll(a - GenesisSiafundIDs(env), SwapRemovals(env, |env.genesisSiafunds|))
  {
    var removals, adds := SwapRemovals(env, |env.genesisSiafunds|), SwapAdditions(env, |env.forkedSiafunds|);
    var mid := a - GenesisSiafundIDs(env);
    SwapResult(env, a);
    RevertAppend(CommitAll(mid, adds), removals, adds);
    RevertUndoesCommit(mid, adds);
  }

  lemma SwapRemovalIDs(env: Env)
    ensures var removals := SwapRemovals(env, |env.genesisSiafunds|);
      AllRemove(removals) && Distinct(removals) && Ids(removals) == GenesisSiafundIDs(env) &&
      forall d :: d in removals ==> d.value.value == 0
  {
    var removals := SwapRemovals(env, |env.genesisSiafunds|);
    forall i | 0 <= i < |removals| ensures GenesisSiafundID(env, i) in Ids(removals) { assert removals[i] in removals; }
  }

  // The siafunds after reverting the swap and then the transactions' diffs.
  lemma SwapReverts(env: Env, m: map<Hash, SiafundOutput>, ds: seq<Diff<Hash, SiafundOutput>>, pool: nat)
    requires EnvOK(env) && FundsSound(m, pool) && ForkedIDs(env) !! CommitAll(m, ds).Keys
    requires RevertAll(CommitAll(m, ds), ds) == m
    ensures var all := ds + SwapDiffs(env, SWAP_HEIGHT).siafunds;
      RevertAll(CommitAll(m, all), all) == m <==> GenesisSiafundIDs(env) <= Ids(ds)
  {
    var a := CommitAll(m, ds);
    var swap := SwapDiffs(env, SWAP_HEIGHT).siafunds;
    var removals := SwapRemovals(env, |env.genesisSiafunds|);
    var mid := a - GenesisSiafundIDs(env);
    CommitAppend(m, ds, swap);
    RevertAppend(CommitAll(a, swap), ds, swap);
    SwapBack(env, a);
    SwapRemovalIDs(env);
    RevertRemovals(mid, removals, ds);
    if GenesisSiafundIDs(env) <= Ids(ds) {
      OverwritesForgotten(a, GenesisSiafundIDs(env), ds);
    } else {
      var g :| g in GenesisSiafundIDs(env) && g !in Ids(ds);
      var d :| d in removals && d.id == g;
      RevertUntouched(RevertAll(mid, removals), ds, g);
      assert g in m ==> FundSound(m[g], pool);
    }
  }

  // Reverting forgets removals of keys the list touches.
  lemma {:induction false} OverwritesForgotten(a: map<Hash, SiafundOutput>, ids: set<Hash>, ds: seq<Diff<Hash, SiafundOutput>>)
    requires ids <= Ids(ds)
    ensures RevertAll(a - ids, ds) == RevertAll(a, ds)
  {
    hide RevertAll;
    if ids == {} {
      assert a - ids == a;
    } else {
      var k :| k in ids;
      OverwritesForgotten(a, ids - {k}, ds);
      if k in a {
        RevertForgets(a - ids, ds, k, a[k]);
        assert (a - ids)[k := a[k]] == a - (ids - {k});
      } else {
        assert a - ids == a - (ids - {k});
      }
    }
  }
}
