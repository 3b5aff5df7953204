/** What the transactions and the maintenance of one block do to a ledger. */
module Blocks {
  import opened Types
  import opened Sums
  import opened Diffs
  import opened Money
  import opened Ledgers
  import opened Validity
  import opened Tracking
  import opened Conservation

  // ---------------------------------------------------------------- sequencing

  // Committing two sets kind by kind is committing one and then the other: grouping the diffs
  // of a block by kind does not change what they commit to.
  lemma CommitSetThen(l: Ledger, d: DiffSet, e: DiffSet)
    ensures CommitSet(l, Then(d, e)) == CommitSet(CommitSet(l, d), e)
  {
    CommitAppend(l.siacoins, d.siacoins, e.siacoins);
    CommitAppend(l.contracts, d.contracts, e.contracts);
    CommitAppend(l.siafunds, d.siafunds, e.siafunds);
    CommitAppend(l.delayed, d.delayed, e.delayed);
  }

  lemma FitsSetThen(l: Ledger, d: DiffSet, e: DiffSet)
    requires FitsSet(l, d) && FitsSet(CommitSet(l, d), e)
    ensures FitsSet(l, Then(d, e))
  {
    FitsAppend(l.siacoins, d.siacoins, e.siacoins);
    FitsAppend(l.contracts, d.contracts, e.contracts);
    FitsAppend(l.siafunds, d.siafunds, e.siafunds);
    FitsAppend(l.delayed, d.delayed, e.delayed);
  }

  lemma RecordsSetThen(l: Ledger, d: DiffSet, e: DiffSet)
    requires RecordsSet(l, d) && RecordsSet(CommitSet(l, d), e)
    ensures RecordsSet(l, Then(d, e))
  {
    RecordsAppend(l.siacoins, d.siacoins, e.siacoins, Itself);
    RecordsAppend(l.contracts, d.contracts, e.contracts, Itself);
    RecordsAppend(l.siafunds, d.siafunds, e.siafunds, Holding);
    RecordsAppend(l.delayed, d.delayed, e.delayed, Itself);
  }

  // ---------------------------------------------------------------- the transactions of a block

  ghost function TxnsHistory(env: Env, l: Ledger, h: History, ts: seq<Transaction>, height: nat): History
  {
    if ts == [] then h else
      var front := ts[..|ts| - 1];
      TxnHistory(env, CommitSet(l, TxnsDiffs(env, l, front, height)), TxnsHistory(env, l, h, front, height),
                 ts[|ts| - 1].core, height)
  }

  ghost predicate TxnsGood(env: Env, l: Ledger, h: History, ts: seq<Transaction>, height: nat)
  {
    var d := TxnsDiffs(env, l, ts, height);
    FitsSet(l, d) && RecordsSet(l, d) && Tracked(CommitSet(l, d), TxnsHistory(env, l, h, ts, height))
  }

  // The diffs of valid transactions fit, one transaction after another.
  lemma {:induction false} TxnsTracked(env: Env, l: Ledger, h: History, ts: seq<Transaction>, height: nat)
    requires Tracked(l, h) && TxnsValid(env, l, ts, height)
    ensures TxnsGood(env, l, h, ts, height)
  {
    if ts != [] {
      var n := |ts| - 1;
      LastValid(env, l, ts, height);
      TxnsTracked(env, l, h, ts[..n], height);
      var before := TxnsDiffs(env, l, ts[..n], height);
      var mid, g := CommitSet(l, before), TxnsHistory(env, l, h, ts[..n], height);
      var last := TxnDiffs(env, mid, ts[n].core, height);
      TxnFits(env, mid, g, ts[n].core, height);
      TxnTracked(env, mid, g, ts[n].core, height);
      FitsSetThen(l, before, last);
      RecordsSetThen(l, before, last);
      CommitSetThen(l, before, last);
    }
  }

  lemma {:induction false} TxnsSound(env: Env, l: Ledger, ts: seq<Transaction>, height: nat)
    requires TxnsValid(env, l, ts, height)
    requires ContractsSound(l.contracts, Height(l)) && FundsSound(l.siafunds, l.pool)
    ensures var next := CommitSet(l, TxnsDiffs(env, l, ts, height));
      ContractsSound(next.contracts, Height(l)) && FundsSound(next.siafunds, next.pool)
  {
    if ts != [] {
      var n := |ts| - 1;
      LastValid(env, l, ts, height);
      TxnsSound(env, l, ts[..n], height);
      var before := TxnsDiffs(env, l, ts[..n], height);
      var mid := CommitSet(l, before);
      TxnContracts(env, mid, ts[n].core, height);
      TxnFundsSound(env, mid, ts[n].core, height);
      CommitSetThen(l, before, TxnDiffs(env, mid, ts[n].core, height));
    }
  }

  // The transactions of a block destroy exactly their fees.
  lemma {:induction false} TxnsNet(env: Env, l: Ledger, h: History, ts: seq<Transaction>, height: nat)
    requires Tracked(l, h) && TxnsValid(env, l, ts, height)
    requires ContractsSound(l.contracts, Height(l)) && FundsSound(l.siafunds, l.pool)
    ensures Net(CommitSet(l, TxnsDiffs(env, l, ts, height))) + SumSeq(ts, TxnFees) == Net(l)
  {
    if ts != [] {
      var n := |ts| - 1;
      LastValid(env, l, ts, height);
      TxnsNet(env, l, h, ts[..n], height);
      TxnsTracked(env, l, h, ts[..n], height);
      TxnsSound(env, l, ts[..n], height);
      var before := TxnsDiffs(env, l, ts[..n], height);
      var mid, g := CommitSet(l, before), TxnsHistory(env, l, h, ts[..n], height);
      TxnNet(env, mid, g, ts[n].core, height);
      CommitSetThen(l, before, TxnDiffs(env, mid, ts[n].core, height));
    }
  }

  // Transactions only add delayed outputs that mature MATURITY_DELAY after their block.
  lemma {:induction false} TxnsDelayed(env: Env, l: Ledger, ts: seq<Transaction>, height: nat)
    requires TxnsValid(env, l, ts, height)
    ensures var ds := TxnsDiffs(env, l, ts, height).delayed;
      AllApply(ds) && forall d :: d in ds ==> d.id.0 == height + MATURITY_DELAY
  {
    if ts != [] {
      var n := |ts| - 1;
      LastValid(env, l, ts, height);
      TxnsDelayed(env, l, ts[..n], height);
      var before := TxnsDiffs(env, l, ts[..n], height);
      var mid := CommitSet(l, before);
      DelayedShape(env, mid, ts[n].core, height);
      var last := TxnDiffs(env, mid, ts[n].core, height).delayed;
      assert forall d :: d in before.delayed + last <==> d in before.delayed || d in last;
      assert forall d :: d in last ==> TxnDelayed(ts[n].core, d.id, height + MATURITY_DELAY);
    }
  }

  // ---------------------------------------------------------------- maintenance

  // The history after maintenance: the block is known and its expired contracts are closed.
  ghost function MaintenanceHistory(h: History, l: Ledger, id: Hash, b: Block, height: nat, o: Order): History
  {
    h.(siacoins := h.siacoins + Seconds(Ids(NewDelayed(l, id, b, height, o))),
       closed := h.closed + Elements(o.expired),
       blocks := h.blocks + {id})
  }

  // The delayed outputs maintenance creates: miner payouts and missed proof payouts.
  function NewDelayed(l: Ledger, id: Hash, b: Block, height: nat, o: Order): seq<DelayedDiff>
  {
    PayoutDiffs(id, b.minerPayouts, height + MATURITY_DELAY) +
    ClosingPayouts(l.contracts, o.expired, false, height + MATURITY_DELAY)
  }

  ghost function MaturedKeys(ids: seq<Hash>, height: nat): set<(nat, Hash)>
  {
    set m | m in ids :: (height, m)
  }

  ghost predicate NewDelayedKey(k: (nat, Hash), id: Hash, o: Order, maturity: nat)
  {
    && k.0 == maturity
    && ((k.1.MinerPayoutHash? && k.1.blockID == id) ||
        (k.1.StorageProofHash? && k.1.contract in o.expired))
  }

  lemma NewDelayedShape(l: Ledger, id: Hash, b: Block, height: nat, o: Order)
    requires OrderOK(l, height, o)
    ensures var ds := NewDelayed(l, id, b, height, o);
      && AllApply(ds) && Distinct(ds)
      && forall d :: d in ds ==> NewDelayedKey(d.id, id, o, height + MATURITY_DELAY)
  {
    var maturity := height + MATURITY_DELAY;
    var payouts := PayoutDiffs(id, b.minerPayouts, maturity);
    var missed := ClosingPayouts(l.contracts, o.expired, false, maturity);
    ClosingShape(l.contracts, o.expired, false, maturity);
    forall d: DelayedDiff | d in payouts
      ensures d.apply && d.id.0 == maturity && d.id.1.MinerPayoutHash? && d.id.1.blockID == id
    {
      var i :| 0 <= i < |payouts| && payouts[i] == d;
    }
    DistinctAppend(payouts, missed);
    assert forall d :: d in payouts + missed <==> d in payouts || d in missed;
  }

  // They are new: the block has not been applied and the contracts are still open.
  lemma NewDelayedFresh(l: Ledger, h: History, id: Hash, b: Block, height: nat, o: Order, k: (nat, Hash))
    requires Tracked(l, h) && id !in h.blocks && OrderOK(l, height, o)
    requires NewDelayedKey(k, id, o, height + MATURITY_DELAY)
    ensures k.1 !in h.siacoins
  {
    if k.1.StorageProofHash? {
      assert k.1.contract in ExpiringIDs(l, height);
    }
    assert !SiacoinOrigin(h, k.1);
  }

  lemma DistinctParts<K, V>(a: seq<Diff<K, V>>, b: seq<Diff<K, V>>)
    requires Distinct(a + b)
    ensures Distinct(a) && Distinct(b)
    ensures forall d, e :: d in a && e in b ==> d.id != e.id
  {
    var ds := a + b;
    assert forall i :: 0 <= i < |a| ==> a[i] == ds[i];
    assert forall i :: 0 <= i < |b| ==> b[i] == ds[|a| + i];
    forall d, e | d in a && e in b ensures d.id != e.id {
      var i :| 0 <= i < |a| && a[i] == d;
      var j :| 0 <= j < |b| && b[j] == e;
      assert ds[i].id != ds[|a| + j].id;
    }
  }

  // Additions, removals and additions again, with all keys of the additions absent and apart.
  lemma InsertRemoveInsert<K, V>(m: map<K, V>, a: seq<Diff<K, V>>, r: seq<Diff<K, V>>, b: seq<Diff<K, V>>)
    requires AllApply(a) && AllApply(b) && Distinct(a + b) && AllRemove(r) && Distinct(r)
    requires forall d :: d in a ==> d.id !in m
    requires forall d :: d in b ==> d.id !in m
    requires forall d :: d in r ==> d.id in m && m[d.id] == d.value
    ensures Fits(m, a + r + b) && Records(m, a + r + b, Itself)
    ensures CommitAll(m, a + r + b).Keys == m.Keys - Ids(r) + Ids(a + b)
  {
    DistinctParts(a, b);
    Insertions(m, a);
    var m1 := CommitAll(m, a);
    RemoveThenInsert(m1, r, b, Itself);
    assert a + r + b == a + (r + b);
    CommitAppend(m, a, r + b);
    FitsAppend(m, a, r + b);
    RecordsAppend(m, a, r + b, Itself);
    IdsAppend(a, b);
    assert Ids(a) !! Ids(r);
  }

  lemma MaintenanceDelayed(l: Ledger, h: History, id: Hash, b: Block, height: nat, o: Order)
    requires Tracked(l, h) && id !in h.blocks && OrderOK(l, height, o)
    ensures var ds := MaintenanceDiffs(l, id, b, height, o).delayed;
      && Fits(l.delayed, ds) && Records(l.delayed, ds, Itself)
      && CommitAll(l.delayed, ds).Keys ==
         l.delayed.Keys - MaturedKeys(o.matured, height) + Ids(NewDelayed(l, id, b, height, o))
  {
    var maturity := height + MATURITY_DELAY;
    var payouts := PayoutDiffs(id, b.minerPayouts, maturity);
    var removals := UndelayDiffs(l, o.matured, height);
    var missed := ClosingPayouts(l.contracts, o.expired, false, maturity);
    NewDelayedShape(l, id, b, height, o);
    forall d: DelayedDiff | d in payouts + missed ensures d.id !in l.delayed {
      NewDelayedFresh(l, h, id, b, height, o, d.id);
    }
    forall d | d in removals ensures d.id in l.delayed && l.delayed[d.id] == d.value {
      var i :| 0 <= i < |removals| && removals[i] == d;
      MaturingKey(l, height, o, i);
    }
    assert Ids(removals) == MaturedKeys(o.matured, height) by {
      forall i | 0 <= i < |removals| ensures (height, o.matured[i]) in Ids(removals) { assert removals[i] in removals; }
    }
    assert forall d :: d in payouts ==> d in payouts + missed;
    assert forall d :: d in missed ==> d in payouts + missed;
    InsertRemoveInsert(l.delayed, payouts, removals, missed);
  }

  lemma MaturingKey(l: Ledger, height: nat, o: Order, i: nat)
    requires OrderOK(l, height, o) && i < |o.matured|
    ensures (height, o.matured[i]) in l.delayed
  {
    assert o.matured[i] in o.matured;
    assert o.matured[i] in MaturingIDs(l, height);
    var k :| k in l.delayed && k.0 == height && k.1 == o.matured[i];
    assert k == (height, o.matured[i]);
  }

  lemma MaintenanceSiacoins(l: Ledger, h: History, id: Hash, b: Block, height: nat, o: Order)
    requires Tracked(l, h) && OrderOK(l, height, o)
    ensures var ds := MaintenanceDiffs(l, id, b, height, o).siacoins;
      && Fits(l.siacoins, ds) && Records(l.siacoins, ds, Itself)
      && CommitAll(l.siacoins, ds).Keys == l.siacoins.Keys + Elements(o.matured)
  {
    var ds := MatureDiffs(l, o.matured, height);
    forall d | d in ds ensures d.id !in l.siacoins {
      var i :| 0 <= i < |ds| && ds[i] == d;
      MaturingKey(l, height, o, i);
    }
    assert Ids(ds) == Elements(o.matured) by {
      forall i | 0 <= i < |ds| ensures o.matured[i] in Ids(ds) { assert ds[i] in ds; }
    }
    Insertions(l.siacoins, ds);
  }

  // The diffs of maintenance fit, in whatever order the buckets are scanned.
  lemma MaintenanceFits(l: Ledger, h: History, id: Hash, b: Block, height: nat, o: Order)
    requires Tracked(l, h) && id !in h.blocks && OrderOK(l, height, o)
    ensures var d := MaintenanceDiffs(l, id, b, height, o); FitsSet(l, d) && RecordsSet(l, d)
  {
    MaintenanceSiacoins(l, h, id, b, height, o);
    MaintenanceDelayed(l, h, id, b, height, o);
    assert Elements(o.expired) <= l.contracts.Keys by {
      forall c | c in o.expired ensures c in l.contracts { assert c in ExpiringIDs(l, height); }
    }
    ClosingFits(l.contracts, o.expired);
  }

  // Outputs that mature change sides, and the new delayed outputs join.
  lemma LiveSiacoinsMature(
    siacoins: set<Hash>, delayed: set<(nat, Hash)>, created: set<Hash>, spent: set<Hash>,
    matured: set<(nat, Hash)>, added: set<(nat, Hash)>)
    requires LiveSiacoins(siacoins, delayed, created, spent)
    requires matured <= delayed && OneBucketEach(added)
    requires forall k :: k in added ==> k.1 !in created
    ensures LiveSiacoins(siacoins + Seconds(matured), delayed - matured + added, created + Seconds(added), spent)
  {
  }

  lemma MaintenanceOrigins(l: Ledger, h: History, id: Hash, b: Block, height: nat, o: Order)
    requires OriginsOK(h) && OrderOK(l, height, o)
    ensures OriginsOK(MaintenanceHistory(h, l, id, b, height, o))
  {
    var g := MaintenanceHistory(h, l, id, b, height, o);
    var ds := NewDelayed(l, id, b, height, o);
    NewDelayedShape(l, id, b, height, o);
    forall x | x in g.siacoins - h.siacoins ensures SiacoinOrigin(g, x) {
      var d :| d in ds && d.id.1 == x;
      assert NewDelayedKey(d.id, id, o, height + MATURITY_DELAY);
    }
    OriginsGrow(h, g);
  }

  lemma MaintenanceLive(l: Ledger, h: History, id: Hash, b: Block, height: nat, o: Order)
    requires Tracked(l, h) && id !in h.blocks && OrderOK(l, height, o)
    ensures var added := Ids(NewDelayed(l, id, b, height, o));
      LiveSiacoins(l.siacoins.Keys + Elements(o.matured), l.delayed.Keys - MaturedKeys(o.matured, height) + added,
                   h.siacoins + Seconds(added), h.spent)
  {
    var ds := NewDelayed(l, id, b, height, o);
    NewDelayedShape(l, id, b, height, o);
    forall k: (nat, Hash) | k in Ids(ds) ensures k.1 !in h.siacoins && NewDelayedKey(k, id, o, height + MATURITY_DELAY) {
      var d :| d in ds && d.id == k;
      NewDelayedFresh(l, h, id, b, height, o, k);
    }
    forall i | 0 <= i < |o.matured| ensures (height, o.matured[i]) in l.delayed {
      MaturingKey(l, height, o, i);
    }
    var matured := MaturedKeys(o.matured, height);
    assert Seconds(matured) == Elements(o.matured) by {
      forall m | m in o.matured ensures m in Seconds(matured) { assert (height, m) in matured; }
    }
    LiveSiacoinsMature(l.siacoins.Keys, l.delayed.Keys, h.siacoins, h.spent, matured, Ids(ds));
  }

  // Maintenance keeps the ledger in step with its history.
  lemma MaintenanceTracked(l: Ledger, h: History, id: Hash, b: Block, height: nat, o: Order)
    requires Tracked(l, h) && id !in h.blocks && OrderOK(l, height, o)
    ensures Tracked(CommitSet(l, MaintenanceDiffs(l, id, b, height, o)), MaintenanceHistory(h, l, id, b, height, o))
  {
    hide OriginsOK, SumSeq;
    MaintenanceSiacoins(l, h, id, b, height, o);
    MaintenanceDelayed(l, h, id, b, height, o);
    MaintenanceLive(l, h, id, b, height, o);
    MaintenanceOrigins(l, h, id, b, height, o);
    assert Elements(o.expired) <= l.contracts.Keys by {
      forall c | c in o.expired ensures c in l.contracts { assert c in ExpiringIDs(l, height); }
    }
    ClosingFits(l.contracts, o.expired);
    LiveStep(l.contracts.Keys, h.contracts, h.closed, {}, Elements(o.expired));
  }
}
