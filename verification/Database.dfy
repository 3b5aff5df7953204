/**
 The database operations in place: committing and reverting diffs, applying transactions and
 maintenance, and generating the diffs of a block.

 Preconditions are the sanity checks of the source. That callers meet them shows none can fail.
 */
module Database {
  import opened Types
  import opened Diffs
  import opened Money
  import opened Ledgers
  import opened Validity
  import opened Tracking
  import opened Conservation
  import opened Blocks
  import opened Steps
  import opened BlockSteps
  import opened BlockReverts
  import opened Checks

  // The expiration buckets list exactly the open contracts, each under its window end.
  ghost predicate Indexed(contracts: map<Hash, FileContract>, expirations: set<(nat, Hash)>)
  {
    forall k :: k in expirations <==> k.1 in contracts && contracts[k.1].windowEnd == k.0
  }

  // Reverting finds each added key present and each removed key absent.
  ghost predicate FitsBack<K, V>(m: map<K, V>, ds: seq<Diff<K, V>>)
    decreases |ds|
  {
    ds == [] ||
    ((ds[|ds| - 1].apply <==> ds[|ds| - 1].id in m) && FitsBack(Commit(m, ds[|ds| - 1], false), ds[..|ds| - 1]))
  }

  // What was committed fits going back, whether or not its records are true.
  lemma {:induction false} FitsBoth<K, V>(m: map<K, V>, ds: seq<Diff<K, V>>)
    requires Fits(m, ds)
    ensures FitsBack(CommitAll(m, ds), ds)
  {
    if ds != [] {
      var n := |ds| - 1;
      var before := CommitAll(m, ds[..n]);
      FitsBoth(m, ds[..n]);
      FitsBackKeys(before, Commit(Commit(before, ds[n], true), ds[n], false), ds[..n]);
    }
  }

  lemma {:induction false} FitsBackKeys<K, V>(a: map<K, V>, b: map<K, V>, ds: seq<Diff<K, V>>)
    requires FitsBack(a, ds) && a.Keys == b.Keys
    ensures FitsBack(b, ds)
    decreases |ds|
  {
    if ds != [] {
      var d := ds[|ds| - 1];
      FitsBackKeys(Commit(a, d, false), Commit(b, d, false), ds[..|ds| - 1]);
    }
  }

  // The sanity checks met on committing a set of diffs for a block of this height.
  ghost predicate CanCommit(l: Ledger, d: DiffSet, height: nat)
  {
    && height + MATURITY_DELAY !in l.buckets && (height >= MATURITY_DELAY ==> height in l.buckets)
    && Fits(l.siacoins, d.siacoins) && Fits(l.contracts, d.contracts) && Fits(l.delayed, d.delayed)
    && (forall e :: e in d.delayed ==> e.id.0 in l.buckets || e.id.0 == height + MATURITY_DELAY)
    && (height >= MATURITY_DELAY ==> forall k :: k in CommitAll(l.delayed, d.delayed) ==> k.0 != height)
  }

  // The sanity checks met on reverting it.
  ghost predicate CanRevert(l: Ledger, d: DiffSet, height: nat)
  {
    && height + MATURITY_DELAY in l.buckets && (height >= MATURITY_DELAY ==> height !in l.buckets) && l.path != []
    && FitsBack(l.siacoins, d.siacoins) && FitsBack(l.contracts, d.contracts) && FitsBack(l.delayed, d.delayed)
    && (forall e :: e in d.delayed ==> e.id.0 in l.buckets || (height >= MATURITY_DELAY && e.id.0 == height))
    && (forall k :: k in RevertAll(l.delayed, d.delayed) ==> k.0 != height + MATURITY_DELAY)
  }

  lemma {:induction false} RevertedKeys<K, V>(m: map<K, V>, ds: seq<Diff<K, V>>)
    ensures RevertAll(m, ds).Keys <= m.Keys + Ids(ds)
    decreases |ds|
  {
    if ds != [] {
      var d := ds[|ds| - 1];
      assert d in ds && forall e :: e in ds[..|ds| - 1] ==> e in ds;
      RevertedKeys(Commit(m, d, false), ds[..|ds| - 1]);
    }
  }

  // Removing keys one by one does not change the entries still there.
  lemma {:induction false} ReadsThrough<K, V>(m: map<K, V>, ds: seq<Diff<K, V>>, i: nat)
    requires AllRemove(ds) && Fits(m, ds) && i < |ds|
    ensures ds[i].id in m && ds[i].id in CommitAll(m, ds[..i]) && CommitAll(m, ds[..i])[ds[i].id] == m[ds[i].id]
  {
    FitsAt(m, ds, i);
    assert ds[i] in ds && forall d :: d in ds[..i] ==> d in ds;
    RemovalsAny(m, ds[..i]);
  }

  // Revising other contracts does not change this one.
  lemma {:induction false} RevisesOthers(m: map<Hash, FileContract>, rs: seq<FileContractRevision>, i: nat)
    requires i < |rs| && forall j, k :: 0 <= j < k < |rs| ==> rs[j].parentID != rs[k].parentID
    ensures var after, id := CommitAll(m, ReviseContracts(m, rs[..i])), rs[i].parentID;
      (id in after <==> id in m) && StoredContract(after, id) == StoredContract(m, id)
  {
    var ds, id := ReviseContracts(m, rs[..i]), rs[i].parentID;
    forall d | d in ds ensures d.id != id {
      RevisionIDs(m, rs[..i], d);
    }
    Untouched(m, ds, id);
  }

  lemma Extended<T>(a: seq<T>, b: seq<T>, i: nat)
    requires i < |b|
    ensures a + b[..i] + [b[i]] == a + b[..i + 1]
  {
  }

  lemma Regroup<T>(a: seq<T>, b: seq<T>, c: seq<T>)
    ensures a + b + c == a + (b + c)
  {
  }

  lemma {:induction false} ClosingStep(m: map<Hash, FileContract>, ids: seq<Hash>, i: nat, valid: bool, maturity: nat)
    requires i < |ids|
    ensures ClosingPayouts(m, ids[..i + 1], valid, maturity) == ClosingPayouts(m, ids[..i], valid, maturity) +
      ContractPayouts(ids[i], valid, ProofOutputs(StoredContract(m, ids[i]), valid), maturity)
  {
    assert ids[..i + 1][..i] == ids[..i];
  }

  lemma {:induction false} FitsThree<K, V>(m: map<K, V>, a: seq<Diff<K, V>>, b: seq<Diff<K, V>>, c: seq<Diff<K, V>>)
    requires Fits(m, a + b + c)
    ensures Fits(CommitAll(m, a), b) && CommitAll(m, a + b) == CommitAll(CommitAll(m, a), b)
  {
    FitsSplit(m, a + b, c);
    FitsSplit(m, a, b);
    CommitAppend(m, a, b);
  }

  // The payouts of contract i come after those of the earlier ones.
  lemma {:induction false} ClosingPrefix(m: map<Hash, FileContract>, delayed: map<(nat, Hash), SiacoinOutput>, ids: seq<Hash>, i: nat, valid: bool, maturity: nat)
    requires i < |ids| && Fits(delayed, ClosingPayouts(m, ids, valid, maturity))
    ensures var front := ClosingPayouts(m, ids[..i], valid, maturity);
      var next := ContractPayouts(ids[i], valid, ProofOutputs(StoredContract(m, ids[i]), valid), maturity);
      && ClosingPayouts(m, ids[..i + 1], valid, maturity) == front + next
      && Fits(CommitAll(delayed, front), next)
      && CommitAll(delayed, front + next) == CommitAll(CommitAll(delayed, front), next)
  {
    ClosingStep(m, ids, i, valid, maturity);
    var rest := ClosingSplit(m, ids, i + 1, valid, maturity);
    FitsThree(delayed, ClosingPayouts(m, ids[..i], valid, maturity),
              ContractPayouts(ids[i], valid, ProofOutputs(StoredContract(m, ids[i]), valid), maturity), rest);
  }

  lemma {:induction false} ClosingSplit(m: map<Hash, FileContract>, ids: seq<Hash>, i: nat, valid: bool, maturity: nat)
    returns (rest: seq<DelayedDiff>)
    requires i <= |ids|
    ensures ClosingPayouts(m, ids, valid, maturity) == ClosingPayouts(m, ids[..i], valid, maturity) + rest
  {
    if i == |ids| {
      assert ids[..i] == ids;
      rest := [];
    } else {
      var n := |ids| - 1;
      var before := ClosingSplit(m, ids[..n], i, valid, maturity);
      assert ids[..n][..i] == ids[..i];
      rest := before + ContractPayouts(ids[n], valid, ProofOutputs(StoredContract(m, ids[n]), valid), maturity);
    }
  }

  // ---------------------------------------------------------------- the stages of a transaction

  ghost function AfterCreates(m: map<Hash, FileContract>, c: TxnCore): map<Hash, FileContract>
  {
    CommitAll(m, CreateContracts(c, |c.fileContracts|))
  }

  ghost function AfterRevisions(m: map<Hash, FileContract>, c: TxnCore): map<Hash, FileContract>
  {
    CommitAll(AfterCreates(m, c), ReviseContracts(m, c.fileContractRevisions))
  }

  // What the steps of a transaction find: each diff fits, and revising and proving find the
  // contracts the ledger held before the transaction.
  ghost predicate CoinsReady(m: map<Hash, SiacoinOutput>, c: TxnCore)
  {
    var spends, creates := SpendSiacoins(m, c.siacoinInputs), CreateSiacoins(c, |c.siacoinOutputs|);
    Fits(m, spends) && Fits(CommitAll(m, spends), creates)
  }

  ghost predicate RevisionsReady(m: map<Hash, FileContract>, c: TxnCore)
  {
    var rs, after := c.fileContractRevisions, AfterCreates(m, c);
    && (forall i :: 0 <= i < |rs| ==> rs[i].parentID in after)
    && (forall i, j :: 0 <= i < j < |rs| ==> rs[i].parentID != rs[j].parentID)
    && ReviseContracts(after, rs) == ReviseContracts(m, rs)
  }

  ghost predicate ContractsReady(m: map<Hash, FileContract>, delayed: map<(nat, Hash), SiacoinOutput>, c: TxnCore, maturity: nat)
  {
    var ids, after := ProvenIDs(c.storageProofs), AfterRevisions(m, c);
    && Fits(m, CreateContracts(c, |c.fileContracts|)) && RevisionsReady(m, c)
    && CloseContracts(after, ids) == CloseContracts(m, ids) && Fits(after, CloseContracts(m, ids))
    && ClosingPayouts(after, ids, true, maturity) == ClosingPayouts(m, ids, true, maturity)
    && Fits(delayed, ClosingPayouts(m, ids, true, maturity))
  }

  ghost predicate FundsReady(env: Env, l: Ledger, c: TxnCore, maturity: nat)
  {
    var pool := PoolAfter(l.pool, Height(l), c.fileContracts);
    && Fits(l.siafunds, SpendSiafunds(env, l, c.siafundInputs))
    && Fits(CommitAll(l.delayed, ClosingPayouts(l.contracts, ProvenIDs(c.storageProofs), true, maturity)),
            ClaimPayouts(env, l, pool, c.siafundInputs, maturity))
  }

  ghost predicate TxnReady(env: Env, l: Ledger, c: TxnCore, height: nat)
  {
    && CoinsReady(l.siacoins, c)
    && ContractsReady(l.contracts, l.delayed, c, height + MATURITY_DELAY)
    && FundsReady(env, l, c, height + MATURITY_DELAY)
  }

  lemma RevisionStage(env: Env, l: Ledger, h: History, c: TxnCore)
    requires Tracked(l, h) && Applicable(env, l, c)
    ensures RevisionsReady(l.contracts, c)
  {
    ConsumedIsLive(env, l, c);
    FreshIDs(env, l, h, c);
    TouchedDistinct(c);
    CreatedOthers(l.contracts, c);
    SameRevisions(AfterCreates(l.contracts, c), l.contracts, c.fileContractRevisions);
  }

  // A transaction that proves creates and revises nothing.
  lemma ProofStage(m: map<Hash, FileContract>, c: TxnCore, maturity: nat)
    requires StorageProofRules(c)
    ensures var ids, after := ProvenIDs(c.storageProofs), AfterRevisions(m, c);
      && CloseContracts(after, ids) == CloseContracts(m, ids)
      && ClosingPayouts(after, ids, true, maturity) == ClosingPayouts(m, ids, true, maturity)
  {
    if c.storageProofs != [] {
      assert CreateContracts(c, |c.fileContracts|) == [];
      assert AfterRevisions(m, c) == m;
    }
  }

  lemma SplitContracts(m: map<Hash, FileContract>, c: TxnCore)
    ensures CommitAll(AfterRevisions(m, c), CloseContracts(m, ProvenIDs(c.storageProofs))) == CommitAll(m, ContractDiffs(m, c))
    ensures Fits(m, ContractDiffs(m, c)) ==>
      Fits(m, CreateContracts(c, |c.fileContracts|)) && Fits(AfterRevisions(m, c), CloseContracts(m, ProvenIDs(c.storageProofs)))
  {
    var creates, revises := CreateContracts(c, |c.fileContracts|), ReviseContracts(m, c.fileContractRevisions);
    var closes := CloseContracts(m, ProvenIDs(c.storageProofs));
    CommitAppend(m, creates, revises);
    CommitAppend(m, creates + revises, closes);
    if Fits(m, ContractDiffs(m, c)) {
      FitsSplit(m, creates + revises, closes);
      FitsSplit(m, creates, revises);
    }
  }

  lemma ValidIsReady(env: Env, l: Ledger, h: History, c: TxnCore, height: nat)
    requires Tracked(l, h) && Applicable(env, l, c)
    ensures TxnReady(env, l, c, height)
  {
    var maturity := height + MATURITY_DELAY;
    var pool := PoolAfter(l.pool, Height(l), c.fileContracts);
    TxnFits(env, l, h, c, height);
    RevisionStage(env, l, h, c);
    ProofStage(l.contracts, c, maturity);
    SplitContracts(l.contracts, c);
    FitsSplit(l.siacoins, SpendSiacoins(l.siacoins, c.siacoinInputs), CreateSiacoins(c, |c.siacoinOutputs|));
    FitsSplit(l.siafunds, SpendSiafunds(env, l, c.siafundInputs), CreateSiafunds(c, |c.siafundOutputs|, pool));
    FitsSplit(l.delayed, ClosingPayouts(l.contracts, ProvenIDs(c.storageProofs), true, maturity),
              ClaimPayouts(env, l, pool, c.siafundInputs, maturity));
  }

  lemma CreatedOthers(m: map<Hash, FileContract>, c: TxnCore)
    requires ContractIDs(c) !! m.Keys
    ensures var after := CommitAll(m, CreateContracts(c, |c.fileContracts|));
      forall id :: id in m ==> id in after && after[id] == m[id]
  {
    var creates := CreateContracts(c, |c.fileContracts|);
    forall d | d in creates ensures d.id !in m {
      var i :| 0 <= i < |creates| && creates[i] == d;
      assert d.id in ContractIDs(c);
    }
    Insertions(m, creates);
  }

  lemma SameFundReads(env: Env, a: Ledger, b: Ledger, pool: nat, ins: seq<SiafundInput>, maturity: nat)
    requires a.siafunds == b.siafunds && a.path == b.path
    ensures SpendSiafunds(env, a, ins) == SpendSiafunds(env, b, ins)
    ensures ClaimPayouts(env, a, pool, ins, maturity) == ClaimPayouts(env, b, pool, ins, maturity)
  {
    assert forall id :: ReadSiafund(env, a, id) == ReadSiafund(env, b, id);
  }

  lemma TxnAssembles(env: Env, l: Ledger, c: TxnCore, height: nat, next: Ledger, was: DiffSet, now: DiffSet)
    requires next.path == l.path && next.buckets == l.buckets
    requires var ds := SpendSiacoins(l.siacoins, c.siacoinInputs) + CreateSiacoins(c, |c.siacoinOutputs|);
      next.siacoins == CommitAll(l.siacoins, ds) && now.siacoins == was.siacoins + ds
    requires next.contracts == CommitAll(l.contracts, ContractDiffs(l.contracts, c))
    requires now.contracts == was.contracts + ContractDiffs(l.contracts, c)
    requires next.pool == PoolAfter(l.pool, Height(l), c.fileContracts)
    requires now.pool == was.pool + PoolDiffs(l.pool, Height(l), c.fileContracts)
    requires var ds := SpendSiafunds(env, l, c.siafundInputs) + CreateSiafunds(c, |c.siafundOutputs|, next.pool);
      next.siafunds == CommitAll(l.siafunds, ds) && now.siafunds == was.siafunds + ds
    requires var payouts := ClosingPayouts(l.contracts, ProvenIDs(c.storageProofs), true, height + MATURITY_DELAY);
      var claims := ClaimPayouts(env, l, next.pool, c.siafundInputs, height + MATURITY_DELAY);
      next.delayed == CommitAll(CommitAll(l.delayed, payouts), claims) && now.delayed == was.delayed + payouts + claims
    ensures next == CommitSet(l, TxnDiffs(env, l, c, height)) && now == Then(was, TxnDiffs(env, l, c, height))
  {
    var payouts := ClosingPayouts(l.contracts, ProvenIDs(c.storageProofs), true, height + MATURITY_DELAY);
    var claims := ClaimPayouts(env, l, next.pool, c.siafundInputs, height + MATURITY_DELAY);
    CommitAppend(l.delayed, payouts, claims);
    Regroup(was.delayed, payouts, claims);
    PoolCommits(l.pool, Height(l), c.fileContracts);
  }

  // The state after one more transaction.
  lemma NextTxn(env: Env, l: Ledger, ts: seq<Transaction>, i: nat, height: nat)
    requires i < |ts|
    ensures var before := TxnsDiffs(env, l, ts[..i], height);
      var last := TxnDiffs(env, CommitSet(l, before), ts[i].core, height);
      && TxnsDiffs(env, l, ts[..i + 1], height) == Then(before, last)
      && CommitSet(l, Then(before, last)) == CommitSet(CommitSet(l, before), last)
  {
    var before := TxnsDiffs(env, l, ts[..i], height);
    assert ts[..i + 1][..i] == ts[..i];
    CommitSetThen(l, before, TxnDiffs(env, CommitSet(l, before), ts[i].core, height));
  }

  lemma StillValid(env: Env, l: Ledger, ts: seq<Transaction>, i: nat, height: nat)
    requires i < |ts| && TxnsValid(env, l, ts[..i], height)
    requires ValidTxn(env, CommitSet(l, TxnsDiffs(env, l, ts[..i], height)), ts[i])
    ensures TxnsValid(env, l, ts[..i + 1], height)
  {
    ExtendValid(env, l, ts[..i], ts[i], height);
    assert ts[..i] + [ts[i]] == ts[..i + 1];
  }

  // A transaction valid after the earlier ones is ready to be applied.
  lemma TxnsReady(env: Env, l: Ledger, h: History, done: seq<Transaction>, t: Transaction, height: nat)
    requires Tracked(l, h) && TxnsValid(env, l, done, height)
    requires ValidTxn(env, CommitSet(l, TxnsDiffs(env, l, done, height)), t)
    ensures TxnReady(env, CommitSet(l, TxnsDiffs(env, l, done, height)), t.core, height)
  {
    TxnsTracked(env, l, h, done, height);
    ValidIsReady(env, CommitSet(l, TxnsDiffs(env, l, done, height)), TxnsHistory(env, l, h, done, height), t.core, height);
  }

  lemma InvalidAt(env: Env, l: Ledger, ts: seq<Transaction>, i: nat, height: nat)
    requires i < |ts| && !ValidTxn(env, CommitSet(l, TxnsDiffs(env, l, ts[..i], height)), ts[i])
    ensures !TxnsValid(env, l, ts, height)
  {
    assert !ValidAt(env, l, ts, i, height);
  }

  // ---------------------------------------------------------------- the stages of maintenance

  // List a bucket in some order.
  method Scan(keys: set<Hash>) returns (ids: seq<Hash>)
    ensures Enumerates(ids, keys)
  {
    ids := [];
    var rest := keys;
    while rest != {}
      invariant rest <= keys && Enumerates(ids, keys - rest)
      decreases |rest|
    {
      var id :| id in rest;
      assert id !in ids;
      ids := ids + [id];
      rest := rest - {id};
    }
  }

  // What maintenance needs of the ledger the transactions leave.
  ghost predicate MaintenanceReady(l: Ledger, id: Hash, height: nat)
  {
    var maturity := height + MATURITY_DELAY;
    && maturity in l.buckets && (height >= MATURITY_DELAY ==> height in l.buckets)
    && (forall i: nat :: (maturity, MinerPayoutHash(id, i)) !in l.delayed)
    && (forall x :: x in MaturingIDs(l, height) ==> x !in l.siacoins)
    && (forall x, i: nat :: x in l.contracts && l.contracts[x].windowEnd == height ==> (maturity, StorageProofHash(x, false, i)) !in l.delayed)
  }

  lemma TrackedIsReady(l: Ledger, h: History, id: Hash, height: nat)
    requires Tracked(l, h) && id !in h.blocks
    requires height + MATURITY_DELAY in l.buckets && (height >= MATURITY_DELAY ==> height in l.buckets)
    ensures MaintenanceReady(l, id, height)
  {
    forall i: nat ensures (height + MATURITY_DELAY, MinerPayoutHash(id, i)) !in l.delayed {
      assert !SiacoinOrigin(h, MinerPayoutHash(id, i));
    }
    forall x, i: nat | x in l.contracts ensures (height + MATURITY_DELAY, StorageProofHash(x, false, i)) !in l.delayed {
      assert !SiacoinOrigin(h, StorageProofHash(x, false, i));
    }
  }

  // Adding outputs to another bucket does not change what a bucket scan finds.
  lemma OtherBucket(l: Ledger, next: Ledger, ds: seq<DelayedDiff>, height: nat, ids: seq<Hash>)
    requires next.delayed == CommitAll(l.delayed, ds) && forall d :: d in ds ==> d.id.0 != height
    ensures MaturingIDs(next, height) == MaturingIDs(l, height)
    ensures MatureDiffs(next, ids, height) == MatureDiffs(l, ids, height)
    ensures UndelayDiffs(next, ids, height) == UndelayDiffs(l, ids, height)
  {
    forall k: (nat, Hash) | k.0 == height
      ensures (k in next.delayed <==> k in l.delayed) && StoredDelayed(next.delayed, k) == StoredDelayed(l.delayed, k)
    {
      assert k !in Ids(ds);
      Untouched(l.delayed, ds, k);
    }
  }

  lemma MaturingFits(l: Ledger, ids: seq<Hash>, height: nat)
    requires Enumerates(ids, MaturingIDs(l, height)) && forall x :: x in MaturingIDs(l, height) ==> x !in l.siacoins
    ensures Fits(l.siacoins, MatureDiffs(l, ids, height)) && Fits(l.delayed, UndelayDiffs(l, ids, height))
    ensures forall d :: d in UndelayDiffs(l, ids, height) ==> d.id.0 == height
    ensures forall k :: k in CommitAll(l.delayed, UndelayDiffs(l, ids, height)) ==> k.0 != height
  {
    hide CommitAll, Fits;
    var coins, removals := MatureDiffs(l, ids, height), UndelayDiffs(l, ids, height);
    Insertions(l.siacoins, coins);
    forall d | d in removals ensures d.id in l.delayed && l.delayed[d.id] == d.value {
      var i :| 0 <= i < |removals| && removals[i] == d;
      assert ids[i] in MaturingIDs(l, height);
    }
    Removals(l.delayed, removals, Itself);
    forall k | k in l.delayed && k.0 == height ensures k in Ids(removals) {
      assert k.1 in MaturingIDs(l, height);
      var i :| 0 <= i < |ids| && ids[i] == k.1;
      assert removals[i] in removals && removals[i].id == k;
    }
  }

  lemma ExpiringScan(contracts: map<Hash, FileContract>, expirations: set<(nat, Hash)>, l: Ledger, height: nat)
    requires Indexed(contracts, expirations) && l.contracts == contracts
    ensures (set k | k in expirations && k.0 == height :: k.1) == ExpiringIDs(l, height)
  {
    forall id | id in ExpiringIDs(l, height) ensures exists k :: k in expirations && k.0 == height && k.1 == id {
      assert (height, id) in expirations;
    }
  }

  lemma ExpiringFits(l: Ledger, ids: seq<Hash>, height: nat)
    requires Enumerates(ids, ExpiringIDs(l, height))
    requires forall x, i: nat :: x in l.contracts && l.contracts[x].windowEnd == height ==>
      (height + MATURITY_DELAY, StorageProofHash(x, false, i)) !in l.delayed
    ensures Fits(l.delayed, ClosingPayouts(l.contracts, ids, false, height + MATURITY_DELAY))
    ensures forall d :: d in ClosingPayouts(l.contracts, ids, false, height + MATURITY_DELAY) ==> d.id.0 == height + MATURITY_DELAY
    ensures Fits(l.contracts, CloseContracts(l.contracts, ids))
    ensures CommitAll(l.contracts, CloseContracts(l.contracts, ids)) == l.contracts - ExpiringIDs(l, height)
  {
    ClosingShape(l.contracts, ids, false, height + MATURITY_DELAY);
    var ds := ClosingPayouts(l.contracts, ids, false, height + MATURITY_DELAY);
    forall d | d in ds ensures d.id !in l.delayed {
      assert d.id.1.contract in ExpiringIDs(l, height);
      assert d.id == (height + MATURITY_DELAY, StorageProofHash(d.id.1.contract, false, d.id.1.index));
    }
    Insertions(l.delayed, ds);
    assert Elements(ids) == ExpiringIDs(l, height);
    ClosingFits(l.contracts, ids);
  }

  // After the payouts, what the other two steps need still holds.
  lemma AfterPayouts(l: Ledger, id: Hash, b: Block, height: nat, next: Ledger)
    requires MaintenanceReady(l, id, height) && next == l.(delayed := CommitAll(l.delayed, PayoutDiffs(id, b.minerPayouts, height + MATURITY_DELAY)))
    ensures forall x :: x in MaturingIDs(next, height) ==> x !in next.siacoins
    ensures forall x, i: nat :: x in next.contracts && next.contracts[x].windowEnd == height ==>
      (height + MATURITY_DELAY, StorageProofHash(x, false, i)) !in next.delayed
  {
    var ds := PayoutDiffs(id, b.minerPayouts, height + MATURITY_DELAY);
    OtherBucket(l, next, ds, height, []);
    forall x, i: nat | x in l.contracts && l.contracts[x].windowEnd == height
      ensures (height + MATURITY_DELAY, StorageProofHash(x, false, i)) !in next.delayed
    {
      var k := (height + MATURITY_DELAY, StorageProofHash(x, false, i));
      if k in next.delayed {
        Sources(l.delayed, ds, k);
      }
    }
  }

  lemma RemovalsShrink<K, V>(m: map<K, V>, ds: seq<Diff<K, V>>)
    requires AllRemove(ds)
    ensures CommitAll(m, ds).Keys <= m.Keys
  {
    RemovalsAny(m, ds);
  }

  lemma MaintenanceAssembles(l: Ledger, id: Hash, b: Block, height: nat, o: Order, next: Ledger, was: DiffSet, now: DiffSet)
    requires next.path == l.path && next.siafunds == l.siafunds && next.pool == l.pool
    requires now.siafunds == was.siafunds && now.pool == was.pool
    requires next.siacoins == CommitAll(l.siacoins, MatureDiffs(l, o.matured, height))
    requires now.siacoins == was.siacoins + MatureDiffs(l, o.matured, height)
    requires next.contracts == CommitAll(l.contracts, CloseContracts(l.contracts, o.expired))
    requires now.contracts == was.contracts + CloseContracts(l.contracts, o.expired)
    requires var maturity := height + MATURITY_DELAY;
      var payouts, undelayed := PayoutDiffs(id, b.minerPayouts, maturity), UndelayDiffs(l, o.matured, height);
      var missed := ClosingPayouts(l.contracts, o.expired, false, maturity);
      && next.delayed == CommitAll(CommitAll(CommitAll(l.delayed, payouts), undelayed), missed)
      && now.delayed == was.delayed + payouts + undelayed + missed
    ensures next == CommitSet(l, MaintenanceDiffs(l, id, b, height, o)).(buckets := next.buckets)
    ensures now == Then(was, MaintenanceDiffs(l, id, b, height, o))
  {
    var maturity := height + MATURITY_DELAY;
    var payouts, undelayed := PayoutDiffs(id, b.minerPayouts, maturity), UndelayDiffs(l, o.matured, height);
    var missed := ClosingPayouts(l.contracts, o.expired, false, maturity);
    CommitAppend(l.delayed, payouts, undelayed);
    CommitAppend(l.delayed, payouts + undelayed, missed);
    Regroup(was.delayed, payouts, undelayed);
    Regroup(was.delayed, payouts + undelayed, missed);
  }

  lemma NewBucket(env: Env, l: Ledger, h: History, height: nat)
    requires Inv(env, l, h) && |l.path| == height
    ensures height + MATURITY_DELAY !in l.buckets && (height >= MATURITY_DELAY ==> height in l.buckets)
    ensures Tracked(OpenBucket(l, height + MATURITY_DELAY), h)
  {
    BucketsMove(height);
  }

  lemma GenerateReady(env: Env, l: Ledger, h: History, id: Hash, b: Block, height: nat)
    requires Inv(env, l, h) && |l.path| == height && id !in l.path && BlockValid(env, l, b, height)
    ensures MaintenanceReady(AfterTxns(env, l, b, height), id, height)
  {
    TxnsStage(env, l, h, b, height);
    NewBucket(env, l, h, height);
    TrackedIsReady(AfterTxns(env, l, b, height),
                   TxnsHistory(env, OpenBucket(l, height + MATURITY_DELAY), h, b.transactions, height), id, height);
  }

  // The same entries, whatever the path and the set of buckets.
  ghost predicate Agree(a: Ledger, b: Ledger)
  {
    a.siacoins == b.siacoins && a.contracts == b.contracts && a.siafunds == b.siafunds && a.pool == b.pool && a.delayed == b.delayed
  }

  lemma FinishAssembles(env: Env, mid: Ledger, id: Hash, b: Block, height: nat, o: Order, next: Ledger, was: DiffSet, now: DiffSet)
    requires var upkeep := MaintenanceDiffs(mid, id, b, height, o);
      var done, swap := CommitSet(mid, upkeep), SwapDiffs(env, height).siafunds;
      && Agree(next, done.(siafunds := CommitAll(done.siafunds, swap)))
      && now == Then(was, upkeep).(siafunds := Then(was, upkeep).siafunds + swap)
    ensures Agree(next, CommitSet(CommitSet(mid, MaintenanceDiffs(mid, id, b, height, o)), SwapDiffs(env, height)))
    ensures now == Then(Then(was, MaintenanceDiffs(mid, id, b, height, o)), SwapDiffs(env, height))
  {
  }

  // The stages one after another leave what replaying the stored diffs would.
  lemma GenerateAssembles(env: Env, l: Ledger, h: History, id: Hash, b: Block, height: nat, o: Order, done: Ledger)
    requires EnvOK(env) && Inv(env, l, h) && |l.path| == height && id !in l.path && BlockValid(env, l, b, height)
    requires OrderOK(AfterTxns(env, l, b, height), height, o)
    requires Agree(done, AfterSwap(env, l, id, b, height, o)) && done.path == l.path + [id]
    requires done.buckets == if height >= MATURITY_DELAY then AfterTxns(env, l, b, height).buckets - {height} else AfterTxns(env, l, b, height).buckets
    ensures done == ApplyDiffs(l, BlockDiffs(env, l, id, b, height, o), id, height)
    ensures forall k :: k in done.delayed ==> k.0 in done.buckets
  {
    NextLedger(env, l, h, id, b, height, o);
    BucketsMove(height);
    BucketsAfter(env, l, h, id, b, height, o);
  }

  lemma GenesisFits(env: Env)
    ensures Fits(map[], GenesisDiffs(env).siacoins)
  {
    var none: map<Hash, SiacoinOutput> := map[];
    Insertions(none, GenesisDiffs(env).siacoins);
  }

  // A block on top of a ledger, with its diffs for one scan order.
  ghost predicate Generated(env: Env, l: Ledger, h: History, id: Hash, b: Block, height: nat, o: Order)
  {
    && EnvOK(env) && Inv(env, l, h) && |l.path| == height && BlockValid(env, l, b, height) && id !in l.path
    && OrderOK(AfterTxns(env, l, b, height), height, o)
  }

  lemma ReplayBuckets(env: Env, l: Ledger, h: History, id: Hash, b: Block, height: nat, o: Order)
    requires Generated(env, l, h, id, b, height, o)
    ensures var ds := BlockDiffs(env, l, id, b, height, o).delayed;
      && (forall e :: e in ds ==> e.id.0 in l.buckets || e.id.0 == height + MATURITY_DELAY)
      && (forall k :: k in CommitAll(l.delayed, ds) ==> k.0 != height)
  {
    var ds := BlockDiffs(env, l, id, b, height, o).delayed;
    NewBucket(env, l, h, height);
    forall e: DelayedDiff | e in ds ensures e.id.0 in l.buckets || e.id.0 == height + MATURITY_DELAY {
      DelayedKeys(env, l, id, b, height, o, e);
    }
    Stages(env, l, id, b, height, o);
    forall k | k in CommitAll(l.delayed, ds) ensures k.0 != height {
      BucketEmptied(env, l, h, id, b, height, o, k);
    }
  }

  lemma ReplayFits(env: Env, l: Ledger, h: History, id: Hash, b: Block, height: nat, o: Order)
    requires Generated(env, l, h, id, b, height, o)
    ensures var d := BlockDiffs(env, l, id, b, height, o);
      Fits(l.siacoins, d.siacoins) && Fits(l.contracts, d.contracts) && Fits(l.delayed, d.delayed)
  {
    KindsFit(env, l, h, id, b, height, o);
    DiffKinds(env, l, id, b, height, o);
  }

  // The stored diffs of a valid block meet every check when they are replayed.
  lemma ReplayReady(env: Env, l: Ledger, h: History, id: Hash, b: Block, height: nat, o: Order)
    requires Generated(env, l, h, id, b, height, o)
    ensures CanCommit(l, BlockDiffs(env, l, id, b, height, o), height)
  {
    NewBucket(env, l, h, height);
    ReplayBuckets(env, l, h, id, b, height, o);
    ReplayFits(env, l, h, id, b, height, o);
  }

  lemma DelayedRestored(env: Env, l: Ledger, h: History, id: Hash, b: Block, height: nat, o: Order)
    requires Generated(env, l, h, id, b, height, o)
    ensures var ds := BlockDiffs(env, l, id, b, height, o).delayed; RevertAll(CommitAll(l.delayed, ds), ds) == l.delayed
  {
    KindsFit(env, l, h, id, b, height, o);
    DiffKinds(env, l, id, b, height, o);
    RevertUndoesCommit(l.delayed, BlockDiffs(env, l, id, b, height, o).delayed);
  }

  // And when they are reverted.
  lemma RevertReady(env: Env, l: Ledger, h: History, id: Hash, b: Block, height: nat, o: Order)
    requires Generated(env, l, h, id, b, height, o)
    ensures var d := BlockDiffs(env, l, id, b, height, o); CanRevert(ApplyDiffs(l, d, id, height), d, height)
  {
    var d := BlockDiffs(env, l, id, b, height, o);
    ReplayFits(env, l, h, id, b, height, o);
    ReplayBuckets(env, l, h, id, b, height, o);
    DelayedRestored(env, l, h, id, b, height, o);
    NextLedger(env, l, h, id, b, height, o);
    forall e: DelayedDiff | e in d.delayed
      ensures e.id.0 == height + MATURITY_DELAY || (height >= MATURITY_DELAY && e.id.0 == height)
    {
      DelayedKeys(env, l, id, b, height, o, e);
    }
    CanRevertNext(l, d, id, height);
  }

  lemma CanRevertNext(l: Ledger, d: DiffSet, id: Hash, height: nat)
    requires BucketsExact(l, Height(l)) && |l.path| == height > 0
    requires ApplyDiffs(l, d, id, height).buckets == ExpectedBuckets(height)
    requires Fits(l.siacoins, d.siacoins) && Fits(l.contracts, d.contracts) && Fits(l.delayed, d.delayed)
    requires forall k :: k in CommitAll(l.delayed, d.delayed) ==> k.0 != height
    requires RevertAll(CommitAll(l.delayed, d.delayed), d.delayed) == l.delayed
    requires forall e :: e in d.delayed ==> e.id.0 == height + MATURITY_DELAY || (height >= MATURITY_DELAY && e.id.0 == height)
    ensures CanRevert(ApplyDiffs(l, d, id, height), d, height)
  {
    var next := ApplyDiffs(l, d, id, height);
    assert next.delayed == CommitAll(l.delayed, d.delayed);
    FitsBoth(l.siacoins, d.siacoins);
    FitsBoth(l.contracts, d.contracts);
    FitsBoth(l.delayed, d.delayed);
    assert BucketDue(height + MATURITY_DELAY, height) && !BucketDue(height, height);
    assert forall k :: k in l.delayed ==> BucketDue(k.0, Height(l));
  }

  // A block with the diffs generated for it so far.
  class ProcessedBlock {
    const block: Block
    const height: nat
    var siacoinDiffs: seq<Diff<Hash, SiacoinOutput>>
    var contractDiffs: seq<Diff<Hash, FileContract>>
    var siafundDiffs: seq<Diff<Hash, SiafundOutput>>
    var delayedDiffs: seq<DelayedDiff>
    var poolDiffs: seq<PoolDiff>
    var diffsGenerated: bool

    constructor (block: Block, height: nat)
      ensures this.block == block && this.height == height && Diffs() == NO_DIFFS && !diffsGenerated
    {
      this.block, this.height := block, height;
      siacoinDiffs, contractDiffs, siafundDiffs, delayedDiffs, poolDiffs := [], [], [], [], [];
      diffsGenerated := false;
    }

    // A block read back from the block map.
    constructor Stored(block: Block, height: nat, diffs: DiffSet, generated: bool)
      ensures this.block == block && this.height == height && Diffs() == diffs && diffsGenerated == generated
    {
      this.block, this.height := block, height;
      siacoinDiffs, contractDiffs, siafundDiffs := diffs.siacoins, diffs.contracts, diffs.siafunds;
      delayedDiffs, poolDiffs := diffs.delayed, diffs.pool;
      diffsGenerated := generated;
    }

    function Diffs(): DiffSet
      reads this
    {
      DiffSet(siacoinDiffs, contractDiffs, siafundDiffs, delayedDiffs, poolDiffs)
    }

    function ID(): Hash { BlockHash(block) }
  }

  class ConsensusDB {
    var path: seq<Hash>
    var siacoins: map<Hash, SiacoinOutput>
    var contracts: map<Hash, FileContract>
    var siafunds: map<Hash, SiafundOutput>
    var pool: nat
    var delayed: map<(nat, Hash), SiacoinOutput>
    var buckets: set<nat>
    var expirations: set<(nat, Hash)>

    function Contents(): Ledger
      reads this
    {
      Ledger(path, siacoins, contracts, siafunds, pool, delayed, buckets)
    }

    ghost predicate Valid()
      reads this
    {
      Indexed(contracts, expirations) && forall k :: k in delayed ==> k.0 in buckets
    }

    // createConsensusDB.
    constructor (env: Env)
      requires EnvOK(env)
      ensures Valid() && Contents() == GenesisLedger(env)
    {
      path, pool, buckets, expirations := [], 0, {}, {};
      siacoins, contracts, siafunds, delayed := map[], map[], map[], map[];
      new;
      ApplyGenesis(env);
    }

    method ApplyGenesis(env: Env)
      requires EnvOK(env) && Contents() == Ledger([], map[], map[], map[], 0, map[], {}) && expirations == {}
      modifies this
      ensures Valid() && Contents() == GenesisLedger(env)
    {
      hide GenesisDiffs, Fits, CommitAll, EnvOK, Coinbase, GenesisBlock;
      GenesisFits(env);
      CommitSiacoinDiffs(GenesisDiffs(env).siacoins);
      CommitSiafundDiffs(GenesisDiffs(env).siafunds);
      CreateDelayedBucket(MATURITY_DELAY);
      AddDelayedOutput(MATURITY_DELAY, MinerPayoutHash(GenesisID(env), 0), SiacoinOutput(Coinbase(0), ZERO_HASH));
      PushPath(GenesisID(env));
    }

    // ------------------------------------------------------------ one entry

    method AddSiacoinOutput(id: Hash, o: SiacoinOutput)
      requires id !in siacoins
      modifies this`siacoins
      ensures siacoins == old(siacoins)[id := o]
    {
      siacoins := siacoins[id := o];
    }

    method RemoveSiacoinOutput(id: Hash)
      requires id in siacoins
      modifies this`siacoins
      ensures siacoins == old(siacoins) - {id}
    {
      siacoins := siacoins - {id};
    }

    method AddFileContract(id: Hash, c: FileContract)
      requires Indexed(contracts, expirations) && id !in contracts
      modifies this`contracts, this`expirations
      ensures contracts == old(contracts)[id := c] && Indexed(contracts, expirations)
    {
      contracts := contracts[id := c];
      expirations := expirations + {(c.windowEnd, id)};
    }

    method RemoveFileContract(id: Hash)
      requires Indexed(contracts, expirations) && id in contracts
      modifies this`contracts, this`expirations
      ensures contracts == old(contracts) - {id} && Indexed(contracts, expirations)
    {
      var key := (contracts[id].windowEnd, id);
      assert key in expirations;
      contracts := contracts - {id};
      expirations := expirations - {key};
    }

    method AddDelayedOutput(height: nat, id: Hash, o: SiacoinOutput)
      requires height in buckets && (height, id) !in delayed
      modifies this`delayed
      ensures delayed == old(delayed)[(height, id) := o]
    {
      delayed := delayed[(height, id) := o];
    }

    method RemoveDelayedOutput(height: nat, id: Hash)
      requires height in buckets && (height, id) in delayed
      modifies this`delayed
      ensures delayed == old(delayed) - {(height, id)}
    {
      delayed := delayed - {(height, id)};
    }

    method CreateDelayedBucket(height: nat)
      requires height !in buckets
      modifies this`buckets
      ensures Contents() == OpenBucket(old(Contents()), height)
    {
      buckets := buckets + {height};
    }

    // Only empty buckets are deleted.
    method DeleteDelayedBucket(height: nat)
      requires height in buckets && forall k :: k in delayed ==> k.0 != height
      modifies this`buckets
      ensures Contents() == DropBucket(old(Contents()), height)
    {
      buckets := buckets - {height};
      assert WithoutHeight(delayed, height) == delayed;
    }

    method PushPath(id: Hash)
      modifies this`path
      ensures path == old(path) + [id]
    {
      path := path + [id];
    }

    method PopPath()
      requires path != []
      modifies this`path
      ensures path == old(path)[..|old(path)| - 1]
    {
      path := path[..|path| - 1];
    }

    // ------------------------------------------------------------ one diff

    method CommitSiacoinDiff(d: Diff<Hash, SiacoinOutput>, apply: bool)
      requires d.apply == apply <==> d.id !in siacoins
      modifies this`siacoins
      ensures siacoins == Commit(old(siacoins), d, apply)
    {
      if d.apply == apply {
        AddSiacoinOutput(d.id, d.value);
      } else {
        RemoveSiacoinOutput(d.id);
      }
    }

    method CommitContractDiff(d: Diff<Hash, FileContract>, apply: bool)
      requires Indexed(contracts, expirations) && (d.apply == apply <==> d.id !in contracts)
      modifies this`contracts, this`expirations
      ensures contracts == Commit(old(contracts), d, apply) && Indexed(contracts, expirations)
    {
      if d.apply == apply {
        AddFileContract(d.id, d.value);
      } else {
        RemoveFileContract(d.id);
      }
    }

    // The swap removes siafunds that may be gone already, so removal asks for nothing.
    method CommitSiafundDiff(d: Diff<Hash, SiafundOutput>, apply: bool)
      modifies this`siafunds
      ensures siafunds == Commit(old(siafunds), d, apply)
    {
      if d.apply == apply {
        siafunds := siafunds[d.id := d.value];
      } else {
        siafunds := siafunds - {d.id};
      }
    }

    method CommitDelayedDiff(d: DelayedDiff, apply: bool)
      requires d.id.0 in buckets && (d.apply == apply <==> d.id !in delayed)
      modifies this`delayed
      ensures delayed == Commit(old(delayed), d, apply)
    {
      if d.apply == apply {
        AddDelayedOutput(d.id.0, d.id.1, d.value);
      } else {
        RemoveDelayedOutput(d.id.0, d.id.1);
      }
    }

    method CommitPoolDiff(d: PoolDiff, apply: bool)
      modifies this`pool
      ensures pool == if apply then d.adjusted else d.previous
    {
      pool := if apply then d.adjusted else d.previous;
    }

    // ------------------------------------------------------------ all diffs of a block

    method CommitSiacoinDiffs(ds: seq<Diff<Hash, SiacoinOutput>>)
      requires Fits(siacoins, ds)
      modifies this`siacoins
      ensures siacoins == CommitAll(old(siacoins), ds)
    {
      for i := 0 to |ds|
        invariant siacoins == CommitAll(old(siacoins), ds[..i])
      {
        FitsAt(old(siacoins), ds, i);
        CommitSiacoinDiff(ds[i], true);
      }
      assert ds[..|ds|] == ds;
    }

    method CommitContractDiffs(ds: seq<Diff<Hash, FileContract>>)
      requires Indexed(contracts, expirations) && Fits(contracts, ds)
      modifies this`contracts, this`expirations
      ensures contracts == CommitAll(old(contracts), ds) && Indexed(contracts, expirations)
    {
      for i := 0 to |ds|
        invariant contracts == CommitAll(old(contracts), ds[..i]) && Indexed(contracts, expirations)
      {
        FitsAt(old(contracts), ds, i);
        CommitContractDiff(ds[i], true);
      }
      assert ds[..|ds|] == ds;
    }

    method CommitSiafundDiffs(ds: seq<Diff<Hash, SiafundOutput>>)
      modifies this`siafunds
      ensures siafunds == CommitAll(old(siafunds), ds)
    {
      for i := 0 to |ds|
        invariant siafunds == CommitAll(old(siafunds), ds[..i])
      {
        CommitSiafundDiff(ds[i], true);
        assert ds[..i + 1][..i] == ds[..i];
      }
      assert ds[..|ds|] == ds;
    }

    method CommitDelayedDiffs(ds: seq<DelayedDiff>)
      requires Fits(delayed, ds) && forall d :: d in ds ==> d.id.0 in buckets
      modifies this`delayed
      ensures delayed == CommitAll(old(delayed), ds)
    {
      for i := 0 to |ds|
        invariant delayed == CommitAll(old(delayed), ds[..i])
      {
        FitsAt(old(delayed), ds, i);
        CommitDelayedDiff(ds[i], true);
      }
      assert ds[..|ds|] == ds;
    }

    method CommitPoolDiffs(ds: seq<PoolDiff>)
      modifies this`pool
      ensures pool == CommitPool(old(pool), ds)
    {
      for i := 0 to |ds|
        invariant pool == CommitPool(old(pool), ds[..i])
      {
        CommitPoolDiff(ds[i], true);
      }
      assert ds[..|ds|] == ds;
    }

    method RevertSiacoinDiffs(ds: seq<Diff<Hash, SiacoinOutput>>)
      requires FitsBack(siacoins, ds)
      modifies this`siacoins
      ensures siacoins == RevertAll(old(siacoins), ds)
    {
      var i := |ds|;
      assert ds[..i] == ds;
      while i > 0
        invariant 0 <= i <= |ds| && FitsBack(siacoins, ds[..i])
        invariant RevertAll(siacoins, ds[..i]) == RevertAll(old(siacoins), ds)
      {
        i := i - 1;
        assert ds[..i + 1][..i] == ds[..i];
        CommitSiacoinDiff(ds[i], false);
      }
    }

    method RevertContractDiffs(ds: seq<Diff<Hash, FileContract>>)
      requires Indexed(contracts, expirations) && FitsBack(contracts, ds)
      modifies this`contracts, this`expirations
      ensures contracts == RevertAll(old(contracts), ds) && Indexed(contracts, expirations)
    {
      var i := |ds|;
      assert ds[..i] == ds;
      while i > 0
        invariant 0 <= i <= |ds| && FitsBack(contracts, ds[..i]) && Indexed(contracts, expirations)
        invariant RevertAll(contracts, ds[..i]) == RevertAll(old(contracts), ds)
      {
        i := i - 1;
        assert ds[..i + 1][..i] == ds[..i];
        CommitContractDiff(ds[i], false);
      }
    }

    method RevertSiafundDiffs(ds: seq<Diff<Hash, SiafundOutput>>)
      modifies this`siafunds
      ensures siafunds == RevertAll(old(siafunds), ds)
    {
      var i := |ds|;
      assert ds[..i] == ds;
      while i > 0
        invariant 0 <= i <= |ds|
        invariant RevertAll(siafunds, ds[..i]) == RevertAll(old(siafunds), ds)
      {
        i := i - 1;
        assert ds[..i + 1][..i] == ds[..i];
        CommitSiafundDiff(ds[i], false);
      }
    }

    method RevertDelayedDiffs(ds: seq<DelayedDiff>)
      requires FitsBack(delayed, ds) && forall d :: d in ds ==> d.id.0 in buckets
      modifies this`delayed
      ensures delayed == RevertAll(old(delayed), ds)
    {
      var i := |ds|;
      assert ds[..i] == ds;
      while i > 0
        invariant 0 <= i <= |ds| && FitsBack(delayed, ds[..i])
        invariant RevertAll(delayed, ds[..i]) == RevertAll(old(delayed), ds)
      {
        i := i - 1;
        assert ds[..i + 1][..i] == ds[..i];
        CommitDelayedDiff(ds[i], false);
      }
    }

    method RevertPoolDiffs(ds: seq<PoolDiff>)
      modifies this`pool
      ensures pool == RevertPool(old(pool), ds)
    {
      var i := |ds|;
      while i > 0
        invariant 0 <= i <= |ds|
        invariant pool == if i < |ds| then ds[i].previous else old(pool)
      {
        i := i - 1;
        CommitPoolDiff(ds[i], false);
      }
    }

    method CommitNodeDiffs(pb: ProcessedBlock)
      requires Indexed(contracts, expirations)
      requires Fits(siacoins, pb.siacoinDiffs) && Fits(contracts, pb.contractDiffs) && Fits(delayed, pb.delayedDiffs)
      requires forall d :: d in pb.delayedDiffs ==> d.id.0 in buckets
      modifies this`siacoins, this`contracts, this`expirations, this`siafunds, this`delayed, this`pool
      ensures Indexed(contracts, expirations) && Contents() == CommitSet(old(Contents()), pb.Diffs())
    {
      CommitSiacoinDiffs(pb.siacoinDiffs);
      CommitContractDiffs(pb.contractDiffs);
      CommitSiafundDiffs(pb.siafundDiffs);
      CommitDelayedDiffs(pb.delayedDiffs);
      CommitPoolDiffs(pb.poolDiffs);
    }

    method RevertNodeDiffs(pb: ProcessedBlock)
      requires Indexed(contracts, expirations)
      requires FitsBack(siacoins, pb.siacoinDiffs) && FitsBack(contracts, pb.contractDiffs) && FitsBack(delayed, pb.delayedDiffs)
      requires forall d :: d in pb.delayedDiffs ==> d.id.0 in buckets
      modifies this`siacoins, this`contracts, this`expirations, this`siafunds, this`delayed, this`pool
      ensures Indexed(contracts, expirations) && Contents() == RevertSet(old(Contents()), pb.Diffs())
    {
      RevertSiacoinDiffs(pb.siacoinDiffs);
      RevertContractDiffs(pb.contractDiffs);
      RevertSiafundDiffs(pb.siafundDiffs);
      RevertDelayedDiffs(pb.delayedDiffs);
      RevertPoolDiffs(pb.poolDiffs);
    }

    method ApplyDiffSet(pb: ProcessedBlock)
      requires Valid() && CanCommit(Contents(), pb.Diffs(), pb.height)
      modifies this
      ensures Valid() && Contents() == ApplyDiffs(old(Contents()), pb.Diffs(), pb.ID(), pb.height)
    {
      CreateDelayedBucket(pb.height + MATURITY_DELAY);
      CommitNodeDiffs(pb);
      ghost var before := old(delayed);
      forall k | k in delayed ensures k.0 in buckets {
        Sources(before, pb.delayedDiffs, k);
      }
      if pb.height >= MATURITY_DELAY {
        DeleteDelayedBucket(pb.height);
      }
      PushPath(pb.ID());
    }

    method RevertDiffSet(pb: ProcessedBlock)
      requires Valid() && CanRevert(Contents(), pb.Diffs(), pb.height)
      modifies this
      ensures Valid() && Contents() == RevertDiffs(old(Contents()), pb.Diffs(), pb.height)
    {
      if pb.height >= MATURITY_DELAY {
        CreateDelayedBucket(pb.height);
      }
      RevertNodeDiffs(pb);
      RevertedKeys(old(delayed), pb.delayedDiffs);
      DeleteDelayedBucket(pb.height + MATURITY_DELAY);
      PopPath();
    }

    method CommitDiffSet(pb: ProcessedBlock, apply: bool)
      requires Valid()
      requires if apply then CanCommit(Contents(), pb.Diffs(), pb.height) else CanRevert(Contents(), pb.Diffs(), pb.height)
      modifies this
      ensures Valid()
      ensures Contents() == if apply then ApplyDiffs(old(Contents()), pb.Diffs(), pb.ID(), pb.height)
                            else RevertDiffs(old(Contents()), pb.Diffs(), pb.height)
    {
      if apply {
        ApplyDiffSet(pb);
      } else {
        RevertDiffSet(pb);
      }
    }

    // ------------------------------------------------------------ recording and committing one diff

    method RecordSiacoin(pb: ProcessedBlock, d: Diff<Hash, SiacoinOutput>)
      requires d.apply <==> d.id !in siacoins
      modifies this`siacoins, pb`siacoinDiffs
      ensures siacoins == Commit(old(siacoins), d, true) && pb.siacoinDiffs == old(pb.siacoinDiffs) + [d]
    {
      pb.siacoinDiffs := pb.siacoinDiffs + [d];
      CommitSiacoinDiff(d, true);
    }

    method RecordContract(pb: ProcessedBlock, d: Diff<Hash, FileContract>)
      requires Indexed(contracts, expirations) && (d.apply <==> d.id !in contracts)
      modifies this`contracts, this`expirations, pb`contractDiffs
      ensures Indexed(contracts, expirations)
      ensures contracts == Commit(old(contracts), d, true) && pb.contractDiffs == old(pb.contractDiffs) + [d]
    {
      pb.contractDiffs := pb.contractDiffs + [d];
      CommitContractDiff(d, true);
    }

    method RecordSiafund(pb: ProcessedBlock, d: Diff<Hash, SiafundOutput>)
      modifies this`siafunds, pb`siafundDiffs
      ensures siafunds == Commit(old(siafunds), d, true) && pb.siafundDiffs == old(pb.siafundDiffs) + [d]
    {
      pb.siafundDiffs := pb.siafundDiffs + [d];
      CommitSiafundDiff(d, true);
    }

    method RecordDelayed(pb: ProcessedBlock, d: DelayedDiff)
      requires d.id.0 in buckets && (d.apply <==> d.id !in delayed)
      modifies this`delayed, pb`delayedDiffs
      ensures delayed == Commit(old(delayed), d, true) && pb.delayedDiffs == old(pb.delayedDiffs) + [d]
    {
      pb.delayedDiffs := pb.delayedDiffs + [d];
      CommitDelayedDiff(d, true);
    }

    // ------------------------------------------------------------ applying a transaction

    method ApplySiacoinInputs(pb: ProcessedBlock, t: TxnCore)
      requires Fits(siacoins, SpendSiacoins(siacoins, t.siacoinInputs))
      modifies this`siacoins, pb`siacoinDiffs
      ensures siacoins == CommitAll(old(siacoins), SpendSiacoins(old(siacoins), t.siacoinInputs))
      ensures pb.siacoinDiffs == old(pb.siacoinDiffs) + SpendSiacoins(old(siacoins), t.siacoinInputs)
    {
      ghost var m, ds := siacoins, SpendSiacoins(siacoins, t.siacoinInputs);
      for i := 0 to |t.siacoinInputs|
        invariant siacoins == CommitAll(m, ds[..i]) && pb.siacoinDiffs == old(pb.siacoinDiffs) + ds[..i]
      {
        var id := t.siacoinInputs[i].parentID;
        FitsAt(m, ds, i);
        ReadsThrough(m, ds, i);
        Extended(old(pb.siacoinDiffs), ds, i);
        RecordSiacoin(pb, Diff(false, id, StoredSiacoin(siacoins, id)));
      }
      assert ds[..|ds|] == ds;
    }

    method ApplySiacoinOutputs(pb: ProcessedBlock, t: TxnCore)
      requires Fits(siacoins, CreateSiacoins(t, |t.siacoinOutputs|))
      modifies this`siacoins, pb`siacoinDiffs
      ensures siacoins == CommitAll(old(siacoins), CreateSiacoins(t, |t.siacoinOutputs|))
      ensures pb.siacoinDiffs == old(pb.siacoinDiffs) + CreateSiacoins(t, |t.siacoinOutputs|)
    {
      ghost var m, ds := siacoins, CreateSiacoins(t, |t.siacoinOutputs|);
      for i := 0 to |t.siacoinOutputs|
        invariant siacoins == CommitAll(m, ds[..i]) && pb.siacoinDiffs == old(pb.siacoinDiffs) + ds[..i]
      {
        FitsAt(m, ds, i);
        Extended(old(pb.siacoinDiffs), ds, i);
        RecordSiacoin(pb, Diff(true, SiacoinOutputHash(t, i), t.siacoinOutputs[i]));
      }
      assert ds[..|ds|] == ds;
    }

    method ApplyFileContracts(pb: ProcessedBlock, t: TxnCore)
      requires Indexed(contracts, expirations) && Fits(contracts, CreateContracts(t, |t.fileContracts|))
      modifies this`contracts, this`expirations, this`pool, pb`contractDiffs, pb`poolDiffs
      ensures Indexed(contracts, expirations)
      ensures contracts == CommitAll(old(contracts), CreateContracts(t, |t.fileContracts|))
      ensures pb.contractDiffs == old(pb.contractDiffs) + CreateContracts(t, |t.fileContracts|)
      ensures pool == PoolAfter(old(pool), Height(Contents()), t.fileContracts)
      ensures pb.poolDiffs == old(pb.poolDiffs) + PoolDiffs(old(pool), Height(Contents()), t.fileContracts)
    {
      hide Indexed, Fits, Tax;
      var height := Height(Contents());
      var cs := t.fileContracts;
      ghost var m, ds := contracts, CreateContracts(t, |cs|);
      for i := 0 to |cs|
        invariant Indexed(contracts, expirations)
        invariant contracts == CommitAll(m, ds[..i]) && pb.contractDiffs == old(pb.contractDiffs) + ds[..i]
        invariant pool == PoolAfter(old(pool), height, cs[..i])
        invariant pb.poolDiffs == old(pb.poolDiffs) + PoolDiffs(old(pool), height, cs[..i])
      {
        FitsAt(m, ds, i);
        Extended(old(pb.contractDiffs), ds, i);
        assert cs[..i + 1][..i] == cs[..i];
        RecordContract(pb, Diff(true, FileContractHash(t, i), cs[i]));
        CollectTax(pb, height, cs[i]);
      }
      assert ds[..|ds|] == ds && cs[..|cs|] == cs;
    }

    method CollectTax(pb: ProcessedBlock, height: nat, c: FileContract)
      modifies this`pool, pb`poolDiffs
      ensures pool == old(pool) + Tax(height, c.payout)
      ensures pb.poolDiffs == old(pb.poolDiffs) + [PoolDiff(old(pool), pool)]
    {
      var d := PoolDiff(pool, pool + Tax(height, c.payout));
      pb.poolDiffs := pb.poolDiffs + [d];
      CommitPoolDiff(d, true);
    }

    method ApplyFileContractRevisions(pb: ProcessedBlock, t: TxnCore)
      requires Indexed(contracts, expirations)
      requires forall i, j :: 0 <= i < j < |t.fileContractRevisions| ==>
        t.fileContractRevisions[i].parentID != t.fileContractRevisions[j].parentID
      requires forall i :: 0 <= i < |t.fileContractRevisions| ==> t.fileContractRevisions[i].parentID in contracts
      modifies this`contracts, this`expirations, pb`contractDiffs
      ensures Indexed(contracts, expirations)
      ensures contracts == CommitAll(old(contracts), ReviseContracts(old(contracts), t.fileContractRevisions))
      ensures pb.contractDiffs == old(pb.contractDiffs) + ReviseContracts(old(contracts), t.fileContractRevisions)
    {
      var rs := t.fileContractRevisions;
      ghost var m := contracts;
      for i := 0 to |rs|
        invariant Indexed(contracts, expirations)
        invariant contracts == CommitAll(m, ReviseContracts(m, rs[..i]))
        invariant pb.contractDiffs == old(pb.contractDiffs) + ReviseContracts(m, rs[..i])
      {
        RevisesOthers(m, rs, i);
        var current := StoredContract(contracts, rs[i].parentID);
        var out, back := Diff(false, rs[i].parentID, current), Diff(true, rs[i].parentID, Revised(current, rs[i]));
        RecordContract(pb, out);
        RecordContract(pb, back);
        assert rs[..i + 1][..i] == rs[..i];
        assert ReviseContracts(m, rs[..i + 1]) == ReviseContracts(m, rs[..i]) + [out, back];
        CommitAppend(m, ReviseContracts(m, rs[..i]), [out, back]);
        CommitPair(CommitAll(m, ReviseContracts(m, rs[..i])), out, back);
      }
      assert rs[..|rs|] == rs;
    }

    method ApplyStorageProofs(pb: ProcessedBlock, t: TxnCore)
      requires Indexed(contracts, expirations)
      requires Fits(contracts, CloseContracts(contracts, ProvenIDs(t.storageProofs)))
      requires pb.height + MATURITY_DELAY in buckets
      requires Fits(delayed, ClosingPayouts(contracts, ProvenIDs(t.storageProofs), true, pb.height + MATURITY_DELAY))
      modifies this`contracts, this`expirations, this`delayed, pb`contractDiffs, pb`delayedDiffs
      ensures Indexed(contracts, expirations)
      ensures var ids, maturity := ProvenIDs(t.storageProofs), pb.height + MATURITY_DELAY;
        && contracts == CommitAll(old(contracts), CloseContracts(old(contracts), ids))
        && pb.contractDiffs == old(pb.contractDiffs) + CloseContracts(old(contracts), ids)
        && delayed == CommitAll(old(delayed), ClosingPayouts(old(contracts), ids, true, maturity))
        && pb.delayedDiffs == old(pb.delayedDiffs) + ClosingPayouts(old(contracts), ids, true, maturity)
    {
      var ids := ProvenIDs(t.storageProofs);
      var maturity := pb.height + MATURITY_DELAY;
      ghost var m, ds := contracts, CloseContracts(contracts, ids);
      for i := 0 to |ids|
        invariant Indexed(contracts, expirations)
        invariant contracts == CommitAll(m, ds[..i]) && pb.contractDiffs == old(pb.contractDiffs) + ds[..i]
        invariant delayed == CommitAll(old(delayed), ClosingPayouts(m, ids[..i], true, maturity))
        invariant pb.delayedDiffs == old(pb.delayedDiffs) + ClosingPayouts(m, ids[..i], true, maturity)
      {
        FitsAt(m, ds, i);
        ReadsThrough(m, ds, i);
        ClosingPrefix(m, old(delayed), ids, i, true, maturity);
        Extended(old(pb.contractDiffs), ds, i);
        ghost var front := ClosingPayouts(m, ids[..i], true, maturity);
        ghost var next := ContractPayouts(ids[i], true, m[ids[i]].validProofOutputs, maturity);
        ApplyStorageProof(pb, ids[i]);
        Regroup(old(pb.delayedDiffs), front, next);
      }
      assert ds[..|ds|] == ds && ids[..|ids|] == ids;
    }

    method ApplyStorageProof(pb: ProcessedBlock, id: Hash)
      requires Indexed(contracts, expirations) && id in contracts && pb.height + MATURITY_DELAY in buckets
      requires Fits(delayed, ContractPayouts(id, true, contracts[id].validProofOutputs, pb.height + MATURITY_DELAY))
      modifies this`contracts, this`expirations, this`delayed, pb`contractDiffs, pb`delayedDiffs
      ensures Indexed(contracts, expirations)
      ensures var closing := Diff(false, id, old(contracts[id]));
        contracts == Commit(old(contracts), closing, true) && pb.contractDiffs == old(pb.contractDiffs) + [closing]
      ensures var payouts := ContractPayouts(id, true, old(contracts[id]).validProofOutputs, pb.height + MATURITY_DELAY);
        delayed == CommitAll(old(delayed), payouts) && pb.delayedDiffs == old(pb.delayedDiffs) + payouts
    {
      var c := contracts[id];
      PayContract(pb, id, true, c.validProofOutputs, pb.height + MATURITY_DELAY);
      RecordContract(pb, Diff(false, id, c));
    }

    // The loop over the outputs of one closing contract.
    method PayContract(pb: ProcessedBlock, id: Hash, valid: bool, outs: seq<SiacoinOutput>, maturity: nat)
      requires maturity in buckets && Fits(delayed, ContractPayouts(id, valid, outs, maturity))
      modifies this`delayed, pb`delayedDiffs
      ensures delayed == CommitAll(old(delayed), ContractPayouts(id, valid, outs, maturity))
      ensures pb.delayedDiffs == old(pb.delayedDiffs) + ContractPayouts(id, valid, outs, maturity)
    {
      ghost var m, ds := delayed, ContractPayouts(id, valid, outs, maturity);
      for i := 0 to |outs|
        invariant delayed == CommitAll(m, ds[..i]) && pb.delayedDiffs == old(pb.delayedDiffs) + ds[..i]
      {
        FitsAt(m, ds, i);
        Extended(old(pb.delayedDiffs), ds, i);
        RecordDelayed(pb, Diff(true, (maturity, StorageProofHash(id, valid, i)), outs[i]));
      }
      assert ds[..|ds|] == ds;
    }

    method ApplySiafundInputs(env: Env, pb: ProcessedBlock, t: TxnCore)
      requires Fits(siafunds, SpendSiafunds(env, Contents(), t.siafundInputs))
      requires pb.height + MATURITY_DELAY in buckets
      requires Fits(delayed, ClaimPayouts(env, Contents(), pool, t.siafundInputs, pb.height + MATURITY_DELAY))
      modifies this`siafunds, this`delayed, pb`siafundDiffs, pb`delayedDiffs
      ensures var spends := SpendSiafunds(env, old(Contents()), t.siafundInputs);
        siafunds == CommitAll(old(siafunds), spends) && pb.siafundDiffs == old(pb.siafundDiffs) + spends
      ensures var claims := ClaimPayouts(env, old(Contents()), pool, t.siafundInputs, pb.height + MATURITY_DELAY);
        delayed == CommitAll(old(delayed), claims) && pb.delayedDiffs == old(pb.delayedDiffs) + claims
    {
      var ins := t.siafundInputs;
      var maturity := pb.height + MATURITY_DELAY;
      ghost var l := Contents();
      ghost var spends, claims := SpendSiafunds(env, l, ins), ClaimPayouts(env, l, pool, ins, maturity);
      for i := 0 to |ins|
        invariant siafunds == CommitAll(l.siafunds, spends[..i]) && pb.siafundDiffs == old(pb.siafundDiffs) + spends[..i]
        invariant delayed == CommitAll(l.delayed, claims[..i]) && pb.delayedDiffs == old(pb.delayedDiffs) + claims[..i]
      {
        FitsAt(l.siafunds, spends, i);
        ReadsThrough(l.siafunds, spends, i);
        FitsAt(l.delayed, claims, i);
        Extended(old(pb.siafundDiffs), spends, i);
        Extended(old(pb.delayedDiffs), claims, i);
        assert ReadSiafund(env, Contents(), ins[i].parentID) == ReadSiafund(env, l, ins[i].parentID);
        ApplySiafundInput(env, pb, ins[i]);
      }
      assert spends[..|ins|] == spends && claims[..|ins|] == claims;
    }

    method ApplySiafundInput(env: Env, pb: ProcessedBlock, i: SiafundInput)
      requires pb.height + MATURITY_DELAY in buckets && (pb.height + MATURITY_DELAY, ClaimHash(i.parentID)) !in delayed
      modifies this`siafunds, this`delayed, pb`siafundDiffs, pb`delayedDiffs
      ensures var spend := Diff(false, i.parentID, ReadSiafund(env, old(Contents()), i.parentID));
        && siafunds == Commit(old(siafunds), spend, true) && pb.siafundDiffs == old(pb.siafundDiffs) + [spend]
        && var claim := Diff(true, (pb.height + MATURITY_DELAY, ClaimHash(i.parentID)),
                             SiacoinOutput(ClaimPortion(pool, spend.value), i.claimUnlockHash));
           delayed == Commit(old(delayed), claim, true) && pb.delayedDiffs == old(pb.delayedDiffs) + [claim]
    {
      var o := ReadSiafund(env, Contents(), i.parentID);
      RecordDelayed(pb, Diff(true, (pb.height + MATURITY_DELAY, ClaimHash(i.parentID)),
                             SiacoinOutput(ClaimPortion(pool, o), i.claimUnlockHash)));
      RecordSiafund(pb, Diff(false, i.parentID, o));
    }

    method ApplySiafundOutputs(pb: ProcessedBlock, t: TxnCore)
      modifies this`siafunds, pb`siafundDiffs
      ensures var creates := CreateSiafunds(t, |t.siafundOutputs|, pool);
        siafunds == CommitAll(old(siafunds), creates) && pb.siafundDiffs == old(pb.siafundDiffs) + creates
    {
      ghost var m, ds := siafunds, CreateSiafunds(t, |t.siafundOutputs|, pool);
      for i := 0 to |t.siafundOutputs|
        invariant siafunds == CommitAll(m, ds[..i]) && pb.siafundDiffs == old(pb.siafundDiffs) + ds[..i]
      {
        Extended(old(pb.siafundDiffs), ds, i);
        assert ds[..i + 1][..i] == ds[..i];
        RecordSiafund(pb, Diff(true, SiafundOutputHash(t, i), t.siafundOutputs[i].(claimStart := pool)));
      }
      assert ds[..|ds|] == ds;
    }

    method ApplyCoins(pb: ProcessedBlock, t: TxnCore)
      requires CoinsReady(siacoins, t)
      modifies this`siacoins, pb`siacoinDiffs
      ensures var ds := SpendSiacoins(old(siacoins), t.siacoinInputs) + CreateSiacoins(t, |t.siacoinOutputs|);
        siacoins == CommitAll(old(siacoins), ds) && pb.siacoinDiffs == old(pb.siacoinDiffs) + ds
    {
      ghost var spends, creates := SpendSiacoins(siacoins, t.siacoinInputs), CreateSiacoins(t, |t.siacoinOutputs|);
      CommitAppend(siacoins, spends, creates);
      ApplySiacoinInputs(pb, t);
      ApplySiacoinOutputs(pb, t);
      Regroup(old(pb.siacoinDiffs), spends, creates);
    }

    method ApplyContracts(pb: ProcessedBlock, t: TxnCore)
      requires Indexed(contracts, expirations) && pb.height + MATURITY_DELAY in buckets
      requires ContractsReady(contracts, delayed, t, pb.height + MATURITY_DELAY)
      modifies this`contracts, this`expirations, this`pool, this`delayed, pb`contractDiffs, pb`poolDiffs, pb`delayedDiffs
      ensures Indexed(contracts, expirations)
      ensures contracts == CommitAll(old(contracts), ContractDiffs(old(contracts), t))
      ensures pb.contractDiffs == old(pb.contractDiffs) + ContractDiffs(old(contracts), t)
      ensures pool == PoolAfter(old(pool), Height(Contents()), t.fileContracts)
      ensures pb.poolDiffs == old(pb.poolDiffs) + PoolDiffs(old(pool), Height(Contents()), t.fileContracts)
      ensures var payouts := ClosingPayouts(old(contracts), ProvenIDs(t.storageProofs), true, pb.height + MATURITY_DELAY);
        delayed == CommitAll(old(delayed), payouts) && pb.delayedDiffs == old(pb.delayedDiffs) + payouts
    {
      hide CommitAll, Indexed, CreateContracts, ReviseContracts, CloseContracts, PoolDiffs, Fits, ClosingPayouts;
      ghost var creates, revises := CreateContracts(t, |t.fileContracts|), ReviseContracts(contracts, t.fileContractRevisions);
      ghost var closes := CloseContracts(contracts, ProvenIDs(t.storageProofs));
      SplitContracts(contracts, t);
      ApplyFileContracts(pb, t);
      assert contracts == AfterCreates(old(contracts), t);
      ApplyFileContractRevisions(pb, t);
      assert contracts == AfterRevisions(old(contracts), t);
      ApplyStorageProofs(pb, t);
      Regroup(old(pb.contractDiffs), creates, revises);
      Regroup(old(pb.contractDiffs), creates + revises, closes);
    }

    method ApplyFunds(env: Env, pb: ProcessedBlock, t: TxnCore, ghost l: Ledger)
      requires FundsReady(env, l, t, pb.height + MATURITY_DELAY) && pb.height + MATURITY_DELAY in buckets
      requires siafunds == l.siafunds && path == l.path && pool == PoolAfter(l.pool, Height(l), t.fileContracts)
      requires delayed == CommitAll(l.delayed, ClosingPayouts(l.contracts, ProvenIDs(t.storageProofs), true, pb.height + MATURITY_DELAY))
      modifies this`siafunds, this`delayed, pb`siafundDiffs, pb`delayedDiffs
      ensures var ds := SpendSiafunds(env, l, t.siafundInputs) + CreateSiafunds(t, |t.siafundOutputs|, pool);
        siafunds == CommitAll(l.siafunds, ds) && pb.siafundDiffs == old(pb.siafundDiffs) + ds
      ensures var claims := ClaimPayouts(env, l, pool, t.siafundInputs, pb.height + MATURITY_DELAY);
        delayed == CommitAll(old(delayed), claims) && pb.delayedDiffs == old(pb.delayedDiffs) + claims
    {
      ghost var spends, creates := SpendSiafunds(env, l, t.siafundInputs), CreateSiafunds(t, |t.siafundOutputs|, pool);
      CommitAppend(l.siafunds, spends, creates);
      SameFundReads(env, Contents(), l, pool, t.siafundInputs, pb.height + MATURITY_DELAY);
      ApplySiafundInputs(env, pb, t);
      ApplySiafundOutputs(pb, t);
      Regroup(old(pb.siafundDiffs), spends, creates);
    }

    method ApplyTransaction(env: Env, pb: ProcessedBlock, t: TxnCore)
      requires Indexed(contracts, expirations) && TxnReady(env, Contents(), t, pb.height)
      requires pb.height + MATURITY_DELAY in buckets
      modifies this`siacoins, this`contracts, this`expirations, this`siafunds, this`delayed, this`pool
      modifies pb`siacoinDiffs, pb`contractDiffs, pb`siafundDiffs, pb`delayedDiffs, pb`poolDiffs
      ensures Indexed(contracts, expirations)
      ensures Contents() == CommitSet(old(Contents()), TxnDiffs(env, old(Contents()), t, pb.height))
      ensures pb.Diffs() == Then(old(pb.Diffs()), TxnDiffs(env, old(Contents()), t, pb.height))
    {
      hide CommitAll, Indexed, TxnDiffs, Then, CommitSet;
      ghost var l := Contents();
      ApplyCoins(pb, t);
      ApplyContracts(pb, t);
      ApplyFunds(env, pb, t, l);
      TxnAssembles(env, l, t, pb.height, Contents(), old(pb.Diffs()), pb.Diffs());
    }

    // ------------------------------------------------------------ maintenance

    method ApplyMinerPayouts(pb: ProcessedBlock)
      requires pb.height + MATURITY_DELAY in buckets
      requires forall i: nat :: (pb.height + MATURITY_DELAY, MinerPayoutHash(pb.ID(), i)) !in delayed
      modifies this`delayed, pb`delayedDiffs
      ensures var ds := PayoutDiffs(pb.ID(), pb.block.minerPayouts, pb.height + MATURITY_DELAY);
        delayed == CommitAll(old(delayed), ds) && pb.delayedDiffs == old(pb.delayedDiffs) + ds
    {
      var maturity := pb.height + MATURITY_DELAY;
      ghost var m, ds := delayed, PayoutDiffs(pb.ID(), pb.block.minerPayouts, maturity);
      Insertions(m, ds);
      for i := 0 to |pb.block.minerPayouts|
        invariant delayed == CommitAll(m, ds[..i]) && pb.delayedDiffs == old(pb.delayedDiffs) + ds[..i]
      {
        FitsAt(m, ds, i);
        Extended(old(pb.delayedDiffs), ds, i);
        RecordDelayed(pb, Diff(true, (maturity, MinerPayoutHash(pb.ID(), i)), pb.block.minerPayouts[i]));
      }
      assert ds[..|ds|] == ds;
    }

    method RecordSiacoins(pb: ProcessedBlock, ds: seq<Diff<Hash, SiacoinOutput>>)
      requires Fits(siacoins, ds)
      modifies this`siacoins, pb`siacoinDiffs
      ensures siacoins == CommitAll(old(siacoins), ds) && pb.siacoinDiffs == old(pb.siacoinDiffs) + ds
    {
      for i := 0 to |ds|
        invariant siacoins == CommitAll(old(siacoins), ds[..i]) && pb.siacoinDiffs == old(pb.siacoinDiffs) + ds[..i]
      {
        FitsAt(old(siacoins), ds, i);
        Extended(old(pb.siacoinDiffs), ds, i);
        RecordSiacoin(pb, ds[i]);
      }
      assert ds[..|ds|] == ds;
    }

    method RecordDelayeds(pb: ProcessedBlock, ds: seq<DelayedDiff>)
      requires Fits(delayed, ds) && forall d :: d in ds ==> d.id.0 in buckets
      modifies this`delayed, pb`delayedDiffs
      ensures delayed == CommitAll(old(delayed), ds) && pb.delayedDiffs == old(pb.delayedDiffs) + ds
    {
      for i := 0 to |ds|
        invariant delayed == CommitAll(old(delayed), ds[..i]) && pb.delayedDiffs == old(pb.delayedDiffs) + ds[..i]
      {
        FitsAt(old(delayed), ds, i);
        Extended(old(pb.delayedDiffs), ds, i);
        RecordDelayed(pb, ds[i]);
      }
      assert ds[..|ds|] == ds;
    }

    method RecordContracts(pb: ProcessedBlock, ds: seq<Diff<Hash, FileContract>>)
      requires Indexed(contracts, expirations) && Fits(contracts, ds)
      modifies this`contracts, this`expirations, pb`contractDiffs
      ensures Indexed(contracts, expirations)
      ensures contracts == CommitAll(old(contracts), ds) && pb.contractDiffs == old(pb.contractDiffs) + ds
    {
      for i := 0 to |ds|
        invariant Indexed(contracts, expirations)
        invariant contracts == CommitAll(old(contracts), ds[..i]) && pb.contractDiffs == old(pb.contractDiffs) + ds[..i]
      {
        FitsAt(old(contracts), ds, i);
        Extended(old(pb.contractDiffs), ds, i);
        RecordContract(pb, ds[i]);
      }
      assert ds[..|ds|] == ds;
    }

    method ApplyMaturedSiacoinOutputs(pb: ProcessedBlock) returns (ghost ids: seq<Hash>)
      requires pb.height >= MATURITY_DELAY ==> pb.height in buckets
      requires forall x :: x in MaturingIDs(Contents(), pb.height) ==> x !in siacoins
      modifies this`siacoins, this`delayed, this`buckets, pb`siacoinDiffs, pb`delayedDiffs
      ensures Enumerates(ids, if pb.height >= MATURITY_DELAY then MaturingIDs(old(Contents()), pb.height) else {})
      ensures var ds := MatureDiffs(old(Contents()), ids, pb.height);
        siacoins == CommitAll(old(siacoins), ds) && pb.siacoinDiffs == old(pb.siacoinDiffs) + ds
      ensures var ds := UndelayDiffs(old(Contents()), ids, pb.height);
        delayed == CommitAll(old(delayed), ds) && pb.delayedDiffs == old(pb.delayedDiffs) + ds
      ensures buckets == if pb.height >= MATURITY_DELAY then old(buckets) - {pb.height} else old(buckets)
    {
      ids := [];
      if pb.height < MATURITY_DELAY {
        return;
      }
      var height := pb.height;
      var keys := set k | k in delayed && k.0 == height :: k.1;
      var found := Scan(keys);
      ids := found;
      var l := Contents();
      var coins, removals := MatureDiffs(l, found, height), UndelayDiffs(l, found, height);
      MaturingFits(l, found, height);
      RecordSiacoins(pb, coins);
      RecordDelayeds(pb, removals);
      DeleteDelayedBucket(height);
    }

    method ApplyMissedStorageProof(pb: ProcessedBlock, id: Hash) returns (payouts: seq<DelayedDiff>, closing: Diff<Hash, FileContract>)
      requires id in contracts
      ensures payouts == ContractPayouts(id, false, contracts[id].missedProofOutputs, pb.height + MATURITY_DELAY)
      ensures closing == Diff(false, id, contracts[id])
    {
      var c := contracts[id];
      payouts := [];
      for i := 0 to |c.missedProofOutputs|
        invariant payouts == ContractPayouts(id, false, c.missedProofOutputs[..i], pb.height + MATURITY_DELAY)
      {
        payouts := payouts + [Diff(true, (pb.height + MATURITY_DELAY, StorageProofHash(id, false, i)), c.missedProofOutputs[i])];
      }
      assert c.missedProofOutputs[..|c.missedProofOutputs|] == c.missedProofOutputs;
      closing := Diff(false, id, c);
    }

    method CollectMissed(pb: ProcessedBlock, ids: seq<Hash>)
      returns (payouts: seq<DelayedDiff>, closings: seq<Diff<Hash, FileContract>>)
      requires forall x :: x in ids ==> x in contracts
      ensures payouts == ClosingPayouts(contracts, ids, false, pb.height + MATURITY_DELAY)
      ensures closings == CloseContracts(contracts, ids)
    {
      payouts, closings := [], [];
      for i := 0 to |ids|
        invariant payouts == ClosingPayouts(contracts, ids[..i], false, pb.height + MATURITY_DELAY)
        invariant closings == CloseContracts(contracts, ids[..i])
      {
        var more, closing := ApplyMissedStorageProof(pb, ids[i]);
        payouts := payouts + more;
        closings := closings + [closing];
        assert ids[..i + 1][..i] == ids[..i];
      }
      assert ids[..|ids|] == ids;
    }

    method ApplyFileContractMaintenance(pb: ProcessedBlock) returns (ghost ids: seq<Hash>)
      requires Indexed(contracts, expirations) && pb.height + MATURITY_DELAY in buckets
      requires forall x, i: nat :: x in contracts && contracts[x].windowEnd == pb.height ==>
        (pb.height + MATURITY_DELAY, StorageProofHash(x, false, i)) !in delayed
      modifies this`contracts, this`expirations, this`delayed, pb`contractDiffs, pb`delayedDiffs
      ensures Indexed(contracts, expirations)
      ensures Enumerates(ids, ExpiringIDs(old(Contents()), pb.height))
      ensures var ds := CloseContracts(old(contracts), ids);
        contracts == CommitAll(old(contracts), ds) && pb.contractDiffs == old(pb.contractDiffs) + ds
      ensures var ds := ClosingPayouts(old(contracts), ids, false, pb.height + MATURITY_DELAY);
        delayed == CommitAll(old(delayed), ds) && pb.delayedDiffs == old(pb.delayedDiffs) + ds
    {
      var keys := set k | k in expirations && k.0 == pb.height :: k.1;
      var found := Scan(keys);
      ids := found;
      ExpiringScan(contracts, expirations, Contents(), pb.height);
      assert forall x :: x in found ==> x in ExpiringIDs(Contents(), pb.height);
      var payouts, closings := CollectMissed(pb, found);
      ExpiringFits(Contents(), found, pb.height);
      RecordDelayeds(pb, payouts);
      RecordContracts(pb, closings);
      // The bucket that is deleted now is empty.
      assert forall k :: k in expirations ==> k.0 != pb.height;
    }

    method ApplyPayoutsAndMatured(pb: ProcessedBlock) returns (ghost matured: seq<Hash>)
      requires MaintenanceReady(Contents(), pb.ID(), pb.height)
      modifies this`siacoins, this`delayed, this`buckets, pb`siacoinDiffs, pb`delayedDiffs
      ensures Enumerates(matured, if pb.height >= MATURITY_DELAY then MaturingIDs(old(Contents()), pb.height) else {})
      ensures buckets == if pb.height >= MATURITY_DELAY then old(buckets) - {pb.height} else old(buckets)
      ensures var ds := MatureDiffs(old(Contents()), matured, pb.height);
        siacoins == CommitAll(old(siacoins), ds) && pb.siacoinDiffs == old(pb.siacoinDiffs) + ds
      ensures var payouts := PayoutDiffs(pb.ID(), pb.block.minerPayouts, pb.height + MATURITY_DELAY);
        var undelayed := UndelayDiffs(old(Contents()), matured, pb.height);
        && delayed == CommitAll(CommitAll(old(delayed), payouts), undelayed)
        && pb.delayedDiffs == old(pb.delayedDiffs) + payouts + undelayed
      ensures forall x, i: nat :: x in contracts && contracts[x].windowEnd == pb.height ==>
        (pb.height + MATURITY_DELAY, StorageProofHash(x, false, i)) !in delayed
    {
      ghost var l := Contents();
      ApplyMinerPayouts(pb);
      AfterPayouts(l, pb.ID(), pb.block, pb.height, Contents());
      ghost var paid := Contents();
      matured := ApplyMaturedSiacoinOutputs(pb);
      OtherBucket(l, paid, PayoutDiffs(pb.ID(), pb.block.minerPayouts, pb.height + MATURITY_DELAY), pb.height, matured);
      RemovalsShrink(paid.delayed, UndelayDiffs(paid, matured, pb.height));
    }

    method ApplyMaintenance(pb: ProcessedBlock) returns (ghost o: Order)
      requires Indexed(contracts, expirations) && MaintenanceReady(Contents(), pb.ID(), pb.height)
      modifies this`siacoins, this`contracts, this`expirations, this`delayed, this`buckets
      modifies pb`siacoinDiffs, pb`contractDiffs, pb`delayedDiffs
      ensures Indexed(contracts, expirations) && OrderOK(old(Contents()), pb.height, o)
      ensures buckets == if pb.height >= MATURITY_DELAY then old(buckets) - {pb.height} else old(buckets)
      ensures var upkeep := MaintenanceDiffs(old(Contents()), pb.ID(), pb.block, pb.height, o);
        Contents() == CommitSet(old(Contents()), upkeep).(buckets := buckets) && pb.Diffs() == Then(old(pb.Diffs()), upkeep)
    {
      ghost var l := Contents();
      ghost var matured := ApplyPayoutsAndMatured(pb);
      ghost var expired := ApplyFileContractMaintenance(pb);
      o := Order(matured, expired);
      MaintenanceAssembles(l, pb.ID(), pb.block, pb.height, o, Contents(), old(pb.Diffs()), pb.Diffs());
    }

    // At the height of the swap the genesis siafunds are removed and the forked ones added.
    method SwapSiafunds(env: Env, pb: ProcessedBlock)
      modifies this`siafunds, pb`siafundDiffs
      ensures var ds := SwapDiffs(env, pb.height).siafunds;
        siafunds == CommitAll(old(siafunds), ds) && pb.siafundDiffs == old(pb.siafundDiffs) + ds
    {
      if pb.height != SWAP_HEIGHT {
        return;
      }
      ghost var m := siafunds;
      ghost var removals, additions := SwapRemovals(env, |env.genesisSiafunds|), SwapAdditions(env, |env.forkedSiafunds|);
      for i := 0 to |env.genesisSiafunds|
        invariant siafunds == CommitAll(m, removals[..i]) && pb.siafundDiffs == old(pb.siafundDiffs) + removals[..i]
      {
        assert removals[..i + 1][..i] == removals[..i];
        Extended(old(pb.siafundDiffs), removals, i);
        RecordSiafund(pb, Diff(false, GenesisSiafundID(env, i), SiafundOutput(0, env.genesisSiafunds[i].unlockHash, 0)));
      }
      assert removals[..|removals|] == removals;
      ghost var mid, done := siafunds, pb.siafundDiffs;
      for i := 0 to |env.forkedSiafunds|
        invariant siafunds == CommitAll(mid, additions[..i]) && pb.siafundDiffs == done + additions[..i]
      {
        assert additions[..i + 1][..i] == additions[..i];
        Extended(done, additions, i);
        RecordSiafund(pb, Diff(true, env.forkedSiafunds[i].unlockHash, env.forkedSiafunds[i]));
      }
      assert additions[..|additions|] == additions;
      CommitAppend(m, removals, additions);
      Regroup(old(pb.siafundDiffs), removals, additions);
    }

    // ------------------------------------------------------------ generating the diffs of a block

    method ApplyTransactions(env: Env, pb: ProcessedBlock, ts: seq<Transaction>, ghost h: History) returns (ok: bool)
      requires Indexed(contracts, expirations) && Tracked(Contents(), h) && pb.height + MATURITY_DELAY in buckets
      requires pb.Diffs() == NO_DIFFS
      modifies this`siacoins, this`contracts, this`expirations, this`siafunds, this`delayed, this`pool
      modifies pb`siacoinDiffs, pb`contractDiffs, pb`siafundDiffs, pb`delayedDiffs, pb`poolDiffs
      ensures ok <==> TxnsValid(env, old(Contents()), ts, pb.height)
      ensures ok ==> Indexed(contracts, expirations) && pb.Diffs() == TxnsDiffs(env, old(Contents()), ts, pb.height)
      ensures ok ==> Contents() == CommitSet(old(Contents()), TxnsDiffs(env, old(Contents()), ts, pb.height))
    {
      ghost var l := Contents();
      for i := 0 to |ts|
        invariant Indexed(contracts, expirations) && pb.height + MATURITY_DELAY in buckets
        invariant TxnsValid(env, l, ts[..i], pb.height)
        invariant pb.Diffs() == TxnsDiffs(env, l, ts[..i], pb.height) && Contents() == CommitSet(l, TxnsDiffs(env, l, ts[..i], pb.height))
      {
        var valid := ValidTransaction(env, Contents(), ts[i]);
        if !valid {
          InvalidAt(env, l, ts, i, pb.height);
          return false;
        }
        TxnsReady(env, l, h, ts[..i], ts[i], pb.height);
        StillValid(env, l, ts, i, pb.height);
        NextTxn(env, l, ts, i, pb.height);
        ApplyTransaction(env, pb, ts[i].core);
      }
      assert ts[..|ts|] == ts;
      return true;
    }

    // Open the block's bucket, then validate and apply its transactions one by one.
    method ApplyBlockTransactions(env: Env, pb: ProcessedBlock, ghost l: Ledger, ghost h: History) returns (ok: bool)
      requires Indexed(contracts, expirations) && Contents() == l && Inv(env, l, h) && |l.path| == pb.height && pb.Diffs() == NO_DIFFS
      modifies this, pb`siacoinDiffs, pb`contractDiffs, pb`siafundDiffs, pb`delayedDiffs, pb`poolDiffs
      ensures ok <==> BlockValid(env, l, pb.block, pb.height)
      ensures ok ==> Indexed(contracts, expirations) && Contents() == AfterTxns(env, l, pb.block, pb.height)
      ensures ok ==> pb.Diffs() == TxnsDiffs(env, OpenBucket(l, pb.height + MATURITY_DELAY), pb.block.transactions, pb.height)
    {
      NewBucket(env, l, h, pb.height);
      CreateDelayedBucket(pb.height + MATURITY_DELAY);
      ok := ApplyTransactions(env, pb, pb.block.transactions, h);
    }

    // Maintenance, the swap, and the new path.
    method FinishBlock(env: Env, pb: ProcessedBlock, ghost mid: Ledger, ghost txns: DiffSet) returns (ghost o: Order)
      requires Indexed(contracts, expirations) && MaintenanceReady(mid, pb.ID(), pb.height)
      requires Contents() == mid && pb.Diffs() == txns
      modifies this, pb`siacoinDiffs, pb`contractDiffs, pb`delayedDiffs, pb`siafundDiffs, pb`diffsGenerated
      ensures Indexed(contracts, expirations) && OrderOK(mid, pb.height, o) && pb.diffsGenerated
      ensures path == mid.path + [pb.ID()]
      ensures buckets == if pb.height >= MATURITY_DELAY then mid.buckets - {pb.height} else mid.buckets
      ensures Agree(Contents(), CommitSet(CommitSet(mid, MaintenanceDiffs(mid, pb.ID(), pb.block, pb.height, o)), SwapDiffs(env, pb.height)))
      ensures pb.Diffs() == Then(Then(txns, MaintenanceDiffs(mid, pb.ID(), pb.block, pb.height, o)), SwapDiffs(env, pb.height))
    {
      o := ApplyMaintenance(pb);
      SwapSiafunds(env, pb);
      pb.diffsGenerated := true;
      PushPath(pb.ID());
      FinishAssembles(env, mid, pb.ID(), pb.block, pb.height, o, Contents(), txns, pb.Diffs());
    }

    method FinishValidBlock(env: Env, pb: ProcessedBlock, ghost l: Ledger, ghost h: History) returns (ghost o: Order)
      requires EnvOK(env) && Inv(env, l, h) && |l.path| == pb.height && pb.ID() !in l.path && BlockValid(env, l, pb.block, pb.height)
      requires Indexed(contracts, expirations) && Contents() == AfterTxns(env, l, pb.block, pb.height)
      requires MaintenanceReady(AfterTxns(env, l, pb.block, pb.height), pb.ID(), pb.height)
      requires pb.Diffs() == TxnsDiffs(env, OpenBucket(l, pb.height + MATURITY_DELAY), pb.block.transactions, pb.height)
      modifies this, pb`siacoinDiffs, pb`contractDiffs, pb`delayedDiffs, pb`siafundDiffs, pb`diffsGenerated
      ensures pb.diffsGenerated && OrderOK(AfterTxns(env, l, pb.block, pb.height), pb.height, o)
      ensures pb.Diffs() == BlockDiffs(env, l, pb.ID(), pb.block, pb.height, o)
      ensures Valid() && Contents() == ApplyDiffs(l, BlockDiffs(env, l, pb.ID(), pb.block, pb.height, o), pb.ID(), pb.height)
    {
      ghost var mid := AfterTxns(env, l, pb.block, pb.height);
      o := FinishBlock(env, pb, mid, TxnsDiffs(env, OpenBucket(l, pb.height + MATURITY_DELAY), pb.block.transactions, pb.height));
      GenerateAssembles(env, l, h, pb.ID(), pb.block, pb.height, o, Contents());
    }

    // generateAndApplyDiff accepts exactly the valid blocks. For one of those the stored diffs are
    // those of some scan order, and the database is what replaying them gives.
    method GenerateAndApplyDiff(env: Env, pb: ProcessedBlock, ghost l: Ledger, ghost h: History) returns (ok: bool, ghost o: Order)
      requires Valid() && Contents() == l && EnvOK(env) && Inv(env, l, h)
      requires |l.path| == pb.height && pb.ID() !in l.path && pb.Diffs() == NO_DIFFS && !pb.diffsGenerated
      modifies this, pb
      ensures ok <==> BlockValid(env, l, pb.block, pb.height)
      ensures ok <==> pb.diffsGenerated
      ensures ok ==> OrderOK(AfterTxns(env, l, pb.block, pb.height), pb.height, o)
      ensures ok ==> pb.Diffs() == BlockDiffs(env, l, pb.ID(), pb.block, pb.height, o)
      ensures ok ==> Valid() && Contents() == ApplyDiffs(l, BlockDiffs(env, l, pb.ID(), pb.block, pb.height, o), pb.ID(), pb.height)
    {
      o := Order([], []);
      ok := ApplyBlockTransactions(env, pb, l, h);
      if !ok {
        return;
      }
      GenerateReady(env, l, h, pb.ID(), pb.block, pb.height);
      o := FinishValidBlock(env, pb, l, h);
    }

    // tryTransactionSet: the transactions are applied to learn whether they are valid and what
    // they would change, and the database transaction is always rolled back.
    method TryTransactionSet(env: Env, ts: seq<Transaction>, ghost l: Ledger, ghost h: History) returns (ok: bool, diffs: DiffSet)
      requires Valid() && Contents() == l && Tracked(l, h) && Height(l) + MATURITY_DELAY in l.buckets
      modifies this
      ensures Valid() && Contents() == l && expirations == old(expirations)
      ensures ok <==> TxnsValid(env, l, ts, Height(l))
      ensures ok ==> diffs == TxnsDiffs(env, l, ts, Height(l))
    {
      var saved, savedExpirations := Contents(), expirations;
      var holder := new ProcessedBlock(Block(ZERO_HASH, 0, 0, [], []), Height(saved));
      ok := ApplyTransactions(env, holder, ts, h);
      diffs := holder.Diffs();
      Restore(saved, savedExpirations);
    }

    method Restore(l: Ledger, index: set<(nat, Hash)>)
      modifies this
      ensures Contents() == l && expirations == index
    {
      path, siacoins, contracts, siafunds := l.path, l.siacoins, l.contracts, l.siafunds;
      pool, delayed, buckets, expirations := l.pool, l.delayed, l.buckets, index;
    }
  }

  lemma CommitPair<K, V>(m: map<K, V>, d: Diff<K, V>, e: Diff<K, V>)
    ensures CommitAll(m, [d, e]) == Commit(Commit(m, d, true), e, true)
  {
    assert [d, e][..1] == [d] && [d][..0] == [];
    assert CommitAll(m, [d]) == Commit(m, d, true);
  }
}
