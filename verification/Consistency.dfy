/** The consistency checks a node samples, and why they pass. */
module Consistency {
  import opened Types
  import opened Sums
  import opened Money
  import opened Validity
  import opened Ledgers
  import opened Tracking
  import opened Conservation
  import opened Steps
  import opened BlockSteps
  import opened Chains

  method SumValues<K(==), V>(m: map<K, V>, f: V -> nat) returns (total: nat)
    ensures total == SumMap(m, f)
  {
    total := 0;
    var left := m;
    while left != map[]
      invariant total + SumMap(left, f) == SumMap(m, f)
      decreases |left|
    {
      var k :| k in left;
      SmallerMap(left, k);
      SumMapRemove(left, k, f);
      total := total + f(left[k]);
      left := left - {k};
    }
  }

  method CheckSiacoinCount(l: Ledger) returns (ok: bool)
    requires l.path != []
    ensures ok <==> Supply(l) == NumSiacoins(Height(l))
  {
    var delayed := SumValues(l.delayed, Value);
    var siacoins := SumValues(l.siacoins, Value);
    var contracts := SumValues(l.contracts, ValidSum);
    var claims := SumValues(l.siafunds, Claim(l.pool));
    ok := delayed + siacoins + contracts + claims == NumSiacoins(|l.path| - 1);
  }

  method CheckSiafundCount(l: Ledger) returns (ok: bool)
    ensures ok <==> SumMap(l.siafunds, FundValue) == 10000
  {
    var total := SumValues(l.siafunds, FundValue);
    ok := total == 10000;
  }

  // The least a delayed bucket may hold. The subtraction is of unsigned heights.
  function Minimum(bucket: nat): nat
  {
    Coinbase(if bucket < MATURITY_DELAY then bucket + 0x1_0000_0000_0000_0000 - MATURITY_DELAY else bucket - MATURITY_DELAY)
  }

  ghost predicate DelayedConsistent(l: Ledger)
    requires l.path != []
  {
    && OneBucketEach(l.delayed.Keys)
    && (forall k :: k in l.buckets ==> SumMap(Bucket(l.delayed, k), Value) >= Minimum(k))
    && l.buckets == ExpectedBuckets(Height(l))
  }

  // The ids of the keys scanned so far, none of them twice.
  ghost predicate Scanned(keys: set<(nat, Hash)>, seen: set<Hash>)
  {
    OneBucketEach(keys) && seen == Seconds(keys)
  }

  lemma ScannedNext(keys: set<(nat, Hash)>, seen: set<Hash>, e: (nat, Hash))
    requires Scanned(keys, seen) && e.1 !in seen
    ensures Scanned(keys + {e}, seen + {e.1})
  {
  }

  lemma SeenTwice(all: set<(nat, Hash)>, keys: set<(nat, Hash)>, seen: set<Hash>, e: (nat, Hash))
    requires Scanned(keys, seen) && keys <= all && e in all && e !in keys && e.1 in seen
    ensures !OneBucketEach(all)
  {
    var twin :| twin in keys && twin.1 == e.1;
    assert twin in all;
  }

  // One bucket: no id was seen before, and the sum.
  method ScanBucket(bucket: map<(nat, Hash), SiacoinOutput>, seen: set<Hash>, ghost done: set<(nat, Hash)>, ghost all: set<(nat, Hash)>)
    returns (ok: bool, total: nat, after: set<Hash>)
    requires Scanned(done, seen) && done <= all && bucket.Keys <= all && done !! bucket.Keys
    ensures ok ==> Scanned(done + bucket.Keys, after) && total == SumMap(bucket, Value)
    ensures !ok ==> !OneBucketEach(all)
  {
    hide Scanned;
    var left := bucket;
    ghost var past := done;
    total, after := 0, seen;
    while left != map[]
      invariant left.Keys <= bucket.Keys && past !! left.Keys && past + left.Keys == done + bucket.Keys && past <= all
      invariant Scanned(past, after)
      invariant total + SumMap(left, Value) == SumMap(bucket, Value)
      decreases |left|
    {
      var e :| e in left;
      if e.1 in after {
        SeenTwice(all, past, after, e);
        return false, 0, after;
      }
      SmallerMap(left, e);
      SumMapRemove(left, e, Value);
      ScannedNext(past, after, e);
      total, after, left, past := total + left[e].value, after + {e.1}, left - {e}, past + {e};
    }
    assert past == done + bucket.Keys;
    ok := true;
  }

  lemma SameSize<T>(a: set<T>, b: set<T>)
    requires a <= b && |a| == |b|
    ensures a == b
  {
    assert |b - a| == |b| - |a|;
    assert b == a + (b - a);
  }

  // Every due height has a bucket, and there are no others.
  method CountBuckets(height: nat, tracker: set<nat>) returns (ok: bool)
    ensures ok <==> tracker == ExpectedBuckets(height)
  {
    var expected := 0;
    ghost var counted: set<nat> := {};
    var i := height + 1;
    while i <= height + MATURITY_DELAY
      invariant height < i <= height + MATURITY_DELAY + 1
      invariant expected == |counted| && counted <= tracker
      invariant forall j: nat :: j in counted <==> BucketDue(j, height) && j < i
    {
      if i >= MATURITY_DELAY {
        if i !in tracker {
          assert i in ExpectedBuckets(height);
          return false;
        }
        expected, counted := expected + 1, counted + {i};
      }
      i := i + 1;
    }
    assert counted == ExpectedBuckets(height);
    ok := |tracker| == expected;
    if ok {
      SameSize(counted, tracker);
    }
  }

  // The delayed outputs of the buckets that have been visited.
  ghost function Visited(delayed: map<(nat, Hash), SiacoinOutput>, tracker: set<nat>): set<(nat, Hash)>
  {
    set e | e in delayed && e.0 in tracker
  }

  method CheckDSCOs(l: Ledger) returns (ok: bool)
    requires l.path != [] && forall e :: e in l.delayed ==> e.0 in l.buckets
    ensures ok <==> DelayedConsistent(l)
  {
    var left, tracker, seen := l.buckets, {}, {};
    assert Visited(l.delayed, {}) == {};
    while left != {}
      invariant left <= l.buckets && tracker == l.buckets - left
      invariant Scanned(Visited(l.delayed, tracker), seen)
      invariant forall k :: k in tracker ==> SumMap(Bucket(l.delayed, k), Value) >= Minimum(k)
      decreases |left|
    {
      var k :| k in left;
      var bucket := map e | e in l.delayed && e.0 == k :: l.delayed[e];
      assert bucket == Bucket(l.delayed, k);
      ghost var done := Visited(l.delayed, tracker);
      var distinct, total, after := ScanBucket(bucket, seen, done, l.delayed.Keys);
      if !distinct || total < Minimum(k) {
        return false;
      }
      assert Visited(l.delayed, tracker + {k}) == done + bucket.Keys;
      left, tracker, seen := left - {k}, tracker + {k}, after;
    }
    assert Visited(l.delayed, tracker) == l.delayed.Keys && tracker == l.buckets;
    ok := CountBuckets(|l.path| - 1, tracker);
  }

  // In the ledger of every valid chain the delayed outputs are consistent, the siafunds count to
  // 10000 exactly when none had moved before the swap, and the siacoins match the closed form
  // exactly when that is so or nothing has been taxed.
  lemma ChecksPass(env: Env, id: Hash)
    requires EnvOK(env) && Rooted(env, id) && ValidChain(env, id)
    ensures LedgerOf(env, id).path != [] && DelayedConsistent(LedgerOf(env, id))
    ensures SumMap(LedgerOf(env, id).siafunds, FundValue) == 10000 <==> SwapSafe(env, id)
    ensures Supply(LedgerOf(env, id)) == NumSiacoins(Height(LedgerOf(env, id))) <==> SwapSafe(env, id) || LedgerOf(env, id).pool == 0
  {
    ChainInv(env, id);
    ChainHeight(env, id);
    BucketMinimum(env, id);
    ChainCountIff(env, id);
    SupplyIff(env, id);
    DueBucketsCovered(LedgerOf(env, id));
  }

  lemma DueBucketsCovered(l: Ledger)
    requires l.path != [] && BucketsCovered(l) && l.buckets == ExpectedBuckets(Height(l))
    ensures forall k :: k in l.buckets ==> SumMap(Bucket(l.delayed, k), Value) >= Minimum(k)
  {
    forall k | k in l.buckets ensures SumMap(Bucket(l.delayed, k), Value) >= Minimum(k) {
      assert Covers(Bucket(l.delayed, k), k - MATURITY_DELAY);
    }
  }
}
