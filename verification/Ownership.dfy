/**
 Who may spend: on every valid chain an output leaves the ledger only by an input whose unlock
 conditions hash to its address and are met by signatures over the spending transaction.
 */
module Ownership {
  import opened Types
  import opened Sums
  import opened Diffs
  import opened Money
  import opened Ledgers
  import opened Signatures
  import opened Validity
  import opened Tracking
  import opened Conservation
  import opened Blocks
  import opened Steps
  import opened BlockSteps
  import opened BlockReverts
  import opened Chains
  import opened Reverting
  import opened Effects
  import opened Agreements
  import opened Settlements

  // ---------------------------------------------------------------- signatures

  // part holds the items at these indices, in this order.
  ghost predicate Selects<T>(part: seq<T>, items: seq<T>, indices: seq<nat>)
  {
    |part| == |indices| && forall k :: 0 <= k < |indices| ==> indices[k] < |items| && part[k] == items[indices[k]]
  }

  // The digest is of this transaction: all of it together with the signature's own parent, key and
  // timelock, or the parts the signature covers.
  ghost predicate DigestOf(d: SigDigest, t: Transaction, sig: TransactionSignature)
  {
    var cf := sig.coveredFields;
    && Selects(d.signatures, t.signatures, cf.transactionSignatures)
    && match d
       case WholeDigest(core, parentID, publicKeyIndex, timelock, _) =>
         && cf.wholeTransaction && core == t.core
         && parentID == sig.parentID && publicKeyIndex == sig.publicKeyIndex && timelock == sig.timelock
       case PartialDigest(siacoinInputs, siacoinOutputs, fileContracts, revisions, proofs, siafundInputs, siafundOutputs, fees, data, _) =>
         && !cf.wholeTransaction
         && Selects(siacoinInputs, t.core.siacoinInputs, cf.siacoinInputs)
         && Selects(siacoinOutputs, t.core.siacoinOutputs, cf.siacoinOutputs)
         && Selects(fileContracts, t.core.fileContracts, cf.fileContracts)
         && Selects(revisions, t.core.fileContractRevisions, cf.fileContractRevisions)
         && Selects(proofs, t.core.storageProofs, cf.storageProofs)
         && Selects(siafundInputs, t.core.siafundInputs, cf.siafundInputs)
         && Selects(siafundOutputs, t.core.siafundOutputs, cf.siafundOutputs)
         && Selects(fees, t.core.minerFees, cf.minerFees)
         && Selects(data, t.core.arbitraryData, cf.arbitraryData)
  }

  lemma SigHashIsDigest(t: Transaction, i: nat)
    requires i < |t.signatures| && CoveredFieldsOK(t, t.signatures[i].coveredFields)
    ensures DigestOf(SigHash(t, i), t, t.signatures[i])
  {
    var fields := FieldMaxs(t, t.signatures[i].coveredFields);
    assert SortedUnique(fields[9].0, fields[9].1);
    assert SortedUnique(fields[0].0, fields[0].1) && SortedUnique(fields[1].0, fields[1].1) && SortedUnique(fields[2].0, fields[2].1);
    assert SortedUnique(fields[3].0, fields[3].1) && SortedUnique(fields[4].0, fields[4].1) && SortedUnique(fields[5].0, fields[5].1);
    assert SortedUnique(fields[6].0, fields[6].1) && SortedUnique(fields[7].0, fields[7].1) && SortedUnique(fields[8].0, fields[8].1);
  }

  // Signature i is by a key of the conditions. An Ed25519 key verifies over a digest of the
  // transaction; a key of an unknown algorithm is taken to have signed, as the source does.
  ghost predicate Signs(env: Env, t: Transaction, height: nat, i: nat, conditions: UnlockConditions)
    requires i < |t.signatures|
  {
    var sig := t.signatures[i];
    && sig.timelock <= height
    && sig.publicKeyIndex < |conditions.publicKeys|
    && var key := conditions.publicKeys[sig.publicKeyIndex];
       && key.algorithm != Entropy
       && (key.algorithm == Ed25519 ==> exists d :: DigestOf(d, t, sig) && env.verifySignature(d, key, sig.signature))
  }

  ghost function Signers(sigs: seq<TransactionSignature>, x: Hash): set<nat>
  {
    set i: nat | 0 <= i < |sigs| && sigs[i].parentID == x
  }

  // The timelock has passed and exactly the required number of signatures name the object, each
  // by another key.
  ghost predicate Unlocked(env: Env, t: Transaction, height: nat, x: Hash, conditions: UnlockConditions)
  {
    var signers := Signers(t.signatures, x);
    && conditions.timelock <= height
    && |signers| == conditions.signaturesRequired
    && (forall i :: i in signers ==> Signs(env, t, height, i, conditions))
    && (forall i, j :: i in signers && j in signers && i != j ==> t.signatures[i].publicKeyIndex != t.signatures[j].publicKeyIndex)
  }

  lemma SignersStep(sigs: seq<TransactionSignature>, x: Hash)
    requires sigs != []
    ensures var n := |sigs| - 1; Signers(sigs, x) == Signers(sigs[..n], x) + (if sigs[n].parentID == x then {n} else {})
  {
  }

  lemma {:induction false} CountIsSigners(sigs: seq<TransactionSignature>, x: Hash)
    ensures Count(sigs, x) == |Signers(sigs, x)|
  {
    if sigs == [] {
      assert Signers(sigs, x) == {};
    } else {
      var n := |sigs| - 1;
      CountIsSigners(sigs[..n], x);
      SignersStep(sigs, x);
    }
  }

  lemma SignedMeans(env: Env, t: Transaction, height: nat, p: Parent)
    requires SignaturesOK(env, t, height) && TimelocksOK(t.core, height) && p in Parents(t.core)
    ensures Unlocked(env, t, height, p.id, p.conditions)
  {
    hide Parents, SigHash, CoveredFieldsOK, DigestOf;
    CountIsSigners(t.signatures, p.id);
    forall i | i in Signers(t.signatures, p.id) ensures Signs(env, t, height, i, p.conditions) {
      assert SignatureOK(env, t, height, i);
      var q :| q in Parents(t.core) && q.id == t.signatures[i].parentID && KeyOK(env, t, height, i, q);
      assert q == p;
      SigHashIsDigest(t, i);
    }
  }

  // ---------------------------------------------------------------- inside a block

  // The parent's ledger with the block's own bucket.
  ghost function StartOf(env: Env, id: Hash): Ledger
    requires Rooted(env, id) && id != GenesisID(env)
  {
    OpenBucket(LedgerOf(env, id.block.parentID), HeightOf(env, id) + MATURITY_DELAY)
  }

  // The ledger transaction n of a block is checked against.
  ghost function LedgerBefore(env: Env, id: Hash, n: nat): Ledger
    requires Rooted(env, id) && id != GenesisID(env) && n <= |id.block.transactions|
  {
    Midway(env, StartOf(env, id), id.block.transactions, HeightOf(env, id), n)
  }

  ghost predicate OnChain(env: Env, id: Hash)
  {
    EnvOK(env) && Rooted(env, id) && ValidChain(env, id) && id != GenesisID(env)
  }

  ghost function Midway(env: Env, l: Ledger, ts: seq<Transaction>, height: nat, n: nat): Ledger
    requires n <= |ts|
  {
    CommitSet(l, TxnsDiffs(env, l, ts[..n], height))
  }

  lemma MidwayValid(env: Env, l: Ledger, ts: seq<Transaction>, height: nat, n: nat)
    requires n <= |ts| && TxnsValid(env, l, ts, height)
    ensures TxnsValid(env, l, ts[..n], height) && Midway(env, l, ts, height, n).path == l.path
    ensures n < |ts| ==> ValidTxn(env, Midway(env, l, ts, height, n), ts[n])
  {
    hide TxnsDiffs, ValidTxn, CommitAll;
    FrontValid(env, l, ts, n, height);
    if n < |ts| {
      assert ValidAt(env, l, ts, n, height);
    }
  }

  // Every transaction of a valid chain is valid on the ledger the ones before it leave.
  lemma PrefixReady(env: Env, id: Hash, n: nat)
    requires OnChain(env, id) && n <= |id.block.transactions|
    ensures var p, height := id.block.parentID, HeightOf(env, id);
      && Tracked(StartOf(env, id), HistoryOf(env, p)) && TxnsValid(env, StartOf(env, id), id.block.transactions[..n], height)
      && LedgerBefore(env, id, n).path == PathOf(env, p) && Height(LedgerBefore(env, id, n)) == HeightOf(env, p)
    ensures n < |id.block.transactions| ==> ValidTxn(env, LedgerBefore(env, id, n), id.block.transactions[n])
  {
    hide TxnsDiffs, ValidTxn, CommitAll, ValidChain, Tracked, TxnsValid, Midway, ContractsSound, FundsSound, GenesisClaims,
      BucketsExact, BlockValid;
    var p := id.block.parentID;
    ChainParts(env, id);
    ChainInv(env, p);
    PathHeights(env, p);
    SameTracked(LedgerOf(env, p), StartOf(env, id), HistoryOf(env, p));
    ValidOnWidened(env, LedgerOf(env, p), id.block, HeightOf(env, id));
    MidwayValid(env, StartOf(env, id), id.block.transactions, HeightOf(env, id), n);
  }

  lemma ChainParts(env: Env, id: Hash)
    requires Rooted(env, id) && ValidChain(env, id) && id != GenesisID(env)
    ensures ValidChain(env, id.block.parentID) && BlockValid(env, LedgerOf(env, id.block.parentID), id.block, HeightOf(env, id))
  {
  }

  // ---------------------------------------------------------------- siacoins

  // Input j of transaction n spends an output the chain has, and its owner has signed for it.
  ghost predicate OwnerSpends(env: Env, id: Hash, n: nat, j: nat)
    requires Rooted(env, id) && id != GenesisID(env)
    requires n < |id.block.transactions| && j < |id.block.transactions[n].core.siacoinInputs|
  {
    var p, ts := id.block.parentID, id.block.transactions;
    var input, l := ts[n].core.siacoinInputs[j], LedgerOf(env, p);
    && (input.parentID in l.siacoins || input.parentID in MadeCoins(ts[..n])) && input.parentID !in SpentCoins(ts[..n])
    && UnlockConditionsHash(input.unlockConditions) == CoinContent(l, input.parentID).unlockHash
    && Unlocked(env, ts[n], HeightOf(env, p), input.parentID, input.unlockConditions)
  }

  lemma CoinParent(c: TxnCore, j: nat)
    requires j < |c.siacoinInputs|
    ensures Parent(c.siacoinInputs[j].parentID, c.siacoinInputs[j].unlockConditions) in Parents(c)
  {
    assert Parents(c)[j] == Parent(c.siacoinInputs[j].parentID, c.siacoinInputs[j].unlockConditions);
  }

  lemma InputIsOwned(env: Env, id: Hash, n: nat, j: nat)
    requires OnChain(env, id) && n < |id.block.transactions| && j < |id.block.transactions[n].core.siacoinInputs|
    ensures OwnerSpends(env, id, n, j)
  {
    hide TxnsDiffs, Tracked, Unlocked, TxnsValid, SignaturesOK, CommitAll, ValidChain, Parents, CoreRules, MadeCoins, SpentCoins, SumSeq;
    var p, ts, height := id.block.parentID, id.block.transactions, HeightOf(env, id);
    var input := ts[n].core.siacoinInputs[j];
    var mid := LedgerBefore(env, id, n);
    PrefixReady(env, id, n);
    SiacoinsAfter(env, StartOf(env, id), HistoryOf(env, p), ts[..n], height, input.parentID);
    assert SpendsSiacoin(mid.siacoins, input);
    CoinParent(ts[n].core, j);
    SignedMeans(env, ts[n], HeightOf(env, p), Parent(input.parentID, input.unlockConditions));
  }

  lemma MaturedIs(l: Ledger, height: nat, o: Order, x: Hash)
    requires OrderOK(l, height, o)
    ensures x in o.matured <==> height >= MATURITY_DELAY && (height, x) in l.delayed
  {
    if (height, x) in l.delayed {
      assert (height, x).1 in MaturingIDs(l, height);
    }
    if x in o.matured {
      var i :| 0 <= i < |o.matured| && o.matured[i] == x;
      MaturingKey(l, height, o, i);
    }
  }

  // Maintenance adds the outputs of the bucket that matures, with their values.
  lemma MaturedAt(l: Ledger, h: History, id: Hash, b: Block, height: nat, o: Order, x: Hash)
    requires Tracked(l, h) && OrderOK(l, height, o) && (forall k :: k in l.delayed ==> k.0 >= MATURITY_DELAY)
    ensures var m := CommitAll(l.siacoins, MatureDiffs(l, o.matured, height));
      && (x in m <==> x in l.siacoins || (height, x) in l.delayed)
      && ((height, x) in l.delayed ==> m[x] == l.delayed[(height, x)])
      && (x in m && (height, x) !in l.delayed ==> m[x] == l.siacoins[x])
  {
    hide CommitAll, Fits, Records, OrderOK;
    MaintenanceSiacoins(l, h, id, b, height, o);
    MaturedIs(l, height, o, x);
    var ds := MatureDiffs(l, o.matured, height);
    if x in CommitAll(l.siacoins, ds) {
      Sources(l.siacoins, ds, x);
    }
  }

  // Only the bucket a block opens changes before its maintenance.
  lemma OtherBuckets(env: Env, l: Ledger, b: Block, height: nat, k: (nat, Hash))
    requires BlockValid(env, l, b, height) && k.0 != height + MATURITY_DELAY
    ensures var mid := AfterTxns(env, l, b, height);
      (k in mid.delayed <==> k in l.delayed) && (k in l.delayed ==> mid.delayed[k] == l.delayed[k])
  {
    hide CommitAll;
    var widened := OpenBucket(l, height + MATURITY_DELAY);
    var ds := TxnsDiffs(env, widened, b.transactions, height).delayed;
    TxnsDelayed(env, widened, b.transactions, height);
    Untouched(l.delayed, ds, k);
  }

  ghost predicate CoinAfter(l: Ledger, next: Ledger, ts: seq<Transaction>, height: nat, x: Hash)
  {
    && (x in next.siacoins <==>
         ((x in l.siacoins || x in MadeCoins(ts)) && x !in SpentCoins(ts)) || (height, x) in l.delayed)
    && ((height, x) in l.delayed ==> next.siacoins[x] == l.delayed[(height, x)])
    && (x in next.siacoins && (height, x) !in l.delayed ==> next.siacoins[x] == CoinContent(l, x))
  }

  lemma StepCoins(env: Env, l: Ledger, h: History, id: Hash, b: Block, height: nat, x: Hash)
    requires GoodStep(env, l, h, id, b, height)
    ensures CoinAfter(l, ApplyBlock(env, l, id, b, height), b.transactions, height, x)
  {
    hide TxnsDiffs, Tracked, CommitAll, TxnsHistory, ContractsSound, FundsSound, GenesisClaims, BlockValid, OrderOK, MadeCoins, SpentCoins;
    var widened := OpenBucket(l, height + MATURITY_DELAY);
    var mid, g := AfterTxns(env, l, b, height), TxnsHistory(env, widened, h, b.transactions, height);
    var o := SomeOrder(mid, height);
    NextParts(env, l, h, id, b, height, o);
    TxnsStage(env, l, h, b, height);
    SameTracked(l, widened, h);
    ValidOnWidened(env, l, b, height);
    SiacoinsAfter(env, widened, h, b.transactions, height, x);
    forall k | k in mid.delayed ensures k.0 >= MATURITY_DELAY {
      if k.0 != height + MATURITY_DELAY {
        OtherBuckets(env, l, b, height, k);
        assert BucketDue(k.0, Height(l));
      }
    }
    MaturedAt(mid, g, id, b, height, o, x);
    OtherBuckets(env, l, b, height, (height, x));
  }

  // The spendable outputs of a valid chain: those of the parent or made by the block, that no input
  // of the block names, and those that mature, each with the value and address it was made with.
  lemma SpendableAfter(env: Env, id: Hash, x: Hash)
    requires OnChain(env, id)
    ensures CoinAfter(LedgerOf(env, id.block.parentID), LedgerOf(env, id), id.block.transactions, HeightOf(env, id), x)
  {
    hide CoinAfter, GoodStep;
    var p := id.block.parentID;
    ParentReady(env, id);
    StepCoins(env, LedgerOf(env, p), HistoryOf(env, p), id, id.block, HeightOf(env, id), x);
  }

  lemma SpendableIsNotDelayed(env: Env, id: Hash, x: Hash, height: nat)
    requires EnvOK(env) && Rooted(env, id) && ValidChain(env, id) && x in LedgerOf(env, id).siacoins
    ensures (height, x) !in LedgerOf(env, id).delayed
  {
    ChainInv(env, id);
  }

  // A spendable output leaves the ledger exactly when an input of the block names it, and then its
  // owner has signed.
  lemma SpentByOwner(env: Env, id: Hash, x: Hash)
    requires OnChain(env, id) && x in LedgerOf(env, id.block.parentID).siacoins
    ensures x !in LedgerOf(env, id).siacoins <==> exists n, j :: NamesCoin(id.block.transactions, n, j, x)
    ensures forall n, j :: NamesCoin(id.block.transactions, n, j, x) ==> OwnerSpends(env, id, n, j)
  {
    hide OwnerSpends, SpentCoins, MadeCoins, LedgerOf;
    var p, ts := id.block.parentID, id.block.transactions;
    ChainParts(env, id);
    SpendableIsNotDelayed(env, p, x, HeightOf(env, id));
    SpendableAfter(env, id, x);
    SpentIsNamed(ts, x);
    forall n, j | NamesCoin(ts, n, j, x) ensures OwnerSpends(env, id, n, j) {
      InputIsOwned(env, id, n, j);
    }
  }

  // ---------------------------------------------------------------- siafunds

  // The address an output reads with: above REWRITE_HEIGHT that of the last genesis siafund output
  // reads as the developers'.
  ghost function ReadAddress(env: Env, height: nat, address: Hash): Hash
  {
    if env.genesisSiafunds != [] && address == env.genesisSiafunds[|env.genesisSiafunds| - 1].unlockHash && height > REWRITE_HEIGHT
    then env.devAddr else address
  }

  ghost predicate OwnerSpendsFund(env: Env, id: Hash, n: nat, j: nat)
    requires Rooted(env, id) && id != GenesisID(env)
    requires n < |id.block.transactions| && j < |id.block.transactions[n].core.siafundInputs|
  {
    var p, ts := id.block.parentID, id.block.transactions;
    var input, l := ts[n].core.siafundInputs[j], LedgerOf(env, p);
    && (input.parentID in l.siafunds || input.parentID in MadeFunds(ts[..n])) && input.parentID !in SpentFundIDs(ts[..n])
    && UnlockConditionsHash(input.unlockConditions) == ReadAddress(env, HeightOf(env, p), FundContent(l, input.parentID).1)
    && Unlocked(env, ts[n], HeightOf(env, p), input.parentID, input.unlockConditions)
  }

  lemma FundParent(c: TxnCore, j: nat)
    requires j < |c.siafundInputs|
    ensures Parent(c.siafundInputs[j].parentID, c.siafundInputs[j].unlockConditions) in Parents(c)
  {
    assert Parents(c)[|c.siacoinInputs| + |c.fileContractRevisions| + j] ==
      Parent(c.siafundInputs[j].parentID, c.siafundInputs[j].unlockConditions);
  }

  lemma FundInputIsOwned(env: Env, id: Hash, n: nat, j: nat)
    requires OnChain(env, id) && n < |id.block.transactions| && j < |id.block.transactions[n].core.siafundInputs|
    ensures OwnerSpendsFund(env, id, n, j)
  {
    hide TxnsDiffs, Tracked, Unlocked, TxnsValid, SignaturesOK, CommitAll, ValidChain, Parents, CoreRules, MadeFunds, SpentFundIDs, SumSeq;
    var p, ts, height := id.block.parentID, id.block.transactions, HeightOf(env, id);
    var input := ts[n].core.siafundInputs[j];
    PrefixReady(env, id, n);
    SiafundsAfter(env, StartOf(env, id), HistoryOf(env, p), ts[..n], height, input.parentID);
    assert SpendsSiafund(env, LedgerBefore(env, id, n), input);
    FundParent(ts[n].core, j);
    SignedMeans(env, ts[n], HeightOf(env, p), Parent(input.parentID, input.unlockConditions));
  }

  // The siafund outputs after a block. The block of the swap drops those of genesis and adds the
  // forked allocation.
  ghost predicate FundAfter(env: Env, l: Ledger, next: Ledger, ts: seq<Transaction>, height: nat, x: Hash)
  {
    && (x in next.siafunds <==>
         if height == SWAP_HEIGHT && (x in GenesisSiafundIDs(env) || x in ForkedIDs(env)) then x in ForkedIDs(env)
         else (x in l.siafunds || x in MadeFunds(ts)) && x !in SpentFundIDs(ts))
    && (x in next.siafunds && (height != SWAP_HEIGHT || x !in ForkedIDs(env)) ==>
         (next.siafunds[x].value, next.siafunds[x].unlockHash) == FundContent(l, x))
  }

  lemma SwapAt(env: Env, m: map<Hash, SiafundOutput>, x: Hash)
    requires EnvOK(env) && ForkedIDs(env) !! m.Keys
    ensures var after := CommitAll(m, SwapDiffs(env, SWAP_HEIGHT).siafunds);
      && (x in after <==> x in ForkedIDs(env) || (x in m && x !in GenesisSiafundIDs(env)))
      && (x in after && x !in ForkedIDs(env) ==> after[x] == m[x])
  {
    hide CommitAll, Fits, Records;
    SwapResult(env, m);
    var mid, adds := m - GenesisSiafundIDs(env), SwapAdditions(env, |env.forkedSiafunds|);
    if x in CommitAll(mid, adds) {
      Sources(mid, adds, x);
      if d: Diff<Hash, SiafundOutput> :| d in adds && d.id == x {
        var i :| 0 <= i < |adds| && adds[i] == d;
        assert x in ForkedIDs(env);
      }
    }
  }

  lemma StepFunds(env: Env, l: Ledger, h: History, id: Hash, b: Block, height: nat, x: Hash)
    requires GoodStep(env, l, h, id, b, height)
    ensures FundAfter(env, l, ApplyBlock(env, l, id, b, height), b.transactions, height, x)
  {
    hide TxnsDiffs, Tracked, CommitAll, TxnsHistory, ContractsSound, FundsSound, GenesisClaims, BlockValid, OrderOK, MadeFunds, SpentFundIDs;
    var widened := OpenBucket(l, height + MATURITY_DELAY);
    var mid := AfterTxns(env, l, b, height);
    NextParts(env, l, h, id, b, height, SomeOrder(mid, height));
    SameTracked(l, widened, h);
    ValidOnWidened(env, l, b, height);
    SiafundsAfter(env, widened, h, b.transactions, height, x);
    if height == SWAP_HEIGHT {
      ForkedAbsent(env, l, h, b, height);
      SwapAt(env, mid.siafunds, x);
    } else {
      NoSwap(env, mid.siafunds, height);
    }
  }

  lemma NoSwap(env: Env, m: map<Hash, SiafundOutput>, height: nat)
    requires height != SWAP_HEIGHT
    ensures CommitAll(m, SwapDiffs(env, height).siafunds) == m
  {
  }

  lemma SiafundsOf(env: Env, id: Hash, x: Hash)
    requires OnChain(env, id)
    ensures FundAfter(env, LedgerOf(env, id.block.parentID), LedgerOf(env, id), id.block.transactions, HeightOf(env, id), x)
  {
    hide FundAfter, GoodStep;
    var p := id.block.parentID;
    ParentReady(env, id);
    StepFunds(env, LedgerOf(env, p), HistoryOf(env, p), id, id.block, HeightOf(env, id), x);
  }

  lemma ForkedOnlyAtSwap(env: Env, id: Hash, x: Hash)
    requires OnChain(env, id) && HeightOf(env, id) == SWAP_HEIGHT && x in LedgerOf(env, id.block.parentID).siafunds
    ensures x !in ForkedIDs(env)
  {
    var p := id.block.parentID;
    ChainParts(env, id);
    ChainInv(env, p);
    PathHeights(env, p);
    ForkedFresh(env, HistoryOf(env, p));
  }

  // A siafund output leaves the ledger exactly when an input of the block names it or the block
  // makes the swap and the output is one of genesis. If an input names it, the owner of the address
  // it reads with has signed.
  lemma FundSpentByOwner(env: Env, id: Hash, x: Hash)
    requires OnChain(env, id) && x in LedgerOf(env, id.block.parentID).siafunds
    ensures x !in LedgerOf(env, id).siafunds <==>
      (exists n, j :: NamesFund(id.block.transactions, n, j, x)) || (HeightOf(env, id) == SWAP_HEIGHT && x in GenesisSiafundIDs(env))
    ensures forall n, j :: NamesFund(id.block.transactions, n, j, x) ==> OwnerSpendsFund(env, id, n, j)
  {
    hide OwnerSpendsFund, SpentFundIDs, MadeFunds, LedgerOf;
    var ts := id.block.transactions;
    if HeightOf(env, id) == SWAP_HEIGHT {
      ForkedOnlyAtSwap(env, id, x);
    }
    SiafundsOf(env, id, x);
    FundSpentIsNamed(ts, x);
    forall n, j | NamesFund(ts, n, j, x) ensures OwnerSpendsFund(env, id, n, j) {
      FundInputIsOwned(env, id, n, j);
    }
  }

  // ---------------------------------------------------------------- contracts

  // The last revision of a contract before transaction n of a block.
  ghost function RevisionBefore(env: Env, id: Hash, n: nat, x: Hash): Option<FileContractRevision>
    requires Rooted(env, id) && id != GenesisID(env) && n <= |id.block.transactions|
  {
    Later(ChainRevision(env, id.block.parentID, x), LastRevision(id.block.transactions[..n], x))
  }

  lemma TermsBefore(env: Env, id: Hash, n: nat, x: Hash)
    requires OnChain(env, id) && n <= |id.block.transactions| && x in LedgerBefore(env, id, n).contracts
    ensures HasTerms(LedgerBefore(env, id, n).contracts[x], AsFormed(x), RevisionBefore(env, id, n, x))
  {
    hide TxnsDiffs, Tracked, TxnsValid, CommitAll, ValidChain, LastRevision, Formed, Proven, HasTerms;
    var p, ts, height := id.block.parentID, id.block.transactions, HeightOf(env, id);
    var start, h := StartOf(env, id), HistoryOf(env, p);
    ChainParts(env, id);
    PrefixReady(env, id, n);
    ChainTerms(env, p, x);
    ContractsAfter(env, start, h, ts[..n], height, x);
    if x in start.contracts {
      TermsOn(AsFormed(x), start.contracts[x], LedgerBefore(env, id, n).contracts[x], ChainRevision(env, p, x), LastRevision(ts[..n], x));
    } else {
      FormedIsFresh(env, start, h, ts[..n], height, x);
    }
  }

  // Revision j of transaction n changes a contract whose current terms are those of its last
  // revision: before its window opens, with a larger number, unchanged totals and its owner's
  // signatures.
  ghost predicate OwnerRevises(env: Env, id: Hash, n: nat, j: nat)
    requires Rooted(env, id) && id != GenesisID(env)
    requires n < |id.block.transactions| && j < |id.block.transactions[n].core.fileContractRevisions|
  {
    var p, t := id.block.parentID, id.block.transactions[n];
    var r, open := t.core.fileContractRevisions[j], LedgerBefore(env, id, n).contracts;
    && r.parentID in open
    && var c := open[r.parentID];
       && HasTerms(c, AsFormed(r.parentID), RevisionBefore(env, id, n, r.parentID))
       && HeightOf(env, p) <= c.windowStart && c.revisionNumber < r.newRevisionNumber
       && SumSeq(r.newValidProofOutputs, Value) == SumSeq(r.newMissedProofOutputs, Value) == SumSeq(c.validProofOutputs, Value)
       && UnlockConditionsHash(r.unlockConditions) == c.unlockHash
       && Unlocked(env, t, HeightOf(env, p), r.parentID, r.unlockConditions)
  }

  lemma RevisionParent(c: TxnCore, j: nat)
    requires j < |c.fileContractRevisions|
    ensures Parent(c.fileContractRevisions[j].parentID, c.fileContractRevisions[j].unlockConditions) in Parents(c)
  {
    assert Parents(c)[|c.siacoinInputs| + j] ==
      Parent(c.fileContractRevisions[j].parentID, c.fileContractRevisions[j].unlockConditions);
  }

  lemma RevisionIsOwned(env: Env, id: Hash, n: nat, j: nat)
    requires OnChain(env, id) && n < |id.block.transactions| && j < |id.block.transactions[n].core.fileContractRevisions|
    ensures OwnerRevises(env, id, n, j)
  {
    hide TxnsDiffs, Tracked, Unlocked, TxnsValid, SignaturesOK, CommitAll, ValidChain, Parents, CoreRules, SumSeq, HasTerms, RevisionBefore, LedgerBefore;
    var t := id.block.transactions[n];
    var r := t.core.fileContractRevisions[j];
    PrefixReady(env, id, n);
    assert RevisesContract(LedgerBefore(env, id, n), r);
    TermsBefore(env, id, n, r.parentID);
    RevisionParent(t.core, j);
    SignedMeans(env, t, HeightOf(env, id.block.parentID), Parent(r.parentID, r.unlockConditions));
  }

  predicate NamesContract(ts: seq<Transaction>, n: int, j: int, x: Hash)
  {
    0 <= n < |ts| && 0 <= j < |ts[n].core.fileContractRevisions| && ts[n].core.fileContractRevisions[j].parentID == x
  }

  lemma {:induction false} LastRevisionFound(ts: seq<Transaction>, x: Hash)
    requires LastRevision(ts, x).Some?
    ensures exists n, j :: NamesContract(ts, n, j, x) && ts[n].core.fileContractRevisions[j] == LastRevision(ts, x).value
  {
    var last := |ts| - 1;
    var rs := ts[last].core.fileContractRevisions;
    RevisionFound(rs, x);
    if RevisionIn(rs, x).Some? {
      var j :| 0 <= j < |rs| && rs[j] == RevisionIn(rs, x).value;
      assert NamesContract(ts, last, j, x);
    } else {
      LastRevisionFound(ts[..last], x);
      var n, j :| NamesContract(ts[..last], n, j, x) && ts[..last][n].core.fileContractRevisions[j] == LastRevision(ts[..last], x).value;
      assert NamesContract(ts, n, j, x);
    }
  }

  ghost predicate Rewrites(env: Env, id: Hash, n: nat, j: nat, x: Hash)
    requires Rooted(env, id) && id != GenesisID(env) && NamesContract(id.block.transactions, n, j, x)
  {
    var before, after := LedgerOf(env, id.block.parentID).contracts, LedgerOf(env, id).contracts;
    && OwnerRevises(env, id, n, j) && x in before && x in after
    && HasTerms(after[x], before[x], Some(id.block.transactions[n].core.fileContractRevisions[j]))
  }

  // A contract that a block changes without closing it has each field of a revision in the block,
  // and its owner has signed that revision.
  lemma RevisedByOwner(env: Env, id: Hash, x: Hash)
    requires OnChain(env, id) && x in LedgerOf(env, id.block.parentID).contracts && x in LedgerOf(env, id).contracts
    requires LedgerOf(env, id).contracts[x] != LedgerOf(env, id.block.parentID).contracts[x]
    ensures exists n, j :: NamesContract(id.block.transactions, n, j, x) && Rewrites(env, id, n, j, x)
  {
    hide OwnerRevises, LedgerOf, LastRevision, Settles;
    var p, ts := id.block.parentID, id.block.transactions;
    ParentReady(env, id);
    StepHere(env, id, x);
    LastRevisionFound(ts, x);
    var n, j :| NamesContract(ts, n, j, x) && ts[n].core.fileContractRevisions[j] == LastRevision(ts, x).value;
    RevisionIsOwned(env, id, n, j);
  }

  lemma StepHere(env: Env, id: Hash, x: Hash)
    requires OnChain(env, id)
    ensures var l, ts := LedgerOf(env, id.block.parentID), id.block.transactions;
      Fate(LedgerOf(env, id), HeightOf(env, id), x, ContractContent(l, x), LastRevision(ts, x), LiveIn(l, ts, x), x in Proven(ts))
  {
    hide Fate, GoodStep, LastRevision, LiveIn, Proven;
    var p := id.block.parentID;
    ParentReady(env, id);
    StepFate(env, LedgerOf(env, p), HistoryOf(env, p), id, id.block, HeightOf(env, id), x);
  }

  // A storage proof closes a contract only once its window has opened, and verifies against the
  // terms of its last revision and the block before the window.
  lemma ProofIsGood(env: Env, id: Hash, n: nat, j: nat)
    requires OnChain(env, id) && n < |id.block.transactions| && j < |id.block.transactions[n].core.storageProofs|
    ensures var proof, open := id.block.transactions[n].core.storageProofs[j], LedgerBefore(env, id, n).contracts;
      && proof.parentID in open
      && var c, path := open[proof.parentID], PathOf(env, id.block.parentID);
         && HasTerms(c, AsFormed(proof.parentID), RevisionBefore(env, id, n, proof.parentID))
         && 0 < c.windowStart <= HeightOf(env, id) && c.windowStart <= |path|
         && env.verifyStorageProof(proof, c, path[c.windowStart - 1], HeightOf(env, id.block.parentID))
  {
    hide TxnsDiffs, Tracked, TxnsValid, SignaturesOK, CommitAll, ValidChain, CoreRules, SumSeq, HasTerms, RevisionBefore, LedgerBefore;
    var proof := id.block.transactions[n].core.storageProofs[j];
    PrefixReady(env, id, n);
    PathHeights(env, id.block.parentID);
    assert ProofOK(env, LedgerBefore(env, id, n), proof);
    TermsBefore(env, id, n, proof.parentID);
  }

  // ---------------------------------------------------------------- claims and payouts

  // The claim of every siafund output a block spends goes to the address its input names: the
  // output's share of what the pool has taken since its claim started.
  ghost predicate ClaimPaid(delayed: map<(nat, Hash), SiacoinOutput>, height: nat, input: SiafundInput, funds: map<Hash, SiafundOutput>, pool: nat)
  {
    var k := (height + MATURITY_DELAY, ClaimHash(input.parentID));
    && input.parentID in funds && k in delayed && delayed[k].unlockHash == input.claimUnlockHash
    && var o := funds[input.parentID]; o.claimStart <= pool && delayed[k].value == (pool - o.claimStart) / 10000 * o.value
  }

  lemma ClaimsPaid(env: Env, id: Hash, n: nat, j: nat)
    requires OnChain(env, id) && n < |id.block.transactions| && j < |id.block.transactions[n].core.siafundInputs|
    ensures ClaimPaid(LedgerOf(env, id).delayed, HeightOf(env, id), id.block.transactions[n].core.siafundInputs[j],
                      LedgerBefore(env, id, n).siafunds, LedgerBefore(env, id, n + 1).pool)
  {
    hide TxnsDiffs, Tracked, TxnsValid, CommitAll, ValidChain, SpentFundIDs, GoodStep, LedgerOf, LedgerBefore, AfterTxns;
    var p, ts, height := id.block.parentID, id.block.transactions, HeightOf(env, id);
    var s := ts[n].core.siafundInputs[j].parentID;
    assert NamesFund(ts, n, j, s);
    FundSpentIsNamed(ts, s);
    ClaimDelayed(env, id, n, j);
    ClaimKept(env, id, s);
    ClaimStarted(env, id, n, s);
  }

  lemma ClaimDelayed(env: Env, id: Hash, n: nat, j: nat)
    requires OnChain(env, id) && n < |id.block.transactions| && j < |id.block.transactions[n].core.siafundInputs|
    ensures var input := id.block.transactions[n].core.siafundInputs[j];
      var k, m := (HeightOf(env, id) + MATURITY_DELAY, ClaimHash(input.parentID)), AfterAll(env, id).delayed;
      && input.parentID in LedgerBefore(env, id, n).siafunds && k in m
      && m[k] == SiacoinOutput(ClaimPortion(LedgerBefore(env, id, n + 1).pool, LedgerBefore(env, id, n).siafunds[input.parentID]), input.claimUnlockHash)
  {
    hide TxnsDiffs, Tracked, TxnsValid, CommitAll, ValidChain, CommitSet, HistoryOf;
    var ts, height := id.block.transactions, HeightOf(env, id);
    PrefixReady(env, id, |ts|);
    assert ts[..|ts|] == ts;
    ClaimsAfter(env, StartOf(env, id), HistoryOf(env, id.block.parentID), ts, height, n, j);
  }

  ghost function AfterAll(env: Env, id: Hash): Ledger
    requires Rooted(env, id) && id != GenesisID(env)
  {
    AfterTxns(env, LedgerOf(env, id.block.parentID), id.block, HeightOf(env, id))
  }

  lemma ClaimKept(env: Env, id: Hash, s: Hash)
    requires OnChain(env, id) && s in SpentFundIDs(id.block.transactions)
    ensures var k := (HeightOf(env, id) + MATURITY_DELAY, ClaimHash(s));
      k in LedgerOf(env, id).delayed && k in AfterAll(env, id).delayed && LedgerOf(env, id).delayed[k] == AfterAll(env, id).delayed[k]
  {
    hide TxnsDiffs, Tracked, CommitAll, ValidChain, SpentFundIDs, GoodStep, AfterTxns;
    var p := id.block.parentID;
    ParentReady(env, id);
    StepOthers(env, LedgerOf(env, p), HistoryOf(env, p), id, id.block, HeightOf(env, id), ClaimHash(s));
  }

  lemma ClaimStarted(env: Env, id: Hash, n: nat, s: Hash)
    requires OnChain(env, id) && n < |id.block.transactions| && s in LedgerBefore(env, id, n).siafunds
    ensures LedgerBefore(env, id, n).siafunds[s].claimStart <= LedgerBefore(env, id, n).pool <= LedgerBefore(env, id, n + 1).pool
  {
    hide TxnsDiffs, Tracked, CommitSet, ValidChain, TxnsValid, HistoryOf, ContractsSound, FundsSound, LedgerOf, HeightOf, StartOf;
    var p, ts, height := id.block.parentID, id.block.transactions, HeightOf(env, id);
    assert ts[..n + 1][..n] == ts[..n];
    StartSound(env, id);
    PrefixReady(env, id, n);
    PrefixReady(env, id, n + 1);
    StartsBelow(env, StartOf(env, id), ts[..n], height, s);
    PoolGrows(env, StartOf(env, id), HistoryOf(env, p), ts[..n + 1], height);
  }

  lemma StartSound(env: Env, id: Hash)
    requires OnChain(env, id)
    ensures var l := StartOf(env, id); ContractsSound(l.contracts, Height(l)) && FundsSound(l.siafunds, l.pool)
  {
    hide ValidChain, HistoryOf, ContractsSound, FundsSound, BucketsExact, GenesisClaims, Tracked;
    ChainParts(env, id);
    ChainInv(env, id.block.parentID);
  }

  lemma StartsBelow(env: Env, l: Ledger, ts: seq<Transaction>, height: nat, s: Hash)
    requires TxnsValid(env, l, ts, height) && ContractsSound(l.contracts, Height(l)) && FundsSound(l.siafunds, l.pool)
    requires s in CommitSet(l, TxnsDiffs(env, l, ts, height)).siafunds
    ensures var next := CommitSet(l, TxnsDiffs(env, l, ts, height)); next.siafunds[s].claimStart <= next.pool
  {
    TxnsSound(env, l, ts, height);
    assert FundSound(CommitSet(l, TxnsDiffs(env, l, ts, height)).siafunds[s], CommitSet(l, TxnsDiffs(env, l, ts, height)).pool);
  }

  lemma PoolGrows(env: Env, l: Ledger, h: History, ts: seq<Transaction>, height: nat)
    requires Tracked(l, h) && TxnsValid(env, l, ts, height) && ts != []
    ensures CommitSet(l, TxnsDiffs(env, l, ts[..|ts| - 1], height)).pool <= CommitSet(l, TxnsDiffs(env, l, ts, height)).pool
  {
    hide CommitAll, Tracked, Applicable;
    var mid := CommitSet(l, TxnsDiffs(env, l, ts[..|ts| - 1], height));
    LastStep(env, l, h, ts, height);
    PoolCommits(mid.pool, Height(mid), ts[|ts| - 1].core.fileContracts);
  }

  // Besides proof outputs, the bucket a block opens holds exactly those claims and its own payouts,
  // each under its index.
  lemma BucketOpened(env: Env, id: Hash, x: Hash)
    requires OnChain(env, id) && !x.StorageProofHash?
    ensures var m, k := LedgerOf(env, id).delayed, (HeightOf(env, id) + MATURITY_DELAY, x);
      && (k in m <==> (x.ClaimHash? && exists n, j :: NamesFund(id.block.transactions, n, j, x.siafund)) ||
                      (x.MinerPayoutHash? && x.blockID == id && x.index < |id.block.minerPayouts|))
      && (k in m && x.MinerPayoutHash? ==> m[k] == id.block.minerPayouts[x.index])
  {
    hide TxnsDiffs, Tracked, CommitAll, ValidChain, SpentFundIDs, GoodStep, AfterTxns;
    var p, ts, height := id.block.parentID, id.block.transactions, HeightOf(env, id);
    ParentReady(env, id);
    StepOthers(env, LedgerOf(env, p), HistoryOf(env, p), id, id.block, height, x);
    if x.ClaimHash? {
      FundSpentIsNamed(ts, x.siafund);
    }
  }
}
