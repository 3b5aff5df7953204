/**
 What a block pays out, and to whom: the proof outputs of every contract it closes, the claims of
 every siafund output it spends, and its own payouts, each under its index in the bucket the
 block opens.
 */
module Settlements {
  import opened Types
  import opened Diffs
  import opened Money
  import opened Ledgers
  import opened Validity
  import opened Tracking
  import opened Conservation
  import opened Blocks
  import opened Steps
  import opened BlockSteps
  import opened BlockReverts
  import opened Chains
  import opened Reverting
  import opened Effects
  import opened Agreements

  // ---------------------------------------------------------------- closing contracts

  // Where output i of contract x is delayed to.
  function PayoutKey(maturity: nat, x: Hash, valid: bool, i: nat): (nat, Hash)
  {
    (maturity, StorageProofHash(x, valid, i))
  }

  // The diffs of closing contracts delay exactly their outputs, each under its index.
  lemma {:induction false} ClosingAt(m: map<Hash, FileContract>, ids: seq<Hash>, valid: bool, maturity: nat, x: Hash, v: bool, i: nat)
    ensures var ds := ClosingPayouts(m, ids, valid, maturity);
      var outs := ProofOutputs(StoredContract(m, x), valid);
      && (PayoutKey(maturity, x, v, i) in Ids(ds) <==> v == valid && x in ids && i < |outs|)
      && (forall d :: d in ds && d.id == PayoutKey(maturity, x, v, i) ==> i < |outs| && d.value == outs[i])
  {
    if ids != [] {
      var n := |ids| - 1;
      var front := ClosingPayouts(m, ids[..n], valid, maturity);
      var outs := ProofOutputs(StoredContract(m, ids[n]), valid);
      var last := ContractPayouts(ids[n], valid, outs, maturity);
      ClosingAt(m, ids[..n], valid, maturity, x, v, i);
      IdsAppend(front, last);
      assert forall d :: d in front + last <==> d in front || d in last;
      assert x in ids <==> x in ids[..n] || x == ids[n];
      assert PayoutKey(maturity, x, v, i) in Ids(last) <==> v == valid && x == ids[n] && i < |outs| by {
        if v == valid && x == ids[n] && i < |outs| {
          assert last[i] in last && last[i].id == PayoutKey(maturity, x, v, i);
        }
      }
    }
  }

  // ---------------------------------------------------------------- one transaction

  // The delayed outputs after a transaction: those before, and those its diffs add.
  lemma TxnDelays(env: Env, l: Ledger, h: History, c: TxnCore, height: nat, k: (nat, Hash))
    requires Tracked(l, h) && Applicable(env, l, c)
    ensures var ds := TxnDiffs(env, l, c, height).delayed;
      var m := CommitSet(l, TxnDiffs(env, l, c, height)).delayed;
      && (k in m <==> k in l.delayed || k in Ids(ds))
      && (k in l.delayed ==> k in m && m[k] == l.delayed[k])
      && (forall d :: d in ds && d.id == k ==> k !in l.delayed && k in m && m[k] == d.value)
  {
    hide CommitAll, Fits, Records;
    var ds := TxnDiffs(env, l, c, height).delayed;
    DelayedShape(env, l, c, height);
    forall d | d in ds ensures d.id !in l.delayed {
      DelayedFresh(env, l, h, c, d.id, height + MATURITY_DELAY);
    }
    Insertions(l.delayed, ds);
  }

  lemma ClaimIDs(env: Env, l: Ledger, pool: nat, ins: seq<SiafundInput>, maturity: nat, k: (nat, Hash))
    ensures k in Ids(ClaimPayouts(env, l, pool, ins, maturity)) ==> k.1.ClaimHash?
  {
    if k in Ids(ClaimPayouts(env, l, pool, ins, maturity)) {
      var ds := ClaimPayouts(env, l, pool, ins, maturity);
      var d :| d in ds && d.id == k;
      var i :| 0 <= i < |ds| && ds[i] == d;
    }
  }

  // A transaction delays exactly the valid outputs of the contracts it proves.
  lemma TxnPayout(env: Env, l: Ledger, h: History, c: TxnCore, height: nat, x: Hash, v: bool, i: nat)
    requires Tracked(l, h) && Applicable(env, l, c)
    ensures var m := CommitSet(l, TxnDiffs(env, l, c, height)).delayed;
      var k := PayoutKey(height + MATURITY_DELAY, x, v, i);
      var outs := StoredContract(l.contracts, x).validProofOutputs;
      && (k in m <==> k in l.delayed || (v && x in ProvenIDs(c.storageProofs) && i < |outs|))
      && (k in l.delayed ==> m[k] == l.delayed[k])
      && (k in m && k !in l.delayed ==> m[k] == outs[i])
  {
    hide CommitAll, Applicable, Tracked, PoolAfter;
    var maturity := height + MATURITY_DELAY;
    var k := PayoutKey(maturity, x, v, i);
    var pool := PoolAfter(l.pool, Height(l), c.fileContracts);
    var payouts := ClosingPayouts(l.contracts, ProvenIDs(c.storageProofs), true, maturity);
    var claims := ClaimPayouts(env, l, pool, c.siafundInputs, maturity);
    TxnDelays(env, l, h, c, height, k);
    ClosingAt(l.contracts, ProvenIDs(c.storageProofs), true, maturity, x, v, i);
    ClaimIDs(env, l, pool, c.siafundInputs, maturity, k);
    IdsAppend(payouts, claims);
    assert forall d :: d in payouts + claims <==> d in payouts || d in claims;
  }

  // A transaction delays one claim for each siafund output it spends, to the address the input
  // names.
  lemma TxnClaim(env: Env, l: Ledger, h: History, c: TxnCore, height: nat, j: nat)
    requires Tracked(l, h) && Applicable(env, l, c) && j < |c.siafundInputs|
    ensures var input := c.siafundInputs[j];
      var next := CommitSet(l, TxnDiffs(env, l, c, height));
      var k := (height + MATURITY_DELAY, ClaimHash(input.parentID));
      && input.parentID in l.siafunds && k in next.delayed
      && next.delayed[k] == SiacoinOutput(ClaimPortion(next.pool, l.siafunds[input.parentID]), input.claimUnlockHash)
  {
    hide CommitAll, Tracked;
    var maturity := height + MATURITY_DELAY;
    var pool := PoolAfter(l.pool, Height(l), c.fileContracts);
    var payouts := ClosingPayouts(l.contracts, ProvenIDs(c.storageProofs), true, maturity);
    var claims := ClaimPayouts(env, l, pool, c.siafundInputs, maturity);
    var k := (maturity, ClaimHash(c.siafundInputs[j].parentID));
    assert SpendsSiafund(env, l, c.siafundInputs[j]);
    PoolCommits(l.pool, Height(l), c.fileContracts);
    TxnDelays(env, l, h, c, height, k);
    assert claims[j] in payouts + claims;
  }

  // ---------------------------------------------------------------- a list of transactions

  function ValidOutputs(formed: FileContract, r: Option<FileContractRevision>): seq<SiacoinOutput>
  {
    if r.Some? then r.value.newValidProofOutputs else formed.validProofOutputs
  }

  function MissedOutputs(formed: FileContract, r: Option<FileContractRevision>): seq<SiacoinOutput>
  {
    if r.Some? then r.value.newMissedProofOutputs else formed.missedProofOutputs
  }

  function WindowEnd(formed: FileContract, r: Option<FileContractRevision>): nat
  {
    if r.Some? then r.value.newWindowEnd else formed.windowEnd
  }

  lemma {:induction false} PayoutsAfter(env: Env, l: Ledger, h: History, ts: seq<Transaction>, height: nat, x: Hash, v: bool, i: nat)
    requires Tracked(l, h) && TxnsValid(env, l, ts, height)
    requires PayoutKey(height + MATURITY_DELAY, x, v, i) !in l.delayed
    ensures var m := CommitSet(l, TxnsDiffs(env, l, ts, height)).delayed;
      var k := PayoutKey(height + MATURITY_DELAY, x, v, i);
      var outs := ValidOutputs(ContractContent(l, x), LastRevision(ts, x));
      && (k in m <==> v && x in Proven(ts) && i < |outs|)
      && (k in m ==> m[k] == outs[i])
  {
    if ts != [] {
      hide TxnDiffs, Applicable, OriginsOK, RevisionIn, Tracked;
      var n := |ts| - 1;
      var c := ts[n].core;
      LastStep(env, l, h, ts, height);
      PayoutsAfter(env, l, h, ts[..n], height, x, v, i);
      ContractsAfter(env, l, h, ts[..n], height, x);
      var mid, g := CommitSet(l, TxnsDiffs(env, l, ts[..n], height)), TxnsHistory(env, l, h, ts[..n], height);
      TxnPayout(env, mid, g, c, height, x, v, i);
      ConsumedIsLive(env, mid, c);
      if RevisionIn(c.fileContractRevisions, x).Some? {
        RevisedIsLive(env, mid, c, x);
      }
    }
  }

  // The claim of a siafund output spent by input j of transaction n: its share of what the pool
  // has taken since the claim started, to the address the input names.
  lemma {:induction false} ClaimsAfter(env: Env, l: Ledger, h: History, ts: seq<Transaction>, height: nat, n: nat, j: nat)
    requires Tracked(l, h) && TxnsValid(env, l, ts, height)
    requires n < |ts| && j < |ts[n].core.siafundInputs|
    ensures var input := ts[n].core.siafundInputs[j];
      var mid, next := CommitSet(l, TxnsDiffs(env, l, ts[..n], height)), CommitSet(l, TxnsDiffs(env, l, ts[..n + 1], height));
      var m := CommitSet(l, TxnsDiffs(env, l, ts, height)).delayed;
      var k := (height + MATURITY_DELAY, ClaimHash(input.parentID));
      && input.parentID in mid.siafunds && k in m
      && m[k] == SiacoinOutput(ClaimPortion(next.pool, mid.siafunds[input.parentID]), input.claimUnlockHash)
    decreases |ts|
  {
    hide TxnDiffs, Applicable, Tracked, ClaimPortion, CommitAll, CommitPool;
    var last := |ts| - 1;
    LastStep(env, l, h, ts, height);
    var mid, g := CommitSet(l, TxnsDiffs(env, l, ts[..last], height)), TxnsHistory(env, l, h, ts[..last], height);
    if n == last {
      assert ts[..n + 1] == ts;
      TxnClaim(env, mid, g, ts[n].core, height, j);
    } else {
      assert ts[..last][..n] == ts[..n] && ts[..last][..n + 1] == ts[..n + 1];
      ClaimsAfter(env, l, h, ts[..last], height, n, j);
      TxnDelays(env, mid, g, ts[last].core, height, (height + MATURITY_DELAY, ClaimHash(ts[n].core.siafundInputs[j].parentID)));
    }
  }

  // What a transaction delays besides proof outputs is one claim for each siafund input.
  lemma TxnOther(env: Env, l: Ledger, h: History, c: TxnCore, height: nat, x: Hash)
    requires Tracked(l, h) && Applicable(env, l, c) && !x.StorageProofHash?
    ensures var m, k := CommitSet(l, TxnDiffs(env, l, c, height)).delayed, (height + MATURITY_DELAY, x);
      k in m <==> k in l.delayed || (x.ClaimHash? && x.siafund in FundInputIDs(c))
  {
    hide CommitAll, Tracked;
    var k := (height + MATURITY_DELAY, x);
    TxnDelays(env, l, h, c, height, k);
    DelayedShape(env, l, c, height);
    if x.ClaimHash? && x.siafund in FundInputIDs(c) {
      var j :| 0 <= j < |c.siafundInputs| && c.siafundInputs[j].parentID == x.siafund;
      TxnClaim(env, l, h, c, height, j);
    } else if d: DelayedDiff :| d in TxnDiffs(env, l, c, height).delayed && d.id == k {
      assert TxnDelayed(c, d.id, height + MATURITY_DELAY);
    }
  }

  lemma {:induction false} OthersAfter(env: Env, l: Ledger, h: History, ts: seq<Transaction>, height: nat, x: Hash)
    requires Tracked(l, h) && TxnsValid(env, l, ts, height) && !x.StorageProofHash?
    ensures var m, k := CommitSet(l, TxnsDiffs(env, l, ts, height)).delayed, (height + MATURITY_DELAY, x);
      k in m <==> k in l.delayed || (x.ClaimHash? && x.siafund in SpentFundIDs(ts))
  {
    if ts != [] {
      hide TxnDiffs, Applicable, Tracked, FundInputIDs;
      var n := |ts| - 1;
      LastStep(env, l, h, ts, height);
      OthersAfter(env, l, h, ts[..n], height, x);
      TxnOther(env, CommitSet(l, TxnsDiffs(env, l, ts[..n], height)), TxnsHistory(env, l, h, ts[..n], height), ts[n].core, height, x);
    }
  }

  // ---------------------------------------------------------------- maintenance

  // Outside the bucket that matures, maintenance keeps what is delayed and adds what is new.
  lemma UpkeepDelays(l: Ledger, h: History, id: Hash, b: Block, height: nat, o: Order, k: (nat, Hash))
    requires Tracked(l, h) && id !in h.blocks && OrderOK(l, height, o) && k.0 == height + MATURITY_DELAY
    ensures var ds := NewDelayed(l, id, b, height, o);
      var m := CommitAll(l.delayed, MaintenanceDiffs(l, id, b, height, o).delayed);
      && (k in m <==> k in l.delayed || k in Ids(ds))
      && (k in l.delayed ==> m[k] == l.delayed[k])
      && (k in m && k !in l.delayed ==> exists d :: d in ds && d.id == k && m[k] == d.value)
  {
    hide CommitAll, Fits, Records, OrderOK;
    var ds, all := NewDelayed(l, id, b, height, o), MaintenanceDiffs(l, id, b, height, o).delayed;
    MaintenanceDelayed(l, h, id, b, height, o);
    if k in CommitAll(l.delayed, all) {
      Sources(l.delayed, all, k);
      forall d: DelayedDiff | d in all && d.apply ensures d in ds {
        UpkeepAdds(l, id, b, height, o, d);
      }
      NewDelayedShape(l, id, b, height, o);
      if d: DelayedDiff :| d in ds && d.id == k {
        NewDelayedFresh(l, h, id, b, height, o, k);
      }
    }
  }

  lemma UpkeepAdds(l: Ledger, id: Hash, b: Block, height: nat, o: Order, d: DelayedDiff)
    requires d in MaintenanceDiffs(l, id, b, height, o).delayed && d.apply
    ensures d in NewDelayed(l, id, b, height, o)
  {
    var payouts := PayoutDiffs(id, b.minerPayouts, height + MATURITY_DELAY);
    var undelayed := UndelayDiffs(l, o.matured, height);
    assert d !in undelayed;
    assert d in payouts || d in ClosingPayouts(l.contracts, o.expired, false, height + MATURITY_DELAY);
  }

  // Maintenance delays exactly the missed outputs of the contracts that expire.
  lemma UpkeepPayout(l: Ledger, h: History, id: Hash, b: Block, height: nat, o: Order, x: Hash, v: bool, i: nat)
    requires Tracked(l, h) && id !in h.blocks && OrderOK(l, height, o)
    ensures var m := CommitAll(l.delayed, MaintenanceDiffs(l, id, b, height, o).delayed);
      var k := PayoutKey(height + MATURITY_DELAY, x, v, i);
      var outs := StoredContract(l.contracts, x).missedProofOutputs;
      && (k in m <==> k in l.delayed || (!v && x in o.expired && i < |outs|))
      && (k in l.delayed ==> m[k] == l.delayed[k])
      && (k in m && k !in l.delayed ==> m[k] == outs[i])
  {
    hide CommitAll, Tracked, OrderOK;
    var maturity := height + MATURITY_DELAY;
    var k := PayoutKey(maturity, x, v, i);
    var payouts := PayoutDiffs(id, b.minerPayouts, maturity);
    var missed := ClosingPayouts(l.contracts, o.expired, false, maturity);
    UpkeepDelays(l, h, id, b, height, o, k);
    ClosingAt(l.contracts, o.expired, false, maturity, x, v, i);
    IdsAppend(payouts, missed);
    assert k !in Ids(payouts);
    assert forall d :: d in payouts + missed <==> d in payouts || d in missed;
    assert forall d :: d in payouts ==> d.id != k;
  }

  // What maintenance delays besides proof outputs is the block's payouts, each under its index.
  lemma UpkeepOther(l: Ledger, h: History, id: Hash, b: Block, height: nat, o: Order, x: Hash)
    requires Tracked(l, h) && id !in h.blocks && OrderOK(l, height, o) && !x.StorageProofHash?
    ensures var m := CommitAll(l.delayed, MaintenanceDiffs(l, id, b, height, o).delayed);
      var k: (nat, Hash) := (height + MATURITY_DELAY, x);
      && (k in m <==> k in l.delayed || (x.MinerPayoutHash? && x.blockID == id && x.index < |b.minerPayouts|))
      && (k in l.delayed ==> m[k] == l.delayed[k])
      && (k in m && k !in l.delayed ==> m[k] == b.minerPayouts[x.index])
  {
    hide CommitAll, Tracked, OrderOK, ClosingPayouts;
    var maturity := height + MATURITY_DELAY;
    var payouts := PayoutDiffs(id, b.minerPayouts, maturity);
    var missed := ClosingPayouts(l.contracts, o.expired, false, maturity);
    UpkeepDelays(l, h, id, b, height, o, (maturity, x));
    IdsAppend(payouts, missed);
    assert forall i, j :: 0 <= i < j < |o.expired| ==> o.expired[i] != o.expired[j] by { ExpiredApart(l, height, o); }
    ClosingShape(l.contracts, o.expired, false, maturity);
    assert forall d :: d in payouts + missed <==> d in payouts || d in missed;
    if x.MinerPayoutHash? && x.blockID == id && x.index < |b.minerPayouts| {
      assert payouts[x.index] in payouts + missed;
    }
  }

  lemma ExpiredApart(l: Ledger, height: nat, o: Order)
    requires OrderOK(l, height, o)
    ensures forall i, j :: 0 <= i < j < |o.expired| ==> o.expired[i] != o.expired[j]
  {
  }

  // ---------------------------------------------------------------- one block

  // The ledger after a valid block, part by part.
  lemma NextParts(env: Env, l: Ledger, h: History, id: Hash, b: Block, height: nat, o: Order)
    requires GoodStep(env, l, h, id, b, height) && OrderOK(AfterTxns(env, l, b, height), height, o)
    ensures var mid, next := AfterTxns(env, l, b, height), ApplyBlock(env, l, id, b, height);
      && next.siacoins == CommitAll(mid.siacoins, MatureDiffs(mid, o.matured, height))
      && next.contracts == mid.contracts - Elements(o.expired)
      && next.siafunds == CommitAll(mid.siafunds, SwapDiffs(env, height).siafunds)
      && next.delayed == CommitAll(mid.delayed, MaintenanceDiffs(mid, id, b, height, o).delayed)
      && next.pool == mid.pool
  {
    hide BlockValid, Inv, TxnsDiffs, Tracked;
    var mid := AfterTxns(env, l, b, height);
    GeneratesApplyBlock(env, l, h, id, b, height, o);
    NextLedger(env, l, h, id, b, height, o);
    assert Elements(o.expired) <= mid.contracts.Keys by {
      forall c | c in o.expired ensures c in mid.contracts { assert c in ExpiringIDs(mid, height); }
    }
    ClosingFits(mid.contracts, o.expired);
  }

  // The bucket holds exactly these outputs of the contract, each under its index and all of one
  // kind.
  ghost predicate Settles(delayed: map<(nat, Hash), SiacoinOutput>, maturity: nat, x: Hash, valid: bool, outs: seq<SiacoinOutput>)
  {
    forall v: bool, i: nat {:trigger PayoutKey(maturity, x, v, i)} ::
      var k := PayoutKey(maturity, x, v, i);
      && (k in delayed <==> v == valid && i < |outs|)
      && (k in delayed ==> delayed[k] == outs[i])
  }

  // What a block does to a contract with these terms. Proven, it pays its valid outputs; otherwise
  // its missed ones at the end of its window, and until then it stays open and pays nothing.
  ghost predicate Fate(next: Ledger, height: nat, x: Hash, formed: FileContract, r: Option<FileContractRevision>, live: bool, proven: bool)
  {
    var maturity := height + MATURITY_DELAY;
    if proven then
      x !in next.contracts && Settles(next.delayed, maturity, x, true, ValidOutputs(formed, r))
    else if live && WindowEnd(formed, r) == height then
      x !in next.contracts && Settles(next.delayed, maturity, x, false, MissedOutputs(formed, r))
    else
      && (x in next.contracts <==> live)
      && (live ==> HasTerms(next.contracts[x], formed, r))
      && Settles(next.delayed, maturity, x, false, [])
  }

  ghost predicate LiveIn(l: Ledger, ts: seq<Transaction>, x: Hash)
  {
    x in l.contracts || x in Formed(ts)
  }

  // What is due of contract x: the valid outputs if it is proven, the missed ones if it expires.
  ghost predicate PaidOut(delayed: map<(nat, Hash), SiacoinOutput>, k: (nat, Hash), v: bool, i: nat,
                          proven: bool, valid: seq<SiacoinOutput>, expired: bool, missed: seq<SiacoinOutput>)
  {
    && (k in delayed <==> if v then proven && i < |valid| else expired && i < |missed|)
    && (k in delayed ==> delayed[k] == if v then valid[i] else missed[i])
  }

  lemma StepPayout(env: Env, l: Ledger, h: History, id: Hash, b: Block, height: nat, o: Order, x: Hash, v: bool, i: nat)
    requires GoodStep(env, l, h, id, b, height) && OrderOK(AfterTxns(env, l, b, height), height, o)
    ensures PaidOut(ApplyBlock(env, l, id, b, height).delayed, PayoutKey(height + MATURITY_DELAY, x, v, i), v, i,
      x in Proven(b.transactions), ValidOutputs(ContractContent(l, x), LastRevision(b.transactions, x)),
      x in o.expired, StoredContract(AfterTxns(env, l, b, height).contracts, x).missedProofOutputs)
  {
    hide TxnsDiffs, Tracked, MaintenanceDiffs, CommitAll, TxnsHistory, LastRevision, Proven, ContractsSound, FundsSound,
      GenesisClaims, ValidOutputs, OrderOK, BlockValid;
    var widened := OpenBucket(l, height + MATURITY_DELAY);
    var mid, g := AfterTxns(env, l, b, height), TxnsHistory(env, widened, h, b.transactions, height);
    NextParts(env, l, h, id, b, height, o);
    TxnsStage(env, l, h, b, height);
    assert Tracked(widened, h) by { SameTracked(l, widened, h); }
    assert PayoutKey(height + MATURITY_DELAY, x, v, i) !in l.delayed by { assert !BucketDue(height + MATURITY_DELAY, Height(l)); }
    assert TxnsValid(env, widened, b.transactions, height) by { ValidOnWidened(env, l, b, height); }
    PayoutsAfter(env, widened, h, b.transactions, height, x, v, i);
    UpkeepPayout(mid, g, id, b, height, o, x, v, i);
  }

  lemma ValidOnWidened(env: Env, l: Ledger, b: Block, height: nat)
    requires BlockValid(env, l, b, height)
    ensures TxnsValid(env, OpenBucket(l, height + MATURITY_DELAY), b.transactions, height)
  {
  }

  lemma FateAssembles(next: Ledger, mid: map<Hash, FileContract>, height: nat, x: Hash, formed: FileContract, r: Option<FileContractRevision>,
                      live: bool, proven: bool, expired: bool, maturity: nat)
    requires x in next.contracts <==> x in mid && !expired
    requires x in next.contracts ==> next.contracts[x] == mid[x]
    requires x in mid <==> live && !proven
    requires x in mid ==> HasTerms(mid[x], formed, r)
    requires expired <==> x in mid && mid[x].windowEnd == height
    requires maturity == height + MATURITY_DELAY
    requires forall v: bool, i: nat :: PaidOut(next.delayed, PayoutKey(maturity, x, v, i), v, i,
              proven, ValidOutputs(formed, r), expired, StoredContract(mid, x).missedProofOutputs)
    ensures Fate(next, height, x, formed, r, live, proven)
  {
  }

  lemma StepFate(env: Env, l: Ledger, h: History, id: Hash, b: Block, height: nat, x: Hash)
    requires GoodStep(env, l, h, id, b, height)
    ensures Fate(ApplyBlock(env, l, id, b, height), height, x, ContractContent(l, x), LastRevision(b.transactions, x),
                 LiveIn(l, b.transactions, x), x in Proven(b.transactions))
  {
    hide TxnsDiffs, Tracked, MaintenanceDiffs, CommitAll, TxnsHistory, LastRevision, Proven, Formed, HasTerms, ContractsSound,
      FundsSound, GenesisClaims, PaidOut, Fate, BlockValid;
    var widened := OpenBucket(l, height + MATURITY_DELAY);
    var mid := AfterTxns(env, l, b, height);
    var o, maturity := SomeOrder(mid, height), height + MATURITY_DELAY;
    NextParts(env, l, h, id, b, height, o);
    assert Tracked(widened, h) by { SameTracked(l, widened, h); }
    assert TxnsValid(env, widened, b.transactions, height) by { ValidOnWidened(env, l, b, height); }
    ContractsAfter(env, widened, h, b.transactions, height, x);
    assert x in o.expired <==> x in ExpiringIDs(mid, height);
    forall v: bool, i: nat
      ensures PaidOut(ApplyBlock(env, l, id, b, height).delayed, PayoutKey(maturity, x, v, i), v, i,
        x in Proven(b.transactions), ValidOutputs(ContractContent(l, x), LastRevision(b.transactions, x)),
        x in o.expired, StoredContract(mid.contracts, x).missedProofOutputs)
    {
      StepPayout(env, l, h, id, b, height, o, x, v, i);
    }
    FateAssembles(ApplyBlock(env, l, id, b, height), mid.contracts, height, x, ContractContent(l, x), LastRevision(b.transactions, x),
                  LiveIn(l, b.transactions, x), x in Proven(b.transactions), x in o.expired, maturity);
  }

  lemma SameTracked(l: Ledger, m: Ledger, h: History)
    requires Tracked(l, h) && m.siacoins == l.siacoins && m.contracts == l.contracts && m.siafunds == l.siafunds && m.delayed == l.delayed
    ensures Tracked(m, h)
  {
  }

  // The rest of the bucket a block opens: the claims of the siafund outputs it spends and its own
  // payouts.
  lemma StepOthers(env: Env, l: Ledger, h: History, id: Hash, b: Block, height: nat, x: Hash)
    requires GoodStep(env, l, h, id, b, height) && !x.StorageProofHash?
    ensures var m, k := ApplyBlock(env, l, id, b, height).delayed, (height + MATURITY_DELAY, x);
      && (k in m <==> (x.ClaimHash? && x.siafund in SpentFundIDs(b.transactions)) ||
                      (x.MinerPayoutHash? && x.blockID == id && x.index < |b.minerPayouts|))
      && (k in m && x.ClaimHash? ==> k in AfterTxns(env, l, b, height).delayed && m[k] == AfterTxns(env, l, b, height).delayed[k])
      && (k in m && x.MinerPayoutHash? ==> m[k] == b.minerPayouts[x.index])
  {
    hide TxnsDiffs, Tracked, MaintenanceDiffs, CommitAll, TxnsHistory, ContractsSound, FundsSound, GenesisClaims, OrderOK, BlockValid,
      SpentFundIDs;
    var widened := OpenBucket(l, height + MATURITY_DELAY);
    var mid, g := AfterTxns(env, l, b, height), TxnsHistory(env, widened, h, b.transactions, height);
    var o := SomeOrder(mid, height);
    NextParts(env, l, h, id, b, height, o);
    TxnsStage(env, l, h, b, height);
    SameTracked(l, widened, h);
    ValidOnWidened(env, l, b, height);
    assert (height + MATURITY_DELAY, x) !in l.delayed by { assert !BucketDue(height + MATURITY_DELAY, Height(l)); }
    OthersAfter(env, widened, h, b.transactions, height, x);
    UpkeepOther(mid, g, id, b, height, o, x);
  }

  // ---------------------------------------------------------------- whole chains

  // The last revision of a contract on the chain of a block.
  ghost function ChainRevision(env: Env, id: Hash, x: Hash): Option<FileContractRevision>
    requires Rooted(env, id)
  {
    if id == GenesisID(env) then None else
      Later(ChainRevision(env, id.block.parentID, x), LastRevision(id.block.transactions, x))
  }

  lemma {:induction false} FormedIsFresh(env: Env, l: Ledger, h: History, ts: seq<Transaction>, height: nat, x: Hash)
    requires Tracked(l, h) && TxnsValid(env, l, ts, height) && x in Formed(ts)
    ensures x !in h.contracts && x.FileContractHash? && x.index < |x.txn.fileContracts|
  {
    hide TxnDiffs, Applicable, OriginsOK;
    var n := |ts| - 1;
    LastStep(env, l, h, ts, height);
    if x in Formed(ts[..n]) {
      FormedIsFresh(env, l, h, ts[..n], height, x);
    } else {
      HistoryNames(env, l, h, ts[..n], height);
      FreshIDs(env, CommitSet(l, TxnsDiffs(env, l, ts[..n], height)), TxnsHistory(env, l, h, ts[..n], height), ts[n].core);
    }
  }

  ghost predicate IsContractID(x: Hash) { x.FileContractHash? && x.index < |x.txn.fileContracts| }

  // What the ledger of a chain says of a contract.
  ghost predicate TermsHold(l: Ledger, h: History, x: Hash, r: Option<FileContractRevision>)
  {
    && (x in l.contracts ==> IsContractID(x) && HasTerms(l.contracts[x], AsFormed(x), r))
    && (r.Some? ==> x in h.contracts)
  }

  lemma {:induction false} ProvenIsLive(env: Env, l: Ledger, h: History, ts: seq<Transaction>, height: nat, x: Hash)
    requires Tracked(l, h) && TxnsValid(env, l, ts, height) && x in Proven(ts)
    ensures LiveIn(l, ts, x)
  {
    hide TxnDiffs, Applicable, Tracked;
    var n := |ts| - 1;
    LastStep(env, l, h, ts, height);
    if x in Proven(ts[..n]) {
      ProvenIsLive(env, l, h, ts[..n], height, x);
    } else {
      ContractsAfter(env, l, h, ts[..n], height, x);
      ConsumedIsLive(env, CommitSet(l, TxnsDiffs(env, l, ts[..n], height)), ts[n].core);
    }
  }

  // Terms read through an earlier revision.
  lemma FateOn(next: Ledger, height: nat, x: Hash, before: FileContract, q: Option<FileContractRevision>, r: Option<FileContractRevision>,
               live: bool, proven: bool)
    requires Fate(next, height, x, before, r, live, proven) && (proven ==> live)
    requires live ==> HasTerms(before, AsFormed(x), q)
    ensures Fate(next, height, x, AsFormed(x), Later(q, r), live, proven)
    ensures x in next.contracts ==> live && HasTerms(next.contracts[x], AsFormed(x), Later(q, r))
  {
    hide Settles;
    if live && x in next.contracts {
      TermsOn(AsFormed(x), before, next.contracts[x], q, r);
    }
  }

  // A contract the block finds or forms reads, before the block's own revisions, by its terms.
  lemma ContentTerms(env: Env, l: Ledger, h: History, ts: seq<Transaction>, height: nat, x: Hash, r: Option<FileContractRevision>)
    requires Tracked(l, h) && TxnsValid(env, l, ts, height) && TermsHold(l, h, x, r)
    ensures LiveIn(l, ts, x) ==> IsContractID(x) && HasTerms(ContractContent(l, x), AsFormed(x), r)
    ensures x in Proven(ts) ==> LiveIn(l, ts, x)
    ensures Later(r, LastRevision(ts, x)).Some? ==> x in TxnsHistory(env, l, h, ts, height).contracts
  {
    hide Tracked, TxnsValid, Proven, Formed, LastRevision, TxnsHistory;
    ContractsAfter(env, l, h, ts, height, x);
    TxnsHistoryGrows(env, l, h, ts, height);
    if x in Formed(ts) {
      FormedIsFresh(env, l, h, ts, height, x);
    }
    if x in Proven(ts) {
      ProvenIsLive(env, l, h, ts, height, x);
    }
  }

  lemma HistoryContracts(env: Env, l: Ledger, h: History, id: Hash, b: Block, height: nat)
    ensures HistoryNext(env, l, h, id, b, height).contracts ==
            TxnsHistory(env, OpenBucket(l, height + MATURITY_DELAY), h, b.transactions, height).contracts
  {
    hide TxnsHistory, AfterTxns;
  }

  lemma StepTerms(env: Env, l: Ledger, h: History, id: Hash, b: Block, height: nat, x: Hash, r: Option<FileContractRevision>)
    requires GoodStep(env, l, h, id, b, height) && TermsHold(l, h, x, r)
    ensures TermsHold(ApplyBlock(env, l, id, b, height), HistoryNext(env, l, h, id, b, height), x, Later(r, LastRevision(b.transactions, x)))
    ensures Fate(ApplyBlock(env, l, id, b, height), height, x, AsFormed(x), Later(r, LastRevision(b.transactions, x)),
                 LiveIn(l, b.transactions, x), x in Proven(b.transactions))
  {
    hide TxnsDiffs, Tracked, TxnsHistory, LastRevision, Proven, LiveIn, ContractsSound, FundsSound, GenesisClaims, BlockValid,
      Fate, BucketsExact, AfterTxns, HistoryNext, TxnsValid, HasTerms, ContractContent;
    var widened := OpenBucket(l, height + MATURITY_DELAY);
    var ts, next := b.transactions, ApplyBlock(env, l, id, b, height);
    StepFate(env, l, h, id, b, height, x);
    SameTracked(l, widened, h);
    ValidOnWidened(env, l, b, height);
    SameContent(l, widened, ts, x);
    ContentTerms(env, widened, h, ts, height, x, r);
    HistoryContracts(env, l, h, id, b, height);
    FateOn(next, height, x, ContractContent(l, x), r, LastRevision(ts, x), LiveIn(l, ts, x), x in Proven(ts));
  }

  lemma SameContent(l: Ledger, m: Ledger, ts: seq<Transaction>, x: Hash)
    requires m.contracts == l.contracts
    ensures ContractContent(m, x) == ContractContent(l, x) && LiveIn(m, ts, x) == LiveIn(l, ts, x)
  {
  }

  lemma {:induction false} ChainTerms(env: Env, id: Hash, x: Hash)
    requires EnvOK(env) && Rooted(env, id) && ValidChain(env, id)
    ensures TermsHold(LedgerOf(env, id), HistoryOf(env, id), x, ChainRevision(env, id, x))
  {
    hide TermsHold, GoodStep, LastRevision, Later;
    if id == GenesisID(env) {
      NoTerms(env, x);
    } else {
      var p := id.block.parentID;
      ChainTerms(env, p, x);
      ParentReady(env, id);
      StepTerms(env, LedgerOf(env, p), HistoryOf(env, p), id, id.block, HeightOf(env, id), x, ChainRevision(env, p, x));
    }
  }

  lemma NoTerms(env: Env, x: Hash)
    ensures TermsHold(GenesisLedger(env), GenesisHistory(env), x, None)
  {
  }

  // Every open contract of a valid chain reads as its id says it was formed or, once revised, has
  // each field of the last revision on the chain and the payout it was formed with.
  lemma ContractTerms(env: Env, id: Hash, x: Hash)
    requires EnvOK(env) && Rooted(env, id) && ValidChain(env, id) && x in LedgerOf(env, id).contracts
    ensures x.FileContractHash? && x.index < |x.txn.fileContracts|
    ensures HasTerms(LedgerOf(env, id).contracts[x], x.txn.fileContracts[x.index], ChainRevision(env, id, x))
  {
    ChainTerms(env, id, x);
  }

  // What a block of a valid chain does to a contract, in terms of how it was formed and of its last
  // revision on the chain.
  lemma ContractFate(env: Env, id: Hash, x: Hash)
    requires EnvOK(env) && Rooted(env, id) && ValidChain(env, id) && id != GenesisID(env)
    ensures var ts := id.block.transactions;
      Fate(LedgerOf(env, id), HeightOf(env, id), x, AsFormed(x), ChainRevision(env, id, x),
           LiveIn(LedgerOf(env, id.block.parentID), ts, x), x in Proven(ts))
  {
    hide TermsHold, GoodStep, LastRevision, Later, Fate, LiveIn, Proven;
    var p := id.block.parentID;
    ChainTerms(env, p, x);
    ParentReady(env, id);
    StepTerms(env, LedgerOf(env, p), HistoryOf(env, p), id, id.block, HeightOf(env, id), x, ChainRevision(env, p, x));
  }
}
