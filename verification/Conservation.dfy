/**
 The sums the consistency checks compare: a valid transaction moves coins between the unspent
 outputs, the delayed outputs, the open contracts and the siafund claims, and destroys exactly
 its miner fees.
 */
module Conservation {
  import opened Types
  import opened Sums
  import opened Diffs
  import opened Money
  import opened Ledgers
  import opened Validity
  import opened Tracking

  // What a siafund output is owed, the way the supply check computes it.
  function Claim(pool: nat): SiafundOutput -> nat
  {
    (o: SiafundOutput) => Sub(pool, o.claimStart) * o.value / 10000
  }

  // All the siacoins countable in a ledger.
  ghost function Supply(l: Ledger): nat
  {
    SumMap(l.delayed, Value) + SumMap(l.siacoins, Value) + SumMap(l.contracts, ValidSum) + SumMap(l.siafunds, Claim(l.pool))
  }

  ghost predicate FundSound(o: SiafundOutput, pool: nat)
  {
    o.claimStart % 10000 == 0 && o.claimStart <= pool && o.value > 0
  }

  // The pool and every claim start are multiples of the number of siafunds.
  ghost predicate FundsSound(m: map<Hash, SiafundOutput>, pool: nat)
  {
    && pool % 10000 == 0
    && (forall id :: id in m ==> FundSound(m[id], pool))
  }

  ghost predicate ContractSound(c: FileContract, height: nat)
  {
    height < c.windowEnd && ValidSum(c) == MissedSum(c) && c.payout > 0
  }

  // Every open contract expires later and pays the same whether or not its proof arrives.
  ghost predicate ContractsSound(m: map<Hash, FileContract>, height: nat)
  {
    forall id :: id in m ==> ContractSound(m[id], height)
  }

  // Dividing then multiplying, as spending does, is multiplying then dividing, as the check does.
  lemma ClaimForms(pool: nat, o: SiafundOutput)
    requires pool % 10000 == 0 && FundSound(o, pool)
    ensures ClaimPortion(pool, o) == Claim(pool)(o)
  {
    var n := (pool - o.claimStart) / 10000;
    assert pool - o.claimStart == n * 10000;
    assert (pool - o.claimStart) * o.value == (n * o.value) * 10000;
    DivideMultiple(n * o.value);
  }

  lemma DivideMultiple(x: nat)
    ensures x * 10000 / 10000 == x
  {
  }

  lemma ClaimGrows(pool: nat, k: nat, o: SiafundOutput)
    requires pool % 10000 == 0 && FundSound(o, pool)
    ensures Claim(pool + k * 10000)(o) == Claim(pool)(o) + k * o.value
  {
    var n := (pool - o.claimStart) / 10000;
    assert pool - o.claimStart == n * 10000;
    assert (pool - o.claimStart) * o.value == (n * o.value) * 10000;
    assert (pool + k * 10000 - o.claimStart) * o.value == (n * o.value + k * o.value) * 10000;
    DivideMultiple(n * o.value);
    DivideMultiple(n * o.value + k * o.value);
  }

  // When the pool grows, the claims grow by the siafunds' share of it.
  lemma ClaimsGrow(m: map<Hash, SiafundOutput>, pool: nat, k: nat)
    requires FundsSound(m, pool)
    ensures SumMap(m, Claim(pool + k * 10000)) == SumMap(m, Claim(pool)) + k * SumMap(m, FundValue)
  {
    forall id | id in m ensures Claim(pool + k * 10000)(m[id]) == Claim(pool)(m[id]) + k * FundValue(m[id]) {
      ClaimGrows(pool, k, m[id]);
    }
    SumMapLinear(m, Claim(pool), Claim(pool + k * 10000), FundValue, k);
  }

  lemma ClaimsGrowByTax(m: map<Hash, SiafundOutput>, pool: nat, tax: nat)
    requires FundsSound(m, pool) && tax % 10000 == 0
    ensures SumMap(m, Claim(pool + tax)) == SumMap(m, Claim(pool)) + tax / 10000 * SumMap(m, FundValue)
  {
    var k := tax / 10000;
    assert k * 10000 == tax;
    ClaimsGrow(m, pool, k);
  }

  // ---------------------------------------------------------------- siacoins

  lemma SiacoinBalance(m: map<Hash, SiacoinOutput>, c: TxnCore)
    requires var ds := SpendSiacoins(m, c.siacoinInputs) + CreateSiacoins(c, |c.siacoinOutputs|);
      Fits(m, ds) && Records(m, ds, Itself)
    ensures var ds := SpendSiacoins(m, c.siacoinInputs) + CreateSiacoins(c, |c.siacoinOutputs|);
      SumMap(CommitAll(m, ds), Value) + SumSeq(c.siacoinInputs, InputValue(m)) ==
      SumMap(m, Value) + SumSeq(c.siacoinOutputs, Value)
  {
    var spends, creates := SpendSiacoins(m, c.siacoinInputs), CreateSiacoins(c, |c.siacoinOutputs|);
    RecordsView(m, spends + creates, Value);
    Balance(m, spends + creates, Value);
    AddedAppend(spends, creates, Value);
    OneSided(spends, Value, c.siacoinInputs, InputValue(m));
    OneSided(creates, Value, c.siacoinOutputs, Value);
  }

  // ---------------------------------------------------------------- contracts

  // What the contracts with these ids pay when they close.
  function ClosingTotal(m: map<Hash, FileContract>, ids: seq<Hash>, valid: bool): nat
  {
    if ids == [] then 0 else
      ClosingTotal(m, ids[..|ids| - 1], valid) + SumSeq(ProofOutputs(StoredContract(m, ids[|ids| - 1]), valid), Value)
  }

  lemma {:induction false} RevisionsBalance(l: Ledger, rs: seq<FileContractRevision>)
    requires forall i :: 0 <= i < |rs| ==> RevisesContract(l, rs[i])
    ensures Added(ReviseContracts(l.contracts, rs), ValidSum) == Removed(ReviseContracts(l.contracts, rs), ValidSum)
  {
    if rs != [] {
      var n := |rs| - 1;
      var front := ReviseContracts(l.contracts, rs[..n]);
      RevisionsBalance(l, rs[..n]);
      assert RevisesContract(l, rs[n]);
      var id := rs[n].parentID;
      var c := l.contracts[id];
      AddedAppend(front, [Diff(false, id, c), Diff(true, id, Revised(c, rs[n]))], ValidSum);
      PairBalance(id, c, Revised(c, rs[n]), ValidSum);
    }
  }

  lemma PairBalance<K, V>(k: K, v: V, w: V, f: V -> nat)
    ensures var pair := [Diff(false, k, v), Diff(true, k, w)]; Added(pair, f) == f(w) && Removed(pair, f) == f(v)
  {
    var pair := [Diff(false, k, v), Diff(true, k, w)];
    assert pair[..1] == [Diff(false, k, v)];
    assert Added(pair[..1], f) == 0 && Removed(pair[..1], f) == f(v) by { assert pair[..1][..0] == []; }
  }

  lemma {:induction false} CloseBalance(m: map<Hash, FileContract>, ids: seq<Hash>)
    ensures Removed(CloseContracts(m, ids), ValidSum) == ClosingTotal(m, ids, true)
    ensures Added(CloseContracts(m, ids), ValidSum) == 0
  {
    if ids != [] {
      var n := |ids| - 1;
      assert CloseContracts(m, ids)[..n] == CloseContracts(m, ids[..n]);
      CloseBalance(m, ids[..n]);
    }
  }

  lemma PayoutsOfOne(id: Hash, valid: bool, outs: seq<SiacoinOutput>, maturity: nat)
    ensures Added(ContractPayouts(id, valid, outs, maturity), Value) == SumSeq(outs, Value)
  {
    OneSided(ContractPayouts(id, valid, outs, maturity), Value, outs, Value);
  }

  lemma {:induction false} ClosingBalance(m: map<Hash, FileContract>, ids: seq<Hash>, valid: bool, maturity: nat)
    ensures Added(ClosingPayouts(m, ids, valid, maturity), Value) == ClosingTotal(m, ids, valid)
  {
    if ids != [] {
      var n := |ids| - 1;
      var front := ClosingPayouts(m, ids[..n], valid, maturity);
      var outs := ProofOutputs(StoredContract(m, ids[n]), valid);
      ClosingBalance(m, ids[..n], valid, maturity);
      AddedAppend(front, ContractPayouts(ids[n], valid, outs, maturity), Value);
      PayoutsOfOne(ids[n], valid, outs, maturity);
    }
  }

  lemma ContractBalance(l: Ledger, c: TxnCore)
    requires Fits(l.contracts, ContractDiffs(l.contracts, c)) && Records(l.contracts, ContractDiffs(l.contracts, c), Itself)
    requires forall i :: 0 <= i < |c.fileContractRevisions| ==> RevisesContract(l, c.fileContractRevisions[i])
    ensures SumMap(CommitAll(l.contracts, ContractDiffs(l.contracts, c)), ValidSum) +
            ClosingTotal(l.contracts, ProvenIDs(c.storageProofs), true) ==
            SumMap(l.contracts, ValidSum) + SumSeq(c.fileContracts, ValidSum)
  {
    var m := l.contracts;
    var creates := CreateContracts(c, |c.fileContracts|);
    var revises := ReviseContracts(m, c.fileContractRevisions);
    var closes := CloseContracts(m, ProvenIDs(c.storageProofs));
    RecordsView(m, ContractDiffs(m, c), ValidSum);
    Balance(m, ContractDiffs(m, c), ValidSum);
    AddedAppend(creates + revises, closes, ValidSum);
    AddedAppend(creates, revises, ValidSum);
    OneSided(creates, ValidSum, c.fileContracts, ValidSum);
    RevisionsBalance(l, c.fileContractRevisions);
    CloseBalance(m, ProvenIDs(c.storageProofs));
  }

  // A contract's payout is what it pays its parties and the tax on it.
  lemma {:induction false} PayoutSplits(cs: seq<FileContract>, height: nat)
    requires forall i :: 0 <= i < |cs| ==> NewContractOK(cs[i], height)
    ensures SumSeq(cs, Payout) == SumSeq(cs, ValidSum) + TaxTotal(height, cs)
  {
    if cs != [] {
      PayoutSplits(cs[..|cs| - 1], height);
      assert NewContractOK(cs[|cs| - 1], height);
    }
  }

  lemma {:induction false} TaxesAreMultiples(cs: seq<FileContract>, height: nat)
    ensures TaxTotal(height, cs) % 10000 == 0
  {
    if cs != [] {
      TaxesAreMultiples(cs[..|cs| - 1], height);
    }
  }

  // ---------------------------------------------------------------- siafunds and claims

  lemma FundBalance(env: Env, l: Ledger, c: TxnCore, pool: nat)
    requires var ds := SpendSiafunds(env, l, c.siafundInputs) + CreateSiafunds(c, |c.siafundOutputs|, pool);
      Fits(l.siafunds, ds) && Records(l.siafunds, ds, Holding)
    ensures var ds := SpendSiafunds(env, l, c.siafundInputs) + CreateSiafunds(c, |c.siafundOutputs|, pool);
      SumMap(CommitAll(l.siafunds, ds), FundValue) + SumSeq(c.siafundInputs, FundInputValue(env, l)) ==
      SumMap(l.siafunds, FundValue) + SumSeq(c.siafundOutputs, FundValue)
  {
    var spends, creates := SpendSiafunds(env, l, c.siafundInputs), CreateSiafunds(c, |c.siafundOutputs|, pool);
    RecordsCoarser(l.siafunds, spends + creates, Holding, FundValue);
    Balance(l.siafunds, spends + creates, FundValue);
    AddedAppend(spends, creates, FundValue);
    OneSided(spends, FundValue, c.siafundInputs, FundInputValue(env, l));
    OneSided(creates, FundValue, c.siafundOutputs, FundValue);
  }

  function ClaimPaid(env: Env, l: Ledger, pool: nat): SiafundInput -> nat
  {
    (i: SiafundInput) => ClaimPortion(pool, ReadSiafund(env, l, i.parentID))
  }

  lemma RecordsClaims(m: map<Hash, SiafundOutput>, ds: seq<Diff<Hash, SiafundOutput>>, pool: nat)
    requires Records(m, ds, Holding)
    ensures Records(m, ds, Claim(pool))
  {
    RecordsCoarser(m, ds, Holding, Claim(pool));
  }

  lemma SpentClaims(env: Env, l: Ledger, ins: seq<SiafundInput>, pool: nat)
    requires FundsSound(l.siafunds, pool)
    requires forall i :: 0 <= i < |ins| ==> ins[i].parentID in l.siafunds
    ensures Removed(SpendSiafunds(env, l, ins), Claim(pool)) == SumSeq(ins, ClaimPaid(env, l, pool))
    ensures Added(SpendSiafunds(env, l, ins), Claim(pool)) == 0
  {
    var spends := SpendSiafunds(env, l, ins);
    forall i | 0 <= i < |spends| ensures Claim(pool)(spends[i].value) == ClaimPaid(env, l, pool)(ins[i]) {
      assert FundSound(l.siafunds[ins[i].parentID], pool);
      ClaimForms(pool, spends[i].value);
    }
    OneSided(spends, Claim(pool), ins, ClaimPaid(env, l, pool));
  }

  lemma CreatedClaims(c: TxnCore, pool: nat)
    ensures Added(CreateSiafunds(c, |c.siafundOutputs|, pool), Claim(pool)) == 0
    ensures Removed(CreateSiafunds(c, |c.siafundOutputs|, pool), Claim(pool)) == 0
  {
    OneSided(CreateSiafunds(c, |c.siafundOutputs|, pool), Claim(pool), c.siafundOutputs, Nothing);
    SumNothing(c.siafundOutputs);
  }

  // Spending siafunds moves their claims out, and new siafunds start with none.
  lemma ClaimBalance(env: Env, l: Ledger, c: TxnCore, pool: nat)
    requires var ds := SpendSiafunds(env, l, c.siafundInputs) + CreateSiafunds(c, |c.siafundOutputs|, pool);
      Fits(l.siafunds, ds) && Records(l.siafunds, ds, Holding)
    requires FundsSound(l.siafunds, pool)
    requires forall i :: 0 <= i < |c.siafundInputs| ==> c.siafundInputs[i].parentID in l.siafunds
    ensures var ds := SpendSiafunds(env, l, c.siafundInputs) + CreateSiafunds(c, |c.siafundOutputs|, pool);
      SumMap(CommitAll(l.siafunds, ds), Claim(pool)) + SumSeq(c.siafundInputs, ClaimPaid(env, l, pool)) ==
      SumMap(l.siafunds, Claim(pool))
  {
    var spends, creates := SpendSiafunds(env, l, c.siafundInputs), CreateSiafunds(c, |c.siafundOutputs|, pool);
    RecordsClaims(l.siafunds, spends + creates, pool);
    Balance(l.siafunds, spends + creates, Claim(pool));
    AddedAppend(spends, creates, Claim(pool));
    SpentClaims(env, l, c.siafundInputs, pool);
    CreatedClaims(c, pool);
  }

  function Nothing(o: SiafundOutput): nat { 0 }

  lemma {:induction false} SumNothing(os: seq<SiafundOutput>)
    ensures SumSeq(os, Nothing) == 0
  {
    if os != [] {
      SumNothing(os[..|os| - 1]);
    }
  }

  // ---------------------------------------------------------------- delayed outputs

  lemma DelayedBalance(env: Env, l: Ledger, c: TxnCore, height: nat)
    requires var ds := TxnDiffs(env, l, c, height).delayed; AllApply(ds) && Fits(l.delayed, ds) && Records(l.delayed, ds, Itself)
    ensures var pool := PoolAfter(l.pool, Height(l), c.fileContracts);
      SumMap(CommitAll(l.delayed, TxnDiffs(env, l, c, height).delayed), Value) ==
      SumMap(l.delayed, Value) + ClosingTotal(l.contracts, ProvenIDs(c.storageProofs), true) +
      SumSeq(c.siafundInputs, ClaimPaid(env, l, pool))
  {
    var maturity := height + MATURITY_DELAY;
    var pool := PoolAfter(l.pool, Height(l), c.fileContracts);
    var payouts := ClosingPayouts(l.contracts, ProvenIDs(c.storageProofs), true, maturity);
    var claims := ClaimPayouts(env, l, pool, c.siafundInputs, maturity);
    RecordsView(l.delayed, payouts + claims, Value);
    Balance(l.delayed, payouts + claims, Value);
    AddedAppend(payouts, claims, Value);
    ClosingBalance(l.contracts, ProvenIDs(c.storageProofs), true, maturity);
    OneSided(claims, Value, c.siafundInputs, ClaimPaid(env, l, pool));
    NothingRemoved(payouts + claims);
  }

  lemma {:induction false} NothingRemoved(ds: seq<DelayedDiff>)
    requires AllApply(ds)
    ensures Removed(ds, Value) == 0
  {
    if ds != [] {
      assert ds[|ds| - 1] in ds;
      assert forall d :: d in ds[..|ds| - 1] ==> d in ds;
      NothingRemoved(ds[..|ds| - 1]);
    }
  }

  // ---------------------------------------------------------------- one transaction

  lemma PoolCommits(pool: nat, height: nat, cs: seq<FileContract>)
    ensures CommitPool(pool, PoolDiffs(pool, height, cs)) == PoolAfter(pool, height, cs)
  {
  }

  // A valid transaction keeps the siafunds sound.
  lemma TxnFundsSound(env: Env, l: Ledger, c: TxnCore, height: nat)
    requires MinimumValues(c) && FundsSound(l.siafunds, l.pool)
    ensures var next := CommitSet(l, TxnDiffs(env, l, c, height)); FundsSound(next.siafunds, next.pool) && l.pool <= next.pool
  {
    var pool := PoolAfter(l.pool, Height(l), c.fileContracts);
    var ds := TxnDiffs(env, l, c, height).siafunds;
    assert pool % 10000 == 0 by { TaxesAreMultiples(c.fileContracts, Height(l)); }
    PoolCommits(l.pool, Height(l), c.fileContracts);
    forall id | id in CommitAll(l.siafunds, ds) ensures FundSound(CommitAll(l.siafunds, ds)[id], pool) {
      Sources(l.siafunds, ds, id);
      if !(id in l.siafunds && CommitAll(l.siafunds, ds)[id] == l.siafunds[id]) {
        var d :| d in ds && d.apply && d.id == id && CommitAll(l.siafunds, ds)[id] == d.value;
        CreatedFund(env, l, c, pool, d);
      }
    }
  }

  // A valid transaction creates as many siafunds as it spends.
  lemma TxnFundCount(env: Env, l: Ledger, h: History, c: TxnCore, height: nat)
    requires Tracked(l, h) && Applicable(env, l, c)
    ensures SumMap(CommitSet(l, TxnDiffs(env, l, c, height)).siafunds, FundValue) == SumMap(l.siafunds, FundValue)
  {
    var ds := TxnDiffs(env, l, c, height).siafunds;
    assert Fits(l.siafunds, ds) && Records(l.siafunds, ds, Holding) by { TxnFits(env, l, h, c, height); }
    FundBalance(env, l, c, PoolAfter(l.pool, Height(l), c.fileContracts));
  }

  lemma CreatedFund(env: Env, l: Ledger, c: TxnCore, pool: nat, d: Diff<Hash, SiafundOutput>)
    requires d in SpendSiafunds(env, l, c.siafundInputs) + CreateSiafunds(c, |c.siafundOutputs|, pool) && d.apply
    requires MinimumValues(c)
    ensures d.value.claimStart == pool && d.value.value > 0
  {
    var creates := CreateSiafunds(c, |c.siafundOutputs|, pool);
    assert d in creates;
    var i :| 0 <= i < |creates| && creates[i] == d;
  }

  // The claims move with the pool and the spent siafunds.
  lemma ClaimsStep(env: Env, l: Ledger, c: TxnCore, tax: nat)
    requires FundsSound(l.siafunds, l.pool) && tax % 10000 == 0
    requires var ds := SpendSiafunds(env, l, c.siafundInputs) + CreateSiafunds(c, |c.siafundOutputs|, l.pool + tax);
      Fits(l.siafunds, ds) && Records(l.siafunds, ds, Holding)
    requires forall i :: 0 <= i < |c.siafundInputs| ==> c.siafundInputs[i].parentID in l.siafunds
    ensures var ds := SpendSiafunds(env, l, c.siafundInputs) + CreateSiafunds(c, |c.siafundOutputs|, l.pool + tax);
      SumMap(CommitAll(l.siafunds, ds), Claim(l.pool + tax)) + SumSeq(c.siafundInputs, ClaimPaid(env, l, l.pool + tax)) ==
      SumMap(l.siafunds, Claim(l.pool)) + tax / 10000 * SumMap(l.siafunds, FundValue)
  {
    hide CommitAll, SumMap, SumSeq, Fits, Records, SpendSiafunds, CreateSiafunds;
    FundsStaySound(l.siafunds, l.pool, l.pool + tax);
    ClaimBalance(env, l, c, l.pool + tax);
    ClaimsGrowByTax(l.siafunds, l.pool, tax);
  }

  lemma TxnClaims(env: Env, l: Ledger, c: TxnCore, height: nat)
    requires var ds := TxnDiffs(env, l, c, height).siafunds; Fits(l.siafunds, ds) && Records(l.siafunds, ds, Holding)
    requires forall i :: 0 <= i < |c.siafundInputs| ==> c.siafundInputs[i].parentID in l.siafunds
    requires FundsSound(l.siafunds, l.pool)
    ensures var pool := PoolAfter(l.pool, Height(l), c.fileContracts);
      SumMap(CommitAll(l.siafunds, TxnDiffs(env, l, c, height).siafunds), Claim(pool)) +
      SumSeq(c.siafundInputs, ClaimPaid(env, l, pool)) ==
      SumMap(l.siafunds, Claim(l.pool)) + TaxTotal(Height(l), c.fileContracts) / 10000 * SumMap(l.siafunds, FundValue)
  {
    hide CommitAll, SumMap, SumSeq, Fits, Records, SpendSiafunds, CreateSiafunds;
    TaxesAreMultiples(c.fileContracts, Height(l));
    ClaimsStep(env, l, c, TaxTotal(Height(l), c.fileContracts));
  }

  // The coins of a ledger with the siafunds counted as if they were all there: the pool in place
  // of the share of it that the counted siafunds have accrued.
  ghost function Net(l: Ledger): int
  {
    Supply(l) + l.pool - l.pool / 10000 * SumMap(l.siafunds, FundValue)
  }

  // The net coins are the supply when there are 10000 siafunds, or no pool to share.
  lemma NetIsSupply(l: Ledger)
    requires l.pool % 10000 == 0
    ensures Supply(l) == Net(l) + l.pool / 10000 * (SumMap(l.siafunds, FundValue) - 10000)
    ensures Supply(l) == Net(l) <==> l.pool == 0 || SumMap(l.siafunds, FundValue) == 10000
  {
    var k, n := l.pool / 10000, SumMap(l.siafunds, FundValue);
    assert k * (n - 10000) == k * n - k * 10000;
    if k != 0 && n != 10000 {
      assert k * (n - 10000) != 0;
    }
  }

  // A transaction that trades its fees and the tax for the claims on the tax lowers the net coins
  // by its fees.
  lemma NetStep(l: Ledger, next: Ledger, tax: nat, fees: nat)
    requires l.pool % 10000 == 0 && tax % 10000 == 0 && next.pool == l.pool + tax
    requires SumMap(next.siafunds, FundValue) == SumMap(l.siafunds, FundValue)
    requires Supply(next) + fees + tax == Supply(l) + tax / 10000 * SumMap(l.siafunds, FundValue)
    ensures Net(next) + fees == Net(l)
  {
    var j, k, n := l.pool / 10000, tax / 10000, SumMap(l.siafunds, FundValue);
    assert next.pool / 10000 == j + k;
    assert (j + k) * n == j * n + k * n;
  }

  // A valid transaction destroys exactly its miner fees.
  lemma TxnNet(env: Env, l: Ledger, h: History, c: TxnCore, height: nat)
    requires Tracked(l, h) && Applicable(env, l, c) && FundsSound(l.siafunds, l.pool)
    ensures Net(CommitSet(l, TxnDiffs(env, l, c, height))) + SumSeq(c.minerFees, Fee) == Net(l)
  {
    hide TxnDiffs, Tracked, Applicable, SumMap, SumSeq, FundsSound;
    var tax, next := TaxTotal(Height(l), c.fileContracts), CommitSet(l, TxnDiffs(env, l, c, height));
    TxnSupply(env, l, h, c, height);
    TxnFundCount(env, l, h, c, height);
    TaxesAreMultiples(c.fileContracts, Height(l));
    NetStep(l, next, tax, SumSeq(c.minerFees, Fee));
  }

  lemma TxnSupply(env: Env, l: Ledger, h: History, c: TxnCore, height: nat)
    requires Tracked(l, h) && Applicable(env, l, c) && FundsSound(l.siafunds, l.pool)
    ensures var next, tax := CommitSet(l, TxnDiffs(env, l, c, height)), TaxTotal(Height(l), c.fileContracts);
      && Supply(next) + SumSeq(c.minerFees, Fee) + tax == Supply(l) + tax / 10000 * SumMap(l.siafunds, FundValue)
      && next.pool == l.pool + tax && l.pool % 10000 == 0
  {
    hide SumMap, SumSeq, Fits, Records, CommitAll, SpendSiafunds, CreateSiafunds, ReviseContracts, CloseContracts;
    var d := TxnDiffs(env, l, c, height);
    assert FitsSet(l, d) && RecordsSet(l, d) by { TxnFits(env, l, h, c, height); }
    assert AllApply(d.delayed) by { DelayedShape(env, l, c, height); }
    SiacoinBalance(l.siacoins, c);
    ContractBalance(l, c);
    PayoutSplits(c.fileContracts, Height(l));
    DelayedBalance(env, l, c, height);
    forall i | 0 <= i < |c.siafundInputs| ensures c.siafundInputs[i].parentID in l.siafunds {
      assert SpendsSiafund(env, l, c.siafundInputs[i]);
    }
    TxnClaims(env, l, c, height);
    PoolCommits(l.pool, Height(l), c.fileContracts);
  }

  lemma FundsStaySound(m: map<Hash, SiafundOutput>, pool: nat, grown: nat)
    requires FundsSound(m, pool) && pool <= grown && grown % 10000 == 0
    ensures FundsSound(m, grown)
  {
  }

  // ---------------------------------------------------------------- open contracts

  lemma {:induction false} RevisedContract(l: Ledger, rs: seq<FileContractRevision>, d: Diff<Hash, FileContract>, height: nat)
    requires forall i :: 0 <= i < |rs| ==> RevisesContract(l, rs[i]) && RevisionOK(rs[i], height)
    requires ContractsSound(l.contracts, height)
    requires d in ReviseContracts(l.contracts, rs) && d.apply
    ensures ContractSound(d.value, height + 1)
  {
    var n := |rs| - 1;
    if d in ReviseContracts(l.contracts, rs[..n]) {
      RevisedContract(l, rs[..n], d, height);
    } else {
      assert RevisesContract(l, rs[n]) && RevisionOK(rs[n], height);
    }
  }

  lemma CreatedContract(env: Env, l: Ledger, c: TxnCore, d: Diff<Hash, FileContract>)
    requires Applicable(env, l, c) && ContractsSound(l.contracts, Height(l))
    requires d in ContractDiffs(l.contracts, c) && d.apply
    ensures ContractSound(d.value, Height(l) + 1)
  {
    var creates := CreateContracts(c, |c.fileContracts|);
    var revises := ReviseContracts(l.contracts, c.fileContractRevisions);
    if d in creates {
      var i :| 0 <= i < |creates| && creates[i] == d;
      assert NewContractOK(c.fileContracts[i], Height(l));
    } else if d in revises {
      RevisedContract(l, c.fileContractRevisions, d, Height(l));
    }
  }

  // Contracts stay sound, and none formed or revised in a block expires in it.
  lemma TxnContracts(env: Env, l: Ledger, c: TxnCore, height: nat)
    requires Applicable(env, l, c) && ContractsSound(l.contracts, Height(l))
    ensures ContractsSound(CommitSet(l, TxnDiffs(env, l, c, height)).contracts, Height(l))
  {
    var ds := ContractDiffs(l.contracts, c);
    forall id | id in CommitAll(l.contracts, ds) ensures ContractSound(CommitAll(l.contracts, ds)[id], Height(l)) {
      Sources(l.contracts, ds, id);
      if !(id in l.contracts && CommitAll(l.contracts, ds)[id] == l.contracts[id]) {
        var d :| d in ds && d.apply && d.id == id && CommitAll(l.contracts, ds)[id] == d.value;
        CreatedContract(env, l, c, d);
      }
    }
  }
}
