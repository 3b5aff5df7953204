/**
 No id is ever created twice on one chain.

 A history remembers every id a chain has created and consumed. Because each transaction that
 creates something also consumes something, a consumed id pins down everything made from it, so
 the ids a valid block creates are new and every diff it generates fits.
 */
module Tracking {
  import opened Types
  import opened Sums
  import opened Diffs
  import opened Money
  import opened Ledgers
  import opened Validity

  datatype History = History(
    siacoins: set<Hash>, spent: set<Hash>,
    contracts: set<Hash>, closed: set<Hash>,
    siafunds: set<Hash>, spentFunds: set<Hash>,
    blocks: set<Hash>, swapped: bool)

  ghost predicate InputsSpent(h: History, t: TxnCore)
  {
    forall i :: 0 <= i < |t.siacoinInputs| ==> t.siacoinInputs[i].parentID in h.spent
  }

  ghost predicate FundInputsSpent(h: History, t: TxnCore)
  {
    forall i :: 0 <= i < |t.siafundInputs| ==> t.siafundInputs[i].parentID in h.spentFunds
  }

  // An id exists only if what it was made from has been consumed.
  ghost predicate SiacoinOrigin(h: History, id: Hash)
  {
    match id
    case SiacoinOutputHash(t, _) => InputsSpent(h, t)
    case MinerPayoutHash(b, _) => b in h.blocks
    case StorageProofHash(c, _, _) => c in h.closed
    case ClaimHash(s) => s in h.spentFunds
    case _ => false
  }

  ghost predicate ContractOrigin(h: History, id: Hash)
  {
    match id
    case FileContractHash(t, _) => InputsSpent(h, t)
    case _ => false
  }

  ghost predicate SiafundOrigin(h: History, id: Hash)
  {
    match id
    case SiafundOutputHash(t, _) => FundInputsSpent(h, t)
    case _ => IsAddress(id) && h.swapped
  }

  predicate IsAddress(id: Hash) { id.RawHash? || id.UnlockConditionsHash? }

  ghost predicate OriginsOK(h: History)
  {
    && (forall id {:trigger SiacoinOrigin(h, id)} :: id in h.siacoins ==> SiacoinOrigin(h, id))
    && (forall id {:trigger ContractOrigin(h, id)} :: id in h.contracts ==> ContractOrigin(h, id))
    && (forall id {:trigger SiafundOrigin(h, id)} :: id in h.siafunds ==> SiafundOrigin(h, id))
  }

  // No output id is in two delayed buckets.
  ghost predicate OneBucketEach(delayed: set<(nat, Hash)>)
  {
    forall j, k :: j in delayed && k in delayed && j.1 == k.1 ==> j == k
  }

  // The spendable and the delayed outputs are apart, and together are those created and not spent.
  ghost predicate LiveSiacoins(siacoins: set<Hash>, delayed: set<(nat, Hash)>, created: set<Hash>, spent: set<Hash>)
  {
    && siacoins <= created - spent <= siacoins + Seconds(delayed)
    && (forall k :: k in delayed ==> k.1 in created && k.1 !in spent && k.1 !in siacoins)
    && OneBucketEach(delayed)
    && spent <= created
  }

  ghost predicate Live(live: set<Hash>, created: set<Hash>, gone: set<Hash>)
  {
    live == created - gone && gone <= created
  }

  ghost predicate Tracked(l: Ledger, h: History)
  {
    && OriginsOK(h)
    && LiveSiacoins(l.siacoins.Keys, l.delayed.Keys, h.siacoins, h.spent)
    && Live(l.contracts.Keys, h.contracts, h.closed)
    && Live(l.siafunds.Keys, h.siafunds, h.spentFunds)
  }

  // ---------------------------------------------------------------- one transaction

  ghost function InputIDs(t: TxnCore): set<Hash>
  {
    set i | 0 <= i < |t.siacoinInputs| :: t.siacoinInputs[i].parentID
  }

  ghost function FundInputIDs(t: TxnCore): set<Hash>
  {
    set i | 0 <= i < |t.siafundInputs| :: t.siafundInputs[i].parentID
  }

  ghost function OutputIDs(t: TxnCore): set<Hash>
  {
    set i | 0 <= i < |t.siacoinOutputs| :: SiacoinOutputHash(t, i)
  }

  ghost function ContractIDs(t: TxnCore): set<Hash>
  {
    set i | 0 <= i < |t.fileContracts| :: FileContractHash(t, i)
  }

  ghost function FundOutputIDs(t: TxnCore): set<Hash>
  {
    set i | 0 <= i < |t.siafundOutputs| :: SiafundOutputHash(t, i)
  }

  ghost function Elements(ids: seq<Hash>): set<Hash> { set id | id in ids }

  ghost function Seconds(keys: set<(nat, Hash)>): set<Hash> { set k | k in keys :: k.1 }

  ghost function TxnHistory(env: Env, l: Ledger, h: History, t: TxnCore, height: nat): History
  {
    h.(siacoins := h.siacoins + OutputIDs(t) + Seconds(Ids(TxnDiffs(env, l, t, height).delayed)),
       spent := h.spent + InputIDs(t),
       contracts := h.contracts + ContractIDs(t),
       closed := h.closed + Elements(ProvenIDs(t.storageProofs)),
       siafunds := h.siafunds + FundOutputIDs(t),
       spentFunds := h.spentFunds + FundInputIDs(t))
  }

  // A valid transaction with siacoin outputs or contracts spends a siacoin output, and one with
  // siafund outputs spends a siafund output.
  lemma Funded(env: Env, l: Ledger, c: TxnCore)
    requires Applicable(env, l, c)
    ensures c.siacoinOutputs != [] || c.fileContracts != [] ==> c.siacoinInputs != []
    ensures c.siafundOutputs != [] ==> c.siafundInputs != []
  {
    if c.siacoinOutputs != [] {
      SumSeqMember(c.siacoinOutputs, Value, 0);
    }
    if c.fileContracts != [] {
      SumSeqMember(c.fileContracts, Payout, 0);
    }
    if c.siafundOutputs != [] {
      SumSeqMember(c.siafundOutputs, FundValue, 0);
    }
  }

  // What a valid transaction consumes is there.
  lemma ConsumedIsLive(env: Env, l: Ledger, c: TxnCore)
    requires Applicable(env, l, c)
    ensures InputIDs(c) <= l.siacoins.Keys
    ensures FundInputIDs(c) <= l.siafunds.Keys
    ensures Elements(ProvenIDs(c.storageProofs)) <= l.contracts.Keys
    ensures forall i :: 0 <= i < |c.fileContractRevisions| ==> c.fileContractRevisions[i].parentID in l.contracts
  {
    forall i | 0 <= i < |c.siacoinInputs| ensures c.siacoinInputs[i].parentID in l.siacoins {
      assert SpendsSiacoin(l.siacoins, c.siacoinInputs[i]);
    }
    forall i | 0 <= i < |c.siafundInputs| ensures c.siafundInputs[i].parentID in l.siafunds {
      assert SpendsSiafund(env, l, c.siafundInputs[i]);
    }
    forall i | 0 <= i < |c.fileContractRevisions| ensures c.fileContractRevisions[i].parentID in l.contracts {
      assert RevisesContract(l, c.fileContractRevisions[i]);
    }
    forall i | 0 <= i < |c.storageProofs| ensures c.storageProofs[i].parentID in l.contracts {
      assert ProofOK(env, l, c.storageProofs[i]);
    }
  }

  lemma FreshSiacoins(h: History, c: TxnCore)
    requires OriginsOK(h) && !InputsSpent(h, c)
    ensures OutputIDs(c) !! h.siacoins && ContractIDs(c) !! h.contracts
  {
    forall i: nat ensures SiacoinOutputHash(c, i) !in h.siacoins && FileContractHash(c, i) !in h.contracts {
      assert !SiacoinOrigin(h, SiacoinOutputHash(c, i));
      assert !ContractOrigin(h, FileContractHash(c, i));
    }
  }

  lemma FreshSiafunds(h: History, c: TxnCore)
    requires OriginsOK(h) && !FundInputsSpent(h, c)
    ensures FundOutputIDs(c) !! h.siafunds
  {
    forall i: nat ensures SiafundOutputHash(c, i) !in h.siafunds {
      assert !SiafundOrigin(h, SiafundOutputHash(c, i));
    }
  }

  // The outputs and contracts of a valid transaction have never been created before.
  lemma FreshIDs(env: Env, l: Ledger, h: History, c: TxnCore)
    requires Tracked(l, h) && Applicable(env, l, c)
    ensures OutputIDs(c) !! h.siacoins
    ensures ContractIDs(c) !! h.contracts
    ensures FundOutputIDs(c) !! h.siafunds
  {
    Funded(env, l, c);
    ConsumedIsLive(env, l, c);
    if c.siacoinInputs != [] {
      assert c.siacoinInputs[0].parentID in InputIDs(c);
      FreshSiacoins(h, c);
    } else {
      assert OutputIDs(c) == {} && ContractIDs(c) == {};
    }
    if c.siafundInputs != [] {
      assert c.siafundInputs[0].parentID in FundInputIDs(c);
      FreshSiafunds(h, c);
    } else {
      assert FundOutputIDs(c) == {};
    }
  }

  lemma IdsAppend<K, V>(a: seq<Diff<K, V>>, b: seq<Diff<K, V>>)
    ensures Ids(a + b) == Ids(a) + Ids(b)
  {
    assert forall d :: d in a + b <==> d in a || d in b;
  }

  // What a list of removals followed by a list of additions does.
  lemma RemoveThenInsert<K, V, W>(m: map<K, V>, removals: seq<Diff<K, V>>, additions: seq<Diff<K, V>>, view: V -> W)
    requires AllRemove(removals) && Distinct(removals)
    requires forall d :: d in removals ==> d.id in m && view(m[d.id]) == view(d.value)
    requires AllApply(additions) && Distinct(additions)
    requires forall d :: d in additions ==> d.id !in m
    ensures Fits(m, removals + additions) && Records(m, removals + additions, view)
    ensures CommitAll(m, removals + additions).Keys == m.Keys - Ids(removals) + Ids(additions)
  {
    Removals(m, removals, view);
    var mid := CommitAll(m, removals);
    Insertions(mid, additions);
    RecordsView(mid, additions, view);
    CommitAppend(m, removals, additions);
    FitsAppend(m, removals, additions);
    RecordsAppend(m, removals, additions, view);
  }

  lemma SiacoinsFit(m: map<Hash, SiacoinOutput>, c: TxnCore)
    requires forall i, j :: 0 <= i < j < |c.siacoinInputs| ==> c.siacoinInputs[i].parentID != c.siacoinInputs[j].parentID
    requires InputIDs(c) <= m.Keys && OutputIDs(c) !! m.Keys
    ensures var ds := SpendSiacoins(m, c.siacoinInputs) + CreateSiacoins(c, |c.siacoinOutputs|);
      && Fits(m, ds) && Records(m, ds, Itself)
      && CommitAll(m, ds).Keys == m.Keys - InputIDs(c) + OutputIDs(c)
  {
    var spends, creates := SpendSiacoins(m, c.siacoinInputs), CreateSiacoins(c, |c.siacoinOutputs|);
    assert Ids(spends) == InputIDs(c) by {
      forall i | 0 <= i < |spends| ensures c.siacoinInputs[i].parentID in Ids(spends) { assert spends[i] in spends; }
    }
    assert Ids(creates) == OutputIDs(c) by {
      forall i | 0 <= i < |creates| ensures SiacoinOutputHash(c, i) in Ids(creates) { assert creates[i] in creates; }
    }
    forall d | d in spends ensures d.id in m && m[d.id] == d.value {
      assert d.id in Ids(spends);
    }
    forall d | d in creates ensures d.id !in m {
      assert d.id in Ids(creates);
    }
    RemoveThenInsert(m, spends, creates, Itself);
  }

  // ---------------------------------------------------------------- contracts

  lemma {:induction false} RevisionIDs(m: map<Hash, FileContract>, rs: seq<FileContractRevision>, d: Diff<Hash, FileContract>)
    requires d in ReviseContracts(m, rs)
    ensures exists r :: r in rs && r.parentID == d.id
  {
    var n := |rs| - 1;
    if d in ReviseContracts(m, rs[..n]) {
      RevisionIDs(m, rs[..n], d);
    } else {
      assert rs[n] in rs && d.id == rs[n].parentID;
    }
  }

  lemma {:induction false} RevisionsFit(m: map<Hash, FileContract>, rs: seq<FileContractRevision>)
    requires forall i, j :: 0 <= i < j < |rs| ==> rs[i].parentID != rs[j].parentID
    requires forall i :: 0 <= i < |rs| ==> rs[i].parentID in m
    ensures Fits(m, ReviseContracts(m, rs)) && Records(m, ReviseContracts(m, rs), Itself)
    ensures CommitAll(m, ReviseContracts(m, rs)).Keys == m.Keys
  {
    if rs != [] {
      var n := |rs| - 1;
      var id, front := rs[n].parentID, ReviseContracts(m, rs[..n]);
      RevisionsFit(m, rs[..n]);
      forall d | d in front ensures d.id != id {
        RevisionIDs(m, rs[..n], d);
      }
      Untouched(m, front, id);
      UpdateFits(m, front, id, Revised(m[id], rs[n]));
      assert ReviseContracts(m, rs) == front + [Diff(false, id, m[id]), Diff(true, id, Revised(m[id], rs[n]))];
    }
  }

  // Removing an entry and adding another value under its key is an update.
  lemma UpdateFits<K, V>(m: map<K, V>, front: seq<Diff<K, V>>, k: K, v: V)
    requires Fits(m, front) && Records(m, front, Itself)
    requires k in m && k in CommitAll(m, front) && CommitAll(m, front)[k] == m[k]
    ensures var pair := [Diff(false, k, m[k]), Diff(true, k, v)];
      && Fits(m, front + pair) && Records(m, front + pair, Itself)
      && CommitAll(m, front + pair) == CommitAll(m, front)[k := v]
  {
    var mid := CommitAll(m, front);
    var pair := [Diff(false, k, m[k]), Diff(true, k, v)];
    assert pair[..1] == [pair[0]];
    assert pair[..1][..0] == [];
    assert CommitAll(mid, pair[..1]) == mid - {k};
    assert (mid - {k})[k := v] == mid[k := v];
    CommitAppend(m, front, pair);
    FitsAppend(m, front, pair);
    RecordsAppend(m, front, pair, Itself);
  }

  lemma ClosingFits(m: map<Hash, FileContract>, ids: seq<Hash>)
    requires forall i, j :: 0 <= i < j < |ids| ==> ids[i] != ids[j]
    requires Elements(ids) <= m.Keys
    ensures Fits(m, CloseContracts(m, ids)) && Records(m, CloseContracts(m, ids), Itself)
    ensures CommitAll(m, CloseContracts(m, ids)) == m - Elements(ids)
  {
    var ds := CloseContracts(m, ids);
    assert Ids(ds) == Elements(ids) by {
      forall i | 0 <= i < |ds| ensures ids[i] in Ids(ds) { assert ds[i] in ds; }
    }
    forall d | d in ds ensures d.id in m && d.value == m[d.id] {
      assert d.id in Ids(ds);
    }
    Removals(m, ds, Itself);
  }

  lemma TouchedDistinct(c: TxnCore)
    requires NoRepeats(c)
    ensures var ids := ProvenIDs(c.storageProofs); forall i, j :: 0 <= i < j < |ids| ==> ids[i] != ids[j]
    ensures forall i, j :: 0 <= i < j < |c.fileContractRevisions| ==>
              c.fileContractRevisions[i].parentID != c.fileContractRevisions[j].parentID
  {
    var n := |c.storageProofs|;
    forall i, j | 0 <= i < j < |c.fileContractRevisions|
      ensures c.fileContractRevisions[i].parentID != c.fileContractRevisions[j].parentID
    {
      assert TouchedIDs(c)[n + i] != TouchedIDs(c)[n + j];
    }
    forall i, j | 0 <= i < j < n
      ensures c.storageProofs[i].parentID != c.storageProofs[j].parentID
    {
      assert TouchedIDs(c)[i] != TouchedIDs(c)[j];
    }
  }

  function ContractDiffs(m: map<Hash, FileContract>, c: TxnCore): seq<Diff<Hash, FileContract>>
  {
    CreateContracts(c, |c.fileContracts|) + ReviseContracts(m, c.fileContractRevisions) +
    CloseContracts(m, ProvenIDs(c.storageProofs))
  }

  // A valid transaction either closes contracts or creates and revises them, and its diffs fit.
  lemma ContractsFit(m: map<Hash, FileContract>, c: TxnCore)
    requires StorageProofRules(c) && NoRepeats(c)
    requires forall i :: 0 <= i < |c.fileContractRevisions| ==> c.fileContractRevisions[i].parentID in m
    requires Elements(ProvenIDs(c.storageProofs)) <= m.Keys && ContractIDs(c) !! m.Keys
    ensures Fits(m, ContractDiffs(m, c)) && Records(m, ContractDiffs(m, c), Itself)
    ensures CommitAll(m, ContractDiffs(m, c)).Keys == m.Keys + ContractIDs(c) - Elements(ProvenIDs(c.storageProofs))
  {
    hide CommitAll, Fits, Records;
    TouchedDistinct(c);
    var creates := CreateContracts(c, |c.fileContracts|);
    var revises := ReviseContracts(m, c.fileContractRevisions);
    var closes := CloseContracts(m, ProvenIDs(c.storageProofs));
    if c.storageProofs != [] {
      assert creates + revises + closes == closes;
      ClosingFits(m, ProvenIDs(c.storageProofs));
      assert ContractIDs(c) == {};
    } else {
      assert creates + revises + closes == creates + revises;
      CreateAndRevise(m, c);
    }
  }

  lemma CreateAndRevise(m: map<Hash, FileContract>, c: TxnCore)
    requires forall i, j :: 0 <= i < j < |c.fileContractRevisions| ==>
               c.fileContractRevisions[i].parentID != c.fileContractRevisions[j].parentID
    requires forall i :: 0 <= i < |c.fileContractRevisions| ==> c.fileContractRevisions[i].parentID in m
    requires ContractIDs(c) !! m.Keys
    ensures var ds := CreateContracts(c, |c.fileContracts|) + ReviseContracts(m, c.fileContractRevisions);
      && Fits(m, ds) && Records(m, ds, Itself)
      && CommitAll(m, ds).Keys == m.Keys + ContractIDs(c)
  {
    var creates := CreateContracts(c, |c.fileContracts|);
    assert Ids(creates) == ContractIDs(c) by {
      forall i | 0 <= i < |creates| ensures FileContractHash(c, i) in Ids(creates) { assert creates[i] in creates; }
    }
    forall d | d in creates ensures d.id !in m {
      assert d.id in Ids(creates);
    }
    Insertions(m, creates);
    var mid := CommitAll(m, creates);
    var revises := ReviseContracts(mid, c.fileContractRevisions);
    SameRevisions(m, mid, c.fileContractRevisions);
    RevisionsFit(mid, c.fileContractRevisions);
    CommitAppend(m, creates, revises);
    FitsAppend(m, creates, revises);
    RecordsAppend(m, creates, revises, Itself);
  }

  lemma {:induction false} SameRevisions(m: map<Hash, FileContract>, n: map<Hash, FileContract>, rs: seq<FileContractRevision>)
    requires forall i :: 0 <= i < |rs| ==> StoredContract(m, rs[i].parentID) == StoredContract(n, rs[i].parentID)
    ensures ReviseContracts(m, rs) == ReviseContracts(n, rs)
  {
    if rs != [] {
      SameRevisions(m, n, rs[..|rs| - 1]);
    }
  }

  // ---------------------------------------------------------------- siafunds

  // The parts of a siafund output that rewriting its address leaves alone.
  function Holding(o: SiafundOutput): (nat, nat) { (o.value, o.claimStart) }

  lemma SiafundsFit(env: Env, l: Ledger, c: TxnCore, pool: nat)
    requires forall i, j :: 0 <= i < j < |c.siafundInputs| ==> c.siafundInputs[i].parentID != c.siafundInputs[j].parentID
    requires FundInputIDs(c) <= l.siafunds.Keys && FundOutputIDs(c) !! l.siafunds.Keys
    ensures var ds := SpendSiafunds(env, l, c.siafundInputs) + CreateSiafunds(c, |c.siafundOutputs|, pool);
      && Fits(l.siafunds, ds) && Records(l.siafunds, ds, Holding)
      && CommitAll(l.siafunds, ds).Keys == l.siafunds.Keys - FundInputIDs(c) + FundOutputIDs(c)
  {
    var spends, creates := SpendSiafunds(env, l, c.siafundInputs), CreateSiafunds(c, |c.siafundOutputs|, pool);
    assert Ids(spends) == FundInputIDs(c) by {
      forall i | 0 <= i < |spends| ensures c.siafundInputs[i].parentID in Ids(spends) { assert spends[i] in spends; }
    }
    assert Ids(creates) == FundOutputIDs(c) by {
      forall i | 0 <= i < |creates| ensures SiafundOutputHash(c, i) in Ids(creates) { assert creates[i] in creates; }
    }
    forall d | d in spends ensures d.id in l.siafunds && Holding(l.siafunds[d.id]) == Holding(d.value) {
      assert d.id in Ids(spends);
    }
    forall d | d in creates ensures d.id !in l.siafunds {
      assert d.id in Ids(creates);
    }
    RemoveThenInsert(l.siafunds, spends, creates, Holding);
  }

  // ---------------------------------------------------------------- delayed outputs

  lemma {:induction false} ClosingShape(m: map<Hash, FileContract>, ids: seq<Hash>, valid: bool, maturity: nat)
    requires forall i, j :: 0 <= i < j < |ids| ==> ids[i] != ids[j]
    ensures var ds := ClosingPayouts(m, ids, valid, maturity);
      && AllApply(ds) && Distinct(ds)
      && (forall d :: d in ds ==> d.id.0 == maturity && d.id.1.StorageProofHash? && d.id.1.valid == valid && d.id.1.contract in ids)
  {
    if ids != [] {
      var n := |ids| - 1;
      var front := ClosingPayouts(m, ids[..n], valid, maturity);
      var last := ContractPayouts(ids[n], valid, ProofOutputs(StoredContract(m, ids[n]), valid), maturity);
      ClosingShape(m, ids[..n], valid, maturity);
      forall d: DelayedDiff | d in last
        ensures d.apply && d.id.0 == maturity && d.id.1.StorageProofHash? && d.id.1.valid == valid && d.id.1.contract == ids[n]
      {
        var i :| 0 <= i < |last| && last[i] == d;
      }
      assert ids[n] !in ids[..n] && ids[n] in ids;
      assert forall id :: id in ids[..n] ==> id in ids;
      DistinctAppend(front, last);
      assert forall d :: d in front + last <==> d in front || d in last;
    }
  }

  lemma DistinctAppend<K, V>(a: seq<Diff<K, V>>, b: seq<Diff<K, V>>)
    requires Distinct(a) && Distinct(b) && AllApply(a) && AllApply(b)
    requires forall d, e :: d in a && e in b ==> d.id != e.id
    ensures Distinct(a + b) && AllApply(a + b)
  {
    var ds := a + b;
    forall i, j | 0 <= i < j < |ds| ensures ds[i].id != ds[j].id {
      if i < |a| <= j {
        assert ds[i] in a && ds[j] in b;
      }
    }
  }

  // Delayed outputs a transaction makes: payouts of proven contracts, and siafund claims.
  ghost predicate TxnDelayed(c: TxnCore, k: (nat, Hash), maturity: nat)
  {
    && k.0 == maturity
    && ((k.1.StorageProofHash? && k.1.contract in ProvenIDs(c.storageProofs)) ||
        (k.1.ClaimHash? && k.1.siafund in FundInputIDs(c)))
  }

  lemma DelayedShape(env: Env, l: Ledger, c: TxnCore, height: nat)
    requires NoRepeats(c)
    ensures var ds := TxnDiffs(env, l, c, height).delayed;
      && AllApply(ds) && Distinct(ds)
      && (forall d :: d in ds ==> TxnDelayed(c, d.id, height + MATURITY_DELAY))
  {
    var maturity := height + MATURITY_DELAY;
    var pool := PoolAfter(l.pool, Height(l), c.fileContracts);
    var proven := ProvenIDs(c.storageProofs);
    var payouts := ClosingPayouts(l.contracts, proven, true, maturity);
    var claims := ClaimPayouts(env, l, pool, c.siafundInputs, maturity);
    TouchedDistinct(c);
    ClosingShape(l.contracts, proven, true, maturity);
    forall d: DelayedDiff | d in claims
      ensures d.apply && d.id.0 == maturity && d.id.1.ClaimHash? && d.id.1.siafund in FundInputIDs(c)
    {
      var i :| 0 <= i < |claims| && claims[i] == d;
    }
    DistinctAppend(payouts, claims);
    assert forall d :: d in payouts + claims <==> d in payouts || d in claims;
  }

  // They are new.
  lemma DelayedFresh(env: Env, l: Ledger, h: History, c: TxnCore, k: (nat, Hash), maturity: nat)
    requires Tracked(l, h) && Applicable(env, l, c) && TxnDelayed(c, k, maturity)
    ensures k.1 !in h.siacoins
  {
    ConsumedIsLive(env, l, c);
    if k.1.StorageProofHash? {
      assert k.1.contract in Elements(ProvenIDs(c.storageProofs));
    }
    assert !SiacoinOrigin(h, k.1);
  }

  // ---------------------------------------------------------------- one transaction, all kinds

  // What committing the diffs of a transaction does to the keys of each bucket.
  ghost predicate TxnStep(l: Ledger, c: TxnCore, d: DiffSet)
  {
    && CommitAll(l.siacoins, d.siacoins).Keys == l.siacoins.Keys - InputIDs(c) + OutputIDs(c)
    && CommitAll(l.contracts, d.contracts).Keys == l.contracts.Keys + ContractIDs(c) - Elements(ProvenIDs(c.storageProofs))
    && CommitAll(l.siafunds, d.siafunds).Keys == l.siafunds.Keys - FundInputIDs(c) + FundOutputIDs(c)
    && CommitAll(l.delayed, d.delayed).Keys == l.delayed.Keys + Ids(d.delayed)
  }

  ghost predicate FitsSet(l: Ledger, d: DiffSet)
  {
    && Fits(l.siacoins, d.siacoins) && Fits(l.contracts, d.contracts)
    && Fits(l.siafunds, d.siafunds) && Fits(l.delayed, d.delayed)
  }

  // Every removal records what it removes; for siafunds, all but the address.
  ghost predicate RecordsSet(l: Ledger, d: DiffSet)
  {
    && Records(l.siacoins, d.siacoins, Itself) && Records(l.contracts, d.contracts, Itself)
    && Records(l.siafunds, d.siafunds, Holding) && Records(l.delayed, d.delayed, Itself)
  }

  // The diffs of a valid transaction fit the ledger they were generated on.
  lemma TxnFits(env: Env, l: Ledger, h: History, c: TxnCore, height: nat)
    requires Tracked(l, h) && Applicable(env, l, c)
    ensures var d := TxnDiffs(env, l, c, height); FitsSet(l, d) && RecordsSet(l, d) && TxnStep(l, c, d)
  {
    ConsumedIsLive(env, l, c);
    FreshIDs(env, l, h, c);
    SiacoinsFit(l.siacoins, c);
    ContractsFit(l.contracts, c);
    SiafundsFit(env, l, c, PoolAfter(l.pool, Height(l), c.fileContracts));
    DelayedShape(env, l, c, height);
    var ds := TxnDiffs(env, l, c, height).delayed;
    forall d | d in ds ensures d.id !in l.delayed {
      DelayedFresh(env, l, h, c, d.id, height + MATURITY_DELAY);
    }
    Insertions(l.delayed, ds);
  }

  // ---------------------------------------------------------------- the invariant is kept

  lemma OriginsGrow(h: History, g: History)
    requires OriginsOK(h)
    requires h.spent <= g.spent && h.closed <= g.closed && h.spentFunds <= g.spentFunds && h.blocks <= g.blocks
    requires h.swapped ==> g.swapped
    requires forall id :: id in g.siacoins - h.siacoins ==> SiacoinOrigin(g, id)
    requires forall id :: id in g.contracts - h.contracts ==> ContractOrigin(g, id)
    requires forall id :: id in g.siafunds - h.siafunds ==> SiafundOrigin(g, id)
    ensures OriginsOK(g)
  {
    forall id | id in g.siacoins ensures SiacoinOrigin(g, id) {
      if id in h.siacoins { assert SiacoinOrigin(h, id); }
    }
    forall id | id in g.contracts ensures ContractOrigin(g, id) {
      if id in h.contracts { assert ContractOrigin(h, id); }
    }
    forall id | id in g.siafunds ensures SiafundOrigin(g, id) {
      if id in h.siafunds { assert SiafundOrigin(h, id); }
    }
  }

  lemma TxnOrigins(env: Env, l: Ledger, h: History, c: TxnCore, height: nat)
    requires OriginsOK(h) && NoRepeats(c)
    ensures OriginsOK(TxnHistory(env, l, h, c, height))
  {
    var g := TxnHistory(env, l, h, c, height);
    var ds := TxnDiffs(env, l, c, height).delayed;
    DelayedShape(env, l, c, height);
    assert InputsSpent(g, c) && FundInputsSpent(g, c);
    forall id | id in g.siacoins - h.siacoins ensures SiacoinOrigin(g, id) {
      if id !in OutputIDs(c) {
        var e :| e in ds && e.id.1 == id;
        assert TxnDelayed(c, e.id, height + MATURITY_DELAY);
      }
    }
    OriginsGrow(h, g);
  }

  // Siacoins stay live when ins are spent and new outputs appear.
  lemma LiveSiacoinsStep(
    siacoins: set<Hash>, delayed: set<(nat, Hash)>, created: set<Hash>, spent: set<Hash>,
    ins: set<Hash>, outs: set<Hash>, added: set<(nat, Hash)>)
    requires LiveSiacoins(siacoins, delayed, created, spent)
    requires ins <= siacoins && outs !! created
    requires OneBucketEach(added)
    requires forall k :: k in added ==> k.1 !in created && k.1 !in outs
    ensures LiveSiacoins(siacoins - ins + outs, delayed + added, created + outs + Seconds(added), spent + ins)
  {
  }

  lemma TxnLive(env: Env, l: Ledger, h: History, c: TxnCore, height: nat)
    requires Tracked(l, h) && Applicable(env, l, c)
    ensures var added := Ids(TxnDiffs(env, l, c, height).delayed);
      LiveSiacoins(l.siacoins.Keys - InputIDs(c) + OutputIDs(c), l.delayed.Keys + added,
                   h.siacoins + OutputIDs(c) + Seconds(added), h.spent + InputIDs(c))
  {
    var ds := TxnDiffs(env, l, c, height).delayed;
    ConsumedIsLive(env, l, c);
    FreshIDs(env, l, h, c);
    DelayedShape(env, l, c, height);
    forall k: (nat, Hash) | k in Ids(ds) ensures k.1 !in h.siacoins && k.1 !in OutputIDs(c) && TxnDelayed(c, k, height + MATURITY_DELAY) {
      var d :| d in ds && d.id == k;
      DelayedFresh(env, l, h, c, k, height + MATURITY_DELAY);
    }
    LiveSiacoinsStep(l.siacoins.Keys, l.delayed.Keys, h.siacoins, h.spent, InputIDs(c), OutputIDs(c), Ids(ds));
  }

  lemma LiveStep(live: set<Hash>, created: set<Hash>, gone: set<Hash>, added: set<Hash>, removed: set<Hash>)
    requires Live(live, created, gone) && added !! created && removed <= live
    ensures Live(live - removed + added, created + added, gone + removed)
    ensures Live(live + added - removed, created + added, gone + removed)
  {
  }

  // Applying a valid transaction keeps the ledger in step with its history.
  lemma TxnTracked(env: Env, l: Ledger, h: History, c: TxnCore, height: nat)
    requires Tracked(l, h) && Applicable(env, l, c)
    ensures Tracked(CommitSet(l, TxnDiffs(env, l, c, height)), TxnHistory(env, l, h, c, height))
  {
    assert TxnStep(l, c, TxnDiffs(env, l, c, height)) by { TxnFits(env, l, h, c, height); }
    assert OriginsOK(TxnHistory(env, l, h, c, height)) by { TxnOrigins(env, l, h, c, height); }
    TxnLive(env, l, h, c, height);
    ConsumedIsLive(env, l, c);
    FreshIDs(env, l, h, c);
    LiveStep(l.contracts.Keys, h.contracts, h.closed, ContractIDs(c), Elements(ProvenIDs(c.storageProofs)));
    LiveStep(l.siafunds.Keys, h.siafunds, h.spentFunds, FundOutputIDs(c), FundInputIDs(c));
  }
}
