/** When a transaction is valid on top of a ledger. */
module Validity {
  import opened Types
  import opened Sums
  import opened Money
  import opened Ledgers
  import opened Signatures

  // ---------------------------------------------------------------- without context

  // A transaction with storage proofs creates nothing and revises nothing.
  ghost predicate StorageProofRules(c: TxnCore)
  {
    c.storageProofs != [] ==>
      c.siacoinOutputs == [] && c.fileContracts == [] && c.fileContractRevisions == [] && c.siafundOutputs == []
  }

  // The contracts a transaction proves or revises.
  function TouchedIDs(c: TxnCore): seq<Hash>
  {
    ProvenIDs(c.storageProofs) +
    seq(|c.fileContractRevisions|, i requires 0 <= i < |c.fileContractRevisions| => c.fileContractRevisions[i].parentID)
  }

  ghost predicate NoRepeats(c: TxnCore)
  {
    && (forall i, j :: 0 <= i < j < |c.siacoinInputs| ==> c.siacoinInputs[i].parentID != c.siacoinInputs[j].parentID)
    && (forall i, j :: 0 <= i < j < |TouchedIDs(c)| ==> TouchedIDs(c)[i] != TouchedIDs(c)[j])
    && (forall i, j :: 0 <= i < j < |c.siafundInputs| ==> c.siafundInputs[i].parentID != c.siafundInputs[j].parentID)
  }

  ghost predicate MinimumValues(c: TxnCore)
  {
    && (forall i :: 0 <= i < |c.siacoinOutputs| ==> c.siacoinOutputs[i].value > 0)
    && (forall i :: 0 <= i < |c.fileContracts| ==> c.fileContracts[i].payout > 0)
    && (forall i :: 0 <= i < |c.siafundOutputs| ==> c.siafundOutputs[i].claimStart == 0 && c.siafundOutputs[i].value > 0)
    && (forall i :: 0 <= i < |c.minerFees| ==> c.minerFees[i] > 0)
  }

  function ValidSum(c: FileContract): nat { SumSeq(c.validProofOutputs, Value) }

  function MissedSum(c: FileContract): nat { SumSeq(c.missedProofOutputs, Value) }

  ghost predicate NewContractOK(c: FileContract, height: nat)
  {
    && height < c.windowStart < c.windowEnd
    && ValidSum(c) == MissedSum(c) == PostTax(height, c.payout)
  }

  ghost predicate RevisionOK(r: FileContractRevision, height: nat)
  {
    && height < r.newWindowStart < r.newWindowEnd
    && SumSeq(r.newValidProofOutputs, Value) == SumSeq(r.newMissedProofOutputs, Value)
  }

  ghost predicate TimelocksOK(c: TxnCore, height: nat)
  {
    forall i :: 0 <= i < |Parents(c)| ==> Parents(c)[i].conditions.timelock <= height
  }

  // The rules on what a transaction spends and creates.
  ghost predicate CoreRules(c: TxnCore, height: nat)
  {
    && StorageProofRules(c)
    && NoRepeats(c)
    && MinimumValues(c)
    && (forall i :: 0 <= i < |c.fileContracts| ==> NewContractOK(c.fileContracts[i], height))
    && (forall i :: 0 <= i < |c.fileContractRevisions| ==> RevisionOK(c.fileContractRevisions[i], height))
  }

  ghost predicate StandaloneValid(env: Env, t: Transaction, height: nat)
  {
    && env.fitsInABlock(t, height)
    && CoreRules(t.core, height)
    && TimelocksOK(t.core, height)
    && SignaturesOK(env, t, height)
  }

  // ---------------------------------------------------------------- on top of a ledger

  function InputValue(m: map<Hash, SiacoinOutput>): SiacoinInput -> nat
  {
    (i: SiacoinInput) => StoredSiacoin(m, i.parentID).value
  }

  function Payout(c: FileContract): nat { c.payout }

  function SiacoinOutputSum(c: TxnCore): nat
  {
    SumSeq(c.siacoinOutputs, Value) + SumSeq(c.fileContracts, Payout) + SumSeq(c.minerFees, Fee)
  }

  ghost predicate SpendsSiacoin(m: map<Hash, SiacoinOutput>, i: SiacoinInput)
  {
    i.parentID in m && UnlockConditionsHash(i.unlockConditions) == m[i.parentID].unlockHash
  }

  ghost predicate SiacoinsOK(l: Ledger, c: TxnCore)
  {
    && (forall i :: 0 <= i < |c.siacoinInputs| ==> SpendsSiacoin(l.siacoins, c.siacoinInputs[i]))
    && SumSeq(c.siacoinInputs, InputValue(l.siacoins)) == SiacoinOutputSum(c)
  }

  // The contract exists, its window has opened, and the proof verifies against the block
  // before the window.
  ghost predicate ProofOK(env: Env, l: Ledger, p: StorageProof)
  {
    && p.parentID in l.contracts
    && var c := l.contracts[p.parentID];
       && 0 < c.windowStart <= |l.path|
       && env.verifyStorageProof(p, c, l.path[c.windowStart - 1], Height(l))
  }

  ghost predicate RevisesContract(l: Ledger, r: FileContractRevision)
  {
    && r.parentID in l.contracts
    && var c := l.contracts[r.parentID];
       && Height(l) <= c.windowStart
       && c.revisionNumber < r.newRevisionNumber
       && UnlockConditionsHash(r.unlockConditions) == c.unlockHash
       && SumSeq(r.newValidProofOutputs, Value) == SumSeq(r.newMissedProofOutputs, Value) == ValidSum(c)
  }

  function FundValue(o: SiafundOutput): nat { o.value }

  function FundInputValue(env: Env, l: Ledger): SiafundInput -> nat
  {
    (i: SiafundInput) => ReadSiafund(env, l, i.parentID).value
  }

  ghost predicate SpendsSiafund(env: Env, l: Ledger, i: SiafundInput)
  {
    i.parentID in l.siafunds && UnlockConditionsHash(i.unlockConditions) == ReadSiafund(env, l, i.parentID).unlockHash
  }

  ghost predicate SiafundsOK(env: Env, l: Ledger, c: TxnCore)
  {
    && (forall i :: 0 <= i < |c.siafundInputs| ==> SpendsSiafund(env, l, c.siafundInputs[i]))
    && SumSeq(c.siafundInputs, FundInputValue(env, l)) == SumSeq(c.siafundOutputs, FundValue)
  }

  ghost predicate ContextValid(env: Env, l: Ledger, c: TxnCore)
  {
    && SiacoinsOK(l, c)
    && (forall i :: 0 <= i < |c.storageProofs| ==> ProofOK(env, l, c.storageProofs[i]))
    && (forall i :: 0 <= i < |c.fileContractRevisions| ==> RevisesContract(l, c.fileContractRevisions[i]))
    && SiafundsOK(env, l, c)
  }

  // The part of validity that concerns the effect on the ledger.
  ghost predicate Applicable(env: Env, l: Ledger, c: TxnCore)
  {
    CoreRules(c, Height(l)) && ContextValid(env, l, c)
  }

  ghost predicate ValidTxn(env: Env, l: Ledger, t: Transaction)
  {
    StandaloneValid(env, t, Height(l)) && ContextValid(env, l, t.core)
  }

  // Transaction i is valid in the state the earlier ones leave.
  ghost predicate ValidAt(env: Env, l: Ledger, ts: seq<Transaction>, i: nat, height: nat)
    requires i < |ts|
  {
    ValidTxn(env, CommitSet(l, TxnsDiffs(env, l, ts[..i], height)), ts[i])
  }

  ghost predicate TxnsValid(env: Env, l: Ledger, ts: seq<Transaction>, height: nat)
  {
    forall i :: 0 <= i < |ts| ==> ValidAt(env, l, ts, i, height)
  }

  // Validity of a transaction depends only on the list up to it.
  lemma SameAt(env: Env, l: Ledger, a: seq<Transaction>, b: seq<Transaction>, i: nat, height: nat)
    requires i < |a| && i < |b| && a[..i] == b[..i] && a[i] == b[i]
    ensures ValidAt(env, l, a, i, height) == ValidAt(env, l, b, i, height)
  {
  }

  lemma LastValid(env: Env, l: Ledger, ts: seq<Transaction>, height: nat)
    requires ts != [] && TxnsValid(env, l, ts, height)
    ensures var n := |ts| - 1;
      && TxnsValid(env, l, ts[..n], height)
      && Applicable(env, CommitSet(l, TxnsDiffs(env, l, ts[..n], height)), ts[n].core)
  {
    var n := |ts| - 1;
    assert ValidAt(env, l, ts, n, height);
    FrontValid(env, l, ts, n, height);
  }

  lemma FrontValid(env: Env, l: Ledger, ts: seq<Transaction>, n: nat, height: nat)
    requires n <= |ts| && TxnsValid(env, l, ts, height)
    ensures TxnsValid(env, l, ts[..n], height)
  {
    var front := ts[..n];
    forall i | 0 <= i < |front| ensures ValidAt(env, l, front, i, height) {
      assert front[..i] == ts[..i];
      SameAt(env, l, front, ts, i, height);
    }
  }

  lemma ExtendValid(env: Env, l: Ledger, ts: seq<Transaction>, t: Transaction, height: nat)
    requires TxnsValid(env, l, ts, height) && ValidTxn(env, CommitSet(l, TxnsDiffs(env, l, ts, height)), t)
    ensures TxnsValid(env, l, ts + [t], height)
  {
    var more := ts + [t];
    forall i | 0 <= i < |more| ensures ValidAt(env, l, more, i, height) {
      if i < |ts| {
        assert more[..i] == ts[..i];
        SameAt(env, l, more, ts, i, height);
      } else {
        assert more[..i] == ts;
      }
    }
  }
}
