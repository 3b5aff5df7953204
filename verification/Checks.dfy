/** The validation loops, each deciding its part of what makes a transaction valid. */
module Checks {
  import opened Types
  import opened Sums
  import opened Money
  import opened Ledgers
  import opened Signatures
  import opened Validity

  // ---------------------------------------------------------------- without context

  method SumOutputs(outs: seq<SiacoinOutput>) returns (sum: nat)
    ensures sum == SumSeq(outs, Value)
  {
    sum := 0;
    for i := 0 to |outs|
      invariant sum == SumSeq(outs[..i], Value)
    {
      sum := sum + outs[i].value;
      assert outs[..i + 1][..i] == outs[..i];
    }
    assert outs[..|outs|] == outs;
  }

  method CorrectFileContracts(t: TxnCore, height: nat) returns (ok: bool)
    ensures ok <==> forall i :: 0 <= i < |t.fileContracts| ==> NewContractOK(t.fileContracts[i], height)
  {
    for i := 0 to |t.fileContracts|
      invariant forall j :: 0 <= j < i ==> NewContractOK(t.fileContracts[j], height)
    {
      var c := t.fileContracts[i];
      if c.windowStart <= height || c.windowEnd <= c.windowStart {
        assert !NewContractOK(t.fileContracts[i], height);
        return false;
      }
      var valid := SumOutputs(c.validProofOutputs);
      var missed := SumOutputs(c.missedProofOutputs);
      var portion := PostTax(height, c.payout);
      if valid != portion || missed != portion {
        assert !NewContractOK(t.fileContracts[i], height);
        return false;
      }
    }
    return true;
  }

  method CorrectFileContractRevisions(t: TxnCore, height: nat) returns (ok: bool)
    ensures ok <==> forall i :: 0 <= i < |t.fileContractRevisions| ==> RevisionOK(t.fileContractRevisions[i], height)
  {
    for i := 0 to |t.fileContractRevisions|
      invariant forall j :: 0 <= j < i ==> RevisionOK(t.fileContractRevisions[j], height)
    {
      var r := t.fileContractRevisions[i];
      if r.newWindowStart <= height || r.newWindowEnd <= r.newWindowStart {
        assert !RevisionOK(t.fileContractRevisions[i], height);
        return false;
      }
      var valid := SumOutputs(r.newValidProofOutputs);
      var missed := SumOutputs(r.newMissedProofOutputs);
      if valid != missed {
        assert !RevisionOK(t.fileContractRevisions[i], height);
        return false;
      }
    }
    return true;
  }

  method FollowsMinimumValues(t: TxnCore) returns (ok: bool)
    ensures ok <==> MinimumValues(t)
  {
    for i := 0 to |t.siacoinOutputs|
      invariant forall j :: 0 <= j < i ==> t.siacoinOutputs[j].value > 0
    {
      if t.siacoinOutputs[i].value == 0 {
        return false;
      }
    }
    for i := 0 to |t.fileContracts|
      invariant forall j :: 0 <= j < i ==> t.fileContracts[j].payout > 0
    {
      if t.fileContracts[i].payout == 0 {
        return false;
      }
    }
    for i := 0 to |t.siafundOutputs|
      invariant forall j :: 0 <= j < i ==> t.siafundOutputs[j].claimStart == 0 && t.siafundOutputs[j].value > 0
    {
      if t.siafundOutputs[i].claimStart != 0 || t.siafundOutputs[i].value == 0 {
        return false;
      }
    }
    for i := 0 to |t.minerFees|
      invariant forall j :: 0 <= j < i ==> t.minerFees[j] > 0
    {
      if t.minerFees[i] == 0 {
        return false;
      }
    }
    return true;
  }

  method FollowsStorageProofRules(t: TxnCore) returns (ok: bool)
    ensures ok <==> StorageProofRules(t)
  {
    if |t.storageProofs| == 0 {
      return true;
    }
    return |t.siacoinOutputs| == 0 && |t.fileContracts| == 0 && |t.fileContractRevisions| == 0 && |t.siafundOutputs| == 0;
  }

  // Fill a set of seen ids, stopping at the first repeat.
  method AllDifferent(ids: seq<Hash>) returns (ok: bool)
    ensures ok <==> forall i, j :: 0 <= i < j < |ids| ==> ids[i] != ids[j]
  {
    var seen := {};
    for k := 0 to |ids|
      invariant forall x :: x in seen <==> x in ids[..k]
      invariant forall i, j :: 0 <= i < j < k ==> ids[i] != ids[j]
    {
      if ids[k] in seen {
        var i :| 0 <= i < k && ids[..k][i] == ids[k];
        assert ids[i] == ids[k];
        return false;
      }
      seen := seen + {ids[k]};
    }
    return true;
  }

  method CheckNoRepeats(t: TxnCore) returns (ok: bool)
    ensures ok <==> NoRepeats(t)
  {
    var coins := seq(|t.siacoinInputs|, i requires 0 <= i < |t.siacoinInputs| => t.siacoinInputs[i].parentID);
    var funds := seq(|t.siafundInputs|, i requires 0 <= i < |t.siafundInputs| => t.siafundInputs[i].parentID);
    var coinsDiffer := AllDifferent(coins);
    var contractsDiffer := AllDifferent(TouchedIDs(t));
    var fundsDiffer := AllDifferent(funds);
    assert forall i :: 0 <= i < |t.siacoinInputs| ==> t.siacoinInputs[i].parentID == coins[i];
    assert forall i :: 0 <= i < |coins| ==> coins[i] == t.siacoinInputs[i].parentID;
    assert forall i :: 0 <= i < |t.siafundInputs| ==> t.siafundInputs[i].parentID == funds[i];
    assert forall i :: 0 <= i < |funds| ==> funds[i] == t.siafundInputs[i].parentID;
    return coinsDiffer && contractsDiffer && fundsDiffer;
  }

  method CheckUnlockConditions(t: TxnCore, height: nat) returns (ok: bool)
    ensures ok <==> TimelocksOK(t, height)
  {
    var parents := Parents(t);
    for i := 0 to |parents|
      invariant forall j :: 0 <= j < i ==> parents[j].conditions.timelock <= height
    {
      if parents[i].conditions.timelock > height {
        return false;
      }
    }
    return true;
  }

  method CheckStandalone(env: Env, t: Transaction, height: nat) returns (ok: bool)
    ensures ok <==> StandaloneValid(env, t, height)
  {
    var fits := env.fitsInABlock(t, height);
    var proofRules := FollowsStorageProofRules(t.core);
    var noRepeats := CheckNoRepeats(t.core);
    var minimums := FollowsMinimumValues(t.core);
    var contracts := CorrectFileContracts(t.core, height);
    var revisions := CorrectFileContractRevisions(t.core, height);
    var unlocked := CheckUnlockConditions(t.core, height);
    var signed := ValidSignatures(env, t, height);
    return fits && proofRules && noRepeats && minimums && contracts && revisions && unlocked && signed;
  }

  // ---------------------------------------------------------------- on top of a ledger

  method ValidSiacoins(l: Ledger, t: TxnCore) returns (ok: bool)
    ensures ok <==> SiacoinsOK(l, t)
  {
    var sum := 0;
    var ins := t.siacoinInputs;
    for i := 0 to |ins|
      invariant forall j :: 0 <= j < i ==> SpendsSiacoin(l.siacoins, ins[j])
      invariant sum == SumSeq(ins[..i], InputValue(l.siacoins))
    {
      if ins[i].parentID !in l.siacoins {
        assert !SpendsSiacoin(l.siacoins, ins[i]);
        return false;
      }
      var o := l.siacoins[ins[i].parentID];
      if UnlockConditionsHash(ins[i].unlockConditions) != o.unlockHash {
        assert !SpendsSiacoin(l.siacoins, ins[i]);
        return false;
      }
      sum := sum + o.value;
      assert ins[..i + 1][..i] == ins[..i];
    }
    assert ins[..|ins|] == ins;
    return sum == SiacoinOutputSum(t);
  }

  method ValidStorageProofs(env: Env, l: Ledger, t: TxnCore) returns (ok: bool)
    ensures ok <==> forall i :: 0 <= i < |t.storageProofs| ==> ProofOK(env, l, t.storageProofs[i])
  {
    for i := 0 to |t.storageProofs|
      invariant forall j :: 0 <= j < i ==> ProofOK(env, l, t.storageProofs[j])
    {
      var p := t.storageProofs[i];
      if p.parentID !in l.contracts {
        assert !ProofOK(env, l, t.storageProofs[i]);
        return false;
      }
      var c := l.contracts[p.parentID];
      if c.windowStart == 0 || c.windowStart > |l.path| || !env.verifyStorageProof(p, c, l.path[c.windowStart - 1], Height(l)) {
        assert !ProofOK(env, l, t.storageProofs[i]);
        return false;
      }
    }
    return true;
  }

  method ValidFileContractRevisions(l: Ledger, t: TxnCore) returns (ok: bool)
    ensures ok <==> forall i :: 0 <= i < |t.fileContractRevisions| ==> RevisesContract(l, t.fileContractRevisions[i])
  {
    for i := 0 to |t.fileContractRevisions|
      invariant forall j :: 0 <= j < i ==> RevisesContract(l, t.fileContractRevisions[j])
    {
      var r := t.fileContractRevisions[i];
      if r.parentID !in l.contracts {
        assert !RevisesContract(l, t.fileContractRevisions[i]);
        return false;
      }
      var c := l.contracts[r.parentID];
      var valid := SumOutputs(r.newValidProofOutputs);
      var missed := SumOutputs(r.newMissedProofOutputs);
      var before := SumOutputs(c.validProofOutputs);
      if Height(l) > c.windowStart || c.revisionNumber >= r.newRevisionNumber ||
         UnlockConditionsHash(r.unlockConditions) != c.unlockHash || valid != before || missed != before {
        assert !RevisesContract(l, t.fileContractRevisions[i]);
        return false;
      }
    }
    return true;
  }

  method ValidSiafunds(env: Env, l: Ledger, t: TxnCore) returns (ok: bool)
    ensures ok <==> SiafundsOK(env, l, t)
  {
    var inputSum, outputSum := 0, 0;
    var ins, outs := t.siafundInputs, t.siafundOutputs;
    for i := 0 to |ins|
      invariant forall j :: 0 <= j < i ==> SpendsSiafund(env, l, ins[j])
      invariant inputSum == SumSeq(ins[..i], FundInputValue(env, l))
    {
      if ins[i].parentID !in l.siafunds {
        assert !SpendsSiafund(env, l, ins[i]);
        return false;
      }
      var o := ReadSiafund(env, l, ins[i].parentID);
      if UnlockConditionsHash(ins[i].unlockConditions) != o.unlockHash {
        assert !SpendsSiafund(env, l, ins[i]);
        return false;
      }
      inputSum := inputSum + o.value;
      assert ins[..i + 1][..i] == ins[..i];
    }
    for i := 0 to |outs|
      invariant outputSum == SumSeq(outs[..i], FundValue)
    {
      outputSum := outputSum + outs[i].value;
      assert outs[..i + 1][..i] == outs[..i];
    }
    assert ins[..|ins|] == ins && outs[..|outs|] == outs;
    return inputSum == outputSum;
  }

  // validTransaction decides exactly the validity every proof about blocks assumes.
  method ValidTransaction(env: Env, l: Ledger, t: Transaction) returns (ok: bool)
    ensures ok <==> ValidTxn(env, l, t)
  {
    ok := CheckStandalone(env, t, Height(l));
    if !ok {
      return;
    }
    var coins := ValidSiacoins(l, t.core);
    var proofs := ValidStorageProofs(env, l, t.core);
    var revisions := ValidFileContractRevisions(l, t.core);
    var funds := ValidSiafunds(env, l, t.core);
    return coins && proofs && revisions && funds;
  }
}
