/**
 The MarshalSia, UnmarshalSia and MarshalSiaSize methods, field by field, against the layouts.
 Hashes are their 32 bytes here.
 */
module Marshaling {
  import opened Encoding
  import opened Codecs

  // ---------------------------------------------------------------- the objects

  datatype SiaPublicKey = SiaPublicKey(algorithm: seq<Byte>, key: seq<Byte>)

  datatype UnlockConditions = UnlockConditions(timelock: nat, publicKeys: seq<SiaPublicKey>, signaturesRequired: nat)

  datatype SiacoinInput = SiacoinInput(parentID: seq<Byte>, unlockConditions: UnlockConditions)

  datatype SiacoinOutput = SiacoinOutput(value: nat, unlockHash: seq<Byte>)

  datatype FileContract = FileContract(
    fileSize: nat, fileMerkleRoot: seq<Byte>, windowStart: nat, windowEnd: nat, payout: nat,
    validProofOutputs: seq<SiacoinOutput>, missedProofOutputs: seq<SiacoinOutput>, unlockHash: seq<Byte>,
    revisionNumber: nat)

  datatype FileContractRevision = FileContractRevision(
    parentID: seq<Byte>, unlockConditions: UnlockConditions, newRevisionNumber: nat, newFileSize: nat,
    newFileMerkleRoot: seq<Byte>, newWindowStart: nat, newWindowEnd: nat, newValidProofOutputs: seq<SiacoinOutput>,
    newMissedProofOutputs: seq<SiacoinOutput>, newUnlockHash: seq<Byte>)

  datatype StorageProof = StorageProof(parentID: seq<Byte>, segment: seq<Byte>, hashSet: seq<seq<Byte>>)

  datatype SiafundInput = SiafundInput(
    parentID: seq<Byte>, unlockConditions: UnlockConditions, claimUnlockHash: seq<Byte>)

  datatype SiafundOutput = SiafundOutput(value: nat, unlockHash: seq<Byte>, claimStart: nat)

  // The indices of ten kinds of field, from siacoin inputs to transaction signatures.
  datatype CoveredFields = CoveredFields(
    wholeTransaction: bool, siacoinInputs: seq<nat>, siacoinOutputs: seq<nat>, fileContracts: seq<nat>,
    fileContractRevisions: seq<nat>, storageProofs: seq<nat>, siafundInputs: seq<nat>, siafundOutputs: seq<nat>,
    minerFees: seq<nat>, arbitraryData: seq<nat>, transactionSignatures: seq<nat>)

  datatype TransactionSignature = TransactionSignature(
    parentID: seq<Byte>, publicKeyIndex: nat, timelock: nat, coveredFields: CoveredFields, signature: seq<Byte>)

  datatype Transaction = Transaction(
    siacoinInputs: seq<SiacoinInput>, siacoinOutputs: seq<SiacoinOutput>, fileContracts: seq<FileContract>,
    fileContractRevisions: seq<FileContractRevision>, storageProofs: seq<StorageProof>,
    siafundInputs: seq<SiafundInput>, siafundOutputs: seq<SiafundOutput>, minerFees: seq<nat>,
    arbitraryData: seq<seq<Byte>>, transactionSignatures: seq<TransactionSignature>)

  datatype Block = Block(
    parentID: seq<Byte>, nonce: seq<Byte>, timestamp: nat, minerPayouts: seq<SiacoinOutput>,
    transactions: seq<Transaction>)

  // ---------------------------------------------------------------- their values

  function Values<T>(xs: seq<T>, f: T -> Value): (vs: seq<Value>)
    ensures |vs| == |xs| && forall i :: 0 <= i < |xs| ==> vs[i] == f(xs[i])
  {
    seq(|xs|, i requires 0 <= i < |xs| => f(xs[i]))
  }

  function BytesValue(b: seq<Byte>): Value { Raw(b) }

  function NumValue(n: nat): Value { Num(n) }

  function IndicesValue(ns: seq<nat>): Value { Items(Values(ns, NumValue)) }

  function KeyValue(x: SiaPublicKey): Value
  {
    Both(Raw(x.algorithm), Raw(x.key))
  }

  function ConditionsValue(x: UnlockConditions): Value
  {
    Both(Num(x.timelock), Both(Items(Values(x.publicKeys, KeyValue)), Num(x.signaturesRequired)))
  }

  function SiacoinInputValue(x: SiacoinInput): Value
  {
    Both(Raw(x.parentID), ConditionsValue(x.unlockConditions))
  }

  function SiacoinOutputValue(x: SiacoinOutput): Value
  {
    Both(Num(x.value), Raw(x.unlockHash))
  }

  function ContractValue(x: FileContract): Value
  {
    Both(Num(x.fileSize), Both(Raw(x.fileMerkleRoot), Both(Num(x.windowStart), Both(Num(x.windowEnd),
    Both(Num(x.payout), Both(Items(Values(x.validProofOutputs, SiacoinOutputValue)),
    Both(Items(Values(x.missedProofOutputs, SiacoinOutputValue)), Both(Raw(x.unlockHash),
    Num(x.revisionNumber)))))))))
  }

  function RevisionValue(x: FileContractRevision): Value
  {
    Both(Raw(x.parentID), Both(ConditionsValue(x.unlockConditions), Both(Num(x.newRevisionNumber),
    Both(Num(x.newFileSize), Both(Raw(x.newFileMerkleRoot), Both(Num(x.newWindowStart), Both(Num(x.newWindowEnd),
    Both(Items(Values(x.newValidProofOutputs, SiacoinOutputValue)),
    Both(Items(Values(x.newMissedProofOutputs, SiacoinOutputValue)), Raw(x.newUnlockHash))))))))))
  }

  function ProofValue(x: StorageProof): Value
  {
    Both(Raw(x.parentID), Both(Raw(x.segment), Items(Values(x.hashSet, BytesValue))))
  }

  function SiafundInputValue(x: SiafundInput): Value
  {
    Both(Raw(x.parentID), Both(ConditionsValue(x.unlockConditions), Raw(x.claimUnlockHash)))
  }

  function SiafundOutputValue(x: SiafundOutput): Value
  {
    Both(Num(x.value), Both(Raw(x.unlockHash), Num(x.claimStart)))
  }

  function CoveredLists(x: CoveredFields): (fields: seq<seq<nat>>)
    ensures |fields| == 10
  {
    [x.siacoinInputs, x.siacoinOutputs, x.fileContracts, x.fileContractRevisions, x.storageProofs,
     x.siafundInputs, x.siafundOutputs, x.minerFees, x.arbitraryData, x.transactionSignatures]
  }

  function CoveredValue(x: CoveredFields): Value
  {
    Both(Flag(x.wholeTransaction), Items(Values(CoveredLists(x), IndicesValue)))
  }

  function SignatureValue(x: TransactionSignature): Value
  {
    Both(Raw(x.parentID), Both(Num(x.publicKeyIndex), Both(Num(x.timelock), Both(CoveredValue(x.coveredFields),
    Raw(x.signature)))))
  }

  // All but the signatures.
  function UnsignedValue(x: Transaction): Value
  {
    Both(Items(Values(x.siacoinInputs, SiacoinInputValue)), Both(Items(Values(x.siacoinOutputs, SiacoinOutputValue)),
    Both(Items(Values(x.fileContracts, ContractValue)), Both(Items(Values(x.fileContractRevisions, RevisionValue)),
    Both(Items(Values(x.storageProofs, ProofValue)), Both(Items(Values(x.siafundInputs, SiafundInputValue)),
    Both(Items(Values(x.siafundOutputs, SiafundOutputValue)), Both(Items(Values(x.minerFees, NumValue)),
    Items(Values(x.arbitraryData, BytesValue))))))))))
  }

  function TransactionValue(x: Transaction): Value
  {
    Both(UnsignedValue(x), Items(Values(x.transactionSignatures, SignatureValue)))
  }

  function BlockValue(x: Block): Value
  {
    Both(Raw(x.parentID), Both(Raw(x.nonce), Both(Num(x.timestamp),
    Both(Items(Values(x.minerPayouts, SiacoinOutputValue)), Items(Values(x.transactions, TransactionValue))))))
  }

  lemma ValuesSnoc<T>(xs: seq<T>, i: nat, f: T -> Value)
    requires i < |xs|
    ensures Values(xs, f)[..i] + [f(xs[i])] == Values(xs, f)[..i + 1]
  {
  }

  lemma ValuesMore<T>(xs: seq<T>, x: T, f: T -> Value)
    ensures Values(xs + [x], f) == Values(xs, f) + [f(x)]
  {
  }

  // ---------------------------------------------------------------- MarshalSia

  method MarshalSiaPublicKey(e: EncHelper, x: SiaPublicKey)
    requires Conforms(PUBLIC_KEY, KeyValue(x))
    modifies e
    ensures Wrote(PUBLIC_KEY, old(e.out), KeyValue(x), e.out)
  {
    hide Wrote, Conforms;
    ghost var s0, v0 := PUBLIC_KEY, KeyValue(x);
    PairConforms(s0, v0);
    ghost var o0 := e.out;
    FixedLength(16, x.algorithm);
    e.Write(x.algorithm);
    ghost var o1 := e.out;
    e.WritePrefix(x.key);
    PairWrote(s0, o0, v0, o1, e.out);
  }

  method MarshalSiaPublicKeys(e: EncHelper, xs: seq<SiaPublicKey>)
    requires Conforms(ListOf(PUBLIC_KEY, 40), Items(Values(xs, KeyValue)))
    modifies e
    ensures Wrote(ListOf(PUBLIC_KEY, 40), old(e.out), Items(Values(xs, KeyValue)), e.out)
  {
    hide Wrote, WroteAll;
    ghost var a, vs := e.out, Values(xs, KeyValue);
    e.WriteUint64(|xs|);
    ghost var b := e.out;
    WroteNone(PUBLIC_KEY, b);
    for i := 0 to |xs|
      invariant WroteAll(PUBLIC_KEY, b, vs[..i], e.out)
    {
      ghost var c := e.out;
      MarshalSiaPublicKey(e, xs[i]);
      WroteStep(PUBLIC_KEY, b, vs[..i], c, vs[i], e.out);
      ValuesSnoc(xs, i, KeyValue);
    }
    assert vs[..|vs|] == vs;
    ListWrote(ListOf(PUBLIC_KEY, 40), a, vs, b, e.out);
  }

  method MarshalUnlockConditions(e: EncHelper, x: UnlockConditions)
    requires Conforms(UNLOCK_CONDITIONS, ConditionsValue(x))
    modifies e
    ensures Wrote(UNLOCK_CONDITIONS, old(e.out), ConditionsValue(x), e.out)
  {
    hide Wrote, Conforms;
    ghost var s0, v0 := UNLOCK_CONDITIONS, ConditionsValue(x);
    PairConforms(s0, v0);
    ghost var s1, v1 := s0.second, v0.second;
    PairConforms(s1, v1);
    ghost var o0 := e.out;
    e.WriteUint64(x.timelock);
    ghost var o1 := e.out;
    MarshalSiaPublicKeys(e, x.publicKeys);
    ghost var o2 := e.out;
    e.WriteUint64(x.signaturesRequired);
    PairWrote(s1, o1, v1, o2, e.out);
    PairWrote(s0, o0, v0, o1, e.out);
  }

  method MarshalSiacoinInput(e: EncHelper, x: SiacoinInput)
    requires Conforms(SIACOIN_INPUT, SiacoinInputValue(x))
    modifies e
    ensures Wrote(SIACOIN_INPUT, old(e.out), SiacoinInputValue(x), e.out)
  {
    hide Wrote, Conforms;
    ghost var s0, v0 := SIACOIN_INPUT, SiacoinInputValue(x);
    PairConforms(s0, v0);
    ghost var o0 := e.out;
    FixedLength(32, x.parentID);
    e.Write(x.parentID);
    ghost var o1 := e.out;
    MarshalUnlockConditions(e, x.unlockConditions);
    PairWrote(s0, o0, v0, o1, e.out);
  }

  method MarshalSiacoinOutput(e: EncHelper, x: SiacoinOutput)
    requires Conforms(SIACOIN_OUTPUT, SiacoinOutputValue(x))
    modifies e
    ensures Wrote(SIACOIN_OUTPUT, old(e.out), SiacoinOutputValue(x), e.out)
  {
    hide Wrote, Conforms;
    ghost var s0, v0 := SIACOIN_OUTPUT, SiacoinOutputValue(x);
    PairConforms(s0, v0);
    ghost var o0 := e.out;
    e.WriteMoney(x.value);
    ghost var o1 := e.out;
    FixedLength(32, x.unlockHash);
    e.Write(x.unlockHash);
    PairWrote(s0, o0, v0, o1, e.out);
  }

  method MarshalSiacoinOutputs(e: EncHelper, xs: seq<SiacoinOutput>)
    requires Conforms(SIACOIN_OUTPUTS, Items(Values(xs, SiacoinOutputValue)))
    modifies e
    ensures Wrote(SIACOIN_OUTPUTS, old(e.out), Items(Values(xs, SiacoinOutputValue)), e.out)
  {
    hide Wrote, WroteAll;
    ghost var a, vs := e.out, Values(xs, SiacoinOutputValue);
    e.WriteUint64(|xs|);
    ghost var b := e.out;
    WroteNone(SIACOIN_OUTPUT, b);
    for i := 0 to |xs|
      invariant WroteAll(SIACOIN_OUTPUT, b, vs[..i], e.out)
    {
      ghost var c := e.out;
      MarshalSiacoinOutput(e, xs[i]);
      WroteStep(SIACOIN_OUTPUT, b, vs[..i], c, vs[i], e.out);
      ValuesSnoc(xs, i, SiacoinOutputValue);
    }
    assert vs[..|vs|] == vs;
    ListWrote(SIACOIN_OUTPUTS, a, vs, b, e.out);
  }

  method MarshalFileContract(e: EncHelper, x: FileContract)
    requires Conforms(FILE_CONTRACT, ContractValue(x))
    modifies e
    ensures Wrote(FILE_CONTRACT, old(e.out), ContractValue(x), e.out)
  {
    hide Wrote, Conforms;
    ghost var s0, v0 := FILE_CONTRACT, ContractValue(x);
    PairConforms(s0, v0);
    ghost var s1, v1 := s0.second, v0.second;
    PairConforms(s1, v1);
    ghost var s2, v2 := s1.second, v1.second;
    PairConforms(s2, v2);
    ghost var s3, v3 := s2.second, v2.second;
    PairConforms(s3, v3);
    ghost var s4, v4 := s3.second, v3.second;
    PairConforms(s4, v4);
    ghost var s5, v5 := s4.second, v4.second;
    PairConforms(s5, v5);
    ghost var s6, v6 := s5.second, v5.second;
    PairConforms(s6, v6);
    ghost var s7, v7 := s6.second, v6.second;
    PairConforms(s7, v7);
    ghost var o0 := e.out;
    e.WriteUint64(x.fileSize);
    ghost var o1 := e.out;
    FixedLength(32, x.fileMerkleRoot);
    e.Write(x.fileMerkleRoot);
    ghost var o2 := e.out;
    e.WriteUint64(x.windowStart);
    ghost var o3 := e.out;
    e.WriteUint64(x.windowEnd);
    ghost var o4 := e.out;
    e.WriteMoney(x.payout);
    ghost var o5 := e.out;
    MarshalSiacoinOutputs(e, x.validProofOutputs);
    ghost var o6 := e.out;
    MarshalSiacoinOutputs(e, x.missedProofOutputs);
    ghost var o7 := e.out;
    FixedLength(32, x.unlockHash);
    e.Write(x.unlockHash);
    ghost var o8 := e.out;
    e.WriteUint64(x.revisionNumber);
    PairWrote(s7, o7, v7, o8, e.out);
    PairWrote(s6, o6, v6, o7, e.out);
    PairWrote(s5, o5, v5, o6, e.out);
    PairWrote(s4, o4, v4, o5, e.out);
    PairWrote(s3, o3, v3, o4, e.out);
    PairWrote(s2, o2, v2, o3, e.out);
    PairWrote(s1, o1, v1, o2, e.out);
    PairWrote(s0, o0, v0, o1, e.out);
  }

  method MarshalFileContractRevision(e: EncHelper, x: FileContractRevision)
    requires Conforms(FILE_CONTRACT_REVISION, RevisionValue(x))
    modifies e
    ensures Wrote(FILE_CONTRACT_REVISION, old(e.out), RevisionValue(x), e.out)
  {
    hide Wrote, Conforms;
    ghost var s0, v0 := FILE_CONTRACT_REVISION, RevisionValue(x);
    PairConforms(s0, v0);
    ghost var s1, v1 := s0.second, v0.second;
    PairConforms(s1, v1);
    ghost var s2, v2 := s1.second, v1.second;
    PairConforms(s2, v2);
    ghost var s3, v3 := s2.second, v2.second;
    PairConforms(s3, v3);
    ghost var s4, v4 := s3.second, v3.second;
    PairConforms(s4, v4);
    ghost var s5, v5 := s4.second, v4.second;
    PairConforms(s5, v5);
    ghost var s6, v6 := s5.second, v5.second;
    PairConforms(s6, v6);
    ghost var s7, v7 := s6.second, v6.second;
    PairConforms(s7, v7);
    ghost var s8, v8 := s7.second, v7.second;
    PairConforms(s8, v8);
    ghost var o0 := e.out;
    FixedLength(32, x.parentID);
    e.Write(x.parentID);
    ghost var o1 := e.out;
    MarshalUnlockConditions(e, x.unlockConditions);
    ghost var o2 := e.out;
    e.WriteUint64(x.newRevisionNumber);
    ghost var o3 := e.out;
    e.WriteUint64(x.newFileSize);
    ghost var o4 := e.out;
    FixedLength(32, x.newFileMerkleRoot);
    e.Write(x.newFileMerkleRoot);
    ghost var o5 := e.out;
    e.WriteUint64(x.newWindowStart);
    ghost var o6 := e.out;
    e.WriteUint64(x.newWindowEnd);
    ghost var o7 := e.out;
    MarshalSiacoinOutputs(e, x.newValidProofOutputs);
    ghost var o8 := e.out;
    MarshalSiacoinOutputs(e, x.newMissedProofOutputs);
    ghost var o9 := e.out;
    FixedLength(32, x.newUnlockHash);
    e.Write(x.newUnlockHash);
    PairWrote(s8, o8, v8, o9, e.out);
    PairWrote(s7, o7, v7, o8, e.out);
    PairWrote(s6, o6, v6, o7, e.out);
    PairWrote(s5, o5, v5, o6, e.out);
    PairWrote(s4, o4, v4, o5, e.out);
    PairWrote(s3, o3, v3, o4, e.out);
    PairWrote(s2, o2, v2, o3, e.out);
    PairWrote(s1, o1, v1, o2, e.out);
    PairWrote(s0, o0, v0, o1, e.out);
  }

  method MarshalHashes(e: EncHelper, xs: seq<seq<Byte>>)
    requires Conforms(ListOf(HASH, 32), Items(Values(xs, BytesValue)))
    modifies e
    ensures Wrote(ListOf(HASH, 32), old(e.out), Items(Values(xs, BytesValue)), e.out)
  {
    hide Wrote, WroteAll;
    ghost var a, vs := e.out, Values(xs, BytesValue);
    e.WriteUint64(|xs|);
    ghost var b := e.out;
    WroteNone(HASH, b);
    for i := 0 to |xs|
      invariant WroteAll(HASH, b, vs[..i], e.out)
    {
      ghost var c := e.out;
      e.Write(xs[i]);
      WroteStep(HASH, b, vs[..i], c, vs[i], e.out);
      ValuesSnoc(xs, i, BytesValue);
    }
    assert vs[..|vs|] == vs;
    ListWrote(ListOf(HASH, 32), a, vs, b, e.out);
  }

  method MarshalStorageProof(e: EncHelper, x: StorageProof)
    requires Conforms(STORAGE_PROOF, ProofValue(x))
    modifies e
    ensures Wrote(STORAGE_PROOF, old(e.out), ProofValue(x), e.out)
  {
    hide Wrote, Conforms;
    ghost var s0, v0 := STORAGE_PROOF, ProofValue(x);
    PairConforms(s0, v0);
    ghost var s1, v1 := s0.second, v0.second;
    PairConforms(s1, v1);
    ghost var o0 := e.out;
    FixedLength(32, x.parentID);
    e.Write(x.parentID);
    ghost var o1 := e.out;
    FixedLength(64, x.segment);
    e.Write(x.segment);
    ghost var o2 := e.out;
    MarshalHashes(e, x.hashSet);
    PairWrote(s1, o1, v1, o2, e.out);
    PairWrote(s0, o0, v0, o1, e.out);
  }

  method MarshalSiafundInput(e: EncHelper, x: SiafundInput)
    requires Conforms(SIAFUND_INPUT, SiafundInputValue(x))
    modifies e
    ensures Wrote(SIAFUND_INPUT, old(e.out), SiafundInputValue(x), e.out)
  {
    hide Wrote, Conforms;
    ghost var s0, v0 := SIAFUND_INPUT, SiafundInputValue(x);
    PairConforms(s0, v0);
    ghost var s1, v1 := s0.second, v0.second;
    PairConforms(s1, v1);
    ghost var o0 := e.out;
    FixedLength(32, x.parentID);
    e.Write(x.parentID);
    ghost var o1 := e.out;
    MarshalUnlockConditions(e, x.unlockConditions);
    ghost var o2 := e.out;
    FixedLength(32, x.claimUnlockHash);
    e.Write(x.claimUnlockHash);
    PairWrote(s1, o1, v1, o2, e.out);
    PairWrote(s0, o0, v0, o1, e.out);
  }

  method MarshalSiafundOutput(e: EncHelper, x: SiafundOutput)
    requires Conforms(SIAFUND_OUTPUT, SiafundOutputValue(x))
    modifies e
    ensures Wrote(SIAFUND_OUTPUT, old(e.out), SiafundOutputValue(x), e.out)
  {
    hide Wrote, Conforms;
    ghost var s0, v0 := SIAFUND_OUTPUT, SiafundOutputValue(x);
    PairConforms(s0, v0);
    ghost var s1, v1 := s0.second, v0.second;
    PairConforms(s1, v1);
    ghost var o0 := e.out;
    e.WriteMoney(x.value);
    ghost var o1 := e.out;
    FixedLength(32, x.unlockHash);
    e.Write(x.unlockHash);
    ghost var o2 := e.out;
    e.WriteMoney(x.claimStart);
    PairWrote(s1, o1, v1, o2, e.out);
    PairWrote(s0, o0, v0, o1, e.out);
  }

  method MarshalIndices(e: EncHelper, xs: seq<nat>)
    requires Conforms(INDICES, Items(Values(xs, NumValue)))
    modifies e
    ensures Wrote(INDICES, old(e.out), Items(Values(xs, NumValue)), e.out)
  {
    hide Wrote, WroteAll;
    ghost var a, vs := e.out, Values(xs, NumValue);
    e.WriteUint64(|xs|);
    ghost var b := e.out;
    WroteNone(Uint64, b);
    for i := 0 to |xs|
      invariant WroteAll(Uint64, b, vs[..i], e.out)
    {
      ghost var c := e.out;
      e.WriteUint64(xs[i]);
      WroteStep(Uint64, b, vs[..i], c, vs[i], e.out);
      ValuesSnoc(xs, i, NumValue);
    }
    assert vs[..|vs|] == vs;
    ListWrote(INDICES, a, vs, b, e.out);
  }

  method MarshalCoveredFields(e: EncHelper, x: CoveredFields)
    requires Conforms(COVERED_FIELDS, CoveredValue(x))
    modifies e
    ensures Wrote(COVERED_FIELDS, old(e.out), CoveredValue(x), e.out)
  {
    hide Wrote, WroteAll;
    ghost var a := e.out;
    e.WriteBool(x.wholeTransaction);
    ghost var b := e.out;
    var fields := CoveredLists(x);
    ghost var vs := Values(fields, IndicesValue);
    WroteNone(INDICES, b);
    for i := 0 to |fields|
      invariant WroteAll(INDICES, b, vs[..i], e.out)
    {
      ghost var c := e.out;
      MarshalIndices(e, fields[i]);
      WroteStep(INDICES, b, vs[..i], c, vs[i], e.out);
      ValuesSnoc(fields, i, IndicesValue);
    }
    assert vs[..|vs|] == vs;
    RepeatWrote(COVERED_FIELDS.second, b, vs, e.out);
    PairWrote(COVERED_FIELDS, a, CoveredValue(x), b, e.out);
  }

  method MarshalTransactionSignature(e: EncHelper, x: TransactionSignature)
    requires Conforms(SIGNATURE, SignatureValue(x))
    modifies e
    ensures Wrote(SIGNATURE, old(e.out), SignatureValue(x), e.out)
  {
    hide Wrote, Conforms;
    ghost var s0, v0 := SIGNATURE, SignatureValue(x);
    PairConforms(s0, v0);
    ghost var s1, v1 := s0.second, v0.second;
    PairConforms(s1, v1);
    ghost var s2, v2 := s1.second, v1.second;
    PairConforms(s2, v2);
    ghost var s3, v3 := s2.second, v2.second;
    PairConforms(s3, v3);
    ghost var o0 := e.out;
    FixedLength(32, x.parentID);
    e.Write(x.parentID);
    ghost var o1 := e.out;
    e.WriteUint64(x.publicKeyIndex);
    ghost var o2 := e.out;
    e.WriteUint64(x.timelock);
    ghost var o3 := e.out;
    MarshalCoveredFields(e, x.coveredFields);
    ghost var o4 := e.out;
    e.WritePrefix(x.signature);
    PairWrote(s3, o3, v3, o4, e.out);
    PairWrote(s2, o2, v2, o3, e.out);
    PairWrote(s1, o1, v1, o2, e.out);
    PairWrote(s0, o0, v0, o1, e.out);
  }

  method MarshalSiacoinInputs(e: EncHelper, xs: seq<SiacoinInput>)
    requires Conforms(ListOf(SIACOIN_INPUT, 72), Items(Values(xs, SiacoinInputValue)))
    modifies e
    ensures Wrote(ListOf(SIACOIN_INPUT, 72), old(e.out), Items(Values(xs, SiacoinInputValue)), e.out)
  {
    hide Wrote, WroteAll;
    ghost var a, vs := e.out, Values(xs, SiacoinInputValue);
    e.WriteUint64(|xs|);
    ghost var b := e.out;
    WroteNone(SIACOIN_INPUT, b);
    for i := 0 to |xs|
      invariant WroteAll(SIACOIN_INPUT, b, vs[..i], e.out)
    {
      ghost var c := e.out;
      MarshalSiacoinInput(e, xs[i]);
      WroteStep(SIACOIN_INPUT, b, vs[..i], c, vs[i], e.out);
      ValuesSnoc(xs, i, SiacoinInputValue);
    }
    assert vs[..|vs|] == vs;
    ListWrote(ListOf(SIACOIN_INPUT, 72), a, vs, b, e.out);
  }

  method MarshalFileContracts(e: EncHelper, xs: seq<FileContract>)
    requires Conforms(ListOf(FILE_CONTRACT, 176), Items(Values(xs, ContractValue)))
    modifies e
    ensures Wrote(ListOf(FILE_CONTRACT, 176), old(e.out), Items(Values(xs, ContractValue)), e.out)
  {
    hide Wrote, WroteAll;
    ghost var a, vs := e.out, Values(xs, ContractValue);
    e.WriteUint64(|xs|);
    ghost var b := e.out;
    WroteNone(FILE_CONTRACT, b);
    for i := 0 to |xs|
      invariant WroteAll(FILE_CONTRACT, b, vs[..i], e.out)
    {
      ghost var c := e.out;
      MarshalFileContract(e, xs[i]);
      WroteStep(FILE_CONTRACT, b, vs[..i], c, vs[i], e.out);
      ValuesSnoc(xs, i, ContractValue);
    }
    assert vs[..|vs|] == vs;
    ListWrote(ListOf(FILE_CONTRACT, 176), a, vs, b, e.out);
  }

  method MarshalFileContractRevisions(e: EncHelper, xs: seq<FileContractRevision>)
    requires Conforms(ListOf(FILE_CONTRACT_REVISION, 216), Items(Values(xs, RevisionValue)))
    modifies e
    ensures Wrote(ListOf(FILE_CONTRACT_REVISION, 216), old(e.out), Items(Values(xs, RevisionValue)), e.out)
  {
    hide Wrote, WroteAll;
    ghost var a, vs := e.out, Values(xs, RevisionValue);
    e.WriteUint64(|xs|);
    ghost var b := e.out;
    WroteNone(FILE_CONTRACT_REVISION, b);
    for i := 0 to |xs|
      invariant WroteAll(FILE_CONTRACT_REVISION, b, vs[..i], e.out)
    {
      ghost var c := e.out;
      MarshalFileContractRevision(e, xs[i]);
      WroteStep(FILE_CONTRACT_REVISION, b, vs[..i], c, vs[i], e.out);
      ValuesSnoc(xs, i, RevisionValue);
    }
    assert vs[..|vs|] == vs;
    ListWrote(ListOf(FILE_CONTRACT_REVISION, 216), a, vs, b, e.out);
  }

  method MarshalStorageProofs(e: EncHelper, xs: seq<StorageProof>)
    requires Conforms(ListOf(STORAGE_PROOF, 120), Items(Values(xs, ProofValue)))
    modifies e
    ensures Wrote(ListOf(STORAGE_PROOF, 120), old(e.out), Items(Values(xs, ProofValue)), e.out)
  {
    hide Wrote, WroteAll;
    ghost var a, vs := e.out, Values(xs, ProofValue);
    e.WriteUint64(|xs|);
    ghost var b := e.out;
    WroteNone(STORAGE_PROOF, b);
    for i := 0 to |xs|
      invariant WroteAll(STORAGE_PROOF, b, vs[..i], e.out)
    {
      ghost var c := e.out;
      MarshalStorageProof(e, xs[i]);
      WroteStep(STORAGE_PROOF, b, vs[..i], c, vs[i], e.out);
      ValuesSnoc(xs, i, ProofValue);
    }
    assert vs[..|vs|] == vs;
    ListWrote(ListOf(STORAGE_PROOF, 120), a, vs, b, e.out);
  }

  method MarshalSiafundInputs(e: EncHelper, xs: seq<SiafundInput>)
    requires Conforms(ListOf(SIAFUND_INPUT, 104), Items(Values(xs, SiafundInputValue)))
    modifies e
    ensures Wrote(ListOf(SIAFUND_INPUT, 104), old(e.out), Items(Values(xs, SiafundInputValue)), e.out)
  {
    hide Wrote, WroteAll;
    ghost var a, vs := e.out, Values(xs, SiafundInputValue);
    e.WriteUint64(|xs|);
    ghost var b := e.out;
    WroteNone(SIAFUND_INPUT, b);
    for i := 0 to |xs|
      invariant WroteAll(SIAFUND_INPUT, b, vs[..i], e.out)
    {
      ghost var c := e.out;
      MarshalSiafundInput(e, xs[i]);
      WroteStep(SIAFUND_INPUT, b, vs[..i], c, vs[i], e.out);
      ValuesSnoc(xs, i, SiafundInputValue);
    }
    assert vs[..|vs|] == vs;
    ListWrote(ListOf(SIAFUND_INPUT, 104), a, vs, b, e.out);
  }

  method MarshalSiafundOutputs(e: EncHelper, xs: seq<SiafundOutput>)
    requires Conforms(ListOf(SIAFUND_OUTPUT, 96), Items(Values(xs, SiafundOutputValue)))
    modifies e
    ensures Wrote(ListOf(SIAFUND_OUTPUT, 96), old(e.out), Items(Values(xs, SiafundOutputValue)), e.out)
  {
    hide Wrote, WroteAll;
    ghost var a, vs := e.out, Values(xs, SiafundOutputValue);
    e.WriteUint64(|xs|);
    ghost var b := e.out;
    WroteNone(SIAFUND_OUTPUT, b);
    for i := 0 to |xs|
      invariant WroteAll(SIAFUND_OUTPUT, b, vs[..i], e.out)
    {
      ghost var c := e.out;
      MarshalSiafundOutput(e, xs[i]);
      WroteStep(SIAFUND_OUTPUT, b, vs[..i], c, vs[i], e.out);
      ValuesSnoc(xs, i, SiafundOutputValue);
    }
    assert vs[..|vs|] == vs;
    ListWrote(ListOf(SIAFUND_OUTPUT, 96), a, vs, b, e.out);
  }

  method MarshalCurrencies(e: EncHelper, xs: seq<nat>)
    requires Conforms(ListOf(Money, 32), Items(Values(xs, NumValue)))
    modifies e
    ensures Wrote(ListOf(Money, 32), old(e.out), Items(Values(xs, NumValue)), e.out)
  {
    hide Wrote, WroteAll;
    ghost var a, vs := e.out, Values(xs, NumValue);
    e.WriteUint64(|xs|);
    ghost var b := e.out;
    WroteNone(Money, b);
    for i := 0 to |xs|
      invariant WroteAll(Money, b, vs[..i], e.out)
    {
      ghost var c := e.out;
      e.WriteMoney(xs[i]);
      WroteStep(Money, b, vs[..i], c, vs[i], e.out);
      ValuesSnoc(xs, i, NumValue);
    }
    assert vs[..|vs|] == vs;
    ListWrote(ListOf(Money, 32), a, vs, b, e.out);
  }

  method MarshalByteStrings(e: EncHelper, xs: seq<seq<Byte>>)
    requires Conforms(ListOf(Bytes, 24), Items(Values(xs, BytesValue)))
    modifies e
    ensures Wrote(ListOf(Bytes, 24), old(e.out), Items(Values(xs, BytesValue)), e.out)
  {
    hide Wrote, WroteAll;
    ghost var a, vs := e.out, Values(xs, BytesValue);
    e.WriteUint64(|xs|);
    ghost var b := e.out;
    WroteNone(Bytes, b);
    for i := 0 to |xs|
      invariant WroteAll(Bytes, b, vs[..i], e.out)
    {
      ghost var c := e.out;
      e.WritePrefix(xs[i]);
      WroteStep(Bytes, b, vs[..i], c, vs[i], e.out);
      ValuesSnoc(xs, i, BytesValue);
    }
    assert vs[..|vs|] == vs;
    ListWrote(ListOf(Bytes, 24), a, vs, b, e.out);
  }

  method MarshalTransactionSignatures(e: EncHelper, xs: seq<TransactionSignature>)
    requires Conforms(ListOf(SIGNATURE, 320), Items(Values(xs, SignatureValue)))
    modifies e
    ensures Wrote(ListOf(SIGNATURE, 320), old(e.out), Items(Values(xs, SignatureValue)), e.out)
  {
    hide Wrote, WroteAll;
    ghost var a, vs := e.out, Values(xs, SignatureValue);
    e.WriteUint64(|xs|);
    ghost var b := e.out;
    WroteNone(SIGNATURE, b);
    for i := 0 to |xs|
      invariant WroteAll(SIGNATURE, b, vs[..i], e.out)
    {
      ghost var c := e.out;
      MarshalTransactionSignature(e, xs[i]);
      WroteStep(SIGNATURE, b, vs[..i], c, vs[i], e.out);
      ValuesSnoc(xs, i, SignatureValue);
    }
    assert vs[..|vs|] == vs;
    ListWrote(ListOf(SIGNATURE, 320), a, vs, b, e.out);
  }

  method MarshalNoSignatures(e: EncHelper, x: Transaction)
    requires Conforms(UNSIGNED_TRANSACTION, UnsignedValue(x))
    modifies e
    ensures Wrote(UNSIGNED_TRANSACTION, old(e.out), UnsignedValue(x), e.out)
  {
    hide Wrote, Conforms;
    ghost var s0, v0 := UNSIGNED_TRANSACTION, UnsignedValue(x);
    PairConforms(s0, v0);
    ghost var s1, v1 := s0.second, v0.second;
    PairConforms(s1, v1);
    ghost var s2, v2 := s1.second, v1.second;
    PairConforms(s2, v2);
    ghost var s3, v3 := s2.second, v2.second;
    PairConforms(s3, v3);
    ghost var s4, v4 := s3.second, v3.second;
    PairConforms(s4, v4);
    ghost var s5, v5 := s4.second, v4.second;
    PairConforms(s5, v5);
    ghost var s6, v6 := s5.second, v5.second;
    PairConforms(s6, v6);
    ghost var s7, v7 := s6.second, v6.second;
    PairConforms(s7, v7);
    ghost var o0 := e.out;
    MarshalSiacoinInputs(e, x.siacoinInputs);
    ghost var o1 := e.out;
    MarshalSiacoinOutputs(e, x.siacoinOutputs);
    ghost var o2 := e.out;
    MarshalFileContracts(e, x.fileContracts);
    ghost var o3 := e.out;
    MarshalFileContractRevisions(e, x.fileContractRevisions);
    ghost var o4 := e.out;
    MarshalStorageProofs(e, x.storageProofs);
    ghost var o5 := e.out;
    MarshalSiafundInputs(e, x.siafundInputs);
    ghost var o6 := e.out;
    MarshalSiafundOutputs(e, x.siafundOutputs);
    ghost var o7 := e.out;
    MarshalCurrencies(e, x.minerFees);
    ghost var o8 := e.out;
    MarshalByteStrings(e, x.arbitraryData);
    PairWrote(s7, o7, v7, o8, e.out);
    PairWrote(s6, o6, v6, o7, e.out);
    PairWrote(s5, o5, v5, o6, e.out);
    PairWrote(s4, o4, v4, o5, e.out);
    PairWrote(s3, o3, v3, o4, e.out);
    PairWrote(s2, o2, v2, o3, e.out);
    PairWrote(s1, o1, v1, o2, e.out);
    PairWrote(s0, o0, v0, o1, e.out);
  }

  method MarshalTransaction(e: EncHelper, x: Transaction)
    requires Conforms(TRANSACTION, TransactionValue(x))
    modifies e
    ensures Wrote(TRANSACTION, old(e.out), TransactionValue(x), e.out)
  {
    hide Wrote, Conforms;
    PairConforms(TRANSACTION, TransactionValue(x));
    ghost var a := e.out;
    MarshalNoSignatures(e, x);
    ghost var b := e.out;
    MarshalTransactionSignatures(e, x.transactionSignatures);
    PairWrote(TRANSACTION, a, TransactionValue(x), b, e.out);
  }

  method MarshalTransactions(e: EncHelper, xs: seq<Transaction>)
    requires Conforms(ListOf(TRANSACTION, 240), Items(Values(xs, TransactionValue)))
    modifies e
    ensures Wrote(ListOf(TRANSACTION, 240), old(e.out), Items(Values(xs, TransactionValue)), e.out)
  {
    hide Wrote, WroteAll;
    ghost var a, vs := e.out, Values(xs, TransactionValue);
    e.WriteUint64(|xs|);
    ghost var b := e.out;
    WroteNone(TRANSACTION, b);
    for i := 0 to |xs|
      invariant WroteAll(TRANSACTION, b, vs[..i], e.out)
    {
      ghost var c := e.out;
      MarshalTransaction(e, xs[i]);
      WroteStep(TRANSACTION, b, vs[..i], c, vs[i], e.out);
      ValuesSnoc(xs, i, TransactionValue);
    }
    assert vs[..|vs|] == vs;
    ListWrote(ListOf(TRANSACTION, 240), a, vs, b, e.out);
  }

  method MarshalBlock(e: EncHelper, x: Block)
    requires Conforms(BLOCK, BlockValue(x))
    modifies e
    ensures Wrote(BLOCK, old(e.out), BlockValue(x), e.out)
  {
    hide Wrote, Conforms;
    ghost var s0, v0 := BLOCK, BlockValue(x);
    PairConforms(s0, v0);
    ghost var s1, v1 := s0.second, v0.second;
    PairConforms(s1, v1);
    ghost var s2, v2 := s1.second, v1.second;
    PairConforms(s2, v2);
    ghost var s3, v3 := s2.second, v2.second;
    PairConforms(s3, v3);
    ghost var o0 := e.out;
    FixedLength(32, x.parentID);
    e.Write(x.parentID);
    ghost var o1 := e.out;
    FixedLength(8, x.nonce);
    e.Write(x.nonce);
    ghost var o2 := e.out;
    e.WriteUint64(x.timestamp);
    ghost var o3 := e.out;
    MarshalSiacoinOutputs(e, x.minerPayouts);
    ghost var o4 := e.out;
    MarshalTransactions(e, x.transactions);
    PairWrote(s3, o3, v3, o4, e.out);
    PairWrote(s2, o2, v2, o3, e.out);
    PairWrote(s1, o1, v1, o2, e.out);
    PairWrote(s0, o0, v0, o1, e.out);
  }

  // ---------------------------------------------------------------- UnmarshalSia

  method UnmarshalSiaPublicKey(d: DecHelper) returns (x: SiaPublicKey)
    requires Sane(d.State())
    modifies d
    ensures Sane(d.State()) && Outcome(PUBLIC_KEY, old(d.State()), KeyValue(x), d.State())
  {
    hide Outcome;
    ghost var o0 := d.State();
    var algorithm := d.ReadFull(16);
    ghost var o1 := d.State();
    var key := d.ReadPrefix();
    x := SiaPublicKey(algorithm, key);
    ghost var s0, v0 := PUBLIC_KEY, KeyValue(x);
    PairOutcome(s0, o0, v0, o1, d.State());
  }

  method UnmarshalSiaPublicKeys(d: DecHelper) returns (xs: seq<SiaPublicKey>)
    requires Sane(d.State())
    modifies d
    ensures Sane(d.State()) && Outcome(ListOf(PUBLIC_KEY, 40), old(d.State()), Items(Values(xs, KeyValue)), d.State())
  {
    hide Outcome, AllOutcome, CountOutcome;
    ghost var a := d.State();
    var count := d.NextPrefix(40);
    ghost var b := d.State();
    xs := [];
    AllStart(PUBLIC_KEY, b);
    assert Values(xs, KeyValue) == [];
    for i := 0 to count
      invariant Sane(d.State()) && AllOutcome(PUBLIC_KEY, i, b, Values(xs, KeyValue), d.State())
    {
      ghost var c := d.State();
      var x := UnmarshalSiaPublicKey(d);
      AllStep(PUBLIC_KEY, i, b, Values(xs, KeyValue), c, KeyValue(x), d.State());
      ValuesMore(xs, x, KeyValue);
      xs := xs + [x];
    }
    ListOutcome(ListOf(PUBLIC_KEY, 40), a, count, b, Values(xs, KeyValue), d.State());
  }

  method UnmarshalUnlockConditions(d: DecHelper) returns (x: UnlockConditions)
    requires Sane(d.State())
    modifies d
    ensures Sane(d.State()) && Outcome(UNLOCK_CONDITIONS, old(d.State()), ConditionsValue(x), d.State())
  {
    hide Outcome;
    ghost var o0 := d.State();
    var timelock := d.NextUint64();
    ghost var o1 := d.State();
    var publicKeys := UnmarshalSiaPublicKeys(d);
    ghost var o2 := d.State();
    var signaturesRequired := d.NextUint64();
    x := UnlockConditions(timelock, publicKeys, signaturesRequired);
    ghost var s0, v0 := UNLOCK_CONDITIONS, ConditionsValue(x);
    ghost var s1, v1 := s0.second, v0.second;
    PairOutcome(s1, o1, v1, o2, d.State());
    PairOutcome(s0, o0, v0, o1, d.State());
  }

  method UnmarshalSiacoinInput(d: DecHelper) returns (x: SiacoinInput)
    requires Sane(d.State())
    modifies d
    ensures Sane(d.State()) && Outcome(SIACOIN_INPUT, old(d.State()), SiacoinInputValue(x), d.State())
  {
    hide Outcome;
    ghost var o0 := d.State();
    var parentID := d.ReadFull(32);
    ghost var o1 := d.State();
    var unlockConditions := UnmarshalUnlockConditions(d);
    x := SiacoinInput(parentID, unlockConditions);
    ghost var s0, v0 := SIACOIN_INPUT, SiacoinInputValue(x);
    PairOutcome(s0, o0, v0, o1, d.State());
  }

  method UnmarshalSiacoinOutput(d: DecHelper) returns (x: SiacoinOutput)
    requires Sane(d.State())
    modifies d
    ensures Sane(d.State()) && Outcome(SIACOIN_OUTPUT, old(d.State()), SiacoinOutputValue(x), d.State())
  {
    hide Outcome;
    ghost var o0 := d.State();
    var value := d.ReadMoney();
    ghost var o1 := d.State();
    var unlockHash := d.ReadFull(32);
    x := SiacoinOutput(value, unlockHash);
    ghost var s0, v0 := SIACOIN_OUTPUT, SiacoinOutputValue(x);
    PairOutcome(s0, o0, v0, o1, d.State());
  }

  method UnmarshalSiacoinOutputs(d: DecHelper) returns (xs: seq<SiacoinOutput>)
    requires Sane(d.State())
    modifies d
    ensures Sane(d.State()) && Outcome(SIACOIN_OUTPUTS, old(d.State()), Items(Values(xs, SiacoinOutputValue)), d.State())
  {
    hide Outcome, AllOutcome, CountOutcome;
    ghost var a := d.State();
    var count := d.NextPrefix(64);
    ghost var b := d.State();
    xs := [];
    AllStart(SIACOIN_OUTPUT, b);
    assert Values(xs, SiacoinOutputValue) == [];
    for i := 0 to count
      invariant Sane(d.State()) && AllOutcome(SIACOIN_OUTPUT, i, b, Values(xs, SiacoinOutputValue), d.State())
    {
      ghost var c := d.State();
      var x := UnmarshalSiacoinOutput(d);
      AllStep(SIACOIN_OUTPUT, i, b, Values(xs, SiacoinOutputValue), c, SiacoinOutputValue(x), d.State());
      ValuesMore(xs, x, SiacoinOutputValue);
      xs := xs + [x];
    }
    ListOutcome(SIACOIN_OUTPUTS, a, count, b, Values(xs, SiacoinOutputValue), d.State());
  }

  method UnmarshalFileContract(d: DecHelper) returns (x: FileContract)
    requires Sane(d.State())
    modifies d
    ensures Sane(d.State()) && Outcome(FILE_CONTRACT, old(d.State()), ContractValue(x), d.State())
  {
    hide Outcome;
    ghost var o0 := d.State();
    var fileSize := d.NextUint64();
    ghost var o1 := d.State();
    var fileMerkleRoot := d.ReadFull(32);
    ghost var o2 := d.State();
    var windowStart := d.NextUint64();
    ghost var o3 := d.State();
    var windowEnd := d.NextUint64();
    ghost var o4 := d.State();
    var payout := d.ReadMoney();
    ghost var o5 := d.State();
    var validProofOutputs := UnmarshalSiacoinOutputs(d);
    ghost var o6 := d.State();
    var missedProofOutputs := UnmarshalSiacoinOutputs(d);
    ghost var o7 := d.State();
    var unlockHash := d.ReadFull(32);
    ghost var o8 := d.State();
    var revisionNumber := d.NextUint64();
    x := FileContract(
      fileSize, fileMerkleRoot, windowStart, windowEnd, payout, validProofOutputs, missedProofOutputs, unlockHash,
      revisionNumber);
    ghost var s0, v0 := FILE_CONTRACT, ContractValue(x);
    ghost var s1, v1 := s0.second, v0.second;
    ghost var s2, v2 := s1.second, v1.second;
    ghost var s3, v3 := s2.second, v2.second;
    ghost var s4, v4 := s3.second, v3.second;
    ghost var s5, v5 := s4.second, v4.second;
    ghost var s6, v6 := s5.second, v5.second;
    ghost var s7, v7 := s6.second, v6.second;
    PairOutcome(s7, o7, v7, o8, d.State());
    PairOutcome(s6, o6, v6, o7, d.State());
    PairOutcome(s5, o5, v5, o6, d.State());
    PairOutcome(s4, o4, v4, o5, d.State());
    PairOutcome(s3, o3, v3, o4, d.State());
    PairOutcome(s2, o2, v2, o3, d.State());
    PairOutcome(s1, o1, v1, o2, d.State());
    PairOutcome(s0, o0, v0, o1, d.State());
  }

  method UnmarshalFileContractRevision(d: DecHelper) returns (x: FileContractRevision)
    requires Sane(d.State())
    modifies d
    ensures Sane(d.State()) && Outcome(FILE_CONTRACT_REVISION, old(d.State()), RevisionValue(x), d.State())
  {
    hide Outcome;
    ghost var o0 := d.State();
    var parentID := d.ReadFull(32);
    ghost var o1 := d.State();
    var unlockConditions := UnmarshalUnlockConditions(d);
    ghost var o2 := d.State();
    var newRevisionNumber := d.NextUint64();
    ghost var o3 := d.State();
    var newFileSize := d.NextUint64();
    ghost var o4 := d.State();
    var newFileMerkleRoot := d.ReadFull(32);
    ghost var o5 := d.State();
    var newWindowStart := d.NextUint64();
    ghost var o6 := d.State();
    var newWindowEnd := d.NextUint64();
    ghost var o7 := d.State();
    var newValidProofOutputs := UnmarshalSiacoinOutputs(d);
    ghost var o8 := d.State();
    var newMissedProofOutputs := UnmarshalSiacoinOutputs(d);
    ghost var o9 := d.State();
    var newUnlockHash := d.ReadFull(32);
    x := FileContractRevision(
      parentID, unlockConditions, newRevisionNumber, newFileSize, newFileMerkleRoot, newWindowStart, newWindowEnd,
      newValidProofOutputs, newMissedProofOutputs, newUnlockHash);
    ghost var s0, v0 := FILE_CONTRACT_REVISION, RevisionValue(x);
    ghost var s1, v1 := s0.second, v0.second;
    ghost var s2, v2 := s1.second, v1.second;
    ghost var s3, v3 := s2.second, v2.second;
    ghost var s4, v4 := s3.second, v3.second;
    ghost var s5, v5 := s4.second, v4.second;
    ghost var s6, v6 := s5.second, v5.second;
    ghost var s7, v7 := s6.second, v6.second;
    ghost var s8, v8 := s7.second, v7.second;
    PairOutcome(s8, o8, v8, o9, d.State());
    PairOutcome(s7, o7, v7, o8, d.State());
    PairOutcome(s6, o6, v6, o7, d.State());
    PairOutcome(s5, o5, v5, o6, d.State());
    PairOutcome(s4, o4, v4, o5, d.State());
    PairOutcome(s3, o3, v3, o4, d.State());
    PairOutcome(s2, o2, v2, o3, d.State());
    PairOutcome(s1, o1, v1, o2, d.State());
    PairOutcome(s0, o0, v0, o1, d.State());
  }

  method UnmarshalHashes(d: DecHelper) returns (xs: seq<seq<Byte>>)
    requires Sane(d.State())
    modifies d
    ensures Sane(d.State()) && Outcome(ListOf(HASH, 32), old(d.State()), Items(Values(xs, BytesValue)), d.State())
  {
    hide Outcome, AllOutcome, CountOutcome;
    ghost var a := d.State();
    var count := d.NextPrefix(32);
    ghost var b := d.State();
    xs := [];
    AllStart(HASH, b);
    assert Values(xs, BytesValue) == [];
    for i := 0 to count
      invariant Sane(d.State()) && AllOutcome(HASH, i, b, Values(xs, BytesValue), d.State())
    {
      ghost var c := d.State();
      var x := d.ReadFull(32);
      AllStep(HASH, i, b, Values(xs, BytesValue), c, BytesValue(x), d.State());
      ValuesMore(xs, x, BytesValue);
      xs := xs + [x];
    }
    ListOutcome(ListOf(HASH, 32), a, count, b, Values(xs, BytesValue), d.State());
  }

  method UnmarshalStorageProof(d: DecHelper) returns (x: StorageProof)
    requires Sane(d.State())
    modifies d
    ensures Sane(d.State()) && Outcome(STORAGE_PROOF, old(d.State()), ProofValue(x), d.State())
  {
    hide Outcome;
    ghost var o0 := d.State();
    var parentID := d.ReadFull(32);
    ghost var o1 := d.State();
    var segment := d.ReadFull(64);
    ghost var o2 := d.State();
    var hashSet := UnmarshalHashes(d);
    x := StorageProof(parentID, segment, hashSet);
    ghost var s0, v0 := STORAGE_PROOF, ProofValue(x);
    ghost var s1, v1 := s0.second, v0.second;
    PairOutcome(s1, o1, v1, o2, d.State());
    PairOutcome(s0, o0, v0, o1, d.State());
  }

  method UnmarshalSiafundInput(d: DecHelper) returns (x: SiafundInput)
    requires Sane(d.State())
    modifies d
    ensures Sane(d.State()) && Outcome(SIAFUND_INPUT, old(d.State()), SiafundInputValue(x), d.State())
  {
    hide Outcome;
    ghost var o0 := d.State();
    var parentID := d.ReadFull(32);
    ghost var o1 := d.State();
    var unlockConditions := UnmarshalUnlockConditions(d);
    ghost var o2 := d.State();
    var claimUnlockHash := d.ReadFull(32);
    x := SiafundInput(parentID, unlockConditions, claimUnlockHash);
    ghost var s0, v0 := SIAFUND_INPUT, SiafundInputValue(x);
    ghost var s1, v1 := s0.second, v0.second;
    PairOutcome(s1, o1, v1, o2, d.State());
    PairOutcome(s0, o0, v0, o1, d.State());
  }

  method UnmarshalSiafundOutput(d: DecHelper) returns (x: SiafundOutput)
    requires Sane(d.State())
    modifies d
    ensures Sane(d.State()) && Outcome(SIAFUND_OUTPUT, old(d.State()), SiafundOutputValue(x), d.State())
  {
    hide Outcome;
    ghost var o0 := d.State();
    var value := d.ReadMoney();
    ghost var o1 := d.State();
    var unlockHash := d.ReadFull(32);
    ghost var o2 := d.State();
    var claimStart := d.ReadMoney();
    x := SiafundOutput(value, unlockHash, claimStart);
    ghost var s0, v0 := SIAFUND_OUTPUT, SiafundOutputValue(x);
    ghost var s1, v1 := s0.second, v0.second;
    PairOutcome(s1, o1, v1, o2, d.State());
    PairOutcome(s0, o0, v0, o1, d.State());
  }

  method UnmarshalIndices(d: DecHelper) returns (xs: seq<nat>)
    requires Sane(d.State())
    modifies d
    ensures Sane(d.State()) && Outcome(INDICES, old(d.State()), Items(Values(xs, NumValue)), d.State())
  {
    hide Outcome, AllOutcome, CountOutcome;
    ghost var a := d.State();
    var count := d.NextPrefix(8);
    ghost var b := d.State();
    xs := [];
    AllStart(Uint64, b);
    assert Values(xs, NumValue) == [];
    for i := 0 to count
      invariant Sane(d.State()) && AllOutcome(Uint64, i, b, Values(xs, NumValue), d.State())
    {
      ghost var c := d.State();
      var x := d.NextUint64();
      AllStep(Uint64, i, b, Values(xs, NumValue), c, NumValue(x), d.State());
      ValuesMore(xs, x, NumValue);
      xs := xs + [x];
    }
    ListOutcome(INDICES, a, count, b, Values(xs, NumValue), d.State());
  }

  method UnmarshalCoveredFields(d: DecHelper) returns (x: CoveredFields)
    requires Sane(d.State())
    modifies d
    ensures Sane(d.State()) && Outcome(COVERED_FIELDS, old(d.State()), CoveredValue(x), d.State())
  {
    hide Outcome, AllOutcome;
    ghost var a := d.State();
    var whole := d.NextBool();
    ghost var b := d.State();
    var fields: seq<seq<nat>> := [];
    AllStart(INDICES, b);
    assert Values(fields, IndicesValue) == [];
    for i := 0 to 10
      invariant |fields| == i && Sane(d.State()) && AllOutcome(INDICES, i, b, Values(fields, IndicesValue), d.State())
    {
      ghost var c := d.State();
      var f := UnmarshalIndices(d);
      AllStep(INDICES, i, b, Values(fields, IndicesValue), c, IndicesValue(f), d.State());
      ValuesMore(fields, f, IndicesValue);
      fields := fields + [f];
    }
    x := CoveredFields(whole, fields[0], fields[1], fields[2], fields[3], fields[4],
                       fields[5], fields[6], fields[7], fields[8], fields[9]);
    assert CoveredLists(x) == fields;
    RepeatOutcome(COVERED_FIELDS.second, b, Values(fields, IndicesValue), d.State());
    PairOutcome(COVERED_FIELDS, a, CoveredValue(x), b, d.State());
  }

  method UnmarshalTransactionSignature(d: DecHelper) returns (x: TransactionSignature)
    requires Sane(d.State())
    modifies d
    ensures Sane(d.State()) && Outcome(SIGNATURE, old(d.State()), SignatureValue(x), d.State())
  {
    hide Outcome;
    ghost var o0 := d.State();
    var parentID := d.ReadFull(32);
    ghost var o1 := d.State();
    var publicKeyIndex := d.NextUint64();
    ghost var o2 := d.State();
    var timelock := d.NextUint64();
    ghost var o3 := d.State();
    var coveredFields := UnmarshalCoveredFields(d);
    ghost var o4 := d.State();
    var signature := d.ReadPrefix();
    x := TransactionSignature(parentID, publicKeyIndex, timelock, coveredFields, signature);
    ghost var s0, v0 := SIGNATURE, SignatureValue(x);
    ghost var s1, v1 := s0.second, v0.second;
    ghost var s2, v2 := s1.second, v1.second;
    ghost var s3, v3 := s2.second, v2.second;
    PairOutcome(s3, o3, v3, o4, d.State());
    PairOutcome(s2, o2, v2, o3, d.State());
    PairOutcome(s1, o1, v1, o2, d.State());
    PairOutcome(s0, o0, v0, o1, d.State());
  }

  method UnmarshalSiacoinInputs(d: DecHelper) returns (xs: seq<SiacoinInput>)
    requires Sane(d.State())
    modifies d
    ensures Sane(d.State()) && Outcome(ListOf(SIACOIN_INPUT, 72), old(d.State()), Items(Values(xs, SiacoinInputValue)), d.State())
  {
    hide Outcome, AllOutcome, CountOutcome;
    ghost var a := d.State();
    var count := d.NextPrefix(72);
    ghost var b := d.State();
    xs := [];
    AllStart(SIACOIN_INPUT, b);
    assert Values(xs, SiacoinInputValue) == [];
    for i := 0 to count
      invariant Sane(d.State()) && AllOutcome(SIACOIN_INPUT, i, b, Values(xs, SiacoinInputValue), d.State())
    {
      ghost var c := d.State();
      var x := UnmarshalSiacoinInput(d);
      AllStep(SIACOIN_INPUT, i, b, Values(xs, SiacoinInputValue), c, SiacoinInputValue(x), d.State());
      ValuesMore(xs, x, SiacoinInputValue);
      xs := xs + [x];
    }
    ListOutcome(ListOf(SIACOIN_INPUT, 72), a, count, b, Values(xs, SiacoinInputValue), d.State());
  }

  method UnmarshalFileContracts(d: DecHelper) returns (xs: seq<FileContract>)
    requires Sane(d.State())
    modifies d
    ensures Sane(d.State()) && Outcome(ListOf(FILE_CONTRACT, 176), old(d.State()), Items(Values(xs, ContractValue)), d.State())
  {
    hide Outcome, AllOutcome, CountOutcome;
    ghost var a := d.State();
    var count := d.NextPrefix(176);
    ghost var b := d.State();
    xs := [];
    AllStart(FILE_CONTRACT, b);
    assert Values(xs, ContractValue) == [];
    for i := 0 to count
      invariant Sane(d.State()) && AllOutcome(FILE_CONTRACT, i, b, Values(xs, ContractValue), d.State())
    {
      ghost var c := d.State();
      var x := UnmarshalFileContract(d);
      AllStep(FILE_CONTRACT, i, b, Values(xs, ContractValue), c, ContractValue(x), d.State());
      ValuesMore(xs, x, ContractValue);
      xs := xs + [x];
    }
    ListOutcome(ListOf(FILE_CONTRACT, 176), a, count, b, Values(xs, ContractValue), d.State());
  }

  method UnmarshalFileContractRevisions(d: DecHelper) returns (xs: seq<FileContractRevision>)
    requires Sane(d.State())
    modifies d
    ensures Sane(d.State()) && Outcome(ListOf(FILE_CONTRACT_REVISION, 216), old(d.State()), Items(Values(xs, RevisionValue)), d.State())
  {
    hide Outcome, AllOutcome, CountOutcome;
    ghost var a := d.State();
    var count := d.NextPrefix(216);
    ghost var b := d.State();
    xs := [];
    AllStart(FILE_CONTRACT_REVISION, b);
    assert Values(xs, RevisionValue) == [];
    for i := 0 to count
      invariant Sane(d.State()) && AllOutcome(FILE_CONTRACT_REVISION, i, b, Values(xs, RevisionValue), d.State())
    {
      ghost var c := d.State();
      var x := UnmarshalFileContractRevision(d);
      AllStep(FILE_CONTRACT_REVISION, i, b, Values(xs, RevisionValue), c, RevisionValue(x), d.State());
      ValuesMore(xs, x, RevisionValue);
      xs := xs + [x];
    }
    ListOutcome(ListOf(FILE_CONTRACT_REVISION, 216), a, count, b, Values(xs, RevisionValue), d.State());
  }

  method UnmarshalStorageProofs(d: DecHelper) returns (xs: seq<StorageProof>)
    requires Sane(d.State())
    modifies d
    ensures Sane(d.State()) && Outcome(ListOf(STORAGE_PROOF, 120), old(d.State()), Items(Values(xs, ProofValue)), d.State())
  {
    hide Outcome, AllOutcome, CountOutcome;
    ghost var a := d.State();
    var count := d.NextPrefix(120);
    ghost var b := d.State();
    xs := [];
    AllStart(STORAGE_PROOF, b);
    assert Values(xs, ProofValue) == [];
    for i := 0 to count
      invariant Sane(d.State()) && AllOutcome(STORAGE_PROOF, i, b, Values(xs, ProofValue), d.State())
    {
      ghost var c := d.State();
      var x := UnmarshalStorageProof(d);
      AllStep(STORAGE_PROOF, i, b, Values(xs, ProofValue), c, ProofValue(x), d.State());
      ValuesMore(xs, x, ProofValue);
      xs := xs + [x];
    }
    ListOutcome(ListOf(STORAGE_PROOF, 120), a, count, b, Values(xs, ProofValue), d.State());
  }

  method UnmarshalSiafundInputs(d: DecHelper) returns (xs: seq<SiafundInput>)
    requires Sane(d.State())
    modifies d
    ensures Sane(d.State()) && Outcome(ListOf(SIAFUND_INPUT, 104), old(d.State()), Items(Values(xs, SiafundInputValue)), d.State())
  {
    hide Outcome, AllOutcome, CountOutcome;
    ghost var a := d.State();
    var count := d.NextPrefix(104);
    ghost var b := d.State();
    xs := [];
    AllStart(SIAFUND_INPUT, b);
    assert Values(xs, SiafundInputValue) == [];
    for i := 0 to count
      invariant Sane(d.State()) && AllOutcome(SIAFUND_INPUT, i, b, Values(xs, SiafundInputValue), d.State())
    {
      ghost var c := d.State();
      var x := UnmarshalSiafundInput(d);
      AllStep(SIAFUND_INPUT, i, b, Values(xs, SiafundInputValue), c, SiafundInputValue(x), d.State());
      ValuesMore(xs, x, SiafundInputValue);
      xs := xs + [x];
    }
    ListOutcome(ListOf(SIAFUND_INPUT, 104), a, count, b, Values(xs, SiafundInputValue), d.State());
  }

  method UnmarshalSiafundOutputs(d: DecHelper) returns (xs: seq<SiafundOutput>)
    requires Sane(d.State())
    modifies d
    ensures Sane(d.State()) && Outcome(ListOf(SIAFUND_OUTPUT, 96), old(d.State()), Items(Values(xs, SiafundOutputValue)), d.State())
  {
    hide Outcome, AllOutcome, CountOutcome;
    ghost var a := d.State();
    var count := d.NextPrefix(96);
    ghost var b := d.State();
    xs := [];
    AllStart(SIAFUND_OUTPUT, b);
    assert Values(xs, SiafundOutputValue) == [];
    for i := 0 to count
      invariant Sane(d.State()) && AllOutcome(SIAFUND_OUTPUT, i, b, Values(xs, SiafundOutputValue), d.State())
    {
      ghost var c := d.State();
      var x := UnmarshalSiafundOutput(d);
      AllStep(SIAFUND_OUTPUT, i, b, Values(xs, SiafundOutputValue), c, SiafundOutputValue(x), d.State());
      ValuesMore(xs, x, SiafundOutputValue);
      xs := xs + [x];
    }
    ListOutcome(ListOf(SIAFUND_OUTPUT, 96), a, count, b, Values(xs, SiafundOutputValue), d.State());
  }

  method UnmarshalCurrencies(d: DecHelper) returns (xs: seq<nat>)
    requires Sane(d.State())
    modifies d
    ensures Sane(d.State()) && Outcome(ListOf(Money, 32), old(d.State()), Items(Values(xs, NumValue)), d.State())
  {
    hide Outcome, AllOutcome, CountOutcome;
    ghost var a := d.State();
    var count := d.NextPrefix(32);
    ghost var b := d.State();
    xs := [];
    AllStart(Money, b);
    assert Values(xs, NumValue) == [];
    for i := 0 to count
      invariant Sane(d.State()) && AllOutcome(Money, i, b, Values(xs, NumValue), d.State())
    {
      ghost var c := d.State();
      var x := d.ReadMoney();
      AllStep(Money, i, b, Values(xs, NumValue), c, NumValue(x), d.State());
      ValuesMore(xs, x, NumValue);
      xs := xs + [x];
    }
    ListOutcome(ListOf(Money, 32), a, count, b, Values(xs, NumValue), d.State());
  }

  method UnmarshalByteStrings(d: DecHelper) returns (xs: seq<seq<Byte>>)
    requires Sane(d.State())
    modifies d
    ensures Sane(d.State()) && Outcome(ListOf(Bytes, 24), old(d.State()), Items(Values(xs, BytesValue)), d.State())
  {
    hide Outcome, AllOutcome, CountOutcome;
    ghost var a := d.State();
    var count := d.NextPrefix(24);
    ghost var b := d.State();
    xs := [];
    AllStart(Bytes, b);
    assert Values(xs, BytesValue) == [];
    for i := 0 to count
      invariant Sane(d.State()) && AllOutcome(Bytes, i, b, Values(xs, BytesValue), d.State())
    {
      ghost var c := d.State();
      var x := d.ReadPrefix();
      AllStep(Bytes, i, b, Values(xs, BytesValue), c, BytesValue(x), d.State());
      ValuesMore(xs, x, BytesValue);
      xs := xs + [x];
    }
    ListOutcome(ListOf(Bytes, 24), a, count, b, Values(xs, BytesValue), d.State());
  }

  method UnmarshalTransactionSignatures(d: DecHelper) returns (xs: seq<TransactionSignature>)
    requires Sane(d.State())
    modifies d
    ensures Sane(d.State()) && Outcome(ListOf(SIGNATURE, 320), old(d.State()), Items(Values(xs, SignatureValue)), d.State())
  {
    hide Outcome, AllOutcome, CountOutcome;
    ghost var a := d.State();
    var count := d.NextPrefix(320);
    ghost var b := d.State();
    xs := [];
    AllStart(SIGNATURE, b);
    assert Values(xs, SignatureValue) == [];
    for i := 0 to count
      invariant Sane(d.State()) && AllOutcome(SIGNATURE, i, b, Values(xs, SignatureValue), d.State())
    {
      ghost var c := d.State();
      var x := UnmarshalTransactionSignature(d);
      AllStep(SIGNATURE, i, b, Values(xs, SignatureValue), c, SignatureValue(x), d.State());
      ValuesMore(xs, x, SignatureValue);
      xs := xs + [x];
    }
    ListOutcome(ListOf(SIGNATURE, 320), a, count, b, Values(xs, SignatureValue), d.State());
  }

  method UnmarshalTransaction(d: DecHelper) returns (x: Transaction)
    requires Sane(d.State())
    modifies d
    ensures Sane(d.State()) && Outcome(TRANSACTION, old(d.State()), TransactionValue(x), d.State())
  {
    hide Outcome;
    ghost var o0 := d.State();
    var siacoinInputs := UnmarshalSiacoinInputs(d);
    ghost var o1 := d.State();
    var siacoinOutputs := UnmarshalSiacoinOutputs(d);
    ghost var o2 := d.State();
    var fileContracts := UnmarshalFileContracts(d);
    ghost var o3 := d.State();
    var fileContractRevisions := UnmarshalFileContractRevisions(d);
    ghost var o4 := d.State();
    var storageProofs := UnmarshalStorageProofs(d);
    ghost var o5 := d.State();
    var siafundInputs := UnmarshalSiafundInputs(d);
    ghost var o6 := d.State();
    var siafundOutputs := UnmarshalSiafundOutputs(d);
    ghost var o7 := d.State();
    var minerFees := UnmarshalCurrencies(d);
    ghost var o8 := d.State();
    var arbitraryData := UnmarshalByteStrings(d);
    ghost var o9 := d.State();
    var transactionSignatures := UnmarshalTransactionSignatures(d);
    x := Transaction(
      siacoinInputs, siacoinOutputs, fileContracts, fileContractRevisions, storageProofs, siafundInputs,
      siafundOutputs, minerFees, arbitraryData, transactionSignatures);
    ghost var s0, v0 := UNSIGNED_TRANSACTION, UnsignedValue(x);
    ghost var s1, v1 := s0.second, v0.second;
    ghost var s2, v2 := s1.second, v1.second;
    ghost var s3, v3 := s2.second, v2.second;
    ghost var s4, v4 := s3.second, v3.second;
    ghost var s5, v5 := s4.second, v4.second;
    ghost var s6, v6 := s5.second, v5.second;
    ghost var s7, v7 := s6.second, v6.second;
    PairOutcome(s7, o7, v7, o8, o9);
    PairOutcome(s6, o6, v6, o7, o9);
    PairOutcome(s5, o5, v5, o6, o9);
    PairOutcome(s4, o4, v4, o5, o9);
    PairOutcome(s3, o3, v3, o4, o9);
    PairOutcome(s2, o2, v2, o3, o9);
    PairOutcome(s1, o1, v1, o2, o9);
    PairOutcome(s0, o0, v0, o1, o9);
    PairOutcome(TRANSACTION, o0, TransactionValue(x), o9, d.State());
  }

  method UnmarshalTransactions(d: DecHelper) returns (xs: seq<Transaction>)
    requires Sane(d.State())
    modifies d
    ensures Sane(d.State()) && Outcome(ListOf(TRANSACTION, 240), old(d.State()), Items(Values(xs, TransactionValue)), d.State())
  {
    hide Outcome, AllOutcome, CountOutcome;
    ghost var a := d.State();
    var count := d.NextPrefix(240);
    ghost var b := d.State();
    xs := [];
    AllStart(TRANSACTION, b);
    assert Values(xs, TransactionValue) == [];
    for i := 0 to count
      invariant Sane(d.State()) && AllOutcome(TRANSACTION, i, b, Values(xs, TransactionValue), d.State())
    {
      ghost var c := d.State();
      var x := UnmarshalTransaction(d);
      AllStep(TRANSACTION, i, b, Values(xs, TransactionValue), c, TransactionValue(x), d.State());
      ValuesMore(xs, x, TransactionValue);
      xs := xs + [x];
    }
    ListOutcome(ListOf(TRANSACTION, 240), a, count, b, Values(xs, TransactionValue), d.State());
  }

  method UnmarshalBlock(d: DecHelper) returns (x: Block)
    requires Sane(d.State())
    modifies d
    ensures Sane(d.State()) && Outcome(BLOCK, old(d.State()), BlockValue(x), d.State())
  {
    hide Outcome;
    ghost var o0 := d.State();
    var parentID := d.ReadFull(32);
    ghost var o1 := d.State();
    var nonce := d.ReadFull(8);
    ghost var o2 := d.State();
    var timestamp := d.NextUint64();
    ghost var o3 := d.State();
    var minerPayouts := UnmarshalSiacoinOutputs(d);
    ghost var o4 := d.State();
    var transactions := UnmarshalTransactions(d);
    x := Block(parentID, nonce, timestamp, minerPayouts, transactions);
    ghost var s0, v0 := BLOCK, BlockValue(x);
    ghost var s1, v1 := s0.second, v0.second;
    ghost var s2, v2 := s1.second, v1.second;
    ghost var s3, v3 := s2.second, v2.second;
    PairOutcome(s3, o3, v3, o4, d.State());
    PairOutcome(s2, o2, v2, o3, d.State());
    PairOutcome(s1, o1, v1, o2, d.State());
    PairOutcome(s0, o0, v0, o1, d.State());
  }

  // ---------------------------------------------------------------- objects are their values

  lemma SameBytes(xs: seq<seq<Byte>>, ys: seq<seq<Byte>>)
    requires Values(xs, BytesValue) == Values(ys, BytesValue)
    ensures xs == ys
  {
    forall i | 0 <= i < |xs| ensures xs[i] == ys[i] {
      assert Values(xs, BytesValue)[i] == Values(ys, BytesValue)[i];
    }
  }

  lemma SameNums(xs: seq<nat>, ys: seq<nat>)
    requires Values(xs, NumValue) == Values(ys, NumValue)
    ensures xs == ys
  {
    forall i | 0 <= i < |xs| ensures xs[i] == ys[i] {
      assert Values(xs, NumValue)[i] == Values(ys, NumValue)[i];
    }
  }

  lemma SameSiaPublicKey(x: SiaPublicKey, y: SiaPublicKey)
    requires KeyValue(x) == KeyValue(y)
    ensures x == y
  {
  }

  lemma SameSiaPublicKeys(xs: seq<SiaPublicKey>, ys: seq<SiaPublicKey>)
    requires Values(xs, KeyValue) == Values(ys, KeyValue)
    ensures xs == ys
  {
    forall i | 0 <= i < |xs| ensures xs[i] == ys[i] {
      assert Values(xs, KeyValue)[i] == Values(ys, KeyValue)[i];
      SameSiaPublicKey(xs[i], ys[i]);
    }
  }

  lemma SameUnlockConditions(x: UnlockConditions, y: UnlockConditions)
    requires ConditionsValue(x) == ConditionsValue(y)
    ensures x == y
  {
    SameSiaPublicKeys(x.publicKeys, y.publicKeys);
  }

  lemma SameSiacoinInput(x: SiacoinInput, y: SiacoinInput)
    requires SiacoinInputValue(x) == SiacoinInputValue(y)
    ensures x == y
  {
    SameUnlockConditions(x.unlockConditions, y.unlockConditions);
  }

  lemma SameSiacoinOutput(x: SiacoinOutput, y: SiacoinOutput)
    requires SiacoinOutputValue(x) == SiacoinOutputValue(y)
    ensures x == y
  {
  }

  lemma SameSiacoinOutputs(xs: seq<SiacoinOutput>, ys: seq<SiacoinOutput>)
    requires Values(xs, SiacoinOutputValue) == Values(ys, SiacoinOutputValue)
    ensures xs == ys
  {
    forall i | 0 <= i < |xs| ensures xs[i] == ys[i] {
      assert Values(xs, SiacoinOutputValue)[i] == Values(ys, SiacoinOutputValue)[i];
      SameSiacoinOutput(xs[i], ys[i]);
    }
  }

  lemma SameFileContract(x: FileContract, y: FileContract)
    requires ContractValue(x) == ContractValue(y)
    ensures x == y
  {
    SameSiacoinOutputs(x.validProofOutputs, y.validProofOutputs);
    SameSiacoinOutputs(x.missedProofOutputs, y.missedProofOutputs);
  }

  lemma SameFileContractRevision(x: FileContractRevision, y: FileContractRevision)
    requires RevisionValue(x) == RevisionValue(y)
    ensures x == y
  {
    SameUnlockConditions(x.unlockConditions, y.unlockConditions);
    SameSiacoinOutputs(x.newValidProofOutputs, y.newValidProofOutputs);
    SameSiacoinOutputs(x.newMissedProofOutputs, y.newMissedProofOutputs);
  }

  lemma SameStorageProof(x: StorageProof, y: StorageProof)
    requires ProofValue(x) == ProofValue(y)
    ensures x == y
  {
    SameBytes(x.hashSet, y.hashSet);
  }

  lemma SameSiafundInput(x: SiafundInput, y: SiafundInput)
    requires SiafundInputValue(x) == SiafundInputValue(y)
    ensures x == y
  {
    SameUnlockConditions(x.unlockConditions, y.unlockConditions);
  }

  lemma SameSiafundOutput(x: SiafundOutput, y: SiafundOutput)
    requires SiafundOutputValue(x) == SiafundOutputValue(y)
    ensures x == y
  {
  }

  lemma SameCoveredFields(x: CoveredFields, y: CoveredFields)
    requires CoveredValue(x) == CoveredValue(y)
    ensures x == y
  {
    var xs, ys := CoveredLists(x), CoveredLists(y);
    forall i | 0 <= i < 10 ensures xs[i] == ys[i] {
      assert Values(xs, IndicesValue)[i] == Values(ys, IndicesValue)[i];
      SameNums(xs[i], ys[i]);
    }
    assert xs == ys;
    assert forall i :: 0 <= i < 10 ==> xs[i] == ys[i];
  }

  lemma SameTransactionSignature(x: TransactionSignature, y: TransactionSignature)
    requires SignatureValue(x) == SignatureValue(y)
    ensures x == y
  {
    SameCoveredFields(x.coveredFields, y.coveredFields);
  }

  lemma SameSiacoinInputs(xs: seq<SiacoinInput>, ys: seq<SiacoinInput>)
    requires Values(xs, SiacoinInputValue) == Values(ys, SiacoinInputValue)
    ensures xs == ys
  {
    forall i | 0 <= i < |xs| ensures xs[i] == ys[i] {
      assert Values(xs, SiacoinInputValue)[i] == Values(ys, SiacoinInputValue)[i];
      SameSiacoinInput(xs[i], ys[i]);
    }
  }

  lemma SameFileContracts(xs: seq<FileContract>, ys: seq<FileContract>)
    requires Values(xs, ContractValue) == Values(ys, ContractValue)
    ensures xs == ys
  {
    forall i | 0 <= i < |xs| ensures xs[i] == ys[i] {
      assert Values(xs, ContractValue)[i] == Values(ys, ContractValue)[i];
      SameFileContract(xs[i], ys[i]);
    }
  }

  lemma SameFileContractRevisions(xs: seq<FileContractRevision>, ys: seq<FileContractRevision>)
    requires Values(xs, RevisionValue) == Values(ys, RevisionValue)
    ensures xs == ys
  {
    forall i | 0 <= i < |xs| ensures xs[i] == ys[i] {
      assert Values(xs, RevisionValue)[i] == Values(ys, RevisionValue)[i];
      SameFileContractRevision(xs[i], ys[i]);
    }
  }

  lemma SameStorageProofs(xs: seq<StorageProof>, ys: seq<StorageProof>)
    requires Values(xs, ProofValue) == Values(ys, ProofValue)
    ensures xs == ys
  {
    forall i | 0 <= i < |xs| ensures xs[i] == ys[i] {
      assert Values(xs, ProofValue)[i] == Values(ys, ProofValue)[i];
      SameStorageProof(xs[i], ys[i]);
    }
  }

  lemma SameSiafundInputs(xs: seq<SiafundInput>, ys: seq<SiafundInput>)
    requires Values(xs, SiafundInputValue) == Values(ys, SiafundInputValue)
    ensures xs == ys
  {
    forall i | 0 <= i < |xs| ensures xs[i] == ys[i] {
      assert Values(xs, SiafundInputValue)[i] == Values(ys, SiafundInputValue)[i];
      SameSiafundInput(xs[i], ys[i]);
    }
  }

  lemma SameSiafundOutputs(xs: seq<SiafundOutput>, ys: seq<SiafundOutput>)
    requires Values(xs, SiafundOutputValue) == Values(ys, SiafundOutputValue)
    ensures xs == ys
  {
    forall i | 0 <= i < |xs| ensures xs[i] == ys[i] {
      assert Values(xs, SiafundOutputValue)[i] == Values(ys, SiafundOutputValue)[i];
      SameSiafundOutput(xs[i], ys[i]);
    }
  }

  lemma SameTransactionSignatures(xs: seq<TransactionSignature>, ys: seq<TransactionSignature>)
    requires Values(xs, SignatureValue) == Values(ys, SignatureValue)
    ensures xs == ys
  {
    forall i | 0 <= i < |xs| ensures xs[i] == ys[i] {
      assert Values(xs, SignatureValue)[i] == Values(ys, SignatureValue)[i];
      SameTransactionSignature(xs[i], ys[i]);
    }
  }

  // The unsigned encoding determines everything but the signatures.
  lemma SameUnsigned(x: Transaction, y: Transaction)
    requires UnsignedValue(x) == UnsignedValue(y)
    ensures x.(transactionSignatures := []) == y.(transactionSignatures := [])
  {
    SameSiacoinInputs(x.siacoinInputs, y.siacoinInputs);
    SameSiacoinOutputs(x.siacoinOutputs, y.siacoinOutputs);
    SameFileContracts(x.fileContracts, y.fileContracts);
    SameFileContractRevisions(x.fileContractRevisions, y.fileContractRevisions);
    SameStorageProofs(x.storageProofs, y.storageProofs);
    SameSiafundInputs(x.siafundInputs, y.siafundInputs);
    SameSiafundOutputs(x.siafundOutputs, y.siafundOutputs);
    SameNums(x.minerFees, y.minerFees);
    SameBytes(x.arbitraryData, y.arbitraryData);
  }

  lemma SameTransaction(x: Transaction, y: Transaction)
    requires TransactionValue(x) == TransactionValue(y)
    ensures x == y
  {
    SameUnsigned(x, y);
    SameTransactionSignatures(x.transactionSignatures, y.transactionSignatures);
  }

  lemma SameTransactions(xs: seq<Transaction>, ys: seq<Transaction>)
    requires Values(xs, TransactionValue) == Values(ys, TransactionValue)
    ensures xs == ys
  {
    forall i | 0 <= i < |xs| ensures xs[i] == ys[i] {
      assert Values(xs, TransactionValue)[i] == Values(ys, TransactionValue)[i];
      SameTransaction(xs[i], ys[i]);
    }
  }

  lemma SameBlock(x: Block, y: Block)
    requires BlockValue(x) == BlockValue(y)
    ensures x == y
  {
    SameSiacoinOutputs(x.minerPayouts, y.minerPayouts);
    SameTransactions(x.transactions, y.transactions);
  }

  // ---------------------------------------------------------------- MarshalSiaSize

  method SiacoinOutputsSize(xs: seq<SiacoinOutput>) returns (size: nat)
    requires Conforms(SIACOIN_OUTPUTS, Items(Values(xs, SiacoinOutputValue)))
    ensures Measures(SIACOIN_OUTPUTS, Items(Values(xs, SiacoinOutputValue)), size)
  {
    hide Measures, MeasuresAll;
    size := 8;
    MeasuresNone(SIACOIN_OUTPUT);
    for i := 0 to |xs|
      invariant 8 <= size && MeasuresAll(SIACOIN_OUTPUT, Values(xs, SiacoinOutputValue)[..i], size - 8)
    {
      ghost var before := size;
      var value := CurrencySize(xs[i].value);
      size := size + value;
      size := size + |xs[i].unlockHash|;
      FixedMeasures(32, xs[i].unlockHash);
      PairMeasures(SIACOIN_OUTPUT, SiacoinOutputValue(xs[i]), value, |xs[i].unlockHash|);
      MeasuresStep(SIACOIN_OUTPUT, xs, SiacoinOutputValue, i, before - 8, size - before);
    }
    ListMeasures(SIACOIN_OUTPUTS, xs, SiacoinOutputValue, size - 8);
  }

  method UnlockConditionsSize(x: UnlockConditions) returns (size: nat)
    requires Conforms(UNLOCK_CONDITIONS, ConditionsValue(x))
    ensures Measures(UNLOCK_CONDITIONS, ConditionsValue(x), size)
  {
    hide Measures, MeasuresAll;
    ghost var s, v := UNLOCK_CONDITIONS, ConditionsValue(x);
    assert Conforms(s.second, v.second);
    size := 8;
    size := size + 8;
    MeasuresNone(PUBLIC_KEY);
    for i := 0 to |x.publicKeys|
      invariant 16 <= size && MeasuresAll(PUBLIC_KEY, Values(x.publicKeys, KeyValue)[..i], size - 16)
    {
      ghost var before := size;
      var spk := x.publicKeys[i];
      size := size + |spk.algorithm|;
      size := size + 8 + |spk.key|;
      FixedMeasures(16, spk.algorithm);
      BytesMeasures(spk.key);
      PairMeasures(PUBLIC_KEY, KeyValue(spk), |spk.algorithm|, 8 + |spk.key|);
      MeasuresStep(PUBLIC_KEY, x.publicKeys, KeyValue, i, before - 16, size - before);
    }
    ListMeasures(s.second.first, x.publicKeys, KeyValue, size - 16);
    size := size + 8;
    UintMeasures(x.timelock);
    UintMeasures(x.signaturesRequired);
    PairMeasures(s.second, v.second, size - 16, 8);
    PairMeasures(s, v, 8, size - 8);
  }

  method CoveredFieldsSize(x: CoveredFields) returns (size: nat)
    requires Conforms(COVERED_FIELDS, CoveredValue(x))
    ensures Measures(COVERED_FIELDS, CoveredValue(x), size)
  {
    ghost var fs := CoveredLists(x);
    size := 1;
    size := size + 8 + |x.siacoinInputs| * 8;
    size := size + 8 + |x.siacoinOutputs| * 8;
    size := size + 8 + |x.fileContracts| * 8;
    size := size + 8 + |x.fileContractRevisions| * 8;
    size := size + 8 + |x.storageProofs| * 8;
    size := size + 8 + |x.siafundInputs| * 8;
    size := size + 8 + |x.siafundOutputs| * 8;
    size := size + 8 + |x.minerFees| * 8;
    size := size + 8 + |x.arbitraryData| * 8;
    size := size + 8 + |x.transactionSignatures| * 8;
    TenLists(fs);
    RepeatMeasures(COVERED_FIELDS.second, fs, IndicesValue, size - 1);
    FlagMeasures(x.wholeTransaction);
    PairMeasures(COVERED_FIELDS, CoveredValue(x), 1, size - 1);
  }

  lemma {:induction false} IndicesMeasure(ns: seq<nat>)
    requires Conforms(INDICES, IndicesValue(ns))
    ensures Measures(INDICES, IndicesValue(ns), 8 + |ns| * 8)
  {
    MeasuresNone(Uint64);
    for i := 0 to |ns|
      invariant MeasuresAll(Uint64, Values(ns, NumValue)[..i], i * 8)
    {
      UintMeasures(ns[i]);
      MeasuresStep(Uint64, ns, NumValue, i, i * 8, 8);
    }
    ListMeasures(INDICES, ns, NumValue, |ns| * 8);
  }

  function ListsSize(fs: seq<seq<nat>>): nat
  {
    if fs == [] then 0 else ListsSize(fs[..|fs| - 1]) + 8 + |fs[|fs| - 1]| * 8
  }

  lemma TenLists(fs: seq<seq<nat>>)
    requires |fs| == 10 && forall i :: 0 <= i < |fs| ==> Conforms(INDICES, IndicesValue(fs[i]))
    ensures MeasuresAll(INDICES, Values(fs, IndicesValue)[..10],
                        80 + 8 * (|fs[0]| + |fs[1]| + |fs[2]| + |fs[3]| + |fs[4]| + |fs[5]| + |fs[6]| + |fs[7]| + |fs[8]| + |fs[9]|))
  {
    MeasuresNone(INDICES);
    for i := 0 to 10
      invariant MeasuresAll(INDICES, Values(fs, IndicesValue)[..i], ListsSize(fs[..i]))
    {
      IndicesMeasure(fs[i]);
      MeasuresStep(INDICES, fs, IndicesValue, i, ListsSize(fs[..i]), 8 + |fs[i]| * 8);
      assert fs[..i + 1][..i] == fs[..i];
    }
    assert fs[..1][..0] == [] && fs[..10] == fs;
    assert fs[..1][..0] == fs[..0] && ListsSize(fs[..1]) == ListsSize(fs[..0]) + 8 + |fs[0]| * 8;
    assert fs[..2][..1] == fs[..1] && ListsSize(fs[..2]) == ListsSize(fs[..1]) + 8 + |fs[1]| * 8;
    assert fs[..3][..2] == fs[..2] && ListsSize(fs[..3]) == ListsSize(fs[..2]) + 8 + |fs[2]| * 8;
    assert fs[..4][..3] == fs[..3] && ListsSize(fs[..4]) == ListsSize(fs[..3]) + 8 + |fs[3]| * 8;
    assert fs[..5][..4] == fs[..4] && ListsSize(fs[..5]) == ListsSize(fs[..4]) + 8 + |fs[4]| * 8;
    assert fs[..6][..5] == fs[..5] && ListsSize(fs[..6]) == ListsSize(fs[..5]) + 8 + |fs[5]| * 8;
    assert fs[..7][..6] == fs[..6] && ListsSize(fs[..7]) == ListsSize(fs[..6]) + 8 + |fs[6]| * 8;
    assert fs[..8][..7] == fs[..7] && ListsSize(fs[..8]) == ListsSize(fs[..7]) + 8 + |fs[7]| * 8;
    assert fs[..9][..8] == fs[..8] && ListsSize(fs[..9]) == ListsSize(fs[..8]) + 8 + |fs[8]| * 8;
    assert fs[..10][..9] == fs[..9] && ListsSize(fs[..10]) == ListsSize(fs[..9]) + 8 + |fs[9]| * 8;
  }

  method FileContractSize(x: FileContract) returns (size: nat)
    requires Conforms(FILE_CONTRACT, ContractValue(x))
    ensures Measures(FILE_CONTRACT, ContractValue(x), size)
  {
    hide Measures, Conforms;
    ghost var s0, v0 := FILE_CONTRACT, ContractValue(x);
    PairConforms(s0, v0);
    ghost var s1, v1 := s0.second, v0.second;
    PairConforms(s1, v1);
    ghost var s2, v2 := s1.second, v1.second;
    PairConforms(s2, v2);
    ghost var s3, v3 := s2.second, v2.second;
    PairConforms(s3, v3);
    ghost var s4, v4 := s3.second, v3.second;
    PairConforms(s4, v4);
    ghost var s5, v5 := s4.second, v4.second;
    PairConforms(s5, v5);
    ghost var s6, v6 := s5.second, v5.second;
    PairConforms(s6, v6);
    ghost var s7, v7 := s6.second, v6.second;
    PairConforms(s7, v7);
    size := 0;
    size := size + 8;
    UintMeasures(x.fileSize);
    ghost var z1 := size;
    size := size + |x.fileMerkleRoot|;
    FixedMeasures(32, x.fileMerkleRoot);
    ghost var z2 := size;
    size := size + 8;
    UintMeasures(x.windowStart);
    ghost var z3 := size;
    size := size + 8;
    UintMeasures(x.windowEnd);
    ghost var z4 := size;
    var n4 := CurrencySize(x.payout);
    size := size + n4;
    ghost var z5 := size;
    var n5 := SiacoinOutputsSize(x.validProofOutputs);
    size := size + n5;
    ghost var z6 := size;
    var n6 := SiacoinOutputsSize(x.missedProofOutputs);
    size := size + n6;
    ghost var z7 := size;
    size := size + |x.unlockHash|;
    FixedMeasures(32, x.unlockHash);
    ghost var z8 := size;
    size := size + 8;
    UintMeasures(x.revisionNumber);
    PairMeasures(s7, v7, z8 - z7, size - z8);
    PairMeasures(s6, v6, z7 - z6, size - z7);
    PairMeasures(s5, v5, z6 - z5, size - z6);
    PairMeasures(s4, v4, z5 - z4, size - z5);
    PairMeasures(s3, v3, z4 - z3, size - z4);
    PairMeasures(s2, v2, z3 - z2, size - z3);
    PairMeasures(s1, v1, z2 - z1, size - z2);
    PairMeasures(s0, v0, z1, size - z1);
  }

  method FileContractRevisionSize(x: FileContractRevision) returns (size: nat)
    requires Conforms(FILE_CONTRACT_REVISION, RevisionValue(x))
    ensures Measures(FILE_CONTRACT_REVISION, RevisionValue(x), size)
  {
    hide Measures, Conforms;
    ghost var s0, v0 := FILE_CONTRACT_REVISION, RevisionValue(x);
    PairConforms(s0, v0);
    ghost var s1, v1 := s0.second, v0.second;
    PairConforms(s1, v1);
    ghost var s2, v2 := s1.second, v1.second;
    PairConforms(s2, v2);
    ghost var s3, v3 := s2.second, v2.second;
    PairConforms(s3, v3);
    ghost var s4, v4 := s3.second, v3.second;
    PairConforms(s4, v4);
    ghost var s5, v5 := s4.second, v4.second;
    PairConforms(s5, v5);
    ghost var s6, v6 := s5.second, v5.second;
    PairConforms(s6, v6);
    ghost var s7, v7 := s6.second, v6.second;
    PairConforms(s7, v7);
    ghost var s8, v8 := s7.second, v7.second;
    PairConforms(s8, v8);
    size := 0;
    size := size + |x.parentID|;
    FixedMeasures(32, x.parentID);
    ghost var z1 := size;
    var n1 := UnlockConditionsSize(x.unlockConditions);
    size := size + n1;
    ghost var z2 := size;
    size := size + 8;
    UintMeasures(x.newRevisionNumber);
    ghost var z3 := size;
    size := size + 8;
    UintMeasures(x.newFileSize);
    ghost var z4 := size;
    size := size + |x.newFileMerkleRoot|;
    FixedMeasures(32, x.newFileMerkleRoot);
    ghost var z5 := size;
    size := size + 8;
    UintMeasures(x.newWindowStart);
    ghost var z6 := size;
    size := size + 8;
    UintMeasures(x.newWindowEnd);
    ghost var z7 := size;
    var n7 := SiacoinOutputsSize(x.newValidProofOutputs);
    size := size + n7;
    ghost var z8 := size;
    var n8 := SiacoinOutputsSize(x.newMissedProofOutputs);
    size := size + n8;
    ghost var z9 := size;
    size := size + |x.newUnlockHash|;
    FixedMeasures(32, x.newUnlockHash);
    PairMeasures(s8, v8, z9 - z8, size - z9);
    PairMeasures(s7, v7, z8 - z7, size - z8);
    PairMeasures(s6, v6, z7 - z6, size - z7);
    PairMeasures(s5, v5, z6 - z5, size - z6);
    PairMeasures(s4, v4, z5 - z4, size - z5);
    PairMeasures(s3, v3, z4 - z3, size - z4);
    PairMeasures(s2, v2, z3 - z2, size - z3);
    PairMeasures(s1, v1, z2 - z1, size - z2);
    PairMeasures(s0, v0, z1, size - z1);
  }

  method SignatureSize(x: TransactionSignature) returns (size: nat)
    requires Conforms(SIGNATURE, SignatureValue(x))
    ensures Measures(SIGNATURE, SignatureValue(x), size)
  {
    hide Measures, Conforms;
    ghost var s0, v0 := SIGNATURE, SignatureValue(x);
    PairConforms(s0, v0);
    ghost var s1, v1 := s0.second, v0.second;
    PairConforms(s1, v1);
    ghost var s2, v2 := s1.second, v1.second;
    PairConforms(s2, v2);
    ghost var s3, v3 := s2.second, v2.second;
    PairConforms(s3, v3);
    size := 0;
    size := size + |x.parentID|;
    FixedMeasures(32, x.parentID);
    ghost var z1 := size;
    size := size + 8;
    UintMeasures(x.publicKeyIndex);
    ghost var z2 := size;
    size := size + 8;
    UintMeasures(x.timelock);
    ghost var z3 := size;
    var n3 := CoveredFieldsSize(x.coveredFields);
    size := size + n3;
    ghost var z4 := size;
    size := size + 8 + |x.signature|;
    BytesMeasures(x.signature);
    PairMeasures(s3, v3, z4 - z3, size - z4);
    PairMeasures(s2, v2, z3 - z2, size - z3);
    PairMeasures(s1, v1, z2 - z1, size - z2);
    PairMeasures(s0, v0, z1, size - z1);
  }

  method SiacoinInputsSize(xs: seq<SiacoinInput>) returns (size: nat)
    requires Conforms(ListOf(SIACOIN_INPUT, 72), Items(Values(xs, SiacoinInputValue)))
    ensures Measures(ListOf(SIACOIN_INPUT, 72), Items(Values(xs, SiacoinInputValue)), size)
  {
    hide Measures, MeasuresAll, Conforms;
    ListConforms(ListOf(SIACOIN_INPUT, 72), xs, SiacoinInputValue);
    size := 8;
    MeasuresNone(SIACOIN_INPUT);
    for i := 0 to |xs|
      invariant 8 <= size && MeasuresAll(SIACOIN_INPUT, Values(xs, SiacoinInputValue)[..i], size - 8)
    {
      ghost var before := size;
      var x := xs[i];
      ElemConforms(ListOf(SIACOIN_INPUT, 72), xs, SiacoinInputValue, i);
      PairConforms(SIACOIN_INPUT, SiacoinInputValue(x));
      size := size + |x.parentID|;
      var conditions := UnlockConditionsSize(x.unlockConditions);
      size := size + conditions;
      FixedMeasures(32, x.parentID);
      PairMeasures(SIACOIN_INPUT, SiacoinInputValue(x), |x.parentID|, conditions);
      MeasuresStep(SIACOIN_INPUT, xs, SiacoinInputValue, i, before - 8, size - before);
    }
    ListMeasures(ListOf(SIACOIN_INPUT, 72), xs, SiacoinInputValue, size - 8);
  }

  method FileContractsSize(xs: seq<FileContract>) returns (size: nat)
    requires Conforms(ListOf(FILE_CONTRACT, 176), Items(Values(xs, ContractValue)))
    ensures Measures(ListOf(FILE_CONTRACT, 176), Items(Values(xs, ContractValue)), size)
  {
    hide Measures, MeasuresAll, Conforms;
    ListConforms(ListOf(FILE_CONTRACT, 176), xs, ContractValue);
    size := 8;
    MeasuresNone(FILE_CONTRACT);
    for i := 0 to |xs|
      invariant 8 <= size && MeasuresAll(FILE_CONTRACT, Values(xs, ContractValue)[..i], size - 8)
    {
      ghost var before := size;
      ElemConforms(ListOf(FILE_CONTRACT, 176), xs, ContractValue, i);
      var n := FileContractSize(xs[i]);
      size := size + n;
      MeasuresStep(FILE_CONTRACT, xs, ContractValue, i, before - 8, size - before);
    }
    ListMeasures(ListOf(FILE_CONTRACT, 176), xs, ContractValue, size - 8);
  }

  method FileContractRevisionsSize(xs: seq<FileContractRevision>) returns (size: nat)
    requires Conforms(ListOf(FILE_CONTRACT_REVISION, 216), Items(Values(xs, RevisionValue)))
    ensures Measures(ListOf(FILE_CONTRACT_REVISION, 216), Items(Values(xs, RevisionValue)), size)
  {
    hide Measures, MeasuresAll, Conforms;
    ListConforms(ListOf(FILE_CONTRACT_REVISION, 216), xs, RevisionValue);
    size := 8;
    MeasuresNone(FILE_CONTRACT_REVISION);
    for i := 0 to |xs|
      invariant 8 <= size && MeasuresAll(FILE_CONTRACT_REVISION, Values(xs, RevisionValue)[..i], size - 8)
    {
      ghost var before := size;
      ElemConforms(ListOf(FILE_CONTRACT_REVISION, 216), xs, RevisionValue, i);
      var n := FileContractRevisionSize(xs[i]);
      size := size + n;
      MeasuresStep(FILE_CONTRACT_REVISION, xs, RevisionValue, i, before - 8, size - before);
    }
    ListMeasures(ListOf(FILE_CONTRACT_REVISION, 216), xs, RevisionValue, size - 8);
  }

  lemma {:induction false} HashesMeasure(hs: seq<seq<Byte>>)
    requires Conforms(ListOf(HASH, 32), Items(Values(hs, BytesValue)))
    ensures Measures(ListOf(HASH, 32), Items(Values(hs, BytesValue)), 8 + |hs| * 32)
  {
    MeasuresNone(HASH);
    for i := 0 to |hs|
      invariant MeasuresAll(HASH, Values(hs, BytesValue)[..i], i * 32)
    {
      FixedMeasures(32, hs[i]);
      MeasuresStep(HASH, hs, BytesValue, i, i * 32, 32);
    }
    ListMeasures(ListOf(HASH, 32), hs, BytesValue, |hs| * 32);
  }

  method StorageProofsSize(xs: seq<StorageProof>) returns (size: nat)
    requires Conforms(ListOf(STORAGE_PROOF, 120), Items(Values(xs, ProofValue)))
    ensures Measures(ListOf(STORAGE_PROOF, 120), Items(Values(xs, ProofValue)), size)
  {
    hide Measures, MeasuresAll, Conforms;
    ListConforms(ListOf(STORAGE_PROOF, 120), xs, ProofValue);
    size := 8;
    MeasuresNone(STORAGE_PROOF);
    for i := 0 to |xs|
      invariant 8 <= size && MeasuresAll(STORAGE_PROOF, Values(xs, ProofValue)[..i], size - 8)
    {
      ghost var before := size;
      var x := xs[i];
      ElemConforms(ListOf(STORAGE_PROOF, 120), xs, ProofValue, i);
      PairConforms(STORAGE_PROOF, ProofValue(x));
      size := size + |x.parentID|;
      size := size + |x.segment|;
      size := size + 8 + |x.hashSet| * 32;
      PairConforms(STORAGE_PROOF.second, ProofValue(x).second);
      FixedMeasures(32, x.parentID);
      FixedMeasures(64, x.segment);
      HashesMeasure(x.hashSet);
      PairMeasures(STORAGE_PROOF.second, ProofValue(x).second, |x.segment|, 8 + |x.hashSet| * 32);
      PairMeasures(STORAGE_PROOF, ProofValue(x), |x.parentID|, |x.segment| + 8 + |x.hashSet| * 32);
      MeasuresStep(STORAGE_PROOF, xs, ProofValue, i, before - 8, size - before);
    }
    ListMeasures(ListOf(STORAGE_PROOF, 120), xs, ProofValue, size - 8);
  }

  method SiafundInputsSize(xs: seq<SiafundInput>) returns (size: nat)
    requires Conforms(ListOf(SIAFUND_INPUT, 104), Items(Values(xs, SiafundInputValue)))
    ensures Measures(ListOf(SIAFUND_INPUT, 104), Items(Values(xs, SiafundInputValue)), size)
  {
    hide Measures, MeasuresAll, Conforms;
    ListConforms(ListOf(SIAFUND_INPUT, 104), xs, SiafundInputValue);
    size := 8;
    MeasuresNone(SIAFUND_INPUT);
    for i := 0 to |xs|
      invariant 8 <= size && MeasuresAll(SIAFUND_INPUT, Values(xs, SiafundInputValue)[..i], size - 8)
    {
      ghost var before := size;
      var x := xs[i];
      ElemConforms(ListOf(SIAFUND_INPUT, 104), xs, SiafundInputValue, i);
      PairConforms(SIAFUND_INPUT, SiafundInputValue(x));
      size := size + |x.parentID|;
      size := size + |x.claimUnlockHash|;
      PairConforms(SIAFUND_INPUT.second, SiafundInputValue(x).second);
      var conditions := UnlockConditionsSize(x.unlockConditions);
      size := size + conditions;
      FixedMeasures(32, x.parentID);
      FixedMeasures(32, x.claimUnlockHash);
      PairMeasures(SIAFUND_INPUT.second, SiafundInputValue(x).second, conditions, |x.claimUnlockHash|);
      PairMeasures(SIAFUND_INPUT, SiafundInputValue(x), |x.parentID|, conditions + |x.claimUnlockHash|);
      MeasuresStep(SIAFUND_INPUT, xs, SiafundInputValue, i, before - 8, size - before);
    }
    ListMeasures(ListOf(SIAFUND_INPUT, 104), xs, SiafundInputValue, size - 8);
  }

  method SiafundOutputsSize(xs: seq<SiafundOutput>) returns (size: nat)
    requires Conforms(ListOf(SIAFUND_OUTPUT, 96), Items(Values(xs, SiafundOutputValue)))
    ensures Measures(ListOf(SIAFUND_OUTPUT, 96), Items(Values(xs, SiafundOutputValue)), size)
  {
    hide Measures, MeasuresAll;
    size := 8;
    MeasuresNone(SIAFUND_OUTPUT);
    for i := 0 to |xs|
      invariant 8 <= size && MeasuresAll(SIAFUND_OUTPUT, Values(xs, SiafundOutputValue)[..i], size - 8)
    {
      ghost var before := size;
      var x := xs[i];
      assert Conforms(SIAFUND_OUTPUT.second, SiafundOutputValue(x).second);
      var value := CurrencySize(x.value);
      size := size + value;
      size := size + |x.unlockHash|;
      var start := CurrencySize(x.claimStart);
      size := size + start;
      FixedMeasures(32, x.unlockHash);
      PairMeasures(SIAFUND_OUTPUT.second, SiafundOutputValue(x).second, |x.unlockHash|, start);
      PairMeasures(SIAFUND_OUTPUT, SiafundOutputValue(x), value, |x.unlockHash| + start);
      MeasuresStep(SIAFUND_OUTPUT, xs, SiafundOutputValue, i, before - 8, size - before);
    }
    ListMeasures(ListOf(SIAFUND_OUTPUT, 96), xs, SiafundOutputValue, size - 8);
  }

  method MinerFeesSize(xs: seq<nat>) returns (size: nat)
    requires Conforms(ListOf(Money, 32), Items(Values(xs, NumValue)))
    ensures Measures(ListOf(Money, 32), Items(Values(xs, NumValue)), size)
  {
    hide Measures, MeasuresAll;
    size := 8;
    MeasuresNone(Money);
    for i := 0 to |xs|
      invariant 8 <= size && MeasuresAll(Money, Values(xs, NumValue)[..i], size - 8)
    {
      ghost var before := size;
      var n := CurrencySize(xs[i]);
      size := size + n;
      MeasuresStep(Money, xs, NumValue, i, before - 8, size - before);
    }
    ListMeasures(ListOf(Money, 32), xs, NumValue, size - 8);
  }

  method ArbitraryDataSize(xs: seq<seq<Byte>>) returns (size: nat)
    requires Conforms(ListOf(Bytes, 24), Items(Values(xs, BytesValue)))
    ensures Measures(ListOf(Bytes, 24), Items(Values(xs, BytesValue)), size)
  {
    hide Measures, MeasuresAll;
    size := 8;
    MeasuresNone(Bytes);
    for i := 0 to |xs|
      invariant 8 <= size && MeasuresAll(Bytes, Values(xs, BytesValue)[..i], size - 8)
    {
      ghost var before := size;
      size := size + 8 + |xs[i]|;
      BytesMeasures(xs[i]);
      MeasuresStep(Bytes, xs, BytesValue, i, before - 8, size - before);
    }
    ListMeasures(ListOf(Bytes, 24), xs, BytesValue, size - 8);
  }

  method SignaturesSize(xs: seq<TransactionSignature>) returns (size: nat)
    requires Conforms(ListOf(SIGNATURE, 320), Items(Values(xs, SignatureValue)))
    ensures Measures(ListOf(SIGNATURE, 320), Items(Values(xs, SignatureValue)), size)
  {
    hide Measures, MeasuresAll, Conforms;
    ListConforms(ListOf(SIGNATURE, 320), xs, SignatureValue);
    size := 8;
    MeasuresNone(SIGNATURE);
    for i := 0 to |xs|
      invariant 8 <= size && MeasuresAll(SIGNATURE, Values(xs, SignatureValue)[..i], size - 8)
    {
      ghost var before := size;
      ElemConforms(ListOf(SIGNATURE, 320), xs, SignatureValue, i);
      var n := SignatureSize(xs[i]);
      size := size + n;
      MeasuresStep(SIGNATURE, xs, SignatureValue, i, before - 8, size - before);
    }
    ListMeasures(ListOf(SIGNATURE, 320), xs, SignatureValue, size - 8);
  }

  // The size a transaction reports is the length of its encoding.
  method TransactionSize(x: Transaction) returns (size: nat)
    requires Conforms(TRANSACTION, TransactionValue(x))
    ensures size == |Encode(TRANSACTION, TransactionValue(x))|
  {
    hide Measures, Conforms;
    PairConforms(TRANSACTION, TransactionValue(x));
    ghost var s0, v0 := UNSIGNED_TRANSACTION, UnsignedValue(x);
    PairConforms(s0, v0);
    ghost var s1, v1 := s0.second, v0.second;
    PairConforms(s1, v1);
    ghost var s2, v2 := s1.second, v1.second;
    PairConforms(s2, v2);
    ghost var s3, v3 := s2.second, v2.second;
    PairConforms(s3, v3);
    ghost var s4, v4 := s3.second, v3.second;
    PairConforms(s4, v4);
    ghost var s5, v5 := s4.second, v4.second;
    PairConforms(s5, v5);
    ghost var s6, v6 := s5.second, v5.second;
    PairConforms(s6, v6);
    ghost var s7, v7 := s6.second, v6.second;
    PairConforms(s7, v7);
    var n0 := SiacoinInputsSize(x.siacoinInputs);
    var n1 := SiacoinOutputsSize(x.siacoinOutputs);
    var n2 := FileContractsSize(x.fileContracts);
    var n3 := FileContractRevisionsSize(x.fileContractRevisions);
    var n4 := StorageProofsSize(x.storageProofs);
    var n5 := SiafundInputsSize(x.siafundInputs);
    var n6 := SiafundOutputsSize(x.siafundOutputs);
    var n7 := MinerFeesSize(x.minerFees);
    var n8 := ArbitraryDataSize(x.arbitraryData);
    var signatures := SignaturesSize(x.transactionSignatures);
    size := n0 + n1 + n2 + n3 + n4 + n5 + n6 + n7 + n8 + signatures;
    PairMeasures(s7, v7, n7, n8);
    PairMeasures(s6, v6, n6, n7 + n8);
    PairMeasures(s5, v5, n5, n6 + n7 + n8);
    PairMeasures(s4, v4, n4, n5 + n6 + n7 + n8);
    PairMeasures(s3, v3, n3, n4 + n5 + n6 + n7 + n8);
    PairMeasures(s2, v2, n2, n3 + n4 + n5 + n6 + n7 + n8);
    PairMeasures(s1, v1, n1, n2 + n3 + n4 + n5 + n6 + n7 + n8);
    PairMeasures(s0, v0, n0, n1 + n2 + n3 + n4 + n5 + n6 + n7 + n8);
    PairMeasures(TRANSACTION, TransactionValue(x), n0 + n1 + n2 + n3 + n4 + n5 + n6 + n7 + n8, signatures);
    MeasuresLength(TRANSACTION, TransactionValue(x), size);
  }

  method CurrencySize(n: nat) returns (size: nat)
    requires Conforms(Money, Num(n))
    ensures Measures(Money, Num(n), size)
  {
    var words := Words(n);
    size := MoneySize(n, words);
  }

  lemma ListConforms<T>(shape: Shape, xs: seq<T>, f: T -> Value)
    requires shape.ListOf? && Conforms(shape, Items(Values(xs, f)))
    ensures |xs| < TWO_64
  {
  }

  lemma ElemConforms<T>(shape: Shape, xs: seq<T>, f: T -> Value, i: nat)
    requires shape.ListOf? && Conforms(shape, Items(Values(xs, f))) && i < |xs|
    ensures Conforms(shape.elem, f(xs[i]))
  {
    assert Values(xs, f)[i] == f(xs[i]);
  }

  lemma MeasuresStep<T>(elem: Shape, xs: seq<T>, f: T -> Value, i: nat, m: nat, n: nat)
    requires i < |xs| && MeasuresAll(elem, Values(xs, f)[..i], m) && Measures(elem, f(xs[i]), n)
    ensures MeasuresAll(elem, Values(xs, f)[..i + 1], m + n)
  {
    ValuesSnoc(xs, i, f);
    EncodeSnoc(elem, Values(xs, f)[..i], f(xs[i]));
  }

  lemma ListMeasures<T>(shape: Shape, xs: seq<T>, f: T -> Value, n: nat)
    requires shape.ListOf? && |xs| < TWO_64 && MeasuresAll(shape.elem, Values(xs, f)[..|xs|], n)
    ensures Measures(shape, Items(Values(xs, f)), 8 + n)
  {
    assert Values(xs, f)[..|xs|] == Values(xs, f);
  }

  lemma RepeatMeasures<T>(shape: Shape, xs: seq<T>, f: T -> Value, n: nat)
    requires shape.Repeat? && |xs| == shape.count && MeasuresAll(shape.elem, Values(xs, f)[..|xs|], n)
    ensures Measures(shape, Items(Values(xs, f)), n)
  {
    assert Values(xs, f)[..|xs|] == Values(xs, f);
  }

  // ---------------------------------------------------------------- round trips

  // Reading the code of a value yields the value.
  lemma Reads(shape: Shape, v: Value, a: Dec, w: Value, b: Dec)
    requires Conforms(shape, v) && WithinLimits(shape, v) && |Encode(shape, v)| <= MAX_OBJECT_SIZE
    requires a == Dec(Encode(shape, v), 0, false) && Outcome(shape, a, w, b)
    ensures !b.err && v == w && b.data == []
  {
    var code := Encode(shape, v);
    EncodingParses(shape, v);
    assert code[..|code|] == code;
    if !b.err {
      SameCode(shape, code, |code|, v, Used(a, b), w);
    }
  }

  // Unmarshalling a marshalled transaction returns it.
  method RoundTripTransaction(x: Transaction) returns (ok: bool, y: Transaction)
    requires Conforms(TRANSACTION, TransactionValue(x)) && WithinLimits(TRANSACTION, TransactionValue(x))
    requires |Encode(TRANSACTION, TransactionValue(x))| <= MAX_OBJECT_SIZE
    ensures ok && y == x
  {
    hide Outcome, Conforms, WithinLimits, Encode;
    var e := new EncHelper();
    MarshalTransaction(e, x);
    ghost var code := Encode(TRANSACTION, TransactionValue(x));
    assert e.out == code by { assert [] + code == code; }
    var d := new DecHelper(e.out);
    y := UnmarshalTransaction(d);
    Reads(TRANSACTION, TransactionValue(x), Dec(code, 0, false), TransactionValue(y), d.State());
    SameTransaction(x, y);
    ok := !d.err;
  }

  // Unmarshalling a marshalled block returns it.
  method RoundTripBlock(x: Block) returns (ok: bool, y: Block)
    requires Conforms(BLOCK, BlockValue(x)) && WithinLimits(BLOCK, BlockValue(x))
    requires |Encode(BLOCK, BlockValue(x))| <= MAX_OBJECT_SIZE
    ensures ok && y == x
  {
    hide Outcome, Conforms, WithinLimits, Encode;
    var e := new EncHelper();
    MarshalBlock(e, x);
    ghost var code := Encode(BLOCK, BlockValue(x));
    assert e.out == code by { assert [] + code == code; }
    var d := new DecHelper(e.out);
    y := UnmarshalBlock(d);
    Reads(BLOCK, BlockValue(x), Dec(code, 0, false), BlockValue(y), d.State());
    SameBlock(x, y);
    ok := !d.err;
  }

  // Transactions with the same unsigned bytes differ in their signatures only.
  lemma UnsignedInjective(x: Transaction, y: Transaction)
    requires Conforms(UNSIGNED_TRANSACTION, UnsignedValue(x)) && Conforms(UNSIGNED_TRANSACTION, UnsignedValue(y))
    requires Encode(UNSIGNED_TRANSACTION, UnsignedValue(x)) == Encode(UNSIGNED_TRANSACTION, UnsignedValue(y))
    ensures x.(transactionSignatures := []) == y.(transactionSignatures := [])
  {
    Injective(UNSIGNED_TRANSACTION, UnsignedValue(x), UnsignedValue(y));
    SameUnsigned(x, y);
  }

  // ---------------------------------------------------------------- fields read in place

  // The parent and the timestamp of a block can be read from its bytes directly.
  lemma BlockInPlace(x: Block)
    requires Conforms(BLOCK, BlockValue(x))
    ensures |Encode(BLOCK, BlockValue(x))| >= 48
    ensures Encode(BLOCK, BlockValue(x))[..32] == x.parentID
    ensures FromLittleEndian(Encode(BLOCK, BlockValue(x))[40..48]) == x.timestamp
  {
    BlockOffsets(BlockValue(x));
  }

  // The window end of a file contract is at bytes 48 to 56.
  lemma ContractInPlace(x: FileContract)
    requires Conforms(FILE_CONTRACT, ContractValue(x))
    ensures |Encode(FILE_CONTRACT, ContractValue(x))| >= 56
    ensures FromLittleEndian(Encode(FILE_CONTRACT, ContractValue(x))[48..56]) == x.windowEnd
  {
    ContractOffsets(ContractValue(x));
  }
}
