/**
 Blocks, transactions and the identifiers built from them.

 Identifiers are hashes. A hash is modelled by the value that was hashed, one constructor for
 each kind of pre-image, so distinct pre-images have distinct hashes. RawHash stands for any
 other 32 bytes a peer may put on the wire; RawHash(0) is the all-zero hash.
 */
module Types {

  datatype Hash =
    | RawHash(bytes: nat)
    | BlockHash(block: Block)
    | SiacoinOutputHash(txn: TxnCore, index: nat)
    | FileContractHash(txn: TxnCore, index: nat)
    | SiafundOutputHash(txn: TxnCore, index: nat)
    | StorageProofHash(contract: Hash, valid: bool, index: nat)
    | ClaimHash(siafund: Hash)
    | MinerPayoutHash(blockID: Hash, index: nat)
    | UnlockConditionsHash(conditions: UnlockConditions)

  const ZERO_HASH := RawHash(0)

  datatype Option<T> = None | Some(value: T)

  datatype Algorithm = Entropy | Ed25519 | UnknownAlgorithm(specifier: nat)

  datatype PublicKey = PublicKey(algorithm: Algorithm, key: seq<nat>)

  datatype UnlockConditions = UnlockConditions(timelock: nat, publicKeys: seq<PublicKey>, signaturesRequired: nat)

  datatype SiacoinOutput = SiacoinOutput(value: nat, unlockHash: Hash)

  datatype SiafundOutput = SiafundOutput(value: nat, unlockHash: Hash, claimStart: nat)

  datatype SiacoinInput = SiacoinInput(parentID: Hash, unlockConditions: UnlockConditions)

  datatype SiafundInput = SiafundInput(parentID: Hash, unlockConditions: UnlockConditions, claimUnlockHash: Hash)

  datatype FileContract = FileContract(
    fileSize: nat, fileMerkleRoot: Hash, windowStart: nat, windowEnd: nat, payout: nat,
    validProofOutputs: seq<SiacoinOutput>, missedProofOutputs: seq<SiacoinOutput>,
    unlockHash: Hash, revisionNumber: nat)

  datatype FileContractRevision = FileContractRevision(
    parentID: Hash, unlockConditions: UnlockConditions, newRevisionNumber: nat,
    newFileSize: nat, newFileMerkleRoot: Hash, newWindowStart: nat, newWindowEnd: nat,
    newValidProofOutputs: seq<SiacoinOutput>, newMissedProofOutputs: seq<SiacoinOutput>,
    newUnlockHash: Hash)

  datatype StorageProof = StorageProof(parentID: Hash, segment: seq<nat>, hashSet: seq<Hash>)

  // The fields of a transaction that its ids are computed from: all but the signatures.
  datatype TxnCore = TxnCore(
    siacoinInputs: seq<SiacoinInput>,
    siacoinOutputs: seq<SiacoinOutput>,
    fileContracts: seq<FileContract>,
    fileContractRevisions: seq<FileContractRevision>,
    storageProofs: seq<StorageProof>,
    siafundInputs: seq<SiafundInput>,
    siafundOutputs: seq<SiafundOutput>,
    minerFees: seq<nat>,
    arbitraryData: seq<seq<nat>>)

  datatype CoveredFields = CoveredFields(
    wholeTransaction: bool,
    siacoinInputs: seq<nat>, siacoinOutputs: seq<nat>, fileContracts: seq<nat>,
    fileContractRevisions: seq<nat>, storageProofs: seq<nat>, siafundInputs: seq<nat>,
    siafundOutputs: seq<nat>, minerFees: seq<nat>, arbitraryData: seq<nat>,
    transactionSignatures: seq<nat>)

  datatype TransactionSignature = TransactionSignature(
    parentID: Hash, publicKeyIndex: nat, timelock: nat, coveredFields: CoveredFields, signature: seq<nat>)

  // The parts of a transaction one signature signs.
  datatype SigDigest =
    | WholeDigest(core: TxnCore, parentID: Hash, publicKeyIndex: nat, timelock: nat, signatures: seq<TransactionSignature>)
    | PartialDigest(
        siacoinInputs: seq<SiacoinInput>, siacoinOutputs: seq<SiacoinOutput>,
        fileContracts: seq<FileContract>, fileContractRevisions: seq<FileContractRevision>,
        storageProofs: seq<StorageProof>, siafundInputs: seq<SiafundInput>,
        siafundOutputs: seq<SiafundOutput>, minerFees: seq<nat>, arbitraryData: seq<seq<nat>>,
        signatures: seq<TransactionSignature>)

  datatype Transaction = Transaction(core: TxnCore, signatures: seq<TransactionSignature>)

  datatype Block = Block(
    parentID: Hash, nonce: nat, timestamp: nat,
    minerPayouts: seq<SiacoinOutput>, transactions: seq<Transaction>)

  // What the model takes from outside: the allocations of the genesis block, and the answers of
  // the signature, Merkle-proof and size checks, whose code is not modelled.
  datatype Env = Env(
    genesisSiacoins: seq<SiacoinOutput>,
    genesisSiafunds: seq<SiafundOutput>,
    forkedSiafunds: seq<SiafundOutput>,
    genesisTimestamp: nat,
    devAddr: Hash,
    devFundUnlockHash: Hash,
    burnUnlockHash: Hash,
    fitsInABlock: (Transaction, nat) -> bool,
    verifySignature: (SigDigest, PublicKey, seq<nat>) -> bool,
    verifyStorageProof: (StorageProof, FileContract, Hash, nat) -> bool)
}
