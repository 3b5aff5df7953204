/**
 The life of a file contract on a valid chain, said in the fields of the transactions: what it
 says after each revision, and what it pays to whom when it is proven or expires.
 */
module Agreements {
  import opened Types
  import opened Diffs
  import opened Ledgers
  import opened Validity
  import opened Tracking
  import opened Blocks
  import opened Effects

  // ---------------------------------------------------------------- terms

  // The last of the revisions to name this contract.
  function RevisionIn(rs: seq<FileContractRevision>, x: Hash): Option<FileContractRevision>
  {
    if rs == [] then None
    else if rs[|rs| - 1].parentID == x then Some(rs[|rs| - 1])
    else RevisionIn(rs[..|rs| - 1], x)
  }

  function LastRevision(ts: seq<Transaction>, x: Hash): Option<FileContractRevision>
  {
    if ts == [] then None else
      Later(LastRevision(ts[..|ts| - 1], x), RevisionIn(ts[|ts| - 1].core.fileContractRevisions, x))
  }

  function Later<T>(a: Option<T>, b: Option<T>): Option<T> { if b.Some? then b else a }

  // The contract reads as formed or, once revised, has every field of the last revision and the
  // payout it was formed with.
  ghost predicate HasTerms(c: FileContract, formed: FileContract, r: Option<FileContractRevision>)
  {
    match r
    case None => c == formed
    case Some(r) =>
      && c.fileSize == r.newFileSize && c.fileMerkleRoot == r.newFileMerkleRoot
      && c.windowStart == r.newWindowStart && c.windowEnd == r.newWindowEnd
      && c.validProofOutputs == r.newValidProofOutputs && c.missedProofOutputs == r.newMissedProofOutputs
      && c.unlockHash == r.newUnlockHash && c.revisionNumber == r.newRevisionNumber
      && c.payout == formed.payout
  }

  lemma TermsOn(a: FileContract, b: FileContract, c: FileContract, q: Option<FileContractRevision>, r: Option<FileContractRevision>)
    requires HasTerms(b, a, q) && HasTerms(c, b, r)
    ensures HasTerms(c, a, Later(q, r))
  {
  }

  lemma {:induction false} RevisionFound(rs: seq<FileContractRevision>, x: Hash)
    ensures match RevisionIn(rs, x)
      case Some(r) => r in rs && r.parentID == x
      case None => forall r :: r in rs ==> r.parentID != x
  {
    if rs != [] {
      RevisionFound(rs[..|rs| - 1], x);
      assert forall r :: r in rs <==> r in rs[..|rs| - 1] || r == rs[|rs| - 1];
    }
  }

  // ---------------------------------------------------------------- one transaction

  lemma {:induction false} RevisedAt(m: map<Hash, FileContract>, rs: seq<FileContractRevision>, x: Hash)
    requires forall i, j :: 0 <= i < j < |rs| ==> rs[i].parentID != rs[j].parentID
    requires forall i :: 0 <= i < |rs| ==> rs[i].parentID in m
    requires x in m
    ensures var after := CommitAll(m, ReviseContracts(m, rs));
      x in after && HasTerms(after[x], m[x], RevisionIn(rs, x))
  {
    if rs != [] {
      hide Fits, Records;
      var n := |rs| - 1;
      var id, front := rs[n].parentID, ReviseContracts(m, rs[..n]);
      RevisedAt(m, rs[..n], x);
      RevisionsFit(m, rs[..n]);
      forall d | d in front ensures d.id != id {
        RevisionIDs(m, rs[..n], d);
      }
      Untouched(m, front, id);
      UpdateFits(m, front, id, Revised(m[id], rs[n]));
    }
  }

  lemma CreatedAt(m: map<Hash, FileContract>, c: TxnCore, x: Hash)
    requires ContractIDs(c) !! m.Keys
    ensures var after := CommitAll(m, CreateContracts(c, |c.fileContracts|));
      && after.Keys == m.Keys + ContractIDs(c)
      && (x in m ==> after[x] == m[x])
      && (x in ContractIDs(c) ==> x.index < |c.fileContracts| && after[x] == c.fileContracts[x.index])
  {
    hide CommitAll, Fits, Records;
    var creates := CreateContracts(c, |c.fileContracts|);
    assert Ids(creates) == ContractIDs(c) by {
      forall i | 0 <= i < |creates| ensures FileContractHash(c, i) in Ids(creates) { assert creates[i] in creates; }
    }
    forall d | d in creates ensures d.id !in m {
      assert d.id in Ids(creates);
    }
    Insertions(m, creates);
    if x in ContractIDs(c) {
      var i :| 0 <= i < |c.fileContracts| && x == FileContractHash(c, i);
      assert creates[i] in creates;
    }
  }

  // What creating and revising does to one contract.
  lemma CreatedOrRevised(m: map<Hash, FileContract>, c: TxnCore, x: Hash)
    requires forall i, j :: 0 <= i < j < |c.fileContractRevisions| ==>
               c.fileContractRevisions[i].parentID != c.fileContractRevisions[j].parentID
    requires forall i :: 0 <= i < |c.fileContractRevisions| ==> c.fileContractRevisions[i].parentID in m
    requires ContractIDs(c) !! m.Keys
    ensures var after := CommitAll(m, CreateContracts(c, |c.fileContracts|) + ReviseContracts(m, c.fileContractRevisions));
      && (x in after <==> x in m || x in ContractIDs(c))
      && (x in ContractIDs(c) ==> x.index < |c.fileContracts| && after[x] == c.fileContracts[x.index])
      && (x in m ==> HasTerms(after[x], m[x], RevisionIn(c.fileContractRevisions, x)))
  {
    hide CommitAll, Fits, Records, ReviseContracts, RevisionIn;
    var creates := CreateContracts(c, |c.fileContracts|);
    var mid := CommitAll(m, creates);
    CreatedAt(m, c, x);
    forall i | 0 <= i < |c.fileContractRevisions|
      ensures StoredContract(m, c.fileContractRevisions[i].parentID) == StoredContract(mid, c.fileContractRevisions[i].parentID)
    {
      CreatedAt(m, c, c.fileContractRevisions[i].parentID);
    }
    SameRevisions(m, mid, c.fileContractRevisions);
    RevisionsFit(mid, c.fileContractRevisions);
    CommitAppend(m, creates, ReviseContracts(m, c.fileContractRevisions));
    if x in mid {
      RevisedAt(mid, c.fileContractRevisions, x);
    }
    RevisionFound(c.fileContractRevisions, x);
  }

  // One transaction forms the contracts it lists, revises those it names and closes those it proves.
  lemma TxnContract(env: Env, l: Ledger, h: History, c: TxnCore, height: nat, x: Hash)
    requires Tracked(l, h) && Applicable(env, l, c)
    ensures var m := CommitSet(l, TxnDiffs(env, l, c, height)).contracts;
      && (x in m <==> (x in l.contracts || x in ContractIDs(c)) && x !in Elements(ProvenIDs(c.storageProofs)))
      && (x in ContractIDs(c) ==> x.index < |c.fileContracts| && x in m && m[x] == c.fileContracts[x.index])
      && (x in m && x in l.contracts ==> HasTerms(m[x], l.contracts[x], RevisionIn(c.fileContractRevisions, x)))
  {
    hide CommitAll, Fits, Records, ReviseContracts, RevisionIn, HasTerms;
    ConsumedIsLive(env, l, c);
    FreshIDs(env, l, h, c);
    TouchedDistinct(c);
    var m := l.contracts;
    var creates, revises := CreateContracts(c, |c.fileContracts|), ReviseContracts(m, c.fileContractRevisions);
    var closes := CloseContracts(m, ProvenIDs(c.storageProofs));
    if c.storageProofs != [] {
      NoRevisions(m, x);
      assert creates + revises + closes == closes;
      ClosingFits(m, ProvenIDs(c.storageProofs));
    } else {
      assert creates + revises + closes == creates + revises;
      CreatedOrRevised(m, c, x);
    }
  }

  lemma NoRevisions(m: map<Hash, FileContract>, x: Hash)
    ensures ReviseContracts(m, []) == [] && RevisionIn([], x) == None
    ensures x in m ==> HasTerms(m[x], m[x], None)
  {
  }

  // A revised contract was there and stays.
  lemma RevisedIsLive(env: Env, l: Ledger, c: TxnCore, x: Hash)
    requires Applicable(env, l, c) && RevisionIn(c.fileContractRevisions, x).Some?
    ensures x in l.contracts && c.storageProofs == []
  {
    RevisionFound(c.fileContractRevisions, x);
    ConsumedIsLive(env, l, c);
  }

  // ---------------------------------------------------------------- a list of transactions

  // A contract as the ledger has it, or as the transaction in its id formed it.
  function ContractContent(l: Ledger, x: Hash): FileContract
  {
    if x in l.contracts then l.contracts[x] else AsFormed(x)
  }

  function AsFormed(x: Hash): FileContract
  {
    if x.FileContractHash? && x.index < |x.txn.fileContracts| then x.txn.fileContracts[x.index]
    else FileContract(0, ZERO_HASH, 0, 0, 0, [], [], ZERO_HASH, 0)
  }

  // The open contracts after valid transactions: those there before or formed, and not proven,
  // each with the terms of its last revision.
  lemma {:induction false} ContractsAfter(env: Env, l: Ledger, h: History, ts: seq<Transaction>, height: nat, x: Hash)
    requires Tracked(l, h) && TxnsValid(env, l, ts, height)
    ensures var m := CommitSet(l, TxnsDiffs(env, l, ts, height)).contracts;
      && (x in m <==> (x in l.contracts || x in Formed(ts)) && x !in Proven(ts))
      && (x in m ==> HasTerms(m[x], ContractContent(l, x), LastRevision(ts, x)))
    ensures LastRevision(ts, x).Some? ==> x in TxnsHistory(env, l, h, ts, height).contracts
  {
    if ts != [] {
      hide TxnDiffs, Applicable, OriginsOK, RevisionIn, HasTerms;
      var n := |ts| - 1;
      var c := ts[n].core;
      LastStep(env, l, h, ts, height);
      ContractsAfter(env, l, h, ts[..n], height, x);
      HistoryNames(env, l, h, ts[..n], height);
      var mid, g := CommitSet(l, TxnsDiffs(env, l, ts[..n], height)), TxnsHistory(env, l, h, ts[..n], height);
      TxnContract(env, mid, g, c, height, x);
      FreshIDs(env, mid, g, c);
      ConsumedIsLive(env, mid, c);
      if RevisionIn(c.fileContractRevisions, x).Some? {
        RevisedIsLive(env, mid, c, x);
      }
      var next := CommitSet(l, TxnsDiffs(env, l, ts, height));
      if x in next.contracts && x in mid.contracts {
        TermsOn(ContractContent(l, x), mid.contracts[x], next.contracts[x], LastRevision(ts[..n], x), RevisionIn(c.fileContractRevisions, x));
      } else if x in next.contracts {
        AsFormedTerms(next.contracts[x], x);
      }
    }
  }

  lemma AsFormedTerms(c: FileContract, x: Hash)
    requires c == AsFormed(x)
    ensures HasTerms(c, AsFormed(x), None)
  {
  }
}
