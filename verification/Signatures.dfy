/** The rules for the signatures of a transaction, and the check that decides them. */
module Signatures {
  import opened Types

  ghost predicate SortedUnique(elems: seq<nat>, max: nat)
  {
    && (forall i, j :: 0 <= i < j < |elems| ==> elems[i] < elems[j])
    && (forall i :: 0 <= i < |elems| ==> elems[i] < max)
  }

  method CheckSortedUnique(elems: seq<nat>, max: nat) returns (ok: bool)
    ensures ok <==> SortedUnique(elems, max)
  {
    if |elems| == 0 {
      return true;
    }
    var biggest := elems[0];
    for k := 1 to |elems|
      invariant biggest == elems[k - 1]
      invariant forall i, j :: 0 <= i < j < k ==> elems[i] < elems[j]
    {
      if elems[k] <= biggest {
        return false;
      }
      biggest := elems[k];
    }
    return biggest < max;
  }

  // Each covered index list of a signature with the length of the list it indexes. The list of
  // signatures comes last.
  function FieldMaxs(t: Transaction, cf: CoveredFields): seq<(seq<nat>, nat)>
  {
    [(cf.siacoinInputs, |t.core.siacoinInputs|),
     (cf.siacoinOutputs, |t.core.siacoinOutputs|),
     (cf.fileContracts, |t.core.fileContracts|),
     (cf.fileContractRevisions, |t.core.fileContractRevisions|),
     (cf.storageProofs, |t.core.storageProofs|),
     (cf.siafundInputs, |t.core.siafundInputs|),
     (cf.siafundOutputs, |t.core.siafundOutputs|),
     (cf.minerFees, |t.core.minerFees|),
     (cf.arbitraryData, |t.core.arbitraryData|),
     (cf.transactionSignatures, |t.signatures|)]
  }

  // Covering the whole transaction leaves all lists but the signatures empty; otherwise some list
  // is not empty. Every list is sorted, without repeats and in bounds.
  ghost predicate CoveredFieldsOK(t: Transaction, cf: CoveredFields)
  {
    var fields := FieldMaxs(t, cf);
    && (if cf.wholeTransaction then forall i :: 0 <= i < |fields| - 1 ==> fields[i].0 == []
        else exists i :: 0 <= i < |fields| && fields[i].0 != [])
    && (forall i :: 0 <= i < |fields| ==> SortedUnique(fields[i].0, fields[i].1))
  }

  method CheckCoveredFields(t: Transaction) returns (ok: bool)
    ensures ok <==> AllCovered(t)
  {
    for s := 0 to |t.signatures|
      invariant forall i :: 0 <= i < s ==> CoveredFieldsOK(t, t.signatures[i].coveredFields)
    {
      var cf := t.signatures[s].coveredFields;
      var fields := FieldMaxs(t, cf);
      if cf.wholeTransaction {
        for i := 0 to |fields| - 1
          invariant forall j :: 0 <= j < i ==> fields[j].0 == []
        {
          if |fields[i].0| != 0 {
            assert !CoveredFieldsOK(t, t.signatures[s].coveredFields);
            return false;
          }
        }
      } else {
        var allEmpty := true;
        for i := 0 to |fields|
          invariant allEmpty <==> forall j :: 0 <= j < i ==> fields[j].0 == []
        {
          if |fields[i].0| != 0 {
            allEmpty := false;
            break;
          }
        }
        if allEmpty {
          assert !CoveredFieldsOK(t, t.signatures[s].coveredFields);
          return false;
        }
      }
      for i := 0 to |fields|
        invariant forall j :: 0 <= j < i ==> SortedUnique(fields[j].0, fields[j].1)
      {
        var sorted := CheckSortedUnique(fields[i].0, fields[i].1);
        if !sorted {
          assert !CoveredFieldsOK(t, t.signatures[s].coveredFields);
          return false;
        }
      }
    }
    return true;
  }

  function Pick<T>(items: seq<T>, indices: seq<nat>): (r: seq<T>)
    requires forall i :: 0 <= i < |indices| ==> indices[i] < |items|
    ensures |r| == |indices|
  {
    seq(|indices|, i requires 0 <= i < |indices| => items[indices[i]])
  }

  // What signature i signs. Legal covered fields keep every index in bounds.
  function SigHash(t: Transaction, i: nat): SigDigest
    requires i < |t.signatures| && CoveredFieldsOK(t, t.signatures[i].coveredFields)
  {
    var sig := t.signatures[i];
    var cf := sig.coveredFields;
    var fields := FieldMaxs(t, cf);
    assert forall k :: 0 <= k < |fields| ==> SortedUnique(fields[k].0, fields[k].1);
    assert SortedUnique(fields[0].0, fields[0].1) && SortedUnique(fields[1].0, fields[1].1)
        && SortedUnique(fields[2].0, fields[2].1) && SortedUnique(fields[3].0, fields[3].1)
        && SortedUnique(fields[4].0, fields[4].1) && SortedUnique(fields[5].0, fields[5].1)
        && SortedUnique(fields[6].0, fields[6].1) && SortedUnique(fields[7].0, fields[7].1)
        && SortedUnique(fields[8].0, fields[8].1) && SortedUnique(fields[9].0, fields[9].1);
    if cf.wholeTransaction then
      WholeDigest(t.core, sig.parentID, sig.publicKeyIndex, sig.timelock, Pick(t.signatures, cf.transactionSignatures))
    else
      PartialDigest(
        Pick(t.core.siacoinInputs, cf.siacoinInputs), Pick(t.core.siacoinOutputs, cf.siacoinOutputs),
        Pick(t.core.fileContracts, cf.fileContracts), Pick(t.core.fileContractRevisions, cf.fileContractRevisions),
        Pick(t.core.storageProofs, cf.storageProofs), Pick(t.core.siafundInputs, cf.siafundInputs),
        Pick(t.core.siafundOutputs, cf.siafundOutputs), Pick(t.core.minerFees, cf.minerFees),
        Pick(t.core.arbitraryData, cf.arbitraryData), Pick(t.signatures, cf.transactionSignatures))
  }

  // An object whose unlock conditions the transaction must satisfy.
  datatype Parent = Parent(id: Hash, conditions: UnlockConditions)

  function Parents(c: TxnCore): seq<Parent>
  {
    seq(|c.siacoinInputs|, i requires 0 <= i < |c.siacoinInputs| =>
      Parent(c.siacoinInputs[i].parentID, c.siacoinInputs[i].unlockConditions)) +
    seq(|c.fileContractRevisions|, i requires 0 <= i < |c.fileContractRevisions| =>
      Parent(c.fileContractRevisions[i].parentID, c.fileContractRevisions[i].unlockConditions)) +
    seq(|c.siafundInputs|, i requires 0 <= i < |c.siafundInputs| =>
      Parent(c.siafundInputs[i].parentID, c.siafundInputs[i].unlockConditions))
  }

  ghost predicate ParentsDistinct(ps: seq<Parent>)
  {
    forall i, j :: 0 <= i < j < |ps| ==> ps[i].id != ps[j].id
  }

  function Count(sigs: seq<TransactionSignature>, id: Hash): nat
  {
    if sigs == [] then 0 else
      Count(sigs[..|sigs| - 1], id) + if sigs[|sigs| - 1].parentID == id then 1 else 0
  }

  // Signature i uses a key of the given parent that exists, is unlocked and verifies.
  ghost predicate KeyOK(env: Env, t: Transaction, height: nat, i: nat, p: Parent)
    requires i < |t.signatures| && CoveredFieldsOK(t, t.signatures[i].coveredFields)
  {
    var sig := t.signatures[i];
    && sig.publicKeyIndex < |p.conditions.publicKeys|
    && sig.timelock <= height
    && var key := p.conditions.publicKeys[sig.publicKeyIndex];
       && key.algorithm != Entropy
       && (key.algorithm == Ed25519 ==> env.verifySignature(SigHash(t, i), key, sig.signature))
  }

  ghost predicate SignatureOK(env: Env, t: Transaction, height: nat, i: nat)
    requires i < |t.signatures| && CoveredFieldsOK(t, t.signatures[i].coveredFields)
  {
    exists p :: p in Parents(t.core) && p.id == t.signatures[i].parentID && KeyOK(env, t, height, i, p)
  }

  ghost predicate AllCovered(t: Transaction)
  {
    forall i :: 0 <= i < |t.signatures| ==> CoveredFieldsOK(t, t.signatures[i].coveredFields)
  }

  // The first k signatures are good.
  ghost predicate GoodUpTo(env: Env, t: Transaction, height: nat, k: nat)
    requires k <= |t.signatures| && AllCovered(t)
  {
    forall i :: 0 <= i < k ==> SignatureOK(env, t, height, i)
  }

  ghost predicate KeysDistinct(sigs: seq<TransactionSignature>)
  {
    forall i, j :: 0 <= i < j < |sigs| && sigs[i].parentID == sigs[j].parentID
      ==> sigs[i].publicKeyIndex != sigs[j].publicKeyIndex
  }

  // What a legally signed transaction is.
  ghost predicate SignaturesOK(env: Env, t: Transaction, height: nat)
  {
    && AllCovered(t)
    && ParentsDistinct(Parents(t.core))
    && GoodUpTo(env, t, height, |t.signatures|)
    && KeysDistinct(t.signatures)
    && (forall p :: p in Parents(t.core) ==> Count(t.signatures, p.id) == p.conditions.signaturesRequired)
  }

  lemma {:induction false} CountPrefix(sigs: seq<TransactionSignature>, k: nat, id: Hash)
    requires k <= |sigs|
    ensures Count(sigs[..k], id) <= Count(sigs, id)
  {
    if k == |sigs| {
      assert sigs[..k] == sigs;
    } else {
      assert sigs[..|sigs| - 1][..k] == sigs[..k];
      CountPrefix(sigs[..|sigs| - 1], k, id);
    }
  }

  // Per parent: signatures still needed, its keys, and the key indices used so far.
  datatype InputSignatures = InputSignatures(remaining: nat, possibleKeys: seq<PublicKey>, usedKeys: set<nat>)

  ghost function ParentIDs(ps: seq<Parent>): set<Hash> { set p | p in ps :: p.id }

  ghost function UsedBy(sigs: seq<TransactionSignature>, id: Hash): set<nat>
  {
    set s | s in sigs && s.parentID == id :: s.publicKeyIndex
  }

  // The signature map after these signatures have been accepted.
  ghost predicate Progress(ps: seq<Parent>, sigs: seq<TransactionSignature>, m: map<Hash, InputSignatures>)
  {
    && m.Keys == ParentIDs(ps)
    && (forall p :: p in ps ==> Entered(p, sigs, m))
  }

  ghost predicate Entered(p: Parent, sigs: seq<TransactionSignature>, m: map<Hash, InputSignatures>)
  {
    && p.id in m
    && m[p.id].remaining + Count(sigs, p.id) == p.conditions.signaturesRequired
    && m[p.id].possibleKeys == p.conditions.publicKeys
    && m[p.id].usedKeys == UsedBy(sigs, p.id)
  }

  lemma EnterOne(ps: seq<Parent>, p: Parent, m: map<Hash, InputSignatures>)
    requires ParentsDistinct(ps) && Progress(ps, [], m)
    ensures p.id in m ==> !ParentsDistinct(ps + [p])
    ensures p.id !in m ==> ParentsDistinct(ps + [p])
    ensures p.id !in m ==>
      Progress(ps + [p], [], m[p.id := InputSignatures(p.conditions.signaturesRequired, p.conditions.publicKeys, {})])
  {
    var all := ps + [p];
    if p.id in m {
      var q :| q in ps && q.id == p.id;
      var i :| 0 <= i < |ps| && ps[i] == q;
      assert all[i].id == all[|ps|].id;
    } else {
      forall q | q in ps ensures q.id in m && q.id != p.id {
        assert q.id in ParentIDs(ps);
      }
      var m' := m[p.id := InputSignatures(p.conditions.signaturesRequired, p.conditions.publicKeys, {})];
      assert ParentIDs(all) == ParentIDs(ps) + {p.id} by {
        assert forall q :: q in all <==> q in ps || q == p;
      }
      forall q | q in all ensures Entered(q, [], m') {
        if q in ps {
          assert Entered(q, [], m);
        } else {
          assert UsedBy([], p.id) == {};
        }
      }
    }
  }

  // The loops that enter every parent into the signature map, failing on a repeat.
  method EnterParents(ps: seq<Parent>) returns (ok: bool, m: map<Hash, InputSignatures>)
    ensures ok <==> ParentsDistinct(ps)
    ensures ok ==> Progress(ps, [], m)
  {
    m := map[];
    for k := 0 to |ps|
      invariant ParentsDistinct(ps[..k])
      invariant Progress(ps[..k], [], m)
    {
      EnterOne(ps[..k], ps[k], m);
      assert ps[..k] + [ps[k]] == ps[..k + 1];
      if ps[k].id in m {
        return false, m;
      }
      m := m[ps[k].id := InputSignatures(ps[k].conditions.signaturesRequired, ps[k].conditions.publicKeys, {})];
    }
    assert ps[..|ps|] == ps;
    return true, m;
  }

  lemma OneParent(ps: seq<Parent>, p: Parent)
    requires ParentsDistinct(ps) && p in ps
    ensures forall q :: q in ps && q.id == p.id ==> q == p
  {
  }

  lemma UnusedKey(sigs: seq<TransactionSignature>, sig: TransactionSignature)
    requires KeysDistinct(sigs)
    ensures sig.publicKeyIndex !in UsedBy(sigs, sig.parentID) <==> KeysDistinct(sigs + [sig])
  {
    var s := sigs + [sig];
    if sig.publicKeyIndex in UsedBy(sigs, sig.parentID) {
      var r :| r in sigs && r.parentID == sig.parentID && r.publicKeyIndex == sig.publicKeyIndex;
      var i :| 0 <= i < |sigs| && sigs[i] == r;
      assert s[i] == r && s[|sigs|] == sig;
    } else {
      forall i, j | 0 <= i < j < |s| && s[i].parentID == s[j].parentID
        ensures s[i].publicKeyIndex != s[j].publicKeyIndex
      {
        assert s[i] == sigs[i] && s[i] in sigs;
      }
    }
  }

  lemma UsedByAppend(sigs: seq<TransactionSignature>, sig: TransactionSignature, id: Hash)
    ensures UsedBy(sigs + [sig], id) == UsedBy(sigs, id) + if sig.parentID == id then {sig.publicKeyIndex} else {}
    ensures Count(sigs + [sig], id) == Count(sigs, id) + if sig.parentID == id then 1 else 0
  {
    var s := sigs + [sig];
    assert s[..|s| - 1] == sigs;
    assert forall r :: r in s <==> r in sigs || r == sig;
  }

  // Accepting a signature for parent p uses one of its keys and leaves the others alone.
  lemma ProgressStep(ps: seq<Parent>, p: Parent, sigs: seq<TransactionSignature>, sig: TransactionSignature, m: map<Hash, InputSignatures>)
    requires ParentsDistinct(ps) && p in ps && Progress(ps, sigs, m)
    requires p.id == sig.parentID && m[p.id].remaining > 0
    ensures Progress(ps, sigs + [sig],
      m[p.id := InputSignatures(m[p.id].remaining - 1, m[p.id].possibleKeys, m[p.id].usedKeys + {sig.publicKeyIndex})])
  {
    var m' := m[p.id := InputSignatures(m[p.id].remaining - 1, m[p.id].possibleKeys, m[p.id].usedKeys + {sig.publicKeyIndex})];
    forall q | q in ps ensures Entered(q, sigs + [sig], m') {
      assert Entered(q, sigs, m);
      UsedByAppend(sigs, sig, q.id);
      if q.id == p.id {
        OneParent(ps, p);
      }
    }
    assert m'.Keys == m.Keys;
  }

  // A signature that names no parent is not good.
  lemma Orphan(env: Env, t: Transaction, height: nat, k: nat)
    requires k < |t.signatures| && AllCovered(t) && t.signatures[k].parentID !in ParentIDs(Parents(t.core))
    ensures !SignatureOK(env, t, height, k)
  {
    assert forall p :: p in Parents(t.core) ==> p.id in ParentIDs(Parents(t.core));
  }

  // The body of the loop over the signatures: one signature against the map so far.
  method CheckSignature(env: Env, t: Transaction, height: nat, k: nat, m: map<Hash, InputSignatures>)
    returns (ok: bool, m': map<Hash, InputSignatures>)
    requires k < |t.signatures| && AllCovered(t)
    requires ParentsDistinct(Parents(t.core)) && Progress(Parents(t.core), t.signatures[..k], m)
    requires KeysDistinct(t.signatures[..k])
    ensures ok ==> SignatureOK(env, t, height, k)
    ensures ok ==> Progress(Parents(t.core), t.signatures[..k + 1], m') && KeysDistinct(t.signatures[..k + 1])
    ensures !ok ==> !(SignatureOK(env, t, height, k) && KeysDistinct(t.signatures[..k + 1]) &&
                      forall p :: p in Parents(t.core) ==> Count(t.signatures[..k + 1], p.id) <= p.conditions.signaturesRequired)
  {
    hide SignatureOK, Parents;
    var sig := t.signatures[k];
    ghost var ps, before := Parents(t.core), t.signatures[..k];
    assert t.signatures[..k + 1] == before + [sig];
    m' := m;
    if sig.parentID !in m {
      Orphan(env, t, height, k);
      return false, m;
    }
    ghost var p :| p in ps && p.id == sig.parentID;
    assert Entered(p, before, m);
    UsedByAppend(before, sig, p.id);
    if m[sig.parentID].remaining == 0 {
      return false, m;
    }
    UnusedKey(before, sig);
    if sig.publicKeyIndex in m[sig.parentID].usedKeys {
      return false, m;
    }
    var good := CheckKey(env, t, height, k, m[sig.parentID].possibleKeys, p);
    if good {
      ProgressStep(ps, p, before, sig, m);
    }
    return good, m[sig.parentID := InputSignatures(m[sig.parentID].remaining - 1, m[sig.parentID].possibleKeys,
                                                   m[sig.parentID].usedKeys + {sig.publicKeyIndex})];
  }

  // Index, timelock, algorithm and verification of the key that signature k names.
  method CheckKey(env: Env, t: Transaction, height: nat, k: nat, keys: seq<PublicKey>, ghost p: Parent) returns (ok: bool)
    requires k < |t.signatures| && AllCovered(t)
    requires ParentsDistinct(Parents(t.core)) && p in Parents(t.core)
    requires p.id == t.signatures[k].parentID && keys == p.conditions.publicKeys
    ensures ok <==> SignatureOK(env, t, height, k)
  {
    var sig := t.signatures[k];
    OneParent(Parents(t.core), p);
    assert SignatureOK(env, t, height, k) <==> KeyOK(env, t, height, k, p);
    if sig.publicKeyIndex >= |keys| || sig.timelock > height || keys[sig.publicKeyIndex].algorithm == Entropy {
      return false;
    }
    if keys[sig.publicKeyIndex].algorithm == Ed25519 {
      return env.verifySignature(SigHash(t, k), keys[sig.publicKeyIndex], sig.signature);
    }
    return true;
  }

  lemma KeysPrefix(sigs: seq<TransactionSignature>, k: nat)
    requires k <= |sigs| && KeysDistinct(sigs)
    ensures KeysDistinct(sigs[..k])
  {
  }

  // validSignatures accepts exactly the legally signed transactions.
  method ValidSignatures(env: Env, t: Transaction, height: nat) returns (ok: bool)
    ensures ok <==> SignaturesOK(env, t, height)
  {
    var legal := CheckCoveredFields(t);
    if !legal {
      return false;
    }
    var ps := Parents(t.core);
    var distinct, m := EnterParents(ps);
    if !distinct {
      return false;
    }
    for k := 0 to |t.signatures|
      invariant Progress(ps, t.signatures[..k], m)
      invariant GoodUpTo(env, t, height, k)
      invariant KeysDistinct(t.signatures[..k])
    {
      var accepted;
      accepted, m := CheckSignature(env, t, height, k, m);
      if !accepted {
        Rejected(env, t, height, k);
        return false;
      }
    }
    assert t.signatures[..|t.signatures|] == t.signatures;
    ok := AllSatisfied(m);
    ProgressEnd(ps, t.signatures, m);
  }

  // A failing signature fails the transaction.
  lemma Rejected(env: Env, t: Transaction, height: nat, k: nat)
    requires k < |t.signatures| && AllCovered(t)
    requires !(SignatureOK(env, t, height, k) && KeysDistinct(t.signatures[..k + 1]) &&
               forall p :: p in Parents(t.core) ==> Count(t.signatures[..k + 1], p.id) <= p.conditions.signaturesRequired)
    ensures !SignaturesOK(env, t, height)
  {
    if SignaturesOK(env, t, height) {
      KeysPrefix(t.signatures, k + 1);
      forall p | p in Parents(t.core) ensures Count(t.signatures[..k + 1], p.id) <= p.conditions.signaturesRequired {
        CountPrefix(t.signatures, k + 1, p.id);
      }
    }
  }

  lemma ProgressEnd(ps: seq<Parent>, sigs: seq<TransactionSignature>, m: map<Hash, InputSignatures>)
    requires Progress(ps, sigs, m)
    ensures (forall id :: id in m ==> m[id].remaining == 0) <==>
            (forall p :: p in ps ==> Count(sigs, p.id) == p.conditions.signaturesRequired)
  {
    if forall p :: p in ps ==> Count(sigs, p.id) == p.conditions.signaturesRequired {
      forall id | id in m ensures m[id].remaining == 0 {
        var p :| p in ps && p.id == id;
        assert Entered(p, sigs, m);
      }
    } else {
      var p :| p in ps && Count(sigs, p.id) != p.conditions.signaturesRequired;
      assert Entered(p, sigs, m);
    }
  }

  // The last loop: every parent has all the signatures it needs.
  method AllSatisfied(m: map<Hash, InputSignatures>) returns (ok: bool)
    ensures ok <==> forall id :: id in m ==> m[id].remaining == 0
  {
    var ids := m.Keys;
    while ids != {}
      invariant ids <= m.Keys
      invariant forall id :: id in m && id !in ids ==> m[id].remaining == 0
      decreases |ids|
    {
      var id :| id in ids;
      if m[id].remaining != 0 {
        return false;
      }
      ids := ids - {id};
    }
    return true;
  }
}
