/**
 What the transactions of a block do to each entry of the ledger, said in the fields of the
 transactions themselves.
 */
module Effects {
  import opened Types
  import opened Diffs
  import opened Ledgers
  import opened Validity
  import opened Tracking
  import opened Blocks
  import opened Reverting

  // ---------------------------------------------------------------- what a list of transactions names

  ghost function SpentCoins(ts: seq<Transaction>): set<Hash>
  {
    if ts == [] then {} else SpentCoins(ts[..|ts| - 1]) + InputIDs(ts[|ts| - 1].core)
  }

  ghost function MadeCoins(ts: seq<Transaction>): set<Hash>
  {
    if ts == [] then {} else MadeCoins(ts[..|ts| - 1]) + OutputIDs(ts[|ts| - 1].core)
  }

  ghost function MadeFunds(ts: seq<Transaction>): set<Hash>
  {
    if ts == [] then {} else MadeFunds(ts[..|ts| - 1]) + FundOutputIDs(ts[|ts| - 1].core)
  }

  ghost function Formed(ts: seq<Transaction>): set<Hash>
  {
    if ts == [] then {} else Formed(ts[..|ts| - 1]) + ContractIDs(ts[|ts| - 1].core)
  }

  ghost function Proven(ts: seq<Transaction>): set<Hash>
  {
    if ts == [] then {} else Proven(ts[..|ts| - 1]) + Elements(ProvenIDs(ts[|ts| - 1].core.storageProofs))
  }

  // Being spent is being named by an input.
  lemma {:induction false} SpentIsNamed(ts: seq<Transaction>, x: Hash)
    ensures x in SpentCoins(ts) <==> exists n, j :: NamesCoin(ts, n, j, x)
  {
    if ts != [] {
      var last := |ts| - 1;
      SpentIsNamed(ts[..last], x);
      if n, j :| NamesCoin(ts[..last], n, j, x) {
        assert NamesCoin(ts, n, j, x);
      }
      if x in InputIDs(ts[last].core) {
        var j :| 0 <= j < |ts[last].core.siacoinInputs| && ts[last].core.siacoinInputs[j].parentID == x;
        assert NamesCoin(ts, last, j, x);
      }
      forall n, j | NamesCoin(ts, n, j, x) ensures x in SpentCoins(ts) {
        if n < last {
          assert NamesCoin(ts[..last], n, j, x);
        }
      }
    }
  }

  predicate NamesCoin(ts: seq<Transaction>, n: int, j: int, x: Hash)
  {
    0 <= n < |ts| && 0 <= j < |ts[n].core.siacoinInputs| && ts[n].core.siacoinInputs[j].parentID == x
  }

  lemma {:induction false} FundSpentIsNamed(ts: seq<Transaction>, x: Hash)
    ensures x in SpentFundIDs(ts) <==> exists n, j :: NamesFund(ts, n, j, x)
  {
    if ts != [] {
      var last := |ts| - 1;
      FundSpentIsNamed(ts[..last], x);
      if n, j :| NamesFund(ts[..last], n, j, x) {
        assert NamesFund(ts, n, j, x);
      }
      if x in FundInputIDs(ts[last].core) {
        var j :| 0 <= j < |ts[last].core.siafundInputs| && ts[last].core.siafundInputs[j].parentID == x;
        assert NamesFund(ts, last, j, x);
      }
      forall n, j | NamesFund(ts, n, j, x) ensures x in SpentFundIDs(ts) {
        if n < last {
          assert NamesFund(ts[..last], n, j, x);
        }
      }
    }
  }

  predicate NamesFund(ts: seq<Transaction>, n: int, j: int, x: Hash)
  {
    0 <= n < |ts| && 0 <= j < |ts[n].core.siafundInputs| && ts[n].core.siafundInputs[j].parentID == x
  }

  // ---------------------------------------------------------------- one transaction

  lemma TxnSiacoin(env: Env, l: Ledger, h: History, c: TxnCore, height: nat, x: Hash)
    requires Tracked(l, h) && Applicable(env, l, c)
    ensures var m := CommitSet(l, TxnDiffs(env, l, c, height)).siacoins;
      && (x in m <==> x in OutputIDs(c) || (x in l.siacoins && x !in InputIDs(c)))
      && (x in OutputIDs(c) ==> x.index < |c.siacoinOutputs| && m[x] == c.siacoinOutputs[x.index])
      && (x in m && x !in OutputIDs(c) ==> m[x] == l.siacoins[x])
  {
    hide CommitAll, Fits, Records;
    TxnFits(env, l, h, c, height);
    FreshIDs(env, l, h, c);
    var ds := TxnDiffs(env, l, c, height).siacoins;
    var m := CommitAll(l.siacoins, ds);
    if x in m {
      Sources(l.siacoins, ds, x);
      if d: Diff<Hash, SiacoinOutput> :| d in ds && d.apply && d.id == x && m[x] == d.value {
        MadeSiacoin(l.siacoins, c, d);
      }
    }
  }

  lemma MadeSiacoin(m: map<Hash, SiacoinOutput>, c: TxnCore, d: Diff<Hash, SiacoinOutput>)
    requires d in SpendSiacoins(m, c.siacoinInputs) + CreateSiacoins(c, |c.siacoinOutputs|) && d.apply
    ensures d.id in OutputIDs(c) && d.id.index < |c.siacoinOutputs| && d.value == c.siacoinOutputs[d.id.index]
  {
    var creates := CreateSiacoins(c, |c.siacoinOutputs|);
    assert d in creates;
    var i :| 0 <= i < |creates| && creates[i] == d;
  }

  lemma TxnSiafund(env: Env, l: Ledger, h: History, c: TxnCore, height: nat, x: Hash)
    requires Tracked(l, h) && Applicable(env, l, c)
    ensures var next := CommitSet(l, TxnDiffs(env, l, c, height));
      && (x in next.siafunds <==> x in FundOutputIDs(c) || (x in l.siafunds && x !in FundInputIDs(c)))
      && (x in FundOutputIDs(c) ==>
           x.index < |c.siafundOutputs| && next.siafunds[x] == c.siafundOutputs[x.index].(claimStart := PoolAfter(l.pool, Height(l), c.fileContracts)))
      && (x in next.siafunds && x !in FundOutputIDs(c) ==> next.siafunds[x] == l.siafunds[x])
  {
    hide CommitAll, Fits, Records;
    TxnFits(env, l, h, c, height);
    FreshIDs(env, l, h, c);
    var pool := PoolAfter(l.pool, Height(l), c.fileContracts);
    var ds := TxnDiffs(env, l, c, height).siafunds;
    var m := CommitAll(l.siafunds, ds);
    if x in m {
      Sources(l.siafunds, ds, x);
      if d: Diff<Hash, SiafundOutput> :| d in ds && d.apply && d.id == x && m[x] == d.value {
        MadeSiafund(env, l, c, pool, d);
      }
    }
  }

  lemma MadeSiafund(env: Env, l: Ledger, c: TxnCore, pool: nat, d: Diff<Hash, SiafundOutput>)
    requires d in SpendSiafunds(env, l, c.siafundInputs) + CreateSiafunds(c, |c.siafundOutputs|, pool) && d.apply
    ensures d.id in FundOutputIDs(c) && d.id.index < |c.siafundOutputs| && d.value == c.siafundOutputs[d.id.index].(claimStart := pool)
  {
    var creates := CreateSiafunds(c, |c.siafundOutputs|, pool);
    assert d in creates;
    var i :| 0 <= i < |creates| && creates[i] == d;
  }

  // ---------------------------------------------------------------- a list of transactions

  // What the history of valid transactions records of them.
  lemma {:induction false} HistoryNames(env: Env, l: Ledger, h: History, ts: seq<Transaction>, height: nat)
    ensures var g := TxnsHistory(env, l, h, ts, height);
      && h.siacoins <= g.siacoins && h.contracts <= g.contracts && h.siafunds <= g.siafunds
      && g.spent == h.spent + SpentCoins(ts) && g.closed == h.closed + Proven(ts) && g.spentFunds == h.spentFunds + SpentFundIDs(ts)
      && g.contracts == h.contracts + Formed(ts) && g.siafunds == h.siafunds + MadeFunds(ts)
  {
    if ts != [] {
      HistoryNames(env, l, h, ts[..|ts| - 1], height);
    }
  }

  // The state before the last of a list of valid transactions, and the step it makes.
  lemma LastStep(env: Env, l: Ledger, h: History, ts: seq<Transaction>, height: nat)
    requires Tracked(l, h) && TxnsValid(env, l, ts, height) && ts != []
    ensures var n := |ts| - 1;
      var mid, g := CommitSet(l, TxnsDiffs(env, l, ts[..n], height)), TxnsHistory(env, l, h, ts[..n], height);
      && TxnsValid(env, l, ts[..n], height) && Tracked(mid, g) && Applicable(env, mid, ts[n].core)
      && CommitSet(l, TxnsDiffs(env, l, ts, height)) == CommitSet(mid, TxnDiffs(env, mid, ts[n].core, height))
  {
    hide TxnDiffs, Tracked, Applicable, CommitSet;
    var n := |ts| - 1;
    LastValid(env, l, ts, height);
    TxnsTracked(env, l, h, ts[..n], height);
    var before := TxnsDiffs(env, l, ts[..n], height);
    CommitSetThen(l, before, TxnDiffs(env, CommitSet(l, before), ts[n].core, height));
  }

  // An output as the ledger has it, or as the transaction in its id made it.
  function CoinContent(l: Ledger, x: Hash): SiacoinOutput
  {
    if x in l.siacoins then l.siacoins[x]
    else if x.SiacoinOutputHash? && x.index < |x.txn.siacoinOutputs| then x.txn.siacoinOutputs[x.index]
    else SiacoinOutput(0, ZERO_HASH)
  }

  // The spendable outputs after valid transactions: those there before or made, and not named.
  lemma {:induction false} SiacoinsAfter(env: Env, l: Ledger, h: History, ts: seq<Transaction>, height: nat, x: Hash)
    requires Tracked(l, h) && TxnsValid(env, l, ts, height)
    ensures var m := CommitSet(l, TxnsDiffs(env, l, ts, height)).siacoins;
      && (x in m <==> (x in l.siacoins || x in MadeCoins(ts)) && x !in SpentCoins(ts))
      && (x in m ==> m[x] == CoinContent(l, x))
  {
    if ts != [] {
      hide TxnDiffs, Applicable, OriginsOK;
      var n := |ts| - 1;
      var c := ts[n].core;
      LastStep(env, l, h, ts, height);
      SiacoinsAfter(env, l, h, ts[..n], height, x);
      HistoryNames(env, l, h, ts[..n], height);
      var mid, g := CommitSet(l, TxnsDiffs(env, l, ts[..n], height)), TxnsHistory(env, l, h, ts[..n], height);
      TxnSiacoin(env, mid, g, c, height, x);
      FreshIDs(env, mid, g, c);
      ConsumedIsLive(env, mid, c);
    }
  }

  // A siafund output as the ledger has it, or as the transaction in its id made it, all but the
  // point its claim starts from.
  function FundContent(l: Ledger, x: Hash): (nat, Hash)
  {
    if x in l.siafunds then (l.siafunds[x].value, l.siafunds[x].unlockHash)
    else if x.SiafundOutputHash? && x.index < |x.txn.siafundOutputs| then
      (x.txn.siafundOutputs[x.index].value, x.txn.siafundOutputs[x.index].unlockHash)
    else (0, ZERO_HASH)
  }

  lemma {:induction false} SiafundsAfter(env: Env, l: Ledger, h: History, ts: seq<Transaction>, height: nat, x: Hash)
    requires Tracked(l, h) && TxnsValid(env, l, ts, height)
    ensures var m := CommitSet(l, TxnsDiffs(env, l, ts, height)).siafunds;
      && (x in m <==> (x in l.siafunds || x in MadeFunds(ts)) && x !in SpentFundIDs(ts))
      && (x in m ==> (m[x].value, m[x].unlockHash) == FundContent(l, x))
  {
    if ts != [] {
      hide TxnDiffs, Applicable, OriginsOK;
      var n := |ts| - 1;
      var c := ts[n].core;
      LastStep(env, l, h, ts, height);
      SiafundsAfter(env, l, h, ts[..n], height, x);
      HistoryNames(env, l, h, ts[..n], height);
      var mid, g := CommitSet(l, TxnsDiffs(env, l, ts[..n], height)), TxnsHistory(env, l, h, ts[..n], height);
      TxnSiafund(env, mid, g, c, height, x);
      FreshIDs(env, mid, g, c);
      ConsumedIsLive(env, mid, c);
    }
  }
}
