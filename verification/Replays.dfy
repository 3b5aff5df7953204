/**
 What subscribers are told: each change entry becomes one flat list of diffs of each kind, and
 applying the changes of a whole run to empty sets rebuilds the ledger.
 */
module Replays {
  import opened Types
  import opened Diffs
  import opened Ledgers
  import opened Steps
  import opened Chains
  import opened Database
  import opened ChangeLogs
  import opened BlockTrees
  import opened Engine

  // ---------------------------------------------------------------- the change of an entry

  datatype PoolChange = PoolChange(apply: bool, diff: PoolDiff)

  datatype Change = Change(
    siacoins: seq<Diff<Hash, SiacoinOutput>>,
    contracts: seq<Diff<Hash, FileContract>>,
    siafunds: seq<Diff<Hash, SiafundOutput>>,
    delayed: seq<DelayedDiff>,
    pool: seq<PoolChange>)

  const NO_CHANGE := Change([], [], [], [], [])

  function Both(a: Change, b: Change): Change
  {
    Change(a.siacoins + b.siacoins, a.contracts + b.contracts, a.siafunds + b.siafunds, a.delayed + b.delayed, a.pool + b.pool)
  }

  // The diffs of a reverted block: the order and the direction of each are flipped.
  function Flipped<K, V>(ds: seq<Diff<K, V>>): seq<Diff<K, V>>
  {
    if ds == [] then [] else
      var d := ds[|ds| - 1];
      [Diff(!d.apply, d.id, d.value)] + Flipped(ds[..|ds| - 1])
  }

  function FlippedPool(ds: seq<PoolDiff>): seq<PoolChange>
  {
    if ds == [] then [] else [PoolChange(false, ds[|ds| - 1])] + FlippedPool(ds[..|ds| - 1])
  }

  function Forward(ds: seq<PoolDiff>): seq<PoolChange>
  {
    seq(|ds|, i requires 0 <= i < |ds| => PoolChange(true, ds[i]))
  }

  function Reverting(d: DiffSet): Change
  {
    Change(Flipped(d.siacoins), Flipped(d.contracts), Flipped(d.siafunds), Flipped(d.delayed), FlippedPool(d.pool))
  }

  function Applying(d: DiffSet): Change
  {
    Change(d.siacoins, d.contracts, d.siafunds, d.delayed, Forward(d.pool))
  }

  function StoredDiffs(m: map<Hash, StoredBlock>, id: Hash): DiffSet
  {
    if id in m then m[id].diffs else NO_DIFFS
  }

  function RevertedPart(m: map<Hash, StoredBlock>, ids: seq<Hash>): Change
  {
    if ids == [] then NO_CHANGE else Both(RevertedPart(m, ids[..|ids| - 1]), Reverting(StoredDiffs(m, ids[|ids| - 1])))
  }

  function AppliedPart(m: map<Hash, StoredBlock>, ids: seq<Hash>): Change
  {
    if ids == [] then NO_CHANGE else Both(AppliedPart(m, ids[..|ids| - 1]), Applying(StoredDiffs(m, ids[|ids| - 1])))
  }

  predicate Resolves(m: map<Hash, StoredBlock>, e: ChangeEntry)
  {
    (forall x :: x in e.reverted ==> x in m) && (forall x :: x in e.applied ==> x in m)
  }

  function ChangeOf(m: map<Hash, StoredBlock>, e: ChangeEntry): Change
  {
    Both(RevertedPart(m, e.reverted), AppliedPart(m, e.applied))
  }

  lemma FlipStep<K, V>(ds: seq<Diff<K, V>>, i: nat)
    requires i < |ds|
    ensures Flipped(ds[..i + 1]) == [Diff(!ds[i].apply, ds[i].id, ds[i].value)] + Flipped(ds[..i])
  {
    assert ds[..i + 1][..i] == ds[..i];
  }

  // The loop over one reverted list.
  method FlipLoop<K, V>(ds: seq<Diff<K, V>>) returns (r: seq<Diff<K, V>>)
    ensures r == Flipped(ds)
  {
    r := [];
    var i := |ds|;
    assert ds[..i] == ds;
    while i > 0
      invariant 0 <= i <= |ds| && r + Flipped(ds[..i]) == Flipped(ds)
    {
      i := i - 1;
      FlipStep(ds, i);
      var f := Diff(!ds[i].apply, ds[i].id, ds[i].value);
      Regroup(r, [f], Flipped(ds[..i]));
      r := r + [f];
    }
  }

  lemma FlipPoolStep(ds: seq<PoolDiff>, i: nat)
    requires i < |ds|
    ensures FlippedPool(ds[..i + 1]) == [PoolChange(false, ds[i])] + FlippedPool(ds[..i])
  {
    assert ds[..i + 1][..i] == ds[..i];
  }

  method FlipPoolLoop(ds: seq<PoolDiff>) returns (r: seq<PoolChange>)
    ensures r == FlippedPool(ds)
  {
    r := [];
    var i := |ds|;
    assert ds[..i] == ds;
    while i > 0
      invariant 0 <= i <= |ds| && r + FlippedPool(ds[..i]) == FlippedPool(ds)
    {
      i := i - 1;
      FlipPoolStep(ds, i);
      Regroup(r, [PoolChange(false, ds[i])], FlippedPool(ds[..i]));
      r := r + [PoolChange(false, ds[i])];
    }
  }

  lemma PartStep(m: map<Hash, StoredBlock>, ids: seq<Hash>, i: nat)
    requires i < |ids|
    ensures RevertedPart(m, ids[..i + 1]) == Both(RevertedPart(m, ids[..i]), Reverting(StoredDiffs(m, ids[i])))
    ensures AppliedPart(m, ids[..i + 1]) == Both(AppliedPart(m, ids[..i]), Applying(StoredDiffs(m, ids[i])))
  {
    assert ids[..i + 1][..i] == ids[..i];
  }

  method RevertedChanges(m: map<Hash, StoredBlock>, ids: seq<Hash>) returns (c: Option<Change>)
    ensures c.Some? <==> forall x :: x in ids ==> x in m
    ensures c.Some? ==> c.value == RevertedPart(m, ids)
  {
    var sum := NO_CHANGE;
    for i := 0 to |ids|
      invariant (forall x :: x in ids[..i] ==> x in m) && sum == RevertedPart(m, ids[..i])
    {
      if ids[i] !in m {
        return None;
      }
      var d := m[ids[i]].diffs;
      var coins := FlipLoop(d.siacoins);
      var contracts := FlipLoop(d.contracts);
      var funds := FlipLoop(d.siafunds);
      var delayed := FlipLoop(d.delayed);
      var pool := FlipPoolLoop(d.pool);
      PartStep(m, ids, i);
      sum := Both(sum, Change(coins, contracts, funds, delayed, pool));
    }
    assert ids[..|ids|] == ids;
    return Some(sum);
  }

  method AppliedChanges(m: map<Hash, StoredBlock>, ids: seq<Hash>) returns (c: Option<Change>)
    ensures c.Some? <==> forall x :: x in ids ==> x in m
    ensures c.Some? ==> c.value == AppliedPart(m, ids)
  {
    var sum := NO_CHANGE;
    for i := 0 to |ids|
      invariant (forall x :: x in ids[..i] ==> x in m) && sum == AppliedPart(m, ids[..i])
    {
      if ids[i] !in m {
        return None;
      }
      PartStep(m, ids, i);
      sum := Both(sum, Applying(m[ids[i]].diffs));
    }
    assert ids[..|ids|] == ids;
    return Some(sum);
  }

  // computeConsensusChange.
  method ComputeConsensusChange(m: map<Hash, StoredBlock>, e: ChangeEntry) returns (c: Option<Change>)
    ensures c.Some? <==> Resolves(m, e)
    ensures c.Some? ==> c.value == ChangeOf(m, e)
  {
    var reverting := RevertedChanges(m, e.reverted);
    var applying := AppliedChanges(m, e.applied);
    return if reverting.Some? && applying.Some? then Some(Both(reverting.value, applying.value)) else None;
  }

  // ---------------------------------------------------------------- applying changes

  // What a subscriber that applies every diff it is given holds, and which delayed outputs it has
  // been told of.
  datatype View = View(
    siacoins: map<Hash, SiacoinOutput>,
    contracts: map<Hash, FileContract>,
    siafunds: map<Hash, SiafundOutput>,
    delayed: map<(nat, Hash), SiacoinOutput>,
    pool: nat,
    told: set<(nat, Hash)>)

  const EMPTY_VIEW := View(map[], map[], map[], map[], 0, {})

  function PoolTold(pool: nat, ps: seq<PoolChange>): nat
  {
    if ps == [] then pool else
      var p := ps[|ps| - 1];
      if p.apply then p.diff.adjusted else p.diff.previous
  }

  ghost function Told(v: View, c: Change): View
  {
    View(CommitAll(v.siacoins, c.siacoins), CommitAll(v.contracts, c.contracts), CommitAll(v.siafunds, c.siafunds),
         CommitAll(v.delayed, c.delayed), PoolTold(v.pool, c.pool), v.told + Ids(c.delayed))
  }

  ghost function Replay(m: map<Hash, StoredBlock>, entries: seq<ChangeEntry>): View
  {
    if entries == [] then EMPTY_VIEW else Told(Replay(m, entries[..|entries| - 1]), ChangeOf(m, entries[|entries| - 1]))
  }

  lemma ToldBoth(v: View, a: Change, b: Change)
    ensures Told(v, Both(a, b)) == Told(Told(v, a), b)
  {
    CommitAppend(v.siacoins, a.siacoins, b.siacoins);
    CommitAppend(v.contracts, a.contracts, b.contracts);
    CommitAppend(v.siafunds, a.siafunds, b.siafunds);
    CommitAppend(v.delayed, a.delayed, b.delayed);
    assert Ids(a.delayed + b.delayed) == Ids(a.delayed) + Ids(b.delayed);
  }

  // Committing a flipped list is reverting the list.
  lemma {:induction false} FlipReverts<K, V>(m: map<K, V>, ds: seq<Diff<K, V>>)
    ensures CommitAll(m, Flipped(ds)) == RevertAll(m, ds)
    decreases |ds|
  {
    if ds != [] {
      var d := ds[|ds| - 1];
      var f := Diff(!d.apply, d.id, d.value);
      FlipReverts(Commit(m, d, false), ds[..|ds| - 1]);
      CommitAppend(m, [f], Flipped(ds[..|ds| - 1]));
      assert [f][..0] == [];
      assert CommitAll(m, [f]) == Commit(m, f, true) == Commit(m, d, false);
    }
  }

  lemma {:induction false} FlipPoolReverts(pool: nat, ds: seq<PoolDiff>)
    ensures PoolTold(pool, FlippedPool(ds)) == RevertPool(pool, ds)
  {
    if |ds| > 1 {
      FlipPoolReverts(pool, ds[..|ds| - 1]);
      var front := FlippedPool(ds[..|ds| - 1]);
      assert FlippedPool(ds)[|FlippedPool(ds)| - 1] == front[|front| - 1];
    }
  }

  // ---------------------------------------------------------------- the view follows the ledger

  // The same sets, except that the view lacks one delayed output until it is told of it.
  ghost predicate Follows(v: View, l: Ledger, g: (nat, Hash))
  {
    && v.siacoins == l.siacoins && v.contracts == l.contracts && v.siafunds == l.siafunds && v.pool == l.pool
    && v.delayed == if g in v.told then l.delayed else l.delayed - {g}
  }

  // What is missing stays missing until a diff mentions it.
  lemma {:induction false} CommitWithout<K, V>(m: map<K, V>, ds: seq<Diff<K, V>>, g: K)
    ensures CommitAll(m - {g}, ds) == if g in Ids(ds) then CommitAll(m, ds) else CommitAll(m, ds) - {g}
  {
    if ds != [] {
      var front, d := ds[..|ds| - 1], ds[|ds| - 1];
      CommitWithout(m, front, g);
      assert Ids(ds) == Ids(front) + {d.id} by { assert forall x :: x in ds <==> x in front || x == d; }
    }
  }

  // Telling of a reverted block moves the view to its parent.
  lemma ToldReverted(env: Env, id: Hash, d: DiffSet, v: View, g: (nat, Hash))
    requires EnvOK(env) && Rooted(env, id) && id != GenesisID(env) && GoodDiffs(env, id, d) && ReversibleAt(env, id)
    requires Follows(v, LedgerOf(env, id), g)
    ensures Follows(Told(v, Reverting(d)), LedgerOf(env, id.block.parentID), g)
  {
    RevertMoves(env, id, d);
    RevertedView(LedgerOf(env, id), d, HeightOf(env, id), v, g);
  }

  lemma RevertedView(l: Ledger, d: DiffSet, height: nat, v: View, g: (nat, Hash))
    requires CanRevert(l, d, height) && Follows(v, l, g)
    ensures Follows(Told(v, Reverting(d)), RevertDiffs(l, d, height), g)
  {
    FlipReverts(v.siacoins, d.siacoins);
    FlipReverts(v.contracts, d.contracts);
    FlipReverts(v.siafunds, d.siafunds);
    FlipReverts(l.delayed, d.delayed);
    FlipPoolReverts(v.pool, d.pool);
    CommitWithout(l.delayed, Flipped(d.delayed), g);
    assert WithoutHeight(RevertAll(l.delayed, d.delayed), height + 144) == RevertAll(l.delayed, d.delayed);
  }

  // Telling of an applied block moves the view from its parent to it.
  lemma ToldApplied(env: Env, id: Hash, d: DiffSet, v: View, g: (nat, Hash))
    requires EnvOK(env) && Rooted(env, id) && id != GenesisID(env) && GoodDiffs(env, id, d)
    requires Follows(v, LedgerOf(env, id.block.parentID), g)
    ensures Follows(Told(v, Applying(d)), LedgerOf(env, id), g)
  {
    ReplayMoves(env, id, d);
    AppliedView(LedgerOf(env, id.block.parentID), d, id, HeightOf(env, id), v, g);
  }

  lemma AppliedView(l: Ledger, d: DiffSet, id: Hash, height: nat, v: View, g: (nat, Hash))
    requires CanCommit(l, d, height) && Follows(v, l, g)
    ensures Follows(Told(v, Applying(d)), ApplyDiffs(l, d, id, height), g)
  {
    CommitWithout(l.delayed, d.delayed, g);
    assert height >= 144 ==> WithoutHeight(CommitAll(l.delayed, d.delayed), height) == CommitAll(l.delayed, d.delayed);
  }

  // ---------------------------------------------------------------- a whole run

  // All these blocks are known with their diffs.
  ghost predicate AllGenerated(m: map<Hash, StoredBlock>, ids: seq<Hash>)
  {
    forall x :: x in ids ==> x in m && m[x].generated
  }

  ghost predicate Reached(env: Env, v: View, id: Hash, g: (nat, Hash))
  {
    Rooted(env, id) && Follows(v, LedgerOf(env, id), g)
  }

  // The view after being told of these blocks one by one.
  ghost function AfterReverts(m: map<Hash, StoredBlock>, ids: seq<Hash>, v: View): View
  {
    if ids == [] then v else Told(AfterReverts(m, ids[..|ids| - 1], v), Reverting(StoredDiffs(m, ids[|ids| - 1])))
  }

  ghost function AfterApplies(m: map<Hash, StoredBlock>, ids: seq<Hash>, v: View): View
  {
    if ids == [] then v else Told(AfterApplies(m, ids[..|ids| - 1], v), Applying(StoredDiffs(m, ids[|ids| - 1])))
  }

  lemma {:induction false} OneByOne(m: map<Hash, StoredBlock>, ids: seq<Hash>, v: View)
    ensures Told(v, RevertedPart(m, ids)) == AfterReverts(m, ids, v)
    ensures Told(v, AppliedPart(m, ids)) == AfterApplies(m, ids, v)
  {
    if ids != [] {
      var n := |ids| - 1;
      OneByOne(m, ids[..n], v);
      ToldBoth(v, RevertedPart(m, ids[..n]), Reverting(StoredDiffs(m, ids[n])));
      ToldBoth(v, AppliedPart(m, ids[..n]), Applying(StoredDiffs(m, ids[n])));
    }
  }

  // One more reverted block.
  lemma BackStep(env: Env, m: map<Hash, StoredBlock>, x: Hash, v: View, g: (nat, Hash))
    requires EnvOK(env) && TreeOK(env, m) && x in m && m[x].generated && Rooted(env, x) && ReversibleAt(env, x)
    requires Reached(env, v, x, g)
    ensures Reached(env, Told(v, Reverting(StoredDiffs(m, x))), x.block.parentID, g)
  {
    NodeFacts(env, m, x);
    ToldReverted(env, x, m[x].diffs, v, g);
  }

  // One more applied block.
  lemma ForwardStep(env: Env, m: map<Hash, StoredBlock>, x: Hash, v: View, g: (nat, Hash))
    requires EnvOK(env) && TreeOK(env, m) && x in m && m[x].generated && Rooted(env, x) && x != GenesisID(env)
    requires Reached(env, v, x.block.parentID, g)
    ensures Reached(env, Told(v, Applying(StoredDiffs(m, x))), x, g)
  {
    NodeFacts(env, m, x);
    ToldApplied(env, x, m[x].diffs, v, g);
  }

  lemma PrefixStep(m: map<Hash, StoredBlock>, ids: seq<Hash>, n: nat, v: View)
    requires 0 < n <= |ids|
    ensures AfterReverts(m, ids[..n], v) == Told(AfterReverts(m, ids[..n - 1], v), Reverting(StoredDiffs(m, ids[n - 1])))
    ensures AfterApplies(m, ids[..n], v) == Told(AfterApplies(m, ids[..n - 1], v), Applying(StoredDiffs(m, ids[n - 1])))
  {
    assert ids[..n][..n - 1] == ids[..n - 1];
  }

  lemma UnwoundAt(m: map<Hash, StoredBlock>, ids: seq<Hash>, whole: seq<Hash>, k: nat, j: nat)
    requires Unwound(ids, whole, k) && k <= j < |whole| && AllGenerated(m, ids)
    ensures |whole| - j <= |ids| && ids[|whole| - j - 1] == whole[j] && whole[j] in m && m[whole[j]].generated
  {
    assert ids[|whole| - j - 1] in ids;
  }

  lemma {:induction false} WalkBack(env: Env, m: map<Hash, StoredBlock>, whole: seq<Hash>, k: nat, ids: seq<Hash>, j: nat, v: View, g: (nat, Hash))
    requires EnvOK(env) && TreeOK(env, m) && 0 < k <= j <= |whole| && Undoable(env, whole, k) && AllGenerated(m, ids)
    requires Unwound(ids, whole, k) && Reached(env, v, whole[|whole| - 1], g)
    ensures Reached(env, AfterReverts(m, ids[..|whole| - j], v), whole[j - 1], g)
    decreases |whole| - j
  {
    hide Reached, TreeOK, AllGenerated, Told, ReversibleAt, EnvOK, StoredDiffs;
    var n := |whole| - j;
    if n == 0 {
      assert ids[..0] == [];
    } else {
      WalkBack(env, m, whole, k, ids, j + 1, v, g);
      assert UndoableAt(env, whole, j);
      UnwoundAt(m, ids, whole, k, j);
      BackStep(env, m, whole[j], AfterReverts(m, ids[..n - 1], v), g);
      PrefixStep(m, ids, n, v);
    }
  }

  lemma {:induction false} WalkForward(env: Env, m: map<Hash, StoredBlock>, whole: seq<Hash>, k: nat, ids: seq<Hash>, n: nat, v: View, g: (nat, Hash))
    requires EnvOK(env) && TreeOK(env, m) && 0 < k <= |whole| && Doable(env, m, whole, k) && AllGenerated(m, ids)
    requires ids == whole[k..] && n <= |ids| && Reached(env, v, whole[k - 1], g)
    ensures Reached(env, AfterApplies(m, ids[..n], v), whole[k + n - 1], g)
  {
    if n == 0 {
      assert ids[..0] == [];
    } else {
      WalkForward(env, m, whole, k, ids, n - 1, v, g);
      assert DoableAt(env, m, whole, k + n - 1);
      assert ids[n - 1] == whole[k + n - 1] && whole[k + n - 1] in ids;
      ForwardStep(env, m, whole[k + n - 1], AfterApplies(m, ids[..n - 1], v), g);
      PrefixStep(m, ids, n, v);
    }
  }

  lemma UnwoundReversed(whole: seq<Hash>, k: nat)
    requires k <= |whole|
    ensures Unwound(Reversed(whole[k..]), whole, k)
  {
    if k == |whole| {
      assert whole[k..] == [];
    }
    forall i | 0 <= i < |whole| - k
      ensures |Reversed(whole[k..])| == |whole| - k && Reversed(whole[k..])[i] == whole[|whole| - 1 - i]
    {
      ReversedAt(whole[k..], i);
    }
    if k < |whole| {
      ReversedAt(whole[k..], 0);
    }
  }

  lemma PathGenerated(env: Env, m: map<Hash, StoredBlock>, id: Hash)
    requires TreeOK(env, m) && id in m && m[id].generated && Rooted(env, id)
    ensures AllGenerated(m, PathOf(env, id))
  {
    forall x | x in PathOf(env, id) ensures x in m && m[x].generated {
      AncestorsKnown(env, m, id, x);
    }
  }

  lemma SomeGenerated(m: map<Hash, StoredBlock>, whole: seq<Hash>, k: nat)
    requires AllGenerated(m, whole) && k <= |whole|
    ensures AllGenerated(m, whole[k..]) && AllGenerated(m, Reversed(whole[k..]))
  {
    UnwoundReversed(whole, k);
    var ids := Reversed(whole[k..]);
    forall x | x in ids ensures x in whole {
      var i :| 0 <= i < |ids| && ids[i] == x;
    }
  }

  // Telling of one tip change moves the view from the old tip to the new one.
  lemma EntryFollows(env: Env, m: map<Hash, StoredBlock>, from: Hash, to: Hash, e: ChangeEntry, v: View, g: (nat, Hash))
    requires EnvOK(env) && TreeOK(env, m) && Moves(env, m, from, to, e) && Reached(env, v, from, g)
    ensures Resolves(m, e) && Reached(env, Told(v, ChangeOf(m, e)), to, g)
  {
    var k: nat :| ForkAt(env, from, to, k) && k < |PathOf(env, to)|
                  && e == ChangeEntry(Reversed(PathOf(env, from)[k..]), PathOf(env, to)[k..]);
    PathGenerated(env, m, from);
    PathGenerated(env, m, to);
    SomeGenerated(m, PathOf(env, from), k);
    SomeGenerated(m, PathOf(env, to), k);
    BackThenForward(env, m, from, to, k, v, g);
    OneByOne(m, e.reverted, v);
    OneByOne(m, e.applied, AfterReverts(m, e.reverted, v));
    ToldBoth(v, RevertedPart(m, e.reverted), AppliedPart(m, e.applied));
  }

  lemma {:induction false} BackThenForward(env: Env, m: map<Hash, StoredBlock>, from: Hash, to: Hash, k: nat, v: View, g: (nat, Hash))
    requires EnvOK(env) && TreeOK(env, m) && to in m && Rooted(env, from) && Rooted(env, to) && SafeFork(env, from, to) && ForkAt(env, from, to, k)
    requires AllGenerated(m, Reversed(PathOf(env, from)[k..])) && AllGenerated(m, PathOf(env, to)[k..]) && Reached(env, v, from, g)
    ensures Reached(env, AfterApplies(m, PathOf(env, to)[k..], AfterReverts(m, Reversed(PathOf(env, from)[k..]), v)), to, g)
  {
    var a, b := PathOf(env, from), PathOf(env, to);
    PathEnds(env, from);
    PathEnds(env, to);
    SafeIsUndoable(env, from, to, k);
    TreeLinks(env, m);
    KnownIsDoable(env, m, to, k);
    assert a[k - 1] == a[..k][k - 1] == b[..k][k - 1] == b[k - 1];
    AlongPaths(env, m, a, b, k, v, g);
  }

  lemma {:induction false} AlongPaths(env: Env, m: map<Hash, StoredBlock>, a: seq<Hash>, b: seq<Hash>, k: nat, v: View, g: (nat, Hash))
    requires EnvOK(env) && TreeOK(env, m) && 0 < k <= |a| && k <= |b| && a[k - 1] == b[k - 1]
    requires Undoable(env, a, k) && Doable(env, m, b, k) && Reached(env, v, a[|a| - 1], g)
    requires AllGenerated(m, Reversed(a[k..])) && AllGenerated(m, b[k..])
    ensures Reached(env, AfterApplies(m, b[k..], AfterReverts(m, Reversed(a[k..]), v)), b[|b| - 1], g)
  {
    hide Reached, TreeOK, AllGenerated, Told, Undoable, Doable, AfterReverts, AfterApplies;
    var ids := Reversed(a[k..]);
    UnwoundReversed(a, k);
    WalkBack(env, m, a, k, ids, k, v, g);
    assert ids[..|a| - k] == ids && b[k..][..|b| - k] == b[k..];
    WalkForward(env, m, b, k, b[k..], |b| - k, AfterReverts(m, ids, v), g);
  }

  // ---------------------------------------------------------------- the theorem

  lemma GenesisFollows(env: Env, m: map<Hash, StoredBlock>)
    requires EnvOK(env) && TreeOK(env, m)
    ensures Resolves(m, GenesisEntry(env))
    ensures Reached(env, Told(EMPTY_VIEW, ChangeOf(m, GenesisEntry(env))), GenesisID(env), GenesisPayoutKey(env))
  {
    var e, d := GenesisEntry(env), GenesisDiffs(env);
    assert e.applied[..0] == [];
    assert AppliedPart(m, e.applied) == Both(NO_CHANGE, Applying(d)) == Applying(d);
    assert ChangeOf(m, e) == Both(NO_CHANGE, Applying(d)) == Applying(d);
    var v, g := Told(EMPTY_VIEW, Applying(d)), GenesisPayoutKey(env);
    assert v.delayed == map[];
    assert v.delayed == GenesisLedger(env).delayed - {g};
  }

  lemma ReplayStep(m: map<Hash, StoredBlock>, entries: seq<ChangeEntry>, n: nat)
    requires 0 < n <= |entries|
    ensures Replay(m, entries[..n]) == Told(Replay(m, entries[..n - 1]), ChangeOf(m, entries[n - 1]))
  {
    assert entries[..n][..n - 1] == entries[..n - 1];
  }

  // Applying everything a subscriber is told from the beginning rebuilds the unspent outputs, the
  // contracts, the siafunds, the pool and the delayed outputs of the current tip, where the genesis
  // payout is missing until a change first mentions it.
  lemma {:induction false} ReplayRebuilds(env: Env, m: map<Hash, StoredBlock>, entries: seq<ChangeEntry>, tip: Hash, n: nat)
    requires EnvOK(env) && TreeOK(env, m) && RunOK(env, m, entries, tip) && 0 < n <= |entries|
    ensures Resolves(m, entries[n - 1])
    ensures Reached(env, Replay(m, entries[..n]), TipOf(entries[n - 1]), GenesisPayoutKey(env))
  {
    var g := GenesisPayoutKey(env);
    if n == 1 {
      GenesisFollows(env, m);
      assert entries[..1] == [GenesisEntry(env)] && entries[..1][..0] == [];
    } else {
      ReplayRebuilds(env, m, entries, tip, n - 1);
      var e := entries[n - 1];
      assert Moves(env, m, TipOf(entries[n - 2]), TipOf(e), e);
      EntryFollows(env, m, TipOf(entries[n - 2]), TipOf(e), e, Replay(m, entries[..n - 1]), g);
      ReplayStep(m, entries, n);
    }
  }
}
