/** The engine under the consensus rules: what they guarantee of every chain it accepts. */
module Rulebook {
  import opened Types
  import opened Money
  import opened Ledgers
  import opened Chains
  import opened Targets
  import opened Admission
  import opened Timestamps
  import Oak

  // ---------------------------------------------------------------- the rules

  // The Oak totals of a stored block, from its ancestors' targets. A zero target makes the source
  // panic, and leaves no totals here.
  ghost function TotalsIn(env: Env, w: Weights, id: Hash): Oak.Totals
    requires Rooted(env, id)
  {
    if id == GenesisID(env) then
      Oak.NextTotals(Oak.BASE_TOTALS, 0, Oak.GENESIS_TIMESTAMP, Oak.GENESIS_TIMESTAMP, Oak.ROOT_TARGET)
    else
      var p := id.block.parentID;
      if p in w && w[p].childTarget > 0 && TotalsIn(env, w, p).target > 0 then
        Oak.NextTotals(TotalsIn(env, w, p), HeightOf(env, id), p.block.timestamp, id.block.timestamp, w[p].childTarget)
      else
        Oak.Totals(0, 0)
  }

  ghost function StateIn(env: Env, w: Weights, id: Hash): Oak.OakBlock
    requires Rooted(env, id) && id in w
  {
    Oak.OakBlock(HeightOf(env, id), id.block.timestamp, TotalsIn(env, w, id), w[id].childTarget)
  }

  // The target a block's children must meet is set from its parent.
  ghost function TargetAfter(pb: Oak.OakBlock): nat
  {
    if 0 < pb.childTarget <= ROOT_DEPTH then
      Oak.ChildTarget(pb.totals.time, pb.totals.target, pb.childTarget, pb.height, pb.timestamp)
    else 0
  }

  ghost function TargetRule(env: Env, rest: Rules, w: Weights, b: Block): nat
  {
    if b.parentID in w && Rooted(env, b.parentID) && HeightOf(env, b.parentID) >= Oak.OAK_HARDFORK_BLOCK then
      TargetAfter(StateIn(env, w, b.parentID))
    else
      rest.childTarget(w, b)
  }

  ghost predicate HeaderRule(env: Env, rest: Rules, w: Weights, b: Block)
  {
    && b.parentID in w && Rooted(env, b.parentID) && MinimumTime(env, b.parentID) <= b.timestamp
    && rest.headerOK(w, b)
  }

  // Times by the median rule and targets by the Oak rule. The targets below the Oak fork and the
  // other header checks are those of the rest.
  ghost function Standard(env: Env, rest: Rules): Rules
  {
    Rules(Oak.ROOT_TARGET, (w, b) => TargetRule(env, rest, w, b), (w, b) => HeaderRule(env, rest, w, b))
  }

  // A block stored under these rules passed them against a tree with its parent.
  lemma StoredByRules(env: Env, rest: Rules, w: Weights, x: Hash) returns (before: Weights)
    requires AllAdmitted(env, Standard(env, rest), w) && x in w && x != GenesisID(env)
    ensures Closed(env, before) && Within(before, w) && x.BlockHash? && x.block.parentID in before
    ensures HeaderRule(env, rest, before, x.block) && w[x].childTarget == TargetRule(env, rest, before, x.block)
  {
    hide HeaderRule, TargetRule;
    before :| AdmittedTo(env, Standard(env, rest), before, w, x);
  }

  // ---------------------------------------------------------------- payouts

  // Every block the engine stores above genesis pays the dev fund.
  lemma DevFundPaid(env: Env, rules: Rules, w: Weights, x: Hash)
    requires AllAdmitted(env, rules, w) && x in w && x != GenesisID(env) && Rooted(env, x)
    ensures PaysDevFund(env, x.block, HeightOf(env, x))
  {
    hide Admitted, PayoutsOK, PaysDevFund;
    assert Admitted(env, rules, w, x);
    AdmittedPays(env, rules, w, x);
    PayoutsMean(env, x.block, HeightOf(env, x));
  }

  // ---------------------------------------------------------------- times

  // Every block the engine stores respects its parent's window, and so do its ancestors.
  lemma {:induction false} AcceptedTimely(env: Env, rest: Rules, w: Weights, x: Hash)
    requires AllAdmitted(env, Standard(env, rest), w) && x in w
    ensures Rooted(env, x) && Timely(env, x)
    decreases x
  {
    assert ParentIn(env, w, x);
    if x != GenesisID(env) {
      var before := StoredByRules(env, rest, w, x);
      AcceptedTimely(env, rest, w, x.block.parentID);
    }
  }

  // So on every stored chain the earliest acceptable time never moves back.
  lemma AcceptedTimesGrow(env: Env, rest: Rules, w: Weights, x: Hash, i: nat)
    requires AllAdmitted(env, Standard(env, rest), w) && x in w && Rooted(env, x) && i < |PathOf(env, x)|
    ensures Rooted(env, PathOf(env, x)[i]) && MinimumTime(env, PathOf(env, x)[i]) <= MinimumTime(env, x)
  {
    AcceptedTimely(env, rest, w, x);
    MinimumTimeGrows(env, x, i);
  }

  // ---------------------------------------------------------------- targets

  // The totals of a block do not change when the tree grows.
  lemma {:induction false} TotalsStay(env: Env, before: Weights, w: Weights, id: Hash)
    requires Closed(env, before) && Within(before, w) && id in before && Rooted(env, id)
    ensures TotalsIn(env, w, id) == TotalsIn(env, before, id)
    decreases id
  {
    hide Oak.NextTotals;
    assert ParentIn(env, before, id);
    if id != GenesisID(env) {
      TotalsStay(env, before, w, id.block.parentID);
    }
  }

  // A stored block above the Oak fork is the Oak child of its parent.
  lemma AcceptedChild(env: Env, rest: Rules, w: Weights, x: Hash)
    requires AllAdmitted(env, Standard(env, rest), w) && x in w && Rooted(env, x) && x != GenesisID(env)
    requires HeightOf(env, x) > Oak.OAK_HARDFORK_BLOCK
    ensures x.block.parentID in w
    ensures Oak.Sound(StateIn(env, w, x.block.parentID)) ==> Oak.IsChild(StateIn(env, w, x.block.parentID), StateIn(env, w, x))
  {
    hide Oak.NextTotals, Oak.ChildTarget, Oak.IsChild, Oak.Sound, MinimumTime, AllAdmitted, TotalsIn, TargetAfter;
    AdmittedIsClosed(env, Standard(env, rest), w, x);
    var p := x.block.parentID;
    var before := StoredByRules(env, rest, w, x);
    TotalsStay(env, before, w, p);
    assert StateIn(env, before, p) == StateIn(env, w, p);
    if Oak.Sound(StateIn(env, w, p)) {
      TotalsNext(env, w, x);
      ChildAssembles(StateIn(env, w, p), StateIn(env, w, x));
    }
  }

  lemma TotalsNext(env: Env, w: Weights, x: Hash)
    requires Rooted(env, x) && x != GenesisID(env) && x.block.parentID in w && Oak.Sound(StateIn(env, w, x.block.parentID))
    ensures var pb := StateIn(env, w, x.block.parentID);
      TotalsIn(env, w, x) == Oak.NextTotals(pb.totals, pb.height + 1, pb.timestamp, x.block.timestamp, pb.childTarget)
  {
    hide Oak.NextTotals;
  }

  lemma ChildAssembles(pb: Oak.OakBlock, child: Oak.OakBlock)
    requires Oak.Sound(pb) && child.height == pb.height + 1 && child.childTarget == TargetAfter(pb)
    requires child.totals == Oak.NextTotals(pb.totals, pb.height + 1, pb.timestamp, child.timestamp, pb.childTarget)
    ensures Oak.IsChild(pb, child)
  {
    hide Oak.NextTotals, Oak.ChildTarget;
  }

  // The blocks of a chain from one height on, as the Oak rule sees them.
  ghost function StatesFrom(env: Env, w: Weights, path: seq<Hash>, i: nat): seq<Oak.OakBlock>
    requires i <= |path| && forall k :: i <= k < |path| ==> Rooted(env, path[k]) && path[k] in w
  {
    seq(|path| - i, k requires 0 <= k < |path| - i => StateIn(env, w, path[i + k]))
  }

  // Every stored chain above the Oak fork, away from the ASIC fork and zero targets, is a run of
  // the Oak rule.
  lemma AcceptedRun(env: Env, rest: Rules, w: Weights, x: Hash, i: nat)
    requires AllAdmitted(env, Standard(env, rest), w) && x in w && Rooted(env, x)
    requires Oak.OAK_HARDFORK_BLOCK <= i < |PathOf(env, x)|
    requires forall y :: y in w && y in PathOf(env, x) && Rooted(env, y) && HeightOf(env, y) >= i ==> Oak.Sound(StateIn(env, w, y))
    ensures forall k :: i <= k < |PathOf(env, x)| ==> Rooted(env, PathOf(env, x)[k]) && PathOf(env, x)[k] in w
    ensures Oak.OakRun(StatesFrom(env, w, PathOf(env, x), i))
  {
    hide Oak.IsChild, Oak.Sound, AllAdmitted, StateIn, Standard, LedgerOf, StatesFrom, Oak.OakRun, PathOf, HeightOf, Rooted;
    var path := PathOf(env, x);
    forall k | i <= k < |path| ensures Rooted(env, path[k]) && path[k] in w && Oak.Sound(StateIn(env, w, path[k])) {
      KnownAt(env, rest, w, x, k);
    }
    forall k | i < k < |path| ensures Oak.IsChild(StateIn(env, w, path[k - 1]), StateIn(env, w, path[k])) {
      AcceptedStep(env, rest, w, x, k);
    }
    StatesRun(env, w, path, i);
  }

  lemma KnownAt(env: Env, rest: Rules, w: Weights, x: Hash, k: nat)
    requires AllAdmitted(env, Standard(env, rest), w) && x in w && Rooted(env, x) && k < |PathOf(env, x)|
    ensures var y := PathOf(env, x)[k]; y in PathOf(env, x) && y in w && Rooted(env, y) && HeightOf(env, y) == k
  {
    hide AllAdmitted, Standard;
    AdmittedIsClosed(env, Standard(env, rest), w, x);
    PathHeights(env, x);
    AncestorsIn(env, w, x, PathOf(env, x)[k]);
  }

  lemma StatesRun(env: Env, w: Weights, path: seq<Hash>, i: nat)
    requires i < |path| && forall k :: i <= k < |path| ==> Rooted(env, path[k]) && path[k] in w
    requires forall k :: i <= k < |path| ==> Oak.Sound(StateIn(env, w, path[k]))
    requires forall k :: i < k < |path| ==> Oak.IsChild(StateIn(env, w, path[k - 1]), StateIn(env, w, path[k]))
    ensures Oak.OakRun(StatesFrom(env, w, path, i))
  {
    hide Oak.IsChild, Oak.Sound, StateIn;
    var s := StatesFrom(env, w, path, i);
    assert forall k :: 0 <= k < |s| ==> s[k] == StateIn(env, w, path[i + k]);
    forall k | 0 < k < |s| ensures Oak.IsChild(s[k - 1], s[k]) {
      assert s[k - 1] == StateIn(env, w, path[i + k - 1]);
    }
  }

  lemma AcceptedStep(env: Env, rest: Rules, w: Weights, x: Hash, j: nat)
    requires AllAdmitted(env, Standard(env, rest), w) && x in w && Rooted(env, x)
    requires Oak.OAK_HARDFORK_BLOCK < j < |PathOf(env, x)|
    ensures var a, y := PathOf(env, x)[j - 1], PathOf(env, x)[j];
      && Rooted(env, a) && Rooted(env, y) && a in w && y in w
      && (Oak.Sound(StateIn(env, w, a)) ==> Oak.IsChild(StateIn(env, w, a), StateIn(env, w, y)))
  {
    hide Oak.IsChild, Oak.Sound, AllAdmitted, StateIn;
    AdmittedIsClosed(env, Standard(env, rest), w, x);
    var path := PathOf(env, x);
    PathHeights(env, x);
    AncestorsIn(env, w, x, path[j]);
    assert PathOf(env, path[j]) == path[..j + 1];
    ParentOnPath(env, path[j]);
    AcceptedChild(env, rest, w, path[j]);
  }

  lemma ParentOnPath(env: Env, y: Hash)
    requires Rooted(env, y) && HeightOf(env, y) > 0
    ensures |PathOf(env, y)| >= 2 && PathOf(env, y)[|PathOf(env, y)| - 2] == y.block.parentID && y != GenesisID(env)
  {
    PathHeights(env, y.block.parentID);
  }

  // So over n blocks of a stored chain the target moves by at most the factor (1004/1000)^n.
  lemma AcceptedTargets(env: Env, rest: Rules, w: Weights, x: Hash, i: nat)
    requires AllAdmitted(env, Standard(env, rest), w) && x in w && Rooted(env, x)
    requires Oak.OAK_HARDFORK_BLOCK <= i < |PathOf(env, x)|
    requires forall y :: y in w && y in PathOf(env, x) && Rooted(env, y) && HeightOf(env, y) >= i ==> Oak.Sound(StateIn(env, w, y))
    ensures var a, n := PathOf(env, x)[i], |PathOf(env, x)| - 1 - i;
      && a in w
      && Oak.RisesWithin(w[a].childTarget, w[x].childTarget, n)
      && Oak.DropsWithin(w[a].childTarget, w[x].childTarget, n)
  {
    hide Oak.OakRun, Oak.Sound, AllAdmitted, StateIn, StatesFrom, Standard, Oak.RisesWithin, Oak.DropsWithin, LedgerOf;
    AcceptedRun(env, rest, w, x, i);
    PathHeights(env, x);
    StatesEnds(env, w, PathOf(env, x), i);
    Oak.TargetsRise(StatesFrom(env, w, PathOf(env, x), i));
    Oak.TargetsDrop(StatesFrom(env, w, PathOf(env, x), i));
  }

  lemma StatesEnds(env: Env, w: Weights, path: seq<Hash>, i: nat)
    requires i < |path| && forall k :: i <= k < |path| ==> Rooted(env, path[k]) && path[k] in w
    ensures var s := StatesFrom(env, w, path, i);
      && |s| == |path| - i && s[0].childTarget == w[path[i]].childTarget
      && s[|s| - 1].childTarget == w[path[|path| - 1]].childTarget
  {
    var s := StatesFrom(env, w, path, i);
    assert s[0] == StateIn(env, w, path[i + 0]);
    assert s[|s| - 1] == StateIn(env, w, path[i + (|s| - 1)]);
  }
}
