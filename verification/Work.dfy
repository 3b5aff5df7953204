/** Depths are cumulative work: the depth of a stored block against the difficulties of its ancestors. */
module Work {
  import opened Types
  import opened Ledgers
  import opened Chains
  import opened Targets
  import opened BlockTrees

  // The work of one block that meets a target.
  function Difficulty(target: nat): real { if target == 0 then 0.0 else 1.0 / target as real }

  // The work of a chain: that of the root and of every block after the first.
  ghost function WorkOf(env: Env, m: map<Hash, StoredBlock>, id: Hash): real
    requires Rooted(env, id)
  {
    if id == GenesisID(env) then Difficulty(ROOT_DEPTH)
    else
      var p := id.block.parentID;
      WorkOf(env, m, p) + if p in m then Difficulty(m[p].weight.childTarget) else 0.0
  }

  // A depth is the inverse of the work, rounded down at most once for each block.
  ghost predicate Inverts(depth: nat, work: real, height: nat)
  {
    depth as real * work <= 1.0 <= (depth + height) as real * work
  }

  // One rounded addition.
  lemma AddsWork(d: nat, t: nat, next: nat, n: nat, w: real)
    requires d > 0 && t > 0 && Inverts(d, w, n) && HasWork(next, d, t) && !HasWork(next + 1, d, t)
    ensures Inverts(next, w + Difficulty(t), n + 1)
  {
    hide HasWork;
    var u := Difficulty(t);
    Inverse(t);
    Cast(next, d, t);
    UpperBound(d as real, t as real, next as real, w, u);
    LowerBound(d, t, next, n, w, u);
  }

  lemma Inverse(t: nat)
    requires t > 0
    ensures Difficulty(t) * t as real == 1.0
  {
  }

  lemma Cast(c: nat, d: nat, t: nat)
    requires HasWork(c, d, t)
    ensures c as real * (d as real + t as real) <= d as real * t as real
  {
    assert (c * (d + t)) as real == c as real * (d as real + t as real);
    assert (d * t) as real == d as real * t as real;
  }

  lemma UpperBound(d: real, t: real, c: real, w: real, u: real)
    requires d > 0.0 && t > 0.0 && c >= 0.0 && u * t == 1.0 && d * w <= 1.0 && c * (d + t) <= d * t
    ensures c * (w + u) <= 1.0
  {
  }

  lemma LowerBound(d: nat, t: nat, c: nat, n: nat, w: real, u: real)
    requires d > 0 && t > 0 && u * t as real == 1.0 && (d + n) as real * w >= 1.0 && !HasWork(c + 1, d, t)
    ensures (c + (n + 1)) as real * (w + u) >= 1.0
  {
  }

  // In every tree the engine builds, the depth of a block is the inverse of the work of its chain,
  // to within its height.
  lemma {:induction false} DepthIsWork(env: Env, m: map<Hash, StoredBlock>, id: Hash)
    requires TreeOK(env, m) && id in m && Rooted(env, id)
    ensures m[id].weight.depth <= ROOT_DEPTH && Inverts(m[id].weight.depth, WorkOf(env, m, id), HeightOf(env, id))
    decreases id
  {
    hide Inverts, AddDifficulties;
    if id == GenesisID(env) {
      RootInverts();
    } else {
      assert NodeOK(env, m, id);
      var p := id.block.parentID;
      DepthIsWork(env, m, p);
      var w := m[p].weight;
      SumIsFloor(w.depth, w.childTarget);
      AddsWork(w.depth, w.childTarget, m[id].weight.depth, HeightOf(env, p), WorkOf(env, m, p));
    }
  }

  lemma RootInverts()
    ensures Inverts(ROOT_DEPTH, Difficulty(ROOT_DEPTH), 0)
  {
    Inverse(ROOT_DEPTH);
  }

  // The work v of a block is at least the work w and a fifth of a block, to within the rounding of
  // the block's depth.
  ghost predicate Surpasses(depth: nat, height: nat, v: real, w: real, target: nat)
  {
    (depth + 1) as real * (w + Difficulty(Fifth(target))) <= (depth + height) as real * v
  }

  // A heavier block has the current block's work and a fifth of a block more, to within the rounding
  // of its own depth, for any two blocks whose depths invert their work.
  lemma HeavierHasMoreWork(a: Weight, b: Weight, v: real, w: real, n: nat, k: nat)
    requires HeavierThan(a, b) && b.depth <= ROOT_DEPTH && b.childTarget <= ROOT_DEPTH
    requires Inverts(a.depth, v, n) && Inverts(b.depth, w, k)
    ensures Surpasses(a.depth, n, v, w, b.childTarget)
  {
    hide HasWork, HeavierThan;
    CurrentPositive(a, b);
    HeavierIff(a, b);
    var s := Fifth(b.childTarget);
    Inverse(s);
    Cast(a.depth + 1, b.depth, s);
    UpperBound(b.depth as real, s as real, (a.depth + 1) as real, w, Difficulty(s));
  }

  lemma CurrentPositive(w: Weight, current: Weight)
    requires HeavierThan(w, current)
    ensures current.depth > 0 && current.childTarget > 0
  {
  }
}
