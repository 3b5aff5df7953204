/** Finding a recent common block with a peer, and sending the blocks after it in batches. */
module Synchronize {
  import opened Types
  import opened Chains
  import BlockTrees

  const MAX_CATCH_UP_BLOCKS: nat := 10
  // Up to this height the genesis block is near enough to stand in for the samples that would follow.
  const MAX_SAMPLED_HEIGHT: nat := 8388624

  // ---------------------------------------------------------------- the requester's samples

  function Pow2(n: nat): nat { if n == 0 then 1 else 2 * Pow2(n - 1) }

  // How far below the tip entry i of the history lies: the ten most recent blocks, then strides
  // that double.
  function Offset(i: nat): nat { if i <= 9 then i else 7 + Pow2(i - 8) }

  function Stride(i: nat): nat { if i < 9 then 1 else Pow2(i - 8) }

  lemma OffsetStep(i: nat)
    ensures Offset(i + 1) == Offset(i) + Stride(i)
    ensures Stride(i) == if i == 0 then 1 else if i >= 9 then 2 * Stride(i - 1) else Stride(i - 1)
    ensures Offset(i + 1) <= 2 * Offset(i) + 2
  {
    if i == 9 {
      assert Pow2(1) == 2 && Pow2(2) == 4;
    }
  }

  lemma DeepestOffset()
    ensures MAX_SAMPLED_HEIGHT == 2 * Offset(30) + 2
  {
    assert Pow2(4) == 16;
    assert Pow2(8) == 256;
    assert Pow2(12) == 4096;
    assert Pow2(16) == 65536;
    assert Pow2(20) == 1048576;
    assert Pow2(22) == 4194304;
  }

  // The block at entry i, when the chain reaches down that far.
  ghost predicate Sample(path: seq<Hash>, i: nat, id: Hash)
  {
    Offset(i) < |path| && id == path[|path| - 1 - Offset(i)]
  }

  // A history of a path: the blocks at the offsets while they stay above the genesis block, then
  // empty ids, then the genesis block.
  ghost predicate IsHistory(path: seq<Hash>, ids: seq<Hash>, n: nat)
  {
    && path != [] && |ids| == 32 && 0 < n <= 31
    && (forall i :: 0 <= i < n ==> Sample(path, i, ids[i]))
    && (forall i :: n <= i < 31 ==> ids[i] == ZERO_HASH)
    && ids[31] == path[0]
    && (n < 31 ==> |path| - 1 <= Offset(n))
  }

  method BlockHistory(path: seq<Hash>) returns (ids: seq<Hash>, ghost n: nat)
    requires path != []
    ensures IsHistory(path, ids, n)
  {
    var history := new Hash[32](_ => ZERO_HASH);
    var height, step, i := |path| - 1, 1, 0;
    n := 0;
    while i < 31
      invariant 0 <= i <= 31 && n == i
      invariant i < 31 ==> 0 <= height == |path| - 1 - Offset(i)
      invariant i < 31 ==> step == if i == 0 then 1 else Stride(i - 1)
      invariant forall j :: 0 <= j < i ==> Sample(path, j, history[j])
      invariant forall j :: i <= j < 32 ==> history[j] == ZERO_HASH
    {
      history[i] := path[height];
      if i >= 9 {
        step := step * 2;
      }
      OffsetStep(i);
      i := i + 1;
      n := i;
      if height <= step {
        break;
      }
      height := height - step;
    }
    history[31] := path[0];
    ids := history[..];
  }

  // ---------------------------------------------------------------- the responder's answer

  // The responder knows the block and has it on its current path.
  predicate OnPath(heights: map<Hash, nat>, path: seq<Hash>, id: Hash)
  {
    id in heights && heights[id] < |path| && path[heights[id]] == id
  }

  // Where the responder starts: after the first known block, unless that is its own tip.
  ghost predicate StartsAt(known: seq<Hash>, heights: map<Hash, nat>, path: seq<Hash>, found: bool, start: nat)
  {
    if exists k :: 0 <= k < |known| && OnPath(heights, path, known[k]) then
      exists k :: && 0 <= k < |known| && OnPath(heights, path, known[k])
                  && (forall j :: 0 <= j < k ==> !OnPath(heights, path, known[j]))
                  && (found <==> heights[known[k]] + 1 < |path|)
                  && (found ==> start == heights[known[k]] + 1)
    else
      !found
  }

  method FindStart(known: seq<Hash>, heights: map<Hash, nat>, path: seq<Hash>) returns (found: bool, start: nat)
    ensures StartsAt(known, heights, path, found, start)
    ensures found ==> 0 < start < |path|
  {
    found, start := false, 0;
    for k := 0 to |known|
      invariant !found && start == 0
      invariant forall j :: 0 <= j < k ==> !OnPath(heights, path, known[j])
    {
      var id := known[k];
      if id !in heights {
        continue;
      }
      if heights[id] >= |path| || path[heights[id]] != id {
        continue;
      }
      assert OnPath(heights, path, known[k]);
      if heights[id] == |path| - 1 {
        break;
      }
      found, start := true, heights[id] + 1;
      break;
    }
  }

  function Flat(batches: seq<seq<Hash>>): seq<Hash>
  {
    if batches == [] then [] else Flat(batches[..|batches| - 1]) + batches[|batches| - 1]
  }

  // One batch: the blocks from here, up to the tip or the limit.
  method CollectBatch(path: seq<Hash>, start: nat) returns (blocks: seq<Hash>, ghost end: nat)
    requires start < |path|
    ensures start < end <= |path| && blocks == path[start..end] && |blocks| <= MAX_CATCH_UP_BLOCKS
    ensures end == start + MAX_CATCH_UP_BLOCKS || end == |path|
  {
    var i := start;
    blocks := [];
    while i <= |path| - 1 && i < start + MAX_CATCH_UP_BLOCKS
      invariant start <= i <= |path| && i <= start + MAX_CATCH_UP_BLOCKS && blocks == path[start..i]
    {
      blocks := blocks + [path[i]];
      i := i + 1;
    }
    end := i;
  }

  // The batching loop: no batch is empty or too long, and together they are the rest of the path.
  method SendFrom(path: seq<Hash>, first: nat) returns (batches: seq<seq<Hash>>)
    requires first < |path|
    ensures Flat(batches) == path[first..]
    ensures forall k :: 0 <= k < |batches| ==> 0 < |batches[k]| <= MAX_CATCH_UP_BLOCKS
  {
    var height, start, moreAvailable := |path| - 1, first, true;
    batches := [];
    while moreAvailable
      invariant moreAvailable ==> first <= start <= height && Flat(batches) == path[first..start]
      invariant !moreAvailable ==> Flat(batches) == path[first..]
      invariant forall k :: 0 <= k < |batches| ==> 0 < |batches[k]| <= MAX_CATCH_UP_BLOCKS
      decreases height - start, moreAvailable
    {
      var blocks, end := CollectBatch(path, start);
      FlatSnoc(batches, blocks);
      assert path[first..start] + path[start..end] == path[first..end];
      batches := batches + [blocks];
      moreAvailable := start + MAX_CATCH_UP_BLOCKS <= height;
      start := start + MAX_CATCH_UP_BLOCKS;
    }
  }

  lemma FlatSnoc(batches: seq<seq<Hash>>, blocks: seq<Hash>)
    ensures Flat(batches + [blocks]) == Flat(batches) + blocks
  {
    assert (batches + [blocks])[..|batches|] == batches;
  }

  method SendBlocks(known: seq<Hash>, heights: map<Hash, nat>, path: seq<Hash>)
    returns (batches: seq<seq<Hash>>, found: bool, start: nat)
    ensures StartsAt(known, heights, path, found, start)
    ensures found ==> start <= |path| && Flat(batches) == path[start..]
    ensures !found ==> Flat(batches) == []
  {
    found, start := FindStart(known, heights, path);
    if !found {
      batches := [[]];
      assert Flat(batches) == Flat(batches[..0]) + [];
    } else {
      batches := SendFrom(path, start);
    }
  }

  // ---------------------------------------------------------------- a factor of two

  // Two paths share their first c blocks, and no later block of the first is on the second.
  ghost predicate Forks(p: seq<Hash>, q: seq<Hash>, c: nat)
  {
    && 0 < c <= |p| && c <= |q| && p[..c] == q[..c]
    && (forall h :: c <= h < |p| ==> p[h] !in q)
  }

  // The heights of the responder's block map agree with its path.
  ghost predicate Consistent(heights: map<Hash, nat>, path: seq<Hash>)
  {
    && ZERO_HASH !in heights
    && (forall h :: 0 <= h < |path| ==> path[h] in heights && heights[path[h]] == h)
  }

  // A block of the requester is on the responder's path exactly when it is below the fork.
  lemma SharedBlocks(p: seq<Hash>, q: seq<Hash>, c: nat, heights: map<Hash, nat>, h: nat)
    requires Forks(p, q, c) && Consistent(heights, q) && h < |p|
    ensures OnPath(heights, q, p[h]) <==> h < c
    ensures h < c ==> heights[p[h]] == h
  {
    if h < c {
      assert p[h] == p[..c][h] == q[..c][h] == q[h];
    }
  }

  // The first sample the responder recognises is at most twice as far below the requester's tip as
  // the last block they share.
  lemma FirstMatch(p: seq<Hash>, q: seq<Hash>, c: nat, heights: map<Hash, nat>, ids: seq<Hash>, n: nat, k: nat)
    requires IsHistory(p, ids, n) && Forks(p, q, c) && Consistent(heights, q)
    requires |p| - 1 <= MAX_SAMPLED_HEIGHT
    requires k < 32 && OnPath(heights, q, ids[k]) && forall j :: 0 <= j < k ==> !OnPath(heights, q, ids[j])
    ensures c - (|p| - c) <= heights[ids[k]] + 1 <= c
  {
    if k < n {
      assert Sample(p, k, ids[k]);
      SharedBlocks(p, q, c, heights, |p| - 1 - Offset(k));
      if k > 0 {
        assert Sample(p, k - 1, ids[k - 1]);
        SharedBlocks(p, q, c, heights, |p| - 1 - Offset(k - 1));
        OffsetStep(k - 1);
      }
    } else {
      assert k == 31;
      SharedBlocks(p, q, c, heights, 0);
      assert Sample(p, n - 1, ids[n - 1]) && !OnPath(heights, q, ids[n - 1]);
      SharedBlocks(p, q, c, heights, |p| - 1 - Offset(n - 1));
      OffsetStep(n - 1);
      DeepestOffset();
    }
  }

  lemma Recognised(p: seq<Hash>, q: seq<Hash>, c: nat, heights: map<Hash, nat>, ids: seq<Hash>, n: nat, found: bool, start: nat)
    requires IsHistory(p, ids, n) && Forks(p, q, c) && Consistent(heights, q) && |p| - 1 <= MAX_SAMPLED_HEIGHT
    requires StartsAt(ids, heights, q, found, start)
    ensures if found then start <= c && c - start <= |p| - c else c == |q|
  {
    SharedBlocks(p, q, c, heights, 0);
    assert OnPath(heights, q, ids[31]);
    var k :| && 0 <= k < |ids| && OnPath(heights, q, ids[k])
             && (forall j :: 0 <= j < k ==> !OnPath(heights, q, ids[j]))
             && (found <==> heights[ids[k]] + 1 < |q|)
             && (found ==> start == heights[ids[k]] + 1);
    FirstMatch(p, q, c, heights, ids, n, k);
  }

  // Wherever the responder forked off, it resumes within twice the fork depth.
  ghost predicate WithinTwice(p: seq<Hash>, ids: seq<Hash>)
  {
    forall q, c: nat, heights, start: nat ::
      Forks(p, q, c) && Consistent(heights, q) && StartsAt(ids, heights, q, true, start) ==> c - start <= |p| - c
  }

  // A responder that stopped just below the deepest sample recognises only the genesis block.
  lemma BelowTheSamples(p: seq<Hash>, ids: seq<Hash>, n: nat)
    requires IsHistory(p, ids, n) && |p| - 1 > MAX_SAMPLED_HEIGHT && ZERO_HASH !in p
    requires forall i, j :: 0 <= i < j < |p| ==> p[i] != p[j]
    ensures !WithinTwice(p, ids)
  {
    DeepestOffset();
    var c := |p| - 1 - Offset(30);
    var q := p[..c];
    var heights := map x | x in q :: var h :| 0 <= h < c && q[h] == x; h;
    assert Forks(p, q, c) && Consistent(heights, q);
    forall k | 0 <= k < 31 ensures !OnPath(heights, q, ids[k]) {
      if k < n {
        assert Sample(p, k, ids[k]);
        OffsetsGrow(k, 30);
        SharedBlocks(p, q, c, heights, |p| - 1 - Offset(k));
      }
    }
    SharedBlocks(p, q, c, heights, 0);
    assert OnPath(heights, q, ids[31]);
    assert StartsAt(ids, heights, q, true, 1);
  }

  lemma {:induction false} OffsetsGrow(i: nat, j: nat)
    requires i <= j
    ensures Offset(i) <= Offset(j)
    decreases j
  {
    if i < j {
      OffsetsGrow(i, j - 1);
      OffsetStep(j - 1);
    }
  }

  // The promised factor of two holds of every fork up to one height, and fails above it.
  lemma FactorOfTwo(p: seq<Hash>, ids: seq<Hash>, n: nat)
    requires IsHistory(p, ids, n) && ZERO_HASH !in p
    requires forall i, j :: 0 <= i < j < |p| ==> p[i] != p[j]
    ensures WithinTwice(p, ids) <==> |p| - 1 <= MAX_SAMPLED_HEIGHT
  {
    if |p| - 1 > MAX_SAMPLED_HEIGHT {
      BelowTheSamples(p, ids, n);
    } else {
      forall q, c: nat, heights, start: nat
        | Forks(p, q, c) && Consistent(heights, q) && StartsAt(ids, heights, q, true, start)
        ensures c - start <= |p| - c
      {
        Recognised(p, q, c, heights, ids, n, true, start);
      }
    }
  }

  // What the exchange achieves: unless the responder is behind on the requester's own chain, it
  // resumes within twice the fork depth, and what it sends completes its whole path.
  ghost predicate CatchesUp(p: seq<Hash>, q: seq<Hash>, c: nat, batches: seq<seq<Hash>>, found: bool, start: nat)
  {
    && (c < |q| ==> found)
    && (found ==> 0 <= start <= c && c - start <= |p| - c && p[..start] + Flat(batches) == q)
    && (!found ==> q <= p && Flat(batches) == [])
  }

  lemma Resumes(p: seq<Hash>, q: seq<Hash>, c: nat, heights: map<Hash, nat>, ids: seq<Hash>, n: nat,
                batches: seq<seq<Hash>>, found: bool, start: nat)
    requires IsHistory(p, ids, n) && Forks(p, q, c) && Consistent(heights, q) && |p| - 1 <= MAX_SAMPLED_HEIGHT
    requires StartsAt(ids, heights, q, found, start)
    requires found ==> start <= |q| && Flat(batches) == q[start..]
    requires !found ==> Flat(batches) == []
    ensures CatchesUp(p, q, c, batches, found, start)
  {
    Recognised(p, q, c, heights, ids, n, found, start);
    if found {
      assert p[..start] == p[..c][..start] == q[..c][..start] == q[..start];
    } else {
      assert q[..c] == q;
    }
  }

  // One round between two nodes, the requester at p and the responder at q.
  method CatchUp(p: seq<Hash>, q: seq<Hash>, heights: map<Hash, nat>, ghost c: nat)
    returns (batches: seq<seq<Hash>>, found: bool, start: nat)
    requires Forks(p, q, c) && Consistent(heights, q) && |p| - 1 <= MAX_SAMPLED_HEIGHT
    ensures CatchesUp(p, q, c, batches, found, start)
  {
    var ids, n := BlockHistory(p);
    batches, found, start := SendBlocks(ids, heights, q);
    Resumes(p, q, c, heights, ids, n, batches, found, start);
  }

  lemma SharedBelow(env: Env, a: Hash, b: Hash, h: nat, i: nat)
    requires Rooted(env, a) && Rooted(env, b) && i <= h < |PathOf(env, a)| && PathOf(env, a)[h] in PathOf(env, b)
    ensures i < |PathOf(env, b)| && PathOf(env, a)[i] == PathOf(env, b)[i]
  {
    var p, q := PathOf(env, a), PathOf(env, b);
    PathHeights(env, a);
    PathHeights(env, b);
    assert q[h] == p[h];
    BlockTrees.SharedPrefix(env, a, b, h);
    assert p[i] == p[..h + 1][i] == q[..h + 1][i] == q[i];
  }

  // The paths of any two blocks of one chain tree fork somewhere.
  lemma ChainsFork(env: Env, a: Hash, b: Hash) returns (c: nat)
    requires Rooted(env, a) && Rooted(env, b)
    ensures Forks(PathOf(env, a), PathOf(env, b), c)
  {
    var p, q := PathOf(env, a), PathOf(env, b);
    BlockTrees.PathStarts(env, a);
    BlockTrees.PathStarts(env, b);
    PathHeights(env, a);
    PathHeights(env, b);
    c := 1;
    while c < |p| && c < |q| && p[c] == q[c]
      invariant 0 < c <= |p| && c <= |q| && p[c - 1] == q[c - 1]
    {
      c := c + 1;
    }
    BlockTrees.SharedPrefix(env, a, b, c - 1);
    forall h | c <= h < |p| ensures p[h] !in q {
      if p[h] in q {
        SharedBelow(env, a, b, h, c);
      }
    }
  }
}
