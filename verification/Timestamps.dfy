/** The earliest timestamp a child block may carry: the median of its parent's last eleven times. */
module Timestamps {
  import opened Types
  import opened Ledgers
  import opened Chains

  const MEDIAN_TIMESTAMP_WINDOW: nat := 11

  // ---------------------------------------------------------------- medians

  ghost predicate Ordered(s: seq<int>) { forall i, j :: 0 <= i < j < |s| ==> s[i] <= s[j] }

  function Insert(x: int, s: seq<int>): (r: seq<int>)
    requires Ordered(s)
    ensures |r| == |s| + 1 && Ordered(r)
    ensures r[0] == if s == [] || x <= s[0] then x else s[0]
  {
    if s == [] || x <= s[0] then [x] + s else [s[0]] + Insert(x, s[1..])
  }

  function Sort(s: seq<int>): (r: seq<int>)
    ensures |r| == |s| && Ordered(r)
  {
    if s == [] then [] else Insert(s[0], Sort(s[1..]))
  }

  function Median(s: seq<int>): int
    requires s != []
  {
    Sort(s)[|s| / 2]
  }

  // How many times are earlier than m.
  ghost function Earlier(s: seq<int>, m: int): nat
  {
    if s == [] then 0 else (if s[0] < m then 1 else 0) + Earlier(s[1..], m)
  }

  lemma {:induction false} EarlierSplits(s: seq<int>, t: seq<int>, m: int)
    ensures Earlier(s + t, m) == Earlier(s, m) + Earlier(t, m)
  {
    if s == [] {
      assert s + t == t;
    } else {
      EarlierSplits(s[1..], t, m);
      assert (s + t)[1..] == s[1..] + t;
    }
  }

  lemma {:induction false} InsertEarlier(x: int, s: seq<int>, m: int)
    requires Ordered(s)
    ensures Earlier(Insert(x, s), m) == (if x < m then 1 else 0) + Earlier(s, m)
  {
    if s != [] && x > s[0] {
      InsertEarlier(x, s[1..], m);
      assert ([s[0]] + Insert(x, s[1..]))[1..] == Insert(x, s[1..]);
    } else {
      assert ([x] + s)[1..] == s;
    }
  }

  lemma {:induction false} SortEarlier(s: seq<int>, m: int)
    ensures Earlier(Sort(s), m) == Earlier(s, m)
  {
    if s != [] {
      SortEarlier(s[1..], m);
      InsertEarlier(s[0], Sort(s[1..]), m);
    }
  }

  lemma {:induction false} OrderedRank(s: seq<int>, k: nat, m: int)
    requires Ordered(s) && k < |s|
    ensures m <= s[k] <==> Earlier(s, m) <= k
  {
    if s[0] >= m {
      NoneEarlier(s, m);
    } else if k > 0 {
      OrderedRank(s[1..], k - 1, m);
    }
  }

  lemma {:induction false} NoneEarlier(s: seq<int>, m: int)
    requires forall i :: 0 <= i < |s| ==> m <= s[i]
    ensures Earlier(s, m) == 0
  {
    if s != [] {
      NoneEarlier(s[1..], m);
    }
  }

  // The median by rank: it is at least m exactly when at most half the times are earlier than m.
  lemma MedianRank(s: seq<int>, m: int)
    requires s != []
    ensures m <= Median(s) <==> Earlier(s, m) <= |s| / 2
  {
    SortEarlier(s, m);
    OrderedRank(Sort(s), |s| / 2, m);
  }

  lemma SlideEarlier(s: seq<int>, next: seq<int>, t: int, m: int)
    requires s != [] && next == [t] + s[..|s| - 1] && m <= t
    ensures Earlier(next, m) <= Earlier(s, m)
  {
    var kept := s[..|s| - 1];
    assert s == kept + s[|s| - 1..];
    EarlierSplits(kept, s[|s| - 1..], m);
    assert next[1..] == kept;
  }

  // Replacing the oldest time by one that is not before the median never lowers the median.
  lemma WindowSlides(s: seq<int>, next: seq<int>, t: int)
    requires s != [] && next == [t] + s[..|s| - 1] && Median(s) <= t
    ensures Median(s) <= Median(next)
  {
    var m := Median(s);
    MedianRank(s, m);
    MedianRank(next, m);
    SlideEarlier(s, next, t, m);
  }

  // ---------------------------------------------------------------- chains

  // The i-th ancestor. Beyond the genesis block it repeats.
  ghost function Ancestor(env: Env, id: Hash, i: nat): (a: Hash)
    requires Rooted(env, id)
    ensures Rooted(env, a)
  {
    if i == 0 then id
    else
      var a := Ancestor(env, id, i - 1);
      if a == GenesisID(env) then a else a.block.parentID
  }

  lemma {:induction false} ParentsAncestor(env: Env, id: Hash, i: nat)
    requires Rooted(env, id) && id != GenesisID(env)
    ensures Ancestor(env, id, i + 1) == Ancestor(env, id.block.parentID, i)
  {
    if i > 0 {
      ParentsAncestor(env, id, i - 1);
    }
  }

  // The times of a block and its n - 1 closest ancestors.
  ghost function Times(env: Env, id: Hash, n: nat): (s: seq<int>)
    requires Rooted(env, id)
    ensures |s| == n
  {
    if n == 0 then [] else Times(env, id, n - 1) + [Ancestor(env, id, n - 1).block.timestamp]
  }

  ghost function Window(env: Env, id: Hash): seq<int>
    requires Rooted(env, id)
  {
    Times(env, id, MEDIAN_TIMESTAMP_WINDOW)
  }

  ghost function MinimumTime(env: Env, id: Hash): int
    requires Rooted(env, id)
  {
    Median(Window(env, id))
  }

  // The block map holds whole chains.
  ghost predicate HoldsChains(env: Env, blocks: map<Hash, Block>)
  {
    forall x :: x in blocks ==> && Rooted(env, x) && blocks[x] == x.block
                                && (x != GenesisID(env) ==> x.block.parentID in blocks)
  }

  method MinimumValidChildTimestamp(env: Env, blocks: map<Hash, Block>, id: Hash) returns (t: int)
    requires HoldsChains(env, blocks) && id in blocks
    ensures t == MinimumTime(env, id)
  {
    var times := new int[11](_ => 0);
    times[0] := blocks[id].timestamp;
    assert times[..1] == Times(env, id, 0) + [Ancestor(env, id, 0).block.timestamp];
    var parent := blocks[id].parentID;
    for i := 1 to 11
      invariant Ancestor(env, id, i - 1) in blocks && parent == Ancestor(env, id, i - 1).block.parentID
      invariant times[..i] == Times(env, id, i)
    {
      if parent == ZERO_HASH {
        times[i] := times[i - 1];
      } else {
        times[i] := blocks[parent].timestamp;
        parent := blocks[parent].parentID;
      }
      assert times[..i + 1] == times[..i] + [times[i]];
    }
    assert times[..] == times[..11];
    t := Median(times[..]);
  }

  // Every block but the first is no earlier than its parent's window allows.
  ghost predicate Timely(env: Env, id: Hash)
    requires Rooted(env, id)
  {
    id == GenesisID(env) || (MinimumTime(env, id.block.parentID) <= id.block.timestamp && Timely(env, id.block.parentID))
  }

  lemma {:induction false} ChildTimes(env: Env, id: Hash, n: nat)
    requires Rooted(env, id) && id != GenesisID(env)
    ensures Times(env, id, n + 1) == [id.block.timestamp] + Times(env, id.block.parentID, n)
  {
    if n == 0 {
      assert Times(env, id, 1) == Times(env, id, 0) + [Ancestor(env, id, 0).block.timestamp];
    } else {
      ChildTimes(env, id, n - 1);
      ParentsAncestor(env, id, n - 1);
    }
  }

  // Along a timely chain the earliest acceptable time never moves back.
  lemma {:induction false} MinimumTimeGrows(env: Env, id: Hash, i: nat)
    requires Rooted(env, id) && Timely(env, id) && i < |PathOf(env, id)|
    ensures Rooted(env, PathOf(env, id)[i]) && MinimumTime(env, PathOf(env, id)[i]) <= MinimumTime(env, id)
  {
    PathHeights(env, id);
    if i < HeightOf(env, id) {
      var p := id.block.parentID;
      MinimumTimeGrows(env, p, i);
      ChildTimes(env, id, MEDIAN_TIMESTAMP_WINDOW - 1);
      assert Window(env, p)[..MEDIAN_TIMESTAMP_WINDOW - 1] == Times(env, p, MEDIAN_TIMESTAMP_WINDOW - 1);
      WindowSlides(Window(env, p), Window(env, id), id.block.timestamp);
    }
  }

  // So no block is timed before the minimum of any of its proper ancestors.
  lemma NoBlockBeforeItsPast(env: Env, id: Hash, i: nat)
    requires Rooted(env, id) && Timely(env, id) && i < HeightOf(env, id) && i < |PathOf(env, id)|
    ensures Rooted(env, PathOf(env, id)[i]) && MinimumTime(env, PathOf(env, id)[i]) <= id.block.timestamp
  {
    PathHeights(env, id);
    PathHeights(env, id.block.parentID);
    MinimumTimeGrows(env, id.block.parentID, i);
  }
}
