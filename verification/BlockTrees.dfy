/**
 The tree of known blocks: what is stored for each, and what moving the database from one block to
 another does.
 */
module BlockTrees {
  import opened Types
  import opened Money
  import opened Ledgers
  import opened Steps
  import opened BlockSteps
  import opened Reverting
  import opened BlockReverts
  import opened Chains
  import opened Database
  import opened Targets
  import opened ChangeLogs

  // A processed block as stored in the block map.
  datatype StoredBlock = StoredBlock(block: Block, height: nat, weight: Weight, generated: bool, diffs: DiffSet)

  // The diffs stored for a block are those it generates on top of its ancestry, for some scan order.
  ghost predicate GoodDiffs(env: Env, id: Hash, d: DiffSet)
    requires Rooted(env, id) && id != GenesisID(env)
  {
    var p := id.block.parentID;
    exists o ::
      && Generated(env, LedgerOf(env, p), HistoryOf(env, p), id, id.block, HeightOf(env, id), o)
      && d == BlockDiffs(env, LedgerOf(env, p), id, id.block, HeightOf(env, id), o)
  }

  // Replaying the stored diffs of a valid block on its parent's ledger gives its own.
  lemma ReplayMoves(env: Env, id: Hash, d: DiffSet)
    requires EnvOK(env) && Rooted(env, id) && id != GenesisID(env) && GoodDiffs(env, id, d)
    ensures var p := id.block.parentID;
      && CanCommit(LedgerOf(env, p), d, HeightOf(env, id))
      && ApplyDiffs(LedgerOf(env, p), d, id, HeightOf(env, id)) == LedgerOf(env, id)
  {
    var p, height := id.block.parentID, HeightOf(env, id);
    var o :| Generated(env, LedgerOf(env, p), HistoryOf(env, p), id, id.block, height, o)
             && d == BlockDiffs(env, LedgerOf(env, p), id, id.block, height, o);
    ReplayReady(env, LedgerOf(env, p), HistoryOf(env, p), id, id.block, height, o);
    GeneratesApplyBlock(env, LedgerOf(env, p), HistoryOf(env, p), id, id.block, height, o);
  }

  ghost predicate ReversibleAt(env: Env, id: Hash)
    requires Rooted(env, id)
  {
    id != GenesisID(env) && Reversible(env, LedgerOf(env, id.block.parentID), id.block, HeightOf(env, id))
  }

  // Reverting the stored diffs of a block gives back its parent's ledger exactly when the block is
  // reversible.
  lemma RevertMoves(env: Env, id: Hash, d: DiffSet)
    requires EnvOK(env) && Rooted(env, id) && id != GenesisID(env) && GoodDiffs(env, id, d)
    ensures CanRevert(LedgerOf(env, id), d, HeightOf(env, id))
    ensures RevertDiffs(LedgerOf(env, id), d, HeightOf(env, id)) == LedgerOf(env, id.block.parentID) <==> ReversibleAt(env, id)
  {
    var p, height := id.block.parentID, HeightOf(env, id);
    var o :| Generated(env, LedgerOf(env, p), HistoryOf(env, p), id, id.block, height, o)
             && d == BlockDiffs(env, LedgerOf(env, p), id, id.block, height, o);
    RevertReady(env, LedgerOf(env, p), HistoryOf(env, p), id, id.block, height, o);
    RevertsIff(env, LedgerOf(env, p), HistoryOf(env, p), id, id.block, height, o);
    GeneratesApplyBlock(env, LedgerOf(env, p), HistoryOf(env, p), id, id.block, height, o);
  }

  // What generating the diffs of a child needs of the ledger of a valid chain.
  lemma GenerateMoves(env: Env, id: Hash)
    requires EnvOK(env) && Rooted(env, id) && id != GenesisID(env) && ValidChain(env, id.block.parentID)
    ensures var p := id.block.parentID;
      && Inv(env, LedgerOf(env, p), HistoryOf(env, p))
      && |LedgerOf(env, p).path| == HeightOf(env, id) && id !in LedgerOf(env, p).path
  {
    ChainInv(env, id.block.parentID);
    PathHeights(env, id.block.parentID);
    NotOnOwnPath(env, id);
  }

  lemma GeneratedGood(env: Env, id: Hash, d: DiffSet, o: Order)
    requires EnvOK(env) && Rooted(env, id) && id != GenesisID(env) && ValidChain(env, id.block.parentID)
    requires var p := id.block.parentID;
      && BlockValid(env, LedgerOf(env, p), id.block, HeightOf(env, id)) && PaysSubsidy(id.block, HeightOf(env, id))
      && OrderOK(AfterTxns(env, LedgerOf(env, p), id.block, HeightOf(env, id)), HeightOf(env, id), o)
      && d == BlockDiffs(env, LedgerOf(env, p), id, id.block, HeightOf(env, id), o)
    ensures ValidChain(env, id) && GoodDiffs(env, id, d)
  {
    var p := id.block.parentID;
    GenerateMoves(env, id);
    assert Generated(env, LedgerOf(env, p), HistoryOf(env, p), id, id.block, HeightOf(env, id), o);
  }

  // ---------------------------------------------------------------- the tree

  // childDepth: a child's depth adds its parent's difficulty to its parent's depth.
  predicate ChildWeight(parent: Weight, child: Weight)
  {
    parent.depth > 0 && parent.childTarget > 0 && child.depth == AddDifficulties(parent.depth, parent.childTarget)
  }

  ghost predicate NodeOK(env: Env, m: map<Hash, StoredBlock>, id: Hash)
    requires id in m
  {
    && Rooted(env, id) && id.BlockHash? && m[id].block == id.block && m[id].height == HeightOf(env, id)
    && (m[id].generated ==> ValidChain(env, id))
    && (id != GenesisID(env) ==>
         && id.block.parentID in m && PaysSubsidy(id.block, HeightOf(env, id))
         && ChildWeight(m[id.block.parentID].weight, m[id].weight)
         && (m[id].generated ==> m[id.block.parentID].generated && GoodDiffs(env, id, m[id].diffs)))
  }

  // Every known block has a known parent, and a block is marked generated only with its ancestry,
  // which is valid, and with the diffs it generates.
  ghost predicate TreeOK(env: Env, m: map<Hash, StoredBlock>)
  {
    && GenesisID(env) in m && m[GenesisID(env)].generated && m[GenesisID(env)].diffs == GenesisDiffs(env)
    && m[GenesisID(env)].weight.depth == ROOT_DEPTH
    && forall id {:trigger NodeOK(env, m, id)} :: id in m ==> NodeOK(env, m, id)
  }

  // Every known block is linked to the genesis block through known blocks.
  ghost predicate LinksOK(env: Env, m: map<Hash, StoredBlock>)
  {
    forall id {:trigger LinkOK(env, m, id)} :: id in m ==> LinkOK(env, m, id)
  }

  ghost predicate LinkOK(env: Env, m: map<Hash, StoredBlock>, id: Hash)
    requires id in m
  {
    && Rooted(env, id) && id.BlockHash? && m[id].block == id.block && m[id].height == HeightOf(env, id)
    && (id != GenesisID(env) ==> id.block.parentID in m)
  }

  lemma TreeLinks(env: Env, m: map<Hash, StoredBlock>)
    requires TreeOK(env, m)
    ensures LinksOK(env, m)
  {
    forall id | id in m ensures LinkOK(env, m, id) {
      assert NodeOK(env, m, id);
    }
  }

  lemma {:induction false} AncestorsKnown(env: Env, m: map<Hash, StoredBlock>, id: Hash, x: Hash)
    requires TreeOK(env, m) && id in m && Rooted(env, id) && x in PathOf(env, id)
    ensures x in m && (m[id].generated ==> m[x].generated)
  {
    assert NodeOK(env, m, id);
    if x != id {
      AncestorsKnown(env, m, id.block.parentID, x);
    }
  }

  // ---------------------------------------------------------------- forks

  // Two blocks share exactly their first k ancestors.
  ghost predicate ForkAt(env: Env, a: Hash, b: Hash, k: nat)
    requires Rooted(env, a) && Rooted(env, b)
  {
    && 0 < k <= |PathOf(env, a)| && k <= |PathOf(env, b)| && PathOf(env, a)[..k] == PathOf(env, b)[..k]
    && (k < |PathOf(env, a)| && k < |PathOf(env, b)| ==> PathOf(env, a)[k] != PathOf(env, b)[k])
  }

  // Ancestry agrees below any block two chains have in common.
  lemma SharedPrefix(env: Env, a: Hash, b: Hash, i: nat)
    requires Rooted(env, a) && Rooted(env, b) && i < |PathOf(env, a)| && i < |PathOf(env, b)|
    requires PathOf(env, a)[i] == PathOf(env, b)[i]
    ensures PathOf(env, a)[..i + 1] == PathOf(env, b)[..i + 1]
  {
    PathHeights(env, a);
    PathHeights(env, b);
  }

  lemma {:induction false} PathStarts(env: Env, id: Hash)
    requires Rooted(env, id)
    ensures |PathOf(env, id)| > 0 && PathOf(env, id)[0] == GenesisID(env)
  {
    if id != GenesisID(env) {
      PathStarts(env, id.block.parentID);
    }
  }

  // Reverting from a to the fork meets only reversible blocks.
  ghost predicate SafeFork(env: Env, a: Hash, b: Hash)
    requires Rooted(env, a) && Rooted(env, b)
  {
    forall x :: x in PathOf(env, a) && x !in PathOf(env, b) ==> Rooted(env, x) && ReversibleAt(env, x)
  }

  // More is known of the tree: no block is lost, changes weight, or stops being generated.
  ghost predicate Extends(m: map<Hash, StoredBlock>, next: map<Hash, StoredBlock>)
  {
    forall x :: x in m ==> x in next && next[x].weight == m[x].weight && (m[x].generated ==> next[x] == m[x])
  }

  // The same blocks, of which more may be generated.
  ghost predicate Refines(m: map<Hash, StoredBlock>, next: map<Hash, StoredBlock>)
  {
    next.Keys == m.Keys && Extends(m, next)
  }

  lemma RefinesSelf(m: map<Hash, StoredBlock>)
    ensures Refines(m, m)
  {
  }

  lemma RefinesOn(a: map<Hash, StoredBlock>, b: map<Hash, StoredBlock>, c: map<Hash, StoredBlock>)
    requires Refines(a, b) && Refines(b, c)
    ensures Refines(a, c)
  {
  }

  lemma ExtendsSelf(m: map<Hash, StoredBlock>)
    ensures Extends(m, m)
  {
  }

  lemma ExtendsOn(a: map<Hash, StoredBlock>, b: map<Hash, StoredBlock>, c: map<Hash, StoredBlock>)
    requires Extends(a, b) && Extends(b, c)
    ensures Extends(a, c)
  {
  }

  lemma NodeKept(env: Env, m: map<Hash, StoredBlock>, next: map<Hash, StoredBlock>, x: Hash)
    requires x in m && x in next && NodeOK(env, m, x) && next[x] == m[x] && Extends(m, next)
    ensures NodeOK(env, next, x)
  {
  }

  // Marking a block generated, with its diffs, keeps the tree in order.
  lemma MarkGenerated(env: Env, m: map<Hash, StoredBlock>, id: Hash, d: DiffSet)
    requires TreeOK(env, m) && id in m && id != GenesisID(env) && Rooted(env, id) && !m[id].generated
    requires id.block.parentID in m && m[id.block.parentID].generated && ValidChain(env, id) && GoodDiffs(env, id, d)
    ensures var next := m[id := m[id].(generated := true, diffs := d)]; TreeOK(env, next) && Extends(m, next)
  {
    var next := m[id := m[id].(generated := true, diffs := d)];
    NodeMarked(env, m, id, d);
    forall x | x in next ensures NodeOK(env, next, x) {
      if x != id {
        NodeKept(env, m, next, x);
      }
    }
  }

  lemma NodeMarked(env: Env, m: map<Hash, StoredBlock>, id: Hash, d: DiffSet)
    requires id in m && id != GenesisID(env) && Rooted(env, id) && NodeOK(env, m, id)
    requires id.block.parentID in m && m[id.block.parentID].generated && ValidChain(env, id) && GoodDiffs(env, id, d)
    ensures NodeOK(env, m[id := m[id].(generated := true, diffs := d)], id)
  {
  }

  // newChild keeps the tree in order.
  lemma AddNode(env: Env, m: map<Hash, StoredBlock>, b: Block, w: Weight)
    requires TreeOK(env, m) && b.parentID in m && BlockHash(b) !in m
    requires ChildWeight(m[b.parentID].weight, w) && PaysSubsidy(b, m[b.parentID].height + 1)
    ensures var next := m[BlockHash(b) := StoredBlock(b, m[b.parentID].height + 1, w, false, NO_DIFFS)];
      TreeOK(env, next) && Extends(m, next)
  {
    var id := BlockHash(b);
    var next := m[id := StoredBlock(b, m[b.parentID].height + 1, w, false, NO_DIFFS)];
    assert NodeOK(env, m, b.parentID);
    assert NodeOK(env, next, id);
    forall x | x in next ensures NodeOK(env, next, x) {
      if x != id {
        NodeKept(env, m, next, x);
      }
    }
  }

  lemma NodeFacts(env: Env, m: map<Hash, StoredBlock>, id: Hash)
    requires TreeOK(env, m) && id in m
    ensures Rooted(env, id) && id.BlockHash? && m[id].block == id.block && m[id].height == HeightOf(env, id)
    ensures m[id].generated ==> ValidChain(env, id)
    ensures id != GenesisID(env) ==> id.block.parentID in m && PaysSubsidy(id.block, HeightOf(env, id))
    ensures id != GenesisID(env) && m[id].generated ==> m[id.block.parentID].generated && GoodDiffs(env, id, m[id].diffs)
  {
    assert NodeOK(env, m, id);
  }

  // The database holds what the ancestry of a fully known block leaves.
  ghost predicate Here(env: Env, m: map<Hash, StoredBlock>, cur: Hash, l: Ledger)
  {
    EnvOK(env) && TreeOK(env, m) && cur in m && m[cur].generated && Rooted(env, cur) && l == LedgerOf(env, cur)
  }

  lemma HerePath(env: Env, m: map<Hash, StoredBlock>, cur: Hash, l: Ledger)
    requires Here(env, m, cur, l)
    ensures l.path == PathOf(env, cur) && |l.path| == HeightOf(env, cur) + 1 && l.path[HeightOf(env, cur)] == cur
  {
    NodeFacts(env, m, cur);
    ChainInv(env, cur);
    PathHeights(env, cur);
  }

  // One step back.
  lemma StepBack(env: Env, m: map<Hash, StoredBlock>, cur: Hash, l: Ledger)
    requires Here(env, m, cur, l) && cur != GenesisID(env) && ReversibleAt(env, cur)
    ensures cur.BlockHash? && m[cur].block == cur.block && CanRevert(l, m[cur].diffs, m[cur].height)
    ensures Here(env, m, cur.block.parentID, RevertDiffs(l, m[cur].diffs, m[cur].height))
  {
    NodeFacts(env, m, cur);
    RevertMoves(env, cur, m[cur].diffs);
  }

  // One step forward, onto a block whose diffs are known.
  lemma StepForward(env: Env, m: map<Hash, StoredBlock>, cur: Hash, l: Ledger, id: Hash)
    requires Here(env, m, cur, l) && id in m && m[id].generated && Rooted(env, id) && id != GenesisID(env) && id.block.parentID == cur
    ensures m[id].block == id.block && CanCommit(l, m[id].diffs, m[id].height)
    ensures Here(env, m, id, ApplyDiffs(l, m[id].diffs, id, m[id].height))
  {
    NodeFacts(env, m, id);
    ReplayMoves(env, id, m[id].diffs);
  }

  // What is needed to generate the diffs of a block.
  lemma BeforeGenerating(env: Env, m: map<Hash, StoredBlock>, cur: Hash, l: Ledger, id: Hash)
    requires Here(env, m, cur, l) && id in m && Rooted(env, id) && id != GenesisID(env) && id.block.parentID == cur
    ensures m[id].block == id.block && m[id].height == HeightOf(env, id) == |l.path| && id !in l.path && Inv(env, l, HistoryOf(env, cur))
  {
    NodeFacts(env, m, id);
    NodeFacts(env, m, cur);
    GenerateMoves(env, id);
  }

  // One step forward, onto a block whose diffs were just generated.
  lemma StepGenerated(env: Env, m: map<Hash, StoredBlock>, cur: Hash, l: Ledger, id: Hash, d: DiffSet, o: Order)
    requires Here(env, m, cur, l) && id in m && !m[id].generated && Rooted(env, id) && id != GenesisID(env) && id.block.parentID == cur
    requires BlockValid(env, l, id.block, HeightOf(env, id))
    requires OrderOK(AfterTxns(env, l, id.block, HeightOf(env, id)), HeightOf(env, id), o)
    requires d == BlockDiffs(env, l, id, id.block, HeightOf(env, id), o)
    ensures var next := m[id := m[id].(generated := true, diffs := d)];
      Refines(m, next) && Here(env, next, id, ApplyDiffs(l, d, id, HeightOf(env, id)))
  {
    NodeFacts(env, m, id);
    NodeFacts(env, m, cur);
    GeneratedGood(env, id, d, o);
    ReplayMoves(env, id, d);
    MarkGenerated(env, m, id, d);
  }

  lemma GenerateFails(env: Env, m: map<Hash, StoredBlock>, cur: Hash, l: Ledger, id: Hash)
    requires Here(env, m, cur, l) && id in m && Rooted(env, id) && id != GenesisID(env) && id.block.parentID == cur
    requires !BlockValid(env, l, id.block, HeightOf(env, id))
    ensures TrulyBad(env, id)
  {
    NodeFacts(env, m, cur);
  }

  function Reversed<T>(s: seq<T>): seq<T>
  {
    if s == [] then [] else [s[|s| - 1]] + Reversed(s[..|s| - 1])
  }

  // ---------------------------------------------------------------- runs

  function TipOf(e: ChangeEntry): Hash
    requires e.applied != []
  {
    e.applied[|e.applied| - 1]
  }

  function GenesisEntry(env: Env): ChangeEntry { ChangeEntry([], [GenesisID(env)]) }

  // A change entry tells exactly how the database moved from one tip to the next, heavier one.
  ghost predicate Moves(env: Env, m: map<Hash, StoredBlock>, from: Hash, to: Hash, e: ChangeEntry)
  {
    && from in m && to in m && Rooted(env, from) && Rooted(env, to) && m[from].generated && m[to].generated
    && m[to].weight.depth < m[from].weight.depth && SafeFork(env, from, to)
    && (exists k: nat :: ForkAt(env, from, to, k) && k < |PathOf(env, to)|
                    && e == ChangeEntry(Reversed(PathOf(env, from)[k..]), PathOf(env, to)[k..]))
  }

  ghost predicate RunOK(env: Env, m: map<Hash, StoredBlock>, entries: seq<ChangeEntry>, tip: Hash)
  {
    && entries != [] && entries[0] == GenesisEntry(env)
    && (forall i :: 0 <= i < |entries| ==> entries[i].applied != [])
    && TipOf(entries[|entries| - 1]) == tip
    && (forall i :: 0 < i < |entries| ==> Moves(env, m, TipOf(entries[i - 1]), TipOf(entries[i]), entries[i]))
  }

  // Every later tip is strictly deeper, so no tip and no entry ever recurs.
  lemma {:induction false} DepthsFall(env: Env, m: map<Hash, StoredBlock>, entries: seq<ChangeEntry>, tip: Hash, i: nat, j: nat)
    requires RunOK(env, m, entries, tip) && i < j < |entries|
    ensures TipOf(entries[i]) in m && TipOf(entries[j]) in m
    ensures m[TipOf(entries[j])].weight.depth < m[TipOf(entries[i])].weight.depth
    decreases j
  {
    assert Moves(env, m, TipOf(entries[j - 1]), TipOf(entries[j]), entries[j]);
    if i < j - 1 {
      DepthsFall(env, m, entries, tip, i, j - 1);
    }
  }

  lemma EntriesDiffer(env: Env, m: map<Hash, StoredBlock>, entries: seq<ChangeEntry>, tip: Hash)
    requires RunOK(env, m, entries, tip)
    ensures ChangeLogs.NoRepeats(entries)
  {
    forall i, j | 0 <= i < j < |entries| ensures entries[i] != entries[j] {
      DepthsFall(env, m, entries, tip, i, j);
    }
  }

  lemma MovesKept(env: Env, m: map<Hash, StoredBlock>, next: map<Hash, StoredBlock>, from: Hash, to: Hash, e: ChangeEntry)
    requires Moves(env, m, from, to, e) && Extends(m, next)
    ensures Moves(env, next, from, to, e)
  {
  }

  // One more tip change.
  lemma RunGrows(env: Env, m: map<Hash, StoredBlock>, next: map<Hash, StoredBlock>, entries: seq<ChangeEntry>, tip: Hash, to: Hash, e: ChangeEntry)
    requires RunOK(env, m, entries, tip) && Extends(m, next) && Moves(env, next, tip, to, e)
    requires e.applied != [] && TipOf(e) == to
    ensures RunOK(env, next, entries + [e], to) && e !in entries
  {
    var more := entries + [e];
    forall i | 0 < i < |more| ensures Moves(env, next, TipOf(more[i - 1]), TipOf(more[i]), more[i]) {
      if i < |entries| {
        MovesKept(env, m, next, TipOf(entries[i - 1]), TipOf(entries[i]), entries[i]);
      }
    }
    EntriesDiffer(env, next, more, to);
    assert forall i :: 0 <= i < |entries| ==> more[i] == entries[i] && more[i] != more[|entries|];
  }

  lemma RunKept(env: Env, m: map<Hash, StoredBlock>, next: map<Hash, StoredBlock>, entries: seq<ChangeEntry>, tip: Hash)
    requires RunOK(env, m, entries, tip) && Extends(m, next)
    ensures RunOK(env, next, entries, tip)
  {
    forall i | 0 < i < |entries| ensures Moves(env, next, TipOf(entries[i - 1]), TipOf(entries[i]), entries[i]) {
      MovesKept(env, m, next, TipOf(entries[i - 1]), TipOf(entries[i]), entries[i]);
    }
  }

  // ---------------------------------------------------------------- fork choice and bad blocks

  // No known block is heavier than the tip.
  ghost predicate NoneHeavier(m: map<Hash, StoredBlock>, tip: Hash)
    requires tip in m
  {
    forall x {:trigger NotHeavier(m, x, tip)} :: x in m ==> NotHeavier(m, x, tip)
  }

  ghost predicate NotHeavier(m: map<Hash, StoredBlock>, x: Hash, tip: Hash)
    requires x in m && tip in m
  {
    !HeavierThan(m[x].weight, m[tip].weight)
  }

  // A remembered bad block has a valid parent and is invalid on top of it.
  ghost predicate TrulyBad(env: Env, id: Hash)
  {
    && Rooted(env, id) && id != GenesisID(env) && ValidChain(env, id.block.parentID)
    && !BlockValid(env, LedgerOf(env, id.block.parentID), id.block, HeightOf(env, id))
  }

  ghost predicate DosOK(env: Env, dosBlocks: set<Hash>)
  {
    forall id :: id in dosBlocks ==> TrulyBad(env, id)
  }

  // A new block that is not heavier leaves the choice as it is.
  lemma StillHeaviest(m: map<Hash, StoredBlock>, next: map<Hash, StoredBlock>, tip: Hash, id: Hash)
    requires tip in m && NoneHeavier(m, tip) && Extends(m, next) && next.Keys == m.Keys + {id}
    requires !HeavierThan(next[id].weight, next[tip].weight)
    ensures NoneHeavier(next, tip)
  {
    forall x | x in next ensures NotHeavier(next, x, tip) {
      if x in m {
        assert NotHeavier(m, x, tip);
      }
    }
  }

  // A new block that is heavier becomes the heaviest.
  lemma NewHeaviest(m: map<Hash, StoredBlock>, next: map<Hash, StoredBlock>, tip: Hash, id: Hash)
    requires tip in m && NoneHeavier(m, tip) && Extends(m, next) && next.Keys == m.Keys + {id}
    requires HeavierThan(next[id].weight, next[tip].weight)
    ensures NoneHeavier(next, id) && next[id].weight.depth < next[tip].weight.depth
  {
    HeavierIsDeeper(next[id].weight, next[tip].weight);
    forall x | x in next ensures NotHeavier(next, x, id) {
      if x in m {
        assert NotHeavier(m, x, tip);
        HeaviestStays(next[x].weight, next[tip].weight, next[id].weight);
      } else if HeavierThan(next[id].weight, next[id].weight) {
        HeavierIsDeeper(next[id].weight, next[id].weight);
      }
    }
  }

  lemma ForkMoves(env: Env, m: map<Hash, StoredBlock>, from: Hash, to: Hash, e: ChangeEntry, k: nat)
    requires from in m && to in m && Rooted(env, from) && Rooted(env, to) && m[from].generated && m[to].generated
    requires m[to].weight.depth < m[from].weight.depth && SafeFork(env, from, to) && ForkAt(env, from, to, k)
    requires TreeOK(env, m) && e == ChangeEntry(Reversed(PathOf(env, from)[k..]), PathOf(env, to)[k..])
    ensures Moves(env, m, from, to, e) && e.applied != [] && TipOf(e) == to
  {
    PathHeights(env, to);
    PathHeights(env, from);
    if k == |PathOf(env, to)| {
      AncestorDepth(env, m, to, from, k - 1);
    }
  }

  // Depth never grows along a chain, so an ancestor is never deeper.
  lemma {:induction false} AncestorDepth(env: Env, m: map<Hash, StoredBlock>, a: Hash, id: Hash, i: nat)
    requires TreeOK(env, m) && id in m && Rooted(env, id) && i < |PathOf(env, id)| && PathOf(env, id)[i] == a
    ensures a in m && m[id].weight.depth <= m[a].weight.depth
    decreases |PathOf(env, id)|
  {
    assert NodeOK(env, m, id);
    PathHeights(env, id);
    if i < |PathOf(env, id)| - 1 {
      AncestorDepth(env, m, a, id.block.parentID, i);
    }
  }

  // A child of a block can be reached as safely as the block.
  lemma SafeChild(env: Env, tip: Hash, id: Hash)
    requires Rooted(env, tip) && Rooted(env, id) && id != GenesisID(env) && SafeFork(env, tip, id.block.parentID)
    ensures SafeFork(env, tip, id)
  {
  }
}
