/** The chain engine: accepting blocks, choosing the heaviest chain and moving the database onto it. */
module Engine {
  import opened Types
  import opened Money
  import opened Ledgers
  import opened Steps
  import opened Chains
  import opened Database
  import opened Targets
  import opened ChangeLogs
  import opened BlockTrees
  import opened Admission

  // Extended, with the change; known but not heavier; already known; or an error.
  datatype AddResult = Extended(entry: ChangeEntry) | NonExtending | AlreadyKnown | Rejected

  datatype AcceptResult = ChainExtended | NotExtended | Failed

  class ConsensusSet {
    const env: Env
    const rules: Rules
    const db: ConsensusDB
    var blockMap: map<Hash, StoredBlock>
    var dosBlocks: set<Hash>
    var log: ChangeLog
    ghost var tip: Hash
    ghost var entries: seq<ChangeEntry>

    constructor (env: Env, rules: Rules)
      requires EnvOK(env)
      ensures Valid() && tip == GenesisID(env) && entries == [GenesisEntry(env)] && AllAdmitted(env, rules, Weighed(blockMap))
    {
      this.env, this.rules := env, rules;
      this.db := new ConsensusDB(env);
      blockMap := map[GenesisID(env) := StoredBlock(GenesisBlock(env), 0, Weight(ROOT_DEPTH, rules.rootTarget), true, GenesisDiffs(env))];
      dosBlocks := {};
      log := Created(GenesisEntry(env));
      tip := GenesisID(env);
      entries := [GenesisEntry(env)];
      CreatedLinked(GenesisEntry(env));
      new;
      assert NodeOK(env, blockMap, GenesisID(env));
      TreeClosed(env, blockMap);
    }

    // The database is at this block: its contents are what the ancestry of the block leaves.
    ghost predicate At(cur: Hash)
      reads this`blockMap, db
    {
      db.Valid() && Here(env, blockMap, cur, db.Contents()) && db.path != [] && db.path[|db.path| - 1] == cur
    }

    ghost predicate Valid()
      reads this, db
    {
      At(tip) && Chosen(env, blockMap, entries, tip) && DosOK(env, dosBlocks) && Linked(log, entries)
    }

    // ------------------------------------------------------------ moving between blocks

    // backtrackToCurrentPath: the blocks from the fork with the current path to this block.
    method BacktrackToCurrentPath(id: Hash, ghost cur: Hash) returns (ids: seq<Hash>, ghost k: nat)
      requires LinksOK(env, blockMap) && id in blockMap && Rooted(env, id) && Rooted(env, cur) && db.path == PathOf(env, cur)
      ensures ForkAt(env, cur, id, k) && ids == PathOf(env, id)[k - 1..]
    {
      PathAncestry(env, blockMap, id);
      PathStarts(env, id);
      PathStarts(env, cur);
      ids, k := Backtrack(blockMap, db.path, id, PathOf(env, id));
      SharedPrefix(env, cur, id, k - 1);
    }

    // One step of revertToBlock.
    method RevertBlock(ghost cur: Hash)
      requires At(cur) && cur != GenesisID(env) && Rooted(env, cur) && ReversibleAt(env, cur)
      modifies db
      ensures cur.BlockHash? && At(cur.block.parentID)
    {
      ghost var m, l := blockMap, db.Contents();
      StepBack(env, m, cur, l);
      var id := db.path[|db.path| - 1];
      var stored := blockMap[id];
      var pb := new ProcessedBlock.Stored(stored.block, stored.height, stored.diffs, stored.generated);
      db.CommitDiffSet(pb, false);
      HerePath(env, m, cur.block.parentID, db.Contents());
    }

    // revertToBlock: back along the current path until the target is the current block.
    method RevertToBlock(target: Hash, ghost whole: seq<Hash>, ghost k: nat) returns (reverted: seq<Hash>)
      requires 0 < k <= |whole| && whole[k - 1] == target && Undoable(env, whole, k) && At(whole[|whole| - 1])
      modifies db
      ensures At(target) && reverted == Reversed(whole[k..])
    {
      ghost var j := |whole|;
      reverted := [];
      while db.path[|db.path| - 1] != target
        invariant k <= j <= |whole| && At(whole[j - 1])
        invariant Unwound(reverted, whole, j)
        decreases j
      {
        assert UndoableAt(env, whole, j - 1);
        reverted := reverted + [db.path[|db.path| - 1]];
        assert Unwound(reverted, whole, j - 1);
        RevertBlock(whole[j - 1]);
        j := j - 1;
      }
      assert j == k;
      UnwoundDone(reverted, whole, k);
    }

    // One step of applyUntilBlock: replay known diffs, or generate them.
    method ApplyNext(id: Hash, ghost cur: Hash) returns (ok: bool)
      requires At(cur) && id in blockMap && Rooted(env, id) && id != GenesisID(env) && id.block.parentID == cur
      modifies db, this`blockMap
      ensures Refines(old(blockMap), blockMap)
      ensures ok ==> At(id)
      ensures !ok ==> TrulyBad(env, id)
    {
      ghost var m, l := blockMap, db.Contents();
      var stored := blockMap[id];
      if stored.generated {
        StepForward(env, m, cur, l, id);
        var pb := new ProcessedBlock.Stored(stored.block, stored.height, stored.diffs, true);
        db.CommitDiffSet(pb, true);
        HerePath(env, m, id, db.Contents());
        return true;
      }
      ok := GenerateNext(id, cur);
    }

    method GenerateNext(id: Hash, ghost cur: Hash) returns (ok: bool)
      requires At(cur) && id in blockMap && Rooted(env, id) && id != GenesisID(env) && id.block.parentID == cur && !blockMap[id].generated
      modifies db, this`blockMap
      ensures Refines(old(blockMap), blockMap)
      ensures ok ==> At(id)
      ensures !ok ==> TrulyBad(env, id)
    {
      ghost var m, l := blockMap, db.Contents();
      var stored := blockMap[id];
      BeforeGenerating(env, m, cur, l, id);
      var pb := new ProcessedBlock(stored.block, stored.height);
      ghost var o;
      ok, o := db.GenerateAndApplyDiff(env, pb, l, HistoryOf(env, cur));
      if ok {
        StepGenerated(env, m, cur, l, id, pb.Diffs(), o);
        blockMap := blockMap[id := stored.(generated := true, diffs := pb.Diffs())];
        HerePath(env, blockMap, id, db.Contents());
      } else {
        GenerateFails(env, m, cur, l, id);
      }
    }

    // applyUntilBlock: forward along the blocks found by backtracking. A block that turns out
    // invalid is remembered as such.
    method ApplyUntilBlock(ids: seq<Hash>, ghost whole: seq<Hash>, ghost k: nat) returns (ok: bool, applied: seq<Hash>)
      requires 0 < k <= |whole| && ids == whole[k - 1..] && Doable(env, blockMap, whole, k) && At(whole[k - 1]) && DosOK(env, dosBlocks)
      modifies db, this`blockMap, this`dosBlocks
      ensures Refines(old(blockMap), blockMap) && DosOK(env, dosBlocks)
      ensures ok ==> At(whole[|whole| - 1]) && applied == whole[k..] && dosBlocks == old(dosBlocks)
      ensures !ok ==> exists x :: x in whole && TrulyBad(env, x)
    {
      hide PathOf, LedgerOf, Rooted, TreeOK, ValidChain;
      applied := [];
      ghost var m, dos := blockMap, dosBlocks;
      RefinesSelf(m);
      for i := 1 to |ids|
        invariant At(whole[k - 2 + i]) && Refines(m, blockMap) && DosOK(env, dosBlocks) && applied == ids[1..i] && dosBlocks == dos
      {
        ghost var before := blockMap;
        assert DoableAt(env, m, whole, k - 1 + i);
        var next := ApplyNext(ids[i], whole[k - 2 + i]);
        RefinesOn(m, before, blockMap);
        if !next {
          dosBlocks := dosBlocks + {ids[i]};
          assert ids[i] in whole;
          return false, [];
        }
        applied := applied + [ids[i]];
      }
      assert ids[1..|ids|] == whole[k..];
      return true, applied;
    }

    // forkBlockchain: move the database to another known block. It fails only where the chain of the
    // block is not valid.
    method ForkBlockchain(id: Hash, ghost cur: Hash) returns (ok: bool, reverted: seq<Hash>, applied: seq<Hash>, ghost k: nat)
      requires At(cur) && Rooted(env, cur) && id in blockMap && Rooted(env, id) && SafeFork(env, cur, id) && DosOK(env, dosBlocks)
      modifies db, this`blockMap, this`dosBlocks
      ensures Refines(old(blockMap), blockMap) && DosOK(env, dosBlocks) && (ok ==> dosBlocks == old(dosBlocks))
      ensures ok <==> ValidChain(env, id)
      ensures ok ==> At(id) && ForkAt(env, cur, id, k)
      ensures ok ==> reverted == Reversed(PathOf(env, cur)[k..]) && applied == PathOf(env, id)[k..]
    {
      hide PathOf, SafeFork, Undoable, Doable, DosOK, Refines, LedgerOf;
      TreeLinks(env, blockMap);
      HerePath(env, blockMap, cur, db.Contents());
      var ids;
      ids, k := BacktrackToCurrentPath(id, cur);
      SafeIsUndoable(env, cur, id, k);
      KnownIsDoable(env, blockMap, id, k);
      PathEnds(env, cur);
      PathEnds(env, id);
      reverted := RevertToBlock(ids[0], PathOf(env, cur), k);
      ok, applied := ApplyUntilBlock(ids, PathOf(env, id), k);
      if ok {
        NodeFacts(env, blockMap, id);
      } else {
        ghost var x :| x in PathOf(env, id) && TrulyBad(env, x);
        BadOnPath(env, id, x);
      }
    }

    // newChild: add the block to the tree, without validating its transactions.
    method NewChild(b: Block, w: Weight, ghost now: Hash)
      requires At(now) && b.parentID in blockMap && BlockHash(b) !in blockMap && PaysSubsidy(b, blockMap[b.parentID].height + 1)
      requires ChildWeight(blockMap[b.parentID].weight, w)
      modifies this`blockMap
      ensures At(now) && Rooted(env, BlockHash(b)) && Extends(old(blockMap), blockMap)
      ensures blockMap == old(blockMap)[BlockHash(b) := StoredBlock(b, old(blockMap)[b.parentID].height + 1, w, false, NO_DIFFS)]
    {
      ghost var m := blockMap;
      var id := BlockHash(b);
      AddNode(env, m, b, w);
      blockMap := blockMap[id := StoredBlock(b, blockMap[b.parentID].height + 1, w, false, NO_DIFFS)];
      HereKept(env, m, blockMap, now, db.Contents());
      NodeFacts(env, blockMap, id);
    }

    // addBlockToTree. A zero target, which makes the source panic, is rejected like an invalid
    // block: either way the database transaction is undone.
    method AddBlockToTree(b: Block, ghost m: map<Hash, StoredBlock>, ghost now: Hash, ghost es: seq<ChangeEntry>) returns (r: AddResult)
      requires Valid() && blockMap == m && tip == now && entries == es
      requires b.parentID in m && BlockHash(b) !in m && PaysSubsidy(b, m[b.parentID].height + 1)
      requires Rooted(env, now) && Rooted(env, b.parentID)
      requires Outweighs(rules, Weighed(m), now, b) ==> SafeFork(env, now, b.parentID)
      modifies db, this
      ensures DosOK(env, dosBlocks) && !r.AlreadyKnown? && (!r.Rejected? ==> dosBlocks == old(dosBlocks))
      ensures r.Rejected? <==> (!Weighable(m[b.parentID].weight) || !Weighable(m[now].weight) ||
                                (Outweighs(rules, Weighed(m), now, b) && !ValidChain(env, BlockHash(b))))
      ensures !r.Rejected? ==> Valid() && Extends(m, blockMap) && Weighed(blockMap) == Joined(rules, Weighed(m), b)
      ensures r.NonExtending? ==> !Outweighs(rules, Weighed(m), now, b) && tip == now && entries == es
      ensures r.Extended? ==> Outweighs(rules, Weighed(m), now, b) && tip == BlockHash(b) && entries == es + [r.entry]
      ensures r.Extended? ==> |r.entry.applied| - |r.entry.reverted| == HeightOf(env, BlockHash(b)) - HeightOf(env, now)
    {
      hide RunOK, NoneHeavier, Linked, PathOf, SafeFork, DosOK, AddDifficulties, HeightOf, ValidChain, Here, Chosen, TreeOK, Refines, PaysSubsidy;
      HereFacts(env, m, now, db.Contents());
      var id := BlockHash(b);
      var parent := blockMap[b.parentID].weight;
      var current := blockMap[db.path[|db.path| - 1]].weight;
      if parent.depth == 0 || parent.childTarget == 0 || current.depth == 0 || current.childTarget == 0 {
        return Rejected;
      }
      var w := Weight(AddDifficulties(parent.depth, parent.childTarget), rules.childTarget(Weighed(blockMap), b));
      NewChild(b, w, now);
      if !HeavierThan(w, current) {
        ChosenStill(env, m, blockMap, es, now, id);
        return NonExtending;
      }
      SafeChild(env, now, id);
      ghost var before := blockMap;
      r := SwitchTo(id, m, now, es);
      if r.Extended? {
        RefinesWeights(before, blockMap);
      }
    }

    // The fork to a block that is heavier than the tip.
    method SwitchTo(id: Hash, ghost m: map<Hash, StoredBlock>, ghost now: Hash, ghost es: seq<ChangeEntry>) returns (r: AddResult)
      requires At(now) && Rooted(env, now) && DosOK(env, dosBlocks) && Linked(log, es)
      requires Chosen(env, m, es, now) && id !in m && Extends(m, blockMap) && blockMap.Keys == m.Keys + {id}
      requires Rooted(env, id) && SafeFork(env, now, id) && HeavierThan(blockMap[id].weight, blockMap[now].weight)
      modifies db, this
      ensures DosOK(env, dosBlocks) && (if ValidChain(env, id) then r.Extended? && dosBlocks == old(dosBlocks) else r.Rejected?)
      ensures r.Extended? ==> Valid() && Extends(m, blockMap) && tip == id && entries == es + [r.entry]
      ensures r.Extended? ==> Refines(old(blockMap), blockMap)
      ensures r.Extended? ==> |r.entry.applied| - |r.entry.reverted| == HeightOf(env, id) - HeightOf(env, now)
    {
      hide PathOf, SafeFork, RunOK, NoneHeavier, Linked, ForkAt, DosOK, HeightOf, ValidChain;
      var ok, reverted, applied;
      ghost var k;
      ghost var before := blockMap;
      ok, reverted, applied, k := ForkBlockchain(id, now);
      if !ok {
        return Rejected;
      }
      var e := ChangeEntry(reverted, applied);
      ForkLengths(env, now, id, k);
      ChosenNext(env, m, before, blockMap, es, now, id, e, k);
      AppendLinked(log, es, e);
      AppendChangeLog(e, id, es + [e]);
      return Extended(e);
    }

    method AppendChangeLog(e: ChangeEntry, ghost id: Hash, ghost more: seq<ChangeEntry>)
      requires At(id) && Linked(Append(log, e), more) && Chosen(env, blockMap, more, id) && DosOK(env, dosBlocks)
      modifies this`log, this`entries, this`tip
      ensures Valid() && tip == id && entries == more && log == Append(old(log), e)
    {
      hide Append, Linked, DosOK, Chosen;
      log := Append(log, e);
      entries := more;
      tip := id;
    }

    // The header checks of validateHeaderAndBlock, then addBlockToTree.
    method AcceptOne(b: Block, ghost m: map<Hash, StoredBlock>, ghost now: Hash, ghost es: seq<ChangeEntry>) returns (r: AddResult)
      requires Valid() && blockMap == m && tip == now && entries == es && Rooted(env, now)
      requires SafeTurn(env, rules, Weighed(m), now, b)
      modifies db, this
      ensures DosOK(env, dosBlocks) && (!r.Rejected? ==> dosBlocks == old(dosBlocks))
      ensures r.Rejected? <==> Refused(env, rules, old(dosBlocks), Weighed(m), now, b)
      ensures r.AlreadyKnown? <==> BlockHash(b) !in old(dosBlocks) && BlockHash(b) in m
      ensures !r.Rejected? ==> Valid() && Extends(m, blockMap) && Weighed(blockMap) == Joined(rules, Weighed(m), b)
      ensures !r.Rejected? ==> (r.Extended? <==> Outweighs(rules, Weighed(m), now, b))
      ensures r.NonExtending? || r.AlreadyKnown? ==> tip == now && entries == es
      ensures r.Extended? ==> tip == BlockHash(b) && entries == es + [r.entry]
    {
      hide RunOK, NoneHeavier, Linked, SafeFork, TreeOK, ValidChain, DosOK, Chosen, Joined, PayoutsOK, PaysSubsidy, Here, Outweighs, Rooted, HeightOf, HeavierThan;
      HereFacts(env, m, now, db.Contents());
      var id := BlockHash(b);
      if id in dosBlocks {
        return Rejected;
      }
      if id in blockMap {
        NothingJoins(rules, Weighed(m), now, b);
        return AlreadyKnown;
      }
      if b.parentID !in blockMap || !rules.headerOK(Weighed(blockMap), b) {
        return Rejected;
      }
      NodeFacts(env, m, b.parentID);
      ChildRooted(env, b);
      var paid := CheckMinerPayouts(env, b, blockMap[b.parentID].height + 1);
      if !paid {
        return Rejected;
      }
      PayoutTotal(env, b, blockMap[b.parentID].height + 1);
      r := AddBlockToTree(b, m, now, es);
      if r.Extended? && |r.entry.applied| < |r.entry.reverted| {
        return Rejected;
      }
    }

    // Undo a database transaction.
    method Rollback(ledger: Ledger, index: set<(nat, Hash)>, m: map<Hash, StoredBlock>, changes: ChangeLog, ghost now: Hash, ghost es: seq<ChangeEntry>)
      requires DosOK(env, dosBlocks) && Here(env, m, now, ledger) && Indexed(ledger.contracts, index) && Chosen(env, m, es, now) && Linked(changes, es)
      requires (forall k :: k in ledger.delayed ==> k.0 in ledger.buckets)
      modifies db, this`blockMap, this`log, this`tip, this`entries
      ensures Valid() && blockMap == m && log == changes && tip == now && entries == es && db.Contents() == ledger
    {
      db.Restore(ledger, index);
      blockMap, log := m, changes;
      tip, entries := now, es;
      HerePath(env, m, now, ledger);
    }

    // The loop over the blocks, inside one database transaction.
    method AddAll(blocks: seq<Block>, ghost m0: map<Hash, StoredBlock>, ghost t0: Hash, ghost es0: seq<ChangeEntry>)
      returns (ok: bool, extended: bool)
      requires Valid() && blockMap == m0 && tip == t0 && entries == es0 && Rooted(env, t0)
      requires Linear(blocks) && SafeBatch(env, rules, Weighed(m0), t0, blocks)
      modifies db, this
      ensures DosOK(env, dosBlocks)
      ensures ok <==> forall i :: 0 <= i < |blocks| ==> !RefusedAt(env, rules, old(dosBlocks), Weighed(m0), t0, blocks, i)
      ensures ok ==> Valid() && Extends(m0, blockMap) && dosBlocks == old(dosBlocks)
      ensures ok ==> Progress(rules, m0, t0, es0, Weighed(blockMap), tip, entries, blocks, |blocks|, extended)
    {
      hide RunOK, NoneHeavier, Linked, DosOK, SafeFork, SafeTurn, SafeBatch, NodeOK, Refused, Outweighs, Joined, Progress, Pending, Extends, Here, Chosen, TreeOK, Rooted, RefusedAt;
      ok, extended := true, false;
      ExtendsSelf(m0);
      ProgressStart(env, rules, m0, t0, es0, blocks);
      for i := 0 to |blocks|
        invariant Valid() && Extends(m0, blockMap) && dosBlocks == old(dosBlocks)
        invariant Progress(rules, m0, t0, es0, Weighed(blockMap), tip, entries, blocks, i, extended)
        invariant Pending(env, tip, blocks, i, extended)
        invariant forall j :: 0 <= j < i ==> !RefusedAt(env, rules, old(dosBlocks), Weighed(m0), t0, blocks, j)
      {
        ghost var m, t, run := blockMap, tip, entries;
        HereFacts(env, m, t, db.Contents());
        PendingSafe(env, rules, m0, t0, es0, Weighed(m), t, run, blocks, i, extended);
        AtTurn(env, rules, dosBlocks, m0, t0, es0, Weighed(m), t, run, blocks, i, extended);
        var one := AcceptOne(blocks[i], m, t, run);
        if one.Rejected? {
          assert RefusedAt(env, rules, old(dosBlocks), Weighed(m0), t0, blocks, i);
          return false, false;
        }
        HereFacts(env, blockMap, tip, db.Contents());
        NowKnown(env, rules, old(dosBlocks), Weighed(m), t, blocks[i]);
        ExtendsOn(m0, m, blockMap);
        ProgressStep(rules, m0, t0, es0, Weighed(m), t, run, blocks, i, extended, Weighed(blockMap), tip, entries, one.Extended?);
        PendingStep(env, blockMap, t, tip, blocks, i, extended, one.Extended?);
        extended := extended || one.Extended?;
      }
    }

    // managedAcceptBlocks: all the blocks are added, or the database is left as it was. The batch
    // fails exactly when it is not linear or a block is refused at its turn, and moves the tip
    // exactly when a block outweighs it at its turn.
    method AcceptBlocks(blocks: seq<Block>) returns (r: AcceptResult)
      requires Valid() && Rooted(env, tip) && SafeBatch(env, rules, Weighed(blockMap), tip, blocks)
      modifies db, this
      ensures Valid()
      ensures Linear(blocks) ==> (r.Failed? <==>
                exists i :: 0 <= i < |blocks| && RefusedAt(env, rules, old(dosBlocks), Weighed(old(blockMap)), old(tip), blocks, i))
      ensures !Linear(blocks) ==> r.Failed?
      ensures !r.Failed? ==> (r.ChainExtended? <==>
                exists i :: 0 <= i < |blocks| && OutweighsAt(rules, Weighed(old(blockMap)), old(tip), blocks, i))
      ensures r.Failed? ==> blockMap == old(blockMap) && tip == old(tip) && entries == old(entries) && db.Contents() == old(db.Contents())
      ensures !r.Failed? ==> Extends(old(blockMap), blockMap) && dosBlocks == old(dosBlocks)
      ensures !r.Failed? ==> Weighed(blockMap) == TreeAt(rules, Weighed(old(blockMap)), blocks, |blocks|)
      ensures !r.Failed? ==> tip == TipAt(rules, Weighed(old(blockMap)), old(tip), blocks, |blocks|)
      ensures !r.Failed? ==> forall i :: 0 <= i < |blocks| ==> BlockHash(blocks[i]) in blockMap
      ensures r.NotExtended? ==> entries == old(entries)
      ensures r.ChainExtended? ==> old(tip) in old(blockMap) && old(entries) < entries
      ensures r.ChainExtended? ==> blockMap[tip].weight.depth < old(blockMap)[old(tip)].weight.depth
      ensures AllAdmitted(env, rules, Weighed(old(blockMap))) ==> AllAdmitted(env, rules, Weighed(blockMap))
    {
      hide SafeBatch, RefusedAt, OutweighsAt, TreeAt, TipAt, AllAdmitted, DosOK;
      var linear := IsLinear(blocks);
      if !linear {
        return Failed;
      }
      var ledger, index, saved, changes := db.Contents(), db.expirations, blockMap, log;
      ghost var now, es, dos := tip, entries, dosBlocks;
      var ok, extended := AddAll(blocks, saved, now, es);
      if !ok {
        Rollback(ledger, index, saved, changes, now, es);
        return Failed;
      }
      BatchDone(env, rules, dos, saved, now, es, blockMap, tip, entries, blocks, extended);
      r := if extended then ChainExtended else NotExtended;
    }
  }

  method IsLinear(blocks: seq<Block>) returns (ok: bool)
    ensures ok <==> Linear(blocks)
  {
    for i := 0 to |blocks|
      invariant forall j :: 0 < j < i ==> blocks[j].parentID == BlockHash(blocks[j - 1])
    {
      if i > 0 && blocks[i].parentID != BlockHash(blocks[i - 1]) {
        return false;
      }
    }
    return true;
  }

  lemma RefinesWeights(m: map<Hash, StoredBlock>, next: map<Hash, StoredBlock>)
    requires Refines(m, next)
    ensures Weighed(next) == Weighed(m)
  {
  }

  // What a fork applies and reverts.
  lemma ForkLengths(env: Env, from: Hash, to: Hash, k: nat)
    requires Rooted(env, from) && Rooted(env, to) && ForkAt(env, from, to, k)
    ensures |PathOf(env, to)[k..]| - |Reversed(PathOf(env, from)[k..])| == HeightOf(env, to) - HeightOf(env, from)
  {
    PathHeights(env, from);
    PathHeights(env, to);
    if PathOf(env, from)[k..] != [] {
      ReversedAt(PathOf(env, from)[k..], 0);
    }
  }

  // How far a batch has got.
  ghost predicate Progress(rules: Rules, m0: map<Hash, StoredBlock>, t0: Hash, es0: seq<ChangeEntry>,
                           w: Weights, t: Hash, es: seq<ChangeEntry>, blocks: seq<Block>, i: nat, extended: bool)
  {
    && i <= |blocks| && w == TreeAt(rules, Weighed(m0), blocks, i) && t == TipAt(rules, Weighed(m0), t0, blocks, i)
    && (extended <==> exists j :: 0 <= j < i && OutweighsAt(rules, Weighed(m0), t0, blocks, j))
    && (if extended then es0 < es else t == t0 && es == es0)
  }

  lemma ProgressStart(env: Env, rules: Rules, m0: map<Hash, StoredBlock>, t0: Hash, es0: seq<ChangeEntry>, blocks: seq<Block>)
    ensures Progress(rules, m0, t0, es0, Weighed(m0), t0, es0, blocks, 0, false) && Pending(env, t0, blocks, 0, false)
  {
  }

  lemma ProgressStep(rules: Rules, m0: map<Hash, StoredBlock>, t0: Hash, es0: seq<ChangeEntry>,
                     w: Weights, t: Hash, es: seq<ChangeEntry>, blocks: seq<Block>, i: nat, extended: bool,
                     next: Weights, to: Hash, more: seq<ChangeEntry>, moved: bool)
    requires Progress(rules, m0, t0, es0, w, t, es, blocks, i, extended) && i < |blocks|
    requires next == Joined(rules, w, blocks[i]) && (moved <==> Outweighs(rules, w, t, blocks[i]))
    requires if moved then to == BlockHash(blocks[i]) && es < more else to == t && more == es
    ensures Progress(rules, m0, t0, es0, next, to, more, blocks, i + 1, extended || moved)
  {
    hide Joined, Outweighs;
    assert OutweighsAt(rules, Weighed(m0), t0, blocks, i) <==> moved;
  }

  lemma NothingJoins(rules: Rules, w: Weights, tip: Hash, b: Block)
    requires BlockHash(b) in w
    ensures Joined(rules, w, b) == w && !Outweighs(rules, w, tip, b)
  {
  }

  lemma ChildRooted(env: Env, b: Block)
    requires Rooted(env, b.parentID)
    ensures Rooted(env, BlockHash(b))
  {
  }

  lemma NowKnown(env: Env, rules: Rules, dosBlocks: set<Hash>, w: Weights, tip: Hash, b: Block)
    requires !Refused(env, rules, dosBlocks, w, tip, b)
    ensures BlockHash(b) in Joined(rules, w, b)
  {
    hide ValidChain, WeightOf;
  }

  lemma HereFacts(env: Env, m: map<Hash, StoredBlock>, cur: Hash, l: Ledger)
    requires Here(env, m, cur, l)
    ensures TreeOK(env, m) && cur in m && Rooted(env, cur)
  {
  }

  // The turn of block i, in terms of the batch.
  lemma AtTurn(env: Env, rules: Rules, dosBlocks: set<Hash>, m0: map<Hash, StoredBlock>, t0: Hash, es0: seq<ChangeEntry>,
               w: Weights, t: Hash, es: seq<ChangeEntry>, blocks: seq<Block>, i: nat, extended: bool)
    requires Progress(rules, m0, t0, es0, w, t, es, blocks, i, extended) && i < |blocks|
    ensures RefusedAt(env, rules, dosBlocks, Weighed(m0), t0, blocks, i) <==> Refused(env, rules, dosBlocks, w, t, blocks[i])
  {
    hide Refused;
  }

  // Once the batch has moved the tip, each next block descends from it.
  ghost predicate Pending(env: Env, t: Hash, blocks: seq<Block>, i: nat, extended: bool)
  {
    extended ==> 0 < i && (i < |blocks| ==> Rooted(env, t) && Rooted(env, blocks[i].parentID) && SafeFork(env, t, blocks[i].parentID))
  }

  lemma PendingSafe(env: Env, rules: Rules, m0: map<Hash, StoredBlock>, t0: Hash, es0: seq<ChangeEntry>,
                    w: Weights, t: Hash, es: seq<ChangeEntry>, blocks: seq<Block>, i: nat, extended: bool)
    requires Linear(blocks) && SafeBatch(env, rules, Weighed(m0), t0, blocks) && i < |blocks|
    requires Progress(rules, m0, t0, es0, w, t, es, blocks, i, extended) && Pending(env, t, blocks, i, extended)
    ensures SafeTurn(env, rules, w, t, blocks[i])
  {
    hide SafeFork, Outweighs;
  }

  lemma PendingStep(env: Env, next: map<Hash, StoredBlock>, t: Hash, to: Hash,
                    blocks: seq<Block>, i: nat, extended: bool, moved: bool)
    requires i < |blocks| && Linear(blocks) && Pending(env, t, blocks, i, extended)
    requires TreeOK(env, next) && BlockHash(blocks[i]) in next && to == if moved then BlockHash(blocks[i]) else t
    ensures Pending(env, to, blocks, i + 1, extended || moved)
  {
    var id := BlockHash(blocks[i]);
    NodeFacts(env, next, id);
    assert i + 1 < |blocks| ==> blocks[i + 1].parentID == id;
    if extended && !moved {
      assert blocks[i].parentID == BlockHash(blocks[i - 1]);
      SafeChild(env, t, id);
    }
  }

  // What a batch that was accepted has done.
  lemma BatchDone(env: Env, rules: Rules, dosBlocks: set<Hash>, m0: map<Hash, StoredBlock>, t0: Hash, es0: seq<ChangeEntry>,
                  m: map<Hash, StoredBlock>, t: Hash, es: seq<ChangeEntry>, blocks: seq<Block>, extended: bool)
    requires forall i :: 0 <= i < |blocks| ==> !RefusedAt(env, rules, dosBlocks, Weighed(m0), t0, blocks, i)
    requires Progress(rules, m0, t0, es0, Weighed(m), t, es, blocks, |blocks|, extended) && t0 in m0 && t in m
    ensures forall i :: 0 <= i < |blocks| ==> BlockHash(blocks[i]) in m
    ensures extended ==> m[t].weight.depth < m0[t0].weight.depth
    ensures AllAdmitted(env, rules, Weighed(m0)) ==> AllAdmitted(env, rules, Weighed(m))
  {
    hide AllAdmitted, RefusedAt, TreeAt, TipAt, OutweighsAt;
    var w := Weighed(m0);
    forall i | 0 <= i < |blocks| ensures BlockHash(blocks[i]) in m {
      assert !RefusedAt(env, rules, dosBlocks, w, t0, blocks, i);
      StaysKnown(env, rules, dosBlocks, w, t0, blocks, i, |blocks|);
    }
    TipsFall(rules, w, t0, blocks, |blocks|);
    if AllAdmitted(env, rules, w) {
      BatchAdmits(env, rules, dosBlocks, w, t0, blocks, |blocks|);
    }
  }

  // A block that is not refused is known from its turn on.
  lemma {:induction false} StaysKnown(env: Env, rules: Rules, dosBlocks: set<Hash>, w: Weights, tip: Hash, blocks: seq<Block>, i: nat, j: nat)
    requires i < j <= |blocks| && !RefusedAt(env, rules, dosBlocks, w, tip, blocks, i)
    ensures BlockHash(blocks[i]) in TreeAt(rules, w, blocks, j)
  {
    hide ValidChain, WeightOf;
    if i < j - 1 {
      StaysKnown(env, rules, dosBlocks, w, tip, blocks, i, j - 1);
    }
  }

  // Each block that becomes the tip is deeper than the one before.
  lemma {:induction false} TipsFall(rules: Rules, w: Weights, tip: Hash, blocks: seq<Block>, i: nat)
    requires tip in w && i <= |blocks|
    ensures TipAt(rules, w, tip, blocks, i) in TreeAt(rules, w, blocks, i)
    ensures var depth := TreeAt(rules, w, blocks, i)[TipAt(rules, w, tip, blocks, i)].depth;
      && depth <= w[tip].depth
      && ((exists j :: 0 <= j < i && OutweighsAt(rules, w, tip, blocks, j)) ==> depth < w[tip].depth)
  {
    if i > 0 {
      TipsFall(rules, w, tip, blocks, i - 1);
      if OutweighsAt(rules, w, tip, blocks, i - 1) {
        var tree := TreeAt(rules, w, blocks, i - 1);
        HeavierIsDeeper(WeightOf(rules, tree, blocks[i - 1]), tree[TipAt(rules, w, tip, blocks, i - 1)]);
      }
    }
  }

  // The tip is the heaviest known block, reached by this run of changes.
  ghost predicate Chosen(env: Env, m: map<Hash, StoredBlock>, entries: seq<ChangeEntry>, tip: Hash)
  {
    tip in m && m[tip].generated && NoneHeavier(m, tip) && RunOK(env, m, entries, tip)
  }

  lemma ChosenStill(env: Env, m: map<Hash, StoredBlock>, next: map<Hash, StoredBlock>, entries: seq<ChangeEntry>, tip: Hash, id: Hash)
    requires Chosen(env, m, entries, tip) && Extends(m, next) && next.Keys == m.Keys + {id}
    requires !HeavierThan(next[id].weight, next[tip].weight)
    ensures Chosen(env, next, entries, tip)
  {
    StillHeaviest(m, next, tip, id);
    RunKept(env, m, next, entries, tip);
  }

  // Everything that changes when the tip does.
  lemma ChosenNext(env: Env, m: map<Hash, StoredBlock>, before: map<Hash, StoredBlock>, after: map<Hash, StoredBlock>,
                   entries: seq<ChangeEntry>, tip: Hash, id: Hash, e: ChangeEntry, k: nat)
    requires Chosen(env, m, entries, tip)
    requires id !in m && Extends(m, before) && before.Keys == m.Keys + {id} && Refines(before, after)
    requires Rooted(env, tip) && Rooted(env, id) && SafeFork(env, tip, id) && HeavierThan(before[id].weight, before[tip].weight)
    requires TreeOK(env, after) && after[id].generated && ForkAt(env, tip, id, k)
    requires e == ChangeEntry(Reversed(PathOf(env, tip)[k..]), PathOf(env, id)[k..])
    ensures Chosen(env, after, entries + [e], id) && e !in entries && Extends(m, after)
    ensures after[id].weight.depth < m[tip].weight.depth
  {
    ExtendsOn(m, before, after);
    NewHeaviest(m, after, tip, id);
    ForkMoves(env, after, tip, id, e, k);
    RunGrows(env, m, after, entries, tip, id, e);
  }

  lemma HereKept(env: Env, m: map<Hash, StoredBlock>, next: map<Hash, StoredBlock>, cur: Hash, l: Ledger)
    requires Here(env, m, cur, l) && TreeOK(env, next) && Extends(m, next)
    ensures Here(env, next, cur, l)
  {
  }

  lemma PathEnds(env: Env, id: Hash)
    requires Rooted(env, id)
    ensures |PathOf(env, id)| > 0 && PathOf(env, id)[|PathOf(env, id)| - 1] == id
  {
    PathHeights(env, id);
  }

  // The blocks after the first k are known and linked.
  ghost predicate Doable(env: Env, m: map<Hash, StoredBlock>, whole: seq<Hash>, k: nat)
  {
    forall i :: 0 < k <= i < |whole| ==> DoableAt(env, m, whole, i)
  }

  ghost predicate DoableAt(env: Env, m: map<Hash, StoredBlock>, whole: seq<Hash>, i: nat)
    requires 0 < i < |whole|
  {
    && whole[i] in m && Rooted(env, whole[i]) && whole[i] != GenesisID(env)
    && whole[i].block.parentID == whole[i - 1]
  }

  lemma KnownIsDoable(env: Env, m: map<Hash, StoredBlock>, id: Hash, k: nat)
    requires LinksOK(env, m) && id in m && Rooted(env, id)
    ensures Doable(env, m, PathOf(env, id), k)
  {
    var whole := PathOf(env, id);
    PathAncestry(env, m, id);
    PathHeights(env, id);
    forall i | 0 < k <= i < |whole| ensures DoableAt(env, m, whole, i) {
      assert AncestryAt(m, whole, i);
      PathStep(env, id, i);
    }
  }

  // The blocks after the first k can be reverted one by one, back to the first k.
  ghost predicate Undoable(env: Env, whole: seq<Hash>, k: nat)
  {
    && (forall i, j :: 0 <= i < j < |whole| ==> whole[i] != whole[j])
    && forall i :: 0 < k <= i < |whole| ==> UndoableAt(env, whole, i)
  }

  ghost predicate UndoableAt(env: Env, whole: seq<Hash>, i: nat)
    requires 0 < i < |whole|
  {
    && Rooted(env, whole[i]) && whole[i] != GenesisID(env) && ReversibleAt(env, whole[i])
    && whole[i].block.parentID == whole[i - 1]
  }

  lemma BeyondFork(env: Env, from: Hash, to: Hash, k: nat, i: nat)
    requires Rooted(env, from) && Rooted(env, to) && ForkAt(env, from, to, k) && k <= i < |PathOf(env, from)|
    ensures PathOf(env, from)[i] in PathOf(env, from) && PathOf(env, from)[i] !in PathOf(env, to)
  {
    var x := PathOf(env, from)[i];
    PathHeights(env, from);
    PathHeights(env, to);
    if x in PathOf(env, to) {
      SharedPrefix(env, from, to, i);
    }
  }

  lemma PathDiffers(env: Env, id: Hash)
    requires Rooted(env, id)
    ensures forall i, j :: 0 <= i < j < |PathOf(env, id)| ==> PathOf(env, id)[i] != PathOf(env, id)[j]
  {
    PathHeights(env, id);
  }

  lemma SafeIsUndoable(env: Env, from: Hash, to: Hash, k: nat)
    requires Rooted(env, from) && Rooted(env, to) && SafeFork(env, from, to) && ForkAt(env, from, to, k)
    ensures Undoable(env, PathOf(env, from), k)
  {
    var whole := PathOf(env, from);
    PathDiffers(env, from);
    forall i | 0 < k <= i < |whole| ensures UndoableAt(env, whole, i) {
      PathStep(env, from, i);
      BeyondFork(env, from, to, k, i);
    }
  }

  // The blocks reverted so far, newest first.
  ghost predicate Unwound(reverted: seq<Hash>, whole: seq<Hash>, j: nat)
  {
    && j <= |whole| && |reverted| == |whole| - j
    && forall i :: 0 <= i < |reverted| ==> reverted[i] == whole[|whole| - 1 - i]
  }

  lemma UnwoundDone(reverted: seq<Hash>, whole: seq<Hash>, k: nat)
    requires Unwound(reverted, whole, k)
    ensures reverted == Reversed(whole[k..])
  {
    forall i | 0 <= i < |reverted| ensures |Reversed(whole[k..])| == |reverted| && Reversed(whole[k..])[i] == reverted[i] {
      ReversedAt(whole[k..], i);
    }
    if reverted == [] {
      assert whole[k..] == [];
    } else {
      ReversedAt(whole[k..], 0);
    }
  }

  lemma {:induction false} ReversedAt(s: seq<Hash>, i: nat)
    requires i < |s|
    ensures |Reversed(s)| == |s| && Reversed(s)[i] == s[|s| - 1 - i]
  {
    var front := s[..|s| - 1];
    if i > 0 {
      ReversedAt(front, i - 1);
    } else if front != [] {
      ReversedAt(front, 0);
    }
  }

  // The parent of a block on a path is the block before it.
  lemma PathStep(env: Env, id: Hash, h: nat)
    requires Rooted(env, id) && 0 < h < |PathOf(env, id)|
    ensures var x := PathOf(env, id)[h];
      x.BlockHash? && x != GenesisID(env) && x.block.parentID == PathOf(env, id)[h - 1]
  {
    PathHeights(env, id);
    var x := PathOf(env, id)[h];
    assert PathOf(env, x) == PathOf(env, id)[..h + 1];
    PathHeights(env, x.block.parentID);
  }

  // A line of known blocks from height zero, each linked to the one before.
  ghost predicate Ancestry(m: map<Hash, StoredBlock>, whole: seq<Hash>)
  {
    forall h :: 0 <= h < |whole| ==> AncestryAt(m, whole, h)
  }

  ghost predicate AncestryAt(m: map<Hash, StoredBlock>, whole: seq<Hash>, h: nat)
    requires h < |whole|
  {
    && whole[h] in m && m[whole[h]].height == h
    && (h > 0 ==> m[whole[h]].block.parentID == whole[h - 1])
  }

  // Follow parents until a block lies on the current path.
  method Backtrack(m: map<Hash, StoredBlock>, path: seq<Hash>, id: Hash, ghost whole: seq<Hash>) returns (ids: seq<Hash>, ghost k: nat)
    requires Ancestry(m, whole) && |whole| > 0 && whole[|whole| - 1] == id && |path| > 0 && path[0] == whole[0]
    ensures 0 < k <= |whole| && k <= |path| && ids == whole[k - 1..] && path[k - 1] == whole[k - 1]
    ensures forall j :: k <= j < |whole| && j < |path| ==> path[j] != whole[j]
  {
    var x := id;
    ids := [id];
    k := |whole|;
    assert AncestryAt(m, whole, k - 1);
    while m[x].height >= |path| || path[m[x].height] != x
      invariant 0 < k <= |whole| && whole[k - 1] == x && x in m && m[x].height == k - 1 && ids == whole[k - 1..]
      invariant forall j :: k <= j < |whole| && j < |path| ==> path[j] != whole[j]
      decreases k
    {
      assert AncestryAt(m, whole, k - 1);
      x := m[x].block.parentID;
      k := k - 1;
      assert AncestryAt(m, whole, k - 1);
      ids := [x] + ids;
    }
  }

  lemma PathAncestry(env: Env, m: map<Hash, StoredBlock>, id: Hash)
    requires LinksOK(env, m) && id in m && Rooted(env, id)
    ensures Ancestry(m, PathOf(env, id)) && |PathOf(env, id)| > 0 && PathOf(env, id)[|PathOf(env, id)| - 1] == id
  {
    PathHeights(env, id);
    var whole := PathOf(env, id);
    forall h | 0 <= h < |whole| ensures AncestryAt(m, whole, h) {
      PathLink(env, m, id, h);
    }
  }

  // Along the ancestry of a known block, heights are indices and parents come before.
  lemma {:induction false} PathLink(env: Env, m: map<Hash, StoredBlock>, id: Hash, h: nat)
    requires LinksOK(env, m) && id in m && Rooted(env, id) && h < |PathOf(env, id)|
    ensures AncestryAt(m, PathOf(env, id), h)
    decreases |PathOf(env, id)|
  {
    assert LinkOK(env, m, id);
    PathHeights(env, id);
    if h < |PathOf(env, id)| - 1 {
      PathLink(env, m, id.block.parentID, h);
    } else if h > 0 {
      PathHeights(env, id.block.parentID);
    }
  }
}
