/**
 Which blocks of a batch are refused, which join the tree, and which become the tip: decided from
 the weights of the tree, the tip and the remembered bad blocks alone.
 */
module Admission {
  import opened Types
  import opened Ledgers
  import opened Money
  import opened Chains
  import opened Targets
  import opened BlockTrees

  // The known blocks and their weights.
  type Weights = map<Hash, Weight>

  function Weighed(m: map<Hash, StoredBlock>): Weights { map x | x in m :: m[x].weight }

  // What the engine takes from the difficulty rules and the header checks.
  datatype Rules = Rules(
    rootTarget: nat,
    childTarget: (Weights, Block) -> nat,
    headerOK: (Weights, Block) -> bool)

  // ---------------------------------------------------------------- one block

  // A weight with a zero depth or target makes the source panic.
  predicate Weighable(w: Weight) { w.depth > 0 && w.childTarget > 0 }

  // The weight a block would have in the tree.
  function WeightOf(rules: Rules, w: Weights, b: Block): Weight
    requires b.parentID in w && Weighable(w[b.parentID])
  {
    var parent := w[b.parentID];
    Weight(AddDifficulties(parent.depth, parent.childTarget), rules.childTarget(w, b))
  }

  // The block is new, its parent is known, and it can be weighed.
  predicate Joins(w: Weights, b: Block)
  {
    b.parentID in w && BlockHash(b) !in w && Weighable(w[b.parentID])
  }

  // The tree with the block added.
  ghost function Joined(rules: Rules, w: Weights, b: Block): Weights
  {
    if Joins(w, b) then w[BlockHash(b) := WeightOf(rules, w, b)] else w
  }

  // The block would become the tip.
  ghost predicate Outweighs(rules: Rules, w: Weights, tip: Hash, b: Block)
  {
    Joins(w, b) && tip in w && HeavierThan(WeightOf(rules, w, b), w[tip])
  }

  // A new block is refused for an unknown parent, for failing the header or the payout checks, for
  // a weight that is zero, and if it would become the tip but its chain is not valid or is shorter.
  ghost predicate Unfit(env: Env, rules: Rules, w: Weights, tip: Hash, b: Block)
  {
    || b.parentID !in w || !Rooted(env, b.parentID)
    || !rules.headerOK(w, b)
    || !PayoutsOK(env, b, HeightOf(env, b.parentID) + 1)
    || !Weighable(w[b.parentID]) || tip !in w || !Weighable(w[tip])
    || (Outweighs(rules, w, tip, b) && !(ValidChain(env, BlockHash(b)) && NotShorter(env, tip, BlockHash(b))))
  }

  ghost predicate NotShorter(env: Env, tip: Hash, id: Hash)
    requires Rooted(env, id)
  {
    Rooted(env, tip) ==> HeightOf(env, tip) <= HeightOf(env, id)
  }

  ghost predicate Refused(env: Env, rules: Rules, dosBlocks: set<Hash>, w: Weights, tip: Hash, b: Block)
  {
    BlockHash(b) in dosBlocks || (BlockHash(b) !in w && Unfit(env, rules, w, tip, b))
  }

  // A block that passes the header checks and would become the tip is reached from it through
  // reversible blocks. Nothing is asked of any other block.
  ghost predicate SafeTurn(env: Env, rules: Rules, w: Weights, tip: Hash, b: Block)
  {
    Outweighs(rules, w, tip, b) && rules.headerOK(w, b) ==>
      Rooted(env, tip) && Rooted(env, b.parentID) && SafeFork(env, tip, b.parentID)
  }

  // ---------------------------------------------------------------- a batch

  predicate Linear(blocks: seq<Block>)
  {
    forall i :: 0 < i < |blocks| ==> blocks[i].parentID == BlockHash(blocks[i - 1])
  }

  // The tree and the tip when it is the turn of block i.
  ghost function TreeAt(rules: Rules, w: Weights, blocks: seq<Block>, i: nat): Weights
    requires i <= |blocks|
  {
    if i == 0 then w else Joined(rules, TreeAt(rules, w, blocks, i - 1), blocks[i - 1])
  }

  ghost function TipAt(rules: Rules, w: Weights, tip: Hash, blocks: seq<Block>, i: nat): Hash
    requires i <= |blocks|
  {
    if i == 0 then tip else
      var before := TipAt(rules, w, tip, blocks, i - 1);
      if Outweighs(rules, TreeAt(rules, w, blocks, i - 1), before, blocks[i - 1]) then BlockHash(blocks[i - 1]) else before
  }

  ghost predicate OutweighsAt(rules: Rules, w: Weights, tip: Hash, blocks: seq<Block>, i: nat)
    requires i < |blocks|
  {
    Outweighs(rules, TreeAt(rules, w, blocks, i), TipAt(rules, w, tip, blocks, i), blocks[i])
  }

  ghost predicate RefusedAt(env: Env, rules: Rules, dosBlocks: set<Hash>, w: Weights, tip: Hash, blocks: seq<Block>, i: nat)
    requires i < |blocks|
  {
    Refused(env, rules, dosBlocks, TreeAt(rules, w, blocks, i), TipAt(rules, w, tip, blocks, i), blocks[i])
  }

  // Until the batch moves the tip, every turn is safe. Afterwards each block descends from the tip.
  ghost predicate SafeBatch(env: Env, rules: Rules, w: Weights, tip: Hash, blocks: seq<Block>)
  {
    Linear(blocks) ==> forall i {:trigger TreeAt(rules, w, blocks, i)} ::
      0 <= i < |blocks| && TipAt(rules, w, tip, blocks, i) == tip ==> SafeTurn(env, rules, TreeAt(rules, w, blocks, i), tip, blocks[i])
  }

  // ---------------------------------------------------------------- why a fork fails

  lemma {:induction false} AncestorsValid(env: Env, id: Hash, x: Hash)
    requires Rooted(env, id) && ValidChain(env, id) && x in PathOf(env, id)
    ensures Rooted(env, x) && ValidChain(env, x)
  {
    if x != id {
      AncestorsValid(env, id.block.parentID, x);
    }
  }

  // A chain with a bad block on it is not valid.
  lemma BadOnPath(env: Env, id: Hash, x: Hash)
    requires Rooted(env, id) && x in PathOf(env, id) && TrulyBad(env, x)
    ensures !ValidChain(env, id)
  {
    if ValidChain(env, id) {
      AncestorsValid(env, id, x);
    }
  }

  // A new block that pays its subsidy has a valid chain unless a block on it, past the fork with a
  // valid chain, is not valid on its parent's ledger.
  lemma InvalidPastFork(env: Env, m: map<Hash, StoredBlock>, tip: Hash, id: Hash)
    requires TreeOK(env, m) && Rooted(env, id) && id != GenesisID(env) && id.block.parentID in m
    requires PaysSubsidy(id.block, HeightOf(env, id)) && Rooted(env, tip) && ValidChain(env, tip)
    ensures !ValidChain(env, id) <==> exists x :: x in PathOf(env, id) && x !in PathOf(env, tip) && TrulyBad(env, x)
  {
    if x :| x in PathOf(env, id) && x !in PathOf(env, tip) && TrulyBad(env, x) {
      BadOnPath(env, id, x);
    }
    if !ValidChain(env, id) {
      var x := if ValidChain(env, id.block.parentID) then id else FirstBad(env, m, id.block.parentID);
      if x in PathOf(env, tip) {
        BadOnPath(env, tip, x);
      }
    }
  }

  ghost function FirstBad(env: Env, m: map<Hash, StoredBlock>, id: Hash): (x: Hash)
    requires TreeOK(env, m) && id in m && Rooted(env, id) && !ValidChain(env, id)
    ensures x in PathOf(env, id) && TrulyBad(env, x)
    decreases id
  {
    NodeFacts(env, m, id);
    if ValidChain(env, id.block.parentID) then id else FirstBad(env, m, id.block.parentID)
  }

  // ---------------------------------------------------------------- what the rules admitted

  // Every block but the genesis block has its parent here.
  ghost predicate Closed(env: Env, w: Weights)
  {
    && GenesisID(env) in w
    && forall x {:trigger ParentIn(env, w, x)} :: x in w ==> ParentIn(env, w, x)
  }

  ghost predicate ParentIn(env: Env, w: Weights, x: Hash)
  {
    Rooted(env, x) && (x != GenesisID(env) ==> x.block.parentID in w)
  }

  lemma {:induction false} AncestorsIn(env: Env, w: Weights, id: Hash, x: Hash)
    requires Closed(env, w) && id in w && Rooted(env, id) && x in PathOf(env, id)
    ensures x in w
  {
    assert ParentIn(env, w, id);
    if x != id {
      AncestorsIn(env, w, id.block.parentID, x);
    }
  }

  ghost predicate Within(w: Weights, next: Weights)
  {
    forall x :: x in w ==> x in next && next[x] == w[x]
  }

  lemma TreeClosed(env: Env, m: map<Hash, StoredBlock>)
    requires TreeOK(env, m)
    ensures Closed(env, Weighed(m))
  {
    forall x | x in Weighed(m) ensures ParentIn(env, Weighed(m), x) {
      NodeFacts(env, m, x);
    }
  }

  // The block was added to this tree, past its header and payout checks, with the weight the rules
  // give.
  ghost predicate AdmittedTo(env: Env, rules: Rules, before: Weights, w: Weights, x: Hash)
  {
    && Closed(env, before) && Within(before, w) && x in w && x.BlockHash? && Joins(before, x.block)
    && rules.headerOK(before, x.block) && w[x] == WeightOf(rules, before, x.block)
    && Rooted(env, x.block.parentID) && PayoutsOK(env, x.block, HeightOf(env, x.block.parentID) + 1)
  }

  ghost predicate Admitted(env: Env, rules: Rules, w: Weights, x: Hash)
  {
    exists before :: AdmittedTo(env, rules, before, w, x)
  }

  // Every block but the genesis block was admitted.
  ghost predicate AllAdmitted(env: Env, rules: Rules, w: Weights)
  {
    Closed(env, w) && forall x :: x in w && x != GenesisID(env) ==> Admitted(env, rules, w, x)
  }

  lemma AdmittedIsClosed(env: Env, rules: Rules, w: Weights, x: Hash)
    requires AllAdmitted(env, rules, w) && x in w
    ensures Closed(env, w) && ParentIn(env, w, x)
  {
  }

  lemma StillAdmitted(env: Env, rules: Rules, w: Weights, next: Weights, x: Hash)
    requires Admitted(env, rules, w, x) && Within(w, next)
    ensures Admitted(env, rules, next, x)
  {
    var before :| AdmittedTo(env, rules, before, w, x);
    assert AdmittedTo(env, rules, before, next, x);
  }

  lemma AdmittedPays(env: Env, rules: Rules, w: Weights, x: Hash)
    requires Admitted(env, rules, w, x)
    ensures x.BlockHash? && Rooted(env, x.block.parentID) && PayoutsOK(env, x.block, HeightOf(env, x.block.parentID) + 1)
  {
  }

  lemma JoinAdmits(env: Env, rules: Rules, dosBlocks: set<Hash>, w: Weights, tip: Hash, b: Block)
    requires AllAdmitted(env, rules, w) && !Refused(env, rules, dosBlocks, w, tip, b)
    ensures AllAdmitted(env, rules, Joined(rules, w, b))
  {
    hide Admitted, ValidChain, WeightOf;
    var next := Joined(rules, w, b);
    if Joins(w, b) {
      assert ParentIn(env, w, b.parentID);
      forall x | x in next ensures ParentIn(env, next, x) {
        assert x in w ==> ParentIn(env, w, x);
      }
      forall x | x in next && x != GenesisID(env) ensures Admitted(env, rules, next, x) {
        if x in w {
          StillAdmitted(env, rules, w, next, x);
        } else {
          NewAdmitted(env, rules, w, b);
        }
      }
    }
  }

  lemma NewAdmitted(env: Env, rules: Rules, w: Weights, b: Block)
    requires Closed(env, w) && Joins(w, b) && rules.headerOK(w, b)
    requires Rooted(env, b.parentID) && PayoutsOK(env, b, HeightOf(env, b.parentID) + 1)
    ensures Admitted(env, rules, Joined(rules, w, b), BlockHash(b))
  {
    assert AdmittedTo(env, rules, w, Joined(rules, w, b), BlockHash(b));
  }

  // A batch none of whose blocks is refused adds only admitted blocks.
  lemma {:induction false} BatchAdmits(env: Env, rules: Rules, dosBlocks: set<Hash>, w: Weights, tip: Hash, blocks: seq<Block>, i: nat)
    requires AllAdmitted(env, rules, w) && i <= |blocks|
    requires forall j :: 0 <= j < i ==> !RefusedAt(env, rules, dosBlocks, w, tip, blocks, j)
    ensures AllAdmitted(env, rules, TreeAt(rules, w, blocks, i))
  {
    hide AllAdmitted, Refused;
    if i > 0 {
      BatchAdmits(env, rules, dosBlocks, w, tip, blocks, i - 1);
      assert !RefusedAt(env, rules, dosBlocks, w, tip, blocks, i - 1);
      JoinAdmits(env, rules, dosBlocks, TreeAt(rules, w, blocks, i - 1), TipAt(rules, w, tip, blocks, i - 1), blocks[i - 1]);
    }
  }
}
