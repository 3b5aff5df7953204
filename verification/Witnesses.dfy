/**
 Chains on which the plain statements fail: the block of the swap does not revert, a siafund
 moved before the swap changes the number of siafunds, and spending a siafund whose address
 reads back rewritten does not revert.
 */
module Witnesses {
  import opened Types
  import opened Sums
  import opened Diffs
  import opened Money
  import opened Ledgers
  import opened Signatures
  import opened Validity
  import opened Tracking
  import opened Conservation
  import opened Steps
  import opened BlockSteps
  import opened Reverting
  import opened BlockReverts
  import opened Chains

  // ---------------------------------------------------------------- blocks on top of a chain

  // A block that pays out its subsidy and carries these transactions, which pay no fees.
  function Mined(env: Env, parent: Hash, height: nat, ts: seq<Transaction>): Hash
  {
    BlockHash(Block(parent, 0, 0,
      [SiacoinOutput(Coinbase(height) - DevSubsidy(height), ZERO_HASH),
       SiacoinOutput(DevSubsidy(height), DevFundAddress(env, height))], ts))
  }

  lemma NoFees(ts: seq<Transaction>)
    requires |ts| <= 1 && (|ts| == 1 ==> ts[0].core.minerFees == [])
    ensures SumSeq(ts, TxnFees) == 0
  {
  }

  lemma TwoPayouts(x: SiacoinOutput, y: SiacoinOutput)
    ensures SumSeq([x, y][..1], Value) == x.value && SumSeq([x, y], Value) == x.value + y.value
  {
    assert [x, y][..1] == [x];
  }

  lemma MinedPays(env: Env, parent: Hash, height: nat, ts: seq<Transaction>)
    requires height >= 1 && |ts| <= 1 && (|ts| == 1 ==> ts[0].core.minerFees == [])
    ensures PayoutsOK(env, Mined(env, parent, height, ts).block, height)
    ensures PaysSubsidy(Mined(env, parent, height, ts).block, height)
  {
    var b := Mined(env, parent, height, ts).block;
    NoFees(ts);
    TwoPayouts(b.minerPayouts[0], b.minerPayouts[1]);
  }

  // n blocks without transactions on top of a chain of this height.
  function Extend(env: Env, id: Hash, height: nat, n: nat): Hash
  {
    if n == 0 then id else Mined(env, Extend(env, id, height, n - 1), height + n, [])
  }

  // What adding a block means for the chain.
  lemma OneMore(env: Env, parent: Hash, height: nat, ts: seq<Transaction>)
    requires EnvOK(env) && Rooted(env, parent) && ValidChain(env, parent) && HeightOf(env, parent) + 1 == height
    requires |ts| <= 1 && (|ts| == 1 ==> ts[0].core.minerFees == [])
    requires TxnsValid(env, OpenBucket(LedgerOf(env, parent), height + MATURITY_DELAY), ts, height)
    ensures var id := Mined(env, parent, height, ts);
      && id != GenesisID(env) && Rooted(env, id) && ValidChain(env, id) && HeightOf(env, id) == height
      && GoodStep(env, LedgerOf(env, parent), HistoryOf(env, parent), id, id.block, height)
  {
    var id := Mined(env, parent, height, ts);
    assert |id.block.minerPayouts| == 2 && |GenesisID(env).block.minerPayouts| == 0;
    MinedPays(env, parent, height, ts);
    ParentReady(env, id);
  }

  // A block without transactions changes the siafunds only at the swap.
  lemma QuietStep(env: Env, l: Ledger, h: History, id: Hash, b: Block, height: nat)
    requires GoodStep(env, l, h, id, b, height) && b.transactions == []
    ensures AfterTxns(env, l, b, height).siafunds == l.siafunds
    ensures ApplyBlock(env, l, id, b, height).siafunds == CommitAll(l.siafunds, SwapDiffs(env, height).siafunds)
    ensures ApplyBlock(env, l, id, b, height).pool == l.pool
  {
    PoolStep(env, l, h, id, b, height);
    var o := SomeOrder(AfterTxns(env, l, b, height), height);
    GeneratesApplyBlock(env, l, h, id, b, height, o);
    NextLedger(env, l, h, id, b, height, o);
    FundsAfter(env, l, id, b, height, o);
  }

  // Only transactions move the siafund pool.
  lemma PoolStep(env: Env, l: Ledger, h: History, id: Hash, b: Block, height: nat)
    requires GoodStep(env, l, h, id, b, height)
    ensures ApplyBlock(env, l, id, b, height).pool == AfterTxns(env, l, b, height).pool
  {
    var o := SomeOrder(AfterTxns(env, l, b, height), height);
    GeneratesApplyBlock(env, l, h, id, b, height, o);
    NextLedger(env, l, h, id, b, height, o);
  }

  ghost function QuietFunds(env: Env, funds: map<Hash, SiafundOutput>, height: nat, n: nat): map<Hash, SiafundOutput>
  {
    if height < SWAP_HEIGHT <= height + n then CommitAll(funds, SwapDiffs(env, SWAP_HEIGHT).siafunds) else funds
  }

  // The tip of a valid chain of this height with these siafunds and this pool.
  ghost predicate Tip(env: Env, tip: Hash, height: nat, funds: map<Hash, SiafundOutput>, pool: nat)
  {
    && Rooted(env, tip) && ValidChain(env, tip) && HeightOf(env, tip) == height
    && LedgerOf(env, tip).siafunds == funds && LedgerOf(env, tip).pool == pool
  }

  lemma QuietChild(env: Env, p: Hash, before: nat, height: nat, funds: map<Hash, SiafundOutput>, pool: nat)
    requires EnvOK(env) && Tip(env, p, before, funds, pool) && before + 1 == height
    ensures Tip(env, Mined(env, p, height, []), height, CommitAll(funds, SwapDiffs(env, height).siafunds), pool)
  {
    OneMore(env, p, height, []);
    var id := Mined(env, p, height, []);
    QuietStep(env, LedgerOf(env, p), HistoryOf(env, p), id, id.block, height);
  }

  lemma QuietFundsStep(env: Env, funds: map<Hash, SiafundOutput>, height: nat, n: nat)
    requires n > 0
    ensures QuietFunds(env, funds, height, n) ==
      CommitAll(QuietFunds(env, funds, height, n - 1), SwapDiffs(env, height + n).siafunds)
  {
  }

  // Blocks without transactions are always valid.
  lemma {:induction false} Extends(env: Env, id: Hash, height: nat, n: nat, funds: map<Hash, SiafundOutput>, pool: nat)
    requires EnvOK(env) && Tip(env, id, height, funds, pool)
    ensures Tip(env, Extend(env, id, height, n), height + n, QuietFunds(env, funds, height, n), pool)
  {
    hide Tip, QuietFunds, Mined;
    if n == 0 {
      QuietStart(env, funds, height);
    } else {
      Extends(env, id, height, n - 1, funds, pool);
      QuietChild(env, Extend(env, id, height, n - 1), height + (n - 1), height + n, QuietFunds(env, funds, height, n - 1), pool);
      QuietFundsStep(env, funds, height, n);
    }
  }

  lemma QuietStart(env: Env, funds: map<Hash, SiafundOutput>, height: nat)
    ensures QuietFunds(env, funds, height, 0) == funds
  {
  }

  // ---------------------------------------------------------------- the swap does not revert

  // On every network the chain of 7200 blocks without transactions is valid, and reverting its
  // last block does not restore the ledger.
  lemma SwapDoesNotRevert(env: Env, o: Order)
    requires EnvOK(env)
    ensures var p := Extend(env, GenesisID(env), 0, SWAP_HEIGHT - 1);
      var id := Extend(env, GenesisID(env), 0, SWAP_HEIGHT);
      && Rooted(env, id) && ValidChain(env, id) && id.BlockHash? && id.block.parentID == p && Rooted(env, p)
      && (OrderOK(AfterTxns(env, LedgerOf(env, p), id.block, SWAP_HEIGHT), SWAP_HEIGHT, o) ==>
           var d := BlockDiffs(env, LedgerOf(env, p), id, id.block, SWAP_HEIGHT, o);
           RevertDiffs(LedgerOf(env, id), d, SWAP_HEIGHT) != LedgerOf(env, p))
  {
    var g := GenesisID(env);
    var p, id := Extend(env, g, 0, SWAP_HEIGHT - 1), Extend(env, g, 0, SWAP_HEIGHT);
    Extends(env, g, 0, SWAP_HEIGHT - 1, GenesisLedger(env).siafunds, 0);
    OneMore(env, p, SWAP_HEIGHT, []);
    if OrderOK(AfterTxns(env, LedgerOf(env, p), id.block, SWAP_HEIGHT), SWAP_HEIGHT, o) {
      RevertsIff(env, LedgerOf(env, p), HistoryOf(env, p), id, id.block, SWAP_HEIGHT, o);
      GeneratesApplyBlock(env, LedgerOf(env, p), HistoryOf(env, p), id, id.block, SWAP_HEIGHT, o);
      assert GenesisSiafundID(env, 0) in GenesisSiafundIDs(env);
    }
  }

  // ---------------------------------------------------------------- a network to move siafunds on

  // Conditions that need no signature.
  const ANYONE := UnlockConditions(0, [], 0)
  const ANYONE_LATER := UnlockConditions(1, [], 0)

  function Network(): Env
  {
    Env([SiacoinOutput(AIRDROP_COINS, UnlockConditionsHash(ANYONE))],
        [SiafundOutput(10000, UnlockConditionsHash(ANYONE), 0)],
        [SiafundOutput(10000, UnlockConditionsHash(ANYONE), 0)],
        0, UnlockConditionsHash(ANYONE_LATER), ZERO_HASH, ZERO_HASH,
        (t, height) => true, (digest, key, signature) => true, (proof, contract, block, height) => true)
  }

  lemma NetworkOK()
    ensures EnvOK(Network())
  {
    var env := Network();
    assert env.genesisSiafunds[..0] == [] && env.forkedSiafunds[..0] == [] && env.genesisSiacoins[..0] == [];
  }

  // Moves one whole siafund output.
  function Move(from: Hash, conditions: UnlockConditions, value: nat): Transaction
  {
    Transaction(TxnCore([], [], [], [], [], [SiafundInput(from, conditions, ZERO_HASH)],
                        [SiafundOutput(value, ZERO_HASH, 0)], [], []), [])
  }

  lemma MoveValid(l: Ledger, from: Hash, conditions: UnlockConditions, height: nat)
    requires from in l.siafunds && conditions.signaturesRequired == 0 && conditions.timelock <= Height(l)
    requires UnlockConditionsHash(conditions) == ReadSiafund(Network(), l, from).unlockHash && l.siafunds[from].value > 0
    ensures TxnsValid(Network(), l, [Move(from, conditions, l.siafunds[from].value)], height)
  {
    var env, t := Network(), Move(from, conditions, l.siafunds[from].value);
    MoveSigned(l, from, conditions, l.siafunds[from].value, Height(l));
    assert SumSeq(t.core.siafundInputs, FundInputValue(env, l)) == l.siafunds[from].value by {
      assert t.core.siafundInputs[..0] == [];
    }
    assert SumSeq(t.core.siafundOutputs, FundValue) == l.siafunds[from].value by {
      assert t.core.siafundOutputs[..0] == [];
    }
    assert ValidTxn(env, l, t);
    assert [t][..0] == [];
    assert CommitSet(l, NO_DIFFS) == l;
    assert ValidAt(env, l, [t], 0, height);
  }

  lemma MoveSigned(l: Ledger, from: Hash, conditions: UnlockConditions, value: nat, height: nat)
    requires conditions.signaturesRequired == 0 && conditions.timelock <= height
    ensures var t := Move(from, conditions, value); SignaturesOK(Network(), t, height) && TimelocksOK(t.core, height)
  {
    var t := Move(from, conditions, value);
    assert Parents(t.core) == [Parent(from, conditions)];
  }

  // ---------------------------------------------------------------- a siafund moved before the swap

  const CONTRACT := FileContract(0, ZERO_HASH, 10, 20, AIRDROP_COINS, CONTRACT_OUTPUTS, CONTRACT_OUTPUTS, ZERO_HASH, 0)
  const CONTRACT_OUTPUTS := [SiacoinOutput(PostTax(0, AIRDROP_COINS), ZERO_HASH)]

  function GenesisCoinID(): Hash { SiacoinOutputHash(GenesisTxn(Network().genesisSiacoins, []), 0) }

  // Moves the genesis siafunds, and forms a taxed contract from the airdrop or not.
  function First(taxed: bool): Transaction
  {
    var fund := SiafundInput(GenesisSiafundID(Network(), 0), ANYONE, ZERO_HASH);
    Transaction(TxnCore(if taxed then [SiacoinInput(GenesisCoinID(), ANYONE)] else [], [],
                        if taxed then [CONTRACT] else [], [], [], [fund],
                        [SiafundOutput(10000, ZERO_HASH, 0)], [], []), [])
  }

  function FirstBlock(taxed: bool): Hash
  {
    Mined(Network(), GenesisID(Network()), 1, [First(taxed)])
  }

  lemma GenesisHolds()
    ensures var env := Network();
      && GenesisLedger(env).siafunds == map[GenesisSiafundID(env, 0) := env.genesisSiafunds[0]]
      && GenesisLedger(env).siacoins == map[GenesisCoinID() := env.genesisSiacoins[0]]
  {
    var env := Network();
    var funds, coins := GenesisDiffs(env).siafunds, GenesisDiffs(env).siacoins;
    assert funds[..0] == [] && funds[0] == Diff(true, GenesisSiafundID(env, 0), env.genesisSiafunds[0]);
    assert coins[..0] == [] && coins[0] == Diff(true, GenesisCoinID(), env.genesisSiacoins[0]);
  }

  lemma FirstSigned(taxed: bool)
    ensures SignaturesOK(Network(), First(taxed), 0) && TimelocksOK(First(taxed).core, 0)
  {
    var c := First(taxed).core;
    var fund := Parent(GenesisSiafundID(Network(), 0), ANYONE);
    assert Parents(c) == if taxed then [Parent(GenesisCoinID(), ANYONE), fund] else [fund];
  }

  lemma One<T>(x: T, f: T -> nat)
    ensures SumSeq([x], f) == f(x)
  {
    assert [x][..0] == [];
  }

  lemma FirstValid(taxed: bool, l: Ledger, height: nat)
    requires l.siafunds == GenesisLedger(Network()).siafunds && l.siacoins == GenesisLedger(Network()).siacoins && Height(l) == 0
    ensures TxnsValid(Network(), l, [First(taxed)], height)
  {
    var env, t := Network(), First(taxed);
    GenesisHolds();
    FirstSigned(taxed);
    One(t.core.siafundInputs[0], FundInputValue(env, l));
    One(t.core.siafundOutputs[0], FundValue);
    One(CONTRACT_OUTPUTS[0], Value);
    if taxed {
      One(t.core.siacoinInputs[0], InputValue(l.siacoins));
      One(CONTRACT, Payout);
    }
    assert ValidTxn(env, l, t);
    assert [t][..0] == [];
    assert CommitSet(l, NO_DIFFS) == l;
    assert ValidAt(env, l, [t], 0, height);
  }

  // A block with one transaction adds its siafund output and collects its tax.
  lemma FirstEffect(env: Env, l: Ledger, b: Block, t: Transaction, height: nat)
    requires b.transactions == [t] && |t.core.siafundOutputs| == 1
    ensures SiafundOutputHash(t.core, 0) in AfterTxns(env, l, b, height).siafunds
    ensures AfterTxns(env, l, b, height).pool == l.pool + TaxTotal(Height(l), t.core.fileContracts)
  {
    var widened := OpenBucket(l, height + MATURITY_DELAY);
    assert [t][..0] == [];
    assert CommitSet(widened, NO_DIFFS) == widened;
    assert TxnsDiffs(env, widened, [t], height) == Then(NO_DIFFS, TxnDiffs(env, widened, t.core, height));
    var ds := TxnsDiffs(env, widened, [t], height);
    assert ds.siafunds[|ds.siafunds| - 1].apply && ds.siafunds[|ds.siafunds| - 1].id == SiafundOutputHash(t.core, 0);
    assert ds.pool == PoolDiffs(l.pool, Height(l), t.core.fileContracts);
    PoolCommits(l.pool, Height(l), t.core.fileContracts);
  }

  lemma FirstTax(taxed: bool)
    ensures TaxTotal(0, First(taxed).core.fileContracts) > 0 <==> taxed
  {
    assert [CONTRACT][..0] == [];
  }

  lemma FirstTip(taxed: bool)
    ensures var env := Network(); var id := FirstBlock(taxed);
      && Rooted(env, id) && Tip(env, id, 1, LedgerOf(env, id).siafunds, LedgerOf(env, id).pool)
      && !Unmoved(env, LedgerOf(env, id).siafunds) && (LedgerOf(env, id).pool > 0 <==> taxed)
  {
    hide TxnDiffs, TxnsDiffs, MaintenanceDiffs, CommitSet, TxnsValid, SumSeq, OrderOK;
    var env, id, t := Network(), FirstBlock(taxed), First(taxed);
    var g := GenesisID(env);
    var l := GenesisLedger(env);
    NetworkOK();
    FirstValid(taxed, OpenBucket(l, 1 + MATURITY_DELAY), 1);
    OneMore(env, g, 1, [t]);
    var o := SomeOrder(AfterTxns(env, l, id.block, 1), 1);
    GeneratesApplyBlock(env, l, HistoryOf(env, g), id, id.block, 1, o);
    NextLedger(env, l, HistoryOf(env, g), id, id.block, 1, o);
    FundsAfter(env, l, id, id.block, 1, o);
    PoolStep(env, l, HistoryOf(env, g), id, id.block, 1);
    FirstEffect(env, l, id.block, t, 1);
    FirstTax(taxed);
    assert SiafundOutputHash(t.core, 0) !in GenesisSiafundIDs(env);
  }

  // Valid chains through the swap whose siafunds are not 10000. Their siacoins are those of the
  // closed form exactly when no contract was taxed.
  lemma MovedSiafundBreaksCount(taxed: bool)
    ensures var env := Network(); var id := Extend(env, FirstBlock(taxed), 1, SWAP_HEIGHT - 1);
      && EnvOK(env) && Rooted(env, id) && ValidChain(env, id) && SumMap(LedgerOf(env, id).siafunds, FundValue) != 10000
      && (Supply(LedgerOf(env, id)) == NumSiacoins(SWAP_HEIGHT) <==> !taxed)
  {
    hide Network, FirstBlock, CommitAll, Supply, NumSiacoins, SumMap, CommitSet, TxnsDiffs, Unmoved, MaintenanceDiffs;
    var env, first := Network(), FirstBlock(taxed);
    NetworkOK();
    FirstTip(taxed);
    var funds, pool := LedgerOf(env, first).siafunds, LedgerOf(env, first).pool;
    Extends(env, first, 1, SWAP_HEIGHT - 2, funds, pool);
    var p := Extend(env, first, 1, SWAP_HEIGHT - 2);
    var id := Mined(env, p, SWAP_HEIGHT, []);
    OneMore(env, p, SWAP_HEIGHT, []);
    QuietStep(env, LedgerOf(env, p), HistoryOf(env, p), id, id.block, SWAP_HEIGHT);
    ChainCountIff(env, id);
    SupplyIff(env, id);
  }

  // ---------------------------------------------------------------- a rewritten siafund address

  lemma RewrittenFunds()
    ensures QuietFunds(Network(), GenesisLedger(Network()).siafunds, 0, 10_001) == map[UnlockConditionsHash(ANYONE) := Network().forkedSiafunds[0]]
  {
    var env := Network();
    GenesisHolds();
    var ds, m := SwapDiffs(env, SWAP_HEIGHT).siafunds, GenesisLedger(env).siafunds;
    assert ds == [SwapRemovals(env, 1)[0], SwapAdditions(env, 1)[0]];
    assert ds[..1] == [SwapRemovals(env, 1)[0]] && ds[..1][..0] == [];
    assert CommitAll(m, ds[..1]) == map[];
  }

  lemma GenesisTip(env: Env)
    requires EnvOK(env)
    ensures Tip(env, GenesisID(env), 0, GenesisLedger(env).siafunds, 0)
  {
  }

  lemma RewrittenTip()
    ensures var env := Network();
      Tip(env, Extend(env, GenesisID(env), 0, 10_001), 10_001, map[UnlockConditionsHash(ANYONE) := env.forkedSiafunds[0]], 0)
  {
    hide Tip, QuietFunds, GenesisLedger, Extend;
    var env := Network();
    NetworkOK();
    GenesisTip(env);
    Extends(env, GenesisID(env), 0, 10_001, GenesisLedger(env).siafunds, 0);
    RewrittenFunds();
  }

  function Rewriting(): Hash
  {
    Mined(Network(), Extend(Network(), GenesisID(Network()), 0, 10_001), 10_002,
          [Move(UnlockConditionsHash(ANYONE), ANYONE_LATER, 10000)])
  }

  lemma RewritingValid()
    ensures var env := Network(); var p := Extend(env, GenesisID(env), 0, 10_001); var id := Rewriting();
      && EnvOK(env) && Rooted(env, p) && Rooted(env, id) && ValidChain(env, id) && id != GenesisID(env) && HeightOf(env, id) == 10_002
      && GoodStep(env, LedgerOf(env, p), HistoryOf(env, p), id, id.block, 10_002)
  {
    hide Extend, SumSeq, CommitAll;
    var env := Network();
    var p := Extend(env, GenesisID(env), 0, 10_001);
    NetworkOK();
    RewrittenTip();
    ChainHeight(env, p);
    MoveValid(OpenBucket(LedgerOf(env, p), 10_002 + MATURITY_DELAY), UnlockConditionsHash(ANYONE), ANYONE_LATER, 10_002);
    OneMore(env, p, 10_002, [Move(UnlockConditionsHash(ANYONE), ANYONE_LATER, 10000)]);
  }

  lemma RewritingSpends()
    ensures var env := Network(); var p := Extend(env, GenesisID(env), 0, 10_001); var a := UnlockConditionsHash(ANYONE);
      && Rooted(env, p) && a in SpentFundIDs(Rewriting().block.transactions)
      && a in LedgerOf(env, p).siafunds && ReadSiafund(env, LedgerOf(env, p), a) != LedgerOf(env, p).siafunds[a]
  {
    hide Extend, SumSeq, CommitAll;
    var env, a := Network(), UnlockConditionsHash(ANYONE);
    NetworkOK();
    RewrittenTip();
    ChainHeight(env, Extend(env, GenesisID(env), 0, 10_001));
    var t := Rewriting().block.transactions[0];
    assert a in FundInputIDs(t.core) by { assert t.core.siafundInputs[0].parentID == a; }
    assert [t][..0] == [];
  }

  // A valid block above height 10000 whose reverting does not restore the ledger.
  lemma RewrittenSiafundDoesNotRevert(o: Order)
    ensures var env := Network(); var p := Extend(env, GenesisID(env), 0, 10_001); var id := Rewriting();
      && EnvOK(env) && Rooted(env, p) && Rooted(env, id) && ValidChain(env, id)
      && (OrderOK(AfterTxns(env, LedgerOf(env, p), id.block, 10_002), 10_002, o) ==>
           var d := BlockDiffs(env, LedgerOf(env, p), id, id.block, 10_002, o);
           RevertDiffs(LedgerOf(env, id), d, 10_002) != LedgerOf(env, p))
  {
    hide Extend, SumSeq, CommitAll, TxnsDiffs, TxnDiffs, MaintenanceDiffs, BlockDiffs, RevertDiffs, Network;
    var env, id := Network(), Rewriting();
    var p := Extend(env, GenesisID(env), 0, 10_001);
    RewritingValid();
    RewritingSpends();
    var l := LedgerOf(env, p);
    if OrderOK(AfterTxns(env, l, id.block, 10_002), 10_002, o) {
      RevertsIff(env, l, HistoryOf(env, p), id, id.block, 10_002, o);
      GeneratesApplyBlock(env, l, HistoryOf(env, p), id, id.block, 10_002, o);
    }
  }
}
