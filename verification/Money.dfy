/** Coinbase, supply, contract tax and the miner payout rule, with the constants of the standard network. */
module Money {
  import opened Types
  import opened Sums

  const SIACOIN_PRECISION: nat := 1_000_000_000_000_000_000_000_000
  const AIRDROP_COINS: nat := (10_000_000_000 + 51_840_000 + 300_000_000 + 200_000_000) * SIACOIN_PRECISION
  const MATURITY_DELAY: nat := 144
  const TAX_HARDFORK_HEIGHT: nat := 21_000
  const DEV_FUND_INITIAL_HEIGHT: nat := 1
  const DEV_FUND_DECAY_START: nat := 30_000
  const DEV_FUND_DECAY_END: nat := 105_000
  const DEV_FUND_INITIAL_PERCENTAGE: nat := 20
  const DEV_FUND_FINAL_PERCENTAGE: nat := 10
  const BURN_ADDRESS_HEIGHT: nat := 105_000

  function Value(o: SiacoinOutput): nat { o.value }

  // Coins of 10^24 units: 300,000 for the first block, one fewer for each later one, and never
  // fewer than 10,000.
  function Coinbase(height: nat): nat
  {
    (if height > 300_000 || 300_000 - height < 10_000 then 10_000 else 300_000 - height)
    * 1_000_000_000_000_000_000_000_000
  }

  // The closed form for the coins in circulation at a height.
  function NumSiacoins(height: nat): int
  {
    var deflationBlocks := 290_000;
    var average := (Coinbase(0) + Coinbase(height)) / 2;
    if height <= deflationBlocks then
      AIRDROP_COINS + average * (height + 1)
    else
      AIRDROP_COINS + (average * (deflationBlocks + 1) + (height - deflationBlocks) * Coinbase(height))
  }

  function CoinbaseSum(height: nat): nat
  {
    Coinbase(height) + if height == 0 then 0 else CoinbaseSum(height - 1)
  }

  // The closed form is the airdrop plus every coinbase paid so far.
  lemma {:induction false} NumSiacoinsIsSum(height: nat)
    ensures NumSiacoins(height) == AIRDROP_COINS + CoinbaseSum(height)
  {
    if height > 0 {
      NumSiacoinsIsSum(height - 1);
      NumSiacoinsStep(height - 1);
    }
  }

  lemma NumSiacoinsStep(height: nat)
    ensures NumSiacoins(height + 1) == NumSiacoins(height) + Coinbase(height + 1)
  {
    var half := SIACOIN_PRECISION / 2;
    if height < 290_000 {
      var h := height;
      assert (Coinbase(0) + Coinbase(h)) / 2 == (600_000 - h) * half;
      assert (Coinbase(0) + Coinbase(h + 1)) / 2 == (599_999 - h) * half;
      assert (599_999 - h) * (h + 2) == (600_000 - h) * (h + 1) + 2 * (299_999 - h);
      var a, b, c := (599_999 - h) * (h + 2), (600_000 - h) * (h + 1), 2 * (299_999 - h);
      assert (599_999 - h) * half * (h + 2) == a * half;
      assert (600_000 - h) * half * (h + 1) == b * half;
      assert a * half == b * half + c * half;
      assert Coinbase(h + 1) == c * half;
    } else {
      assert Coinbase(height + 1) == Coinbase(height) == 10_000 * SIACOIN_PRECISION;
    }
  }

  // The tax on a payout always fits in it, and is a multiple of 10000, the number of siafunds.
  // Before the tax hardfork the factor is the float64 nearest to 0.039, written here as the
  // fraction it is.
  function Tax(height: nat, payout: nat): (tax: nat)
    ensures tax <= payout && tax % 10000 == 0
  {
    (if height < TAX_HARDFORK_HEIGHT then payout * 5_620_492_334_958_379 / 144_115_188_075_855_872
     else payout * 39 / 1000) / 10000 * 10000
  }

  // It is the largest multiple of 10000 within 3.9% of the payout, with the float64 in place of 3.9%
  // before the hardfork.
  lemma TaxIsFloor(height: nat, payout: nat)
    ensures height >= TAX_HARDFORK_HEIGHT ==> 1000 * Tax(height, payout) <= 39 * payout < 1000 * (Tax(height, payout) + 10000)
    ensures height < TAX_HARDFORK_HEIGHT ==>
      144_115_188_075_855_872 * Tax(height, payout) <= 5_620_492_334_958_379 * payout
        < 144_115_188_075_855_872 * (Tax(height, payout) + 10000)
  {
  }

  function PostTax(height: nat, payout: nat): nat
  {
    payout - Tax(height, payout)
  }

  function Fee(fee: nat): nat { fee }

  function TxnFees(t: Transaction): nat { SumSeq(t.core.minerFees, Fee) }

  function MinerFees(b: Block): nat { SumSeq(b.transactions, TxnFees) }

  // The dev fund's share of a coinbase, in hundredths of a percent. It decays from 20% to 10%.
  function DevShare(height: nat): (share: nat)
    ensures 1000 <= share <= 2000
  {
    var decay := if height >= DEV_FUND_DECAY_END then 0
                 else if height >= DEV_FUND_DECAY_START then
                   100 - (height - DEV_FUND_DECAY_START) * 100 / (DEV_FUND_DECAY_END - DEV_FUND_DECAY_START)
                 else 100;
    DEV_FUND_FINAL_PERCENTAGE * 100 + (DEV_FUND_INITIAL_PERCENTAGE - DEV_FUND_FINAL_PERCENTAGE) * decay
  }

  // It is 20% at first and 10% at the end, and in between falls by a tenth of a percent every 750
  // blocks.
  lemma DevShareDecays(height: nat)
    ensures height <= DEV_FUND_DECAY_START ==> DevShare(height) == 2000
    ensures height >= DEV_FUND_DECAY_END ==> DevShare(height) == 1000
    ensures DEV_FUND_DECAY_START <= height && height + 750 <= DEV_FUND_DECAY_END ==> DevShare(height + 750) == DevShare(height) - 10
    ensures DevShare(height + 1) <= DevShare(height)
  {
  }

  lemma ShareOf(coinbase: nat, share: nat)
    requires share <= 2000
    ensures 0 <= 5 * (coinbase * share / 10000) <= coinbase
  {
    var part := coinbase * share / 10000;
    assert 10000 * part <= coinbase * share;
    ProductGrows(coinbase, share, 2000);
    assert 10000 * part <= coinbase * 2000;
  }

  lemma ProductGrows(n: nat, a: nat, b: nat)
    requires a <= b
    ensures n * a <= n * b
  {
    assert n * b == n * a + n * (b - a);
  }

  // The part of the coinbase reserved for the dev fund: at most a fifth.
  function DevSubsidy(height: nat): (dev: nat)
    ensures 5 * dev <= Coinbase(height)
  {
    if height >= DEV_FUND_INITIAL_HEIGHT then
      ShareOf(Coinbase(height), DevShare(height));
      Coinbase(height) * DevShare(height) / 10000
    else 0
  }

  ghost predicate AllPositive(outs: seq<SiacoinOutput>)
  {
    forall i :: 0 <= i < |outs| ==> outs[i].value > 0
  }

  // A block pays out the coinbase and the fees of its transactions.
  ghost predicate PaysSubsidy(b: Block, height: nat)
  {
    SumSeq(b.minerPayouts, Value) == Coinbase(height) + MinerFees(b)
  }

  // The payout rule: before the dev fund starts, positive payouts that sum to the subsidy; from
  // then on, positive miner payouts followed by one dev fund payout of its exact amount.
  ghost predicate PayoutsOK(env: Env, b: Block, height: nat)
  {
    var n := |b.minerPayouts|;
    if height < DEV_FUND_INITIAL_HEIGHT then
      AllPositive(b.minerPayouts) && PaysSubsidy(b, height)
    else
      && n >= 2
      && AllPositive(b.minerPayouts[..n - 1])
      && b.minerPayouts[n - 1].value == DevSubsidy(height)
      && b.minerPayouts[n - 1].unlockHash == DevFundAddress(env, height)
      && SumSeq(b.minerPayouts[..n - 1], Value) == Coinbase(height) - DevSubsidy(height) + MinerFees(b)
  }

  function DevFundAddress(env: Env, height: nat): Hash
  {
    if height >= BURN_ADDRESS_HEIGHT then env.burnUnlockHash else env.devFundUnlockHash
  }

  // Under either rule a block pays out exactly its subsidy.
  lemma PayoutTotal(env: Env, b: Block, height: nat)
    requires PayoutsOK(env, b, height)
    ensures PaysSubsidy(b, height)
  {
  }

  // The last payout is the dev fund's: its share of the coinbase, rounded down, to the address of
  // the height. The miners get the rest and the fees.
  ghost predicate PaysDevFund(env: Env, b: Block, height: nat)
  {
    && |b.minerPayouts| >= 2
    && var miners, last := b.minerPayouts[..|b.minerPayouts| - 1], b.minerPayouts[|b.minerPayouts| - 1];
       && IsFloor(last.value, Coinbase(height) * DevShare(height), 10000)
       && last.unlockHash == (if height >= BURN_ADDRESS_HEIGHT then env.burnUnlockHash else env.devFundUnlockHash)
       && SumSeq(miners, Value) + last.value == Coinbase(height) + MinerFees(b)
  }

  ghost predicate IsFloor(q: nat, n: nat, d: nat) { d * q <= n < d * (q + 1) }

  lemma FloorOf(n: nat)
    ensures IsFloor(n / 10000, n, 10000)
  {
  }

  lemma PayoutsMean(env: Env, b: Block, height: nat)
    requires PayoutsOK(env, b, height) && height >= DEV_FUND_INITIAL_HEIGHT
    ensures PaysDevFund(env, b, height)
  {
    hide Coinbase, DevShare, IsFloor, SumSeq, MinerFees;
    FloorOf(Coinbase(height) * DevShare(height));
  }

  method CheckMinerPayoutsWithoutDevFund(b: Block, height: nat) returns (ok: bool)
    ensures ok <==> AllPositive(b.minerPayouts) && PaysSubsidy(b, height)
  {
    var sum := 0;
    for i := 0 to |b.minerPayouts|
      invariant AllPositive(b.minerPayouts[..i])
      invariant sum == SumSeq(b.minerPayouts[..i], Value)
    {
      if b.minerPayouts[i].value == 0 {
        return false;
      }
      sum := sum + b.minerPayouts[i].value;
      assert b.minerPayouts[..i + 1][..i] == b.minerPayouts[..i];
    }
    assert b.minerPayouts[..|b.minerPayouts|] == b.minerPayouts;
    return Coinbase(height) + MinerFees(b) == sum;
  }

  method CheckMinerPayouts(env: Env, b: Block, height: nat) returns (ok: bool)
    ensures ok <==> PayoutsOK(env, b, height)
  {
    if height < DEV_FUND_INITIAL_HEIGHT {
      ok := CheckMinerPayoutsWithoutDevFund(b, height);
      return;
    }
    var n := |b.minerPayouts|;
    if n < 2 {
      return false;
    }
    var miners := b.minerPayouts[..n - 1];
    var sum := 0;
    for i := 0 to n - 1
      invariant AllPositive(miners[..i])
      invariant sum == SumSeq(miners[..i], Value)
    {
      if miners[i].value == 0 {
        return false;
      }
      sum := sum + miners[i].value;
      assert miners[..i + 1][..i] == miners[..i];
    }
    assert miners[..n - 1] == miners;
    var dev := b.minerPayouts[n - 1];
    if dev.value != DevSubsidy(height) || dev.unlockHash != DevFundAddress(env, height) {
      return false;
    }
    return Coinbase(height) - DevSubsidy(height) + MinerFees(b) == sum;
  }
}
