/** The Oak difficulty adjustment: decayed totals, the corrected block time and the clamp on targets. */
module Oak {
  import opened Types
  import opened Targets

  const BLOCK_FREQUENCY: int := 600
  const OAK_MAX_BLOCK_SHIFT: int := 3
  const GENESIS_TIMESTAMP: nat := 1540955779
  const ASIC_HARDFORK_HEIGHT: nat := 0x7FFF_FFFF_FFFF_FFFF
  const OAK_HARDFORK_BLOCK: nat := 1500
  const ASIC_HARDFORK_TOTAL_TIME: int := 120000
  // Byte 8 of the 32-byte target is 32.
  const ASIC_HARDFORK_TOTAL_TARGET: nat := 0x20_0000000000_0000000000_0000000000_0000000000_000000
  // Byte 6 of the 32-byte target is 2.
  const ROOT_TARGET: nat := 0x2_0000000000_0000000000_0000000000_0000000000_0000000000

  // ---------------------------------------------------------------- 64-bit arithmetic

  function Wrap(x: int): (r: int)
    ensures -0x8000_0000_0000_0000 <= r < 0x8000_0000_0000_0000
    ensures -0x8000_0000_0000_0000 <= x < 0x8000_0000_0000_0000 ==> r == x
  {
    (x + 0x8000_0000_0000_0000) % 0x1_0000_0000_0000_0000 - 0x8000_0000_0000_0000
  }

  // Division that rounds towards zero.
  function Quo(x: int, d: int): (q: int)
    requires d > 0
    ensures 0 <= x ==> q * d <= x < (q + 1) * d
    ensures x <= 0 ==> (q - 1) * d < x <= q * d
  {
    if x >= 0 then x / d else -((-x) / d)
  }

  // ---------------------------------------------------------------- the target of the next block

  // Seconds the chain is ahead of schedule; negative when it is late.
  function Delta(height: nat, timestamp: nat): int
  {
    Wrap(Wrap(Wrap(BLOCK_FREQUENCY * height) + GENESIS_TIMESTAMP) - Wrap(timestamp))
  }

  // The square of the delta with its sign.
  function SignedSquare(delta: int): (s: int)
    ensures -0x8000_0000_0000_0000 <= s < 0x8000_0000_0000_0000
  {
    var square := Wrap(delta * delta);
    if delta < 0 then Wrap(-square) else square
  }

  function Shifted(square: int): (t: int)
    ensures 200 <= t <= 1800
  {
    var time := Wrap(BLOCK_FREQUENCY + Quo(square, 10000000));
    if time < BLOCK_FREQUENCY / OAK_MAX_BLOCK_SHIFT then BLOCK_FREQUENCY / OAK_MAX_BLOCK_SHIFT
    else if time > BLOCK_FREQUENCY * OAK_MAX_BLOCK_SHIFT then BLOCK_FREQUENCY * OAK_MAX_BLOCK_SHIFT
    else time
  }

  // The block time to aim for, within a factor of three of the block frequency.
  function BlockTime(delta: int): (t: int)
    ensures 200 <= t <= 1800
  {
    Shifted(SignedSquare(delta))
  }

  function Difficulty(target: nat): nat
  {
    if target == 0 then ROOT_DEPTH else ROOT_DEPTH / target
  }

  function VisibleHashrate(totalTime: int, totalTarget: nat): (rate: nat)
    ensures rate > 0
  {
    var rate := Difficulty(totalTarget) / (if totalTime < 1 then 1 else totalTime);
    if rate == 0 then 1 else rate
  }

  function TargetFor(rate: nat, time: nat): nat
    requires rate > 0 && time > 0
  {
    assert rate * time > 0;
    IntToTarget(ROOT_DEPTH / (rate * time))
  }

  // The target at which the visible hashrate takes the corrected block time.
  function IdealTarget(totalTime: int, totalTarget: nat, height: nat, timestamp: nat): nat
  {
    TargetFor(VisibleHashrate(totalTime, totalTarget), BlockTime(Delta(height, timestamp)))
  }

  // childTargetOak. Away from the ASIC fork the target is the ideal one, moved into the band of
  // four parts in a thousand around the current one.
  function ChildTarget(totalTime: int, totalTarget: nat, current: nat, height: nat, timestamp: nat): (t: nat)
    requires 0 < current <= ROOT_DEPTH
    ensures t <= ROOT_DEPTH
    ensures height + 1 == ASIC_HARDFORK_HEIGHT ==> t == IdealTarget(totalTime, totalTarget, height, timestamp)
    ensures height + 1 != ASIC_HARDFORK_HEIGHT ==> 1000 * t <= 1004 * current && 1000 * current <= 1004 * t + 1003
    ensures 1004 * IdealTarget(totalTime, totalTarget, height, timestamp) >= 1000 * current
            && 1000 * IdealTarget(totalTime, totalTarget, height, timestamp) <= 1004 * current
            ==> t == IdealTarget(totalTime, totalTarget, height, timestamp)
  {
    Clamp(current, IdealTarget(totalTime, totalTarget, height, timestamp), height + 1 == ASIC_HARDFORK_HEIGHT)
  }

  function Clamp(current: nat, ideal: nat, exempt: bool): nat
    requires current > 0
  {
    var hardest := MulDifficulty(current, 1004, 1000);
    var easiest := MulDifficulty(current, 1000, 1004);
    var raised := if ideal < hardest && !exempt then hardest else ideal;
    if raised > easiest && !exempt then easiest else raised
  }

  lemma SquaresGrow(a: nat, b: nat)
    requires a <= b
    ensures a * a <= b * b
  {
    assert b * b - a * a == (b - a) * (b + a);
  }

  // The signed square is exact for exactly the deltas of under about 96 years.
  lemma SquareFits(a: int)
    ensures SignedSquare(a) == (if a < 0 then -(a * a) else a * a) <==> -3037000499 <= a <= 3037000499
  {
    var size := if a < 0 then -a else a;
    assert size * size == a * a;
    if size <= 3037000499 {
      SquaresGrow(size, 3037000499);
    } else {
      SquaresGrow(3037000500, size);
    }
  }

  // One second more, and a chain far ahead of schedule is hurried as if it were late.
  lemma OverflowTurnsTheShift()
    ensures BlockTime(3037000499) == 1800 && BlockTime(3037000500) == 200
  {
    assert 3037000499 * 3037000499 == 9223372030926249001;
    assert 3037000500 * 3037000500 == 9223372037000250000;
  }

  lemma ShiftGrows(x: int, y: int)
    requires -0x8000_0000_0000_0000 <= x <= y < 0x8000_0000_0000_0000
    ensures Shifted(x) <= Shifted(y)
    ensures x <= 0 ==> Shifted(x) <= 600
    ensures y >= 0 ==> Shifted(y) >= 600
  {
  }

  // While the square fits in 64 bits, being further ahead of schedule never shortens the block time:
  // it is above the frequency only when the chain is ahead, and below only when it is late.
  lemma BlockTimeFollowsDelta(a: int, b: int)
    requires -3037000499 <= a <= b <= 3037000499
    ensures BlockTime(a) <= BlockTime(b)
    ensures a <= 0 ==> BlockTime(a) <= 600
    ensures b >= 0 ==> BlockTime(b) >= 600
  {
    hide SignedSquare, Shifted;
    SquareFits(a);
    SquareFits(b);
    if 0 <= a {
      SquaresGrow(a, b);
    } else if b <= 0 {
      SquaresGrow(-b, -a);
    }
    ShiftGrows(SignedSquare(a), SignedSquare(b));
  }

  // ---------------------------------------------------------------- the target in its own terms

  // Seconds a block of this height and time is ahead of schedule.
  function Ahead(height: nat, timestamp: nat): int { 600 * height + GENESIS_TIMESTAMP - timestamp }

  predicate SquareOK(d: int) { -3037000499 <= d <= 3037000499 }

  lemma WrapTwice(x: int, y: int)
    ensures Wrap(Wrap(x) + y) == Wrap(x + y)
  {
    var k := (x + 0x8000_0000_0000_0000) / 0x1_0000_0000_0000_0000;
    assert Wrap(x) == x - k * 0x1_0000_0000_0000_0000;
    WrapShift(x + y - k * 0x1_0000_0000_0000_0000, k);
  }

  lemma WrapShift(x: int, k: int)
    ensures Wrap(x + k * 0x1_0000_0000_0000_0000) == Wrap(x)
  {
  }

  // The delta is the seconds ahead of schedule, whenever those fit in 64 bits.
  lemma DeltaIsAhead(height: nat, timestamp: nat)
    requires SquareOK(Ahead(height, timestamp))
    ensures Delta(height, timestamp) == Ahead(height, timestamp)
  {
    var a, g := BLOCK_FREQUENCY * height, GENESIS_TIMESTAMP;
    WrapTwice(a, g);
    WrapTwice(a + g, -Wrap(timestamp));
    WrapTwice(timestamp, -(a + g));
    WrapNegative(a + g - Wrap(timestamp), a + g - timestamp);
  }

  lemma WrapNegative(x: int, y: int)
    requires Wrap(-x) == Wrap(-y) && SquareOK(y)
    ensures Wrap(x) == y
  {
  }

  // The block time aimed at is 600 seconds, longer by the square of the seconds ahead or shorter by
  // the square of the seconds behind, in units of ten million, and within 200 and 1800.
  lemma TimeAimedAt(height: nat, timestamp: nat)
    requires SquareOK(Ahead(height, timestamp))
    ensures var d := Ahead(height, timestamp);
      var q := d * d / 10000000;
      BlockTime(Delta(height, timestamp)) ==
        if d >= 0 then (if q > 1200 then 1800 else 600 + q) else (if q > 400 then 200 else 600 - q)
  {
    hide SignedSquare, Delta;
    var d := Ahead(height, timestamp);
    DeltaIsAhead(height, timestamp);
    SquareFits(d);
    SquareBound(d);
    ShiftIs(d * d);
  }

  lemma SquareBound(d: int)
    requires SquareOK(d)
    ensures 0 <= d * d < 0x8000_0000_0000_0000
  {
    SquaresGrow(if d < 0 then -d else d, 3037000499);
  }

  lemma ShiftIs(x: nat)
    requires x < 0x8000_0000_0000_0000
    ensures Shifted(x) == if x / 10000000 > 1200 then 1800 else 600 + x / 10000000
    ensures x > 0 ==> Shifted(0 - x) == if x / 10000000 > 400 then 200 else 600 - x / 10000000
  {
  }

  // The difficulty of a target is the largest number of its multiples up to the maximum.
  lemma DifficultyIsFloor(target: nat)
    requires target > 0
    ensures Difficulty(target) * target <= ROOT_DEPTH < (Difficulty(target) + 1) * target
  {
    Floor(ROOT_DEPTH, target);
  }

  // The visible hashrate is the whole number of hashes a second, and at least one.
  lemma HashrateIsFloor(time: int, target: nat)
    ensures var seconds := if time < 1 then 1 else time;
      var rate := VisibleHashrate(time, target);
      rate < 2 || rate * seconds <= Difficulty(target)
    ensures var seconds := if time < 1 then 1 else time;
      Difficulty(target) < (VisibleHashrate(time, target) + 1) * seconds
  {
    Floor(Difficulty(target), if time < 1 then 1 else time);
  }

  lemma TargetIsFloor(rate: nat, time: nat)
    requires rate > 0 && time > 0
    ensures TargetFor(rate, time) * (rate * time) <= ROOT_DEPTH < (TargetFor(rate, time) + 1) * (rate * time)
  {
    assert rate * time > 0;
    Floor(ROOT_DEPTH, rate * time);
    QuotientBound(ROOT_DEPTH, rate * time, ROOT_DEPTH);
  }

  // On schedule the ideal target is the one the visible hashrate meets in 600 seconds.
  lemma OnSchedule(time: int, target: nat, height: nat)
    ensures var t, hashes := IdealTarget(time, target, height, GENESIS_TIMESTAMP + 600 * height), VisibleHashrate(time, target) * 600;
      t * hashes <= ROOT_DEPTH < (t + 1) * hashes
  {
    hide Delta, VisibleHashrate, TargetFor;
    TimeAimedAt(height, GENESIS_TIMESTAMP + 600 * height);
    TargetIsFloor(VisibleHashrate(time, target), 600);
  }

  // What the clamp does with a larger ideal target.
  lemma ClampGrows(current: nat, a: nat, b: nat, exempt: bool)
    requires 0 < current && a <= b
    ensures Clamp(current, a, exempt) <= Clamp(current, b, exempt)
  {
  }

  // A harder hashrate or a longer time never gives an easier target.
  lemma TargetFalls(rate: nat, time: nat, more: nat, longer: nat)
    requires 0 < rate <= more && 0 < time <= longer
    ensures TargetFor(more, longer) <= TargetFor(rate, time)
  {
    assert rate * time <= more * time <= more * longer;
    assert 0 < rate * time;
    QuotientFalls(ROOT_DEPTH, rate * time, more * longer);
  }

  // While the square fits, a later parent never makes the target harder.
  lemma LaterIsEasier(time: int, target: nat, current: nat, height: nat, timestamp: nat, later: nat)
    requires 0 < current <= ROOT_DEPTH && timestamp <= later
    requires SquareOK(Ahead(height, timestamp)) && SquareOK(Ahead(height, later))
    ensures ChildTarget(time, target, current, height, timestamp) <= ChildTarget(time, target, current, height, later)
  {
    hide Delta, BlockTime, VisibleHashrate, TargetFor;
    DeltaIsAhead(height, timestamp);
    DeltaIsAhead(height, later);
    BlockTimeFollowsDelta(Ahead(height, later), Ahead(height, timestamp));
    var rate := VisibleHashrate(time, target);
    TargetFalls(rate, BlockTime(Delta(height, later)), rate, BlockTime(Delta(height, timestamp)));
    ClampGrows(current, IdealTarget(time, target, height, timestamp), IdealTarget(time, target, height, later),
               height + 1 == ASIC_HARDFORK_HEIGHT);
  }

  // A larger total time, or a larger total target, never makes the target harder.
  lemma SlowerIsEasier(time: int, longer: int, target: nat, easier: nat, current: nat, height: nat, timestamp: nat)
    requires 0 < current <= ROOT_DEPTH && time <= longer && target <= easier
    ensures ChildTarget(time, target, current, height, timestamp) <= ChildTarget(longer, easier, current, height, timestamp)
  {
    hide Delta, BlockTime, VisibleHashrate, TargetFor;
    HashrateFalls(time, longer, target, easier);
    var aim := BlockTime(Delta(height, timestamp));
    TargetFalls(VisibleHashrate(longer, easier), aim, VisibleHashrate(time, target), aim);
    ClampGrows(current, IdealTarget(time, target, height, timestamp), IdealTarget(longer, easier, height, timestamp),
               height + 1 == ASIC_HARDFORK_HEIGHT);
  }

  lemma HashrateFalls(time: int, longer: int, target: nat, easier: nat)
    requires time <= longer && target <= easier
    ensures VisibleHashrate(longer, easier) <= VisibleHashrate(time, target)
  {
    var a, b := if time < 1 then 1 else time, if longer < 1 then 1 else longer;
    var d, e := Difficulty(target), Difficulty(easier);
    assert e <= d by {
      if target > 0 {
        QuotientFalls(ROOT_DEPTH, target, easier);
      } else if easier > 0 {
        QuotientFalls(ROOT_DEPTH, 1, easier);
      }
    }
    QuotientFalls(e, a, b);
    QuotientGrows(e, d, a);
  }

  lemma QuotientGrows(m: nat, n: nat, d: nat)
    requires d > 0 && m <= n
    ensures m / d <= n / d
  {
    var q := m / d;
    Floor(m, d);
    QuotientAtLeast(n, d, q);
  }

  // ---------------------------------------------------------------- decayed totals

  datatype Totals = Totals(time: int, target: nat)

  // The time since the parent, as the 64-bit difference of the two timestamps.
  function Gap(parentTimestamp: nat, timestamp: nat): int { Wrap(Wrap(timestamp) - Wrap(parentTimestamp)) }

  function NextTime(time: int, gap: int): int { Wrap(Quo(Wrap(time * 995), 1000) + gap) }

  // The totals storeBlockTotals computes for a block.
  function NextTotals(prev: Totals, height: nat, parentTimestamp: nat, timestamp: nat, target: nat): Totals
    requires prev.target > 0 && target > 0
  {
    if height + 1 == ASIC_HARDFORK_HEIGHT then Totals(ASIC_HARDFORK_TOTAL_TIME, ASIC_HARDFORK_TOTAL_TARGET)
    else
      assert prev.target * 1000 / 995 > 0;
      Totals(NextTime(prev.time, Gap(parentTimestamp, timestamp)),
             AddDifficulties(MulDifficulty(prev.target, 995, 1000), target))
  }

  // Away from the ASIC fork the new total target has the work of the decayed total and of the block.
  lemma TotalIsDecayedSum(prev: Totals, height: nat, parentTimestamp: nat, timestamp: nat, target: nat)
    requires 0 < prev.target <= ROOT_DEPTH && 0 < target <= ROOT_DEPTH && height + 1 != ASIC_HARDFORK_HEIGHT
    ensures var t, decayed := NextTotals(prev, height, parentTimestamp, timestamp, target).target, MulDifficulty(prev.target, 995, 1000);
      && HasWork(t, decayed, target) && !HasWork(t + 1, decayed, target)
      && (decayed < ROOT_DEPTH ==> decayed * 995 <= prev.target * 1000 < (decayed + 1) * 995)
  {
    assert prev.target * 1000 / 995 > 0;
    ProductIsFloor(prev.target, 995, 1000);
    SumIsFloor(MulDifficulty(prev.target, 995, 1000), target);
  }

  // The new total time is the old one less half a percent, towards zero, and the new gap.
  lemma TimeIsDecayedSum(time: int, gap: int)
    requires -0x10_0000_0000_0000 <= time <= 0x10_0000_0000_0000 && -0x10_0000_0000_0000 <= gap <= 0x10_0000_0000_0000
    ensures var t := NextTime(time, gap) - gap;
      if time >= 0 then 1000 * t <= 995 * time < 1000 * (t + 1) else 1000 * (t - 1) < 995 * time <= 1000 * t
  {
  }

  // The decay keeps the total within two hundred gaps, wrap-around included.
  lemma TimeStaysBounded(time: int, gap: int, bound: nat)
    requires -200 * bound <= time <= 200 * bound && 0 - bound <= gap <= bound
    ensures -200 * bound <= NextTime(time, gap) <= 200 * bound
  {
  }

  // ---------------------------------------------------------------- whole chains

  datatype OakBlock = OakBlock(height: nat, timestamp: nat, totals: Totals, childTarget: nat)

  // A child under the Oak rules.
  function Child(pb: OakBlock, timestamp: nat): OakBlock
    requires 0 < pb.childTarget <= ROOT_DEPTH && pb.totals.target > 0
  {
    OakBlock(pb.height + 1, timestamp,
             NextTotals(pb.totals, pb.height + 1, pb.timestamp, timestamp, pb.childTarget),
             ChildTarget(pb.totals.time, pb.totals.target, pb.childTarget, pb.height, pb.timestamp))
  }

  ghost predicate IsChild(pb: OakBlock, child: OakBlock) { Sound(pb) && child == Child(pb, child.timestamp) }

  // A run of blocks, each the child of the one before, none of them next to the ASIC fork. The
  // source panics on a zero target, which ends a run.
  ghost predicate OakRun(s: seq<OakBlock>)
  {
    && s != [] && (forall i :: 0 <= i < |s| ==> Sound(s[i]))
    && (forall i :: 0 < i < |s| ==> IsChild(s[i - 1], s[i]))
  }

  ghost predicate Sound(pb: OakBlock)
  {
    && 0 < pb.childTarget <= ROOT_DEPTH && pb.totals.target > 0
    && pb.height + 1 != ASIC_HARDFORK_HEIGHT && pb.height + 2 != ASIC_HARDFORK_HEIGHT
  }

  function Power(base: nat, n: nat): (p: nat)
    requires base > 0
    ensures p > 0
  {
    if n == 0 then 1 else base * Power(base, n - 1)
  }

  // In n steps a target has gone up by at most the factor (1004/1000)^n.
  ghost predicate RisesWithin(from: nat, to: nat, n: nat)
  {
    to * Power(1000, n) <= from * Power(1004, n)
  }

  // Or down by at most that factor, where rounding costs up to 251.
  ghost predicate DropsWithin(from: nat, to: nat, n: nat)
  {
    (from + 251) * Power(1000, n) <= (to + 251) * Power(1004, n)
  }

  lemma ScaleBound(a: nat, b: nat, p: nat)
    requires a <= b
    ensures a * p <= b * p
  {
  }

  lemma Chain(t: nat, t1: nat, t0: nat, p: nat, q: nat)
    requires 1000 * t <= 1004 * t1 && t1 * p <= t0 * q
    ensures t * (1000 * p) <= t0 * (1004 * q)
  {
    ScaleBound(1000 * t, 1004 * t1, p);
    assert t * (1000 * p) == (1000 * t) * p && (1004 * t1) * p == 1004 * (t1 * p) && t0 * (1004 * q) == 1004 * (t0 * q);
  }

  lemma RiseStep(t0: nat, t1: nat, t: nat, n: nat)
    requires n > 0 && RisesWithin(t0, t1, n - 1) && 1000 * t <= 1004 * t1
    ensures RisesWithin(t0, t, n)
  {
    Chain(t, t1, t0, Power(1000, n - 1), Power(1004, n - 1));
  }

  // After n blocks the target has risen at most by the factor (1004/1000)^n.
  lemma {:induction false} TargetsRise(s: seq<OakBlock>)
    requires OakRun(s)
    ensures RisesWithin(s[0].childTarget, s[|s| - 1].childTarget, |s| - 1)
  {
    hide RisesWithin;
    if |s| == 1 {
      NoSteps(s[0].childTarget);
    } else {
      var r := s[..|s| - 1];
      TargetsRise(r);
      OneStep(r[|r| - 1], s[|s| - 1]);
      RiseStep(s[0].childTarget, r[|r| - 1].childTarget, s[|s| - 1].childTarget, |s| - 1);
    }
  }

  lemma NoSteps(t: nat)
    ensures RisesWithin(t, t, 0) && DropsWithin(t, t, 0)
  {
  }

  lemma OneStep(pb: OakBlock, child: OakBlock)
    requires IsChild(pb, child)
    ensures 1000 * child.childTarget <= 1004 * pb.childTarget && 1000 * pb.childTarget <= 1004 * child.childTarget + 1003
  {
    hide NextTotals, Clamp;
  }

  lemma ChainBack(t: nat, t1: nat, t0: nat, p: nat, q: nat)
    requires 1000 * t1 <= 1004 * t + 1003 && t0 * p <= (t1 + 251) * q
    ensures t0 * (1000 * p) <= (t + 251) * (1004 * q)
  {
    ScaleBound(1000 * (t1 + 251), 1004 * (t + 251), q);
    assert t0 * (1000 * p) == 1000 * (t0 * p) && 1000 * ((t1 + 251) * q) == (1000 * (t1 + 251)) * q
           && (t + 251) * (1004 * q) == (1004 * (t + 251)) * q;
  }

  lemma DropStep(t0: nat, t1: nat, t: nat, n: nat)
    requires n > 0 && DropsWithin(t0, t1, n - 1) && 1000 * t1 <= 1004 * t + 1003
    ensures DropsWithin(t0, t, n)
  {
    ChainBack(t, t1, t0 + 251, Power(1000, n - 1), Power(1004, n - 1));
  }

  // And fallen at most by the same factor, up to rounding.
  lemma {:induction false} TargetsDrop(s: seq<OakBlock>)
    requires OakRun(s)
    ensures DropsWithin(s[0].childTarget, s[|s| - 1].childTarget, |s| - 1)
  {
    hide DropsWithin;
    if |s| == 1 {
      NoSteps(s[0].childTarget);
    } else {
      var r := s[..|s| - 1];
      TargetsDrop(r);
      OneStep(r[|r| - 1], s[|s| - 1]);
      DropStep(s[0].childTarget, r[|r| - 1].childTarget, s[|s| - 1].childTarget, |s| - 1);
    }
  }

  // If no gap exceeds the bound, no total time ever exceeds two hundred times the bound.
  lemma {:induction false} TotalTimeBounded(s: seq<OakBlock>, bound: nat)
    requires OakRun(s) && -200 * bound <= s[0].totals.time <= 200 * bound
    requires forall i :: 0 < i < |s| ==> 0 - bound <= Gap(s[i - 1].timestamp, s[i].timestamp) <= bound
    ensures -200 * bound <= s[|s| - 1].totals.time <= 200 * bound
  {
    if |s| > 1 {
      var r := s[..|s| - 1];
      TotalTimeBounded(r, bound);
      TimeStaysBounded(r[|r| - 1].totals.time, Gap(r[|r| - 1].timestamp, s[|s| - 1].timestamp), bound);
    }
  }

  // ---------------------------------------------------------------- the stored totals

  // A block of the current path, with the target it sets for its children.
  datatype PathBlock = PathBlock(id: Hash, timestamp: nat, childTarget: nat)

  const BASE_TOTALS := Totals(0, ROOT_DEPTH)

  // The totals of every block of a path, each from its parent's.
  ghost predicate TotalsOf(path: seq<PathBlock>, totals: seq<Totals>)
  {
    && |totals| == |path| > 0
    && path[0].timestamp == GENESIS_TIMESTAMP && path[0].childTarget == ROOT_TARGET
    && totals[0] == NextTotals(BASE_TOTALS, 0, GENESIS_TIMESTAMP, GENESIS_TIMESTAMP, ROOT_TARGET)
    && (forall i :: 0 < i < |path| ==> Succeeds(path[i - 1], totals[i - 1], i, path[i], totals[i]))
  }

  ghost predicate Succeeds(parent: PathBlock, prev: Totals, height: nat, block: PathBlock, totals: Totals)
  {
    && prev.target > 0 && parent.childTarget > 0
    && totals == NextTotals(prev, height, parent.timestamp, block.timestamp, parent.childTarget)
  }

  ghost predicate Distinct(path: seq<PathBlock>)
  {
    forall i, j :: 0 <= i < j < |path| ==> path[i].id != path[j].id
  }

  // The bucket has the totals of the first n blocks.
  ghost predicate Records(bucket: map<Hash, Totals>, path: seq<PathBlock>, totals: seq<Totals>, n: nat)
    requires n <= |path| && n <= |totals|
  {
    forall i :: 0 <= i < n ==> path[i].id in bucket && bucket[path[i].id] == totals[i]
  }

  // A path has one sequence of totals, so a rebuilt bucket and a maintained one agree on it.
  lemma {:induction false} RebuildAgrees(path: seq<PathBlock>, a: seq<Totals>, b: seq<Totals>, i: nat)
    requires TotalsOf(path, a) && TotalsOf(path, b) && i < |path|
    ensures a[i] == b[i]
  {
    hide NextTotals;
    if i > 0 {
      RebuildAgrees(path, a, b, i - 1);
      assert Succeeds(path[i - 1], a[i - 1], i, path[i], a[i]) && Succeeds(path[i - 1], b[i - 1], i, path[i], b[i]);
    }
  }

  class OakBucket {
    var entries: map<Hash, Totals>
    var initialized: bool

    constructor ()
      ensures entries == map[] && !initialized
    {
      entries, initialized := map[], false;
    }

    method StoreBlockTotals(height: nat, id: Hash, prev: Totals, parentTimestamp: nat, timestamp: nat, target: nat)
      returns (totals: Totals)
      requires prev.target > 0 && target > 0
      modifies this`entries
      ensures totals == NextTotals(prev, height, parentTimestamp, timestamp, target)
      ensures entries == old(entries)[id := totals]
    {
      totals := NextTotals(prev, height, parentTimestamp, timestamp, target);
      entries := entries[id := totals];
    }

    // initOak: scan the current path once and record every block's totals.
    method Init(path: seq<PathBlock>, ghost totals: seq<Totals>)
      requires TotalsOf(path, totals) && Distinct(path)
      modifies this
      ensures initialized && (old(initialized) ==> entries == old(entries))
      ensures !old(initialized) ==> Records(entries, path, totals, |path|)
      ensures forall x :: x in old(entries) && (forall i :: 0 <= i < |path| ==> path[i].id != x)
                ==> x in entries && entries[x] == old(entries)[x]
    {
      hide NextTotals;
      if initialized {
        return;
      }
      var last := StoreBlockTotals(0, path[0].id, BASE_TOTALS, GENESIS_TIMESTAMP, GENESIS_TIMESTAMP, ROOT_TARGET);
      var parentTimestamp, parentChildTarget := GENESIS_TIMESTAMP, ROOT_TARGET;
      for i := 1 to |path|
        invariant last == totals[i - 1] && Records(entries, path, totals, i)
        invariant parentTimestamp == path[i - 1].timestamp && parentChildTarget == path[i - 1].childTarget
        invariant forall x :: x in old(entries) && (forall j :: 0 <= j < |path| ==> path[j].id != x)
                    ==> x in entries && entries[x] == old(entries)[x]
      {
        assert Succeeds(path[i - 1], totals[i - 1], i, path[i], totals[i]);
        last := StoreBlockTotals(i, path[i].id, last, parentTimestamp, path[i].timestamp, parentChildTarget);
        parentTimestamp, parentChildTarget := path[i].timestamp, path[i].childTarget;
      }
      initialized := true;
    }

    // The Oak part of newChild: record the child's totals and set its target from its parent's.
    // The target under the rules before the Oak fork is a parameter.
    method NewChild(path: seq<PathBlock>, ghost totals: seq<Totals>, id: Hash, timestamp: nat, legacy: nat)
      returns (child: PathBlock, ghost next: seq<Totals>)
      requires TotalsOf(path, totals) && Records(entries, path, totals, |path|) && id !in entries
      requires 0 < path[|path| - 1].childTarget <= ROOT_DEPTH && totals[|totals| - 1].target > 0
      modifies this`entries
      ensures child.id == id && child.timestamp == timestamp
      ensures TotalsOf(path + [child], next) && Records(entries, path + [child], next, |path| + 1)
      ensures |path| > OAK_HARDFORK_BLOCK ==>
        OakBlock(|path|, timestamp, next[|path|], child.childTarget)
        == Child(OakBlock(|path| - 1, path[|path| - 1].timestamp, totals[|path| - 1], path[|path| - 1].childTarget), timestamp)
    {
      hide NextTotals, ChildTarget;
      var parent, height := path[|path| - 1], |path| - 1;
      assert Records(entries, path, totals, |path|);
      var prev := entries[parent.id];
      var stored := StoreBlockTotals(height + 1, id, prev, parent.timestamp, timestamp, parent.childTarget);
      var target;
      if height < OAK_HARDFORK_BLOCK {
        target := legacy;
      } else {
        target := ChildTarget(prev.time, prev.target, parent.childTarget, height, parent.timestamp);
      }
      child, next := PathBlock(id, timestamp, target), totals + [stored];
      assert Succeeds(parent, prev, height + 1, child, stored);
    }
  }
}
