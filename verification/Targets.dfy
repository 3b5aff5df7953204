/** Targets, and the fork choice rule that compares cumulative difficulty through them. */
module Targets {
  // The largest 256-bit number.
  const ROOT_DEPTH: nat := 0xFFFFFFFF_FFFFFFFF_FFFFFFFF_FFFFFFFF_FFFFFFFF_FFFFFFFF_FFFFFFFF_FFFFFFFF

  // IntToTarget: overflow gives the maximum.
  function IntToTarget(i: nat): (t: nat)
    ensures t <= i && t <= ROOT_DEPTH && (t < i ==> t == ROOT_DEPTH)
  {
    if i > ROOT_DEPTH then ROOT_DEPTH else i
  }

  lemma ProductBound(x: nat, y: nat)
    requires x > 0 && y > 0
    ensures x * y / (x + y) <= x && x * y / (x + y) <= y
  {
    assert x * y <= x * (x + y) && x * y <= y * (x + y);
    QuotientBound(x * y, x + y, x);
    QuotientBound(x * y, x + y, y);
  }

  lemma QuotientBound(n: nat, d: nat, q: nat)
    requires d > 0 && n <= q * d
    ensures n / d <= q
  {
    assert n / d * d <= n;
  }

  lemma Floor(n: nat, d: nat)
    requires d > 0
    ensures n / d * d <= n < (n / d + 1) * d
  {
  }

  lemma Scale(a: nat, b: nat, k: nat)
    requires a <= b
    ensures a * k <= b * k
  {
  }

  lemma QuotientAtLeast(n: nat, d: nat, q: nat)
    requires d > 0 && q * d <= n
    ensures q <= n / d
  {
    Floor(n, d);
    var t := n / d;
    if t + 1 <= q {
      Scale(t + 1, q, d);
    }
  }

  // Dividing by more gives less.
  lemma QuotientFalls(n: nat, a: nat, b: nat)
    requires 0 < a <= b
    ensures n / b <= n / a
  {
    var q := n / b;
    Floor(n, b);
    assert q * a <= q * b;
    QuotientAtLeast(n, a, q);
  }

  // The target whose difficulty is the sum of two: 1 / (1/x + 1/y), rounded down. It is no easier
  // than either.
  function AddDifficulties(x: nat, y: nat): (t: nat)
    requires x > 0 && y > 0
    ensures t <= x && t <= y
  {
    ProductBound(x, y);
    IntToTarget(x * y / (x + y))
  }

  // The target whose difficulty is that of x times num / den: den * x / num, rounded down.
  function MulDifficulty(x: nat, num: nat, den: nat): nat
    requires x > 0 && num > 0
  {
    IntToTarget(x * den / num)
  }

  // A depth with at least the work of both targets: 1/depth is at least 1/x + 1/y.
  predicate HasWork(depth: nat, x: nat, y: nat) { depth * (x + y) <= x * y }

  lemma LowerHasWork(p: nat, q: nat, x: nat, y: nat)
    requires p <= q && HasWork(q, x, y)
    ensures HasWork(p, x, y)
  {
    Scale(p, q, x + y);
  }

  // The sum is the easiest depth with the work of both.
  lemma SumIsFloor(x: nat, y: nat)
    requires 0 < x && 0 < y && (x <= ROOT_DEPTH || y <= ROOT_DEPTH)
    ensures HasWork(AddDifficulties(x, y), x, y) && !HasWork(AddDifficulties(x, y) + 1, x, y)
  {
    ProductBound(x, y);
    Floor(x * y, x + y);
  }

  // The product is the easiest target t with 1/t at least (1/x) * num / den, if there is one.
  lemma ProductIsFloor(x: nat, num: nat, den: nat)
    requires x > 0 && num > 0
    ensures var t := MulDifficulty(x, num, den);
      if x * den < (ROOT_DEPTH + 1) * num then t * num <= x * den < (t + 1) * num else t == ROOT_DEPTH
  {
    var n := x * den;
    Floor(n, num);
    if n < (ROOT_DEPTH + 1) * num {
      QuotientBelow(n, num, ROOT_DEPTH + 1);
    } else {
      QuotientAtLeast(n, num, ROOT_DEPTH + 1);
    }
  }

  lemma QuotientBelow(n: nat, d: nat, q: nat)
    requires d > 0 && n < q * d
    ensures n / d < q
  {
    Floor(n, d);
    var t := n / d;
    if q <= t {
      Scale(q, t, d);
    }
  }

  // A block's place in the tree: its cumulative difficulty as a depth, and its children's target.
  datatype Weight = Weight(depth: nat, childTarget: nat)

  // The depth a competitor must stay below: a fifth of a block heavier than the current block.
  function Requirement(current: Weight): nat
    requires current.depth > 0 && current.childTarget > 0
  {
    assert current.childTarget * 100 / 20 > 0;
    AddDifficulties(current.depth, MulDifficulty(current.childTarget, 20, 100))
  }

  // The source panics when the current block has a zero target, so nothing replaces it then.
  predicate HeavierThan(w: Weight, current: Weight)
  {
    current.depth > 0 && current.childTarget > 0 && Requirement(current) > w.depth
  }

  // The target of a fifth of the difficulty.
  function Fifth(target: nat): nat { if 5 * target <= ROOT_DEPTH then 5 * target else ROOT_DEPTH }

  lemma FifthIsProduct(target: nat)
    requires 0 < target <= ROOT_DEPTH
    ensures MulDifficulty(target, 20, 100) == Fifth(target)
  {
  }

  // A block is heavier exactly when the next easier depth still has the current block's work and a
  // fifth of a block more.
  lemma HeavierIff(w: Weight, current: Weight)
    requires 0 < current.depth <= ROOT_DEPTH && 0 < current.childTarget <= ROOT_DEPTH
    ensures HeavierThan(w, current) <==> HasWork(w.depth + 1, current.depth, Fifth(current.childTarget))
  {
    hide HasWork, AddDifficulties;
    var d, s := current.depth, Fifth(current.childTarget);
    FifthIsProduct(current.childTarget);
    SumIsFloor(d, s);
    var t := Requirement(current);
    if w.depth + 1 <= t {
      LowerHasWork(w.depth + 1, t, d, s);
    } else if HasWork(w.depth + 1, d, s) {
      LowerHasWork(t + 1, w.depth + 1, d, s);
    }
  }

  // A child of the current block replaces it exactly when some depth has the work of a fifth of a
  // block more, but not that of a whole block more: unless rounding swallows its difficulty.
  lemma ChildIsHeavier(current: Weight, child: Weight)
    requires 0 < current.depth <= ROOT_DEPTH && 0 < current.childTarget <= ROOT_DEPTH
    requires child.depth == AddDifficulties(current.depth, current.childTarget)
    ensures HeavierThan(child, current) <==>
      exists n: nat :: HasWork(n, current.depth, Fifth(current.childTarget)) && !HasWork(n, current.depth, current.childTarget)
  {
    hide HasWork, AddDifficulties, HeavierThan;
    var d, t, s := current.depth, current.childTarget, Fifth(current.childTarget);
    SumIsFloor(d, t);
    HeavierIff(child, current);
    forall n: nat | HasWork(n, d, s) && !HasWork(n, d, t) ensures HasWork(child.depth + 1, d, s) {
      if n <= child.depth {
        LowerHasWork(n, child.depth, d, t);
      }
      LowerHasWork(child.depth + 1, n, d, s);
    }
  }

  // It does whenever the square of the current depth d is at least fifteen times the target t: the
  // depth one easier than a child's still has the work of a fifth of a block more, which by
  // HeavierIff is being heavier.
  lemma NotSwallowed(d: nat, t: nat, child: nat)
    requires t > 0 && 15 * t <= d * d && HasWork(child, d, t)
    ensures HasWork(child + 1, d, 5 * t)
  {
    hide HasWork, OneApart;
    Apart(d, t);
    NextHasWork(d, t, 5 * t, child);
  }

  // d * s / (d + s) - d * t / (d + t) is at least one.
  predicate OneApart(d: nat, t: nat, s: nat) { d * t * (d + s) + (d + s) * (d + t) <= d * s * (d + t) }

  lemma Apart(d: nat, t: nat)
    requires t > 0 && 15 * t <= d * d
    ensures OneApart(d, t, 5 * t)
  {
    hide OneApart;
    var q := d * d;
    SquareBound(d, t);
    Scale(6 * d + 5 * t, 3 * q, t);
    Scale(1, t, q);
    Expands(d, t, q);
  }

  lemma SquareBound(d: nat, t: nat)
    requires t > 0 && 15 * t <= d * d
    ensures 6 * d + 5 * t <= 3 * (d * d)
  {
    if d < 4 {
      Scale(d, 3, d);
    } else {
      Scale(4, d, d);
    }
  }

  lemma Expands(d: nat, t: nat, q: nat)
    requires q == d * d && (6 * d + 5 * t) * t <= 3 * q * t && q <= t * q
    ensures OneApart(d, t, 5 * t)
  {
    var a, b := q * t, d * t * t;
    assert (6 * d + 5 * t) * t == 6 * (d * t) + 5 * (t * t);
    assert d * t * (d + 5 * t) == a + 5 * b;
    assert (d + 5 * t) * (d + t) == q + 6 * (d * t) + 5 * (t * t);
    assert d * (5 * t) * (d + t) == 5 * a + 5 * b;
  }

  lemma NextHasWork(d: nat, t: nat, s: nat, c: nat)
    requires d > 0 && HasWork(c, d, t) && OneApart(d, t, s)
    ensures HasWork(c + 1, d, s)
  {
    Cancel(c, d * t, d * s, d + t, d + s);
  }

  lemma Cancel(c: nat, m: nat, n: nat, a: nat, b: nat)
    requires a > 0 && c * a <= m && m * b + b * a <= n * a
    ensures (c + 1) * b <= n
  {
    Scale(c * a, m, b);
    assert (c + 1) * b * a == c * a * b + b * a;
  }

  // A replacement strictly lowers the depth.
  lemma HeavierIsDeeper(w: Weight, current: Weight)
    requires HeavierThan(w, current)
    ensures w.depth < current.depth
  {
  }

  // What was not heavier than the replaced block is not heavier than its replacement.
  lemma HeaviestStays(x: Weight, current: Weight, next: Weight)
    requires HeavierThan(next, current) && !HeavierThan(x, current)
    ensures !HeavierThan(x, next)
  {
  }
}
