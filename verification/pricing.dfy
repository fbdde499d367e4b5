/**
 The v2 cost curve: the per-request price, its int64 computation, its sum, and
 what the curve costs a principal who keeps enrolling under new identities.
*/
module Pricing {

  const MAX_INT64: int := 0x7fff_ffff_ffff_ffff
  const TWO_TO_63: int := 0x8000_0000_0000_0000
  const TWO_TO_64: int := 0x1_0000_0000_0000_0000

  predicate IsInt64(x: int) {
    -TWO_TO_63 <= x <= MAX_INT64
  }

  /** Two's complement truncation, applied by Go to every int64 result. */
  function Wrap64(x: int): (w: int)
    ensures IsInt64(w)
    ensures IsInt64(x) ==> w == x
  {
    (x + TWO_TO_63) % TWO_TO_64 - TWO_TO_63
  }

  /** The price of the n-th request over unbounded integers. */
  function CurvePrice(n: int, floor: int, slope: int): int {
    if n <= 1 then floor else floor + slope * (n - 1)
  }

  /** The price of the n-th request as the proxy computes it. */
  function CurvePrice64(n: int, floor: int, slope: int): int {
    if n <= 1 then floor else Wrap64(floor + Wrap64(slope * Wrap64(n - 1)))
  }

  /** What the first n requests of one principal cost together. */
  function CurveCost(n: nat, floor: int, slope: int): int {
    if n == 0 then 0 else CurveCost(n - 1, floor, slope) + CurvePrice(n, floor, slope)
  }

  /** The calculator's closed form for the same sum. */
  function CurveCum(n: real, floor: real, slope: real): real {
    floor * n + slope * n * (n - 1.0) / 2.0
  }

  /** Twice the closed form, over the integers, grouped by powers of n. */
  lemma {:induction false} CurveCostDoubled(n: nat, floor: int, slope: int)
    ensures 2 * CurveCost(n, floor, slope) == (2 * floor - slope) * n + slope * (n * n)
  {
    if n == 0 {
    } else {
      var m := n - 1;
      CurveCostDoubled(m, floor, slope);
      assert CurvePrice(n, floor, slope) == floor + slope * m;
      Distribute(2 * floor - slope, m, 1);
      assert n * n == m * m + (2 * m + 1);
      Distribute(slope, m * m, 2 * m + 1);
      Distribute(slope, 2 * m, 1);
      assert slope * (2 * m) == 2 * (slope * m);
    }
  }

  lemma Distribute(a: int, b: int, c: int)
    ensures a * (b + c) == a * b + a * c
  {
  }

  lemma {:induction false} CurveSum(n: nat, floor: int, slope: int)
    ensures CurveCost(n, floor, slope) as real == CurveCum(n as real, floor as real, slope as real)
  {
    CurveCostDoubled(n, floor, slope);
    QuadraticToReals(2 * floor - slope, slope, n);
    CurveCumExpanded(n as real, floor as real, slope as real);
  }

  lemma QuadraticToReals(a: int, b: int, n: int)
    ensures (a * n + b * (n * n)) as real == a as real * n as real + b as real * (n as real * n as real)
  {
    RealProduct(a, n);
    RealProduct(n, n);
    RealProduct(b, n * n);
  }

  lemma CurveCumExpanded(n: real, floor: real, slope: real)
    ensures 2.0 * CurveCum(n, floor, slope) == (2.0 * floor - slope) * n + slope * (n * n)
  {
    assert slope * n * (n - 1.0) == slope * (n * n) - slope * n;
    assert (2.0 * floor - slope) * n == 2.0 * (floor * n) - slope * n;
  }

  lemma RealProduct(a: int, b: int)
    ensures (a * b) as real == a as real * b as real
  {
  }

  // --- int64 ---

  lemma WrapShift(x: int, k: int)
    ensures Wrap64(x + k * TWO_TO_64) == Wrap64(x)
  {
    ModShift(x + TWO_TO_63, k);
  }

  lemma ModShift(x: int, k: int)
    ensures (x + k * TWO_TO_64) % TWO_TO_64 == x % TWO_TO_64
  {
  }

  /** Truncation subtracts a multiple of 2^64. */
  lemma WrapShifts(x: int) returns (k: int)
    ensures Wrap64(x) == x + k * TWO_TO_64
  {
    k := -((x + TWO_TO_63) / TWO_TO_64);
  }

  lemma WrapAbsorbs(a: int, b: int)
    ensures Wrap64(a + Wrap64(b)) == Wrap64(a + b)
  {
    hide Wrap64;
    var k := WrapShifts(b);
    WrapShift(a + b, k);
  }

  /**
   The int64 price is the true price exactly as long as the true price fits,
   which is a test on the request count alone.
  */
  lemma CurvePrice64Exact(n: int, floor: int, slope: int)
    requires 1 <= n <= MAX_INT64
    requires 0 < floor <= MAX_INT64 && 0 < slope <= MAX_INT64
    ensures CurvePrice64(n, floor, slope) == CurvePrice(n, floor, slope)
            <==> slope * (n - 1) <= MAX_INT64 - floor
  {
    if n > 1 {
      WrapAbsorbs(floor, slope * (n - 1));
      assert slope * (n - 1) > 0;
    }
  }

  /** Within the bound the price never falls below the floor and rises with every request. */
  lemma CurvePrice64Rises(m: int, n: int, floor: int, slope: int)
    requires 1 <= m <= n <= MAX_INT64
    requires 0 < floor <= MAX_INT64 && 0 < slope <= MAX_INT64
    requires slope * (n - 1) <= MAX_INT64 - floor
    ensures floor <= CurvePrice64(m, floor, slope) <= CurvePrice64(n, floor, slope)
    ensures m < n ==> CurvePrice64(m, floor, slope) < CurvePrice64(n, floor, slope)
  {
    assert slope * (n - 1) == slope * (m - 1) + slope * (n - m);
    assert slope * (n - m) >= 0;
    if m < n { assert slope * (n - m) > 0; }
    assert slope * (m - 1) >= 0;
    CurvePrice64Exact(m, floor, slope);
    CurvePrice64Exact(n, floor, slope);
  }

  lemma WrapAbsorbsFactor(a: int, b: int)
    ensures Wrap64(a * Wrap64(b)) == Wrap64(a * b)
  {
    hide Wrap64;
    var k := WrapShifts(b);
    Distribute(a, b, k * TWO_TO_64);
    assert a * (k * TWO_TO_64) == (a * k) * TWO_TO_64;
    WrapShift(a * b, a * k);
  }

  lemma WrapAbsorbsRemainder(a: int, b: int)
    ensures Wrap64(a + b % TWO_TO_64) == Wrap64(a + b)
  {
    hide Wrap64;
    var k := b / TWO_TO_64;
    assert b == b % TWO_TO_64 + k * TWO_TO_64;
    WrapShift(a + b % TWO_TO_64, k);
  }

  /** The int64 price depends on the increment only up to 2^64. */
  lemma CurvePrice64Is(n: int, floor: int, slope: int)
    requires 1 <= n && IsInt64(floor)
    ensures CurvePrice64(n, floor, slope) == Wrap64(floor + (slope * (n - 1)) % TWO_TO_64)
  {
    hide Wrap64;
    WrapAbsorbsRemainder(floor, slope * (n - 1));
    if n == 1 {
      assert slope * (n - 1) == 0;
    } else {
      WrapAbsorbsFactor(slope, n - 1);
      WrapAbsorbs(floor, slope * (n - 1));
    }
  }

  /** Up to the first request there is nothing to escalate. */
  lemma CurveStartsAtFloor(n: int, floor: int, slope: int)
    requires n <= 1
    ensures CurvePrice64(n, floor, slope) == CurvePrice(n, floor, slope) == floor
  {
  }

  /** The increment slope * count, reduced to 64 bits, leaves room for the floor. */
  predicate MeetsFloor(count: int, floor: int, slope: int) {
    (slope * count) % TWO_TO_64 <= MAX_INT64 - floor
  }

  /** Either that, or the floor lifts a negative increment above zero again. */
  predicate StaysPositive(count: int, floor: int, slope: int) {
    MeetsFloor(count, floor, slope) || (slope * count) % TWO_TO_64 > TWO_TO_64 - floor
  }

  /** When exactly the computed price keeps the floor, and when it is positive, for every request count. */
  lemma CurvePrice64SignIff(n: int, floor: int, slope: int)
    requires 1 <= n && 0 < floor <= MAX_INT64
    ensures CurvePrice64(n, floor, slope) >= floor <==> MeetsFloor(n - 1, floor, slope)
    ensures CurvePrice64(n, floor, slope) > 0 <==> StaysPositive(n - 1, floor, slope)
  {
    hide CurvePrice64;
    CurvePrice64Is(n, floor, slope);
  }

  /** Validated configurations on either side: one that undercuts the floor, one that turns negative. */
  lemma OverflowUndercutsTheFloor()
    ensures CurvePrice64(6, 10, 3689348814741910322) == 4
    ensures CurvePrice64(3, 10, 0x4000_0000_0000_0000) < 0
  {
  }

  // --- Resetting identities ---

  /** Stakes and tolls of a campaign that sends counts[i] requests under its i-th identity. */
  function CampaignCost(counts: seq<nat>, stake: int, floor: int, slope: int): int {
    if counts == [] then 0
    else stake + CurveCost(counts[0], floor, slope) + CampaignCost(counts[1..], stake, floor, slope)
  }

  function Sum(counts: seq<nat>): nat {
    if counts == [] then 0 else counts[0] + Sum(counts[1..])
  }

  function SumOfSquares(counts: seq<nat>): nat {
    if counts == [] then 0 else counts[0] * counts[0] + SumOfSquares(counts[1..])
  }

  lemma {:induction false} CampaignCostDoubled(counts: seq<nat>, stake: int, floor: int, slope: int)
    ensures 2 * CampaignCost(counts, stake, floor, slope) ==
            (2 * stake) * |counts| + (2 * floor - slope) * Sum(counts) + slope * SumOfSquares(counts)
  {
    if counts == [] {
    } else {
      var m, rest := counts[0], counts[1..];
      CurveCostDoubled(m, floor, slope);
      CampaignCostDoubled(rest, stake, floor, slope);
      Distribute(2 * stake, 1, |rest|);
      Distribute(2 * floor - slope, m, Sum(rest));
      Distribute(slope, m * m, SumOfSquares(rest));
    }
  }

  /** The sum of (k * counts[i] - x)^2, written out. */
  lemma {:induction false} SpreadIsNonNegative(counts: seq<nat>, k: nat, x: int)
    ensures (k * k) * SumOfSquares(counts) - (2 * k * x) * Sum(counts) + (x * x) * |counts| >= 0
  {
    if counts == [] {
    } else {
      var m, rest := counts[0], counts[1..];
      SpreadIsNonNegative(rest, k, x);
      SquareOfDifference(k, m, x);
      Distribute(k * k, m * m, SumOfSquares(rest));
      Distribute(2 * k * x, m, Sum(rest));
      Distribute(x * x, 1, |rest|);
    }
  }

  lemma SquareOfDifference(k: int, m: int, x: int)
    ensures (k * k) * (m * m) - (2 * k * x) * m + x * x >= 0
  {
    SquareIsNonNegative(k * m - x);
    assert (k * m - x) * (k * m - x) == (k * m) * (k * m) - 2 * ((k * m) * x) + x * x;
    assert (k * m) * (k * m) == (k * k) * (m * m);
    assert (k * m) * x == (k * x) * m;
  }

  lemma SquareIsNonNegative(x: int)
    ensures x * x >= 0
  {
  }

  lemma NonNegativeFactor(c: nat, x: int)
    requires c > 0 && c * x >= 0
    ensures x >= 0
  {
  }

  /** k * sum of squares >= square of sum. */
  lemma CauchySchwarz(counts: seq<nat>)
    requires counts != []
    ensures |counts| * SumOfSquares(counts) >= Sum(counts) * Sum(counts)
  {
    SpreadIsNonNegative(counts, |counts|, Sum(counts));
    CauchySchwarzAlgebra(|counts|, Sum(counts), SumOfSquares(counts));
  }

  lemma CauchySchwarzAlgebra(k: nat, s: int, q: int)
    requires k > 0 && (k * k) * q - (2 * k * s) * s + (s * s) * k >= 0
    ensures k * q >= s * s
  {
    assert (k * k) * q == k * (k * q);
    assert (2 * k * s) * s == 2 * (k * (s * s));
    Distribute(k, k * q, -(s * s));
    assert k * -(s * s) == -(k * (s * s));
    NonNegativeFactor(k, k * q - s * s);
  }

  /**
   No list of identities, however the requests are split among them, beats the
   amortized floor: T >= M * (floor + sqrt(2 * stake * slope) - slope / 2).
  */
  lemma NoResetStrategyBeatsTheFloor(counts: seq<nat>, stake: nat, floor: nat, slope: nat)
    requires counts != []
    ensures var t, m := CampaignCost(counts, stake, floor, slope), Sum(counts);
            var excess := 2 * t - (2 * floor - slope) * m;
            excess >= 0 && excess * excess >= (8 * stake * slope) * (m * m)
  {
    CampaignCostDoubled(counts, stake, floor, slope);
    CauchySchwarz(counts);
    ResetAlgebra(stake, slope, |counts|, SumOfSquares(counts), Sum(counts));
  }

  lemma ResetAlgebra(stake: nat, slope: nat, k: nat, q: nat, m: nat)
    requires k * q >= m * m
    ensures var excess := (2 * stake) * k + slope * q;
            excess >= 0 && excess * excess >= (8 * stake * slope) * (m * m)
  {
    AmGm((2 * stake) * k, slope * q);
    Regroup(stake, slope, k, q);
    MulMonotone(8 * stake * slope, m * m, k * q);
    assert (2 * stake) * k >= 0 && slope * q >= 0;
  }

  lemma Regroup(stake: nat, slope: nat, k: nat, q: nat)
    ensures 4 * (((2 * stake) * k) * (slope * q)) == (8 * stake * slope) * (k * q)
  {
    assert ((2 * stake) * k) * (slope * q) == ((2 * stake) * slope) * (k * q);
  }

  lemma AmGm(a: int, b: int)
    ensures (a + b) * (a + b) >= 4 * (a * b)
  {
    SquareIsNonNegative(a - b);
    assert (a - b) * (a - b) == (a + b) * (a + b) - 4 * (a * b);
  }

  lemma MulMonotone(c: nat, x: int, y: int)
    requires x <= y
    ensures c * x <= c * y
  {
  }

  /** The bound is attained: equal identities of m requests with slope * m^2 == 2 * stake. */
  lemma FloorIsAttained(k: nat, m: nat, stake: nat, floor: nat, slope: nat)
    requires slope * (m * m) == 2 * stake
    ensures var counts := seq(k, _ => m);
            var t, total := CampaignCost(counts, stake, floor, slope), Sum(counts);
            var excess := 2 * t - (2 * floor - slope) * total;
            excess * excess == (8 * stake * slope) * (total * total)
  {
    var counts: seq<nat> := seq(k, _ => m);
    UniformSums(counts, m);
    CampaignCostDoubled(counts, stake, floor, slope);
    AttainedAlgebra(k, m, stake, slope);
  }

  lemma AttainedAlgebra(k: nat, m: nat, stake: nat, slope: nat)
    requires slope * (m * m) == 2 * stake
    ensures var excess := (2 * stake) * k + slope * (k * (m * m));
            excess * excess == (8 * stake * slope) * ((k * m) * (k * m))
  {
    var x := (2 * stake) * k;
    assert slope * (k * (m * m)) == x;
    assert slope * ((k * m) * (k * m)) == k * x by {
      assert (k * m) * (k * m) == k * (k * (m * m));
    }
    var d := (k * m) * (k * m);
    assert (8 * stake * slope) * d == (4 * (2 * stake)) * (slope * d);
    assert (2 * stake) * (k * x) == x * x;
  }

  lemma {:induction false} UniformSums(counts: seq<nat>, m: nat)
    requires forall i :: 0 <= i < |counts| ==> counts[i] == m
    ensures Sum(counts) == |counts| * m && SumOfSquares(counts) == |counts| * (m * m)
  {
    if counts == [] {
    } else {
      UniformSums(counts[1..], m);
      Distribute(m, 1, |counts[1..]|);
      Distribute(m * m, 1, |counts[1..]|);
    }
  }

  /** The per-request figure that the calculator shows; root stands for sqrt(2 * stake * slope). */
  function Amortized(floor: real, slope: real, root: real): real {
    if slope <= 0.0 then floor else floor + root
  }

  /** The sum of (mStar - counts[i])^2: how far a strategy is from the calculator's optimal interval. */
  function SquaredDistance(counts: seq<nat>, mStar: real): real {
    if counts == [] then 0.0
    else Squared(mStar - counts[0] as real) + SquaredDistance(counts[1..], mStar)
  }

  function Squared(x: real): real {
    x * x
  }

  /** root and mStar are the two square roots that the calculator takes. */
  predicate Roots(stake: nat, slope: nat, mStar: real, root: real) {
    && slope > 0 && mStar >= 0.0 && root >= 0.0
    && mStar * mStar * slope as real == 2.0 * stake as real
    && root * root == 2.0 * stake as real * slope as real
  }

  lemma RootsAgree(stake: nat, slope: nat, mStar: real, root: real)
    requires Roots(stake, slope, mStar, root)
    ensures root == slope as real * mStar
  {
    var other := slope as real * mStar;
    assert other * other == (mStar * mStar * slope as real) * slope as real;
    assert (root - other) * (root + other) == root * root - other * other;
    if root > other { PositiveProduct(root - other, root + other); }
    if root < other { PositiveProduct(other - root, root + other); }
  }

  lemma PositiveProduct(x: real, y: real)
    requires x > 0.0 && y > 0.0
    ensures x * y > 0.0
  {
  }

  /** Whether a strategy costs at least the calculator's figure per request. */
  predicate MeetsFigure(counts: seq<nat>, stake: nat, floor: nat, slope: nat, root: real) {
    CampaignCost(counts, stake, floor, slope) as real >=
    Amortized(floor as real, slope as real, root) * Sum(counts) as real
  }

  /** n requests cost this much above the figure, d being their squared distance. */
  predicate CostsAbove(figure: real, slope: real, cost: real, n: real, d: real) {
    2.0 * (cost - figure * n) == slope * (d - n)
  }

  lemma NothingCostsNothing(figure: real, slope: real)
    ensures CostsAbove(figure, slope, 0.0, 0.0, 0.0)
  {
  }

  lemma CostsAdd(figure: real, slope: real, cost1: real, n1: real, d1: real, cost2: real, n2: real, d2: real)
    requires CostsAbove(figure, slope, cost1, n1, d1) && CostsAbove(figure, slope, cost2, n2, d2)
    ensures CostsAbove(figure, slope, cost1 + cost2, n1 + n2, d1 + d2)
  {
    assert figure * (n1 + n2) == figure * n1 + figure * n2;
    assert slope * ((d1 + d2) - (n1 + n2)) == slope * (d1 - n1) + slope * (d2 - n2);
  }

  lemma IdentityGap(m: nat, stake: nat, floor: nat, slope: nat, mStar: real, root: real)
    requires Roots(stake, slope, mStar, root)
    ensures CostsAbove(Amortized(floor as real, slope as real, root), slope as real,
                       (stake + CurveCost(m, floor, slope)) as real, m as real, Squared(mStar - m as real))
  {
    hide CurveCost, CurveCum;
    RootsAgree(stake, slope, mStar, root);
    CurveSum(m, floor, slope);
    GapIsASquare(slope as real, floor as real, stake as real, m as real, mStar);
  }

  lemma {:induction false} CampaignGap(counts: seq<nat>, stake: nat, floor: nat, slope: nat, mStar: real, root: real)
    requires Roots(stake, slope, mStar, root)
    ensures CostsAbove(Amortized(floor as real, slope as real, root), slope as real,
                       CampaignCost(counts, stake, floor, slope) as real, Sum(counts) as real,
                       SquaredDistance(counts, mStar))
  {
    hide CurveCost, Amortized, Roots, Squared, CostsAbove;
    var figure := Amortized(floor as real, slope as real, root);
    if counts == [] {
      NothingCostsNothing(figure, slope as real);
    } else {
      var m, rest := counts[0], counts[1..];
      IdentityGap(m, stake, floor, slope, mStar, root);
      CampaignGap(rest, stake, floor, slope, mStar, root);
      CostsAdd(figure, slope as real,
               (stake + CurveCost(m, floor, slope)) as real, m as real, Squared(mStar - m as real),
               CampaignCost(rest, stake, floor, slope) as real, Sum(rest) as real, SquaredDistance(rest, mStar));
    }
  }

  /**
   The calculator states its figure as the floor that no reset strategy can beat.
   A strategy meets it exactly when its identities stray far enough, all in all,
   from the calculator's own optimum.
  */
  lemma CalculatorFigureHoldsIff(counts: seq<nat>, stake: nat, floor: nat, slope: nat, mStar: real, root: real)
    requires Roots(stake, slope, mStar, root)
    ensures MeetsFigure(counts, stake, floor, slope, root)
            <==> SquaredDistance(counts, mStar) >= Sum(counts) as real
  {
    hide CampaignCost, SquaredDistance, Sum, Amortized;
    assert slope as real > 0.0;
    CampaignGap(counts, stake, floor, slope, mStar, root);
    SignOfProduct(slope as real, SquaredDistance(counts, mStar) - Sum(counts) as real);
  }

  /** The optimum, rounded to a whole number of requests and at least 1, is less than sqrt(m) away. */
  lemma NearestInterval(mStar: real) returns (m: nat)
    requires mStar > 0.0
    ensures m > 0 && (mStar - m as real) * (mStar - m as real) < m as real
  {
    if mStar < 1.0 {
      m := 1;
      Shrinks(1.0 - mStar);
    } else {
      m := mStar.Floor;
      Shrinks(mStar - m as real);
    }
  }

  lemma Shrinks(d: real)
    requires 0.0 <= d < 1.0
    ensures (-d) * (-d) == d * d < 1.0
  {
    SquareGrows(d, 1.0);
  }

  lemma SquareGrows(x: real, y: real)
    requires 0.0 <= x < y
    ensures x * x < y * y
  {
    PositiveProduct(y - x, y + x);
    assert (y - x) * (y + x) == y * y - x * x;
  }

  /**
   So the claim that no strategy beats the figure is false of every curve that
   asks a stake: resetting at the rounded optimum beats it.
  */
  lemma FigureIsAFloorIff(stake: nat, floor: nat, slope: nat, mStar: real, root: real)
    requires Roots(stake, slope, mStar, root)
    ensures (forall counts :: MeetsFigure(counts, stake, floor, slope, root)) <==> stake == 0
  {
    if stake == 0 {
      NoDistance(slope as real, mStar);
      forall counts ensures MeetsFigure(counts, stake, floor, slope, root) {
        SquaresExceed(counts);
        CalculatorFigureHoldsIff(counts, stake, floor, slope, mStar, root);
      }
    } else {
      var counts := Undercutting(stake, floor, slope, mStar, root);
      assert !MeetsFigure(counts, stake, floor, slope, root);
    }
  }

  lemma NoDistance(slope: real, mStar: real)
    requires slope > 0.0 && mStar * mStar * slope == 0.0
    ensures mStar == 0.0
  {
    ZeroProduct(mStar * mStar, slope);
    ZeroProduct(mStar, mStar);
  }

  lemma ZeroProduct(x: real, y: real)
    requires x * y == 0.0
    ensures x == 0.0 || y == 0.0
  {
  }

  lemma SquareExceeds(m: nat)
    ensures Squared(0.0 - m as real) >= m as real
  {
    if m > 0 { MulMonotone(m, 1, m); }
    RealProduct(m, m);
  }

  lemma {:induction false} SquaresExceed(counts: seq<nat>)
    ensures SquaredDistance(counts, 0.0) >= Sum(counts) as real
  {
    if counts == [] {
    } else {
      SquaresExceed(counts[1..]);
      SquareExceeds(counts[0]);
      AddBounds(Squared(0.0 - counts[0] as real), counts[0], SquaredDistance(counts[1..], 0.0), Sum(counts[1..]));
    }
  }

  lemma AddBounds(x: real, m: int, y: real, n: int)
    requires x >= m as real && y >= n as real
    ensures x + y >= (m + n) as real
  {
  }

  lemma PositiveRoot(slope: real, mStar: real)
    requires mStar >= 0.0 && mStar * mStar * slope > 0.0
    ensures mStar > 0.0
  {
  }

  lemma Undercutting(stake: nat, floor: nat, slope: nat, mStar: real, root: real) returns (counts: seq<nat>)
    requires Roots(stake, slope, mStar, root) && stake > 0
    ensures |counts| == 1 && counts[0] > 0 && !MeetsFigure(counts, stake, floor, slope, root)
  {
    PositiveRoot(slope as real, mStar);
    var m := NearestInterval(mStar);
    counts := [m];
    assert counts[1..] == [];
    assert SquaredDistance(counts, mStar) == Squared(mStar - m as real) && Sum(counts) == m;
    CalculatorFigureHoldsIff(counts, stake, floor, slope, mStar, root);
  }

  /** With no slope the figure is the floor price, and every strategy meets it. */
  lemma FlatCurveMeetsFigure(counts: seq<nat>, stake: nat, floor: nat, root: real)
    ensures MeetsFigure(counts, stake, floor, 0, root)
  {
    hide CampaignCost, Sum;
    FlatCost(counts, stake, floor);
    RealProduct(floor, Sum(counts));
  }

  lemma FlatCost(counts: seq<nat>, stake: nat, floor: nat)
    ensures CampaignCost(counts, stake, floor, 0) >= floor * Sum(counts)
  {
    hide CampaignCost, Sum, SumOfSquares;
    CampaignCostDoubled(counts, stake, floor, 0);
    assert (2 * floor - 0) * Sum(counts) == 2 * (floor * Sum(counts));
    assert (2 * stake) * |counts| >= 0;
  }

  /** At the calculator's own defaults, a reset every 141 requests does it. */
  lemma DefaultsUndercutTheFigure(root: real)
    requires root >= 0.0 && root * root == 2000000.0
    ensures !MeetsFigure([141], 100000, 10, 10, root)
  {
    CurveCostDoubled(141, 10, 10);
    assert [141][1..] == [];
    assert CampaignCost([141], 100000, 10, 10) == 200110;
    if root < 1414.0 { SquareGrows(root, 1414.0); }
  }

  lemma GapIsASquare(s: real, f: real, c: real, n: real, mStar: real)
    requires mStar * mStar * s == 2.0 * c
    ensures 2.0 * (c + CurveCum(n, f, s) - (f + s * mStar) * n) == s * ((mStar - n) * (mStar - n) - n)
  {
    var a, b, d := mStar * mStar, mStar * n, n * n;
    assert (mStar - n) * (mStar - n) == a - 2.0 * b + d;
    assert s * (a - 2.0 * b + d - n) == s * a - 2.0 * (s * b) + s * d - s * n;
    assert s * a == 2.0 * c;
    assert (f + s * mStar) * n == f * n + s * b;
    assert s * n * (n - 1.0) == s * d - s * n;
  }

  lemma SignOfProduct(s: real, x: real)
    requires s > 0.0
    ensures s * x >= 0.0 <==> x >= 0.0
  {
  }
}
