/**
 The binary evaluation metrics of the run verifier, in real arithmetic: binning by
 clamped confidence, the Brier score, the expected calibration error, F1 and entropy.
 */
module Calibration {

  datatype Row = Row(confidence: real, predicted: bool, actual: bool)

  function Clamp(x: real): (c: real)
    ensures 0.0 <= c <= 1.0
  {
    if x < 0.0 then 0.0 else if x > 1.0 then 1.0 else x
  }

  /** Confidences between 0 and 1 stay, the others go to the nearer end. */
  lemma ClampIsNearest(x: real, y: real)
    requires 0.0 <= y <= 1.0
    ensures Clamp(y) == y && Abs(x - Clamp(x)) <= Abs(x - y)
  {
  }

  function Truth(row: Row): real { if row.actual then 1.0 else 0.0 }

  function Gap(row: Row): (g: real)
    ensures -1.0 <= g <= 1.0
  {
    Clamp(row.confidence) - Truth(row)
  }

  function Abs(x: real): real { if x < 0.0 then -x else x }

  // ----- sums -----

  function Sum(rows: seq<Row>, value: Row -> real): real {
    if rows == [] then 0.0 else Sum(rows[..|rows| - 1], value) + value(rows[|rows| - 1])
  }

  const CONFIDENCE: Row -> real := (row: Row) => Clamp(row.confidence)
  const TRUTH: Row -> real := (row: Row) => Truth(row)
  const GAP: Row -> real := (row: Row) => Gap(row)
  const DISTANCE: Row -> real := (row: Row) => Abs(Gap(row))
  const SQUARE: Row -> real := (row: Row) => Gap(row) * Gap(row)

  function Count(rows: seq<Row>, counts: Row -> bool): nat {
    if rows == [] then 0
    else Count(rows[..|rows| - 1], counts) + if counts(rows[|rows| - 1]) then 1 else 0
  }

  lemma SumAppended(rows: seq<Row>, row: Row, value: Row -> real)
    ensures Sum(rows + [row], value) == Sum(rows, value) + value(row)
  {
  }

  // ----- bins -----

  /** The bin of a row among k equal parts of [0, 1]; confidence 1 belongs to the last. */
  function BinOf(row: Row, k: nat): (b: nat)
    requires 0 < k
    ensures b < k
  {
    FloorBelow(Clamp(row.confidence), k);
    var index := (Clamp(row.confidence) * k as real).Floor;
    if index > k - 1 then k - 1 else index
  }

  lemma FloorBelow(c: real, k: nat)
    requires 0.0 <= c <= 1.0
    ensures 0 <= (c * k as real).Floor
  {
  }

  /** A bin holds the confidences from b/k up to, and not including, (b+1)/k; the last bin includes 1. */
  lemma BinIsInterval(row: Row, k: nat, b: nat)
    requires 0 < k && b < k
    ensures var scaled := Clamp(row.confidence) * k as real;
            BinOf(row, k) == b <==> b as real <= scaled && (scaled < (b + 1) as real || b == k - 1)
  {
  }

  /** The binning into k equal parts. */
  function BinBy(k: nat): (bin: Row -> nat)
    requires 0 < k
    ensures forall row :: bin(row) < k
  {
    (row: Row) => BinOf(row, k)
  }

  function Bucket(rows: seq<Row>, bin: Row -> nat, b: nat): seq<Row>
  {
    if rows == [] then []
    else
      var earlier, last := Bucket(rows[..|rows| - 1], bin, b), rows[|rows| - 1];
      if bin(last) == b then earlier + [last] else earlier
  }

  lemma BucketAppended(rows: seq<Row>, row: Row, bin: Row -> nat, b: nat)
    ensures Bucket(rows + [row], bin, b) == Bucket(rows, bin, b) + if bin(row) == b then [row] else []
  {
  }

  function Occurs(rows: seq<Row>, x: Row): nat {
    if rows == [] then 0 else Occurs(rows[..|rows| - 1], x) + if rows[|rows| - 1] == x then 1 else 0
  }

  lemma OccursAppended(rows: seq<Row>, row: Row, x: Row)
    ensures Occurs(rows + [row], x) == Occurs(rows, x) + if row == x then 1 else 0
  {
  }

  /** How often a row occurs in the first j bins together. */
  function Binned(rows: seq<Row>, bin: Row -> nat, j: nat, x: Row): nat {
    if j == 0 then 0 else Binned(rows, bin, j - 1, x) + Occurs(Bucket(rows, bin, j - 1), x)
  }

  lemma {:induction false} BinnedAppended(rows: seq<Row>, row: Row, bin: Row -> nat, j: nat, x: Row)
    ensures Binned(rows + [row], bin, j, x) == Binned(rows, bin, j, x) + if bin(row) < j && row == x then 1 else 0
  {
    if j > 0 {
      BinnedAppended(rows, row, bin, j - 1, x);
      BucketAppended(rows, row, bin, j - 1);
      if bin(row) == j - 1 { OccursAppended(Bucket(rows, bin, j - 1), row, x); }
    }
  }

  lemma {:induction false} NothingBinned(bin: Row -> nat, j: nat, x: Row)
    ensures Binned([], bin, j, x) == 0
  {
    if j > 0 { NothingBinned(bin, j - 1, x); }
  }

  /** The bins partition the rows: every row occurs in them as often as among the rows, and only in its own bin. */
  lemma {:induction false} BinsPartition(rows: seq<Row>, bin: Row -> nat, k: nat, x: Row)
    requires forall row :: bin(row) < k
    ensures Binned(rows, bin, k, x) == Occurs(rows, x)
    ensures forall b :: x in Bucket(rows, bin, b) ==> bin(x) == b
  {
    if rows == [] {
      NothingBinned(bin, k, x);
    } else {
      var front, last := rows[..|rows| - 1], rows[|rows| - 1];
      BinsPartition(front, bin, k, x);
      BinnedAppended(front, last, bin, k, x);
      assert rows == front + [last];
    }
  }

  // ----- the scores -----

  function Brier(rows: seq<Row>): real {
    if rows == [] then 0.0 else Sum(rows, SQUARE) / |rows| as real
  }

  lemma ScaledAbs(m: real, n: real, a: real, b: real)
    requires m > 0.0 && n > 0.0
    ensures m / n * Abs(a / m - b / m) == Abs(a - b) / n
  {
    assert a / m - b / m == (a - b) / m;
    assert Abs((a - b) / m) == Abs(a - b) / m;
    assert m / n * (Abs(a - b) / m) == Abs(a - b) / n;
  }

  /** The part one bin contributes. */
  function Share(bucket: seq<Row>, n: nat): real {
    if bucket == [] || n == 0 then 0.0
    else Weighted(|bucket| as real, n as real, Sum(bucket, CONFIDENCE), Sum(bucket, TRUTH))
  }

  /** The distance of the mean confidence a/m from the accuracy b/m, weighted by the size of the bin. */
  function Weighted(m: real, n: real, a: real, b: real): (w: real)
    requires m > 0.0 && n > 0.0
    ensures w == Abs(a - b) / n
  {
    ScaledAbs(m, n, a, b);
    m / n * Abs(a / m - b / m)
  }

  function ErrorOf(rows: seq<Row>, bin: Row -> nat, j: nat): real
  {
    if j == 0 then 0.0 else ErrorOf(rows, bin, j - 1) + Share(Bucket(rows, bin, j - 1), |rows|)
  }

  function BinCount(bins: int): (k: nat)
    ensures 0 < k
  {
    if bins < 1 then 1 else bins
  }

  function CalibrationError(rows: seq<Row>, bins: int): real {
    ErrorOf(rows, BinBy(BinCount(bins)), BinCount(bins))
  }

  lemma {:induction false} GapsAddUp(rows: seq<Row>)
    ensures Sum(rows, CONFIDENCE) - Sum(rows, TRUTH) == Sum(rows, GAP)
  {
    if rows != [] { GapsAddUp(rows[..|rows| - 1]); }
  }

  lemma {:induction false} AbsOfSum(rows: seq<Row>)
    ensures Abs(Sum(rows, GAP)) <= Sum(rows, DISTANCE)
  {
    if rows != [] { AbsOfSum(rows[..|rows| - 1]); }
  }

  /** A bin contributes the absolute value of its summed gaps, over the number of rows. */
  lemma ShareIsGap(bucket: seq<Row>, n: nat)
    requires 0 < n
    ensures Share(bucket, n) == Abs(Sum(bucket, GAP)) / n as real
  {
    GapsAddUp(bucket);
  }

  /** The distances of the first j bins. */
  function BinnedDistance(rows: seq<Row>, bin: Row -> nat, j: nat): real
  {
    if j == 0 then 0.0 else BinnedDistance(rows, bin, j - 1) + Sum(Bucket(rows, bin, j - 1), DISTANCE)
  }

  lemma {:induction false} BinnedDistanceAppended(rows: seq<Row>, row: Row, bin: Row -> nat, j: nat)
    ensures BinnedDistance(rows + [row], bin, j)
         == BinnedDistance(rows, bin, j) + if bin(row) < j then DISTANCE(row) else 0.0
  {
    if j > 0 {
      BinnedDistanceAppended(rows, row, bin, j - 1);
      BucketAppended(rows, row, bin, j - 1);
      if bin(row) == j - 1 { SumAppended(Bucket(rows, bin, j - 1), row, DISTANCE); }
    }
  }

  lemma {:induction false} NoDistance(bin: Row -> nat, j: nat)
    ensures BinnedDistance([], bin, j) == 0.0
  {
    if j > 0 { NoDistance(bin, j - 1); }
  }

  lemma {:induction false} DistancesAddUp(rows: seq<Row>, bin: Row -> nat, k: nat)
    requires forall row :: bin(row) < k
    ensures BinnedDistance(rows, bin, k) == Sum(rows, DISTANCE)
  {
    if rows == [] {
      NoDistance(bin, k);
    } else {
      DistancesAddUp(rows[..|rows| - 1], bin, k);
      BinnedDistanceAppended(rows[..|rows| - 1], rows[|rows| - 1], bin, k);
      assert rows == rows[..|rows| - 1] + [rows[|rows| - 1]];
    }
  }

  lemma Quotients(a: real, b: real, x: real, y: real, n: real)
    requires n > 0.0 && a <= b / n && x <= y
    ensures a + x / n <= (b + y) / n
  {
    assert x / n <= y / n;
    assert (b + y) / n == b / n + y / n;
  }

  lemma {:induction false} ErrorIsBelowDistance(rows: seq<Row>, bin: Row -> nat, j: nat)
    requires rows != []
    ensures 0.0 <= ErrorOf(rows, bin, j) <= BinnedDistance(rows, bin, j) / |rows| as real
  {
    if j > 0 {
      ErrorIsBelowDistance(rows, bin, j - 1);
      var bucket := Bucket(rows, bin, j - 1);
      ShareIsGap(bucket, |rows|);
      AbsOfSum(bucket);
      Quotients(ErrorOf(rows, bin, j - 1), BinnedDistance(rows, bin, j - 1), Abs(Sum(bucket, GAP)),
                Sum(bucket, DISTANCE),
                |rows| as real);
    }
  }

  lemma ProductIsPositive(a: real, b: real)
    requires 0.0 <= a && 0.0 <= b
    ensures 0.0 <= a * b
  {
  }

  lemma SquareIsPositive(x: real)
    ensures 0.0 <= x * x
  {
  }

  /** The calibration error is at most the mean distance. */
  lemma ErrorIsBelowMean(rows: seq<Row>, bin: Row -> nat, k: nat)
    requires rows != [] && forall row :: bin(row) < k
    ensures 0.0 <= ErrorOf(rows, bin, k) <= Sum(rows, DISTANCE) / |rows| as real
  {
    ErrorIsBelowDistance(rows, bin, k);
    DistancesAddUp(rows, bin, k);
  }

  lemma SquareIsSmall(x: real)
    requires -1.0 <= x <= 1.0
    ensures 0.0 <= x * x <= 1.0
  {
    ProductIsPositive(1.0 - x, 1.0 + x);
    SquareIsPositive(x);
    assert (1.0 - x) * (1.0 + x) == 1.0 - x * x;
  }

  lemma {:induction false} SumsAreSmall(rows: seq<Row>)
    ensures 0.0 <= Sum(rows, DISTANCE) <= |rows| as real
    ensures 0.0 <= Sum(rows, SQUARE) <= |rows| as real
  {
    if rows != [] {
      SumsAreSmall(rows[..|rows| - 1]);
      SquareIsSmall(Gap(rows[|rows| - 1]));
    }
  }

  /** The square of a sum of n terms is at most n times the sum of their squares. */
  predicate MeanSquareBound(sum: real, n: real, squares: real) {
    sum * sum <= n * squares
  }

  /** One step of the Cauchy inequality for sums. */
  lemma SquareOfDifference(s: real, n: real, x: real)
    ensures (s - n * x) * (s - n * x) == s * s - n * (2.0 * (s * x)) + n * (n * (x * x))
  {
    var y := n * x;
    assert (s - y) * (s - y) == s * s - 2.0 * (s * y) + y * y;
    assert s * y == n * (s * x);
    assert y * y == n * (n * (x * x));
  }

  lemma CauchyStep(s: real, q: real, n: real, x: real)
    requires n >= 0.0 && MeanSquareBound(s, n, q) && q >= 0.0 && (n == 0.0 ==> s == 0.0)
    ensures MeanSquareBound(s + x, n + 1.0, q + x * x)
  {
    if n > 0.0 {
      SquareIsPositive(s - n * x);
      SquareOfDifference(s, n, x);
      assert n * (q + n * (x * x)) == n * q + n * (n * (x * x));
      DivideOut(n, 2.0 * (s * x), q + n * (x * x));
      assert (s + x) * (s + x) == s * s + 2.0 * (s * x) + x * x;
      assert (n + 1.0) * (q + x * x) == n * q + n * (x * x) + q + x * x;
    } else {
      assert (n + 1.0) * (q + x * x) == q + x * x;
    }
  }

  lemma DivideOut(n: real, a: real, b: real)
    requires n > 0.0 && n * a <= n * b
    ensures a <= b
  {
    assert n * a / n == a && n * b / n == b;
  }

  lemma SquareOfAbs(x: real)
    ensures Abs(x) * Abs(x) == x * x
  {
  }

  lemma {:induction false} Cauchy(rows: seq<Row>)
    ensures MeanSquareBound(Sum(rows, DISTANCE), |rows| as real, Sum(rows, SQUARE))
  {
    if rows != [] {
      var front, last := rows[..|rows| - 1], rows[|rows| - 1];
      Cauchy(front);
      SumsAreSmall(front);
      SquareOfAbs(Gap(last));
      CauchyStep(Sum(front, DISTANCE), Sum(front, SQUARE), |front| as real, DISTANCE(last));
    }
  }

  lemma UnitQuotient(a: real, n: real)
    requires n > 0.0 && 0.0 <= a <= n
    ensures 0.0 <= a / n <= 1.0
  {
  }

  lemma SquareOfQuotient(e: real, a: real, q: real, n: real)
    requires n > 0.0 && 0.0 <= e <= a / n && MeanSquareBound(a, n, q)
    ensures e * e <= q / n
  {
    var r := a / n;
    assert a == r * n;
    assert e * e <= r * r;
    assert (r * r * n) * n <= q * n;
    DivideOut(n, r * r * n, q);
    assert n * (r * r) <= n * (q / n);
    DivideOut(n, r * r, q / n);
  }

  lemma ScoreBounds(e: real, d: real, q: real, n: real)
    requires n > 0.0 && 0.0 <= e <= d / n && 0.0 <= d <= n && 0.0 <= q <= n && MeanSquareBound(d, n, q)
    ensures 0.0 <= e <= 1.0 && 0.0 <= q / n <= 1.0 && e * e <= q / n
  {
    UnitQuotient(d, n);
    UnitQuotient(q, n);
    SquareOfQuotient(e, d, q, n);
  }

  /** For any rows and any bin count: both scores lie in [0, 1], and the calibration error squared is at most Brier. */
  lemma ScoresAreBounded(rows: seq<Row>, bins: int)
    ensures var ece, brier := CalibrationError(rows, bins), Brier(rows);
            0.0 <= ece <= 1.0 && 0.0 <= brier <= 1.0 && ece * ece <= brier
  {
    var bin, k, n := BinBy(BinCount(bins)), BinCount(bins), |rows| as real;
    if rows == [] {
      EmptyHasNoError(bin, k);
    } else {
      ErrorIsBelowMean(rows, bin, k);
      SumsAreSmall(rows);
      Cauchy(rows);
      ScoreBounds(ErrorOf(rows, bin, k), Sum(rows, DISTANCE), Sum(rows, SQUARE), n);
    }
  }

  lemma {:induction false} EmptyHasNoError(bin: Row -> nat, j: nat)
    ensures ErrorOf([], bin, j) == 0.0
  {
    if j > 0 { EmptyHasNoError(bin, j - 1); }
  }

  /** The sum over the first j bins of the distance between the confidences and the truths they hold. */
  function BinGaps(rows: seq<Row>, bin: Row -> nat, j: nat): real {
    if j == 0 then 0.0
    else
      var bucket := Bucket(rows, bin, j - 1);
      BinGaps(rows, bin, j - 1) + Abs(Sum(bucket, CONFIDENCE) - Sum(bucket, TRUTH))
  }

  predicate Times(e: real, n: real, product: real) { e * n == product }

  lemma ScaledBack(e: real, g: real, gap: real, n: real)
    requires n > 0.0 && Times(e, n, g)
    ensures Times(e + gap / n, n, g + gap)
  {
    TimesQuotient(gap, n);
    assert (e + gap / n) * n == e * n + gap / n * n;
  }

  lemma ShareIs(bucket: seq<Row>, n: nat)
    requires 0 < n
    ensures Share(bucket, n) == Abs(Sum(bucket, CONFIDENCE) - Sum(bucket, TRUTH)) / n as real
  {
  }

  lemma {:induction false} ErrorIsGaps(rows: seq<Row>, bin: Row -> nat, j: nat)
    requires rows != []
    ensures Times(ErrorOf(rows, bin, j), |rows| as real, BinGaps(rows, bin, j))
  {
    if j > 0 {
      ErrorIsGaps(rows, bin, j - 1);
      var bucket := Bucket(rows, bin, j - 1);
      ShareIs(bucket, |rows|);
      ScaledBack(ErrorOf(rows, bin, j - 1), BinGaps(rows, bin, j - 1),
                 Abs(Sum(bucket, CONFIDENCE) - Sum(bucket, TRUTH)), |rows| as real);
    }
  }

  /** For n rows and k bins, at least one: n times the calibration error is the sum of what the k bins are off. */
  lemma CalibrationErrorIs(rows: seq<Row>, bins: int)
    ensures var k := if bins >= 1 then bins else 1;
            Times(CalibrationError(rows, bins), |rows| as real, BinGaps(rows, BinBy(k), k))
  {
    var k: nat := if bins >= 1 then bins else 1;
    if rows == [] {
      EmptyHasNoGaps(BinBy(k), k);
    } else {
      ErrorIsGaps(rows, BinBy(k), k);
    }
  }

  lemma {:induction false} EmptyHasNoGaps(bin: Row -> nat, j: nat)
    ensures BinGaps([], bin, j) == 0.0
  {
    if j > 0 { EmptyHasNoGaps(bin, j - 1); }
  }

  /** One row more adds the square of its own error. */
  lemma BrierAppended(rows: seq<Row>, row: Row)
    ensures var p, y := Clamp(row.confidence), if row.actual then 1.0 else 0.0;
            Brier(rows + [row]) * (|rows| + 1) as real == Brier(rows) * |rows| as real + (p - y) * (p - y)
    ensures Brier([]) == 0.0
  {
    var n, after := |rows| as real, rows + [row];
    SumAppended(rows, row, SQUARE);
    TimesQuotient(Sum(after, SQUARE), n + 1.0);
    if rows != [] { TimesQuotient(Sum(rows, SQUARE), n); }
  }

  lemma TimesQuotient(a: real, n: real)
    requires n > 0.0
    ensures a / n * n == a
  {
  }

  // ----- entropy -----

  /** The binary entropy of a clamped confidence, for a given logarithm. */
  function Entropy(confidence: real, log2: real -> real): real {
    var p := Clamp(confidence);
    if p == 0.0 || p == 1.0 then 0.0 else -(p * log2(p) + (1.0 - p) * log2(1.0 - p))
  }

  function EntropyBy(log2: real -> real): Row -> real {
    (row: Row) => Entropy(row.confidence, log2)
  }

  function MeanEntropy(rows: seq<Row>, log2: real -> real): real {
    if rows == [] then 0.0 else Sum(rows, EntropyBy(log2)) / |rows| as real
  }

  predicate AddsUp(log2: real -> real, x: real, y: real) {
    x > 0.0 && y > 0.0 ==> log2(x * y) == log2(x) + log2(y)
  }

  predicate BelowTangent(log2: real -> real, slope: real, x: real) {
    x > 0.0 ==> log2(x) <= slope * (x - 1.0)
  }

  /** All that is needed of the binary logarithm; its slope at 1 is the inverse of the natural logarithm of 2. */
  ghost predicate IsLog2(log2: real -> real, slope: real) {
    log2(2.0) == 1.0 && (forall x, y :: AddsUp(log2, x, y)) && forall x :: BelowTangent(log2, slope, x)
  }

  /** Twice as much is one more. */
  lemma LogOfDouble(c: real, d: real, log2: real -> real, slope: real)
    requires 0.0 < c && d == 2.0 * c && IsLog2(log2, slope)
    ensures log2(d) == 1.0 + log2(c)
  {
    assert AddsUp(log2, 2.0, c);
  }

  lemma LogOfInverse(x: real, y: real, log2: real -> real, slope: real)
    requires IsLog2(log2, slope) && x > 0.0 && y > 0.0 && x * y == 1.0
    ensures log2(y) == -log2(x)
  {
    assert AddsUp(log2, x, y) && AddsUp(log2, 1.0, 1.0);
    assert log2(x * y) == log2(1.0) == 0.0;
  }

  /** One half of the bound: the tangent at 1, taken at 1 / 2c. */
  lemma HalfEntropy(c: real, log2: real -> real, slope: real)
    requires 0.0 < c <= 1.0 && IsLog2(log2, slope)
    ensures log2(c) <= 0.0 && c * (-1.0 - log2(c)) <= slope * (0.5 - c)
  {
    var d := 2.0 * c;
    var x := 1.0 / d;
    LogOfDouble(c, d, log2, slope);
    LogOfInverse(d, x, log2, slope);
    assert BelowTangent(log2, slope, x) && BelowTangent(log2, slope, 2.0) && BelowTangent(log2, slope, c);
    ScaledTangent(c, x, -1.0 - log2(c), slope);
    NotPositive(slope, c - 1.0);
  }

  lemma ScaledTangent(c: real, x: real, y: real, slope: real)
    requires 0.0 < c && 2.0 * c * x == 1.0 && y <= slope * (x - 1.0)
    ensures c * y <= slope * (0.5 - c)
  {
    NotPositive(c, y - slope * (x - 1.0));
    assert c * (slope * (x - 1.0)) == slope * (c * x - c);
  }

  lemma NotPositive(a: real, b: real)
    requires 0.0 <= a && b <= 0.0
    ensures a * b <= 0.0
  {
  }

  lemma EntropyIsUnit(confidence: real, log2: real -> real, slope: real)
    requires IsLog2(log2, slope)
    ensures 0.0 <= Entropy(confidence, log2) <= 1.0
  {
    var p := Clamp(confidence);
    if 0.0 < p < 1.0 {
      HalfEntropy(p, log2, slope);
      HalfEntropy(1.0 - p, log2, slope);
      NotPositive(p, log2(p));
      NotPositive(1.0 - p, log2(1.0 - p));
      assert slope * (0.5 - p) + slope * (0.5 - (1.0 - p)) == 0.0;
    }
  }

  lemma {:induction false} EntropySumIsSmall(rows: seq<Row>, log2: real -> real, slope: real)
    requires IsLog2(log2, slope)
    ensures 0.0 <= Sum(rows, EntropyBy(log2)) <= |rows| as real
  {
    if rows != [] {
      EntropySumIsSmall(rows[..|rows| - 1], log2, slope);
      EntropyIsUnit(rows[|rows| - 1].confidence, log2, slope);
    }
  }

  /** With the binary logarithm, the mean entropy lies in [0, 1], for any rows. */
  lemma MeanEntropyIsUnit(rows: seq<Row>, log2: real -> real, slope: real)
    requires IsLog2(log2, slope)
    ensures 0.0 <= MeanEntropy(rows, log2) <= 1.0
  {
    if rows != [] {
      EntropySumIsSmall(rows, log2, slope);
      UnitQuotient(Sum(rows, EntropyBy(log2)), |rows| as real);
    }
  }

  /** The expected number of bits: symmetric, 1 for an even chance, and 0 for a certainty. */
  lemma EntropyIsExpectedBits(p: real, log2: real -> real, slope: real)
    requires IsLog2(log2, slope)
    ensures 0.0 < p < 1.0 ==> Entropy(p, log2) == p * log2(1.0 / p) + (1.0 - p) * log2(1.0 / (1.0 - p))
    ensures 0.0 < p < 1.0 ==> Entropy(1.0 - p, log2) == Entropy(p, log2)
    ensures p <= 0.0 || 1.0 <= p ==> Entropy(p, log2) == 0.0
    ensures Entropy(0.5, log2) == 1.0
  {
    if 0.0 < p < 1.0 {
      LogOfInverse(p, 1.0 / p, log2, slope);
      LogOfInverse(1.0 - p, 1.0 / (1.0 - p), log2, slope);
    }
    LogOfInverse(2.0, 0.5, log2, slope);
  }

  /** One row more adds its own entropy. */
  lemma MeanEntropyAppended(rows: seq<Row>, row: Row, log2: real -> real)
    ensures MeanEntropy(rows + [row], log2) * (|rows| + 1) as real
         == MeanEntropy(rows, log2) * |rows| as real + Entropy(row.confidence, log2)
    ensures MeanEntropy([], log2) == 0.0
  {
    var n, after := |rows| as real, rows + [row];
    SumAppended(rows, row, EntropyBy(log2));
    TimesQuotient(Sum(after, EntropyBy(log2)), n + 1.0);
    if rows != [] { TimesQuotient(Sum(rows, EntropyBy(log2)), n); }
  }

  // ----- precision, recall, F1 -----

  const TRUE_POSITIVE: Row -> bool := (row: Row) => row.predicted && row.actual
  const FALSE_POSITIVE: Row -> bool := (row: Row) => row.predicted && !row.actual
  const TRUE_NEGATIVE: Row -> bool := (row: Row) => !row.predicted && !row.actual
  const FALSE_NEGATIVE: Row -> bool := (row: Row) => !row.predicted && row.actual

  /** Every row is counted in exactly one of the four cells. */
  lemma {:induction false} CellsAddUp(rows: seq<Row>)
    ensures Count(rows, TRUE_POSITIVE) + Count(rows, FALSE_POSITIVE) + Count(rows, TRUE_NEGATIVE)
            + Count(rows, FALSE_NEGATIVE) == |rows|
  {
    if rows != [] { CellsAddUp(rows[..|rows| - 1]); }
  }

  function Ratio(part: nat, rest: nat): (r: real)
    ensures 0.0 <= r <= 1.0
    ensures r == 0.0 <==> part == 0
  {
    if part + rest == 0 then 0.0
    else
      UnitQuotient(part as real, (part + rest) as real);
      part as real / (part + rest) as real
  }

  function Harmonic(p: real, r: real): real {
    if p + r == 0.0 then 0.0 else 2.0 * p * r / (p + r)
  }

  lemma HarmonicIsBetween(p: real, r: real)
    requires 0.0 <= p <= r
    ensures p <= Harmonic(p, r) <= r && Harmonic(r, p) == Harmonic(p, r)
  {
    if p + r > 0.0 {
      var f := 2.0 * p * r / (p + r);
      assert (p + r) * f == 2.0 * p * r;
      ProductIsPositive(p, r - p);
      ProductIsPositive(r, r - p);
      assert p * (r - p) == p * r - p * p && r * (r - p) == r * r - r * p;
      assert (p + r) * p == p * p + p * r && (p + r) * r == p * r + r * r && 2.0 * p * r == p * r + p * r;
      DivideOut(p + r, p, f);
      DivideOut(p + r, f, r);
      assert 2.0 * p * r == 2.0 * r * p;
    }
  }

  datatype Metrics = Metrics(
    count: nat, tp: nat, fp: nat, tn: nat, fn: nat, precision: real, recall: real, f1: real, brier: real, ece: real,
    meanEntropy: real)

  function MetricsOf(rows: seq<Row>, bins: int, log2: real -> real): Metrics {
    var tp, fp := Count(rows, TRUE_POSITIVE), Count(rows, FALSE_POSITIVE);
    var tn, fn := Count(rows, TRUE_NEGATIVE), Count(rows, FALSE_NEGATIVE);
    var precision, recall := Ratio(tp, fp), Ratio(tp, fn);
    Metrics(|rows|, tp, fp, tn, fn, precision, recall, Harmonic(precision, recall), Brier(rows),
            CalibrationError(rows, bins), MeanEntropy(rows, log2))
  }

  /** The positions of the rows with this prediction and this truth. */
  function Cell(rows: seq<Row>, predicted: bool, actual: bool): set<int> {
    set i | 0 <= i < |rows| && rows[i].predicted == predicted && rows[i].actual == actual
  }

  lemma CellAppended(rows: seq<Row>, row: Row, predicted: bool, actual: bool)
    ensures |Cell(rows + [row], predicted, actual)|
         == |Cell(rows, predicted, actual)| + if row.predicted == predicted && row.actual == actual then 1 else 0
  {
    var here := row.predicted == predicted && row.actual == actual;
    assert Cell(rows + [row], predicted, actual)
        == if here then Cell(rows, predicted, actual) + {|rows| as int} else Cell(rows, predicted, actual);
  }

  lemma {:induction false} CellsAre(rows: seq<Row>)
    ensures Count(rows, TRUE_POSITIVE) == |Cell(rows, true, true)|
    ensures Count(rows, FALSE_POSITIVE) == |Cell(rows, true, false)|
    ensures Count(rows, TRUE_NEGATIVE) == |Cell(rows, false, false)|
    ensures Count(rows, FALSE_NEGATIVE) == |Cell(rows, false, true)|
  {
    if rows != [] {
      var front, last := rows[..|rows| - 1], rows[|rows| - 1];
      CellsAre(front);
      assert front + [last] == rows;
      CellAppended(front, last, true, true);
      CellAppended(front, last, true, false);
      CellAppended(front, last, false, false);
      CellAppended(front, last, false, true);
    }
  }

  lemma QuotientIs(part: nat, rest: nat)
    ensures IsQuotient(Ratio(part, rest), part, part + rest)
  {
  }

  /** The four cells, by what was predicted and what was true. */
  lemma CellsOfMetrics(rows: seq<Row>, bins: int, log2: real -> real)
    ensures var m := MetricsOf(rows, bins, log2);
            && m.count == |rows| && m.tp == |Cell(rows, true, true)| && m.fp == |Cell(rows, true, false)|
            && m.tn == |Cell(rows, false, false)| && m.fn == |Cell(rows, false, true)|
            && m.brier == Brier(rows) && m.ece == CalibrationError(rows, bins)
            && m.meanEntropy == MeanEntropy(rows, log2)
  {
    CellsAre(rows);
  }

  predicate IsQuotient(q: real, part: nat, whole: nat) {
    q * whole as real == part as real && (whole == 0 ==> q == 0.0)
  }

  /**
   Precision is the part of the positive predictions, recall the part of the positive
   rows, that was rightly called positive; F1 is their harmonic mean.
   */
  lemma RatiosOfMetrics(rows: seq<Row>, bins: int, log2: real -> real)
    ensures var m := MetricsOf(rows, bins, log2);
            && IsQuotient(m.precision, m.tp, m.tp + m.fp) && IsQuotient(m.recall, m.tp, m.tp + m.fn)
            && m.f1 * (m.precision + m.recall) == 2.0 * (m.precision * m.recall)
  {
    var tp, fp, fn := Count(rows, TRUE_POSITIVE), Count(rows, FALSE_POSITIVE), Count(rows, FALSE_NEGATIVE);
    QuotientIs(tp, fp);
    QuotientIs(tp, fn);
    HarmonicIs(Ratio(tp, fp), Ratio(tp, fn));
  }

  lemma HarmonicIs(p: real, r: real)
    requires 0.0 <= p && 0.0 <= r
    ensures Harmonic(p, r) * (p + r) == 2.0 * (p * r)
  {
    assert 2.0 * p * r == 2.0 * (p * r);
    if p + r != 0.0 { TimesQuotient(2.0 * p * r, p + r); }
  }

  /** F1 lies between precision and recall, and is zero exactly when nothing positive was predicted rightly. */
  lemma F1IsBetween(rows: seq<Row>, bins: int, log2: real -> real)
    ensures var m := MetricsOf(rows, bins, log2);
            && (m.precision <= m.f1 <= m.recall || m.recall <= m.f1 <= m.precision)
            && (m.f1 == 0.0 <==> m.tp == 0)
  {
    var m := MetricsOf(rows, bins, log2);
    if m.precision <= m.recall {
      HarmonicIsBetween(m.precision, m.recall);
    } else {
      HarmonicIsBetween(m.recall, m.precision);
    }
  }

  // ----- the computation -----

  method FillBins(rows: seq<Row>, k: nat) returns (bins: seq<seq<Row>>)
    requires 0 < k
    ensures |bins| == k && forall b :: 0 <= b < k ==> bins[b] == Bucket(rows, BinBy(k), b)
  {
    bins := seq(k, _ => []);
    var i := 0;
    while i < |rows|
      invariant 0 <= i <= |rows| && |bins| == k
      invariant forall b :: 0 <= b < k ==> bins[b] == Bucket(rows[..i], BinBy(k), b)
    {
      assert rows[..i + 1] == rows[..i] + [rows[i]];
      forall b | 0 <= b < k
        ensures Bucket(rows[..i + 1], BinBy(k), b)
             == Bucket(rows[..i], BinBy(k), b) + if BinOf(rows[i], k) == b then [rows[i]] else []
      {
        BucketAppended(rows[..i], rows[i], BinBy(k), b);
      }
      var index := BinOf(rows[i], k);
      bins := bins[index := bins[index] + [rows[i]]];
      i := i + 1;
    }
    assert rows[..i] == rows;
  }

  method SumOf(rows: seq<Row>, value: Row -> real) returns (total: real)
    ensures total == Sum(rows, value)
  {
    total := 0.0;
    var i := 0;
    while i < |rows|
      invariant 0 <= i <= |rows| && total == Sum(rows[..i], value)
    {
      assert rows[..i + 1] == rows[..i] + [rows[i]];
      SumAppended(rows[..i], rows[i], value);
      total := total + value(rows[i]);
      i := i + 1;
    }
    assert rows[..i] == rows;
  }

  method ErrorOver(rows: seq<Row>, buckets: seq<seq<Row>>) returns (ece: real)
    requires buckets != [] && forall b :: 0 <= b < |buckets| ==> buckets[b] == Bucket(rows, BinBy(|buckets|), b)
    ensures ece == ErrorOf(rows, BinBy(|buckets|), |buckets|)
  {
    ece := 0.0;
    var b := 0;
    while b < |buckets|
      invariant 0 <= b <= |buckets| && ece == ErrorOf(rows, BinBy(|buckets|), b)
    {
      var bucket := buckets[b];
      if bucket != [] && rows != [] {
        var share := ShareOf(bucket, |rows|);
        ece := ece + share;
      }
      b := b + 1;
    }
  }

  method ShareOf(bucket: seq<Row>, n: nat) returns (share: real)
    requires bucket != [] && 0 < n
    ensures share == Share(bucket, n)
  {
    var confidence := SumOf(bucket, CONFIDENCE);
    var truth := SumOf(bucket, TRUTH);
    var size := |bucket| as real;
    share := size / n as real * Abs(confidence / size - truth / size);
  }

  method ComputeMetrics(rows: seq<Row>, bins: int, log2: real -> real) returns (m: Metrics)
    ensures m == MetricsOf(rows, bins, log2)
  {
    var tp, fp := Count(rows, TRUE_POSITIVE), Count(rows, FALSE_POSITIVE);
    var tn, fn := Count(rows, TRUE_NEGATIVE), Count(rows, FALSE_NEGATIVE);
    var precision, recall := Ratio(tp, fp), Ratio(tp, fn);
    var f1 := Harmonic(precision, recall);
    var brier := 0.0;
    if rows != [] {
      var squares := SumOf(rows, SQUARE);
      brier := squares / |rows| as real;
    }
    var buckets := FillBins(rows, BinCount(bins));
    var ece := ErrorOver(rows, buckets);
    var entropy := 0.0;
    if rows != [] {
      var entropies := SumOf(rows, EntropyBy(log2));
      entropy := entropies / |rows| as real;
    }
    m := Metrics(|rows|, tp, fp, tn, fn, precision, recall, f1, brier, ece, entropy);
  }
}
