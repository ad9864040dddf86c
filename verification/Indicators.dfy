/**
  The indicator series fed to the kernel (src/backtest/vectorized_mr.py): sliding-sum mean
  and deviation, z-scores and average true range, each tied to its direct definition.
 */
module Indicators {
  import opened Reals
  import opened Metrics
  import opened Kernel
  import opened KernelProofs

  // ---------- direct definitions ----------

  function Sum(c: seq<real>, lo: nat, hi: nat): real
    requires lo <= hi <= |c|
    decreases hi
  {
    if lo == hi then 0.0 else Sum(c, lo, hi - 1) + c[hi - 1]
  }

  function Square(x: real): real { x * x }

  function SumSq(c: seq<real>, lo: nat, hi: nat): real
    requires lo <= hi <= |c|
    decreases hi
  {
    if lo == hi then 0.0 else SumSq(c, lo, hi - 1) + Square(c[hi - 1])
  }

  function SumSqDev(c: seq<real>, lo: nat, hi: nat, mu: real): real
    requires lo <= hi <= |c|
    decreases hi
  {
    if lo == hi then 0.0 else SumSqDev(c, lo, hi - 1, mu) + Square(c[hi - 1] - mu)
  }

  /** Mean of the `period` closes ending at `i`; zero until there are that many. */
  function MeanAt(c: seq<real>, period: int, i: nat): real
    requires i < |c|
  {
    if period <= 0 || i < period - 1 then 0.0 else Sum(c, i + 1 - period, i + 1) / period as real
  }

  /** Their population variance: the mean squared deviation from that mean. */
  function VarianceAt(c: seq<real>, period: int, i: nat): real
    requires i < |c|
  {
    if period <= 0 || i < period - 1 then 0.0
    else SumSqDev(c, i + 1 - period, i + 1, MeanAt(c, period, i)) / period as real
  }

  // ---------- the sliding form computes the direct one ----------

  lemma {:induction false} DropFirst(c: seq<real>, lo: nat, hi: nat)
    requires lo < hi <= |c|
    ensures Sum(c, lo, hi) == c[lo] + Sum(c, lo + 1, hi)
    ensures SumSq(c, lo, hi) == Square(c[lo]) + SumSq(c, lo + 1, hi)
    decreases hi
  {
    if lo + 1 < hi {
      DropFirst(c, lo, hi - 1);
    }
  }

  /** sum x^2 - 2 mu sum x + n mu^2 */
  function Expanded(n: real, s: real, q: real, mu: real): real { q - 2.0 * mu * s + n * mu * mu }

  /** The squared deviations from `mu`, expanded. */
  lemma {:induction false} ExpandDeviations(c: seq<real>, lo: nat, hi: nat, mu: real)
    requires lo <= hi <= |c|
    ensures SumSqDev(c, lo, hi, mu) == Expanded((hi - lo) as real, Sum(c, lo, hi), SumSq(c, lo, hi), mu)
    ensures SumSqDev(c, lo, hi, mu) >= 0.0
    decreases hi
  {
    hide Expanded, Square;
    if lo == hi {
      ExpandNone(mu);
    } else {
      ExpandDeviations(c, lo, hi - 1, mu);
      var n := (hi - 1 - lo) as real;
      ExpandOne(Sum(c, lo, hi - 1), SumSq(c, lo, hi - 1), SumSqDev(c, lo, hi - 1, mu), n, c[hi - 1], mu);
      assert n + 1.0 == (hi - lo) as real;
    }
  }

  lemma ExpandNone(mu: real)
    ensures Expanded(0.0, 0.0, 0.0, mu) == 0.0
  {
  }

  lemma ExpandOne(s: real, q: real, d: real, n: real, x: real, mu: real)
    requires d == Expanded(n, s, q, mu) && d >= 0.0
    ensures d + Square(x - mu) == Expanded(n + 1.0, s + x, q + Square(x), mu)
    ensures d + Square(x - mu) >= 0.0
  {
    SquareIsNonNegative(x - mu);
    assert (x - mu) * (x - mu) == x * x - 2.0 * mu * x + mu * mu;
    assert 2.0 * mu * (s + x) == 2.0 * mu * s + 2.0 * mu * x;
    assert (n + 1.0) * mu * mu == n * mu * mu + mu * mu;
  }

  lemma SquareIsNonNegative(x: real)
    ensures x * x >= 0.0
  {
  }

  /** The mean-of-squares form of the variance is the direct one, so it is never negative
      and the clamp at zero never fires; equivalently n * sum x^2 >= (sum x)^2. */
  lemma SlidingVariance(c: seq<real>, lo: nat, hi: nat)
    requires lo < hi <= |c|
    ensures var n := (hi - lo) as real; var mean := Sum(c, lo, hi) / n;
      SumSq(c, lo, hi) / n - mean * mean == SumSqDev(c, lo, hi, mean) / n >= 0.0
    ensures (hi - lo) as real * SumSq(c, lo, hi) >= Sum(c, lo, hi) * Sum(c, lo, hi)
  {
    hide Sum, SumSq, SumSqDev;
    var n, s, q := (hi - lo) as real, Sum(c, lo, hi), SumSq(c, lo, hi);
    var mean := s / n;
    var d := SumSqDev(c, lo, hi, mean);
    ExpandDeviations(c, lo, hi, mean);
    assert mean * n == s;
    VarianceAlgebra(n, s, q, mean, d);
  }

  lemma VarianceAlgebra(n: real, s: real, q: real, mean: real, d: real)
    requires n > 0.0 && mean * n == s && d >= 0.0
    requires d == q - 2.0 * mean * s + n * mean * mean
    ensures q / n - mean * mean == d / n >= 0.0
    ensures n * q >= s * s
  {
    assert n * mean * mean == mean * s by { assert n * mean == s; }
    assert d == q - mean * s;
    var v, w := q / n, d / n;
    assert v * n == q && w * n == d;
    assert mean * s == mean * mean * n by { assert mean * (mean * n) == mean * mean * n; }
    assert (v - mean * mean - w) * n == 0.0;
    SignOfProduct(v - mean * mean - w, n);
    assert n * (mean * s) == s * s by { assert n * (mean * s) == (mean * n) * s; }
    assert n * d >= 0.0;
    assert n * d == n * q - n * (mean * s);
  }

  /** Where the window ending just before `i` starts. */
  function From(period: int, i: nat): (lo: nat)
    requires period > 0
    ensures lo <= i
  {
    if i < period then 0 else i - period
  }

  /** Taking in close `i` and letting go of the one that leaves moves both sums one window on. */
  lemma Slide(c: seq<real>, period: int, i: nat)
    requires period > 0 && i < |c|
    ensures var out := if i >= period then c[i - period] else 0.0;
      && Sum(c, From(period, i + 1), i + 1) == Sum(c, From(period, i), i) + c[i] - out
      && SumSq(c, From(period, i + 1), i + 1) == SumSq(c, From(period, i), i) + c[i] * c[i] - out * out
  {
    if i >= period {
      DropFirst(c, i - period, i + 1);
    }
  }

  function DeviationAt(c: seq<real>, period: int, root: real -> real, i: nat): real
    requires i < |c|
  {
    if period <= 0 || i < period - 1 then 0.0 else root(VarianceAt(c, period, i))
  }

  /** One pass with running sums; `root` is the square root applied to the variance. */
  method PrecomputeSmaStd(closes: seq<real>, period: int, root: real -> real)
    returns (sma: array<real>, std: array<real>)
    ensures fresh(sma) && fresh(std) && sma.Length == std.Length == |closes|
    ensures forall i :: 0 <= i < |closes| ==> sma[i] == MeanAt(closes, period, i)
    ensures forall i :: 0 <= i < |closes| ==> std[i] == DeviationAt(closes, period, root, i)
  {
    hide Sum, SumSq, SumSqDev;
    var n := |closes|;
    sma := new real[n](_ => 0.0);
    std := new real[n](_ => 0.0);
    if period <= 0 || n < period {
      return;
    }
    var sum, sumSq := 0.0, 0.0;
    EmptySums(closes);
    for i := 0 to n
      invariant sum == Sum(closes, From(period, i), i) && sumSq == SumSq(closes, From(period, i), i)
      invariant forall j :: 0 <= j < i ==> sma[j] == MeanAt(closes, period, j)
      invariant forall j :: 0 <= j < i ==> std[j] == DeviationAt(closes, period, root, j)
      invariant forall j :: i <= j < n ==> sma[j] == 0.0 && std[j] == 0.0
    {
      Slide(closes, period, i);
      var c := closes[i];
      sum := sum + c;
      sumSq := sumSq + c * c;
      if i >= period {
        var oldest := closes[i - period];
        sum := sum - oldest;
        sumSq := sumSq - oldest * oldest;
      }
      if i >= period - 1 {
        var mean, variance := WindowStatistics(closes, period, i, sum, sumSq);
        sma[i] := mean;
        std[i] := root(variance);
      }
    }
  }

  lemma EmptySums(c: seq<real>)
    ensures Sum(c, 0, 0) == 0.0 == SumSq(c, 0, 0)
  {
  }

  /** Mean and clamped variance of a full window from its running sums. */
  method WindowStatistics(closes: seq<real>, period: int, i: nat, sum: real, sumSq: real)
    returns (mean: real, variance: real)
    requires 0 < period <= i + 1 <= |closes|
    requires sum == Sum(closes, i + 1 - period, i + 1) && sumSq == SumSq(closes, i + 1 - period, i + 1)
    ensures mean == MeanAt(closes, period, i) && variance == VarianceAt(closes, period, i)
  {
    hide Sum, SumSq, SumSqDev;
    mean := sum / period as real;
    variance := sumSq / period as real - mean * mean;
    SlidingVariance(closes, i + 1 - period, i + 1);
    if variance < 0.0 {
      variance := 0.0;
    }
  }

  // ---------- the Sharpe ratio of a run ----------

  /** The bar returns of the first `k` closes, leaving out those from nonpositive equity. */
  function Returns(u: Setup, k: nat): seq<real>
    requires u.start + k <= Length(u)
  {
    if k <= 1 then []
    else if EquityAt(u, k - 2) > 0.0
    then Returns(u, k - 1) + [(EquityAt(u, k - 1) - EquityAt(u, k - 2)) / EquityAt(u, k - 2)]
    else Returns(u, k - 1)
  }

  lemma {:induction false} SumsOfAppend(c: seq<real>, x: real, hi: nat)
    requires hi <= |c|
    ensures Sum(c + [x], 0, hi) == Sum(c, 0, hi) && SumSq(c + [x], 0, hi) == SumSq(c, 0, hi)
    decreases hi
  {
    if hi > 0 {
      SumsOfAppend(c, x, hi - 1);
    }
  }

  /** The running sums of the loop are the sums of the bar returns. */
  lemma {:induction false} ReturnsAreSummed(u: Setup, k: nat)
    requires u.start + k <= Length(u)
    ensures var t, c := StatsAfter(u, k), Returns(u, k);
      && t.retSum == Sum(c, 0, |c|) && t.retSqSum == SumSq(c, 0, |c|) && t.retCount == |c|
      && t.prevEquity == if k == 0 then u.exec.initialEquity else EquityAt(u, k - 1)
  {
    hide After, EquityAt, Drop;
    if k > 0 {
      ReturnsAreSummed(u, k - 1);
      if k > 1 && EquityAt(u, k - 2) > 0.0 {
        var c := Returns(u, k - 1);
        SumsOfAppend(c, (EquityAt(u, k - 1) - EquityAt(u, k - 2)) / EquityAt(u, k - 2), |c|);
      }
    }
  }

  function MeanOf(c: seq<real>): real
    requires |c| > 0
  {
    Sum(c, 0, |c|) / |c| as real
  }

  /** Population variance. */
  function VarianceOf(c: seq<real>): real
    requires |c| > 0
  {
    SumSqDev(c, 0, |c|, MeanOf(c)) / |c| as real
  }

  lemma ReturnStatistics(c: seq<real>, sum: real, sumSq: real)
    requires |c| > 0 && sum == Sum(c, 0, |c|) && sumSq == SumSq(c, 0, |c|)
    ensures MeanReturn(sum, |c|) == MeanOf(c) && ReturnVariance(sum, sumSq, |c|) == VarianceOf(c)
  {
    hide Sum, SumSq, SumSqDev;
    SlidingVariance(c, 0, |c|);
  }

  /** With at least two bar returns the reported ratio, times the root of their population
      variance, is their mean annualized, and the clamp on the variance never fires; with fewer,
      or without any deviation, it is zero. */
  lemma SharpeIsMeanOverDeviation(u: Setup, n: nat, root: real -> real, annualize: real)
    requires u.start + n <= Length(u) && n >= Warmup(u) + 2
    ensures var c, sharpe := Returns(u, n), Reported(u, n, root, annualize).sharpe;
      if |c| > 1 && root(VarianceOf(c)) > 0.0 then sharpe * root(VarianceOf(c)) == MeanOf(c) * annualize else sharpe == 0.0
  {
    hide After, StatsAfter, Returns, MeanOf, VarianceOf, Sum, SumSq, TotalReturn, ProfitFactor, MeanReturn, ReturnVariance;
    var c, t := Returns(u, n), StatsAfter(u, n);
    ReturnsAreSummed(u, n);
    if |c| > 1 {
      ReturnStatistics(c, t.retSum, t.retSqSum);
      if root(VarianceOf(c)) > 0.0 {
        RatioTimesDeviation(MeanOf(c), root(VarianceOf(c)), annualize);
      }
    }
  }

  lemma RatioTimesDeviation(mean: real, std: real, annualize: real)
    requires std > 0.0
    ensures mean / std * annualize * std == mean * annualize
  {
    var q := mean / std;
    assert q * std == mean;
    assert q * annualize * std == q * std * annualize;
  }

  // ---------- z-scores and average true range ----------

  function ZScoreAt(c: seq<real>, period: int, root: real -> real, i: nat): real
    requires i < |c|
  {
    var std := DeviationAt(c, period, root, i);
    if std > 0.0 then (c[i] - MeanAt(c, period, i)) / std else 0.0
  }

  function Total(s: seq<real>): real { if |s| == 0 then 0.0 else Total(s[..|s| - 1]) + s[|s| - 1] }

  lemma {:induction false} SumIsTotal(c: seq<real>, lo: nat, hi: nat)
    requires lo <= hi <= |c|
    ensures Sum(c, lo, hi) == Total(c[lo..hi])
    decreases hi
  {
    if lo < hi {
      SumIsTotal(c, lo, hi - 1);
      assert c[lo..hi][..hi - 1 - lo] == c[lo..hi - 1];
    }
  }

  /** A full window: its mean times its length is the total of its closes, and the score times
      the deviation is how far the last close lies above the mean. */
  lemma ScoreInTerms(c: seq<real>, period: int, root: real -> real, i: nat)
    requires 0 < period <= i + 1 <= |c|
    ensures var mean, std := MeanAt(c, period, i), root(VarianceAt(c, period, i));
      && mean * period as real == Total(c[i + 1 - period..i + 1])
      && VarianceAt(c, period, i) * period as real == SumSqDev(c, i + 1 - period, i + 1, mean)
      && DeviationAt(c, period, root, i) == std
      && (std > 0.0 ==> ZScoreAt(c, period, root, i) * std == c[i] - mean)
      && (std <= 0.0 ==> ZScoreAt(c, period, root, i) == 0.0)
  {
    hide Sum, SumSqDev, Total;
    SumIsTotal(c, i + 1 - period, i + 1);
    var sum := Sum(c, i + 1 - period, i + 1);
    assert sum / period as real * period as real == sum;
    var mean, std := MeanAt(c, period, i), root(VarianceAt(c, period, i));
    if std > 0.0 {
      assert (c[i] - mean) / std * std == c[i] - mean;
    }
  }

  method PrecomputeZScores(closes: seq<real>, period: int, root: real -> real) returns (z: array<real>)
    ensures fresh(z) && z.Length == |closes|
    ensures forall i :: 0 <= i < |closes| ==> z[i] == ZScoreAt(closes, period, root, i)
  {
    hide MeanAt, DeviationAt;
    var sma, std := PrecomputeSmaStd(closes, period, root);
    z := new real[|closes|](_ => 0.0);
    for i := 0 to |closes|
      modifies z
      invariant forall j :: 0 <= j < i ==> z[j] == ZScoreAt(closes, period, root, j)
      invariant forall j :: i <= j < |closes| ==> z[j] == 0.0
    {
      if std[i] > 0.0 {
        z[i] := (closes[i] - sma[i]) / std[i];
      }
    }
  }

  function TrueRange(highs: seq<real>, lows: seq<real>, closes: seq<real>, j: nat): real
    requires j < |highs| && j < |lows| && j < |closes|
  {
    if j == 0 then highs[j] - lows[j]
    else Max(Max(highs[j] - lows[j], Abs(highs[j] - closes[j - 1])), Abs(lows[j] - closes[j - 1]))
  }

  /** The true range of a bar is the largest distance among its high, its low and the close
      before it. */
  lemma TrueRangeIsLargest(highs: seq<real>, lows: seq<real>, closes: seq<real>, j: nat)
    requires j < |highs| && j < |lows| && j < |closes| && lows[j] <= highs[j]
    ensures var r := TrueRange(highs, lows, closes, j); var span := highs[j] - lows[j];
      if j == 0 then r == span
      else
        var before := closes[j - 1];
        && r >= span && r >= highs[j] - before && r >= before - lows[j]
        && (r == span || r == highs[j] - before || r == before - lows[j])
  {
  }

  function TrueRangeSum(highs: seq<real>, lows: seq<real>, closes: seq<real>, lo: nat, hi: nat): real
    requires lo <= hi <= |closes| && hi <= |highs| && hi <= |lows|
    decreases hi
  {
    if lo == hi then 0.0
    else TrueRangeSum(highs, lows, closes, lo, hi - 1) + TrueRange(highs, lows, closes, hi - 1)
  }

  function AtrAt(highs: seq<real>, lows: seq<real>, closes: seq<real>, period: int, i: nat): real
    requires i < |closes| && i < |highs| && i < |lows|
  {
    if period <= 0 || i < period - 1 then 0.0
    else TrueRangeSum(highs, lows, closes, i + 1 - period, i + 1) / period as real
  }

  function TrueRanges(highs: seq<real>, lows: seq<real>, closes: seq<real>, lo: nat, hi: nat): seq<real>
    requires lo <= hi <= |closes| && hi <= |highs| && hi <= |lows|
  {
    seq(hi - lo, j requires 0 <= j < hi - lo => TrueRange(highs, lows, closes, lo + j))
  }

  lemma {:induction false} TrueRangeSumIsTotal(highs: seq<real>, lows: seq<real>, closes: seq<real>, lo: nat, hi: nat)
    requires lo <= hi <= |closes| && hi <= |highs| && hi <= |lows|
    ensures TrueRangeSum(highs, lows, closes, lo, hi) == Total(TrueRanges(highs, lows, closes, lo, hi))
    decreases hi
  {
    hide TrueRange;
    var all := TrueRanges(highs, lows, closes, lo, hi);
    if lo < hi {
      TrueRangeSumIsTotal(highs, lows, closes, lo, hi - 1);
      assert all[..hi - 1 - lo] == TrueRanges(highs, lows, closes, lo, hi - 1);
    }
  }

  /** Before its window is full, and for a nonpositive period, every series is zero; a full
      window's average true range times its length is the sum of its true ranges. */
  lemma SeriesStartAtZero(highs: seq<real>, lows: seq<real>, closes: seq<real>, period: int, root: real -> real, i: nat)
    requires i < |closes| && i < |highs| && i < |lows|
    ensures period <= 0 || i + 1 < period ==>
      && MeanAt(closes, period, i) == VarianceAt(closes, period, i) == DeviationAt(closes, period, root, i) == 0.0
      && ZScoreAt(closes, period, root, i) == 0.0 == AtrAt(highs, lows, closes, period, i)
    ensures 0 < period <= i + 1 ==>
      AtrAt(highs, lows, closes, period, i) * period as real == Total(TrueRanges(highs, lows, closes, i + 1 - period, i + 1))
  {
    hide TrueRangeSum, TrueRanges, Total;
    if 0 < period <= i + 1 {
      TrueRangeSumIsTotal(highs, lows, closes, i + 1 - period, i + 1);
    }
  }

  method PrecomputeAtr(highs: seq<real>, lows: seq<real>, closes: seq<real>, period: int) returns (atr: array<real>)
    requires |highs| == |lows| == |closes|
    ensures fresh(atr) && atr.Length == |closes|
    ensures forall i :: 0 <= i < |closes| ==> atr[i] == AtrAt(highs, lows, closes, period, i)
  {
    var n := |closes|;
    atr := new real[n](_ => 0.0);
    if period <= 0 || n < period {
      return;
    }
    for i := period - 1 to n
      invariant forall k :: 0 <= k < i ==> atr[k] == AtrAt(highs, lows, closes, period, k)
      invariant forall k :: i <= k < n ==> atr[k] == 0.0
    {
      var sum := 0.0;
      for j := i - period + 1 to i + 1
        invariant sum == TrueRangeSum(highs, lows, closes, i - period + 1, j)
      {
        var tr;
        if j == 0 {
          tr := highs[j] - lows[j];
        } else {
          tr := Max(Max(highs[j] - lows[j], Abs(highs[j] - closes[j - 1])), Abs(lows[j] - closes[j - 1]));
        }
        sum := sum + tr;
      }
      atr[i] := sum / period as real;
    }
  }

  // ---------- no look-ahead through the whole pipeline ----------

  lemma {:induction false} SumsOfPrefix(c: seq<real>, d: seq<real>, n: nat, lo: nat, hi: nat, mu: real)
    requires lo <= hi <= n <= |c| && n <= |d| && c[..n] == d[..n]
    ensures Sum(c, lo, hi) == Sum(d, lo, hi) && SumSqDev(c, lo, hi, mu) == SumSqDev(d, lo, hi, mu)
    decreases hi
  {
    if lo < hi {
      SumsOfPrefix(c, d, n, lo, hi - 1, mu);
      assert c[..n][hi - 1] == d[..n][hi - 1];
    }
  }

  lemma ZScoreOfPrefix(c: seq<real>, d: seq<real>, n: nat, period: int, root: real -> real, i: nat)
    requires i < n <= |c| && n <= |d| && c[..n] == d[..n]
    ensures ZScoreAt(c, period, root, i) == ZScoreAt(d, period, root, i)
  {
    assert c[..n][i] == d[..n][i];
    if period > 0 && i >= period - 1 {
      SumsOfPrefix(c, d, n, i + 1 - period, i + 1, MeanAt(c, period, i));
    }
  }

  /** A raw price history. */
  datatype History = History(
    opens: seq<real>, highs: seq<real>, lows: seq<real>, closes: seq<real>,
    regime: seq<int>, session: seq<int>, dividend: seq<real>)

  predicate Complete(h: History, n: nat) {
    && |h.opens| == |h.highs| == |h.lows| == |h.closes| == n
    && |h.regime| == |h.session| == |h.dividend| == n
  }

  /** One SMA period for both legs, or one for each. */
  datatype Horizons = Shared(period: nat) | Separate(long: nat, short: nat)

  function Scores(closes: seq<real>, t: Horizons, root: real -> real): Rule {
    match t
    case Shared(period) => Coupled(ZSeries(closes, period, root), period)
    case Separate(long, short) => Decoupled(ZSeries(closes, long, root), ZSeries(closes, short, root), long, short)
  }

  /** The kernel's inputs computed from raw prices: z-scores for the legs, and the ATR. */
  function Prepared(h: History, n: nat, x: Exec, s: Strategy, t: Horizons, atrPeriod: int, root: real -> real,
                    start: nat): (u: Setup)
    requires Complete(h, n)
    ensures Length(u) == n
  {
    Setup(x, s, Scores(h.closes, t, root),
          Market(h.opens, h.closes, h.regime, AtrSeries(h, n, atrPeriod), h.session, h.dividend), start)
  }

  predicate SamePast(h: History, g: History, n: nat)
    requires n <= |h.opens| && n <= |g.opens| && Complete(h, |h.opens|) && Complete(g, |g.opens|)
  {
    && h.opens[..n] == g.opens[..n] && h.highs[..n] == g.highs[..n] && h.lows[..n] == g.lows[..n]
    && h.closes[..n] == g.closes[..n] && h.regime[..n] == g.regime[..n]
    && h.session[..n] == g.session[..n] && h.dividend[..n] == g.dividend[..n]
  }

  lemma {:induction false} TrueRangesOfPrefix(h: History, g: History, n: nat, lo: nat, hi: nat)
    requires Complete(h, |h.opens|) && Complete(g, |g.opens|) && n <= |h.opens| && n <= |g.opens|
    requires SamePast(h, g, n) && lo <= hi <= n
    ensures TrueRangeSum(h.highs, h.lows, h.closes, lo, hi) == TrueRangeSum(g.highs, g.lows, g.closes, lo, hi)
    decreases hi
  {
    if lo < hi {
      var j := hi - 1;
      TrueRangesOfPrefix(h, g, n, lo, j);
      assert h.highs[..n][j] == g.highs[..n][j] && h.lows[..n][j] == g.lows[..n][j];
      if j > 0 {
        assert h.closes[..n][j - 1] == g.closes[..n][j - 1];
      }
    }
  }

  function ZSeries(c: seq<real>, period: int, root: real -> real): (z: seq<real>)
    ensures |z| == |c|
  {
    seq(|c|, i requires 0 <= i < |c| => ZScoreAt(c, period, root, i))
  }

  function AtrSeries(h: History, n: nat, period: int): (atr: seq<real>)
    requires Complete(h, n)
    ensures |atr| == n
  {
    seq(n, i requires 0 <= i < n => AtrAt(h.highs, h.lows, h.closes, period, i))
  }

  lemma ZSeriesAgree(c: seq<real>, d: seq<real>, n: nat, period: int, root: real -> real)
    requires n <= |c| && n <= |d| && c[..n] == d[..n]
    ensures ZSeries(c, period, root)[..n] == ZSeries(d, period, root)[..n]
  {
    hide ZScoreAt;
    forall i | 0 <= i < n ensures ZSeries(c, period, root)[i] == ZSeries(d, period, root)[i] {
      ZScoreOfPrefix(c, d, n, period, root, i);
    }
  }

  lemma AtrSeriesAgree(h: History, g: History, n: nat, period: int)
    requires Complete(h, |h.opens|) && Complete(g, |g.opens|) && n <= |h.opens| && n <= |g.opens|
    requires SamePast(h, g, n)
    ensures AtrSeries(h, |h.opens|, period)[..n] == AtrSeries(g, |g.opens|, period)[..n]
  {
    hide TrueRangeSum;
    forall i | 0 <= i < n ensures AtrSeries(h, |h.opens|, period)[i] == AtrSeries(g, |g.opens|, period)[i] {
      if period > 0 && i >= period - 1 {
        TrueRangesOfPrefix(h, g, n, i + 1 - period, i + 1);
      }
    }
  }

  /** Prices agreeing before bar `n` give kernel inputs agreeing before bar `n`. */
  lemma PreparedAgree(h: History, g: History, n: nat, x: Exec, s: Strategy, t: Horizons, atrPeriod: int,
                      root: real -> real, start: nat)
    requires Complete(h, |h.opens|) && Complete(g, |g.opens|) && n <= |h.opens| && n <= |g.opens|
    requires SamePast(h, g, n)
    ensures AgreeBefore(Prepared(h, |h.opens|, x, s, t, atrPeriod, root, start),
                        Prepared(g, |g.opens|, x, s, t, atrPeriod, root, start), n)
  {
    hide ZSeries, AtrSeries;
    AtrSeriesAgree(h, g, n, atrPeriod);
    match t
    case Shared(period) => ZSeriesAgree(h.closes, g.closes, n, period, root);
    case Separate(long, short) =>
      ZSeriesAgree(h.closes, g.closes, n, long, root);
      ZSeriesAgree(h.closes, g.closes, n, short, root);
  }

  /** From raw prices to fills: the trade made at the open of bar `start + k` is fixed by
      that open and by the bars before it, on one horizon or two. */
  lemma PipelineHasNoLookAhead(h: History, g: History, k: nat, x: Exec, s: Strategy, t: Horizons, atrPeriod: int,
                               root: real -> real, start: nat)
    requires Complete(h, |h.opens|) && Complete(g, |g.opens|) && start + k < |h.opens| && start + k < |g.opens|
    requires SamePast(h, g, start + k) && h.opens[start + k] == g.opens[start + k]
    ensures var u := Prepared(h, |h.opens|, x, s, t, atrPeriod, root, start);
            var v := Prepared(g, |g.opens|, x, s, t, atrPeriod, root, start);
            && After(u, k) == After(v, k) && StatsAfter(u, k) == StatsAfter(v, k)
            && Opened(u, k, After(u, k)) == Opened(v, k, After(v, k))
  {
    hide After, StatsAfter, Opened, AgreeBefore;
    var u := Prepared(h, |h.opens|, x, s, t, atrPeriod, root, start);
    var v := Prepared(g, |g.opens|, x, s, t, atrPeriod, root, start);
    PreparedAgree(h, g, start + k, x, s, t, atrPeriod, root, start);
    NoLookAhead(u, v, k);
    FillUsesOnlyThePast(u, v, k);
  }
}
