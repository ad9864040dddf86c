/**
  Backtest metric helpers (src/backtest/metrics.py): the one-pass maximum drawdown, the
  pairwise definition it is meant to compute, and exactly when it computes it.
 */
module Metrics {
  import opened Reals

  /** Fractional fall from `peak` to `value`; zero unless the peak is positive. */
  function Drop(peak: real, value: real): real {
    if peak > 0.0 then (peak - value) / peak else 0.0
  }

  /** Below a positive peak, the drop times the peak is the fall in money. */
  lemma DropIsFraction(peak: real, value: real)
    ensures peak > 0.0 ==> Drop(peak, value) * peak == peak - value
    ensures peak <= 0.0 ==> Drop(peak, value) == 0.0
  {
  }

  // ---------- the one-pass form, as a fold over a growing curve ----------

  function RunningPeak(curve: seq<real>): real
    requires |curve| > 0
  {
    if |curve| == 1 then curve[0] else Max(RunningPeak(curve[..|curve| - 1]), curve[|curve| - 1])
  }

  function OnePass(curve: seq<real>): real {
    if |curve| == 0 then 0.0
    else Max(OnePass(curve[..|curve| - 1]), Drop(RunningPeak(curve), curve[|curve| - 1]))
  }

  method MaxDrawdown(equity: seq<real>) returns (maxDd: real)
    ensures maxDd == OnePass(equity)
  {
    if |equity| == 0 {
      return 0.0;
    }
    var peak := equity[0];
    maxDd := 0.0;
    for i := 0 to |equity|
      invariant peak == if i == 0 then equity[0] else RunningPeak(equity[..i])
      invariant maxDd == OnePass(equity[..i])
    {
      var value := equity[i];
      assert equity[..i + 1][..i] == equity[..i];
      peak := Max(peak, value);
      maxDd := Max(maxDd, Drop(peak, value));
    }
    assert equity[..|equity|] == equity;
  }

  // ---------- the pairwise definition ----------

  /** `d` is the largest drop from any point of the curve to the same or a later point. */
  ghost predicate IsLargestDrop(curve: seq<real>, d: real) {
    && (forall i, j :: 0 <= i <= j < |curve| ==> Drop(curve[i], curve[j]) <= d)
    && (d == 0.0 || exists i, j :: 0 <= i <= j < |curve| && Drop(curve[i], curve[j]) == d)
  }

  ghost predicate NonNegative(curve: seq<real>) {
    forall i :: 0 <= i < |curve| ==> curve[i] >= 0.0
  }

  lemma {:induction false} PeakIsMaximum(curve: seq<real>) returns (at: nat)
    requires |curve| > 0
    ensures at < |curve| && curve[at] == RunningPeak(curve)
    ensures forall i :: 0 <= i < |curve| ==> curve[i] <= RunningPeak(curve)
  {
    var last := |curve| - 1;
    if last == 0 {
      at := 0;
    } else {
      at := PeakIsMaximum(curve[..last]);
      forall i | 0 <= i < |curve| ensures curve[i] <= RunningPeak(curve) {
        if i < last { assert curve[..last][i] == curve[i]; }
      }
      if RunningPeak(curve) == curve[last] { at := last; }
    }
  }

  /** From a higher peak a nonnegative value is a larger fall. */
  lemma DropMonotone(low: real, high: real, value: real)
    requires low <= high && value >= 0.0 && value <= high
    ensures Drop(low, value) <= Drop(high, value)
    ensures Drop(high, value) >= 0.0
  {
    if low > 0.0 {
      DropAsQuotient(low, value);
      DropAsQuotient(high, value);
      DivideMonotone(value, low, high);
    } else if high > 0.0 {
      DropAsQuotient(high, value);
    }
  }

  lemma DivideMonotone(value: real, low: real, high: real)
    requires 0.0 < low <= high && value >= 0.0
    ensures value / high <= value / low
  {
    var q := value / high;
    assert q * high == value;
    assert q >= 0.0;
    assert q * low <= q * high;
    assert (q * low) / low == q;
  }

  lemma DropAsQuotient(peak: real, value: real)
    requires peak > 0.0
    ensures Drop(peak, value) == 1.0 - value / peak
  {
    var q := value / peak;
    var drop := (peak - value) / peak;
    assert q * peak == value;
    assert drop * peak == peak - value;
    assert (drop - (1.0 - q)) * peak == 0.0;
    SignOfProduct(drop - (1.0 - q), peak);
  }

  lemma SignOfProduct(x: real, scale: real)
    requires scale > 0.0
    ensures x > 0.0 ==> x * scale > 0.0
    ensures x < 0.0 ==> x * scale < 0.0
  {}

  /** From a lower positive peak a negative value is a larger fall. */
  lemma DropAntitone(low: real, high: real, value: real)
    requires 0.0 < low <= high && value < 0.0
    ensures Drop(low, value) >= Drop(high, value) >= 0.0
    ensures low < high ==> Drop(low, value) > Drop(high, value)
  {
    var p, q := (low - value) / low, (high - value) / high;
    assert p * low == low - value && q * high == high - value;
    assert (q - 1.0) * high == -value && (p - 1.0) * low == -value;
    SignOfProduct(q - 1.0, high);
    assert (p - q) * low == (q - 1.0) * (high - low);
    SignOfProduct(p - q, low);
  }

  // ---------- falls below zero ----------

  /** The least positive point of the curve, zero when there is none. */
  function LeastPositive(curve: seq<real>): real {
    if |curve| == 0 then 0.0
    else
      var least, x := LeastPositive(curve[..|curve| - 1]), curve[|curve| - 1];
      if x > 0.0 && (least == 0.0 || x < least) then x else least
  }

  /** The largest fall to a negative point, taken from the least positive point before it. */
  function LowPass(curve: seq<real>): real {
    if |curve| == 0 then 0.0
    else
      var before, x := LowPass(curve[..|curve| - 1]), curve[|curve| - 1];
      if x < 0.0 then Max(before, Drop(LeastPositive(curve), x)) else before
  }

  lemma {:induction false} LeastIsMinimum(curve: seq<real>)
    ensures LeastPositive(curve) >= 0.0
    ensures forall x :: x in curve && x > 0.0 ==> 0.0 < LeastPositive(curve) <= x
    ensures LeastPositive(curve) > 0.0 ==> LeastPositive(curve) in curve
  {
    if |curve| > 0 {
      LeastIsMinimum(curve[..|curve| - 1]);
      assert curve == curve[..|curve| - 1] + [curve[|curve| - 1]];
    }
  }

  /** No fall to the last point is larger than the one the two passes look at, and that one
      is a fall. */
  lemma LastFall(curve: seq<real>) returns (from: nat, d: real)
    requires |curve| > 0
    ensures var last := |curve| - 1;
      && d == (if curve[last] < 0.0 then Drop(LeastPositive(curve), curve[last]) else Drop(RunningPeak(curve), curve[last]))
      && 0.0 <= Drop(RunningPeak(curve), curve[last]) <= d
      && from <= last && (d == 0.0 || Drop(curve[from], curve[last]) == d)
      && forall i :: 0 <= i <= last ==> Drop(curve[i], curve[last]) <= d
  {
    var x := curve[|curve| - 1];
    from := PeakIsMaximum(curve);
    LeastIsMinimum(curve);
    if x < 0.0 {
      d := Drop(LeastPositive(curve), x);
      forall i | 0 <= i < |curve| && curve[i] > 0.0 ensures 0.0 <= Drop(curve[i], x) <= d {
        assert curve[i] in curve;
        DropAntitone(LeastPositive(curve), curve[i], x);
      }
      if LeastPositive(curve) > 0.0 {
        from :| 0 <= from < |curve| && curve[from] == LeastPositive(curve);
      }
    } else {
      d := Drop(RunningPeak(curve), x);
      forall i | 0 <= i < |curve| ensures 0.0 <= d && Drop(curve[i], x) <= d {
        DropMonotone(curve[i], RunningPeak(curve), x);
      }
    }
  }

  /** One more point: the largest fall so far, or the largest fall to the new point. */
  lemma LargestDropGrows(curve: seq<real>, e: real, from: nat, d: real)
    requires |curve| > 0 && IsLargestDrop(curve[..|curve| - 1], e) && from < |curve|
    requires d == 0.0 || Drop(curve[from], curve[|curve| - 1]) == d
    requires forall i :: 0 <= i < |curve| ==> Drop(curve[i], curve[|curve| - 1]) <= d
    ensures IsLargestDrop(curve, Max(e, d))
  {
    hide Drop;
    var last := |curve| - 1;
    var before := curve[..last];
    forall i, j | 0 <= i <= j < |curve| ensures Drop(curve[i], curve[j]) <= Max(e, d) {
      if j < last {
        assert Drop(before[i], before[j]) <= e;
      }
    }
    if Max(e, d) == e && e != 0.0 {
      var i, j :| 0 <= i <= j < |before| && Drop(before[i], before[j]) == e;
      assert Drop(curve[i], curve[j]) == e;
    }
  }

  /** On every curve the larger of the two passes is the largest fall. */
  lemma {:induction false} TwoPassesAreLargestDrop(curve: seq<real>)
    ensures IsLargestDrop(curve, Max(OnePass(curve), LowPass(curve)))
    ensures OnePass(curve) >= 0.0 && LowPass(curve) >= 0.0
    ensures NonNegative(curve) ==> LowPass(curve) == 0.0
  {
    if |curve| > 0 {
      hide RunningPeak, LeastPositive, Drop, IsLargestDrop;
      var before := curve[..|curve| - 1];
      TwoPassesAreLargestDrop(before);
      assert NonNegative(curve) ==> NonNegative(before) && curve[|curve| - 1] >= 0.0;
      var from, d := LastFall(curve);
      LargestDropGrows(curve, Max(OnePass(before), LowPass(before)), from, d);
    } else {
      assert IsLargestDrop(curve, 0.0);
    }
  }

  /** A curve has one largest fall. */
  lemma LargestDropIsUnique(curve: seq<real>, d: real, e: real)
    requires IsLargestDrop(curve, d) && IsLargestDrop(curve, e)
    ensures d == e
  {
    if |curve| > 0 {
      assert Drop(curve[0], curve[0]) == 0.0;
    }
  }

  /** The one-pass value is the largest fall exactly when no fall below zero, taken from the
      least positive point before it, is larger; so always on curves that never go negative. */
  lemma OnePassIsLargestDrop(curve: seq<real>)
    ensures IsLargestDrop(curve, OnePass(curve)) <==> LowPass(curve) <= OnePass(curve)
    ensures NonNegative(curve) ==> IsLargestDrop(curve, OnePass(curve))
  {
    hide IsLargestDrop, OnePass, LowPass;
    TwoPassesAreLargestDrop(curve);
    if IsLargestDrop(curve, OnePass(curve)) {
      LargestDropIsUnique(curve, OnePass(curve), Max(OnePass(curve), LowPass(curve)));
    }
  }

  /** The peak is the worst point to have started from. */
  ghost predicate PeakIsWorst(curve: seq<real>)
    requires |curve| > 0
  {
    var x := curve[|curve| - 1];
    forall i :: 0 <= i < |curve| ==> Drop(curve[i], x) <= Drop(RunningPeak(curve), x)
  }

  /** At one point of the curve: measuring its fall from the running peak misses nothing
      exactly when the point is not negative, or every positive point so far is the peak. */
  lemma PeakIsWorstExactly(curve: seq<real>)
    requires |curve| > 0
    ensures PeakIsWorst(curve) <==>
      curve[|curve| - 1] >= 0.0 || forall i :: 0 <= i < |curve| && curve[i] > 0.0 ==> curve[i] == RunningPeak(curve)
  {
    hide RunningPeak;
    var x := curve[|curve| - 1];
    var at := PeakIsMaximum(curve);
    var from, d := LastFall(curve);
    if x < 0.0 {
      forall i | 0 <= i < |curve| && curve[i] > 0.0
        ensures Drop(curve[i], x) <= Drop(RunningPeak(curve), x) <==> curve[i] == RunningPeak(curve)
      {
        DropAntitone(curve[i], RunningPeak(curve), x);
      }
    }
  }

  /** Below zero the peak need not be the worst starting point: 1, 2, -2 falls by 3 from its
      first point but the one-pass value is 2. */
  lemma NegativeCurveIsUnderstated()
    ensures OnePass([1.0, 2.0, -2.0]) == 2.0 && LowPass([1.0, 2.0, -2.0]) == 3.0
    ensures !IsLargestDrop([1.0, 2.0, -2.0], 2.0)
  {
    var c := [1.0, 2.0, -2.0];
    assert c[..2] == [1.0, 2.0] && [1.0, 2.0][..1] == [1.0];
    assert [1.0][..0] == [];
    assert LeastPositive([1.0]) == 1.0 && LeastPositive([1.0, 2.0]) == 1.0;
    assert OnePass([1.0]) == 0.0 && LowPass([1.0]) == 0.0;
    assert OnePass([1.0, 2.0]) == 0.0 && LowPass([1.0, 2.0]) == 0.0;
    assert RunningPeak(c) == 2.0;
    assert Drop(c[0], c[2]) == 3.0;
  }
}
