/**
 Three drawdowns of one curve: the metric's running-peak loop, the risk
 monitor's separate loop, and the research metric over compounded returns.
 */
module Drawdown {
  import opened Basics

  // ---- What a drawdown is ----

  /** The fall from one point to another, as a fraction of the first; none from a point that is not positive. */
  function Fall(from: real, to: real): real {
    if from > 0.0 then (from - to) / from else 0.0
  }

  ghost predicate NonNegative(values: seq<real>) {
    forall i :: 0 <= i < |values| ==> values[i] >= 0.0
  }

  /** The largest fall from any point to any later one. */
  ghost predicate IsLargestFall(values: seq<real>, m: real) {
    && (forall i, j :: 0 <= i <= j < |values| ==> Fall(values[i], values[j]) <= m)
    && (values != [] ==> exists i, j :: 0 <= i <= j < |values| && m == Fall(values[i], values[j]))
    && (values == [] ==> m == 0.0)
  }

  function PeakTo(values: seq<real>, n: nat): real
    requires 0 < n <= |values|
  {
    if n == 1 then values[0] else Max(PeakTo(values, n - 1), values[n - 1])
  }

  /** The worst fall below a running peak over the first n points. */
  function DrawTo(values: seq<real>, n: nat): real
    requires n <= |values|
  {
    if n == 0 then 0.0 else Max(DrawTo(values, n - 1), Fall(PeakTo(values, n), values[n - 1]))
  }

  function MaxDrawdown(values: seq<real>): real {
    DrawTo(values, |values|)
  }

  // ---- The two loops ----

  /** The metric: short curves have no drawdown, and a new peak is not compared with itself. */
  method MeasureDrawdown(values: seq<real>) returns (worst: real)
    ensures worst == MaxDrawdown(values)
  {
    if |values| < 2 {
      ShortDrawdown(values);
      return 0.0;
    }
    var peak := values[0];
    worst := 0.0;
    FallToSelf(values[0]);
    for k := 1 to |values|
      invariant peak == PeakTo(values, k) && worst == DrawTo(values, k)
    {
      hide Fall;
      DrawNonNegative(values, k);
      FallToSelf(values[k]);
      if values[k] > peak {
        peak := values[k];
      } else {
        var dd := if peak > 0.0 then (peak - values[k]) / peak else 0.0;
        FallIs(peak, values[k]);
        if dd > worst {
          worst := dd;
        }
      }
    }
  }

  datatype Level = Critical | Warning

  datatype Alert = Alert(level: Level, drawdown: real, peak: real, current: real)

  /** check_aggregate_drawdown's alerts, in percent of the worst drawdown. */
  function AlertsFor(values: seq<real>, alertPct: real, breakerPct: real): seq<Alert> {
    if |values| < 2 then []
    else
      var worst, peak, current := MaxDrawdown(values), PeakTo(values, |values|), values[|values| - 1];
      (if worst * 100.0 >= breakerPct then [Alert(Critical, worst, peak, current)] else [])
      + (if worst * 100.0 >= alertPct then [Alert(Warning, worst, peak, current)] else [])
  }

  /** The monitor: every point is compared with the peak so far, itself included. */
  method CheckAggregateDrawdown(values: seq<real>, alertPct: real, breakerPct: real) returns (alerts: seq<Alert>)
    ensures alerts == AlertsFor(values, alertPct, breakerPct)
  {
    if |values| < 2 {
      return [];
    }
    var peak, worst := values[0], 0.0;
    for k := 0 to |values|
      invariant peak == (if k == 0 then values[0] else PeakTo(values, k)) && worst == DrawTo(values, k)
    {
      hide Fall;
      peak := Max(peak, values[k]);
      FallIs(peak, values[k]);
      DrawNonNegative(values, k);
      if peak > 0.0 {
        worst := Max(worst, (peak - values[k]) / peak);
      }
    }
    alerts := [];
    if worst * 100.0 >= breakerPct {
      alerts := alerts + [Alert(Critical, worst, peak, values[|values| - 1])];
    }
    if worst * 100.0 >= alertPct {
      alerts := alerts + [Alert(Warning, worst, peak, values[|values| - 1])];
    }
  }

  lemma FallToSelf(x: real)
    ensures Fall(x, x) == 0.0
  {
  }

  lemma FallIs(from: real, to: real)
    ensures Fall(from, to) == if from > 0.0 then (from - to) / from else 0.0
  {
  }

  lemma {:induction false} DrawNonNegative(values: seq<real>, n: nat)
    requires n <= |values|
    ensures DrawTo(values, n) >= 0.0
  {
    hide Fall;
    if n > 0 {
      DrawNonNegative(values, n - 1);
    }
  }

  lemma ShortDrawdown(values: seq<real>)
    requires |values| < 2
    ensures MaxDrawdown(values) == 0.0
  {
    if |values| == 1 {
      FallToSelf(values[0]);
      assert PeakTo(values, 1) == values[0] && DrawTo(values, 0) == 0.0;
      assert DrawTo(values, 1) == Max(0.0, Fall(values[0], values[0]));
    }
  }

  // ---- The loops compute the largest fall ----

  lemma {:induction false} PeakIsHighest(values: seq<real>, n: nat)
    requires 0 < n <= |values|
    ensures forall i :: 0 <= i < n ==> values[i] <= PeakTo(values, n)
    ensures exists i :: 0 <= i < n && values[i] == PeakTo(values, n)
  {
    if n == 1 {
      assert values[0] == PeakTo(values, 1);
    } else {
      PeakIsHighest(values, n - 1);
      assert values[n - 1] == PeakTo(values, n) || PeakTo(values, n) == PeakTo(values, n - 1);
    }
  }

  lemma RatioLess(from: real, to: real)
    requires from != 0.0
    ensures (from - to) / from == 1.0 - to / from
  {
    var p := to / from;
    assert p * from == to;
    assert (1.0 - p) * from == 1.0 * from - p * from;
    Cancels(1.0 - p, from, from - to);
  }

  /** A fall to a point that is not negative is worse the higher it starts. */
  lemma HigherFallsFurther(low: real, high: real, to: real)
    requires low <= high && to >= 0.0 && to <= high
    ensures Fall(low, to) <= Fall(high, to)
  {
    if low > 0.0 {
      var p, q := to / low, to / high;
      assert p * low == to && q * high == to;
      TimesOrder(p, q, high);
      assert p >= 0.0;
      assert p * (high - low) >= 0.0;
      assert p * high >= q * high;
      RatioLess(low, to);
      RatioLess(high, to);
    } else if high > 0.0 {
      assert (high - to) / high >= 0.0;
    }
  }

  lemma {:induction false} DrawIsLargest(values: seq<real>, n: nat)
    requires n <= |values| && NonNegative(values)
    ensures forall i, j :: 0 <= i <= j < n ==> Fall(values[i], values[j]) <= DrawTo(values, n)
    ensures n > 0 ==> exists i, j :: 0 <= i <= j < n && DrawTo(values, n) == Fall(values[i], values[j])
  {
    hide Fall;
    if n > 0 {
      DrawIsLargest(values, n - 1);
      PeakIsHighest(values, n);
      var k :| 0 <= k < n && values[k] == PeakTo(values, n);
      assert Fall(PeakTo(values, n), values[n - 1]) == Fall(values[k], values[n - 1]);
      forall i | 0 <= i < n
        ensures Fall(values[i], values[n - 1]) <= DrawTo(values, n)
      {
        HigherFallsFurther(values[i], PeakTo(values, n), values[n - 1]);
      }
      if n == 1 {
        FallToSelf(values[0]);
      }
    }
  }

  lemma FallBounded(from: real, to: real)
    requires to >= 0.0
    ensures Fall(from, to) <= 1.0
  {
    if from > 0.0 {
      assert to / from >= 0.0;
      RatioLess(from, to);
    }
  }

  /** For a curve that is never negative the running-peak loop finds the largest fall of all, and it is a fraction. */
  lemma DrawdownIsLargestFall(values: seq<real>)
    requires NonNegative(values)
    ensures IsLargestFall(values, MaxDrawdown(values))
    ensures 0.0 <= MaxDrawdown(values) <= 1.0
  {
    hide Fall;
    DrawIsLargest(values, |values|);
    DrawNonNegative(values, |values|);
    if values != [] {
      var i, j :| 0 <= i <= j < |values| && MaxDrawdown(values) == Fall(values[i], values[j]);
      FallBounded(values[i], values[j]);
    }
  }

  /** On any curve at all the loop finds the worst fall below the running peak. */
  lemma {:induction false} DrawIsWorst(values: seq<real>, n: nat)
    requires 0 < n <= |values|
    ensures forall j :: 0 <= j < n ==> Fall(PeakTo(values, j + 1), values[j]) <= DrawTo(values, n)
    ensures exists j :: 0 <= j < n && DrawTo(values, n) == Fall(PeakTo(values, j + 1), values[j])
  {
    hide Fall;
    if n == 1 {
      FirstFall(values);
      assert DrawTo(values, 1) == Fall(PeakTo(values, 0 + 1), values[0]);
    } else {
      DrawIsWorst(values, n - 1);
      var j :| 0 <= j < n - 1 && DrawTo(values, n - 1) == Fall(PeakTo(values, j + 1), values[j]);
      assert DrawTo(values, n) == DrawTo(values, n - 1)
          || DrawTo(values, n) == Fall(PeakTo(values, (n - 1) + 1), values[n - 1]);
    }
  }

  /** On any curve the monitor raises an alert just when some fall below the running peak reaches its threshold. */
  lemma AlertsOnRunningFalls(values: seq<real>, alertPct: real, breakerPct: real)
    requires |values| >= 2
    ensures
      var alerts := AlertsFor(values, alertPct, breakerPct);
      && ((exists a :: a in alerts && a.level == Warning)
          <==> exists j :: 0 <= j < |values| && Fall(PeakTo(values, j + 1), values[j]) * 100.0 >= alertPct)
      && ((exists a :: a in alerts && a.level == Critical)
          <==> exists j :: 0 <= j < |values| && Fall(PeakTo(values, j + 1), values[j]) * 100.0 >= breakerPct)
      && forall a :: a in alerts ==>
           && a.drawdown == MaxDrawdown(values) && a.current == values[|values| - 1]
           && a.peak in values && forall v :: v in values ==> v <= a.peak
  {
    PeakListed(values);
    DrawIsWorst(values, |values|);
    hide Fall, DrawTo;
    var worst, alerts := MaxDrawdown(values), AlertsFor(values, alertPct, breakerPct);
    hide MaxDrawdown;
    var peak, current := PeakTo(values, |values|), values[|values| - 1];
    hide PeakTo;
    var j :| 0 <= j < |values| && worst == Fall(PeakTo(values, j + 1), values[j]);
    if worst * 100.0 >= alertPct {
      assert Alert(Warning, worst, peak, current) in alerts;
    }
    if worst * 100.0 >= breakerPct {
      assert Alert(Critical, worst, peak, current) in alerts;
    }
  }

  lemma PeakListed(values: seq<real>)
    requires values != []
    ensures PeakTo(values, |values|) in values && forall v :: v in values ==> v <= PeakTo(values, |values|)
  {
    PeakIsHighest(values, |values|);
  }

  /** The monitor raises an alert just when some fall in the curve reaches its threshold. */
  lemma AlertsOnFalls(values: seq<real>, alertPct: real, breakerPct: real)
    requires NonNegative(values) && |values| >= 2
    ensures
      var alerts := AlertsFor(values, alertPct, breakerPct);
      && ((exists a :: a in alerts && a.level == Warning)
          <==> exists i, j :: 0 <= i <= j < |values| && Fall(values[i], values[j]) * 100.0 >= alertPct)
      && ((exists a :: a in alerts && a.level == Critical)
          <==> exists i, j :: 0 <= i <= j < |values| && Fall(values[i], values[j]) * 100.0 >= breakerPct)
      && forall a :: a in alerts ==> a.drawdown == MaxDrawdown(values)
  {
    DrawdownIsLargestFall(values);
    hide Fall, MaxDrawdown, PeakTo;
    var worst, alerts := MaxDrawdown(values), AlertsFor(values, alertPct, breakerPct);
    var peak, current := PeakTo(values, |values|), values[|values| - 1];
    var i, j :| 0 <= i <= j < |values| && worst == Fall(values[i], values[j]);
    if worst * 100.0 >= alertPct {
      assert Alert(Warning, worst, peak, current) in alerts;
    }
    if worst * 100.0 >= breakerPct {
      assert Alert(Critical, worst, peak, current) in alerts;
    }
  }

  // ---- Through returns and back ----

  datatype CurveError = LengthMismatch | ZeroBase(index: nat)

  /** The returns of the first n steps, or the first zero base met. */
  function ReturnsTo(values: seq<real>, n: nat): Result<seq<real>, CurveError>
    requires n < |values|
  {
    if n == 0 then Success([])
    else
      var before :- ReturnsTo(values, n - 1);
      if values[n - 1] == 0.0 then Failure(ZeroBase(n - 1)) else Success(before + [values[n] / values[n - 1] - 1.0])
  }

  /** returns_from_equity_curve, for a curve of a given number of dates. */
  function ReturnsOf(values: seq<real>, dates: nat): Result<seq<real>, CurveError> {
    if |values| != dates + 1 then Failure(LengthMismatch) else ReturnsTo(values, dates)
  }

  method ReturnsFromEquityCurve(values: seq<real>, dates: nat) returns (r: Result<seq<real>, CurveError>)
    ensures r == ReturnsOf(values, dates)
  {
    if |values| != dates + 1 {
      return Failure(LengthMismatch);
    }
    var out: seq<real> := [];
    for i := 0 to dates
      invariant ReturnsTo(values, i) == Success(out)
    {
      if values[i] == 0.0 {
        FaultStands(values, i + 1, dates);
        return Failure(ZeroBase(i));
      }
      out := out + [values[i + 1] / values[i] - 1.0];
    }
    return Success(out);
  }

  lemma {:induction false} FaultStands(values: seq<real>, k: nat, n: nat)
    requires k <= n < |values| && ReturnsTo(values, k).Failure?
    ensures ReturnsTo(values, n) == ReturnsTo(values, k)
  {
    if k < n {
      FaultStands(values, k, n - 1);
    }
  }

  /** A curve without returns names the first value that nothing can grow from. */
  lemma {:induction false} FirstZero(values: seq<real>, n: nat)
    requires n < |values|
    ensures ReturnsTo(values, n).Failure? ==>
      && ReturnsTo(values, n).error.ZeroBase?
      && var i := ReturnsTo(values, n).error.index;
         i < n && values[i] == 0.0 && forall k :: 0 <= k < i ==> values[k] != 0.0
    ensures ReturnsTo(values, n).Success? ==> forall k :: 0 <= k < n ==> values[k] != 0.0
  {
    if n > 0 {
      FirstZero(values, n - 1);
    }
  }

  /** to_research_equity_returns: the curve starts at day zero. */
  function Padded(gains: seq<real>): seq<real> {
    [0.0] + gains
  }

  function Grown(growth: real, gain: real): real {
    growth * (1.0 + gain)
  }

  /** The growth of one unit over the first n returns. */
  function GrowthTo(gains: seq<real>, n: nat): real
    requires n <= |gains|
  {
    if n == 0 then 1.0 else Grown(GrowthTo(gains, n - 1), gains[n - 1])
  }

  function GrowthPeak(gains: seq<real>, n: nat): real
    requires 0 < n <= |gains|
  {
    if n == 1 then GrowthTo(gains, 1) else Max(GrowthPeak(gains, n - 1), GrowthTo(gains, n))
  }

  /** equity / cummax - 1; a peak of zero, where that is undefined, is passed over. */
  function Below(equity: real, peak: real): real {
    if peak == 0.0 then 0.0 else equity / peak - 1.0
  }

  lemma BelowMeans(equity: real, peak: real)
    ensures peak != 0.0 ==> (1.0 + Below(equity, peak)) * peak == equity
    ensures peak == 0.0 ==> Below(equity, peak) == 0.0
  {
    if peak != 0.0 {
      assert (equity / peak) * peak == equity;
    }
  }

  function WorstTo(gains: seq<real>, n: nat): real
    requires 0 < n <= |gains|
  {
    var last := Below(GrowthTo(gains, n), GrowthPeak(gains, n));
    if n == 1 then last else Min(WorstTo(gains, n - 1), last)
  }

  /** The research metric: a negative fraction. */
  function ResearchDrawdown(gains: seq<real>): real {
    if gains == [] then 0.0 else WorstTo(gains, |gains|)
  }

  function ToBacktest(drawdown: real): real {
    Abs(drawdown)
  }

  lemma {:induction false} ReturnsAre(values: seq<real>, n: nat)
    requires n < |values| && ReturnsTo(values, n).Success?
    ensures |ReturnsTo(values, n).value| == n
    ensures forall i :: 0 <= i < n ==>
      values[i] != 0.0 && ReturnsTo(values, n).value[i] == values[i + 1] / values[i] - 1.0
  {
    if n > 0 {
      ReturnsAre(values, n - 1);
    }
  }

  lemma Compounds(growth: real, start: real, from: real, to: real)
    requires from != 0.0 && Times(growth, start) == from
    ensures Times(Grown(growth, to / from - 1.0), start) == to
  {
    var q := to / from;
    assert q * from == to;
    assert 1.0 + (q - 1.0) == q;
    assert (growth * q) * start == q * (growth * start);
  }

  /** The padded returns, one by one. */
  lemma PaddedAre(values: seq<real>, dates: nat)
    requires ReturnsOf(values, dates).Success?
    ensures |values| == dates + 1
    ensures
      var r := Padded(ReturnsOf(values, dates).value);
      && |r| == dates + 1 && r[0] == 0.0
      && forall i :: 0 <= i < dates ==> values[i] != 0.0 && r[i + 1] == values[i + 1] / values[i] - 1.0
  {
    ReturnsAre(values, dates);
  }

  /** Compounding the padded returns gives the curve back, as a multiple of its start. */
  lemma {:induction false} GrowthIsCurve(values: seq<real>, dates: nat, n: nat)
    requires ReturnsOf(values, dates).Success? && values[0] != 0.0 && 1 <= n <= dates + 1
    ensures |values| == |Padded(ReturnsOf(values, dates).value)| == dates + 1
    ensures Times(GrowthTo(Padded(ReturnsOf(values, dates).value), n), values[0]) == values[n - 1]
  {
    PaddedAre(values, dates);
    assert Grown(1.0, 0.0) == 1.0 && Times(1.0, values[0]) == values[0];
    hide ReturnsOf, Padded, Grown, Times;
    var r := Padded(ReturnsOf(values, dates).value);
    if n == 1 {
      assert GrowthTo(r, 0) == 1.0;
    } else {
      GrowthIsCurve(values, dates, n - 1);
      assert values[n - 2] != 0.0 && r[n - 2 + 1] == values[n - 2 + 1] / values[n - 2] - 1.0;
      Compounds(GrowthTo(r, n - 1), values[0], values[n - 2], values[n - 1]);
    }
  }

  lemma ScaledMax(a: real, b: real, start: real)
    requires start > 0.0
    ensures Times(Max(a, b), start) == Max(Times(a, start), Times(b, start))
  {
    if a >= b {
      assert a * start >= b * start;
    } else {
      assert a * start < b * start;
    }
  }

  /** The growth of some returns is a curve, up to a factor. */
  ghost predicate Traces(gains: seq<real>, curve: seq<real>, start: real) {
    |gains| == |curve| && forall n :: 1 <= n <= |curve| ==> Times(GrowthTo(gains, n), start) == curve[n - 1]
  }

  lemma {:induction false} PeakIsCurvePeak(gains: seq<real>, curve: seq<real>, start: real, n: nat)
    requires Traces(gains, curve, start) && start > 0.0 && 1 <= n <= |curve|
    ensures Times(GrowthPeak(gains, n), start) == PeakTo(curve, n)
  {
    hide GrowthTo, Times;
    if n > 1 {
      PeakIsCurvePeak(gains, curve, start, n - 1);
      ScaledMax(GrowthPeak(gains, n - 1), GrowthTo(gains, n), start);
    }
  }

  lemma BelowIsFall(equity: real, peak: real, start: real)
    requires start > 0.0 && Times(peak, start) > 0.0
    ensures Below(equity, peak) == -Fall(Times(peak, start), Times(equity, start))
  {
    TimesOrder(0.0, peak, start);
    var q, high, low := equity / peak, peak * start, equity * start;
    assert q * peak == equity;
    assert q * high == low;
    assert (q * high) / high == q;
    RatioLess(high, low);
  }

  lemma {:induction false} PeakPositive(values: seq<real>, n: nat)
    requires 0 < n <= |values| && values[0] > 0.0
    ensures PeakTo(values, n) > 0.0
  {
    if n > 1 {
      PeakPositive(values, n - 1);
    }
  }

  lemma {:induction false} WorstIsDraw(gains: seq<real>, curve: seq<real>, start: real, n: nat)
    requires Traces(gains, curve, start) && start > 0.0 && 1 <= n <= |curve| && curve[0] > 0.0
    ensures WorstTo(gains, n) == -DrawTo(curve, n)
  {
    hide GrowthTo, GrowthPeak, PeakTo, Below, Fall, Times;
    PeakIsCurvePeak(gains, curve, start, n);
    PeakPositive(curve, n);
    BelowIsFall(GrowthTo(gains, n), GrowthPeak(gains, n), start);
    DrawNonNegative(curve, n);
    assert Below(GrowthTo(gains, n), GrowthPeak(gains, n)) == -Fall(PeakTo(curve, n), curve[n - 1]);
    if n > 1 {
      WorstIsDraw(gains, curve, start, n - 1);
    } else {
      FirstFall(curve);
    }
  }

  /** The research metric of returns that trace a curve is the curve's drawdown. */
  lemma TracedDrawdown(gains: seq<real>, curve: seq<real>, start: real)
    requires Traces(gains, curve, start) && start > 0.0 && (curve != [] ==> curve[0] > 0.0)
    ensures ToBacktest(ResearchDrawdown(gains)) == MaxDrawdown(curve)
  {
    hide WorstTo, DrawTo;
    DrawNonNegative(curve, |curve|);
    if curve != [] {
      hide Traces;
      assert |gains| == |curve|;
      WorstIsDraw(gains, curve, start, |curve|);
    } else {
      ShortDrawdown(curve);
    }
  }

  lemma FirstFall(values: seq<real>)
    requires values != []
    ensures Fall(PeakTo(values, 1), values[0]) == 0.0 && DrawTo(values, 1) == 0.0
  {
    assert DrawTo(values, 0) == 0.0;
  }

  lemma PaddedTraces(values: seq<real>, dates: nat)
    requires ReturnsOf(values, dates).Success? && values[0] != 0.0
    ensures Traces(Padded(ReturnsOf(values, dates).value), values, values[0])
  {
    PaddedAre(values, dates);
    hide ReturnsOf, GrowthTo, Padded, Times;
    forall n | 1 <= n <= |values|
      ensures Times(GrowthTo(Padded(ReturnsOf(values, dates).value), n), values[0]) == values[n - 1]
    {
      GrowthIsCurve(values, dates, n);
    }
  }

  lemma PositiveAgrees(values: seq<real>, dates: nat)
    requires ReturnsOf(values, dates).Success? && values[0] > 0.0
    ensures ToBacktest(ResearchDrawdown(Padded(ReturnsOf(values, dates).value))) == MaxDrawdown(values)
  {
    ReturnsLength(values, dates);
    hide ReturnsOf, Traces;
    PaddedTraces(values, dates);
    TracedDrawdown(Padded(ReturnsOf(values, dates).value), values, values[0]);
  }

  function Negated(values: seq<real>): (r: seq<real>)
    ensures |r| == |values| && forall i :: 0 <= i < |r| ==> r[i] == -values[i]
  {
    seq(|values|, i requires 0 <= i < |values| => -values[i])
  }

  lemma SameRatio(x: real, y: real)
    requires y != 0.0
    ensures (-x) / (-y) == x / y
  {
    var q := x / y;
    assert q * y == x;
    assert q * (-y) == -(q * y);
    Cancels(q, -y, -x);
  }

  /** A curve and its negation have the same returns. */
  lemma {:induction false} NegatedReturns(values: seq<real>, n: nat)
    requires n < |values|
    ensures ReturnsTo(Negated(values), n) == ReturnsTo(values, n)
  {
    hide Negated;
    if n > 0 {
      NegatedReturns(values, n - 1);
      assert Negated(values)[n] == -values[n] && Negated(values)[n - 1] == -values[n - 1];
      if values[n - 1] != 0.0 {
        SameRatio(values[n], values[n - 1]);
      }
    }
  }

  /**
   What the round trip measures on every curve that has returns: the drawdown
   of the curve, or, since returns cannot tell a curve from its negation, that
   of the negated curve when it starts below zero.
   */
  lemma ResearchMeasures(values: seq<real>, dates: nat)
    requires ReturnsOf(values, dates).Success?
    ensures |values| == dates + 1
    ensures ToBacktest(ResearchDrawdown(Padded(ReturnsOf(values, dates).value)))
            == MaxDrawdown(if values[0] < 0.0 then Negated(values) else values)
  {
    ReturnsLength(values, dates);
    if values[0] > 0.0 {
      PositiveAgrees(values, dates);
    } else if values[0] < 0.0 {
      NegatedReturns(values, dates);
      PositiveAgrees(Negated(values), dates);
    } else {
      ReturnsExist(values, dates);
      ShortDrawdown(values);
      assert GrowthTo([0.0], 0) == 1.0 && GrowthTo([0.0], 1) == Grown(1.0, 0.0) == 1.0 && GrowthPeak([0.0], 1) == 1.0;
      assert WorstTo([0.0], 1) == 0.0;
    }
  }

  /**
   Converting a curve to returns, padding and compounding again preserves its
   drawdown wherever the curve has returns and does not start below zero: the
   research metric, turned back to a positive fraction, is the backtest's.
   */
  lemma ResearchAgrees(values: seq<real>, dates: nat)
    requires ReturnsOf(values, dates).Success? && values[0] >= 0.0
    ensures ToBacktest(ResearchDrawdown(Padded(ReturnsOf(values, dates).value))) == MaxDrawdown(values)
  {
    hide ReturnsOf, ResearchDrawdown, Padded, MaxDrawdown, ToBacktest;
    ResearchMeasures(values, dates);
  }

  /** A curve with returns measures alike, directly and through its returns. */
  ghost predicate MeasuresAlike(values: seq<real>, dates: nat) {
    ReturnsOf(values, dates).Success? ==>
      ToBacktest(ResearchDrawdown(Padded(ReturnsOf(values, dates).value))) == MaxDrawdown(values)
  }

  lemma TwoPointDrawdown(x: real, y: real)
    ensures MaxDrawdown([x, y]) == Max(0.0, Fall(Max(x, y), y))
  {
    var values := [x, y];
    FirstFall(values);
    assert PeakTo(values, 1) == x;
    assert PeakTo(values, 2) == Max(x, y);
    hide Fall, PeakTo;
    assert DrawTo(values, 2) == Max(DrawTo(values, 1), Fall(Max(x, y), y));
  }

  lemma FallsTwice(x: real)
    requires x > 0.0
    ensures Fall(x, -x) == 2.0 && Fall(x, x) == 0.0
  {
    Cancels(2.0, x, x - -x);
  }

  /** Up from below zero by as much again: no drawdown, where its negation has one of twice its value. */
  lemma RecoveryDisagrees(start: real)
    requires start < 0.0
    ensures !MeasuresAlike([start, -start], 1)
  {
    ReturnsExist([start, -start], 1);
    ResearchMeasures([start, -start], 1);
    assert Negated([start, -start]) == [-start, start];
    TwoPointDrawdown(start, -start);
    TwoPointDrawdown(-start, start);
    FallsTwice(-start);
    hide ReturnsOf, ResearchDrawdown, Padded, MaxDrawdown, ToBacktest, Fall, Negated;
  }

  /**
   The start decides: every curve with returns that opens at a value measures
   alike both ways if and only if that value is not below zero.
   */
  lemma StartDecides(start: real)
    ensures (forall values: seq<real>, dates: nat :: values != [] && values[0] == start ==>
               MeasuresAlike(values, dates))
            <==> start >= 0.0
  {
    hide ReturnsOf, ResearchDrawdown, Padded, MaxDrawdown, ToBacktest;
    if start >= 0.0 {
      forall values: seq<real>, dates: nat | values != [] && values[0] == start
        ensures MeasuresAlike(values, dates)
      {
        if ReturnsOf(values, dates).Success? {
          ResearchAgrees(values, dates);
        }
      }
    } else {
      RecoveryDisagrees(start);
      assert [start, -start][0] == start;
    }
  }

  lemma ReturnsLength(values: seq<real>, dates: nat)
    requires ReturnsOf(values, dates).Success?
    ensures |values| == dates + 1
  {
  }

  /** The returns exist just when the curve has one value more than its dates and no base of zero. */
  lemma ReturnsExist(values: seq<real>, dates: nat)
    ensures ReturnsOf(values, dates).Success? <==>
              |values| == dates + 1 && forall i :: 0 <= i < dates ==> values[i] != 0.0
  {
    if |values| == dates + 1 {
      ReturnsExistTo(values, dates);
    }
  }

  lemma {:induction false} ReturnsExistTo(values: seq<real>, n: nat)
    requires n < |values|
    ensures ReturnsTo(values, n).Success? <==> forall i :: 0 <= i < n ==> values[i] != 0.0
  {
    if n > 0 {
      ReturnsExistTo(values, n - 1);
    }
  }

  function TotalReturn(values: seq<real>): real {
    if |values| < 2 || values[0] == 0.0 then 0.0 else (values[|values| - 1] - values[0]) / values[0]
  }

  /** Compounding the returns gives the curve's total return. */
  lemma ReturnsCompound(values: seq<real>, dates: nat)
    requires ReturnsOf(values, dates).Success? && values[0] != 0.0
    ensures |Padded(ReturnsOf(values, dates).value)| == dates + 1
    ensures GrowthTo(Padded(ReturnsOf(values, dates).value), dates + 1) - 1.0 == TotalReturn(values)
  {
    GrowthIsCurve(values, dates, dates + 1);
    hide ReturnsOf, GrowthTo, Padded;
    var g, last, start := GrowthTo(Padded(ReturnsOf(values, dates).value), dates + 1), values[|values| - 1], values[0];
    assert g * start == last;
    assert (g - 1.0) * start == last - start;
    Cancels(g - 1.0, start, last - start);
    if dates == 0 {
      assert last == start;
    }
  }

  lemma Cancels(x: real, y: real, product: real)
    requires y != 0.0 && x * y == product
    ensures product / y == x && (product == 0.0 ==> x == 0.0)
  {
    var q := product / y;
    assert q * y == product;
    assert (q - x) * y == 0.0;
  }

  // ---- What the pad is for ----

  lemma {:induction false} UnpaddedGrowth(values: seq<real>, dates: nat, n: nat)
    requires ReturnsOf(values, dates).Success? && values[0] != 0.0 && n <= dates
    ensures |values| == dates + 1 && |ReturnsOf(values, dates).value| == dates
    ensures Times(GrowthTo(ReturnsOf(values, dates).value, n), values[0]) == values[n]
  {
    ReturnsAre(values, dates);
    hide ReturnsOf, Grown;
    var r := ReturnsOf(values, dates).value;
    if n == 0 {
      assert GrowthTo(r, 0) == 1.0;
    } else {
      hide Times;
      UnpaddedGrowth(values, dates, n - 1);
      Compounds(GrowthTo(r, n - 1), values[0], values[n - 1], values[n]);
    }
  }

  /** Without the pad the metric measures the curve from its second point on. */
  lemma UnpaddedMeasures(values: seq<real>, dates: nat)
    requires ReturnsOf(values, dates).Success? && values[0] > 0.0 && (dates > 0 ==> values[1] > 0.0)
    ensures |values| == dates + 1
    ensures ToBacktest(ResearchDrawdown(ReturnsOf(values, dates).value)) == MaxDrawdown(values[1..])
  {
    var gains, rest := ReturnsOf(values, dates).value, values[1..];
    ReturnsAre(values, dates);
    forall n | 1 <= n <= |rest|
      ensures Times(GrowthTo(gains, n), values[0]) == rest[n - 1]
    {
      UnpaddedGrowth(values, dates, n);
    }
    hide ReturnsOf, GrowthTo, Times;
    assert Traces(gains, rest, values[0]);
    TracedDrawdown(gains, rest, values[0]);
  }

  /** So on a curve that is never negative it falls short exactly when the worst fall starts on day zero. */
  lemma UnpaddedMissesFirstDay(values: seq<real>, dates: nat)
    requires ReturnsOf(values, dates).Success? && NonNegative(values)
    requires values[0] > 0.0 && (dates > 0 ==> values[1] > 0.0)
    ensures |values| == dates + 1
    ensures
      var unpadded := ToBacktest(ResearchDrawdown(ReturnsOf(values, dates).value));
      && unpadded <= MaxDrawdown(values)
      && (unpadded < MaxDrawdown(values)
          <==> exists j :: 0 < j < |values| && Fall(values[0], values[j]) > MaxDrawdown(values[1..]))
  {
    UnpaddedMeasures(values, dates);
    hide Fall, ResearchDrawdown, ToBacktest, ReturnsOf, MaxDrawdown;
    var rest := values[1..];
    DrawdownIsLargestFall(values);
    DrawdownIsLargestFall(rest);
    FallToSelf(values[0]);
    var i, j :| 0 <= i <= j < |values| && MaxDrawdown(values) == Fall(values[i], values[j]);
    if i > 0 {
      assert values[i] == rest[i - 1] && values[j] == rest[j - 1];
    }
    if rest == [] {
      assert MaxDrawdown(rest) == 0.0;
    } else {
      var k, m :| 0 <= k <= m < |rest| && MaxDrawdown(rest) == Fall(rest[k], rest[m]);
      assert rest[k] == values[k + 1] && rest[m] == values[m + 1];
    }
  }
}
