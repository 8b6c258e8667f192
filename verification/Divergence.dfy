/**
 The returns a verdict is graded by. They do not move when a curve is scaled,
 which is why a shadow may be normalised to live's opening value.
 */
module Divergence {
  import opened Basics

  /** Total return over a series; none when the start is not positive. */
  function WindowReturn(values: seq<real>): Option<real> {
    if |values| < 2 || values[0] <= 0.0 then None else Some(values[|values| - 1] / values[0] - 1.0)
  }

  /** The day-over-day returns of the first n steps, skipping non-positive denominators. */
  function StepReturns(values: seq<real>, n: nat): seq<real>
    requires n == 0 || n < |values|
  {
    if n == 0 then []
    else StepReturns(values, n - 1) + if values[n - 1] <= 0.0 then [] else [values[n] / values[n - 1] - 1.0]
  }

  method DailyReturns(values: seq<real>) returns (out: seq<real>)
    ensures out == StepReturns(values, if values == [] then 0 else |values| - 1)
  {
    out := [];
    if values == [] {
      return;
    }
    for i := 0 to |values| - 1
      invariant out == StepReturns(values, i)
    {
      if values[i] <= 0.0 {
        continue;
      }
      out := out + [values[i + 1] / values[i] - 1.0];
    }
  }

  function Scaled(values: seq<real>, k: real): (r: seq<real>)
    ensures |r| == |values| && forall i :: 0 <= i < |r| ==> r[i] == Times(values[i], k)
  {
    seq(|values|, i requires 0 <= i < |values| => Times(values[i], k))
  }

  lemma RatioKept(x: real, y: real, k: real)
    requires k > 0.0
    ensures Times(y, k) <= 0.0 <==> y <= 0.0
    ensures y > 0.0 ==> Times(x, k) / Times(y, k) == x / y
  {
    if y > 0.0 {
      var q := x / y;
      assert q * y == x;
      assert q * (y * k) == x * k;
    }
  }

  lemma {:induction false} StepsScale(values: seq<real>, n: nat, k: real)
    requires k > 0.0 && (n == 0 || n < |values|)
    ensures StepReturns(Scaled(values, k), n) == StepReturns(values, n)
  {
    hide Times;
    if n > 0 {
      StepsScale(values, n - 1, k);
      RatioKept(values[n], values[n - 1], k);
    }
  }

  /** Scaling a series by a positive factor leaves its window return and every daily return unchanged. */
  lemma ScalingKeepsReturns(values: seq<real>, k: real)
    requires k > 0.0
    ensures WindowReturn(Scaled(values, k)) == WindowReturn(values)
    ensures forall n :: 0 <= n < |values| ==> StepReturns(Scaled(values, k), n) == StepReturns(values, n)
  {
    hide Times;
    if |values| >= 2 {
      RatioKept(values[|values| - 1], values[0], k);
    }
    forall n | 0 <= n < |values|
      ensures StepReturns(Scaled(values, k), n) == StepReturns(values, n)
    {
      StepsScale(values, n, k);
    }
  }

  /** A negative factor makes a positive start degenerate, so the window return is lost. */
  lemma NegativeScaleDrops(values: seq<real>, k: real)
    requires k < 0.0 && |values| >= 2 && values[0] > 0.0
    ensures WindowReturn(Scaled(values, k)).None? && WindowReturn(values).Some?
  {
  }

  // ---- What a return is ----

  /** A window's return takes its first value to its last; there is none for one value, or from nothing. */
  lemma WindowReturnIs(values: seq<real>)
    ensures WindowReturn(values).None? <==> |values| < 2 || values[0] <= 0.0
    ensures WindowReturn(values).Some? ==> (1.0 + WindowReturn(values).value) * values[0] == values[|values| - 1]
  {
    if |values| >= 2 && values[0] > 0.0 {
      var q := values[|values| - 1] / values[0];
      assert q * values[0] == values[|values| - 1];
    }
  }

  /** The next day's return takes the value before to it, and is left out when that is not above zero. */
  lemma DailyReturnIs(values: seq<real>, n: nat)
    requires n + 1 < |values|
    ensures values[n] <= 0.0 ==> StepReturns(values, n + 1) == StepReturns(values, n)
    ensures values[n] > 0.0 ==>
      && |StepReturns(values, n + 1)| == |StepReturns(values, n)| + 1
      && StepReturns(values, n + 1)[..|StepReturns(values, n)|] == StepReturns(values, n)
      && (1.0 + StepReturns(values, n + 1)[|StepReturns(values, n)|]) * values[n] == values[n + 1]
  {
    if values[n] > 0.0 {
      var q := values[n + 1] / values[n];
      assert q * values[n] == values[n + 1];
    }
  }

  function Compounded(gains: seq<real>): real {
    if gains == [] then 1.0 else Times(Compounded(gains[..|gains| - 1]), 1.0 + gains[|gains| - 1])
  }

  /** On a curve that stays above zero the daily returns compound to the window's. */
  lemma {:induction false} DailyCompounds(values: seq<real>, n: nat)
    requires n < |values| && forall i :: 0 <= i < n ==> values[i] > 0.0
    ensures |StepReturns(values, n)| == n
    ensures Times(Compounded(StepReturns(values, n)), values[0]) == values[n]
  {
    if n > 0 {
      DailyCompounds(values, n - 1);
      DailyReturnIs(values, n - 1);
      var before, r := StepReturns(values, n - 1), StepReturns(values, n);
      assert r == before + [r[n - 1]];
      hide StepReturns;
      Chained(Compounded(before), values[0], values[n - 1], 1.0 + r[n - 1], values[n]);
    } else {
      assert Times(1.0, values[0]) == values[0];
    }
  }

  lemma Chained(growth: real, start: real, from: real, step: real, to: real)
    requires Times(growth, start) == from && step * from == to
    ensures Times(Times(growth, step), start) == to
  {
    assert (growth * step) * start == step * (growth * start);
  }
}
