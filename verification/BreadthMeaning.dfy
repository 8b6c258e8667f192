/**
 Market breadth as a share of tickers, and the regimes it is read as, both said
 of the closes.
 */
module BreadthMeaning {
  import opened Basics
  import opened Market
  import opened Breadth

  /** A ticker's bar of a day comes with enough before it for a moving average. */
  predicate Averaged(bars: Bars, period: nat, d: int, t: Ticker) {
    t in bars && exists j :: period <= j + 1 && 0 <= j < |bars[t]| && bars[t][j].date == d
  }

  /** A bar closed above its moving average: its close, as often as the period is long, is more than their sum. */
  predicate Over(bars: seq<Bar>, period: nat, j: nat)
    requires period <= j + 1 <= |bars|
  {
    bars[j].close * period as real > SeqSum(bars[j + 1 - period..j + 1], (b: Bar) => b.close)
  }

  predicate Above(bars: Bars, period: nat, d: int, t: Ticker) {
    t in bars && exists j ::
      period <= j + 1 && 0 <= j < |bars[t]| && bars[t][j].date == d && Over(bars[t], period, j)
  }

  lemma OverQuotient(x: real, sum: real, p: real)
    requires p > 0.0
    ensures x > sum / p <==> x * p > sum
  {
    TimesOrder(sum / p, x, p);
  }

  lemma AboveAverage(bars: seq<Bar>, period: nat, j: nat)
    requires 0 < period <= j + 1 <= |bars|
    ensures bars[j].close > AverageAt(bars, period, j) <==> Over(bars, period, j)
  {
    var span, p := bars[j + 1 - period..j + 1], period as real;
    SeqSumAgree(span, CloseOf, (b: Bar) => b.close);
    var sum := SeqSum(span, CloseOf);
    hide SeqSum;
    OverQuotient(bars[j].close, sum, p);
    assert AverageAt(bars, period, j) == sum / p;
    assert Over(bars, period, j) <==> bars[j].close * p > sum;
    hide AverageAt, Over;
  }

  /** In date order a ticker has at most one flag a day. */
  lemma {:induction false} OwnFlag(bars: seq<Bar>, period: nat, n: nat, d: int)
    requires 0 < period && n <= |bars| && ByDate(bars)
    ensures (forall j :: 0 <= j < n && period <= j + 1 ==> bars[j].date != d) ==> FlagsOn(bars, period, n, d) == []
    ensures forall j :: 0 <= j < n && period <= j + 1 && bars[j].date == d ==>
      FlagsOn(bars, period, n, d) == [bars[j].close > AverageAt(bars, period, j)]
    decreases n
  {
    hide AverageAt;
    if n >= period {
      OwnFlag(bars, period, n - 1, d);
      if bars[n - 1].date == d {
        assert forall j :: 0 <= j < n - 1 ==> bars[j].date != d;
      }
    }
  }

  lemma FlagMeans(bars: Bars, period: nat, d: int, t: Ticker)
    requires 0 < period && AllByDate(bars)
    ensures OwnFlags(bars, period, t, d)
            == if Averaged(bars, period, d, t) then [Above(bars, period, d, t)] else []
  {
    hide FlagsOn, AverageAt, Over;
    if t in bars {
      OwnFlag(bars[t], period, |bars[t]|, d);
      if Averaged(bars, period, d, t) {
        var j :| period <= j + 1 && 0 <= j < |bars[t]| && bars[t][j].date == d;
        AboveAverage(bars[t], period, j);
        OneOfDate(bars[t], j);
      }
    }
  }

  lemma OneOfDate(bars: seq<Bar>, j: nat)
    requires ByDate(bars) && j < |bars|
    ensures forall k :: 0 <= k < |bars| && bars[k].date == bars[j].date ==> k == j
  {
  }

  /** The tickers among the first n with an average on a day, and those above it. */
  function AveragedTo(bars: Bars, tickers: seq<Ticker>, period: nat, d: int, n: nat): set<Ticker>
    requires n <= |tickers|
  {
    set t | t in tickers[..n] && Averaged(bars, period, d, t)
  }

  function AboveTo(bars: Bars, tickers: seq<Ticker>, period: nat, d: int, n: nat): set<Ticker>
    requires n <= |tickers|
  {
    set t | t in tickers[..n] && Above(bars, period, d, t)
  }

  lemma {:induction false} FlagsCount(bars: Bars, tickers: seq<Ticker>, period: nat, d: int, n: nat)
    requires 0 < period && AllByDate(bars) && Distinct(tickers) && n <= |tickers|
    ensures |AllFlags(bars, tickers, period, n, d)| == |AveragedTo(bars, tickers, period, d, n)|
    ensures CountTrue(AllFlags(bars, tickers, period, n, d)) == |AboveTo(bars, tickers, period, d, n)|
  {
    hide OwnFlags, Averaged, Above, AveragedTo, AboveTo, CountTrue;
    if n == 0 {
      NoneTo(bars, tickers, period, d);
    } else {
      var t := tickers[n - 1];
      FlagsCount(bars, tickers, period, d, n - 1);
      FlagMeans(bars, period, d, t);
      AboveIsAveraged(bars, period, d, t);
      CountPush(AllFlags(bars, tickers, period, n - 1, d), Above(bars, period, d, t));
      OneMore(bars, tickers, period, d, n);
    }
  }

  lemma NoneTo(bars: Bars, tickers: seq<Ticker>, period: nat, d: int)
    ensures AveragedTo(bars, tickers, period, d, 0) == {} && AboveTo(bars, tickers, period, d, 0) == {}
    ensures CountTrue([]) == 0
  {
  }

  lemma CountPush(flags: seq<bool>, flag: bool)
    ensures CountTrue(flags + [flag]) == CountTrue(flags) + if flag then 1 else 0
    ensures flags + [] == flags
  {
    assert (flags + [flag])[..|flags|] == flags;
  }

  lemma OneMore(bars: Bars, tickers: seq<Ticker>, period: nat, d: int, n: nat)
    requires 0 < n <= |tickers| && Distinct(tickers)
    ensures |AveragedTo(bars, tickers, period, d, n)|
            == |AveragedTo(bars, tickers, period, d, n - 1)| + if Averaged(bars, period, d, tickers[n - 1]) then 1
                else 0
    ensures |AboveTo(bars, tickers, period, d, n)|
            == |AboveTo(bars, tickers, period, d, n - 1)| + if Above(bars, period, d, tickers[n - 1]) then 1 else 0
  {
    hide Averaged, Above;
    var t := tickers[n - 1];
    assert tickers[..n] == tickers[..n - 1] + [t];
    assert t !in tickers[..n - 1];
    Grows(tickers, n, AveragedTo(bars, tickers, period, d, n - 1), AveragedTo(bars, tickers, period, d, n),
          Averaged(bars, period, d, t));
    Grows(tickers, n, AboveTo(bars, tickers, period, d, n - 1), AboveTo(bars, tickers, period, d, n),
          Above(bars, period, d, t));
  }

  lemma Grows(tickers: seq<Ticker>, n: nat, was: set<Ticker>, now: set<Ticker>, added: bool)
    requires 0 < n <= |tickers| && tickers[n - 1] !in was
    requires forall x :: x in now <==> x in was || (added && x == tickers[n - 1])
    ensures |now| == |was| + if added then 1 else 0
  {
    var grown := if added then was + {tickers[n - 1]} else was;
    forall x
      ensures x in now <==> x in grown
    {
    }
    assert now == grown;
  }

  lemma AboveIsAveraged(bars: Bars, period: nat, d: int, t: Ticker)
    ensures Above(bars, period, d, t) ==> Averaged(bars, period, d, t)
  {
  }

  /**
   The breadth of a day is the share, of the tickers with a full average on it,
   of those that closed above theirs; there is none when no ticker has one.
   */
  lemma BreadthMeans(bars: Bars, tickers: seq<Ticker>, period: nat, d: int)
    requires 0 < period && AllByDate(bars) && Distinct(tickers)
    ensures
      var all, above := AveragedTo(bars, tickers, period, d, |tickers|), AboveTo(bars, tickers, period, d, |tickers|);
      var b := BreadthOn(bars, tickers, period, d);
      && above <= all && (b.None? <==> all == {})
      && (b.Some? ==> b.value * |all| as real == |above| as real)
  {
    hide Averaged, Above, AllFlags;
    FlagsCount(bars, tickers, period, d, |tickers|);
    var all, above := AveragedTo(bars, tickers, period, d, |tickers|), AboveTo(bars, tickers, period, d, |tickers|);
    forall t
      ensures Above(bars, period, d, t) ==> Averaged(bars, period, d, t)
    {
      AboveIsAveraged(bars, period, d, t);
    }
    var flags := AllFlags(bars, tickers, period, |tickers|, d);
    if flags != [] {
      assert (CountTrue(flags) as real / |flags| as real) * |flags| as real == CountTrue(flags) as real;
    }
  }

  // ---- Regimes ----

  /** Which breadths each regime stands for, whatever the thresholds' order. */
  lemma RegimeMeans(breadth: real, h: Thresholds)
    ensures RegimeOf(breadth, h) == Regime.Bull <==> breadth > h.bull
    ensures RegimeOf(breadth, h) == Regime.Crash <==> breadth <= h.bull && breadth < h.crash
    ensures RegimeOf(breadth, h) == Regime.Bear <==> breadth <= h.bull && h.crash <= breadth < h.bear
    ensures RegimeOf(breadth, h) == Regime.Neutral <==> breadth <= h.bull && breadth >= h.crash && breadth >= h.bear
  {
  }

  function Calm(r: Regime): int {
    match r
    case Bull => 3
    case Neutral => 2
    case Bear => 1
    case Crash => 0
  }

  /** With thresholds in order a broader market is never called worse. */
  lemma BroaderIsCalmer(x: real, y: real, h: Thresholds)
    requires h.crash <= h.bear <= h.bull && x <= y
    ensures Calm(RegimeOf(x, h)) <= Calm(RegimeOf(y, h))
  {
  }
}
