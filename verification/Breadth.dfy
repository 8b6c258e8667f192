/**
 Market breadth by date, the regimes read off it, and why neither of them reads
 bars later than its date.
 */
module Breadth {
  import opened Basics
  import opened Market

  // ---- Breadth ----

  function CloseOf(b: Bar): real {
    b.close
  }

  /** The moving average that ends on bar i. */
  function AverageAt(bars: seq<Bar>, period: nat, i: nat): real
    requires 0 < period <= i + 1 <= |bars|
  {
    SeqSum(bars[i + 1 - period..i + 1], CloseOf) / period as real
  }

  /** Whether each of the first n bars dated d, from the period's last bar on, closed above its average. */
  function FlagsOn(bars: seq<Bar>, period: nat, n: nat, d: int): seq<bool>
    requires period > 0 && n <= |bars|
  {
    if n < period then []
    else
      FlagsOn(bars, period, n - 1, d)
      + if bars[n - 1].date == d then [bars[n - 1].close > AverageAt(bars, period, n - 1)] else []
  }

  function OwnFlags(bars: Bars, period: nat, t: Ticker, d: int): seq<bool>
    requires period > 0
  {
    if t in bars then FlagsOn(bars[t], period, |bars[t]|, d) else []
  }

  /** The flags of the first n tickers on a date. */
  function AllFlags(bars: Bars, tickers: seq<Ticker>, period: nat, n: nat, d: int): seq<bool>
    requires period > 0 && n <= |tickers|
  {
    if n == 0 then [] else AllFlags(bars, tickers, period, n - 1, d) + OwnFlags(bars, period, tickers[n - 1], d)
  }

  function CountTrue(flags: seq<bool>): nat {
    if flags == [] then 0 else CountTrue(flags[..|flags| - 1]) + if flags[|flags| - 1] then 1 else 0
  }

  function Share(flags: seq<bool>): real
    requires flags != []
  {
    CountTrue(flags) as real / |flags| as real
  }

  /** The share of tickers with enough history on a date that closed above their average; none when there are none. */
  function BreadthOn(bars: Bars, tickers: seq<Ticker>, period: nat, d: int): Option<real>
    requires period > 0
  {
    var flags := AllFlags(bars, tickers, period, |tickers|, d);
    if flags == [] then None else Some(Share(flags))
  }

  // ---- The computation as it runs ----

  function FlagsAt(above: map<int, seq<bool>>, d: int): seq<bool> {
    if d in above then above[d] else []
  }

  /** The flags gathered from the first i tickers, and from the first j bars of the one in hand. */
  ghost predicate Gathered(above: map<int, seq<bool>>, bars: Bars, tickers: seq<Ticker>, period: nat, i: nat,
                           own: seq<Bar>, j: nat)
    requires period > 0 && i <= |tickers| && j <= |own|
  {
    && (forall d :: d in above ==> above[d] != [])
    && forall d :: FlagsAt(above, d) == AllFlags(bars, tickers, period, i, d) + FlagsOn(own, period, j, d)
  }

  lemma GatheredNext(above: map<int, seq<bool>>, bars: Bars, tickers: seq<Ticker>, period: nat, i: nat, own: seq<Bar>,
                     j: nat)
    requires period > 0 && i <= |tickers| && period - 1 <= j < |own|
    requires Gathered(above, bars, tickers, period, i, own, j)
    ensures
      var d := own[j].date;
      Gathered(above[d := FlagsAt(above, d) + [own[j].close > AverageAt(own, period, j)]], bars, tickers, period, i,
               own, j + 1)
  {
    var d, flag := own[j].date, own[j].close > AverageAt(own, period, j);
    var next := above[d := FlagsAt(above, d) + [flag]];
    hide AllFlags, AverageAt, FlagsOn;
    forall x
      ensures FlagsAt(next, x) == AllFlags(bars, tickers, period, i, x) + FlagsOn(own, period, j + 1, x)
    {
      FlagsNext(own, period, j, x);
      JoinsOn(AllFlags(bars, tickers, period, i, x), FlagsOn(own, period, j, x), if d == x then [flag] else []);
      assert FlagsAt(above, x) == AllFlags(bars, tickers, period, i, x) + FlagsOn(own, period, j, x);
    }
  }

  lemma JoinsOn(a: seq<bool>, b: seq<bool>, c: seq<bool>)
    ensures (a + b) + c == a + (b + c)
    ensures (a + b) + [] == a + b
  {
  }

  lemma FlagsNext(own: seq<Bar>, period: nat, j: nat, x: int)
    requires period > 0 && period - 1 <= j < |own|
    ensures FlagsOn(own, period, j + 1, x)
            == FlagsOn(own, period, j, x)
               + if own[j].date == x then [own[j].close > AverageAt(own, period, j)] else []
  {
  }

  lemma TickerDone(above: map<int, seq<bool>>, bars: Bars, tickers: seq<Ticker>, period: nat, i: nat, own: seq<Bar>)
    requires period > 0 && i < |tickers| && Gathered(above, bars, tickers, period, i, own, |own|)
    requires own == if tickers[i] in bars then bars[tickers[i]] else []
    ensures Gathered(above, bars, tickers, period, i + 1, [], 0)
  {
    forall d
      ensures FlagsAt(above, d) == AllFlags(bars, tickers, period, i + 1, d) + FlagsOn([], period, 0, d)
    {
      assert FlagsAt(above, d) == AllFlags(bars, tickers, period, i, d) + FlagsOn(own, period, |own|, d);
      assert FlagsOn(own, period, |own|, d) == OwnFlags(bars, period, tickers[i], d);
      assert FlagsOn([], period, 0, d) == [];
    }
  }

  /** compute_breadth_by_date: a ticker with too few bars is passed over. */
  method ComputeBreadth(bars: Bars, tickers: seq<Ticker>, period: nat) returns (breadth: map<int, real>)
    requires period > 0
    ensures forall d :: d in breadth <==> BreadthOn(bars, tickers, period, d).Some?
    ensures forall d :: d in breadth ==> breadth[d] == BreadthOn(bars, tickers, period, d).value
  {
    var above: map<int, seq<bool>> := map[];
    for i := 0 to |tickers|
      invariant Gathered(above, bars, tickers, period, i, [], 0)
    {
      hide Gathered, AverageAt;
      ghost var own := if tickers[i] in bars then bars[tickers[i]] else [];
      TickerOpen(above, bars, tickers, period, i, own);
      if tickers[i] in bars && |bars[tickers[i]]| >= period {
        var listed := bars[tickers[i]];
        for j := period - 1 to |listed|
          invariant Gathered(above, bars, tickers, period, i, listed, j)
        {
          var d := listed[j].date;
          GatheredNext(above, bars, tickers, period, i, listed, j);
          above := above[d := FlagsAt(above, d) + [listed[j].close > AverageAt(listed, period, j)]];
        }
      }
      TickerDone(above, bars, tickers, period, i, own);
    }
    FlagsDecide(above, bars, tickers, period);
    breadth := map d | d in above && above[d] != [] :: Share(above[d]);
  }

  /** Before its period is full a ticker has no flags. */
  lemma TickerOpen(above: map<int, seq<bool>>, bars: Bars, tickers: seq<Ticker>, period: nat, i: nat, own: seq<Bar>)
    requires period > 0 && i <= |tickers| && Gathered(above, bars, tickers, period, i, [], 0)
    ensures forall j: nat :: j < period && j <= |own| ==> Gathered(above, bars, tickers, period, i, own, j)
  {
    assert forall d :: FlagsOn([], period, 0, d) == [];
  }

  lemma FlagsDecide(above: map<int, seq<bool>>, bars: Bars, tickers: seq<Ticker>, period: nat)
    requires period > 0 && Gathered(above, bars, tickers, period, |tickers|, [], 0)
    ensures forall d :: BreadthOn(bars, tickers, period, d)
                        == if d in above && above[d] != [] then Some(Share(above[d])) else None
  {
    hide AllFlags, Share;
    forall d
      ensures BreadthOn(bars, tickers, period, d)
              == if d in above && above[d] != [] then Some(Share(above[d])) else None
    {
      assert FlagsAt(above, d) == AllFlags(bars, tickers, period, |tickers|, d) + FlagsOn([], period, 0, d);
      var flags := AllFlags(bars, tickers, period, |tickers|, d);
      assert FlagsOn([], period, 0, d) == [] && flags + [] == flags;
    }
  }

  // ---- Regimes ----

  datatype Regime = Bull | Neutral | Bear | Crash

  datatype Thresholds = Thresholds(bull: real, bear: real, crash: real)

  /** compute_regime_by_date, one date. */
  function RegimeOf(breadth: real, h: Thresholds): Regime {
    if breadth > h.bull then Bull
    else if breadth < h.crash then Crash
    else if breadth < h.bear then Bear
    else Neutral
  }

  /** The regimes of every date that has a breadth. */
  function RegimeTable(bars: Bars, tickers: seq<Ticker>, period: nat, h: Thresholds): (r: map<int, Regime>)
    requires period > 0
    ensures forall d :: d in r <==> d in SessionSet(bars) && BreadthOn(bars, tickers, period, d).Some?
  {
    map d | d in SessionSet(bars) && BreadthOn(bars, tickers, period, d).Some? ::
      RegimeOf(BreadthOn(bars, tickers, period, d).value, h)
  }

  /** A breadth comes from some bar of its date. */
  lemma {:induction false} FlagHasBar(bars: seq<Bar>, period: nat, n: nat, d: int)
    requires period > 0 && n <= |bars| && FlagsOn(bars, period, n, d) != []
    ensures exists b :: b in bars && b.date == d
  {
    if bars[n - 1].date == d {
      assert bars[n - 1] in bars;
    } else {
      FlagHasBar(bars, period, n - 1, d);
    }
  }

  lemma {:induction false} BreadthHasSession(bars: Bars, tickers: seq<Ticker>, period: nat, n: nat, d: int)
    requires period > 0 && n <= |tickers| && AllFlags(bars, tickers, period, n, d) != []
    ensures d in SessionSet(bars)
  {
    if n > 0 {
      if OwnFlags(bars, period, tickers[n - 1], d) != [] {
        FlagHasBar(bars[tickers[n - 1]], period, |bars[tickers[n - 1]]|, d);
        var b :| b in bars[tickers[n - 1]] && b.date == d;
      } else {
        BreadthHasSession(bars, tickers, period, n - 1, d);
      }
    }
  }

  /** The loop over the breadths labels each of their dates. */
  method ComputeRegime(bars: Bars, tickers: seq<Ticker>, period: nat, h: Thresholds) returns (labels: map<int, Regime>)
    requires period > 0
    ensures labels == RegimeTable(bars, tickers, period, h)
  {
    var breadth := ComputeBreadth(bars, tickers, period);
    labels := map[];
    var todo := breadth.Keys;
    while todo != {}
      invariant todo <= breadth.Keys && labels.Keys == breadth.Keys - todo
      invariant forall d :: d in labels ==> labels[d] == RegimeOf(breadth[d], h)
      decreases |todo|
    {
      hide RegimeOf;
      assert (forall y :: y !in todo) ==> todo == {};
      var d :| d in todo;
      labels := labels[d := RegimeOf(breadth[d], h)];
      todo := todo - {d};
    }
    hide AllFlags, RegimeOf;
    forall d
      ensures d in labels <==> d in RegimeTable(bars, tickers, period, h)
    {
      if d in labels {
        BreadthHasSession(bars, tickers, period, |tickers|, d);
      }
    }
  }

  // ---- No look-ahead ----

  /** Of the first n bars, the leading ones are up to the cut and the others after it. */
  ghost predicate Leading(bars: seq<Bar>, n: nat, cut: int, up: seq<Bar>)
    requires n <= |bars|
  {
    |up| <= n && up == bars[..|up|] && forall i :: |up| <= i < n ==> bars[i].date > cut
  }

  /** If the last of n bars in date order is in time, so are all before it. */
  lemma NoneBetween(bars: seq<Bar>, k: nat, n: nat, cut: int)
    requires ByDate(bars) && k <= n < |bars| && bars[n].date <= cut && forall i :: k <= i < n ==> bars[i].date > cut
    ensures k == n
  {
    assert bars[k].date <= bars[n].date;
  }

  lemma LeadingNext(bars: seq<Bar>, n: nat, cut: int, up: seq<Bar>)
    requires n < |bars| && ByDate(bars) && Leading(bars, n, cut, up)
    ensures Leading(bars, n + 1, cut, up + if bars[n].date <= cut then [bars[n]] else [])
  {
    if bars[n].date <= cut {
      NoneBetween(bars, |up|, n, cut);
    } else {
      assert up + [] == up;
    }
  }

  /** Of bars in date order, those up to a cut come first. */
  lemma {:induction false} UpToIsPrefix(bars: seq<Bar>, n: nat, cut: int)
    requires n <= |bars| && ByDate(bars)
    ensures Leading(bars, n, cut, UpTo(bars[..n], cut))
    decreases n
  {
    if n > 0 {
      UpToIsPrefix(bars, n - 1, cut);
      assert bars[..n] == bars[..n - 1] + [bars[n - 1]];
      UpToPush(bars[..n - 1], bars[n - 1], cut);
      hide UpTo, ByDate, Leading;
      LeadingNext(bars, n - 1, cut, UpTo(bars[..n - 1], cut));
    }
  }

  lemma UpToPush(bars: seq<Bar>, b: Bar, cut: int)
    ensures UpTo(bars + [b], cut) == UpTo(bars, cut) + if b.date <= cut then [b] else []
  {
    assert (bars + [b])[..|bars|] == bars;
  }

  lemma AveragePrefix(bars: seq<Bar>, period: nat, k: nat, i: nat)
    requires 0 < period <= i + 1 <= k <= |bars|
    ensures AverageAt(bars[..k], period, i) == AverageAt(bars, period, i)
  {
    assert bars[..k][i + 1 - period..i + 1] == bars[i + 1 - period..i + 1];
  }

  /** Later bars add no flag to an earlier date, and change none. */
  lemma {:induction false} FlagsPrefix(bars: seq<Bar>, period: nat, k: nat, n: nat, d: int)
    requires period > 0 && k <= |bars| && n <= |bars| && forall i :: k <= i < |bars| ==> bars[i].date > d
    ensures FlagsOn(bars, period, n, d) == FlagsOn(bars[..k], period, if n <= k then n else k, d)
  {
    hide AverageAt;
    if n >= period {
      FlagsPrefix(bars, period, k, n - 1, d);
      if n <= k {
        AveragePrefix(bars, period, k, n - 1);
      }
    }
  }

  ghost predicate AllByDate(bars: Bars) {
    forall t :: t in bars ==> ByDate(bars[t])
  }

  lemma OwnTruncated(bars: Bars, period: nat, t: Ticker, d: int, cut: int)
    requires period > 0 && d <= cut && AllByDate(bars)
    ensures OwnFlags(Truncate(bars, cut), period, t, d) == OwnFlags(bars, period, t, d)
  {
    if t in bars {
      UpToIsPrefix(bars[t], |bars[t]|, cut);
      assert bars[t][..|bars[t]|] == bars[t];
      FlagsPrefix(bars[t], period, |UpTo(bars[t], cut)|, |bars[t]|, d);
    }
  }

  lemma {:induction false} FlagsTruncated(bars: Bars, tickers: seq<Ticker>, period: nat, n: nat, d: int, cut: int)
    requires period > 0 && n <= |tickers| && d <= cut && AllByDate(bars)
    ensures AllFlags(Truncate(bars, cut), tickers, period, n, d) == AllFlags(bars, tickers, period, n, d)
    decreases n
  {
    hide OwnFlags, Truncate;
    if n > 0 {
      FlagsTruncated(bars, tickers, period, n - 1, d, cut);
      OwnTruncated(bars, period, tickers[n - 1], d, cut);
    }
  }

  /** The breadth of a date does not change when later bars are cut off. */
  lemma BreadthTruncated(bars: Bars, tickers: seq<Ticker>, period: nat, d: int, cut: int)
    requires period > 0 && d <= cut && AllByDate(bars)
    ensures BreadthOn(Truncate(bars, cut), tickers, period, d) == BreadthOn(bars, tickers, period, d)
  {
    hide AllFlags, Truncate;
    FlagsTruncated(bars, tickers, period, |tickers|, d, cut);
  }

  /** Nor does its regime: the table of the cut bars is the table up to the cut. */
  lemma RegimesTruncated(bars: Bars, tickers: seq<Ticker>, period: nat, h: Thresholds, cut: int)
    requires period > 0 && AllByDate(bars)
    ensures
      var early, full := RegimeTable(Truncate(bars, cut), tickers, period, h), RegimeTable(bars, tickers, period, h);
      && (forall d :: d in early <==> d in full && d <= cut)
      && forall d :: d in early ==> early[d] == full[d]
  {
    var early, full := RegimeTable(Truncate(bars, cut), tickers, period, h), RegimeTable(bars, tickers, period, h);
    hide BreadthOn;
    forall d
      ensures d in early <==> d in full && d <= cut
      ensures d in early ==> early[d] == full[d]
    {
      SessionTruncated(bars, d, cut);
      if d <= cut {
        BreadthTruncated(bars, tickers, period, d, cut);
      }
    }
  }

  lemma SessionTruncated(bars: Bars, d: int, cut: int)
    ensures d in SessionSet(Truncate(bars, cut)) <==> d in SessionSet(bars) && d <= cut
  {
    if d in SessionSet(bars) && d <= cut {
      var t, b: Bar :| t in bars && b in bars[t] && b.date == d;
      assert t in Truncate(bars, cut) && b in Truncate(bars, cut)[t];
    }
    if d in SessionSet(Truncate(bars, cut)) {
      var t, b: Bar :| t in Truncate(bars, cut) && b in Truncate(bars, cut)[t] && b.date == d;
      assert t in bars && b in bars[t];
    }
  }
}
