/**
 The momentum sleeve with its regimes computed from the same bars it trades. The
 regimes leak nothing, but the switch that turns them on does: a sleeve takes its
 own stops until some ticker in its bars has a full moving average, so bars that
 will fill one later change what is done before. This is the exact condition
 under which they do not.
 */
module MomentumRegimes {
  import opened Basics
  import opened Market
  import opened Replay
  import opened ReplayHistory
  import opened LookAhead
  import opened Breadth
  import opened Momentum

  /** The settings with regimes computed from some bars. */
  function With(s: Settings, bars: Bars, tickers: seq<Ticker>, period: nat, h: Thresholds): Settings
    requires period > 0
  {
    s.(regimes := RegimeTable(bars, tickers, period, h))
  }

  function EarlySignals(s: Settings, bars: Bars, tickers: seq<Ticker>, period: nat, h: Thresholds, cut: int): Strategy
    requires period > 0
  {
    Signals(Truncate(bars, cut), tickers, With(s, Truncate(bars, cut), tickers, period, h))
  }

  function FullSignals(s: Settings, bars: Bars, tickers: seq<Ticker>, period: nat, h: Thresholds): Strategy
    requires period > 0
  {
    Signals(bars, tickers, With(s, bars, tickers, period, h))
  }

  // ---- The switch ----

  /** Some ticker has bars enough for its moving average. */
  predicate HasAverage(bars: Bars, tickers: seq<Ticker>, period: nat) {
    exists t :: t in tickers && t in bars && |bars[t]| >= period
  }

  /** A ticker has its moving average by the cut, or none ever has. */
  predicate SameSwitch(bars: Bars, tickers: seq<Ticker>, period: nat, cut: int) {
    HasAverage(Truncate(bars, cut), tickers, period) <==> HasAverage(bars, tickers, period)
  }

  lemma {:induction false} SomeFlags(bars: Bars, tickers: seq<Ticker>, period: nat, n: nat, d: int)
    requires period > 0 && n <= |tickers|
    ensures AllFlags(bars, tickers, period, n, d) != [] <==>
            exists i :: 0 <= i < n && OwnFlags(bars, period, tickers[i], d) != []
  {
    hide OwnFlags;
    if n > 0 {
      SomeFlags(bars, tickers, period, n - 1, d);
    }
  }

  lemma LastFlag(bars: seq<Bar>, period: nat)
    requires 0 < period <= |bars|
    ensures FlagsOn(bars, period, |bars|, bars[|bars| - 1].date) != []
  {
  }

  /** The regimes are on, on some date, exactly when some ticker has its moving average. */
  lemma SwitchedOnIff(bars: Bars, tickers: seq<Ticker>, period: nat, h: Thresholds)
    requires period > 0
    ensures RegimeTable(bars, tickers, period, h) != map[] <==> HasAverage(bars, tickers, period)
  {
    hide AllFlags, FlagsOn;
    var table := RegimeTable(bars, tickers, period, h);
    if HasAverage(bars, tickers, period) {
      var t :| t in tickers && t in bars && |bars[t]| >= period;
      var i :| 0 <= i < |tickers| && tickers[i] == t;
      var last := bars[t][|bars[t]| - 1];
      LastFlag(bars[t], period);
      SomeFlags(bars, tickers, period, |tickers|, last.date);
      assert last in bars[t] && OwnFlags(bars, period, tickers[i], last.date) != [];
      assert last.date in table;
    } else {
      forall d
        ensures d !in table
      {
        SomeFlags(bars, tickers, period, |tickers|, d);
        forall i | 0 <= i < |tickers|
          ensures OwnFlags(bars, period, tickers[i], d) == []
        {
          TooFew(bars, period, tickers[i], d);
        }
      }
      assert table.Keys == {};
    }
  }

  lemma TooFew(bars: Bars, period: nat, t: Ticker, d: int)
    requires period > 0 && (t in bars ==> |bars[t]| < period)
    ensures OwnFlags(bars, period, t, d) == []
  {
  }

  /** If the switch differs it is off for the cut bars and on for all of them. */
  lemma SwitchedOn(bars: Bars, tickers: seq<Ticker>, period: nat, h: Thresholds, cut: int)
    requires period > 0 && AllByDate(bars) && !SameSwitch(bars, tickers, period, cut)
    ensures RegimeTable(Truncate(bars, cut), tickers, period, h) == map[]
    ensures RegimeTable(bars, tickers, period, h) != map[]
  {
    RegimesTruncated(bars, tickers, period, h, cut);
    SwitchedOnIff(bars, tickers, period, h);
    SwitchedOnIff(Truncate(bars, cut), tickers, period, h);
    hide RegimeTable, Truncate, HasAverage;
    WiderTable(RegimeTable(Truncate(bars, cut), tickers, period, h), RegimeTable(bars, tickers, period, h));
  }

  lemma WiderTable(early: map<int, Regime>, full: map<int, Regime>)
    requires forall d :: d in early ==> d in full
    ensures full == map[] ==> early == map[]
  {
    assert full == map[] ==> forall d :: d !in early;
    assert (forall d :: d !in early) ==> early == map[];
  }

  // ---- What the switch decides ----

  /**
   Some holding at a price is sold by stops and not by the neutral ones, or the
   other way round. Above zero the fall from a peak can be any fraction; below
   zero and at zero it is never one a proper trailing stop could tell.
   */
  predicate StopsDiffer(own: Stops, price: real) {
    if price > 0.0 then own != RegimeStops(Neutral)
    else if price < 0.0 then !(0.0 < own.trailing <= 1.0) || own.maxLoss != RegimeStops(Neutral).maxLoss
    else !(0.0 < own.trailing <= 1.0 && 0.0 < own.maxLoss <= 1.0)
  }

  /**
   A ticker's answer at a close depends on whether neutral regimes are on: a bear
   ticker is ranked and can be bought, or any other can be held at stops that
   differ.
   */
  predicate Turns(s: Settings, ranking: Option<seq<Ticker>>, t: Ticker, close: real) {
    if t in s.bearTickers then
      ranking.Some? && InFirst(ranking.value, s.topN, t) && EntryQuantity(s, close).Some?
    else
      StopsDiffer(s.stops, close)
  }

  /** On a date a ticker prints, with bars for a full lookback, its answer depends on the switch. */
  predicate TurnsOn(s: Settings, bars: Bars, tickers: seq<Ticker>, t: Ticker, d: int) {
    && t in bars && BarOn(bars[t], d).Some? && |UpTo(bars[t], d)| > s.lookback
    && Turns(s, RankingOn(bars, tickers, s, d), t, BarOn(bars[t], d).value.close)
  }

  /** Nothing up to the cut depends on the switch. */
  ghost predicate SwitchIdle(s: Settings, bars: Bars, tickers: seq<Ticker>, cut: int) {
    forall t, d :: d <= cut ==> !TurnsOn(s, bars, tickers, t, d)
  }

  lemma SameEntry(s: Settings, r: map<int, Regime>, price: real)
    ensures EntryQuantity(s.(regimes := r), price) == EntryQuantity(s, price)
  {
    var p := s.(regimes := r);
    assert p.capital == s.capital && p.sizePct == s.sizePct && p.wholeShares == s.wholeShares;
    hide Affords, RoundTo, Trunc;
  }

  // ---- A fall to a price ----

  /** A price from which a given fraction is lost on the way to another. */
  function Above(price: real, drop: real): real
    requires drop != 1.0
  {
    price / (1.0 - drop)
  }

  lemma DropIs(price: real, drop: real)
    requires price != 0.0 && drop != 1.0
    ensures Drop(Above(price, drop), price) == drop
  {
    var f := Above(price, drop);
    assert f * (1.0 - drop) == price;
    assert f - price == f * drop;
    var q := (f - price) / f;
    assert q * f == f * drop;
    assert (q - drop) * f == 0.0;
  }

  lemma AboveIsHigher(price: real, drop: real)
    requires (price > 0.0 && 0.0 <= drop < 1.0) || (price < 0.0 && (drop <= 0.0 || drop > 1.0))
    ensures Above(price, drop) >= price
  {
    var f, k := Above(price, drop), 1.0 - drop;
    assert f * k == price && f - price == f * drop;
    if f * drop < 0.0 {
      assert (f < 0.0) == (drop > 0.0);
    }
  }

  /** Below zero a fall from anything higher is nothing or more than the whole. */
  lemma FallBelowZero(from: real, price: real)
    requires price < 0.0 && price <= from
    ensures Drop(from, price) <= 0.0 || Drop(from, price) > 1.0
  {
    if from != 0.0 {
      var q := (from - price) / from;
      assert q * from == from - price;
      if from < 0.0 {
        TimesOrder(0.0, q, -from);
      } else {
        TimesOrder(1.0, q, from);
      }
    }
  }

  lemma FallToZero(from: real)
    ensures Drop(from, 0.0) == if from == 0.0 then 0.0 else 1.0
  {
  }

  // ---- Stops that sell different holdings ----

  /** Whether two sales by stops differ for some holding, by its peak alone. */
  predicate TrailingDiffers(own: real, price: real) {
    if price > 0.0 then own != RegimeStops(Neutral).trailing else !(0.0 < own <= 1.0)
  }

  predicate LossDiffers(own: real, price: real) {
    if price != 0.0 then own != RegimeStops(Neutral).maxLoss else !(0.0 < own <= 1.0)
  }

  /** A peak the price has fallen from by enough for one trailing stop only. */
  function TellingPeak(own: real, price: real): real
    requires TrailingDiffers(own, price)
  {
    if price > 0.0 then Above(price, Max(0.0, Min(own, RegimeStops(Neutral).trailing)))
    else if price < 0.0 then Above(price, if own <= 0.0 then own else (1.0 + own) / 2.0)
    else if own <= 0.0 then 0.0
    else 1.0
  }

  lemma PeakTells(own: real, price: real)
    requires TrailingDiffers(own, price)
    ensures
      var peak := TellingPeak(own, price);
      && peak >= price
      && !(Drop(peak, price) >= own <==> Drop(peak, price) >= RegimeStops(Neutral).trailing)
  {
    if price != 0.0 {
      var drop := if price > 0.0 then Max(0.0, Min(own, RegimeStops(Neutral).trailing))
                  else if own <= 0.0 then own else (1.0 + own) / 2.0;
      DropIs(price, drop);
      AboveIsHigher(price, drop);
      hide Drop, Above;
    }
  }

  /** An average price the price has fallen from by enough for one loss limit only. */
  function TellingAverage(own: real, price: real): real
    requires LossDiffers(own, price)
  {
    if price != 0.0 then Above(price, Min(own, RegimeStops(Neutral).maxLoss)) else if own <= 0.0 then 0.0 else 1.0
  }

  lemma AverageTells(own: real, price: real)
    requires LossDiffers(own, price)
    ensures
      var average := TellingAverage(own, price);
      !(Drop(average, price) >= own <==> Drop(average, price) >= RegimeStops(Neutral).maxLoss)
  {
    if price != 0.0 {
      DropIs(price, Min(own, RegimeStops(Neutral).maxLoss));
      hide Drop, Above;
    }
  }

  /** One share held so that the stops are told apart. */
  function Telling(own: Stops, price: real): HeldPosition
    requires StopsDiffer(own, price)
  {
    if TrailingDiffers(own.trailing, price) then
      HeldPosition(1.0, TellingPeak(own.trailing, price) - 1.0, TellingPeak(own.trailing, price), 0)
    else
      HeldPosition(1.0, TellingAverage(own.maxLoss, price), price, 0)
  }

  lemma StopsTold(p: Settings, q: Settings, r: Option<seq<Ticker>>, t: Ticker, price: real, d: int)
    requires StopsDiffer(StopsOn(p, d), price) && StopsOn(q, d) == RegimeStops(Neutral)
    ensures
      var held := Telling(StopsOn(p, d), price);
      ExitReasonOf(p, r, t, held, price, d) != ExitReasonOf(q, r, t, held, price, d)
  {
    var own := StopsOn(p, d);
    if TrailingDiffers(own.trailing, price) {
      PeakTells(own.trailing, price);
      hide TellingPeak, TrailingDiffers, StopsDiffer, StopsOn, Drop, InFirst;
    } else {
      AverageTells(own.maxLoss, price);
      assert Drop(price, price) == 0.0;
      hide TellingAverage, StopsOn, Drop, InFirst;
    }
  }

  lemma StopsAlike(p: Settings, q: Settings, r: Option<seq<Ticker>>, t: Ticker, held: HeldPosition, price: real, d: int)
    requires p.rankExit == q.rankExit && StopsOn(q, d) == RegimeStops(Neutral)
    requires !StopsDiffer(StopsOn(p, d), price)
    ensures ExitReasonOf(p, r, t, held, price, d) == ExitReasonOf(q, r, t, held, price, d)
  {
    var peak := Max(held.peak, price);
    if price < 0.0 {
      FallBelowZero(peak, price);
    } else if price == 0.0 {
      FallToZero(peak);
      FallToZero(held.average);
    }
    hide Drop, InFirst, StopsOn;
  }

  // ---- One answer ----

  /** The book under which a ticker's answer gives the switch away. */
  function Revealing(s: Settings, t: Ticker, close: real): Context
    requires t in s.bearTickers || StopsDiffer(s.stops, close)
  {
    Context(if t in s.bearTickers then map[] else map[t := Telling(s.stops, close)], map[], 0.0)
  }

  /** Where nothing turns on it, a sleeve whose regimes are not on signals as one whose regimes are neutral. */
  lemma IdleSignal(s: Settings, on: map<int, Regime>, r: Option<seq<Ticker>>, t: Ticker, bar: Bar, ctx: Context)
    requires on != map[] && (bar.date in on ==> on[bar.date] == Neutral)
    requires !Turns(s, r, t, bar.close)
    ensures SignalAt(s.(regimes := map[]), r, t, bar, ctx) == SignalAt(s.(regimes := on), r, t, bar, ctx)
  {
    var p, q := s.(regimes := map[]), s.(regimes := on);
    SameEntry(s, map[], bar.close);
    SameEntry(s, on, bar.close);
    if t in ctx.positions && t !in s.bearTickers {
      StopsAlike(p, q, r, t, ctx.positions[t], bar.close, bar.date);
    }
    hide SellSignal, InFirst, ExitReasonOf, EntryQuantity, StopsDiffer;
  }

  lemma TurnedSignal(s: Settings, on: map<int, Regime>, r: Option<seq<Ticker>>, t: Ticker, bar: Bar)
    requires on != map[] && (bar.date in on ==> on[bar.date] == Neutral)
    requires Turns(s, r, t, bar.close)
    ensures
      var ctx := Revealing(s, t, bar.close);
      SignalAt(s.(regimes := map[]), r, t, bar, ctx) != SignalAt(s.(regimes := on), r, t, bar, ctx)
  {
    var p, q, ctx := s.(regimes := map[]), s.(regimes := on), Revealing(s, t, bar.close);
    SameEntry(s, map[], bar.close);
    if t !in s.bearTickers {
      StopsTold(p, q, r, t, bar.close, bar.date);
      assert ExitQuantity(ctx, t, ctx.positions[t].quantity) == Some(1.0);
    }
    hide InFirst, ExitReasonOf, EntryQuantity, StopsDiffer, Telling;
  }

  // ---- The two signal functions ----

  /** What both functions answer on a session on or before the cut, when regimes come on after it. */
  lemma Asked(s: Settings, bars: Bars, tickers: seq<Ticker>, period: nat, h: Thresholds, cut: int, t: Ticker, n: nat,
              ctx: Context)
    requires period > 0 && AllByDate(bars) && !SameSwitch(bars, tickers, period, cut) && PrintsBy(bars, t, n, cut)
    ensures
      var d, shown, on := Sessions(bars)[n - 1], ShownAfter(bars, t, n), RegimeTable(bars, tickers, period, h);
      var bar, r := BarOn(bars[t], d).value, RankingOn(bars, tickers, s, d);
      && bar.date == d && on != map[] && (d in on ==> on[d] == Neutral)
      && shown == UpTo(bars[t], d)
      && EarlySignals(s, bars, tickers, period, h, cut)(t, shown, ctx)
         == (if |shown| < s.lookback + 1 then None else SignalAt(s.(regimes := map[]), r, t, bar, ctx))
      && FullSignals(s, bars, tickers, period, h)(t, shown, ctx)
         == (if |shown| < s.lookback + 1 then None else SignalAt(s.(regimes := on), r, t, bar, ctx))
  {
    hide RegimeTable, RankingOn, Truncate, Sessions, SameSwitch, ShownAfter, SignalAt, UpTo, ByDate;
    SwitchedOn(bars, tickers, period, h, cut);
    ShownIsUpTo(bars, t, n);
    ShownEnds(bars, t, n, cut);
    var d := Sessions(bars)[n - 1];
    NeutralBefore(s, bars, tickers, period, h, cut, d);
    OneRanking(s, bars, tickers, period, h, cut, d);
  }

  /** A date on or before the cut has no breadth when the cut bars have none. */
  lemma NeutralBefore(s: Settings, bars: Bars, tickers: seq<Ticker>, period: nat, h: Thresholds, cut: int, d: int)
    requires period > 0 && AllByDate(bars) && d <= cut
    requires RegimeTable(Truncate(bars, cut), tickers, period, h) == map[]
    ensures d !in RegimeTable(bars, tickers, period, h)
  {
    RegimesTruncated(bars, tickers, period, h, cut);
    hide RegimeTable;
  }

  lemma RankingEither(s: Settings, r: map<int, Regime>, bars: Bars, tickers: seq<Ticker>, d: int)
    ensures RankingOn(bars, tickers, s.(regimes := r), d) == RankingOn(bars, tickers, s, d)
  {
    SameRanking(bars, tickers, s.(regimes := r), s, d);
  }

  /** Both functions read the same ranking at a date up to the cut. */
  lemma OneRanking(s: Settings, bars: Bars, tickers: seq<Ticker>, period: nat, h: Thresholds, cut: int, d: int)
    requires period > 0 && d <= cut
    ensures RankingOn(Truncate(bars, cut), tickers, With(s, Truncate(bars, cut), tickers, period, h), d)
            == RankingOn(bars, tickers, With(s, bars, tickers, period, h), d)
            == RankingOn(bars, tickers, s, d)
  {
    hide RankingOn, RegimeTable;
    RankingTruncated(bars, tickers, s, d, cut);
    RankingEither(s, RegimeTable(bars, tickers, period, h), bars, tickers, d);
    RankingEither(s, RegimeTable(Truncate(bars, cut), tickers, period, h), Truncate(bars, cut), tickers, d);
  }

  lemma SwitchAgrees(s: Settings, bars: Bars, tickers: seq<Ticker>, period: nat, h: Thresholds, cut: int)
    requires period > 0 && AllByDate(bars) && SameSwitch(bars, tickers, period, cut)
    ensures AgreeUpTo(EarlySignals(s, bars, tickers, period, h, cut), FullSignals(s, bars, tickers, period, h), bars,
                      cut)
  {
    hide RegimeTable, Truncate, AllByDate, HasAverage, Signals, AgreeUpTo;
    SwitchedOnIff(bars, tickers, period, h);
    SwitchedOnIff(Truncate(bars, cut), tickers, period, h);
    RegimesTruncated(bars, tickers, period, h, cut);
    var p, q := With(s, Truncate(bars, cut), tickers, period, h), With(s, bars, tickers, period, h);
    SignalsAgree(bars, tickers, p, q, cut);
  }

  lemma IdleAgrees(s: Settings, bars: Bars, tickers: seq<Ticker>, period: nat, h: Thresholds, cut: int)
    requires period > 0 && AllByDate(bars) && !SameSwitch(bars, tickers, period, cut)
    requires SwitchIdle(s, bars, tickers, cut)
    ensures AgreeUpTo(EarlySignals(s, bars, tickers, period, h, cut), FullSignals(s, bars, tickers, period, h), bars,
                      cut)
  {
    hide RegimeTable, RankingOn, Truncate, AllByDate, Sessions, SameSwitch, ShownAfter, SignalAt, EarlySignals,
         FullSignals, Turns;
    var early, full := EarlySignals(s, bars, tickers, period, h, cut), FullSignals(s, bars, tickers, period, h);
    forall t, n: nat, ctx | PrintsBy(bars, t, n, cut)
      ensures early(t, ShownAfter(bars, t, n), ctx) == full(t, ShownAfter(bars, t, n), ctx)
    {
      var d := Sessions(bars)[n - 1];
      Asked(s, bars, tickers, period, h, cut, t, n, ctx);
      assert !TurnsOn(s, bars, tickers, t, d);
      if |UpTo(bars[t], d)| > s.lookback {
        IdleSignal(s, RegimeTable(bars, tickers, period, h), RankingOn(bars, tickers, s, d), t, BarOn(bars[t], d).value,
                   ctx);
      }
    }
  }

  lemma SessionOf(bars: Bars, t: Ticker, d: int)
    requires t in bars && BarOn(bars[t], d).Some?
    ensures exists i :: 0 <= i < |Sessions(bars)| && Sessions(bars)[i] == d
  {
    assert BarOn(bars[t], d).value in bars[t] && d in SessionSet(bars);
    assert d in Sessions(bars);
  }

  lemma Disagree(early: Strategy, full: Strategy, bars: Bars, cut: int, t: Ticker, n: nat, ctx: Context)
    requires PrintsBy(bars, t, n, cut) && early(t, ShownAfter(bars, t, n), ctx) != full(t, ShownAfter(bars, t, n), ctx)
    ensures !AgreeUpTo(early, full, bars, cut)
  {
  }

  /** A turn is answered two ways, on the history a replay shows that day. */
  lemma TurnLeaks(s: Settings, bars: Bars, tickers: seq<Ticker>, period: nat, h: Thresholds, cut: int, t: Ticker,
                  d: int)
    requires period > 0 && AllByDate(bars) && !SameSwitch(bars, tickers, period, cut)
    requires d <= cut && TurnsOn(s, bars, tickers, t, d)
    ensures
      var ctx := Revealing(s, t, BarOn(bars[t], d).value.close);
      EarlySignals(s, bars, tickers, period, h, cut)(t, UpTo(bars[t], d), ctx)
      != FullSignals(s, bars, tickers, period, h)(t, UpTo(bars[t], d), ctx)
    ensures !AgreeUpTo(EarlySignals(s, bars, tickers, period, h, cut), FullSignals(s, bars, tickers, period, h), bars,
                       cut)
  {
    hide RegimeTable, RankingOn, Truncate, AllByDate, SameSwitch, Sessions, ShownAfter, SignalAt, EarlySignals,
         FullSignals, StopsDiffer, InFirst, EntryQuantity, AgreeUpTo, UpTo, BarOn, Revealing;
    SessionOf(bars, t, d);
    var i :| 0 <= i < |Sessions(bars)| && Sessions(bars)[i] == d;
    var bar := BarOn(bars[t], d).value;
    var ctx := Revealing(s, t, bar.close);
    Asked(s, bars, tickers, period, h, cut, t, i + 1, ctx);
    TurnedSignal(s, RegimeTable(bars, tickers, period, h), RankingOn(bars, tickers, s, d), t, bar);
    Disagree(EarlySignals(s, bars, tickers, period, h, cut), FullSignals(s, bars, tickers, period, h), bars, cut, t,
             i + 1, ctx);
  }

  // ---- The exact condition ----

  /**
   Signals built with regimes computed from the bars up to a cut answer as those
   built from all the bars, wherever a replay can ask them up to the cut, if and
   only if regimes are on for both or for neither, or nothing turns on it.
   */
  lemma RegimesAgreeIff(s: Settings, bars: Bars, tickers: seq<Ticker>, period: nat, h: Thresholds, cut: int)
    requires period > 0 && AllByDate(bars)
    ensures AgreeUpTo(EarlySignals(s, bars, tickers, period, h, cut), FullSignals(s, bars, tickers, period, h), bars,
                      cut)
            <==> SameSwitch(bars, tickers, period, cut) || SwitchIdle(s, bars, tickers, cut)
  {
    hide AgreeUpTo, EarlySignals, FullSignals, SameSwitch, TurnsOn;
    if SameSwitch(bars, tickers, period, cut) {
      SwitchAgrees(s, bars, tickers, period, h, cut);
    } else if SwitchIdle(s, bars, tickers, cut) {
      IdleAgrees(s, bars, tickers, period, h, cut);
    } else {
      var t, d :| d <= cut && TurnsOn(s, bars, tickers, t, d);
      TurnLeaks(s, bars, tickers, period, h, cut, t, d);
    }
  }

  lemma {:induction false} UpToGrows(bars: seq<Bar>, d: int, cut: int)
    requires d <= cut
    ensures |UpTo(bars, d)| <= |UpTo(bars, cut)|
  {
    if bars != [] {
      UpToGrows(bars[..|bars| - 1], d, cut);
    }
  }

  /** The bars up to a cut are all there on the date of the last of them. */
  lemma LastByCut(bars: seq<Bar>, cut: int)
    requires ByDate(bars) && UpTo(bars, cut) != []
    ensures
      var d := UpTo(bars, cut)[|UpTo(bars, cut)| - 1].date;
      d <= cut && BarOn(bars, d).Some? && |UpTo(bars, d)| == |UpTo(bars, cut)|
  {
    hide UpTo, BarOn;
    var m := |UpTo(bars, cut)|;
    var last := UpTo(bars, cut)[m - 1];
    assert bars[..|bars|] == bars && last in UpTo(bars, cut);
    UpToIsPrefix(bars, |bars|, cut);
    UpToIsPrefix(bars, |bars|, last.date);
    UpToGrows(bars, last.date, cut);
    assert bars[m - 1] == last;
  }

  /**
   At prices above zero nothing turns on the switch just when the sleeve's own
   stops are the neutral ones, or no ticker but a bear one has bars for a full
   lookback by the cut; and no bear ticker is ranked high enough and priced to be
   bought on a date it prints with that many bars.
   */
  lemma IdleOnPrices(s: Settings, bars: Bars, tickers: seq<Ticker>, cut: int)
    requires AllByDate(bars) && forall t, b :: t in bars && b in bars[t] ==> b.close > 0.0
    ensures SwitchIdle(s, bars, tickers, cut) <==>
            && (|| s.stops == RegimeStops(Neutral)
                || forall t :: t in bars && t !in s.bearTickers ==> |UpTo(bars[t], cut)| <= s.lookback)
            && forall t, d :: t in s.bearTickers && d <= cut ==> !TurnsOn(s, bars, tickers, t, d)
  {
    hide RankingOn, UpTo, BarOn, InFirst, EntryQuantity, RegimeStops;
    forall t, d | t in bars && d <= cut && t !in s.bearTickers
      ensures TurnsOn(s, bars, tickers, t, d) ==> s.stops != RegimeStops(Neutral) && |UpTo(bars[t], cut)| > s.lookback
    {
      UpToGrows(bars[t], d, cut);
    }
    forall t | t in bars && t !in s.bearTickers && s.stops != RegimeStops(Neutral) && |UpTo(bars[t], cut)| > s.lookback
      ensures exists d :: d <= cut && TurnsOn(s, bars, tickers, t, d)
    {
      LastByCut(bars[t], cut);
      assert TurnsOn(s, bars, tickers, t, UpTo(bars[t], cut)[|UpTo(bars[t], cut)| - 1].date);
    }
  }

  /**
   Then the whole momentum replay, regimes and rankings computed from the bars
   it has, is a prefix of the full one.
   */
  lemma RegimeReplayNoLookAhead(rules: Rules, s: Settings, plan: Plan, bars: Bars, period: nat, h: Thresholds, cut: int)
    requires Universe(rules, bars) && period > 0 && AllByDate(bars)
    requires SameSwitch(bars, rules.tickers, period, cut) || SwitchIdle(s, bars, rules.tickers, cut)
    ensures Run(rules, EarlySignals(s, bars, rules.tickers, period, h, cut), plan, Truncate(bars, cut))
            == RunTo(rules, FullSignals(s, bars, rules.tickers, period, h), plan, bars, CountUpTo(Sessions(bars), cut))
  {
    RegimesAgreeIff(s, bars, rules.tickers, period, h, cut);
    hide RunTo, AgreeUpTo, Truncate, EarlySignals, FullSignals, SameSwitch, SwitchIdle;
    NoLookAhead(rules, EarlySignals(s, bars, rules.tickers, period, h, cut),
                FullSignals(s, bars, rules.tickers, period, h), plan, bars, cut);
  }
}
