/**
 What the momentum sleeve does, said on closes and quantities: whom it ranks ahead
 of whom, when it sells and why, and what it buys how much of.
 */
module MomentumSleeve {
  import opened Basics
  import opened Market
  import opened Replay
  import opened Breadth
  import opened Momentum

  // ---- The ranking, on closes ----

  /** The bars of the sleeve's own universe. */
  function OwnBars(bars: Bars, p: Settings): Bars {
    map t | t in bars && (p.eligible != {} ==> t in p.eligible) :: bars[t]
  }

  /** A ticker's close on a day, where it printed. */
  function CloseOn(bars: Bars, t: Ticker, d: int): Option<real> {
    if t in bars && BarOn(bars[t], d).Some? then Some(BarOn(bars[t], d).value.close) else None
  }

  /** A member of the universe that closed on both days, above zero on the first. */
  predicate Rankable(bars: Bars, p: Settings, before: int, d: int, t: Ticker) {
    && (p.eligible != {} ==> t in p.eligible) && p.member(t, d)
    && CloseOn(bars, t, d).Some? && CloseOn(bars, t, before).Some? && CloseOn(bars, t, before).value > 0.0
  }

  /** One ticker's close has grown by a larger factor, or by the same and it comes first in the table. */
  predicate Outruns(bars: Bars, tickers: seq<Ticker>, before: int, d: int, x: Ticker, y: Ticker)
    requires CloseOn(bars, x, d).Some? && CloseOn(bars, y, d).Some?
    requires CloseOn(bars, x, before).Some? && CloseOn(bars, y, before).Some?
  {
    var a := CloseOn(bars, x, d).value * CloseOn(bars, y, before).value;
    var b := CloseOn(bars, y, d).value * CloseOn(bars, x, before).value;
    a > b || (a == b && At(tickers, x) < At(tickers, y))
  }

  ghost predicate RanksAhead(bars: Bars, tickers: seq<Ticker>, p: Settings, before: int, d: int, x: Ticker, y: Ticker) {
    && Rankable(bars, p, before, d, x) && Rankable(bars, p, before, d, y)
    && Outruns(bars, tickers, before, d, x, y)
  }

  /** How many are ranked: as many as are bought or kept, whichever is more. */
  function RankedAtMost(p: Settings): nat {
    if p.rankExit.Some? && p.rankExit.value >= p.topN then p.rankExit.value else p.topN
  }

  lemma PoolIs(bars: Bars, p: Settings)
    ensures Pool(bars, p) == OwnBars(bars, p)
  {
  }

  lemma ClosesAre(bars: Bars, p: Settings, before: int, d: int, t: Ticker)
    ensures Qualifies(ClosesOn(Pool(bars, p), before), ClosesOn(Pool(bars, p), d), p, d, t)
            <==> Rankable(bars, p, before, d, t)
    ensures t in ClosesOn(Pool(bars, p), d) ==> CloseOn(bars, t, d) == Some(ClosesOn(Pool(bars, p), d)[t])
    ensures t in ClosesOn(Pool(bars, p), before)
            ==> CloseOn(bars, t, before) == Some(ClosesOn(Pool(bars, p), before)[t])
  {
    PoolIs(bars, p);
    hide Pool, BarOn;
  }

  lemma GrowthOrder(now: real, past: real, other: real, was: real)
    requires past > 0.0 && was > 0.0
    ensures (now - past) / past > (other - was) / was <==> now * was > other * past
    ensures (now - past) / past == (other - was) / was <==> now * was == other * past
  {
    var a, b := (now - past) / past, (other - was) / was;
    assert a * past == now - past && b * was == other - was;
    assert (a * past) * was == now * was - past * was;
    assert (b * was) * past == other * past - was * past;
    assert now * was - other * past == (a * past) * was - (b * was) * past;
    assert (a * past) * was == a * (past * was) && (b * was) * past == b * (past * was);
    assert past * was > 0.0;
    TimesOrder(b, a, past * was);
    TimesOrder(a, b, past * was);
  }

  lemma AheadIs(bars: Bars, tickers: seq<Ticker>, p: Settings, before: int, d: int, x: Ticker, y: Ticker)
    requires AheadOn(tickers, ClosesOn(Pool(bars, p), before), ClosesOn(Pool(bars, p), d), p, d, x, y)
    ensures RanksAhead(bars, tickers, p, before, d, x, y)
  {
    var past, now := ClosesOn(Pool(bars, p), before), ClosesOn(Pool(bars, p), d);
    ClosesAre(bars, p, before, d, x);
    ClosesAre(bars, p, before, d, y);
    GrowthOrder(now[x], past[x], now[y], past[y]);
    hide ClosesOn, Pool, CloseOn, At;
  }

  /**
   The ranking of a date with a full lookback of dates behind it: rankable
   tickers only, each grown more since then than those after it, ties in table
   order; and a rankable ticker is left out only of a full ranking, by tickers
   that all grew more.
   */
  lemma RankingMeans(bars: Bars, tickers: seq<Ticker>, p: Settings, d: int, i: nat)
    requires Distinct(tickers) && p.lookback <= i < |Sessions(OwnBars(bars, p))| && Sessions(OwnBars(bars, p))[i] == d
    ensures RankingOn(bars, tickers, p, d).Some?
    ensures
      var r, before := RankingOn(bars, tickers, p, d).value, Sessions(OwnBars(bars, p))[i - p.lookback];
      && |r| <= RankedAtMost(p)
      && (forall j, k :: 0 <= j < k < |r| ==> RanksAhead(bars, tickers, p, before, d, r[j], r[k]))
      && (forall t :: t in r ==> Rankable(bars, p, before, d, t))
      && (forall t :: t in tickers && t !in r && Rankable(bars, p, before, d, t) ==>
            |r| == RankedAtMost(p) && forall x :: x in r ==> RanksAhead(bars, tickers, p, before, d, x, t))
  {
    PoolIs(bars, p);
    AscendingIndex(Sessions(Pool(bars, p)), i);
    RankingIsBest(bars, tickers, p, d, i);
    RankingAt(bars, tickers, p, i);
    var r, before := RankingOn(bars, tickers, p, d).value, Sessions(OwnBars(bars, p))[i - p.lookback];
    var past, now := ClosesOn(Pool(bars, p), before), ClosesOn(Pool(bars, p), d);
    assert Depth(p) == RankedAtMost(p);
    hide RankingOn, Pool, ClosesOn, Rankable, RanksAhead, AheadOn, Qualifies, Sessions, OwnBars, Momentum.Gathered,
         Ranked,
         Depth, RankedAtMost;
    forall j, k | 0 <= j < k < |r|
      ensures RanksAhead(bars, tickers, p, before, d, r[j], r[k])
    {
      AheadIs(bars, tickers, p, before, d, r[j], r[k]);
    }
    forall t
      ensures Qualifies(past, now, p, d, t) <==> Rankable(bars, p, before, d, t)
    {
      ClosesAre(bars, p, before, d, t);
    }
    forall t, x | t in tickers && t !in r && Rankable(bars, p, before, d, t) && x in r
      ensures RanksAhead(bars, tickers, p, before, d, x, t)
    {
      AheadIs(bars, tickers, p, before, d, x, t);
    }
  }

  // ---- Selling and buying ----

  /** The stops a sleeve with regimes keeps to, and the one without. */
  function StopLevels(p: Settings, d: int): Stops {
    if p.regimes == map[] then p.stops
    else
      match if d in p.regimes then p.regimes[d] else Neutral
      case Bull => Stops(0.15, 0.10)
      case Neutral => Stops(0.12, 0.08)
      case Bear => Stops(0.08, 0.05)
      case Crash => Stops(0.04, 0.02)
  }

  /** A bear ticker outside a bear regime, for want of regimes if need be. */
  predicate OutOfSeason(p: Settings, t: Ticker, d: int) {
    t in p.bearTickers && !(d in p.regimes && p.regimes[d] == Bear)
  }

  /** A price has fallen from another by at least a fraction of it. */
  predicate FallenBy(from: real, to: real, part: real) {
    if from > 0.0 then from - to >= part * from
    else if from < 0.0 then from - to <= part * from
    else 0.0 >= part
  }

  /** A ticker is among the first n of a ranking. */
  predicate Among(r: seq<Ticker>, n: nat, t: Ticker) {
    exists i :: 0 <= i < n && i < |r| && r[i] == t
  }

  /** Why a holding is to be sold, if it is. */
  function SaleReason(p: Settings, ranking: Option<seq<Ticker>>, t: Ticker, h: HeldPosition, price: real, d: int)
    : Option<string>
  {
    var peak := if h.peak > price then h.peak else price;
    if OutOfSeason(p, t, d) then Some("regime_change")
    else if peak > h.average && FallenBy(peak, price, StopLevels(p, d).trailing) then Some("trailing_stop")
    else if FallenBy(h.average, price, StopLevels(p, d).maxLoss) then Some("max_loss")
    else if p.rankExit.Some? && ranking.Some? && !Among(ranking.value, p.rankExit.value, t) then Some("rank_exit")
    else None
  }

  function TenThousandths(n: int): real {
    n as real / 10000.0
  }

  /** The shares the sleeve's slice of capital comes to at a price. */
  function SliceAt(p: Settings, price: real): real
    requires price != 0.0
  {
    p.capital * p.sizePct / price
  }

  /**
   A quantity for a slice of capital: its whole shares, at least one; or to
   four decimals, never less than one step.
   */
  ghost predicate Sliced(p: Settings, price: real, q: real) {
    && price != 0.0
    && var slice := SliceAt(p, price);
       if p.wholeShares then q >= 1.0 && q == q.Floor as real && q <= slice < q + 1.0
       else
         && (exists n: int :: q == TenThousandths(n))
         && -0.00005 <= q - (if slice > 0.0001 then slice else 0.0001) <= 0.00005
  }

  ghost predicate Unsliced(p: Settings, price: real) {
    price == 0.0 || (p.wholeShares && SliceAt(p, price) < 1.0)
  }

  lemma DropMeans(from: real, to: real, part: real)
    ensures Drop(from, to) >= part <==> FallenBy(from, to, part)
  {
    if from != 0.0 {
      var q := (from - to) / from;
      assert q * from == from - to;
      if from > 0.0 {
        TimesOrder(q, part, from);
      } else {
        TimesOrder(q, part, -from);
      }
    }
  }

  lemma FirstMeans(r: seq<Ticker>, n: nat, t: Ticker)
    ensures InFirst(r, n, t) <==> Among(r, n, t)
  {
    var m := if n < |r| then n else |r|;
    assert forall i :: 0 <= i < m ==> r[..m][i] == r[i];
  }

  lemma StopsMean(p: Settings, d: int)
    ensures StopsOn(p, d) == StopLevels(p, d)
  {
  }

  lemma ReasonMeans(p: Settings, ranking: Option<seq<Ticker>>, t: Ticker, h: HeldPosition, price: real, d: int)
    requires !OutOfSeason(p, t, d)
    ensures ExitReasonOf(p, ranking, t, h, price, d) == SaleReason(p, ranking, t, h, price, d)
  {
    var stops := StopLevels(p, d);
    StopsMean(p, d);
    DropMeans(Max(h.peak, price), price, stops.trailing);
    DropMeans(h.average, price, stops.maxLoss);
    if p.rankExit.Some? && ranking.Some? {
      FirstMeans(ranking.value, p.rankExit.value, t);
    }
    hide Drop, FallenBy, InFirst, Among, StopsOn, StopLevels;
  }

  lemma EntryMeans(p: Settings, price: real)
    ensures EntryQuantity(p, price).None? <==> Unsliced(p, price)
    ensures EntryQuantity(p, price).Some? ==> Sliced(p, price, EntryQuantity(p, price).value)
  {
    if price != 0.0 {
      var slice := SliceAt(p, price);
      assert Affords(p.capital, p.sizePct, price) == slice;
      hide Affords, SliceAt;
      if p.wholeShares {
        WholeMeans(slice);
      } else {
        RoundedMeans(Max(0.0001, slice));
      }
      hide RoundTo, Trunc;
    }
  }

  lemma WholeMeans(x: real)
    ensures Trunc(x) as real <= 0.0 <==> x < 1.0
    ensures
      var q := Trunc(x) as real;
      q > 0.0 ==> q >= 1.0 && q == q.Floor as real && q <= x < q + 1.0
  {
  }

  lemma RoundedMeans(x: real)
    ensures exists n: int :: RoundTo(x, 10000) == TenThousandths(n)
    ensures -0.00005 <= RoundTo(x, 10000) - x <= 0.00005
  {
    assert RoundTo(x, 10000) == TenThousandths(RoundHalfEven(x * 10000.0));
  }

  /** What is told to be leaving already of a holding. */
  function Leaving(ctx: Context, t: Ticker): real {
    if t in ctx.pendingSells then ctx.pendingSells[t] else 0.0
  }

  /**
   What the sleeve answers of a ticker with a full lookback of bars: of one it
   holds, a sale of what is not leaving already when there is a reason for one;
   of one it does not, a purchase when it is ranked among the first and in
   season, of a slice of its capital.
   */
  lemma SleeveAnswers(bars: Bars, tickers: seq<Ticker>, p: Settings, t: Ticker, shown: seq<Bar>, ctx: Context)
    ensures |shown| <= p.lookback ==> Signals(bars, tickers, p)(t, shown, ctx) == None
    ensures |shown| > p.lookback ==>
      var a, last := Signals(bars, tickers, p)(t, shown, ctx), shown[|shown| - 1];
      var r := RankingOn(bars, tickers, p, last.date);
      if t in ctx.positions then
        var reason := SaleReason(p, r, t, ctx.positions[t], last.close, last.date);
        var rest := ctx.positions[t].quantity - Leaving(ctx, t);
        a == if reason.Some? && rest > 0.0 then Some(Signal(Sell, last.close, rest, "Unknown", reason.value)) else None
      else
        var wanted := r.Some? && Among(r.value, p.topN, t) && (OutOfSeason(p, t, last.date) ==> p.regimes == map[]);
        && (a.Some? <==> wanted && !Unsliced(p, last.close))
        && (a.Some? ==> Sliced(p, last.close, a.value.quantity)
                        && a.value == Signal(Buy, last.close, a.value.quantity, "Unknown", ""))
  {
    if |shown| > p.lookback {
      var last := shown[|shown| - 1];
      var r := RankingOn(bars, tickers, p, last.date);
      hide RankingOn;
      AnswerMeans(p, r, t, last, ctx);
      hide SignalAt, SaleReason, Among, OutOfSeason, Unsliced, Sliced, Leaving;
    }
  }

  lemma AnswerMeans(p: Settings, r: Option<seq<Ticker>>, t: Ticker, bar: Bar, ctx: Context)
    ensures
      var a := SignalAt(p, r, t, bar, ctx);
      if t in ctx.positions then
        var reason := SaleReason(p, r, t, ctx.positions[t], bar.close, bar.date);
        var rest := ctx.positions[t].quantity - Leaving(ctx, t);
        a == if reason.Some? && rest > 0.0 then Some(Signal(Sell, bar.close, rest, "Unknown", reason.value)) else None
      else
        var wanted := r.Some? && Among(r.value, p.topN, t) && (OutOfSeason(p, t, bar.date) ==> p.regimes == map[]);
        && (a.Some? <==> wanted && !Unsliced(p, bar.close))
        && (a.Some? ==> Sliced(p, bar.close, a.value.quantity)
                        && a.value == Signal(Buy, bar.close, a.value.quantity, "Unknown", ""))
  {
    if t in ctx.positions {
      if !OutOfSeason(p, t, bar.date) {
        ReasonMeans(p, r, t, ctx.positions[t], bar.close, bar.date);
        hide SaleReason;
      }
      hide ExitReasonOf, EntryQuantity, InFirst;
    } else {
      if r.Some? {
        FirstMeans(r.value, p.topN, t);
      }
      EntryMeans(p, bar.close);
      hide EntryQuantity, InFirst, Among, Unsliced, Sliced, ExitReasonOf;
    }
  }

  /** On a replay's own book the sleeve never sells a holding that is on its way out. */
  lemma LeavingIsNotSold(bars: Bars, tickers: seq<Ticker>, p: Settings, b: Book, budget: real, t: Ticker,
                         shown: seq<Bar>)
    requires t in b.positions && b.positions[t] != [] && t in b.exits
    ensures Signals(bars, tickers, p)(t, shown, RunnerContext(b, budget)) == None
  {
    SleeveAnswers(bars, tickers, p, t, shown, RunnerContext(b, budget));
    hide SaleReason, Among, Signals, HeldOf;
  }
}
