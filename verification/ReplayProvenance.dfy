/**
 Where every trade and every lot of a run comes from, told on the bars: what day
 it was bought and what the ticker traded at then, what day it was sold and at
 whose open or whose last close, and what its peak has been since.
 */
module ReplayProvenance {
  import opened Basics
  import opened Market
  import opened Costs
  import opened Replay
  import opened ReplayBooks
  import opened ReplayLifecycle
  import opened ReplaySessions

  /** A ticker's bar on a session, by the session's place among them. */
  function BarAt(bars: Bars, t: Ticker, i: int): Option<Bar> {
    if t in bars && 0 <= i < |Sessions(bars)| then BarOn(bars[t], Sessions(bars)[i]) else None
  }

  /** Of the first n sessions, one is the last on which the ticker printed. */
  ghost predicate LastPrint(bars: Bars, t: Ticker, n: int, j: int) {
    0 <= j < n && BarAt(bars, t, j).Some? && forall k :: j < k < n ==> BarAt(bars, t, k).None?
  }

  // ---- The statements ----

  /** Bought on a session the ticker printed, at the open or, lower, at a price it traded at or below. */
  ghost predicate BoughtThen(rules: Rules, bars: Bars, t: Ticker, price: real, date: int, q: real, commission: real) {
    && commission == Charge(rules.costs, q)
    && exists i, base ::
         && 0 <= i < |Sessions(bars)| && Sessions(bars)[i] == date && BarAt(bars, t, i).Some?
         && (base == BarAt(bars, t, i).value.open
             || BarAt(bars, t, i).value.low <= base < BarAt(bars, t, i).value.open)
         && price == PaidFor(rules.costs, t, base)
  }

  /**
   Sold on a session: at the ticker's open if it printed, and otherwise at the
   close of its last bar, at least the delisting limit of sessions before.
   */
  ghost predicate SoldThen(rules: Rules, bars: Bars, t: Ticker, price: real, date: int) {
    exists i ::
      && 0 <= i < |Sessions(bars)| && Sessions(bars)[i] == date
      && if BarAt(bars, t, i).Some? then price == Fetched(rules.costs, t, BarAt(bars, t, i).value.open)
         else exists j ::
           && LastPrint(bars, t, i, j) && i - j >= rules.staleLimit
           && price == Fetched(rules.costs, t, BarAt(bars, t, j).value.close)
  }

  ghost predicate TradeTrue(rules: Rules, bars: Bars, tr: Trade) {
    && BoughtThen(rules, bars, tr.ticker, tr.entryPrice, tr.entryDate, tr.quantity, tr.entryCommission)
    && SoldThen(rules, bars, tr.ticker, tr.exitPrice, tr.exitDate)
    && tr.exitCommission == Charge(rules.costs, tr.quantity)
    && tr.pnl == (tr.exitPrice - tr.entryPrice) * tr.quantity - tr.entryCommission - tr.exitCommission
  }

  /** A peak is the highest of the entry price and the closes since. */
  ghost predicate PeakTrue(bars: Bars, t: Ticker, lot: Lot, n: nat)
    requires n <= |Sessions(bars)|
  {
    && lot.peak >= lot.entryPrice
    && (forall k :: 0 <= k < n && Sessions(bars)[k] >= lot.entryDate && BarAt(bars, t, k).Some? ==>
          lot.peak >= BarAt(bars, t, k).value.close)
    && (lot.peak == lot.entryPrice
        || exists k :: 0 <= k < n && Sessions(bars)[k] >= lot.entryDate && BarAt(bars, t, k).Some?
                       && lot.peak == BarAt(bars, t, k).value.close)
  }

  ghost predicate LotTrue(rules: Rules, bars: Bars, t: Ticker, lot: Lot, n: nat)
    requires n <= |Sessions(bars)|
  {
    && BoughtThen(rules, bars, t, lot.entryPrice, lot.entryDate, lot.quantity, lot.entryCommission)
    && PeakTrue(bars, t, lot, n) && n > 0 && lot.entryDate <= Sessions(bars)[n - 1]
  }

  /** A ticker's count is of the sessions since it printed, and its last close that of its last bar. */
  ghost predicate CountTrue(bars: Bars, n: nat, b: Book, t: Ticker)
    requires n <= |Sessions(bars)|
  {
    if t in b.stale then
      && LastPrint(bars, t, n, n - 1 - b.stale[t])
      && t in b.lastClose && b.lastClose[t] == BarAt(bars, t, n - 1 - b.stale[t]).value.close
    else
      t !in b.lastClose && forall k :: 0 <= k < n ==> BarAt(bars, t, k).None?
  }

  ghost predicate AllTrue(rules: Rules, bars: Bars, n: nat, b: Book)
    requires n <= |Sessions(bars)|
  {
    && (forall t :: CountTrue(bars, n, b, t))
    && (forall tr :: tr in b.trades ==> TradeTrue(rules, bars, tr))
    && (forall t, lot :: lot in LotsOf(b, t) ==> LotTrue(rules, bars, t, lot, n))
  }

  // ---- One session ----

  lemma DayIs(bars: Bars, n: nat, t: Ticker)
    requires 0 < n <= |Sessions(bars)|
    ensures
      var day := Day(bars, Sessions(bars)[n - 1]);
      (t in day <==> BarAt(bars, t, n - 1).Some?) && (t in day ==> day[t] == BarAt(bars, t, n - 1).value)
  {
  }

  lemma CountStep(bars: Bars, n: nat, b: Book, c: Book, t: Ticker)
    requires 0 < n <= |Sessions(bars)| && CountTrue(bars, n - 1, b, t)
    requires
      var day := Day(bars, Sessions(bars)[n - 1]);
      && (t in c.stale <==> t in b.stale || t in day)
      && (t in c.stale ==> c.stale[t] == if t in day then 0 else b.stale[t] + 1)
      && (t in c.lastClose <==> t in b.lastClose || t in day)
      && (t in c.lastClose ==> c.lastClose[t] == if t in day then day[t].close else b.lastClose[t])
    ensures CountTrue(bars, n, c, t)
  {
    hide BarAt, Sessions;
    DayIs(bars, n, t);
  }

  /** What leaves is sold as told. */
  lemma SaleTrue(rules: Rules, bars: Bars, n: nat, b: Book, t: Ticker, lot: Lot)
    requires 0 < n <= |Sessions(bars)| && rules.staleLimit >= 1 && CountTrue(bars, n - 1, b, t)
    requires LotTrue(rules, bars, t, lot, n - 1)
    requires
      var day := Day(bars, Sessions(bars)[n - 1]);
      Leaves(rules, day, b, t)
    ensures
      var d := Sessions(bars)[n - 1];
      TradeTrue(rules, bars, Sale(rules, d, Day(bars, d), b, t, lot))
  {
    hide BarAt, Sessions, Fetched, PaidFor, Charge, BoughtThen, PeakTrue, Day;
    DayIs(bars, n, t);
    var d := Sessions(bars)[n - 1];
    var tr := Sale(rules, d, Day(bars, d), b, t, lot);
    if BarAt(bars, t, n - 1).None? {
      assert LastPrint(bars, t, n - 1, n - 2 - b.stale[t]);
    }
    assert SoldThen(rules, bars, t, tr.exitPrice, d);
  }

  /** A lot bought today is bought as told. */
  lemma OpenedTrue(rules: Rules, bars: Bars, n: nat, b: Book, t: Ticker)
    requires 0 < n <= |Sessions(bars)|
    requires
      var day := Day(bars, Sessions(bars)[n - 1]);
      Fills(rules, day, b, t)
    ensures
      var d := Sessions(bars)[n - 1];
      var lot := Opened(rules, d, Day(bars, d), b, t);
      && BoughtThen(rules, bars, t, lot.entryPrice, lot.entryDate, lot.quantity, lot.entryCommission)
      && lot.peak == lot.entryPrice && lot.entryDate == d
  {
    hide BarAt, Sessions, PaidFor, Charge, Day;
    DayIs(bars, n, t);
    var d := Sessions(bars)[n - 1];
    var base := Min(Day(bars, d)[t].open, b.entries[t].limit);
    assert Opened(rules, d, Day(bars, d), b, t).entryPrice == PaidFor(rules.costs, t, base);
  }

  /** A lot kept, or opened today, has its peak as told once it is marked. */
  lemma PeakStep(bars: Bars, t: Ticker, lot: Lot, n: nat)
    requires 0 < n <= |Sessions(bars)| && lot.entryDate <= Sessions(bars)[n - 1]
    requires PeakTrue(bars, t, lot, n - 1) || (lot.peak == lot.entryPrice && lot.entryDate == Sessions(bars)[n - 1])
    ensures PeakTrue(bars, t, AtClose(Day(bars, Sessions(bars)[n - 1]), t, lot), n)
  {
    hide BarAt, Day;
    DayIs(bars, n, t);
    var day := Day(bars, Sessions(bars)[n - 1]);
    var marked := AtClose(day, t, lot);
    assert forall k :: 0 <= k < n - 1 && Sessions(bars)[k] >= lot.entryDate && BarAt(bars, t, k).Some? ==>
        lot.peak >= BarAt(bars, t, k).value.close;
  }

  lemma LotStep(rules: Rules, bars: Bars, n: nat, b: Book, t: Ticker, lot: Lot)
    requires 0 < n <= |Sessions(bars)|
    requires forall lot :: lot in LotsOf(b, t) ==> LotTrue(rules, bars, t, lot, n - 1)
    requires
      var d := Sessions(bars)[n - 1];
      lot in Remaining(rules, d, Day(bars, d), b, t)
    ensures LotTrue(rules, bars, t, AtClose(Day(bars, Sessions(bars)[n - 1]), t, lot), n)
  {
    hide BarAt, Day, BoughtThen, PeakTrue, Fills, Opened, Leaves;
    var d := Sessions(bars)[n - 1];
    var marked := AtClose(Day(bars, d), t, lot);
    if lot in LotsOf(b, t) {
      assert LotTrue(rules, bars, t, lot, n - 1);
      assert Sessions(bars)[n - 2] <= d;
    } else {
      OpenedTrue(rules, bars, n, b, t);
    }
    PeakStep(bars, t, lot, n);
    assert marked == lot.(peak := marked.peak);
  }

  lemma TradeStep(rules: Rules, bars: Bars, n: nat, b: Book, c: Book, t: Ticker)
    requires 0 < n <= |Sessions(bars)| && rules.staleLimit >= 1 && CountTrue(bars, n - 1, b, t)
    requires forall lot :: lot in LotsOf(b, t) ==> LotTrue(rules, bars, t, lot, n - 1)
    requires forall tr :: tr in b.trades ==> TradeTrue(rules, bars, tr)
    requires
      var d := Sessions(bars)[n - 1];
      TradesOf(c.trades, t) == TradesOf(b.trades, t)
        + if Leaves(rules, Day(bars, d), b, t) then Sales(rules, d, Day(bars, d), b, t, LotsOf(b, t)) else []
    ensures forall tr :: tr in c.trades && tr.ticker == t ==> TradeTrue(rules, bars, tr)
  {
    hide BarAt, Day, LotTrue, CountTrue, TradeTrue, Leaves, Sale, Sessions;
    var d := Sessions(bars)[n - 1];
    var day := Day(bars, d);
    forall tr | tr in c.trades && tr.ticker == t
      ensures TradeTrue(rules, bars, tr)
    {
      assert tr in TradesOf(c.trades, t);
      if tr !in TradesOf(b.trades, t) {
        var sales := Sales(rules, d, day, b, t, LotsOf(b, t));
        var i :| 0 <= i < |sales| && sales[i] == tr;
        assert LotsOf(b, t)[i] in LotsOf(b, t);
        SaleTrue(rules, bars, n, b, t, LotsOf(b, t)[i]);
      }
    }
  }

  ghost predicate TickerTrue(rules: Rules, bars: Bars, n: nat, b: Book, t: Ticker)
    requires n <= |Sessions(bars)|
  {
    && CountTrue(bars, n, b, t)
    && (forall tr :: tr in b.trades && tr.ticker == t ==> TradeTrue(rules, bars, tr))
    && (forall lot :: lot in LotsOf(b, t) ==> LotTrue(rules, bars, t, lot, n))
  }

  lemma TickerStep(rules: Rules, strategy: Strategy, plan: Plan, bars: Bars, n: nat, prev: State, st: State, t: Ticker)
    requires Universe(rules, bars) && rules.staleLimit >= 1 && 0 < n <= |Sessions(bars)|
    requires Sound(rules, prev.book) && AllTrue(rules, bars, n - 1, prev.book)
    requires
      var d := Sessions(bars)[n - 1];
      StepDay(rules, strategy, plan.basis, d, Day(bars, d), prev) == Success(st)
    ensures TickerTrue(rules, bars, n, st.book, t)
  {
    hide Sessions, Day, StepDay, Sound, CountTrue, TradeTrue, LotTrue, BarAt, Remaining, AtClose, Leaves, PrintedOn;
    var d := Sessions(bars)[n - 1];
    DayInUniverse(rules, bars, d);
    DayPrinted(bars, d);
    SessionCounts(rules, strategy, plan.basis, d, Day(bars, d), prev, st, t);
    CountStep(bars, n, prev.book, st.book, t);
    SessionTrades(rules, strategy, plan.basis, d, Day(bars, d), prev, st, t);
    TradeStep(rules, bars, n, prev.book, st.book, t);
    SessionHoldings(rules, strategy, plan.basis, d, Day(bars, d), prev, st, t);
    var lots := Remaining(rules, d, Day(bars, d), prev.book, t);
    forall lot | lot in LotsOf(st.book, t)
      ensures LotTrue(rules, bars, t, lot, n)
    {
      var i :| 0 <= i < |lots| && LotsOf(st.book, t)[i] == lot;
      LotStep(rules, bars, n, prev.book, t, lots[i]);
    }
  }

  lemma SessionTrue(rules: Rules, strategy: Strategy, plan: Plan, bars: Bars, n: nat, prev: State, st: State)
    requires Universe(rules, bars) && rules.staleLimit >= 1 && 0 < n <= |Sessions(bars)|
    requires Sound(rules, prev.book) && AllTrue(rules, bars, n - 1, prev.book)
    requires
      var d := Sessions(bars)[n - 1];
      StepDay(rules, strategy, plan.basis, d, Day(bars, d), prev) == Success(st)
    ensures AllTrue(rules, bars, n, st.book)
  {
    hide Sessions, Day, StepDay, Sound, CountTrue, TradeTrue, LotTrue;
    forall t
      ensures TickerTrue(rules, bars, n, st.book, t)
    {
      TickerStep(rules, strategy, plan, bars, n, prev, st, t);
    }
    assert forall tr :: tr in st.book.trades ==> TickerTrue(rules, bars, n, st.book, tr.ticker);
    assert forall t, lot :: lot in LotsOf(st.book, t) ==> TickerTrue(rules, bars, n, st.book, t);
    assert forall t :: CountTrue(bars, n, st.book, t) by {
      assert forall t :: TickerTrue(rules, bars, n, st.book, t) ==> CountTrue(bars, n, st.book, t);
    }
  }

  /**
   In every state of every run each closed trade was bought at the open, or at a
   lower price the ticker traded down to, slippage on top, and sold at the open
   of a day it printed, or at the close of its last bar once its bars had been
   missing for the delisting limit, slippage off; its profit is the difference
   over its quantity less both commissions. Each open lot was bought so, and its
   peak is the highest of its price and the closes since. Each ticker is known by
   the close of its last bar.
   */
  lemma {:induction false} RunTrue(rules: Rules, strategy: Strategy, plan: Plan, bars: Bars, n: nat, st: State)
    requires Universe(rules, bars) && rules.staleLimit >= 1 && n <= |Sessions(bars)|
    requires RunTo(rules, strategy, plan, bars, n) == Success(st)
    ensures AllTrue(rules, bars, n, st.book)
  {
    hide StepDay, Balanced, Day, Sound, AllTrue, Sessions;
    if n == 0 {
      StartTrue(rules, plan, bars);
    } else {
      var prev := RunTo(rules, strategy, plan, bars, n - 1).value;
      RunTrue(rules, strategy, plan, bars, n - 1, prev);
      RunBalanced(rules, strategy, plan, bars, n - 1, prev);
      BalancedIsSound(rules, prev);
      SessionTrue(rules, strategy, plan, bars, n, prev, st);
    }
  }

  lemma StartTrue(rules: Rules, plan: Plan, bars: Bars)
    ensures AllTrue(rules, bars, 0, Start(rules, plan).book)
  {
  }

  // ---- What is still open at the end ----

  lemma {:induction false} OpenTo(tickers: seq<Ticker>, n: nat, b: Book, x: OpenPosition)
    requires n <= |tickers|
    ensures x in Replay.OpenTo(tickers, n, b) <==> x.ticker in tickers[..n] && x.lot in LotsOf(b, x.ticker)
  {
    if n > 0 {
      var t := tickers[n - 1];
      OpenTo(tickers, n - 1, b, x);
      assert tickers[..n] == tickers[..n - 1] + [t];
      var lots := TaggedLots(t, LotsOf(b, t));
      if x.ticker == t && x.lot in LotsOf(b, t) {
        var i :| 0 <= i < |LotsOf(b, t)| && LotsOf(b, t)[i] == x.lot;
        assert lots[i] == x;
      }
    }
  }

  /** The positions a run hands back are exactly its open lots, each under its ticker. */
  lemma OpenAreLots(rules: Rules, b: Book, x: OpenPosition)
    requires Sound(rules, b)
    ensures x in OpenPositions(rules, b) <==> x.lot in LotsOf(b, x.ticker)
  {
    OpenTo(rules.tickers, |rules.tickers|, b, x);
    assert rules.tickers[..|rules.tickers|] == rules.tickers;
    assert x.ticker in Elements(rules.tickers) <==> x.ticker in rules.tickers;
    hide Replay.OpenTo;
  }
}
