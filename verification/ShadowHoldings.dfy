/**
 Reconstructing a past session's holdings from a finished run: only the closed
 trades and the lots still open are read, and the answer is exactly what the
 replay held at that session's close.
 */
module ShadowHoldings {
  import opened Basics
  import opened Market
  import opened Costs
  import opened Replay
  import opened ReplayBooks
  import opened ReplayLifecycle
  import opened ReplayAccounts
  import opened ReplayHistory

  // ---- The reconstruction ----

  /** The last close a ticker printed by a session. */
  function CloseBy(bars: Bars, t: Ticker, s: int): Option<real> {
    if t in bars && UpTo(bars[t], s) != [] then Some(UpTo(bars[t], s)[|UpTo(bars[t], s)| - 1].close) else None
  }

  function Priced(close: Option<real>, q: real): real {
    if close.Some? then close.value * q else 0.0
  }

  predicate HeldAcross(tr: Trade, s: int) {
    tr.entryDate <= s < tr.exitDate
  }

  /** What a closed trade was worth at a session's close, if it was held then. */
  function TradeHeld(bars: Bars, s: int): Trade -> real {
    (tr: Trade) => if HeldAcross(tr, s) then Priced(CloseBy(bars, tr.ticker, s), tr.quantity) else 0.0
  }

  /** What a lot of a ticker priced at a close was worth, if it was open then. */
  function LotHeld(close: Option<real>, s: int): Lot -> real {
    (lot: Lot) => if lot.entryDate <= s then Priced(close, lot.quantity) else 0.0
  }

  function PositionHeld(bars: Bars, s: int): OpenPosition -> real {
    (p: OpenPosition) => LotHeld(CloseBy(bars, p.ticker, s), s)(p.lot)
  }

  function LotsHeld(bars: Bars, s: int, b: Book): Ticker -> real {
    t => SeqSum(LotsOf(b, t), LotHeld(CloseBy(bars, t, s), s))
  }

  /** The market value of the holdings at a session's close, read from trades and open lots. */
  function HeldValue(rules: Rules, bars: Bars, s: int, b: Book): real {
    SeqSum(b.trades, TradeHeld(bars, s)) + Sum(rules.tickers, LotsHeld(bars, s, b))
  }

  /** _invested_at: the fraction of a NAV that was invested at a session's close. */
  function InvestedAt(rules: Rules, bars: Bars, s: int, b: Book, nav: real): real {
    if nav > 0.0 then HeldValue(rules, bars, s, b) / nav else 0.0
  }

  lemma {:induction false} TaggedSum(bars: Bars, s: int, t: Ticker, lots: seq<Lot>)
    ensures SeqSum(TaggedLots(t, lots), PositionHeld(bars, s)) == SeqSum(lots, LotHeld(CloseBy(bars, t, s), s))
  {
    hide CloseBy, Priced;
    if lots != [] {
      var n := |lots| - 1;
      assert TaggedLots(t, lots)[..n] == TaggedLots(t, lots[..n]);
      TaggedSum(bars, s, t, lots[..n]);
    }
  }

  lemma {:induction false} OpenSum(tickers: seq<Ticker>, n: nat, bars: Bars, s: int, b: Book)
    requires n <= |tickers|
    ensures SeqSum(OpenTo(tickers, n, b), PositionHeld(bars, s)) == SumTo(tickers, n, LotsHeld(bars, s, b))
  {
    hide TaggedLots, PositionHeld, LotHeld, CloseBy, SeqSum;
    if n == 0 {
      NoOpenWorth(bars, s);
    } else {
      OpenSum(tickers, n - 1, bars, s, b);
      TaggedSum(bars, s, tickers[n - 1], LotsOf(b, tickers[n - 1]));
      SeqSumConcat(OpenTo(tickers, n - 1, b), TaggedLots(tickers[n - 1], LotsOf(b, tickers[n - 1])),
                   PositionHeld(bars, s));
    }
  }

  lemma NoOpenWorth(bars: Bars, s: int)
    ensures SeqSum([], PositionHeld(bars, s)) == 0.0
  {
  }

  /** The tickers and quantities held at a session's close: of trades held across it, then of lots open by it. */
  function HeldTrades(trades: seq<Trade>, s: int): seq<(Ticker, real)> {
    if trades == [] then []
    else
      var tr := trades[|trades| - 1];
      HeldTrades(trades[..|trades| - 1], s) + if HeldAcross(tr, s) then [(tr.ticker, tr.quantity)] else []
  }

  function HeldOpen(open: seq<OpenPosition>, s: int): seq<(Ticker, real)> {
    if open == [] then []
    else
      var p := open[|open| - 1];
      HeldOpen(open[..|open| - 1], s) + if p.lot.entryDate <= s then [(p.ticker, p.lot.quantity)] else []
  }

  function WorthBy(bars: Bars, s: int): ((Ticker, real)) -> real {
    (h: (Ticker, real)) => Priced(CloseBy(bars, h.0, s), h.1)
  }

  lemma {:induction false} TradesWorth(bars: Bars, s: int, trades: seq<Trade>)
    ensures SeqSum(HeldTrades(trades, s), WorthBy(bars, s)) == SeqSum(trades, TradeHeld(bars, s))
  {
    hide CloseBy, Priced;
    if trades != [] {
      var head, tr := trades[..|trades| - 1], trades[|trades| - 1];
      TradesWorth(bars, s, head);
      SeqSumPush(HeldTrades(head, s), (tr.ticker, tr.quantity), WorthBy(bars, s));
      assert HeldTrades(trades, s)
             == if HeldAcross(tr, s) then HeldTrades(head, s) + [(tr.ticker, tr.quantity)] else HeldTrades(head, s);
    }
  }

  lemma {:induction false} OpenWorth(bars: Bars, s: int, open: seq<OpenPosition>)
    ensures SeqSum(HeldOpen(open, s), WorthBy(bars, s)) == SeqSum(open, PositionHeld(bars, s))
  {
    hide CloseBy, Priced;
    if open != [] {
      var head, p := open[..|open| - 1], open[|open| - 1];
      OpenWorth(bars, s, head);
      SeqSumPush(HeldOpen(head, s), (p.ticker, p.lot.quantity), WorthBy(bars, s));
      assert WorthBy(bars, s)((p.ticker, p.lot.quantity)) == Priced(CloseBy(bars, p.ticker, s), p.lot.quantity);
      assert PositionHeld(bars, s)(p) == LotHeld(CloseBy(bars, p.ticker, s), s)(p.lot);
      assert HeldOpen(head, s) + [] == HeldOpen(head, s);
      assert HeldOpen(open, s)
             == if p.lot.entryDate <= s then HeldOpen(head, s) + [(p.ticker, p.lot.quantity)] else HeldOpen(head, s);
    }
  }

  /** The reconstruction as it runs, from a result's trades and open positions. */
  method Reconstruct(bars: Bars, s: int, trades: seq<Trade>, open: seq<OpenPosition>, nav: real)
    returns (invested: real)
    ensures
      var worth := SeqSum(trades, TradeHeld(bars, s)) + SeqSum(open, PositionHeld(bars, s));
      invested == if nav > 0.0 then worth / nav else 0.0
  {
    hide CloseBy, SeqSum, TradeHeld, PositionHeld;
    TradesWorth(bars, s, trades);
    OpenWorth(bars, s, open);
    var held := HeldTrades(trades, s) + HeldOpen(open, s);
    SeqSumConcat(HeldTrades(trades, s), HeldOpen(open, s), WorthBy(bars, s));
    var marketValue := 0.0;
    NothingWorth(bars, s);
    for i := 0 to |held|
      invariant marketValue == SeqSum(held[..i], WorthBy(bars, s))
    {
      assert held[..i + 1] == held[..i] + [held[i]];
      SeqSumPush(held[..i], held[i], WorthBy(bars, s));
      WorthIs(bars, s, held[i]);
      hide WorthBy;
      var close := CloseBy(bars, held[i].0, s);
      if close.Some? {
        marketValue := marketValue + close.value * held[i].1;
      }
    }
    assert held[..|held|] == held;
    invested := if nav > 0.0 then marketValue / nav else 0.0;
  }

  lemma NothingWorth(bars: Bars, s: int)
    ensures SeqSum([], WorthBy(bars, s)) == 0.0
  {
  }

  lemma WorthIs(bars: Bars, s: int, h: (Ticker, real))
    ensures
      var close := CloseBy(bars, h.0, s);
      WorthBy(bars, s)(h) == if close.Some? then close.value * h.1 else 0.0
  {
    hide CloseBy;
  }

  /** What is read from a result's trades and listed lots is what is read from its book. */
  lemma InvestedFromParts(rules: Rules, bars: Bars, s: int, b: Book, nav: real)
    ensures
      var worth := SeqSum(b.trades, TradeHeld(bars, s)) + SeqSum(OpenPositions(rules, b), PositionHeld(bars, s));
      InvestedAt(rules, bars, s, b, nav) == if nav > 0.0 then worth / nav else 0.0
  {
    hide TradeHeld, PositionHeld, SeqSum, LotsHeld;
    OpenSum(rules.tickers, |rules.tickers|, bars, s, b);
  }

  // ---- Later sessions leave the reconstruction alone ----

  lemma {:induction false} ClosedHeld(bars: Bars, s: int, m: CostModel, t: Ticker, lots: seq<Lot>, price: real, d: int,
                                      reason: string)
    requires s < d
    ensures SeqSum(ClosedTrades(m, t, lots, price, d, reason), TradeHeld(bars, s))
            == SeqSum(lots, LotHeld(CloseBy(bars, t, s), s))
  {
    hide CloseBy, Priced, CommissionFor;
    if lots != [] {
      var n := |lots| - 1;
      ClosedHeld(bars, s, m, t, lots[..n], price, d, reason);
      var before, tr := ClosedTrades(m, t, lots[..n], price, d, reason), TradeOf(m, t, lots[n], price, d, reason);
      SeqSumPush(before, tr, TradeHeld(bars, s));
      assert TradeHeld(bars, s)(tr) == LotHeld(CloseBy(bars, t, s), s)(lots[n]);
    }
  }

  lemma HeldChange(rules: Rules, bars: Bars, s: int, b: Book, c: Book, t: Ticker)
    requires Distinct(rules.tickers) && t in Elements(rules.tickers)
    requires forall x :: x != t ==> LotsOf(b, x) == LotsOf(c, x)
    ensures Sum(rules.tickers, LotsHeld(bars, s, c))
            == Sum(rules.tickers, LotsHeld(bars, s, b)) + LotsHeld(bars, s, c)(t) - LotsHeld(bars, s, b)(t)
  {
    hide CloseBy, Priced, LotHeld;
    var ts := rules.tickers;
    assert ts[..|ts|] == ts;
    SumChange(ts, |ts|, LotsHeld(bars, s, b), LotsHeld(bars, s, c), t);
  }

  lemma SameHeld(rules: Rules, bars: Bars, s: int, b: Book, c: Book)
    requires b.positions == c.positions && b.trades == c.trades
    ensures HeldValue(rules, bars, s, c) == HeldValue(rules, bars, s, b)
  {
    hide CloseBy, LotHeld, TradeHeld;
    SumAgree(rules.tickers, |rules.tickers|, LotsHeld(bars, s, b), LotsHeld(bars, s, c));
  }

  lemma CloseHeld(rules: Rules, bars: Bars, s: int, b: Book, t: Ticker, price: real, d: int, reason: string)
    requires Distinct(rules.tickers) && t in Elements(rules.tickers) && t in b.positions && s < d
    ensures HeldValue(rules, bars, s, ClosePosition(rules.costs, b, t, price, d, reason))
            == HeldValue(rules, bars, s, b)
  {
    hide CloseBy, LotHeld, TradeHeld, SoldEvents, ClosedTrades, Distinct, Elements;
    var c := ClosePosition(rules.costs, b, t, price, d, reason);
    var closed := ClosedTrades(rules.costs, t, b.positions[t], price, d, reason);
    ClosedHeld(bars, s, rules.costs, t, b.positions[t], price, d, reason);
    SeqSumConcat(b.trades, closed, TradeHeld(bars, s));
    HeldChange(rules, bars, s, b, c, t);
    assert LotsOf(c, t) == [];
  }

  lemma OpenHeld(rules: Rules, bars: Bars, s: int, b: Book, t: Ticker, f: Fill)
    requires Distinct(rules.tickers) && t in Elements(rules.tickers) && f.quantity > 0.0 && s < f.date
    ensures HeldValue(rules, bars, s, OpenLot(b, t, f)) == HeldValue(rules, bars, s, b)
  {
    var close := CloseBy(bars, t, s);
    SeqSumPush(LotsOf(b, t), LotFrom(f), LotHeld(close, s));
    assert LotHeld(close, s)(LotFrom(f)) == 0.0;
    hide CloseBy, LotHeld, TradeHeld, Distinct, Elements, LotFrom;
    HeldChange(rules, bars, s, b, OpenLot(b, t, f), t);
  }

  lemma WriteOffHeld(rules: Rules, bars: Bars, s: int, d: int, t: Ticker, b: Book)
    requires Distinct(rules.tickers) && t in Elements(rules.tickers) && s < d
    ensures HeldValue(rules, bars, s, WriteOff(rules, d, t, b)) == HeldValue(rules, bars, s, b)
  {
    hide HeldValue, ClosePosition, ExitReason, Without, Distinct, Elements;
    var dropped := DropExit(b.(entries := b.entries - {t}), t);
    SameHeld(rules, bars, s, b, dropped);
    if t in b.positions && t in b.lastClose {
      CloseHeld(rules, bars, s, dropped, t, FillTerminalExit(rules.costs, 0.0, b.lastClose[t], d, t).price, d,
                ExitReason(b, t));
    }
  }

  lemma {:induction false} WriteOffsHeld(rules: Rules, bars: Bars, s: int, d: int, names: seq<Ticker>, n: nat, b: Book)
    requires n <= |names| && Distinct(rules.tickers) && s < d && Elements(names) <= Elements(rules.tickers)
    ensures HeldValue(rules, bars, s, WriteOffs(rules, d, names, n, b)) == HeldValue(rules, bars, s, b)
  {
    hide HeldValue, WriteOff, Distinct;
    if n > 0 {
      WriteOffsHeld(rules, bars, s, d, names, n - 1, b);
      assert names[n - 1] in Elements(names);
      WriteOffHeld(rules, bars, s, d, names[n - 1], WriteOffs(rules, d, names, n - 1, b));
    }
  }

  lemma WorkExitHeld(rules: Rules, bars: Bars, s: int, d: int, day: map<Ticker, Bar>, t: Ticker, b: Book)
    requires Distinct(rules.tickers) && day.Keys <= Elements(rules.tickers) && s < d && PrintedOn(day, d)
    ensures HeldValue(rules, bars, s, WorkExit(rules, day, t, b)) == HeldValue(rules, bars, s, b)
  {
    hide HeldValue, ClosePosition, Without, Distinct, Elements;
    var dropped := DropExit(b, t);
    SameHeld(rules, bars, s, b, dropped);
    if t in day && t in b.exits && t in b.positions {
      assert t in Elements(rules.tickers);
      var f := FillMarketExit(rules.costs, 0.0, day[t], t);
      CloseHeld(rules, bars, s, dropped, t, f.price, f.date, b.exits[t]);
    }
  }

  lemma {:induction false} WorkExitsHeld(rules: Rules, bars: Bars, s: int, d: int, day: map<Ticker, Bar>,
                                         order: seq<Ticker>, n: nat, b: Book)
    requires n <= |order| && Distinct(rules.tickers)
    requires day.Keys <= Elements(rules.tickers) && s < d && PrintedOn(day, d)
    ensures HeldValue(rules, bars, s, WorkExits(rules, day, order, n, b)) == HeldValue(rules, bars, s, b)
  {
    hide HeldValue, WorkExit, Distinct, PrintedOn;
    if n > 0 {
      WorkExitsHeld(rules, bars, s, d, day, order, n - 1, b);
      WorkExitHeld(rules, bars, s, d, day, order[n - 1], WorkExits(rules, day, order, n - 1, b));
    }
  }

  lemma WorkEntryHeld(rules: Rules, bars: Bars, s: int, d: int, day: map<Ticker, Bar>, t: Ticker, b: Book)
    requires Distinct(rules.tickers) && day.Keys <= Elements(rules.tickers) && s < d && PrintedOn(day, d)
    ensures HeldValue(rules, bars, s, WorkEntry(rules, day, t, b)) == HeldValue(rules, bars, s, b)
  {
    hide HeldValue, OpenLot, Distinct, TryFillLimitEntry, Elements;
    if t in b.entries && t in day {
      assert t in Elements(rules.tickers);
      var f := TryFillLimitEntry(rules.costs, b.entries[t].limit, b.entries[t].quantity, day[t], t);
      if f.Some? {
        OpenHeld(rules, bars, s, b, t, f.value);
      }
    }
  }

  lemma {:induction false} WorkEntriesHeld(rules: Rules, bars: Bars, s: int, d: int, day: map<Ticker, Bar>, n: nat,
                                           b: Book)
    requires n <= |rules.tickers| && Distinct(rules.tickers) && day.Keys <= Elements(rules.tickers)
    requires s < d && PrintedOn(day, d)
    ensures HeldValue(rules, bars, s, WorkEntries(rules, day, n, b)) == HeldValue(rules, bars, s, b)
  {
    hide HeldValue, WorkEntry, Distinct, PrintedOn;
    if n > 0 {
      WorkEntriesHeld(rules, bars, s, d, day, n - 1, b);
      WorkEntryHeld(rules, bars, s, d, day, rules.tickers[n - 1], WorkEntries(rules, day, n - 1, b));
    }
  }

  lemma ClosedDayHeld(rules: Rules, bars: Bars, s: int, day: map<Ticker, Bar>, b: Book)
    ensures HeldValue(rules, bars, s, Closed(day, b)) == HeldValue(rules, bars, s, b)
  {
    hide CloseBy, TradeHeld;
    var c := Closed(day, b);
    var f, g := LotsHeld(bars, s, b), LotsHeld(bars, s, c);
    forall t
      ensures f(t) == g(t)
    {
      if t in b.positions && t in day {
        RaisedCost(b.positions[t], day[t].close, LotHeld(CloseBy(bars, t, s), s));
      }
    }
    SumAgree(rules.tickers, |rules.tickers|, f, g);
  }

  lemma BeforeFlowsHeld(rules: Rules, bars: Bars, s: int, d: int, day: map<Ticker, Bar>, b: Book)
    requires Distinct(rules.tickers) && day.Keys <= Elements(rules.tickers) && s < d && PrintedOn(day, d)
    ensures HeldValue(rules, bars, s, BeforeFlows(rules, d, day, b)) == HeldValue(rules, bars, s, b)
  {
    hide HeldValue, WriteOffs, WorkExits, WorkEntries, Gate, Recorded, Names, Aged, Distinct, PrintedOn;
    var names := Names(rules);
    NamesAreTickers(rules);
    var aged := b.(stale := Aged(day, b.stale));
    SameHeld(rules, bars, s, b, aged);
    WriteOffsHeld(rules, bars, s, d, names, |names|, aged);
    var w := AfterWriteOffs(rules, d, day, b);
    WorkExitsHeld(rules, bars, s, d, day, w.exitOrder, |w.exitOrder|, w);
    WorkEntriesHeld(rules, bars, s, d, day, |rules.tickers|, AfterExits(rules, d, day, b));
    var e := AfterEntries(rules, d, day, b);
    SameAfterGate(rules, d, day, e);
    SameHeld(rules, bars, s, e, BeforeFlows(rules, d, day, b));
  }

  lemma NamesAreTickers(rules: Rules)
    ensures Elements(Names(rules)) == Elements(rules.tickers)
  {
    SortedElements(Elements(rules.tickers));
  }

  lemma SameAfterGate(rules: Rules, d: int, day: map<Ticker, Bar>, e: Book)
    ensures
      var names := Names(rules);
      var c := Gate(rules, d, names, |names|, Recorded(day, Expired(e)));
      c.positions == e.positions && c.trades == e.trades
  {
    hide Gate, Recorded, Names;
    var names := Names(rules);
    GateSame(rules, d, names, |names|, Recorded(day, Expired(e)));
    RecordedKeepsBooks(day, Expired(e));
  }

  lemma RecordedKeepsBooks(day: map<Ticker, Bar>, b: Book)
    ensures Recorded(day, b).positions == b.positions && Recorded(day, b).trades == b.trades
  {
  }

  lemma StepHeld(rules: Rules, strategy: Strategy, basis: Option<DatedSum>, bars: Bars, s: int, d: int,
                 day: map<Ticker, Bar>, st: State, next: State)
    requires Distinct(rules.tickers) && Sound(rules, st.book) && day.Keys <= Elements(rules.tickers)
    requires s < d && PrintedOn(day, d) && StepDay(rules, strategy, basis, d, day, st) == Success(next)
    ensures HeldValue(rules, bars, s, next.book) == HeldValue(rules, bars, s, st.book)
  {
    hide HeldValue, BeforeFlows, Sound, ApplyFlows, AfterDecisions, Distinct, MarksCurrent, Closed, StepDay, PrintedOn;
    StepStages(rules, strategy, basis, d, day, st, next);
    var gated := st.(book := BeforeFlows(rules, d, day, st.book));
    var c := AfterDecisions(rules, strategy, d, day, ApplyFlows(d, gated).value.book);
    BeforeFlowsHeld(rules, bars, s, d, day, st.book);
    SameHeld(rules, bars, s, gated.book, c);
    ClosedDayHeld(rules, bars, s, day, c);
  }

  // ---- At the session itself ----

  lemma {:induction false} NothingLeft(bars: Bars, s: int, trades: seq<Trade>)
    requires forall tr :: tr in trades ==> tr.exitDate <= s
    ensures SeqSum(trades, TradeHeld(bars, s)) == 0.0
  {
    hide CloseBy, Priced;
    if trades != [] {
      assert trades[|trades| - 1] in trades;
      NothingLeft(bars, s, trades[..|trades| - 1]);
    }
  }

  lemma LotsAtClose(rules: Rules, bars: Bars, s: int, b: Book, t: Ticker)
    requires Elements(rules.tickers) == bars.Keys && Shown(rules, bars, s, b) && ClosesFollow(b) && LotsBy(b, s)
    requires b.positions.Keys <= b.lastClose.Keys
    ensures LotsHeld(bars, s, b)(t) == Worth(b)(t)
  {
    if t in b.positions {
      assert t in b.history && t in bars && b.history[t] == UpTo(bars[t], s);
      assert CloseBy(bars, t, s) == Some(b.lastClose[t]);
      hide CloseBy, UpTo;
      SeqSumAgree(b.positions[t], LotHeld(CloseBy(bars, t, s), s), WorthAt(b.lastClose[t]));
    }
  }

  /** Nothing sold is still counted, and every open lot is, at its last close. */
  lemma HeldNow(rules: Rules, bars: Bars, s: int, b: Book)
    requires Elements(rules.tickers) == bars.Keys && Shown(rules, bars, s, b) && ClosesFollow(b)
    requires TradesEndLater(b, s) && LotsBy(b, s) && b.positions.Keys <= b.lastClose.Keys
    ensures HeldValue(rules, bars, s, b) == WorthOf(rules, b)
  {
    NothingLeft(bars, s, b.trades);
    hide TradeHeld, LotsHeld, Shown, ClosesFollow, LotsBy, Worth;
    forall i | 0 <= i < |rules.tickers|
      ensures LotsHeld(bars, s, b)(rules.tickers[i]) == Worth(b)(rules.tickers[i])
    {
      LotsAtClose(rules, bars, s, b, rules.tickers[i]);
    }
    SumAgree(rules.tickers, |rules.tickers|, LotsHeld(bars, s, b), Worth(b));
  }

  lemma OrderlyDates(rules: Rules, b: Book, d: int)
    requires Orderly(rules, b, d)
    ensures TradesEndLater(b, d) && LotsBy(b, d)
  {
  }

  /** However much later the run ends, the reconstruction is what was held: the value less the cash of that session. */
  lemma {:induction false} HeldIsValueLessCash(rules: Rules, strategy: Strategy, plan: Plan, bars: Bars, k: nat, n: nat,
                                               held: State, last: State)
    requires Universe(rules, bars) && k < n <= |Sessions(bars)| && forall t :: t in bars ==> ByDate(bars[t])
    requires RunTo(rules, strategy, plan, bars, k + 1) == Success(held)
    requires RunTo(rules, strategy, plan, bars, n) == Success(last)
    ensures |held.values| == k + 2
    ensures HeldValue(rules, bars, Sessions(bars)[k], last.book) == held.values[k + 1] - held.book.cash
  {
    hide StepDay, Balanced, Day, Sound, Shown, ClosesFollow, ByDate, HeldValue, WorthOf, TradesEndLater, LotsBy,
         Orderly,
         MarksCurrent, PrintedOn, Start;
    RunDated(rules, strategy, plan, bars, k + 1, held);
    if n == k + 1 {
      var prev, d := RunTo(rules, strategy, plan, bars, k).value, Sessions(bars)[k];
      RunBalanced(rules, strategy, plan, bars, k, prev);
      BalancedIsSound(rules, prev);
      RunBalanced(rules, strategy, plan, bars, n, held);
      BalancedIsSound(rules, held);
      SoundHoldings(rules, held.book);
      DayInUniverse(rules, bars, d);
      StepValue(rules, strategy, plan.basis, d, Day(bars, d), prev, held);
      HistoryIsBarsSoFar(rules, strategy, plan, bars, n, held);
      RunOrderly(rules, strategy, plan, bars, n, held);
      OrderlyDates(rules, held.book, d);
      HeldNow(rules, bars, d, held.book);
    } else {
      var prev, d := RunTo(rules, strategy, plan, bars, n - 1).value, Sessions(bars)[n - 1];
      HeldIsValueLessCash(rules, strategy, plan, bars, k, n - 1, held, prev);
      RunBalanced(rules, strategy, plan, bars, n - 1, prev);
      BalancedIsSound(rules, prev);
      DayInUniverse(rules, bars, d);
      DayPrinted(bars, d);
      StepHeld(rules, strategy, plan.basis, bars, Sessions(bars)[k], d, Day(bars, d), prev, last);
    }
  }

  /**
   After-the-fact reconstruction is exact. For every replayed session worth
   something, the invested fraction computed from the final trades and open
   lots alone equals (NAV - cash) / NAV as the replay held it at that close.
   */
  lemma InvestedIsExact(rules: Rules, strategy: Strategy, plan: Plan, bars: Bars, k: nat, n: nat, held: State,
                        last: State)
    requires Universe(rules, bars) && k < n <= |Sessions(bars)| && forall t :: t in bars ==> ByDate(bars[t])
    requires RunTo(rules, strategy, plan, bars, k + 1) == Success(held)
    requires RunTo(rules, strategy, plan, bars, n) == Success(last)
    ensures |held.values| == k + 2
    ensures
      var nav := held.values[k + 1];
      nav > 0.0 ==> InvestedAt(rules, bars, Sessions(bars)[k], last.book, nav) == (nav - held.book.cash) / nav
  {
    hide RunTo, HeldValue, ByDate, Sessions;
    HeldIsValueLessCash(rules, strategy, plan, bars, k, n, held, last);
  }
}
