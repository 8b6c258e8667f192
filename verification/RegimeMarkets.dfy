/**
 Two small markets on which the regime switch shows: in one a sleeve buys an
 inverse fund it would have refused, in the other it sells a holding it would
 have kept.
 */
module RegimeMarkets {
  import opened Basics
  import opened Market
  import opened Costs
  import opened Replay
  import opened ReplayHistory
  import opened LookAhead
  import opened Breadth
  import opened Momentum
  import opened MomentumRegimes
  import opened ReplayOverdraft
  import opened RegimeRuns

  // ---- A market of one ticker ----

  function Sole(): Ticker {
    0
  }

  /** A sleeve of one slot and no lookback, on the default stops. */
  function OneSlot(bears: set<Ticker>): Settings {
    Settings(1, 0, 1.0, 100.0, Stops(0.10, 0.08), map[], bears, {}, (t: Ticker, d: int) => true, true, None)
  }

  function Levels(): Thresholds {
    Thresholds(0.6, 0.4, 0.2)
  }

  lemma OneReturn(r: Return)
    ensures FirstTickers(Ranked([r]), 1) == [r.ticker]
  {
    assert [r][..0] == [];
    assert Ranked([r]) == [r];
  }

  lemma SoleGathered(s: Settings, now: map<Ticker, real>, d: int)
    requires Qualifies(now, now, s, d, Sole())
    ensures Momentum.Gathered([Sole()], 1, now, now, s, d) == [ReturnOf(now, now, Sole())]
  {
    assert Momentum.Gathered([Sole()], 0, now, now, s, d) == [];
  }

  lemma SoleCloses(listed: seq<Bar>, bears: set<Ticker>, d: int)
    requires BarOn(listed, d).Some? && BarOn(listed, d).value.close > 0.0
    ensures
      var bars, s := map[Sole() := listed], OneSlot(bears);
      Pool(bars, s) == bars && Qualifies(ClosesOn(bars, d), ClosesOn(bars, d), s, d, Sole())
  {
  }

  /** With no lookback the only ticker is ranked on every date it prints. */
  lemma SoleRanked(bears: set<Ticker>, listed: seq<Bar>, d: int)
    requires BarOn(listed, d).Some? && BarOn(listed, d).value.close > 0.0
    ensures RankingOn(map[Sole() := listed], [Sole()], OneSlot(bears), d) == Some([Sole()])
  {
    hide RankingOn, Sessions, BarOn, Pool, ClosesOn, Qualifies, Momentum.Gathered, Ranked, FirstTickers;
    var bars, s := map[Sole() := listed], OneSlot(bears);
    SoleCloses(listed, bears, d);
    SessionOf(bars, Sole(), d);
    var i :| 0 <= i < |Sessions(bars)| && Sessions(bars)[i] == d;
    RankingAt(bars, [Sole()], s, i);
    SoleGathered(s, ClosesOn(bars, d), d);
    OneReturn(ReturnOf(ClosesOn(bars, d), ClosesOn(bars, d), Sole()));
  }

  // ---- An inverse fund, bought before regimes are known ----

  function Flat(d: int, price: real): Bar {
    Bar(d, price, price, price, price, 0)
  }

  function TwoDays(): seq<Bar> {
    [Flat(1, 50.0), Flat(2, 50.0)]
  }

  lemma TwoDaysCut()
    ensures UpTo(TwoDays(), 1) == [Flat(1, 50.0)] && BarOn(TwoDays(), 1) == Some(Flat(1, 50.0))
  {
    var b := TwoDays();
    assert b[..1] == [Flat(1, 50.0)] && b[..1][..0] == [];
    assert UpTo(b[..1][..0], 1) == [];
    assert UpTo(b[..1], 1) == [Flat(1, 50.0)];
  }

  lemma TwoDaysAverage()
    ensures AllByDate(map[Sole() := TwoDays()]) && !SameSwitch(map[Sole() := TwoDays()], [Sole()], 2, 1)
  {
    TwoDaysCut();
    hide UpTo;
    assert Sole() in [Sole()] && |TwoDays()| >= 2;
  }

  lemma TwoDaysTurn()
    ensures TurnsOn(OneSlot({Sole()}), map[Sole() := TwoDays()], [Sole()], Sole(), 1)
  {
    TwoDaysCut();
    SoleRanked({Sole()}, TwoDays(), 1);
    hide RankingOn, UpTo, BarOn;
    assert Affords(100.0, 1.0, 50.0) == 2.0;
  }

  /**
   Two sessions of one inverse fund, and a two-bar average: the replay cut after
   the first buys it, which the replay of both sessions does not.
   */
  lemma InverseFundBought(h: Thresholds)
    ensures
      var bars, s := map[Sole() := TwoDays()], OneSlot({Sole()});
      var rules := OneChance([Sole()], Sole(), 1, CashFor(s, 50.0));
      var early := Run(rules, EarlySignals(s, bars, [Sole()], 2, h, 1), Flowless(), Truncate(bars, 1));
      var full := RunTo(rules, FullSignals(s, bars, [Sole()], 2, h), Flowless(), bars, CountUpTo(Sessions(bars), 1));
      && !SameSwitch(bars, [Sole()], 2, 1) && early.Success? && full.Success?
      && early.value.book.funnel.queued >= 1 && full.value.book.funnel.queued == 0
  {
    var bars, s := map[Sole() := TwoDays()], OneSlot({Sole()});
    TwoDaysAverage();
    TwoDaysTurn();
    hide TurnsOn, EarlySignals, FullSignals, RunTo, Truncate, SameSwitch, Sessions, AllByDate, CashFor, TwoDays,
         BarOn;
    TwoDaysCut();
    BearRunDiffers(s, bars, [Sole()], 2, h, 1, Sole(), 1);
  }

  // ---- A pullback, sold before regimes are known ----

  /** Bought at 100, up to 120, back to 107: more than a tenth off its peak and less than twelve hundredths. */
  function Pullback(): seq<Bar> {
    [Flat(1, 100.0), Bar(2, 100.0, 120.0, 100.0, 120.0, 0), Flat(3, 107.0), Flat(4, 107.0)]
  }

  function PullbackDay(d: int): (day: map<Ticker, Bar>)
    requires 1 <= d <= 4
    ensures day.Keys == {Sole()}
  {
    map[Sole() := Pullback()[d - 1]]
  }

  function OneShare(): Deal {
    Deal(CostModel(0.0, 0.0, 0.0, map[]), true, Sole(), 100.0, 1.0)
  }

  lemma OneSharePaid()
    ensures Placeable(OneShare()) && Outlay(OneShare()) == 100.0
    ensures DealLot(OneShare()) == Lot(1.0, 100.0, 2, 0.0, 100.0)
  {
  }

  function HeldAt(peak: real): Context {
    Context(map[Sole() := HeldPosition(1.0, 100.0, peak, 2)], map[], 100.0)
  }

  /** A sleeve that buys on the first session, keeps on the second and answers something on the third. */
  ghost predicate Answering(strategy: Strategy, bars: Bars, last: Option<Signal>)
    requires Sole() in bars && |Sessions(bars)| >= 3
  {
    && strategy(Sole(), ShownAfter(bars, Sole(), 1), Bare(100.0)) == Some(Signal(Buy, 100.0, 1.0, "Unknown", ""))
    && strategy(Sole(), ShownAfter(bars, Sole(), 2), HeldAt(100.0)) == None
    && strategy(Sole(), ShownAfter(bars, Sole(), 3), HeldAt(120.0)) == last
  }

  lemma EmptyContext(b: Book)
    requires b.positions == map[]
    ensures RunnerContext(b, 100.0) == Bare(100.0)
  {
  }

  lemma FirstDay(strategy: Strategy, st: State)
    requires st == Start(DealRules(OneShare()), Flowless())
    requires
      var b := BeforeFlows(DealRules(OneShare()), 1, PullbackDay(1), st.book);
      strategy(Sole(), HistoryOf(b, Sole()), Bare(100.0)) == Some(Signal(Buy, 100.0, 1.0, "Unknown", ""))
    ensures
      var r := StepDay(DealRules(OneShare()), strategy, None, 1, PullbackDay(1), st);
      r.Success? && Plain(OneShare(), r.value) && Queued1(OneShare(), r.value.book)
  {
    hide StepDay, BeforeFlows, Answered, DealEntry, PullbackDay, Outlay, Placeable, RunnerContext;
    var x := OneShare();
    OneSharePaid();
    assert PendingFlows(map[]) == [];
    var b := BeforeFlows(DealRules(x), 1, PullbackDay(1), st.book);
    Session(x, strategy, 1, PullbackDay(1), st);
    FirstMorning(x, PullbackDay(1), st.book);
    EmptyContext(b);
    BuyQueued(x, strategy, 1, PullbackDay(1), b, "Unknown", "");
  }

  ghost predicate HeldSince(b: Book, peak: real) {
    && b.positions == map[Sole() := [Lot(1.0, 100.0, 2, 0.0, peak)]] && b.entries == map[] && b.exits == map[]
    && b.exitOrder == [] && b.stale == map[Sole() := 0] && b.history.Keys == {Sole()}
  }

  lemma HeldContext(b: Book, peak: real)
    requires HeldSince(b, peak)
    ensures RunnerContext(b, 100.0) == HeldAt(peak)
  {
    var lots := [Lot(1.0, 100.0, 2, 0.0, peak)];
    assert HeldOf(lots) == HeldPosition(1.0, 100.0, peak, 2);
    hide HeldOf;
  }

  lemma SecondDay(strategy: Strategy, st: State)
    requires Plain(OneShare(), st) && Queued1(OneShare(), st.book)
    requires
      var b := BeforeFlows(DealRules(OneShare()), 2, PullbackDay(2), st.book);
      strategy(Sole(), HistoryOf(b, Sole()), HeldAt(100.0)) == None
    ensures
      var r := StepDay(DealRules(OneShare()), strategy, None, 2, PullbackDay(2), st);
      r.Success? && Plain(OneShare(), r.value) && HeldSince(r.value.book, 120.0)
  {
    hide StepDay, BeforeFlows, RunnerContext, DealEntry, DealLot, DealRules, Outlay;
    var x := OneShare();
    OneSharePaid();
    var b := BeforeFlows(DealRules(x), 2, PullbackDay(2), st.book);
    Session(x, strategy, 2, PullbackDay(2), st);
    SecondMorning(x, PullbackDay(2), st.book);
    HeldContext(b, 100.0);
    assert Answered(x, strategy, 2, PullbackDay(2), b) == b;
    assert RaisedPeaks([Lot(1.0, 100.0, 2, 0.0, 100.0)], 120.0) == [Lot(1.0, 100.0, 2, 0.0, 120.0)];
  }

  lemma ThirdMorningHeld(was: Book)
    requires HeldSince(was, 120.0)
    ensures HeldSince(BeforeFlows(DealRules(OneShare()), 3, PullbackDay(3), was), 120.0)
  {
    hide BeforeFlows, Recorded, DealRules, PullbackDay;
    var x := OneShare();
    Overnight(x, 3, PullbackDay(3), was);
    assert (map t | t in was.stale :: 0) == was.stale;
    Noted(x, PullbackDay(3), was);
  }

  lemma SaleAnswered(strategy: Strategy, b: Book, last: Option<Signal>)
    requires HeldSince(b, 120.0) && (last.Some? ==> last.value.action == Sell)
    requires strategy(Sole(), HistoryOf(b, Sole()), RunnerContext(b, Outlay(OneShare()))) == last
    ensures Answered(OneShare(), strategy, 3, PullbackDay(3), b).exits
            == if last.Some? then map[Sole() := last.value.reason] else map[]
  {
    hide RunnerContext, Outlay;
  }

  lemma ThirdDay(strategy: Strategy, st: State, last: Option<Signal>)
    requires Plain(OneShare(), st) && HeldSince(st.book, 120.0) && (last.Some? ==> last.value.action == Sell)
    requires
      var b := BeforeFlows(DealRules(OneShare()), 3, PullbackDay(3), st.book);
      strategy(Sole(), HistoryOf(b, Sole()), HeldAt(120.0)) == last
    ensures
      var r := StepDay(DealRules(OneShare()), strategy, None, 3, PullbackDay(3), st);
      r.Success? && r.value.book.exits == if last.Some? then map[Sole() := last.value.reason] else map[]
  {
    hide StepDay, BeforeFlows, RunnerContext, DealRules, Outlay, Answered, PullbackDay, HeldSince;
    var x := OneShare();
    OneSharePaid();
    var b := BeforeFlows(DealRules(x), 3, PullbackDay(3), st.book);
    Session(x, strategy, 3, PullbackDay(3), st);
    ThirdMorningHeld(st.book);
    HeldContext(b, 120.0);
    SaleAnswered(strategy, b, last);
  }

  function PullbackBars(): Bars {
    map[Sole() := Pullback()]
  }

  lemma PullbackPrints(d: int)
    requires 1 <= d <= 4
    ensures BarOn(Pullback(), d) == Some(Pullback()[d - 1])
    ensures Day(PullbackBars(), d) == PullbackDay(d)
  {
    var prints := Pullback();
    assert prints[..3] == [prints[0], prints[1], prints[2]];
    assert prints[..3][..2] == [prints[0], prints[1]];
    assert prints[..3][..2][..1] == [prints[0]];
  }

  lemma PullbackDates()
    ensures SessionSet(PullbackBars()) == {1, 2, 3, 4}
  {
    var bars, prints := PullbackBars(), Pullback();
    forall d
      ensures d in SessionSet(bars) <==> d in {1, 2, 3, 4}
    {
      if 1 <= d <= 4 {
        assert prints[d - 1] in bars[Sole()] && prints[d - 1].date == d;
      }
    }
  }

  lemma FourDates(dates: seq<int>)
    requires Ascending(dates) && forall d :: d in dates <==> d in {1, 2, 3, 4}
    ensures dates == [1, 2, 3, 4]
  {
    var four := [1, 2, 3, 4];
    assert four[0] == 1 && four[1] == 2 && four[2] == 3 && four[3] == 4;
    forall d
      ensures d in Elements(dates) <==> d in Elements(four)
    {
    }
    AscendingUnique(dates, four);
  }

  lemma PullbackSessions()
    ensures Sessions(PullbackBars()) == [1, 2, 3, 4]
  {
    PullbackDates();
    hide SessionSet, Sessions, PullbackBars;
    FourDates(Sessions(PullbackBars()));
  }

  lemma PullbackUniverse()
    ensures Universe(DealRules(OneShare()), PullbackBars())
  {
    OneName(OneShare());
  }

  /** One session of the replay: it comes next and shows its ticker's bars so far. */
  lemma PullbackStep(strategy: Strategy, n: nat, prev: State)
    requires 1 <= n <= 3
    requires |Sessions(PullbackBars())| == 4
    requires RunTo(DealRules(OneShare()), strategy, Flowless(), PullbackBars(), n - 1) == Success(prev)
    ensures RunTo(DealRules(OneShare()), strategy, Flowless(), PullbackBars(), n)
            == StepDay(DealRules(OneShare()), strategy, None, n, PullbackDay(n), prev)
    ensures HistoryOf(BeforeFlows(DealRules(OneShare()), n, PullbackDay(n), prev.book), Sole())
            == ShownAfter(PullbackBars(), Sole(), n)
  {
    hide StepDay, BeforeFlows, DealRules, PullbackDay, Universe, Sessions, ShownAfter, ClosesFollow, Pullback;
    var rules, bars := DealRules(OneShare()), PullbackBars();
    PullbackSessions();
    PullbackPrints(n);
    PullbackUniverse();
    HistoryIsPrinted(rules, strategy, Flowless(), bars, n - 1, prev);
    MorningRemembers(rules, bars, n, prev.book);
  }

  lemma PullbackRun(strategy: Strategy, last: Option<Signal>)
    requires |Sessions(PullbackBars())| == 4
    requires Answering(strategy, PullbackBars(), last) && (last.Some? ==> last.value.action == Sell)
    ensures
      var r := RunTo(DealRules(OneShare()), strategy, Flowless(), PullbackBars(), 3);
      r.Success? && r.value.book.exits == if last.Some? then map[Sole() := last.value.reason] else map[]
  {
    hide StepDay, BeforeFlows, DealRules, PullbackDay, Sessions, ShownAfter, Start, Plain, Queued1, HeldSince,
         PullbackBars, HistoryOf;
    var rules, bars := DealRules(OneShare()), PullbackBars();
    var s0 := Start(rules, Flowless());
    assert RunTo(rules, strategy, Flowless(), bars, 0) == Success(s0);
    PullbackStep(strategy, 1, s0);
    FirstDay(strategy, s0);
    var s1 := StepDay(rules, strategy, None, 1, PullbackDay(1), s0).value;
    hide RunTo;
    PullbackStep(strategy, 2, s1);
    SecondDay(strategy, s1);
    var s2 := StepDay(rules, strategy, None, 2, PullbackDay(2), s1).value;
    PullbackStep(strategy, 3, s2);
    ThirdDay(strategy, s2, last);
  }

  // ---- What the two sleeves answer ----

  lemma PullbackCut()
    ensures AllByDate(PullbackBars()) && !SameSwitch(PullbackBars(), [Sole()], 4, 3)
    ensures forall d :: 1 <= d <= 3 ==> |UpTo(Pullback(), d)| == d
  {
    var b := Pullback();
    assert b[..3] == [b[0], b[1], b[2]] && b[..3][..2] == [b[0], b[1]] && b[..3][..2][..1] == [b[0]];
    assert b[..3][..2][..1][..0] == [];
    forall d | 1 <= d <= 3
      ensures |UpTo(b, d)| == d
    {
      assert UpTo(b[..3][..2][..1][..0], d) == [];
      assert |UpTo(b[..3][..2][..1], d)| == 1;
      assert |UpTo(b[..3][..2], d)| == if d >= 2 then 2 else 1;
      assert |UpTo(b[..3], d)| == d;
    }
    hide UpTo;
    assert Sole() in [Sole()] && |b| >= 4;
  }

  /** Either sleeve's settings, on a date its regimes say nothing of. */
  ghost predicate Undated(p: Settings, d: int) {
    p == OneSlot({}).(regimes := p.regimes) && (d in p.regimes ==> p.regimes[d] == Neutral)
  }

  lemma BuysFirst(p: Settings)
    requires Undated(p, 1)
    ensures SignalAt(p, Some([Sole()]), Sole(), Flat(1, 100.0), Bare(100.0))
            == Some(Signal(Buy, 100.0, 1.0, "Unknown", ""))
  {
    assert Affords(100.0, 1.0, 100.0) == 1.0;
    assert [Sole()][..1] == [Sole()] && Sole() in [Sole()];
    assert InFirst([Sole()], 1, Sole());
    hide InFirst, Affords;
    assert EntryQuantity(p, 100.0) == Some(1.0);
  }

  lemma KeepsSecond(p: Settings)
    requires Undated(p, 2)
    ensures SignalAt(p, Some([Sole()]), Sole(), Pullback()[1], HeldAt(100.0)) == None
  {
    assert Drop(120.0, 120.0) == 0.0 && Drop(100.0, 120.0) == -0.2;
    hide Drop;
    assert ExitReasonOf(p, Some([Sole()]), Sole(), HeldPosition(1.0, 100.0, 100.0, 2), 120.0, 2) == None;
    hide ExitReasonOf, EntryQuantity;
  }

  lemma SellsThird(p: Settings)
    requires Undated(p, 3)
    ensures SignalAt(p, Some([Sole()]), Sole(), Flat(3, 107.0), HeldAt(120.0))
            == if p.regimes == map[] then Some(Signal(Sell, 107.0, 1.0, "Unknown", "trailing_stop")) else None
  {
    assert Drop(120.0, 107.0) == 13.0 / 120.0 && Drop(100.0, 107.0) == -0.07;
    hide Drop;
    assert ExitReasonOf(p, Some([Sole()]), Sole(), HeldPosition(1.0, 100.0, 120.0, 2), 107.0, 3)
           == if p.regimes == map[] then Some("trailing_stop") else None;
    hide ExitReasonOf, EntryQuantity;
  }

  lemma PullbackAnswers(h: Thresholds)
    requires |Sessions(PullbackBars())| == 4
    ensures Answering(EarlySignals(OneSlot({}), PullbackBars(), [Sole()], 4, h, 3), PullbackBars(),
                      Some(Signal(Sell, 107.0, 1.0, "Unknown", "trailing_stop")))
    ensures Answering(FullSignals(OneSlot({}), PullbackBars(), [Sole()], 4, h), PullbackBars(), None)
  {
    hide EarlySignals, FullSignals, Sessions, ShownAfter, RankingOn, RegimeTable, SignalAt, SameSwitch, UpTo, BarOn;
    var bars, s := PullbackBars(), OneSlot({});
    PullbackSessions();
    PullbackCut();
    var on := RegimeTable(bars, [Sole()], 4, h);
    forall n: nat, ctx | 1 <= n <= 3
      ensures
        var shown, bar := ShownAfter(bars, Sole(), n), Pullback()[n - 1];
        && (on != map[]) && (bar.date in on ==> on[bar.date] == Neutral)
        && EarlySignals(s, bars, [Sole()], 4, h, 3)(Sole(), shown, ctx)
           == SignalAt(s.(regimes := map[]), Some([Sole()]), Sole(), bar, ctx)
        && FullSignals(s, bars, [Sole()], 4, h)(Sole(), shown, ctx)
           == SignalAt(s.(regimes := on), Some([Sole()]), Sole(), bar, ctx)
    {
      PullbackPrints(n);
      Asked(s, bars, [Sole()], 4, h, 3, Sole(), n, ctx);
      SoleRanked({}, Pullback(), n);
    }
    BuysFirst(s.(regimes := map[]));
    KeepsSecond(s.(regimes := map[]));
    SellsThird(s.(regimes := map[]));
    BuysFirst(s.(regimes := on));
    KeepsSecond(s.(regimes := on));
    SellsThird(s.(regimes := on));
  }

  /**
   Three sessions of one ticker on the default stops, and a four-bar average: the
   replay cut after the third queues a sale, by the sleeve's own trailing stop,
   of what the replay of all four sessions keeps.
   */
  lemma PullbackSold(h: Thresholds)
    ensures
      var bars, s, rules := PullbackBars(), OneSlot({}), DealRules(OneShare());
      var early := Run(rules, EarlySignals(s, bars, [Sole()], 4, h, 3), Flowless(), Truncate(bars, 3));
      var full := RunTo(rules, FullSignals(s, bars, [Sole()], 4, h), Flowless(), bars, CountUpTo(Sessions(bars), 3));
      && Universe(rules, bars) && early.Success? && full.Success?
      && early.value.book.exits == map[Sole() := "trailing_stop"] && full.value.book.exits == map[]
  {
    hide RunTo, Truncate, EarlySignals, FullSignals, Answering, Sessions, DealRules, PullbackBars;
    var bars, s, rules := PullbackBars(), OneSlot({}), DealRules(OneShare());
    PullbackSessions();
    PullbackUniverse();
    PullbackAnswers(h);
    var early := EarlySignals(s, bars, [Sole()], 4, h, 3);
    PullbackRun(early, Some(Signal(Sell, 107.0, 1.0, "Unknown", "trailing_stop")));
    PullbackRun(FullSignals(s, bars, [Sole()], 4, h), None);
    SameStrategyNoLookAhead(rules, early, Flowless(), bars, 3);
    assert CountUpTo([1, 2, 3, 4], 3) == 3;
  }
}
