/**
 Why the floor on prices is needed: below it a three-session replay that follows
 every rule buys with the whole of its cash, sells for less than the commission
 and ends overdrawn. So the floor is the exact condition for cash to stay at or
 above zero in every run at or above a price.
 */
module ReplayOverdraft {
  import opened Basics
  import opened Market
  import opened Costs
  import opened Replay
  import opened ReplayFunding
  import opened ReplaySolvency

  // ---- One purchase and sale at a flat price ----

  /** A quantity of one ticker, bought and sold at one price. */
  datatype Deal = Deal(costs: CostModel, whole: bool, ticker: Ticker, price: Positive, quantity: Positive)

  /** Nothing about the cost model pays the sleeve to trade. */
  ghost predicate Chargeable(m: CostModel) {
    m.minimum >= 0.0 && m.perShare >= 0.0 && forall t :: 0.0 <= SlippageFor(m, t) <= 10000.0
  }

  ghost predicate Placeable(x: Deal) {
    Chargeable(x.costs) && (x.whole ==> x.quantity == 1.0)
  }

  function Fee(x: Deal): real {
    CommissionFor(x.costs, x.quantity)
  }

  function Paid(x: Deal): real {
    x.price * (1.0 + SlippageFor(x.costs, x.ticker) / 10000.0)
  }

  /** What the purchase takes, commission included. */
  function Outlay(x: Deal): real {
    Paid(x) * x.quantity + Fee(x)
  }

  /** What the sale raises. */
  function Raised(x: Deal): real {
    NetPrice(x.costs, x.ticker, x.price) * x.quantity - Fee(x)
  }

  function DealRules(x: Deal): Rules {
    Rules([x.ticker], x.costs, 0.0, (q: RiskQuery) => RiskDecision(true, q.quantity), (t: Ticker, d: int) => true,
          None, 10,
          Outlay(x), x.whole)
  }

  /** Buy when flat, sell when held. */
  function InAndOut(x: Deal): Strategy {
    (t: Ticker, history: seq<Bar>, ctx: Context) =>
      if t in ctx.positions then Some(Signal(Sell, x.price, x.quantity, "", "out"))
      else Some(Signal(Buy, x.price, x.quantity, "", "in"))
  }

  function FlatBar(x: Deal, d: int): Bar {
    Bar(d, x.price, x.price, x.price, x.price, 0)
  }

  function FlatDay(x: Deal, d: int): (day: map<Ticker, Bar>)
    ensures day.Keys == {x.ticker}
  {
    map[x.ticker := FlatBar(x, d)]
  }

  function ThreeBars(x: Deal): seq<Bar> {
    [FlatBar(x, 1), FlatBar(x, 2), FlatBar(x, 3)]
  }

  function FlatBars(x: Deal): Bars {
    map[x.ticker := ThreeBars(x)]
  }

  function NoFlows(): Plan {
    Plan(map[], None)
  }

  lemma ThreeSessions(x: Deal)
    ensures Sessions(FlatBars(x)) == [1, 2, 3]
    ensures forall d :: 1 <= d <= 3 ==> Day(FlatBars(x), d) == FlatDay(x, d)
  {
    var bars, prints := FlatBars(x), ThreeBars(x);
    forall d
      ensures d in SessionSet(bars) <==> d in [1, 2, 3]
    {
      assert prints[0] in bars[x.ticker] && prints[1] in bars[x.ticker] && prints[2] in bars[x.ticker];
    }
    assert Elements(Sessions(bars)) == Elements([1, 2, 3]);
    AscendingUnique(Sessions(bars), [1, 2, 3]);
    assert prints[..2] == [prints[0], prints[1]];
    assert prints[..2][..1] == [prints[0]];
  }

  lemma OneName(x: Deal)
    ensures Names(DealRules(x)) == [x.ticker]
    ensures Elements(DealRules(x).tickers) == {x.ticker}
  {
    assert Elements(DealRules(x).tickers) == {x.ticker};
    assert Elements(SortedInts({x.ticker})) == Elements([x.ticker]) by {
      SortedElements({x.ticker});
    }
    AscendingUnique(SortedInts({x.ticker}), [x.ticker]);
  }

  // ---- One session ----

  function DealEntry(x: Deal): PendingEntry {
    PendingEntry(x.price, x.quantity, Outlay(x))
  }

  function DealLot(x: Deal): Lot {
    Lot(x.quantity, Paid(x), 2, Fee(x), Paid(x))
  }

  /** With one name each phase is a single step. */
  lemma Overnight(x: Deal, d: int, day: map<Ticker, Bar>, b: Book)
    requires day.Keys == {x.ticker} && |b.exitOrder| <= 1 && b.stale.Keys <= {x.ticker}
    ensures
      var rules := DealRules(x);
      var w := b.(stale := map t | t in b.stale :: 0);
      var e := if b.exitOrder == [] then w else WorkExit(rules, day, b.exitOrder[0], w);
      BeforeFlows(rules, d, day, b) == Recorded(day, Expired(WorkEntry(rules, day, x.ticker, e)))
  {
    OneName(x);
    hide WriteOff, WorkExit, WorkEntry, Recorded, GateOne, Outlay;
    var rules := DealRules(x);
    var names := Names(rules);
    var aged := b.(stale := Aged(day, b.stale));
    var w := b.(stale := map t | t in b.stale :: 0);
    assert aged.stale == w.stale;
    Unaged(x, d, aged);
    assert WriteOffs(rules, d, names, 0, aged) == aged;
    assert AfterWriteOffs(rules, d, day, b) == w;
    if b.exitOrder != [] {
      assert WorkExits(rules, day, b.exitOrder, 0, w) == w;
    }
    var e := AfterExits(rules, d, day, b);
    assert WorkEntries(rules, day, 0, e) == e;
    var r := Recorded(day, Expired(AfterEntries(rules, d, day, b)));
    assert Gate(rules, d, names, 0, r) == r;
    assert Gate(rules, d, names, 1, r) == GateOne(rules, d, x.ticker, r);
    Member(x, d, r);
  }

  lemma Unaged(x: Deal, d: int, b: Book)
    requires x.ticker in b.stale ==> b.stale[x.ticker] == 0
    ensures WriteOff(DealRules(x), d, x.ticker, b) == b
  {
  }

  lemma Member(x: Deal, d: int, b: Book)
    ensures GateOne(DealRules(x), d, x.ticker, b) == b
  {
  }

  lemma AllMembers(x: Deal, d: int, day: map<Ticker, Bar>, b: Book)
    ensures OutOfUniverse(DealRules(x), d, day, b) == {}
  {
  }

  ghost predicate Plain(x: Deal, st: State) {
    st.pending == [] && st.scale.Some? && |st.book.exitOrder| <= 1 && st.book.stale.Keys <= {x.ticker}
  }

  /** The book after the session's one decision. */
  function Answered(x: Deal, strategy: Strategy, d: int, day: map<Ticker, Bar>, b: Book): Book {
    Decide(DealRules(x), strategy, d, day, {}, RunnerContext(b, Outlay(x)), x.ticker, b)
  }

  function Decided(x: Deal, d: int, b: Book): Book {
    Answered(x, InAndOut(x), d, FlatDay(x, d), b)
  }

  lemma Session(x: Deal, strategy: Strategy, d: int, day: map<Ticker, Bar>, st: State)
    requires Plain(x, st)
    ensures
      var b := BeforeFlows(DealRules(x), d, day, st.book);
      var r := StepDay(DealRules(x), strategy, None, d, day, st);
      && r.Success? && r.value.pending == [] && r.value.scale == st.scale
      && r.value.book == Closed(day, Answered(x, strategy, d, day, b))
  {
    hide BeforeFlows, Decide, Closed, RunnerContext, Nav, Outlay;
    var rules := DealRules(x);
    var b := BeforeFlows(rules, d, day, st.book);
    AllMembers(x, d, day, b);
    var ctx := RunnerContext(b, Outlay(x));
    assert Decisions(rules, strategy, d, day, {}, ctx, 0, b) == b;
    assert Decisions(rules, strategy, d, day, {}, ctx, 1, b) == Answered(x, strategy, d, day, b);
  }

  /** Recording a session's only bar. */
  lemma Noted(x: Deal, day: map<Ticker, Bar>, b: Book)
    requires day.Keys == {x.ticker} && b.history.Keys == {x.ticker} && b.stale.Keys <= {x.ticker}
    ensures
      var c := Recorded(day, b);
      && c == b.(stale := c.stale, history := c.history, lastClose := c.lastClose)
      && c.stale == map[x.ticker := if x.ticker in b.stale then b.stale[x.ticker] else 0]
      && c.history.Keys == {x.ticker}
  {
  }

  // ---- The first session: the buy is queued ----

  ghost predicate Queued1(x: Deal, b: Book) {
    && b.cash == Outlay(x) && b.positions == map[] && b.entries == map[x.ticker := DealEntry(x)]
    && b.exits == map[] && b.exitOrder == [] && b.stale == map[x.ticker := 0] && b.history.Keys == {x.ticker}
  }

  lemma FirstMorning(x: Deal, day: map<Ticker, Bar>, was: Book)
    requires was == EmptyBook(DealRules(x)) && day.Keys == {x.ticker}
    ensures
      var b := BeforeFlows(DealRules(x), 1, day, was);
      b.cash == Outlay(x) && b.positions == map[] && b.entries == map[] && b.exits == map[] && b.exitOrder == []
      && b.stale == map[x.ticker := 0] && b.history.Keys == {x.ticker}
  {
    hide BeforeFlows, Recorded, Outlay;
    OneName(x);
    Overnight(x, 1, day, was);
    assert was.(stale := map t | t in was.stale :: 0) == was;
    Noted(x, day, was);
  }

  /** The reservation for the deal is its outlay. */
  lemma Reserved(x: Deal)
    requires Placeable(x)
    ensures
      var terms := TermsFor(DealRules(x), x.ticker);
      Clamped(terms) == terms && SleeveBuyCost(x.quantity, x.price, terms) == Outlay(x)
  {
    var g := 1.0 + SlippageFor(x.costs, x.ticker) / 10000.0;
    assert x.quantity * x.price * g == x.price * g * x.quantity;
  }

  /** The cash covers the outlay, so the whole quantity is queued. */
  lemma BuyQueued(x: Deal, strategy: Strategy, d: int, day: map<Ticker, Bar>, b: Book, sector: string, reason: string)
    requires Placeable(x) && b.cash == Outlay(x) && b.entries == map[] && b.positions == map[] && x.ticker in day
    requires strategy(x.ticker, HistoryOf(b, x.ticker), RunnerContext(b, Outlay(x)))
             == Some(Signal(Buy, x.price, x.quantity, sector, reason))
    ensures
      var c := Answered(x, strategy, d, day, b);
      c == b.(entries := map[x.ticker := DealEntry(x)], funnel := c.funnel)
  {
    var rules := DealRules(x);
    assert Committed(rules, b) == 0.0 by {
      assert SumTo([x.ticker], 0, EntryCost(b.entries)) == 0.0;
    }
    Reserved(x);
    var s := Signal(Buy, x.price, x.quantity, sector, reason);
    hide Committed, SleeveBuyCost, TermsFor, Outlay, RunnerContext;
    assert Financed(rules, x.ticker, s, x.quantity, b) == Queued(DealEntry(x), false);
    assert OutcomeOf(rules, d, day, x.ticker, s, b) == Queued(DealEntry(x), false) by {
      hide Query, Financed;
    }
  }

  lemma First(x: Deal, st: State)
    requires Placeable(x) && st == Start(DealRules(x), NoFlows())
    ensures
      var r := StepDay(DealRules(x), InAndOut(x), None, 1, FlatDay(x, 1), st);
      r.Success? && Plain(x, r.value) && Queued1(x, r.value.book)
  {
    hide StepDay, BeforeFlows, Answered, Outlay, DealEntry;
    assert PendingFlows(map[]) == [];
    Session(x, InAndOut(x), 1, FlatDay(x, 1), st);
    FirstMorning(x, FlatDay(x, 1), st.book);
    BuyQueued(x, InAndOut(x), 1, FlatDay(x, 1), BeforeFlows(DealRules(x), 1, FlatDay(x, 1), st.book), "", "in");
  }

  // ---- The second session: the buy fills and the sale is queued ----

  ghost predicate Held2(x: Deal, b: Book) {
    && b.cash == 0.0 && b.positions == map[x.ticker := [DealLot(x)]] && b.entries == map[]
       && b.exits == map[x.ticker := "out"]
    && b.exitOrder == [x.ticker] && b.stale == map[x.ticker := 0] && b.history.Keys == {x.ticker}
  }

  lemma BuyFills(x: Deal, day: map<Ticker, Bar>, b: Book)
    requires b.entries == map[x.ticker := DealEntry(x)] && b.positions == map[]
    requires x.ticker in day && day[x.ticker].open == x.price && day[x.ticker].date == 2
    ensures
      var c := WorkEntry(DealRules(x), day, x.ticker, b);
      c == b.(cash := b.cash - Outlay(x), positions := map[x.ticker := [DealLot(x)]], funnel := c.funnel,
              tape := c.tape)
  {
    hide CommissionFor, SlippageFor;
    var bar := day[x.ticker];
    var fill := TryFillLimitEntry(x.costs, x.price, x.quantity, bar, x.ticker);
    assert fill.Some? && fill.value.price == Paid(x) && fill.value.commission == Fee(x);
    assert fill == Some(Fill(Paid(x), x.quantity, Fee(x), 2));
    assert LotsOf(b, x.ticker) + [LotFrom(fill.value)] == [DealLot(x)];
  }

  lemma SecondMorning(x: Deal, day: map<Ticker, Bar>, was: Book)
    requires Queued1(x, was) && day.Keys == {x.ticker} && day[x.ticker].open == x.price && day[x.ticker].date == 2
    ensures
      var b := BeforeFlows(DealRules(x), 2, day, was);
      b.cash == 0.0 && b.positions == map[x.ticker := [DealLot(x)]] && b.entries == map[] && b.exits == map[]
      && b.exitOrder == [] && b.stale == map[x.ticker := 0] && b.history.Keys == {x.ticker}
  {
    hide BeforeFlows, Recorded, WorkEntry, Outlay, DealEntry, DealLot;
    Overnight(x, 2, day, was);
    assert (map t | t in was.stale :: 0) == was.stale;
    BuyFills(x, day, was);
    Noted(x, day, Expired(WorkEntry(DealRules(x), day, x.ticker, was)));
  }

  lemma SaleQueued(x: Deal, b: Book)
    requires b.positions == map[x.ticker := [DealLot(x)]] && b.exits == map[] && b.exitOrder == []
    ensures Decided(x, 2, b) == b.(exits := map[x.ticker := "out"], exitOrder := [x.ticker])
  {
    hide HeldOf, Outlay, DealLot;
    assert x.ticker in RunnerContext(b, Outlay(x)).positions;
  }

  lemma PeakStands(x: Deal)
    requires Placeable(x)
    ensures RaisedPeaks([DealLot(x)], x.price) == [DealLot(x)]
  {
    TimesMonotone(1.0, 1.0 + SlippageFor(x.costs, x.ticker) / 10000.0, x.price);
    assert Times(1.0, x.price) == x.price && Times(1.0 + SlippageFor(x.costs, x.ticker) / 10000.0, x.price) == Paid(x);
  }

  lemma Second(x: Deal, st: State)
    requires Placeable(x) && Plain(x, st) && Queued1(x, st.book)
    ensures
      var r := StepDay(DealRules(x), InAndOut(x), None, 2, FlatDay(x, 2), st);
      r.Success? && Plain(x, r.value) && Held2(x, r.value.book)
  {
    hide StepDay, BeforeFlows, Answered, RunnerContext, RaisedPeaks, Outlay, DealLot, DealEntry;
    Session(x, InAndOut(x), 2, FlatDay(x, 2), st);
    SecondMorning(x, FlatDay(x, 2), st.book);
    SaleQueued(x, BeforeFlows(DealRules(x), 2, FlatDay(x, 2), st.book));
    PeakStands(x);
  }

  // ---- The third session: the sale fills ----

  lemma SaleRaises(x: Deal, why: string)
    ensures SeqSum(ClosedTrades(x.costs, x.ticker, [DealLot(x)], NetPrice(x.costs, x.ticker, x.price), 3, why),
                   CashRaised)
            == Raised(x)
  {
    hide CommissionFor, NetPrice, Paid;
    var net := NetPrice(x.costs, x.ticker, x.price);
    assert ClosedTrades(x.costs, x.ticker, [DealLot(x)][..0], net, 3, why) == [];
    var trade := TradeOf(x.costs, x.ticker, DealLot(x), net, 3, why);
    assert ClosedTrades(x.costs, x.ticker, [DealLot(x)], net, 3, why) == [trade];
    hide ClosedTrades;
    assert [trade][..0] == [] && CashRaised(trade) == Raised(x);
  }

  lemma Sells(x: Deal, b: Book)
    requires b.positions == map[x.ticker := [DealLot(x)]] && x.ticker in b.exits
    ensures WorkExit(DealRules(x), FlatDay(x, 3), x.ticker, b).cash == b.cash + Raised(x)
    ensures WorkExit(DealRules(x), FlatDay(x, 3), x.ticker, b).entries == b.entries
  {
    hide CommissionFor, SlippageFor, Without, SoldEvents, ClosedTrades, DealLot, Raised, SeqSum;
    assert FlatDay(x, 3)[x.ticker] == FlatBar(x, 3);
    var f := FillMarketExit(x.costs, 0.0, FlatBar(x, 3), x.ticker);
    assert f.price == NetPrice(x.costs, x.ticker, x.price) && f.date == 3;
    SaleRaises(x, b.exits[x.ticker]);
  }

  lemma DecidingCostsNothing(x: Deal, d: int, b: Book)
    ensures Decided(x, d, b).cash == b.cash
  {
    hide OutcomeOf, RunnerContext;
  }

  lemma ThirdMorning(x: Deal, was: Book)
    requires Held2(x, was)
    ensures BeforeFlows(DealRules(x), 3, FlatDay(x, 3), was).cash == Raised(x)
  {
    hide BeforeFlows, WorkExit, DealLot, Raised;
    Overnight(x, 3, FlatDay(x, 3), was);
    assert (map t | t in was.stale :: 0) == was.stale;
    Sells(x, was);
  }

  lemma Third(x: Deal, st: State)
    requires Plain(x, st) && Held2(x, st.book)
    ensures
      var r := StepDay(DealRules(x), InAndOut(x), None, 3, FlatDay(x, 3), st);
      r.Success? && r.value.book.cash == Raised(x)
  {
    hide StepDay, BeforeFlows, Answered, Raised, DealLot;
    Session(x, InAndOut(x), 3, FlatDay(x, 3), st);
    ThirdMorning(x, st.book);
    DecidingCostsNothing(x, 3, BeforeFlows(DealRules(x), 3, FlatDay(x, 3), st.book));
  }

  // ---- The run ----

  /** A deal placed, filled and sold leaves its sleeve with what the sale raised, below zero or not. */
  lemma DealLeavesRaised(x: Deal)
    requires Placeable(x)
    ensures Universe(DealRules(x), FlatBars(x)) && FundableRules(DealRules(x)) && DealRules(x).initial >= 0.0
    ensures
      var r := Run(DealRules(x), InAndOut(x), NoFlows(), FlatBars(x));
      r.Success? && r.value.book.cash == Raised(x)
  {
    DealIsSane(x);
    ThreeSessions(x);
    hide Universe, FundableRules;
    hide StepDay, Start, Day, Sessions, Raised, InAndOut, Queued1, Held2, Plain, FlatDay, DealRules, FlatBars,
         Placeable, NoFlows;
    var rules, bars, plan, strategy := DealRules(x), FlatBars(x), NoFlows(), InAndOut(x);
    var s0 := Start(rules, plan);
    First(x, s0);
    var s1 := StepDay(rules, strategy, None, 1, FlatDay(x, 1), s0).value;
    Second(x, s1);
    var s2 := StepDay(rules, strategy, None, 2, FlatDay(x, 2), s1).value;
    Third(x, s2);
    ThreeSteps(x, s0, s1, s2, StepDay(rules, strategy, None, 3, FlatDay(x, 3), s2).value);
  }

  lemma ThreeSteps(x: Deal, s0: State, s1: State, s2: State, s3: State)
    requires s0 == Start(DealRules(x), NoFlows())
    requires StepDay(DealRules(x), InAndOut(x), None, 1, FlatDay(x, 1), s0) == Success(s1)
    requires StepDay(DealRules(x), InAndOut(x), None, 2, FlatDay(x, 2), s1) == Success(s2)
    requires StepDay(DealRules(x), InAndOut(x), None, 3, FlatDay(x, 3), s2) == Success(s3)
    ensures Run(DealRules(x), InAndOut(x), NoFlows(), FlatBars(x)) == Success(s3)
  {
    ThreeSessions(x);
    hide StepDay, Start, Day, Sessions, InAndOut, FlatDay, DealRules, FlatBars;
    var rules, bars, strategy := DealRules(x), FlatBars(x), InAndOut(x);
    assert RunTo(rules, strategy, NoFlows(), bars, 0) == Success(s0);
    assert RunTo(rules, strategy, NoFlows(), bars, 1) == Success(s1);
    assert RunTo(rules, strategy, NoFlows(), bars, 2) == Success(s2);
    assert RunTo(rules, strategy, NoFlows(), bars, 3) == Success(s3);
  }

  lemma DealIsSane(x: Deal)
    requires Placeable(x)
    ensures Universe(DealRules(x), FlatBars(x)) && FundableRules(DealRules(x)) && DealRules(x).initial >= 0.0
  {
    OneName(x);
    OutlayPositive(x);
    hide Outlay, InAndOut;
  }

  lemma OutlayPositive(x: Deal)
    requires Placeable(x)
    ensures Outlay(x) >= 0.0
  {
    ProductNonNegative(x.price, 1.0 + SlippageFor(x.costs, x.ticker) / 10000.0);
    ProductNonNegative(Paid(x), x.quantity);
  }

  /** One share at half a dollar, with a dollar an order. */
  function PennyDeal(): Deal {
    Deal(CostModel(0.0, 0.0, 1.0, map[]), true, 0, 0.5, 1.0)
  }

  lemma PennyDealLoses()
    ensures Placeable(PennyDeal()) && Raised(PennyDeal()) == -0.5
  {
  }

  /** Funding safety has no unconditional form: this run follows every rule and ends half a dollar overdrawn. */
  lemma CashCanFallBelowZero()
    ensures
      var x := PennyDeal();
      && Universe(DealRules(x), FlatBars(x)) && FundableRules(DealRules(x)) && DealRules(x).initial >= 0.0
      && var r := Run(DealRules(x), InAndOut(x), NoFlows(), FlatBars(x));
      r.Success? && r.value.book.cash == -0.5
  {
    hide *;
    PennyDealLoses();
    DealLeavesRaised(PennyDeal());
  }

  // ---- The exact condition ----

  /** Every open and close is at least a price. */
  ghost predicate PricedFrom(bars: Bars, price: real) {
    forall t, b :: t in bars && b in bars[t] ==> b.open >= price && b.close >= price
  }

  /** No run under a cost model, on prices at or above a given one, ever overdraws its sleeve. */
  ghost predicate NeverOverdrawn(m: CostModel, whole: bool, price: real) {
    forall rules: Rules, strategy: Strategy, plan: Plan, bars: Bars, n: nat, st: State ::
      && rules.costs == m && rules.wholeShares == whole && rules.initial >= 0.0
      && Universe(rules, bars) && PricedFrom(bars, price)
      && n <= |Sessions(bars)| && RunTo(rules, strategy, plan, bars, n) == Success(st)
      ==> st.book.cash >= 0.0
  }

  lemma FloorRises(m: CostModel, whole: bool, t: Ticker, low: real, high: real)
    requires SlippageFor(m, t) <= 10000.0 && low <= high && Floor(m, whole, t, low)
    ensures Floor(m, whole, t, high)
  {
    var g := 1.0 - SlippageFor(m, t) / 10000.0;
    if g == 0.0 {
    } else {
      TimesMonotone(low, high, g);
    }
  }

  lemma FloorFromPrice(rules: Rules, bars: Bars, price: real)
    requires PricedFrom(bars, price) && forall t :: SlippageFor(rules.costs, t) <= 10000.0
    requires forall t :: Floor(rules.costs, rules.wholeShares, t, price)
    ensures PricesCover(rules, bars)
  {
    hide Floor;
    forall t, b | t in bars && b in bars[t]
      ensures BarCovers(rules, t, b)
    {
      FloorRises(rules.costs, rules.wholeShares, t, price, b.open);
      FloorRises(rules.costs, rules.wholeShares, t, price, b.close);
    }
  }

  lemma LosingDeal(m: CostModel, whole: bool, t: Ticker, price: Positive)
    requires Chargeable(m) && !Floor(m, whole, t, price)
    ensures Losing(m, whole, NetPrice(m, t, price)) > 0.0
    ensures
      var x := Deal(m, whole, t, price, Losing(m, whole, NetPrice(m, t, price)));
      Placeable(x) && Raised(x) < 0.0 && PricedFrom(FlatBars(x), price)
  {
    BelowFloorLoses(m, whole, NetPrice(m, t, price));
  }

  /**
   Exactly when a sleeve cannot be overdrawn: a caller who knows the cost model,
   whether shares are whole, and the lowest price there is, can tell beforehand
   whether some strategy, risk rules, flows and bars could take cash below zero.
   */
  lemma NeverOverdrawnIff(m: CostModel, whole: bool, price: Positive)
    requires Chargeable(m)
    ensures NeverOverdrawn(m, whole, price) <==> forall t :: Floor(m, whole, t, price)
  {
    hide RunTo, Floor, PricedFrom, Sessions, Universe;
    if forall t :: Floor(m, whole, t, price) {
      forall rules: Rules, strategy: Strategy, plan: Plan, bars: Bars, n: nat, st: State |
        rules.costs == m && rules.wholeShares == whole && rules.initial >= 0.0
        && Universe(rules, bars) && PricedFrom(bars, price)
        && n <= |Sessions(bars)| && RunTo(rules, strategy, plan, bars, n) == Success(st)
        ensures st.book.cash >= 0.0
      {
        FloorFromPrice(rules, bars, price);
        CashNeverNegative(rules, strategy, plan, bars, n, st);
      }
    } else {
      var t: Ticker :| !Floor(m, whole, t, price);
      LosingDeal(m, whole, t, price);
      var x := Deal(m, whole, t, price, Losing(m, whole, NetPrice(m, t, price)));
      DealLeavesRaised(x);
      hide FlatBars, InAndOut;
      var st := Run(DealRules(x), InAndOut(x), NoFlows(), FlatBars(x)).value;
      assert RunTo(DealRules(x), InAndOut(x), NoFlows(), FlatBars(x), |Sessions(FlatBars(x))|) == Success(st);
    }
  }
}
