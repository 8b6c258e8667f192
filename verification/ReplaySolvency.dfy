/**
 When cash stays at or above zero, read off the cost model and the prices alone:
 every exit has to be worth its commission, and what price that takes depends on
 whether the sleeve trades whole shares.
 */
module ReplaySolvency {
  import opened Basics
  import opened Market
  import opened Costs
  import opened Replay
  import opened ReplayBooks
  import opened ReplayFunding

  // ---- One exit ----

  /** What one share fetches when sold at a price. */
  function NetPrice(m: CostModel, t: Ticker, price: real): real {
    price * (1.0 - SlippageFor(m, t) / 10000.0)
  }

  /** An exit of q shares fetches its commission. */
  predicate PaysItself(m: CostModel, net: real, q: real) {
    Times(net, q) >= Max(m.minimum, Times(q, m.perShare))
  }

  /** An exit raises cash, or none, exactly when it fetches its commission. */
  lemma ExitRaisesIff(m: CostModel, t: Ticker, lot: Lot, price: real, d: int, reason: string)
    ensures CashRaised(TradeOf(m, t, lot, price, d, reason)) >= 0.0 <==> PaysItself(m, price, lot.quantity)
  {
  }

  /** The quantities a sleeve can come to hold: any at all, or at least one share. */
  predicate Holdable(whole: bool, q: real) {
    q > 0.0 && (whole ==> q >= 1.0)
  }

  /** What one share has to fetch for every exit to be worth its commission. */
  predicate NetFloor(m: CostModel, whole: bool, net: real) {
    if whole then net >= Max(m.minimum, m.perShare) else m.minimum == 0.0 && net >= Max(0.0, m.perShare)
  }

  predicate Floor(m: CostModel, whole: bool, t: Ticker, price: real) {
    NetFloor(m, whole, NetPrice(m, t, price))
  }

  lemma AtLeastOnce(net: real, q: real)
    requires net >= 0.0 && q >= 1.0
    ensures Times(net, q) >= net
  {
    assert net * q - net == net * (q - 1.0);
  }

  lemma TimesMonotone(x: real, y: real, q: real)
    requires x <= y && q > 0.0
    ensures Times(x, q) <= Times(y, q)
  {
    assert (y - x) * q == y * q - x * q;
  }

  lemma FloorSuffices(m: CostModel, whole: bool, net: real, q: real)
    requires m.minimum >= 0.0 && NetFloor(m, whole, net) && Holdable(whole, q)
    ensures PaysItself(m, net, q)
  {
    TimesMonotone(m.perShare, net, q);
    if whole {
      AtLeastOnce(net, q);
    } else {
      TimesMonotone(0.0, net, q);
    }
  }

  /** A quantity whose exit fetches less than a positive amount. */
  function Sliver(net: real, least: real): real {
    if net <= 0.0 then 1.0 else least / (2.0 * net)
  }

  /**
   No price makes small exits worth a positive commission minimum: whatever one
   share fetches, selling few enough of it costs more than it brings.
   */
  lemma NoFractionalFloor(m: CostModel, net: real)
    requires m.minimum > 0.0
    ensures Holdable(false, Sliver(net, m.minimum)) && !PaysItself(m, net, Sliver(net, m.minimum))
  {
    var q := Sliver(net, m.minimum);
    if net > 0.0 {
      assert q * (2.0 * net) == m.minimum;
      assert q > 0.0 by {
        if q <= 0.0 {
          TimesMonotone(q, 0.0, 2.0 * net);
        }
      }
      assert Times(net, q) == m.minimum / 2.0;
    }
  }

  /** A quantity that some exit at a net price below the floor loses money on. */
  function Losing(m: CostModel, whole: bool, net: real): real {
    if whole || m.minimum <= 0.0 then 1.0 else Sliver(net, m.minimum)
  }

  lemma BelowFloorLoses(m: CostModel, whole: bool, net: real)
    requires m.minimum >= 0.0 && !NetFloor(m, whole, net)
    ensures Holdable(whole, Losing(m, whole, net)) && !PaysItself(m, net, Losing(m, whole, net))
  {
    if !whole && m.minimum > 0.0 {
      NoFractionalFloor(m, net);
    }
  }

  /** The floor is exact: it holds if and only if no quantity the sleeve can hold is sold at a loss to commission. */
  lemma FloorIsExact(m: CostModel, whole: bool, net: real)
    requires m.minimum >= 0.0
    ensures NetFloor(m, whole, net) <==> forall q :: Holdable(whole, q) ==> PaysItself(m, net, q)
  {
    if NetFloor(m, whole, net) {
      forall q | Holdable(whole, q)
        ensures PaysItself(m, net, q)
      {
        FloorSuffices(m, whole, net, q);
      }
    } else {
      BelowFloorLoses(m, whole, net);
    }
  }

  // ---- Whole runs ----

  /** Every price a position can be sold at reaches the floor. */
  ghost predicate PricesCover(rules: Rules, bars: Bars) {
    forall t, b :: t in bars && b in bars[t] ==> BarCovers(rules, t, b)
  }

  predicate BarCovers(rules: Rules, t: Ticker, b: Bar) {
    Floor(rules.costs, rules.wholeShares, t, b.open) && Floor(rules.costs, rules.wholeShares, t, b.close)
  }

  ghost predicate DayCovers(rules: Rules, day: map<Ticker, Bar>) {
    forall t :: t in day ==> BarCovers(rules, t, day[t])
  }

  ghost predicate AllHoldable(whole: bool, lots: seq<Lot>) {
    forall lot :: lot in lots ==> Holdable(whole, lot.quantity)
  }

  ghost predicate LotsHoldable(rules: Rules, b: Book) {
    forall t :: t in b.positions ==> AllHoldable(rules.wholeShares, b.positions[t])
  }

  ghost predicate EntriesHoldable(rules: Rules, b: Book) {
    forall t :: t in b.entries ==> Holdable(rules.wholeShares, b.entries[t].quantity)
  }

  ghost predicate ClosesCover(rules: Rules, b: Book) {
    forall t :: t in b.lastClose ==> Floor(rules.costs, rules.wholeShares, t, b.lastClose[t])
  }

  ghost predicate AllRaise(trades: seq<Trade>) {
    forall tr :: tr in trades ==> CashRaised(tr) >= 0.0
  }

  /** Nothing held, queued or sold so far can lose money to its commission. */
  ghost predicate Solid(rules: Rules, b: Book) {
    LotsHoldable(rules, b) && EntriesHoldable(rules, b) && ClosesCover(rules, b) && AllRaise(b.trades)
  }

  /** Work on the queues, the marks or the cash alone. */
  lemma SameSolid(rules: Rules, b: Book, c: Book)
    requires Solid(rules, b) && c.positions == b.positions && c.trades == b.trades && c.lastClose == b.lastClose
    requires forall t :: t in c.entries ==> t in b.entries && c.entries[t] == b.entries[t]
    ensures Solid(rules, c)
  {
    hide Holdable, Floor, AllHoldable, AllRaise;
  }

  lemma ClosedRaise(rules: Rules, t: Ticker, lots: seq<Lot>, price: real, d: int, reason: string)
    requires rules.costs.minimum >= 0.0 && AllHoldable(rules.wholeShares, lots)
    requires NetFloor(rules.costs, rules.wholeShares, price)
    ensures AllRaise(ClosedTrades(rules.costs, t, lots, price, d, reason))
  {
    var closed := ClosedTrades(rules.costs, t, lots, price, d, reason);
    ClosedTradesAre(rules.costs, t, lots, price, d, reason);
    hide ClosedTrades, Holdable, NetFloor, PaysItself, TradeOf, CashRaised;
    forall tr | tr in closed
      ensures CashRaised(tr) >= 0.0
    {
      var i :| 0 <= i < |closed| && closed[i] == tr;
      assert lots[i] in lots;
      FloorSuffices(rules.costs, rules.wholeShares, price, lots[i].quantity);
      ExitRaisesIff(rules.costs, t, lots[i], price, d, reason);
    }
  }

  lemma CloseSolid(rules: Rules, b: Book, t: Ticker, price: real, d: int, reason: string)
    requires rules.costs.minimum >= 0.0 && Solid(rules, b)
    requires t in b.positions && NetFloor(rules.costs, rules.wholeShares, price)
    ensures Solid(rules, ClosePosition(rules.costs, b, t, price, d, reason))
  {
    ClosedRaise(rules, t, b.positions[t], price, d, reason);
    hide ClosedTrades, Holdable, Floor, NetFloor, AllHoldable, CashRaised, SoldEvents, SeqSum;
  }

  lemma WriteOffSolid(rules: Rules, d: int, t: Ticker, b: Book)
    requires rules.costs.minimum >= 0.0 && Solid(rules, b)
    ensures Solid(rules, WriteOff(rules, d, t, b))
  {
    var dropped := DropExit(b.(entries := b.entries - {t}), t);
    SameSolid(rules, b, dropped);
    if t in b.positions && t in b.lastClose {
      assert Floor(rules.costs, rules.wholeShares, t, b.lastClose[t]);
      var f := FillTerminalExit(rules.costs, 0.0, b.lastClose[t], d, t);
      hide Solid, NetFloor, ClosePosition, ExitReason, Without;
      CloseSolid(rules, dropped, t, f.price, f.date, ExitReason(b, t));
    }
  }

  lemma {:induction false} WriteOffsSolid(rules: Rules, d: int, names: seq<Ticker>, n: nat, b: Book)
    requires n <= |names| && rules.costs.minimum >= 0.0 && Solid(rules, b)
    ensures Solid(rules, WriteOffs(rules, d, names, n, b))
  {
    hide Solid, WriteOff;
    if n > 0 {
      WriteOffsSolid(rules, d, names, n - 1, b);
      WriteOffSolid(rules, d, names[n - 1], WriteOffs(rules, d, names, n - 1, b));
    }
  }

  lemma WorkExitSolid(rules: Rules, day: map<Ticker, Bar>, t: Ticker, b: Book)
    requires rules.costs.minimum >= 0.0 && Solid(rules, b) && DayCovers(rules, day)
    ensures Solid(rules, WorkExit(rules, day, t, b))
  {
    var dropped := DropExit(b, t);
    SameSolid(rules, b, dropped);
    if t in day && t in b.exits && t in b.positions {
      assert BarCovers(rules, t, day[t]);
      var f := FillMarketExit(rules.costs, 0.0, day[t], t);
      hide Solid, NetFloor, ClosePosition, Without, DayCovers;
      CloseSolid(rules, dropped, t, f.price, f.date, b.exits[t]);
    }
  }

  lemma {:induction false} WorkExitsSolid(rules: Rules, day: map<Ticker, Bar>, order: seq<Ticker>, n: nat, b: Book)
    requires n <= |order| && rules.costs.minimum >= 0.0 && Solid(rules, b) && DayCovers(rules, day)
    ensures Solid(rules, WorkExits(rules, day, order, n, b))
  {
    hide Solid, WorkExit, DayCovers;
    if n > 0 {
      WorkExitsSolid(rules, day, order, n - 1, b);
      WorkExitSolid(rules, day, order[n - 1], WorkExits(rules, day, order, n - 1, b));
    }
  }

  lemma WorkEntrySolid(rules: Rules, day: map<Ticker, Bar>, t: Ticker, b: Book)
    requires Solid(rules, b)
    ensures Solid(rules, WorkEntry(rules, day, t, b))
  {
    hide Holdable, Floor, AllRaise, CommissionFor, SlippageFor;
    if t in b.entries && t in day {
      var e := b.entries[t];
      var fill := TryFillLimitEntry(rules.costs, e.limit, e.quantity, day[t], t);
      hide TryFillLimitEntry;
      if fill.Some? {
        assert AllHoldable(rules.wholeShares, LotsOf(b, t) + [LotFrom(fill.value)]);
        hide AllHoldable;
      }
    }
  }

  lemma {:induction false} WorkEntriesSolid(rules: Rules, day: map<Ticker, Bar>, n: nat, b: Book)
    requires n <= |rules.tickers| && Solid(rules, b)
    ensures Solid(rules, WorkEntries(rules, day, n, b))
  {
    hide Solid, WorkEntry;
    if n > 0 {
      WorkEntriesSolid(rules, day, n - 1, b);
      WorkEntrySolid(rules, day, rules.tickers[n - 1], WorkEntries(rules, day, n - 1, b));
    }
  }

  lemma RecordedSolid(rules: Rules, day: map<Ticker, Bar>, b: Book)
    requires Solid(rules, b) && DayCovers(rules, day)
    ensures Solid(rules, Recorded(day, b))
  {
    hide Holdable, Floor, AllRaise, AllHoldable;
    var c := Recorded(day, b);
    forall t | t in c.lastClose
      ensures Floor(rules.costs, rules.wholeShares, t, c.lastClose[t])
    {
      if t in day {
        assert BarCovers(rules, t, day[t]);
      }
    }
  }

  // ---- What is queued ----

  lemma WholeAtLeastOne(n: int)
    requires n as real > 0.0
    ensures n as real >= 1.0
  {
  }

  /** What is approved is a quantity the sleeve can hold. */
  lemma SizedHoldable(q: real, price: real, cash: real, committed: real, terms: Terms, whole: bool)
    requires Holdable(whole, q) && Sizing(q, price, cash, committed, terms, whole).Funded?
    ensures Holdable(whole, Sizing(q, price, cash, committed, terms, whole).quantity)
  {
    hide SleeveBuyCost, LargestAffordable, WholeSteps, Steps, UnitCost;
  }

  lemma OutcomeHoldable(rules: Rules, d: int, day: map<Ticker, Bar>, t: Ticker, s: Signal, b: Book)
    ensures
      var o := OutcomeOf(rules, d, day, t, s, b);
      o.Queued? ==> Holdable(rules.wholeShares, o.entry.quantity)
  {
    hide Query, Committed, TermsFor, SleeveBuyCost, Trunc;
    var approved := rules.risk(Query(rules, day, t, s, b)).quantity;
    var q := if rules.wholeShares then Trunc(approved) as real else approved;
    var o := OutcomeOf(rules, d, day, t, s, b);
    if o.Queued? {
      var terms := TermsFor(rules, t);
      assert Sizing(q, s.limit, b.cash, Committed(rules, b), terms, rules.wholeShares).Funded?;
      hide Sizing;
      if rules.wholeShares {
        WholeAtLeastOne(Trunc(approved));
      }
      SizedHoldable(q, s.limit, b.cash, Committed(rules, b), terms, rules.wholeShares);
    }
  }

  lemma DecideSolid(rules: Rules, strategy: Strategy, d: int, day: map<Ticker, Bar>, out: set<Ticker>, ctx: Context,
                    t: Ticker, b: Book)
    requires Solid(rules, b)
    ensures Solid(rules, Decide(rules, strategy, d, day, out, ctx, t, b))
  {
    hide Holdable, Floor, AllRaise, AllHoldable, OutcomeOf, Tallied;
    if t in day && t !in out {
      var signal := strategy(t, HistoryOf(b, t), ctx);
      if signal.Some? {
        OutcomeHoldable(rules, d, day, t, signal.value, b);
      }
    }
  }

  lemma {:induction false} DecisionsSolid(rules: Rules, strategy: Strategy, d: int, day: map<Ticker, Bar>,
                                          out: set<Ticker>,
                                          ctx: Context, n: nat, b: Book)
    requires n <= |rules.tickers| && Solid(rules, b)
    ensures Solid(rules, Decisions(rules, strategy, d, day, out, ctx, n, b))
  {
    hide Solid, Decide;
    if n > 0 {
      DecisionsSolid(rules, strategy, d, day, out, ctx, n - 1, b);
      DecideSolid(rules, strategy, d, day, out, ctx, rules.tickers[n - 1],
                  Decisions(rules, strategy, d, day, out, ctx, n - 1, b));
    }
  }

  lemma RaisedHoldable(whole: bool, lots: seq<Lot>, mark: real)
    requires AllHoldable(whole, lots)
    ensures AllHoldable(whole, RaisedPeaks(lots, mark))
  {
    var raised := RaisedPeaks(lots, mark);
    forall lot | lot in raised
      ensures Holdable(whole, lot.quantity)
    {
      var i :| 0 <= i < |raised| && raised[i] == lot;
      assert lots[i] in lots;
    }
  }

  lemma ClosedSolid(rules: Rules, day: map<Ticker, Bar>, b: Book)
    requires Solid(rules, b)
    ensures Solid(rules, Closed(day, b))
  {
    var c := Closed(day, b);
    forall t | t in c.positions
      ensures AllHoldable(rules.wholeShares, c.positions[t])
    {
      if t in day {
        RaisedHoldable(rules.wholeShares, b.positions[t], day[t].close);
      }
    }
    hide Holdable, Floor, AllRaise, AllHoldable, RaisedPeaks;
  }

  // ---- A session ----

  lemma BeforeFlowsSolid(rules: Rules, d: int, day: map<Ticker, Bar>, b: Book)
    requires rules.costs.minimum >= 0.0 && Solid(rules, b) && DayCovers(rules, day)
    ensures Solid(rules, BeforeFlows(rules, d, day, b))
  {
    hide Solid, DayCovers, WriteOffs, WorkExits, WorkEntries, Gate, Recorded, Names, Aged;
    var names := Names(rules);
    var aged := b.(stale := Aged(day, b.stale));
    SameSolid(rules, b, aged);
    WriteOffsSolid(rules, d, names, |names|, aged);
    var w := AfterWriteOffs(rules, d, day, b);
    WorkExitsSolid(rules, day, w.exitOrder, |w.exitOrder|, w);
    WorkEntriesSolid(rules, day, |rules.tickers|, AfterExits(rules, d, day, b));
    var e := AfterEntries(rules, d, day, b);
    SameSolid(rules, e, Expired(e));
    RecordedSolid(rules, day, Expired(e));
    GateSame(rules, d, names, |names|, Recorded(day, Expired(e)));
    SameSolid(rules, Recorded(day, Expired(e)), BeforeFlows(rules, d, day, b));
  }

  lemma StepSolid(rules: Rules, strategy: Strategy, basis: Option<DatedSum>, d: int, day: map<Ticker, Bar>, st: State,
                  next: State)
    requires rules.costs.minimum >= 0.0 && Solid(rules, st.book) && DayCovers(rules, day)
    requires StepDay(rules, strategy, basis, d, day, st) == Success(next)
    ensures Solid(rules, next.book)
  {
    hide Solid, DayCovers, BeforeFlows, Decisions, Nav, LearnedScale, ApplyFlows, OutOfUniverse, RunnerContext, Closed;
    BeforeFlowsSolid(rules, d, day, st.book);
    var gated := st.(book := BeforeFlows(rules, d, day, st.book));
    FlowsKeep(rules, d, gated);
    var f := ApplyFlows(d, gated).value.book;
    SameSolid(rules, gated.book, f);
    DecisionsSolid(rules, strategy, d, day, OutOfUniverse(rules, d, day, f), RunnerContext(f, rules.initial),
                   |rules.tickers|, f);
    ClosedSolid(rules, day, AfterDecisions(rules, strategy, d, day, f));
  }

  lemma DayCovered(rules: Rules, bars: Bars, d: int)
    requires PricesCover(rules, bars)
    ensures DayCovers(rules, Day(bars, d))
  {
    hide BarCovers;
    forall t | t in Day(bars, d)
      ensures BarCovers(rules, t, Day(bars, d)[t])
    {
      assert Day(bars, d)[t] in bars[t];
    }
  }

  /** Where every price reaches the floor, every lot is one worth selling and every exit so far was. */
  lemma {:induction false} RunSolid(rules: Rules, strategy: Strategy, plan: Plan, bars: Bars, n: nat, st: State)
    requires rules.costs.minimum >= 0.0 && PricesCover(rules, bars) && n <= |Sessions(bars)|
    requires RunTo(rules, strategy, plan, bars, n) == Success(st)
    ensures Solid(rules, st.book)
    decreases n
  {
    hide StepDay, Day, PricesCover, DayCovers;
    if n > 0 {
      hide Solid, Start;
      var d := Sessions(bars)[n - 1];
      var prev := RunTo(rules, strategy, plan, bars, n - 1).value;
      RunSolid(rules, strategy, plan, bars, n - 1, prev);
      DayCovered(rules, bars, d);
      StepSolid(rules, strategy, plan.basis, d, Day(bars, d), prev, st);
    }
  }

  /**
   Cash is never negative, whatever the strategy, the risk rules and the flows,
   when every open and close reaches the floor.
   */
  lemma CashNeverNegative(rules: Rules, strategy: Strategy, plan: Plan, bars: Bars, n: nat, st: State)
    requires Universe(rules, bars) && FundableRules(rules) && rules.initial >= 0.0 && PricesCover(rules, bars)
    requires n <= |Sessions(bars)| && RunTo(rules, strategy, plan, bars, n) == Success(st)
    ensures st.book.cash >= 0.0 && AllRaise(st.book.trades)
  {
    hide RunTo, Holdable, Floor, PricesCover, Committed;
    RunSolid(rules, strategy, plan, bars, n, st);
    CashBound(rules, strategy, plan, bars, n, st);
  }
}
