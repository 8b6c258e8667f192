/**
 Exact accounting over whole runs: cash, portfolio values, fills and signals
 are all explained to the last cent and the last order.
 */
module ReplayAccounts {
  import opened Basics
  import opened Market
  import opened Replay
  import opened ReplayBooks
  import opened ReplayLifecycle

  // ---- Valuation at the last closes ----

  function WorthAt(price: real): Lot -> real {
    (lot: Lot) => price * lot.quantity
  }

  function GainAt(price: real): Lot -> real {
    (lot: Lot) => price * lot.quantity - LotCost(lot)
  }

  /** A ticker's holding at its last close. */
  function Worth(b: Book): Ticker -> real {
    t => if t in b.positions && t in b.lastClose then SeqSum(b.positions[t], WorthAt(b.lastClose[t])) else 0.0
  }

  function Gain(b: Book): Ticker -> real {
    t => if t in b.positions && t in b.lastClose then SeqSum(b.positions[t], GainAt(b.lastClose[t])) else 0.0
  }

  /** Market value of the book at last closes. */
  function WorthOf(rules: Rules, b: Book): real {
    Sum(rules.tickers, Worth(b))
  }

  /** What the open lots have gained over their cost, at last closes. */
  function Unrealised(rules: Rules, b: Book): real {
    Sum(rules.tickers, Gain(b))
  }

  lemma {:induction false} GainIsWorthLessCost(lots: seq<Lot>, price: real)
    ensures SeqSum(lots, GainAt(price)) == SeqSum(lots, WorthAt(price)) - SeqSum(lots, LotCost)
  {
    if lots != [] {
      GainIsWorthLessCost(lots[..|lots| - 1], price);
    }
  }

  lemma {:induction false} UnrealisedTo(keys: seq<Ticker>, n: nat, b: Book)
    requires n <= |keys| && b.positions.Keys <= b.lastClose.Keys
    ensures SumTo(keys, n, Gain(b)) == SumTo(keys, n, Worth(b)) - SumTo(keys, n, CostBasis(b.positions))
  {
    if n > 0 {
      UnrealisedTo(keys, n - 1, b);
      var t := keys[n - 1];
      if t in b.positions {
        GainIsWorthLessCost(b.positions[t], b.lastClose[t]);
      }
    }
  }

  /** The closes of the day are the last closes. */
  ghost predicate MarksCurrent(day: map<Ticker, Bar>, b: Book) {
    forall t :: t in day ==> t in b.lastClose && b.lastClose[t] == day[t].close
  }

  /** Every holding has a mark, so the entry-price fallback is never taken. */
  lemma MarkExists(rules: Rules, day: map<Ticker, Bar>, b: Book, t: Ticker)
    requires Sound(rules, b) && MarksCurrent(day, b) && t in b.positions
    ensures MarkOf(day, b.lastClose, t) == Some(b.lastClose[t])
  {
  }

  lemma NavAtCloses(rules: Rules, day: map<Ticker, Bar>, b: Book)
    requires Sound(rules, b) && MarksCurrent(day, b)
    ensures Nav(rules, day, b) == b.cash + WorthOf(rules, b)
  {
    var f, g := HoldingValue(b, day), Worth(b);
    forall t
      ensures f(t) == g(t)
    {
      if t in b.positions {
        MarkExists(rules, day, b, t);
        SeqSumAgree(b.positions[t], LotValue(MarkOf(day, b.lastClose, t)), WorthAt(b.lastClose[t]));
      }
    }
    SumAgree(rules.tickers, |rules.tickers|, f, g);
  }

  lemma WorthClosed(rules: Rules, day: map<Ticker, Bar>, b: Book)
    ensures WorthOf(rules, Closed(day, b)) == WorthOf(rules, b)
  {
    var c := Closed(day, b);
    var f, g := Worth(b), Worth(c);
    forall t
      ensures f(t) == g(t)
    {
      if t in b.positions && t in day && t in b.lastClose {
        RaisedCost(b.positions[t], day[t].close, WorthAt(b.lastClose[t]));
      }
    }
    SumAgree(rules.tickers, |rules.tickers|, f, g);
  }

  // ---- The value recorded by a session ----

  lemma BeforeFlowsMarks(rules: Rules, d: int, day: map<Ticker, Bar>, b: Book)
    ensures MarksCurrent(day, BeforeFlows(rules, d, day, b))
  {
    GateSame(rules, d, Names(rules), |Names(rules)|, Recorded(day, Expired(AfterEntries(rules, d, day, b))));
  }

  /** The stages of a session that completes: gated, funded, decided on, closed. */
  lemma StepStages(rules: Rules, strategy: Strategy, basis: Option<DatedSum>, d: int, day: map<Ticker, Bar>,
                   st: State, next: State)
    requires Distinct(rules.tickers) && day.Keys <= Elements(rules.tickers) && Sound(rules, st.book)
    requires StepDay(rules, strategy, basis, d, day, st) == Success(next)
    ensures
      var gated := st.(book := BeforeFlows(rules, d, day, st.book));
      && ApplyFlows(d, gated).Success?
      && var f := ApplyFlows(d, gated).value.book;
      var c := AfterDecisions(rules, strategy, d, day, f);
      && f == gated.book.(cash := f.cash, tape := f.tape)
      && c == f.(exits := c.exits, exitOrder := c.exitOrder, entries := c.entries, funnel := c.funnel)
      && Sound(rules, gated.book) && Sound(rules, f) && Sound(rules, c)
      && MarksCurrent(day, f) && MarksCurrent(day, c) && next.book == Closed(day, c)
  {
    hide Sound, BeforeFlows, AfterDecisions, Nav, LearnedScale, ApplyFlows, Injected, UnmatchedFills, Closed, Distinct;
    BeforeFlowsKeeps(rules, d, day, st.book);
    BeforeFlowsMarks(rules, d, day, st.book);
    var gated := st.(book := BeforeFlows(rules, d, day, st.book));
    FlowsKeep(rules, d, gated);
    FlowsBalance(rules, d, gated);
    AfterDecisionsKeeps(rules, strategy, d, day, ApplyFlows(d, gated).value.book);
  }

  /** The session's value is its closing cash plus its closing holdings at last closes. */
  lemma StepValue(rules: Rules, strategy: Strategy, basis: Option<DatedSum>, d: int, day: map<Ticker, Bar>,
                  st: State, next: State)
    requires Distinct(rules.tickers) && day.Keys <= Elements(rules.tickers) && Sound(rules, st.book)
    requires StepDay(rules, strategy, basis, d, day, st) == Success(next)
    ensures next.values == st.values + [next.book.cash + WorthOf(rules, next.book)]
    ensures next.dates == st.dates + [d]
    ensures MarksCurrent(day, next.book)
  {
    hide Sound, BeforeFlows, AfterDecisions, Nav, LearnedScale, ApplyFlows, WorthOf;
    StepStages(rules, strategy, basis, d, day, st, next);
    var gated := st.(book := BeforeFlows(rules, d, day, st.book));
    FlowsKeep(rules, d, gated);
    var c := AfterDecisions(rules, strategy, d, day, ApplyFlows(d, gated).value.book);
    NavAtCloses(rules, day, c);
    WorthClosed(rules, day, c);
  }

  /**
   Exact conservation. At every session end cash is the seed plus the applied
   flows plus the profit of the closed trades less what the open lots cost;
   the recorded portfolio value is the seed plus flows plus realised plus
   unrealised profit.
   */
  lemma Conservation(rules: Rules, strategy: Strategy, plan: Plan, bars: Bars, n: nat, st: State)
    requires Universe(rules, bars) && n <= |Sessions(bars)|
    requires RunTo(rules, strategy, plan, bars, n) == Success(st)
    ensures st.book.cash == rules.initial + SeqSum(st.applied, AmountOf) + Realised(st.book) - BookCost(rules, st.book)
    ensures |st.values| == n + 1
    ensures n > 0 ==>
      st.values[n] == rules.initial + SeqSum(st.applied, AmountOf) + Realised(st.book) + Unrealised(rules, st.book)
  {
    hide StepDay, Sound, Day, Start, Realised, AmountOf;
    RunBalanced(rules, strategy, plan, bars, n, st);
    RunDated(rules, strategy, plan, bars, n, st);
    if n > 0 {
      var d := Sessions(bars)[n - 1];
      var prev := RunTo(rules, strategy, plan, bars, n - 1).value;
      RunBalanced(rules, strategy, plan, bars, n - 1, prev);
      BalancedIsSound(rules, prev);
      DayInUniverse(rules, bars, d);
      StepValue(rules, strategy, plan.basis, d, Day(bars, d), prev, st);
      SoundHoldings(rules, st.book);
      UnrealisedTo(rules.tickers, |rules.tickers|, st.book);
    }
  }

  lemma SoundHoldings(rules: Rules, b: Book)
    requires Sound(rules, b)
    ensures b.positions.Keys <= b.lastClose.Keys
  {
  }

  /** One date is recorded for each session replayed, in order. */
  lemma {:induction false} RunDated(rules: Rules, strategy: Strategy, plan: Plan, bars: Bars, n: nat, st: State)
    requires Universe(rules, bars) && n <= |Sessions(bars)|
    requires RunTo(rules, strategy, plan, bars, n) == Success(st)
    ensures st.dates == Sessions(bars)[..n] && |st.values| == n + 1 && st.values[0] == rules.initial
  {
    hide StepDay, Balanced, Day, WorthOf, MarksCurrent, Sound;
    if n > 0 {
      var d := Sessions(bars)[n - 1];
      var prev := RunTo(rules, strategy, plan, bars, n - 1).value;
      RunDated(rules, strategy, plan, bars, n - 1, prev);
      RunBalanced(rules, strategy, plan, bars, n - 1, prev);
      BalancedIsSound(rules, prev);
      DayInUniverse(rules, bars, d);
      StepValue(rules, strategy, plan.basis, d, Day(bars, d), prev, st);
      assert Sessions(bars)[..n] == Sessions(bars)[..n - 1] + [d];
    }
  }

  /**
   Entry accounting. Every buy signal counted was refused, skipped or queued;
   every queued entry filled, expired or is still working; every fill is a
   closed trade or an open lot.
   */
  lemma EntryAccounting(rules: Rules, strategy: Strategy, plan: Plan, bars: Bars, n: nat, st: State)
    requires Universe(rules, bars) && n <= |Sessions(bars)|
    requires RunTo(rules, strategy, plan, bars, n) == Success(st)
    ensures
      var f := st.book.funnel;
      && f.signals == f.riskRefused + f.wholeShareSkipped + f.cashSkipped + f.queued
      && f.queued == f.filled + ExpiredCount(st.book) + |st.book.entries| && ExpiredCount(st.book) >= 0
      && f.filled == |st.book.trades| + |OpenPositions(rules, st.book)|
  {
    RunBalanced(rules, strategy, plan, bars, n, st);
    RunCounted(rules, strategy, plan, bars, n, st);
    hide RunTo, Sound, OpenPositions, Injected, Sessions, Universe;
  }

  lemma RunCounted(rules: Rules, strategy: Strategy, plan: Plan, bars: Bars, n: nat, st: State)
    requires Universe(rules, bars) && n <= |Sessions(bars)|
    requires RunTo(rules, strategy, plan, bars, n) == Success(st)
    ensures Counted(st.book)
  {
    hide StepDay, Start, Counted, Sessions, Universe, TradesEndLater, LotsBy, Fresh, EntriesApart, RemovedLeaving;
    if n == 0 {
      StartRests(rules, plan, 0);
    } else {
      RunOrderly(rules, strategy, plan, bars, n, st);
    }
  }
}
