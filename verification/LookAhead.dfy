/**
 No look-ahead. Cutting the bars off at any date leaves every earlier session
 exactly as the full history replays it.
 */
module LookAhead {
  import opened Basics
  import opened Market
  import opened Replay
  import opened ReplayBooks
  import opened ReplayHistory

  /** A ticker printed on the last of some sessions, and that is on or before the cut. */
  predicate PrintsBy(bars: Bars, t: Ticker, n: nat, cut: int) {
    && t in bars && 0 < n <= |Sessions(bars)| && Sessions(bars)[n - 1] <= cut
    && BarOn(bars[t], Sessions(bars)[n - 1]).Some?
  }

  /** Two strategies answer alike whenever a replay of the bars can ask them on or before the cut. */
  ghost predicate AgreeUpTo(early: Strategy, full: Strategy, bars: Bars, cut: int) {
    forall t, n: nat, ctx :: PrintsBy(bars, t, n, cut) ==>
      early(t, ShownAfter(bars, t, n), ctx) == full(t, ShownAfter(bars, t, n), ctx)
  }

  /** What is shown of a ticker that printed ends with the bar it printed. */
  lemma ShownEnds(bars: Bars, t: Ticker, n: nat, cut: int)
    requires PrintsBy(bars, t, n, cut)
    ensures
      var shown := ShownAfter(bars, t, n);
      && shown != [] && shown[|shown| - 1].date == Sessions(bars)[n - 1] <= cut
      && Some(shown[|shown| - 1]) == BarOn(bars[t], Sessions(bars)[n - 1])
  {
    hide Sessions, ShownAfter;
    ShownNext(bars, t, n);
  }

  /** The bars shown for every name that printed end with today's. */
  ghost predicate EndsToday(day: map<Ticker, Bar>, b: Book) {
    forall t :: t in day ==> HistoryOf(b, t) != [] && HistoryOf(b, t)[|HistoryOf(b, t)| - 1] == day[t]
  }

  lemma RecordedEndsToday(rules: Rules, day: map<Ticker, Bar>, b: Book)
    requires Sound(rules, b) && day.Keys <= Elements(rules.tickers)
    ensures EndsToday(day, Recorded(day, b))
  {
  }

  lemma ShownEndsToday(rules: Rules, d: int, day: map<Ticker, Bar>, b: Book)
    requires Distinct(rules.tickers) && Sound(rules, b) && day.Keys <= Elements(rules.tickers)
    ensures EndsToday(day, BeforeFlows(rules, d, day, b))
  {
    hide Sound, EndsToday, Gate, Recorded, Expired, AfterEntries, Injected, UnmatchedFills, Distinct;
    OvernightKeeps(rules, d, day, b);
    var e := Expired(AfterEntries(rules, d, day, b));
    ExpiredKeeps(rules, AfterEntries(rules, d, day, b));
    RecordedEndsToday(rules, day, e);
    GateSame(rules, d, Names(rules), |Names(rules)|, Recorded(day, e));
    SameHistory(day, Recorded(day, e), BeforeFlows(rules, d, day, b));
  }

  lemma SameHistory(day: map<Ticker, Bar>, b: Book, c: Book)
    requires b.history == c.history
    ensures EndsToday(day, b) <==> EndsToday(day, c)
  {
  }

  lemma {:induction false} DecisionsHistory(rules: Rules, strategy: Strategy, d: int, day: map<Ticker, Bar>,
                                            out: set<Ticker>, ctx: Context, n: nat, b: Book)
    requires n <= |rules.tickers|
    ensures Decisions(rules, strategy, d, day, out, ctx, n, b).history == b.history
  {
    hide OutcomeOf, Tallied;
    if n > 0 {
      DecisionsHistory(rules, strategy, d, day, out, ctx, n - 1, b);
    }
  }

  lemma {:induction false} SameDecisions(rules: Rules, early: Strategy, full: Strategy, bars: Bars, cut: int, k: nat,
                                         out: set<Ticker>, ctx: Context, n: nat, b: Book)
    requires n <= |rules.tickers| && AgreeUpTo(early, full, bars, cut)
    requires 0 < k <= |Sessions(bars)| && Sessions(bars)[k - 1] <= cut && Remembers(bars, k, b)
    ensures
      var d := Sessions(bars)[k - 1];
      Decisions(rules, early, d, Day(bars, d), out, ctx, n, b)
          == Decisions(rules, full, d, Day(bars, d), out, ctx, n, b)
  {
    hide DecideBuy, QueueExit, Sessions, ShownAfter;
    if n > 0 {
      SameDecisions(rules, early, full, bars, cut, k, out, ctx, n - 1, b);
      var d, t := Sessions(bars)[k - 1], rules.tickers[n - 1];
      DecisionsHistory(rules, full, d, Day(bars, d), out, ctx, n - 1, b);
      if t in Day(bars, d) {
        assert PrintsBy(bars, t, k, cut);
        assert early(t, ShownAfter(bars, t, k), ctx) == full(t, ShownAfter(bars, t, k), ctx);
      }
    }
  }

  /** A session's morning remembers what the session prints. */
  lemma MorningRemembers(rules: Rules, bars: Bars, k: nat, b: Book)
    requires 0 < k <= |Sessions(bars)| && Remembers(bars, k - 1, b)
    ensures
      var d := Sessions(bars)[k - 1];
      Remembers(bars, k, BeforeFlows(rules, d, Day(bars, d), b))
  {
    hide Remembers, BeforeFlows, Day, Recorded, Sessions;
    var d := Sessions(bars)[k - 1];
    BeforeFlowsHistory(rules, d, Day(bars, d), b);
    RecordedPrints(bars, k, b);
    HistoryKept(bars, k, Recorded(Day(bars, d), b), BeforeFlows(rules, d, Day(bars, d), b));
  }

  /** So does the book its decisions are taken on. */
  lemma FundedRemembers(rules: Rules, bars: Bars, k: nat, st: State)
    requires 0 < k <= |Sessions(bars)| && Remembers(bars, k - 1, st.book)
    ensures
      var d := Sessions(bars)[k - 1];
      var r := ApplyFlows(d, st.(book := BeforeFlows(rules, d, Day(bars, d), st.book)));
      r.Success? ==> Remembers(bars, k, r.value.book)
  {
    hide Remembers, BeforeFlows, Day, ApplyFlows, Sessions;
    var d := Sessions(bars)[k - 1];
    var gated := st.(book := BeforeFlows(rules, d, Day(bars, d), st.book));
    MorningRemembers(rules, bars, k, st.book);
    if ApplyFlows(d, gated).Success? {
      FlowsKeep(rules, d, gated);
      HistoryKept(bars, k, gated.book, ApplyFlows(d, gated).value.book);
    }
  }

  lemma SameSession(rules: Rules, early: Strategy, full: Strategy, bars: Bars, cut: int, basis: Option<DatedSum>,
                    k: nat, st: State)
    requires AgreeUpTo(early, full, bars, cut)
    requires 0 < k <= |Sessions(bars)| && Sessions(bars)[k - 1] <= cut && Remembers(bars, k - 1, st.book)
    ensures
      var d := Sessions(bars)[k - 1];
      StepDay(rules, early, basis, d, Day(bars, d), st) == StepDay(rules, full, basis, d, Day(bars, d), st)
  {
    hide Remembers, AgreeUpTo, BeforeFlows, Decisions, ApplyFlows, Nav, LearnedScale, Closed, RunnerContext,
         OutOfUniverse, Day, Sessions;
    var d := Sessions(bars)[k - 1];
    var gated := st.(book := BeforeFlows(rules, d, Day(bars, d), st.book));
    FundedRemembers(rules, bars, k, st);
    if ApplyFlows(d, gated).Success? {
      var f := ApplyFlows(d, gated).value.book;
      SameDecisions(rules, early, full, bars, cut, k, OutOfUniverse(rules, d, Day(bars, d), f),
                    RunnerContext(f, rules.initial), |rules.tickers|, f);
    }
  }

  /** Sessions up to the cut replay alike from both histories. */
  lemma {:induction false} SamePrefix(rules: Rules, early: Strategy, full: Strategy, plan: Plan, bars: Bars, cut: int,
                                      n: nat)
    requires Universe(rules, bars) && AgreeUpTo(early, full, bars, cut) && n <= CountUpTo(Sessions(bars), cut)
    requires n <= |Sessions(Truncate(bars, cut))|
    ensures RunTo(rules, early, plan, Truncate(bars, cut), n) == RunTo(rules, full, plan, bars, n)
  {
    hide StepDay, Day, Start, AgreeUpTo, Truncate, Remembers, ClosesFollow;
    if n > 0 {
      SamePrefix(rules, early, full, plan, bars, cut, n - 1);
      TruncatedSessions(bars, cut);
      var d, before := Sessions(bars)[n - 1], RunTo(rules, full, plan, bars, n - 1);
      assert Sessions(Truncate(bars, cut))[n - 1] == d && d <= cut;
      TruncatedDay(bars, d, cut);
      if before.Success? {
        HistoryIsPrinted(rules, full, plan, bars, n - 1, before.value);
        SameSession(rules, early, full, bars, cut, plan.basis, n, before.value);
      }
    }
  }

  /**
   No look-ahead. A run on bars cut off at any date ends in exactly the state
   the full run is in after its last session on or before that date: the same
   values, dates, trades, queues and funnel, or the same fault.
   */
  lemma NoLookAhead(rules: Rules, early: Strategy, full: Strategy, plan: Plan, bars: Bars, cut: int)
    requires Universe(rules, bars) && AgreeUpTo(early, full, bars, cut)
    ensures
      var n := CountUpTo(Sessions(bars), cut);
      && Sessions(Truncate(bars, cut)) == Sessions(bars)[..n]
      && Run(rules, early, plan, Truncate(bars, cut)) == RunTo(rules, full, plan, bars, n)
  {
    hide RunTo, AgreeUpTo, Truncate;
    TruncatedSessions(bars, cut);
    SamePrefix(rules, early, full, plan, bars, cut, CountUpTo(Sessions(bars), cut));
  }

  /** Later bars never reach a strategy: what it is shown on a session is what had printed by then. */
  lemma SameStrategyNoLookAhead(rules: Rules, strategy: Strategy, plan: Plan, bars: Bars, cut: int)
    requires Universe(rules, bars)
    ensures Run(rules, strategy, plan, Truncate(bars, cut))
            == RunTo(rules, strategy, plan, bars, CountUpTo(Sessions(bars), cut))
  {
    hide RunTo, Truncate;
    NoLookAhead(rules, strategy, strategy, plan, bars, cut);
  }
}
