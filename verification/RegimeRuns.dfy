/**
 Whole replays in which the regime switch shows. Whenever a bear ticker's answer
 turns on the switch there are rules under which the momentum replay of the bars
 up to a cut counts, and at a price above zero queues, a buy that the replay of
 all the bars never sees: so for a sleeve with the neutral stops the condition
 for no look-ahead is exact over runs, not only over signals.
 */
module RegimeRuns {
  import opened Basics
  import opened Market
  import opened Costs
  import opened Replay
  import opened ReplayBooks
  import opened ReplayLifecycle
  import opened ReplayIdle
  import opened ReplayHistory
  import opened LookAhead
  import opened Breadth
  import opened Momentum
  import opened MomentumRegimes

  // ---- Rules under which one ticker trades on one session ----

  /** Free trading, open to one ticker on one session, by the membership calendar. */
  function OneChance(tickers: seq<Ticker>, t: Ticker, d: int, cash: real): Rules {
    Rules(tickers, CostModel(0.0, 0.0, 0.0, map[]), 0.0, (q: RiskQuery) => RiskDecision(true, q.quantity),
          (x: Ticker, k: int) => x == t && k == d, None, 10, cash, false)
  }

  function Flowless(): Plan {
    Plan(map[], None)
  }

  /** What one session of a flowless replay leaves. */
  lemma FlowlessStep(rules: Rules, strategy: Strategy, d: int, day: map<Ticker, Bar>, st: State)
    requires st.pending == [] && st.scale.Some?
    ensures
      var r := StepDay(rules, strategy, None, d, day, st);
      && r.Success? && r.value.pending == [] && r.value.scale == st.scale
      && r.value.book == Closed(day, AfterDecisions(rules, strategy, d, day, BeforeFlows(rules, d, day, st.book)))
  {
    hide BeforeFlows, AfterDecisions, Nav, Closed;
  }

  /** Everyone else sits the session out. */
  lemma {:induction false} OnlyOne(tickers: seq<Ticker>, t: Ticker, e: int, cash: real, strategy: Strategy, d: int,
                                   day: map<Ticker, Bar>, out: set<Ticker>, ctx: Context, n: nat, b: Book)
    requires n <= |tickers| && Distinct(tickers)
    requires forall x :: x in day && (x != t || d != e) ==> x in out
    ensures
      Decisions(OneChance(tickers, t, e, cash), strategy, d, day, out, ctx, n, b)
      == if d == e && t in tickers[..n] then Decide(OneChance(tickers, t, e, cash), strategy, d, day, out, ctx, t, b)
         else b
  {
    hide DecideBuy, QueueExit;
    if n > 0 {
      OnlyOne(tickers, t, e, cash, strategy, d, day, out, ctx, n - 1, b);
      assert tickers[..n] == tickers[..n - 1] + [tickers[n - 1]];
    }
  }

  /** One session's decisions: at most that ticker's. */
  lemma ChanceTaken(tickers: seq<Ticker>, t: Ticker, e: int, cash: real, strategy: Strategy, d: int,
                    day: map<Ticker, Bar>, b: Book)
    requires Distinct(tickers) && t in tickers
    ensures
      var rules := OneChance(tickers, t, e, cash);
      AfterDecisions(rules, strategy, d, day, b)
      == if d == e then Decide(rules, strategy, d, day, OutOfUniverse(rules, d, day, b), RunnerContext(b, cash), t, b)
         else b
  {
    hide RunnerContext, Decide;
    var rules := OneChance(tickers, t, e, cash);
    OnlyOne(tickers, t, e, cash, strategy, d, day, OutOfUniverse(rules, d, day, b), RunnerContext(b, cash), |tickers|,
            b);
    assert tickers[..|tickers|] == tickers;
  }

  // ---- Before the session, and for the sleeve that never buys ----

  ghost predicate Waits(st: State, cash: real) {
    && Idle(st.book, cash) && st.pending == [] && st.scale.Some?
    && st.book.funnel == Funnel(0, 0, 0, 0, 0, 0, 0)
  }

  /** A book that holds nothing, as a signal function is shown it. */
  function Bare(cash: real): Context {
    Context(map[], map[], cash)
  }

  /** A morning of an idle book. */
  lemma IdleMorning(rules: Rules, bars: Bars, n: nat, st: State, cash: real)
    requires 0 < n <= |Sessions(bars)| && Remembers(bars, n - 1, st.book) && Waits(st, cash)
    ensures
      var d := Sessions(bars)[n - 1];
      var b := BeforeFlows(rules, d, Day(bars, d), st.book);
      && Remembers(bars, n, b) && Idle(b, cash) && b.funnel == Funnel(0, 0, 0, 0, 0, 0, 0)
      && RunnerContext(b, cash) == Bare(cash)
  {
    hide Remembers, BeforeFlows, Day, Sessions;
    var d := Sessions(bars)[n - 1];
    MorningRemembers(rules, bars, n, st.book);
    IdleBeforeFlows(rules, d, Day(bars, d), st.book, cash);
  }

  /** The ticker is not bought on a session: it is not the one, or the answer is no. */
  ghost predicate Declines(strategy: Strategy, bars: Bars, t: Ticker, e: int, cash: real, n: nat)
    requires 0 < n <= |Sessions(bars)|
  {
    Sessions(bars)[n - 1] == e ==>
      t in bars && BarOn(bars[t], e).Some? && strategy(t, ShownAfter(bars, t, n), Bare(cash)).None?
  }

  lemma WaitingStep(tickers: seq<Ticker>, t: Ticker, e: int, cash: real, strategy: Strategy, bars: Bars, n: nat,
                    st: State)
    requires Distinct(tickers) && t in tickers && Waits(st, cash)
    requires 0 < n <= |Sessions(bars)| && Remembers(bars, n - 1, st.book) && Declines(strategy, bars, t, e, cash, n)
    ensures
      var d := Sessions(bars)[n - 1];
      var r := StepDay(OneChance(tickers, t, e, cash), strategy, None, d, Day(bars, d), st);
      r.Success? && Waits(r.value, cash)
  {
    hide BeforeFlows, AfterDecisions, RunnerContext, Closed, StepDay, DecideBuy, QueueExit, OutOfUniverse, ShownAfter,
         Sessions;
    var rules, d := OneChance(tickers, t, e, cash), Sessions(bars)[n - 1];
    var day := Day(bars, d);
    var b := BeforeFlows(rules, d, day, st.book);
    FlowlessStep(rules, strategy, d, day, st);
    IdleMorning(rules, bars, n, st, cash);
    ChanceTaken(tickers, t, e, cash, strategy, d, day, b);
    IdleClosed(day, b, cash);
    ClosedFunnel(day, b);
  }

  lemma ClosedFunnel(day: map<Ticker, Bar>, b: Book)
    ensures Closed(day, b).funnel == b.funnel && Closed(day, b).entries == b.entries
  {
  }

  /** As long as the ticker is declined the replay stays where it started. */
  lemma {:induction false} RunWaits(tickers: seq<Ticker>, t: Ticker, e: int, cash: real, strategy: Strategy, bars: Bars,
                                    n: nat)
    requires Universe(OneChance(tickers, t, e, cash), bars) && t in tickers && n <= |Sessions(bars)|
    requires forall k: nat :: 0 < k <= n ==> Declines(strategy, bars, t, e, cash, k)
    ensures
      var r := RunTo(OneChance(tickers, t, e, cash), strategy, Flowless(), bars, n);
      r.Success? && Waits(r.value, cash)
  {
    hide StepDay, Day, Declines, Remembers, Sessions, ClosesFollow;
    var rules := OneChance(tickers, t, e, cash);
    if n == 0 {
      assert PendingFlows(map[]) == [];
    } else {
      RunWaits(tickers, t, e, cash, strategy, bars, n - 1);
      var prev := RunTo(rules, strategy, Flowless(), bars, n - 1).value;
      HistoryIsPrinted(rules, strategy, Flowless(), bars, n - 1, prev);
      WaitingStep(tickers, t, e, cash, strategy, bars, n, prev);
    }
  }

  // ---- The session on which the other sleeve buys ----

  /** A buy is counted; and queued when its price is above zero and the cash is there. */
  ghost predicate Counts(st: State, queues: bool) {
    && st.pending == [] && st.scale.Some? && st.book.funnel.signals >= 1
    && (queues ==> st.book.funnel.queued >= 1)
  }

  lemma NothingCommitted(rules: Rules, b: Book)
    requires b.entries == map[]
    ensures Committed(rules, b) == 0.0
  {
    SumAgree(rules.tickers, |rules.tickers|, EntryCost(b.entries), (t: int) => 0.0);
    SumZero(rules.tickers, |rules.tickers|);
  }

  /** Free trading reserves the price of the shares and no more. */
  lemma FreeCost(q: real, price: real, c: Terms)
    requires q > 0.0 && price > 0.0 && c == Terms(0.0, 0.0, 0.0)
    ensures SleeveBuyCost(q, price, Clamped(c)) == q * price
  {
    assert 1.0 + 0.0 / 10000.0 == 1.0;
  }

  lemma Queues(tickers: seq<Ticker>, t: Ticker, e: int, cash: real, s: Signal, b: Book)
    requires Idle(b, cash) && s.limit > 0.0 && s.quantity > 0.0 && s.quantity * s.limit <= cash
    ensures Financed(OneChance(tickers, t, e, cash), t, s, s.quantity, b).Queued?
  {
    var rules := OneChance(tickers, t, e, cash);
    NothingCommitted(rules, b);
    assert TermsFor(rules, t) == Terms(0.0, 0.0, 0.0);
    FreeCost(s.quantity, s.limit, TermsFor(rules, t));
    hide Committed, TermsFor, SleeveBuyCost;
  }

  lemma QueuedIsKept(f: Funnel, o: BuyOutcome)
    requires f == Funnel(0, 0, 0, 0, 0, 0, 0) && o != TooEarly
    ensures Tallied(f, o).signals == 1 && (o.Queued? ==> Tallied(f, o).queued == 1)
  {
  }

  /** The one buy is counted, and queued if it can be. */
  lemma BuyCounts(tickers: seq<Ticker>, t: Ticker, e: int, cash: real, day: map<Ticker, Bar>, s: Signal, b: Book)
    requires Idle(b, cash) && b.funnel == Funnel(0, 0, 0, 0, 0, 0, 0)
    ensures
      var c := DecideBuy(OneChance(tickers, t, e, cash), e, day, t, s, b);
      && c.funnel.signals == 1
      && (s.limit > 0.0 && s.quantity > 0.0 && s.quantity * s.limit <= cash ==> c.funnel.queued == 1 && t in c.entries)
  {
    var rules := OneChance(tickers, t, e, cash);
    var o := OutcomeOf(rules, e, day, t, s, b);
    assert o == Financed(rules, t, s, s.quantity, b) by {
      hide Financed, Query;
    }
    if s.limit > 0.0 && s.quantity > 0.0 && s.quantity * s.limit <= cash {
      Queues(tickers, t, e, cash, s, b);
    }
    hide OutcomeOf, Idle, Tallied, Financed;
    QueuedIsKept(b.funnel, o);
  }

  /** The session on which the ticker's one answer is a buy. */
  lemma BuyingStep(tickers: seq<Ticker>, t: Ticker, cash: real, strategy: Strategy, bars: Bars, n: nat, st: State,
                   s: Signal)
    requires Distinct(tickers) && t in tickers && Waits(st, cash) && s.action == Buy
    requires 0 < n <= |Sessions(bars)| && Remembers(bars, n - 1, st.book)
    requires t in bars && BarOn(bars[t], Sessions(bars)[n - 1]).Some?
    requires strategy(t, ShownAfter(bars, t, n), Bare(cash)) == Some(s)
    ensures
      var d := Sessions(bars)[n - 1];
      var r := StepDay(OneChance(tickers, t, d, cash), strategy, None, d, Day(bars, d), st);
      var queues := s.limit > 0.0 && s.quantity > 0.0 && s.quantity * s.limit <= cash;
      && r.Success? && Counts(r.value, queues) && (queues ==> t in r.value.book.entries)
  {
    hide BeforeFlows, AfterDecisions, RunnerContext, Closed, StepDay, DecideBuy, QueueExit, ShownAfter, Sessions, Idle;
    var d := Sessions(bars)[n - 1];
    var rules, day := OneChance(tickers, t, d, cash), Day(bars, d);
    var b := BeforeFlows(rules, d, day, st.book);
    FlowlessStep(rules, strategy, d, day, st);
    IdleMorning(rules, bars, n, st, cash);
    ChanceTaken(tickers, t, d, cash, strategy, d, day, b);
    BuyCounts(tickers, t, d, cash, day, s, b);
    ClosedFunnel(day, AfterDecisions(rules, strategy, d, day, b));
  }

  // ---- The sessions after it ----

  /** Counts of signals and of queued entries never fall. */
  ghost predicate NoFewer(b: Book, c: Book) {
    c.funnel.signals >= b.funnel.signals && c.funnel.queued >= b.funnel.queued
  }

  lemma {:induction false} WriteOffsCount(rules: Rules, d: int, names: seq<Ticker>, n: nat, b: Book)
    requires n <= |names|
    ensures NoFewer(b, WriteOffs(rules, d, names, n, b))
  {
    hide ClosedTrades, SeqSum, SoldEvents, ExitReason, Without;
    if n > 0 {
      WriteOffsCount(rules, d, names, n - 1, b);
    }
  }

  lemma {:induction false} WorkExitsCount(rules: Rules, day: map<Ticker, Bar>, order: seq<Ticker>, n: nat, b: Book)
    requires n <= |order|
    ensures NoFewer(b, WorkExits(rules, day, order, n, b))
  {
    hide ClosedTrades, SeqSum, SoldEvents, Without;
    if n > 0 {
      WorkExitsCount(rules, day, order, n - 1, b);
    }
  }

  lemma {:induction false} DecisionsCount(rules: Rules, strategy: Strategy, d: int, day: map<Ticker, Bar>,
                                          out: set<Ticker>, ctx: Context, n: nat, b: Book)
    requires n <= |rules.tickers|
    ensures NoFewer(b, Decisions(rules, strategy, d, day, out, ctx, n, b))
  {
    hide OutcomeOf;
    if n > 0 {
      DecisionsCount(rules, strategy, d, day, out, ctx, n - 1, b);
    }
  }

  lemma MorningCounts(rules: Rules, d: int, day: map<Ticker, Bar>, b: Book)
    ensures NoFewer(b, BeforeFlows(rules, d, day, b))
  {
    hide WriteOffs, WorkExits, WorkEntries, Gate, Names;
    var names := Names(rules);
    WriteOffsCount(rules, d, names, |names|, b.(stale := Aged(day, b.stale)));
    var w := AfterWriteOffs(rules, d, day, b);
    WorkExitsCount(rules, day, w.exitOrder, |w.exitOrder|, w);
    WorkEntriesOpen(rules, day, |rules.tickers|, AfterExits(rules, d, day, b));
    GateSame(rules, d, names, |names|, Recorded(day, Expired(AfterEntries(rules, d, day, b))));
  }

  lemma LaterStep(rules: Rules, strategy: Strategy, d: int, day: map<Ticker, Bar>, st: State, queues: bool)
    requires Counts(st, queues)
    ensures
      var r := StepDay(rules, strategy, None, d, day, st);
      r.Success? && Counts(r.value, queues)
  {
    hide BeforeFlows, Decisions, Closed, StepDay, RunnerContext, OutOfUniverse;
    var b := BeforeFlows(rules, d, day, st.book);
    FlowlessStep(rules, strategy, d, day, st);
    MorningCounts(rules, d, day, st.book);
    DecisionsCount(rules, strategy, d, day, OutOfUniverse(rules, d, day, b), RunnerContext(b, rules.initial),
                   |rules.tickers|, b);
    ClosedFunnel(day, AfterDecisions(rules, strategy, d, day, b));
  }

  lemma {:induction false} RunCounts(rules: Rules, strategy: Strategy, bars: Bars, k: nat, n: nat, queues: bool)
    requires k <= n <= |Sessions(bars)|
    requires
      var r := RunTo(rules, strategy, Flowless(), bars, k);
      r.Success? && Counts(r.value, queues)
    ensures
      var r := RunTo(rules, strategy, Flowless(), bars, n);
      r.Success? && Counts(r.value, queues)
  {
    hide StepDay, Start, Day, Sessions, Counts;
    if k < n {
      RunCounts(rules, strategy, bars, k, n - 1, queues);
      var d := Sessions(bars)[n - 1];
      LaterStep(rules, strategy, d, Day(bars, d), RunTo(rules, strategy, Flowless(), bars, n - 1).value, queues);
    }
  }

  // ---- The two replays ----

  /** What the two sleeves answer on a session, holding nothing, about a bear ticker that turns on the switch. */
  lemma BearAnswers(s: Settings, bars: Bars, tickers: seq<Ticker>, period: nat, h: Thresholds, cut: int, t: Ticker,
                    n: nat, cash: real)
    requires period > 0 && AllByDate(bars) && !SameSwitch(bars, tickers, period, cut)
    requires 0 < n <= |Sessions(bars)| && Sessions(bars)[n - 1] <= cut
    requires t in s.bearTickers && TurnsOn(s, bars, tickers, t, Sessions(bars)[n - 1])
    ensures
      var shown, close := ShownAfter(bars, t, n), BarOn(bars[t], Sessions(bars)[n - 1]).value.close;
      && EntryQuantity(s, close).Some?
      && FullSignals(s, bars, tickers, period, h)(t, shown, Bare(cash)) == None
      && EarlySignals(s, bars, tickers, period, h, cut)(t, shown, Bare(cash))
         == Some(Signal(Buy, close, EntryQuantity(s, close).value, "Unknown", ""))
  {
    hide RegimeTable, RankingOn, Sessions, SameSwitch, ShownAfter, EarlySignals, FullSignals, InFirst, EntryQuantity,
         AllByDate, UpTo, BarOn;
    var d := Sessions(bars)[n - 1];
    Asked(s, bars, tickers, period, h, cut, t, n, Bare(cash));
    SameEntry(s, map[], BarOn(bars[t], d).value.close);
  }

  lemma BuysSomething(s: Settings, price: real)
    requires EntryQuantity(s, price).Some?
    ensures EntryQuantity(s, price).value > 0.0
  {
  }

  /** Cash for exactly the shares the sleeve would buy. */
  function CashFor(s: Settings, price: real): real {
    if EntryQuantity(s, price).Some? then Max(0.0, EntryQuantity(s, price).value * price) else 0.0
  }

  /** The sleeve that knows all the bars never trades. */
  lemma FullRunWaits(s: Settings, bars: Bars, tickers: seq<Ticker>, period: nat, h: Thresholds, cut: int, t: Ticker,
                     n: nat, cash: real, m: nat)
    requires period > 0 && AllByDate(bars) && !SameSwitch(bars, tickers, period, cut)
    requires Distinct(tickers) && Elements(tickers) == bars.Keys
    requires 0 < n <= |Sessions(bars)| && Sessions(bars)[n - 1] <= cut && m <= |Sessions(bars)|
    requires t in s.bearTickers && TurnsOn(s, bars, tickers, t, Sessions(bars)[n - 1])
    ensures
      var rules := OneChance(tickers, t, Sessions(bars)[n - 1], cash);
      var r := RunTo(rules, FullSignals(s, bars, tickers, period, h), Flowless(), bars, m);
      r.Success? && Waits(r.value, cash)
  {
    hide RunTo, Waits, Sessions, SameSwitch, EarlySignals, FullSignals, Turns, EntryQuantity, AllByDate, ShownAfter;
    var d, full := Sessions(bars)[n - 1], FullSignals(s, bars, tickers, period, h);
    BearAnswers(s, bars, tickers, period, h, cut, t, n, cash);
    forall k: nat | 0 < k <= m
      ensures Declines(full, bars, t, d, cash, k)
    {
      if Sessions(bars)[k - 1] == d {
        assert k == n;
      }
    }
    assert t in Elements(tickers);
    RunWaits(tickers, t, d, cash, full, bars, m);
  }

  /** The sleeve that knows the bars up to the cut waits for its session and buys on it. */
  lemma EarlyRunCounts(s: Settings, bars: Bars, tickers: seq<Ticker>, period: nat, h: Thresholds, cut: int, t: Ticker,
                       n: nat, m: nat)
    requires period > 0 && AllByDate(bars) && !SameSwitch(bars, tickers, period, cut)
    requires Distinct(tickers) && Elements(tickers) == bars.Keys
    requires 0 < n <= m <= |Sessions(bars)| && Sessions(bars)[n - 1] <= cut
    requires t in s.bearTickers && TurnsOn(s, bars, tickers, t, Sessions(bars)[n - 1])
    ensures
      var d := Sessions(bars)[n - 1];
      var close := BarOn(bars[t], d).value.close;
      var r := RunTo(OneChance(tickers, t, d, CashFor(s, close)), EarlySignals(s, bars, tickers, period, h, cut),
                     Flowless(), bars, m);
      r.Success? && Counts(r.value, close > 0.0)
  {
    hide Waits, Counts, Sessions, SameSwitch, EarlySignals, FullSignals, Turns, EntryQuantity, AllByDate, ShownAfter,
         StepDay, Start, Day, UpTo, Remembers, ClosesFollow;
    var d, early := Sessions(bars)[n - 1], EarlySignals(s, bars, tickers, period, h, cut);
    var close := BarOn(bars[t], d).value.close;
    var cash := CashFor(s, close);
    var rules := OneChance(tickers, t, d, cash);
    BearAnswers(s, bars, tickers, period, h, cut, t, n, cash);
    assert t in Elements(tickers);
    forall k: nat | 0 < k <= n - 1
      ensures Declines(early, bars, t, d, cash, k)
    {
    }
    RunWaits(tickers, t, d, cash, early, bars, n - 1);
    var prev := RunTo(rules, early, Flowless(), bars, n - 1).value;
    HistoryIsPrinted(rules, early, Flowless(), bars, n - 1, prev);
    BuysSomething(s, close);
    BuyingStep(tickers, t, cash, early, bars, n, prev,
               Signal(Buy, close, EntryQuantity(s, close).value, "Unknown", ""));
    assert RunTo(rules, early, Flowless(), bars, n).Success?;
    RunCounts(rules, early, bars, n, m, close > 0.0);
  }

  /**
   A run whose cut replay is no prefix. Under rules that let one bear ticker
   trade on a session on which its answer turns on the switch, the replay of the
   bars up to the cut counts a buy, and at a price above zero queues it; the
   replay of all the bars has by then counted nothing and holds what it began
   with.
   */
  lemma BearRunDiffers(s: Settings, bars: Bars, tickers: seq<Ticker>, period: nat, h: Thresholds, cut: int, t: Ticker,
                       d: int)
    requires period > 0 && AllByDate(bars) && !SameSwitch(bars, tickers, period, cut)
    requires Distinct(tickers) && Elements(tickers) == bars.Keys
    requires t in s.bearTickers && d <= cut && TurnsOn(s, bars, tickers, t, d)
    ensures
      var close := BarOn(bars[t], d).value.close;
      var rules := OneChance(tickers, t, d, CashFor(s, close));
      var early := Run(rules, EarlySignals(s, bars, tickers, period, h, cut), Flowless(), Truncate(bars, cut));
      var full := RunTo(rules, FullSignals(s, bars, tickers, period, h), Flowless(), bars,
                        CountUpTo(Sessions(bars), cut));
      && early.Success? && Counts(early.value, close > 0.0)
      && full.Success? && Waits(full.value, CashFor(s, close))
      && early != full
  {
    hide RunTo, Waits, Counts, SameSwitch, EarlySignals, FullSignals, AllByDate, CashFor, Sessions, Truncate, Turns,
         UpTo;
    SessionOf(bars, t, d);
    var i :| 0 <= i < |Sessions(bars)| && Sessions(bars)[i] == d;
    var m, close := CountUpTo(Sessions(bars), cut), BarOn(bars[t], d).value.close;
    var rules, early := OneChance(tickers, t, d, CashFor(s, close)), EarlySignals(s, bars, tickers, period, h, cut);
    FullRunWaits(s, bars, tickers, period, h, cut, t, i + 1, CashFor(s, close), m);
    EarlyRunCounts(s, bars, tickers, period, h, cut, t, i + 1, m);
    SameStrategyNoLookAhead(rules, early, Flowless(), bars, cut);
    CountedAndNot(RunTo(rules, early, Flowless(), bars, m).value, close > 0.0, CashFor(s, close));
  }

  lemma CountedAndNot(st: State, queues: bool, cash: real)
    requires Counts(st, queues)
    ensures !Waits(st, cash)
  {
  }

  // ---- The exact condition, over runs ----

  /** Under any rules and flows the momentum replay of the bars up to the cut is a prefix of that of all the bars. */
  ghost predicate ReplaysAgree(s: Settings, bars: Bars, tickers: seq<Ticker>, period: nat, h: Thresholds, cut: int)
    requires period > 0
  {
    forall rules: Rules, plan: Plan :: rules.tickers == tickers ==>
      Run(rules, EarlySignals(s, bars, tickers, period, h, cut), plan, Truncate(bars, cut))
      == RunTo(rules, FullSignals(s, bars, tickers, period, h), plan, bars, CountUpTo(Sessions(bars), cut))
  }

  /** No bear ticker's answer turns on the switch up to the cut. */
  ghost predicate BearsIdle(s: Settings, bars: Bars, tickers: seq<Ticker>, cut: int) {
    forall t, d :: t in s.bearTickers && d <= cut ==> !TurnsOn(s, bars, tickers, t, d)
  }

  lemma BearTurnBreaks(s: Settings, bars: Bars, tickers: seq<Ticker>, period: nat, h: Thresholds, cut: int, t: Ticker,
                       d: int)
    requires period > 0 && AllByDate(bars) && !SameSwitch(bars, tickers, period, cut)
    requires Distinct(tickers) && Elements(tickers) == bars.Keys
    requires t in s.bearTickers && d <= cut && TurnsOn(s, bars, tickers, t, d)
    ensures !ReplaysAgree(s, bars, tickers, period, h, cut)
  {
    hide RunTo, SameSwitch, EarlySignals, FullSignals, AllByDate, Sessions, Truncate, CashFor, Counts, Waits, UpTo,
         Turns;
    BearRunDiffers(s, bars, tickers, period, h, cut, t, d);
    var rules := OneChance(tickers, t, d, CashFor(s, BarOn(bars[t], d).value.close));
    assert rules.tickers == tickers;
  }

  lemma NeutralTurns(s: Settings, bars: Bars, tickers: seq<Ticker>, cut: int)
    requires s.stops == RegimeStops(Neutral)
    ensures SwitchIdle(s, bars, tickers, cut) <==> BearsIdle(s, bars, tickers, cut)
  {
    hide RankingOn, UpTo, BarOn, InFirst, EntryQuantity;
  }

  /**
   Over whole replays: when regimes are on for both or for neither, or nothing
   turns on it, the replay of the bars up to the cut is a prefix under every rule
   book and every flow; and it is only when no bear ticker turns on the switch.
   For a sleeve whose own stops are the neutral ones that is if and only if.
   */
  lemma RegimeRunsIff(s: Settings, bars: Bars, tickers: seq<Ticker>, period: nat, h: Thresholds, cut: int)
    requires period > 0 && AllByDate(bars) && Distinct(tickers) && Elements(tickers) == bars.Keys
    ensures SameSwitch(bars, tickers, period, cut) || SwitchIdle(s, bars, tickers, cut)
            ==> ReplaysAgree(s, bars, tickers, period, h, cut)
    ensures ReplaysAgree(s, bars, tickers, period, h, cut)
            ==> SameSwitch(bars, tickers, period, cut) || BearsIdle(s, bars, tickers, cut)
    ensures s.stops == RegimeStops(Neutral) ==>
              (ReplaysAgree(s, bars, tickers, period, h, cut)
               <==> SameSwitch(bars, tickers, period, cut) || BearsIdle(s, bars, tickers, cut))
  {
    hide RunTo, SameSwitch, SwitchIdle, TurnsOn, EarlySignals, FullSignals, AllByDate, Sessions, Truncate, CashFor,
         RegimeStops;
    if SameSwitch(bars, tickers, period, cut) || SwitchIdle(s, bars, tickers, cut) {
      forall rules: Rules, plan: Plan | rules.tickers == tickers
        ensures Run(rules, EarlySignals(s, bars, tickers, period, h, cut), plan, Truncate(bars, cut))
                == RunTo(rules, FullSignals(s, bars, tickers, period, h), plan, bars, CountUpTo(Sessions(bars), cut))
      {
        RegimeReplayNoLookAhead(rules, s, plan, bars, period, h, cut);
      }
    }
    if !SameSwitch(bars, tickers, period, cut) && !BearsIdle(s, bars, tickers, cut) {
      var t, d :| t in s.bearTickers && d <= cut && TurnsOn(s, bars, tickers, t, d);
      BearTurnBreaks(s, bars, tickers, period, h, cut, t, d);
    }
    if s.stops == RegimeStops(Neutral) {
      NeutralTurns(s, bars, tickers, cut);
    }
  }
}
