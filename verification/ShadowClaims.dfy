/**
 What a shadow's verdict rests on: it never places a flow it cannot scale, it
 opens the warm-up on the seed, its curve opens on live's value, and scaling it
 there moves none of the returns it is graded by.
 */
module ShadowClaims {
  import opened Basics
  import opened Market
  import opened Replay
  import opened ReplayBooks
  import opened ReplayLifecycle
  import opened ReplayIdle
  import opened ReplayAccounts
  import opened ReplayFlows
  import opened LookAhead
  import opened ShadowHoldings
  import opened Shadow
  import opened Divergence

  // ---- When the replay fails ----

  /**
   Bars of the derived length never come up short: with at most a window's
   sessions on or after its start, the replay is not truncated.
   */
  lemma NeverTruncated(s: Setup, bars: Bars, window: nat)
    requires Universe(s.rules, bars)
    requires |Sessions(bars)| >= FetchYears(window, s.warmup, s.lookback) * SESSIONS_PER_FETCH_YEAR
    requires |Sessions(bars)| - StartIndex(s, Sessions(bars)) <= window
    ensures Replayed(s, bars) != Failure(WarmupTruncated)
  {
    hide RunTo, Sessions, CountUpTo, EndOfDay, Graded, WindowRun;
    FetchYearsLeast(window, s.warmup, s.lookback);
    var start := StartIndex(s, Sessions(bars));
    if start < |Sessions(bars)| {
      assert Holds(s, start);
      var r := WindowRun(s, bars, start, |Sessions(bars)|);
      if r.Success? {
        GradedFaults(s, bars, start, r.value);
      }
    }
  }

  lemma NoBadSession(s: Setup, sessions: seq<int>, start: nat)
    requires Ascending(sessions) && start < |sessions|
    requires s.seed != 0.0 || Inside(s.flows, sessions[start]) == map[]
    ensures forall i :: 0 <= i < |sessions| ==> !BadSession(WindowPlan(s, sessions[start]), sessions, i)
  {
    var plan := WindowPlan(s, sessions[start]);
    forall i | 0 <= i < |sessions|
      ensures !BadSession(plan, sessions, i)
    {
      if plan.basis.Some? {
        if i > start {
          assert !(sessions[start] < plan.basis.value.day);
        } else {
          assert sessions[i] <= sessions[start];
          assert !FlowDue(plan.flows, sessions[i]);
        }
      }
    }
  }

  lemma ZeroSeedFails(s: Setup, sessions: seq<int>, start: nat, n: nat)
    requires Ascending(sessions) && start < n <= |sessions|
    requires s.seed == 0.0 && Inside(s.flows, sessions[start]) != map[]
    ensures FirstFault(WindowPlan(s, sessions[start]), sessions, n) == Some(ZeroBasis)
    decreases n
  {
    var plan := WindowPlan(s, sessions[start]);
    assert Unscaled(plan.basis, sessions, start);
    assert !FlowDue(plan.flows, sessions[start]);
    if n == start + 1 {
      forall i | 0 <= i < start
        ensures !BadSession(plan, sessions, i)
      {
        assert !FlowDue(plan.flows, sessions[i]);
      }
    } else {
      ZeroSeedFails(s, sessions, start, n - 1);
    }
  }

  /**
   The replay never triggers the runner's unscaled-flow error: flows kept are
   dated after the anchor, whose close teaches the scale. It fails only when a
   flow is to be scaled by a seed of zero.
   */
  lemma WindowRunFaults(s: Setup, bars: Bars, start: nat)
    requires Universe(s.rules, bars) && start < |Sessions(bars)| && Holds(s, start)
    ensures
      var inside := Inside(s.flows, Sessions(bars)[start]);
      var r := WindowRun(s, bars, start, |Sessions(bars)|);
      if s.seed == 0.0 && inside != map[] then r == Failure(ZeroBasis) else r.Success?
  {
    hide RunTo, BadSession;
    var sessions := Sessions(bars);
    var warmFrom, plan := sessions[start - s.warmup], WindowPlan(s, sessions[start]);
    WindowUniverse(s, bars, warmFrom);
    RunFaults(WindowRules(s, warmFrom), WarmGate(s.signals, warmFrom), plan, bars, |sessions|);
    if s.seed == 0.0 && Inside(s.flows, sessions[start]) != map[] {
      ZeroSeedFails(s, sessions, start, |sessions|);
    } else {
      NoBadSession(s, sessions, start);
    }
  }

  lemma NeverUnscaled(s: Setup, bars: Bars, d: int)
    requires Universe(s.rules, bars)
    ensures Replayed(s, bars) != Failure(ReplayFailed(UnscaledFlow(d)))
    ensures s.seed != 0.0 ==> forall fault :: Replayed(s, bars) != Failure(ReplayFailed(fault))
  {
    hide RunTo, Sessions, CountUpTo, EndOfDay, WindowRun, Inside, Graded;
    var start := StartIndex(s, Sessions(bars));
    if start < |Sessions(bars)| && Holds(s, start) {
      WindowRunFaults(s, bars, start);
      var r := WindowRun(s, bars, start, |Sessions(bars)|);
      if r.Success? {
        GradedFaults(s, bars, start, r.value);
      }
    }
  }

  lemma GradedFaults(s: Setup, bars: Bars, start: nat, st: State)
    requires Universe(s.rules, bars) && start < |Sessions(bars)| && Holds(s, start)
    requires WindowRun(s, bars, start, |Sessions(bars)|) == Success(st)
    ensures |st.values| == |st.dates| + 1 && Sessions(bars)[start] in EndOfDay(st.dates, st.values)
    ensures
      var r := Graded(s, bars, Sessions(bars)[start], Sessions(bars)[start - s.warmup], st);
      r.Failure? ==> r.error.BadOpening?
  {
    var warmFrom := Sessions(bars)[start - s.warmup];
    hide *;
    RunCovers(s, bars, start, st);
    GradingFails(s, bars, Sessions(bars)[start], warmFrom, st);
  }

  /** Grading fails only on an opening value that is not positive. */
  lemma GradingFails(s: Setup, bars: Bars, anchor: int, warmFrom: int, st: State)
    requires |st.values| == |st.dates| + 1 && anchor in EndOfDay(st.dates, st.values)
    ensures
      var r, nav := Graded(s, bars, anchor, warmFrom, st), EndOfDay(st.dates, st.values)[anchor];
      (r.Failure? <==> nav <= 0.0) && (r.Failure? ==> r.error == BadOpening(nav))
  {
    hide EndOfDay, Curve, Included, FlowAdjusted, InvestedAt;
  }

  // ---- The warm-up starts on the seed ----

  lemma {:induction false} GatedDecisions(rules: Rules, signals: Strategy, warmFrom: int, d: int, day: map<Ticker, Bar>,
                                          out: set<Ticker>, ctx: Context, n: nat, b: Book)
    requires n <= |rules.tickers| && d < warmFrom && EndsToday(day, b) && PrintedOn(day, d)
    ensures Decisions(rules, WarmGate(signals, warmFrom), d, day, out, ctx, n, b) == b
  {
    hide DecideBuy, QueueExit;
    if n > 0 {
      GatedDecisions(rules, signals, warmFrom, d, day, out, ctx, n - 1, b);
    }
  }

  /** A session up to the warm-up's first leaves the value at the seed; one before it leaves the book idle. */
  lemma IdleStep(rules: Rules, signals: Strategy, warmFrom: int, basis: Option<DatedSum>, d: int, day: map<Ticker, Bar>,
                 st: State, next: State, seed: real)
    requires Distinct(rules.tickers) && Sound(rules, st.book)
    requires day.Keys <= Elements(rules.tickers) && PrintedOn(day, d)
    requires Idle(st.book, seed) && (st.pending == [] || st.pending[0].day > d)
    requires StepDay(rules, WarmGate(signals, warmFrom), basis, d, day, st) == Success(next)
    ensures next.values == st.values + [seed]
    ensures d < warmFrom ==> Idle(next.book, seed)
  {
    hide Sound, Distinct, BeforeFlows, EndsToday, PrintedOn, WarmGate, MarksCurrent, Nav, LearnedScale, Closed,
         Decisions,
         RunnerContext, OutOfUniverse;
    var strategy := WarmGate(signals, warmFrom);
    StepStages(rules, strategy, basis, d, day, st, next);
    IdleBeforeFlows(rules, d, day, st.book, seed);
    ShownEndsToday(rules, d, day, st.book);
    var f := BeforeFlows(rules, d, day, st.book);
    var c := AfterDecisions(rules, strategy, d, day, f);
    IdleNav(rules, day, c);
    if d < warmFrom {
      GatedDecisions(rules, signals, warmFrom, d, day, OutOfUniverse(rules, d, day, f), RunnerContext(f, rules.initial),
                     |rules.tickers|, f);
      IdleClosed(day, f, seed);
    }
  }

  lemma WindowFlowsLater(s: Setup, anchor: int)
    ensures forall k :: k in WindowPlan(s, anchor).flows ==> k > anchor
  {
  }

  /** Nothing has traded before the warm-up opens, and the value is exactly the seed through its first close. */
  lemma {:induction false} SeedThroughWarmup(s: Setup, bars: Bars, start: nat, n: nat, st: State)
    requires Universe(s.rules, bars) && start < |Sessions(bars)| && Holds(s, start)
    requires n <= start - s.warmup + 1 && WindowRun(s, bars, start, n) == Success(st)
    ensures st.values == seq(n + 1, i => s.seed)
    ensures n <= start - s.warmup ==> Idle(st.book, s.seed)
  {
    hide StepDay, Balanced, Day, Sound, Idle, Start, PrintedOn, FlowsSettled, WarmGate, WindowPlan, Universe;
    var sessions := Sessions(bars);
    var warmFrom, anchor := sessions[start - s.warmup], sessions[start];
    var rules, strategy, plan := WindowRules(s, warmFrom), WarmGate(s.signals, warmFrom), WindowPlan(s, anchor);
    WindowUniverse(s, bars, warmFrom);
    if n == 0 {
      StartIdle(rules, plan);
    } else {
      var d, prev := sessions[n - 1], RunTo(rules, strategy, plan, bars, n - 1).value;
      assert d <= warmFrom <= anchor;
      SeedThroughWarmup(s, bars, start, n - 1, prev);
      RunBalanced(rules, strategy, plan, bars, n - 1, prev);
      BalancedIsSound(rules, prev);
      RunSettles(rules, strategy, plan, bars, n - 1, prev);
      WindowFlowsLater(s, anchor);
      NothingDue(plan, sessions, n - 1, prev);
      UniverseDay(rules, bars, d);
      DayPrinted(bars, d);
      IdleStep(rules, s.signals, warmFrom, plan.basis, d, Day(bars, d), prev, st, s.seed);
    }
  }

  lemma UniverseDay(rules: Rules, bars: Bars, d: int)
    requires Universe(rules, bars)
    ensures Distinct(rules.tickers) && Day(bars, d).Keys <= Elements(rules.tickers)
  {
  }

  /** From the warm-up's first session on the gate is open: decisions are the signal function's own. */
  lemma GateOpens(rules: Rules, signals: Strategy, warmFrom: int, d: int, day: map<Ticker, Bar>, b: Book)
    requires warmFrom <= d && EndsToday(day, b) && PrintedOn(day, d)
    ensures AfterDecisions(rules, WarmGate(signals, warmFrom), d, day, b) == AfterDecisions(rules, signals, d, day, b)
  {
    hide EndsToday, PrintedOn, RunnerContext, OutOfUniverse, Decisions;
    OpenDecisions(rules, signals, warmFrom, d, day, OutOfUniverse(rules, d, day, b), RunnerContext(b, rules.initial),
                  |rules.tickers|, b);
  }

  lemma {:induction false} OpenDecisions(rules: Rules, signals: Strategy, warmFrom: int, d: int, day: map<Ticker, Bar>,
                                         out: set<Ticker>, ctx: Context, n: nat, b: Book)
    requires n <= |rules.tickers| && warmFrom <= d && EndsToday(day, b) && PrintedOn(day, d)
    ensures Decisions(rules, WarmGate(signals, warmFrom), d, day, out, ctx, n, b)
            == Decisions(rules, signals, d, day, out, ctx, n, b)
  {
    hide DecideBuy, QueueExit;
    if n > 0 {
      OpenDecisions(rules, signals, warmFrom, d, day, out, ctx, n - 1, b);
      DecisionsHistory(rules, signals, d, day, out, ctx, n - 1, b);
    }
  }

  /** The window's rules are the sleeve's own, on live's opening value, with buys from the warm-up on. */
  lemma WindowOpens(s: Setup, warmFrom: int, d: int, day: map<Ticker, Bar>, t: Ticker, signal: Signal, b: Book)
    ensures OutcomeOf(WindowRules(s, warmFrom), d, day, t, signal, b).TooEarly? <==> d < warmFrom
    ensures WindowRules(s, warmFrom) == s.rules.(initial := s.seed, start := WindowRules(s, warmFrom).start)
  {
    hide Query, Financed;
  }

  /**
   What comes of a window before anything is run: nothing, when no session is on
   or after its start; a truncated warm-up, exactly when fewer sessions come
   before it than warm-up and lookback take; and otherwise a run of all of it.
   */
  lemma WindowSplits(s: Setup, bars: Bars, before: nat)
    requires Universe(s.rules, bars) && before <= |Sessions(bars)| && SplitsAt(Sessions(bars), s.windowStart, before)
    ensures before == |Sessions(bars)| ==> Replayed(s, bars) == Success(WindowReplay(map[], None, None))
    ensures Replayed(s, bars) == Failure(WarmupTruncated) <==>
            before < |Sessions(bars)| && before < s.warmup + s.lookback
    ensures before < |Sessions(bars)| && before >= s.warmup + s.lookback && Replayed(s, bars).Success? ==>
      Replayed(s, bars).value.warmFrom == Some(Sessions(bars)[before - s.warmup])
  {
    hide RunTo, Sessions, EndOfDay, Graded, WindowRun;
    NoSessions(bars);
    StartSplits(s, Sessions(bars));
    SameSplit(Sessions(bars), s.windowStart, before, StartIndex(s, Sessions(bars)));
    hide CountUpTo;
    if before < |Sessions(bars)| && before >= s.warmup + s.lookback {
      var r := WindowRun(s, bars, before, |Sessions(bars)|);
      if r.Success? {
        GradedFaults(s, bars, before, r.value);
        RunCovers(s, bars, before, r.value);
        GradedFrom(s, bars, Sessions(bars)[before], Sessions(bars)[before - s.warmup], r.value);
      }
    }
  }

  lemma GradedFrom(s: Setup, bars: Bars, anchor: int, warmFrom: int, st: State)
    requires |st.values| == |st.dates| + 1 && anchor in EndOfDay(st.dates, st.values)
    ensures
      var r := Graded(s, bars, anchor, warmFrom, st);
      r.Success? ==> r.value.warmFrom == Some(warmFrom)
  {
    hide EndOfDay, Curve, Included, FlowAdjusted, InvestedAt;
  }

  lemma SameSplit(sessions: seq<int>, windowStart: int, m: nat, n: nat)
    requires m <= |sessions| && n <= |sessions|
    requires SplitsAt(sessions, windowStart, m) && SplitsAt(sessions, windowStart, n)
    ensures m == n
  {
    assert m < |sessions| ==> (sessions[m] < windowStart <==> m < n);
    assert n < |sessions| ==> (sessions[n] < windowStart <==> n < m);
  }

  // ---- Normalisation ----

  lemma Normalised(seed: real, nav: real)
    requires nav > 0.0
    ensures Times(nav, seed / nav) == seed
  {
    assert nav * (seed / nav) == seed;
  }

  /** What a replay hands back, read from the completed run. */
  lemma ReplayedIs(s: Setup, bars: Bars, start: nat, st: State)
    requires Universe(s.rules, bars) && start < |Sessions(bars)|
    requires Holds(s, start) && start == StartIndex(s, Sessions(bars))
    requires WindowRun(s, bars, start, |Sessions(bars)|) == Success(st)
    requires |st.values| > start + 1 && st.values[start + 1] > 0.0
    ensures |st.values| == |st.dates| + 1 && Replayed(s, bars).Success?
    ensures
      var w := Replayed(s, bars).value;
      && w.warmFrom == Some(Sessions(bars)[start - s.warmup])
      && w.invested == Some(InvestedAt(s.rules, bars, Sessions(bars)[start], st.book, st.values[start + 1]))
      && (st.applied == [] ==>
            w.curve == Curve(EndOfDay(st.dates, st.values), s.windowStart, s.seed / st.values[start + 1]))
  {
    hide RunTo, EndOfDay, InvestedAt, FlowAdjusted, Curve, Included, Universe, CountUpTo, Sessions;
    NoSessions(bars);
    RunCovers(s, bars, start, st);
  }

  /** A curve covers exactly the sessions from an index on, each at its value times a scale. */
  ghost predicate Covers(curve: map<int, real>, sessions: seq<int>, start: nat, values: seq<real>, scale: real)
    requires start < |sessions| && |values| == |sessions| + 1
  {
    && curve.Keys == Elements(sessions[start..])
    && forall i :: start <= i < |sessions| ==> sessions[i] in curve && curve[sessions[i]] == Times(values[i + 1], scale)
  }

  ghost predicate SplitsAt(sessions: seq<int>, windowStart: int, start: nat) {
    forall i :: 0 <= i < |sessions| ==> (sessions[i] < windowStart <==> i < start)
  }

  lemma StartSplits(s: Setup, sessions: seq<int>)
    requires Ascending(sessions)
    ensures SplitsAt(sessions, s.windowStart, StartIndex(s, sessions))
  {
  }

  lemma CurveCovers(eod: map<int, real>, sessions: seq<int>, windowStart: int, start: nat, values: seq<real>,
                    scale: real)
    requires Ascending(sessions) && eod.Keys == Elements(sessions) && start < |sessions| && |values| == |sessions| + 1
    requires SplitsAt(sessions, windowStart, start)
    requires forall i :: 0 <= i < |sessions| ==> sessions[i] in eod && eod[sessions[i]] == values[i + 1]
    ensures Covers(Curve(eod, windowStart, scale), sessions, start, values, scale)
    ensures sessions[start] in Curve(eod, windowStart, scale)
    ensures Curve(eod, windowStart, scale)[sessions[start]] == Times(values[start + 1], scale)
  {
    hide Times, Ascending;
    var curve, tail := Curve(eod, windowStart, scale), sessions[start..];
    assert forall d :: d in eod.Keys ==> d in sessions;
    forall d | d in curve
      ensures d in tail
    {
      var i :| 0 <= i < |sessions| && sessions[i] == d;
      assert tail[i - start] == d;
    }
    assert forall k :: 0 <= k < |tail| ==> tail[k] == sessions[start + k] && tail[k] in curve;
  }

  /**
   The curve of a replay no flow entered: it covers the sessions of the window,
   each at the run's value times one scale, and opens on the seed. Without a
   warm-up the scale is one.
   */
  lemma CurveOpensOnSeed(s: Setup, bars: Bars, start: nat, st: State)
    requires Universe(s.rules, bars) && start < |Sessions(bars)|
    requires Holds(s, start) && start == StartIndex(s, Sessions(bars))
    requires WindowRun(s, bars, start, |Sessions(bars)|) == Success(st) && st.applied == []
    requires |st.values| > start + 1 && st.values[start + 1] > 0.0
    ensures Replayed(s, bars).Success? && |st.values| == |Sessions(bars)| + 1
    ensures
      var w := Replayed(s, bars).value;
      && w.warmFrom == Some(Sessions(bars)[start - s.warmup])
      && Covers(w.curve, Sessions(bars), start, st.values, s.seed / st.values[start + 1])
      && Sessions(bars)[start] in w.curve && w.curve[Sessions(bars)[start]] == s.seed
      && (s.warmup == 0 ==> Covers(w.curve, Sessions(bars), start, st.values, 1.0))
  {
    hide *;
    var sessions, nav := Sessions(bars), st.values[start + 1];
    StartSplits(s, sessions);
    ReplayedIs(s, bars, start, st);
    RunCovers(s, bars, start, st);
    CurveCovers(EndOfDay(st.dates, st.values), sessions, s.windowStart, start, st.values, s.seed / nav);
    Normalised(s.seed, nav);
    if s.warmup == 0 {
      ZeroWarmup(s, bars, start, st);
      assert s.seed / nav == 1.0;
    }
  }

  lemma NoSessions(bars: Bars)
    ensures bars == map[] ==> |Sessions(bars)| == 0
  {
    if bars == map[] {
      assert SessionSet(bars) == {};
      assert |SessionSet(bars)| == 0;
    }
  }

  /** With no warm-up the window's first close is the seed. */
  lemma ZeroWarmup(s: Setup, bars: Bars, start: nat, st: State)
    requires Universe(s.rules, bars) && start < |Sessions(bars)| && Holds(s, start) && s.warmup == 0
    requires WindowRun(s, bars, start, |Sessions(bars)|) == Success(st)
    ensures |st.values| > start + 1 && st.values[start + 1] == s.seed
  {
    hide RunTo, Universe;
    var warmFrom := Sessions(bars)[start];
    var rules, strategy, plan := WindowRules(s, warmFrom), WarmGate(s.signals, warmFrom), WindowPlan(s, warmFrom);
    WindowUniverse(s, bars, warmFrom);
    EarlierState(rules, strategy, plan, bars, start + 1, |Sessions(bars)|, st);
    var early := WindowRun(s, bars, start, start + 1).value;
    SeedThroughWarmup(s, bars, start, start + 1, early);
  }

  /** A completed run passed through every earlier state, and kept its values. */
  lemma {:induction false} EarlierState(rules: Rules, strategy: Strategy, plan: Plan, bars: Bars, k: nat, n: nat,
                                        st: State)
    requires Universe(rules, bars) && k <= n <= |Sessions(bars)| && RunTo(rules, strategy, plan, bars, n) == Success(st)
    ensures RunTo(rules, strategy, plan, bars, k).Success?
    ensures RunTo(rules, strategy, plan, bars, k).value.values <= st.values
  {
    hide StepDay, Balanced, Day, Sound, Universe, MarksCurrent, WorthOf;
    if k < n {
      var prev, d := RunTo(rules, strategy, plan, bars, n - 1).value, Sessions(bars)[n - 1];
      EarlierState(rules, strategy, plan, bars, k, n - 1, prev);
      RunBalanced(rules, strategy, plan, bars, n - 1, prev);
      BalancedIsSound(rules, prev);
      UniverseDay(rules, bars, d);
      StepValue(rules, strategy, plan.basis, d, Day(bars, d), prev, st);
    }
  }

  // ---- How invested the window opened ----

  /** The reported opening exposure is (NAV - cash) / NAV as the replay held it at the anchor's close. */
  lemma OpeningExposure(s: Setup, bars: Bars, start: nat, held: State, st: State)
    requires Universe(s.rules, bars) && start < |Sessions(bars)|
    requires Holds(s, start) && start == StartIndex(s, Sessions(bars))
    requires forall t :: t in bars ==> ByDate(bars[t])
    requires WindowRun(s, bars, start, start + 1) == Success(held)
    requires WindowRun(s, bars, start, |Sessions(bars)|) == Success(st)
    ensures |held.values| == start + 2
    ensures
      var nav := held.values[start + 1];
      nav > 0.0 ==> Replayed(s, bars).Success? && Replayed(s, bars).value.invested == Some((nav - held.book.cash) / nav)
  {
    hide RunTo, EndOfDay, InvestedAt, FlowAdjusted, Times, Universe, CountUpTo, ByDate;
    var sessions := Sessions(bars);
    var warmFrom, anchor := sessions[start - s.warmup], sessions[start];
    var rules, strategy, plan := WindowRules(s, warmFrom), WarmGate(s.signals, warmFrom), WindowPlan(s, anchor);
    WindowUniverse(s, bars, warmFrom);
    InvestedIsExact(rules, strategy, plan, bars, start, |sessions|, held, st);
    EarlierState(rules, strategy, plan, bars, start + 1, |sessions|, st);
    if held.values[start + 1] > 0.0 {
      ReplayedIs(s, bars, start, st);
    }
    SameTickers(s.rules, rules, bars, anchor, st.book, held.values[start + 1]);
  }

  lemma SameTickers(p: Rules, q: Rules, bars: Bars, s: int, b: Book, nav: real)
    requires p.tickers == q.tickers
    ensures InvestedAt(p, bars, s, b, nav) == InvestedAt(q, bars, s, b, nav)
  {
  }

  // ---- The returns graded ----

  /** The curve's values over the window, in session order. */
  function CurveValues(curve: map<int, real>, days: seq<int>): (r: seq<real>)
    requires forall i :: 0 <= i < |days| ==> days[i] in curve
    ensures |r| == |days| && forall i :: 0 <= i < |r| ==> r[i] == curve[days[i]]
  {
    seq(|days|, i requires 0 <= i < |days| => curve[days[i]])
  }

  lemma CurveIsScaled(curve: map<int, real>, sessions: seq<int>, start: nat, values: seq<real>, scale: real)
    requires start < |sessions| && |values| == |sessions| + 1 && Covers(curve, sessions, start, values, scale)
    ensures forall i :: 0 <= i < |sessions[start..]| ==> sessions[start..][i] in curve
    ensures CurveValues(curve, sessions[start..]) == Scaled(values[start + 1..], scale)
  {
    var days := sessions[start..];
    assert forall i :: 0 <= i < |days| ==> days[i] == sessions[start + i] && days[i] in curve;
    forall i | 0 <= i < |days|
      ensures CurveValues(curve, days)[i] == Scaled(values[start + 1..], scale)[i]
    {
      assert values[start + 1..][i] == values[start + i + 1];
      assert Times(values[start + i + 1], scale) == Times(values[start + i + 1], scale);
    }
  }

  /** Normalising moves no graded return: the curve's returns over the window are the run's own. */
  lemma NormalisingKeepsReturns(s: Setup, bars: Bars, start: nat, st: State)
    requires Universe(s.rules, bars) && start < |Sessions(bars)|
    requires Holds(s, start) && start == StartIndex(s, Sessions(bars))
    requires WindowRun(s, bars, start, |Sessions(bars)|) == Success(st) && st.applied == []
    requires |st.values| > start + 1 && st.values[start + 1] > 0.0 && s.seed > 0.0
    ensures Replayed(s, bars).Success? && |st.values| == |Sessions(bars)| + 1
    ensures
      var days := Sessions(bars)[start..];
      && (forall i :: 0 <= i < |days| ==> days[i] in Replayed(s, bars).value.curve)
      && var graded, own := CurveValues(Replayed(s, bars).value.curve, days), st.values[start + 1..];
      && WindowReturn(graded) == WindowReturn(own)
      && |graded| == |own|
      && forall n :: 0 <= n < |own| ==> StepReturns(graded, n) == StepReturns(own, n)
  {
    hide *;
    CurveOpensOnSeed(s, bars, start, st);
    var scale := s.seed / st.values[start + 1];
    CurveIsScaled(Replayed(s, bars).value.curve, Sessions(bars), start, st.values, scale);
    ScalingKeepsReturns(st.values[start + 1..], scale);
  }

  // ---- Flow adjustment ----

  lemma TimesSwap(x: real, y: real)
    ensures Times(x, y) == Times(y, x)
  {
  }

  /** What a day's return is taken over: the value less a flow that is to be taken out of it. */
  function FlowFree(equity: real, flow: real): real {
    if Abs(flow) >= EPS && equity > 0.0 && equity - flow > 0.0 then equity - flow else equity
  }

  lemma FactorUndone(equity: real, flow: real, scale: real, before: real)
    ensures Times(Times(equity, scale), before)
            == Times(Times(before, Times(scale, Factor(equity, flow))), FlowFree(equity, flow))
  {
    var step, f := FlowFree(equity, flow), Factor(equity, flow);
    assert f * step == equity;
    assert (scale * f) * step == scale * (f * step);
    assert (before * (scale * f)) * step == before * ((scale * f) * step);
    assert (equity * scale) * before == before * (scale * equity);
  }

  /** An index of an ascending listing is where its day is found. */
  lemma AdjustedAt(values: map<int, real>, included: map<int, real>, i: nat)
    requires i < |SortedInts(values.Keys)| && !NoFlows(SortedInts(values.Keys), included)
    ensures Listed(SortedInts(values.Keys), values)
    ensures
      var days := SortedInts(values.Keys);
      days[i] in FlowAdjusted(values, included)
      && FlowAdjusted(values, included)[days[i]] == Times(values[days[i]], ScaleAt(days, values, included, i))
  {
    hide ScaleAt, Times, NoFlows, SortedInts, Ascending;
    var days := SortedInts(values.Keys);
    AscendingIndex(days, i);
    assert forall k :: 0 <= k < |days| ==> days[k] in days;
  }

  /**
   A flow-adjusted curve ends where the raw one does, and each of its steps has
   the flow-free return: the value less what flowed in, over the value before.
   */
  lemma AdjustedReturns(values: map<int, real>, included: map<int, real>, i: nat)
    requires 0 < i < |SortedInts(values.Keys)|
    requires
      var days := SortedInts(values.Keys);
      days[i] in values && days[i - 1] in values && days[|days| - 1] in values
    ensures
      var days, out := SortedInts(values.Keys), FlowAdjusted(values, included);
      var e, f, last := values[days[i]], FlowInto(days, included, i), days[|days| - 1];
      && days[i] in out && days[i - 1] in out
      && Times(out[days[i]], values[days[i - 1]]) == Times(out[days[i - 1]], FlowFree(e, f))
      && last in out && out[last] == values[last]
  {
    hide SortedInts, Times, Factor, FlowInto, Listed, Ascending;
    var days := SortedInts(values.Keys);
    if NoFlows(days, included) {
      assert Abs(FlowInto(days, included, i)) < EPS;
      TimesSwap(values[days[i]], values[days[i - 1]]);
    } else {
      hide NoFlows, FlowAdjusted, FlowFree;
      AdjustedAt(values, included, i);
      AdjustedAt(values, included, i - 1);
      AdjustedAt(values, included, |days| - 1);
      ScaleBefore(days, values, included, i);
      LastUnscaled(values[days[|days| - 1]]);
      FactorUndone(values[days[i]], FlowInto(days, included, i), ScaleAt(days, values, included, i),
                   values[days[i - 1]]);
    }
  }
}
