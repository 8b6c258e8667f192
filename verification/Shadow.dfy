/**
 The rolling shadow: a replay of a sleeve over a warm-up and a window, gated,
 seeded and normalised so that its curve can be compared with live's.
 */
module Shadow {
  import opened Basics
  import opened Market
  import opened Replay
  import opened ReplayAccounts
  import opened ShadowHoldings
  import opened BacktestRunner

  const SESSIONS_PER_FETCH_YEAR := 250
  const EPS := 0.000001

  /** Whole years of bars that hold the window, the warm-up and the indicator history. */
  function FetchYears(window: nat, warmup: nat, lookback: nat): nat {
    var years := (window + warmup + lookback + SESSIONS_PER_FETCH_YEAR - 1) / SESSIONS_PER_FETCH_YEAR;
    if years < 1 then 1 else years
  }

  /** It is the least number of years, at least one, that holds them. */
  lemma FetchYearsLeast(window: nat, warmup: nat, lookback: nat)
    ensures FetchYears(window, warmup, lookback) * SESSIONS_PER_FETCH_YEAR >= window + warmup + lookback
    ensures forall years :: 1 <= years && years * SESSIONS_PER_FETCH_YEAR >= window + warmup + lookback ==>
      FetchYears(window, warmup, lookback) <= years
  {
  }

  // ---- The replay's setup ----

  /** A window's settings; the rules' own seed and start date are replaced by the window's. */
  datatype Setup = Setup(
    rules: Rules, signals: Strategy, seed: real, windowStart: int, flows: map<int, real>, warmup: nat, lookback: nat)

  datatype ShadowFault = WarmupTruncated | ReplayFailed(fault: Fault) | BadOpening(nav: real)

  datatype WindowReplay = WindowReplay(curve: map<int, real>, warmFrom: Option<int>, invested: Option<real>)

  /** A signal function that is never called for a bar dated before the warm-up. */
  function WarmGate(signals: Strategy, warmFrom: int): Strategy {
    (t: Ticker, shown: seq<Bar>, ctx: Context) =>
      if shown == [] || shown[|shown| - 1].date < warmFrom then None else signals(t, shown, ctx)
  }

  /** Only flows after the anchor are replayed. */
  function Inside(flows: map<int, real>, anchor: int): map<int, real> {
    map d | d in flows && d > anchor && flows[d] != 0.0 :: flows[d]
  }

  function WindowPlan(s: Setup, anchor: int): Plan {
    var inside := Inside(s.flows, anchor);
    if inside != map[] then Plan(inside, Some(DatedSum(anchor, s.seed))) else Plan(map[], None)
  }

  function WindowRules(s: Setup, warmFrom: int): Rules {
    s.rules.(initial := s.seed, start := Some(warmFrom))
  }

  /** bisect_left: how many sessions come before the window. */
  function StartIndex(s: Setup, sessions: seq<int>): (n: nat)
    requires Ascending(sessions)
    ensures n <= |sessions|
  {
    CountUpTo(sessions, s.windowStart - 1)
  }

  /** The bars hold the warm-up and the indicator history before the window. */
  predicate Holds(s: Setup, start: nat) {
    start - s.warmup >= s.lookback
  }

  function WindowRun(s: Setup, bars: Bars, start: nat, n: nat): Result<State, Fault>
    requires start < |Sessions(bars)| && Holds(s, start) && n <= |Sessions(bars)|
  {
    var warmFrom := Sessions(bars)[start - s.warmup];
    RunTo(WindowRules(s, warmFrom), WarmGate(s.signals, warmFrom), WindowPlan(s, Sessions(bars)[start]), bars, n)
  }

  // ---- Grading the run ----

  /** dict(zip(dates, values[1:])). */
  function EndOfDay(dates: seq<int>, values: seq<real>): map<int, real>
    requires |values| == |dates| + 1
  {
    if dates == [] then map[]
    else
      var n := |dates| - 1;
      EndOfDay(dates[..n], values[..n + 1])[dates[n] := values[n + 1]]
  }

  function Curve(eod: map<int, real>, windowStart: int, scale: real): map<int, real> {
    map d | d in eod && d >= windowStart :: Times(eod[d], scale)
  }

  /** The applied flows up to a session. */
  function AppliedBy(applied: seq<DatedSum>, d: int): real {
    if applied == [] || applied[0].day > d then 0.0 else applied[0].amount + AppliedBy(applied[1..], d)
  }

  function Included(curve: map<int, real>, applied: seq<DatedSum>, scale: real): map<int, real> {
    map d | d in curve :: Times(AppliedBy(applied, d), scale)
  }

  /** What the replay hands back for a completed run. */
  function Graded(s: Setup, bars: Bars, anchor: int, warmFrom: int, st: State): Result<WindowReplay, ShadowFault>
    requires |st.values| == |st.dates| + 1 && anchor in EndOfDay(st.dates, st.values)
  {
    var eod := EndOfDay(st.dates, st.values);
    var nav := eod[anchor];
    if nav <= 0.0 then Failure(BadOpening(nav))
    else
      var curve := Curve(eod, s.windowStart, s.seed / nav);
      var invested := InvestedAt(s.rules, bars, anchor, st.book, nav);
      if st.applied == [] then Success(WindowReplay(curve, Some(warmFrom), Some(invested)))
      else
        Success(WindowReplay(FlowAdjusted(curve, Included(curve, st.applied, s.seed / nav)), Some(warmFrom),
                             Some(invested)))
  }

  // ---- Removing flows from a curve ----

  /** What flowed in between a day and the one before it. */
  function FlowInto(days: seq<int>, included: map<int, real>, i: nat): real
    requires 0 < i < |days|
  {
    (if days[i] in included then included[days[i]] else 0.0)
        - (if days[i - 1] in included then included[days[i - 1]] else 0.0)
  }

  function Factor(equity: real, flow: real): real {
    if Abs(flow) >= EPS && equity > 0.0 && equity - flow > 0.0 then equity / (equity - flow) else 1.0
  }

  predicate Listed(days: seq<int>, values: map<int, real>) {
    forall k :: 0 <= k < |days| ==> days[k] in values
  }

  /** The product of the factors of every later day. */
  function ScaleAt(days: seq<int>, values: map<int, real>, included: map<int, real>, i: nat): real
    requires i < |days| && Listed(days, values)
    decreases |days| - i
  {
    if i == |days| - 1 then 1.0
    else Times(ScaleAt(days, values, included, i + 1), Factor(values[days[i + 1]], FlowInto(days, included, i + 1)))
  }

  predicate NoFlows(days: seq<int>, included: map<int, real>) {
    forall i :: 0 < i < |days| ==> Abs(FlowInto(days, included, i)) < EPS
  }

  /** flow_adjust: the curve with its flows taken out, anchored at its last day. */
  function FlowAdjusted(values: map<int, real>, included: map<int, real>): map<int, real> {
    var days := SortedInts(values.Keys);
    if NoFlows(days, included) then values
    else map d | d in values :: AdjustedOn(days, values, included, d)
  }

  function AdjustedOn(days: seq<int>, values: map<int, real>, included: map<int, real>, d: int): real
    requires d in values && Listed(days, values)
  {
    var at := IndexOf(days, d);
    if at.Some? then Times(values[d], ScaleAt(days, values, included, at.value)) else values[d]
  }

  /** The shadow of one sleeve over one window. */
  function Replayed(s: Setup, bars: Bars): Result<WindowReplay, ShadowFault>
    requires Universe(s.rules, bars)
  {
    var sessions := Sessions(bars);
    var start := StartIndex(s, sessions);
    if bars == map[] || start == |sessions| then Success(WindowReplay(map[], None, None))
    else if !Holds(s, start) then Failure(WarmupTruncated)
    else
      match WindowRun(s, bars, start, |sessions|)
      case Failure(fault) => Failure(ReplayFailed(fault))
      case Success(st) =>
        RunCovers(s, bars, start, st);
        Graded(s, bars, sessions[start], sessions[start - s.warmup], st)
  }

  lemma WindowUniverse(s: Setup, bars: Bars, warmFrom: int)
    requires Universe(s.rules, bars)
    ensures Universe(WindowRules(s, warmFrom), bars)
  {
  }

  lemma {:induction false} EndOfDayValues(dates: seq<int>, values: seq<real>)
    requires |values| == |dates| + 1 && Ascending(dates)
    ensures EndOfDay(dates, values).Keys == Elements(dates)
    ensures forall i :: 0 <= i < |dates| ==>
      dates[i] in EndOfDay(dates, values) && EndOfDay(dates, values)[dates[i]] == values[i + 1]
  {
    if dates != [] {
      var n := |dates| - 1;
      NewestDate(dates);
      EndOfDayValues(dates[..n], values[..n + 1]);
      hide Ascending;
      var before, eod := EndOfDay(dates[..n], values[..n + 1]), EndOfDay(dates, values);
      assert eod == before[dates[n] := values[n + 1]];
      hide EndOfDay;
      forall i | 0 <= i < n
        ensures dates[i] in eod && eod[dates[i]] == values[i + 1]
      {
        assert dates[..n][i] == dates[i] && values[..n + 1][i + 1] == values[i + 1];
      }
    }
  }

  lemma NewestDate(dates: seq<int>)
    requires Ascending(dates) && dates != []
    ensures
      var n := |dates| - 1;
      && Ascending(dates[..n]) && Elements(dates) == Elements(dates[..n]) + {dates[n]}
      && forall i :: 0 <= i < n ==> dates[i] != dates[n]
  {
    var n := |dates| - 1;
    assert dates == dates[..n] + [dates[n]];
  }

  /** Every session of a completed run has its end-of-day value. */
  lemma RunCovers(s: Setup, bars: Bars, start: nat, st: State)
    requires Universe(s.rules, bars) && start < |Sessions(bars)| && Holds(s, start)
    requires WindowRun(s, bars, start, |Sessions(bars)|) == Success(st)
    ensures |st.values| == |st.dates| + 1 && st.dates == Sessions(bars)
    ensures EndOfDay(st.dates, st.values).Keys == Elements(Sessions(bars))
    ensures forall i :: 0 <= i < |st.dates| ==>
      st.dates[i] in EndOfDay(st.dates, st.values) && EndOfDay(st.dates, st.values)[st.dates[i]] == st.values[i + 1]
    ensures Sessions(bars)[start] in EndOfDay(st.dates, st.values)
  {
    hide RunTo, EndOfDay;
    var warmFrom := Sessions(bars)[start - s.warmup];
    WindowUniverse(s, bars, warmFrom);
    RunDated(WindowRules(s, warmFrom), WarmGate(s.signals, warmFrom), WindowPlan(s, Sessions(bars)[start]), bars,
             |Sessions(bars)|, st);
    assert Sessions(bars)[..|Sessions(bars)|] == Sessions(bars);
    EndOfDayValues(st.dates, st.values);
  }

  // ---- The replay as it runs ----

  /** Takes from the front of the applied flows everything up to a session, onto a running total. */
  method TakeUpTo(flowed: seq<DatedSum>, session: int, running: real) returns (total: real, rest: seq<DatedSum>)
    ensures forall d :: d >= session ==> running + AppliedBy(flowed, d) == total + AppliedBy(rest, d)
    ensures AppliedBy(rest, session) == 0.0
  {
    total, rest := running, flowed;
    while rest != [] && rest[0].day <= session
      invariant forall d :: d >= session ==> running + AppliedBy(flowed, d) == total + AppliedBy(rest, d)
      decreases |rest|
    {
      total, rest := total + rest[0].amount, rest[1..];
    }
  }

  /** The running total of applied flows, day by day. */
  method IncludeFlows(curve: map<int, real>, flowed: seq<DatedSum>, scale: real) returns (included: map<int, real>)
    ensures included == Included(curve, flowed, scale)
  {
    hide Times, AppliedBy, SortedInts;
    var running, applied := 0.0, flowed;
    included := map[];
    var days := SortedInts(curve.Keys);
    for i := 0 to |days|
      invariant forall d :: d in included <==> d in days[..i]
      invariant forall d :: d in included ==> included[d] == Times(AppliedBy(flowed, d), scale)
      invariant forall d :: (i == 0 || d >= days[i - 1]) ==> AppliedBy(flowed, d) == running + AppliedBy(applied, d)
    {
      var session := days[i];
      running, applied := TakeUpTo(applied, session, running);
      assert AppliedBy(flowed, session) == running;
      included := included[session := Times(running, scale)];
      assert days[..i + 1] == days[..i] + [session];
    }
    assert days[..|days|] == days;
    ghost var expected := Included(curve, flowed, scale);
    assert forall d :: d in included <==> d in expected;
    assert forall d :: d in included ==> included[d] == expected[d];
  }

  /** The walk back from the last day, scaling each day by the factors of those after it. */
  method UnwindFlows(days: seq<int>, values: map<int, real>, included: map<int, real>) returns (out: map<int, real>)
    requires days != [] && Listed(days, values) && Ascending(days)
    ensures AdjustedFrom(days, values, included, 0, out)
  {
    hide *;
    var scale, index := 1.0, |days| - 1;
    LastAdjusted(days, values, included);
    out := map[days[index] := DayValue(days, values, index)];
    while index > 0
      invariant 0 <= index < |days| && scale == ScaleAt(days, values, included, index)
      invariant AdjustedFrom(days, values, included, index, out)
    {
      var flow, equity := FlowInto(days, included, index), DayValue(days, values, index);
      ScaleBefore(days, values, included, index);
      FactorTaken(equity, flow, scale);
      if Abs(flow) >= EPS && equity > 0.0 && equity - flow > 0.0 {
        scale := scale * (equity / (equity - flow));
      }
      index := index - 1;
      AdjustedNext(days, values, included, index, out);
      out := out[days[index] := Times(DayValue(days, values, index), scale)];
    }
  }

  /** flow_adjust, walking back from the last day. */
  method RemoveFlows(values: map<int, real>, included: map<int, real>) returns (out: map<int, real>)
    ensures out == FlowAdjusted(values, included)
  {
    var days := SortedInts(values.Keys);
    if NoFlows(days, included) {
      return values;
    }
    hide SortedInts, FlowInto, ScaleAt, AdjustedFrom, FlowAdjusted;
    out := UnwindFlows(days, values, included);
    AdjustedAll(values, included, out);
  }

  function DayValue(days: seq<int>, values: map<int, real>, i: nat): (v: real)
    requires i < |days| && Listed(days, values)
    ensures days[i] in values && v == values[days[i]]
  {
    values[days[i]]
  }

  lemma LastAdjusted(days: seq<int>, values: map<int, real>, included: map<int, real>)
    requires days != [] && Listed(days, values) && Ascending(days)
    ensures ScaleAt(days, values, included, |days| - 1) == 1.0
    ensures AdjustedFrom(days, values, included, |days| - 1,
                         map[days[|days| - 1] := DayValue(days, values, |days| - 1)])
  {
    LastUnscaled(values[days[|days| - 1]]);
    hide Times, Ascending;
  }

  /** The days from an index on are adjusted. */
  ghost predicate AdjustedFrom(days: seq<int>, values: map<int, real>, included: map<int, real>, i: nat,
                               out: map<int, real>)
    requires i < |days| && Listed(days, values)
  {
    && (forall k :: i <= k < |days| ==>
          days[k] in out && out[days[k]] == Times(values[days[k]], ScaleAt(days, values, included, k)))
    && (forall d :: d in out ==> d in days)
  }

  lemma AdjustedNext(days: seq<int>, values: map<int, real>, included: map<int, real>, i: nat, out: map<int, real>)
    requires i + 1 < |days| && Listed(days, values) && Ascending(days)
    requires AdjustedFrom(days, values, included, i + 1, out)
    ensures AdjustedFrom(days, values, included, i,
                         out[days[i] := Times(DayValue(days, values, i), ScaleAt(days, values, included, i))])
  {
    hide ScaleAt, Times, Listed;
  }

  lemma AdjustedAll(values: map<int, real>, included: map<int, real>, out: map<int, real>)
    requires
      var days := SortedInts(values.Keys);
      days != [] && Listed(days, values) && AdjustedFrom(days, values, included, 0, out) && !NoFlows(days, included)
    ensures out == FlowAdjusted(values, included)
  {
    var days := SortedInts(values.Keys);
    hide ScaleAt, Times, NoFlows, FlowInto, Ascending, IndexOf, Listed, SortedInts;
    assert forall d :: d in out ==> d in values.Keys;
    forall d | d in values
      ensures d in out && out[d] == AdjustedOn(days, values, included, d)
    {
      assert d in days;
      var k :| 0 <= k < |days| && days[k] == d;
      AscendingIndex(days, k);
    }
  }

  lemma LastUnscaled(x: real)
    ensures Times(x, 1.0) == x
  {
  }

  lemma ScaleBefore(days: seq<int>, values: map<int, real>, included: map<int, real>, i: nat)
    requires 0 < i < |days| && Listed(days, values)
    ensures ScaleAt(days, values, included, i - 1)
            == Times(ScaleAt(days, values, included, i), Factor(values[days[i]], FlowInto(days, included, i)))
  {
  }

  lemma FactorTaken(equity: real, flow: real, scale: real)
    ensures Times(scale, Factor(equity, flow))
            == if Abs(flow) >= EPS && equity > 0.0 && equity - flow > 0.0 then scale * (equity / (equity - flow))
                else scale
  {
  }

  /** The shadow as it runs. */
  method ReplayWindowDetail(s: Setup, bars: Bars) returns (r: Result<WindowReplay, ShadowFault>)
    requires Universe(s.rules, bars)
    ensures r == Replayed(s, bars)
  {
    hide RunTo, EndOfDay, Graded, Universe, CountUpTo, WindowPlan, WarmGate, Sessions;
    if bars == map[] {
      return Success(WindowReplay(map[], None, None));
    }
    var sessions := Sessions(bars);
    var start := CountUpTo(sessions, s.windowStart - 1);
    if start == |sessions| {
      return Success(WindowReplay(map[], None, None));
    }
    var anchor, warmIndex := sessions[start], start - s.warmup;
    if warmIndex < s.lookback {
      return Failure(WarmupTruncated);
    }
    var warmFrom := sessions[warmIndex];
    hide WindowRun;
    var ran, runner := RunWindow(s, bars, start, anchor, warmFrom);
    if ran.Failure? {
      return Failure(ReplayFailed(ran.error));
    }
    RunCovers(s, bars, start, runner.Now());
    r := Grade(s, bars, anchor, warmFrom, runner);
  }

  /** The gated run of one window, on a book seeded at live's opening value. */
  method RunWindow(s: Setup, bars: Bars, start: nat, anchor: int, warmFrom: int)
    returns (ran: Result<(), Fault>, runner: ReplayRun)
    requires Universe(s.rules, bars) && start < |Sessions(bars)| && Holds(s, start)
    requires anchor == Sessions(bars)[start] && warmFrom == Sessions(bars)[start - s.warmup]
    ensures match WindowRun(s, bars, start, |Sessions(bars)|)
            case Success(st) => ran == Success(()) && runner.Now() == st
            case Failure(fault) => ran == Failure(fault)
  {
    hide RunTo, Universe, WindowPlan, WarmGate, Sessions, Start;
    WindowUniverse(s, bars, warmFrom);
    var plan := WindowPlan(s, anchor);
    runner := new ReplayRun(WindowRules(s, warmFrom), WarmGate(s.signals, warmFrom), plan);
    ran := runner.Run(bars, plan);
  }

  /** The grading of a completed run: its curve from the window on, normalised and flow-adjusted. */
  method Grade(s: Setup, bars: Bars, anchor: int, warmFrom: int, runner: ReplayRun)
    returns (r: Result<WindowReplay, ShadowFault>)
    requires |runner.values| == |runner.dates| + 1 && anchor in EndOfDay(runner.dates, runner.values)
    ensures r == Graded(s, bars, anchor, warmFrom, runner.Now())
  {
    hide EndOfDay, InvestedAt, FlowAdjusted, Included, Curve, TradeHeld, PositionHeld, SeqSum, OpenPositions;
    var eod := EndOfDay(runner.dates, runner.values);
    var nav := eod[anchor];
    if nav <= 0.0 {
      return Failure(BadOpening(nav));
    }
    var scale := s.seed / nav;
    var curve := Curve(eod, s.windowStart, scale);
    var open := runner.ListOpen(s.rules.tickers);
    var invested := Reconstruct(bars, anchor, runner.trades, open, nav);
    InvestedFromParts(s.rules, bars, anchor, runner.BookNow(), nav);
    assert open == OpenPositions(s.rules, runner.BookNow()) by {
      OpenListed(s.rules, runner.BookNow());
    }
    assert invested == InvestedAt(s.rules, bars, anchor, runner.BookNow(), nav);
    if runner.applied == [] {
      return Success(WindowReplay(curve, Some(warmFrom), Some(invested)));
    }
    var included := IncludeFlows(curve, runner.applied, scale);
    var adjusted := RemoveFlows(curve, included);
    return Success(WindowReplay(adjusted, Some(warmFrom), Some(invested)));
  }

  lemma OpenListed(rules: Rules, b: Book)
    ensures OpenPositions(rules, b) == OpenTo(rules.tickers, |rules.tickers|, b)
  {
  }
}
