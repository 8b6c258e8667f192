/**
 A shadow with flows, end to end: live's flows enter the normalised curve at the
 size they had live, and each day's return of the curve handed back is the run's
 own, taken without what flowed in that day.
 */
module ShadowFlows {
  import opened Basics
  import opened Market
  import opened Replay
  import opened ReplayBooks
  import opened ReplayFunding
  import opened ReplayFlows
  import opened ReplayTape
  import opened ShadowHoldings
  import opened Shadow
  import opened ShadowClaims

  /** What a run's record credits on a day. */
  function CreditedOn(applied: seq<DatedSum>, d: int): real {
    SeqSum(applied, (e: DatedSum) => if e.day == d then e.amount else 0.0)
  }

  function CreditedBy(applied: seq<DatedSum>, d: int): real {
    SeqSum(applied, (e: DatedSum) => if e.day <= d then e.amount else 0.0)
  }

  // ---- The running total of the record ----

  lemma SumFirst(applied: seq<DatedSum>, w: DatedSum -> real)
    requires applied != []
    ensures SeqSum(applied, w) == w(applied[0]) + SeqSum(applied[1..], w)
  {
    assert applied == [applied[0]] + applied[1..];
    SeqSumConcat([applied[0]], applied[1..], w);
    SeqSumPush([], applied[0], w);
    assert [] + [applied[0]] == [applied[0]];
  }

  lemma {:induction false} NothingBy(applied: seq<DatedSum>, d: int)
    requires forall i :: 0 <= i < |applied| ==> applied[i].day > d
    ensures CreditedBy(applied, d) == 0.0
  {
    if applied != [] {
      NothingBy(applied[..|applied| - 1], d);
    }
  }

  lemma {:induction false} AppliedIsCredited(applied: seq<DatedSum>, d: int)
    requires KeysAscend(applied)
    ensures AppliedBy(applied, d) == CreditedBy(applied, d)
  {
    if applied != [] {
      SumFirst(applied, (e: DatedSum) => if e.day <= d then e.amount else 0.0);
      if applied[0].day > d {
        NothingBy(applied, d);
      } else {
        AppliedIsCredited(applied[1..], d);
      }
    }
  }

  /** With nothing credited between two days, the later one's credit is what the total grows by. */
  lemma {:induction false} CreditIsGrowth(applied: seq<DatedSum>, before: int, d: int)
    requires before < d && forall i :: 0 <= i < |applied| ==> applied[i].day <= before || applied[i].day >= d
    ensures CreditedBy(applied, d) - CreditedBy(applied, before) == CreditedOn(applied, d)
  {
    if applied != [] {
      CreditIsGrowth(applied[..|applied| - 1], before, d);
    }
  }

  /** Flows are credited on sessions. */
  ghost predicate CreditsOnSessions(applied: seq<DatedSum>, sessions: seq<int>) {
    forall i :: 0 <= i < |applied| ==> OnSession(applied[i].day, sessions)
  }

  predicate OnSession(d: int, sessions: seq<int>) {
    exists k :: 0 <= k < |sessions| && sessions[k] == d
  }

  lemma RunCredits(rules: Rules, strategy: Strategy, plan: Plan, bars: Bars, st: State)
    requires Universe(rules, bars) && RunTo(rules, strategy, plan, bars, |Sessions(bars)|) == Success(st)
    ensures KeysAscend(st.applied) && CreditsOnSessions(st.applied, Sessions(bars))
  {
    hide RunTo, Sessions, FlowsSettled, TapeTrue, FlowsIn, Told;
    RunTold(rules, strategy, plan, bars, |Sessions(bars)|, st);
    RunSettles(rules, strategy, plan, bars, |Sessions(bars)|, st);
    PaidCredits(plan, Sessions(bars), st);
  }

  lemma PaidCredits(plan: Plan, sessions: seq<int>, st: State)
    requires FlowsSettled(plan, sessions, |sessions|, st) && Credits(st.applied, FlowsIn(st.book.tape))
    ensures KeysAscend(st.applied) && CreditsOnSessions(st.applied, sessions)
  {
    hide FlowsSettled, FlowsIn, PaidOn;
    var paid := FlowsIn(st.book.tape);
    forall i | 0 <= i < |st.applied|
      ensures OnSession(st.applied[i].day, sessions)
    {
      assert DayPaid(paid, st.applied[i].day);
      var j :| 0 <= j < |paid| && paid[j].Flowed? && paid[j].date == st.applied[i].day;
      PaidOnSession(plan, sessions, |sessions|, st, j);
    }
  }

  lemma PaidOnSession(plan: Plan, sessions: seq<int>, n: nat, st: State, j: nat)
    requires n <= |sessions| && FlowsSettled(plan, sessions, n, st) && j < |FlowsIn(st.book.tape)|
    ensures exists k :: 0 <= k < |sessions| && FlowsIn(st.book.tape)[j].Flowed?
                        && sessions[k] == FlowsIn(st.book.tape)[j].date
  {
    hide FlowsIn, ScaleLearned, PendingFlows, DueAfter;
    var items := PendingFlows(plan.flows);
    var due := DueAfter(items, sessions, n);
    assert PaidOnTime(items[..due][j], FlowsIn(st.book.tape)[j], sessions, st.scale);
  }

  // ---- One day of the curve ----

  /** Where a sequence from an index on is listed. */
  lemma WindowListed(curve: map<int, real>, sessions: seq<int>, start: nat)
    requires Ascending(sessions) && start < |sessions| && curve.Keys == Elements(sessions[start..])
    ensures SortedInts(curve.Keys) == sessions[start..]
  {
    hide SortedInts;
    SortedElements(curve.Keys);
    AscendingUnique(SortedInts(curve.Keys), sessions[start..]);
  }

  lemma IncludedAt(curve: map<int, real>, applied: seq<DatedSum>, scale: real, d: int)
    requires d in curve && KeysAscend(applied)
    ensures d in Included(curve, applied, scale)
    ensures Included(curve, applied, scale)[d] == CreditedBy(applied, d) * scale
  {
    AppliedIsCredited(applied, d);
  }

  lemma GrownBy(applied: seq<DatedSum>, sessions: seq<int>, i: nat)
    requires Ascending(sessions) && 0 < i < |sessions| && CreditsOnSessions(applied, sessions)
    ensures CreditedBy(applied, sessions[i]) - CreditedBy(applied, sessions[i - 1]) == CreditedOn(applied, sessions[i])
  {
    forall j | 0 <= j < |applied|
      ensures applied[j].day <= sessions[i - 1] || applied[j].day >= sessions[i]
    {
      var k :| 0 <= k < |sessions| && sessions[k] == applied[j].day;
    }
    CreditIsGrowth(applied, sessions[i - 1], sessions[i]);
  }

  /** What flows into the curve on a session is what the run credits on it, at the curve's scale. */
  lemma FlowIs(curve: map<int, real>, applied: seq<DatedSum>, scale: real, sessions: seq<int>, start: nat, i: nat)
    requires Ascending(sessions) && start < i < |sessions| && curve.Keys == Elements(sessions[start..])
    requires KeysAscend(applied) && CreditsOnSessions(applied, sessions)
    ensures FlowInto(sessions[start..], Included(curve, applied, scale), i - start)
            == Times(CreditedOn(applied, sessions[i]), scale)
  {
    hide KeysAscend, CreditsOnSessions, CreditedBy, CreditedOn, Included, Ascending;
    var days, d, before := sessions[start..], sessions[i], sessions[i - 1];
    assert days[i - start] == d && days[i - start - 1] == before;
    assert d in Elements(days) && before in Elements(days);
    IncludedAt(curve, applied, scale, d);
    IncludedAt(curve, applied, scale, before);
    GrownBy(applied, sessions, i);
    var x, y := CreditedBy(applied, d), CreditedBy(applied, before);
    assert x * scale - y * scale == (x - y) * scale;
  }

  /**
   The credit that is taken out of a day: all of it, unless on the curve it is
   under a millionth, or the day is worth nothing with it or without it.
   */
  function TakenOut(value: real, credit: real, scale: real): real {
    if Abs(credit * scale) >= 0.000001 && value * scale > 0.0 && (value - credit) * scale > 0.0 then credit else 0.0
  }

  lemma FreeIs(value: real, credit: real, scale: real)
    ensures FlowFree(Times(value, scale), Times(credit, scale)) == Times(value - TakenOut(value, credit, scale), scale)
  {
    var e, f := value * scale, credit * scale;
    assert (value - credit) * scale == e - f;
    if Abs(f) >= 0.000001 && e > 0.0 && e - f > 0.0 {
      assert TakenOut(value, credit, scale) == credit;
    } else {
      assert TakenOut(value, credit, scale) == 0.0 && value - 0.0 == value;
    }
  }

  lemma Unscaled(x: real, before: real, y: real, value: real, scale: real)
    requires scale != 0.0 && Times(x, Times(before, scale)) == Times(y, Times(value, scale))
    ensures Times(x, before) == Times(y, value)
  {
    assert (x * before - y * value) * scale == x * (before * scale) - y * (value * scale);
  }

  // ---- The curve handed back ----

  /** A completed replay hands back its curve, normalised at the anchor and its flows taken out. */
  lemma HandedBack(s: Setup, bars: Bars, start: nat, st: State)
    requires Universe(s.rules, bars) && start < |Sessions(bars)|
    requires Holds(s, start) && start == StartIndex(s, Sessions(bars))
    requires WindowRun(s, bars, start, |Sessions(bars)|) == Success(st)
    requires |st.values| == |Sessions(bars)| + 1 && st.values[start + 1] > 0.0
    ensures |st.dates| + 1 == |st.values| && Replayed(s, bars).Success?
    ensures
      var curve := Curve(EndOfDay(st.dates, st.values), s.windowStart, s.seed / st.values[start + 1]);
      Replayed(s, bars).value.curve
      == if st.applied == [] then curve
         else FlowAdjusted(curve, Included(curve, st.applied, s.seed / st.values[start + 1]))
  {
    hide RunTo, EndOfDay, InvestedAt, FlowAdjusted, Curve, Included, Universe, CountUpTo, Sessions;
    NoSessions(bars);
    RunCovers(s, bars, start, st);
  }

  lemma CoveredAt(curve: map<int, real>, sessions: seq<int>, start: nat, values: seq<real>, scale: real, i: nat)
    requires start <= i < |sessions| && |values| == |sessions| + 1 && Covers(curve, sessions, start, values, scale)
    ensures sessions[i] in curve && curve[sessions[i]] == Times(values[i + 1], scale)
    ensures sessions[start..][i - start] == sessions[i]
  {
  }

  lemma CoveredKeys(curve: map<int, real>, sessions: seq<int>, start: nat, values: seq<real>, scale: real)
    requires start < |sessions| && |values| == |sessions| + 1 && Covers(curve, sessions, start, values, scale)
    ensures curve.Keys == Elements(sessions[start..])
  {
  }

  /** A step of a curve from which some credits were taken out at a scale. */
  lemma StepTaken(curve: map<int, real>, applied: seq<DatedSum>, scale: real, sessions: seq<int>, values: seq<real>,
                  start: nat, i: nat)
    requires Ascending(sessions) && start < i < |sessions| && |values| == |sessions| + 1
    requires Covers(curve, sessions, start, values, scale)
    requires KeysAscend(applied) && CreditsOnSessions(applied, sessions)
    ensures
      var out := FlowAdjusted(curve, Included(curve, applied, scale));
      var v, u, a := values[i + 1], values[i], CreditedOn(applied, sessions[i]);
      && sessions[i] in out && sessions[i - 1] in out && sessions[|sessions| - 1] in out
      && Times(out[sessions[i]], Times(u, scale))
         == Times(out[sessions[i - 1]], Times(v - TakenOut(v, a, scale), scale))
      && out[sessions[|sessions| - 1]] == Times(values[|sessions|], scale)
  {
    hide FlowAdjusted, Included, FlowInto, SortedInts, Times, TakenOut, CreditedOn, KeysAscend, CreditsOnSessions,
         FlowFree, Ascending, Covers, Elements;
    var included := Included(curve, applied, scale);
    CoveredKeys(curve, sessions, start, values, scale);
    WindowListed(curve, sessions, start);
    FlowIs(curve, applied, scale, sessions, start, i);
    CoveredAt(curve, sessions, start, values, scale, i);
    CoveredAt(curve, sessions, start, values, scale, i - 1);
    CoveredAt(curve, sessions, start, values, scale, |sessions| - 1);
    AdjustedReturns(curve, included, i - start);
    FreeIs(values[i + 1], CreditedOn(applied, sessions[i]), scale);
  }

  lemma NothingCredited(d: int)
    ensures CreditedOn([], d) == 0.0
  {
  }

  /** What a step of a handed-back curve is: the run's own, without what is taken out of the day. */
  ghost predicate StepIs(curve: map<int, real>, st: State, scale: real, sessions: seq<int>, i: nat)
    requires 0 < i < |sessions| && |st.values| == |sessions| + 1
  {
    var v, u, a := st.values[i + 1], st.values[i], CreditedOn(st.applied, sessions[i]);
    && sessions[i] in curve && sessions[i - 1] in curve && sessions[|sessions| - 1] in curve
    && curve[sessions[i]] * u == curve[sessions[i - 1]] * (v - TakenOut(v, a, scale))
    && curve[sessions[|sessions| - 1]] == st.values[|sessions|] * scale
  }

  lemma ZeroScaled(curve: map<int, real>, sessions: seq<int>, start: nat, values: seq<real>, applied: seq<DatedSum>,
                   d: int)
    requires Ascending(sessions) && start < |sessions| && |values| == |sessions| + 1 && d in curve
    requires Covers(curve, sessions, start, values, 0.0)
    ensures d in FlowAdjusted(curve, Included(curve, applied, 0.0))
    ensures FlowAdjusted(curve, Included(curve, applied, 0.0))[d] == 0.0 == curve[d]
  {
    hide SortedInts, NoFlows, ScaleAt, Included;
    assert d in Elements(sessions[start..]);
    var k :| 0 <= k < |sessions[start..]| && sessions[start..][k] == d;
    CoveredAt(curve, sessions, start, values, 0.0, start + k);
    assert Times(values[start + k + 1], 0.0) == 0.0;
  }

  /**
   The curve a completed replay hands back, flows or none: on each session of the
   window after the first its ratio to the session before is that of the run's
   values, the day's credits taken out, and it ends at the run's last value, all
   at the scale that puts the anchor's close on the seed.
   */
  lemma ShadowSteps(s: Setup, bars: Bars, start: nat, st: State, i: nat)
    requires Universe(s.rules, bars) && start < i < |Sessions(bars)|
    requires Holds(s, start) && start == StartIndex(s, Sessions(bars))
    requires WindowRun(s, bars, start, |Sessions(bars)|) == Success(st)
    requires |st.values| == |Sessions(bars)| + 1 && st.values[start + 1] > 0.0
    ensures Replayed(s, bars).Success?
    ensures StepIs(Replayed(s, bars).value.curve, st, s.seed / st.values[start + 1], Sessions(bars), i)
  {
    hide RunTo, EndOfDay, FlowAdjusted, Included, Sessions, Universe, Curve, SplitsAt, Ascending, Covers, TakenOut,
         CreditedOn, KeysAscend, CreditsOnSessions, CountUpTo;
    var sessions, scale := Sessions(bars), s.seed / st.values[start + 1];
    HandedBack(s, bars, start, st);
    RunCovers(s, bars, start, st);
    var curve := Curve(EndOfDay(st.dates, st.values), s.windowStart, scale);
    StartSplits(s, sessions);
    CurveCovers(EndOfDay(st.dates, st.values), sessions, s.windowStart, start, st.values, scale);
    WindowUniverse(s, bars, sessions[start - s.warmup]);
    RunCredits(WindowRules(s, sessions[start - s.warmup]), WarmGate(s.signals, sessions[start - s.warmup]),
               WindowPlan(s, sessions[start]), bars, st);
    StepReached(curve, st, scale, sessions, start, i);
  }

  lemma StepReached(curve: map<int, real>, st: State, scale: real, sessions: seq<int>, start: nat, i: nat)
    requires Ascending(sessions) && start < i < |sessions| && |st.values| == |sessions| + 1
    requires Covers(curve, sessions, start, st.values, scale)
    requires KeysAscend(st.applied) && CreditsOnSessions(st.applied, sessions)
    ensures StepIs(if st.applied == [] then curve else FlowAdjusted(curve, Included(curve, st.applied, scale)), st,
                   scale, sessions, i)
  {
    hide FlowAdjusted, Included, TakenOut, CreditedOn, KeysAscend, CreditsOnSessions, Ascending, Covers;
    var v, u, a := st.values[i + 1], st.values[i], CreditedOn(st.applied, sessions[i]);
    var out := FlowAdjusted(curve, Included(curve, st.applied, scale));
    CoveredAt(curve, sessions, start, st.values, scale, i);
    CoveredAt(curve, sessions, start, st.values, scale, i - 1);
    CoveredAt(curve, sessions, start, st.values, scale, |sessions| - 1);
    StepTaken(curve, st.applied, scale, sessions, st.values, start, i);
    if scale == 0.0 {
      ZeroScaled(curve, sessions, start, st.values, st.applied, sessions[i]);
      ZeroScaled(curve, sessions, start, st.values, st.applied, sessions[i - 1]);
    } else {
      Unscaled(out[sessions[i]], u, out[sessions[i - 1]], v - TakenOut(v, a, scale), scale);
    }
    if st.applied == [] {
      NothingCredited(sessions[i]);
      NothingTaken(v, scale);
      assert curve[sessions[i]] * u == curve[sessions[i - 1]] * v by {
        assert (v * scale) * u == (u * scale) * v;
      }
    }
  }

  lemma NothingTaken(value: real, scale: real)
    ensures TakenOut(value, 0.0, scale) == 0.0
  {
  }

  // ---- Live's flows on the curve ----

  /**
   A live flow of the window enters the curve as live had it: on the first
   session on or after its own, and at its own size once at the curve's scale,
   unless it is a withdrawal, of which no more is taken than that.
   */
  ghost predicate EntersAsLive(s: Setup, sessions: seq<int>, scale: real, e: Event) {
    && e.Flowed? && e.key in s.flows
    && FirstOnOrAfter(sessions, FirstIndex(sessions, e.key), e.key) && e.date == sessions[FirstIndex(sessions, e.key)]
    && (s.flows[e.key] * scale >= 0.0 ==> e.amount * scale == s.flows[e.key])
    && (s.flows[e.key] * scale < 0.0 ==> e.amount <= 0.0 && Abs(e.amount * scale) <= Abs(s.flows[e.key]))
  }

  /** How many sessions come before a day. */
  function FirstIndex(sessions: seq<int>, d: int): nat {
    if sessions == [] || sessions[0] >= d then 0 else 1 + FirstIndex(sessions[1..], d)
  }

  lemma {:induction false} FirstIndexIs(sessions: seq<int>, i: nat, d: int)
    requires FirstOnOrAfter(sessions, i, d)
    ensures FirstIndex(sessions, d) == i
  {
    if i > 0 {
      assert forall j :: 0 <= j < i - 1 ==> sessions[1..][j] == sessions[j + 1];
      FirstIndexIs(sessions[1..], i - 1, d);
    }
  }

  lemma Ascended(sessions: seq<int>, i: nat, j: nat)
    requires Ascending(sessions) && j < |sessions| && FirstOnOrAfter(sessions, i, sessions[j])
    ensures i == j
  {
  }

  lemma SizeKept(paid: real, live: real, seed: real, nav: real)
    requires seed != 0.0 && nav > 0.0
    ensures paid == live * (nav / seed) ==> paid * (seed / nav) == live
    ensures live * (nav / seed) >= 0.0 <==> live * (seed / nav) >= 0.0
    ensures live * (nav / seed) <= paid <= 0.0 ==> Abs(paid * (seed / nav)) <= Abs(live)
  {
    var up, down := nav / seed, seed / nav;
    assert up * seed == nav && down * nav == seed;
    assert up * down == 1.0 by {
      assert (up * down - 1.0) * nav == up * (down * nav) - nav;
    }
    assert (live * up) * down == live * (up * down);
    if live * up <= paid <= 0.0 {
      if down > 0.0 {
        TimesOrder(paid, live * up, down);
      } else {
        TimesOrder(paid, live * up, -down);
      }
    }
  }

  lemma InsideIs(s: Setup, anchor: int, k: int)
    ensures k in WindowPlan(s, anchor).flows <==> k in s.flows && k > anchor && s.flows[k] != 0.0
    ensures k in WindowPlan(s, anchor).flows ==> WindowPlan(s, anchor).flows[k] == s.flows[k]
    ensures WindowPlan(s, anchor).flows != map[] ==> WindowPlan(s, anchor).basis == Some(DatedSum(anchor, s.seed))
  {
    if WindowPlan(s, anchor).flows == map[] {
      assert Inside(s.flows, anchor) == map[];
      assert k !in Inside(s.flows, anchor);
    }
  }

  /** The scale the window's run learns is its value at the anchor over live's. */
  lemma WindowScale(s: Setup, sessions: seq<int>, start: nat, st: State)
    requires Ascending(sessions) && start < |sessions| && |st.values| == |sessions| + 1
    requires WindowPlan(s, sessions[start]).flows != map[] && st.scale.Some?
    requires ScaleLearned(WindowPlan(s, sessions[start]).basis, sessions, |sessions|, st)
    ensures s.seed != 0.0 && st.scale.value == st.values[start + 1] / s.seed
  {
    InsideIs(s, sessions[start], 0);
    var i: nat :| i < |sessions| && FirstOnOrAfter(sessions, i, sessions[start])
                  && st.scale.value == st.values[i + 1] / s.seed;
    Ascended(sessions, i, start);
  }

  /** A payment of the window's, its place among the flows and its session. */
  lemma OnePaid(s: Setup, sessions: seq<int>, start: nat, st: State, m: nat)
    requires start < |sessions| && m < |FlowsIn(st.book.tape)|
    requires FlowsSettled(WindowPlan(s, sessions[start]), sessions, |sessions|, st)
    ensures
      var e, plan := FlowsIn(st.book.tape)[m], WindowPlan(s, sessions[start]);
      var items := PendingFlows(plan.flows);
      && m < |items| && items[m].day in plan.flows && items[m].amount == plan.flows[items[m].day]
      && st.scale.Some? && ScaleLearned(plan.basis, sessions, |sessions|, st)
      && exists i: nat :: FirstOnOrAfter(sessions, i, items[m].day) && Pays(e, items[m], st.scale.value, sessions[i])
  {
    var plan := WindowPlan(s, sessions[start]);
    PendingAscend(plan.flows);
    hide FlowsIn, PendingFlows, DueAfter, WindowPlan, ScaleLearned, Pays, FirstOnOrAfter;
    var items := PendingFlows(plan.flows);
    var due := DueAfter(items, sessions, |sessions|);
    assert items[..due][m] == items[m];
    assert PaidOnTime(items[..due][m], FlowsIn(st.book.tape)[m], sessions, st.scale);
  }

  lemma SizedAsLive(paid: real, live: real, seed: real, nav: real)
    requires seed != 0.0 && nav > 0.0
    requires live * (nav / seed) >= 0.0 ==> paid == live * (nav / seed)
    requires live * (nav / seed) < 0.0 ==> live * (nav / seed) <= paid <= 0.0
    ensures live * (seed / nav) >= 0.0 ==> paid * (seed / nav) == live
    ensures live * (seed / nav) < 0.0 ==> paid <= 0.0 && Abs(paid * (seed / nav)) <= Abs(live)
  {
    SizeKept(paid, live, seed, nav);
  }

  /** A payment at its scale enters the curve as live had it. */
  lemma PaidAsLive(s: Setup, sessions: seq<int>, nav: real, e: Event, item: DatedSum, i: nat)
    requires s.seed != 0.0 && nav > 0.0 && item.day in s.flows && item.amount == s.flows[item.day]
    requires FirstOnOrAfter(sessions, i, item.day) && Pays(e, item, nav / s.seed, sessions[i])
    ensures EntersAsLive(s, sessions, s.seed / nav, e)
  {
    FirstIndexIs(sessions, i, item.day);
    SizedAsLive(e.amount, item.amount, s.seed, nav);
    hide FirstIndex, FirstOnOrAfter, Abs;
  }

  lemma OneEnters(s: Setup, sessions: seq<int>, start: nat, st: State, m: nat)
    requires Ascending(sessions) && start < |sessions| && |st.values| == |sessions| + 1 && st.values[start + 1] > 0.0
    requires FlowsSettled(WindowPlan(s, sessions[start]), sessions, |sessions|, st) && m < |FlowsIn(st.book.tape)|
    ensures
      var e, items := FlowsIn(st.book.tape)[m], PendingFlows(WindowPlan(s, sessions[start]).flows);
      && m < |items| && e.Flowed? && e.key == items[m].day && e.key > sessions[start]
      && EntersAsLive(s, sessions, s.seed / st.values[start + 1], e)
  {
    hide FlowsIn, PendingFlows, DueAfter, WindowPlan, FlowsSettled, ScaleLearned, EntersAsLive, Ascending;
    OnePaid(s, sessions, start, st, m);
    var plan := WindowPlan(s, sessions[start]);
    var e, item := FlowsIn(st.book.tape)[m], PendingFlows(plan.flows)[m];
    InsideIs(s, sessions[start], item.day);
    WindowScale(s, sessions, start, st);
    var i: nat :| FirstOnOrAfter(sessions, i, item.day) && Pays(e, item, st.scale.value, sessions[i]);
    PaidAsLive(s, sessions, st.values[start + 1], e, item, i);
  }

  /** Of the flows settled over all sessions every one due by the last was paid. */
  lemma DueIsPaid(s: Setup, sessions: seq<int>, start: nat, st: State, k: int)
    requires start < |sessions| && FlowsSettled(WindowPlan(s, sessions[start]), sessions, |sessions|, st)
    requires k in s.flows && sessions[start] < k <= sessions[|sessions| - 1] && s.flows[k] != 0.0
    ensures
      var items := PendingFlows(WindowPlan(s, sessions[start]).flows);
      exists m :: 0 <= m < |FlowsIn(st.book.tape)| && m < |items| && items[m].day == k
  {
    hide FlowsIn, PendingFlows, WindowPlan, FlowsSettled, KeysAscend, DueAfter;
    var plan := WindowPlan(s, sessions[start]);
    var items := PendingFlows(plan.flows);
    PendingAscend(plan.flows);
    InsideIs(s, sessions[start], k);
    var m :| 0 <= m < |items| && items[m].day == k;
    DueInTime(items, sessions, m);
    PaidCount(plan, sessions, st);
  }

  lemma DueInTime(items: seq<DatedSum>, sessions: seq<int>, m: nat)
    requires KeysAscend(items) && sessions != [] && m < |items| && items[m].day <= sessions[|sessions| - 1]
    ensures m < DueAfter(items, sessions, |sessions|)
  {
    DueByBounds(items, sessions[|sessions| - 1]);
  }

  lemma PaidCount(plan: Plan, sessions: seq<int>, st: State)
    requires FlowsSettled(plan, sessions, |sessions|, st)
    ensures |FlowsIn(st.book.tape)| == DueAfter(PendingFlows(plan.flows), sessions, |sessions|)
  {
    hide FlowsIn, PendingFlows, ScaleLearned, PaidOnTime, DueAfter;
  }

  lemma KeysAscendAt(flows: map<int, real>, m: nat, n: nat)
    requires m < n < |PendingFlows(flows)|
    ensures PendingFlows(flows)[m].day < PendingFlows(flows)[n].day
  {
    hide PendingFlows;
    PendingAscend(flows);
  }

  /**
   Each flow live recorded after the window's first session, up to the last, is
   paid into the run once, in the order of their days, and enters the curve as
   live had it; no other flow does.
   */
  lemma FlowsEnterAsLive(s: Setup, bars: Bars, start: nat, st: State)
    requires Universe(s.rules, bars) && start < |Sessions(bars)| && Holds(s, start)
    requires WindowRun(s, bars, start, |Sessions(bars)|) == Success(st)
    requires |st.values| == |Sessions(bars)| + 1 && st.values[start + 1] > 0.0
    ensures
      var sessions, paid := Sessions(bars), FlowsIn(st.book.tape);
      && (forall m :: 0 <= m < |paid| ==>
            paid[m].Flowed? && paid[m].key > sessions[start]
            && EntersAsLive(s, sessions, s.seed / st.values[start + 1], paid[m]))
      && (forall m, n :: 0 <= m < n < |paid| ==> paid[m].Flowed? && paid[n].Flowed? && paid[m].key < paid[n].key)
      && (forall k :: k in s.flows && sessions[start] < k <= sessions[|sessions| - 1] && s.flows[k] != 0.0 ==>
            exists m :: 0 <= m < |paid| && paid[m].Flowed? && paid[m].key == k)
  {
    hide RunTo, Sessions, FlowsIn, PendingFlows, WindowPlan, EntersAsLive, Universe, FlowsSettled, WarmGate,
         WindowRules;
    var sessions, paid := Sessions(bars), FlowsIn(st.book.tape);
    var anchor, warmFrom, n := sessions[start], sessions[start - s.warmup], |Sessions(bars)|;
    var plan := WindowPlan(s, anchor);
    var items := PendingFlows(plan.flows);
    WindowUniverse(s, bars, warmFrom);
    RunSettles(WindowRules(s, warmFrom), WarmGate(s.signals, warmFrom), plan, bars, n, st);
    forall m | 0 <= m < |paid|
      ensures paid[m].Flowed? && paid[m].key > anchor && m < |items| && paid[m].key == items[m].day
      ensures EntersAsLive(s, sessions, s.seed / st.values[start + 1], paid[m])
    {
      OneEnters(s, sessions, start, st, m);
    }
    forall m, l | 0 <= m < l < |paid|
      ensures paid[m].Flowed? && paid[l].Flowed? && paid[m].key < paid[l].key
    {
      assert l < |items| && paid[l].key == items[l].day && paid[m].key == items[m].day;
      KeysAscendAt(plan.flows, m, l);
    }
    forall k | k in s.flows && anchor < k <= sessions[n - 1] && s.flows[k] != 0.0
      ensures exists m :: 0 <= m < |paid| && paid[m].Flowed? && paid[m].key == k
    {
      DueIsPaid(s, sessions, start, st, k);
      var m :| 0 <= m < |paid| && m < |items| && items[m].day == k;
    }
  }
}
