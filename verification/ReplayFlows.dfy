/**
 Capital flows over whole runs: each is paid exactly once, in key order, at the
 first session on or after its key, at the scale learned on the basis session;
 and a run fails exactly when a flow falls due before that scale is known.
 */
module ReplayFlows {
  import opened Basics
  import opened Market
  import opened Costs
  import opened Replay
  import opened ReplayBooks
  import opened ReplayFunding

  // ---- The flows on the tape ----

  function FlowsIn(tape: seq<Event>): seq<Event> {
    if tape == [] then []
    else
      var n := |tape| - 1;
      FlowsIn(tape[..n]) + if tape[n].Flowed? then [tape[n]] else []
  }

  lemma FlowsInPush(tape: seq<Event>, e: Event)
    ensures FlowsIn(tape + [e]) == FlowsIn(tape) + if e.Flowed? then [e] else []
  {
    assert (tape + [e])[..|tape|] == tape;
  }

  lemma {:induction false} FlowsInSales(tape: seq<Event>, trades: seq<Trade>)
    ensures FlowsIn(tape + SoldEvents(trades)) == FlowsIn(tape)
  {
    if trades == [] {
      assert tape + SoldEvents(trades) == tape;
    } else {
      var n := |trades| - 1;
      FlowsInSales(tape, trades[..n]);
      FlowsInPush(tape + SoldEvents(trades[..n]), SoldEvent(trades[n]));
      assert tape + SoldEvents(trades) == tape + SoldEvents(trades[..n]) + [SoldEvent(trades[n])];
    }
  }

  lemma {:induction false} WriteOffsNoFlow(rules: Rules, d: int, names: seq<Ticker>, n: nat, b: Book)
    requires n <= |names|
    ensures FlowsIn(WriteOffs(rules, d, names, n, b).tape) == FlowsIn(b.tape)
  {
    hide FlowsIn, ClosedTrades, SeqSum, SoldEvents, Without;
    if n > 0 {
      WriteOffsNoFlow(rules, d, names, n - 1, b);
      var c := WriteOffs(rules, d, names, n - 1, b);
      forall trades
        ensures FlowsIn(c.tape + SoldEvents(trades)) == FlowsIn(c.tape)
      {
        FlowsInSales(c.tape, trades);
      }
    }
  }

  lemma {:induction false} WorkExitsNoFlow(rules: Rules, day: map<Ticker, Bar>, order: seq<Ticker>, n: nat, b: Book)
    requires n <= |order|
    ensures FlowsIn(WorkExits(rules, day, order, n, b).tape) == FlowsIn(b.tape)
  {
    hide FlowsIn, ClosedTrades, SeqSum, SoldEvents, Without;
    if n > 0 {
      WorkExitsNoFlow(rules, day, order, n - 1, b);
      var c := WorkExits(rules, day, order, n - 1, b);
      forall trades
        ensures FlowsIn(c.tape + SoldEvents(trades)) == FlowsIn(c.tape)
      {
        FlowsInSales(c.tape, trades);
      }
    }
  }

  lemma {:induction false} WorkEntriesNoFlow(rules: Rules, day: map<Ticker, Bar>, n: nat, b: Book)
    requires n <= |rules.tickers|
    ensures FlowsIn(WorkEntries(rules, day, n, b).tape) == FlowsIn(b.tape)
  {
    hide FlowsIn, CommissionFor, SlippageFor;
    if n > 0 {
      WorkEntriesNoFlow(rules, day, n - 1, b);
      var c := WorkEntries(rules, day, n - 1, b);
      var t := rules.tickers[n - 1];
      forall q, p, d, k
        ensures FlowsIn(c.tape + [Bought(t, q, p, d, k)]) == FlowsIn(c.tape)
      {
        FlowsInPush(c.tape, Bought(t, q, p, d, k));
      }
    }
  }

  lemma BeforeFlowsNoFlow(rules: Rules, d: int, day: map<Ticker, Bar>, b: Book)
    ensures FlowsIn(BeforeFlows(rules, d, day, b).tape) == FlowsIn(b.tape)
  {
    hide FlowsIn, WriteOffs, WorkExits, WorkEntries, Gate, Recorded, Names;
    var names := Names(rules);
    WriteOffsNoFlow(rules, d, names, |names|, b.(stale := Aged(day, b.stale)));
    var w := AfterWriteOffs(rules, d, day, b);
    WorkExitsNoFlow(rules, day, w.exitOrder, |w.exitOrder|, w);
    WorkEntriesNoFlow(rules, day, |rules.tickers|, AfterExits(rules, d, day, b));
    var e := Expired(AfterEntries(rules, d, day, b));
    RecordedSame(day, e);
    GateSame(rules, d, names, |names|, Recorded(day, e));
  }

  // ---- One session's payments ----

  /** How many leading flows have fallen due by a session. */
  function DueBy(items: seq<DatedSum>, d: int): (n: nat)
    ensures n <= |items|
  {
    if items == [] || items[0].day > d then 0 else 1 + DueBy(items[1..], d)
  }

  /** A logged payment: its key, its session, and the scaled amount, or as much of a withdrawal as was paid. */
  ghost predicate Pays(e: Event, item: DatedSum, scale: real, d: int) {
    && e.Flowed? && e.key == item.day && e.date == d
    && (item.amount * scale >= 0.0 ==> e.amount == item.amount * scale)
    && (item.amount * scale < 0.0 ==> item.amount * scale <= e.amount <= 0.0)
  }

  function AmountPaid(item: DatedSum, scale: real, cash: real): real {
    FlowAmount(item.amount * scale, cash)
  }

  /** The payments of some flows on session d, at a scale, starting from the cash on hand. */
  function Payments(items: seq<DatedSum>, scale: real, d: int, cash: real): (r: seq<Event>)
    ensures |r| == |items|
  {
    if items == [] then []
    else
      var amount := AmountPaid(items[0], scale, cash);
      [Flowed(items[0].day, d, amount)] + Payments(items[1..], scale, d, cash + amount)
  }

  lemma {:induction false} PaymentsPay(items: seq<DatedSum>, scale: real, d: int, cash: real)
    ensures
      var r := Payments(items, scale, d, cash);
      forall m :: 0 <= m < |items| ==> Pays(r[m], items[m], scale, d)
  {
    if items != [] {
      FlowAmountSafe(items[0].amount * scale, cash);
      var amount := AmountPaid(items[0], scale, cash);
      hide FlowAmount;
      PaymentsPay(items[1..], scale, d, cash + amount);
    }
  }

  lemma {:induction false} FlowsInPayments(tape: seq<Event>, paid: seq<Event>)
    requires forall i :: 0 <= i < |paid| ==> paid[i].Flowed?
    ensures FlowsIn(tape + paid) == FlowsIn(tape) + paid
  {
    if paid == [] {
      assert tape + paid == tape;
    } else {
      var n := |paid| - 1;
      FlowsInPayments(tape, paid[..n]);
      FlowsInPush(tape + paid[..n], paid[n]);
      assert tape + paid == tape + paid[..n] + [paid[n]];
      assert paid[..n] + [paid[n]] == paid;
    }
  }

  function ScaleOf(st: State): real {
    if st.scale.Some? then st.scale.value else 0.0
  }

  lemma FirstPayment(d: int, st: State)
    requires st.pending != [] && st.scale.Some?
    ensures
      var amount := AmountPaid(st.pending[0], st.scale.value, st.book.cash);
      var next := FlowApplied(d, st);
      && next.book.cash == st.book.cash + amount
      && next.book.tape == st.book.tape + [Flowed(st.pending[0].day, d, amount)]
      && next.pending == st.pending[1..] && next.scale == st.scale
  {
  }

  /** The flows due by d are paid in order and the rest stay pending. */
  lemma {:induction false} ApplyFlowsPays(d: int, st: State)
    ensures ApplyFlows(d, st).Failure? <==> st.scale.None? && DueBy(st.pending, d) > 0
    ensures ApplyFlows(d, st).Failure? ==> ApplyFlows(d, st).error == UnscaledFlow(d)
    ensures ApplyFlows(d, st).Success? ==>
      var r, k := ApplyFlows(d, st).value, DueBy(st.pending, d);
      && r.pending == st.pending[k..]
      && r.book.tape == st.book.tape + Payments(st.pending[..k], ScaleOf(st), d, st.book.cash)
    decreases |st.pending|
  {
    if st.pending != [] && st.pending[0].day <= d && st.scale.Some? {
      var next := FlowApplied(d, st);
      FirstPayment(d, st);
      hide AmountPaid, FlowApplied;
      ApplyFlowsPays(d, next);
      var k := DueBy(next.pending, d);
      assert st.pending[k + 1..] == next.pending[k..];
      assert st.pending[..k + 1][1..] == next.pending[..k];
      hide ApplyFlows, DueBy;
      FirstThenRest(st.pending[..k + 1], st.scale.value, d, st.book.cash, st.book.tape);
    }
  }

  lemma FirstThenRest(items: seq<DatedSum>, scale: real, d: int, cash: real, tape: seq<Event>)
    requires items != []
    ensures
      var amount := AmountPaid(items[0], scale, cash);
      tape + Payments(items, scale, d, cash)
      == tape + [Flowed(items[0].day, d, amount)] + Payments(items[1..], scale, d, cash + amount)
  {
    hide AmountPaid;
  }

  // ---- Runs ----

  ghost predicate KeysAscend(items: seq<DatedSum>) {
    forall i, j :: 0 <= i < j < |items| ==> items[i].day < items[j].day
  }

  lemma {:induction false} DueByBounds(items: seq<DatedSum>, d: int)
    requires KeysAscend(items)
    ensures forall i :: 0 <= i < |items| ==> (items[i].day <= d <==> i < DueBy(items, d))
  {
    if items != [] && items[0].day <= d {
      DueByBounds(items[1..], d);
      assert forall i :: 0 < i < |items| ==> items[i] == items[1..][i - 1];
    }
  }

  /** Flows already due come first, so the rest fall due after them. */
  lemma {:induction false} DueByAppend(paid: seq<DatedSum>, rest: seq<DatedSum>, d: int)
    requires forall i :: 0 <= i < |paid| ==> paid[i].day <= d
    ensures DueBy(paid + rest, d) == |paid| + DueBy(rest, d)
  {
    if paid == [] {
      assert paid + rest == rest;
    } else {
      assert (paid + rest)[1..] == paid[1..] + rest;
      DueByAppend(paid[1..], rest, d);
    }
  }

  /** The pending flows are the caller's flows, in key order. */
  lemma PendingAscend(flows: map<int, real>)
    ensures
      var items := PendingFlows(flows);
      && KeysAscend(items)
      && (forall i :: 0 <= i < |items| ==> items[i].day in flows && items[i].amount == flows[items[i].day])
      && (forall k :: k in flows ==> exists i :: 0 <= i < |items| && items[i].day == k)
  {
    var keys, items := SortedInts(flows.Keys), PendingFlows(flows);
    forall k | k in flows
      ensures exists i :: 0 <= i < |items| && items[i].day == k
    {
      assert k in keys;
      var i :| 0 <= i < |keys| && keys[i] == k;
      assert items[i].day == k;
    }
    forall i | 0 <= i < |items|
      ensures items[i].day in flows && items[i].amount == flows[items[i].day]
    {
      assert keys[i] in flows.Keys;
    }
  }

  /** The first session on or after a day. */
  ghost predicate FirstOnOrAfter(sessions: seq<int>, i: nat, d: int) {
    i < |sessions| && sessions[i] >= d && forall j :: 0 <= j < i ==> sessions[j] < d
  }

  /** How many flows have fallen due once n sessions are replayed. */
  function DueAfter(items: seq<DatedSum>, sessions: seq<int>, n: nat): (due: nat)
    requires n <= |sessions|
    ensures due <= |items|
  {
    if n == 0 then 0 else DueBy(items, sessions[n - 1])
  }

  /** The scale is unknown exactly until a session reaches the basis, and is that close's NAV over the basis NAV. */
  ghost predicate ScaleLearned(basis: Option<DatedSum>, sessions: seq<int>, n: nat, st: State)
    requires n <= |sessions|
  {
    && |st.values| == n + 1
    && (basis.None? ==> st.scale == Some(1.0))
    && (basis.Some? && st.scale.None? ==> forall i :: 0 <= i < n ==> sessions[i] < basis.value.day)
    && (basis.Some? && st.scale.Some? ==>
          && basis.value.amount != 0.0
          && exists i: nat :: i < n && FirstOnOrAfter(sessions, i, basis.value.day)
                              && st.scale.value == st.values[i + 1] / basis.value.amount)
  }

  /** A flow was paid at its first session, at the learned scale. */
  ghost predicate PaidOnTime(item: DatedSum, e: Event, sessions: seq<int>, scale: Option<real>) {
    && scale.Some?
    && exists i: nat :: FirstOnOrAfter(sessions, i, item.day) && Pays(e, item, scale.value, sessions[i])
  }

  ghost predicate AllPaid(items: seq<DatedSum>, paid: seq<Event>, sessions: seq<int>, scale: Option<real>) {
    |paid| == |items| && forall m :: 0 <= m < |paid| ==> PaidOnTime(items[m], paid[m], sessions, scale)
  }

  /** Exactly the flows due so far have been paid, each once and in key order; the others are pending. */
  ghost predicate FlowsSettled(plan: Plan, sessions: seq<int>, n: nat, st: State)
    requires n <= |sessions|
  {
    var items := PendingFlows(plan.flows);
    var due := DueAfter(items, sessions, n);
    && items == items[..due] + st.pending
    && AllPaid(items[..due], FlowsIn(st.book.tape), sessions, st.scale)
    && ScaleLearned(plan.basis, sessions, n, st)
  }

  /** What a session does to the flows and to the scale. */
  ghost predicate FlowStep(basis: Option<DatedSum>, d: int, cash: real, st: State, next: State) {
    var k := DueBy(st.pending, d);
    && next.pending == st.pending[k..]
    && FlowsIn(next.book.tape) == FlowsIn(st.book.tape) + Payments(st.pending[..k], ScaleOf(st), d, cash)
    && (k > 0 ==> st.scale.Some?)
    && (st.scale.None? && basis.Some? && d >= basis.value.day ==> basis.value.amount != 0.0)
    && |next.values| == |st.values| + 1 && next.values[..|st.values|] == st.values
    && (st.scale.Some? ==> next.scale == st.scale)
    && (st.scale.None? ==>
          next.scale == if basis.Some? && d >= basis.value.day && basis.value.amount != 0.0
                        then Some(next.values[|st.values|] / basis.value.amount) else None)
  }

  /** A session fails exactly when a flow falls due with the scale unknown, or the scale divides by zero. */
  ghost predicate SessionFaults(basis: Option<DatedSum>, d: int, st: State) {
    st.scale.None? && (DueBy(st.pending, d) > 0 || (basis.Some? && d >= basis.value.day && basis.value.amount == 0.0))
  }

  lemma StepFlows(rules: Rules, strategy: Strategy, basis: Option<DatedSum>, d: int, day: map<Ticker, Bar>, st: State)
    requires Distinct(rules.tickers) && day.Keys <= Elements(rules.tickers) && Sound(rules, st.book)
    ensures StepDay(rules, strategy, basis, d, day, st).Failure? <==> SessionFaults(basis, d, st)
    ensures StepDay(rules, strategy, basis, d, day, st).Failure? ==>
      StepDay(rules, strategy, basis, d, day, st).error
          == if DueBy(st.pending, d) > 0 then UnscaledFlow(d) else ZeroBasis
    ensures StepDay(rules, strategy, basis, d, day, st).Success? ==>
      FlowStep(basis, d, BeforeFlows(rules, d, day, st.book).cash, st,
               StepDay(rules, strategy, basis, d, day, st).value)
  {
    hide FlowsIn, Pays, Sound, BeforeFlows, Nav, Injected, UnmatchedFills, DueBy, ApplyFlows, AfterDecisions, Payments;
    BeforeFlowsNoFlow(rules, d, day, st.book);
    BeforeFlowsKeeps(rules, d, day, st.book);
    var gated := st.(book := BeforeFlows(rules, d, day, st.book));
    ApplyFlowsPays(d, gated);
    if ApplyFlows(d, gated).Success? {
      FlowsKeep(rules, d, gated);
      FlowsBalance(rules, d, gated);
      var paid := Payments(st.pending[..DueBy(st.pending, d)], ScaleOf(st), d, gated.book.cash);
      PaymentsFlow(st.pending[..DueBy(st.pending, d)], ScaleOf(st), d, gated.book.cash);
      FlowsInPayments(gated.book.tape, paid);
      var f := ApplyFlows(d, gated).value;
      AfterDecisionsKeeps(rules, strategy, d, day, f.book);
      var c := AfterDecisions(rules, strategy, d, day, f.book);
      FlowsInPush(c.tape, Marked(c.lastClose));
    }
  }

  lemma PaymentsFlow(items: seq<DatedSum>, scale: real, d: int, cash: real)
    ensures
      var r := Payments(items, scale, d, cash);
      forall i :: 0 <= i < |r| ==> r[i].Flowed?
  {
    PaymentsPay(items, scale, d, cash);
    var r := Payments(items, scale, d, cash);
    assert forall i :: 0 <= i < |r| ==> Pays(r[i], items[i], scale, d);
  }

  /** The flows falling due on session n are paid at that session, their first. */
  lemma PaidNow(now: seq<DatedSum>, sessions: seq<int>, n: nat, scale: real, cash: real)
    requires n < |sessions| && Ascending(sessions)
    requires forall m :: 0 <= m < |now| ==> now[m].day <= sessions[n] && (n > 0 ==> now[m].day > sessions[n - 1])
    ensures AllPaid(now, Payments(now, scale, sessions[n], cash), sessions, Some(scale))
  {
    PaymentsPay(now, scale, sessions[n], cash);
    var paid := Payments(now, scale, sessions[n], cash);
    forall m | 0 <= m < |paid|
      ensures PaidOnTime(now[m], paid[m], sessions, Some(scale))
    {
      assert Pays(paid[m], now[m], scale, sessions[n]);
      assert FirstOnOrAfter(sessions, n, now[m].day);
    }
  }

  lemma PaidJoins(a: seq<DatedSum>, b: seq<DatedSum>, before: seq<Event>, now: seq<Event>, sessions: seq<int>,
                  scale: Option<real>)
    requires AllPaid(a, before, sessions, scale) && AllPaid(b, now, sessions, scale)
    ensures AllPaid(a + b, before + now, sessions, scale)
  {
    hide PaidOnTime;
  }

  /** A session keeps the flows settled. */
  lemma StepSettles(plan: Plan, sessions: seq<int>, n: nat, cash: real, st: State, next: State)
    requires n < |sessions| && Ascending(sessions) && FlowsSettled(plan, sessions, n, st)
    requires FlowStep(plan.basis, sessions[n], cash, st, next)
    ensures FlowsSettled(plan, sessions, n + 1, next)
  {
    var items, d := PendingFlows(plan.flows), sessions[n];
    var paid, k := items[..DueAfter(items, sessions, n)], DueBy(st.pending, d);
    PendingAscend(plan.flows);
    hide PendingFlows, FlowsIn, ScaleLearned, AllPaid, PaidOnTime, Payments, DueBy, KeysAscend, DueAfter;
    ScaleStep(plan.basis, sessions, n, d, st, next);
    NextDue(items, paid, st.pending, sessions, n);
    StepPaid(plan.basis, paid, sessions, n, cash, st, next);
    assert next.pending == st.pending[k..];
    hide FlowStep, Ascending, FlowsSettled;
    SettledNext(plan, sessions, n, paid, k, st.pending, next);
  }

  lemma SettledNext(plan: Plan, sessions: seq<int>, n: nat, paid: seq<DatedSum>, k: nat, pending: seq<DatedSum>,
                    next: State)
    requires n < |sessions| && k <= |pending| && next.pending == pending[k..]
    requires DueBy(PendingFlows(plan.flows), sessions[n]) == |paid| + k
    requires PendingFlows(plan.flows) == paid + pending
    requires PendingFlows(plan.flows)[..|paid| + k] == paid + pending[..k]
    requires AllPaid(paid + pending[..k], FlowsIn(next.book.tape), sessions, next.scale)
    requires ScaleLearned(plan.basis, sessions, n + 1, next)
    ensures FlowsSettled(plan, sessions, n + 1, next)
  {
    hide PendingFlows, FlowsIn, ScaleLearned, AllPaid, DueBy;
  }

  lemma StepPaid(basis: Option<DatedSum>, paid: seq<DatedSum>, sessions: seq<int>, n: nat, cash: real,
                 st: State, next: State)
    requires n < |sessions| && Ascending(sessions)
    requires AllPaid(paid, FlowsIn(st.book.tape), sessions, st.scale)
    requires FlowStep(basis, sessions[n], cash, st, next)
    requires forall m :: 0 <= m < DueBy(st.pending, sessions[n]) ==>
      st.pending[m].day <= sessions[n] && (n > 0 ==> st.pending[m].day > sessions[n - 1])
    ensures AllPaid(paid + st.pending[..DueBy(st.pending, sessions[n])], FlowsIn(next.book.tape), sessions, next.scale)
  {
    hide FlowsIn, AllPaid, PaidOnTime, Payments, DueBy;
    var now := st.pending[..DueBy(st.pending, sessions[n])];
    PaidNow(now, sessions, n, ScaleOf(st), cash);
    PaidAtScale(paid, FlowsIn(st.book.tape), sessions, st.scale, next.scale);
    PaidAtScale(now, Payments(now, ScaleOf(st), sessions[n], cash), sessions, Some(ScaleOf(st)), next.scale);
    PaidJoins(paid, now, FlowsIn(st.book.tape), Payments(now, ScaleOf(st), sessions[n], cash), sessions, next.scale);
  }

  lemma PaidAtScale(items: seq<DatedSum>, paid: seq<Event>, sessions: seq<int>, was: Option<real>, scale: Option<real>)
    requires AllPaid(items, paid, sessions, was)
    requires items == [] || was == scale || was.None?
    ensures AllPaid(items, paid, sessions, scale)
  {
    assert forall m :: 0 <= m < |paid| ==> PaidOnTime(items[m], paid[m], sessions, was);
  }

  /** What falls due on session n comes straight after what fell due before. */
  lemma NextDue(items: seq<DatedSum>, paid: seq<DatedSum>, pending: seq<DatedSum>, sessions: seq<int>, n: nat)
    requires n < |sessions| && Ascending(sessions) && KeysAscend(items)
    requires items == paid + pending && |paid| == DueAfter(items, sessions, n)
    ensures
      var k := DueBy(pending, sessions[n]);
      && DueBy(items, sessions[n]) == |paid| + k
      && items[..|paid| + k] == paid + pending[..k]
      && items == items[..|paid| + k] + pending[k..]
    ensures forall m :: 0 <= m < DueBy(pending, sessions[n]) ==>
      pending[m].day <= sessions[n] && (n > 0 ==> pending[m].day > sessions[n - 1])
  {
    assert forall m :: 0 <= m < |pending| ==> pending[m] == items[|paid| + m];
    assert forall m :: 0 <= m < |paid| ==> paid[m] == items[m];
    assert KeysAscend(pending);
    DueByBounds(pending, sessions[n]);
    if n > 0 {
      DueByBounds(items, sessions[n - 1]);
    }
    hide DueBy, KeysAscend;
    DueByAppend(paid, pending, sessions[n]);
  }

  lemma ScaleStep(basis: Option<DatedSum>, sessions: seq<int>, n: nat, d: int, st: State, next: State)
    requires n < |sessions| && d == sessions[n] && ScaleLearned(basis, sessions, n, st)
    requires |next.values| == |st.values| + 1 && next.values[..|st.values|] == st.values
    requires st.scale.Some? ==> next.scale == st.scale
    requires st.scale.None? ==>
      next.scale == if basis.Some? && d >= basis.value.day && basis.value.amount != 0.0
                    then Some(next.values[|st.values|] / basis.value.amount) else None
    requires st.scale.None? && basis.Some? && d >= basis.value.day ==> basis.value.amount != 0.0
    ensures ScaleLearned(basis, sessions, n + 1, next)
  {
    if basis.Some? && next.scale.Some? {
      if st.scale.None? {
        assert FirstOnOrAfter(sessions, n, basis.value.day);
      } else {
        var i: nat :| i < n && FirstOnOrAfter(sessions, i, basis.value.day)
            && st.scale.value == st.values[i + 1] / basis.value.amount;
        assert next.values[i + 1] == next.values[..|st.values|][i + 1];
      }
    }
  }

  lemma StartSettles(rules: Rules, plan: Plan, sessions: seq<int>)
    ensures FlowsSettled(plan, sessions, 0, Start(rules, plan))
  {
  }

  /**
   In every reachable state: each flow due so far was paid exactly once, in key
   order, on the first session on or after its key, at one scale; the rest are
   pending; and that scale is the run's NAV over the basis NAV on the first
   session on or after the basis session.
   */
  lemma {:induction false} RunSettles(rules: Rules, strategy: Strategy, plan: Plan, bars: Bars, n: nat, st: State)
    requires Universe(rules, bars) && n <= |Sessions(bars)|
    requires RunTo(rules, strategy, plan, bars, n) == Success(st)
    ensures FlowsSettled(plan, Sessions(bars), n, st)
  {
    hide StepDay, Balanced, FlowsSettled, Day, Start, FlowStep, SessionFaults;
    if n == 0 {
      StartSettles(rules, plan, Sessions(bars));
    } else {
      var d := Sessions(bars)[n - 1];
      var prev := RunTo(rules, strategy, plan, bars, n - 1).value;
      RunSettles(rules, strategy, plan, bars, n - 1, prev);
      RunBalanced(rules, strategy, plan, bars, n - 1, prev);
      BalancedIsSound(rules, prev);
      DayInUniverse(rules, bars, d);
      StepFlows(rules, strategy, plan.basis, d, Day(bars, d), prev);
      StepSettles(plan, Sessions(bars), n - 1, BeforeFlows(rules, d, Day(bars, d), prev.book).cash, prev, st);
    }
  }

  // ---- When a run fails ----

  /** No session so far has reached the basis session. */
  ghost predicate Unscaled(basis: Option<DatedSum>, sessions: seq<int>, i: nat)
    requires i <= |sessions|
  {
    basis.Some? && forall j :: 0 <= j < i ==> sessions[j] < basis.value.day
  }

  /** A flow is due on or before session i. */
  ghost predicate FlowDue(flows: map<int, real>, d: int) {
    exists k :: k in flows && k <= d
  }

  /** Session i finds the scale unknown with a flow due, or learns it by dividing by zero. */
  ghost predicate BadSession(plan: Plan, sessions: seq<int>, i: nat)
    requires i < |sessions|
  {
    && Unscaled(plan.basis, sessions, i)
    && (FlowDue(plan.flows, sessions[i]) || (sessions[i] >= plan.basis.value.day && plan.basis.value.amount == 0.0))
  }

  lemma DueIffFlow(flows: map<int, real>, d: int)
    ensures DueBy(PendingFlows(flows), d) > 0 <==> FlowDue(flows, d)
  {
    var items := PendingFlows(flows);
    PendingAscend(flows);
    DueByBounds(items, d);
    if FlowDue(flows, d) {
      var k :| k in flows && k <= d;
      var i :| 0 <= i < |items| && items[i].day == k;
    }
    if DueBy(items, d) > 0 {
      assert items[0].day in flows && items[0].day <= d;
    }
  }

  lemma FaultsExactly(plan: Plan, sessions: seq<int>, n: nat, st: State)
    requires n < |sessions| && Ascending(sessions) && FlowsSettled(plan, sessions, n, st)
    requires n > 0 ==> !BadSession(plan, sessions, n - 1)
    ensures SessionFaults(plan.basis, sessions[n], st) <==> BadSession(plan, sessions, n)
    ensures st.scale.None? ==> (DueBy(st.pending, sessions[n]) > 0 <==> FlowDue(plan.flows, sessions[n]))
  {
    var items, d := PendingFlows(plan.flows), sessions[n];
    DueIffFlow(plan.flows, d);
    hide PendingFlows, DueBy, FlowDue, FlowsIn;
    assert st.scale.None? <==> Unscaled(plan.basis, sessions, n);
    if st.scale.None? {
      if n > 0 {
        DueIffFlow(plan.flows, sessions[n - 1]);
        assert !BadSession(plan, sessions, n - 1);
      }
      assert items[..0] + st.pending == st.pending;
    }
  }

  /** The fault of the first bad session, if any of the first n is bad. */
  ghost function FirstFault(plan: Plan, sessions: seq<int>, n: nat): (r: Option<Fault>)
    requires n <= |sessions|
    ensures r.Some? <==> exists i :: 0 <= i < n && BadSession(plan, sessions, i)
  {
    if n == 0 then None
    else if FirstFault(plan, sessions, n - 1).Some? then FirstFault(plan, sessions, n - 1)
    else if !BadSession(plan, sessions, n - 1) then None
    else if FlowDue(plan.flows, sessions[n - 1]) then Some(UnscaledFlow(sessions[n - 1]))
    else Some(ZeroBasis)
  }

  /**
   A run fails exactly when, before any session has reached the basis session,
   a session comes on or after some flow's key, or the basis NAV is zero on
   the session that would learn the scale. Which fault stops it, if any, can be
   read off the plan and the session dates alone.
   */
  lemma {:induction false} RunFaults(rules: Rules, strategy: Strategy, plan: Plan, bars: Bars, n: nat)
    requires Universe(rules, bars) && n <= |Sessions(bars)|
    ensures
      match FirstFault(plan, Sessions(bars), n)
      case None => RunTo(rules, strategy, plan, bars, n).Success?
      case Some(fault) => RunTo(rules, strategy, plan, bars, n) == Failure(fault)
  {
    hide StepDay, Balanced, FlowsSettled, Day, Start, FlowStep, SessionFaults, BadSession, FlowDue, DueBy;
    if n > 0 {
      RunFaults(rules, strategy, plan, bars, n - 1);
      var sessions := Sessions(bars);
      if FirstFault(plan, sessions, n - 1).None? {
        var d := sessions[n - 1];
        var prev := RunTo(rules, strategy, plan, bars, n - 1).value;
        RunSettles(rules, strategy, plan, bars, n - 1, prev);
        RunBalanced(rules, strategy, plan, bars, n - 1, prev);
        BalancedIsSound(rules, prev);
        DayInUniverse(rules, bars, d);
        StepFlows(rules, strategy, plan.basis, d, Day(bars, d), prev);
        FaultsExactly(plan, sessions, n - 1, prev);
        FaultNeedsNoScale(plan.basis, d, prev);
      }
    }
  }

  lemma FaultNeedsNoScale(basis: Option<DatedSum>, d: int, st: State)
    ensures SessionFaults(basis, d, st) ==> st.scale.None?
  {
  }

  // ---- Runs with and without flows ----

  /** The same state in a run that was never given flows. */
  function WithoutFlows(st: State): State {
    State(st.book, [], [], Some(1.0), st.values, st.dates)
  }

  /** Until the first flow falls due, a run with flows and a run without are the same run. */
  lemma {:induction false} AgreeBeforeFirstFlow(rules: Rules, strategy: Strategy, plan: Plan, bars: Bars, n: nat,
                                                st: State)
    requires Universe(rules, bars) && n <= |Sessions(bars)|
    requires RunTo(rules, strategy, plan, bars, n) == Success(st)
    requires n > 0 ==> forall k :: k in plan.flows ==> Sessions(bars)[n - 1] < k
    ensures RunTo(rules, strategy, Plan(map[], None), bars, n) == Success(WithoutFlows(st))
    ensures st.applied == []
  {
    hide StepDay, FlowsSettled, Day, DueBy, Start, WithoutFlows, Universe, Sessions;
    if n > 0 {
      var d := Sessions(bars)[n - 1];
      var prev := RunTo(rules, strategy, plan, bars, n - 1).value;
      AgreeBeforeFirstFlow(rules, strategy, plan, bars, n - 1, prev);
      RunSettles(rules, strategy, plan, bars, n - 1, prev);
      NothingDue(plan, Sessions(bars), n - 1, prev);
      SameStep(rules, strategy, plan.basis, d, Day(bars, d), prev, st);
    } else {
      SameStart(rules, plan);
    }
  }

  lemma SameStart(rules: Rules, plan: Plan)
    ensures Start(rules, Plan(map[], None)) == WithoutFlows(Start(rules, plan)) && Start(rules, plan).applied == []
  {
  }

  lemma NothingDue(plan: Plan, sessions: seq<int>, n: nat, st: State)
    requires n < |sessions| && FlowsSettled(plan, sessions, n, st)
    requires forall k :: k in plan.flows ==> sessions[n] < k
    requires Ascending(sessions)
    ensures st.pending == [] || st.pending[0].day > sessions[n]
  {
    var items := PendingFlows(plan.flows);
    PendingAscend(plan.flows);
    if st.pending != [] {
      var due := DueAfter(items, sessions, n);
      assert items[due..] == st.pending;
      assert items[due] == st.pending[0];
    }
  }

  lemma SameStep(rules: Rules, strategy: Strategy, basis: Option<DatedSum>, d: int, day: map<Ticker, Bar>,
                 st: State, next: State)
    requires st.pending == [] || st.pending[0].day > d
    requires StepDay(rules, strategy, basis, d, day, st) == Success(next)
    ensures StepDay(rules, strategy, None, d, day, WithoutFlows(st)) == Success(WithoutFlows(next))
    ensures next.applied == st.applied
  {
    hide BeforeFlows, AfterDecisions, Nav, Closed;
  }
}
