/**
 What the tape says about money: it explains the cash to the dollar, it fixes
 every flow's amount, and the record of applied flows a run hands back is the
 tape's flows, session by session.
 */
module ReplayTape {
  import opened Basics
  import opened Market
  import opened Costs
  import opened Replay
  import opened ReplayBooks
  import opened ReplayFlows

  // ---- Cash and flows on the tape ----

  function CashOf(e: Event): real {
    match e
    case Bought(_, q, price, _, commission) => -(price * q + commission)
    case Sold(_, q, price, _, commission) => price * q - commission
    case Flowed(_, _, amount) => amount
    case Marked(_) => 0.0
  }

  /** The cash on hand once the first i events have happened. */
  function CashAfter(initial: real, tape: seq<Event>, i: nat): real
    requires i <= |tape|
  {
    initial + SeqSum(tape[..i], CashOf)
  }

  /** A flow pays its caller's amount at the scale, a withdrawal clamped to the cash on hand just then. */
  ghost predicate PaidExactly(flows: map<int, real>, scale: Option<real>, initial: real, tape: seq<Event>, i: nat)
    requires i < |tape| && tape[i].Flowed?
  {
    && scale.Some? && tape[i].key in flows
    && var due, cash := flows[tape[i].key] * scale.value, CashAfter(initial, tape, i);
       tape[i].amount == if due >= 0.0 then due else if cash <= 0.0 then 0.0 else if -due <= cash then due else -cash
  }

  ghost predicate AllExact(flows: map<int, real>, scale: Option<real>, initial: real, tape: seq<Event>) {
    forall i :: 0 <= i < |tape| && tape[i].Flowed? ==> PaidExactly(flows, scale, initial, tape, i)
  }

  /** The tape adds up to the cash and each of its flows was paid exactly. */
  ghost predicate TapeTrue(rules: Rules, flows: map<int, real>, scale: Option<real>, b: Book) {
    b.cash == rules.initial + SeqSum(b.tape, CashOf) && AllExact(flows, scale, rules.initial, b.tape)
  }

  /** What happens later does not change how a flow was paid. */
  lemma ExactStays(flows: map<int, real>, scale: Option<real>, initial: real, tape: seq<Event>, grown: seq<Event>,
                   i: nat)
    requires i < |tape| && tape[i].Flowed? && tape <= grown && PaidExactly(flows, scale, initial, tape, i)
    ensures PaidExactly(flows, scale, initial, grown, i)
  {
    assert grown[..i] == tape[..i];
    hide SeqSum, FlowAmount;
  }

  /** The amount of a flow, case by case. */
  lemma AmountIs(due: real, cash: real)
    ensures FlowAmount(due, cash)
            == if due >= 0.0 then due else if cash <= 0.0 then 0.0 else if -due <= cash then due else -cash
  {
  }

  lemma NewestExact(flows: map<int, real>, scale: Option<real>, initial: real, tape: seq<Event>, e: Event)
    requires e.Flowed? && scale.Some? && e.key in flows
    requires e.amount == FlowAmount(flows[e.key] * scale.value, initial + SeqSum(tape, CashOf))
    ensures PaidExactly(flows, scale, initial, tape + [e], |tape|)
  {
    hide SeqSum, FlowAmount, CashOf;
    AmountIs(flows[e.key] * scale.value, initial + SeqSum(tape, CashOf));
    assert (tape + [e])[..|tape|] == tape;
  }

  lemma ExactPush(flows: map<int, real>, scale: Option<real>, initial: real, tape: seq<Event>, e: Event)
    requires AllExact(flows, scale, initial, tape)
    requires e.Flowed? ==>
      && scale.Some? && e.key in flows
      && e.amount == FlowAmount(flows[e.key] * scale.value, initial + SeqSum(tape, CashOf))
    ensures AllExact(flows, scale, initial, tape + [e])
  {
    var grown := tape + [e];
    if e.Flowed? {
      NewestExact(flows, scale, initial, tape, e);
    }
    hide PaidExactly, FlowAmount, SeqSum;
    forall i | 0 <= i < |grown| && grown[i].Flowed?
      ensures PaidExactly(flows, scale, initial, grown, i)
    {
      if i < |tape| {
        ExactStays(flows, scale, initial, tape, grown, i);
      }
    }
  }

  /** One more event that moves cash by what it says. */
  lemma TapePush(rules: Rules, flows: map<int, real>, scale: Option<real>, b: Book, e: Event, c: Book)
    requires TapeTrue(rules, flows, scale, b) && c.tape == b.tape + [e] && c.cash == b.cash + CashOf(e)
    requires e.Flowed? ==>
      scale.Some? && e.key in flows && e.amount == FlowAmount(flows[e.key] * scale.value, b.cash)
    ensures TapeTrue(rules, flows, scale, c)
  {
    hide FlowAmount, SeqSum, CashOf, AllExact;
    SeqSumPush(b.tape, e, CashOf);
    ExactPush(flows, scale, rules.initial, b.tape, e);
  }

  lemma SaleCash(tr: Trade)
    ensures CashOf(SoldEvent(tr)) == CashRaised(tr) && !SoldEvent(tr).Flowed?
  {
  }

  /** Selling some lots: the sales on the tape raise what the trades do. */
  lemma {:induction false} SalesTrue(rules: Rules, flows: map<int, real>, scale: Option<real>, b: Book,
                                     trades: seq<Trade>)
    requires TapeTrue(rules, flows, scale, b)
    ensures TapeTrue(rules, flows, scale,
                     b.(cash := b.cash + SeqSum(trades, CashRaised), tape := b.tape + SoldEvents(trades)))
    decreases |trades|
  {
    hide TapeTrue, CashOf, CashRaised, SoldEvent;
    if trades == [] {
      assert b.tape + SoldEvents(trades) == b.tape;
      assert b.(cash := b.cash + SeqSum(trades, CashRaised), tape := b.tape + SoldEvents(trades)) == b;
    } else {
      var head, tr := trades[..|trades| - 1], trades[|trades| - 1];
      SalesTrue(rules, flows, scale, b, head);
      SaleCash(tr);
      var c := b.(cash := b.cash + SeqSum(head, CashRaised), tape := b.tape + SoldEvents(head));
      assert b.tape + SoldEvents(trades) == c.tape + [SoldEvent(tr)];
      TapePush(rules, flows, scale, c, SoldEvent(tr),
               b.(cash := b.cash + SeqSum(trades, CashRaised), tape := b.tape + SoldEvents(trades)));
    }
  }

  lemma TrueSame(rules: Rules, flows: map<int, real>, scale: Option<real>, b: Book, c: Book)
    requires TapeTrue(rules, flows, scale, b) && c.cash == b.cash && c.tape == b.tape
    ensures TapeTrue(rules, flows, scale, c)
  {
  }

  lemma CloseTrue(rules: Rules, flows: map<int, real>, scale: Option<real>, b: Book, t: Ticker, price: real, d: int,
                  reason: string)
    requires TapeTrue(rules, flows, scale, b) && t in b.positions
    ensures TapeTrue(rules, flows, scale, ClosePosition(rules.costs, b, t, price, d, reason))
  {
    var closed := ClosedTrades(rules.costs, t, b.positions[t], price, d, reason);
    SalesTrue(rules, flows, scale, b, closed);
    hide TapeTrue, ClosedTrades, SeqSum, SoldEvents;
    TrueSame(rules, flows, scale, b.(cash := b.cash + SeqSum(closed, CashRaised), tape := b.tape + SoldEvents(closed)),
             ClosePosition(rules.costs, b, t, price, d, reason));
  }

  lemma WriteOffTrue(rules: Rules, flows: map<int, real>, scale: Option<real>, d: int, t: Ticker, b: Book)
    requires TapeTrue(rules, flows, scale, b)
    ensures TapeTrue(rules, flows, scale, WriteOff(rules, d, t, b))
  {
    var dropped := DropExit(b.(entries := b.entries - {t}), t);
    TrueSame(rules, flows, scale, b, dropped);
    hide TapeTrue, ClosePosition, ExitReason, Without;
    if t in b.positions && t in b.lastClose {
      var f := FillTerminalExit(rules.costs, 0.0, b.lastClose[t], d, t);
      CloseTrue(rules, flows, scale, dropped, t, f.price, f.date, ExitReason(b, t));
    }
  }

  lemma {:induction false} WriteOffsTrue(rules: Rules, flows: map<int, real>, scale: Option<real>, d: int,
                                         names: seq<Ticker>,
                                         n: nat, b: Book)
    requires n <= |names| && TapeTrue(rules, flows, scale, b)
    ensures TapeTrue(rules, flows, scale, WriteOffs(rules, d, names, n, b))
    decreases n
  {
    hide TapeTrue, WriteOff;
    if n > 0 {
      WriteOffsTrue(rules, flows, scale, d, names, n - 1, b);
      WriteOffTrue(rules, flows, scale, d, names[n - 1], WriteOffs(rules, d, names, n - 1, b));
    }
  }

  lemma WorkExitTrue(rules: Rules, flows: map<int, real>, scale: Option<real>, day: map<Ticker, Bar>, t: Ticker,
                     b: Book)
    requires TapeTrue(rules, flows, scale, b)
    ensures TapeTrue(rules, flows, scale, WorkExit(rules, day, t, b))
  {
    var dropped := DropExit(b, t);
    TrueSame(rules, flows, scale, b, dropped);
    hide TapeTrue, ClosePosition, Without;
    if t in day && t in b.exits && t in b.positions {
      var f := FillMarketExit(rules.costs, 0.0, day[t], t);
      CloseTrue(rules, flows, scale, dropped, t, f.price, f.date, b.exits[t]);
    }
  }

  lemma {:induction false} WorkExitsTrue(rules: Rules, flows: map<int, real>, scale: Option<real>,
                                         day: map<Ticker, Bar>,
                                         order: seq<Ticker>, n: nat, b: Book)
    requires n <= |order| && TapeTrue(rules, flows, scale, b)
    ensures TapeTrue(rules, flows, scale, WorkExits(rules, day, order, n, b))
    decreases n
  {
    hide TapeTrue, WorkExit;
    if n > 0 {
      WorkExitsTrue(rules, flows, scale, day, order, n - 1, b);
      WorkExitTrue(rules, flows, scale, day, order[n - 1], WorkExits(rules, day, order, n - 1, b));
    }
  }

  lemma OpenTrue(rules: Rules, flows: map<int, real>, scale: Option<real>, b: Book, t: Ticker, f: Fill)
    requires TapeTrue(rules, flows, scale, b) && f.quantity > 0.0
    ensures TapeTrue(rules, flows, scale, OpenLot(b, t, f))
  {
    hide TapeTrue;
    TapePush(rules, flows, scale, b, Bought(t, f.quantity, f.price, f.date, f.commission), OpenLot(b, t, f));
  }

  lemma {:induction false} WorkEntriesTrue(rules: Rules, flows: map<int, real>, scale: Option<real>,
                                           day: map<Ticker, Bar>,
                                           n: nat, b: Book)
    requires n <= |rules.tickers| && TapeTrue(rules, flows, scale, b)
    ensures TapeTrue(rules, flows, scale, WorkEntries(rules, day, n, b))
    decreases n
  {
    hide TapeTrue, OpenLot, CommissionFor, SlippageFor;
    if n > 0 {
      WorkEntriesTrue(rules, flows, scale, day, n - 1, b);
      var c, t := WorkEntries(rules, day, n - 1, b), rules.tickers[n - 1];
      if t in c.entries && t in day {
        var fill := TryFillLimitEntry(rules.costs, c.entries[t].limit, c.entries[t].quantity, day[t], t);
        if fill.Some? {
          OpenTrue(rules, flows, scale, c, t, fill.value);
        }
      }
    }
  }

  lemma BeforeFlowsTrue(rules: Rules, flows: map<int, real>, scale: Option<real>, d: int, day: map<Ticker, Bar>,
                        b: Book)
    requires TapeTrue(rules, flows, scale, b)
    ensures TapeTrue(rules, flows, scale, BeforeFlows(rules, d, day, b))
  {
    hide TapeTrue, WriteOffs, WorkExits, WorkEntries, Gate, Recorded, Names;
    var names := Names(rules);
    var aged := b.(stale := Aged(day, b.stale));
    TrueSame(rules, flows, scale, b, aged);
    WriteOffsTrue(rules, flows, scale, d, names, |names|, aged);
    var w := AfterWriteOffs(rules, d, day, b);
    WorkExitsTrue(rules, flows, scale, day, w.exitOrder, |w.exitOrder|, w);
    WorkEntriesTrue(rules, flows, scale, day, |rules.tickers|, AfterExits(rules, d, day, b));
    var e := AfterEntries(rules, d, day, b);
    RecordedWidens(day, Expired(e));
    GateSame(rules, d, names, |names|, Recorded(day, Expired(e)));
    TrueSame(rules, flows, scale, e, BeforeFlows(rules, d, day, b));
  }

  // ---- The record of applied flows ----

  /** What the flows dated on a day paid in all. */
  function PaidOn(paid: seq<Event>, d: int): real {
    if paid == [] then 0.0
    else
      var n := |paid| - 1;
      PaidOn(paid[..n], d) + if paid[n].Flowed? && paid[n].date == d then paid[n].amount else 0.0
  }

  ghost predicate DatedBy(paid: seq<Event>, d: int) {
    forall i :: 0 <= i < |paid| ==> paid[i].Flowed? && paid[i].date <= d
  }

  ghost predicate DayPaid(paid: seq<Event>, d: int) {
    exists j :: 0 <= j < |paid| && paid[j].Flowed? && paid[j].date == d
  }

  /** One entry a session that was paid a flow, in session order, holding the sum of that session's payments. */
  ghost predicate Credits(applied: seq<DatedSum>, paid: seq<Event>) {
    && KeysAscend(applied)
    && (forall i :: 0 <= i < |applied| ==>
      DayPaid(paid, applied[i].day) && applied[i].amount == PaidOn(paid, applied[i].day))
    && (forall j :: 0 <= j < |paid| && paid[j].Flowed? ==>
      exists i :: 0 <= i < |applied| && applied[i].day == paid[j].date)
  }

  lemma PaidOnPush(paid: seq<Event>, e: Event, d: int)
    ensures PaidOn(paid + [e], d) == PaidOn(paid, d) + if e.Flowed? && e.date == d then e.amount else 0.0
  {
    assert (paid + [e])[..|paid|] == paid;
  }

  lemma DayPaidPush(paid: seq<Event>, e: Event, d: int)
    requires e.Flowed?
    ensures DayPaid(paid + [e], d) <==> DayPaid(paid, d) || e.date == d
  {
    var grown := paid + [e];
    if DayPaid(paid, d) {
      var j :| 0 <= j < |paid| && paid[j].Flowed? && paid[j].date == d;
      assert grown[j] == paid[j];
    }
    if e.date == d {
      assert grown[|paid|] == e;
    }
  }

  lemma {:induction false} NothingPaidOn(paid: seq<Event>, d: int)
    requires !DayPaid(paid, d)
    ensures PaidOn(paid, d) == 0.0
    decreases |paid|
  {
    if paid != [] {
      var head := paid[..|paid| - 1];
      assert forall j :: 0 <= j < |head| ==> head[j] == paid[j];
      NothingPaidOn(head, d);
    }
  }

  lemma CreditsBy(applied: seq<DatedSum>, paid: seq<Event>, d: int)
    requires Credits(applied, paid) && DatedBy(paid, d)
    ensures forall i :: 0 <= i < |applied| ==> applied[i].day <= d
  {
    forall i | 0 <= i < |applied|
      ensures applied[i].day <= d
    {
      assert DayPaid(paid, applied[i].day);
    }
  }

  /** The last entry of the record is the latest day paid, so crediting a later or equal day keeps it true. */
  lemma CreditsNext(applied: seq<DatedSum>, paid: seq<Event>, key: int, d: int, amount: real)
    requires Credits(applied, paid) && DatedBy(paid, d)
    ensures Credits(Credited(applied, d, amount), paid + [Flowed(key, d, amount)])
  {
    var e := Flowed(key, d, amount);
    var next, grown := Credited(applied, d, amount), paid + [e];
    CreditsBy(applied, paid, d);
    LastCredited(applied, d, amount);
    hide Credited, PaidOn, DayPaid, DatedBy;
    forall i | 0 <= i < |next|
      ensures DayPaid(grown, next[i].day) && next[i].amount == PaidOn(grown, next[i].day)
    {
      CreditHolds(applied, paid, key, d, amount, i);
    }
    forall j | 0 <= j < |grown| && grown[j].Flowed?
      ensures exists i :: 0 <= i < |next| && next[i].day == grown[j].date
    {
      if j < |paid| {
        assert grown[j] == paid[j];
        var i :| 0 <= i < |applied| && applied[i].day == paid[j].date;
        assert next[i].day == applied[i].day;
      } else {
        assert next[|next| - 1].day == d;
      }
    }
  }

  lemma CreditHolds(applied: seq<DatedSum>, paid: seq<Event>, key: int, d: int, amount: real, i: nat)
    requires Credits(applied, paid) && DatedBy(paid, d) && i < |Credited(applied, d, amount)|
    ensures
      var next, grown := Credited(applied, d, amount), paid + [Flowed(key, d, amount)];
      DayPaid(grown, next[i].day) && next[i].amount == PaidOn(grown, next[i].day)
  {
    var e, next := Flowed(key, d, amount), Credited(applied, d, amount);
    CreditsBy(applied, paid, d);
    LastCredited(applied, d, amount);
    PaidOnPush(paid, e, next[i].day);
    DayPaidPush(paid, e, next[i].day);
    hide Credited, PaidOn, DayPaid, DatedBy;
    if i < |next| - 1 {
      assert next[i] == applied[i] && applied[i].day < d;
    } else if !(|applied| > 0 && applied[|applied| - 1].day == d) {
      NotYetPaid(applied, paid, d);
      NothingPaidOn(paid, d);
    }
  }

  lemma LastCredited(applied: seq<DatedSum>, d: int, amount: real)
    requires KeysAscend(applied) && forall i :: 0 <= i < |applied| ==> applied[i].day <= d
    ensures
      var next, n := Credited(applied, d, amount), |applied|;
      && KeysAscend(next)
      && (if n > 0 && applied[n - 1].day == d
          then |next| == n && next[n - 1] == DatedSum(d, applied[n - 1].amount + amount)
          else |next| == n + 1 && next[n] == DatedSum(d, amount))
      && forall i :: 0 <= i < |next| - 1 ==> next[i] == applied[i] && applied[i].day < d
  {
  }

  lemma NotYetPaid(applied: seq<DatedSum>, paid: seq<Event>, d: int)
    requires Credits(applied, paid) && KeysAscend(applied) && forall i :: 0 <= i < |applied| ==> applied[i].day <= d
    requires |applied| == 0 || applied[|applied| - 1].day != d
    ensures !DayPaid(paid, d)
  {
    forall j | 0 <= j < |paid| && paid[j].Flowed?
      ensures paid[j].date != d
    {
      var i :| 0 <= i < |applied| && applied[i].day == paid[j].date;
      assert i < |applied| - 1 ==> applied[i].day < applied[|applied| - 1].day;
    }
  }

  // ---- Paying a session's flows ----

  /** The tape is true, and what the run records as applied is what the tape says was paid, up to a day. */
  ghost predicate Told(rules: Rules, flows: map<int, real>, d: int, st: State) {
    && TapeTrue(rules, flows, st.scale, st.book)
    && Credits(st.applied, FlowsIn(st.book.tape)) && DatedBy(FlowsIn(st.book.tape), d)
    && forall i :: 0 <= i < |st.pending| ==>
         st.pending[i].day in flows && flows[st.pending[i].day] == st.pending[i].amount
  }

  lemma FlowTold(rules: Rules, flows: map<int, real>, d: int, st: State)
    requires Told(rules, flows, d, st) && st.pending != [] && st.scale.Some?
    ensures Told(rules, flows, d, FlowApplied(d, st))
  {
    var next := FlowApplied(d, st);
    FirstPayment(d, st);
    var e := Flowed(st.pending[0].day, d, AmountPaid(st.pending[0], st.scale.value, st.book.cash));
    assert next.applied == Credited(st.applied, d, e.amount);
    hide FlowApplied, FlowAmount, Credits, Credited, TapeTrue, FlowsIn;
    TapePush(rules, flows, st.scale, st.book, e, next.book);
    FlowsInPush(st.book.tape, e);
    CreditsNext(st.applied, FlowsIn(st.book.tape), e.key, d, e.amount);
  }

  lemma {:induction false} ApplyFlowsTold(rules: Rules, flows: map<int, real>, d: int, st: State)
    requires Told(rules, flows, d, st) && ApplyFlows(d, st).Success?
    ensures Told(rules, flows, d, ApplyFlows(d, st).value)
    decreases |st.pending|
  {
    if st.pending != [] && st.pending[0].day <= d {
      var next := FlowApplied(d, st);
      FlowTold(rules, flows, d, st);
      hide Told, FlowApplied;
      assert |next.pending| < |st.pending| by {
        FirstPayment(d, st);
      }
      ApplyFlowsTold(rules, flows, d, next);
    }
  }

  // ---- Runs ----

  lemma ScaleForgotten(rules: Rules, flows: map<int, real>, scale: Option<real>, b: Book)
    requires TapeTrue(rules, flows, None, b)
    ensures TapeTrue(rules, flows, scale, b)
  {
  }

  lemma GatedTold(rules: Rules, flows: map<int, real>, d: int, day: map<Ticker, Bar>, st: State)
    requires Told(rules, flows, d, st)
    ensures Told(rules, flows, d, st.(book := BeforeFlows(rules, d, day, st.book)))
  {
    hide TapeTrue, Credits, FlowsIn, BeforeFlows;
    BeforeFlowsTrue(rules, flows, st.scale, d, day, st.book);
    BeforeFlowsNoFlow(rules, d, day, st.book);
  }

  /** The rest of a session decides, marks and learns the scale. */
  lemma EndTold(rules: Rules, flows: map<int, real>, d: int, f: State, c: Book, next: State)
    requires Told(rules, flows, d, f) && (f.scale.Some? ==> next.scale == f.scale)
    requires c.cash == f.book.cash && c.tape == f.book.tape
    requires next.book.cash == c.cash && next.book.tape == c.tape + [Marked(c.lastClose)]
    requires next.applied == f.applied && next.pending == f.pending
    ensures Told(rules, flows, d, next)
  {
    var e := Marked(c.lastClose);
    FlowsInPush(c.tape, e);
    TapePush(rules, flows, f.scale, f.book, e, next.book);
    hide Credits, FlowsIn, TapeTrue;
    if f.scale.None? {
      ScaleForgotten(rules, flows, next.scale, next.book);
    }
    assert FlowsIn(c.tape) + [] == FlowsIn(c.tape);
  }

  lemma StepTold(rules: Rules, strategy: Strategy, plan: Plan, d: int, day: map<Ticker, Bar>, st: State, next: State)
    requires Distinct(rules.tickers) && day.Keys <= Elements(rules.tickers) && Sound(rules, st.book)
    requires Told(rules, plan.flows, d, st) && StepDay(rules, strategy, plan.basis, d, day, st) == Success(next)
    ensures Told(rules, plan.flows, d, next)
  {
    hide Told, Sound, BeforeFlows, Nav, ApplyFlows, AfterDecisions, Injected, UnmatchedFills;
    GatedTold(rules, plan.flows, d, day, st);
    BeforeFlowsKeeps(rules, d, day, st.book);
    var gated := st.(book := BeforeFlows(rules, d, day, st.book));
    ApplyFlowsTold(rules, plan.flows, d, gated);
    FlowsKeep(rules, d, gated);
    FlowsBalance(rules, d, gated);
    var f := ApplyFlows(d, gated).value;
    AfterDecisionsKeeps(rules, strategy, d, day, f.book);
    EndTold(rules, plan.flows, d, f, AfterDecisions(rules, strategy, d, day, f.book), next);
  }

  lemma StartTold(rules: Rules, plan: Plan, d: int)
    ensures Told(rules, plan.flows, d, Start(rules, plan))
  {
    PendingAscend(plan.flows);
    hide SortedInts;
  }

  lemma LaterTold(rules: Rules, flows: map<int, real>, d: int, later: int, st: State)
    requires Told(rules, flows, d, st) && d <= later
    ensures Told(rules, flows, later, st)
  {
    hide TapeTrue, Credits, FlowsIn;
  }

  /**
   In every reachable state the tape explains the cash, every flow on it was
   paid its scaled amount except that a withdrawal stops at the cash then on
   hand, and the record handed back holds, session by session, the sum of the
   flows paid.
   */
  lemma {:induction false} RunTold(rules: Rules, strategy: Strategy, plan: Plan, bars: Bars, n: nat, st: State)
    requires Universe(rules, bars) && n <= |Sessions(bars)|
    requires RunTo(rules, strategy, plan, bars, n) == Success(st)
    ensures TapeTrue(rules, plan.flows, st.scale, st.book)
    ensures Credits(st.applied, FlowsIn(st.book.tape))
    ensures n > 0 ==> Told(rules, plan.flows, Sessions(bars)[n - 1], st)
    decreases n
  {
    hide StepDay, Balanced, Day, Start, TapeTrue, Credits, DatedBy;
    if n == 0 {
      StartTold(rules, plan, 0);
    } else {
      hide FlowsIn;
      var d := Sessions(bars)[n - 1];
      var prev := RunTo(rules, strategy, plan, bars, n - 1).value;
      RunTold(rules, strategy, plan, bars, n - 1, prev);
      RunBalanced(rules, strategy, plan, bars, n - 1, prev);
      BalancedIsSound(rules, prev);
      DayInUniverse(rules, bars, d);
      if n > 1 {
        LaterTold(rules, plan.flows, Sessions(bars)[n - 2], d, prev);
      } else {
        StartTold(rules, plan, d);
      }
      StepTold(rules, strategy, plan, d, Day(bars, d), prev, st);
    }
  }
}
