/**
 Funding safety: what is queued is always affordable, and cash falls below zero
 only by what exit commissions take beyond the value of the exits.
 */
module ReplayFunding {
  import opened Basics
  import opened Market
  import opened Costs
  import opened Replay
  import opened ReplayBooks

  /** Commissions are not negative and slippage never turns a price negative. */
  ghost predicate FundableRules(rules: Rules) {
    rules.costs.minimum >= 0.0 && forall t :: SlippageFor(rules.costs, t) >= -10000.0
  }

  /** How far an exit's commission exceeds its value. */
  function Excess(tr: Trade): real {
    Max(0.0, -CashRaised(tr))
  }

  function Shortfall(b: Book): real {
    SeqSum(b.trades, Excess)
  }

  /** What is left of cash, allowing for the shortfall so far, once every queued entry has taken its worst case. */
  function Headroom(rules: Rules, b: Book): real {
    b.cash + Shortfall(b) - Committed(rules, b)
  }

  ghost predicate Covered(rules: Rules, b: Book) {
    Headroom(rules, b) >= Min(rules.initial, 0.0)
  }

  /** Whatever is queued could be paid for from the cash on hand. */
  ghost predicate Affordable(rules: Rules, b: Book) {
    b.entries != map[] ==> Committed(rules, b) <= b.cash
  }

  lemma {:induction false} ShortfallNonNegative(trades: seq<Trade>)
    ensures SeqSum(trades, Excess) >= 0.0
  {
    if trades != [] {
      ShortfallNonNegative(trades[..|trades| - 1]);
    }
  }

  lemma EntryCostNonNegative(rules: Rules, b: Book, t: Ticker)
    requires FundableRules(rules) && Sound(rules, b)
    ensures EntryCost(b.entries)(t) >= 0.0
  {
    if t in b.entries {
      ReservationNonNegative(b.entries[t].quantity, b.entries[t].limit, TermsFor(rules, t));
    }
  }

  lemma CommittedNonNegative(rules: Rules, b: Book)
    requires FundableRules(rules) && Sound(rules, b)
    ensures Committed(rules, b) >= 0.0
  {
    hide Sound, FundableRules;
    forall t
      ensures EntryCost(b.entries)(t) >= 0.0
    {
      EntryCostNonNegative(rules, b, t);
    }
    SumNonNegative(rules.tickers, |rules.tickers|, EntryCost(b.entries));
  }

  /** Replacing the queue at one ticker changes what is committed by the difference at most. */
  lemma CommittedChange(rules: Rules, b: Book, c: Book, t: Ticker)
    requires Distinct(rules.tickers)
    requires forall x :: x != t ==> EntryCost(c.entries)(x) == EntryCost(b.entries)(x)
    ensures Committed(rules, c) == Committed(rules, b)
            + if t in rules.tickers then EntryCost(c.entries)(t) - EntryCost(b.entries)(t) else 0.0
  {
    var ts := rules.tickers;
    assert ts[..|ts|] == ts;
    SumChange(ts, |ts|, EntryCost(b.entries), EntryCost(c.entries), t);
  }

  // ---- Exits never eat into headroom ----

  lemma {:induction false} ClosingCovers(trades: seq<Trade>)
    ensures SeqSum(trades, CashRaised) + SeqSum(trades, Excess) >= 0.0
  {
    if trades != [] {
      ClosingCovers(trades[..|trades| - 1]);
    }
  }

  lemma CloseHeadroom(rules: Rules, b: Book, t: Ticker, price: real, d: int, reason: string)
    requires t in b.positions
    ensures Headroom(rules, ClosePosition(rules.costs, b, t, price, d, reason)) >= Headroom(rules, b)
  {
    var closed := ClosedTrades(rules.costs, t, b.positions[t], price, d, reason);
    hide ClosedTrades, Committed, CashRaised, Excess, SoldEvents;
    SeqSumConcat(b.trades, closed, Excess);
    ClosingCovers(closed);
  }

  lemma SameHeadroom(rules: Rules, b: Book, c: Book)
    requires b.cash == c.cash && b.trades == c.trades && b.entries == c.entries
    ensures Headroom(rules, b) == Headroom(rules, c)
  {
  }

  lemma DroppedEntry(rules: Rules, b: Book, t: Ticker)
    requires Distinct(rules.tickers) && FundableRules(rules) && Sound(rules, b)
    ensures Headroom(rules, DropExit(b.(entries := b.entries - {t}), t)) >= Headroom(rules, b)
  {
    hide Sound, FundableRules, Distinct, Committed, Without;
    EntryCostNonNegative(rules, b, t);
    CommittedChange(rules, b, DropExit(b.(entries := b.entries - {t}), t), t);
  }

  lemma WriteOffHeadroom(rules: Rules, d: int, t: Ticker, b: Book)
    requires Distinct(rules.tickers) && FundableRules(rules) && Sound(rules, b)
    ensures Headroom(rules, WriteOff(rules, d, t, b)) >= Headroom(rules, b)
  {
    DroppedEntry(rules, b, t);
    hide Sound, FundableRules, Distinct, Headroom, Without, ClosePosition, ExitReason;
    if t in b.positions && t in b.lastClose {
      CloseHeadroom(rules, DropExit(b.(entries := b.entries - {t}), t), t,
                    FillTerminalExit(rules.costs, 0.0, b.lastClose[t], d, t).price, d, ExitReason(b, t));
    }
  }

  lemma {:induction false} WriteOffsHeadroom(rules: Rules, d: int, names: seq<Ticker>, n: nat, b: Book)
    requires n <= |names| && Distinct(rules.tickers) && FundableRules(rules) && Sound(rules, b)
    ensures Headroom(rules, WriteOffs(rules, d, names, n, b)) >= Headroom(rules, b)
  {
    hide Sound, FundableRules, Distinct, Headroom, WriteOff;
    if n > 0 {
      WriteOffsHeadroom(rules, d, names, n - 1, b);
      WriteOffsKeep(rules, d, names, n - 1, b);
      WriteOffHeadroom(rules, d, names[n - 1], WriteOffs(rules, d, names, n - 1, b));
    }
  }

  lemma WorkExitHeadroom(rules: Rules, day: map<Ticker, Bar>, t: Ticker, b: Book)
    ensures Headroom(rules, WorkExit(rules, day, t, b)) >= Headroom(rules, b)
  {
    var dropped := DropExit(b, t);
    SameHeadroom(rules, b, dropped);
    hide Headroom, ClosePosition, Without;
    if t in day && t in b.exits && t in b.positions {
      var f := FillMarketExit(rules.costs, 0.0, day[t], t);
      CloseHeadroom(rules, dropped, t, f.price, f.date, b.exits[t]);
    }
  }

  lemma {:induction false} WorkExitsHeadroom(rules: Rules, day: map<Ticker, Bar>, order: seq<Ticker>, n: nat, b: Book)
    requires n <= |order|
    ensures Headroom(rules, WorkExits(rules, day, order, n, b)) >= Headroom(rules, b)
  {
    hide Headroom, WorkExit;
    if n > 0 {
      WorkExitsHeadroom(rules, day, order, n - 1, b);
      WorkExitHeadroom(rules, day, order[n - 1], WorkExits(rules, day, order, n - 1, b));
    }
  }

  // ---- Each fill takes at most its reservation ----

  lemma EntryWithinReservation(rules: Rules, day: map<Ticker, Bar>, t: Ticker, b: Book)
    requires FundableRules(rules) && Sound(rules, b)
    ensures
      var c := WorkEntry(rules, day, t, b);
      c.cash >= b.cash - EntryCost(b.entries)(t) && c.trades == b.trades && c.entries == b.entries
  {
    EntryCostNonNegative(rules, b, t);
    if t in b.entries && t in day {
      var e := b.entries[t];
      assert SlippageFor(rules.costs, t) >= -10000.0;
      hide FundableRules;
      if TryFillLimitEntry(rules.costs, e.limit, e.quantity, day[t], t).Some? {
        FillWithinReservation(rules.costs, e.limit, e.quantity, day[t], t, BufferFor(rules, t));
        assert e.cashCost == SleeveBuyCost(e.quantity, e.limit, TermsFor(rules, t));
        hide SleeveBuyCost, Sound, TryFillLimitEntry;
      }
    }
  }

  lemma {:induction false} EntriesWithinReservations(rules: Rules, day: map<Ticker, Bar>, n: nat, b: Book)
    requires n <= |rules.tickers| && Distinct(rules.tickers) && FundableRules(rules) && Sound(rules, b)
    ensures
      var c := WorkEntries(rules, day, n, b);
      && c.cash >= b.cash - SumTo(rules.tickers, n, EntryCost(b.entries))
      && c.trades == b.trades && c.entries == b.entries
  {
    hide FundableRules, Sound, WorkEntry, Distinct;
    if n > 0 {
      EntriesWithinReservations(rules, day, n - 1, b);
      WorkEntriesKeep(rules, day, n - 1, b);
      EntryWithinReservation(rules, day, rules.tickers[n - 1], WorkEntries(rules, day, n - 1, b));
    }
  }

  lemma NothingCommitted(rules: Rules, b: Book)
    requires b.entries == map[]
    ensures Committed(rules, b) == 0.0
  {
    SumAgree(rules.tickers, |rules.tickers|, EntryCost(b.entries), (t: Ticker) => 0.0);
    SumZero(rules.tickers, |rules.tickers|);
  }

  /** Working and expiring the entries: their worst case was already allowed for. */
  lemma EntriesHeadroom(rules: Rules, day: map<Ticker, Bar>, b: Book)
    requires Distinct(rules.tickers) && FundableRules(rules) && Sound(rules, b)
    ensures Headroom(rules, Expired(WorkEntries(rules, day, |rules.tickers|, b))) >= Headroom(rules, b)
  {
    EntriesWithinReservations(rules, day, |rules.tickers|, b);
    hide WorkEntries, Sound, FundableRules, Distinct, EntryCost;
    NothingCommitted(rules, Expired(WorkEntries(rules, day, |rules.tickers|, b)));
  }

  // ---- Decisions ----

  /** An entry is queued only within the cash left by the entries queued before it. */
  lemma BuyAffordable(rules: Rules, d: int, day: map<Ticker, Bar>, t: Ticker, s: Signal, b: Book)
    requires OutcomeOf(rules, d, day, t, s, b).Queued?
    ensures OutcomeOf(rules, d, day, t, s, b).entry.cashCost <= b.cash - Max(0.0, Committed(rules, b))
  {
    hide Query, Committed, Trunc, TermsFor;
    var q := if rules.wholeShares then Trunc(rules.risk(Query(rules, day, t, s, b)).quantity) as real
             else rules.risk(Query(rules, day, t, s, b)).quantity;
    var terms := TermsFor(rules, t);
    var cash := Sizing(q, s.limit, b.cash, Committed(rules, b), terms, rules.wholeShares);
    SizingIsGreatestFit(q, s.limit, b.cash, Committed(rules, b), terms, rules.wholeShares);
    hide Sizing, SleeveBuyCost;
    ClampedCostsMore(cash.quantity, s.limit, terms);
  }

  lemma BuyKeepsAffordable(rules: Rules, d: int, day: map<Ticker, Bar>, t: Ticker, s: Signal, b: Book)
    requires Distinct(rules.tickers) && FundableRules(rules) && Sound(rules, b) && t in rules.tickers
    requires Affordable(rules, b) && Covered(rules, b)
    ensures Affordable(rules, DecideBuy(rules, d, day, t, s, b)) && Covered(rules, DecideBuy(rules, d, day, t, s, b))
  {
    EntryCostNonNegative(rules, b, t);
    ShortfallNonNegative(b.trades);
    var o, c := OutcomeOf(rules, d, day, t, s, b), DecideBuy(rules, d, day, t, s, b);
    if o.Queued? {
      BuyAffordable(rules, d, day, t, s, b);
      hide Sound, FundableRules, Distinct, OutcomeOf, Committed, Tallied, SeqSum;
      CommittedChange(rules, b, c, t);
    } else {
      hide Sound, FundableRules, Distinct, OutcomeOf, Committed, Tallied;
      SameHeadroom(rules, b, c);
      SameCommitted(rules, b, c);
    }
  }

  lemma ExitKeepsAffordable(rules: Rules, t: Ticker, reason: string, b: Book)
    requires Affordable(rules, b) && Covered(rules, b)
    ensures Affordable(rules, QueueExit(b, t, reason)) && Covered(rules, QueueExit(b, t, reason))
  {
    hide Committed;
    SameHeadroom(rules, b, QueueExit(b, t, reason));
    SameCommitted(rules, b, QueueExit(b, t, reason));
  }

  lemma DecideAffordable(rules: Rules, strategy: Strategy, d: int, day: map<Ticker, Bar>, out: set<Ticker>,
                         ctx: Context,
                         t: Ticker, b: Book)
    requires Distinct(rules.tickers) && FundableRules(rules) && Sound(rules, b) && t in rules.tickers
    requires Affordable(rules, b) && Covered(rules, b)
    ensures Affordable(rules, Decide(rules, strategy, d, day, out, ctx, t, b))
    ensures Covered(rules, Decide(rules, strategy, d, day, out, ctx, t, b))
  {
    hide Sound, FundableRules, Distinct, DecideBuy, QueueExit, Affordable, Covered;
    if t in day && t !in out {
      var signal := strategy(t, HistoryOf(b, t), ctx);
      if signal.Some? {
        BuyKeepsAffordable(rules, d, day, t, signal.value, b);
        ExitKeepsAffordable(rules, t, signal.value.reason, b);
      }
    }
  }

  lemma SameCommitted(rules: Rules, b: Book, c: Book)
    requires b.entries == c.entries
    ensures Committed(rules, b) == Committed(rules, c)
  {
  }

  /** After every single decision, everything queued so far is affordable. */
  lemma {:induction false} DecisionsAffordable(rules: Rules, strategy: Strategy, d: int, day: map<Ticker, Bar>,
                                               out: set<Ticker>, ctx: Context, n: nat, b: Book)
    requires n <= |rules.tickers| && Distinct(rules.tickers) && FundableRules(rules) && Sound(rules, b)
    requires day.Keys <= b.lastClose.Keys && Affordable(rules, b) && Covered(rules, b)
    ensures Affordable(rules, Decisions(rules, strategy, d, day, out, ctx, n, b))
    ensures Covered(rules, Decisions(rules, strategy, d, day, out, ctx, n, b))
  {
    hide Sound, FundableRules, Distinct, Affordable, Covered, Decide;
    if n > 0 {
      DecisionsAffordable(rules, strategy, d, day, out, ctx, n - 1, b);
      DecisionsKeep(rules, strategy, d, day, out, ctx, n - 1, b);
      DecideAffordable(rules, strategy, d, day, out, ctx, rules.tickers[n - 1],
                       Decisions(rules, strategy, d, day, out, ctx, n - 1, b));
    }
  }

  // ---- Flows ----

  /** A withdrawal never takes cash below zero. */
  lemma FlowAmountSafe(raw: real, cash: real)
    ensures cash + FlowAmount(raw, cash) >= Min(cash, 0.0)
    ensures raw >= 0.0 ==> FlowAmount(raw, cash) == raw
    ensures raw < 0.0 ==> raw <= FlowAmount(raw, cash) <= 0.0
    ensures raw < 0.0 && cash + raw >= 0.0 ==> FlowAmount(raw, cash) == raw
  {
  }

  lemma {:induction false} FlowsCovered(rules: Rules, d: int, st: State)
    requires ApplyFlows(d, st).Success? && st.book.entries == map[] && Covered(rules, st.book)
    ensures Covered(rules, ApplyFlows(d, st).value.book)
    decreases |st.pending|
  {
    if st.pending != [] && st.pending[0].day <= d {
      var next := FlowApplied(d, st);
      FlowAmountSafe(st.pending[0].amount * st.scale.value, st.book.cash);
      ShortfallNonNegative(st.book.trades);
      NothingCommitted(rules, st.book);
      NothingCommitted(rules, next.book);
      hide FlowAmount, Credited, Committed;
      assert Covered(rules, next.book);
      FlowsCovered(rules, d, next);
    }
  }

  // ---- Runs ----

  lemma BeforeFlowsCovered(rules: Rules, d: int, day: map<Ticker, Bar>, b: Book)
    requires Distinct(rules.tickers) && FundableRules(rules) && Sound(rules, b) && Covered(rules, b)
    ensures Covered(rules, AfterWriteOffs(rules, d, day, b))
    ensures Covered(rules, AfterExits(rules, d, day, b))
    ensures Covered(rules, BeforeFlows(rules, d, day, b))
  {
    hide Sound, FundableRules, Distinct, Headroom, WriteOffs, WorkExits, WorkEntries, Recorded, Gate, Names, Aged,
         Injected,
         UnmatchedFills;
    var names := Names(rules);
    var aged := b.(stale := Aged(day, b.stale));
    SameHeadroom(rules, b, aged);
    SoundAfterAging(rules, day, b);
    WriteOffsHeadroom(rules, d, names, |names|, aged);
    OvernightKeeps(rules, d, day, b);
    var w := AfterWriteOffs(rules, d, day, b);
    WorkExitsHeadroom(rules, day, w.exitOrder, |w.exitOrder|, w);
    EntriesHeadroom(rules, day, AfterExits(rules, d, day, b));
    var e := Expired(AfterEntries(rules, d, day, b));
    RecordedSame(day, e);
    SameHeadroom(rules, e, Recorded(day, e));
    GateSame(rules, d, names, |names|, Recorded(day, e));
    SameHeadroom(rules, Recorded(day, e), BeforeFlows(rules, d, day, b));
  }

  lemma SoundAfterAging(rules: Rules, day: map<Ticker, Bar>, b: Book)
    requires Sound(rules, b)
    ensures Sound(rules, b.(stale := Aged(day, b.stale)))
  {
    hide SleeveBuyCost, TermsFor;
  }

  lemma RecordedSame(day: map<Ticker, Bar>, b: Book)
    ensures
      var c := Recorded(day, b);
      c.cash == b.cash && c.trades == b.trades && c.entries == b.entries && c.positions == b.positions
      && c.exits == b.exits && c.funnel == b.funnel && c.tape == b.tape
  {
  }

  lemma StepCovered(rules: Rules, strategy: Strategy, basis: Option<DatedSum>, d: int, day: map<Ticker, Bar>,
                    st: State, next: State)
    requires Distinct(rules.tickers) && FundableRules(rules) && day.Keys <= Elements(rules.tickers)
    requires Sound(rules, st.book) && Covered(rules, st.book)
    requires StepDay(rules, strategy, basis, d, day, st) == Success(next)
    ensures Covered(rules, next.book) && Affordable(rules, next.book)
  {
    hide Sound, FundableRules, Distinct, Covered, BeforeFlows, Decisions, Nav, LearnedScale, ApplyFlows, Injected,
         UnmatchedFills, Affordable, OutOfUniverse, RunnerContext;
    BeforeFlowsCovered(rules, d, day, st.book);
    BeforeFlowsKeeps(rules, d, day, st.book);
    var gated := st.(book := BeforeFlows(rules, d, day, st.book));
    FlowsCovered(rules, d, gated);
    FlowsKeep(rules, d, gated);
    FlowsBalance(rules, d, gated);
    var f := ApplyFlows(d, gated).value.book;
    NothingAffordable(rules, f);
    DecisionsAffordable(rules, strategy, d, day, OutOfUniverse(rules, d, day, f), RunnerContext(f, rules.initial),
                        |rules.tickers|, f);
    ClosedSame(rules, day, AfterDecisions(rules, strategy, d, day, f));
  }

  lemma NothingAffordable(rules: Rules, b: Book)
    requires b.entries == map[]
    ensures Affordable(rules, b)
  {
  }

  lemma ClosedSame(rules: Rules, day: map<Ticker, Bar>, b: Book)
    requires Covered(rules, b) && Affordable(rules, b)
    ensures Covered(rules, Closed(day, b)) && Affordable(rules, Closed(day, b))
  {
    SameHeadroom(rules, b, Closed(day, b));
    SameCommitted(rules, b, Closed(day, b));
  }

  lemma {:induction false} RunCovered(rules: Rules, strategy: Strategy, plan: Plan, bars: Bars, n: nat, st: State)
    requires Universe(rules, bars) && FundableRules(rules) && n <= |Sessions(bars)|
    requires RunTo(rules, strategy, plan, bars, n) == Success(st)
    ensures Covered(rules, st.book) && Affordable(rules, st.book)
  {
    hide StepDay, Balanced, Covered, Affordable, Day, FundableRules;
    if n == 0 {
      StartCovered(rules, plan);
    } else {
      var d := Sessions(bars)[n - 1];
      var prev := RunTo(rules, strategy, plan, bars, n - 1).value;
      RunCovered(rules, strategy, plan, bars, n - 1, prev);
      RunBalanced(rules, strategy, plan, bars, n - 1, prev);
      DayInUniverse(rules, bars, d);
      BalancedIsSound(rules, prev);
      StepCovered(rules, strategy, plan.basis, d, Day(bars, d), prev, st);
    }
  }

  lemma StartCovered(rules: Rules, plan: Plan)
    ensures Covered(rules, Start(rules, plan).book) && Affordable(rules, Start(rules, plan).book)
  {
    NothingCommitted(rules, EmptyBook(rules));
  }

  /**
   Funding safety over whole runs: whatever is queued is affordable, and cash
   is short of zero by at most the exit commissions that exceeded their exits.
   */
  lemma CashBound(rules: Rules, strategy: Strategy, plan: Plan, bars: Bars, n: nat, st: State)
    requires Universe(rules, bars) && FundableRules(rules) && n <= |Sessions(bars)|
    requires RunTo(rules, strategy, plan, bars, n) == Success(st)
    ensures st.book.entries != map[] ==> Committed(rules, st.book) <= st.book.cash
    ensures st.book.cash >= Min(rules.initial, 0.0) - Shortfall(st.book)
    ensures rules.initial >= 0.0 && (forall tr :: tr in st.book.trades ==> CashRaised(tr) >= 0.0)
            ==> st.book.cash >= 0.0
  {
    hide RunTo, Balanced, Committed, Sound;
    RunCovered(rules, strategy, plan, bars, n, st);
    RunBalanced(rules, strategy, plan, bars, n, st);
    BalancedIsSound(rules, st);
    CommittedNonNegative(rules, st.book);
    if forall tr :: tr in st.book.trades ==> CashRaised(tr) >= 0.0 {
      NoShortfall(st.book.trades);
    }
  }

  lemma {:induction false} NoShortfall(trades: seq<Trade>)
    requires forall tr :: tr in trades ==> CashRaised(tr) >= 0.0
    ensures SeqSum(trades, Excess) == 0.0
  {
    if trades != [] {
      NoShortfall(trades[..|trades| - 1]);
    }
  }
}
