/**
 Cash in the middle of a session: every book a session passes through, from the
 first write-off to the last decision, keeps the bound on cash.
 */
module ReplayPhases {
  import opened Basics
  import opened Market
  import opened Costs
  import opened Replay
  import opened ReplayBooks
  import opened ReplayFunding
  import opened ReplaySolvency

  // ---- The books of a session ----

  function AgedBook(day: map<Ticker, Bar>, b: Book): Book {
    b.(stale := Aged(day, b.stale))
  }

  function AtFlows(rules: Rules, d: int, day: map<Ticker, Bar>, st: State): State {
    st.(book := BeforeFlows(rules, d, day, st.book))
  }

  /** The first k pending flows are due, and can be scaled. */
  ghost predicate FlowsFall(d: int, st: State, k: nat) {
    k <= |st.pending| && (k > 0 ==> st.scale.Some?) && forall i :: 0 <= i < k ==> st.pending[i].day <= d
  }

  /** The state once the first k due flows are paid. */
  function FlowsPaid(d: int, st: State, k: nat): (r: State)
    requires k <= |st.pending| && (k > 0 ==> st.scale.Some?)
    ensures |r.pending| == |st.pending| - k && r.scale == st.scale
  {
    if k == 0 then st else FlowApplied(d, FlowsPaid(d, st, k - 1))
  }

  /** The book after the first k decisions of a session. */
  function DecidedSoFar(rules: Rules, strategy: Strategy, d: int, day: map<Ticker, Bar>, k: nat, b: Book): Book
    requires k <= |rules.tickers|
  {
    Decisions(rules, strategy, d, day, OutOfUniverse(rules, d, day, b), RunnerContext(b, rules.initial), k, b)
  }

  /** A book between the write-offs and the last fill. */
  ghost predicate PassesOvernight(rules: Rules, d: int, day: map<Ticker, Bar>, was: Book, b: Book) {
    var names, w, x := Names(rules), AfterWriteOffs(rules, d, day, was), AfterExits(rules, d, day, was);
    || (exists k: nat :: k <= |names| && b == WriteOffs(rules, d, names, k, AgedBook(day, was)))
    || (exists k: nat :: k <= |w.exitOrder| && b == WorkExits(rules, day, w.exitOrder, k, w))
    || (exists k: nat :: k <= |rules.tickers| && b == WorkEntries(rules, day, k, x))
  }

  /** A book between the first flow and the last decision. */
  ghost predicate PassesFunded(rules: Rules, strategy: Strategy, d: int, day: map<Ticker, Bar>, g: State, b: Book) {
    || (exists k: nat :: FlowsFall(d, g, k) && b == FlowsPaid(d, g, k).book)
    || (ApplyFlows(d, g).Success?
        && var f := ApplyFlows(d, g).value.book;
           exists k: nat :: k <= |rules.tickers| && b == DecidedSoFar(rules, strategy, d, day, k, f))
  }

  /** A book the session of day d passes through, one ticker, exit, entry, flow or decision at a time. */
  ghost predicate Passes(rules: Rules, strategy: Strategy, d: int, day: map<Ticker, Bar>, st: State, b: Book) {
    PassesOvernight(rules, d, day, st.book, b) || PassesFunded(rules, strategy, d, day, AtFlows(rules, d, day, st), b)
  }

  /** Cash is short of zero, or of a negative seed, by no more than the exits so far lost to commission. */
  ghost predicate AboveFloor(rules: Rules, b: Book) {
    b.cash >= Min(rules.initial, 0.0) - Shortfall(b)
  }

  lemma CoveredAbove(rules: Rules, b: Book)
    requires FundableRules(rules) && Sound(rules, b) && Covered(rules, b)
    ensures AboveFloor(rules, b)
  {
    CommittedNonNegative(rules, b);
  }

  lemma EntriesAbove(rules: Rules, day: map<Ticker, Bar>, k: nat, b: Book)
    requires k <= |rules.tickers| && Distinct(rules.tickers)
    requires FundableRules(rules) && Sound(rules, b) && Covered(rules, b)
    ensures AboveFloor(rules, WorkEntries(rules, day, k, b))
  {
    EntriesWithinReservations(rules, day, k, b);
    forall i | 0 <= i < |rules.tickers|
      ensures EntryCost(b.entries)(rules.tickers[i]) >= 0.0
    {
      EntryCostNonNegative(rules, b, rules.tickers[i]);
    }
    hide WorkEntries, Sound, FundableRules, Distinct;
    SumToAtMost(rules.tickers, k, |rules.tickers|, EntryCost(b.entries));
  }

  lemma FlowAbove(rules: Rules, d: int, st: State)
    requires st.pending != [] && st.scale.Some? && AboveFloor(rules, st.book)
    ensures AboveFloor(rules, FlowApplied(d, st).book)
  {
    FlowAmountSafe(st.pending[0].amount * st.scale.value, st.book.cash);
    ShortfallNonNegative(st.book.trades);
    hide FlowAmount, Credited, SeqSum;
  }

  lemma {:induction false} PaidAbove(rules: Rules, d: int, st: State, k: nat)
    requires k <= |st.pending| && (k > 0 ==> st.scale.Some?) && AboveFloor(rules, st.book)
    ensures AboveFloor(rules, FlowsPaid(d, st, k).book)
    decreases k
  {
    hide AboveFloor, FlowApplied;
    if k > 0 {
      PaidAbove(rules, d, st, k - 1);
      FlowAbove(rules, d, FlowsPaid(d, st, k - 1));
    }
  }

  lemma WriteOffsAbove(rules: Rules, d: int, k: nat, b: Book)
    requires k <= |Names(rules)| && Distinct(rules.tickers)
    requires FundableRules(rules) && Sound(rules, b) && Covered(rules, b)
    ensures AboveFloor(rules, WriteOffs(rules, d, Names(rules), k, b))
  {
    hide Sound, FundableRules, Distinct, Headroom, WriteOffs, Names, AboveFloor;
    WriteOffsHeadroom(rules, d, Names(rules), k, b);
    WriteOffsKeep(rules, d, Names(rules), k, b);
    CoveredAbove(rules, WriteOffs(rules, d, Names(rules), k, b));
  }

  lemma ExitsAbove(rules: Rules, day: map<Ticker, Bar>, k: nat, b: Book)
    requires k <= |b.exitOrder| && Distinct(rules.tickers)
    requires FundableRules(rules) && Sound(rules, b) && Covered(rules, b)
    ensures AboveFloor(rules, WorkExits(rules, day, b.exitOrder, k, b))
  {
    hide Sound, FundableRules, Distinct, Headroom, WorkExits, AboveFloor;
    WorkExitsHeadroom(rules, day, b.exitOrder, k, b);
    WorkExitsKeep(rules, day, b.exitOrder, k, b);
    CoveredAbove(rules, WorkExits(rules, day, b.exitOrder, k, b));
  }

  lemma DecidedAbove(rules: Rules, strategy: Strategy, d: int, day: map<Ticker, Bar>, k: nat, b: Book)
    requires k <= |rules.tickers| && Distinct(rules.tickers) && FundableRules(rules) && Sound(rules, b)
    requires day.Keys <= b.lastClose.Keys && Covered(rules, b) && b.entries == map[]
    ensures AboveFloor(rules, DecidedSoFar(rules, strategy, d, day, k, b))
    ensures Affordable(rules, DecidedSoFar(rules, strategy, d, day, k, b))
  {
    NothingAffordable(rules, b);
    hide Sound, FundableRules, Distinct, Affordable, Covered, Decisions, AboveFloor, OutOfUniverse, RunnerContext;
    var out, ctx := OutOfUniverse(rules, d, day, b), RunnerContext(b, rules.initial);
    DecisionsAffordable(rules, strategy, d, day, out, ctx, k, b);
    DecisionsKeep(rules, strategy, d, day, out, ctx, k, b);
    CoveredAbove(rules, DecidedSoFar(rules, strategy, d, day, k, b));
  }

  // ---- The bound at every step ----

  lemma AgedFit(rules: Rules, day: map<Ticker, Bar>, b: Book)
    requires Sound(rules, b) && Covered(rules, b)
    ensures Sound(rules, AgedBook(day, b)) && Covered(rules, AgedBook(day, b))
  {
    SoundAfterAging(rules, day, b);
    SameHeadroom(rules, b, AgedBook(day, b));
    hide Sound, Headroom;
  }

  /** The book the decisions are taken on is covered, current and has nothing queued to buy. */
  lemma FundedFit(rules: Rules, d: int, day: map<Ticker, Bar>, st: State)
    requires Distinct(rules.tickers) && FundableRules(rules) && day.Keys <= Elements(rules.tickers)
    requires Sound(rules, st.book) && Covered(rules, st.book)
    ensures Sound(rules, BeforeFlows(rules, d, day, st.book)) && Covered(rules, BeforeFlows(rules, d, day, st.book))
    ensures
      var g := AtFlows(rules, d, day, st);
      ApplyFlows(d, g).Success? ==>
        var f := ApplyFlows(d, g).value.book;
        Sound(rules, f) && Covered(rules, f) && f.entries == map[] && day.Keys <= f.lastClose.Keys
  {
    hide Sound, FundableRules, Distinct, Covered, BeforeFlows, ApplyFlows, Injected, UnmatchedFills;
    BeforeFlowsCovered(rules, d, day, st.book);
    BeforeFlowsKeeps(rules, d, day, st.book);
    var g := AtFlows(rules, d, day, st);
    if ApplyFlows(d, g).Success? {
      FlowsCovered(rules, d, g);
      FlowsKeep(rules, d, g);
      FlowsBalance(rules, d, g);
    }
  }

  lemma OvernightAbove(rules: Rules, d: int, day: map<Ticker, Bar>, was: Book, b: Book)
    requires Distinct(rules.tickers) && FundableRules(rules) && day.Keys <= Elements(rules.tickers)
    requires Sound(rules, was) && Covered(rules, was) && PassesOvernight(rules, d, day, was, b)
    ensures AboveFloor(rules, b)
  {
    var names, w, x := Names(rules), AfterWriteOffs(rules, d, day, was), AfterExits(rules, d, day, was);
    AgedFit(rules, day, was);
    BeforeFlowsCovered(rules, d, day, was);
    OvernightKeeps(rules, d, day, was);
    hide Sound, FundableRules, Distinct, Covered, AboveFloor, Names, AfterWriteOffs, AfterExits, WriteOffs, WorkExits,
         WorkEntries, AgedBook, BeforeFlows, Injected, UnmatchedFills;
    if k: nat :| k <= |names| && b == WriteOffs(rules, d, names, k, AgedBook(day, was)) {
      WriteOffsAbove(rules, d, k, AgedBook(day, was));
    } else if k: nat :| k <= |w.exitOrder| && b == WorkExits(rules, day, w.exitOrder, k, w) {
      ExitsAbove(rules, day, k, w);
    } else {
      var k: nat :| k <= |rules.tickers| && b == WorkEntries(rules, day, k, x);
      EntriesAbove(rules, day, k, x);
    }
  }

  lemma FundedAbove(rules: Rules, strategy: Strategy, d: int, day: map<Ticker, Bar>, st: State, b: Book)
    requires Distinct(rules.tickers) && FundableRules(rules) && day.Keys <= Elements(rules.tickers)
    requires Sound(rules, st.book) && Covered(rules, st.book)
    requires PassesFunded(rules, strategy, d, day, AtFlows(rules, d, day, st), b)
    ensures AboveFloor(rules, b)
  {
    var g := AtFlows(rules, d, day, st);
    FundedFit(rules, d, day, st);
    GatedAbove(rules, d, day, st);
    hide Sound, FundableRules, Distinct, Covered, AboveFloor, AtFlows, ApplyFlows, FlowsPaid, DecidedSoFar, Affordable;
    if k: nat :| FlowsFall(d, g, k) && b == FlowsPaid(d, g, k).book {
      PaidAbove(rules, d, g, k);
    } else {
      var f := ApplyFlows(d, g).value.book;
      var k: nat :| k <= |rules.tickers| && b == DecidedSoFar(rules, strategy, d, day, k, f);
      DecidedAbove(rules, strategy, d, day, k, f);
    }
  }

  lemma GatedAbove(rules: Rules, d: int, day: map<Ticker, Bar>, st: State)
    requires FundableRules(rules)
    requires Sound(rules, BeforeFlows(rules, d, day, st.book)) && Covered(rules, BeforeFlows(rules, d, day, st.book))
    ensures AboveFloor(rules, AtFlows(rules, d, day, st).book)
  {
    hide Sound, FundableRules, Covered, AboveFloor, BeforeFlows;
    CoveredAbove(rules, BeforeFlows(rules, d, day, st.book));
  }

  lemma PassesAbove(rules: Rules, strategy: Strategy, d: int, day: map<Ticker, Bar>, st: State, b: Book)
    requires Distinct(rules.tickers) && FundableRules(rules) && day.Keys <= Elements(rules.tickers)
    requires Sound(rules, st.book) && Covered(rules, st.book) && Passes(rules, strategy, d, day, st, b)
    ensures AboveFloor(rules, b)
  {
    hide Sound, FundableRules, Distinct, Covered, AboveFloor, PassesOvernight, PassesFunded, AtFlows;
    if PassesOvernight(rules, d, day, st.book, b) {
      OvernightAbove(rules, d, day, st.book, b);
    } else {
      FundedAbove(rules, strategy, d, day, st, b);
    }
  }

  // ---- Where every price reaches the floor ----

  lemma {:induction false} PaidSolid(rules: Rules, d: int, st: State, k: nat)
    requires k <= |st.pending| && (k > 0 ==> st.scale.Some?) && Solid(rules, st.book)
    ensures Solid(rules, FlowsPaid(d, st, k).book)
    decreases k
  {
    if k > 0 {
      PaidSolid(rules, d, st, k - 1);
      SameSolid(rules, FlowsPaid(d, st, k - 1).book, FlowsPaid(d, st, k).book);
    }
  }

  lemma OvernightSolid(rules: Rules, d: int, day: map<Ticker, Bar>, was: Book, b: Book)
    requires rules.costs.minimum >= 0.0 && Solid(rules, was) && DayCovers(rules, day)
    requires PassesOvernight(rules, d, day, was, b)
    ensures Solid(rules, b)
  {
    var names, w, x := Names(rules), AfterWriteOffs(rules, d, day, was), AfterExits(rules, d, day, was);
    SameSolid(rules, was, AgedBook(day, was));
    hide Solid, DayCovers, Names, Aged, WriteOffs, WorkExits, WorkEntries;
    WriteOffsSolid(rules, d, names, |names|, AgedBook(day, was));
    WorkExitsSolid(rules, day, w.exitOrder, |w.exitOrder|, w);
    hide AfterWriteOffs, AfterExits, AgedBook;
    if k: nat :| k <= |names| && b == WriteOffs(rules, d, names, k, AgedBook(day, was)) {
      WriteOffsSolid(rules, d, names, k, AgedBook(day, was));
    } else if k: nat :| k <= |w.exitOrder| && b == WorkExits(rules, day, w.exitOrder, k, w) {
      WorkExitsSolid(rules, day, w.exitOrder, k, w);
    } else {
      var k: nat :| k <= |rules.tickers| && b == WorkEntries(rules, day, k, x);
      WorkEntriesSolid(rules, day, k, x);
    }
  }

  lemma FundedSolid(rules: Rules, strategy: Strategy, d: int, day: map<Ticker, Bar>, g: State, b: Book)
    requires Solid(rules, g.book) && PassesFunded(rules, strategy, d, day, g, b)
    ensures Solid(rules, b)
  {
    hide Solid, ApplyFlows, FlowsPaid, Decisions, OutOfUniverse, RunnerContext;
    if k: nat :| FlowsFall(d, g, k) && b == FlowsPaid(d, g, k).book {
      PaidSolid(rules, d, g, k);
    } else {
      var f := ApplyFlows(d, g).value.book;
      var k: nat :| k <= |rules.tickers| && b == DecidedSoFar(rules, strategy, d, day, k, f);
      FlowsKeep(rules, d, g);
      SameSolid(rules, g.book, f);
      DecisionsSolid(rules, strategy, d, day, OutOfUniverse(rules, d, day, f), RunnerContext(f, rules.initial), k, f);
    }
  }

  lemma PassesSolid(rules: Rules, strategy: Strategy, d: int, day: map<Ticker, Bar>, st: State, b: Book)
    requires rules.costs.minimum >= 0.0 && Solid(rules, st.book) && DayCovers(rules, day)
    requires Passes(rules, strategy, d, day, st, b)
    ensures Solid(rules, b)
  {
    hide Solid, DayCovers, PassesOvernight, PassesFunded, BeforeFlows;
    if PassesOvernight(rules, d, day, st.book, b) {
      OvernightSolid(rules, d, day, st.book, b);
    } else {
      BeforeFlowsSolid(rules, d, day, st.book);
      FundedSolid(rules, strategy, d, day, AtFlows(rules, d, day, st), b);
    }
  }

  lemma AboveSolvent(rules: Rules, b: Book)
    requires AboveFloor(rules, b) && Solid(rules, b) && rules.initial >= 0.0
    ensures b.cash >= 0.0
  {
    NoShortfall(b.trades);
  }

  // ---- Runs ----

  /**
   Funding safety at every step of every session of every run: cash keeps its
   bound after each write-off, exit, fill, flow and decision, and after each
   decision everything queued so far is affordable. Where every open and close
   reaches the floor, cash is never negative anywhere.
   */
  lemma CashThroughout(rules: Rules, strategy: Strategy, plan: Plan, bars: Bars, n: nat, st: State)
    requires Universe(rules, bars) && FundableRules(rules) && n < |Sessions(bars)|
    requires RunTo(rules, strategy, plan, bars, n) == Success(st)
    ensures
      var d := Sessions(bars)[n];
      var day := Day(bars, d);
      && (forall b :: Passes(rules, strategy, d, day, st, b) ==> AboveFloor(rules, b))
      && (ApplyFlows(d, AtFlows(rules, d, day, st)).Success? ==>
            var f := ApplyFlows(d, AtFlows(rules, d, day, st)).value.book;
            forall k: nat :: k <= |rules.tickers| ==> Affordable(rules, DecidedSoFar(rules, strategy, d, day, k, f)))
      && (rules.initial >= 0.0 && PricesCover(rules, bars) ==>
            forall b :: Passes(rules, strategy, d, day, st, b) ==> b.cash >= 0.0)
  {
    var d := Sessions(bars)[n];
    var day := Day(bars, d);
    hide RunTo, Day, Passes, AboveFloor, Affordable, Covered, Balanced, Sound, DecidedSoFar, ApplyFlows, AtFlows,
         FundableRules,
         Distinct, PricesCover, Solid, DayCovers;
    RunCovered(rules, strategy, plan, bars, n, st);
    RunBalanced(rules, strategy, plan, bars, n, st);
    BalancedIsSound(rules, st);
    DayInUniverse(rules, bars, d);
    forall b | Passes(rules, strategy, d, day, st, b)
      ensures AboveFloor(rules, b)
    {
      PassesAbove(rules, strategy, d, day, st, b);
    }
    FundedFit(rules, d, day, st);
    var g := AtFlows(rules, d, day, st);
    if ApplyFlows(d, g).Success? {
      forall k: nat | k <= |rules.tickers|
        ensures Affordable(rules, DecidedSoFar(rules, strategy, d, day, k, ApplyFlows(d, g).value.book))
      {
        DecidedAbove(rules, strategy, d, day, k, ApplyFlows(d, g).value.book);
      }
    }
    if rules.initial >= 0.0 && PricesCover(rules, bars) {
      FundableMinimum(rules);
      RunSolid(rules, strategy, plan, bars, n, st);
      DayCovered(rules, bars, d);
      forall b | Passes(rules, strategy, d, day, st, b)
        ensures b.cash >= 0.0
      {
        PassesSolid(rules, strategy, d, day, st, b);
        AboveSolvent(rules, b);
      }
    }
  }

  lemma FundableMinimum(rules: Rules)
    requires FundableRules(rules)
    ensures rules.costs.minimum >= 0.0
  {
  }
}
