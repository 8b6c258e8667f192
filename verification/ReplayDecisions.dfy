/**
 What a session's decisions come to, said without naming how they are taken:
 which exits are queued and why, what a strategy and the risk check are told, and
 where each buy signal ends.
 */
module ReplayDecisions {
  import opened Basics
  import opened Market
  import opened Costs
  import opened Replay
  import opened ReplayBooks
  import opened ReplayLifecycle
  import opened ReplayAccounts
  import opened ReplaySessions

  // ---- Exits ----

  lemma {:induction false} GateExits(rules: Rules, d: int, names: seq<Ticker>, n: nat, b: Book, x: Ticker)
    requires n <= |names|
    ensures
      var c, leaving := Gate(rules, d, names, n, b), x in names[..n] && !rules.member(x, d) && x in b.positions;
      && (x in c.exits <==> x in b.exits || leaving) && c.positions == b.positions
      && (x in c.exits ==> c.exits[x] == if x in b.exits then b.exits[x] else "universe_removal")
  {
    if n > 0 {
      assert names[..n] == names[..n - 1] + [names[n - 1]];
      GateExits(rules, d, names, n - 1, b, x);
    }
  }

  /** What a strategy answers of a ticker on a session's book. */
  function AnswerOf(rules: Rules, strategy: Strategy, b: Book, t: Ticker): Option<Signal> {
    strategy(t, HistoryOf(b, t), RunnerContext(b, rules.initial))
  }

  /** A held member prints and the strategy sells it. */
  predicate SoldBy(rules: Rules, strategy: Strategy, d: int, day: map<Ticker, Bar>, b: Book, t: Ticker) {
    && t in day && rules.member(t, d) && t in b.positions
    && AnswerOf(rules, strategy, b, t).Some? && AnswerOf(rules, strategy, b, t).value.action == Sell
  }

  /** One decision's effect on the exits. */
  lemma DecideExits(rules: Rules, strategy: Strategy, d: int, day: map<Ticker, Bar>, out: set<Ticker>, ctx: Context,
                    t: Ticker, b: Book)
    ensures
      var c, a := Decide(rules, strategy, d, day, out, ctx, t, b), strategy(t, HistoryOf(b, t), ctx);
      var sold := t in day && t !in out && a.Some? && a.value.action == Sell && t in b.positions;
      && c.positions == b.positions && c.history == b.history
      && c.exits == if sold && t !in b.exits then b.exits[t := a.value.reason] else b.exits
  {
    var a := strategy(t, HistoryOf(b, t), ctx);
    if a.Some? {
      BuyKeepsExits(rules, d, day, t, a.value, b);
    }
    hide DecideBuy;
  }

  lemma {:induction false} DecisionsExits(rules: Rules, strategy: Strategy, d: int, day: map<Ticker, Bar>, n: nat,
                                          b: Book,
                                          x: Ticker)
    requires n <= |rules.tickers| && Distinct(rules.tickers)
    ensures
      var out, ctx := OutOfUniverse(rules, d, day, b), RunnerContext(b, rules.initial);
      var c, sold := Decisions(rules, strategy, d, day, out, ctx, n, b),
                     x in rules.tickers[..n] && SoldBy(rules, strategy, d, day, b, x);
      && (x in c.exits <==> x in b.exits || sold)
      && (x in c.exits ==>
            c.exits[x] == if x in b.exits then b.exits[x] else AnswerOf(rules, strategy, b, x).value.reason)
      && c.positions == b.positions && c.history == b.history
  {
    hide Decide, RunnerContext;
    var out, ctx := OutOfUniverse(rules, d, day, b), RunnerContext(b, rules.initial);
    if n > 0 {
      var t := rules.tickers[n - 1];
      assert rules.tickers[..n] == rules.tickers[..n - 1] + [t];
      assert t !in rules.tickers[..n - 1];
      DecisionsExits(rules, strategy, d, day, n - 1, b, x);
      DecideExits(rules, strategy, d, day, out, ctx, t, Decisions(rules, strategy, d, day, out, ctx, n - 1, b));
    }
  }

  lemma BuyKeepsExits(rules: Rules, d: int, day: map<Ticker, Bar>, t: Ticker, s: Signal, b: Book)
    ensures
      var c := DecideBuy(rules, d, day, t, s, b);
      c.exits == b.exits && c.positions == b.positions && c.history == b.history
  {
    hide OutcomeOf, Tallied;
  }

  /** The book a session's decisions are taken on: after its fills and its flows. */
  function DecidedOn(rules: Rules, d: int, day: map<Ticker, Bar>, st: State): Book
    requires ApplyFlows(d, st.(book := BeforeFlows(rules, d, day, st.book))).Success?
  {
    ApplyFlows(d, st.(book := BeforeFlows(rules, d, day, st.book))).value.book
  }

  lemma MorningExits(rules: Rules, d: int, day: map<Ticker, Bar>, b: Book, t: Ticker)
    requires Distinct(rules.tickers) && day.Keys <= Elements(rules.tickers) && Sound(rules, b) && PrintedOn(day, d)
    ensures
      var c := BeforeFlows(rules, d, day, b);
      && LotsOf(c, t) == Remaining(rules, d, day, b, t) && (t in c.positions ==> c.positions[t] != [])
      && (t in c.exits <==> Carried(rules, day, b, t) || (!rules.member(t, d) && t in c.positions))
      && (t in c.exits ==> c.exits[t] == if Carried(rules, day, b, t) then b.exits[t] else "universe_removal")
  {
    hide Sound, AfterEntries, WrittenOff, Worked, Entered, Aged, PrintedOn, Carried, Leaves, Fills, Opened, Distinct;
    OvernightView(rules, d, day, b, t);
    OvernightIs(rules, d, day, b, t);
    BeforeFlowsKeeps(rules, d, day, b);
    KnownTickers(rules, BeforeFlows(rules, d, day, b), t);
    var names, r := Names(rules), Recorded(day, Expired(AfterEntries(rules, d, day, b)));
    SortedElements(Elements(rules.tickers));
    assert names[..|names|] == names;
    GateExits(rules, d, names, |names|, r, t);
    assert ViewOf(AfterEntries(rules, d, day, b), t).exit.Some? <==> t in AfterEntries(rules, d, day, b).exits;
    hide TradesOf, Names;
    HeldIsKnown(rules, BeforeFlows(rules, d, day, b), t);
  }

  lemma HeldIsKnown(rules: Rules, b: Book, t: Ticker)
    requires Sound(rules, b)
    ensures t in b.positions ==> t in Elements(rules.tickers)
  {
  }

  /**
   Which exits stand at the end of a session, and why: the ones carried over the
   night, those of held non-members, and those of held members that print and
   are sold by the strategy, an earlier reason standing.
   */
  lemma SessionExits(rules: Rules, strategy: Strategy, basis: Option<DatedSum>, d: int, day: map<Ticker, Bar>,
                     st: State, next: State, t: Ticker)
    requires Distinct(rules.tickers) && day.Keys <= Elements(rules.tickers) && Sound(rules, st.book)
    requires PrintedOn(day, d) && StepDay(rules, strategy, basis, d, day, st) == Success(next)
    ensures ApplyFlows(d, st.(book := BeforeFlows(rules, d, day, st.book))).Success?
    ensures
      var f, kept := DecidedOn(rules, d, day, st), Carried(rules, day, st.book, t);
      var removed := Remaining(rules, d, day, st.book, t) != [] && !rules.member(t, d);
      && (t in next.book.exits <==> kept || removed || SoldBy(rules, strategy, d, day, f, t))
      && (t in next.book.exits ==>
            next.book.exits[t] == if kept then st.book.exits[t]
                                  else if removed then "universe_removal"
                                  else AnswerOf(rules, strategy, f, t).value.reason)
  {
    hide Sound, BeforeFlows, AfterDecisions, ApplyFlows, MarksCurrent, StepDay, Distinct, Carried, Remaining, PrintedOn,
         AnswerOf, RunnerContext, OutOfUniverse;
    StepStages(rules, strategy, basis, d, day, st, next);
    MorningExits(rules, d, day, st.book, t);
    var f := DecidedOn(rules, d, day, st);
    KnownTickers(rules, f, t);
    DayListed(rules, day, t);
    DecisionsExits(rules, strategy, d, day, |rules.tickers|, f, t);
    assert rules.tickers[..|rules.tickers|] == rules.tickers;
    ClosedQueues(day, AfterDecisions(rules, strategy, d, day, f));
    TakenAs(rules, strategy, d, day, f);
  }

  lemma TakenAs(rules: Rules, strategy: Strategy, d: int, day: map<Ticker, Bar>, b: Book)
    ensures AfterDecisions(rules, strategy, d, day, b)
            == Decisions(rules, strategy, d, day, OutOfUniverse(rules, d, day, b), RunnerContext(b, rules.initial),
                         |rules.tickers|, b)
  {
  }

  lemma DayListed(rules: Rules, day: map<Ticker, Bar>, t: Ticker)
    requires day.Keys <= Elements(rules.tickers)
    ensures t in day ==> t in rules.tickers
  {
    assert t in Elements(rules.tickers) <==> t in rules.tickers;
  }

  lemma ClosedQueues(day: map<Ticker, Bar>, b: Book)
    ensures Closed(day, b).exits == b.exits && Closed(day, b).entries == b.entries && Closed(day, b).funnel == b.funnel
  {
  }

  // ---- Where a buy signal ends ----

  /** A limit notional grown by some basis points. */
  function Grown(q: real, limit: real, bps: real): real {
    q * limit * (1.0 + bps / 10000.0)
  }

  /** The commission on a purchase. */
  function Owed(q: real, perShare: real, minimum: real): real {
    Max(minimum, q * perShare)
  }

  /** The most a buy can take of the cash: its limit grown by the wider of buffer and slippage, and its commission. */
  function Worst(rules: Rules, t: Ticker, limit: real, q: real): real {
    Grown(q, limit, Max(0.0, Max(rules.bufferBps, Bps(rules.costs, t))))
    + Owed(q, Max(0.0, rules.costs.perShare), Max(0.0, rules.costs.minimum))
  }

  /** What is reserved for it, charges below zero included. */
  function Reserve(rules: Rules, t: Ticker, limit: real, q: real): real {
    Grown(q, limit, Max(rules.bufferBps, Bps(rules.costs, t))) + Charge(rules.costs, q)
  }

  /** Cash less what the entries queued so far reserve. */
  function Uncommitted(rules: Rules, b: Book): real {
    b.cash - Max(0.0, Sum(rules.tickers, (x: Ticker) => if x in b.entries then b.entries[x].cashCost else 0.0))
  }

  /** The smallest change of a quantity. */
  function Unit(rules: Rules): real {
    if rules.wholeShares then 1.0 else 0.0001
  }

  function Units(rules: Rules, n: int): real {
    n as real * Unit(rules)
  }

  /** An entry for all that is wanted if the cash covers it, and otherwise for the most whole units it does. */
  ghost predicate Sized(rules: Rules, t: Ticker, limit: real, want: real, left: real, e: PendingEntry) {
    && e.limit == limit && e.cashCost == Reserve(rules, t, limit, e.quantity)
    && Worst(rules, t, limit, e.quantity) <= left
    && if Worst(rules, t, limit, want) <= left then e.quantity == want
       else
         && e.quantity <= want
         && exists n: int ::
              && n >= 1 && e.quantity == Units(rules, n)
              && forall m: int :: m > n ==> Worst(rules, t, limit, Units(rules, m)) > left
  }

  /** The quantity wanted once the risk check has had its say: as approved, or its whole shares. */
  function Wanted(rules: Rules, approved: real): real {
    if !rules.wholeShares then approved else if approved >= 0.0 then approved.Floor as real
        else -((-approved).Floor as real)
  }

  lemma CostIs(q: real, limit: real, c: Terms)
    requires q > 0.0
    ensures SleeveBuyCost(q, limit, c) == Grown(q, limit, c.bufferBps) + Owed(q, c.perShare, c.minimum)
  {
    assert Abs(q) == q;
  }

  lemma ChargeIs(m: CostModel, q: real)
    requires q > 0.0
    ensures Charge(m, q) == Owed(q, m.perShare, m.minimum)
  {
    assert Abs(q) == q;
  }

  lemma TermsAre(rules: Rules, t: Ticker)
    ensures
      var m, buffer := rules.costs, Max(rules.bufferBps, Bps(rules.costs, t));
      && TermsFor(rules, t) == Terms(m.perShare, m.minimum, buffer)
      && Clamped(TermsFor(rules, t)) == Terms(Max(0.0, m.perShare), Max(0.0, m.minimum), Max(0.0, buffer))
  {
  }

  lemma WorstIs(rules: Rules, t: Ticker, limit: real, q: real)
    requires q > 0.0
    ensures SleeveBuyCost(q, limit, Clamped(TermsFor(rules, t))) == Worst(rules, t, limit, q)
    ensures SleeveBuyCost(q, limit, TermsFor(rules, t)) == Reserve(rules, t, limit, q)
  {
    TermsAre(rules, t);
    CostIs(q, limit, TermsFor(rules, t));
    CostIs(q, limit, Clamped(TermsFor(rules, t)));
    ChargeIs(rules.costs, q);
    hide TermsFor, Clamped, SleeveBuyCost, Bps, Charge, Max, Owed, Grown;
  }

  lemma UncommittedIs(rules: Rules, b: Book)
    ensures b.cash - Max(0.0, Committed(rules, b)) == Uncommitted(rules, b)
  {
    SumAgree(rules.tickers, |rules.tickers|, EntryCost(b.entries),
             (x: Ticker) => if x in b.entries then b.entries[x].cashCost else 0.0);
  }

  /** The most units that fit, said of the spelled-out cost. */
  lemma MostUnits(rules: Rules, t: Ticker, limit: real, q: real, left: real)
    requires limit > 0.0
    requires exists n: int :: n >= 1 && q == Steps(n, Step(rules.wholeShares))
               && forall m: int :: m > n ==>
                    SleeveBuyCost(Steps(m, Step(rules.wholeShares)), limit, Clamped(TermsFor(rules, t))) > left
    ensures exists n: int :: n >= 1 && q == Units(rules, n)
               && forall m: int :: m > n ==> Worst(rules, t, limit, Units(rules, m)) > left
  {
    hide SleeveBuyCost, TermsFor, Clamped, Worst;
    var c := Clamped(TermsFor(rules, t));
    var n: int :| n >= 1 && q == Steps(n, Step(rules.wholeShares))
                  && forall m: int :: m > n ==> SleeveBuyCost(Steps(m, Step(rules.wholeShares)), limit, c) > left;
    forall m: int | m > n
      ensures Worst(rules, t, limit, Units(rules, m)) > left
    {
      assert Steps(m, Step(rules.wholeShares)) == Units(rules, m) && Units(rules, m) > 0.0;
      WorstIs(rules, t, limit, Units(rules, m));
    }
    assert q == Units(rules, n);
  }

  /** The sizing of a wanted quantity, in those terms. */
  lemma SizedIs(rules: Rules, t: Ticker, s: Signal, want: real, b: Book)
    requires s.limit > 0.0 && want > 0.0
    ensures
      var o, left := Financed(rules, t, s, want, b), Uncommitted(rules, b);
      && (o == NoCash <==> Worst(rules, t, s.limit, want) > left && Worst(rules, t, s.limit, Unit(rules)) > left)
      && (o.Queued? ==> Sized(rules, t, s.limit, want, left, o.entry) && (o.cut <==> o.entry.quantity < want))
  {
    var c, left := TermsFor(rules, t), Uncommitted(rules, b);
    UncommittedIs(rules, b);
    SizingIsGreatestFit(want, s.limit, b.cash, Committed(rules, b), c, rules.wholeShares);
    WorstIs(rules, t, s.limit, want);
    WorstIs(rules, t, s.limit, Unit(rules));
    var r := Sizing(want, s.limit, b.cash, Committed(rules, b), c, rules.wholeShares);
    assert Step(rules.wholeShares) == Unit(rules);
    hide Sizing, SleeveBuyCost, TermsFor, Clamped, Worst, Reserve, Uncommitted, Committed, Units, Unit, Steps, Step;
    if r.Funded? {
      WorstIs(rules, t, s.limit, r.quantity);
      if r.quantity < want {
        MostUnits(rules, t, s.limit, r.quantity, left);
      }
    }
  }

  /** The risk check's word on a buy. */
  function Approval(rules: Rules, day: map<Ticker, Bar>, t: Ticker, s: Signal, b: Book): RiskDecision {
    rules.risk(Query(rules, day, t, s, b))
  }

  /** It is too early for buys. */
  predicate Early(rules: Rules, d: int) {
    rules.start.Some? && d < rules.start.value
  }

  /** Nothing can be bought of it, or not one unit for the cash there is. */
  predicate Unfunded(rules: Rules, t: Ticker, limit: real, want: real, left: real) {
    limit <= 0.0 || want <= 0.0
    || (Worst(rules, t, limit, want) > left && Worst(rules, t, limit, Unit(rules)) > left)
  }

  /**
   Where a buy signal ends. Before the start it is not even counted; after it,
   it is counted once and ends once: refused by the risk check, short of a whole
   share, short of cash, or queued for as much of what is wanted as cash covers.
   */
  ghost predicate BuyEnded(rules: Rules, d: int, day: map<Ticker, Bar>, t: Ticker, s: Signal, b: Book, c: Book) {
    var f, g, approval := b.funnel, c.funnel, Approval(rules, day, t, s, b);
    var want, left := Wanted(rules, approval.quantity), Uncommitted(rules, b);
    && c == b.(funnel := g, entries := c.entries)
    && if Early(rules, d) then c == b
       else if !approval.approved then
         c.entries == b.entries && g == f.(signals := f.signals + 1, riskRefused := f.riskRefused + 1)
       else if rules.wholeShares && approval.quantity < 1.0 then
         c.entries == b.entries && g == f.(signals := f.signals + 1, wholeShareSkipped := f.wholeShareSkipped + 1)
       else if Unfunded(rules, t, s.limit, want, left) then
         c.entries == b.entries && g == f.(signals := f.signals + 1, cashSkipped := f.cashSkipped + 1)
       else
         && t in c.entries && c.entries == b.entries[t := c.entries[t]]
         && Sized(rules, t, s.limit, want, left, c.entries[t])
         && g == f.(signals := f.signals + 1, queued := f.queued + 1,
                    downsized := f.downsized + if c.entries[t].quantity < want then 1 else 0)
  }

  lemma WholeShares(x: real)
    ensures (if x >= 0.0 then x.Floor as real else -((-x).Floor as real)) == Trunc(x) as real
    ensures Trunc(x) as real <= 0.0 <==> x < 1.0
  {
  }

  lemma Unusable(rules: Rules, t: Ticker, s: Signal, want: real, b: Book)
    requires s.limit <= 0.0 || want <= 0.0
    ensures Financed(rules, t, s, want, b) == NoCash
  {
    hide SleeveBuyCost, LargestAffordable;
  }

  lemma BuyEnds(rules: Rules, d: int, day: map<Ticker, Bar>, t: Ticker, s: Signal, b: Book)
    ensures BuyEnded(rules, d, day, t, s, b, DecideBuy(rules, d, day, t, s, b))
  {
    hide Query, Financed, Sized, Worst, Uncommitted, Unit;
    var approval := Approval(rules, day, t, s, b);
    var want := Wanted(rules, approval.quantity);
    WholeShares(approval.quantity);
    if s.limit > 0.0 && want > 0.0 {
      SizedIs(rules, t, s, want, b);
    } else {
      Unusable(rules, t, s, want, b);
    }
  }

  // ---- Decision by decision ----

  /** The book after the first i tickers have been decided. */
  function Deciding(rules: Rules, strategy: Strategy, d: int, day: map<Ticker, Bar>, f: Book, i: nat): Book
    requires i <= |rules.tickers|
  {
    Decisions(rules, strategy, d, day, OutOfUniverse(rules, d, day, f), RunnerContext(f, rules.initial), i, f)
  }

  /** A member prints and the strategy buys it. */
  predicate BoughtBy(rules: Rules, strategy: Strategy, d: int, day: map<Ticker, Bar>, b: Book, t: Ticker) {
    && t in day && rules.member(t, d)
    && AnswerOf(rules, strategy, b, t).Some? && AnswerOf(rules, strategy, b, t).value.action == Buy
  }

  /**
   One decision of a session, in table order: a buy answered of a member that
   prints ends on the book the decisions before it left; anything else changes
   neither the queued entries nor the funnel.
   */
  lemma DecisionEnds(rules: Rules, strategy: Strategy, d: int, day: map<Ticker, Bar>, f: Book, i: nat)
    requires i < |rules.tickers|
    ensures
      var t, b, c := rules.tickers[i], Deciding(rules, strategy, d, day, f, i),
          Deciding(rules, strategy, d, day, f, i + 1);
      if BoughtBy(rules, strategy, d, day, f, t) then
        BuyEnded(rules, d, day, t, AnswerOf(rules, strategy, f, t).value, b, c)
      else c.entries == b.entries && c.funnel == b.funnel
  {
    hide RunnerContext, BuyEnded;
    var t, b := rules.tickers[i], Deciding(rules, strategy, d, day, f, i);
    DecidingKeeps(rules, strategy, d, day, f, i);
    if BoughtBy(rules, strategy, d, day, f, t) {
      BuyEnds(rules, d, day, t, AnswerOf(rules, strategy, f, t).value, b);
    }
    hide DecideBuy;
  }

  lemma {:induction false} DecidingKeeps(rules: Rules, strategy: Strategy, d: int, day: map<Ticker, Bar>, f: Book,
                                         i: nat)
    requires i <= |rules.tickers|
    ensures
      var b := Deciding(rules, strategy, d, day, f, i);
      b == f.(exits := b.exits, exitOrder := b.exitOrder, entries := b.entries, funnel := b.funnel)
  {
    hide OutcomeOf, Tallied, RunnerContext, OutOfUniverse;
    if i > 0 {
      DecidingKeeps(rules, strategy, d, day, f, i - 1);
    }
  }

  /** A session's entries and funnel are those its decisions end with, begun from no entries. */
  lemma SessionDecides(rules: Rules, strategy: Strategy, basis: Option<DatedSum>, d: int, day: map<Ticker, Bar>,
                       st: State, next: State)
    requires Distinct(rules.tickers) && day.Keys <= Elements(rules.tickers) && Sound(rules, st.book)
    requires StepDay(rules, strategy, basis, d, day, st) == Success(next)
    ensures ApplyFlows(d, st.(book := BeforeFlows(rules, d, day, st.book))).Success?
    ensures
      var f := DecidedOn(rules, d, day, st);
      var c := Deciding(rules, strategy, d, day, f, |rules.tickers|);
      && f.entries == map[] && next.book.entries == c.entries && next.book.funnel == c.funnel
  {
    hide Sound, BeforeFlows, AfterDecisions, ApplyFlows, MarksCurrent, StepDay, Distinct, RunnerContext, OutOfUniverse,
         Decisions;
    StepStages(rules, strategy, basis, d, day, st, next);
    BeforeFlowsKeeps(rules, d, day, st.book);
    var f := DecidedOn(rules, d, day, st);
    TakenAs(rules, strategy, d, day, f);
    ClosedQueues(day, AfterDecisions(rules, strategy, d, day, f));
  }

  // ---- What the risk check is told ----

  /** A ticker's lots at a price. */
  function AtPrice(b: Book, t: Ticker, price: real): real {
    SeqSum(LotsOf(b, t), (lot: Lot) => price * lot.quantity)
  }

  /**
   The risk check is told the order as signalled and the book as it then stands:
   its value at last closes, how much of that is invested, every holding whole,
   how often the ticker is held or queued, and what the queued entries would
   cost at their limits.
   */
  ghost predicate Informed(rules: Rules, t: Ticker, s: Signal, b: Book, q: RiskQuery) {
    && q.ticker == t && q.quantity == s.quantity && q.price == s.limit && q.sector == s.sector
    && q.nav == b.cash
       + Sum(rules.tickers, (x: Ticker) => if x in b.lastClose then AtPrice(b, x, b.lastClose[x]) else 0.0)
    && (q.nav > 0.0 ==> q.exposurePct * q.nav == 100.0 * (q.nav - b.cash)) && (q.nav <= 0.0 ==> q.exposurePct == 0.0)
    && q.holdings.Keys == b.positions.Keys
    && (forall x :: x in q.holdings ==> q.holdings[x] == SeqSum(b.positions[x], (lot: Lot) => lot.quantity))
    && q.existingLots == |LotsOf(b, t)| + (if t in b.entries then 1 else 0)
    && q.reserved
       == Sum(rules.tickers, (x: Ticker) => if x in b.entries then b.entries[x].limit * b.entries[x].quantity else 0.0)
  }

  lemma HundredTimes(part: real, whole: real)
    requires whole > 0.0
    ensures (part / whole * 100.0) * whole == 100.0 * part
  {
    assert (part / whole) * whole == part;
  }

  lemma NavIs(rules: Rules, day: map<Ticker, Bar>, b: Book)
    requires Sound(rules, b) && MarksCurrent(day, b)
    ensures Nav(rules, day, b)
            == b.cash + Sum(rules.tickers,
                            (x: Ticker) => if x in b.lastClose then AtPrice(b, x, b.lastClose[x]) else 0.0)
  {
    NavAtCloses(rules, day, b);
    var f, g := Worth(b), (x: Ticker) => if x in b.lastClose then AtPrice(b, x, b.lastClose[x]) else 0.0;
    forall x
      ensures f(x) == g(x)
    {
      if x in b.positions && x in b.lastClose {
        SeqSumAgree(b.positions[x], WorthAt(b.lastClose[x]), (lot: Lot) => b.lastClose[x] * lot.quantity);
      }
    }
    SumAgree(rules.tickers, |rules.tickers|, f, g);
  }

  lemma RiskIsTold(rules: Rules, day: map<Ticker, Bar>, t: Ticker, s: Signal, b: Book)
    requires Sound(rules, b) && MarksCurrent(day, b)
    ensures Informed(rules, t, s, b, Query(rules, day, t, s, b))
  {
    hide Sound, MarksCurrent, Nav, AtPrice;
    NavIs(rules, day, b);
    var nav := Nav(rules, day, b);
    if nav > 0.0 {
      HundredTimes(nav - b.cash, nav);
    }
    forall x | x in b.positions
      ensures SeqSum(b.positions[x], QuantityOf) == SeqSum(b.positions[x], (lot: Lot) => lot.quantity)
    {
      SeqSumAgree(b.positions[x], QuantityOf, (lot: Lot) => lot.quantity);
    }
    SumAgree(rules.tickers, |rules.tickers|, EntryNotional(b.entries),
             (x: Ticker) => if x in b.entries then b.entries[x].limit * b.entries[x].quantity else 0.0);
    hide Sum, SeqSum;
  }

  /** So it is at every decision of every session. */
  lemma RiskIsToldAt(rules: Rules, strategy: Strategy, basis: Option<DatedSum>, d: int, day: map<Ticker, Bar>,
                     st: State,
                     next: State, i: nat, t: Ticker, s: Signal)
    requires Distinct(rules.tickers) && day.Keys <= Elements(rules.tickers) && Sound(rules, st.book)
    requires StepDay(rules, strategy, basis, d, day, st) == Success(next) && i <= |rules.tickers|
    ensures ApplyFlows(d, st.(book := BeforeFlows(rules, d, day, st.book))).Success?
    ensures
      var b := Deciding(rules, strategy, d, day, DecidedOn(rules, d, day, st), i);
      Informed(rules, t, s, b, Query(rules, day, t, s, b))
  {
    hide Sound, BeforeFlows, AfterDecisions, ApplyFlows, MarksCurrent, StepDay, Distinct, RunnerContext, OutOfUniverse,
         Decisions, Query, Informed;
    StepStages(rules, strategy, basis, d, day, st, next);
    var f := DecidedOn(rules, d, day, st);
    CurrentIsKnown(day, f);
    DecisionsKeep(rules, strategy, d, day, OutOfUniverse(rules, d, day, f), RunnerContext(f, rules.initial), i, f);
    SameMarks(day, f, Deciding(rules, strategy, d, day, f, i));
    RiskIsTold(rules, day, t, s, Deciding(rules, strategy, d, day, f, i));
  }

  lemma CurrentIsKnown(day: map<Ticker, Bar>, b: Book)
    requires MarksCurrent(day, b)
    ensures day.Keys <= b.lastClose.Keys
  {
    assert forall t :: t in day ==> t in b.lastClose;
  }

  lemma SameMarks(day: map<Ticker, Bar>, b: Book, c: Book)
    requires b.lastClose == c.lastClose
    ensures MarksCurrent(day, b) <==> MarksCurrent(day, c)
  {
  }

  // ---- What a strategy is told ----

  /**
   A strategy is told the sleeve's seed as its budget, and of each holding on its
   way out that all of it is.
   */
  ghost predicate Told(rules: Rules, b: Book, ctx: Context) {
    && ctx.budget == rules.initial
    && (forall t :: t in ctx.positions <==> LotsOf(b, t) != [])
    && (forall t :: t in ctx.pendingSells <==> t in ctx.positions && t in b.exits)
    && (forall t :: t in ctx.positions ==>
          ctx.positions[t].quantity == SeqSum(LotsOf(b, t), (lot: Lot) => lot.quantity))
    && (forall t :: t in ctx.pendingSells ==> ctx.pendingSells[t] == ctx.positions[t].quantity)
  }

  lemma {:induction false} BlendedQuantity(lots: seq<Lot>)
    requires lots != []
    ensures Blend(lots).quantity == SeqSum(lots, (lot: Lot) => lot.quantity)
  {
    hide Averaged;
    var n := |lots| - 1;
    if n > 0 {
      BlendedQuantity(lots[..n]);
    } else {
      assert lots[..0] == [];
    }
  }

  /** Strategies that answer alike whenever they are told so are decided alike. */
  lemma StrategyIsTold(rules: Rules, early: Strategy, full: Strategy, d: int, day: map<Ticker, Bar>, b: Book)
    requires forall t, ctx :: Told(rules, b, ctx) ==> early(t, HistoryOf(b, t), ctx) == full(t, HistoryOf(b, t), ctx)
    ensures AfterDecisions(rules, early, d, day, b) == AfterDecisions(rules, full, d, day, b)
  {
    var ctx := RunnerContext(b, rules.initial);
    forall t | t in ctx.positions
      ensures ctx.positions[t].quantity == SeqSum(LotsOf(b, t), (lot: Lot) => lot.quantity)
    {
      BlendedQuantity(b.positions[t]);
    }
    hide Blend, SeqSum, HighestPeak, EarliestEntry;
    assert Told(rules, b, ctx);
    hide Told, RunnerContext;
    AnswerAlike(rules, early, full, d, day, OutOfUniverse(rules, d, day, b), ctx, |rules.tickers|, b);
  }

  lemma {:induction false} AnswerAlike(rules: Rules, early: Strategy, full: Strategy, d: int, day: map<Ticker, Bar>,
                                       out: set<Ticker>, ctx: Context, n: nat, b: Book)
    requires n <= |rules.tickers|
    requires forall t :: early(t, HistoryOf(b, t), ctx) == full(t, HistoryOf(b, t), ctx)
    ensures Decisions(rules, early, d, day, out, ctx, n, b) == Decisions(rules, full, d, day, out, ctx, n, b)
    ensures Decisions(rules, full, d, day, out, ctx, n, b).history == b.history
  {
    hide OutcomeOf, Tallied;
    if n > 0 {
      AnswerAlike(rules, early, full, d, day, out, ctx, n - 1, b);
      var t := rules.tickers[n - 1];
      assert early(t, HistoryOf(b, t), ctx) == full(t, HistoryOf(b, t), ctx);
    }
  }
}
