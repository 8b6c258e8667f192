/**
 Book parity phase by phase and over whole runs.
 */
module ParityRuns {
  import opened Basics
  import opened Market
  import opened Costs
  import opened Replay
  import opened ReplayBooks
  import opened ReplayLifecycle
  import opened ReplayFunding
  import opened ReplaySolvency
  import opened ReplayAccounts
  import opened LiveLedger
  import opened BookParity

  /** The peak of every holding that did not print today already covers its last close. */
  ghost predicate PeaksCover(day: map<Ticker, Bar>, b: Book) {
    forall t :: t in b.positions && t !in day ==>
      t in b.lastClose && b.positions[t] != [] && HighestPeak(b.positions[t]) >= b.lastClose[t]
  }

  /** The books agree, the stale peaks are covered, and no trade has been forgotten. */
  ghost predicate Parity(sl: Sleeve, seed: Ledger, day: map<Ticker, Bar>, b: Book, c: Book, strict: bool) {
    Agrees(sl, seed, c, strict) && PeaksCover(day, c) && b.trades <= c.trades
  }

  lemma QuietParity(sl: Sleeve, seed: Ledger, day: map<Ticker, Bar>, b: Book, c: Book, e: Book, strict: bool)
    requires Parity(sl, seed, day, b, c, strict)
    requires c.cash == e.cash && c.positions == e.positions && c.tape == e.tape && c.trades == e.trades
    requires forall t :: t in c.lastClose && t !in day ==> t in e.lastClose && e.lastClose[t] == c.lastClose[t]
    ensures Parity(sl, seed, day, b, e, strict)
  {
    QuietAgrees(sl, seed, c, e, strict);
    hide Agrees, HighestPeak;
  }

  lemma CloseParity(sl: Sleeve, seed: Ledger, m: CostModel, day: map<Ticker, Bar>, b: Book, c: Book, t: Ticker,
                    price: real, d: int, reason: string, strict: bool)
    requires Parity(sl, seed, day, b, c, strict) && t in c.positions
    ensures Parity(sl, seed, day, b, ClosePosition(m, c, t, price, d, reason), strict)
  {
    SaleAgrees(sl, seed, m, c, t, price, d, reason, strict);
    hide Agrees, HighestPeak, ClosedTrades, SoldEvents, SeqSum;
  }

  lemma WriteOffParity(sl: Sleeve, seed: Ledger, rules: Rules, d: int, day: map<Ticker, Bar>, t: Ticker, b: Book,
                       c: Book,
                       strict: bool)
    requires Parity(sl, seed, day, b, c, strict)
    ensures Parity(sl, seed, day, b, WriteOff(rules, d, t, c), strict)
  {
    var dropped := DropExit(c.(entries := c.entries - {t}), t);
    QuietParity(sl, seed, day, b, c, dropped, strict);
    hide Parity, ClosePosition, ExitReason, Without;
    if t in c.positions && t in c.lastClose {
      CloseParity(sl, seed, rules.costs, day, b, dropped, t,
                  FillTerminalExit(rules.costs, 0.0, c.lastClose[t], d, t).price, d, ExitReason(c, t), strict);
    }
  }

  lemma {:induction false} WriteOffsParity(sl: Sleeve, seed: Ledger, rules: Rules, d: int, day: map<Ticker, Bar>,
                                           names: seq<Ticker>, n: nat, b: Book, c: Book, strict: bool)
    requires n <= |names| && Parity(sl, seed, day, b, c, strict)
    ensures Parity(sl, seed, day, b, WriteOffs(rules, d, names, n, c), strict)
  {
    hide Parity, WriteOff;
    if n > 0 {
      WriteOffsParity(sl, seed, rules, d, day, names, n - 1, b, c, strict);
      WriteOffParity(sl, seed, rules, d, day, names[n - 1], b, WriteOffs(rules, d, names, n - 1, c), strict);
    }
  }

  lemma WorkExitParity(sl: Sleeve, seed: Ledger, rules: Rules, day: map<Ticker, Bar>, t: Ticker, b: Book, c: Book,
                       strict: bool)
    requires Parity(sl, seed, day, b, c, strict)
    ensures Parity(sl, seed, day, b, WorkExit(rules, day, t, c), strict)
  {
    var dropped := DropExit(c, t);
    QuietParity(sl, seed, day, b, c, dropped, strict);
    hide Parity, ClosePosition, Without;
    if t in day && t in c.exits && t in c.positions {
      var f := FillMarketExit(rules.costs, 0.0, day[t], t);
      CloseParity(sl, seed, rules.costs, day, b, dropped, t, f.price, f.date, c.exits[t], strict);
    }
  }

  lemma {:induction false} WorkExitsParity(sl: Sleeve, seed: Ledger, rules: Rules, day: map<Ticker, Bar>,
                                           order: seq<Ticker>, n: nat, b: Book, c: Book, strict: bool)
    requires n <= |order| && Parity(sl, seed, day, b, c, strict)
    ensures Parity(sl, seed, day, b, WorkExits(rules, day, order, n, c), strict)
  {
    hide Parity, WorkExit;
    if n > 0 {
      WorkExitsParity(sl, seed, rules, day, order, n - 1, b, c, strict);
      WorkExitParity(sl, seed, rules, day, order[n - 1], b, WorkExits(rules, day, order, n - 1, c), strict);
    }
  }

  // ---- Entries ----

  /** The entries can be worked without overdrawing the sleeve. */
  ghost predicate Solvent(rules: Rules, b: Book) {
    FundableRules(rules) && Sound(rules, b) && b.cash >= Committed(rules, b)
  }

  /** What a strict ledger needs of the book before its entries are worked. */
  ghost predicate Funds(rules: Rules, b: Book, strict: bool) {
    strict ==> Distinct(rules.tickers) && Solvent(rules, b)
  }

  lemma EntryLeavesCash(rules: Rules, day: map<Ticker, Bar>, n: nat, b: Book, strict: bool)
    requires n <= |rules.tickers| && Funds(rules, b, strict)
    ensures strict ==> WorkEntries(rules, day, n, b).cash >= 0.0
  {
    if strict {
      SolventEntries(rules, day, n, b);
    }
  }

  lemma SolventEntries(rules: Rules, day: map<Ticker, Bar>, n: nat, b: Book)
    requires n <= |rules.tickers| && Distinct(rules.tickers) && Solvent(rules, b)
    ensures WorkEntries(rules, day, n, b).cash >= 0.0
  {
    EntriesWithinReservations(rules, day, n, b);
    hide WorkEntries, Distinct, FundableRules, Sound;
    forall i | 0 <= i < |rules.tickers|
      ensures EntryCost(b.entries)(rules.tickers[i]) >= 0.0
    {
      EntryCostNonNegative(rules, b, rules.tickers[i]);
    }
    SumToAtMost(rules.tickers, n, |rules.tickers|, EntryCost(b.entries));
  }

  lemma OpenParity(sl: Sleeve, seed: Ledger, day: map<Ticker, Bar>, b: Book, c: Book, t: Ticker, f: Fill, strict: bool)
    requires Parity(sl, seed, day, b, c, strict) && t in day && f.quantity > 0.0
    requires forall lot :: lot in LotsOf(c, t) ==> lot.entryDate <= f.date
    requires strict ==> OpenLot(c, t, f).cash >= 0.0
    ensures Parity(sl, seed, day, b, OpenLot(c, t, f), strict)
  {
    OpenAgrees(sl, seed, c, t, f, strict);
    OpenPeaks(day, c, t, f);
    hide Agrees, PeaksCover, LotFrom;
  }

  lemma OpenAgrees(sl: Sleeve, seed: Ledger, c: Book, t: Ticker, f: Fill, strict: bool)
    requires Agrees(sl, seed, c, strict) && f.quantity > 0.0
    requires forall lot :: lot in LotsOf(c, t) ==> lot.entryDate <= f.date
    requires strict ==> OpenLot(c, t, f).cash >= 0.0
    ensures Agrees(sl, seed, OpenLot(c, t, f), strict)
  {
    hide FeedAll, Same, Feed;
    FeedPush(sl, seed, c.tape, Bought(t, f.quantity, f.price, f.date, f.commission), strict);
    BuyAgrees(sl, c, FeedAll(sl, seed, c.tape, strict).value, t, f, strict);
  }

  lemma OpenPeaks(day: map<Ticker, Bar>, c: Book, t: Ticker, f: Fill)
    requires PeaksCover(day, c) && t in day && f.quantity > 0.0
    ensures PeaksCover(day, OpenLot(c, t, f))
  {
    hide HighestPeak, LotFrom;
  }

  lemma {:induction false} WorkEntriesParity(sl: Sleeve, seed: Ledger, rules: Rules, d: int, day: map<Ticker, Bar>,
                                             n: nat, b: Book, c: Book, strict: bool)
    requires n <= |rules.tickers| && Parity(sl, seed, day, b, c, strict) && Rested(c, d) && PrintedOn(day, d)
    requires Funds(rules, c, strict)
    ensures Parity(sl, seed, day, b, WorkEntries(rules, day, n, c), strict)
    decreases n
  {
    hide Parity, WorkEntry, TradesEndLater, LotsBy, PrintedOn, Rested, Funds;
    if n > 0 {
      WorkEntriesParity(sl, seed, rules, d, day, n - 1, b, c, strict);
      var e, t := WorkEntries(rules, day, n - 1, c), rules.tickers[n - 1];
      assert WorkEntries(rules, day, n, c) == WorkEntry(rules, day, t, e);
      hide WorkEntries;
      WorkEntriesRested(rules, d, day, n - 1, c);
      EntryLeavesCash(rules, day, n, c, strict);
      WorkEntryParity(sl, seed, rules, d, day, t, b, e, strict);
    }
  }

  lemma WorkEntriesRested(rules: Rules, d: int, day: map<Ticker, Bar>, n: nat, b: Book)
    requires n <= |rules.tickers| && Rested(b, d) && PrintedOn(day, d)
    ensures LotsBy(WorkEntries(rules, day, n, b), d)
  {
    WorkEntriesDates(rules, d, day, n, b);
  }

  lemma WorkEntryParity(sl: Sleeve, seed: Ledger, rules: Rules, d: int, day: map<Ticker, Bar>, t: Ticker, b: Book,
                        e: Book, strict: bool)
    requires Parity(sl, seed, day, b, e, strict) && LotsBy(e, d) && PrintedOn(day, d)
    requires strict ==> WorkEntry(rules, day, t, e).cash >= 0.0
    ensures Parity(sl, seed, day, b, WorkEntry(rules, day, t, e), strict)
  {
    hide Parity, CommissionFor, SlippageFor, OpenLot;
    if t in e.entries && t in day {
      var f := TryFillLimitEntry(rules.costs, e.entries[t].limit, e.entries[t].quantity, day[t], t);
      if f.Some? {
        OpenParity(sl, seed, day, b, e, t, f.value, strict);
      }
    }
  }

  // ---- Flows ----

  lemma {:induction false} FlowsParity(sl: Sleeve, seed: Ledger, day: map<Ticker, Bar>, d: int, b: Book, st: State,
                                       strict: bool)
    requires Parity(sl, seed, day, b, st.book, strict) && ApplyFlows(d, st).Success?
    ensures Parity(sl, seed, day, b, ApplyFlows(d, st).value.book, strict)
    decreases |st.pending|
  {
    if st.pending != [] && st.pending[0].day <= d {
      FlowParity(sl, seed, day, d, b, st, strict);
      hide Parity, FlowApplied;
      FlowShrinks(d, st);
      FlowsParity(sl, seed, day, d, b, FlowApplied(d, st), strict);
    }
  }

  lemma FlowShrinks(d: int, st: State)
    requires st.pending != [] && st.scale.Some?
    ensures |FlowApplied(d, st).pending| < |st.pending|
  {
  }

  lemma FlowParity(sl: Sleeve, seed: Ledger, day: map<Ticker, Bar>, d: int, b: Book, st: State, strict: bool)
    requires Parity(sl, seed, day, b, st.book, strict) && st.pending != [] && st.scale.Some?
    ensures Parity(sl, seed, day, b, FlowApplied(d, st).book, strict)
  {
    var amount := FlowApplied(d, st).book.cash - st.book.cash;
    FlowBook(d, st);
    hide FlowApplied, Agrees, PeaksCover;
    var e := Flowed(st.pending[0].day, d, amount);
    var c := st.book.(cash := st.book.cash + amount, tape := st.book.tape + [e]);
    PaidAgrees(sl, seed, st.book, e, c, strict);
    SamePeaks(day, st.book, c);
  }

  lemma SamePeaks(day: map<Ticker, Bar>, b: Book, c: Book)
    requires b.positions == c.positions && b.lastClose == c.lastClose
    ensures PeaksCover(day, b) <==> PeaksCover(day, c)
  {
    hide HighestPeak;
  }

  lemma FlowBook(d: int, st: State)
    requires st.pending != [] && st.scale.Some?
    ensures
      var c := FlowApplied(d, st).book;
      c == st.book.(cash := c.cash, tape := st.book.tape + [Flowed(st.pending[0].day, d, c.cash - st.book.cash)])
  {
    hide FlowAmount;
  }

  /** A flow moves the cash of both books alike. */
  lemma PaidAgrees(sl: Sleeve, seed: Ledger, b: Book, e: Event, c: Book, strict: bool)
    requires Agrees(sl, seed, b, strict) && e.Flowed?
    requires c == b.(cash := b.cash + e.amount, tape := b.tape + [e])
    ensures Agrees(sl, seed, c, strict)
  {
    FeedPush(sl, seed, b.tape, e, strict);
    hide FeedAll, Proper, Mirrors, Feed;
    PaidSame(sl, b, FeedAll(sl, seed, b.tape, strict).value, e, c, strict);
  }

  lemma PaidSame(sl: Sleeve, b: Book, l: Ledger, e: Event, c: Book, strict: bool)
    requires Same(sl, b, l) && e.Flowed?
    requires c == b.(cash := b.cash + e.amount, tape := b.tape + [e])
    ensures Feed(sl, l, e, strict).Success? && Same(sl, c, Feed(sl, l, e, strict).value)
  {
    hide Proper, Mirrors;
    assert l.cash[sl.portfolio := l.cash[sl.portfolio] + e.amount] == map[sl.portfolio := c.cash];
  }

  // ---- Closing marks ----

  lemma {:induction false} RaisedLots(lots: seq<Lot>, mark: real)
    requires lots != []
    ensures RaisedPeaks(lots, mark) != []
    ensures Blend(RaisedPeaks(lots, mark)) == Blend(lots)
    ensures EarliestEntry(RaisedPeaks(lots, mark)) == EarliestEntry(lots)
    ensures HighestPeak(RaisedPeaks(lots, mark)) == Max(HighestPeak(lots), mark)
  {
    hide Averaged;
    var n := |lots| - 1;
    assert RaisedPeaks(lots, mark)[..n] == RaisedPeaks(lots[..n], mark);
    if n > 0 {
      RaisedLots(lots[..n], mark);
    }
  }

  lemma MarkedRow(sl: Sleeve, day: map<Ticker, Bar>, b: Book, r: Row)
    requires RowFor(sl, r, r.ticker) && r.ticker in b.positions && RowHolds(r, b.positions[r.ticker])
    requires r.ticker in b.lastClose && PeaksCover(day, b) && MarksCurrent(day, b)
    ensures RowFor(sl, Raised(r, sl.portfolio, Some(sl.account), b.lastClose), r.ticker)
    ensures RowHolds(Raised(r, sl.portfolio, Some(sl.account), b.lastClose), Closed(day, b).positions[r.ticker])
    ensures HighestPeak(Closed(day, b).positions[r.ticker]) >= b.lastClose[r.ticker]
  {
    var t := r.ticker;
    if t in day {
      RaisedLots(b.positions[t], day[t].close);
    }
    hide Blend, EarliestEntry, HighestPeak;
  }

  lemma MarksMirror(sl: Sleeve, day: map<Ticker, Bar>, b: Book, rows: seq<Row>)
    requires Proper(sl, rows) && Mirrors(b.positions, rows) && b.positions.Keys <= b.lastClose.Keys
    requires PeaksCover(day, b) && MarksCurrent(day, b)
    ensures
      var after := PeaksRaised(rows, sl.portfolio, Some(sl.account), b.lastClose);
      Proper(sl, after) && Mirrors(Closed(day, b).positions, after)
    ensures PeaksCover(map[], Closed(day, b))
  {
    var after, c := PeaksRaised(rows, sl.portfolio, Some(sl.account), b.lastClose), Closed(day, b);
    forall i | 0 <= i < |rows|
      ensures RowFor(sl, after[i], rows[i].ticker) && after[i].ticker == rows[i].ticker
      ensures rows[i].ticker in c.positions && RowHolds(after[i], c.positions[rows[i].ticker])
      ensures HighestPeak(c.positions[rows[i].ticker]) >= b.lastClose[rows[i].ticker]
    {
      assert RowFor(sl, rows[i], rows[i].ticker) && rows[i].ticker in b.positions;
      assert RowHolds(rows[i], b.positions[rows[i].ticker]);
      MarkedRow(sl, day, b, rows[i]);
    }
    forall t | t in c.positions
      ensures exists i :: 0 <= i < |after| && after[i].ticker == t
      ensures c.positions[t] != [] && HighestPeak(c.positions[t]) >= b.lastClose[t]
    {
      assert t in b.positions;
      var i :| 0 <= i < |rows| && rows[i].ticker == t;
      assert after[i].ticker == t && RowHolds(after[i], c.positions[t]);
    }
  }

  lemma ClosedParity(sl: Sleeve, seed: Ledger, day: map<Ticker, Bar>, b: Book, c: Book, strict: bool)
    requires Parity(sl, seed, day, b, c, strict) && c.positions.Keys <= c.lastClose.Keys && MarksCurrent(day, c)
    ensures Parity(sl, seed, map[], b, Closed(day, c), strict)
  {
    FeedPush(sl, seed, c.tape, Marked(c.lastClose), strict);
    hide FeedAll, HighestPeak, Proper, Mirrors;
    MarksMirror(sl, day, c, FeedAll(sl, seed, c.tape, strict).value.rows);
  }

  // ---- A session ----

  /** What a strict live ledger needs of a run: fundable rules, a seed, and exits worth their commission. */
  ghost predicate Acceptable(rules: Rules, b: Book) {
    FundableRules(rules) && rules.initial >= 0.0 && forall tr :: tr in b.trades ==> CashRaised(tr) >= 0.0
  }

  lemma AcceptableSolvent(rules: Rules, b: Book, c: Book)
    requires Acceptable(rules, c) && b.trades <= c.trades && Sound(rules, b) && Covered(rules, b)
    ensures Solvent(rules, b)
  {
    NoShortfall(b.trades);
  }

  lemma BeforeFlowsParity(sl: Sleeve, seed: Ledger, rules: Rules, d: int, day: map<Ticker, Bar>, b: Book, strict: bool)
    requires Distinct(rules.tickers) && Sound(rules, b) && day.Keys <= Elements(rules.tickers)
    requires Parity(sl, seed, day, b, b, strict) && Rested(b, d) && PrintedOn(day, d)
    requires strict ==> Covered(rules, b) && Acceptable(rules, BeforeFlows(rules, d, day, b))
    ensures Parity(sl, seed, day, b, BeforeFlows(rules, d, day, b), strict)
  {
    hide Parity, Sound, Distinct, Rested, WriteOffs, WorkExits, WorkEntries, Gate, Recorded, Names, Aged, Acceptable,
         Covered,
         Injected, UnmatchedFills, PrintedOn;
    var names := Names(rules);
    var aged := b.(stale := Aged(day, b.stale));
    QuietParity(sl, seed, day, b, b, aged, strict);
    WriteOffsParity(sl, seed, rules, d, day, names, |names|, b, aged, strict);
    var w := AfterWriteOffs(rules, d, day, b);
    WorkExitsParity(sl, seed, rules, day, w.exitOrder, |w.exitOrder|, b, w, strict);
    var x := AfterExits(rules, d, day, b);
    ExitsRested(rules, d, day, b);
    var e := AfterEntries(rules, d, day, b);
    SameTrades(rules, day, |rules.tickers|, x);
    RecordedSame(day, Expired(e));
    GateSame(rules, d, names, |names|, Recorded(day, Expired(e)));
    if strict {
      OvernightKeeps(rules, d, day, b);
      AcceptableFundable(rules, BeforeFlows(rules, d, day, b));
      BeforeFlowsCovered(rules, d, day, b);
      AcceptableSolvent(rules, x, BeforeFlows(rules, d, day, b));
    }
    WorkEntriesParity(sl, seed, rules, d, day, |rules.tickers|, b, x, strict);
    RecordedOff(day, Expired(e));
    QuietParity(sl, seed, day, b, e, BeforeFlows(rules, d, day, b), strict);
  }

  lemma AcceptableFundable(rules: Rules, b: Book)
    requires Acceptable(rules, b)
    ensures FundableRules(rules)
  {
  }

  lemma RecordedOff(day: map<Ticker, Bar>, b: Book)
    ensures forall t :: t in b.lastClose && t !in day ==>
      t in Recorded(day, b).lastClose && Recorded(day, b).lastClose[t] == b.lastClose[t]
  {
  }

  lemma {:induction false} SameTrades(rules: Rules, day: map<Ticker, Bar>, n: nat, b: Book)
    requires n <= |rules.tickers|
    ensures WorkEntries(rules, day, n, b).trades == b.trades
  {
    hide TryFillLimitEntry;
    if n > 0 {
      SameTrades(rules, day, n - 1, b);
    }
  }

  lemma ExitsRested(rules: Rules, d: int, day: map<Ticker, Bar>, b: Book)
    requires Rested(b, d) && PrintedOn(day, d)
    ensures Rested(AfterExits(rules, d, day, b), d)
  {
    var names := Names(rules);
    var aged := b.(stale := Aged(day, b.stale));
    SameDates(b, aged, d);
    hide Rested, WriteOffs, WorkExits, Names;
    WriteOffsRested(rules, d, names, |names|, aged);
    var w := AfterWriteOffs(rules, d, day, b);
    WorkExitsRested(rules, d, day, w.exitOrder, |w.exitOrder|, w);
  }

  /** The book every decision of a session is taken on. */
  function DecisionBook(rules: Rules, d: int, day: map<Ticker, Bar>, st: State): Book
    requires ApplyFlows(d, st.(book := BeforeFlows(rules, d, day, st.book))).Success?
  {
    ApplyFlows(d, st.(book := BeforeFlows(rules, d, day, st.book))).value.book
  }

  lemma StepParity(sl: Sleeve, seed: Ledger, rules: Rules, strategy: Strategy, basis: Option<DatedSum>, d: int,
                   day: map<Ticker, Bar>, st: State, next: State, strict: bool)
    requires Distinct(rules.tickers) && Sound(rules, st.book) && day.Keys <= Elements(rules.tickers)
    requires Parity(sl, seed, map[], st.book, st.book, strict) && Rested(st.book, d) && PrintedOn(day, d)
    requires StepDay(rules, strategy, basis, d, day, st) == Success(next)
    requires strict ==> Covered(rules, st.book) && Acceptable(rules, next.book)
    ensures Parity(sl, seed, map[], st.book, next.book, strict)
    ensures ApplyFlows(d, st.(book := BeforeFlows(rules, d, day, st.book))).Success?
    ensures Agrees(sl, seed, DecisionBook(rules, d, day, st), strict)
  {
    hide Parity, BeforeFlows, Sound, Nav, LearnedScale, ApplyFlows, AfterDecisions, Rested, Covered, Distinct,
         PrintedOn,
         Acceptable, Agrees, MarksCurrent, Closed, StepDay;
    StepStages(rules, strategy, basis, d, day, st, next);
    var gated := st.(book := BeforeFlows(rules, d, day, st.book));
    var f := ApplyFlows(d, gated).value.book;
    var c := AfterDecisions(rules, strategy, d, day, f);
    ClosedTradesKept(day, c);
    if strict {
      SameAcceptable(rules, next.book, gated.book);
    }
    CoverAny(sl, seed, day, st.book, strict);
    BeforeFlowsParity(sl, seed, rules, d, day, st.book, strict);
    FlowsParity(sl, seed, day, d, st.book, gated, strict);
    ParityAgrees(sl, seed, day, st.book, f, strict);
    QuietParity(sl, seed, day, st.book, f, c, strict);
    SoundHoldings(rules, c);
    ClosedParity(sl, seed, day, st.book, c, strict);
  }

  lemma ClosedTradesKept(day: map<Ticker, Bar>, b: Book)
    ensures Closed(day, b).trades == b.trades
  {
  }

  lemma ParityAgrees(sl: Sleeve, seed: Ledger, day: map<Ticker, Bar>, b: Book, c: Book, strict: bool)
    requires Parity(sl, seed, day, b, c, strict)
    ensures Agrees(sl, seed, c, strict)
  {
  }

  lemma CoverAny(sl: Sleeve, seed: Ledger, day: map<Ticker, Bar>, b: Book, strict: bool)
    requires Parity(sl, seed, map[], b, b, strict)
    ensures Parity(sl, seed, day, b, b, strict)
  {
    hide HighestPeak, Agrees;
  }

  lemma SameAcceptable(rules: Rules, b: Book, c: Book)
    requires b.trades == c.trades
    ensures Acceptable(rules, b) <==> Acceptable(rules, c)
  {
  }

  // ---- Runs ----

  /** A live sleeve holding only the run's seed. */
  function SeedLedger(sl: Sleeve, rules: Rules): Ledger {
    Ledger(map[sl.portfolio := rules.initial], [], [])
  }

  lemma StartParity(sl: Sleeve, rules: Rules, plan: Plan, strict: bool)
    requires sl.account != ""
    ensures
      var b := Start(rules, plan).book;
      Parity(sl, SeedLedger(sl, rules), map[], b, b, strict)
  {
  }

  lemma FewerTradesAcceptable(rules: Rules, b: Book, c: Book)
    requires Acceptable(rules, c) && b.trades <= c.trades
    ensures Acceptable(rules, b)
  {
  }

  lemma {:induction false} RunParity(sl: Sleeve, rules: Rules, strategy: Strategy, plan: Plan, bars: Bars, n: nat,
                                     st: State,
                                     strict: bool)
    requires Universe(rules, bars) && n <= |Sessions(bars)| && sl.account != ""
    requires RunTo(rules, strategy, plan, bars, n) == Success(st)
    requires strict ==> Acceptable(rules, st.book)
    ensures Parity(sl, SeedLedger(sl, rules), map[], st.book, st.book, strict)
    ensures n > 0 ==>
      var prev, d := RunTo(rules, strategy, plan, bars, n - 1).value, Sessions(bars)[n - 1];
      && ApplyFlows(d, prev.(book := BeforeFlows(rules, d, Day(bars, d), prev.book))).Success?
      && Agrees(sl, SeedLedger(sl, rules), DecisionBook(rules, d, Day(bars, d), prev), strict)
  {
    hide StepDay, Balanced, Orderly, Day, Start, PrintedOn, Parity, Acceptable, Covered, Affordable, DecisionBook,
         Agrees,
         BeforeFlows, ApplyFlows, SeedLedger, Counted, Rested;
    var seed := SeedLedger(sl, rules);
    if n == 0 {
      StartParity(sl, rules, plan, strict);
    } else {
      var d := Sessions(bars)[n - 1];
      var prev := RunTo(rules, strategy, plan, bars, n - 1).value;
      RunBalanced(rules, strategy, plan, bars, n - 1, prev);
      BalancedIsSound(rules, prev);
      DayInUniverse(rules, bars, d);
      DayPrinted(bars, d);
      RunRested(rules, strategy, plan, bars, n, prev);
      StepTrades(rules, strategy, plan.basis, d, Day(bars, d), prev, st);
      if strict {
        FewerTradesAcceptable(rules, prev.book, st.book);
        AcceptableFundable(rules, st.book);
        RunCovered(rules, strategy, plan, bars, n - 1, prev);
      }
      RunParity(sl, rules, strategy, plan, bars, n - 1, prev, strict);
      StepParity(sl, seed, rules, strategy, plan.basis, d, Day(bars, d), prev, st, strict);
      ParityRestart(sl, seed, prev.book, st.book, strict);
    }
  }

  lemma ParityRestart(sl: Sleeve, seed: Ledger, b: Book, c: Book, strict: bool)
    requires Parity(sl, seed, map[], b, c, strict)
    ensures Parity(sl, seed, map[], c, c, strict)
  {
    hide Agrees, PeaksCover;
  }

  lemma RunRested(rules: Rules, strategy: Strategy, plan: Plan, bars: Bars, n: nat, prev: State)
    requires Universe(rules, bars) && 0 < n <= |Sessions(bars)|
    requires RunTo(rules, strategy, plan, bars, n - 1) == Success(prev)
    ensures Rested(prev.book, Sessions(bars)[n - 1])
  {
    hide StepDay, Orderly, Start, Rested, Counted;
    if n > 1 {
      RunOrderly(rules, strategy, plan, bars, n - 1, prev);
      OrderlyRests(rules, prev, Sessions(bars)[n - 2], Sessions(bars)[n - 1]);
    } else {
      StartRests(rules, plan, Sessions(bars)[n - 1]);
    }
  }

  /** Trades are only ever appended. */
  lemma StepTrades(rules: Rules, strategy: Strategy, basis: Option<DatedSum>, d: int, day: map<Ticker, Bar>,
                   st: State, next: State)
    requires Distinct(rules.tickers) && Sound(rules, st.book) && day.Keys <= Elements(rules.tickers)
    requires StepDay(rules, strategy, basis, d, day, st) == Success(next)
    ensures st.book.trades <= next.book.trades
  {
    hide BeforeFlows, Sound, ApplyFlows, AfterDecisions, Distinct, MarksCurrent, Closed, StepDay;
    StepStages(rules, strategy, basis, d, day, st, next);
    BeforeFlowsTrades(rules, d, day, st.book);
    var gated := st.(book := BeforeFlows(rules, d, day, st.book));
    ClosedTradesKept(day, AfterDecisions(rules, strategy, d, day, ApplyFlows(d, gated).value.book));
  }

  lemma BeforeFlowsTrades(rules: Rules, d: int, day: map<Ticker, Bar>, b: Book)
    ensures b.trades <= BeforeFlows(rules, d, day, b).trades
  {
    hide WriteOffs, WorkExits, WorkEntries, Gate, Recorded, Names;
    var names := Names(rules);
    WriteOffsTrades(rules, d, names, |names|, b.(stale := Aged(day, b.stale)));
    var w := AfterWriteOffs(rules, d, day, b);
    WorkExitsTrades(rules, day, w.exitOrder, |w.exitOrder|, w);
    SameTrades(rules, day, |rules.tickers|, AfterExits(rules, d, day, b));
    var e := Expired(AfterEntries(rules, d, day, b));
    RecordedSame(day, e);
    GateSame(rules, d, names, |names|, Recorded(day, e));
  }

  lemma {:induction false} WriteOffsTrades(rules: Rules, d: int, names: seq<Ticker>, n: nat, b: Book)
    requires n <= |names|
    ensures b.trades <= WriteOffs(rules, d, names, n, b).trades
  {
    hide ClosedTrades, SeqSum, SoldEvents, Without;
    if n > 0 {
      WriteOffsTrades(rules, d, names, n - 1, b);
    }
  }

  lemma {:induction false} WorkExitsTrades(rules: Rules, day: map<Ticker, Bar>, order: seq<Ticker>, n: nat, b: Book)
    requires n <= |order|
    ensures b.trades <= WorkExits(rules, day, order, n, b).trades
  {
    hide ClosedTrades, SeqSum, SoldEvents, Without;
    if n > 0 {
      WorkExitsTrades(rules, day, order, n - 1, b);
    }
  }

  // ---- The contexts a strategy is shown ----

  /** The positions shown for the first n rows: one entry a row, by its ticker. */
  ghost predicate Shows(c: map<Ticker, HeldPosition>, rows: seq<Row>, n: nat)
    requires n <= |rows|
  {
    && (forall t :: t in c ==> exists i :: 0 <= i < n && rows[i].ticker == t)
    && (forall i :: 0 <= i < n ==> rows[i].ticker in c && c[rows[i].ticker] == HeldRow(rows[i]))
  }

  lemma ShowsNext(sl: Sleeve, c: map<Ticker, HeldPosition>, rows: seq<Row>, n: nat)
    requires Proper(sl, rows) && n < |rows| && Shows(c, rows, n)
    ensures InScope(rows[n], sl.portfolio, Some(sl.account))
    ensures Shows(c[rows[n].ticker := HeldRow(rows[n])], rows, n + 1)
  {
    assert RowFor(sl, rows[n], rows[n].ticker);
    hide HeldRow, RowFor;
  }

  lemma {:induction false} ContextOf(sl: Sleeve, rows: seq<Row>, n: nat)
    requires Proper(sl, rows) && n <= |rows|
    ensures Shows(ContextPositions(rows[..n], sl.portfolio, Some(sl.account)), rows, n)
  {
    hide Proper, HeldRow, InScope;
    if n > 0 {
      assert rows[..n][..n - 1] == rows[..n - 1];
      ContextOf(sl, rows, n - 1);
      ShowsNext(sl, ContextPositions(rows[..n - 1], sl.portfolio, Some(sl.account)), rows, n - 1);
    }
  }

  lemma MirroredContext(sl: Sleeve, b: Book, l: Ledger, budget: real)
    requires Same(sl, b, l)
    ensures ContextPositions(l.rows, sl.portfolio, Some(sl.account)) == RunnerContext(b, budget).positions
  {
    var live, replay := ContextPositions(l.rows, sl.portfolio, Some(sl.account)), RunnerContext(b, budget).positions;
    ContextOf(sl, l.rows, |l.rows|);
    assert l.rows[..|l.rows|] == l.rows;
    hide Blend, HighestPeak, EarliestEntry, ContextPositions;
    forall t
      ensures t in live <==> t in replay
      ensures t in live ==> live[t] == replay[t]
    {
      if t in b.positions {
        var i :| 0 <= i < |l.rows| && l.rows[i].ticker == t;
        assert RowHolds(l.rows[i], b.positions[t]);
      }
    }
  }

  /**
   A live ledger seeded like the run and fed everything a book reported accepts
   it all, holds the book's cash and shows a strategy the book's positions:
   quantity, average price, peak and entry date.
   */
  ghost predicate LiveHolds(sl: Sleeve, rules: Rules, b: Book, strict: bool) {
    var r := FeedAll(sl, SeedLedger(sl, rules), b.tape, strict);
    && r.Success? && r.value.cash == map[sl.portfolio := b.cash]
    && ContextPositions(r.value.rows, sl.portfolio, Some(sl.account)) == RunnerContext(b, rules.initial).positions
  }

  lemma AgreesHolds(sl: Sleeve, rules: Rules, b: Book, strict: bool)
    requires Agrees(sl, SeedLedger(sl, rules), b, strict)
    ensures LiveHolds(sl, rules, b, strict)
  {
    hide FeedAll, SeedLedger, RunnerContext, ContextPositions;
    MirroredContext(sl, b, FeedAll(sl, SeedLedger(sl, rules), b.tape, strict).value, rules.initial);
  }

  /**
   Book parity over whole runs: fed every fill, flow and closing mark the run
   reports, the live ledger holds what the replay holds at every session end
   and at every decision point. A strict ledger, which refuses overdrafts,
   accepts them all too whenever the run starts with cash and every exit so far
   was worth its commission.
   */
  lemma BooksAgree(sl: Sleeve, rules: Rules, strategy: Strategy, plan: Plan, bars: Bars, n: nat, st: State,
                   strict: bool)
    requires Universe(rules, bars) && 0 < n <= |Sessions(bars)| && sl.account != ""
    requires RunTo(rules, strategy, plan, bars, n) == Success(st)
    requires strict ==> Acceptable(rules, st.book)
    ensures LiveHolds(sl, rules, st.book, strict)
    ensures
      var prev, d := RunTo(rules, strategy, plan, bars, n - 1).value, Sessions(bars)[n - 1];
      && ApplyFlows(d, prev.(book := BeforeFlows(rules, d, Day(bars, d), prev.book))).Success?
      && LiveHolds(sl, rules, DecisionBook(rules, d, Day(bars, d), prev), strict)
  {
    hide StepDay, Day, Start, DecisionBook, BeforeFlows, ApplyFlows, SeedLedger, LiveHolds, Acceptable, Agrees;
    RunParity(sl, rules, strategy, plan, bars, n, st, strict);
    ParityAgrees(sl, SeedLedger(sl, rules), map[], st.book, st.book, strict);
    AgreesHolds(sl, rules, st.book, strict);
    var prev, d := RunTo(rules, strategy, plan, bars, n - 1).value, Sessions(bars)[n - 1];
    AgreesHolds(sl, rules, DecisionBook(rules, d, Day(bars, d), prev), strict);
  }

  /**
   The strict form on conditions known before the run: every open and close
   reaches the floor below which an exit can cost more than it fetches.
   */
  lemma StrictBooksAgree(sl: Sleeve, rules: Rules, strategy: Strategy, plan: Plan, bars: Bars, n: nat, st: State)
    requires Universe(rules, bars) && FundableRules(rules) && rules.initial >= 0.0 && PricesCover(rules, bars)
    requires 0 < n <= |Sessions(bars)| && sl.account != ""
    requires RunTo(rules, strategy, plan, bars, n) == Success(st)
    ensures LiveHolds(sl, rules, st.book, true)
    ensures
      var prev, d := RunTo(rules, strategy, plan, bars, n - 1).value, Sessions(bars)[n - 1];
      && ApplyFlows(d, prev.(book := BeforeFlows(rules, d, Day(bars, d), prev.book))).Success?
      && LiveHolds(sl, rules, DecisionBook(rules, d, Day(bars, d), prev), true)
  {
    hide RunTo, Day, DecisionBook, BeforeFlows, ApplyFlows, LiveHolds, FundableRules, PricesCover, Universe;
    CashNeverNegative(rules, strategy, plan, bars, n, st);
    BooksAgree(sl, rules, strategy, plan, bars, n, st, true);
  }
}
