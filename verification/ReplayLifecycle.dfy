/**
 What every session leaves behind: trades that end after they begin, no ticker
 queued both ways, no stopped name still held, every removed name on its way
 out, and every buy signal accounted for.
 */
module ReplayLifecycle {
  import opened Basics
  import opened Market
  import opened Costs
  import opened Replay
  import opened ReplayBooks

  ghost predicate PrintedOn(day: map<Ticker, Bar>, d: int) {
    forall t :: t in day ==> day[t].date == d
  }

  // ---- Dates ----

  ghost predicate TradesEndLater(b: Book, d: int) {
    forall tr :: tr in b.trades ==> tr.entryDate < tr.exitDate <= d
  }

  ghost predicate LotsBy(b: Book, d: int) {
    forall t, lot :: t in b.positions && lot in b.positions[t] ==> lot.entryDate <= d
  }

  /** The book while exits are worked on session d: every lot predates the session. */
  ghost predicate Rested(b: Book, d: int) {
    TradesEndLater(b, d) && LotsBy(b, d - 1)
  }

  lemma CloseRested(m: CostModel, b: Book, t: Ticker, price: real, d: int, reason: string)
    requires Rested(b, d) && t in b.positions
    ensures Rested(ClosePosition(m, b, t, price, d, reason), d)
  {
    ClosedTradesAre(m, t, b.positions[t], price, d, reason);
    var closed := ClosedTrades(m, t, b.positions[t], price, d, reason);
    forall tr | tr in closed
      ensures tr.entryDate < tr.exitDate <= d
    {
      var i :| 0 <= i < |closed| && closed[i] == tr;
      assert b.positions[t][i] in b.positions[t];
    }
  }

  lemma SameDates(b: Book, c: Book, d: int)
    requires b.trades == c.trades && b.positions == c.positions
    ensures Rested(b, d) <==> Rested(c, d)
  {
  }

  // ---- Write-offs ----

  lemma WriteOffRested(rules: Rules, d: int, t: Ticker, b: Book)
    requires Rested(b, d)
    ensures Rested(WriteOff(rules, d, t, b), d)
  {
    hide Rested, ClosePosition, ExitReason, Without;
    var dropped := DropExit(b.(entries := b.entries - {t}), t);
    SameDates(b, dropped, d);
    if t in b.positions && t in b.lastClose {
      CloseRested(rules.costs, dropped, t, FillTerminalExit(rules.costs, 0.0, b.lastClose[t], d, t).price, d,
                  ExitReason(b, t));
    }
  }

  lemma {:induction false} WriteOffsRested(rules: Rules, d: int, names: seq<Ticker>, n: nat, b: Book)
    requires n <= |names| && Rested(b, d)
    ensures Rested(WriteOffs(rules, d, names, n, b), d)
  {
    hide Rested, WriteOff;
    if n > 0 {
      WriteOffsRested(rules, d, names, n - 1, b);
      WriteOffRested(rules, d, names[n - 1], WriteOffs(rules, d, names, n - 1, b));
    }
  }

  /** Overnight work only closes positions and drops entries and exits. */
  ghost predicate Shrinks(b: Book, c: Book) {
    && c.stale == b.stale && c.funnel == b.funnel && c.lastClose == b.lastClose
    && c.entries.Keys <= b.entries.Keys && c.positions.Keys <= b.positions.Keys && c.exits.Keys <= b.exits.Keys
  }

  lemma {:induction false} WriteOffsShrink(rules: Rules, d: int, names: seq<Ticker>, n: nat, b: Book)
    requires n <= |names|
    ensures Shrinks(b, WriteOffs(rules, d, names, n, b))
  {
    hide ClosedTrades, SeqSum, SoldEvents, ExitReason, Without;
    if n > 0 {
      WriteOffsShrink(rules, d, names, n - 1, b);
    }
  }

  /** None of these tickers is held past the delisting limit. */
  ghost predicate NoneStopped(rules: Rules, tickers: seq<Ticker>, b: Book) {
    forall t :: t in tickers && t in b.positions && t in b.stale ==> b.stale[t] < rules.staleLimit
  }

  lemma {:induction false} WriteOffsStop(rules: Rules, d: int, names: seq<Ticker>, n: nat, b: Book)
    requires n <= |names| && b.positions.Keys <= b.lastClose.Keys
    ensures NoneStopped(rules, names[..n], WriteOffs(rules, d, names, n, b))
  {
    hide ClosedTrades, SeqSum, SoldEvents, ExitReason, Without;
    if n > 0 {
      assert names[..n] == names[..n - 1] + [names[n - 1]];
      WriteOffsStop(rules, d, names, n - 1, b);
      WriteOffsShrink(rules, d, names, n - 1, b);
    }
  }

  // ---- Exits ----

  lemma WorkExitRested(rules: Rules, d: int, day: map<Ticker, Bar>, t: Ticker, b: Book)
    requires Rested(b, d) && PrintedOn(day, d)
    ensures Rested(WorkExit(rules, day, t, b), d)
  {
    hide Rested, ClosePosition, Without;
    var dropped := DropExit(b, t);
    SameDates(b, dropped, d);
    if t in day && t in b.exits && t in b.positions {
      CloseRested(rules.costs, dropped, t, FillMarketExit(rules.costs, 0.0, day[t], t).price, d, b.exits[t]);
    }
  }

  lemma {:induction false} WorkExitsRested(rules: Rules, d: int, day: map<Ticker, Bar>, order: seq<Ticker>, n: nat,
                                           b: Book)
    requires n <= |order| && Rested(b, d) && PrintedOn(day, d)
    ensures Rested(WorkExits(rules, day, order, n, b), d)
  {
    hide Rested, WorkExit;
    if n > 0 {
      WorkExitsRested(rules, d, day, order, n - 1, b);
      WorkExitRested(rules, d, day, order[n - 1], WorkExits(rules, day, order, n - 1, b));
    }
  }

  /** No exit is left queued for a ticker that printed. */
  ghost predicate NoneWaiting(tickers: seq<Ticker>, day: map<Ticker, Bar>, b: Book) {
    forall t :: t in tickers && t in b.exits ==> t !in day
  }

  lemma {:induction false} WorkExitsClear(rules: Rules, day: map<Ticker, Bar>, order: seq<Ticker>, n: nat, b: Book)
    requires n <= |order|
    ensures
      var c := WorkExits(rules, day, order, n, b);
      Shrinks(b, c) && c.entries == b.entries && NoneWaiting(order[..n], day, c)
  {
    hide ClosedTrades, SeqSum, SoldEvents, Without;
    if n > 0 {
      assert order[..n] == order[..n - 1] + [order[n - 1]];
      WorkExitsClear(rules, day, order, n - 1, b);
    }
  }

  // ---- Entries ----

  /** Held names are fresh: their stale count is below the delisting limit, when that is at least one session. */
  ghost predicate Fresh(rules: Rules, b: Book) {
    rules.staleLimit >= 1 ==> forall t :: t in b.positions ==> t in b.stale && b.stale[t] < rules.staleLimit
  }

  lemma OpenDates(b: Book, t: Ticker, f: Fill, d: int)
    requires TradesEndLater(b, d) && LotsBy(b, d) && f.quantity > 0.0 && f.date == d
    ensures TradesEndLater(OpenLot(b, t, f), d) && LotsBy(OpenLot(b, t, f), d)
  {
    var c := OpenLot(b, t, f);
    assert forall lot :: lot in c.positions[t] ==> lot in LotsOf(b, t) || lot == LotFrom(f);
  }

  lemma {:induction false} WorkEntriesDates(rules: Rules, d: int, day: map<Ticker, Bar>, n: nat, b: Book)
    requires n <= |rules.tickers| && Rested(b, d) && PrintedOn(day, d)
    ensures TradesEndLater(WorkEntries(rules, day, n, b), d) && LotsBy(WorkEntries(rules, day, n, b), d)
  {
    if n > 0 {
      WorkEntriesDates(rules, d, day, n - 1, b);
      var c := WorkEntries(rules, day, n - 1, b);
      var t := rules.tickers[n - 1];
      hide WorkEntries, Rested, LotsBy, TradesEndLater, OpenLot, CommissionFor, SlippageFor;
      if t in c.entries && t in day {
        var f := TryFillLimitEntry(rules.costs, c.entries[t].limit, c.entries[t].quantity, day[t], t);
        if f.Some? {
          OpenDates(c, t, f.value, d);
        }
      }
    }
  }

  lemma {:induction false} WorkEntriesOpen(rules: Rules, day: map<Ticker, Bar>, n: nat, b: Book)
    requires n <= |rules.tickers|
    ensures
      var c := WorkEntries(rules, day, n, b);
      && c == b.(cash := c.cash, positions := c.positions, funnel := c.funnel, tape := c.tape)
      && c.positions.Keys <= b.positions.Keys + (b.entries.Keys * day.Keys)
      && c.funnel == b.funnel.(filled := c.funnel.filled)
      && b.funnel.filled <= c.funnel.filled
  {
    hide CommissionFor, SlippageFor;
    if n > 0 {
      WorkEntriesOpen(rules, day, n - 1, b);
    }
  }

  /** Each queued entry fills at most once. */
  lemma {:induction false} FillsAtMostEntries(rules: Rules, day: map<Ticker, Bar>, n: nat, b: Book)
    requires n <= |rules.tickers| && Distinct(rules.tickers)
    ensures WorkEntries(rules, day, n, b).funnel.filled <= b.funnel.filled + |Working(rules.tickers[..n], b)|
  {
    hide TryFillLimitEntry;
    if n > 0 {
      FillsAtMostEntries(rules, day, n - 1, b);
      WorkEntriesOpen(rules, day, n - 1, b);
      WorkingNext(rules.tickers, n - 1, b);
      hide Working, Distinct;
    }
  }

  /** The tickers listed that have an entry queued. */
  function Working(tickers: seq<Ticker>, b: Book): set<Ticker> {
    set t | t in tickers && t in b.entries
  }

  lemma WorkingNext(tickers: seq<Ticker>, n: nat, b: Book)
    requires n < |tickers| && Distinct(tickers)
    ensures |Working(tickers[..n + 1], b)| == |Working(tickers[..n], b)| + if tickers[n] in b.entries then 1 else 0
  {
    var t, seen, worked := tickers[n], Working(tickers[..n], b), Working(tickers[..n + 1], b);
    assert tickers[..n + 1] == tickers[..n] + [t];
    assert t !in seen;
    assert forall x :: x in worked <==> x in seen || (x == t && t in b.entries);
    assert worked == if t in b.entries then seen + {t} else seen;
  }

  // ---- Overnight, in one piece ----

  /** What the book looks like once the orders of the day before are worked. */
  ghost predicate Settled(rules: Rules, d: int, day: map<Ticker, Bar>, c: Book) {
    && TradesEndLater(c, d) && LotsBy(c, d)
    && Fresh(rules, c)
    && c.exits.Keys !! day.Keys
  }

  lemma SoundAged(rules: Rules, day: map<Ticker, Bar>, b: Book)
    requires Sound(rules, b)
    ensures Sound(rules, b.(stale := Aged(day, b.stale)))
  {
    hide SleeveBuyCost, TermsFor;
  }

  lemma InNames(rules: Rules, t: Ticker)
    requires t in Elements(rules.tickers)
    ensures t in Names(rules)
  {
    SortedElements(Elements(rules.tickers));
    assert t in Elements(Names(rules));
  }

  lemma AllNamesFresh(rules: Rules, b: Book)
    requires Sound(rules, b) && NoneStopped(rules, Names(rules), b)
    ensures Fresh(rules, b)
  {
    hide Sound, Names, Elements;
    SoundKeys(rules, b);
    forall t | t in b.positions
      ensures t in Names(rules) && t in b.stale
    {
      InNames(rules, t);
    }
  }

  lemma SoundKeys(rules: Rules, b: Book)
    requires Sound(rules, b)
    ensures b.positions.Keys <= Elements(rules.tickers) && b.positions.Keys <= b.stale.Keys
  {
    hide SleeveBuyCost, TermsFor, Elements;
  }

  lemma AllExitsClear(rules: Rules, day: map<Ticker, Bar>, w: Book, x: Book)
    requires Sound(rules, w) && NoneWaiting(w.exitOrder, day, x) && x.exits.Keys <= w.exits.Keys
    ensures x.exits.Keys !! day.Keys
  {
    hide SleeveBuyCost, TermsFor;
    forall t | t in x.exits.Keys
      ensures t !in day.Keys
    {
      assert t in w.exits.Keys;
      assert t in w.exitOrder;
    }
  }

  lemma FreshAfterEntries(rules: Rules, day: map<Ticker, Bar>, aged: Book, x: Book, c: Book)
    requires Fresh(rules, x)
    requires x.stale == c.stale && x.entries.Keys <= x.stale.Keys
    requires forall t :: t in x.stale && t in day ==> x.stale[t] == 0
    requires c.positions.Keys <= x.positions.Keys + (x.entries.Keys * day.Keys)
    ensures Fresh(rules, c)
  {
  }

  lemma SoundQueues(rules: Rules, b: Book)
    requires Sound(rules, b)
    ensures b.entries.Keys <= b.stale.Keys && b.positions.Keys <= b.lastClose.Keys
  {
  }

  lemma OvernightSettles(rules: Rules, d: int, day: map<Ticker, Bar>, b: Book)
    requires Distinct(rules.tickers) && Sound(rules, b)
    requires Rested(b, d) && PrintedOn(day, d)
    ensures Settled(rules, d, day, AfterEntries(rules, d, day, b))
    ensures
      var c := AfterEntries(rules, d, day, b);
      && c.funnel == b.funnel.(filled := c.funnel.filled)
      && b.funnel.filled <= c.funnel.filled <= b.funnel.filled + |b.entries|
  {
    hide Sound, Rested, NoneStopped, NoneWaiting, Fresh, WriteOffs, WorkExits, WorkEntries, TradesEndLater, LotsBy,
         Injected, UnmatchedFills, SortedInts, PrintedOn;
    var names := Names(rules);
    var aged := b.(stale := Aged(day, b.stale));
    SoundAged(rules, day, b);
    SameDates(b, aged, d);
    SoundQueues(rules, aged);
    WriteOffsRested(rules, d, names, |names|, aged);
    WriteOffsShrink(rules, d, names, |names|, aged);
    WriteOffsStop(rules, d, names, |names|, aged);
    WriteOffsKeep(rules, d, names, |names|, aged);
    assert names[..|names|] == names;
    var w := AfterWriteOffs(rules, d, day, b);
    AllNamesFresh(rules, w);
    WorkExitsRested(rules, d, day, w.exitOrder, |w.exitOrder|, w);
    WorkExitsClear(rules, day, w.exitOrder, |w.exitOrder|, w);
    WorkExitsKeep(rules, day, w.exitOrder, |w.exitOrder|, w);
    assert w.exitOrder[..|w.exitOrder|] == w.exitOrder;
    var x := AfterExits(rules, d, day, b);
    AllExitsClear(rules, day, w, x);
    SoundQueues(rules, x);
    FreshShrinks(rules, w, x);
    WorkEntriesDates(rules, d, day, |rules.tickers|, x);
    WorkEntriesOpen(rules, day, |rules.tickers|, x);
    FreshAfterEntries(rules, day, aged, x, AfterEntries(rules, d, day, b));
    FillsAtMostEntries(rules, day, |rules.tickers|, x);
    var worked := Working(rules.tickers[..|rules.tickers|], x);
    SubsetCount(worked, b.entries.Keys);
  }

  lemma FreshShrinks(rules: Rules, b: Book, c: Book)
    requires Fresh(rules, b) && Shrinks(b, c)
    ensures Fresh(rules, c)
  {
  }

  // ---- Decisions ----

  function Undecided(f: Funnel): int {
    f.signals - f.riskRefused - f.wholeShareSkipped - f.cashSkipped - f.queued
  }

  /**
   The queues part-way through the decisions: an entry is only ever queued for
   a ticker already decided this session, and never for one with an exit queued.
   */
  ghost predicate QueuedApart(decided: seq<Ticker>, day: map<Ticker, Bar>, out: set<Ticker>, b: Book, c: Book) {
    && (forall t :: t in c.entries ==> t in decided && t in day && t !in out && t !in c.exits)
    && (forall t :: t in c.exits && t !in b.exits ==> t in decided)
    && c.funnel.queued == b.funnel.queued + |c.entries|
    && Undecided(c.funnel) == Undecided(b.funnel)
  }

  lemma TallyUndecided(f: Funnel, o: BuyOutcome)
    ensures Undecided(Tallied(f, o)) == Undecided(f)
    ensures Tallied(f, o).queued == f.queued + if o.Queued? then 1 else 0
  {
  }

  /** A ticker's queued entry is a new one. */
  lemma EntryApart(decided: seq<Ticker>, day: map<Ticker, Bar>, out: set<Ticker>, t: Ticker, b: Book, c: Book,
                   f: Funnel,
                   e: Option<PendingEntry>)
    requires QueuedApart(decided, day, out, b, c) && t !in decided && t in day && t !in out && t !in c.exits
    requires Undecided(f) == Undecided(c.funnel) && f.queued == c.funnel.queued + if e.Some? then 1 else 0
    ensures QueuedApart(decided + [t], day, out, b,
                        c.(funnel := f, entries := if e.Some? then c.entries[t := e.value] else c.entries))
  {
    hide Undecided;
    if e.Some? {
      EntryAdded(c.entries, t, e.value);
    }
  }

  lemma EntryAdded(entries: map<Ticker, PendingEntry>, t: Ticker, e: PendingEntry)
    ensures t !in entries ==> |entries[t := e]| == |entries| + 1
    ensures forall x :: x in entries[t := e] <==> x in entries || x == t
  {
    var grown := entries[t := e];
    assert grown.Keys == entries.Keys + {t};
    assert |grown| == |grown.Keys| && |entries| == |entries.Keys|;
  }

  lemma ExitApart(decided: seq<Ticker>, day: map<Ticker, Bar>, out: set<Ticker>, t: Ticker, b: Book, c: Book,
                  reason: string)
    requires QueuedApart(decided, day, out, b, c) && t !in decided && t in day && t !in out
    ensures QueuedApart(decided + [t], day, out, b, QueueExit(c, t, reason))
  {
    hide Undecided;
  }

  lemma NoneApart(decided: seq<Ticker>, day: map<Ticker, Bar>, out: set<Ticker>, t: Ticker, b: Book, c: Book)
    requires QueuedApart(decided, day, out, b, c)
    ensures QueuedApart(decided + [t], day, out, b, c)
  {
    hide Undecided;
  }

  lemma DecideApart(rules: Rules, strategy: Strategy, d: int, day: map<Ticker, Bar>, out: set<Ticker>, ctx: Context,
                    decided: seq<Ticker>, t: Ticker, b: Book, c: Book)
    requires QueuedApart(decided, day, out, b, c) && t !in decided
    requires forall x :: x in b.exits && x in day ==> x in out
    ensures QueuedApart(decided + [t], day, out, b, Decide(rules, strategy, d, day, out, ctx, t, c))
  {
    hide OutcomeOf, Tallied, QueueExit, Undecided;
    if t in day && t !in out {
      assert t !in c.exits;
      hide QueuedApart;
      var signal := strategy(t, HistoryOf(c, t), ctx);
      NoneApart(decided, day, out, t, b, c);
      if signal.Some? {
        ExitApart(decided, day, out, t, b, c, signal.value.reason);
        var o := OutcomeOf(rules, d, day, t, signal.value, c);
        TallyUndecided(c.funnel, o);
        EntryApart(decided, day, out, t, b, c, Tallied(c.funnel, o), if o.Queued? then Some(o.entry) else None);
      }
    } else {
      NoneApart(decided, day, out, t, b, c);
    }
  }

  lemma {:induction false} DecisionsApart(rules: Rules, strategy: Strategy, d: int, day: map<Ticker, Bar>,
                                          out: set<Ticker>, ctx: Context, n: nat, b: Book)
    requires n <= |rules.tickers| && Distinct(rules.tickers) && Sound(rules, b) && day.Keys <= b.lastClose.Keys
    requires b.entries == map[] && forall t :: t in b.exits && t in day ==> t in out
    ensures QueuedApart(rules.tickers[..n], day, out, b, Decisions(rules, strategy, d, day, out, ctx, n, b))
  {
    if n > 0 {
      var t := rules.tickers[n - 1];
      assert rules.tickers[..n] == rules.tickers[..n - 1] + [t];
      assert t !in rules.tickers[..n - 1];
      DecisionsApart(rules, strategy, d, day, out, ctx, n - 1, b);
      DecisionsKeep(rules, strategy, d, day, out, ctx, n - 1, b);
      hide Sound, Decide, QueuedApart;
      DecideApart(rules, strategy, d, day, out, ctx, rules.tickers[..n - 1], t, b,
                  Decisions(rules, strategy, d, day, out, ctx, n - 1, b));
    }
  }

  // ---- The session invariant ----

  /** A holding outside the universe has an exit queued. */
  ghost predicate RemovedLeaving(rules: Rules, b: Book, d: int) {
    forall t :: t in b.positions && !rules.member(t, d) ==> t in b.exits
  }

  /** An entry is queued only for a member, and never beside an exit. */
  ghost predicate EntriesApart(rules: Rules, b: Book, d: int) {
    forall t :: t in b.entries ==> t !in b.exits && rules.member(t, d)
  }

  ghost predicate Counted(b: Book) {
    Undecided(b.funnel) == 0 && b.funnel.filled >= 0 && ExpiredCount(b) >= 0
  }

  /** What holds whenever a session has ended on day d. */
  ghost predicate Orderly(rules: Rules, b: Book, d: int) {
    && TradesEndLater(b, d) && LotsBy(b, d)
    && Fresh(rules, b)
    && EntriesApart(rules, b, d)
    && RemovedLeaving(rules, b, d)
    && Counted(b)
  }

  /** The book between the gate and the decisions. */
  ghost predicate Gated(rules: Rules, d: int, day: map<Ticker, Bar>, b: Book) {
    && TradesEndLater(b, d) && LotsBy(b, d) && Fresh(rules, b) && RemovedLeaving(rules, b, d)
    && (forall t :: t in b.exits && t in day ==> !rules.member(t, d))
  }

  lemma GateSettles(rules: Rules, d: int, day: map<Ticker, Bar>, recorded: Book, c: Book)
    requires Sound(rules, recorded)
    requires Settled(rules, d, day, recorded) && c == Gate(rules, d, Names(rules), |Names(rules)|, recorded)
    ensures Gated(rules, d, day, c)
  {
    hide Gate, SleeveBuyCost, TermsFor, TradesEndLater, LotsBy;
    var names := Names(rules);
    GateKeeps(rules, d, names, |names|, recorded);
    assert names[..|names|] == names;
    assert forall t :: t in recorded.positions ==> t in Elements(rules.tickers) && t in names;
    SamePositions(rules, recorded, c, d);
  }

  lemma SamePositions(rules: Rules, b: Book, c: Book, d: int)
    requires b.positions == c.positions && b.trades == c.trades && b.stale == c.stale
    ensures TradesEndLater(b, d) <==> TradesEndLater(c, d)
    ensures LotsBy(b, d) <==> LotsBy(c, d)
    ensures Fresh(rules, b) <==> Fresh(rules, c)
    ensures b.exits == c.exits ==> (RemovedLeaving(rules, b, d) <==> RemovedLeaving(rules, c, d))
  {
  }

  lemma RecordedSettled(rules: Rules, d: int, day: map<Ticker, Bar>, b: Book)
    requires Settled(rules, d, day, b)
    ensures Settled(rules, d, day, Recorded(day, Expired(b)))
  {
  }

  lemma GateOrderly(rules: Rules, d: int, day: map<Ticker, Bar>, b: Book)
    requires Distinct(rules.tickers) && Sound(rules, b) && day.Keys <= Elements(rules.tickers)
    requires Rested(b, d) && PrintedOn(day, d)
    ensures Gated(rules, d, day, BeforeFlows(rules, d, day, b))
    ensures
      var c := BeforeFlows(rules, d, day, b);
      && c.funnel == b.funnel.(filled := c.funnel.filled)
      && b.funnel.filled <= c.funnel.filled <= b.funnel.filled + |b.entries|
  {
    hide Sound, Rested, Settled, AfterEntries, Injected, UnmatchedFills, Recorded, Gated, PrintedOn, Distinct;
    OvernightSettles(rules, d, day, b);
    OvernightKeeps(rules, d, day, b);
    var filled := AfterEntries(rules, d, day, b);
    RecordedSettled(rules, d, day, filled);
    var recorded := Recorded(day, Expired(filled));
    ExpiredSound(rules, day, filled);
    GateSettles(rules, d, day, recorded, BeforeFlows(rules, d, day, b));
    GateKeeps(rules, d, Names(rules), |Names(rules)|, recorded);
  }

  lemma ExpiredSound(rules: Rules, day: map<Ticker, Bar>, b: Book)
    requires Sound(rules, b) && day.Keys <= Elements(rules.tickers)
    ensures Sound(rules, Recorded(day, Expired(b))) && Recorded(day, Expired(b)).funnel == b.funnel
  {
    SameHoldings(rules, b, Expired(b));
    RecordedKeeps(rules, day, Expired(b));
  }

  lemma DecidedOrderly(rules: Rules, strategy: Strategy, d: int, day: map<Ticker, Bar>, b: Book)
    requires Distinct(rules.tickers) && Sound(rules, b) && day.Keys <= b.lastClose.Keys
    requires Gated(rules, d, day, b) && b.entries == map[]
    requires Undecided(b.funnel) == 0 && 0 <= b.funnel.filled <= b.funnel.queued
    ensures Orderly(rules, AfterDecisions(rules, strategy, d, day, b), d)
  {
    hide Sound, Decisions, TradesEndLater, LotsBy, Fresh, Injected, UnmatchedFills;
    var out := OutOfUniverse(rules, d, day, b);
    AfterDecisionsKeeps(rules, strategy, d, day, b);
    DecisionsApart(rules, strategy, d, day, out, RunnerContext(b, rules.initial), |rules.tickers|, b);
    var c := AfterDecisions(rules, strategy, d, day, b);
    SamePositions(rules, b, c, d);
    assert RemovedLeaving(rules, c, d);
    assert EntriesApart(rules, c, d);
    assert Counted(c);
  }

  lemma StepOrderly(rules: Rules, strategy: Strategy, basis: Option<DatedSum>, d: int, day: map<Ticker, Bar>,
                    st: State, next: State)
    requires Distinct(rules.tickers) && day.Keys <= Elements(rules.tickers)
    requires Sound(rules, st.book) && Rested(st.book, d) && PrintedOn(day, d) && Counted(st.book)
    requires StepDay(rules, strategy, basis, d, day, st) == Success(next)
    ensures Orderly(rules, next.book, d)
  {
    hide BeforeFlows, Sound, Injected, UnmatchedFills, Nav, LearnedScale, ApplyFlows, AfterDecisions, Rested,
         TradesEndLater, LotsBy, Fresh, Closed, Orderly, PrintedOn, Distinct;
    BeforeFlowsKeeps(rules, d, day, st.book);
    GateOrderly(rules, d, day, st.book);
    var gated := st.(book := BeforeFlows(rules, d, day, st.book));
    FlowsKeep(rules, d, gated);
    FlowsBalance(rules, d, gated);
    var f := ApplyFlows(d, gated).value.book;
    SamePositions(rules, gated.book, f, d);
    DecidedOrderly(rules, strategy, d, day, f);
    ClosedOrderly(rules, d, day, AfterDecisions(rules, strategy, d, day, f));
  }

  lemma ClosedOrderly(rules: Rules, d: int, day: map<Ticker, Bar>, b: Book)
    requires Orderly(rules, b, d)
    ensures Orderly(rules, Closed(day, b), d)
  {
    var c := Closed(day, b);
    forall t, lot | t in c.positions && lot in c.positions[t]
      ensures lot.entryDate <= d
    {
      var i :| 0 <= i < |c.positions[t]| && c.positions[t][i] == lot;
      assert b.positions[t][i] in b.positions[t];
    }
  }

  lemma DayPrinted(bars: Bars, d: int)
    ensures PrintedOn(Day(bars, d), d)
  {
  }

  /** Every session of every run ends orderly. */
  lemma {:induction false} RunOrderly(rules: Rules, strategy: Strategy, plan: Plan, bars: Bars, n: nat, st: State)
    requires Universe(rules, bars)
    requires 0 < n <= |Sessions(bars)| && RunTo(rules, strategy, plan, bars, n) == Success(st)
    ensures Orderly(rules, st.book, Sessions(bars)[n - 1])
  {
    hide StepDay, Balanced, Orderly, Day, Start, Counted, PrintedOn;
    var d := Sessions(bars)[n - 1];
    var prev := RunTo(rules, strategy, plan, bars, n - 1).value;
    RunBalanced(rules, strategy, plan, bars, n - 1, prev);
    DayInUniverse(rules, bars, d);
    DayPrinted(bars, d);
    if n > 1 {
      RunOrderly(rules, strategy, plan, bars, n - 1, prev);
      OrderlyRests(rules, prev, Sessions(bars)[n - 2], d);
    } else {
      StartRests(rules, plan, d);
    }
    BalancedIsSound(rules, prev);
    StepOrderly(rules, strategy, plan.basis, d, Day(bars, d), prev, st);
  }

  lemma OrderlyRests(rules: Rules, st: State, earlier: int, d: int)
    requires Orderly(rules, st.book, earlier) && earlier < d
    ensures Rested(st.book, d) && Counted(st.book)
  {
  }

  lemma StartRests(rules: Rules, plan: Plan, d: int)
    ensures
      var b := Start(rules, plan).book;
      Rested(b, d) && Counted(b)
  {
  }
}
