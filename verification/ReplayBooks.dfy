/**
 What every step of the replay keeps: a sound book, the money balance and the
 lot balance.
 */
module ReplayBooks {
  import opened Basics
  import opened Market
  import opened Costs
  import opened Replay

  /**
   Every key belongs to the universe; whatever is held or queued has printed a
   close; a held ticker holds at least one lot; the exit queue lists the queued
   exits; an entry reserves its worst-case cost.
   */
  ghost predicate Sound(rules: Rules, b: Book) {
    && b.positions.Keys + b.entries.Keys <= b.lastClose.Keys
    && b.lastClose.Keys == b.stale.Keys
    && b.lastClose.Keys + b.exits.Keys <= Elements(rules.tickers)
    && b.history.Keys == Elements(rules.tickers)
    && (forall t :: t in b.positions ==> b.positions[t] != [])
    && (forall t :: t in b.exits <==> t in b.exitOrder)
    && (forall t :: t in b.entries ==>
          b.entries[t].cashCost == SleeveBuyCost(b.entries[t].quantity, b.entries[t].limit, TermsFor(rules, t)))
  }

  // ---- The money balance ----

  function LotCost(lot: Lot): real {
    lot.entryPrice * lot.quantity + lot.entryCommission
  }

  function PnlOf(tr: Trade): real {
    tr.pnl
  }

  function CostBasis(positions: map<Ticker, seq<Lot>>): Ticker -> real {
    t => if t in positions then SeqSum(positions[t], LotCost) else 0.0
  }

  /** What the open lots cost, entry commissions included. */
  function BookCost(rules: Rules, b: Book): real {
    Sum(rules.tickers, CostBasis(b.positions))
  }

  function Realised(b: Book): real {
    SeqSum(b.trades, PnlOf)
  }

  /** Cash that neither the seed, the closed trades nor the open lots explain: the capital flows. */
  function Injected(rules: Rules, b: Book): real {
    b.cash - rules.initial - Realised(b) + BookCost(rules, b)
  }

  /** Fills that neither a closed trade nor an open lot accounts for. */
  function UnmatchedFills(rules: Rules, b: Book): int {
    b.funnel.filled - |b.trades| - |OpenPositions(rules, b)|
  }

  /** One piece of book work: soundness survives, no money and no lot appears or vanishes. */
  ghost predicate Keeps(rules: Rules, b: Book, c: Book) {
    && Sound(rules, c)
    && Injected(rules, c) == Injected(rules, b)
    && UnmatchedFills(rules, c) == UnmatchedFills(rules, b)
  }

  lemma {:induction false} ClosedTradesAre(m: CostModel, t: Ticker, lots: seq<Lot>, price: real, d: int, reason: string)
    ensures
      var closed := ClosedTrades(m, t, lots, price, d, reason);
      |closed| == |lots| && forall i :: 0 <= i < |lots| ==> closed[i] == TradeOf(m, t, lots[i], price, d, reason)
  {
    if lots != [] {
      ClosedTradesAre(m, t, lots[..|lots| - 1], price, d, reason);
    }
  }

  /** One more lot closed is one more trade, one more sale, and its proceeds. */
  lemma LotTraded(m: CostModel, t: Ticker, lots: seq<Lot>, i: nat, price: real, d: int, reason: string)
    requires i < |lots|
    ensures
      var done, trade := ClosedTrades(m, t, lots[..i], price, d, reason), TradeOf(m, t, lots[i], price, d, reason);
      && ClosedTrades(m, t, lots[..i + 1], price, d, reason) == done + [trade]
      && SoldEvents(done + [trade]) == SoldEvents(done) + [SoldEvent(trade)]
      && SeqSum(done + [trade], CashRaised) == SeqSum(done, CashRaised) + CashRaised(trade)
  {
    hide TradeOf, CashRaised, SoldEvent;
    assert lots[..i + 1][..i] == lots[..i];
    var done, trade := ClosedTrades(m, t, lots[..i], price, d, reason), TradeOf(m, t, lots[i], price, d, reason);
    assert (done + [trade])[..|done|] == done;
    SeqSumPush(done, trade, CashRaised);
  }

  lemma TradeBalance(m: CostModel, t: Ticker, lot: Lot, price: real, d: int, reason: string)
    ensures
      var tr := TradeOf(m, t, lot, price, d, reason);
      CashRaised(tr) == PnlOf(tr) + LotCost(lot)
  {
  }

  lemma {:induction false} ClosedTradesBalance(m: CostModel, t: Ticker, lots: seq<Lot>, price: real, d: int,
                                               reason: string)
    ensures
      var closed := ClosedTrades(m, t, lots, price, d, reason);
      SeqSum(closed, CashRaised) == SeqSum(closed, PnlOf) + SeqSum(lots, LotCost)
  {
    if lots != [] {
      var n := |lots| - 1;
      ClosedTradesBalance(m, t, lots[..n], price, d, reason);
      var earlier, tr := ClosedTrades(m, t, lots[..n], price, d, reason), TradeOf(m, t, lots[n], price, d, reason);
      TradeBalance(m, t, lots[n], price, d, reason);
      SeqSumPush(earlier, tr, CashRaised);
      SeqSumPush(earlier, tr, PnlOf);
    }
  }

  lemma {:induction false} OpenChange(tickers: seq<Ticker>, n: nat, b: Book, c: Book, t: Ticker)
    requires n <= |tickers| && Distinct(tickers)
    requires forall x :: x != t ==> LotsOf(b, x) == LotsOf(c, x)
    ensures |OpenTo(tickers, n, c)|
            == |OpenTo(tickers, n, b)| + if t in tickers[..n] then |LotsOf(c, t)| - |LotsOf(b, t)| else 0
  {
    if n > 0 {
      assert tickers[..n] == tickers[..n - 1] + [tickers[n - 1]];
      OpenChange(tickers, n - 1, b, c, t);
    }
  }

  lemma BookChange(rules: Rules, b: Book, c: Book, t: Ticker)
    requires Distinct(rules.tickers) && t in Elements(rules.tickers)
    requires forall x :: x != t ==> LotsOf(b, x) == LotsOf(c, x)
    ensures BookCost(rules, c) == BookCost(rules, b) + SeqSum(LotsOf(c, t), LotCost) - SeqSum(LotsOf(b, t), LotCost)
    ensures |OpenPositions(rules, c)| == |OpenPositions(rules, b)| + |LotsOf(c, t)| - |LotsOf(b, t)|
  {
    var ts := rules.tickers;
    assert ts[..|ts|] == ts;
    OpenChange(ts, |ts|, b, c, t);
    var f, g := CostBasis(b.positions), CostBasis(c.positions);
    forall x
      ensures f(x) == SeqSum(LotsOf(b, x), LotCost) && g(x) == SeqSum(LotsOf(c, x), LotCost)
    {
    }
    SumChange(ts, |ts|, f, g, t);
  }

  lemma CloseKeeps(rules: Rules, b: Book, t: Ticker, price: real, d: int, reason: string)
    requires Distinct(rules.tickers) && Sound(rules, b) && t in b.positions
    ensures Keeps(rules, b, ClosePosition(rules.costs, b, t, price, d, reason))
  {
    var c := ClosePosition(rules.costs, b, t, price, d, reason);
    assert Sound(rules, c) && t in Elements(rules.tickers) by {
      hide SleeveBuyCost, TermsFor, ClosedTrades, SeqSum, SoldEvents;
    }
    CloseBalances(rules, b, t, price, d, reason);
  }

  lemma CloseBalances(rules: Rules, b: Book, t: Ticker, price: real, d: int, reason: string)
    requires Distinct(rules.tickers) && t in Elements(rules.tickers) && t in b.positions
    ensures
      var c := ClosePosition(rules.costs, b, t, price, d, reason);
      Injected(rules, c) == Injected(rules, b) && UnmatchedFills(rules, c) == UnmatchedFills(rules, b)
  {
    hide SoldEvents, BookCost, OpenPositions, Elements, Distinct;
    var c := ClosePosition(rules.costs, b, t, price, d, reason);
    var closed := ClosedTrades(rules.costs, t, b.positions[t], price, d, reason);
    ClosedTradesAre(rules.costs, t, b.positions[t], price, d, reason);
    ClosedTradesBalance(rules.costs, t, b.positions[t], price, d, reason);
    SeqSumConcat(b.trades, closed, PnlOf);
    BookChange(rules, b, c, t);
  }

  lemma OpenKeeps(rules: Rules, b: Book, t: Ticker, f: Fill)
    requires Distinct(rules.tickers) && Sound(rules, b) && t in b.lastClose && f.quantity > 0.0
    ensures Keeps(rules, b, OpenLot(b, t, f))
  {
    assert Sound(rules, OpenLot(b, t, f)) && t in Elements(rules.tickers) by {
      hide SleeveBuyCost, TermsFor, LotFrom;
    }
    OpenBalances(rules, b, t, f);
  }

  lemma OpenBalances(rules: Rules, b: Book, t: Ticker, f: Fill)
    requires Distinct(rules.tickers) && t in Elements(rules.tickers) && f.quantity > 0.0
    ensures Injected(rules, OpenLot(b, t, f)) == Injected(rules, b)
    ensures UnmatchedFills(rules, OpenLot(b, t, f)) == UnmatchedFills(rules, b)
  {
    hide BookCost, OpenPositions, Elements, Distinct;
    var c := OpenLot(b, t, f);
    SeqSumPush(LotsOf(b, t), LotFrom(f), LotCost);
    BookChange(rules, b, c, t);
    assert LotCost(LotFrom(f)) == f.price * f.quantity + f.commission;
  }

  /** Work that touches neither cash, positions, trades nor the fill count moves no balance. */
  lemma SameHoldings(rules: Rules, b: Book, c: Book)
    requires b.cash == c.cash && b.positions == c.positions && b.trades == c.trades
    requires b.funnel.filled == c.funnel.filled
    ensures Injected(rules, c) == Injected(rules, b) && UnmatchedFills(rules, c) == UnmatchedFills(rules, b)
  {
    SameLots(rules.tickers, |rules.tickers|, b, c);
  }

  lemma {:induction false} SameLots(tickers: seq<Ticker>, n: nat, b: Book, c: Book)
    requires n <= |tickers|
    requires forall t :: LotsOf(b, t) == LotsOf(c, t)
    ensures OpenTo(tickers, n, b) == OpenTo(tickers, n, c)
  {
    if n > 0 {
      SameLots(tickers, n - 1, b, c);
    }
  }

  // ---- Phase by phase ----

  lemma WriteOffKeeps(rules: Rules, d: int, t: Ticker, b: Book)
    requires Distinct(rules.tickers) && Sound(rules, b)
    ensures Keeps(rules, b, WriteOff(rules, d, t, b))
  {
    var dropped := DropExit(b.(entries := b.entries - {t}), t);
    SameHoldings(rules, b, dropped);
    assert Sound(rules, dropped);
    if t in b.positions {
      CloseKeeps(rules, dropped, t, FillTerminalExit(rules.costs, 0.0, b.lastClose[t], d, t).price, d,
                 ExitReason(b, t));
    }
  }

  lemma {:induction false} WriteOffsKeep(rules: Rules, d: int, names: seq<Ticker>, n: nat, b: Book)
    requires n <= |names| && Distinct(rules.tickers) && Sound(rules, b)
    ensures Keeps(rules, b, WriteOffs(rules, d, names, n, b))
  {
    hide Sound, Injected, UnmatchedFills, WriteOff;
    if n > 0 {
      WriteOffsKeep(rules, d, names, n - 1, b);
      WriteOffKeeps(rules, d, names[n - 1], WriteOffs(rules, d, names, n - 1, b));
    }
  }

  lemma WorkExitKeeps(rules: Rules, day: map<Ticker, Bar>, t: Ticker, b: Book)
    requires Distinct(rules.tickers) && Sound(rules, b)
    ensures Keeps(rules, b, WorkExit(rules, day, t, b))
  {
    var dropped := DropExit(b, t);
    SameHoldings(rules, b, dropped);
    assert Sound(rules, dropped);
    if t in day && t in b.exits && t in b.positions {
      var f := FillMarketExit(rules.costs, 0.0, day[t], t);
      CloseKeeps(rules, dropped, t, f.price, f.date, b.exits[t]);
    }
  }

  lemma {:induction false} WorkExitsKeep(rules: Rules, day: map<Ticker, Bar>, order: seq<Ticker>, n: nat, b: Book)
    requires n <= |order| && Distinct(rules.tickers) && Sound(rules, b)
    ensures Keeps(rules, b, WorkExits(rules, day, order, n, b))
  {
    hide Sound, Injected, UnmatchedFills, WorkExit;
    if n > 0 {
      WorkExitsKeep(rules, day, order, n - 1, b);
      WorkExitKeeps(rules, day, order[n - 1], WorkExits(rules, day, order, n - 1, b));
    }
  }

  lemma WorkEntryKeeps(rules: Rules, day: map<Ticker, Bar>, t: Ticker, b: Book)
    requires Distinct(rules.tickers) && Sound(rules, b)
    ensures Keeps(rules, b, WorkEntry(rules, day, t, b))
    ensures WorkEntry(rules, day, t, b).entries == b.entries
  {
    hide Injected, UnmatchedFills, SleeveBuyCost, TermsFor, CommissionFor, SlippageFor;
    if t in b.entries && t in day {
      var e := b.entries[t];
      var fill := TryFillLimitEntry(rules.costs, e.limit, e.quantity, day[t], t);
      if fill.Some? {
        OpenKeeps(rules, b, t, fill.value);
      }
    }
  }

  lemma {:induction false} WorkEntriesKeep(rules: Rules, day: map<Ticker, Bar>, n: nat, b: Book)
    requires n <= |rules.tickers| && Distinct(rules.tickers) && Sound(rules, b)
    ensures Keeps(rules, b, WorkEntries(rules, day, n, b))
    ensures WorkEntries(rules, day, n, b).entries == b.entries
  {
    hide Sound, Injected, UnmatchedFills, WorkEntry;
    if n > 0 {
      WorkEntriesKeep(rules, day, n - 1, b);
      WorkEntryKeeps(rules, day, rules.tickers[n - 1], WorkEntries(rules, day, n - 1, b));
    }
  }

  /** Gating touches the exits alone, and queues them only for what is held. */
  lemma {:induction false} GateSame(rules: Rules, d: int, names: seq<Ticker>, n: nat, b: Book)
    requires n <= |names|
    ensures
      var c := Gate(rules, d, names, n, b);
      && c == b.(exits := c.exits, exitOrder := c.exitOrder)
      && b.exits.Keys <= c.exits.Keys <= b.exits.Keys + b.positions.Keys
  {
    if n > 0 {
      GateSame(rules, d, names, n - 1, b);
    }
  }

  lemma {:induction false} GateKeeps(rules: Rules, d: int, names: seq<Ticker>, n: nat, b: Book)
    requires n <= |names| && Sound(rules, b)
    ensures
      var c := Gate(rules, d, names, n, b);
      && Sound(rules, c)
      && c == b.(exits := c.exits, exitOrder := c.exitOrder)
      && b.exits.Keys <= c.exits.Keys <= b.exits.Keys + b.positions.Keys
      && (forall t :: t in b.exits ==> c.exits[t] == b.exits[t])
      && (forall t :: t in c.exits && t !in b.exits ==> !rules.member(t, d))
      && (forall t :: t in names[..n] && t in b.positions && !rules.member(t, d) ==> t in c.exits)
  {
    if n > 0 {
      assert names[..n] == names[..n - 1] + [names[n - 1]];
      GateKeeps(rules, d, names, n - 1, b);
    }
  }

  /** Only the queues and the funnel move when a ticker is decided, and only at that ticker. */
  ghost predicate QueuesOnly(t: Ticker, b: Book, c: Book) {
    && c == b.(exits := c.exits, exitOrder := c.exitOrder, entries := c.entries, funnel := c.funnel)
    && c.funnel.filled == b.funnel.filled
    && (c.exits == b.exits || (t !in b.exits && c.exits.Keys == b.exits.Keys + {t} && c.entries == b.entries))
    && (c.entries == b.entries || (c.entries.Keys == b.entries.Keys + {t} && c.exits == b.exits))
    && (forall x :: x in b.exits ==> x in c.exits && c.exits[x] == b.exits[x])
    && (forall x :: x in b.entries && x != t ==> x in c.entries && c.entries[x] == b.entries[x])
  }

  /** A queued entry reserves its worst-case cost. */
  lemma QueuedReserves(rules: Rules, d: int, day: map<Ticker, Bar>, t: Ticker, s: Signal, b: Book)
    ensures
      var o := OutcomeOf(rules, d, day, t, s, b);
      o.Queued? ==> o.entry.cashCost == SleeveBuyCost(o.entry.quantity, o.entry.limit, TermsFor(rules, t))
  {
    hide Query, Sizing, SleeveBuyCost, TermsFor, Committed, Trunc;
  }

  lemma TallyFilled(f: Funnel, o: BuyOutcome)
    ensures Tallied(f, o).filled == f.filled
  {
  }

  lemma FunnelSound(rules: Rules, b: Book, f: Funnel)
    requires Sound(rules, b)
    ensures Sound(rules, b.(funnel := f))
  {
    hide SleeveBuyCost, TermsFor;
  }

  lemma EntrySound(rules: Rules, b: Book, t: Ticker, e: PendingEntry)
    requires Sound(rules, b) && t in b.lastClose && e.cashCost == SleeveBuyCost(e.quantity, e.limit, TermsFor(rules, t))
    ensures Sound(rules, b.(entries := b.entries[t := e]))
  {
    hide SleeveBuyCost, TermsFor;
  }

  lemma EntryQueuesOnly(t: Ticker, b: Book, f: Funnel, e: Option<PendingEntry>)
    requires f.filled == b.funnel.filled
    ensures QueuesOnly(t, b, b.(funnel := f, entries := if e.Some? then b.entries[t := e.value] else b.entries))
  {
    if e.Some? {
      var grown := b.entries[t := e.value];
      assert forall x :: x in grown <==> x in b.entries.Keys + {t};
    }
  }

  lemma BuyKeeps(rules: Rules, d: int, day: map<Ticker, Bar>, t: Ticker, s: Signal, b: Book)
    requires Sound(rules, b) && t in b.lastClose
    ensures Sound(rules, DecideBuy(rules, d, day, t, s, b))
    ensures QueuesOnly(t, b, DecideBuy(rules, d, day, t, s, b))
  {
    hide OutcomeOf, SleeveBuyCost, TermsFor, Sound, QueuesOnly, Tallied;
    var o := OutcomeOf(rules, d, day, t, s, b);
    var f := Tallied(b.funnel, o);
    QueuedReserves(rules, d, day, t, s, b);
    TallyFilled(b.funnel, o);
    FunnelSound(rules, b, f);
    EntryQueuesOnly(t, b, f, if o.Queued? then Some(o.entry) else None);
    if o.Queued? {
      EntrySound(rules, b.(funnel := f), t, o.entry);
    }
  }

  lemma QueueExitKeeps(rules: Rules, t: Ticker, reason: string, b: Book)
    requires Sound(rules, b) && t in b.lastClose
    ensures Sound(rules, QueueExit(b, t, reason))
    ensures QueuesOnly(t, b, QueueExit(b, t, reason))
  {
    hide SleeveBuyCost, TermsFor;
  }

  lemma NothingQueued(t: Ticker, b: Book)
    ensures QueuesOnly(t, b, b)
  {
  }

  lemma DecideKeeps(rules: Rules, strategy: Strategy, d: int, day: map<Ticker, Bar>, out: set<Ticker>, ctx: Context,
                    t: Ticker, b: Book)
    requires Sound(rules, b) && day.Keys <= b.lastClose.Keys
    ensures
      var c := Decide(rules, strategy, d, day, out, ctx, t, b);
      Sound(rules, c) && QueuesOnly(t, b, c) && (c != b ==> t in day && t !in out)
  {
    hide DecideBuy, QueueExit, Sound, QueuesOnly;
    NothingQueued(t, b);
    if t in day && t !in out {
      var signal := strategy(t, HistoryOf(b, t), ctx);
      if signal.Some? {
        BuyKeeps(rules, d, day, t, signal.value, b);
        QueueExitKeeps(rules, t, signal.value.reason, b);
      }
    }
  }

  lemma {:induction false} DecisionsKeep(rules: Rules, strategy: Strategy, d: int, day: map<Ticker, Bar>,
                                         out: set<Ticker>, ctx: Context, n: nat, b: Book)
    requires n <= |rules.tickers| && Sound(rules, b) && day.Keys <= b.lastClose.Keys
    ensures
      var c := Decisions(rules, strategy, d, day, out, ctx, n, b);
      && Sound(rules, c)
      && c == b.(exits := c.exits, exitOrder := c.exitOrder, entries := c.entries, funnel := c.funnel)
      && c.funnel.filled == b.funnel.filled
      && b.exits.Keys <= c.exits.Keys
  {
    hide Sound, Decide;
    if n > 0 {
      DecisionsKeep(rules, strategy, d, day, out, ctx, n - 1, b);
      DecideKeeps(rules, strategy, d, day, out, ctx, rules.tickers[n - 1],
                  Decisions(rules, strategy, d, day, out, ctx, n - 1, b));
    }
  }

  // ---- The whole session ----

  lemma RecordedKeeps(rules: Rules, day: map<Ticker, Bar>, b: Book)
    requires Sound(rules, b) && day.Keys <= Elements(rules.tickers)
    ensures Keeps(rules, b, Recorded(day, b))
    ensures day.Keys <= Recorded(day, b).lastClose.Keys
  {
    hide Injected, UnmatchedFills, Sound, Recorded;
    RecordedWidens(day, b);
    SameHoldings(rules, b, Recorded(day, b));
    WiderSound(rules, day, b, Recorded(day, b));
  }

  lemma WiderSound(rules: Rules, day: map<Ticker, Bar>, b: Book, c: Book)
    requires Sound(rules, b) && day.Keys <= Elements(rules.tickers)
    requires c == b.(history := c.history, lastClose := c.lastClose, stale := c.stale)
    requires c.history.Keys == b.history.Keys
    requires c.lastClose.Keys == b.lastClose.Keys + day.Keys && c.stale.Keys == b.stale.Keys + day.Keys
    ensures Sound(rules, c)
  {
    hide SleeveBuyCost, TermsFor, Elements;
  }

  /** Recording widens the closes and the stale counts alike. */
  lemma RecordedWidens(day: map<Ticker, Bar>, b: Book)
    ensures
      var c := Recorded(day, b);
      && c == b.(history := c.history, lastClose := c.lastClose, stale := c.stale)
      && c.history.Keys == b.history.Keys
      && c.lastClose.Keys == b.lastClose.Keys + day.Keys && c.stale.Keys == b.stale.Keys + day.Keys
  {
    var c := Recorded(day, b);
    assert forall t :: t in c.history <==> t in b.history;
    assert forall t :: t in c.lastClose <==> t in b.lastClose || t in day;
    assert forall t :: t in c.stale <==> t in b.stale || t in day;
  }

  lemma OvernightKeeps(rules: Rules, d: int, day: map<Ticker, Bar>, b: Book)
    requires Distinct(rules.tickers) && Sound(rules, b)
    ensures Keeps(rules, b, AfterWriteOffs(rules, d, day, b))
    ensures Keeps(rules, b, AfterExits(rules, d, day, b))
    ensures Keeps(rules, b, AfterEntries(rules, d, day, b))
  {
    hide Injected, UnmatchedFills, SleeveBuyCost, TermsFor, WriteOffs, WorkExits, WorkEntries, Names;
    var names := Names(rules);
    var aged := b.(stale := Aged(day, b.stale));
    SameHoldings(rules, b, aged);
    assert Sound(rules, aged);
    hide Sound, Aged;
    WriteOffsKeep(rules, d, names, |names|, aged);
    var w := AfterWriteOffs(rules, d, day, b);
    WorkExitsKeep(rules, day, w.exitOrder, |w.exitOrder|, w);
    WorkEntriesKeep(rules, day, |rules.tickers|, AfterExits(rules, d, day, b));
  }

  lemma BeforeFlowsKeeps(rules: Rules, d: int, day: map<Ticker, Bar>, b: Book)
    requires Distinct(rules.tickers) && Sound(rules, b) && day.Keys <= Elements(rules.tickers)
    ensures Keeps(rules, b, BeforeFlows(rules, d, day, b))
    ensures day.Keys <= BeforeFlows(rules, d, day, b).lastClose.Keys
    ensures BeforeFlows(rules, d, day, b).entries == map[]
  {
    hide AfterEntries, Recorded, Gate, Sound, Injected, UnmatchedFills, Distinct, Names;
    OvernightKeeps(rules, d, day, b);
    var filled := AfterEntries(rules, d, day, b);
    ExpiredKeeps(rules, filled);
    RecordedKeeps(rules, day, Expired(filled));
    RecordedWidens(day, Expired(filled));
    var recorded := Recorded(day, Expired(filled));
    GateKeeps(rules, d, Names(rules), |Names(rules)|, recorded);
    SameHoldings(rules, recorded, BeforeFlows(rules, d, day, b));
  }

  lemma ExpiredKeeps(rules: Rules, b: Book)
    requires Sound(rules, b)
    ensures Keeps(rules, b, Expired(b))
  {
    SameHoldings(rules, b, Expired(b));
  }

  lemma AfterDecisionsKeeps(rules: Rules, strategy: Strategy, d: int, day: map<Ticker, Bar>, b: Book)
    requires Sound(rules, b) && day.Keys <= b.lastClose.Keys
    ensures
      var c := AfterDecisions(rules, strategy, d, day, b);
      && Keeps(rules, b, c)
      && c == b.(exits := c.exits, exitOrder := c.exitOrder, entries := c.entries, funnel := c.funnel)
      && c.funnel.filled == b.funnel.filled
      && b.exits.Keys <= c.exits.Keys
  {
    var c := AfterDecisions(rules, strategy, d, day, b);
    DecisionsKeep(rules, strategy, d, day, OutOfUniverse(rules, d, day, b), RunnerContext(b, rules.initial),
                  |rules.tickers|, b);
    SameHoldings(rules, b, c);
  }

  lemma {:induction false} RaisedCost(lots: seq<Lot>, mark: real, w: Lot -> real)
    requires forall lot: Lot :: w(lot) == w(RaisedPeak(lot, mark))
    ensures SeqSum(RaisedPeaks(lots, mark), w) == SeqSum(lots, w)
  {
    if lots != [] {
      var n := |lots| - 1;
      assert RaisedPeaks(lots, mark)[..n] == RaisedPeaks(lots[..n], mark);
      RaisedCost(lots[..n], mark, w);
    }
  }

  lemma {:induction false} ClosedOpenTo(tickers: seq<Ticker>, n: nat, day: map<Ticker, Bar>, b: Book)
    requires n <= |tickers|
    ensures |OpenTo(tickers, n, Closed(day, b))| == |OpenTo(tickers, n, b)|
  {
    if n > 0 {
      ClosedOpenTo(tickers, n - 1, day, b);
    }
  }

  lemma ClosedCost(rules: Rules, day: map<Ticker, Bar>, b: Book)
    ensures BookCost(rules, Closed(day, b)) == BookCost(rules, b)
  {
    var c := Closed(day, b);
    var f, g := CostBasis(b.positions), CostBasis(c.positions);
    forall t
      ensures f(t) == g(t)
    {
      if t in b.positions && t in day {
        RaisedCost(b.positions[t], day[t].close, LotCost);
      }
    }
    SumAgree(rules.tickers, |rules.tickers|, f, g);
  }

  lemma ClosedKeeps(rules: Rules, day: map<Ticker, Bar>, b: Book)
    requires Sound(rules, b)
    ensures Keeps(rules, b, Closed(day, b))
  {
    assert Sound(rules, Closed(day, b)) by {
      hide SleeveBuyCost, TermsFor;
    }
    hide Sound, BookCost;
    ClosedCost(rules, day, b);
    ClosedOpenTo(rules.tickers, |rules.tickers|, day, b);
  }

  function AmountOf(entry: DatedSum): real {
    entry.amount
  }

  lemma CreditedSum(applied: seq<DatedSum>, d: int, amount: real)
    ensures SeqSum(Credited(applied, d, amount), AmountOf) == SeqSum(applied, AmountOf) + amount
  {
    var n := |applied|;
    if n > 0 && applied[n - 1].day == d {
      SeqSumPush(applied[..n - 1], DatedSum(d, applied[n - 1].amount + amount), AmountOf);
    } else {
      SeqSumPush(applied, DatedSum(d, amount), AmountOf);
    }
  }

  /** Paying flows moves cash and the record of flows by the same amount, and nothing else of the book. */
  lemma {:induction false} FlowsKeep(rules: Rules, d: int, st: State)
    requires ApplyFlows(d, st).Success?
    ensures
      var r := ApplyFlows(d, st).value;
      && r == st.(book := r.book, pending := r.pending, applied := r.applied)
      && r.book == st.book.(cash := r.book.cash, tape := r.book.tape)
      && r.book.cash - st.book.cash == SeqSum(r.applied, AmountOf) - SeqSum(st.applied, AmountOf)
    decreases |st.pending|
  {
    if st.pending != [] && st.pending[0].day <= d {
      CreditedSum(st.applied, d, FlowAmount(st.pending[0].amount * st.scale.value, st.book.cash));
      FlowsKeep(rules, d, FlowApplied(d, st));
    }
  }

  lemma FlowsBalance(rules: Rules, d: int, st: State)
    requires ApplyFlows(d, st).Success? && Sound(rules, st.book)
    ensures
      var r := ApplyFlows(d, st).value;
      && Sound(rules, r.book)
      && Injected(rules, r.book) - Injected(rules, st.book)
         == SeqSum(r.applied, AmountOf) - SeqSum(st.applied, AmountOf)
      && UnmatchedFills(rules, r.book) == UnmatchedFills(rules, st.book)
  {
    FlowsKeep(rules, d, st);
    var r := ApplyFlows(d, st).value;
    SameHoldings(rules, st.book, r.book.(cash := st.book.cash));
    SameLots(rules.tickers, |rules.tickers|, st.book, r.book);
  }

  // ---- The state invariant ----

  /**
   The book is sound, every dollar and every fill is accounted for, and each
   session so far contributed one value.
   */
  ghost predicate Balanced(rules: Rules, st: State) {
    && Sound(rules, st.book)
    && Injected(rules, st.book) == SeqSum(st.applied, AmountOf)
    && UnmatchedFills(rules, st.book) == 0
    && |st.values| == |st.dates| + 1
  }

  lemma BalancedIsSound(rules: Rules, st: State)
    requires Balanced(rules, st)
    ensures Sound(rules, st.book)
  {
  }

  lemma StartBalanced(rules: Rules, plan: Plan)
    ensures Balanced(rules, Start(rules, plan))
  {
    var b := EmptyBook(rules);
    SumAgree(rules.tickers, |rules.tickers|, CostBasis(b.positions), (t: Ticker) => 0.0);
    SumZero(rules.tickers, |rules.tickers|);
    NothingOpen(rules.tickers, |rules.tickers|, b);
  }

  lemma {:induction false} SumZero(keys: seq<int>, n: nat)
    requires n <= |keys|
    ensures SumTo(keys, n, (t: int) => 0.0) == 0.0
  {
    if n > 0 {
      SumZero(keys, n - 1);
    }
  }

  lemma {:induction false} NothingOpen(tickers: seq<Ticker>, n: nat, b: Book)
    requires n <= |tickers| && b.positions == map[]
    ensures OpenTo(tickers, n, b) == []
  {
    hide TaggedLots;
    if n > 0 {
      NothingOpen(tickers, n - 1, b);
      assert |TaggedLots(tickers[n - 1], [])| == 0;
    }
  }

  lemma StepBalanced(rules: Rules, strategy: Strategy, basis: Option<DatedSum>, d: int, day: map<Ticker, Bar>,
                     st: State, next: State)
    requires Distinct(rules.tickers) && day.Keys <= Elements(rules.tickers) && Balanced(rules, st)
    requires StepDay(rules, strategy, basis, d, day, st) == Success(next)
    ensures Balanced(rules, next)
  {
    hide Sound, Injected, UnmatchedFills, BeforeFlows, AfterDecisions, Nav, Closed, LearnedScale;
    BeforeFlowsKeeps(rules, d, day, st.book);
    var gated := st.(book := BeforeFlows(rules, d, day, st.book));
    FlowsKeep(rules, d, gated);
    FlowsBalance(rules, d, gated);
    var funded := ApplyFlows(d, gated).value;
    AfterDecisionsKeeps(rules, strategy, d, day, funded.book);
    ClosedKeeps(rules, day, AfterDecisions(rules, strategy, d, day, funded.book));
  }

  lemma DayInUniverse(rules: Rules, bars: Bars, d: int)
    requires Universe(rules, bars)
    ensures Day(bars, d).Keys <= Elements(rules.tickers)
  {
  }

  /** Every reachable state is balanced. */
  lemma {:induction false} RunBalanced(rules: Rules, strategy: Strategy, plan: Plan, bars: Bars, n: nat, st: State)
    requires Universe(rules, bars) && n <= |Sessions(bars)|
    requires RunTo(rules, strategy, plan, bars, n) == Success(st)
    ensures Balanced(rules, st)
  {
    hide StepDay, Balanced;
    if n == 0 {
      StartBalanced(rules, plan);
    } else {
      var prev := RunTo(rules, strategy, plan, bars, n - 1).value;
      RunBalanced(rules, strategy, plan, bars, n - 1, prev);
      var d := Sessions(bars)[n - 1];
      DayInUniverse(rules, bars, d);
      StepBalanced(rules, strategy, plan.basis, d, Day(bars, d), prev, st);
    }
  }
}
