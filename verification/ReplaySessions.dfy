/**
 What one session does to one ticker, read off the book before it and the bars of
 the day alone: which lots leave, at what price and for what reason, which entry
 fills and at what price, and what every lot's peak becomes. No phase and no fill
 function is named; that the phases come to this is the theorem.
 */
module ReplaySessions {
  import opened Basics
  import opened Market
  import opened Costs
  import opened Replay
  import opened ReplayBooks
  import opened ReplayLifecycle
  import opened ReplayAccounts

  // ---- The session, ticker by ticker ----

  /** Basis points off a price, the ticker's own when it has some. */
  function Bps(m: CostModel, t: Ticker): real {
    if t in m.byTicker then m.byTicker[t] else m.slippageBps
  }

  /** What a sale fetches of a price, and what a purchase pays. */
  function Fetched(m: CostModel, t: Ticker, price: real): real {
    price * (1.0 - Bps(m, t) / 10000.0)
  }

  function PaidFor(m: CostModel, t: Ticker, price: real): real {
    price * (1.0 + Bps(m, t) / 10000.0)
  }

  function Charge(m: CostModel, q: real): real {
    Max(m.minimum, Abs(q) * m.perShare)
  }

  /** Sessions without a bar of the ticker, today included, have reached the limit. */
  predicate Stopped(rules: Rules, day: map<Ticker, Bar>, b: Book, t: Ticker) {
    t in b.stale && (if t in day then 0 else b.stale[t] + 1) >= rules.staleLimit
  }

  /** The ticker's holding is sold: its bars have stopped, or it prints and an exit is queued. */
  predicate Leaves(rules: Rules, day: map<Ticker, Bar>, b: Book, t: Ticker) {
    t in b.positions && t in b.lastClose && (Stopped(rules, day, b, t) || (t in day && t in b.exits))
  }

  /** What selling a lot records. */
  function SoldAs(m: CostModel, t: Ticker, lot: Lot, price: real, d: int, reason: string): Trade {
    Trade(t, lot.entryDate, d, lot.entryPrice, price, lot.quantity,
          (price - lot.entryPrice) * lot.quantity - lot.entryCommission - Charge(m, lot.quantity),
          lot.entryCommission, Charge(m, lot.quantity), reason)
  }

  /** What one lot is sold as: at today's open, or at the last close when its bars have stopped. */
  function Sale(rules: Rules, d: int, day: map<Ticker, Bar>, b: Book, t: Ticker, lot: Lot): Trade
    requires Leaves(rules, day, b, t)
  {
    var stopped := Stopped(rules, day, b, t);
    var price := Fetched(rules.costs, t, if stopped then b.lastClose[t] else day[t].open);
    var queued := if t in b.exits then b.exits[t] else "";
    SoldAs(rules.costs, t, lot, price, d, if stopped && queued == "" then "delisted" else queued)
  }

  function Sales(rules: Rules, d: int, day: map<Ticker, Bar>, b: Book, t: Ticker, lots: seq<Lot>): (r: seq<Trade>)
    requires Leaves(rules, day, b, t)
    ensures |r| == |lots| && forall i :: 0 <= i < |r| ==> r[i] == Sale(rules, d, day, b, t, lots[i])
  {
    seq(|lots|, i requires 0 <= i < |lots| => Sale(rules, d, day, b, t, lots[i]))
  }

  /** A queued entry fills when the ticker trades at or below its limit. */
  predicate Fills(rules: Rules, day: map<Ticker, Bar>, b: Book, t: Ticker) {
    && t in b.entries && t in day && !Stopped(rules, day, b, t)
    && Min(day[t].open, day[t].low) <= b.entries[t].limit
  }

  /** An exit stays queued over the night of a ticker that does not print, unless its bars have stopped. */
  predicate Carried(rules: Rules, day: map<Ticker, Bar>, b: Book, t: Ticker) {
    t in b.exits && t !in day && !(Stopped(rules, day, b, t) && (t in b.positions || t in b.entries))
  }

  /** The lot it opens: at the limit, or at a lower open. */
  function Opened(rules: Rules, d: int, day: map<Ticker, Bar>, b: Book, t: Ticker): Lot
    requires Fills(rules, day, b, t)
  {
    var e := b.entries[t];
    var price := PaidFor(rules.costs, t, Min(day[t].open, e.limit));
    Lot(e.quantity, price, d, Charge(rules.costs, e.quantity), price)
  }

  /** The ticker's lots once the session's fills are done. */
  function Remaining(rules: Rules, d: int, day: map<Ticker, Bar>, b: Book, t: Ticker): seq<Lot> {
    (if Leaves(rules, day, b, t) then [] else LotsOf(b, t))
    + if Fills(rules, day, b, t) then [Opened(rules, d, day, b, t)] else []
  }

  /** A lot's peak is raised to today's close of its ticker. */
  function AtClose(day: map<Ticker, Bar>, t: Ticker, lot: Lot): Lot {
    if t in day && day[t].close > lot.peak then lot.(peak := day[t].close) else lot
  }

  /** The trades of one ticker, in order. */
  function TradesOf(trades: seq<Trade>, t: Ticker): (r: seq<Trade>)
    ensures forall tr :: tr in r <==> tr in trades && tr.ticker == t
  {
    if trades == [] then []
    else
      var n := |trades| - 1;
      TradesOf(trades[..n], t) + if trades[n].ticker == t then [trades[n]] else []
  }

  // ---- What a phase shows of a ticker ----

  datatype View = View(held: bool, lots: seq<Lot>, entry: Option<PendingEntry>, exit: Option<string>,
                       trades: seq<Trade>)

  function ViewOf(b: Book, t: Ticker): View {
    View(t in b.positions, LotsOf(b, t), if t in b.entries then Some(b.entries[t]) else None,
         if t in b.exits then Some(b.exits[t]) else None, TradesOf(b.trades, t))
  }

  lemma TradesOfPush(trades: seq<Trade>, tr: Trade, t: Ticker)
    ensures TradesOf(trades + [tr], t) == TradesOf(trades, t) + if tr.ticker == t then [tr] else []
  {
    assert (trades + [tr])[..|trades|] == trades;
  }

  lemma {:induction false} TradesOfMore(a: seq<Trade>, b: seq<Trade>, t: Ticker)
    ensures TradesOf(a + b, t) == TradesOf(a, t) + TradesOf(b, t)
  {
    if b == [] {
      assert a + b == a;
    } else {
      var head, last := b[..|b| - 1], b[|b| - 1];
      assert b == head + [last] && a + b == (a + head) + [last];
      TradesOfMore(a, head, t);
      TradesOfPush(a + head, last, t);
      TradesOfPush(head, last, t);
      hide TradesOf;
    }
  }

  lemma TradeIs(m: CostModel, t: Ticker, lot: Lot, price: real, d: int, reason: string)
    ensures TradeOf(m, t, lot, price, d, reason) == SoldAs(m, t, lot, price, d, reason)
  {
    assert (price - lot.entryPrice) * lot.quantity == price * lot.quantity - lot.entryPrice * lot.quantity;
  }

  lemma {:induction false} OwnTrades(m: CostModel, t: Ticker, lots: seq<Lot>, price: real, d: int, reason: string,
                                     x: Ticker)
    ensures
      var closed := ClosedTrades(m, t, lots, price, d, reason);
      TradesOf(closed, x) == if x == t then closed else []
  {
    hide TradesOf, TradeOf;
    if lots == [] {
      NoTrades(x);
    } else {
      var n := |lots| - 1;
      OwnTrades(m, t, lots[..n], price, d, reason, x);
      TradeIs(m, t, lots[n], price, d, reason);
      TradesOfPush(ClosedTrades(m, t, lots[..n], price, d, reason), TradeOf(m, t, lots[n], price, d, reason), x);
    }
  }

  lemma NoTrades(t: Ticker)
    ensures TradesOf([], t) == []
  {
  }

  /** The trades of one closed holding are what selling its lots records, in lot order. */
  lemma ClosedAre(m: CostModel, t: Ticker, lots: seq<Lot>, price: real, d: int, reason: string)
    ensures
      var closed := ClosedTrades(m, t, lots, price, d, reason);
      |closed| == |lots| && forall i :: 0 <= i < |lots| ==> closed[i] == SoldAs(m, t, lots[i], price, d, reason)
  {
    ClosedTradesAre(m, t, lots, price, d, reason);
    hide ClosedTrades;
    forall i | 0 <= i < |lots|
      ensures TradeOf(m, t, lots[i], price, d, reason) == SoldAs(m, t, lots[i], price, d, reason)
    {
      TradeIs(m, t, lots[i], price, d, reason);
    }
  }

  /** Closing a holding empties its ticker's and touches no other. */
  lemma CloseView(m: CostModel, b: Book, t: Ticker, price: real, d: int, reason: string, x: Ticker)
    requires t in b.positions
    ensures
      var v, w := ViewOf(b, x), ViewOf(ClosePosition(m, b, t, price, d, reason), x);
      if x == t then w == v.(held := false, lots := [],
                             trades := v.trades + ClosedTrades(m, t, b.positions[t], price, d, reason))
      else w == v
  {
    OwnTrades(m, t, b.positions[t], price, d, reason, x);
    TradesOfMore(b.trades, ClosedTrades(m, t, b.positions[t], price, d, reason), x);
    hide ClosedTrades, TradesOf, SoldEvents, SeqSum;
  }

  // ---- Overnight ----

  /** What a write-off leaves of the ticker it looks at. */
  function WrittenOff(rules: Rules, d: int, stale: map<Ticker, int>, lastClose: map<Ticker, real>, t: Ticker,
                      v: View): View
  {
    if t !in stale || stale[t] < rules.staleLimit || (!v.held && v.entry.None?) then v
    else if v.held && t in lastClose then
      var reason := if v.exit.Some? && v.exit.value != "" then v.exit.value else "delisted";
      View(false, [], None, None,
           v.trades + ClosedTrades(rules.costs, t, v.lots, Fetched(rules.costs, t, lastClose[t]), d, reason))
    else v.(entry := None, exit := None)
  }

  lemma DroppedView(b: Book, t: Ticker, x: Ticker)
    ensures
      var v := ViewOf(b, x);
      && ViewOf(DropExit(b, t), x) == (if x == t then v.(exit := None) else v)
      && ViewOf(b.(entries := b.entries - {t}), x) == if x == t then v.(entry := None) else v
  {
    hide TradesOf, Without;
  }

  lemma WriteOffView(rules: Rules, d: int, t: Ticker, b: Book, x: Ticker)
    ensures
      var c := WriteOff(rules, d, t, b);
      && c.stale == b.stale && c.lastClose == b.lastClose
      && ViewOf(c, x) == if x == t then WrittenOff(rules, d, b.stale, b.lastClose, t, ViewOf(b, t)) else ViewOf(b, x)
  {
    ViewFields(b, t);
    DroppedTwice(b, t, x);
    hide ViewOf, ClosedTrades, ClosePosition, ExitReason, DropExit, Fetched;
    if t in b.positions && t in b.lastClose {
      StoppedView(rules, d, t, b, x);
    }
  }

  lemma ViewFields(b: Book, t: Ticker)
    ensures
      var v := ViewOf(b, t);
      && v.held == (t in b.positions) && v.entry.Some? == (t in b.entries) && (v.held ==> v.lots == b.positions[t])
      && ExitReason(b, t) == if v.exit.Some? && v.exit.value != "" then v.exit.value else "delisted"
  {
    hide TradesOf;
  }

  /** A holding closed at its last close. */
  lemma StoppedView(rules: Rules, d: int, t: Ticker, b: Book, x: Ticker)
    requires t in b.positions && t in b.lastClose
    ensures
      var f := FillTerminalExit(rules.costs, 0.0, b.lastClose[t], d, t);
      var dropped := DropExit(b.(entries := b.entries - {t}), t);
      var price, c := Fetched(rules.costs, t, b.lastClose[t]),
                      ClosePosition(rules.costs, dropped, t, f.price, f.date, ExitReason(b, t));
      && c.stale == b.stale && c.lastClose == b.lastClose
      && ViewOf(c, x)
         == if x == t then View(false, [], None, None, ViewOf(b, t).trades
                                + ClosedTrades(rules.costs, t, b.positions[t], price, d, ExitReason(b, t)))
            else ViewOf(b, x)
  {
    hide ViewOf, ClosedTrades, ExitReason, SeqSum, SoldEvents;
    assert FillTerminalExit(rules.costs, 0.0, b.lastClose[t], d, t).price == Fetched(rules.costs, t, b.lastClose[t]);
    DroppedTwice(b, t, x);
    CloseView(rules.costs, DropExit(b.(entries := b.entries - {t}), t), t, Fetched(rules.costs, t, b.lastClose[t]), d,
              ExitReason(b, t), x);
  }

  lemma DroppedTwice(b: Book, t: Ticker, x: Ticker)
    ensures
      var c := DropExit(b.(entries := b.entries - {t}), t);
      && c.stale == b.stale && c.lastClose == b.lastClose
      && ViewOf(c, x) == if x == t then ViewOf(b, x).(entry := None, exit := None) else ViewOf(b, x)
  {
    hide TradesOf, Without;
  }

  lemma {:induction false} WriteOffsView(rules: Rules, d: int, names: seq<Ticker>, n: nat, b: Book, x: Ticker)
    requires n <= |names| && Distinct(names)
    ensures
      var c := WriteOffs(rules, d, names, n, b);
      && c.stale == b.stale && c.lastClose == b.lastClose
      && ViewOf(c, x)
         == if x in names[..n] then WrittenOff(rules, d, b.stale, b.lastClose, x, ViewOf(b, x)) else ViewOf(b, x)
  {
    hide ViewOf, WrittenOff, WriteOff;
    if n > 0 {
      assert names[..n] == names[..n - 1] + [names[n - 1]];
      WriteOffsView(rules, d, names, n - 1, b, x);
      WriteOffView(rules, d, names[n - 1], WriteOffs(rules, d, names, n - 1, b), x);
    }
  }

  /** What working a queued exit leaves of its ticker. */
  function Worked(rules: Rules, day: map<Ticker, Bar>, t: Ticker, v: View): View {
    if t !in day || v.exit.None? then v
    else if v.held then
      View(false, [], v.entry, None,
           v.trades + ClosedTrades(rules.costs, t, v.lots, Fetched(rules.costs, t, day[t].open), day[t].date,
                                   v.exit.value))
    else v.(exit := None)
  }

  lemma WorkExitView(rules: Rules, day: map<Ticker, Bar>, t: Ticker, b: Book, x: Ticker)
    ensures
      ViewOf(WorkExit(rules, day, t, b), x) == if x == t then Worked(rules, day, t, ViewOf(b, t)) else ViewOf(b, x)
  {
    ViewFields(b, t);
    ExitField(b, t);
    DroppedView(b, t, x);
    hide ViewOf, ClosedTrades, ClosePosition, DropExit, Fetched;
    if t in day && t in b.exits && t in b.positions {
      WorkedView(rules, day, t, b, x);
    }
  }

  lemma ExitField(b: Book, t: Ticker)
    ensures ViewOf(b, t).exit == if t in b.exits then Some(b.exits[t]) else None
  {
    hide TradesOf;
  }

  /** A holding closed at today's open. */
  lemma WorkedView(rules: Rules, day: map<Ticker, Bar>, t: Ticker, b: Book, x: Ticker)
    requires t in day && t in b.positions && t in b.exits
    ensures
      var f := FillMarketExit(rules.costs, 0.0, day[t], t);
      var price, c := Fetched(rules.costs, t, day[t].open),
                      ClosePosition(rules.costs, DropExit(b, t), t, f.price, f.date, b.exits[t]);
      ViewOf(c, x)
      == if x == t then View(false, [], ViewOf(b, t).entry, None, ViewOf(b, t).trades
                             + ClosedTrades(rules.costs, t, b.positions[t], price, day[t].date, b.exits[t]))
         else ViewOf(b, x)
  {
    hide ViewOf, ClosedTrades, SeqSum, SoldEvents;
    assert FillMarketExit(rules.costs, 0.0, day[t], t).price == Fetched(rules.costs, t, day[t].open);
    DroppedView(b, t, x);
    CloseView(rules.costs, DropExit(b, t), t, Fetched(rules.costs, t, day[t].open), day[t].date, b.exits[t], x);
  }

  lemma WorkedOnce(rules: Rules, day: map<Ticker, Bar>, t: Ticker, v: View)
    ensures Worked(rules, day, t, Worked(rules, day, t, v)) == Worked(rules, day, t, v)
  {
  }

  lemma {:induction false} WorkExitsView(rules: Rules, day: map<Ticker, Bar>, order: seq<Ticker>, n: nat, b: Book,
                                         x: Ticker)
    requires n <= |order|
    ensures
      var c := WorkExits(rules, day, order, n, b);
      ViewOf(c, x) == if x in order[..n] then Worked(rules, day, x, ViewOf(b, x)) else ViewOf(b, x)
  {
    hide ViewOf, Worked, WorkExit;
    if n > 0 {
      assert order[..n] == order[..n - 1] + [order[n - 1]];
      WorkExitsView(rules, day, order, n - 1, b, x);
      WorkExitView(rules, day, order[n - 1], WorkExits(rules, day, order, n - 1, b), x);
      WorkedOnce(rules, day, x, ViewOf(b, x));
    }
  }

  /** What working a queued entry leaves of its ticker. */
  function Entered(rules: Rules, day: map<Ticker, Bar>, t: Ticker, v: View): View {
    if v.entry.Some? && t in day && Min(day[t].open, day[t].low) <= v.entry.value.limit then
      var e := v.entry.value;
      var price := PaidFor(rules.costs, t, Min(day[t].open, e.limit));
      v.(held := true,
         lots := v.lots + [Lot(e.quantity, price, day[t].date, Charge(rules.costs, e.quantity), price)])
    else v
  }

  lemma WorkEntryView(rules: Rules, day: map<Ticker, Bar>, t: Ticker, b: Book, x: Ticker)
    ensures
      var c := WorkEntry(rules, day, t, b);
      ViewOf(c, x) == if x == t then Entered(rules, day, t, ViewOf(b, t)) else ViewOf(b, x)
  {
    if t in b.entries && t in day {
      var e := b.entries[t];
      EntryFillsAtOrBelow(rules.costs, e.limit, e.quantity, day[t], t);
      var fill := TryFillLimitEntry(rules.costs, e.limit, e.quantity, day[t], t);
      hide TryFillLimitEntry;
      if fill.Some? {
        assert fill.value.price == PaidFor(rules.costs, t, Min(day[t].open, e.limit));
        assert fill.value.commission == Charge(rules.costs, e.quantity);
      }
    }
    hide TradesOf, TryFillLimitEntry, PaidFor, Charge;
  }

  lemma {:induction false} WorkEntriesView(rules: Rules, day: map<Ticker, Bar>, n: nat, b: Book, x: Ticker)
    requires n <= |rules.tickers| && Distinct(rules.tickers)
    ensures
      var c := WorkEntries(rules, day, n, b);
      ViewOf(c, x) == if x in rules.tickers[..n] then Entered(rules, day, x, ViewOf(b, x)) else ViewOf(b, x)
  {
    hide ViewOf, Entered, WorkEntry;
    if n > 0 {
      var t := rules.tickers[n - 1];
      assert rules.tickers[..n] == rules.tickers[..n - 1] + [t] && t !in rules.tickers[..n - 1];
      WorkEntriesView(rules, day, n - 1, b, x);
      WorkEntryView(rules, day, t, WorkEntries(rules, day, n - 1, b), x);
    }
  }

  // ---- The session ----

  lemma KnownTickers(rules: Rules, b: Book, t: Ticker)
    requires Sound(rules, b)
    ensures t in b.stale || t in b.entries ==> t in rules.tickers
    ensures t in b.positions || t in b.entries ==> t in b.lastClose && t in b.stale
    ensures t in b.exits <==> t in b.exitOrder
    ensures t in b.positions ==> b.positions[t] != []
  {
    assert t in Elements(rules.tickers) <==> t in rules.tickers;
  }

  /** A ticker after the night's three phases, each having looked at it alone. */
  lemma OvernightView(rules: Rules, d: int, day: map<Ticker, Bar>, b: Book, x: Ticker)
    requires Distinct(rules.tickers) && Sound(rules, b)
    ensures
      var off := WrittenOff(rules, d, Aged(day, b.stale), b.lastClose, x, ViewOf(b, x));
      ViewOf(AfterEntries(rules, d, day, b), x) == Entered(rules, day, x, Worked(rules, day, x, off))
  {
    hide Sound, ViewOf, Aged, WriteOffs, WorkExits, WorkEntries;
    var names, aged := Names(rules), b.(stale := Aged(day, b.stale));
    SoundAged(rules, day, b);
    KnownTickers(rules, aged, x);
    SortedElements(Elements(rules.tickers));
    WriteOffsView(rules, d, names, |names|, aged, x);
    assert names[..|names|] == names && rules.tickers[..|rules.tickers|] == rules.tickers;
    SameView(b, aged, x);
    OvernightKeeps(rules, d, day, b);
    var w, e := AfterWriteOffs(rules, d, day, b), AfterExits(rules, d, day, b);
    KnownTickers(rules, w, x);
    WorkExitsView(rules, day, w.exitOrder, |w.exitOrder|, w, x);
    assert w.exitOrder[..|w.exitOrder|] == w.exitOrder;
    KnownTickers(rules, e, x);
    WorkEntriesView(rules, day, |rules.tickers|, e, x);
    Untouched(rules, d, day, aged, w, e, x);
  }

  lemma SameView(b: Book, c: Book, x: Ticker)
    requires b.positions == c.positions && b.entries == c.entries && b.exits == c.exits && b.trades == c.trades
    ensures ViewOf(b, x) == ViewOf(c, x)
  {
  }

  /** A phase that does not come to a ticker has nothing to do for it. */
  lemma Untouched(rules: Rules, d: int, day: map<Ticker, Bar>, b: Book, w: Book, e: Book, x: Ticker)
    ensures x !in b.stale ==> WrittenOff(rules, d, b.stale, b.lastClose, x, ViewOf(b, x)) == ViewOf(b, x)
    ensures x !in w.exits ==> Worked(rules, day, x, ViewOf(w, x)) == ViewOf(w, x)
    ensures x !in e.entries ==> Entered(rules, day, x, ViewOf(e, x)) == ViewOf(e, x)
  {
    hide TradesOf;
  }

  lemma SalesAre(rules: Rules, d: int, day: map<Ticker, Bar>, b: Book, t: Ticker, price: real, reason: string)
    requires Leaves(rules, day, b, t)
    requires
      var stopped, queued := Stopped(rules, day, b, t), if t in b.exits then b.exits[t] else "";
      && price == Fetched(rules.costs, t, if stopped then b.lastClose[t] else day[t].open)
      && reason == if stopped && queued == "" then "delisted" else queued
    ensures ClosedTrades(rules.costs, t, LotsOf(b, t), price, d, reason)
            == Sales(rules, d, day, b, t, LotsOf(b, t))
  {
    hide SoldAs, Fetched, Stopped;
    ClosedAre(rules.costs, t, LotsOf(b, t), price, d, reason);
  }

  lemma AgedLimit(rules: Rules, day: map<Ticker, Bar>, b: Book, t: Ticker)
    ensures Stopped(rules, day, b, t) <==> t in Aged(day, b.stale) && Aged(day, b.stale)[t] >= rules.staleLimit
  {
  }

  /** The first phase sells what has stopped, and drops its entry and its exit. */
  lemma OffIs(rules: Rules, d: int, day: map<Ticker, Bar>, b: Book, t: Ticker)
    requires Sound(rules, b)
    ensures
      var off := WrittenOff(rules, d, Aged(day, b.stale), b.lastClose, t, ViewOf(b, t));
      var stopped := Stopped(rules, day, b, t);
      && (!stopped || (t !in b.positions && t !in b.entries) ==> off == ViewOf(b, t))
      && (stopped && t in b.positions ==>
            off == View(false, [], None, None, TradesOf(b.trades, t) + Sales(rules, d, day, b, t, LotsOf(b, t))))
      && (stopped && t !in b.positions && t in b.entries ==> off == ViewOf(b, t).(entry := None, exit := None))
  {
    KnownTickers(rules, b, t);
    AgedLimit(rules, day, b, t);
    if Stopped(rules, day, b, t) && t in b.positions {
      var queued := if t in b.exits then b.exits[t] else "";
      SalesAre(rules, d, day, b, t, Fetched(rules.costs, t, b.lastClose[t]),
               if queued == "" then "delisted" else queued);
    }
    hide Sound, Stopped, Aged, TradesOf, ClosedTrades, Sales, Fetched;
  }

  /** The first two phases sell what leaves, and drop the entry of a ticker whose bars have stopped. */
  lemma ExitsAre(rules: Rules, d: int, day: map<Ticker, Bar>, b: Book, t: Ticker)
    requires Sound(rules, b) && PrintedOn(day, d)
    ensures
      var off := WrittenOff(rules, d, Aged(day, b.stale), b.lastClose, t, ViewOf(b, t));
      var v := Worked(rules, day, t, off);
      && v.lots == (if Leaves(rules, day, b, t) then [] else LotsOf(b, t))
      && v.trades == (TradesOf(b.trades, t)
                      + if Leaves(rules, day, b, t) then Sales(rules, d, day, b, t, LotsOf(b, t)) else [])
      && v.entry == (if t in b.entries && !Stopped(rules, day, b, t) then Some(b.entries[t]) else None)
      && v.exit == if Carried(rules, day, b, t) then Some(b.exits[t]) else None
  {
    KnownTickers(rules, b, t);
    OffIs(rules, d, day, b, t);
    if Leaves(rules, day, b, t) && !Stopped(rules, day, b, t) {
      SalesAre(rules, d, day, b, t, Fetched(rules.costs, t, day[t].open), b.exits[t]);
    }
    hide Sound, Stopped, Aged, TradesOf, ClosedTrades, Sales, Fetched, WrittenOff;
  }

  /** The three phases come to what the session does to the ticker. */
  lemma OvernightIs(rules: Rules, d: int, day: map<Ticker, Bar>, b: Book, t: Ticker)
    requires Sound(rules, b) && PrintedOn(day, d)
    ensures
      var off := WrittenOff(rules, d, Aged(day, b.stale), b.lastClose, t, ViewOf(b, t));
      var v := Entered(rules, day, t, Worked(rules, day, t, off));
      && v.lots == Remaining(rules, d, day, b, t)
      && v.trades == TradesOf(b.trades, t)
           + (if Leaves(rules, day, b, t) then Sales(rules, d, day, b, t, LotsOf(b, t)) else [])
      && v.exit == if Carried(rules, day, b, t) then Some(b.exits[t]) else None
  {
    ExitsAre(rules, d, day, b, t);
    hide WrittenOff, Worked, Leaves, Carried, Sales, Stopped, PaidFor, Charge, TradesOf, ViewOf;
  }

  /** Nothing after the fills changes a lot, but for its peak, or a trade. */
  lemma AfterFills(rules: Rules, strategy: Strategy, basis: Option<DatedSum>, d: int, day: map<Ticker, Bar>,
                   st: State, next: State)
    requires Distinct(rules.tickers) && day.Keys <= Elements(rules.tickers) && Sound(rules, st.book)
    requires StepDay(rules, strategy, basis, d, day, st) == Success(next)
    ensures
      var e := AfterEntries(rules, d, day, st.book);
      next.book.trades == e.trades && next.book.positions == Closed(day, e).positions
  {
    hide Sound, AfterEntries, AfterDecisions, ApplyFlows, MarksCurrent, StepDay, Distinct, Names;
    StepStages(rules, strategy, basis, d, day, st, next);
    var recorded := Recorded(day, Expired(AfterEntries(rules, d, day, st.book)));
    GateSame(rules, d, Names(rules), |Names(rules)|, recorded);
  }

  lemma MarkedUp(day: map<Ticker, Bar>, b: Book, t: Ticker)
    ensures
      var lots, after := LotsOf(b, t), LotsOf(Closed(day, b), t);
      |after| == |lots| && forall i :: 0 <= i < |lots| ==> after[i] == AtClose(day, t, lots[i])
  {
  }

  /**
   A session's effect on a ticker's holding: what leaves has left whole, what
   fills is one new lot, and each lot's peak covers today's close.
   */
  lemma SessionHoldings(rules: Rules, strategy: Strategy, basis: Option<DatedSum>, d: int, day: map<Ticker, Bar>,
                        st: State, next: State, t: Ticker)
    requires Distinct(rules.tickers) && day.Keys <= Elements(rules.tickers) && Sound(rules, st.book)
    requires PrintedOn(day, d) && StepDay(rules, strategy, basis, d, day, st) == Success(next)
    ensures
      var lots, after := Remaining(rules, d, day, st.book, t), LotsOf(next.book, t);
      |after| == |lots| && forall i :: 0 <= i < |lots| ==> after[i] == AtClose(day, t, lots[i])
  {
    hide Sound, AfterEntries, StepDay, Closed, AtClose, Remaining, WrittenOff, Worked, Entered, Aged, PrintedOn;
    OvernightView(rules, d, day, st.book, t);
    OvernightIs(rules, d, day, st.book, t);
    AfterFills(rules, strategy, basis, d, day, st, next);
    MarkedUp(day, AfterEntries(rules, d, day, st.book), t);
  }

  /**
   And on its trades: one for each lot that left, in lot order, with the lot's
   own entry, today's date, the open or, for a ticker whose bars have stopped,
   the last close, and the reason queued, or that it was delisted.
   */
  lemma SessionTrades(rules: Rules, strategy: Strategy, basis: Option<DatedSum>, d: int, day: map<Ticker, Bar>,
                      st: State, next: State, t: Ticker)
    requires Distinct(rules.tickers) && day.Keys <= Elements(rules.tickers) && Sound(rules, st.book)
    requires PrintedOn(day, d) && StepDay(rules, strategy, basis, d, day, st) == Success(next)
    ensures TradesOf(next.book.trades, t)
            == TradesOf(st.book.trades, t)
               + if Leaves(rules, day, st.book, t) then Sales(rules, d, day, st.book, t, LotsOf(st.book, t)) else []
  {
    hide Sound, AfterEntries, StepDay, Closed, TradesOf, Leaves, Sales, WrittenOff, Worked, Entered, Aged, PrintedOn;
    OvernightView(rules, d, day, st.book, t);
    OvernightIs(rules, d, day, st.book, t);
    AfterFills(rules, strategy, basis, d, day, st, next);
  }

  /** Every ticker that has printed counts the sessions since, and is known by its close on the last of them. */
  lemma SessionCounts(rules: Rules, strategy: Strategy, basis: Option<DatedSum>, d: int, day: map<Ticker, Bar>,
                      st: State, next: State, t: Ticker)
    requires Distinct(rules.tickers) && day.Keys <= Elements(rules.tickers) && Sound(rules, st.book)
    requires StepDay(rules, strategy, basis, d, day, st) == Success(next)
    ensures t in next.book.stale <==> t in st.book.stale || t in day
    ensures t in next.book.stale ==> next.book.stale[t] == if t in day then 0 else st.book.stale[t] + 1
    ensures t in next.book.lastClose <==> t in st.book.lastClose || t in day
    ensures t in next.book.lastClose ==>
      next.book.lastClose[t] == if t in day then day[t].close else st.book.lastClose[t]
  {
    hide Sound, WriteOffs, WorkExits, WorkEntries, AfterDecisions, ApplyFlows, MarksCurrent, StepDay, Distinct, Names;
    StepStages(rules, strategy, basis, d, day, st, next);
    var names, aged := Names(rules), st.book.(stale := Aged(day, st.book.stale));
    WriteOffsShrink(rules, d, names, |names|, aged);
    var w := AfterWriteOffs(rules, d, day, st.book);
    WorkExitsClear(rules, day, w.exitOrder, |w.exitOrder|, w);
    WorkEntriesOpen(rules, day, |rules.tickers|, AfterExits(rules, d, day, st.book));
    GateSame(rules, d, names, |names|, Recorded(day, Expired(AfterEntries(rules, d, day, st.book))));
  }
}
