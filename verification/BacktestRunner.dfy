/**
 The replay as it runs: one object holding the run's mutable state, one method
 per phase, one loop over the sessions. Every method is proved to leave exactly
 the state its specification function gives.
 */
module BacktestRunner {
  import opened Basics
  import opened Market
  import opened Costs
  import opened Replay
  import opened ReplayBooks

  class ReplayRun {
    const rules: Rules
    const strategy: Strategy
    const basis: Option<DatedSum>

    var cash: real
    var positions: map<Ticker, seq<Lot>>
    var entries: map<Ticker, PendingEntry>
    var exits: map<Ticker, string>
    var exitOrder: seq<Ticker>
    var stale: map<Ticker, int>
    var lastClose: map<Ticker, real>
    var history: map<Ticker, seq<Bar>>
    var trades: seq<Trade>
    var funnel: Funnel
    var pending: seq<DatedSum>
    var applied: seq<DatedSum>
    var scale: Option<real>
    var values: seq<real>
    var dates: seq<int>
    ghost var tape: seq<Event>

    ghost function BookNow(): Book
      reads this
    {
      Book(cash, positions, entries, exits, exitOrder, stale, lastClose, history, trades, funnel, tape)
    }

    ghost function Now(): State
      reads this
    {
      State(BookNow(), pending, applied, scale, values, dates)
    }

    /** Nothing but the book differs between two states of the run. */
    ghost predicate OnlyBook(was: State)
      reads this
    {
      Now() == was.(book := BookNow())
    }

    constructor (rules: Rules, strategy: Strategy, plan: Plan)
      ensures this.rules == rules && this.strategy == strategy && this.basis == plan.basis
      ensures Now() == Start(rules, plan)
    {
      this.rules, this.strategy, this.basis := rules, strategy, plan.basis;
      cash := rules.initial;
      positions, entries, exits, exitOrder := map[], map[], map[], [];
      stale, lastClose := map[], map[];
      history := map t | t in Elements(rules.tickers) :: [];
      trades, funnel := [], Funnel(0, 0, 0, 0, 0, 0, 0);
      pending, applied := PendingFlows(plan.flows), [];
      scale := if plan.basis.Some? then None else Some(1.0);
      values, dates := [rules.initial], [];
      tape := [];
    }

    /** Records the trade of one closed lot and returns the cash it raised. */
    method TradeLot(t: Ticker, lot: Lot, fill: Fill, reason: string) returns (raised: real)
      modifies this`trades, this`tape
      ensures
        var trade := TradeOf(rules.costs, t, lot, fill.price, fill.date, reason);
        && trades == old(trades) + [trade] && tape == old(tape) + [SoldEvent(trade)] && raised == CashRaised(trade)
    {
      hide CommissionFor;
      var commission := CommissionFor(rules.costs, lot.quantity);
      var exitValue := fill.price * lot.quantity;
      var pnl := exitValue - lot.entryPrice * lot.quantity - lot.entryCommission - commission;
      var trade := Trade(t, lot.entryDate, fill.date, lot.entryPrice, fill.price, lot.quantity,
                         pnl, lot.entryCommission, commission, reason);
      SameTrade(rules.costs, t, lot, fill.price, fill.date, reason, trade);
      hide TradeOf;
      RaisedBy(trade);
      raised := exitValue - commission;
      trades := trades + [trade];
      tape := tape + [SoldEvent(trade)];
    }

    /** Records a trade for every lot of a closed position and returns the cash raised. */
    method TradeLots(t: Ticker, lots: seq<Lot>, fill: Fill, reason: string) returns (proceeds: real)
      modifies this`trades, this`tape
      ensures
        var closed := ClosedTrades(rules.costs, t, lots, fill.price, fill.date, reason);
        && trades == old(trades) + closed && tape == old(tape) + SoldEvents(closed)
           && proceeds == SeqSum(closed, CashRaised)
    {
      hide *;
      proceeds := 0.0;
      NothingTraded(rules.costs, t, lots, fill.price, fill.date, reason, trades, tape);
      for i := 0 to |lots|
        invariant Traded(rules.costs, t, lots, i, fill.price, fill.date, reason, old(trades), old(tape), trades, tape,
                         proceeds)
      {
        TradedNext(rules.costs, t, lots, i, fill.price, fill.date, reason, old(trades), old(tape), trades, tape,
                   proceeds);
        var raised := TradeLot(t, lots[i], fill, reason);
        proceeds := proceeds + raised;
      }
      AllTraded(rules.costs, t, lots, fill.price, fill.date, reason, old(trades), old(tape), trades, tape, proceeds);
    }

    /** Takes a ticker's position off the book, trade by trade. */
    method CloseLots(t: Ticker, fill: Fill, reason: string) returns (proceeds: real)
      requires t in positions
      modifies this
      ensures OnlyBook(old(Now()))
      ensures BookNow().(cash := old(cash) + proceeds)
              == ClosePosition(rules.costs, old(BookNow()), t, fill.price, fill.date, reason)
      ensures cash == old(cash)
    {
      hide ClosedTrades, SoldEvents, SeqSum, CashRaised;
      var lots := positions[t];
      positions := positions - {t};
      proceeds := TradeLots(t, lots, fill, reason);
    }

    /** Phase 0. */
    method AgeTickers(day: map<Ticker, Bar>)
      modifies this`stale
      ensures stale == Aged(day, old(stale))
    {
      var todo := stale.Keys;
      while todo != {}
        invariant todo <= old(stale).Keys && stale.Keys == old(stale).Keys
        invariant forall t :: t in stale ==> stale[t] == if t in todo then old(stale)[t] else Aged(day, old(stale))[t]
        decreases |todo|
      {
        assert (forall y :: y !in todo) ==> todo == {};
        var t :| t in todo;
        stale := stale[t := if t in day then 0 else stale[t] + 1];
        todo := todo - {t};
      }
      assert stale.Keys == Aged(day, old(stale)).Keys;
      assert forall t :: t in stale ==> stale[t] == Aged(day, old(stale))[t];
    }

    /** Drops a ticker's queued entry and exit, and returns why it will be sold. */
    method DropQueues(t: Ticker) returns (reason: string)
      modifies this
      ensures OnlyBook(old(Now()))
      ensures reason == ExitReason(old(BookNow()), t)
      ensures BookNow() == DropExit(old(BookNow()).(entries := old(entries) - {t}), t)
    {
      hide Without;
      entries := entries - {t};
      reason := if t in exits && exits[t] != "" then exits[t] else "delisted";
      exits, exitOrder := exits - {t}, Without(exitOrder, t);
    }

    /**
     Writes one ticker off if its bars have stopped: its queues are dropped, and
     its position sold at the last close.
     */
    method WriteOffOne(d: int, t: Ticker)
      modifies this
      ensures OnlyBook(old(Now()))
      ensures BookNow() == WriteOff(rules, d, t, old(BookNow()))
    {
      hide FillTerminalExit, ClosePosition, ExitReason;
      if t in stale && stale[t] >= rules.staleLimit && (t in positions || t in entries) {
        var reason := DropQueues(t);
        if t in positions && t in lastClose {
          var raised := CloseLots(t, FillTerminalExit(rules.costs, 0.0, lastClose[t], d, t), reason);
          cash := cash + raised;
        }
      }
    }

    /** Phase 1a. */
    method WriteOffStopped(d: int, names: seq<Ticker>)
      modifies this
      ensures OnlyBook(old(Now()))
      ensures BookNow() == WriteOffs(rules, d, names, |names|, old(BookNow()))
    {
      hide WriteOff;
      for i := 0 to |names|
        invariant OnlyBook(old(Now()))
        invariant BookNow() == WriteOffs(rules, d, names, i, old(BookNow()))
      {
        WriteOffOne(d, names[i]);
      }
    }

    /** Fills one queued exit at today's open, if its ticker printed. */
    method FillExitOne(day: map<Ticker, Bar>, t: Ticker)
      modifies this
      ensures OnlyBook(old(Now()))
      ensures BookNow() == WorkExit(rules, day, t, old(BookNow()))
    {
      hide FillMarketExit, ClosePosition, Without;
      if t in day && t in exits {
        var reason := exits[t];
        exits, exitOrder := exits - {t}, Without(exitOrder, t);
        if t in positions {
          var raised := CloseLots(t, FillMarketExit(rules.costs, 0.0, day[t], t), reason);
          cash := cash + raised;
        }
      }
    }

    /** Phase 1b. */
    method FillExits(day: map<Ticker, Bar>)
      modifies this
      ensures OnlyBook(old(Now()))
      ensures BookNow() == WorkExits(rules, day, old(exitOrder), |old(exitOrder)|, old(BookNow()))
    {
      hide WorkExit;
      var order := exitOrder;
      for i := 0 to |order|
        invariant OnlyBook(old(Now()))
        invariant BookNow() == WorkExits(rules, day, order, i, old(BookNow()))
      {
        FillExitOne(day, order[i]);
      }
    }

    /** One filled entry: the lot it opens and the cash it takes. */
    method BookFill(t: Ticker, f: Fill)
      requires f.quantity > 0.0
      modifies this
      ensures OnlyBook(old(Now()))
      ensures BookNow() == OpenLot(old(BookNow()), t, f)
    {
      assert LotsOf(BookNow(), t) == if t in positions then positions[t] else [];
      assert LotFrom(f) == Lot(f.quantity, f.price, f.date, f.commission, f.price);
      hide LotsOf, LotFrom;
      funnel := funnel.(filled := funnel.filled + 1);
      cash := cash - (f.price * f.quantity + f.commission);
      positions := positions[t := (if t in positions then positions[t] else []) + [LotFrom(f)]];
      tape := tape + [Bought(t, f.quantity, f.price, f.date, f.commission)];
    }

    /** Phase 1c. */
    method FillEntries(day: map<Ticker, Bar>)
      modifies this
      ensures OnlyBook(old(Now()))
      ensures BookNow() == Expired(WorkEntries(rules, day, |rules.tickers|, old(BookNow())))
    {
      hide TryFillLimitEntry, OpenLot;
      for i := 0 to |rules.tickers|
        invariant OnlyBook(old(Now()))
        invariant BookNow() == WorkEntries(rules, day, i, old(BookNow()))
      {
        var t := rules.tickers[i];
        if t in entries && t in day {
          var order := entries[t];
          var fill := TryFillLimitEntry(rules.costs, order.limit, order.quantity, day[t], t);
          if fill.Some? {
            BookFill(t, fill.value);
          }
        }
      }
      entries := map[];
    }

    /** Bookkeeping for one bar that printed. */
    method RecordBar(t: Ticker, bar: Bar)
      requires t in history
      modifies this
      ensures OnlyBook(old(Now()))
      ensures BookNow() == RecordedBar(t, bar, old(BookNow()))
    {
      history := history[t := history[t] + [bar]];
      lastClose := lastClose[t := bar.close];
      if t !in stale {
        stale := stale[t := 0];
      }
    }

    /** Phase 2a. */
    method Record(day: map<Ticker, Bar>)
      requires history.Keys == Elements(rules.tickers)
      requires day.Keys <= Elements(rules.tickers) && Distinct(rules.tickers)
      modifies this
      ensures OnlyBook(old(Now()))
      ensures BookNow() == Recorded(day, old(BookNow()))
    {
      hide Recorded, RecordedBar, Among, Distinct;
      ghost var start := BookNow();
      RecordNothing(day, start);
      for i := 0 to |rules.tickers|
        invariant OnlyBook(old(Now()))
        invariant BookNow() == Recorded(Among(day, rules.tickers[..i]), start)
      {
        var t := rules.tickers[i];
        RecordNext(day, rules.tickers, i, start);
        if t in day {
          RecordBar(t, day[t]);
        }
      }
      AmongAll(day, rules.tickers);
    }

    /** Phase 2b. */
    method GateUniverse(d: int, day: map<Ticker, Bar>, names: seq<Ticker>) returns (nonMembers: set<Ticker>)
      requires day.Keys + positions.Keys + exits.Keys <= Elements(names)
      modifies this
      ensures OnlyBook(old(Now()))
      ensures BookNow() == Gate(rules, d, names, |names|, old(BookNow()))
      ensures nonMembers == OutOfUniverse(rules, d, day, BookNow())
    {
      hide Elements, GateOne;
      var gate := day.Keys + positions.Keys + exits.Keys;
      nonMembers := {};
      ghost var start := BookNow();
      for i := 0 to |names|
        invariant OnlyBook(old(Now()))
        invariant BookNow() == Gate(rules, d, names, i, start)
        invariant nonMembers == Barred(rules, d, names, i, gate)
      {
        var t := names[i];
        GateOneIs(rules, d, t, BookNow());
        if t in gate && !rules.member(t, d) {
          nonMembers := nonMembers + {t};
          if t in positions && t !in exits {
            exits, exitOrder := exits[t := "universe_removal"], exitOrder + [t];
          }
        }
        GateSame(rules, d, names, i, start);
      }
      BarredAll(rules, d, day, names, start);
    }

    /** Pays one flow in or out. */
    method PayFlow(d: int)
      requires pending != [] && scale.Some?
      modifies this
      ensures Now() == FlowApplied(d, old(Now()))
    {
      hide FlowApplied;
      ghost var was := Now();
      var DatedSum(key, raw) := pending[0];
      pending := pending[1..];
      var amount := raw * scale.value;
      if amount < 0.0 {
        amount := -Min(-amount, Max(cash, 0.0));
      }
      cash := cash + amount;
      var n := |applied|;
      if n > 0 && applied[n - 1].day == d {
        applied := applied[..n - 1] + [DatedSum(d, applied[n - 1].amount + amount)];
      } else {
        applied := applied + [DatedSum(d, amount)];
      }
      tape := tape + [Flowed(key, d, amount)];
      FlowAppliedParts(d, was, key, raw, amount, applied);
    }

    /** Phase 2b'. */
    method PayFlows(d: int) returns (ok: bool)
      modifies this
      ensures ok <==> ApplyFlows(d, old(Now())).Success?
      ensures ok ==> Now() == ApplyFlows(d, old(Now())).value
      ensures !ok ==> ApplyFlows(d, old(Now())) == Failure(UnscaledFlow(d))
    {
      hide FlowApplied;
      while pending != [] && pending[0].day <= d
        invariant ApplyFlows(d, Now()) == ApplyFlows(d, old(Now()))
        decreases |pending|
      {
        if scale.None? {
          return false;
        }
        ghost var before := Now();
        FlowTaken(d, before);
        PayFlow(d);
      }
      ok := true;
    }

    /** Net asset value at the session's marks. */
    method Value(day: map<Ticker, Bar>) returns (nav: real)
      ensures nav == Nav(rules, day, BookNow())
    {
      nav := cash;
      ghost var f := HoldingValue(BookNow(), day);
      for i := 0 to |rules.tickers|
        invariant nav == cash + SumTo(rules.tickers, i, f)
      {
        var t := rules.tickers[i];
        var lots := if t in positions then positions[t] else [];
        var mark := MarkOf(day, lastClose, t);
        ghost var w := LotValue(mark);
        ghost var before := nav;
        for j := 0 to |lots|
          invariant nav == before + SeqSum(lots[..j], w)
        {
          assert lots[..j + 1] == lots[..j] + [lots[j]];
          SeqSumPush(lots[..j], lots[j], w);
          nav := nav + (if mark.Some? then mark.value else lots[j].entryPrice) * lots[j].quantity;
        }
        assert lots[..|lots|] == lots;
        assert f(t) == SeqSum(lots, w);
      }
    }

    /** What is held of each ticker, lot by lot. */
    method HeldQuantities() returns (holdings: map<Ticker, real>)
      ensures holdings.Keys == positions.Keys
      ensures forall t :: t in positions ==> holdings[t] == SeqSum(positions[t], QuantityOf)
    {
      holdings := map[];
      var todo := positions.Keys;
      while todo != {}
        invariant todo <= positions.Keys && holdings.Keys == positions.Keys - todo
        invariant forall t :: t in holdings ==> holdings[t] == SeqSum(positions[t], QuantityOf)
        decreases |todo|
      {
        assert (forall y :: y !in todo) ==> todo == {};
        var t :| t in todo;
        var lots := positions[t];
        var quantity := 0.0;
        for j := 0 to |lots|
          invariant quantity == SeqSum(lots[..j], QuantityOf)
        {
          assert lots[..j + 1] == lots[..j] + [lots[j]];
          SeqSumPush(lots[..j], lots[j], QuantityOf);
          quantity := quantity + lots[j].quantity;
        }
        assert lots[..|lots|] == lots;
        holdings := holdings[t := quantity];
        todo := todo - {t};
      }
      assert forall t :: t in holdings <==> t in positions;
    }

    /** What the queued entries would cost at their limits. */
    method ReservedNotional() returns (reserved: real)
      ensures reserved == Sum(rules.tickers, EntryNotional(entries))
    {
      reserved := 0.0;
      for i := 0 to |rules.tickers|
        invariant reserved == SumTo(rules.tickers, i, EntryNotional(entries))
      {
        var t := rules.tickers[i];
        if t in entries {
          reserved := reserved + entries[t].limit * entries[t].quantity;
        }
      }
    }

    /** The cash the queued entries have spoken for. */
    method CommittedCash() returns (committed: real)
      ensures committed == Sum(rules.tickers, EntryCost(entries))
    {
      committed := 0.0;
      for i := 0 to |rules.tickers|
        invariant committed == SumTo(rules.tickers, i, EntryCost(entries))
      {
        var t := rules.tickers[i];
        if t in entries {
          committed := committed + entries[t].cashCost;
        }
      }
    }

    /** The risk check on the book as it stands: its value, its holdings and what is already queued. */
    method AskRisk(day: map<Ticker, Bar>, t: Ticker, s: Signal) returns (decision: RiskDecision)
      ensures decision == rules.risk(Query(rules, day, t, s, BookNow()))
    {
      hide Nav, SeqSum, Sum;
      var nav := Value(day);
      var holdings := HeldQuantities();
      var exposurePct := if nav > 0.0 then (nav - cash) / nav * 100.0 else 0.0;
      var existing := |(if t in positions then positions[t] else [])| + if t in entries then 1 else 0;
      var reserved := ReservedNotional();
      ghost var q := Query(rules, day, t, s, BookNow());
      assert forall x :: x in holdings ==> holdings[x] == q.holdings[x];
      assert holdings == q.holdings;
      decision := rules.risk(RiskQuery(t, s.quantity, s.limit, s.sector, nav, holdings, exposurePct, existing,
                                       reserved));
    }

    /** Sizes an approved quantity to the sleeve's cash, and queues it if any of it fits. */
    method QueueFunded(t: Ticker, s: Signal, approved: real)
      modifies this
      ensures OnlyBook(old(Now()))
      ensures
        var b := old(BookNow());
        var o := Financed(rules, t, s, approved, b);
        BookNow() == b.(funnel := Placed(b.funnel, o),
                        entries := if o.Queued? then b.entries[t := o.entry] else b.entries)
    {
      hide Sizing, SleeveBuyCost, TermsFor, Sum, EntryCost;
      var quantity := approved;
      var committed := CommittedCash();
      var sized := SizeToSleeveCash(quantity, s.limit, cash, committed, TermsFor(rules, t), rules.wholeShares);
      if !sized.Approved() {
        funnel := funnel.(cashSkipped := funnel.cashSkipped + 1);
        return;
      }
      if sized.Downsized() {
        funnel := funnel.(downsized := funnel.downsized + 1);
        quantity := sized.quantity;
      }
      funnel := funnel.(queued := funnel.queued + 1);
      entries := entries[t := PendingEntry(s.limit, quantity, SleeveBuyCost(quantity, s.limit, TermsFor(rules, t)))];
    }

    /** One buy signal, from the risk check to the queue. */
    method ConsiderBuy(d: int, day: map<Ticker, Bar>, t: Ticker, s: Signal)
      modifies this
      ensures OnlyBook(old(Now()))
      ensures BookNow() == DecideBuy(rules, d, day, t, s, old(BookNow()))
    {
      hide Query, Financed, Trunc;
      if rules.start.Some? && d < rules.start.value {
        return;
      }
      var decision := AskRisk(day, t, s);
      funnel := funnel.(signals := funnel.signals + 1);
      if !decision.approved {
        funnel := funnel.(riskRefused := funnel.riskRefused + 1);
        return;
      }
      var quantity := decision.quantity;
      if rules.wholeShares {
        quantity := Trunc(quantity) as real;
        if quantity <= 0.0 {
          funnel := funnel.(wholeShareSkipped := funnel.wholeShareSkipped + 1);
          return;
        }
      }
      FinancedSame(rules, t, s, quantity, old(BookNow()), BookNow());
      QueueFunded(t, s, quantity);
    }

    /** Phase 2c. */
    method TakeDecisions(d: int, day: map<Ticker, Bar>, out: set<Ticker>, ctx: Context)
      modifies this
      ensures OnlyBook(old(Now()))
      ensures BookNow() == Decisions(rules, strategy, d, day, out, ctx, |rules.tickers|, old(BookNow()))
    {
      for i := 0 to |rules.tickers|
        invariant OnlyBook(old(Now()))
        invariant BookNow() == Decisions(rules, strategy, d, day, out, ctx, i, old(BookNow()))
      {
        var t := rules.tickers[i];
        if t in day && t !in out {
          var signal := strategy(t, if t in history then history[t] else [], ctx);
          if signal.Some? {
            var s := signal.value;
            if s.action == Sell && t in positions {
              if t !in exits {
                exits, exitOrder := exits[t := s.reason], exitOrder + [t];
              }
            } else if s.action == Buy {
              ConsiderBuy(d, day, t, s);
            }
          }
        }
      }
    }

    /** The context handed to the signal function, held position by held position. */
    method BindBook() returns (ctx: Context)
      ensures ctx == RunnerContext(BookNow(), rules.initial)
    {
      hide HeldOf;
      var held: map<Ticker, HeldPosition> := map[];
      var todo := positions.Keys;
      while todo != {}
        invariant todo <= positions.Keys
        invariant forall t :: t in held <==> t in positions && t !in todo && positions[t] != []
        invariant forall t :: t in held ==> held[t] == HeldOf(positions[t])
        decreases |todo|
      {
        assert (forall y :: y !in todo) ==> todo == {};
        var t :| t in todo;
        if positions[t] != [] {
          var position := BlendLots(positions[t]);
          held := held[t := position];
        }
        todo := todo - {t};
      }
      ghost var expected := map t | t in positions && positions[t] != [] :: HeldOf(positions[t]);
      assert forall t :: t in held <==> t in expected;
      assert forall t :: t in held ==> held[t] == expected[t];
      ctx := Context(held, map t | t in held && t in exits :: held[t].quantity, rules.initial);
    }

    /** Raises the peak of every lot whose ticker printed. */
    method RaiseAllPeaks(day: map<Ticker, Bar>)
      modifies this
      ensures OnlyBook(old(Now()))
      ensures BookNow() == Closed(day, old(BookNow()))
    {
      hide RaisedPeaks, Closed, PeaksRaisedBut;
      ghost var start := BookNow();
      var todo := positions.Keys;
      NoPeakYet(day, start);
      while todo != {}
        invariant OnlyBook(old(Now()))
        invariant BookNow() == start.(positions := positions)
        invariant todo <= start.positions.Keys && PeaksRaisedBut(day, start, positions, todo)
        decreases |todo|
      {
        hide RaisedPeak;
        assert (forall y :: y !in todo) ==> todo == {};
        var t :| t in todo;
        PeakNext(day, start, positions, todo, t);
        if t in day {
          positions := positions[t := RaisedPeaks(positions[t], day[t].close)];
        }
        todo := todo - {t};
      }
      PeaksClosed(day, start, positions);
      hide RaisedPeaks;
      tape := tape + [Marked(lastClose)];
    }

    /** End of day: value the book, raise the peaks, and learn the flow scale. */
    method CloseSession(d: int, day: map<Ticker, Bar>) returns (ok: bool)
      modifies this
      ensures ok <==> LearnedScale(basis, d, Nav(rules, day, old(BookNow())), old(scale)).Success?
      ensures ok ==>
        && BookNow() == Closed(day, old(BookNow()))
        && Now() == old(Now()).(
             book := BookNow(), scale := scale,
             values := old(values) + [Nav(rules, day, old(BookNow()))], dates := old(dates) + [d])
        && Success(scale) == LearnedScale(basis, d, Nav(rules, day, old(BookNow())), old(scale))
      ensures !ok ==> LearnedScale(basis, d, Nav(rules, day, old(BookNow())), old(scale)) == Failure(ZeroBasis)
    {
      hide Nav, Closed;
      var nav := Value(day);
      RaiseAllPeaks(day);
      values := values + [nav];
      dates := dates + [d];
      if scale.None? && basis.Some? && d >= basis.value.day {
        if basis.value.amount == 0.0 {
          return false;
        }
        scale := Some(nav / basis.value.amount);
      }
      ok := true;
    }

    /** One session, phase by phase. */
    method RunSession(d: int, day: map<Ticker, Bar>) returns (r: Result<(), Fault>)
      requires Distinct(rules.tickers) && day.Keys <= Elements(rules.tickers) && Sound(rules, BookNow())
      modifies this
      ensures match StepDay(rules, strategy, basis, d, day, old(Now()))
              case Success(st) => r == Success(()) && Now() == st
              case Failure(fault) => r == Failure(fault)
    {
      hide Sound, WriteOffs, WorkExits, WorkEntries, Recorded, Gate, Decisions, Closed, LearnedScale, Nav, Aged,
           RunnerContext, OutOfUniverse, Injected, UnmatchedFills;
      ghost var start := Now();
      var names := Names(rules);
      AgeTickers(day);
      WriteOffStopped(d, names);
      FillExits(day);
      assert BookNow() == AfterExits(rules, d, day, start.book);
      FillEntries(day);
      assert BookNow() == Expired(AfterEntries(rules, d, day, start.book));
      OvernightHistory(rules, d, day, start.book);
      Record(day);
      RecordedInUniverse(rules, d, day, start.book);
      var out := GateUniverse(d, day, names);
      assert BookNow() == BeforeFlows(rules, d, day, start.book);
      ghost var gated := Now();
      assert gated == start.(book := BeforeFlows(rules, d, day, start.book));
      var paid := PayFlows(d);
      if !paid {
        return Failure(UnscaledFlow(d));
      }
      FlowsKeep(rules, d, gated);
      ghost var funded := Now();
      assert out == OutOfUniverse(rules, d, day, funded.book) by {
        SameGate(rules, d, day, gated.book, funded.book);
      }
      var ctx := BindBook();
      TakeDecisions(d, day, out, ctx);
      assert BookNow() == AfterDecisions(rules, strategy, d, day, funded.book);
      var closed := CloseSession(d, day);
      if !closed {
        return Failure(ZeroBasis);
      }
      ghost var decided := AfterDecisions(rules, strategy, d, day, funded.book);
      assert Now() == funded.(book := Closed(day, decided), scale := scale,
                              values := start.values + [Nav(rules, day, decided)], dates := start.dates + [d]);
      return Success(());
    }

    /** open_positions: every lot still open, ticker by ticker. */
    method ListOpen(tickers: seq<Ticker>) returns (open: seq<OpenPosition>)
      ensures open == OpenTo(tickers, |tickers|, BookNow())
    {
      open := [];
      for i := 0 to |tickers|
        invariant open == OpenTo(tickers, i, BookNow())
      {
        open := open + TaggedLots(tickers[i], if tickers[i] in positions then positions[tickers[i]] else []);
      }
    }

    /** The whole run. */
    method Run(bars: Bars, ghost plan: Plan) returns (r: Result<(), Fault>)
      requires Universe(rules, bars) && plan.basis == basis && Now() == Start(rules, plan)
      modifies this
      ensures match Replay.Run(rules, strategy, plan, bars)
              case Success(st) => r == Success(()) && Now() == st
              case Failure(fault) => r == Failure(fault)
    {
      hide StepDay, Start, Sound, Balanced, BookNow;
      var sessions := Sessions(bars);
      var index := IndexBars(bars, rules.tickers);
      for k := 0 to |sessions|
        invariant RunTo(rules, strategy, plan, bars, k) == Success(Now())
      {
        var d := sessions[k];
        var day := map t | t in bars && (t, d) in index :: index[(t, d)];
        SameDay(bars, index, d, day);
        hide Day;
        DayInUniverse(rules, bars, d);
        RunBalanced(rules, strategy, plan, bars, k, Now());
        BalancedIsSound(rules, Now());
        var stepped := RunSession(d, day);
        if stepped.Failure? {
          FaultStops(rules, strategy, plan, bars, k + 1, |sessions|);
          return stepped;
        }
      }
      return Success(());
    }
  }

  /** The day's bars, looked up in the index, are the day's bars. */
  lemma SameDay(bars: Bars, index: map<(Ticker, int), Bar>, d: int, day: map<Ticker, Bar>)
    requires forall t, x :: (t, x) in index <==> t in bars && BarOn(bars[t], x).Some?
    requires forall t, x :: (t, x) in index ==> index[(t, x)] == BarOn(bars[t], x).value
    requires day == map t | t in bars && (t, d) in index :: index[(t, d)]
    ensures day == Day(bars, d)
  {
    forall t
      ensures t in day <==> t in Day(bars, d)
      ensures t in day ==> day[t] == Day(bars, d)[t]
    {
      assert (t, d) in index <==> t in bars && BarOn(bars[t], d).Some?;
    }
  }

  /** Every position has its peaks raised, but for those still to do. */
  ghost predicate PeaksRaisedBut(day: map<Ticker, Bar>, b: Book, positions: map<Ticker, seq<Lot>>, todo: set<Ticker>) {
    && positions.Keys == b.positions.Keys
    && forall t :: t in positions ==>
         positions[t] == if t in todo || t !in day then b.positions[t] else RaisedPeaks(b.positions[t], day[t].close)
  }

  lemma NoPeakYet(day: map<Ticker, Bar>, b: Book)
    ensures PeaksRaisedBut(day, b, b.positions, b.positions.Keys)
  {
  }

  lemma PeakNext(day: map<Ticker, Bar>, b: Book, positions: map<Ticker, seq<Lot>>, todo: set<Ticker>, t: Ticker)
    requires PeaksRaisedBut(day, b, positions, todo) && t in todo && t in b.positions
    ensures t in positions
    ensures
      var next := if t in day then positions[t := RaisedPeaks(positions[t], day[t].close)] else positions;
      PeaksRaisedBut(day, b, next, todo - {t})
  {
    hide RaisedPeaks;
  }

  lemma PeaksClosed(day: map<Ticker, Bar>, b: Book, positions: map<Ticker, seq<Lot>>)
    requires PeaksRaisedBut(day, b, positions, {})
    ensures Closed(day, b) == b.(positions := positions, tape := b.tape + [Marked(b.lastClose)])
  {
    hide RaisedPeaks;
    var c := Closed(day, b).positions;
    assert forall t :: t in c <==> t in positions;
    assert forall t :: t in c ==> c[t] == positions[t];
    assert c == positions;
  }

  lemma RecordedInUniverse(rules: Rules, d: int, day: map<Ticker, Bar>, b: Book)
    requires Distinct(rules.tickers) && Sound(rules, b) && day.Keys <= Elements(rules.tickers)
    ensures
      var c := Recorded(day, Expired(AfterEntries(rules, d, day, b)));
      day.Keys + c.positions.Keys + c.exits.Keys <= Elements(Names(rules))
  {
    hide AfterEntries, Recorded, Sound, Injected, UnmatchedFills, Distinct, Names;
    OvernightKeeps(rules, d, day, b);
    var filled := AfterEntries(rules, d, day, b);
    ExpiredKeeps(rules, filled);
    RecordedKeeps(rules, day, Expired(filled));
    HeldAreNames(rules, day, Recorded(day, Expired(filled)));
  }

  lemma HeldAreNames(rules: Rules, day: map<Ticker, Bar>, c: Book)
    requires Sound(rules, c) && day.Keys <= Elements(rules.tickers)
    ensures day.Keys + c.positions.Keys + c.exits.Keys <= Elements(Names(rules))
  {
    hide SleeveBuyCost, TermsFor;
    SortedElements(Elements(rules.tickers));
  }

  lemma OvernightHistory(rules: Rules, d: int, day: map<Ticker, Bar>, b: Book)
    requires Distinct(rules.tickers) && Sound(rules, b)
    ensures AfterEntries(rules, d, day, b).history.Keys == Elements(rules.tickers)
  {
    OvernightKeeps(rules, d, day, b);
    hide AfterEntries, SleeveBuyCost, TermsFor, Injected, UnmatchedFills;
  }

  lemma SameGate(rules: Rules, d: int, day: map<Ticker, Bar>, b: Book, c: Book)
    requires b.positions == c.positions && b.exits == c.exits
    ensures OutOfUniverse(rules, d, day, b) == OutOfUniverse(rules, d, day, c)
  {
  }

  /** A fault ends the run: no later session is replayed. */
  lemma {:induction false} FaultStops(rules: Rules, strategy: Strategy, plan: Plan, bars: Bars, k: nat, n: nat)
    requires k <= n <= |Sessions(bars)| && RunTo(rules, strategy, plan, bars, k).Failure?
    ensures RunTo(rules, strategy, plan, bars, n) == RunTo(rules, strategy, plan, bars, k)
  {
    hide StepDay;
    if k < n {
      FaultStops(rules, strategy, plan, bars, k, n - 1);
    }
  }

  /** The names among the first n that are gated and not members. */
  function Barred(rules: Rules, d: int, names: seq<Ticker>, n: nat, gate: set<Ticker>): set<Ticker>
    requires n <= |names|
  {
    if n == 0 then {}
    else Barred(rules, d, names, n - 1, gate) + if names[n - 1] in gate && !rules.member(names[n - 1], d)
        then {names[n - 1]} else {}
  }

  lemma {:induction false} BarredAre(rules: Rules, d: int, names: seq<Ticker>, n: nat, gate: set<Ticker>)
    requires n <= |names|
    ensures forall t :: t in Barred(rules, d, names, n, gate) <==> t in names[..n] && t in gate && !rules.member(t, d)
  {
    if n > 0 {
      BarredAre(rules, d, names, n - 1, gate);
      assert names[..n] == names[..n - 1] + [names[n - 1]];
    }
  }

  lemma GateOneIs(rules: Rules, d: int, t: Ticker, b: Book)
    ensures GateOne(rules, d, t, b)
            == if !rules.member(t, d) && t in b.positions && t !in b.exits
               then b.(exits := b.exits[t := "universe_removal"], exitOrder := b.exitOrder + [t]) else b
  {
  }

  lemma BarredAll(rules: Rules, d: int, day: map<Ticker, Bar>, names: seq<Ticker>, b: Book)
    requires day.Keys + b.positions.Keys + b.exits.Keys <= Elements(names)
    ensures
      var gate := day.Keys + b.positions.Keys + b.exits.Keys;
      Barred(rules, d, names, |names|, gate) == OutOfUniverse(rules, d, day, Gate(rules, d, names, |names|, b))
  {
    hide Gate;
    var gate, c := day.Keys + b.positions.Keys + b.exits.Keys, Gate(rules, d, names, |names|, b);
    GateSame(rules, d, names, |names|, b);
    BarredAre(rules, d, names, |names|, gate);
    GateListed(names, gate);
    assert names[..|names|] == names;
    forall t
      ensures t in Barred(rules, d, names, |names|, gate) <==> t in OutOfUniverse(rules, d, day, c)
    {
      assert t in gate <==> t in day.Keys + c.positions.Keys + c.exits.Keys;
    }
  }

  lemma FinancedSame(rules: Rules, t: Ticker, s: Signal, q: real, b: Book, c: Book)
    requires b.cash == c.cash && b.entries == c.entries
    ensures Financed(rules, t, s, q, b) == Financed(rules, t, s, q, c)
  {
    hide Sizing, SleeveBuyCost, TermsFor;
  }

  lemma GateListed(names: seq<Ticker>, gate: set<Ticker>)
    requires gate <= Elements(names)
    ensures forall t :: t in gate ==> t in names
  {
  }

  lemma FlowAppliedParts(d: int, st: State, key: int, raw: real, amount: real, applied: seq<DatedSum>)
    requires st.pending != [] && st.scale.Some? && st.pending[0] == DatedSum(key, raw)
    requires amount == FlowAmount(raw * st.scale.value, st.book.cash)
    requires applied == Credited(st.applied, d, amount)
    ensures FlowApplied(d, st)
            == State(st.book.(cash := st.book.cash + amount, tape := st.book.tape + [Flowed(key, d, amount)]),
                     st.pending[1..], applied, st.scale, st.values, st.dates)
  {
    var f := FlowApplied(d, st);
    assert st.pending[0].amount * st.scale.value == raw * st.scale.value;
    assert f.applied == applied && f.pending == st.pending[1..];
    assert f.book == st.book.(cash := st.book.cash + amount, tape := st.book.tape + [Flowed(key, d, amount)]);
  }

  lemma FlowTaken(d: int, st: State)
    requires st.pending != [] && st.pending[0].day <= d && st.scale.Some?
    ensures ApplyFlows(d, FlowApplied(d, st)) == ApplyFlows(d, st)
    ensures |FlowApplied(d, st).pending| < |st.pending|
  {
  }

  /** The first i lots of a position have been traded, onto the trades and the tape there were. */
  ghost predicate Traded(m: CostModel, t: Ticker, lots: seq<Lot>, i: nat, price: real, d: int, reason: string,
                         was: seq<Trade>, tapeWas: seq<Event>, trades: seq<Trade>, tape: seq<Event>, proceeds: real)
    requires i <= |lots|
  {
    var done := ClosedTrades(m, t, lots[..i], price, d, reason);
    trades == was + done && tape == tapeWas + SoldEvents(done) && proceeds == SeqSum(done, CashRaised)
  }

  lemma NothingTraded(m: CostModel, t: Ticker, lots: seq<Lot>, price: real, d: int, reason: string, was: seq<Trade>,
                      tapeWas: seq<Event>)
    ensures Traded(m, t, lots, 0, price, d, reason, was, tapeWas, was, tapeWas, 0.0)
  {
    assert lots[..0] == [];
    assert ClosedTrades(m, t, [], price, d, reason) == [] && SoldEvents([]) == [];
    assert was + [] == was && tapeWas + [] == tapeWas;
  }

  lemma TradedNext(m: CostModel, t: Ticker, lots: seq<Lot>, i: nat, price: real, d: int, reason: string,
                   was: seq<Trade>,
                   tapeWas: seq<Event>, trades: seq<Trade>, tape: seq<Event>, proceeds: real)
    requires i < |lots| && Traded(m, t, lots, i, price, d, reason, was, tapeWas, trades, tape, proceeds)
    ensures
      var tr := TradeOf(m, t, lots[i], price, d, reason);
      Traded(m, t, lots, i + 1, price, d, reason, was, tapeWas, trades + [tr], tape + [SoldEvent(tr)],
             proceeds + CashRaised(tr))
  {
    hide TradeOf, CashRaised, SoldEvent, ClosedTrades, SoldEvents, SeqSum;
    LotTraded(m, t, lots, i, price, d, reason);
  }

  lemma AllTraded(m: CostModel, t: Ticker, lots: seq<Lot>, price: real, d: int, reason: string, was: seq<Trade>,
                  tapeWas: seq<Event>, trades: seq<Trade>, tape: seq<Event>, proceeds: real)
    requires Traded(m, t, lots, |lots|, price, d, reason, was, tapeWas, trades, tape, proceeds)
    ensures
      var closed := ClosedTrades(m, t, lots, price, d, reason);
      trades == was + closed && tape == tapeWas + SoldEvents(closed) && proceeds == SeqSum(closed, CashRaised)
  {
    hide ClosedTrades, SoldEvents, SeqSum;
    assert lots[..|lots|] == lots;
  }

  lemma SameTrade(m: CostModel, t: Ticker, lot: Lot, price: real, d: int, reason: string, tr: Trade)
    requires
      var commission := CommissionFor(m, lot.quantity);
      tr == Trade(t, lot.entryDate, d, lot.entryPrice, price, lot.quantity,
                  price * lot.quantity - lot.entryPrice * lot.quantity - lot.entryCommission - commission,
                  lot.entryCommission, commission, reason)
    ensures tr == TradeOf(m, t, lot, price, d, reason)
  {
  }

  lemma RaisedBy(tr: Trade)
    ensures CashRaised(tr) == tr.exitPrice * tr.quantity - tr.exitCommission
  {
  }

  function RecordedBar(t: Ticker, bar: Bar, b: Book): Book
    requires t in b.history
  {
    b.(history := b.history[t := b.history[t] + [bar]], lastClose := b.lastClose[t := bar.close],
       stale := if t in b.stale then b.stale else b.stale[t := 0])
  }

  function Among(day: map<Ticker, Bar>, tickers: seq<Ticker>): map<Ticker, Bar> {
    map t | t in day && t in tickers :: day[t]
  }

  lemma AmongAll(day: map<Ticker, Bar>, tickers: seq<Ticker>)
    requires day.Keys <= Elements(tickers)
    ensures Among(day, tickers[..|tickers|]) == day
  {
    assert forall t :: t in day ==> t in Elements(tickers);
  }

  lemma RecordNothing(day: map<Ticker, Bar>, b: Book)
    ensures forall tickers: seq<Ticker> :: Recorded(Among(day, tickers[..0]), b) == b
  {
    var r := Recorded(map[], b);
    assert r.history == b.history && r.lastClose == b.lastClose && r.stale == b.stale;
    forall tickers: seq<Ticker>
      ensures Recorded(Among(day, tickers[..0]), b) == b
    {
      assert Among(day, tickers[..0]) == map[];
    }
  }

  lemma RecordOne(part: map<Ticker, Bar>, t: Ticker, bar: Bar, b: Book)
    requires t !in part && t in b.history
    ensures t in Recorded(part, b).history
    ensures Recorded(part[t := bar], b) == RecordedBar(t, bar, Recorded(part, b))
  {
    RecordHistory(part, t, bar, b);
    RecordClose(part, t, bar, b);
    RecordStale(part, t, bar, b);
  }

  lemma RecordHistory(part: map<Ticker, Bar>, t: Ticker, bar: Bar, b: Book)
    requires t !in part && t in b.history
    ensures
      var r := Recorded(part, b).history;
      Recorded(part[t := bar], b).history == r[t := r[t] + [bar]]
  {
  }

  lemma RecordClose(part: map<Ticker, Bar>, t: Ticker, bar: Bar, b: Book)
    requires t !in part
    ensures Recorded(part[t := bar], b).lastClose == Recorded(part, b).lastClose[t := bar.close]
  {
    var closes := map x | x in part :: part[x].close;
    var grown := part[t := bar];
    assert (map x | x in grown :: grown[x].close) == closes[t := bar.close];
    assert b.lastClose + closes[t := bar.close] == (b.lastClose + closes)[t := bar.close];
  }

  lemma RecordStale(part: map<Ticker, Bar>, t: Ticker, bar: Bar, b: Book)
    requires t !in part
    ensures
      var r := Recorded(part, b).stale;
      Recorded(part[t := bar], b).stale == if t in r then r else r[t := 0]
  {
    var zeros := map x | x in part :: 0;
    var grown := part[t := bar];
    assert (map x | x in grown :: 0) == zeros[t := 0];
    assert zeros[t := 0] + b.stale == if t in b.stale then zeros + b.stale else (zeros + b.stale)[t := 0];
  }

  lemma RecordedKeys(part: map<Ticker, Bar>, b: Book)
    ensures Recorded(part, b).history.Keys == b.history.Keys
  {
  }

  /** Recording the bars of one more ticker. */
  lemma RecordNext(day: map<Ticker, Bar>, tickers: seq<Ticker>, i: nat, b: Book)
    requires i < |tickers| && Distinct(tickers) && b.history.Keys == Elements(tickers)
    ensures Recorded(Among(day, tickers[..i]), b).history.Keys == b.history.Keys
    ensures tickers[i] in b.history
    ensures
      var was, now := Among(day, tickers[..i]), Among(day, tickers[..i + 1]);
      && tickers[i] in Recorded(was, b).history
      && Recorded(now, b)
         == if tickers[i] in day then RecordedBar(tickers[i], day[tickers[i]], Recorded(was, b)) else Recorded(was, b)
  {
    RecordedKeys(Among(day, tickers[..i]), b);
    hide Recorded, RecordedBar;
    var t := tickers[i];
    var was, now := Among(day, tickers[..i]), Among(day, tickers[..i + 1]);
    assert t in Elements(tickers);
    AmongNext(day, tickers, i);
    hide Among, Elements, Distinct;
    if t in day {
      RecordOne(was, t, day[t], b);
    }
  }

  lemma AmongNext(day: map<Ticker, Bar>, tickers: seq<Ticker>, i: nat)
    requires i < |tickers| && Distinct(tickers)
    ensures
      var t, was, now := tickers[i], Among(day, tickers[..i]), Among(day, tickers[..i + 1]);
      if t in day then t !in was && now == was[t := day[t]] else now == was
  {
    var t, was, now := tickers[i], Among(day, tickers[..i]), Among(day, tickers[..i + 1]);
    assert tickers[..i + 1] == tickers[..i] + [t];
    assert t !in tickers[..i];
    if t in day {
      assert forall x :: x in now <==> x in was || x == t;
      assert forall x :: x in now ==> now[x] == was[t := day[t]][x];
    } else {
      assert forall x :: x in now <==> x in was;
    }
  }

  /** One held position from its lots, accumulated lot by lot. */
  method BlendLots(lots: seq<Lot>) returns (p: HeldPosition)
    requires lots != []
    ensures p == HeldOf(lots)
  {
    var quantity: real, average := lots[0].quantity, lots[0].entryPrice;
    var peak, entered := lots[0].peak, lots[0].entryDate;
    for i := 1 to |lots|
      invariant quantity > 0.0
      invariant quantity == Blend(lots[..i]).quantity
      invariant average == Blend(lots[..i]).average
      invariant peak == HighestPeak(lots[..i])
      invariant entered == EarliestEntry(lots[..i])
    {
      BlendNext(lots, i);
      hide Blend, HighestPeak, EarliestEntry, Averaged;
      average := Averaged(average, quantity, lots[i].entryPrice, lots[i].quantity);
      quantity := quantity + lots[i].quantity;
      peak := Max(peak, lots[i].peak);
      entered := if entered <= lots[i].entryDate then entered else lots[i].entryDate;
    }
    assert lots[..|lots|] == lots;
    p := HeldPosition(quantity, average, peak, entered);
  }

  lemma BlendNext(lots: seq<Lot>, i: nat)
    requires 1 <= i < |lots|
    ensures
      var held := Blend(lots[..i]);
      Blend(lots[..i + 1])
      == Blended(held.quantity + lots[i].quantity,
                 Averaged(held.average, held.quantity, lots[i].entryPrice, lots[i].quantity))
    ensures HighestPeak(lots[..i + 1]) == Max(HighestPeak(lots[..i]), lots[i].peak)
    ensures
      var e := EarliestEntry(lots[..i]);
      EarliestEntry(lots[..i + 1]) == if e <= lots[i].entryDate then e else lots[i].entryDate
  {
    hide Averaged;
    var upTo := lots[..i + 1];
    assert upTo[..i] == lots[..i] && upTo[i] == lots[i] && |upTo| - 1 == i;
  }

  /** bars_by_date: the bar of each ticker on each date, later duplicates winning. */
  method IndexBars(bars: Bars, tickers: seq<Ticker>) returns (index: map<(Ticker, int), Bar>)
    requires Distinct(tickers) && Elements(tickers) == bars.Keys
    ensures forall t, d :: (t, d) in index <==> t in bars && BarOn(bars[t], d).Some?
    ensures forall t, d :: (t, d) in index ==> index[(t, d)] == BarOn(bars[t], d).value
  {
    index := map[];
    for i := 0 to |tickers|
      invariant forall t, d :: (t, d) in index <==> t in tickers[..i] && t in bars && BarOn(bars[t], d).Some?
      invariant forall t, d :: (t, d) in index ==> index[(t, d)] == BarOn(bars[t], d).value
    {
      var own := tickers[i];
      assert own in Elements(tickers);
      var listed := bars[own];
      ghost var before := index;
      for j := 0 to |listed|
        invariant forall t, d ::
          (t, d) in index <==> (t, d) in before || (t == own && BarOn(listed[..j], d).Some?)
        invariant forall t, d :: (t, d) in index ==>
          index[(t, d)] == if t == own then BarOn(listed[..j], d).value else before[(t, d)]
      {
        assert listed[..j + 1][..j] == listed[..j];
        index := index[(own, listed[j].date) := listed[j]];
      }
      assert listed[..|listed|] == listed;
      assert tickers[..i + 1] == tickers[..i] + [own];
    }
    assert tickers[..|tickers|] == tickers;
    assert forall t :: t in bars ==> t in Elements(tickers);
  }
}
