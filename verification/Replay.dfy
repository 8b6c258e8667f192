/**
 The day-stepped replay as a state machine: one session is eight phases in a
 fixed order, each a function on the book.

 The order of a phase's steps is the order the source iterates in: tickers in
 the order of the bar table, names sorted, queued exits in the order they were
 queued. The order in which held positions are listed is not recorded.
 */
module Replay {
  import opened Basics
  import opened Market
  import opened Costs

  // ---- The book ----

  datatype Lot = Lot(quantity: Positive, entryPrice: real, entryDate: int, entryCommission: real, peak: real)

  datatype PendingEntry = PendingEntry(limit: Positive, quantity: Positive, cashCost: real)

  datatype Trade = Trade(
    ticker: Ticker, entryDate: int, exitDate: int, entryPrice: real, exitPrice: real, quantity: real,
    pnl: real, entryCommission: real, exitCommission: real, reason: string)

  datatype Funnel = Funnel(
    signals: int, riskRefused: int, wholeShareSkipped: int, cashSkipped: int,
    queued: int, filled: int, downsized: int)

  /**
   What the executor, the flow schedule and the closing marks reported, in
   order. The replay never reads the tape; it is what a live ledger would be fed.
   */
  datatype Event =
    | Bought(ticker: Ticker, quantity: real, price: real, date: int, commission: real)
    | Sold(ticker: Ticker, quantity: real, price: real, date: int, commission: real)
    | Flowed(key: int, date: int, amount: real)
    | Marked(prices: map<Ticker, real>)

  datatype Book = Book(
    cash: real,
    positions: map<Ticker, seq<Lot>>,
    entries: map<Ticker, PendingEntry>,
    exits: map<Ticker, string>,
    exitOrder: seq<Ticker>,
    stale: map<Ticker, int>,
    lastClose: map<Ticker, real>,
    history: map<Ticker, seq<Bar>>,
    trades: seq<Trade>,
    funnel: Funnel,
    tape: seq<Event>)

  // ---- What the caller supplies ----

  datatype HeldPosition = HeldPosition(quantity: real, average: real, peak: real, entryDate: int)

  datatype Context = Context(positions: map<Ticker, HeldPosition>, pendingSells: map<Ticker, real>, budget: real)

  datatype Action = Buy | Sell | Hold

  datatype Signal = Signal(action: Action, limit: real, quantity: real, sector: string, reason: string)

  /** A signal function: the ticker, its bars so far and the book it is shown. */
  type Strategy = (Ticker, seq<Bar>, Context) -> Option<Signal>

  datatype RiskQuery = RiskQuery(
    ticker: Ticker, quantity: real, price: real, sector: string, nav: real,
    holdings: map<Ticker, real>, exposurePct: real, existingLots: int, reserved: real)

  datatype RiskDecision = RiskDecision(approved: bool, quantity: real)

  datatype Rules = Rules(
    tickers: seq<Ticker>,
    costs: CostModel,
    bufferBps: real,
    risk: RiskQuery -> RiskDecision,
    member: (Ticker, int) -> bool,
    start: Option<int>,
    staleLimit: int,
    initial: real,
    wholeShares: bool)

  datatype DatedSum = DatedSum(day: int, amount: real)

  /** Capital flows by session, and the (anchor session, NAV) they were sized against. */
  datatype Plan = Plan(flows: map<int, real>, basis: Option<DatedSum>)

  ghost predicate Universe(rules: Rules, bars: Bars) {
    Distinct(rules.tickers) && Elements(rules.tickers) == bars.Keys
  }

  function Names(rules: Rules): seq<Ticker> {
    SortedInts(Elements(rules.tickers))
  }

  // ---- Closing and opening lots ----

  function TradeOf(m: CostModel, t: Ticker, lot: Lot, price: real, d: int, reason: string): Trade {
    var commission := CommissionFor(m, lot.quantity);
    Trade(t, lot.entryDate, d, lot.entryPrice, price, lot.quantity,
          price * lot.quantity - lot.entryPrice * lot.quantity - lot.entryCommission - commission,
          lot.entryCommission, commission, reason)
  }

  function ClosedTrades(m: CostModel, t: Ticker, lots: seq<Lot>, price: real, d: int, reason: string): seq<Trade> {
    if lots == [] then
      []
    else
      var n := |lots| - 1;
      ClosedTrades(m, t, lots[..n], price, d, reason) + [TradeOf(m, t, lots[n], price, d, reason)]
  }

  function CashRaised(tr: Trade): real {
    tr.exitPrice * tr.quantity - tr.exitCommission
  }

  function SoldEvent(tr: Trade): Event {
    Sold(tr.ticker, tr.quantity, tr.exitPrice, tr.exitDate, tr.exitCommission)
  }

  function SoldEvents(trades: seq<Trade>): seq<Event> {
    if trades == [] then [] else SoldEvents(trades[..|trades| - 1]) + [SoldEvent(trades[|trades| - 1])]
  }

  /** close_position: every lot of a ticker becomes a trade and its proceeds become cash. */
  function ClosePosition(m: CostModel, b: Book, t: Ticker, price: real, d: int, reason: string): Book
    requires t in b.positions
  {
    var closed := ClosedTrades(m, t, b.positions[t], price, d, reason);
    b.(cash := b.cash + SeqSum(closed, CashRaised),
       positions := b.positions - {t},
       trades := b.trades + closed,
       tape := b.tape + SoldEvents(closed))
  }

  function LotsOf(b: Book, t: Ticker): seq<Lot> {
    if t in b.positions then b.positions[t] else []
  }

  function HistoryOf(b: Book, t: Ticker): seq<Bar> {
    if t in b.history then b.history[t] else []
  }

  function LotFrom(f: Fill): Lot
    requires f.quantity > 0.0
  {
    Lot(f.quantity, f.price, f.date, f.commission, f.price)
  }

  function OpenLot(b: Book, t: Ticker, f: Fill): Book
    requires f.quantity > 0.0
  {
    b.(cash := b.cash - (f.price * f.quantity + f.commission),
       positions := b.positions[t := LotsOf(b, t) + [LotFrom(f)]],
       funnel := b.funnel.(filled := b.funnel.filled + 1),
       tape := b.tape + [Bought(t, f.quantity, f.price, f.date, f.commission)])
  }

  // ---- Queued exits, in the order they were queued ----

  function Without(order: seq<Ticker>, t: Ticker): (r: seq<Ticker>)
    ensures forall x :: x in r <==> x in order && x != t
  {
    if order == [] then []
    else
      var n := |order| - 1;
      Without(order[..n], t) + if order[n] == t then [] else [order[n]]
  }

  function DropExit(b: Book, t: Ticker): Book {
    b.(exits := b.exits - {t}, exitOrder := Without(b.exitOrder, t))
  }

  function QueueExit(b: Book, t: Ticker, reason: string): Book {
    if t in b.exits then b else b.(exits := b.exits[t := reason], exitOrder := b.exitOrder + [t])
  }

  // ---- Phase 0: age every ticker that has printed before ----

  function Aged(day: map<Ticker, Bar>, stale: map<Ticker, int>): map<Ticker, int> {
    map t | t in stale :: if t in day then 0 else stale[t] + 1
  }

  // ---- Phase 1a: write off holdings whose bars have stopped ----

  function ExitReason(b: Book, t: Ticker): string {
    if t in b.exits && b.exits[t] != "" then b.exits[t] else "delisted"
  }

  function WriteOff(rules: Rules, d: int, t: Ticker, b: Book): Book {
    if t !in b.stale || b.stale[t] < rules.staleLimit then b
    else if t !in b.positions && t !in b.entries then b
    else
      var dropped := DropExit(b.(entries := b.entries - {t}), t);
      if t in b.positions && t in b.lastClose then
        var f := FillTerminalExit(rules.costs, 0.0, b.lastClose[t], d, t);
        ClosePosition(rules.costs, dropped, t, f.price, f.date, ExitReason(b, t))
      else
        dropped
  }

  function WriteOffs(rules: Rules, d: int, names: seq<Ticker>, n: nat, b: Book): Book
    requires n <= |names|
  {
    if n == 0 then b else WriteOff(rules, d, names[n - 1], WriteOffs(rules, d, names, n - 1, b))
  }

  // ---- Phase 1b: fill exits queued yesterday at today's open ----

  function WorkExit(rules: Rules, day: map<Ticker, Bar>, t: Ticker, b: Book): Book {
    if t !in day || t !in b.exits then b
    else
      var dropped := DropExit(b, t);
      if t in b.positions then
        var f := FillMarketExit(rules.costs, 0.0, day[t], t);
        ClosePosition(rules.costs, dropped, t, f.price, f.date, b.exits[t])
      else
        dropped
  }

  function WorkExits(rules: Rules, day: map<Ticker, Bar>, order: seq<Ticker>, n: nat, b: Book): Book
    requires n <= |order|
  {
    if n == 0 then b else WorkExit(rules, day, order[n - 1], WorkExits(rules, day, order, n - 1, b))
  }

  // ---- Phase 1c: work yesterday's entries, then expire them ----

  function WorkEntry(rules: Rules, day: map<Ticker, Bar>, t: Ticker, b: Book): Book {
    if t !in b.entries || t !in day then b
    else
      var e := b.entries[t];
      var fill := TryFillLimitEntry(rules.costs, e.limit, e.quantity, day[t], t);
      if fill.None? then b else OpenLot(b, t, fill.value)
  }

  function WorkEntries(rules: Rules, day: map<Ticker, Bar>, n: nat, b: Book): Book
    requires n <= |rules.tickers|
  {
    if n == 0 then b else WorkEntry(rules, day, rules.tickers[n - 1], WorkEntries(rules, day, n - 1, b))
  }

  function Expired(b: Book): Book {
    b.(entries := map[])
  }

  // ---- Phase 2a: bookkeeping for everything that printed today ----

  function Recorded(day: map<Ticker, Bar>, b: Book): Book {
    b.(history := map t | t in b.history :: if t in day then b.history[t] + [day[t]] else b.history[t],
       lastClose := b.lastClose + map t | t in day :: day[t].close,
       stale := (map t | t in day :: 0) + b.stale)
  }

  // ---- Phase 2b: point-in-time universe gate ----

  function OutOfUniverse(rules: Rules, d: int, day: map<Ticker, Bar>, b: Book): set<Ticker> {
    set t | t in day.Keys + b.positions.Keys + b.exits.Keys && !rules.member(t, d)
  }

  function GateOne(rules: Rules, d: int, t: Ticker, b: Book): Book {
    if !rules.member(t, d) && t in b.positions then QueueExit(b, t, "universe_removal") else b
  }

  function Gate(rules: Rules, d: int, names: seq<Ticker>, n: nat, b: Book): Book
    requires n <= |names|
  {
    if n == 0 then b else GateOne(rules, d, names[n - 1], Gate(rules, d, names, n - 1, b))
  }

  // ---- Phase 2c': the sleeve's own book ----

  /** The average price of a position of quantity q after adding more at a price. */
  function Averaged(average: real, q: real, price: real, more: real): real
    requires q + more != 0.0
  {
    (average * q + price * more) / (q + more)
  }

  datatype Blended = Blended(quantity: real, average: real)

  /** Total quantity and quantity-weighted average price, accumulated lot by lot. */
  function Blend(lots: seq<Lot>): (r: Blended)
    requires lots != []
    ensures r.quantity > 0.0
  {
    var n := |lots| - 1;
    if n == 0 then
      Blended(lots[0].quantity, lots[0].entryPrice)
    else
      var held := Blend(lots[..n]);
      Blended(held.quantity + lots[n].quantity,
              Averaged(held.average, held.quantity, lots[n].entryPrice, lots[n].quantity))
  }

  function HighestPeak(lots: seq<Lot>): real
    requires lots != []
  {
    var n := |lots| - 1;
    if n == 0 then lots[0].peak else Max(HighestPeak(lots[..n]), lots[n].peak)
  }

  function EarliestEntry(lots: seq<Lot>): int
    requires lots != []
  {
    var n := |lots| - 1;
    if n == 0 then lots[0].entryDate
    else
      var e := EarliestEntry(lots[..n]);
      if e <= lots[n].entryDate then e else lots[n].entryDate
  }

  function HeldOf(lots: seq<Lot>): HeldPosition
    requires lots != []
  {
    HeldPosition(Blend(lots).quantity, Blend(lots).average, HighestPeak(lots), EarliestEntry(lots))
  }

  function RunnerContext(b: Book, budget: real): Context {
    var held := map t | t in b.positions && b.positions[t] != [] :: HeldOf(b.positions[t]);
    Context(held, map t | t in held && t in b.exits :: held[t].quantity, budget)
  }

  // ---- Valuation ----

  function MarkOf(day: map<Ticker, Bar>, lastClose: map<Ticker, real>, t: Ticker): Option<real> {
    if t in day then Some(day[t].close) else if t in lastClose then Some(lastClose[t]) else None
  }

  function LotValue(mark: Option<real>): Lot -> real {
    (lot: Lot) => (if mark.Some? then mark.value else lot.entryPrice) * lot.quantity
  }

  function HoldingValue(b: Book, day: map<Ticker, Bar>): Ticker -> real {
    t => SeqSum(LotsOf(b, t), LotValue(MarkOf(day, b.lastClose, t)))
  }

  function MarketValue(rules: Rules, day: map<Ticker, Bar>, b: Book): real {
    Sum(rules.tickers, HoldingValue(b, day))
  }

  function Nav(rules: Rules, day: map<Ticker, Bar>, b: Book): real {
    b.cash + MarketValue(rules, day, b)
  }

  // ---- Phase 2c: decide ----

  function QuantityOf(lot: Lot): real {
    lot.quantity
  }

  function EntryCost(entries: map<Ticker, PendingEntry>): Ticker -> real {
    t => if t in entries then entries[t].cashCost else 0.0
  }

  function EntryNotional(entries: map<Ticker, PendingEntry>): Ticker -> real {
    t => if t in entries then entries[t].limit * entries[t].quantity else 0.0
  }

  /** Cash already spoken for by the entries queued so far. */
  function Committed(rules: Rules, b: Book): real {
    Sum(rules.tickers, EntryCost(b.entries))
  }

  function Query(rules: Rules, day: map<Ticker, Bar>, t: Ticker, s: Signal, b: Book): RiskQuery {
    var nav := Nav(rules, day, b);
    RiskQuery(
      t, s.quantity, s.limit, s.sector, nav,
      map x | x in b.positions :: SeqSum(b.positions[x], QuantityOf),
      if nav > 0.0 then (nav - b.cash) / nav * 100.0 else 0.0,
      |LotsOf(b, t)| + if t in b.entries then 1 else 0,
      Sum(rules.tickers, EntryNotional(b.entries)))
  }

  /** int(): truncation toward zero. */
  function Trunc(x: real): int {
    if x >= 0.0 then x.Floor else -((-x).Floor)
  }

  function BufferFor(rules: Rules, t: Ticker): real {
    Max(rules.bufferBps, SlippageFor(rules.costs, t))
  }

  function TermsFor(rules: Rules, t: Ticker): Terms {
    Terms(rules.costs.perShare, rules.costs.minimum, BufferFor(rules, t))
  }

  datatype BuyOutcome = TooEarly | RiskRefused | NoWholeShare | NoCash | Queued(entry: PendingEntry, cut: bool)

  /** An approved quantity against the sleeve's cash: skipped, or queued at what the cash affords. */
  function Financed(rules: Rules, t: Ticker, s: Signal, q: real, b: Book): (o: BuyOutcome)
    ensures o == NoCash || o.Queued?
  {
    var cash := Sizing(q, s.limit, b.cash, Committed(rules, b), TermsFor(rules, t), rules.wholeShares);
    if !cash.Approved() then NoCash
    else
      Queued(PendingEntry(s.limit, cash.quantity, SleeveBuyCost(cash.quantity, s.limit, TermsFor(rules, t))),
             cash.Downsized())
  }

  /** What becomes of one buy signal: where it stops, or the entry it queues. */
  function OutcomeOf(rules: Rules, d: int, day: map<Ticker, Bar>, t: Ticker, s: Signal, b: Book): BuyOutcome {
    if rules.start.Some? && d < rules.start.value then TooEarly
    else
      var decision := rules.risk(Query(rules, day, t, s, b));
      if !decision.approved then RiskRefused
      else
        var q := if rules.wholeShares then Trunc(decision.quantity) as real else decision.quantity;
        if rules.wholeShares && q <= 0.0 then NoWholeShare
        else Financed(rules, t, s, q, b)
  }

  /** Where in the funnel a counted signal ends up. */
  function Placed(f: Funnel, o: BuyOutcome): Funnel {
    match o
    case TooEarly => f
    case RiskRefused => f.(riskRefused := f.riskRefused + 1)
    case NoWholeShare => f.(wholeShareSkipped := f.wholeShareSkipped + 1)
    case NoCash => f.(cashSkipped := f.cashSkipped + 1)
    case Queued(_, cut) => f.(queued := f.queued + 1, downsized := f.downsized + if cut then 1 else 0)
  }

  function Tallied(f: Funnel, o: BuyOutcome): Funnel {
    if o == TooEarly then f else Placed(f.(signals := f.signals + 1), o)
  }

  function DecideBuy(rules: Rules, d: int, day: map<Ticker, Bar>, t: Ticker, s: Signal, b: Book): Book {
    var o := OutcomeOf(rules, d, day, t, s, b);
    b.(funnel := Tallied(b.funnel, o), entries := if o.Queued? then b.entries[t := o.entry] else b.entries)
  }

  function Decide(rules: Rules, strategy: Strategy, d: int, day: map<Ticker, Bar>, out: set<Ticker>, ctx: Context,
                  t: Ticker, b: Book): Book
  {
    if t !in day || t in out then b
    else
      match strategy(t, HistoryOf(b, t), ctx)
      case None => b
      case Some(s) =>
        if s.action == Sell && t in b.positions then QueueExit(b, t, s.reason)
        else if s.action == Buy then DecideBuy(rules, d, day, t, s, b)
        else b
  }

  function Decisions(rules: Rules, strategy: Strategy, d: int, day: map<Ticker, Bar>, out: set<Ticker>, ctx: Context,
                     n: nat, b: Book): Book
    requires n <= |rules.tickers|
  {
    if n == 0 then b
    else Decide(rules, strategy, d, day, out, ctx, rules.tickers[n - 1],
                Decisions(rules, strategy, d, day, out, ctx, n - 1, b))
  }

  // ---- End of day ----

  function RaisedPeak(lot: Lot, mark: real): Lot {
    lot.(peak := Max(lot.peak, mark))
  }

  function RaisedPeaks(lots: seq<Lot>, mark: real): (r: seq<Lot>)
    ensures |r| == |lots|
    ensures forall i :: 0 <= i < |lots| ==> r[i] == RaisedPeak(lots[i], mark)
  {
    seq(|lots|, i requires 0 <= i < |lots| => RaisedPeak(lots[i], mark))
  }

  function Closed(day: map<Ticker, Bar>, b: Book): Book {
    b.(positions := map t | t in b.positions ::
         if t in day then RaisedPeaks(b.positions[t], day[t].close) else b.positions[t],
       tape := b.tape + [Marked(b.lastClose)])
  }

  // ---- One session of book work, split at the flows ----

  function AfterWriteOffs(rules: Rules, d: int, day: map<Ticker, Bar>, b: Book): Book {
    var names := Names(rules);
    WriteOffs(rules, d, names, |names|, b.(stale := Aged(day, b.stale)))
  }

  function AfterExits(rules: Rules, d: int, day: map<Ticker, Bar>, b: Book): Book {
    var w := AfterWriteOffs(rules, d, day, b);
    WorkExits(rules, day, w.exitOrder, |w.exitOrder|, w)
  }

  function AfterEntries(rules: Rules, d: int, day: map<Ticker, Bar>, b: Book): Book {
    WorkEntries(rules, day, |rules.tickers|, AfterExits(rules, d, day, b))
  }

  /** The book when the session's flows arrive: filled, recorded and gated. */
  function BeforeFlows(rules: Rules, d: int, day: map<Ticker, Bar>, b: Book): Book {
    var names := Names(rules);
    Gate(rules, d, names, |names|, Recorded(day, Expired(AfterEntries(rules, d, day, b))))
  }

  /** The book once the session's decisions are taken on it. */
  function AfterDecisions(rules: Rules, strategy: Strategy, d: int, day: map<Ticker, Bar>, b: Book): Book {
    Decisions(rules, strategy, d, day, OutOfUniverse(rules, d, day, b), RunnerContext(b, rules.initial),
              |rules.tickers|, b)
  }

  // ---- Capital flows ----

  datatype Fault = UnscaledFlow(session: int) | ZeroBasis

  datatype State = State(
    book: Book,
    pending: seq<DatedSum>,
    applied: seq<DatedSum>,
    scale: Option<real>,
    values: seq<real>,
    dates: seq<int>)

  function FlowItems(keys: seq<int>, flows: map<int, real>): (r: seq<DatedSum>)
    requires forall i :: 0 <= i < |keys| ==> keys[i] in flows
    ensures |r| == |keys|
    ensures forall i :: 0 <= i < |r| ==> r[i] == DatedSum(keys[i], flows[keys[i]])
  {
    seq(|keys|, i requires 0 <= i < |keys| => DatedSum(keys[i], flows[keys[i]]))
  }

  function PendingFlows(flows: map<int, real>): seq<DatedSum> {
    FlowItems(SortedInts(flows.Keys), flows)
  }

  /** A withdrawal is clamped to the cash on hand. */
  function FlowAmount(raw: real, cash: real): real {
    if raw < 0.0 then -Min(-raw, Max(cash, 0.0)) else raw
  }

  /** flows_applied is keyed by session, and sessions only move forward. */
  function Credited(applied: seq<DatedSum>, d: int, amount: real): seq<DatedSum> {
    if applied != [] && applied[|applied| - 1].day == d then
      applied[..|applied| - 1] + [DatedSum(d, applied[|applied| - 1].amount + amount)]
    else
      applied + [DatedSum(d, amount)]
  }

  /** The state once the first pending flow is paid in or out at the given scale. */
  function FlowApplied(d: int, st: State): State
    requires st.pending != [] && st.scale.Some?
  {
    var DatedSum(key, raw) := st.pending[0];
    var amount := FlowAmount(raw * st.scale.value, st.book.cash);
    st.(book := st.book.(cash := st.book.cash + amount, tape := st.book.tape + [Flowed(key, d, amount)]),
        pending := st.pending[1..],
        applied := Credited(st.applied, d, amount))
  }

  function ApplyFlows(d: int, st: State): Result<State, Fault>
    decreases |st.pending|
  {
    if st.pending == [] || st.pending[0].day > d then Success(st)
    else if st.scale.None? then Failure(UnscaledFlow(d))
    else ApplyFlows(d, FlowApplied(d, st))
  }

  function LearnedScale(basis: Option<DatedSum>, d: int, nav: real, scale: Option<real>): Result<Option<real>, Fault> {
    if scale.None? && basis.Some? && d >= basis.value.day then
      if basis.value.amount == 0.0 then Failure(ZeroBasis) else Success(Some(nav / basis.value.amount))
    else
      Success(scale)
  }

  /** One session. */
  function StepDay(rules: Rules, strategy: Strategy, basis: Option<DatedSum>, d: int, day: map<Ticker, Bar>,
                   st: State): Result<State, Fault>
  {
    var funded :- ApplyFlows(d, st.(book := BeforeFlows(rules, d, day, st.book)));
    var decided := AfterDecisions(rules, strategy, d, day, funded.book);
    var nav := Nav(rules, day, decided);
    var scale :- LearnedScale(basis, d, nav, st.scale);
    Success(funded.(book := Closed(day, decided), scale := scale,
                    values := st.values + [nav], dates := st.dates + [d]))
  }

  // ---- The run ----

  function EmptyBook(rules: Rules): Book {
    Book(rules.initial, map[], map[], map[], [], map[], map[],
         map t | t in Elements(rules.tickers) :: [], [], Funnel(0, 0, 0, 0, 0, 0, 0), [])
  }

  function Start(rules: Rules, plan: Plan): State {
    State(EmptyBook(rules), PendingFlows(plan.flows), [], if plan.basis.Some? then None else Some(1.0),
          [rules.initial], [])
  }

  /** The state after the first n sessions. */
  function RunTo(rules: Rules, strategy: Strategy, plan: Plan, bars: Bars, n: nat): Result<State, Fault>
    requires n <= |Sessions(bars)|
  {
    if n == 0 then Success(Start(rules, plan))
    else
      var st :- RunTo(rules, strategy, plan, bars, n - 1);
      var d := Sessions(bars)[n - 1];
      StepDay(rules, strategy, plan.basis, d, Day(bars, d), st)
  }

  function Run(rules: Rules, strategy: Strategy, plan: Plan, bars: Bars): Result<State, Fault> {
    RunTo(rules, strategy, plan, bars, |Sessions(bars)|)
  }

  // ---- The result handed back ----

  datatype OpenPosition = OpenPosition(ticker: Ticker, lot: Lot)

  function TaggedLots(t: Ticker, lots: seq<Lot>): (r: seq<OpenPosition>)
    ensures |r| == |lots|
    ensures forall i :: 0 <= i < |r| ==> r[i] == OpenPosition(t, lots[i])
  {
    seq(|lots|, i requires 0 <= i < |lots| => OpenPosition(t, lots[i]))
  }

  function OpenTo(tickers: seq<Ticker>, n: nat, b: Book): seq<OpenPosition>
    requires n <= |tickers|
  {
    if n == 0 then [] else OpenTo(tickers, n - 1, b) + TaggedLots(tickers[n - 1], LotsOf(b, tickers[n - 1]))
  }

  function OpenPositions(rules: Rules, b: Book): seq<OpenPosition> {
    OpenTo(rules.tickers, |rules.tickers|, b)
  }

  /** Entries that were queued and neither filled nor are still working. */
  function ExpiredCount(b: Book): int {
    b.funnel.queued - b.funnel.filled - |b.entries|
  }
}
