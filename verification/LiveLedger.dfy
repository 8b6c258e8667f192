/**
 The live fill ledger: sleeve cash, open positions and closed trades, changed
 by one accepted fill at a time.
 */
module LiveLedger {
  import opened Basics
  import opened Market
  import opened Replay

  datatype Contract = Contract(conId: Option<int>, exchange: string, currency: string)

  datatype Row = Row(
    account: Option<string>, portfolio: string, ticker: Ticker, contract: Contract, open: bool,
    quantity: real, average: real, current: real, peak: real, highest: real, openedAt: int)

  datatype LiveTrade = LiveTrade(
    portfolio: string, ticker: Ticker, quantity: real, price: real, entryPrice: real, entryDate: int,
    pnl: real, commission: real, executedAt: int)

  datatype Ledger = Ledger(cash: map<string, real>, rows: seq<Row>, trades: seq<LiveTrade>)

  datatype LiveAction = BuyFill | SellFill | OtherFill

  datatype LiveFill = LiveFill(
    account: Option<string>, portfolio: string, ticker: Ticker, action: LiveAction,
    quantity: real, price: real, date: int, commission: real, contract: Contract)

  datatype Refusal =
    | UnknownPortfolio | NoAccount | NoContract | OwnershipUnresolved | OwnershipAmbiguous | TickerConflict
    | Overdraft | ContractConflict | ExceedsHolding | UnsupportedAction | EmptiedPosition

  /** The rounding the ledger tolerates in cash and quantity checks. */
  const TOLERANCE := 0.000000001

  // ---- Finding the position a fill belongs to ----

  predicate Candidate(f: LiveFill, r: Row) {
    r.contract.conId == f.contract.conId && r.open
  }

  predicate Owned(f: LiveFill, r: Row) {
    Candidate(f, r) && r.account == f.account && r.portfolio == f.portfolio
  }

  predicate Named(f: LiveFill, r: Row) {
    r.portfolio == f.portfolio && r.ticker == f.ticker && r.open
  }

  predicate Matches(f: LiveFill, r: Row, strict: bool) {
    if strict then Owned(f, r) else Named(f, r)
  }

  /** The rows, in table order, that a strict or a plain fill selects. */
  function Selected(rows: seq<Row>, n: nat, f: LiveFill, strict: bool): (r: seq<nat>)
    requires n <= |rows|
    ensures forall k :: 0 <= k < |r| ==> r[k] < n && Matches(f, rows[r[k]], strict)
    ensures forall i :: 0 <= i < n && Matches(f, rows[i], strict) ==> i in r
    ensures forall k, l :: 0 <= k < l < |r| ==> r[k] < r[l]
  {
    if n == 0 then []
    else
      var before := Selected(rows, n - 1, f, strict);
      if Matches(f, rows[n - 1], strict) then before + [n - 1] else before
  }

  function FindPosition(rows: seq<Row>, f: LiveFill, strict: bool): (r: Result<Option<nat>, Refusal>)
    ensures r.Success? && r.value.Some? ==> r.value.value < |rows| && rows[r.value.value].portfolio == f.portfolio
                                            && rows[r.value.value].ticker == f.ticker && rows[r.value.value].open
  {
    var found := Selected(rows, |rows|, f, strict);
    if !strict then
      Success(if found == [] then None else Some(found[0]))
    else if f.account.None? || f.account == Some("") then Failure(NoAccount)
    else if f.contract.conId.None? then Failure(NoContract)
    else if exists r :: r in rows && Candidate(f, r) && r.account.None? then Failure(OwnershipUnresolved)
    else if |found| > 1 then Failure(OwnershipAmbiguous)
    else if found == [] then Success(None)
    else if rows[found[0]].ticker != f.ticker then Failure(TickerConflict)
    else Success(Some(found[0]))
  }

  // ---- Applying one fill ----

  function Value(price: real, q: real): real {
    price * q
  }

  function NewRow(f: LiveFill): Row {
    Row(f.account, f.portfolio, f.ticker, f.contract, true, f.quantity, f.price, f.price, f.price, f.price, f.date)
  }

  function Extended(r: Row, f: LiveFill): Row
    requires r.quantity + f.quantity != 0.0
  {
    r.(average := Averaged(r.average, r.quantity, f.price, f.quantity), quantity := r.quantity + f.quantity,
       current := f.price, peak := Max(r.peak, f.price), highest := Max(r.highest, f.price))
  }

  function BuyDelta(f: LiveFill): real {
    -(Value(f.price, f.quantity) + f.commission)
  }

  function ApplyBuy(l: Ledger, f: LiveFill, strict: bool, at: Option<nat>): Result<Ledger, Refusal>
    requires f.portfolio in l.cash && (at.Some? ==> at.value < |l.rows|)
  {
    var paid := l.(cash := l.cash[f.portfolio := l.cash[f.portfolio] + BuyDelta(f)]);
    if strict && l.cash[f.portfolio] + BuyDelta(f) < -TOLERANCE then Failure(Overdraft)
    else if at.None? then Success(paid.(rows := l.rows + [NewRow(f)]))
    else
      var r := l.rows[at.value];
      if strict && r.contract != f.contract then Failure(ContractConflict)
      else if r.quantity + f.quantity == 0.0 then Failure(EmptiedPosition)
      else Success(paid.(rows := l.rows[at.value := Extended(r, f)]))
  }

  function SellQuantity(held: real, asked: real): real {
    if asked <= 0.0 then held else Min(asked, held)
  }

  function RowRemoved(rows: seq<Row>, i: nat): seq<Row>
    requires i < |rows|
  {
    rows[..i] + rows[i + 1..]
  }

  function TradeFrom(r: Row, f: LiveFill): LiveTrade {
    var sold := SellQuantity(r.quantity, f.quantity);
    LiveTrade(f.portfolio, f.ticker, sold, f.price, r.average, r.openedAt, Value(f.price - r.average, sold),
              f.commission, f.date)
  }

  function SellAt(l: Ledger, f: LiveFill, i: nat): Ledger
    requires f.portfolio in l.cash && i < |l.rows|
  {
    var r := l.rows[i];
    var sold := SellQuantity(r.quantity, f.quantity);
    Ledger(l.cash[f.portfolio := l.cash[f.portfolio] + (Value(f.price, sold) - f.commission)],
           if sold >= r.quantity then RowRemoved(l.rows, i)
           else l.rows[i := r.(quantity := r.quantity - sold, current := f.price)],
           l.trades + [TradeFrom(r, f)])
  }

  function ApplySell(l: Ledger, f: LiveFill, strict: bool, at: Option<nat>): Result<Ledger, Refusal>
    requires f.portfolio in l.cash && (at.Some? ==> at.value < |l.rows|)
  {
    if strict && (at.None? || f.quantity > l.rows[at.value].quantity + TOLERANCE) then Failure(ExceedsHolding)
    else if strict && l.rows[at.value].contract != f.contract then Failure(ContractConflict)
    else if at.None? then Success(l)
    else Success(SellAt(l, f, at.value))
  }

  /** The ledger after a fill, or why the fill is refused. */
  function ApplyFill(l: Ledger, f: LiveFill, strict: bool): Result<Ledger, Refusal> {
    if f.portfolio !in l.cash then Failure(UnknownPortfolio)
    else
      var at :- FindPosition(l.rows, f, strict);
      match f.action
      case BuyFill => ApplyBuy(l, f, strict, at)
      case SellFill => ApplySell(l, f, strict, at)
      case OtherFill => Failure(UnsupportedAction)
  }

  // ---- Peaks, equity and the context handed to a strategy ----

  predicate InScope(r: Row, portfolio: string, account: Option<string>) {
    r.portfolio == portfolio && r.open && (account.None? || r.account == account)
  }

  function Raised(r: Row, portfolio: string, account: Option<string>, prices: map<Ticker, real>): Row {
    if InScope(r, portfolio, account) && r.ticker in prices then
      r.(peak := Max(r.peak, prices[r.ticker]), highest := Max(r.highest, prices[r.ticker]),
         current := prices[r.ticker])
    else r
  }

  function PeaksRaised(rows: seq<Row>, portfolio: string, account: Option<string>,
                       prices: map<Ticker, real>): (s: seq<Row>)
    ensures |s| == |rows| && forall i :: 0 <= i < |rows| ==> s[i] == Raised(rows[i], portfolio, account, prices)
  {
    seq(|rows|, i requires 0 <= i < |rows| => Raised(rows[i], portfolio, account, prices))
  }

  function RowEquity(portfolio: string, account: Option<string>, prices: map<Ticker, real>): Row -> real {
    (r: Row) =>
      if InScope(r, portfolio, account) then r.quantity * (if r.ticker in prices then prices[r.ticker] else r.average)
      else 0.0
  }

  function HeldRow(r: Row): HeldPosition {
    HeldPosition(r.quantity, r.average, Max(r.peak, r.highest), r.openedAt)
  }

  /** Open positions by ticker; a later row of the same ticker replaces an earlier one. */
  function ContextPositions(rows: seq<Row>, portfolio: string, account: Option<string>): map<Ticker, HeldPosition> {
    if rows == [] then map[]
    else
      var n := |rows| - 1;
      var earlier := ContextPositions(rows[..n], portfolio, account);
      if InScope(rows[n], portfolio, account) then earlier[rows[n].ticker := HeldRow(rows[n])] else earlier
  }

  // ---- The ledger as it runs ----

  class PaperTradingState {
    var cash: map<string, real>
    var rows: seq<Row>
    var trades: seq<LiveTrade>

    ghost function Now(): Ledger
      reads this
    {
      Ledger(cash, rows, trades)
    }

    constructor (capitals: map<string, real>)
      ensures Now() == Ledger(capitals, [], [])
    {
      cash, rows, trades := capitals, [], [];
    }

    /** Books a sale against one position: the trade, what is left of the row, and the cash. */
    method BookSale(f: LiveFill, i: nat)
      requires f.portfolio in cash && i < |rows|
      modifies this
      ensures Now() == SellAt(old(Now()), f, i)
    {
      var pos := rows[i];
      var sold := if f.quantity <= 0.0 then pos.quantity else Min(f.quantity, pos.quantity);
      trades := trades + [LiveTrade(f.portfolio, f.ticker, sold, f.price, pos.average, pos.openedAt,
                                    (f.price - pos.average) * sold, f.commission, f.date)];
      if sold >= pos.quantity {
        rows := rows[..i] + rows[i + 1..];
      } else {
        rows := rows[i := pos.(quantity := pos.quantity - sold, current := f.price)];
      }
      cash := cash[f.portfolio := cash[f.portfolio] + (f.price * sold - f.commission)];
      assert Value(f.price, sold) == f.price * sold
          && Value(f.price - pos.average, sold) == (f.price - pos.average) * sold;
    }

    /** Applies one fill's economics, or refuses it and changes nothing. */
    method ApplyFillAccounting(f: LiveFill, strict: bool) returns (r: Result<(), Refusal>)
      modifies this
      ensures match ApplyFill(old(Now()), f, strict)
              case Success(l) => r == Success(()) && Now() == l
              case Failure(why) => r == Failure(why) && Now() == old(Now())
    {
      if f.portfolio !in cash {
        return Failure(UnknownPortfolio);
      }
      var existing: Option<nat> := None;
      if strict {
        if f.account.None? || f.account == Some("") {
          return Failure(NoAccount);
        }
        if f.contract.conId.None? {
          return Failure(NoContract);
        }
        if exists r :: r in rows && Candidate(f, r) && r.account.None? {
          return Failure(OwnershipUnresolved);
        }
        var owned := Selected(rows, |rows|, f, true);
        if |owned| > 1 {
          return Failure(OwnershipAmbiguous);
        }
        existing := if owned == [] then None else Some(owned[0]);
        if existing.Some? && rows[existing.value].ticker != f.ticker {
          return Failure(TickerConflict);
        }
      } else {
        var named := Selected(rows, |rows|, f, false);
        existing := if named == [] then None else Some(named[0]);
      }
      assert FindPosition(rows, f, strict) == Success(existing);
      hide FindPosition, Selected;
      if f.action == BuyFill {
        var delta := -(f.price * f.quantity + f.commission);
        assert delta == BuyDelta(f);
        if strict && cash[f.portfolio] + delta < -TOLERANCE {
          return Failure(Overdraft);
        }
        if existing.Some? {
          var i := existing.value;
          if strict && rows[i].contract != f.contract {
            return Failure(ContractConflict);
          }
          if rows[i].quantity + f.quantity == 0.0 {
            return Failure(EmptiedPosition);
          }
          rows := rows[i := Extended(rows[i], f)];
        } else {
          rows := rows + [NewRow(f)];
        }
        cash := cash[f.portfolio := cash[f.portfolio] + delta];
        return Success(());
      } else if f.action == SellFill {
        if strict && (existing.None? || f.quantity > rows[existing.value].quantity + TOLERANCE) {
          return Failure(ExceedsHolding);
        }
        if strict && rows[existing.value].contract != f.contract {
          return Failure(ContractConflict);
        }
        if existing.Some? {
          BookSale(f, existing.value);
        }
        return Success(());
      } else {
        return Failure(UnsupportedAction);
      }
    }

    method UpdatePeakPrices(portfolio: string, account: Option<string>, prices: map<Ticker, real>)
      modifies this
      ensures Now() == old(Now()).(rows := PeaksRaised(old(rows), portfolio, account, prices))
    {
      ghost var start := rows;
      for i := 0 to |rows|
        invariant |rows| == |start| && cash == old(cash) && trades == old(trades)
        invariant forall k :: 0 <= k < |start| ==>
          rows[k] == if k < i then Raised(start[k], portfolio, account, prices) else start[k]
      {
        var pos := rows[i];
        if InScope(pos, portfolio, account) && pos.ticker in prices {
          var price := prices[pos.ticker];
          rows := rows[i := pos.(peak := Max(pos.peak, price), highest := Max(pos.highest, price), current := price)];
        }
      }
      assert rows == PeaksRaised(start, portfolio, account, prices);
    }

    method ComputeEquity(portfolio: string, account: Option<string>, prices: map<Ticker, real>) returns (equity: real)
      requires portfolio in cash
      ensures equity == cash[portfolio] + SeqSum(rows, RowEquity(portfolio, account, prices))
    {
      var marketValue := 0.0;
      ghost var w := RowEquity(portfolio, account, prices);
      for i := 0 to |rows|
        invariant marketValue == SeqSum(rows[..i], w)
      {
        hide SeqSum;
        assert rows[..i + 1] == rows[..i] + [rows[i]];
        SeqSumPush(rows[..i], rows[i], w);
        hide InScope;
        var pos := rows[i];
        if InScope(pos, portfolio, account) {
          var price := if pos.ticker in prices then prices[pos.ticker] else pos.average;
          assert w(pos) == pos.quantity * price;
          marketValue := marketValue + pos.quantity * price;
        }
      }
      assert rows[..|rows|] == rows;
      equity := cash[portfolio] + marketValue;
    }

    method BuildPositions(portfolio: string, account: Option<string>) returns (held: map<Ticker, HeldPosition>)
      ensures held == ContextPositions(rows, portfolio, account)
    {
      held := map[];
      for i := 0 to |rows|
        invariant held == ContextPositions(rows[..i], portfolio, account)
      {
        assert rows[..i + 1][..i] == rows[..i];
        if InScope(rows[i], portfolio, account) {
          held := held[rows[i].ticker := HeldRow(rows[i])];
        }
      }
      assert rows[..|rows|] == rows;
    }
  }

  // ---- The ledger identity ----

  function RowCost(portfolio: string): Row -> real {
    (r: Row) => if r.portfolio == portfolio then Value(r.average, r.quantity) else 0.0
  }

  function RowQuantity(portfolio: string, t: Ticker): Row -> real {
    (r: Row) => if r.portfolio == portfolio && r.ticker == t then r.quantity else 0.0
  }

  function TradePnl(portfolio: string): LiveTrade -> real {
    (tr: LiveTrade) => if tr.portfolio == portfolio then tr.pnl else 0.0
  }

  function TradeQuantity(portfolio: string, t: Ticker): LiveTrade -> real {
    (tr: LiveTrade) => if tr.portfolio == portfolio && tr.ticker == t then tr.quantity else 0.0
  }

  /** A sleeve's cash plus the cost of its positions, less the profit of its trades. */
  function Principal(l: Ledger, portfolio: string): real
    requires portfolio in l.cash
  {
    l.cash[portfolio] + SeqSum(l.rows, RowCost(portfolio)) - SeqSum(l.trades, TradePnl(portfolio))
  }

  /** What a sleeve holds and has sold of a ticker. */
  function Acquired(l: Ledger, portfolio: string, t: Ticker): real {
    SeqSum(l.rows, RowQuantity(portfolio, t)) + SeqSum(l.trades, TradeQuantity(portfolio, t))
  }

  ghost predicate AllPositive(l: Ledger) {
    forall i :: 0 <= i < |l.rows| ==> l.rows[i].quantity > 0.0
  }

  lemma {:induction false} SumUpdate<T>(s: seq<T>, i: nat, x: T, w: T -> real)
    requires i < |s|
    ensures SeqSum(s[i := x], w) == SeqSum(s, w) - w(s[i]) + w(x)
  {
    var n := |s| - 1;
    if i == n {
      assert s[i := x][..n] == s[..n];
    } else {
      assert s[i := x][..n] == s[..n][i := x];
      SumUpdate(s[..n], i, x, w);
    }
  }

  lemma {:induction false} SumRemoved(rows: seq<Row>, i: nat, w: Row -> real)
    requires i < |rows|
    ensures SeqSum(RowRemoved(rows, i), w) == SeqSum(rows, w) - w(rows[i])
  {
    SeqSumConcat(rows[..i], rows[i + 1..], w);
    SeqSumConcat(rows[..i + 1], rows[i + 1..], w);
    assert rows[..i + 1] + rows[i + 1..] == rows;
    assert rows[..i + 1] == rows[..i] + [rows[i]];
    SeqSumPush(rows[..i], rows[i], w);
  }

  lemma AverageKeepsCost(average: real, q: real, price: real, more: real)
    requires q + more != 0.0
    ensures Value(Averaged(average, q, price, more), q + more) == Value(average, q) + Value(price, more)
  {
  }

  lemma ValueSplits(price: real, other: real, a: real, b: real)
    ensures Value(price, a - b) == Value(price, a) - Value(price, b)
    ensures Value(price - other, a) == Value(price, a) - Value(other, a)
  {
  }

  lemma RowsAfterBuy(rows: seq<Row>, f: LiveFill, at: Option<nat>, portfolio: string, t: Ticker)
    requires at.Some?
            ==> at.value < |rows| && rows[at.value].portfolio == f.portfolio && rows[at.value].ticker == f.ticker
    requires at.Some? ==> rows[at.value].quantity + f.quantity != 0.0
    ensures
      var after := if at.None? then rows + [NewRow(f)] else rows[at.value := Extended(rows[at.value], f)];
      && SeqSum(after, RowCost(portfolio))
         == SeqSum(rows, RowCost(portfolio)) + (if f.portfolio == portfolio then Value(f.price, f.quantity) else 0.0)
      && SeqSum(after, RowQuantity(portfolio, t))
         == SeqSum(rows, RowQuantity(portfolio, t))
             + (if f.portfolio == portfolio && f.ticker == t then f.quantity else 0.0)
  {
    hide Averaged, Value, SeqSum;
    if at.None? {
      SeqSumPush(rows, NewRow(f), RowCost(portfolio));
      SeqSumPush(rows, NewRow(f), RowQuantity(portfolio, t));
    } else {
      var r := rows[at.value];
      AverageKeepsCost(r.average, r.quantity, f.price, f.quantity);
      SumUpdate(rows, at.value, Extended(r, f), RowCost(portfolio));
      SumUpdate(rows, at.value, Extended(r, f), RowQuantity(portfolio, t));
    }
  }

  lemma BuyBalances(l: Ledger, f: LiveFill, strict: bool, at: Option<nat>, portfolio: string, t: Ticker)
    requires f.portfolio in l.cash && portfolio in l.cash && (at.Some? ==> at.value < |l.rows|)
    requires at.Some? ==> l.rows[at.value].portfolio == f.portfolio && l.rows[at.value].ticker == f.ticker
    requires ApplyBuy(l, f, strict, at).Success?
    ensures
      var m := ApplyBuy(l, f, strict, at).value;
      && portfolio in m.cash && m.cash.Keys == l.cash.Keys
      && Principal(m, portfolio) == Principal(l, portfolio) - (if f.portfolio == portfolio then f.commission else 0.0)
      && Acquired(m, portfolio, t)
         == Acquired(l, portfolio, t) + (if f.portfolio == portfolio && f.ticker == t then f.quantity else 0.0)
      && (strict ==> m.cash[f.portfolio] >= -TOLERANCE)
  {
    RowsAfterBuy(l.rows, f, at, portfolio, t);
    hide SeqSum, Extended, NewRow, RowCost, RowQuantity, TradePnl, TradeQuantity, Value;
  }

  lemma RowsAfterSell(rows: seq<Row>, i: nat, sold: real, price: real, portfolio: string, t: Ticker)
    requires i < |rows|
    requires sold >= rows[i].quantity ==> sold == rows[i].quantity
    ensures
      var r := rows[i];
      var after := if sold >= r.quantity then RowRemoved(rows, i)
                   else rows[i := r.(quantity := r.quantity - sold, current := price)];
      && SeqSum(after, RowCost(portfolio))
         == SeqSum(rows, RowCost(portfolio)) - (if r.portfolio == portfolio then Value(r.average, sold) else 0.0)
      && SeqSum(after, RowQuantity(portfolio, t))
         == SeqSum(rows, RowQuantity(portfolio, t)) - (if r.portfolio == portfolio && r.ticker == t then sold else 0.0)
  {
    hide Value, SeqSum, RowRemoved;
    var r := rows[i];
    if sold >= r.quantity {
      SumRemoved(rows, i, RowCost(portfolio));
      SumRemoved(rows, i, RowQuantity(portfolio, t));
    } else {
      var rest := r.(quantity := r.quantity - sold, current := price);
      ValueSplits(r.average, 0.0, r.quantity, sold);
      SumUpdate(rows, i, rest, RowCost(portfolio));
      SumUpdate(rows, i, rest, RowQuantity(portfolio, t));
    }
  }

  lemma SellBalances(l: Ledger, f: LiveFill, i: nat, portfolio: string, t: Ticker)
    requires f.portfolio in l.cash && portfolio in l.cash && i < |l.rows|
    requires l.rows[i].portfolio == f.portfolio && l.rows[i].ticker == f.ticker
    ensures
      var m := SellAt(l, f, i);
      && portfolio in m.cash && m.cash.Keys == l.cash.Keys
      && Principal(m, portfolio) == Principal(l, portfolio) - (if f.portfolio == portfolio then f.commission else 0.0)
      && Acquired(m, portfolio, t) == Acquired(l, portfolio, t)
  {
    var m, r, tr := SellAt(l, f, i), l.rows[i], TradeFrom(l.rows[i], f);
    var sold := SellQuantity(r.quantity, f.quantity);
    hide Value, SeqSum, RowRemoved;
    assert sold >= r.quantity ==> sold == r.quantity;
    ValueSplits(f.price, r.average, sold, 0.0);
    assert tr.portfolio == f.portfolio && tr.ticker == f.ticker && tr.quantity == sold
           && tr.pnl == Value(f.price, sold) - Value(r.average, sold);
    assert TradePnl(portfolio)(tr)
        == if f.portfolio == portfolio then Value(f.price, sold) - Value(r.average, sold) else 0.0;
    assert TradeQuantity(portfolio, t)(tr) == if f.portfolio == portfolio && f.ticker == t then sold else 0.0;
    hide TradeFrom, SellQuantity, RowCost, RowQuantity, TradePnl, TradeQuantity;
    RowsAfterSell(l.rows, i, sold, f.price, portfolio, t);
    SeqSumPush(l.trades, tr, TradePnl(portfolio));
    SeqSumPush(l.trades, tr, TradeQuantity(portfolio, t));
  }

  /** The commission an accepted fill is charged: a plain sell of nothing held charges none. */
  function Charged(l: Ledger, f: LiveFill, strict: bool): real {
    if f.action == SellFill && FindPosition(l.rows, f, strict) == Success(None) then 0.0 else f.commission
  }

  lemma FillBalances(l: Ledger, f: LiveFill, strict: bool, portfolio: string, t: Ticker)
    requires portfolio in l.cash && ApplyFill(l, f, strict).Success?
    ensures
      var m := ApplyFill(l, f, strict).value;
      && m.cash.Keys == l.cash.Keys
      && Principal(m, portfolio)
         == Principal(l, portfolio) - (if f.portfolio == portfolio then Charged(l, f, strict) else 0.0)
      && Acquired(m, portfolio, t)
         == Acquired(l, portfolio, t)
            + (if f.action == BuyFill && f.portfolio == portfolio && f.ticker == t then f.quantity else 0.0)
      && (strict && f.action == BuyFill ==> m.cash[f.portfolio] >= -TOLERANCE)
  {
    var at := FindPosition(l.rows, f, strict).value;
    hide Principal, Acquired, FindPosition;
    if f.action == BuyFill {
      BuyBalances(l, f, strict, at, portfolio, t);
    } else if at.Some? {
      SellBalances(l, f, at.value, portfolio, t);
    }
  }

  lemma FillPositive(l: Ledger, f: LiveFill, strict: bool)
    requires AllPositive(l) && (f.action == BuyFill ==> f.quantity > 0.0)
    requires ApplyFill(l, f, strict).Success?
    ensures AllPositive(ApplyFill(l, f, strict).value)
  {
    hide Averaged;
    var at := FindPosition(l.rows, f, strict).value;
    hide FindPosition;
  }

  // ---- Sequences of fills ----

  function ApplyAll(l: Ledger, fills: seq<LiveFill>, strict: bool): Result<Ledger, Refusal> {
    if fills == [] then Success(l)
    else
      var m :- ApplyAll(l, fills[..|fills| - 1], strict);
      ApplyFill(m, fills[|fills| - 1], strict)
  }

  function CommissionOf(portfolio: string): LiveFill -> real {
    (f: LiveFill) => if f.portfolio == portfolio then f.commission else 0.0
  }

  function BoughtOf(portfolio: string, t: Ticker): LiveFill -> real {
    (f: LiveFill) => if f.action == BuyFill && f.portfolio == portfolio && f.ticker == t then f.quantity else 0.0
  }

  lemma StrictSellNeedsHolding(l: Ledger, f: LiveFill)
    requires ApplyFill(l, f, true).Success?
    ensures Charged(l, f, true) == f.commission
  {
    hide FindPosition;
  }

  /**
   The live ledger identity. After any sequence of accepted strict fills, each
   sleeve's cash plus the cost of its positions is what it started with plus the
   profit of its trades less the commissions of its fills; and what it holds of
   a ticker is what it bought less what it sold.
   */
  lemma {:induction false} LedgerIdentity(l: Ledger, fills: seq<LiveFill>, portfolio: string, t: Ticker)
    requires portfolio in l.cash && ApplyAll(l, fills, true).Success?
    ensures
      var m := ApplyAll(l, fills, true).value;
      && m.cash.Keys == l.cash.Keys
      && Principal(m, portfolio) == Principal(l, portfolio) - SeqSum(fills, CommissionOf(portfolio))
      && Acquired(m, portfolio, t) == Acquired(l, portfolio, t) + SeqSum(fills, BoughtOf(portfolio, t))
  {
    hide Principal, Acquired, ApplyFill;
    if fills != [] {
      var n := |fills| - 1;
      LedgerIdentity(l, fills[..n], portfolio, t);
      var m := ApplyAll(l, fills[..n], true).value;
      FillBalances(m, fills[n], true, portfolio, t);
      StrictSellNeedsHolding(m, fills[n]);
    }
  }

  /** Positions stay positive as long as every buy is for a positive quantity. */
  lemma {:induction false} PositionsStayPositive(l: Ledger, fills: seq<LiveFill>, strict: bool)
    requires AllPositive(l) && ApplyAll(l, fills, strict).Success?
    requires forall f :: f in fills && f.action == BuyFill ==> f.quantity > 0.0
    ensures AllPositive(ApplyAll(l, fills, strict).value)
  {
    hide ApplyFill;
    if fills != [] {
      var n := |fills| - 1;
      PositionsStayPositive(l, fills[..n], strict);
      FillPositive(ApplyAll(l, fills[..n], strict).value, fills[n], strict);
    }
  }

  /** A strict buy is accepted only if it leaves the sleeve's cash at or above zero, to the tolerance. */
  lemma NoAcceptedOverdraft(l: Ledger, f: LiveFill)
    requires f.action == BuyFill && ApplyFill(l, f, true).Success?
    ensures f.portfolio in ApplyFill(l, f, true).value.cash
    ensures ApplyFill(l, f, true).value.cash[f.portfolio] >= -TOLERANCE
  {
    FillBalances(l, f, true, f.portfolio, f.ticker);
  }
}
