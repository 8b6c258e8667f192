/**
 What the live ledger records, said of the rows and the fill alone: which fills it
 accepts, what each does to the row it finds and to no other, what it writes down
 of a sale, and what the sleeve is worth before and after.
 */
module LiveRecords {
  import opened Basics
  import opened Market
  import opened Replay
  import opened LiveLedger

  // ---- The row a fill belongs to ----

  /** A strict fill's own row is of its contract, account and sleeve; a plain fill's of its sleeve and ticker. */
  predicate Own(f: LiveFill, r: Row, strict: bool) {
    && r.open && r.portfolio == f.portfolio
    && if strict then r.contract.conId == f.contract.conId && r.account == f.account else r.ticker == f.ticker
  }

  /** The first row of a fill's own, if there is one. */
  ghost predicate FirstOwn(rows: seq<Row>, f: LiveFill, strict: bool, at: Option<nat>) {
    match at
    case None => forall i :: 0 <= i < |rows| ==> !Own(f, rows[i], strict)
    case Some(i) => i < |rows| && Own(f, rows[i], strict) && forall k :: 0 <= k < i ==> !Own(f, rows[k], strict)
  }

  /** Whose a strict fill is can be told: it names account and contract, and one row at most could be its own. */
  ghost predicate Attributable(rows: seq<Row>, f: LiveFill) {
    && f.account.Some? && f.account.value != "" && f.contract.conId.Some?
    && (forall i :: 0 <= i < |rows| && rows[i].open && rows[i].contract.conId == f.contract.conId ==>
          rows[i].account.Some?)
    && (forall i, j :: 0 <= i < j < |rows| ==> !(Own(f, rows[i], true) && Own(f, rows[j], true)))
    && (forall i :: 0 <= i < |rows| && Own(f, rows[i], true) ==> rows[i].ticker == f.ticker)
  }

  function OwnRow(rows: seq<Row>, f: LiveFill, strict: bool): (at: Option<nat>)
    ensures FirstOwn(rows, f, strict, at)
  {
    if rows == [] then None
    else
      var n := |rows| - 1;
      var before := OwnRow(rows[..n], f, strict);
      if before.Some? then before else if Own(f, rows[n], strict) then Some(n) else None
  }

  lemma OwnIsMatch(f: LiveFill, r: Row, strict: bool)
    ensures Own(f, r, strict) <==> Matches(f, r, strict)
  {
  }

  lemma FirstUnique(rows: seq<Row>, f: LiveFill, strict: bool, a: Option<nat>, b: Option<nat>)
    requires FirstOwn(rows, f, strict, a) && FirstOwn(rows, f, strict, b)
    ensures a == b
  {
    hide Own;
  }

  /** The rows selected are the fill's own, the first of them first. */
  lemma SelectedOwn(rows: seq<Row>, f: LiveFill, strict: bool)
    ensures
      var found := Selected(rows, |rows|, f, strict);
      && FirstOwn(rows, f, strict, if found == [] then None else Some(found[0]))
      && (|found| > 1 <==> exists i, j :: 0 <= i < j < |rows| && Own(f, rows[i], strict) && Own(f, rows[j], strict))
  {
    var found := Selected(rows, |rows|, f, strict);
    forall i | 0 <= i < |rows|
      ensures Own(f, rows[i], strict) <==> i in found
    {
      OwnIsMatch(f, rows[i], strict);
    }
    hide Selected, Matches, Own;
    if found != [] {
      assert found[0] in found;
      forall k | 0 <= k < found[0]
        ensures !Own(f, rows[k], strict)
      {
        assert k !in found;
      }
    }
    if |found| > 1 {
      assert found[0] in found && found[1] in found && found[0] < found[1];
    }
    forall i, j | 0 <= i < j < |rows| && Own(f, rows[i], strict) && Own(f, rows[j], strict)
      ensures |found| > 1
    {
      var k :| 0 <= k < |found| && found[k] == i;
      var l :| 0 <= l < |found| && found[l] == j;
    }
  }

  /** Finding a fill's position finds its own row, and fails exactly when it cannot be told. */
  lemma FoundIff(rows: seq<Row>, f: LiveFill, strict: bool)
    ensures FindPosition(rows, f, strict).Success? <==> (strict ==> Attributable(rows, f))
    ensures FindPosition(rows, f, strict).Success? ==> FindPosition(rows, f, strict).value == OwnRow(rows, f, strict)
  {
    SelectedOwn(rows, f, strict);
    var found := Selected(rows, |rows|, f, strict);
    var at: Option<nat> := if found == [] then None else Some(found[0]);
    FirstUnique(rows, f, strict, at, OwnRow(rows, f, strict));
    Orphan(rows, f);
    hide Selected, OwnRow;
    if strict && at.Some? && |found| <= 1 {
      OnlyOwn(rows, f, at.value);
    }
    hide Own, Candidate;
  }

  lemma Orphan(rows: seq<Row>, f: LiveFill)
    ensures (exists r :: r in rows && Candidate(f, r) && r.account.None?) <==>
            exists i :: 0 <= i < |rows| && rows[i].open && rows[i].contract.conId == f.contract.conId
                        && rows[i].account.None?
  {
    if exists r :: r in rows && Candidate(f, r) && r.account.None? {
      var r :| r in rows && Candidate(f, r) && r.account.None?;
      var i :| 0 <= i < |rows| && rows[i] == r;
    }
    if exists i :: 0 <= i < |rows| && rows[i].open && rows[i].contract.conId == f.contract.conId
                   && rows[i].account.None? {
      var i :| 0 <= i < |rows| && rows[i].open && rows[i].contract.conId == f.contract.conId && rows[i].account.None?;
      assert rows[i] in rows && Candidate(f, rows[i]);
    }
  }

  lemma OnlyOwn(rows: seq<Row>, f: LiveFill, at: nat)
    requires at < |rows| && Own(f, rows[at], true)
    requires forall i, j :: 0 <= i < j < |rows| ==> !(Own(f, rows[i], true) && Own(f, rows[j], true))
    ensures (forall i :: 0 <= i < |rows| && Own(f, rows[i], true) ==> rows[i].ticker == f.ticker)
            <==> rows[at].ticker == f.ticker
  {
    hide Own;
  }

  // ---- Which fills are accepted, and what they do ----

  /** A fill is taken on unless the sleeve is unknown, the row is in doubt, or the money or the shares are not there. */
  ghost predicate Acceptable(l: Ledger, f: LiveFill, strict: bool, at: Option<nat>)
    requires at.Some? ==> at.value < |l.rows|
  {
    && f.portfolio in l.cash && (strict ==> Attributable(l.rows, f))
    && match f.action
       case BuyFill =>
         && (strict ==> l.cash[f.portfolio] - (f.price * f.quantity + f.commission) >= -0.000000001)
         && (at.Some? ==>
               (strict ==> l.rows[at.value].contract == f.contract) && l.rows[at.value].quantity + f.quantity != 0.0)
       case SellFill =>
         strict ==>
           && at.Some? && f.quantity <= l.rows[at.value].quantity + 0.000000001
           && l.rows[at.value].contract == f.contract
       case OtherFill => false
  }

  /** What a sale takes of a row: what is asked for, or all of it when that is more or nothing is named. */
  function Taken(f: LiveFill, r: Row): real {
    if f.quantity <= 0.0 || f.quantity > r.quantity then r.quantity else f.quantity
  }

  /** What the ledger writes down of a sale. */
  function SaleRecord(f: LiveFill, r: Row): LiveTrade {
    LiveTrade(f.portfolio, f.ticker, Taken(f, r), f.price, r.average, r.openedAt,
              Times(f.price - r.average, Taken(f, r)),
              f.commission, f.date)
  }

  /** A row a buy has been added to: the cost of both over the quantity of both, every peak covering the price. */
  ghost predicate Grown(f: LiveFill, r: Row, s: Row) {
    && s == r.(average := s.average, quantity := r.quantity + f.quantity, current := f.price,
               peak := if f.price > r.peak then f.price else r.peak,
               highest := if f.price > r.highest then f.price else r.highest)
    && s.average * (r.quantity + f.quantity) == r.average * r.quantity + f.price * f.quantity
  }

  /** A buy pays and adds to its row, or opens one. */
  ghost predicate Bought(l: Ledger, f: LiveFill, at: Option<nat>, m: Ledger)
    requires f.portfolio in l.cash && (at.Some? ==> at.value < |l.rows|)
  {
    && m.cash == l.cash[f.portfolio := l.cash[f.portfolio] - (Times(f.price, f.quantity) + f.commission)]
    && m.trades == l.trades
    && (at.None? ==>
          m.rows == l.rows
              + [Row(f.account, f.portfolio, f.ticker, f.contract, true, f.quantity, f.price, f.price, f.price,
                                  f.price, f.date)])
    && (at.Some? ==>
          && |m.rows| == |l.rows| && Grown(f, l.rows[at.value], m.rows[at.value])
          && forall k :: 0 <= k < |l.rows| && k != at.value ==> m.rows[k] == l.rows[k])
  }

  /** A sale is paid, takes from its row or removes it, and is written down. */
  ghost predicate Sold(l: Ledger, f: LiveFill, i: nat, m: Ledger)
    requires f.portfolio in l.cash && i < |l.rows|
  {
    var r := l.rows[i];
    && m.cash == l.cash[f.portfolio := l.cash[f.portfolio] + (Times(f.price, Taken(f, r)) - f.commission)]
    && m.trades == l.trades + [SaleRecord(f, r)]
    && m.rows == if Taken(f, r) == r.quantity then l.rows[..i] + l.rows[i + 1..]
                 else l.rows[i := r.(quantity := r.quantity - Taken(f, r), current := f.price)]
  }

  /** The ledger after a fill. */
  ghost predicate Filled(l: Ledger, f: LiveFill, at: Option<nat>, m: Ledger)
    requires f.portfolio in l.cash && (at.Some? ==> at.value < |l.rows|)
  {
    if f.action == BuyFill then Bought(l, f, at, m)
    else if at.None? then m == l
    else Sold(l, f, at.value, m)
  }

  lemma TakenIs(f: LiveFill, r: Row)
    ensures SellQuantity(r.quantity, f.quantity) == Taken(f, r)
    ensures Taken(f, r) >= r.quantity <==> Taken(f, r) == r.quantity
    ensures TradeFrom(r, f) == SaleRecord(f, r)
  {
  }

  lemma ExtendedGrows(r: Row, f: LiveFill)
    requires r.quantity + f.quantity != 0.0
    ensures Grown(f, r, Extended(r, f))
  {
    AverageKeepsCost(r.average, r.quantity, f.price, f.quantity);
    assert Value(r.average, r.quantity) == r.average * r.quantity && Value(f.price, f.quantity) == f.price * f.quantity;
    var s := Extended(r, f);
    assert Value(s.average, r.quantity + f.quantity) == s.average * (r.quantity + f.quantity);
    hide Averaged, Value;
  }

  lemma BuyCash(l: Ledger, f: LiveFill)
    requires f.portfolio in l.cash
    ensures l.cash[f.portfolio] + BuyDelta(f) == l.cash[f.portfolio] - (Times(f.price, f.quantity) + f.commission)
  {
  }

  lemma BuyFilled(l: Ledger, f: LiveFill, strict: bool, at: Option<nat>)
    requires f.portfolio in l.cash && f.action == BuyFill && (at.Some? ==> at.value < |l.rows|)
    requires ApplyBuy(l, f, strict, at).Success?
    ensures Bought(l, f, at, ApplyBuy(l, f, strict, at).value)
  {
    var m := ApplyBuy(l, f, strict, at).value;
    BuyCash(l, f);
    hide Grown, BuyDelta, Extended, Times;
    assert m.cash == l.cash[f.portfolio := l.cash[f.portfolio] - (Times(f.price, f.quantity) + f.commission)];
    if at.Some? {
      ExtendedGrows(l.rows[at.value], f);
      assert m.rows[at.value] == Extended(l.rows[at.value], f);
    } else {
      assert m.rows == l.rows + [NewRow(f)];
    }
    assert m.trades == l.trades;
  }

  lemma BuyAccepted(l: Ledger, f: LiveFill, strict: bool, at: Option<nat>)
    requires f.portfolio in l.cash && f.action == BuyFill && (at.Some? ==> at.value < |l.rows|)
    requires strict ==> Attributable(l.rows, f)
    ensures ApplyBuy(l, f, strict, at).Success? <==> Acceptable(l, f, strict, at)
  {
    hide Averaged, Attributable;
    assert BuyDelta(f) == -(f.price * f.quantity + f.commission);
  }

  lemma SaleFilled(l: Ledger, f: LiveFill, i: nat)
    requires f.portfolio in l.cash && i < |l.rows|
    ensures Sold(l, f, i, SellAt(l, f, i))
  {
    var r, m := l.rows[i], SellAt(l, f, i);
    TakenIs(f, r);
    assert Value(f.price, SellQuantity(r.quantity, f.quantity)) == Times(f.price, Taken(f, r));
    hide SellQuantity, Taken, SaleRecord, TradeFrom, Value, Times;
    assert m.cash == l.cash[f.portfolio := l.cash[f.portfolio] + (Times(f.price, Taken(f, r)) - f.commission)];
    assert m.trades == l.trades + [SaleRecord(f, r)];
    assert m.rows == if Taken(f, r) == r.quantity then l.rows[..i] + l.rows[i + 1..]
                     else l.rows[i := r.(quantity := r.quantity - Taken(f, r), current := f.price)];
  }

  lemma SaleAccepted(l: Ledger, f: LiveFill, strict: bool, at: Option<nat>)
    requires f.portfolio in l.cash && f.action == SellFill && (at.Some? ==> at.value < |l.rows|)
    requires strict ==> Attributable(l.rows, f)
    ensures ApplySell(l, f, strict, at).Success? <==> Acceptable(l, f, strict, at)
    ensures ApplySell(l, f, strict, at).Success? ==> Filled(l, f, at, ApplySell(l, f, strict, at).value)
  {
    hide Attributable;
    if at.Some? {
      var r := l.rows[at.value];
      TakenIs(f, r);
      hide TradeFrom, SaleRecord, SellQuantity, Taken;
      SaleFilled(l, f, at.value);
    }
  }

  /** Every accepted fill does that and every other is refused. */
  lemma FillMeans(l: Ledger, f: LiveFill, strict: bool)
    ensures
      var at, r := OwnRow(l.rows, f, strict), ApplyFill(l, f, strict);
      && (r.Success? <==> Acceptable(l, f, strict, at))
      && (r.Success? ==> Filled(l, f, at, r.value))
  {
    FoundIff(l.rows, f, strict);
    var at := OwnRow(l.rows, f, strict);
    assert at.Some? ==> at.value < |l.rows|;
    assert Acceptable(l, f, strict, at) ==> f.portfolio in l.cash && (strict ==> Attributable(l.rows, f));
    assert f.action == OtherFill ==> !Acceptable(l, f, strict, at);
    if f.portfolio in l.cash && (strict ==> Attributable(l.rows, f)) && f.action == BuyFill {
      BuyAccepted(l, f, strict, at);
      if ApplyBuy(l, f, strict, at).Success? {
        BuyFilled(l, f, strict, at);
      }
    } else if f.portfolio in l.cash && (strict ==> Attributable(l.rows, f)) && f.action == SellFill {
      SaleAccepted(l, f, strict, at);
    }
    hide FindPosition, OwnRow, Attributable, FirstOwn, Acceptable, ApplyBuy, ApplySell, Bought, Sold;
  }

  /** Why a strict fill cannot be attributed, in the order it is asked. */
  ghost predicate Unattributed(rows: seq<Row>, f: LiveFill, why: Refusal) {
    if f.account.None? || f.account.value == "" then why == NoAccount
    else if f.contract.conId.None? then why == NoContract
    else if exists i :: 0 <= i < |rows| && rows[i].open && rows[i].contract.conId == f.contract.conId
                        && rows[i].account.None? then why == OwnershipUnresolved
    else if exists i, j :: 0 <= i < j < |rows| && Own(f, rows[i], true) && Own(f, rows[j], true) then
      why == OwnershipAmbiguous
    else why == TickerConflict
  }

  /** And why one that can be is refused. */
  ghost predicate Unaffordable(l: Ledger, f: LiveFill, strict: bool, at: Option<nat>, why: Refusal)
    requires f.portfolio in l.cash && (at.Some? ==> at.value < |l.rows|)
  {
    match f.action
    case BuyFill =>
      if strict && l.cash[f.portfolio] - (Times(f.price, f.quantity) + f.commission) < -0.000000001
          then why == Overdraft
      else if strict && at.Some? && l.rows[at.value].contract != f.contract then why == ContractConflict
      else why == EmptiedPosition
    case SellFill =>
      if at.None? || f.quantity > l.rows[at.value].quantity + 0.000000001 then why == ExceedsHolding
      else why == ContractConflict
    case OtherFill => why == UnsupportedAction
  }

  lemma NotFound(rows: seq<Row>, f: LiveFill)
    requires FindPosition(rows, f, true).Failure?
    ensures Unattributed(rows, f, FindPosition(rows, f, true).error)
  {
    SelectedOwn(rows, f, true);
    Orphan(rows, f);
    hide Selected, Own, Candidate;
  }

  /** A fill is refused for the first of these that holds. */
  lemma RefusalMeans(l: Ledger, f: LiveFill, strict: bool)
    requires ApplyFill(l, f, strict).Failure?
    ensures
      var why := ApplyFill(l, f, strict).error;
      if f.portfolio !in l.cash then why == UnknownPortfolio
      else if strict && !Attributable(l.rows, f) then Unattributed(l.rows, f, why)
      else Unaffordable(l, f, strict, OwnRow(l.rows, f, strict), why)
  {
    FoundIff(l.rows, f, strict);
    if f.portfolio in l.cash {
      BuyCash(l, f);
      if strict && !Attributable(l.rows, f) {
        NotFound(l.rows, f);
      }
    }
    hide FindPosition, OwnRow, Attributable, FirstOwn, Unattributed, BuyDelta, Times, Extended, SellAt, NewRow;
  }

  // ---- Over any accepted fills ----

  /** A trade that was written down when one of the fills sold from a row as it then stood. */
  ghost predicate Recorded(l: Ledger, fills: seq<LiveFill>, strict: bool, tr: LiveTrade) {
    exists k, r ::
      && 0 <= k < |fills| && fills[k].action == SellFill && ApplyAll(l, fills[..k], strict).Success?
      && r in ApplyAll(l, fills[..k], strict).value.rows && Own(fills[k], r, strict) && tr == SaleRecord(fills[k], r)
  }

  /** The profit of a trade is the difference of its prices over its quantity. */
  predicate Profits(tr: LiveTrade) {
    tr.pnl == (tr.price - tr.entryPrice) * tr.quantity
  }

  lemma OneRecord(l: Ledger, m: Ledger, f: LiveFill, strict: bool)
    requires ApplyFill(l, f, strict) == Success(m)
    ensures l.trades <= m.trades
    ensures |m.trades| <= |l.trades| + 1
    ensures |m.trades| > |l.trades| ==>
      && f.action == SellFill
      && exists r :: r in l.rows && Own(f, r, strict) && m.trades[|l.trades|] == SaleRecord(f, r)
  {
    FillMeans(l, f, strict);
    var at := OwnRow(l.rows, f, strict);
    if at.Some? {
      assert Own(f, l.rows[at.value], strict) && l.rows[at.value] in l.rows;
    }
    hide ApplyFill, OwnRow, Own, Acceptable, SaleRecord, Grown, Taken;
  }

  lemma RecordedStays(l: Ledger, fills: seq<LiveFill>, f: LiveFill, strict: bool, tr: LiveTrade)
    requires Recorded(l, fills, strict, tr)
    ensures Recorded(l, fills + [f], strict, tr)
  {
    hide Own, SaleRecord, ApplyAll;
    var k, r :| && 0 <= k < |fills| && fills[k].action == SellFill && ApplyAll(l, fills[..k], strict).Success?
                && r in ApplyAll(l, fills[..k], strict).value.rows && Own(fills[k], r, strict)
                && tr == SaleRecord(fills[k], r);
    assert (fills + [f])[..k] == fills[..k] && (fills + [f])[k] == fills[k];
  }

  /**
   After any accepted fills every trade was written down by one of them, a sale:
   at its price, commission and day, against the average price and the entry day
   the row then had, for what the row lost; so its profit is the difference of
   the two prices over its quantity.
   */
  lemma {:induction false} TradesAreSales(l: Ledger, fills: seq<LiveFill>, strict: bool)
    requires ApplyAll(l, fills, strict).Success?
    ensures
      var m := ApplyAll(l, fills, strict).value;
      && l.trades <= m.trades
      && forall k :: |l.trades| <= k < |m.trades| ==>
           && Recorded(l, fills, strict, m.trades[k])
           && Profits(m.trades[k])
  {
    hide Recorded, ApplyFill, Own, Profits;
    if fills != [] {
      var n := |fills| - 1;
      var head, f := fills[..n], fills[n];
      TradesAreSales(l, head, strict);
      assert fills == head + [f];
      var before, m := ApplyAll(l, head, strict).value, ApplyAll(l, fills, strict).value;
      OneRecord(before, m, f, strict);
      forall k | |l.trades| <= k < |m.trades|
        ensures Recorded(l, fills, strict, m.trades[k])
        ensures Profits(m.trades[k])
      {
        if k < |before.trades| {
          assert m.trades[k] == before.trades[k];
          RecordedStays(l, head, f, strict, m.trades[k]);
        } else {
          JustRecorded(l, head, f, strict, before, m);
        }
      }
    }
  }

  lemma RecordedNow(l: Ledger, head: seq<LiveFill>, f: LiveFill, strict: bool, before: Ledger, r: Row)
    requires ApplyAll(l, head, strict) == Success(before)
    requires f.action == SellFill && r in before.rows && Own(f, r, strict)
    ensures Recorded(l, head + [f], strict, SaleRecord(f, r))
  {
    hide Own, SaleRecord, ApplyAll;
    var fills := head + [f];
    assert fills[..|head|] == head && fills[|head|] == f;
  }

  lemma JustRecorded(l: Ledger, head: seq<LiveFill>, f: LiveFill, strict: bool, before: Ledger, m: Ledger)
    requires ApplyAll(l, head, strict) == Success(before) && ApplyFill(before, f, strict) == Success(m)
    requires |m.trades| > |before.trades|
    ensures
      var tr := m.trades[|before.trades|];
      Recorded(l, head + [f], strict, tr) && Profits(tr)
  {
    OneRecord(before, m, f, strict);
    hide ApplyFill, Own, Taken, SaleRecord, ApplyAll, Recorded, Profits;
    var r :| r in before.rows && Own(f, r, strict) && m.trades[|before.trades|] == SaleRecord(f, r);
    RecordedNow(l, head, f, strict, before, r);
    ProfitIs(f, r);
  }

  lemma ProfitIs(f: LiveFill, r: Row)
    ensures Profits(SaleRecord(f, r))
  {
  }

  // ---- What a sleeve is worth ----

  /** A view of the ledger: a sleeve's open rows, of one account or of all. */
  predicate Viewed(portfolio: string, account: Option<string>, r: Row) {
    r.portfolio == portfolio && r.open && (account.Some? ==> r.account == account)
  }

  function RowsWorth(l: Ledger, portfolio: string, account: Option<string>, prices: map<Ticker, real>): real {
    SeqSum(l.rows, RowEquity(portfolio, account, prices))
  }

  /** A row at the market is worth its quantity at the price, in the views it belongs to. */
  lemma RowAtMarket(r: Row, portfolio: string, account: Option<string>, prices: map<Ticker, real>)
    requires r.ticker in prices
    ensures RowEquity(portfolio, account, prices)(r)
            == if Viewed(portfolio, account, r) then Times(prices[r.ticker], r.quantity) else 0.0
  {
  }

  /** A row without a price is carried at what it cost. */
  lemma RowAtCost(r: Row, portfolio: string, account: Option<string>, prices: map<Ticker, real>)
    requires r.ticker !in prices
    ensures RowEquity(portfolio, account, prices)(r)
            == if Viewed(portfolio, account, r) then Times(r.average, r.quantity) else 0.0
  {
  }

  lemma TimesSplits(p: real, a: real, b: real)
    ensures Times(p, a + b) == Times(p, a) + Times(p, b)
    ensures Times(p, a - b) == Times(p, a) - Times(p, b)
  {
  }

  /** What a fill adds to the rows it belongs to, at its own price. */
  function Added(l: Ledger, f: LiveFill, at: Option<nat>): real
    requires at.Some? ==> at.value < |l.rows|
  {
    if f.action == BuyFill then Times(f.price, f.quantity)
    else if at.None? then 0.0
    else -Times(f.price, Taken(f, l.rows[at.value]))
  }

  /** The account a fill's row is in. */
  function AccountOf(l: Ledger, f: LiveFill, at: Option<nat>): Option<string>
    requires at.Some? ==> at.value < |l.rows|
  {
    if at.Some? then l.rows[at.value].account else f.account
  }

  /** A row that takes another's place moves the worth by the difference of the two. */
  lemma RowReplaced(l: Ledger, m: Ledger, i: nat, r: Row, portfolio: string, account: Option<string>,
                    prices: map<Ticker, real>)
    requires i < |l.rows| && m.rows == l.rows[i := r] && r.ticker in prices && r.ticker == l.rows[i].ticker
    requires Viewed(portfolio, account, r) == Viewed(portfolio, account, l.rows[i])
    ensures RowsWorth(m, portfolio, account, prices)
            == RowsWorth(l, portfolio, account, prices)
               + if Viewed(portfolio, account, r) then
                   Times(prices[r.ticker], r.quantity) - Times(prices[r.ticker], l.rows[i].quantity)
                 else 0.0
  {
    RowAtMarket(r, portfolio, account, prices);
    RowAtMarket(l.rows[i], portfolio, account, prices);
    SumUpdate(l.rows, i, r, RowEquity(portfolio, account, prices));
    hide SeqSum, RowEquity, Times;
  }

  lemma RowGone(l: Ledger, m: Ledger, i: nat, portfolio: string, account: Option<string>, prices: map<Ticker, real>)
    requires i < |l.rows| && m.rows == l.rows[..i] + l.rows[i + 1..] && l.rows[i].ticker in prices
    ensures RowsWorth(m, portfolio, account, prices)
            == RowsWorth(l, portfolio, account, prices)
               - if Viewed(portfolio, account, l.rows[i]) then Times(prices[l.rows[i].ticker], l.rows[i].quantity)
                 else 0.0
  {
    RowAtMarket(l.rows[i], portfolio, account, prices);
    SumRemoved(l.rows, i, RowEquity(portfolio, account, prices));
    hide SeqSum, RowEquity, Times;
  }

  lemma RowAdded(l: Ledger, m: Ledger, r: Row, portfolio: string, account: Option<string>, prices: map<Ticker, real>)
    requires m.rows == l.rows + [r] && r.ticker in prices
    ensures RowsWorth(m, portfolio, account, prices)
            == RowsWorth(l, portfolio, account, prices)
               + if Viewed(portfolio, account, r) then Times(prices[r.ticker], r.quantity) else 0.0
  {
    RowAtMarket(r, portfolio, account, prices);
    SeqSumPush(l.rows, r, RowEquity(portfolio, account, prices));
    hide SeqSum, RowEquity, Times;
  }

  lemma RowsMove(l: Ledger, f: LiveFill, at: Option<nat>, m: Ledger, portfolio: string, account: Option<string>,
                 prices: map<Ticker, real>)
    requires f.portfolio in l.cash && (at.Some? ==> at.value < |l.rows|) && Filled(l, f, at, m)
    requires f.ticker in prices && prices[f.ticker] == f.price
    requires at.Some? ==>
      var r := l.rows[at.value];
      r.open && r.portfolio == f.portfolio && r.ticker == f.ticker
    ensures RowsWorth(m, portfolio, account, prices)
            == RowsWorth(l, portfolio, account, prices)
               + if f.portfolio == portfolio && (account.Some? ==> AccountOf(l, f, at) == account) then Added(l, f, at)
                 else 0.0
  {
    hide RowsWorth, Times, Taken, SaleRecord;
    if at.None? {
      if f.action == BuyFill {
        RowAdded(l, m, m.rows[|l.rows|], portfolio, account, prices);
      }
    } else {
      var i := at.value;
      var r := l.rows[i];
      if f.action == BuyFill {
        RowReplaced(l, m, i, m.rows[i], portfolio, account, prices);
        TimesSplits(f.price, r.quantity, f.quantity);
      } else if Taken(f, r) == r.quantity {
        RowGone(l, m, i, portfolio, account, prices);
      } else {
        RowReplaced(l, m, i, r.(quantity := r.quantity - Taken(f, r), current := f.price), portfolio, account, prices);
        TimesSplits(f.price, r.quantity, Taken(f, r));
      }
    }
  }

  /**
   A fill at the market leaves what the sleeve is worth, cash and rows together,
   short by its commission alone, seen over all accounts or over the account it
   is in; seen from another account only the sleeve's cash moves.
   */
  lemma FillKeepsWorth(l: Ledger, f: LiveFill, strict: bool, portfolio: string, account: Option<string>,
                       prices: map<Ticker, real>)
    requires portfolio in l.cash && ApplyFill(l, f, strict).Success?
    requires f.ticker in prices && prices[f.ticker] == f.price
    ensures
      var m, at := ApplyFill(l, f, strict).value, OwnRow(l.rows, f, strict);
      var mine, added := f.portfolio == portfolio, Added(l, f, at);
      var charged := if f.action == SellFill && at.None? then 0.0 else f.commission;
      && portfolio in m.cash
      && m.cash[portfolio] == l.cash[portfolio] - (if mine then added + charged else 0.0)
      && RowsWorth(m, portfolio, account, prices)
         == RowsWorth(l, portfolio, account, prices)
            + if mine && (account.Some? ==> AccountOf(l, f, at) == account) then added else 0.0
  {
    FillMeans(l, f, strict);
    FoundIff(l.rows, f, strict);
    var m, at := ApplyFill(l, f, strict).value, OwnRow(l.rows, f, strict);
    assert at.Some? ==> Own(f, l.rows[at.value], strict) && l.rows[at.value].ticker == f.ticker;
    assert f.portfolio in l.cash && f.action != OtherFill;
    hide ApplyFill, OwnRow, FindPosition, Acceptable, RowsWorth, Times, Taken, SaleRecord, Grown, Own, Attributable;
    RowsMove(l, f, at, m, portfolio, account, prices);
    CashMoves(l, f, at, m, portfolio);
    hide Filled, AccountOf, Added;
  }

  lemma CashMoves(l: Ledger, f: LiveFill, at: Option<nat>, m: Ledger, portfolio: string)
    requires portfolio in l.cash && f.portfolio in l.cash && (at.Some? ==> at.value < |l.rows|)
    requires Filled(l, f, at, m)
    ensures portfolio in m.cash
    ensures m.cash[portfolio]
            == l.cash[portfolio]
               - if f.portfolio != portfolio then 0.0
                 else Added(l, f, at) + if f.action != BuyFill && at.None? then 0.0 else f.commission
  {
    hide Grown, SaleRecord, Taken, Times;
  }

  // ---- Peaks, and the rows a strategy is shown ----

  /** An update of prices: the viewed rows that have a price take it, their peaks covering it; the others stand. */
  lemma PeaksMean(l: Ledger, portfolio: string, account: Option<string>, prices: map<Ticker, real>, i: nat)
    requires i < |l.rows|
    ensures
      var r, s := l.rows[i], PeaksRaised(l.rows, portfolio, account, prices)[i];
      if Viewed(portfolio, account, r) && r.ticker in prices then
        s == r.(current := prices[r.ticker],
                peak := if prices[r.ticker] > r.peak then prices[r.ticker] else r.peak,
                highest := if prices[r.ticker] > r.highest then prices[r.ticker] else r.highest)
      else s == r
  {
  }

  /** A strategy is shown the last viewed row of each ticker, the larger of its two peaks, and nothing else. */
  lemma {:induction false} ContextShows(rows: seq<Row>, portfolio: string, account: Option<string>, t: Ticker)
    ensures
      var c := ContextPositions(rows, portfolio, account);
      && (t in c <==> exists i :: 0 <= i < |rows| && rows[i].ticker == t && Viewed(portfolio, account, rows[i]))
      && (t in c ==> exists i ::
            && 0 <= i < |rows| && rows[i].ticker == t && Viewed(portfolio, account, rows[i])
            && (forall k :: i < k < |rows| && rows[k].ticker == t ==> !Viewed(portfolio, account, rows[k]))
            && c[t] == HeldPosition(rows[i].quantity, rows[i].average,
                                    if rows[i].highest > rows[i].peak then rows[i].highest else rows[i].peak,
                                    rows[i].openedAt))
  {
    if rows != [] {
      var n := |rows| - 1;
      ContextShows(rows[..n], portfolio, account, t);
      assert Viewed(portfolio, account, rows[n]) <==> InScope(rows[n], portfolio, account);
      hide Viewed, InScope;
      assert forall i :: 0 <= i < n ==> rows[..n][i] == rows[i];
    }
  }
}
