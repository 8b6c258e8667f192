/**
 The replay's book refines the live book: feed a live ledger everything the
 replay's tape reports and, at every decision and every session end, the two
 hold the same cash and show a strategy the same positions.
 */
module BookParity {
  import opened Basics
  import opened Market
  import opened Costs
  import opened Replay
  import opened ReplayBooks
  import opened LiveLedger

  /** Who a live sleeve's fills belong to. */
  datatype Sleeve = Sleeve(account: string, portfolio: string, exchange: string, currency: string)

  function ContractOf(sl: Sleeve, t: Ticker): Contract {
    Contract(Some(t), sl.exchange, sl.currency)
  }

  function FillOf(sl: Sleeve, t: Ticker, action: LiveAction, q: real, price: real, d: int, commission: real): LiveFill {
    LiveFill(Some(sl.account), sl.portfolio, t, action, q, price, d, commission, ContractOf(sl, t))
  }

  /** What the live ledger does with one reported event. */
  function Feed(sl: Sleeve, l: Ledger, e: Event, strict: bool): Result<Ledger, Refusal> {
    match e
    case Bought(t, q, price, d, k) => ApplyFill(l, FillOf(sl, t, BuyFill, q, price, d, k), strict)
    case Sold(t, q, price, d, k) => ApplyFill(l, FillOf(sl, t, SellFill, q, price, d, k), strict)
    case Flowed(_, _, amount) =>
      if sl.portfolio in l.cash then Success(l.(cash := l.cash[sl.portfolio := l.cash[sl.portfolio] + amount]))
      else Failure(UnknownPortfolio)
    case Marked(prices) => Success(l.(rows := PeaksRaised(l.rows, sl.portfolio, Some(sl.account), prices)))
  }

  function FeedAll(sl: Sleeve, l: Ledger, tape: seq<Event>, strict: bool): Result<Ledger, Refusal> {
    if tape == [] then Success(l)
    else
      var m :- FeedAll(sl, l, tape[..|tape| - 1], strict);
      Feed(sl, m, tape[|tape| - 1], strict)
  }

  lemma FeedPush(sl: Sleeve, l: Ledger, tape: seq<Event>, e: Event, strict: bool)
    requires FeedAll(sl, l, tape, strict).Success?
    ensures FeedAll(sl, l, tape + [e], strict) == Feed(sl, FeedAll(sl, l, tape, strict).value, e, strict)
  {
    assert (tape + [e])[..|tape|] == tape;
  }

  lemma {:induction false} FeedConcat(sl: Sleeve, l: Ledger, a: seq<Event>, b: seq<Event>, strict: bool)
    requires FeedAll(sl, l, a, strict).Success?
    ensures FeedAll(sl, l, a + b, strict) == FeedAll(sl, FeedAll(sl, l, a, strict).value, b, strict)
  {
    hide Feed;
    if b == [] {
      assert a + b == a;
    } else {
      var n := |b| - 1;
      assert (a + b)[..|a| + n] == a + b[..n];
      FeedConcat(sl, l, a, b[..n], strict);
    }
  }

  // ---- Agreement ----

  ghost predicate RowFor(sl: Sleeve, r: Row, t: Ticker) {
    r.account == Some(sl.account) && r.portfolio == sl.portfolio && r.ticker == t && r.contract == ContractOf(sl, t)
        && r.open
  }

  /** One row per ticker, each owned by the sleeve. */
  ghost predicate Proper(sl: Sleeve, rows: seq<Row>) {
    && sl.account != ""
    && (forall i :: 0 <= i < |rows| ==> RowFor(sl, rows[i], rows[i].ticker))
    && (forall i, j :: 0 <= i < j < |rows| ==> rows[i].ticker != rows[j].ticker)
  }

  ghost predicate RowHolds(r: Row, lots: seq<Lot>) {
    && lots != []
    && r.quantity == Blend(lots).quantity && r.average == Blend(lots).average
    && r.peak == r.highest == HighestPeak(lots) && r.openedAt == EarliestEntry(lots)
  }

  ghost predicate Mirrors(positions: map<Ticker, seq<Lot>>, rows: seq<Row>) {
    && (forall i :: 0 <= i < |rows| ==> rows[i].ticker in positions && RowHolds(rows[i], positions[rows[i].ticker]))
    && (forall t :: t in positions ==> exists i :: 0 <= i < |rows| && rows[i].ticker == t)
  }

  ghost predicate Same(sl: Sleeve, b: Book, l: Ledger) {
    l.cash == map[sl.portfolio := b.cash] && Proper(sl, l.rows) && Mirrors(b.positions, l.rows)
  }

  ghost predicate Agrees(sl: Sleeve, seed: Ledger, b: Book, strict: bool) {
    FeedAll(sl, seed, b.tape, strict).Success? && Same(sl, b, FeedAll(sl, seed, b.tape, strict).value)
  }

  // ---- A fill finds the sleeve's row ----

  lemma {:induction false} SelectsOne(rows: seq<Row>, n: nat, f: LiveFill, i: nat, strict: bool)
    requires n <= |rows| && forall k :: 0 <= k < |rows| ==> (Matches(f, rows[k], strict) <==> k == i)
    ensures Selected(rows, n, f, strict) == if i < n then [i] else []
  {
    if n > 0 {
      SelectsOne(rows, n - 1, f, i, strict);
    }
  }

  lemma FindsRow(sl: Sleeve, rows: seq<Row>, f: LiveFill, i: nat, strict: bool)
    requires Proper(sl, rows) && i < |rows| && rows[i].ticker == f.ticker
    requires f.account == Some(sl.account) && f.portfolio == sl.portfolio && f.contract == ContractOf(sl, f.ticker)
    ensures FindPosition(rows, f, strict) == Success(Some(i))
  {
    assert RowFor(sl, rows[i], rows[i].ticker);
    MatchesTicker(sl, rows, f, strict);
    SelectsOne(rows, |rows|, f, i, strict);
    AllAccounts(sl, rows);
  }

  lemma FindsNone(sl: Sleeve, rows: seq<Row>, f: LiveFill, strict: bool)
    requires Proper(sl, rows) && forall i :: 0 <= i < |rows| ==> rows[i].ticker != f.ticker
    requires f.account == Some(sl.account) && f.portfolio == sl.portfolio && f.contract == ContractOf(sl, f.ticker)
    ensures FindPosition(rows, f, strict) == Success(None)
  {
    MatchesTicker(sl, rows, f, strict);
    SelectsOne(rows, |rows|, f, |rows|, strict);
    AllAccounts(sl, rows);
  }

  lemma MatchesTicker(sl: Sleeve, rows: seq<Row>, f: LiveFill, strict: bool)
    requires Proper(sl, rows) && f.contract == ContractOf(sl, f.ticker)
    ensures forall k :: 0 <= k < |rows| && Matches(f, rows[k], strict) ==> rows[k].ticker == f.ticker
  {
    assert forall k :: 0 <= k < |rows| ==> RowFor(sl, rows[k], rows[k].ticker);
  }

  lemma AllAccounts(sl: Sleeve, rows: seq<Row>)
    requires Proper(sl, rows)
    ensures forall r :: r in rows ==> r.account.Some?
  {
  }

  // ---- Buying ----

  lemma BlendPush(lots: seq<Lot>, lot: Lot)
    requires lots != []
    ensures Blend(lots + [lot])
            == Blended(Blend(lots).quantity + lot.quantity,
                       Averaged(Blend(lots).average, Blend(lots).quantity, lot.entryPrice, lot.quantity))
    ensures HighestPeak(lots + [lot]) == Max(HighestPeak(lots), lot.peak)
    ensures EarliestEntry(lots + [lot])
            == if EarliestEntry(lots) <= lot.entryDate then EarliestEntry(lots) else lot.entryDate
  {
    hide Averaged;
    assert (lots + [lot])[..|lots|] == lots;
  }

  /** A bought row replaces the ticker's row. */
  lemma MirrorsUpdate(sl: Sleeve, positions: map<Ticker, seq<Lot>>, rows: seq<Row>, t: Ticker, lots: seq<Lot>, i: nat,
                      r: Row)
    requires Mirrors(positions, rows) && Proper(sl, rows)
    requires i < |rows| && rows[i].ticker == r.ticker == t && RowHolds(r, lots)
    ensures Mirrors(positions[t := lots], rows[i := r])
  {
    hide RowHolds, RowFor;
    var after, grown := rows[i := r], positions[t := lots];
    forall x | x in grown
      ensures exists k :: 0 <= k < |after| && after[k].ticker == x
    {
      assert x == t || x in positions;
      assert t in positions;
      var k :| 0 <= k < |rows| && rows[k].ticker == x;
      assert after[k].ticker == x;
    }
  }

  /** A first buy adds a row for the ticker. */
  lemma MirrorsAppend(positions: map<Ticker, seq<Lot>>, rows: seq<Row>, t: Ticker, lots: seq<Lot>, r: Row)
    requires Mirrors(positions, rows) && t !in positions && r.ticker == t && RowHolds(r, lots)
    ensures Mirrors(positions[t := lots], rows + [r])
  {
    hide RowHolds;
    var after, grown := rows + [r], positions[t := lots];
    forall x | x in grown
      ensures exists k :: 0 <= k < |after| && after[k].ticker == x
    {
      if x == t {
        assert after[|rows|].ticker == t;
      } else {
        var k :| 0 <= k < |rows| && rows[k].ticker == x;
        assert after[k].ticker == x;
      }
    }
  }

  lemma ProperAppend(sl: Sleeve, rows: seq<Row>, r: Row)
    requires Proper(sl, rows) && RowFor(sl, r, r.ticker) && forall i :: 0 <= i < |rows| ==> rows[i].ticker != r.ticker
    ensures Proper(sl, rows + [r])
  {
    hide RowFor;
  }

  /** Adding to a position already held. */
  lemma AddAgrees(sl: Sleeve, b: Book, l: Ledger, t: Ticker, f: Fill, i: nat, strict: bool)
    requires Same(sl, b, l) && f.quantity > 0.0 && t in b.positions && i < |l.rows| && l.rows[i].ticker == t
    requires forall lot :: lot in LotsOf(b, t) ==> lot.entryDate <= f.date
    requires strict ==> OpenLot(b, t, f).cash >= 0.0
    ensures
      var r := Feed(sl, l, Bought(t, f.quantity, f.price, f.date, f.commission), strict);
      r.Success? && Same(sl, OpenLot(b, t, f), r.value)
  {
    var fill := FillOf(sl, t, BuyFill, f.quantity, f.price, f.date, f.commission);
    var r, lots := l.rows[i], b.positions[t] + [LotFrom(f)];
    FindsRow(sl, l.rows, fill, i, strict);
    assert RowHolds(r, b.positions[t]) && RowFor(sl, r, t);
    BlendPush(b.positions[t], LotFrom(f));
    EntryKept(b.positions[t], f.date);
    hide Blend, HighestPeak, EarliestEntry, Averaged;
    assert RowHolds(Extended(r, fill), lots) && RowFor(sl, Extended(r, fill), t);
    MirrorsUpdate(sl, b.positions, l.rows, t, lots, i, Extended(r, fill));
    ProperUpdate(sl, l.rows, i, Extended(r, fill));
    hide FindPosition, Proper, Mirrors, RowHolds, RowFor;
    BuyCash(sl, b, l, t, f, Some(i), strict);
    assert OpenLot(b, t, f).positions == b.positions[t := lots];
  }

  /** The first buy of a ticker. */
  lemma FirstBuyAgrees(sl: Sleeve, b: Book, l: Ledger, t: Ticker, f: Fill, strict: bool)
    requires Same(sl, b, l) && f.quantity > 0.0 && t !in b.positions
    requires strict ==> OpenLot(b, t, f).cash >= 0.0
    ensures
      var r := Feed(sl, l, Bought(t, f.quantity, f.price, f.date, f.commission), strict);
      r.Success? && Same(sl, OpenLot(b, t, f), r.value)
  {
    var fill := FillOf(sl, t, BuyFill, f.quantity, f.price, f.date, f.commission);
    assert forall k :: 0 <= k < |l.rows| ==> l.rows[k].ticker in b.positions;
    FindsNone(sl, l.rows, fill, strict);
    assert RowHolds(NewRow(fill), [LotFrom(f)]) && RowFor(sl, NewRow(fill), t);
    MirrorsAppend(b.positions, l.rows, t, [LotFrom(f)], NewRow(fill));
    ProperAppend(sl, l.rows, NewRow(fill));
    hide FindPosition, Proper, Mirrors, RowHolds, RowFor;
    assert LotsOf(b, t) + [LotFrom(f)] == [LotFrom(f)];
    BuyCash(sl, b, l, t, f, None, strict);
  }

  lemma BuyCash(sl: Sleeve, b: Book, l: Ledger, t: Ticker, f: Fill, at: Option<nat>, strict: bool)
    requires l.cash == map[sl.portfolio := b.cash] && f.quantity > 0.0 && (strict ==> OpenLot(b, t, f).cash >= 0.0)
    requires at.Some? ==> at.value < |l.rows| && l.rows[at.value].contract == ContractOf(sl, t)
                          && l.rows[at.value].quantity + f.quantity != 0.0
    ensures
      var fill := FillOf(sl, t, BuyFill, f.quantity, f.price, f.date, f.commission);
      var r := ApplyBuy(l, fill, strict, at);
      && r.Success? && r.value.cash == map[sl.portfolio := OpenLot(b, t, f).cash]
      && r.value.rows
         == if at.None? then l.rows + [NewRow(fill)] else l.rows[at.value := Extended(l.rows[at.value], fill)]
  {
    var fill := FillOf(sl, t, BuyFill, f.quantity, f.price, f.date, f.commission);
    assert Value(fill.price, fill.quantity) == f.price * f.quantity;
    assert BuyDelta(fill) == OpenLot(b, t, f).cash - b.cash;
    hide Extended, NewRow, BuyDelta, OpenLot, Value;
    assert l.cash[sl.portfolio := b.cash + BuyDelta(fill)] == map[sl.portfolio := OpenLot(b, t, f).cash];
  }

  lemma BuyAgrees(sl: Sleeve, b: Book, l: Ledger, t: Ticker, f: Fill, strict: bool)
    requires Same(sl, b, l) && f.quantity > 0.0
    requires forall lot :: lot in LotsOf(b, t) ==> lot.entryDate <= f.date
    requires strict ==> OpenLot(b, t, f).cash >= 0.0
    ensures
      var r := Feed(sl, l, Bought(t, f.quantity, f.price, f.date, f.commission), strict);
      r.Success? && Same(sl, OpenLot(b, t, f), r.value)
  {
    if t in b.positions {
      var i :| 0 <= i < |l.rows| && l.rows[i].ticker == t;
      hide Proper, Mirrors, Feed, Same, OpenLot;
      AddAgrees(sl, b, l, t, f, i, strict);
    } else {
      FirstBuyAgrees(sl, b, l, t, f, strict);
    }
  }

  lemma {:induction false} EntryKept(lots: seq<Lot>, d: int)
    requires lots != [] && forall lot :: lot in lots ==> lot.entryDate <= d
    ensures EarliestEntry(lots) <= d
  {
    var n := |lots| - 1;
    if n > 0 {
      EntryKept(lots[..n], d);
    }
  }

  // ---- Selling, lot by lot ----

  lemma {:induction false} BlendQuantity(lots: seq<Lot>)
    requires lots != []
    ensures Blend(lots).quantity == SeqSum(lots, QuantityOf)
  {
    hide Averaged;
    var n := |lots| - 1;
    if n > 0 {
      BlendQuantity(lots[..n]);
    } else {
      assert lots[..0] == [];
    }
  }

  /** What remains of a position after its first n lots are sold. */
  function Remainder(lots: seq<Lot>, n: nat): real
    requires n <= |lots|
  {
    SeqSum(lots, QuantityOf) - SeqSum(lots[..n], QuantityOf)
  }

  lemma RemainderNext(lots: seq<Lot>, n: nat)
    requires n < |lots|
    ensures Remainder(lots, n + 1) == Remainder(lots, n) - lots[n].quantity
  {
    hide SeqSum;
    assert lots[..n + 1] == lots[..n] + [lots[n]];
    SeqSumPush(lots[..n], lots[n], QuantityOf);
  }

  lemma RemainderEnds(lots: seq<Lot>)
    ensures Remainder(lots, 0) == SeqSum(lots, QuantityOf) && Remainder(lots, |lots|) == 0.0
  {
    assert lots[..0] == [] && lots[..|lots|] == lots;
  }

  /** It is positive until the last lot is sold. */
  lemma {:induction false} RemainderPositive(lots: seq<Lot>, n: nat)
    requires n <= |lots|
    ensures Remainder(lots, n) >= 0.0 && (n < |lots| ==> Remainder(lots, n) > 0.0)
    decreases |lots| - n
  {
    hide Remainder;
    RemainderEnds(lots);
    if n < |lots| {
      RemainderPositive(lots, n + 1);
      RemainderNext(lots, n);
    }
  }

  /** The rows once the first n lots of the position at row i are sold. */
  function RowsSold(rows: seq<Row>, i: nat, lots: seq<Lot>, n: nat, price: real): seq<Row>
    requires i < |rows| && n <= |lots|
  {
    if n == |lots| then RowRemoved(rows, i)
    else if n == 0 then rows
    else rows[i := rows[i].(quantity := Remainder(lots, n), current := price)]
  }

  /** The rows while a position is being sold down: the row at i holds what is left. */
  lemma PartlySold(sl: Sleeve, rows: seq<Row>, i: nat, lots: seq<Lot>, n: nat, price: real)
    requires Proper(sl, rows) && i < |rows| && n < |lots| && rows[i].quantity == SeqSum(lots, QuantityOf)
    ensures
      var now := RowsSold(rows, i, lots, n, price);
      && |now| == |rows| && now == rows[i := now[i]]
      && now[i] == rows[i].(quantity := Remainder(lots, n), current := now[i].current)
      && Proper(sl, now) && RowFor(sl, now[i], rows[i].ticker)
  {
    RemainderEnds(lots);
    assert RowFor(sl, rows[i], rows[i].ticker);
    hide Remainder, Proper, SeqSum;
    ProperUpdate(sl, rows, i, RowsSold(rows, i, lots, n, price)[i]);
  }

  /** Selling lot n takes its quantity off the row, or the row off the table when nothing is left. */
  lemma RowsSoldNext(sl: Sleeve, rows: seq<Row>, i: nat, lots: seq<Lot>, n: nat, price: real)
    requires Proper(sl, rows) && i < |rows| && n < |lots| && rows[i].quantity == SeqSum(lots, QuantityOf)
    ensures
      var now, q := RowsSold(rows, i, lots, n, price), lots[n].quantity;
      && |now| == |rows| && Proper(sl, now) && RowFor(sl, now[i], rows[i].ticker) && 0.0 < q <= now[i].quantity
      && RowsSold(rows, i, lots, n + 1, price)
         == if q == now[i].quantity then RowRemoved(now, i)
            else now[i := now[i].(quantity := now[i].quantity - q, current := price)]
  {
    PartlySold(sl, rows, i, lots, n, price);
    RemainderPositive(lots, n + 1);
    RemainderNext(lots, n);
    RemainderEnds(lots);
    hide Remainder, Proper, SeqSum, RowFor;
    var now := RowsSold(rows, i, lots, n, price);
    if n + 1 == |lots| {
      SameRemoval(rows, now, i);
    }
  }

  lemma SameRemoval(rows: seq<Row>, now: seq<Row>, i: nat)
    requires i < |rows| == |now| && now == rows[i := now[i]]
    ensures RowRemoved(now, i) == RowRemoved(rows, i)
  {
    assert now[..i] == rows[..i] && now[i + 1..] == rows[i + 1..];
  }

  /** Selling one more lot of a partly sold position. */
  lemma SellNext(sl: Sleeve, l: Ledger, i: nat, lots: seq<Lot>, n: nat, tr: Trade, rows: seq<Row>, cash: real,
                 strict: bool)
    requires Proper(sl, rows) && i < |rows| && n < |lots|
    requires l.rows == RowsSold(rows, i, lots, n, tr.exitPrice) && l.cash == map[sl.portfolio := cash]
    requires rows[i].quantity == SeqSum(lots, QuantityOf)
    requires tr.ticker == rows[i].ticker && tr.quantity == lots[n].quantity
    ensures
      var r := Feed(sl, l, SoldEvent(tr), strict);
      && r.Success? && r.value.cash == map[sl.portfolio := cash + CashRaised(tr)]
      && r.value.rows == RowsSold(rows, i, lots, n + 1, tr.exitPrice)
  {
    var f := FillOf(sl, tr.ticker, SellFill, tr.quantity, tr.exitPrice, tr.exitDate, tr.exitCommission);
    RowsSoldNext(sl, rows, i, lots, n, tr.exitPrice);
    assert l.rows[i].contract == f.contract && l.rows[i].ticker == f.ticker;
    hide RowsSold, SeqSum, FindPosition, Proper, RowRemoved, ApplyFill, RowFor, QuantityOf, Value, CashRaised;
    FindsRow(sl, l.rows, f, i, strict);
    SaleCash(tr, f);
    SellStep(sl, l, i, f, cash, l.rows[i].quantity, strict);
  }

  lemma SaleCash(tr: Trade, f: LiveFill)
    requires f.price == tr.exitPrice && f.quantity == tr.quantity && f.commission == tr.exitCommission
    ensures CashRaised(tr) == Value(f.price, f.quantity) - f.commission
  {
  }

  /** One accepted sale of a positive part of a position. */
  lemma SellStep(sl: Sleeve, l: Ledger, i: nat, f: LiveFill, cash: real, held: real, strict: bool)
    requires i < |l.rows| && l.cash == map[sl.portfolio := cash] && l.rows[i].quantity == held
    requires f.portfolio == sl.portfolio && f.action == SellFill && 0.0 < f.quantity <= held
    requires l.rows[i].contract == f.contract && FindPosition(l.rows, f, strict) == Success(Some(i))
    ensures
      var r := ApplyFill(l, f, strict);
      && r.Success? && r.value.cash == map[sl.portfolio := cash + (Value(f.price, f.quantity) - f.commission)]
      && r.value.rows == if f.quantity == held then RowRemoved(l.rows, i)
                         else l.rows[i := l.rows[i].(quantity := held - f.quantity, current := f.price)]
  {
    hide FindPosition, RowRemoved, Value;
    assert SellQuantity(held, f.quantity) == f.quantity;
  }

  lemma ProperUpdate(sl: Sleeve, rows: seq<Row>, i: nat, r: Row)
    requires Proper(sl, rows) && i < |rows| && RowFor(sl, r, rows[i].ticker)
    ensures Proper(sl, rows[i := r])
  {
  }

  lemma {:induction false} SellDown(sl: Sleeve, l: Ledger, i: nat, m: CostModel, t: Ticker, lots: seq<Lot>, n: nat,
                                    price: real, d: int, reason: string, cash: real, strict: bool)
    requires Proper(sl, l.rows) && i < |l.rows| && n <= |lots|
    requires l.cash == map[sl.portfolio := cash] && l.rows[i].ticker == t && lots != []
    requires l.rows[i].quantity == SeqSum(lots, QuantityOf)
    ensures
      var closed := ClosedTrades(m, t, lots[..n], price, d, reason);
      var r := FeedAll(sl, l, SoldEvents(closed), strict);
      && r.Success? && r.value.cash == map[sl.portfolio := cash + SeqSum(closed, CashRaised)]
      && r.value.rows == RowsSold(l.rows, i, lots, n, price)
  {
    hide ClosedTrades, SoldEvents, RowsSold, Proper, SeqSum, FeedAll, CashRaised;
    if n == 0 {
      SellDownStart(sl, l, i, m, t, lots, price, d, reason, strict);
    } else {
      SellDown(sl, l, i, m, t, lots, n - 1, price, d, reason, cash, strict);
      SellDownNext(sl, l, FeedAll(sl, l, SoldEvents(ClosedTrades(m, t, lots[..n - 1], price, d, reason)), strict).value,
                   i, m, t, lots, n - 1, price, d, reason, cash, strict);
    }
  }

  lemma SellDownStart(sl: Sleeve, l: Ledger, i: nat, m: CostModel, t: Ticker, lots: seq<Lot>, price: real, d: int,
                      reason: string, strict: bool)
    requires i < |l.rows| && lots != []
    ensures
      var closed := ClosedTrades(m, t, lots[..0], price, d, reason);
      FeedAll(sl, l, SoldEvents(closed), strict) == Success(l) && SeqSum(closed, CashRaised) == 0.0
    ensures RowsSold(l.rows, i, lots, 0, price) == l.rows
  {
    hide TradeOf, CashRaised, Feed;
  }

  lemma SellDownNext(sl: Sleeve, l: Ledger, so: Ledger, i: nat, m: CostModel, t: Ticker, lots: seq<Lot>, n: nat,
                     price: real, d: int, reason: string, cash: real, strict: bool)
    requires Proper(sl, l.rows) && i < |l.rows| && n < |lots| && l.rows[i].ticker == t
    requires l.rows[i].quantity == SeqSum(lots, QuantityOf)
    requires
      var before := ClosedTrades(m, t, lots[..n], price, d, reason);
      && FeedAll(sl, l, SoldEvents(before), strict) == Success(so)
      && so.cash == map[sl.portfolio := cash + SeqSum(before, CashRaised)]
         && so.rows == RowsSold(l.rows, i, lots, n, price)
    ensures
      var closed := ClosedTrades(m, t, lots[..n + 1], price, d, reason);
      var r := FeedAll(sl, l, SoldEvents(closed), strict);
      && r.Success? && r.value.cash == map[sl.portfolio := cash + SeqSum(closed, CashRaised)]
      && r.value.rows == RowsSold(l.rows, i, lots, n + 1, price)
  {
    hide ClosedTrades, SoldEvents, Feed, RowsSold, Proper, SeqSum, FeedAll, SoldEvent, TradeOf, CashRaised;
    var before, tr := ClosedTrades(m, t, lots[..n], price, d, reason), TradeOf(m, t, lots[n], price, d, reason);
    LotTraded(m, t, lots, n, price, d, reason);
    TradeFields(m, t, lots[n], price, d, reason);
    FeedPush(sl, l, SoldEvents(before), SoldEvent(tr), strict);
    SellNext(sl, so, i, lots, n, tr, l.rows, cash + SeqSum(before, CashRaised), strict);
  }

  lemma TradeFields(m: CostModel, t: Ticker, lot: Lot, price: real, d: int, reason: string)
    ensures
      var tr := TradeOf(m, t, lot, price, d, reason);
      tr.ticker == t && tr.quantity == lot.quantity && tr.exitPrice == price
  {
  }

  lemma MirrorsSale(sl: Sleeve, positions: map<Ticker, seq<Lot>>, rows: seq<Row>, i: nat)
    requires Mirrors(positions, rows) && Proper(sl, rows) && i < |rows|
    ensures Mirrors(positions - {rows[i].ticker}, RowRemoved(rows, i)) && Proper(sl, RowRemoved(rows, i))
  {
    hide RowHolds;
    var after := RowRemoved(rows, i);
    assert forall k :: 0 <= k < |after| ==> after[k] == rows[if k < i then k else k + 1];
    forall t | t in positions - {rows[i].ticker}
      ensures exists k :: 0 <= k < |after| && after[k].ticker == t
    {
      var k :| 0 <= k < |rows| && rows[k].ticker == t;
      assert after[if k < i then k else k - 1] == rows[k];
    }
  }

  lemma SaleAt(sl: Sleeve, seed: Ledger, m: CostModel, b: Book, t: Ticker, i: nat, price: real, d: int, reason: string,
               strict: bool)
    requires FeedAll(sl, seed, b.tape, strict).Success?
    requires
      var l := FeedAll(sl, seed, b.tape, strict).value;
      && l.cash == map[sl.portfolio := b.cash] && Proper(sl, l.rows)
      && i < |l.rows| && l.rows[i].ticker == t && t in b.positions && b.positions[t] != []
      && l.rows[i].quantity == Blend(b.positions[t]).quantity
    ensures
      var c := ClosePosition(m, b, t, price, d, reason);
      var r := FeedAll(sl, seed, c.tape, strict);
      && r.Success? && r.value.cash == map[sl.portfolio := c.cash]
      && r.value.rows == RowRemoved(FeedAll(sl, seed, b.tape, strict).value.rows, i)
  {
    hide Proper, FeedAll, ClosedTrades, SoldEvents, SeqSum, RowRemoved, CashRaised;
    var l, lots := FeedAll(sl, seed, b.tape, strict).value, b.positions[t];
    BlendQuantity(lots);
    hide Blend;
    assert lots[..|lots|] == lots;
    SellDown(sl, l, i, m, t, lots, |lots|, price, d, reason, b.cash, strict);
    FeedConcat(sl, seed, b.tape, SoldEvents(ClosedTrades(m, t, lots, price, d, reason)), strict);
  }

  lemma SaleAgrees(sl: Sleeve, seed: Ledger, m: CostModel, b: Book, t: Ticker, price: real, d: int, reason: string,
                   strict: bool)
    requires Agrees(sl, seed, b, strict) && t in b.positions
    ensures Agrees(sl, seed, ClosePosition(m, b, t, price, d, reason), strict)
  {
    var l := FeedAll(sl, seed, b.tape, strict).value;
    var i :| 0 <= i < |l.rows| && l.rows[i].ticker == t;
    assert RowHolds(l.rows[i], b.positions[t]);
    hide Mirrors, Proper, FeedAll, ClosedTrades, SoldEvents, SeqSum, RowRemoved;
    SaleAt(sl, seed, m, b, t, i, price, d, reason, strict);
    MirrorsSale(sl, b.positions, l.rows, i);
    hide RowHolds;
    assert ClosePosition(m, b, t, price, d, reason).positions == b.positions - {t};
    hide ClosePosition;
  }

  /** Work that moves neither cash, positions nor the tape leaves the books agreeing. */
  lemma QuietAgrees(sl: Sleeve, seed: Ledger, b: Book, c: Book, strict: bool)
    requires b.cash == c.cash && b.positions == c.positions && b.tape == c.tape
    ensures Agrees(sl, seed, b, strict) <==> Agrees(sl, seed, c, strict)
  {
  }
}
