/**
 One value for both books. At every session end the equity the live ledger
 computes at the last closes is the value the replay recorded for that session.
 */
module ParityEquity {
  import opened Basics
  import opened Market
  import opened Replay
  import opened ReplayBooks
  import opened ReplayAccounts
  import opened LiveLedger
  import opened BookParity
  import opened ParityRuns

  /** What compute_equity answers of the sleeve at some prices. */
  function Equity(sl: Sleeve, l: Ledger, prices: map<Ticker, real>): real
    requires sl.portfolio in l.cash
  {
    l.cash[sl.portfolio] + SeqSum(l.rows, RowEquity(sl.portfolio, Some(sl.account), prices))
  }

  // ---- One holding ----

  lemma {:induction false} WorthByQuantity(lots: seq<Lot>, price: real)
    ensures SeqSum(lots, WorthAt(price)) == price * SeqSum(lots, QuantityOf)
  {
    if lots != [] {
      var n := |lots| - 1;
      WorthByQuantity(lots[..n], price);
      assert price * (SeqSum(lots[..n], QuantityOf) + lots[n].quantity)
             == price * SeqSum(lots[..n], QuantityOf) + price * lots[n].quantity;
    }
  }

  /** A mirrored row is worth what its lots are. */
  lemma RowWorth(sl: Sleeve, b: Book, r: Row)
    requires RowFor(sl, r, r.ticker) && sl.account != ""
    requires r.ticker in b.positions && RowHolds(r, b.positions[r.ticker]) && r.ticker in b.lastClose
    ensures RowEquity(sl.portfolio, Some(sl.account), b.lastClose)(r) == Worth(b)(r.ticker)
  {
    var lots, price := b.positions[r.ticker], b.lastClose[r.ticker];
    BlendQuantity(lots);
    WorthByQuantity(lots, price);
    hide Blend, SeqSum, HighestPeak, EarliestEntry;
    assert r.quantity == SeqSum(lots, QuantityOf);
  }

  // ---- All of them ----

  /** A ticker's worth if one of the first n rows is its own. */
  function OwnRows(rows: seq<Row>, n: nat, worth: Ticker -> real): Ticker -> real
    requires n <= |rows|
  {
    t => if exists i :: 0 <= i < n && rows[i].ticker == t then worth(t) else 0.0
  }

  /** Summed over the tickers, rows of different tickers count once each. */
  lemma {:induction false} RowsOnce(tickers: seq<Ticker>, rows: seq<Row>, n: nat, worth: Ticker -> real, w: Row -> real)
    requires Distinct(tickers) && n <= |rows|
    requires forall i, j :: 0 <= i < j < |rows| ==> rows[i].ticker != rows[j].ticker
    requires forall i :: 0 <= i < |rows| ==> rows[i].ticker in tickers && w(rows[i]) == worth(rows[i].ticker)
    ensures Sum(tickers, OwnRows(rows, n, worth)) == SeqSum(rows[..n], w)
    decreases n
  {
    hide OwnRows, SeqSum, SumTo;
    if n == 0 {
      NoRowsOwn(tickers, rows, worth, w);
    } else {
      RowsOnce(tickers, rows, n - 1, worth, w);
      var t := rows[n - 1].ticker;
      assert rows[..n] == rows[..n - 1] + [rows[n - 1]];
      assert tickers[..|tickers|] == tickers;
      SeqSumPush(rows[..n - 1], rows[n - 1], w);
      OneRowMore(rows, n, worth);
      SumChange(tickers, |tickers|, OwnRows(rows, n - 1, worth), OwnRows(rows, n, worth), t);
    }
  }

  lemma NoRowsOwn(tickers: seq<Ticker>, rows: seq<Row>, worth: Ticker -> real, w: Row -> real)
    ensures Sum(tickers, OwnRows(rows, 0, worth)) == 0.0 == SeqSum(rows[..0], w)
  {
    SumAgree(tickers, |tickers|, OwnRows(rows, 0, worth), (t: int) => 0.0);
    SumZero(tickers, |tickers|);
  }

  lemma OneRowMore(rows: seq<Row>, n: nat, worth: Ticker -> real)
    requires 0 < n <= |rows| && forall i, j :: 0 <= i < j < |rows| ==> rows[i].ticker != rows[j].ticker
    ensures
      var t := rows[n - 1].ticker;
      && OwnRows(rows, n - 1, worth)(t) == 0.0 && OwnRows(rows, n, worth)(t) == worth(t)
      && forall x :: x != t ==> OwnRows(rows, n, worth)(x) == OwnRows(rows, n - 1, worth)(x)
  {
  }

  /** Mirrored rows are worth, at last closes, what the book's holdings are. */
  lemma RowsWorth(sl: Sleeve, rules: Rules, b: Book, rows: seq<Row>)
    requires Proper(sl, rows) && Mirrors(b.positions, rows)
    requires Distinct(rules.tickers) && Sound(rules, b)
    ensures SeqSum(rows, RowEquity(sl.portfolio, Some(sl.account), b.lastClose)) == WorthOf(rules, b)
  {
    var w, worth := RowEquity(sl.portfolio, Some(sl.account), b.lastClose), Worth(b);
    forall i | 0 <= i < |rows|
      ensures rows[i].ticker in rules.tickers && w(rows[i]) == worth(rows[i].ticker)
    {
      assert RowFor(sl, rows[i], rows[i].ticker);
      assert rows[i].ticker in b.positions && RowHolds(rows[i], b.positions[rows[i].ticker]);
      assert rows[i].ticker in Elements(rules.tickers);
      RowWorth(sl, b, rows[i]);
    }
    hide RowFor, RowHolds, Sound, RowEquity;
    RowsOnce(rules.tickers, rows, |rows|, worth, w);
    assert rows[..|rows|] == rows;
    forall t
      ensures OwnRows(rows, |rows|, worth)(t) == worth(t)
    {
    }
    SumAgree(rules.tickers, |rules.tickers|, OwnRows(rows, |rows|, worth), worth);
  }

  lemma BookEquity(sl: Sleeve, rules: Rules, b: Book, strict: bool)
    requires Agrees(sl, SeedLedger(sl, rules), b, strict) && Distinct(rules.tickers) && Sound(rules, b)
    ensures
      var l := FeedAll(sl, SeedLedger(sl, rules), b.tape, strict).value;
      sl.portfolio in l.cash && Equity(sl, l, b.lastClose) == b.cash + WorthOf(rules, b)
  {
    hide FeedAll, SeedLedger, Proper, Mirrors, Sound, WorthOf, RowEquity;
    RowsWorth(sl, rules, b, FeedAll(sl, SeedLedger(sl, rules), b.tape, strict).value.rows);
  }

  /**
   Fed everything a run reports, the live ledger computes at a session's last
   closes exactly the value the replay recorded for the session.
   */
  lemma EquityAgrees(sl: Sleeve, rules: Rules, strategy: Strategy, plan: Plan, bars: Bars, n: nat, st: State,
                     strict: bool)
    requires Universe(rules, bars) && 0 < n <= |Sessions(bars)| && sl.account != ""
    requires RunTo(rules, strategy, plan, bars, n) == Success(st)
    requires strict ==> Acceptable(rules, st.book)
    ensures
      var r := FeedAll(sl, SeedLedger(sl, rules), st.book.tape, strict);
      && r.Success? && sl.portfolio in r.value.cash
      && |st.values| == n + 1 && Equity(sl, r.value, st.book.lastClose) == st.values[n]
  {
    hide StepDay, Day, Start, FeedAll, SeedLedger, Acceptable, Agrees, Sound, Balanced, WorthOf, Equity, MarksCurrent,
         DecisionBook, BeforeFlows, ApplyFlows;
    RunParity(sl, rules, strategy, plan, bars, n, st, strict);
    ParityAgrees(sl, SeedLedger(sl, rules), map[], st.book, st.book, strict);
    RunBalanced(rules, strategy, plan, bars, n, st);
    BalancedIsSound(rules, st);
    BookEquity(sl, rules, st.book, strict);
    AgreesFed(sl, SeedLedger(sl, rules), st.book, strict);
    var prev, d := RunTo(rules, strategy, plan, bars, n - 1).value, Sessions(bars)[n - 1];
    RunBalanced(rules, strategy, plan, bars, n - 1, prev);
    BalancedIsSound(rules, prev);
    DayInUniverse(rules, bars, d);
    RunDated(rules, strategy, plan, bars, n - 1, prev);
    StepValue(rules, strategy, plan.basis, d, Day(bars, d), prev, st);
  }

  lemma AgreesFed(sl: Sleeve, seed: Ledger, b: Book, strict: bool)
    requires Agrees(sl, seed, b, strict)
    ensures FeedAll(sl, seed, b.tape, strict).Success?
  {
  }
}
