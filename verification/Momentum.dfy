/**
 The momentum sleeve: rankings precomputed over the whole bar history, read one
 date at a time by a signal function, and shown not to leak later bars.
 */
module Momentum {
  import opened Basics
  import opened Market
  import opened Replay
  import opened ReplayHistory
  import opened LookAhead
  import opened Breadth

  datatype Stops = Stops(trailing: real, maxLoss: real)

  /**
   The sleeve's settings. No regimes, no eligible tickers and no rank exit stand
   for the arguments being left out.
   */
  datatype Settings = Settings(
    topN: nat, lookback: nat, sizePct: real, capital: real, stops: Stops, regimes: map<int, Regime>,
    bearTickers: set<Ticker>, eligible: set<Ticker>, member: (Ticker, int) -> bool, wholeShares: bool,
        rankExit: Option<nat>)

  function RegimeStops(r: Regime): Stops {
    match r
    case Bull => Stops(0.15, 0.10)
    case Neutral => Stops(0.12, 0.08)
    case Bear => Stops(0.08, 0.05)
    case Crash => Stops(0.04, 0.02)
  }

  // ---- Rankings ----

  function Depth(p: Settings): nat {
    if p.rankExit.Some? && p.rankExit.value > p.topN then p.rankExit.value else p.topN
  }

  function Pool(bars: Bars, p: Settings): Bars {
    map t | t in bars && (p.eligible == {} || t in p.eligible) :: bars[t]
  }

  function ClosesOn(pool: Bars, d: int): map<Ticker, real> {
    map t | t in Day(pool, d) :: Day(pool, d)[t].close
  }

  datatype Return = Return(ticker: Ticker, value: real)

  predicate Qualifies(past: map<Ticker, real>, now: map<Ticker, real>, p: Settings, d: int, t: Ticker) {
    t in now && p.member(t, d) && t in past && past[t] > 0.0
  }

  function ReturnOf(past: map<Ticker, real>, now: map<Ticker, real>, t: Ticker): Return
    requires t in now && t in past && past[t] > 0.0
  {
    Return(t, (now[t] - past[t]) / past[t])
  }

  /** The returns of the qualifying tickers, in table order. */
  function Gathered(tickers: seq<Ticker>, n: nat, past: map<Ticker, real>, now: map<Ticker, real>, p: Settings,
                    d: int): seq<Return>
    requires n <= |tickers|
  {
    if n == 0 then []
    else
      var t := tickers[n - 1];
      Gathered(tickers, n - 1, past, now, p, d) + if Qualifies(past, now, p, d, t) then [ReturnOf(past, now, t)] else []
  }

  /** A stable descending sort places each return after those at least as good. */
  function Placed(ranked: seq<Return>, x: Return): seq<Return> {
    if ranked == [] || ranked[|ranked| - 1].value >= x.value then ranked + [x]
    else Placed(ranked[..|ranked| - 1], x) + [ranked[|ranked| - 1]]
  }

  function Ranked(xs: seq<Return>): seq<Return> {
    if xs == [] then [] else Placed(Ranked(xs[..|xs| - 1]), xs[|xs| - 1])
  }

  function TickersOf(xs: seq<Return>, n: nat): (r: seq<Ticker>)
    requires n <= |xs|
    ensures |r| == n && forall i :: 0 <= i < n ==> r[i] == xs[i].ticker
  {
    seq(n, i requires 0 <= i < n => xs[i].ticker)
  }

  function FirstTickers(xs: seq<Return>, depth: nat): seq<Ticker> {
    TickersOf(xs, if |xs| < depth then |xs| else depth)
  }

  /** The tickers ranked on a date; none before the pool has a full lookback of dates. */
  function RankingOn(bars: Bars, tickers: seq<Ticker>, p: Settings, d: int): Option<seq<Ticker>> {
    var pool := Pool(bars, p);
    var dates := Sessions(pool);
    var at := IndexOf(dates, d);
    if at.None? || at.value < p.lookback then None
    else
      var past, now := ClosesOn(pool, dates[at.value - p.lookback]), ClosesOn(pool, d);
      Some(FirstTickers(Ranked(Gathered(tickers, |tickers|, past, now, p, d)), Depth(p)))
  }

  // ---- The precomputation as it runs ----

  /** price_by_date: every close of the pool, by date and ticker. */
  method IndexPrices(bars: Bars, tickers: seq<Ticker>, p: Settings) returns (prices: map<int, map<Ticker, real>>)
    requires Distinct(tickers) && Elements(tickers) == bars.Keys
    ensures prices.Keys == SessionSet(Pool(bars, p))
    ensures forall d :: d in prices ==> prices[d] == ClosesOn(Pool(bars, p), d)
  {
    var pool := Pool(bars, p);
    prices := map[];
    for i := 0 to |tickers|
      invariant PricesOf(prices, pool, tickers[..i], [], 0)
    {
      var own := tickers[i];
      assert own in Elements(tickers) && own !in tickers[..i];
      assert tickers[..i + 1] == tickers[..i] + [own];
      if own in pool {
        var listed := pool[own];
        PricesOpen(prices, pool, tickers[..i], own);
        for j := 0 to |listed|
          invariant PricesOf(prices, pool, tickers[..i], [own], j)
        {
          var d, close := listed[j].date, listed[j].close;
          PricesNext(prices, pool, tickers[..i], own, j);
          prices := prices[d := (if d in prices then prices[d] else map[])[own := close]];
        }
        PricesClose(prices, pool, tickers[..i], own);
      } else {
        PricesSkip(prices, pool, tickers[..i], own);
      }
    }
    assert tickers[..|tickers|] == tickers;
    PricesDone(prices, pool, tickers);
  }

  /** A close is recorded: by a ticker already indexed, or by one of the first bars of the one being indexed. */
  function CloseSoFar(pool: Bars, done: seq<Ticker>, open: seq<Ticker>, j: nat, t: Ticker, d: int): Option<real>
    requires forall x :: x in open ==> x in pool && j <= |pool[x]|
  {
    if t in open then Priced(BarOn(pool[t][..j], d))
    else if t in done && t in pool then Priced(BarOn(pool[t], d))
    else None
  }

  function Priced(bar: Option<Bar>): Option<real> {
    if bar.Some? then Some(bar.value.close) else None
  }

  function PriceAt(prices: map<int, map<Ticker, real>>, t: Ticker, d: int): Option<real> {
    if d in prices && t in prices[d] then Some(prices[d][t]) else None
  }

  ghost predicate PricesOf(prices: map<int, map<Ticker, real>>, pool: Bars, done: seq<Ticker>, open: seq<Ticker>,
                           j: nat) {
    && (forall x :: x in open ==> x in pool && j <= |pool[x]|)
    && (forall d :: d in prices ==> prices[d] != map[])
    && forall t, d :: PriceAt(prices, t, d) == CloseSoFar(pool, done, open, j, t, d)
  }

  lemma PricesOpen(prices: map<int, map<Ticker, real>>, pool: Bars, done: seq<Ticker>, own: Ticker)
    requires PricesOf(prices, pool, done, [], 0) && own in pool && own !in done
    ensures PricesOf(prices, pool, done, [own], 0)
  {
    forall t, d
      ensures PriceAt(prices, t, d) == CloseSoFar(pool, done, [own], 0, t, d)
    {
      assert PriceAt(prices, t, d) == CloseSoFar(pool, done, [], 0, t, d);
    }
  }

  lemma PricesNext(prices: map<int, map<Ticker, real>>, pool: Bars, done: seq<Ticker>, own: Ticker, j: nat)
    requires PricesOf(prices, pool, done, [own], j) && j < |pool[own]|
    ensures
      var d, close := pool[own][j].date, pool[own][j].close;
      PricesOf(prices[d := (if d in prices then prices[d] else map[])[own := close]], pool, done, [own], j + 1)
  {
    var listed := pool[own];
    var d, close := listed[j].date, listed[j].close;
    var after := prices[d := (if d in prices then prices[d] else map[])[own := close]];
    assert listed[..j + 1][..j] == listed[..j];
    forall t, x
      ensures PriceAt(after, t, x) == CloseSoFar(pool, done, [own], j + 1, t, x)
    {
      assert PriceAt(prices, t, x) == CloseSoFar(pool, done, [own], j, t, x);
    }
    assert own in after[d];
  }

  lemma PricesClose(prices: map<int, map<Ticker, real>>, pool: Bars, done: seq<Ticker>, own: Ticker)
    requires own in pool && PricesOf(prices, pool, done, [own], |pool[own]|)
    ensures PricesOf(prices, pool, done + [own], [], 0)
  {
    assert pool[own][..|pool[own]|] == pool[own];
    forall t, d
      ensures PriceAt(prices, t, d) == CloseSoFar(pool, done + [own], [], 0, t, d)
    {
      assert PriceAt(prices, t, d) == CloseSoFar(pool, done, [own], |pool[own]|, t, d);
    }
  }

  lemma PricesSkip(prices: map<int, map<Ticker, real>>, pool: Bars, done: seq<Ticker>, own: Ticker)
    requires own !in pool && PricesOf(prices, pool, done, [], 0)
    ensures PricesOf(prices, pool, done + [own], [], 0)
  {
    forall t, d
      ensures PriceAt(prices, t, d) == CloseSoFar(pool, done + [own], [], 0, t, d)
    {
      assert PriceAt(prices, t, d) == CloseSoFar(pool, done, [], 0, t, d);
    }
  }

  lemma SomeKey(closes: map<Ticker, real>)
    requires closes != map[]
    ensures exists t :: t in closes
  {
    assert closes.Keys == {} ==> closes == map[];
    assert (forall t :: t !in closes.Keys) ==> closes.Keys == {};
  }

  lemma PricesDone(prices: map<int, map<Ticker, real>>, pool: Bars, tickers: seq<Ticker>)
    requires PricesOf(prices, pool, tickers, [], 0) && pool.Keys <= Elements(tickers)
    ensures prices.Keys == SessionSet(pool)
    ensures forall d :: d in prices ==> prices[d] == ClosesOn(pool, d)
  {
    forall t, d
      ensures PriceAt(prices, t, d) == if t in pool then Priced(BarOn(pool[t], d)) else None
    {
      assert PriceAt(prices, t, d) == CloseSoFar(pool, tickers, [], 0, t, d);
      assert t in pool ==> t in Elements(tickers);
    }
    forall d
      ensures d in prices <==> d in SessionSet(pool)
    {
      if d in prices {
        SomeKey(prices[d]);
        var t :| t in prices[d];
        assert PriceAt(prices, t, d).Some?;
        assert BarOn(pool[t], d).value in pool[t];
      }
      if d in SessionSet(pool) {
        var t, b: Bar :| t in pool && b in pool[t] && b.date == d;
        assert PriceAt(prices, t, d) == Priced(BarOn(pool[t], d));
      }
    }
    forall d | d in prices
      ensures prices[d] == ClosesOn(pool, d)
    {
      forall t
        ensures t in prices[d] <==> t in ClosesOn(pool, d)
        ensures t in prices[d] ==> prices[d][t] == ClosesOn(pool, d)[t]
      {
        assert PriceAt(prices, t, d) == if t in pool then Priced(BarOn(pool[t], d)) else None;
      }
    }
  }

  /** The returns of one date, ticker by ticker. */
  method GatherReturns(tickers: seq<Ticker>, past: map<Ticker, real>, now: map<Ticker, real>, p: Settings, d: int)
    returns (gained: seq<Return>)
    ensures gained == Gathered(tickers, |tickers|, past, now, p, d)
  {
    gained := [];
    for n := 0 to |tickers|
      invariant gained == Gathered(tickers, n, past, now, p, d)
    {
      var t := tickers[n];
      if t in now && p.member(t, d) {
        if t in past && past[t] > 0.0 {
          gained := gained + [ReturnOf(past, now, t)];
        }
      }
    }
  }

  /** rankings_by_date, date by date. */
  method PrecomputeRankings(bars: Bars, tickers: seq<Ticker>, p: Settings) returns (rankings: map<int, seq<Ticker>>)
    requires Distinct(tickers) && Elements(tickers) == bars.Keys
    ensures forall d :: d in rankings <==> RankingOn(bars, tickers, p, d).Some?
    ensures forall d :: d in rankings ==> rankings[d] == RankingOn(bars, tickers, p, d).value
  {
    hide ClosesOn, Pool, RankingOn, Distinct, Gathered, FirstTickers, Ranked, Depth, Day;
    var prices := IndexPrices(bars, tickers, p);
    ghost var pool := Pool(bars, p);
    var dates := SortedInts(prices.Keys);
    assert dates == Sessions(pool);
    assert forall i :: 0 <= i < |dates| ==> dates[i] in dates;
    hide Sessions;
    rankings := map[];
    for i := 0 to |dates|
      invariant forall d :: d in rankings ==> Some(rankings[d]) == RankingOn(bars, tickers, p, d)
      invariant forall k :: p.lookback <= k < i ==> dates[k] in rankings
    {
      if i >= p.lookback {
        var d := dates[i];
        var past, now := prices[dates[i - p.lookback]], prices[d];
        assert past == ClosesOn(pool, dates[i - p.lookback]) && now == ClosesOn(pool, d);
        var gained := GatherReturns(tickers, past, now, p, d);
        RankingAt(bars, tickers, p, i);
        var first := FirstTickers(Ranked(gained), Depth(p));
        assert RankingOn(bars, tickers, p, d) == Some(first);
        rankings := rankings[d := first];
      }
    }
    forall d | RankingOn(bars, tickers, p, d).Some?
      ensures d in rankings
    {
      RankedDate(bars, tickers, p, d);
      var k :| p.lookback <= k < |dates| && dates[k] == d;
      assert dates[k] in rankings;
    }
  }

  lemma RankingAt(bars: Bars, tickers: seq<Ticker>, p: Settings, i: nat)
    requires p.lookback <= i < |Sessions(Pool(bars, p))|
    ensures
      var pool := Pool(bars, p);
      var past, now := ClosesOn(pool, Sessions(pool)[i - p.lookback]), ClosesOn(pool, Sessions(pool)[i]);
      RankingOn(bars, tickers, p, Sessions(pool)[i])
      == Some(FirstTickers(Ranked(Gathered(tickers, |tickers|, past, now, p, Sessions(pool)[i])), Depth(p)))
  {
    hide Pool, ClosesOn, Sessions;
    AscendingIndex(Sessions(Pool(bars, p)), i);
  }

  lemma RankedDate(bars: Bars, tickers: seq<Ticker>, p: Settings, d: int)
    requires RankingOn(bars, tickers, p, d).Some?
    ensures exists k :: p.lookback <= k < |Sessions(Pool(bars, p))| && Sessions(Pool(bars, p))[k] == d
  {
  }

  // ---- What a ranking means ----

  function At(tickers: seq<Ticker>, t: Ticker): int {
    var i := IndexOf(tickers, t);
    if i.Some? then i.value else -1
  }

  /** A higher return ranks first; equal ones keep the order of the bar table. */
  predicate Ahead(tickers: seq<Ticker>, x: Return, y: Return) {
    x.value > y.value || (x.value == y.value && At(tickers, x.ticker) < At(tickers, y.ticker))
  }

  /** Both qualify on a date and the first ranks ahead. */
  predicate AheadOn(tickers: seq<Ticker>, past: map<Ticker, real>, now: map<Ticker, real>, p: Settings, d: int,
                    s: Ticker, t: Ticker) {
    && Qualifies(past, now, p, d, s) && Qualifies(past, now, p, d, t)
    && Ahead(tickers, ReturnOf(past, now, s), ReturnOf(past, now, t))
  }

  ghost predicate Descending(tickers: seq<Ticker>, xs: seq<Return>) {
    forall i, j :: 0 <= i < j < |xs| ==> Ahead(tickers, xs[i], xs[j])
  }

  lemma DescendingPush(tickers: seq<Ticker>, xs: seq<Return>, y: Return)
    requires Descending(tickers, xs) && forall x :: x in xs ==> Ahead(tickers, x, y)
    ensures Descending(tickers, xs + [y])
  {
    assert forall i :: 0 <= i < |xs| ==> xs[i] in xs;
  }

  lemma DescendingSplit(tickers: seq<Ticker>, xs: seq<Return>)
    requires Descending(tickers, xs) && xs != []
    ensures
      var head, own := xs[..|xs| - 1], xs[|xs| - 1];
      Descending(tickers, head) && forall x :: x in head ==> Ahead(tickers, x, own)
  {
  }

  lemma DescendingFrom(tickers: seq<Ticker>, xs: seq<Return>, y: Return)
    requires Descending(tickers, xs) && xs != [] && xs[|xs| - 1].value >= y.value
    requires forall x :: x in xs ==> At(tickers, x.ticker) < At(tickers, y.ticker)
    ensures forall x :: x in xs ==> Ahead(tickers, x, y)
  {
    forall x | x in xs
      ensures x.value >= y.value
    {
      var i :| 0 <= i < |xs| && xs[i] == x;
      assert i < |xs| - 1 ==> Ahead(tickers, xs[i], xs[|xs| - 1]);
    }
  }

  /** The sort's step keeps the order and places exactly one more return. */
  lemma {:induction false} PlacedRanks(tickers: seq<Ticker>, ranked: seq<Return>, x: Return)
    requires Descending(tickers, ranked) && forall y :: y in ranked ==> At(tickers, y.ticker) < At(tickers, x.ticker)
    ensures Descending(tickers, Placed(ranked, x)) && multiset(Placed(ranked, x)) == multiset(ranked) + multiset{x}
  {
    hide Descending, At;
    if ranked == [] {
      DescendingOne(tickers, x);
      assert Placed(ranked, x) == [x];
    } else if ranked[|ranked| - 1].value >= x.value {
      DescendingFrom(tickers, ranked, x);
      DescendingPush(tickers, ranked, x);
      assert Placed(ranked, x) == ranked + [x];
    } else {
      var head, own := ranked[..|ranked| - 1], ranked[|ranked| - 1];
      DescendingSplit(tickers, ranked);
      PlacedRanks(tickers, head, x);
      assert ranked == head + [own];
      PlacedMembers(head, x);
      DescendingPush(tickers, Placed(head, x), own);
    }
  }

  lemma PlacedMembers(head: seq<Return>, x: Return)
    requires multiset(Placed(head, x)) == multiset(head) + multiset{x}
    ensures forall y :: y in Placed(head, x) ==> y in head || y == x
  {
    forall y | y in Placed(head, x)
      ensures y in head || y == x
    {
      assert y in multiset(Placed(head, x));
      assert y == x || y in multiset(head);
    }
  }

  lemma DescendingNone(tickers: seq<Ticker>)
    ensures Descending(tickers, [])
  {
  }

  lemma DescendingOne(tickers: seq<Ticker>, x: Return)
    ensures Descending(tickers, [x])
  {
  }

  ghost predicate InTableOrder(tickers: seq<Ticker>, xs: seq<Return>) {
    forall i, j :: 0 <= i < j < |xs| ==> At(tickers, xs[i].ticker) < At(tickers, xs[j].ticker)
  }

  lemma {:induction false} RankedIsSorted(tickers: seq<Ticker>, xs: seq<Return>)
    requires InTableOrder(tickers, xs)
    ensures Descending(tickers, Ranked(xs)) && multiset(Ranked(xs)) == multiset(xs)
  {
    hide Placed, Descending, At;
    if xs == [] {
      DescendingNone(tickers);
    } else {
      var n := |xs| - 1;
      RankedIsSorted(tickers, xs[..n]);
      forall y | y in Ranked(xs[..n])
        ensures At(tickers, y.ticker) < At(tickers, xs[n].ticker)
      {
        assert y in multiset(xs[..n]);
        var i :| 0 <= i < n && xs[..n][i] == y;
      }
      PlacedRanks(tickers, Ranked(xs[..n]), xs[n]);
      assert xs == xs[..n] + [xs[n]];
    }
  }

  lemma {:induction false} GatheredInOrder(tickers: seq<Ticker>, n: nat, past: map<Ticker, real>,
                                           now: map<Ticker, real>, p: Settings, d: int)
    requires n <= |tickers| && Distinct(tickers)
    ensures
      var xs := Gathered(tickers, n, past, now, p, d);
      InTableOrder(tickers, xs) && forall x :: x in xs ==> At(tickers, x.ticker) < n
  {
    hide Qualifies;
    if n > 0 {
      GatheredInOrder(tickers, n - 1, past, now, p, d);
      PlaceOf(tickers, n - 1);
      hide At;
      var xs := Gathered(tickers, n - 1, past, now, p, d);
      assert forall i :: 0 <= i < |xs| ==> xs[i] in xs;
    }
  }

  lemma PlaceOf(tickers: seq<Ticker>, i: nat)
    requires i < |tickers| && Distinct(tickers)
    ensures At(tickers, tickers[i]) == i
  {
  }

  lemma {:induction false} GatheredAre(tickers: seq<Ticker>, n: nat, past: map<Ticker, real>, now: map<Ticker, real>,
                                       p: Settings, d: int)
    requires n <= |tickers|
    ensures
      var xs := Gathered(tickers, n, past, now, p, d);
      && (forall x :: x in xs ==> Qualifies(past, now, p, d, x.ticker) && x == ReturnOf(past, now, x.ticker))
      && (forall t :: t in tickers[..n] && Qualifies(past, now, p, d, t) ==> ReturnOf(past, now, t) in xs)
  {
    if n > 0 {
      assert tickers[..n] == tickers[..n - 1] + [tickers[n - 1]];
      GatheredAre(tickers, n - 1, past, now, p, d);
    }
  }

  /**
   What is ranked on a date: only members that printed then and a lookback of
   pool dates earlier at a positive close, best first and ties in table order;
   and a qualifying ticker is left out only when the ranking is full of tickers
   ahead of it.
   */
  lemma RankingIsBest(bars: Bars, tickers: seq<Ticker>, p: Settings, d: int, i: nat)
    requires Distinct(tickers) && IndexOf(Sessions(Pool(bars, p)), d) == Some(i) && i >= p.lookback
    ensures RankingOn(bars, tickers, p, d).Some?
    ensures
      var pool := Pool(bars, p);
      var past, now, r := ClosesOn(pool, Sessions(pool)[i - p.lookback]), ClosesOn(pool, d),
          RankingOn(bars, tickers, p, d).value;
      && (forall t :: t in r ==> Qualifies(past, now, p, d, t))
      && (forall j, k :: 0 <= j < k < |r| ==> AheadOn(tickers, past, now, p, d, r[j], r[k]))
      && (forall t :: t in tickers && t !in r && Qualifies(past, now, p, d, t) ==>
            |r| == Depth(p) && forall x :: x in r ==> AheadOn(tickers, past, now, p, d, x, t))
  {
    hide *;
    RankingAt(bars, tickers, p, i);
    var pool := Pool(bars, p);
    var past, now := ClosesOn(pool, Sessions(pool)[i - p.lookback]), ClosesOn(pool, d);
    var xs := Gathered(tickers, |tickers|, past, now, p, d);
    GatheredAre(tickers, |tickers|, past, now, p, d);
    assert tickers[..|tickers|] == tickers;
    GatheredInOrder(tickers, |tickers|, past, now, p, d);
    RankedIsSorted(tickers, xs);
    FirstAreBest(tickers, xs, past, now, p, d);
  }

  lemma FirstAreBest(tickers: seq<Ticker>, xs: seq<Return>, past: map<Ticker, real>, now: map<Ticker, real>,
                     p: Settings, d: int)
    requires forall x :: x in xs ==> Qualifies(past, now, p, d, x.ticker) && x == ReturnOf(past, now, x.ticker)
    requires Descending(tickers, Ranked(xs)) && multiset(Ranked(xs)) == multiset(xs)
    ensures
      var r := FirstTickers(Ranked(xs), Depth(p));
      && (forall t :: t in r ==> Qualifies(past, now, p, d, t))
      && (forall j, k :: 0 <= j < k < |r| ==> AheadOn(tickers, past, now, p, d, r[j], r[k]))
      && (forall t :: t !in r && Qualifies(past, now, p, d, t) && ReturnOf(past, now, t) in xs ==>
            |r| == Depth(p) && forall x :: x in r ==> AheadOn(tickers, past, now, p, d, x, t))
  {
    hide Ranked, Depth, At;
    var ys, r := Ranked(xs), FirstTickers(Ranked(xs), Depth(p));
    forall y
      ensures y in ys <==> y in xs
    {
      assert y in multiset(ys) <==> y in multiset(xs);
    }
    assert forall k :: 0 <= k < |r| ==> ys[k] in xs && r[k] == ys[k].ticker;
    forall j, k | 0 <= j < k < |r|
      ensures AheadOn(tickers, past, now, p, d, r[j], r[k])
    {
      assert Ahead(tickers, ys[j], ys[k]);
    }
    forall t | t !in r && Qualifies(past, now, p, d, t) && ReturnOf(past, now, t) in xs
      ensures |r| == Depth(p) && forall x :: x in r ==> AheadOn(tickers, past, now, p, d, x, t)
    {
      var k :| 0 <= k < |ys| && ys[k] == ReturnOf(past, now, t);
      TickerOfReturn(past, now, p, d, t);
      assert k >= |r|;
      forall x | x in r
        ensures AheadOn(tickers, past, now, p, d, x, t)
      {
        var m :| 0 <= m < |r| && r[m] == x;
        assert ys[m] == ReturnOf(past, now, x) && Ahead(tickers, ys[m], ys[k]);
      }
    }
  }

  lemma TickerOfReturn(past: map<Ticker, real>, now: map<Ticker, real>, p: Settings, d: int, t: Ticker)
    requires Qualifies(past, now, p, d, t)
    ensures ReturnOf(past, now, t).ticker == t
  {
  }

  // ---- The signal function ----

  /** The fraction lost from one price to another; a price of zero, which has none, loses nothing. */
  function Drop(from: real, to: real): real {
    if from == 0.0 then 0.0 else (from - to) / from
  }

  function ExitQuantity(ctx: Context, t: Ticker, held: real): Option<real> {
    var uncovered := Max(held - (if t in ctx.pendingSells then ctx.pendingSells[t] else 0.0), 0.0);
    if uncovered > 0.0 then Some(uncovered) else None
  }

  /** The shares a slice of capital buys. */
  function Affords(capital: real, pct: real, price: real): real
    requires price != 0.0
  {
    capital * pct / price
  }

  function EntryQuantity(p: Settings, price: real): Option<real> {
    if price == 0.0 then None
    else
      var fractional := Affords(p.capital, p.sizePct, price);
      if !p.wholeShares then Some(RoundTo(Max(0.0001, fractional), 10000))
      else if Trunc(fractional) as real <= 0.0 then None
      else Some(Trunc(fractional) as real)
  }

  function SellSignal(ctx: Context, t: Ticker, held: HeldPosition, price: real, reason: string): Option<Signal> {
    var q := ExitQuantity(ctx, t, held.quantity);
    if q.None? then None else Some(Signal(Sell, price, q.value, "Unknown", reason))
  }

  function RegimeOn(p: Settings, d: int): Regime {
    if d in p.regimes then p.regimes[d] else Neutral
  }

  function StopsOn(p: Settings, d: int): Stops {
    if p.regimes != map[] then RegimeStops(RegimeOn(p, d)) else p.stops
  }

  function InFirst(r: seq<Ticker>, n: nat, t: Ticker): bool {
    t in r[..if n < |r| then n else |r|]
  }

  function ExitReasonOf(p: Settings, ranking: Option<seq<Ticker>>, t: Ticker, held: HeldPosition, price: real,
                        d: int): Option<string> {
    var peak, stops := Max(held.peak, price), StopsOn(p, d);
    if peak > held.average && Drop(peak, price) >= stops.trailing then Some("trailing_stop")
    else if Drop(held.average, price) >= stops.maxLoss then Some("max_loss")
    else if p.rankExit.Some? && ranking.Some? && !InFirst(ranking.value, p.rankExit.value, t) then Some("rank_exit")
    else None
  }

  function SignalAt(p: Settings, ranking: Option<seq<Ticker>>, t: Ticker, bar: Bar, ctx: Context): Option<Signal> {
    var price, d := bar.close, bar.date;
    var offRegime := t in p.bearTickers && (if p.regimes != map[] then RegimeOn(p, d) else Neutral) != Bear;
    if t in ctx.positions && offRegime then SellSignal(ctx, t, ctx.positions[t], price, "regime_change")
    else if t in ctx.positions && ExitReasonOf(p, ranking, t, ctx.positions[t], price, d).Some? then
      SellSignal(ctx, t, ctx.positions[t], price, ExitReasonOf(p, ranking, t, ctx.positions[t], price, d).value)
    else if p.regimes != map[] && offRegime then None
    else if t !in ctx.positions && ranking.Some? && InFirst(ranking.value, p.topN, t) then
      var q := EntryQuantity(p, price);
      if q.None? then None else Some(Signal(Buy, price, q.value, "Unknown", ""))
    else None
  }

  /** The signal function made from a bar history: it reads the rankings at the date of the last bar it is shown. */
  function Signals(bars: Bars, tickers: seq<Ticker>, p: Settings): Strategy {
    (t: Ticker, shown: seq<Bar>, ctx: Context) =>
      if |shown| < p.lookback + 1 then None
      else
        var last := shown[|shown| - 1];
        SignalAt(p, RankingOn(bars, tickers, p, last.date), t, last, ctx)
  }

  // ---- No look-ahead ----

  lemma PoolTruncated(bars: Bars, p: Settings, cut: int)
    ensures Pool(Truncate(bars, cut), p) == Truncate(Pool(bars, p), cut)
  {
  }

  lemma ClosesTruncated(pool: Bars, d: int, cut: int)
    requires d <= cut
    ensures ClosesOn(Truncate(pool, cut), d) == ClosesOn(pool, d)
  {
    TruncatedDay(pool, d, cut);
  }

  /** A date on or before the cut keeps its place among the pool's dates. */
  lemma DateKeepsPlace(pool: Bars, d: int, cut: int)
    requires d <= cut
    ensures
      var dates, kept := Sessions(pool), Sessions(Truncate(pool, cut));
      && IndexOf(kept, d) == IndexOf(dates, d)
      && forall i :: 0 <= i && IndexOf(dates, d).Some? && i <= IndexOf(dates, d).value ==>
           i < |kept| && i < |dates| && kept[i] == dates[i] && dates[i] <= cut
  {
    hide Truncate, Sessions;
    TruncatedSessions(pool, cut);
    var dates := Sessions(pool);
    PrefixIndex(dates, CountUpTo(dates, cut), d);
  }

  /** Cutting the history off at a later date leaves a date's ranking as it was. */
  lemma RankingTruncated(bars: Bars, tickers: seq<Ticker>, p: Settings, d: int, cut: int)
    requires d <= cut
    ensures RankingOn(Truncate(bars, cut), tickers, p, d) == RankingOn(bars, tickers, p, d)
  {
    hide Truncate, Pool, Sessions, ClosesOn, Gathered, IndexOf, FirstTickers, Ranked;
    var pool := Pool(bars, p);
    PoolTruncated(bars, p, cut);
    DateKeepsPlace(pool, d, cut);
    var dates, at := Sessions(pool), IndexOf(Sessions(pool), d);
    if at.Some? && at.value >= p.lookback {
      ClosesTruncated(pool, d, cut);
      ClosesTruncated(pool, dates[at.value - p.lookback], cut);
    }
  }

  /** Settings that differ only in regimes later than the cut. */
  ghost predicate SameUpTo(p: Settings, q: Settings, cut: int) {
    && p == q.(regimes := p.regimes)
    && (p.regimes == map[] <==> q.regimes == map[])
    && forall d :: d <= cut ==> RegimeOn(p, d) == RegimeOn(q, d)
  }

  lemma SameRanking(bars: Bars, tickers: seq<Ticker>, p: Settings, q: Settings, d: int)
    requires p == q.(regimes := p.regimes)
    ensures RankingOn(bars, tickers, p, d) == RankingOn(bars, tickers, q, d)
  {
    var pool := Pool(bars, p);
    assert p.eligible == q.eligible && p.lookback == q.lookback && p.member == q.member && Depth(p) == Depth(q);
    assert pool == Pool(bars, q);
    var dates := Sessions(pool);
    var at := IndexOf(dates, d);
    if at.Some? && at.value >= p.lookback {
      hide ClosesOn, Sessions, Pool;
      SameGathered(tickers, |tickers|, ClosesOn(pool, dates[at.value - p.lookback]), ClosesOn(pool, d), p, q, d);
    }
  }

  lemma {:induction false} SameGathered(tickers: seq<Ticker>, n: nat, past: map<Ticker, real>, now: map<Ticker, real>,
                                        p: Settings, q: Settings, d: int)
    requires n <= |tickers| && p.member == q.member
    ensures Gathered(tickers, n, past, now, p, d) == Gathered(tickers, n, past, now, q, d)
  {
    if n > 0 {
      SameGathered(tickers, n - 1, past, now, p, q, d);
    }
  }

  lemma SignalsAgree(bars: Bars, tickers: seq<Ticker>, p: Settings, q: Settings, cut: int)
    requires SameUpTo(p, q, cut)
    ensures AgreeUpTo(Signals(Truncate(bars, cut), tickers, p), Signals(bars, tickers, q), bars, cut)
  {
    var early, full := Signals(Truncate(bars, cut), tickers, p), Signals(bars, tickers, q);
    hide RankingOn, Truncate, ShownAfter;
    forall t, n: nat, ctx | PrintsBy(bars, t, n, cut)
      ensures early(t, ShownAfter(bars, t, n), ctx) == full(t, ShownAfter(bars, t, n), ctx)
    {
      ShownEnds(bars, t, n, cut);
      var shown := ShownAfter(bars, t, n);
      var last := shown[|shown| - 1];
      RankingTruncated(bars, tickers, p, last.date, cut);
      SameRanking(bars, tickers, p, q, last.date);
      SameSignal(p, q, cut, RankingOn(bars, tickers, q, last.date), t, last, ctx);
    }
  }

  lemma SameSignal(p: Settings, q: Settings, cut: int, ranking: Option<seq<Ticker>>, t: Ticker, bar: Bar, ctx: Context)
    requires SameUpTo(p, q, cut) && bar.date <= cut
    ensures SignalAt(p, ranking, t, bar, ctx) == SignalAt(q, ranking, t, bar, ctx)
  {
    hide SellSignal, InFirst, RegimeStops, Drop, Affords;
    assert StopsOn(p, bar.date) == StopsOn(q, bar.date);
    assert p.capital == q.capital && p.sizePct == q.sizePct && p.wholeShares == q.wholeShares;
    assert EntryQuantity(p, bar.close) == EntryQuantity(q, bar.close);
    hide EntryQuantity, StopsOn;
  }

  /**
   End to end: a momentum replay whose signal function was built on truncated
   bars, run on those bars, is the prefix of the replay built and run on all of
   them. The rankings, though precomputed over the whole history, leak nothing.
   */
  lemma MomentumNoLookAhead(rules: Rules, p: Settings, q: Settings, plan: Plan, bars: Bars, cut: int)
    requires Universe(rules, bars) && SameUpTo(p, q, cut)
    ensures Run(rules, Signals(Truncate(bars, cut), rules.tickers, p), plan, Truncate(bars, cut))
            == RunTo(rules, Signals(bars, rules.tickers, q), plan, bars, CountUpTo(Sessions(bars), cut))
  {
    SignalsAgree(bars, rules.tickers, p, q, cut);
    hide RunTo, AgreeUpTo, Truncate, Signals;
    NoLookAhead(rules, Signals(Truncate(bars, cut), rules.tickers, p), Signals(bars, rules.tickers, q), plan, bars,
                cut);
  }
}
