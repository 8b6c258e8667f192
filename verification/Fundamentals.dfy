/**
 The point-in-time fundamentals cache: quarters are stored as first seen and
 never replaced, and a lookup sees only what the cache could have held by then.
 */
module Fundamentals {
  import opened Basics

  /** A stored quarter. Rows from Alpha Vantage carry the day they were first seen; legacy rows may not. */
  datatype Quarter = Quarter(period: int, filed: Option<int>, firstSeen: Option<int>, alpha: bool, figures: string)

  /** _available_on: the filing date, or the period end plus a lag, and never before the cache first saw it. */
  function AvailableOn(q: Quarter, lag: int): int {
    var public := if q.filed.Some? then q.filed.value else q.period + lag;
    if q.firstSeen.Some? && q.firstSeen.value > public then q.firstSeen.value else public
  }

  /** A row is public by a day: filed, or the lag after its period's end, and seen if it was ever stamped. */
  predicate PublicBy(q: Quarter, lag: int, d: int) {
    && (if q.filed.Some? then q.filed.value <= d else q.period + lag <= d)
    && (q.firstSeen.Some? ==> q.firstSeen.value <= d)
  }

  lemma AvailableIs(q: Quarter, lag: int, d: int)
    ensures AvailableOn(q, lag) <= d <==> PublicBy(q, lag, d)
  {
  }

  /**
   The answer of a lookup: a row of the ticker public by the day, none of whose
   public rivals came out after it; or none, when no row is public.
   */
  ghost predicate Answers(rows: seq<Quarter>, lag: int, d: int, r: Option<Quarter>) {
    if r.None? then forall q :: q in rows ==> !PublicBy(q, lag, d)
    else
      && r.value in rows && PublicBy(r.value, lag, d)
      && forall q, e: int :: q in rows && PublicBy(q, lag, d) && PublicBy(r.value, lag, e) ==> PublicBy(q, lag, e)
  }

  lemma LatestAnswers(rows: seq<Quarter>, lag: int, d: int)
    ensures Answers(rows, lag, d, Latest(rows, lag, d))
  {
    LatestOutranks(rows, lag, d);
    var r := Latest(rows, lag, d);
    hide Latest, AvailableOn, PublicBy;
    forall q, e: int
      ensures AvailableOn(q, lag) <= e <==> PublicBy(q, lag, e)
    {
      AvailableIs(q, lag, e);
    }
    if r.Some? {
      var i :| 0 <= i < |rows| && rows[i] == r.value && Outranks(rows, lag, d, i);
      forall q, e: int | q in rows && PublicBy(q, lag, d) && PublicBy(r.value, lag, e)
        ensures PublicBy(q, lag, e)
      {
        var j :| 0 <= j < |rows| && rows[j] == q;
        assert AvailableOn(rows[j], lag) <= AvailableOn(rows[i], lag) <= e;
      }
    }
  }

  /** A cache of one row answers it from exactly the day it is public. */
  lemma OneRowAnswers(q: Quarter, lag: int, d: int)
    ensures Latest([q], lag, d) == if PublicBy(q, lag, d) then Some(q) else None
  {
    AvailableIs(q, lag, d);
    hide AvailableOn, PublicBy;
    assert [q][..0] == [];
  }

  // ---- The lookup ----

  /** The better of a row found so far and a later one: the later wins when it is available, and no earlier so. */
  function Better(best: Option<Quarter>, own: Quarter, lag: int, d: int): Option<Quarter> {
    if AvailableOn(own, lag) <= d && (best.None? || AvailableOn(best.value, lag) <= AvailableOn(own, lag))
        then Some(own)
    else best
  }

  /** The last row by availability among those available on a date, later rows winning ties. */
  function Latest(rows: seq<Quarter>, lag: int, d: int): Option<Quarter> {
    if rows == [] then None else Better(Latest(rows[..|rows| - 1], lag, d), rows[|rows| - 1], lag, d)
  }

  lemma LatestPush(rows: seq<Quarter>, x: Quarter, lag: int, d: int)
    ensures Latest(rows + [x], lag, d) == Better(Latest(rows, lag, d), x, lag, d)
  {
    assert (rows + [x])[..|rows|] == rows;
  }

  /** What the lookup means: nothing is available, or the row at i is, and outranks every other available row. */
  ghost predicate Outranks(rows: seq<Quarter>, lag: int, d: int, i: nat)
    requires i < |rows|
  {
    && AvailableOn(rows[i], lag) <= d
    && forall j :: 0 <= j < |rows| && AvailableOn(rows[j], lag) <= d ==>
         AvailableOn(rows[j], lag) < AvailableOn(rows[i], lag)
             || (AvailableOn(rows[j], lag) == AvailableOn(rows[i], lag) && j <= i)
  }

  lemma {:induction false} LatestOutranks(rows: seq<Quarter>, lag: int, d: int)
    ensures Latest(rows, lag, d).None? <==> forall q :: q in rows ==> AvailableOn(q, lag) > d
    ensures Latest(rows, lag, d).Some? ==>
      exists i :: 0 <= i < |rows| && rows[i] == Latest(rows, lag, d).value && Outranks(rows, lag, d, i)
  {
    hide AvailableOn;
    if rows != [] {
      var n := |rows| - 1;
      var head, own := rows[..n], rows[n];
      LatestOutranks(head, lag, d);
      assert rows == head + [own];
      if Latest(head, lag, d).Some? {
        var i :| 0 <= i < n && head[i] == Latest(head, lag, d).value && Outranks(head, lag, d, i);
        OutranksPush(head, own, lag, d, i);
      } else if AvailableOn(own, lag) <= d {
        assert forall j :: 0 <= j < n ==> rows[j] in head;
        assert Outranks(rows, lag, d, n);
      }
    }
  }

  lemma OutranksPush(head: seq<Quarter>, own: Quarter, lag: int, d: int, i: nat)
    requires i < |head| && Outranks(head, lag, d, i)
    ensures
      var rows := head + [own];
      if AvailableOn(own, lag) <= d && AvailableOn(head[i], lag) <= AvailableOn(own, lag)
      then Outranks(rows, lag, d, |head|)
      else Outranks(rows, lag, d, i)
  {
    hide AvailableOn;
    var rows := head + [own];
    assert forall j :: 0 <= j < |head| ==> rows[j] == head[j];
  }

  /** A stable sort by availability places each row after those available no later. */
  function PlacedByDate(s: seq<Quarter>, x: Quarter, lag: int): (r: seq<Quarter>)
    ensures r != []
  {
    if s == [] || AvailableOn(s[|s| - 1], lag) <= AvailableOn(x, lag) then s + [x]
    else PlacedByDate(s[..|s| - 1], x, lag) + [s[|s| - 1]]
  }

  function ByDate(rows: seq<Quarter>, lag: int): seq<Quarter> {
    if rows == [] then [] else PlacedByDate(ByDate(rows[..|rows| - 1], lag), rows[|rows| - 1], lag)
  }

  ghost predicate Dated(s: seq<Quarter>, lag: int) {
    forall i, j :: 0 <= i < j < |s| ==> AvailableOn(s[i], lag) <= AvailableOn(s[j], lag)
  }

  lemma BetterSwap(best: Option<Quarter>, x: Quarter, own: Quarter, lag: int, d: int)
    requires AvailableOn(x, lag) < AvailableOn(own, lag)
    ensures Better(Better(best, x, lag, d), own, lag, d) == Better(Better(best, own, lag, d), x, lag, d)
  {
  }

  lemma {:induction false} PlacedLatest(s: seq<Quarter>, x: Quarter, lag: int, d: int)
    ensures Latest(PlacedByDate(s, x, lag), lag, d) == Latest(s + [x], lag, d)
  {
    hide AvailableOn, Latest, Better;
    if s != [] && AvailableOn(s[|s| - 1], lag) > AvailableOn(x, lag) {
      var head, own := s[..|s| - 1], s[|s| - 1];
      assert s == head + [own];
      PlacedLatest(head, x, lag, d);
      LatestPush(PlacedByDate(head, x, lag), own, lag, d);
      LatestPush(head, x, lag, d);
      LatestPush(head, own, lag, d);
      LatestPush(s, x, lag, d);
      BetterSwap(Latest(head, lag, d), x, own, lag, d);
    }
  }

  lemma {:induction false} PlacedDated(s: seq<Quarter>, x: Quarter, lag: int)
    requires Dated(s, lag)
    ensures Dated(PlacedByDate(s, x, lag), lag)
    ensures forall y :: y in PlacedByDate(s, x, lag) ==> y in s || y == x
  {
    hide AvailableOn;
    if s != [] && AvailableOn(s[|s| - 1], lag) > AvailableOn(x, lag) {
      var head := s[..|s| - 1];
      PlacedDated(head, x, lag);
      assert forall y :: y in head ==> AvailableOn(y, lag) <= AvailableOn(s[|s| - 1], lag);
    }
  }

  lemma NothingDated(lag: int)
    ensures Dated([], lag)
  {
  }

  /** Sorting by availability first changes nothing the lookup returns. */
  lemma {:induction false} SortedLatest(rows: seq<Quarter>, lag: int, d: int)
    ensures Dated(ByDate(rows, lag), lag) && Latest(ByDate(rows, lag), lag, d) == Latest(rows, lag, d)
  {
    hide AvailableOn, PlacedByDate, Better, Dated;
    if rows == [] {
      NothingDated(lag);
    } else {
      var n := |rows| - 1;
      var head := ByDate(rows[..n], lag);
      SortedLatest(rows[..n], lag, d);
      PlacedLatest(head, rows[n], lag, d);
      PlacedDated(head, rows[n], lag);
      LatestPush(head, rows[n], lag, d);
    }
  }

  /** In a dated listing the latest available row is the last one before the first that is not. */
  lemma {:induction false} LatestIsLast(s: seq<Quarter>, lag: int, d: int, i: nat)
    requires i <= |s| && Dated(s, lag)
    requires forall k :: 0 <= k < i ==> AvailableOn(s[k], lag) <= d
    requires i < |s| ==> AvailableOn(s[i], lag) > d
    ensures Latest(s, lag, d) == if i == 0 then None else Some(s[i - 1])
  {
    hide AvailableOn;
    if s != [] {
      var n := |s| - 1;
      if i == |s| {
        LatestIsLast(s[..n], lag, d, n);
      } else {
        LatestIsLast(s[..n], lag, d, i);
      }
    }
  }

  /** The lookup's scan of one ticker's entries, in order of availability. */
  method Scan(entries: seq<Quarter>, lag: int, d: int) returns (result: Option<Quarter>)
    requires Dated(entries, lag)
    ensures result == Latest(entries, lag, d)
  {
    result := None;
    var i := 0;
    while i < |entries|
      invariant 0 <= i <= |entries|
      invariant forall k :: 0 <= k < i ==> AvailableOn(entries[k], lag) <= d
      invariant result == if i == 0 then None else Some(entries[i - 1])
    {
      if AvailableOn(entries[i], lag) <= d {
        result := Some(entries[i]);
      } else {
        break;
      }
      i := i + 1;
    }
    LatestIsLast(entries, lag, d, i);
  }

  datatype LookupError = NegativeLag

  /** The index the lookup is built on, ticker by ticker. */
  method BuildIndex(cache: map<string, seq<Quarter>>, lag: int)
    returns (r: Result<map<string, seq<Quarter>>, LookupError>)
    ensures r.Success? <==> lag >= 0
    ensures r.Success? ==> r.value.Keys == cache.Keys
    ensures r.Success? ==> forall t :: t in cache ==> r.value[t] == ByDate(cache[t], lag)
  {
    if lag < 0 {
      return Failure(NegativeLag);
    }
    var sorted: map<string, seq<Quarter>> := map[];
    var todo := cache.Keys;
    while todo != {}
      invariant todo <= cache.Keys && sorted.Keys == cache.Keys - todo
      invariant forall t :: t in sorted ==> sorted[t] == ByDate(cache[t], lag)
      decreases |todo|
    {
      assert (forall y :: y !in todo) ==> todo == {};
      var t :| t in todo;
      sorted := sorted[t := ByDate(cache[t], lag)];
      todo := todo - {t};
    }
    return Success(sorted);
  }

  /** The lookup a cache answers with: the latest available row of the ticker, or none. */
  method Lookup(cache: map<string, seq<Quarter>>, lag: int, ticker: string, d: int)
    returns (r: Result<Option<Quarter>, LookupError>)
    ensures lag < 0 ==> r.Failure?
    ensures lag >= 0 ==> r == Success(if ticker in cache then Latest(cache[ticker], lag, d) else None)
    ensures lag >= 0 ==> r.Success? && Answers(if ticker in cache then cache[ticker] else [], lag, d, r.value)
  {
    hide Answers;
    LatestAnswers(if ticker in cache then cache[ticker] else [], lag, d);
    NoRows(lag, d);
    var index :- BuildIndex(cache, lag);
    if ticker !in index || index[ticker] == [] {
      if ticker in cache {
        SortedLatest(cache[ticker], lag, d);
      }
      return Success(None);
    }
    SortedLatest(cache[ticker], lag, d);
    var found := Scan(index[ticker], lag, d);
    return Success(found);
  }

  lemma NoRows(lag: int, d: int)
    ensures Latest([], lag, d) == None
  {
  }

  // ---- Merging a refresh ----

  function Stamped(q: Quarter, seenDay: int): Quarter {
    q.(firstSeen := Some(seenDay))
  }

  predicate InTime(q: Quarter, seenDay: int, window: int) {
    seenDay <= q.period + window
  }

  function PeriodsOf(rows: seq<Quarter>): set<int> {
    set q | q in rows :: q.period
  }

  function AlphaOnly(rows: seq<Quarter>): (r: seq<Quarter>)
    ensures forall q :: q in r <==> q in rows && q.alpha
  {
    if rows == [] then []
    else AlphaOnly(rows[..|rows| - 1]) + if rows[|rows| - 1].alpha then [rows[|rows| - 1]] else []
  }

  /** The rows held after the first n new ones: a period already held, or seen too late, is passed over. */
  function Kept(held: seq<Quarter>, offered: seq<Quarter>, n: nat, seenDay: int, window: int): (r: seq<Quarter>)
    requires n <= |offered|
    ensures held <= r
  {
    if n == 0 then held
    else
      var before, q := Kept(held, offered, n - 1, seenDay, window), offered[n - 1];
      if q.period in PeriodsOf(before) || !InTime(q, seenDay, window) then before else before + [Stamped(q, seenDay)]
  }

  /** A stable sort by period places each row after those of no later period. */
  function PlacedByPeriod(s: seq<Quarter>, x: Quarter): seq<Quarter> {
    if s == [] || s[|s| - 1].period <= x.period then s + [x]
    else PlacedByPeriod(s[..|s| - 1], x) + [s[|s| - 1]]
  }

  function ByPeriod(rows: seq<Quarter>): seq<Quarter> {
    if rows == [] then [] else PlacedByPeriod(ByPeriod(rows[..|rows| - 1]), rows[|rows| - 1])
  }

  /** merge_first_seen. */
  function Merged(had: seq<Quarter>, offered: seq<Quarter>, seenDay: int, window: int): seq<Quarter> {
    var kept := Kept(AlphaOnly(had), offered, |offered|, seenDay, window);
    if kept == [] then had else ByPeriod(kept)
  }

  function PeriodList(rows: seq<Quarter>): (r: seq<int>)
    ensures |r| == |rows| && forall i :: 0 <= i < |r| ==> r[i] == rows[i].period
  {
    seq(|rows|, i requires 0 <= i < |rows| => rows[i].period)
  }

  /** The merge as it runs; also returns the periods it added, in the order they were offered. */
  method MergeFirstSeen(had: seq<Quarter>, offered: seq<Quarter>, seenDay: int, window: int)
    returns (rows: seq<Quarter>, added: seq<int>)
    ensures rows == Merged(had, offered, seenDay, window)
    ensures
      var held, kept := AlphaOnly(had), Kept(AlphaOnly(had), offered, |offered|, seenDay, window);
      held <= kept && added == PeriodList(kept[|held|..])
  {
    var held := AlphaOnly(had);
    var kept, stored := held, PeriodsOf(held);
    added := [];
    for n := 0 to |offered|
      invariant kept == Kept(held, offered, n, seenDay, window) && held <= kept
      invariant stored == PeriodsOf(kept) && added == PeriodList(kept[|held|..])
    {
      var q := offered[n];
      if q.period in stored || seenDay > q.period + window {
        continue;
      }
      PeriodsPush(kept, Stamped(q, seenDay));
      assert (kept + [Stamped(q, seenDay)])[|held|..] == kept[|held|..] + [Stamped(q, seenDay)];
      kept := kept + [Stamped(q, seenDay)];
      stored := stored + {q.period};
      added := added + [q.period];
    }
    rows := if kept == [] then had else ByPeriod(kept);
  }

  lemma PeriodsPush(rows: seq<Quarter>, q: Quarter)
    ensures PeriodsOf(rows + [q]) == PeriodsOf(rows) + {q.period}
  {
    var more := rows + [q];
    forall p | p in PeriodsOf(rows) + {q.period}
      ensures p in PeriodsOf(more)
    {
      if p == q.period {
        assert more[|rows|] in more;
      } else {
        var x :| x in rows && x.period == p;
        assert x in more;
      }
    }
  }

  // ---- What a merge keeps ----

  /** Stored quarters: all Alpha Vantage's, one a period, in period order. */
  ghost predicate Stored(rows: seq<Quarter>) {
    (forall q :: q in rows ==> q.alpha) && PeriodsAscend(rows)
  }

  ghost predicate PeriodsAscend(rows: seq<Quarter>) {
    forall i, j :: 0 <= i < j < |rows| ==> rows[i].period < rows[j].period
  }

  ghost predicate PeriodsDistinct(rows: seq<Quarter>) {
    forall i, j :: 0 <= i < j < |rows| ==> rows[i].period != rows[j].period
  }

  lemma {:induction false} PlacedSame(s: seq<Quarter>, x: Quarter)
    ensures multiset(PlacedByPeriod(s, x)) == multiset(s) + multiset{x}
    ensures forall y :: y in PlacedByPeriod(s, x) ==> y in s || y == x
  {
    if s != [] && s[|s| - 1].period > x.period {
      assert s == s[..|s| - 1] + [s[|s| - 1]];
      PlacedSame(s[..|s| - 1], x);
    }
  }

  lemma AscendPush(s: seq<Quarter>, own: Quarter)
    requires PeriodsAscend(s) && forall q :: q in s ==> q.period < own.period
    ensures PeriodsAscend(s + [own])
  {
  }

  lemma AscendSplit(s: seq<Quarter>)
    requires PeriodsAscend(s) && s != []
    ensures PeriodsAscend(s[..|s| - 1]) && forall q :: q in s[..|s| - 1] ==> q.period < s[|s| - 1].period
  {
  }

  lemma {:induction false} PlacedAscends(s: seq<Quarter>, x: Quarter)
    requires PeriodsAscend(s) && forall q :: q in s ==> q.period != x.period
    ensures PeriodsAscend(PlacedByPeriod(s, x))
  {
    hide PeriodsAscend;
    if s == [] {
      AscendPush([], x) by {
        NothingAscends();
      }
    } else {
      var head, own := s[..|s| - 1], s[|s| - 1];
      AscendSplit(s);
      assert s == head + [own];
      if own.period > x.period {
        PlacedAscends(head, x);
        PlacedSame(head, x);
        AscendPush(PlacedByPeriod(head, x), own);
      } else {
        AscendPush(s, x);
      }
    }
  }

  lemma NothingAscends()
    ensures PeriodsAscend([])
  {
  }

  lemma {:induction false} SortedByPeriod(rows: seq<Quarter>)
    requires PeriodsDistinct(rows)
    ensures PeriodsAscend(ByPeriod(rows)) && multiset(ByPeriod(rows)) == multiset(rows)
  {
    if rows != [] {
      var n := |rows| - 1;
      var head := rows[..n];
      assert rows == head + [rows[n]];
      SortedByPeriod(head);
      forall q | q in ByPeriod(head)
        ensures q.period != rows[n].period
      {
        assert q in multiset(ByPeriod(head));
        assert q in head;
      }
      PlacedAscends(ByPeriod(head), rows[n]);
      PlacedSame(ByPeriod(head), rows[n]);
    }
  }

  /** A row added by one of the first n offered: stamped, in time, of a period not held, otherwise as offered. */
  ghost predicate AddedBy(q: Quarter, held: seq<Quarter>, offered: seq<Quarter>, n: nat, seenDay: int, window: int)
    requires n <= |offered|
  {
    && q.firstSeen == Some(seenDay) && seenDay <= q.period + window && q.period !in PeriodsOf(held)
    && exists i :: 0 <= i < n && q == offered[i].(firstSeen := Some(seenDay))
  }

  lemma DistinctPush(rows: seq<Quarter>, q: Quarter)
    requires PeriodsDistinct(rows) && q.period !in PeriodsOf(rows)
    ensures PeriodsDistinct(rows + [q])
  {
    assert forall i :: 0 <= i < |rows| ==> rows[i].period in PeriodsOf(rows);
  }

  lemma AddedNow(held: seq<Quarter>, before: seq<Quarter>, offered: seq<Quarter>, n: nat, seenDay: int, window: int)
    requires n < |offered| && held <= before && InTime(offered[n], seenDay, window)
    requires offered[n].period !in PeriodsOf(before)
    ensures AddedBy(Stamped(offered[n], seenDay), held, offered, n + 1, seenDay, window)
  {
    assert forall i :: 0 <= i < |held| ==> held[i] == before[i] && before[i].period in PeriodsOf(before);
  }

  /** What is kept starts with what was held, one row a period; everything else was added from the offer. */
  lemma {:induction false} KeptExtends(held: seq<Quarter>, offered: seq<Quarter>, n: nat, seenDay: int, window: int)
    requires n <= |offered| && PeriodsDistinct(held)
    ensures
      var kept := Kept(held, offered, n, seenDay, window);
      && held <= kept && PeriodsDistinct(kept)
      && forall q :: q in kept[|held|..] ==> AddedBy(q, held, offered, n, seenDay, window)
  {
    if n > 0 {
      KeptExtends(held, offered, n - 1, seenDay, window);
      var before, q := Kept(held, offered, n - 1, seenDay, window), offered[n - 1];
      AddedWidens(held, offered, n - 1, seenDay, window);
      hide AddedBy, PeriodsDistinct, PeriodsOf, InTime, Stamped;
      if !(q.period in PeriodsOf(before) || !InTime(q, seenDay, window)) {
        AddedNow(held, before, offered, n - 1, seenDay, window);
        StampKeeps(q, seenDay);
        DistinctPush(before, Stamped(q, seenDay));
        TailPush(held, before, Stamped(q, seenDay));
      }
    }
  }

  lemma TailPush(held: seq<Quarter>, before: seq<Quarter>, q: Quarter)
    requires held <= before
    ensures held <= before + [q] && forall x :: x in (before + [q])[|held|..] ==> x in before[|held|..] || x == q
  {
    assert (before + [q])[|held|..] == before[|held|..] + [q];
  }

  lemma AddedWidens(held: seq<Quarter>, offered: seq<Quarter>, n: nat, seenDay: int, window: int)
    requires n < |offered|
    ensures forall x :: AddedBy(x, held, offered, n, seenDay, window) ==>
      AddedBy(x, held, offered, n + 1, seenDay, window)
  {
    hide InTime, PeriodsOf, Stamped;
  }

  lemma StampKeeps(q: Quarter, seenDay: int)
    ensures Stamped(q, seenDay).period == q.period
  {
  }

  /** Every quarter offered in time ends up stored, by itself or by an earlier row of its period. */
  lemma {:induction false} KeptCovers(held: seq<Quarter>, offered: seq<Quarter>, n: nat, seenDay: int, window: int)
    requires n <= |offered|
    ensures forall i :: 0 <= i < n && seenDay <= offered[i].period + window ==>
      offered[i].period in PeriodsOf(Kept(held, offered, n, seenDay, window))
  {
    hide PeriodsOf;
    if n > 0 {
      KeptCovers(held, offered, n - 1, seenDay, window);
      PeriodsPush(Kept(held, offered, n - 1, seenDay, window), Stamped(offered[n - 1], seenDay));
    }
  }

  lemma {:induction false} AlphaKept(rows: seq<Quarter>)
    requires forall i :: 0 <= i < |rows| ==> rows[i].alpha
    ensures AlphaOnly(rows) == rows
  {
    if rows != [] {
      var head := rows[..|rows| - 1];
      AlphaKept(head);
      assert rows == head + [rows[|rows| - 1]];
    }
  }

  lemma AscendIsDistinct(rows: seq<Quarter>)
    requires PeriodsAscend(rows)
    ensures PeriodsDistinct(rows)
  {
  }

  /**
   A merge replaces nothing. The stored quarters of the result are exactly those
   stored before plus the new ones added, each stamped with the day it was
   seen, seen within the window, and of a period not stored; they are unique
   and in period order. When there is nothing to store the rows stay as they were.
   */
  lemma MergeReplacesNothing(had: seq<Quarter>, offered: seq<Quarter>, seenDay: int, window: int)
    requires PeriodsDistinct(AlphaOnly(had)) && forall q :: q in offered ==> q.alpha
    ensures
      var held, rows := AlphaOnly(had), Merged(had, offered, seenDay, window);
      var added := Kept(held, offered, |offered|, seenDay, window)[|held|..];
      && (held == [] && added == [] ==> rows == had)
      && (held + added != [] ==> Stored(rows) && multiset(rows) == multiset(held) + multiset(added))
      && forall q :: q in added ==> AddedBy(q, held, offered, |offered|, seenDay, window)
  {
    hide ByPeriod, Kept, PeriodsDistinct, PeriodsAscend, InTime, PeriodsOf;
    AddedAlpha(offered, seenDay, window, AlphaOnly(had));
    var held := AlphaOnly(had);
    var kept := Kept(held, offered, |offered|, seenDay, window);
    KeptExtends(held, offered, |offered|, seenDay, window);
    var added := kept[|held|..];
    assert kept == held + added;
    if kept != [] {
      SortedByPeriod(kept);
      SameRows(ByPeriod(kept), kept);
      assert multiset(kept) == multiset(held) + multiset(added);
      assert forall q :: q in kept ==> q in held || q in added;
    }
  }

  lemma AddedAlpha(offered: seq<Quarter>, seenDay: int, window: int, held: seq<Quarter>)
    requires forall q :: q in offered ==> q.alpha
    ensures forall q :: AddedBy(q, held, offered, |offered|, seenDay, window) ==> q.alpha
  {
  }

  lemma SameRows(a: seq<Quarter>, b: seq<Quarter>)
    requires multiset(a) == multiset(b)
    ensures forall q :: q in a <==> q in b
  {
    forall q
      ensures q in a <==> q in b
    {
      assert q in multiset(a) <==> q in multiset(b);
    }
  }

  // ---- History never changes after the fact ----

  /** The rows available on a date. */
  function AvailableBy(rows: seq<Quarter>, lag: int, d: int): seq<Quarter> {
    if rows == [] then []
    else AvailableBy(rows[..|rows| - 1], lag, d) + if AvailableOn(rows[|rows| - 1], lag) <= d then [rows[|rows| - 1]]
        else []
  }

  lemma {:induction false} LatestOfAvailable(rows: seq<Quarter>, lag: int, d: int)
    ensures Latest(AvailableBy(rows, lag, d), lag, d) == Latest(rows, lag, d)
  {
    hide AvailableOn;
    if rows != [] {
      var head, own := rows[..|rows| - 1], rows[|rows| - 1];
      LatestOfAvailable(head, lag, d);
      LatestPush(AvailableBy(head, lag, d), own, lag, d);
      assert AvailableBy(rows, lag, d)
             == if AvailableOn(own, lag) <= d then AvailableBy(head, lag, d) + [own] else AvailableBy(head, lag, d);
    }
  }

  /** Placing a row that is not available leaves the available rows as they were. */
  lemma {:induction false} PlacedAvailable(s: seq<Quarter>, x: Quarter, lag: int, d: int)
    requires AvailableOn(x, lag) > d
    ensures AvailableBy(PlacedByPeriod(s, x), lag, d) == AvailableBy(s, lag, d)
  {
    hide AvailableOn;
    if s == [] || s[|s| - 1].period <= x.period {
      assert (s + [x])[..|s|] == s;
    } else {
      var head, own := s[..|s| - 1], s[|s| - 1];
      PlacedAvailable(head, x, lag, d);
      var placed := PlacedByPeriod(head, x);
      assert (placed + [own])[..|placed|] == placed;
    }
  }

  lemma {:induction false} AlreadySorted(rows: seq<Quarter>)
    requires PeriodsAscend(rows)
    ensures ByPeriod(rows) == rows
  {
    if rows != [] {
      var n := |rows| - 1;
      assert PeriodsAscend(rows[..n]);
      AlreadySorted(rows[..n]);
      assert rows == rows[..n] + [rows[n]];
    }
  }

  /** Rows added later than a date leave what was available on it, and its order, as it was. */
  lemma {:induction false} SortKeepsAvailable(held: seq<Quarter>, added: seq<Quarter>, lag: int, d: int)
    requires PeriodsAscend(held) && forall q :: q in added ==> AvailableOn(q, lag) > d
    ensures AvailableBy(ByPeriod(held + added), lag, d) == AvailableBy(held, lag, d)
  {
    hide AvailableOn, PlacedByPeriod;
    if added == [] {
      assert held + added == held;
      AlreadySorted(held);
    } else {
      var n := |added| - 1;
      assert (held + added)[..|held| + n] == held + added[..n];
      SortKeepsAvailable(held, added[..n], lag, d);
      assert added[n] in added;
      PlacedAvailable(ByPeriod(held + added[..n]), added[n], lag, d);
    }
  }

  lemma StampedLater(added: seq<Quarter>, seenDay: int, lag: int, d: int)
    requires d < seenDay && forall q :: q in added ==> q.firstSeen == Some(seenDay)
    ensures forall q :: q in added ==> AvailableOn(q, lag) > d
  {
  }

  /** What a merge leaves visible on an earlier date: the Alpha Vantage rows, unless nothing was storable. */
  lemma MergeSeenEarlier(had: seq<Quarter>, offered: seq<Quarter>, seenDay: int, window: int, lag: int, d: int)
    requires PeriodsAscend(AlphaOnly(had)) && d < seenDay
    ensures
      var kept := Kept(AlphaOnly(had), offered, |offered|, seenDay, window);
      Latest(Merged(had, offered, seenDay, window), lag, d)
      == if kept == [] then Latest(had, lag, d) else Latest(AlphaOnly(had), lag, d)
  {
    hide AvailableOn, Latest, AvailableBy, ByPeriod, PeriodsAscend, PeriodsDistinct, AlphaOnly;
    var held := AlphaOnly(had);
    var kept := Kept(held, offered, |offered|, seenDay, window);
    AscendIsDistinct(held);
    KeptExtends(held, offered, |offered|, seenDay, window);
    var added := kept[|held|..];
    assert kept == held + added;
    assert forall q :: q in added ==> q.firstSeen == Some(seenDay);
    StampedLater(added, seenDay, lag, d);
    SortKeepsAvailable(held, added, lag, d);
    LatestOfAvailable(held, lag, d);
    LatestOfAvailable(ByPeriod(kept), lag, d);
  }

  ghost predicate AlphaOf(a: Option<Quarter>, l: Option<Quarter>, lag: int) {
    && (a.Some? ==> a.value.alpha && l.Some? && AvailableOn(a.value, lag) <= AvailableOn(l.value, lag))
    && (l.Some? && l.value.alpha ==> a == l)
  }

  lemma AlphaBetter(a: Option<Quarter>, l: Option<Quarter>, own: Quarter, lag: int, d: int)
    requires AlphaOf(a, l, lag)
    ensures AlphaOf(if own.alpha then Better(a, own, lag, d) else a, Better(l, own, lag, d), lag)
  {
    hide AvailableOn;
  }

  /** The latest Alpha Vantage row is the latest row of all, when that one is Alpha Vantage's. */
  lemma {:induction false} AlphaLatest(rows: seq<Quarter>, lag: int, d: int)
    ensures AlphaOf(Latest(AlphaOnly(rows), lag, d), Latest(rows, lag, d), lag)
  {
    hide AvailableOn, Better, AlphaOf;
    if rows == [] {
      NothingAlpha(lag);
    } else {
      var n := |rows| - 1;
      AlphaLatest(rows[..n], lag, d);
      AlphaBetter(Latest(AlphaOnly(rows[..n]), lag, d), Latest(rows[..n], lag, d), rows[n], lag, d);
      LatestPush(AlphaOnly(rows[..n]), rows[n], lag, d);
      assert AlphaOnly(rows) == if rows[n].alpha then AlphaOnly(rows[..n]) + [rows[n]] else AlphaOnly(rows[..n]);
    }
  }

  lemma NothingAlpha(lag: int)
    ensures AlphaOf(None, None, lag)
  {
  }

  /**
   Exactly when one merge leaves the lookup on an earlier date unchanged: always,
   except when it stores something (or something was stored) and the row the
   lookup returned came from another source.
   */
  lemma MergeKeepsHistory(had: seq<Quarter>, offered: seq<Quarter>, seenDay: int, window: int, lag: int, d: int)
    requires PeriodsAscend(AlphaOnly(had)) && d < seenDay
    ensures
      var was := Latest(had, lag, d);
      var storing := Kept(AlphaOnly(had), offered, |offered|, seenDay, window) != [];
      Latest(Merged(had, offered, seenDay, window), lag, d) == was <==> !(storing && was.Some? && !was.value.alpha)
  {
    hide AvailableOn, Latest, PeriodsAscend, AlphaOnly, Kept, Merged;
    MergeSeenEarlier(had, offered, seenDay, window, lag, d);
    AlphaLatest(had, lag, d);
  }

  /** A cache of legacy rows forgets, on every earlier date, whatever it showed once a quarter is stored. */
  lemma LegacyIsForgotten(had: seq<Quarter>, offered: seq<Quarter>, seenDay: int, window: int, lag: int, d: int)
    requires AlphaOnly(had) == [] && d < seenDay && Kept([], offered, |offered|, seenDay, window) != []
    ensures Latest(Merged(had, offered, seenDay, window), lag, d) == None
  {
    MergeSeenEarlier(had, offered, seenDay, window, lag, d);
  }

  // ---- Any number of refreshes ----

  datatype Refresh = Refresh(rows: seq<Quarter>, seenDay: int)

  function MergedAll(had: seq<Quarter>, refreshes: seq<Refresh>, window: int): seq<Quarter> {
    if refreshes == [] then had
    else
      var last := refreshes[|refreshes| - 1];
      Merged(MergedAll(had, refreshes[..|refreshes| - 1], window), last.rows, last.seenDay, window)
  }

  ghost predicate AlphaRefresh(r: Refresh) {
    forall q :: q in r.rows ==> q.alpha
  }

  lemma StoredIsAlpha(rows: seq<Quarter>)
    requires Stored(rows)
    ensures AlphaOnly(rows) == rows && PeriodsAscend(rows) && PeriodsDistinct(rows)
  {
    assert forall i :: 0 <= i < |rows| ==> rows[i] in rows;
    AlphaKept(rows);
  }

  lemma {:induction false} RefreshesStore(had: seq<Quarter>, refreshes: seq<Refresh>, window: int)
    requires Stored(had) && forall r :: r in refreshes ==> AlphaRefresh(r)
    ensures Stored(MergedAll(had, refreshes, window))
    ensures forall q :: q in had ==> q in MergedAll(had, refreshes, window)
  {
    hide Stored, Merged, AlphaOnly, Kept;
    if refreshes != [] {
      var last := refreshes[|refreshes| - 1];
      var before := MergedAll(had, refreshes[..|refreshes| - 1], window);
      RefreshesStore(had, refreshes[..|refreshes| - 1], window);
      StoredIsAlpha(before);
      assert last in refreshes;
      MergeReplacesNothing(before, last.rows, last.seenDay, window);
      assert forall q :: q in before ==> q in multiset(before);
      assert forall q :: q in multiset(Merged(before, last.rows, last.seenDay, window)) ==>
        q in Merged(before, last.rows, last.seenDay, window);
    }
  }

  /**
   Point-in-time stability. For a cache of Alpha Vantage quarters, no sequence
   of refreshes changes what the lookup returns for any date before them.
   */
  lemma {:induction false} RefreshesKeepHistory(had: seq<Quarter>, refreshes: seq<Refresh>, window: int, lag: int,
                                                d: int)
    requires Stored(had) && forall r :: r in refreshes ==> AlphaRefresh(r) && d < r.seenDay
    ensures Latest(MergedAll(had, refreshes, window), lag, d) == Latest(had, lag, d)
  {
    hide Stored, Merged, Latest, AlphaRefresh, AlphaOnly, Kept, PeriodsAscend, PeriodsDistinct;
    if refreshes != [] {
      var last := refreshes[|refreshes| - 1];
      var before := MergedAll(had, refreshes[..|refreshes| - 1], window);
      RefreshesKeepHistory(had, refreshes[..|refreshes| - 1], window, lag, d);
      RefreshesStore(had, refreshes[..|refreshes| - 1], window);
      StoredIsAlpha(before);
      assert last in refreshes;
      MergeSeenEarlier(before, last.rows, last.seenDay, window, lag, d);
    }
  }
}
