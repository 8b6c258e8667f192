/**
 What a strategy is shown. After every session the history kept for a ticker is
 exactly its bars dated up to that session, and its last close is theirs.
 */
module ReplayHistory {
  import opened Basics
  import opened Market
  import opened Costs
  import opened Replay
  import opened ReplayBooks
  import opened ReplayAccounts

  /** The last close a ticker is known by is that of the last bar it has shown. */
  ghost predicate ClosesFollow(b: Book) {
    && b.lastClose.Keys <= b.history.Keys
    && forall t :: t in b.history ==>
         && (t in b.lastClose <==> b.history[t] != [])
         && (t in b.lastClose ==> b.lastClose[t] == b.history[t][|b.history[t]| - 1].close)
  }

  lemma {:induction false} WriteOffsHistory(rules: Rules, d: int, names: seq<Ticker>, n: nat, b: Book)
    requires n <= |names|
    ensures
      var c := WriteOffs(rules, d, names, n, b);
      c.history == b.history && c.lastClose == b.lastClose
  {
    hide ClosedTrades, SeqSum, SoldEvents, ExitReason, Without;
    if n > 0 {
      WriteOffsHistory(rules, d, names, n - 1, b);
    }
  }

  lemma {:induction false} WorkExitsHistory(rules: Rules, day: map<Ticker, Bar>, order: seq<Ticker>, n: nat, b: Book)
    requires n <= |order|
    ensures
      var c := WorkExits(rules, day, order, n, b);
      c.history == b.history && c.lastClose == b.lastClose
  {
    hide ClosedTrades, SeqSum, SoldEvents, Without;
    if n > 0 {
      WorkExitsHistory(rules, day, order, n - 1, b);
    }
  }

  lemma {:induction false} WorkEntriesHistory(rules: Rules, day: map<Ticker, Bar>, n: nat, b: Book)
    requires n <= |rules.tickers|
    ensures
      var c := WorkEntries(rules, day, n, b);
      c.history == b.history && c.lastClose == b.lastClose
  {
    hide TryFillLimitEntry;
    if n > 0 {
      WorkEntriesHistory(rules, day, n - 1, b);
    }
  }

  /** A session appends today's bar to the history of every name that printed. */
  lemma BeforeFlowsHistory(rules: Rules, d: int, day: map<Ticker, Bar>, b: Book)
    ensures
      var c, r := BeforeFlows(rules, d, day, b), Recorded(day, b);
      c.history == r.history && c.lastClose == r.lastClose
  {
    hide WriteOffs, WorkExits, WorkEntries, Gate, Names;
    var names := Names(rules);
    WriteOffsHistory(rules, d, names, |names|, b.(stale := Aged(day, b.stale)));
    var w := AfterWriteOffs(rules, d, day, b);
    WorkExitsHistory(rules, day, w.exitOrder, |w.exitOrder|, w);
    WorkEntriesHistory(rules, day, |rules.tickers|, AfterExits(rules, d, day, b));
    var e := Expired(AfterEntries(rules, d, day, b));
    GateSame(rules, d, names, |names|, Recorded(day, e));
  }

  lemma StepHistory(rules: Rules, strategy: Strategy, basis: Option<DatedSum>, d: int, day: map<Ticker, Bar>,
                    st: State, next: State)
    requires Distinct(rules.tickers) && day.Keys <= Elements(rules.tickers) && Sound(rules, st.book)
    requires StepDay(rules, strategy, basis, d, day, st) == Success(next)
    ensures
      var r := Recorded(day, st.book);
      next.book.history == r.history && next.book.lastClose == r.lastClose
  {
    hide Sound, Distinct, BeforeFlows, Recorded, ApplyFlows, AfterDecisions, StepDay, MarksCurrent;
    BeforeFlowsHistory(rules, d, day, st.book);
    StepStages(rules, strategy, basis, d, day, st, next);
  }

  lemma LastBar(bars: seq<Bar>, d: int)
    requires bars != []
    ensures
      var head, own := bars[..|bars| - 1], bars[|bars| - 1];
      && UpTo(bars, d) == UpTo(head, d) + (if own.date <= d then [own] else [])
      && BarOn(bars, d) == if own.date == d then Some(own) else BarOn(head, d)
  {
  }

  ghost predicate NoneBetween(bars: seq<Bar>, last: int, d: int) {
    forall i :: 0 <= i < |bars| ==> bars[i].date <= last || bars[i].date >= d
  }

  lemma HeadByDate(bars: seq<Bar>, last: int, d: int)
    requires ByDate(bars) && bars != [] && NoneBetween(bars, last, d)
    ensures
      var head, own := bars[..|bars| - 1], bars[|bars| - 1];
      && ByDate(head) && NoneBetween(head, last, d) && (own.date <= last || own.date >= d)
      && forall i :: 0 <= i < |head| ==> head[i].date < own.date
  {
  }

  /** With no bar dated after the first date and before the second, moving on adds at most the bar of the second. */
  lemma {:induction false} UpToNext(bars: seq<Bar>, last: int, d: int)
    requires ByDate(bars) && last < d && NoneBetween(bars, last, d)
    ensures UpTo(bars, d) == UpTo(bars, last) + if BarOn(bars, d).Some? then [BarOn(bars, d).value] else []
  {
    hide UpTo, BarOn, ByDate, NoneBetween;
    if bars == [] {
      NoBars(last);
      NoBars(d);
    } else {
      var n := |bars| - 1;
      var head, own := bars[..n], bars[n];
      HeadByDate(bars, last, d);
      UpToNext(head, last, d);
      LastBar(bars, d);
      LastBar(bars, last);
      if own.date <= d {
        NoneOn(head, d);
      }
    }
  }

  lemma NoneOn(bars: seq<Bar>, d: int)
    requires forall i :: 0 <= i < |bars| ==> bars[i].date != d
    ensures BarOn(bars, d).None?
  {
  }

  lemma NoBars(d: int)
    ensures UpTo([], d) == [] && BarOn([], d) == None
  {
  }

  lemma {:induction false} UpToNone(bars: seq<Bar>, d: int)
    requires forall b :: b in bars ==> b.date > d
    ensures UpTo(bars, d) == []
  {
    if bars != [] {
      assert bars[|bars| - 1] in bars;
      UpToNone(bars[..|bars| - 1], d);
    }
  }

  /** The bars a ticker printed on some sessions, one a session. */
  function Printed(listed: seq<Bar>, dates: seq<int>): seq<Bar> {
    if dates == [] then []
    else
      var m := |dates| - 1;
      Printed(listed, dates[..m]) + if BarOn(listed, dates[m]).Some? then [BarOn(listed, dates[m]).value] else []
  }

  /** What is shown of a ticker once a number of sessions have printed. */
  function ShownAfter(bars: Bars, t: Ticker, n: nat): seq<Bar>
    requires t in bars && n <= |Sessions(bars)|
  {
    Printed(bars[t], Sessions(bars)[..n])
  }

  /** The history kept after a number of sessions. */
  ghost predicate Remembers(bars: Bars, n: nat, b: Book)
    requires n <= |Sessions(bars)|
  {
    b.history.Keys == bars.Keys && forall t :: t in bars ==> b.history[t] == ShownAfter(bars, t, n)
  }

  /** The bars shown by the end of a session. */
  ghost predicate Shown(rules: Rules, bars: Bars, d: int, b: Book)
    requires Elements(rules.tickers) == bars.Keys
  {
    b.history.Keys == bars.Keys && forall t :: t in bars ==> b.history[t] == UpTo(bars[t], d)
  }

  /** Every bar date of a ticker is a session. */
  lemma BarsAreSessions(bars: Bars, t: Ticker, n: nat)
    requires t in bars && 0 < n <= |Sessions(bars)|
    ensures forall b :: b in bars[t] ==>
      b.date >= Sessions(bars)[n - 1] || (n > 1 && b.date <= Sessions(bars)[n - 2])
  {
    var s := Sessions(bars);
    forall b | b in bars[t]
      ensures b.date >= s[n - 1] || (n > 1 && b.date <= s[n - 2])
    {
      assert b.date in SessionSet(bars);
      var k :| 0 <= k < |s| && s[k] == b.date;
    }
  }

  /** With the bars in date order what is shown is every bar dated up to the last session. */
  lemma {:induction false} ShownIsUpTo(bars: Bars, t: Ticker, n: nat)
    requires t in bars && ByDate(bars[t]) && 0 < n <= |Sessions(bars)|
    ensures ShownAfter(bars, t, n) == UpTo(bars[t], Sessions(bars)[n - 1])
  {
    hide Sessions, ByDate, UpTo, BarOn;
    var d := Sessions(bars)[n - 1];
    ShownNext(bars, t, n);
    BarsAreSessions(bars, t, n);
    assert forall i :: 0 <= i < |bars[t]| ==> bars[t][i] in bars[t];
    if n > 1 {
      ShownIsUpTo(bars, t, n - 1);
      UpToNext(bars[t], Sessions(bars)[n - 2], d);
    } else {
      UpToNone(bars[t], d - 1);
      UpToNext(bars[t], d - 1, d);
    }
  }

  lemma ShownNext(bars: Bars, t: Ticker, n: nat)
    requires t in bars && 0 < n <= |Sessions(bars)|
    ensures
      var bar := BarOn(bars[t], Sessions(bars)[n - 1]);
      ShownAfter(bars, t, n) == ShownAfter(bars, t, n - 1) + if bar.Some? then [bar.value] else []
    ensures n == 1 ==> ShownAfter(bars, t, 0) == []
  {
    hide Sessions, BarOn;
    assert Sessions(bars)[..n][..n - 1] == Sessions(bars)[..n - 1];
  }

  lemma RecordedPrints(bars: Bars, n: nat, b: Book)
    requires 0 < n <= |Sessions(bars)| && Remembers(bars, n - 1, b)
    ensures Remembers(bars, n, Recorded(Day(bars, Sessions(bars)[n - 1]), b))
  {
    hide Sessions, ShownAfter, BarOn;
    forall t | t in bars
      ensures ShownAfter(bars, t, n)
              == Recorded(Day(bars, Sessions(bars)[n - 1]), b).history[t]
    {
      ShownNext(bars, t, n);
    }
  }

  lemma RecordedCloses(day: map<Ticker, Bar>, b: Book)
    requires ClosesFollow(b) && day.Keys <= b.history.Keys
    ensures ClosesFollow(Recorded(day, b))
  {
  }

  lemma CloseKept(b: Book, c: Book)
    requires b.history == c.history && b.lastClose == c.lastClose
    ensures ClosesFollow(b) <==> ClosesFollow(c)
  {
  }

  lemma HistoryKept(bars: Bars, n: nat, b: Book, c: Book)
    requires n <= |Sessions(bars)| && b.history == c.history
    ensures Remembers(bars, n, b) <==> Remembers(bars, n, c)
  {
  }

  /**
   Whatever order the bars were given in, the history kept after any session is
   what each ticker has printed, one bar a session, and its last close is the
   close of the last.
   */
  lemma {:induction false} HistoryIsPrinted(rules: Rules, strategy: Strategy, plan: Plan, bars: Bars, n: nat, st: State)
    requires Universe(rules, bars) && n <= |Sessions(bars)|
    requires RunTo(rules, strategy, plan, bars, n) == Success(st)
    ensures Remembers(bars, n, st.book) && ClosesFollow(st.book)
  {
    hide StepDay, Balanced, Day, Recorded, Sound, Remembers, ClosesFollow;
    if n == 0 {
      StartPrints(rules, plan, bars);
    } else {
      var prev, d := RunTo(rules, strategy, plan, bars, n - 1).value, Sessions(bars)[n - 1];
      HistoryIsPrinted(rules, strategy, plan, bars, n - 1, prev);
      RunBalanced(rules, strategy, plan, bars, n - 1, prev);
      BalancedIsSound(rules, prev);
      SoundHistory(rules, prev.book);
      DayInUniverse(rules, bars, d);
      StepHistory(rules, strategy, plan.basis, d, Day(bars, d), prev, st);
      RecordedPrints(bars, n, prev.book);
      RecordedCloses(Day(bars, d), prev.book);
      HistoryKept(bars, n, Recorded(Day(bars, d), prev.book), st.book);
      CloseKept(Recorded(Day(bars, d), prev.book), st.book);
    }
  }

  lemma SoundHistory(rules: Rules, b: Book)
    requires Sound(rules, b)
    ensures b.history.Keys == Elements(rules.tickers)
  {
  }

  lemma StartPrints(rules: Rules, plan: Plan, bars: Bars)
    requires Universe(rules, bars)
    ensures Remembers(bars, 0, Start(rules, plan).book) && ClosesFollow(Start(rules, plan).book)
  {
  }

  /**
   After any session the history of each ticker is its bars dated up to that
   session, no more and no fewer, and its last close is the close of the last.
   */
  lemma HistoryIsBarsSoFar(rules: Rules, strategy: Strategy, plan: Plan, bars: Bars, n: nat, st: State)
    requires Universe(rules, bars) && n <= |Sessions(bars)| && forall t :: t in bars ==> ByDate(bars[t])
    requires RunTo(rules, strategy, plan, bars, n) == Success(st)
    ensures n > 0 ==> Shown(rules, bars, Sessions(bars)[n - 1], st.book)
    ensures n == 0 ==> forall t :: t in st.book.history ==> st.book.history[t] == []
    ensures ClosesFollow(st.book)
  {
    hide RunTo, ByDate, Sessions, ClosesFollow, UpTo;
    HistoryIsPrinted(rules, strategy, plan, bars, n, st);
    hide ShownAfter;
    forall t | t in bars && n > 0
      ensures st.book.history[t] == UpTo(bars[t], Sessions(bars)[n - 1])
    {
      ShownIsUpTo(bars, t, n);
    }
    forall t | t in bars && n == 0
      ensures ShownAfter(bars, t, n) == []
    {
      NothingShown(bars, t);
    }
  }

  lemma NothingShown(bars: Bars, t: Ticker)
    requires t in bars
    ensures ShownAfter(bars, t, 0) == []
  {
  }
}
