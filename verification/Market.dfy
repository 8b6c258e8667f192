/**
 Daily bars and the sessions they define. A ticker is identified by its place
 in alphabetical order, so sorting tickers by name is sorting them by number; a
 session is identified by its day number.
 */
module Market {
  import opened Basics

  type Ticker = int

  datatype Bar = Bar(date: int, open: real, high: real, low: real, close: real, volume: int)

  type Bars = map<Ticker, seq<Bar>>

  /** The bar a ticker printed on a session; a later duplicate replaces an earlier one. */
  function BarOn(bars: seq<Bar>, d: int): (r: Option<Bar>)
    ensures r.Some? ==> r.value in bars && r.value.date == d
    ensures r.None? ==> forall b :: b in bars ==> b.date != d
  {
    if bars == [] then
      None
    else
      var last := bars[|bars| - 1];
      if last.date == d then Some(last) else BarOn(bars[..|bars| - 1], d)
  }

  /** It is the last listed of its date. */
  lemma {:induction false} BarOnIsLast(bars: seq<Bar>, d: int, i: nat)
    requires i < |bars| && bars[i].date == d && forall k :: i < k < |bars| ==> bars[k].date != d
    ensures BarOn(bars, d) == Some(bars[i])
  {
    if i < |bars| - 1 {
      BarOnIsLast(bars[..|bars| - 1], d, i);
    }
  }

  /** Everything that printed on a session: the tickers that traded and their bars. */
  function Day(bars: Bars, d: int): map<Ticker, Bar> {
    map t | t in bars && BarOn(bars[t], d).Some? :: BarOn(bars[t], d).value
  }

  function SessionSet(bars: Bars): set<int> {
    set t, b | t in bars && b in bars[t] :: b.date
  }

  /** collect_sorted_dates: the union of all bar dates, ascending. */
  function Sessions(bars: Bars): (r: seq<int>)
    ensures Ascending(r)
    ensures forall d :: d in r <==> d in SessionSet(bars)
  {
    SortedInts(SessionSet(bars))
  }

  ghost predicate ByDate(bars: seq<Bar>) {
    forall i, j :: 0 <= i < j < |bars| ==> bars[i].date < bars[j].date
  }

  /** The bars dated on or before a session. */
  function UpTo(bars: seq<Bar>, d: int): (r: seq<Bar>)
    ensures forall b :: b in r <==> b in bars && b.date <= d
  {
    if bars == [] then
      []
    else
      var n := |bars| - 1;
      UpTo(bars[..n], d) + if bars[n].date <= d then [bars[n]] else []
  }

  function Truncate(bars: Bars, d: int): Bars {
    map t | t in bars :: UpTo(bars[t], d)
  }

  lemma {:induction false} BarOnUpTo(bars: seq<Bar>, d: int, cut: int)
    requires d <= cut
    ensures BarOn(UpTo(bars, cut), d) == BarOn(bars, d)
  {
    if bars == [] {
      assert UpTo(bars, cut) == [];
    } else {
      var n := |bars| - 1;
      BarOnUpTo(bars[..n], d, cut);
      var kept := UpTo(bars[..n], cut);
      if bars[n].date <= cut {
        assert UpTo(bars, cut) == kept + [bars[n]];
        assert (kept + [bars[n]])[..|kept|] == kept;
      } else {
        assert UpTo(bars, cut) == kept;
      }
    }
  }

  /** A day on or before the cut prints exactly the same bars from the truncated history. */
  lemma TruncatedDay(bars: Bars, d: int, cut: int)
    requires d <= cut
    ensures Day(Truncate(bars, cut), d) == Day(bars, d)
  {
    forall t | t in bars
      ensures BarOn(Truncate(bars, cut)[t], d) == BarOn(bars[t], d)
    {
      BarOnUpTo(bars[t], d, cut);
    }
  }

  /** How many leading entries of an ascending sequence are at most d. */
  function CountUpTo(s: seq<int>, d: int): (n: nat)
    requires Ascending(s)
    ensures n <= |s|
    ensures forall i :: 0 <= i < |s| ==> (s[i] <= d <==> i < n)
  {
    if s == [] then 0
    else
      var n := |s| - 1;
      assert forall i, j :: 0 <= i < j < n ==> s[..n][i] == s[i] && s[..n][j] == s[j];
      if s[n] <= d then |s| else
      var c := CountUpTo(s[..n], d);
      assert forall i :: 0 <= i < n ==> s[..n][i] == s[i];
      c
  }

  /** The sessions of a truncated history are the leading sessions of the full one. */
  lemma TruncatedSessions(bars: Bars, cut: int)
    ensures Sessions(Truncate(bars, cut)) == Sessions(bars)[..CountUpTo(Sessions(bars), cut)]
  {
    var all := Sessions(bars);
    var n := CountUpTo(all, cut);
    var kept := Truncate(bars, cut);
    forall x
      ensures x in Elements(all[..n]) <==> x in SessionSet(kept)
    {
      if x in all[..n] {
        var i :| 0 <= i < n && all[i] == x;
        assert x in Elements(all);
        var t, b: Bar :| t in bars && b in bars[t] && b.date == x;
        assert t in kept && b in kept[t];
      }
      if x in SessionSet(kept) {
        var t, b: Bar :| t in kept && b in kept[t] && b.date == x;
        assert b in bars[t];
        assert x in SessionSet(bars);
        assert x in Elements(all);
        var i :| 0 <= i < |all| && all[i] == x;
        assert all[..n][i] == x;
      }
    }
    assert Elements(Sessions(kept)) == Elements(all[..n]);
    AscendingUnique(Sessions(kept), all[..n]);
  }
}
