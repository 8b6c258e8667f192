/**
 What the symbol tables do to a series of bars, said field by field: which bars
 stay, when a correction applies, and what it leaves of each price.
 */
module BarMeaning {
  import opened Basics
  import opened Market
  import opened Costs
  import opened BarRepair

  /** A price is a factor below another, to a fiftieth of it. */
  predicate OffBy(factor: Positive, low: real, high: real) {
    low > 0.0 && 0.98 * factor * low <= high <= 1.02 * factor * low
  }

  lemma NearIs(factor: Positive, low: real, high: real)
    requires low > 0.0
    ensures Near(high / low, factor) <==> OffBy(factor, low, high)
  {
    var q := high / low;
    assert q * low == high;
    NearBounds(q, factor);
    assert Times(0.98, factor) == 0.98 * factor && Times(1.02, factor) == 1.02 * factor;
    TimesOrder(q, 0.98 * factor, low);
    TimesOrder(1.02 * factor, q, low);
    hide Near, Times;
  }

  // ---- A scale ----

  /** Prices up by the factor, volume down by it to a whole share. */
  ghost predicate ScaledBar(factor: Positive, b: Bar, r: Bar) {
    && r.date == b.date && r.open == b.open * factor && r.high == b.high * factor && r.low == b.low * factor
    && r.close == b.close * factor
    && -0.5 <= b.volume as real / factor - r.volume as real <= 0.5
  }

  /** The bars of a series split at a date, and the seam between them is off by the factor. */
  ghost predicate Seam(bars: seq<Bar>, before: int, factor: Positive, k: int) {
    && 0 < k < |bars| && (forall i :: 0 <= i < k ==> bars[i].date < before) && bars[k].date >= before
    && OffBy(factor, bars[k - 1].close, bars[k].open)
  }

  lemma BarScales(b: Bar, factor: Positive)
    ensures ScaledBar(factor, b, Rescaled(b, factor))
  {
  }

  lemma SeamIsSplit(bars: seq<Bar>, before: int, factor: Positive, k: int)
    ensures Seam(bars, before, factor, k) <==>
            k == FirstFrom(bars, before) && 0 < k < |bars| && Jumps(bars, k, factor)
  {
    if 0 < k < |bars| {
      OffByPositive(bars, k, factor);
      if bars[k - 1].close > 0.0 {
        NearIs(factor, bars[k - 1].close, bars[k].open);
      }
    }
    hide Near, OffBy;
  }

  /** The series once the bars before a seam are scaled: the seam is closed. */
  ghost predicate ScaledTo(bars: seq<Bar>, factor: Positive, k: int, r: seq<Bar>)
    requires 0 < k < |bars|
  {
    && |r| == |bars| && (forall i :: 0 <= i < k ==> ScaledBar(factor, bars[i], r[i]))
    && (forall i :: k <= i < |bars| ==> r[i] == bars[i])
    && 0.98 * r[k - 1].close <= r[k].open <= 1.02 * r[k - 1].close
  }

  lemma ScaleApplies(bars: seq<Bar>, before: int, factor: Positive, k: int)
    requires Seam(bars, before, factor, k)
    ensures ScaledTo(bars, factor, k, ScaledBefore(bars, before, factor))
  {
    SeamIsSplit(bars, before, factor, k);
    SeamCloses(factor, bars[k - 1].close, bars[k].open);
    hide Near, OffBy, FirstFrom, Rescaled, Jumps, Seam, ScaledBar;
    var r := ScaledBefore(bars, before, factor);
    forall i | 0 <= i < k
      ensures ScaledBar(factor, bars[i], r[i])
    {
      BarScales(bars[i], factor);
    }
    BarScales(bars[k - 1], factor);
    CloseScales(bars[k - 1], factor);
  }

  lemma CloseScales(b: Bar, factor: Positive)
    ensures Rescaled(b, factor).close == b.close * factor
  {
  }

  /**
   A scale applies exactly when the seam is off by its factor: then every bar
   before the seam is scaled, the others stand, and the close before the seam is
   within a fiftieth of the open after it. Otherwise nothing changes.
   */
  lemma ScaleMeans(bars: seq<Bar>, before: int, factor: Positive)
    ensures (forall k :: !Seam(bars, before, factor, k)) ==> ScaledBefore(bars, before, factor) == bars
    ensures forall k :: Seam(bars, before, factor, k) ==>
      0 < k < |bars| && ScaledTo(bars, factor, k, ScaledBefore(bars, before, factor))
  {
    hide Seam, ScaledTo, Jumps, FirstFrom;
    var split := FirstFrom(bars, before);
    SeamIsSplit(bars, before, factor, split);
    forall k | Seam(bars, before, factor, k)
      ensures 0 < k < |bars| && ScaledTo(bars, factor, k, ScaledBefore(bars, before, factor))
    {
      SeamIsSplit(bars, before, factor, k);
      ScaleApplies(bars, before, factor, k);
    }
  }

  lemma OffByPositive(bars: seq<Bar>, split: nat, factor: Positive)
    requires 0 < split < |bars|
    ensures OffBy(factor, bars[split - 1].close, bars[split].open) ==> bars[split - 1].close > 0.0
  {
  }

  lemma SeamCloses(factor: Positive, close: real, open: real)
    requires OffBy(factor, close, open)
    ensures 0.98 * (close * factor) <= open <= 1.02 * (close * factor)
  {
    assert 0.98 * factor * close == 0.98 * (close * factor) && 1.02 * factor * close == 1.02 * (close * factor);
  }

  // ---- A repair ----

  /**
   A field of a bar is repaired: the first bar of the day opens above zero and
   every named field is a factor below.
   */
  ghost predicate Broken(bars: seq<Bar>, day: int, fields: set<Field>, factor: Positive, k: int) {
    && 0 <= k < |bars| && bars[k].date == day && (forall i :: 0 <= i < k ==> bars[i].date != day)
    && bars[k].open > 0.0
    && (Field.Open in fields ==> OffBy(factor, bars[k].open, bars[k].open))
    && (High in fields ==> OffBy(factor, bars[k].high, bars[k].open))
    && (Low in fields ==> OffBy(factor, bars[k].low, bars[k].open))
    && (Close in fields ==> OffBy(factor, bars[k].close, bars[k].open))
  }

  function UpIf(named: bool, factor: Positive, x: real): real {
    if named then x * factor else x
  }

  /** Named fields up by the factor, the range stretched to hold open and close, everything else as it was. */
  ghost predicate FixedBar(fields: set<Field>, factor: Positive, b: Bar, r: Bar) {
    && r.date == b.date && r.volume == b.volume
    && r.open == UpIf(Field.Open in fields, factor, b.open) && r.close == UpIf(Close in fields, factor, b.close)
    && r.low <= r.open <= r.high && r.low <= r.close <= r.high
    && r.high >= UpIf(High in fields, factor, b.high) && r.low <= UpIf(Low in fields, factor, b.low)
    && (r.high == UpIf(High in fields, factor, b.high) || r.high == r.open || r.high == r.close)
    && (r.low == UpIf(Low in fields, factor, b.low) || r.low == r.open || r.low == r.close)
  }

  lemma FixedMeans(b: Bar, fields: set<Field>, factor: Positive)
    ensures FixedBar(fields, factor, b, Fixed(b, fields, factor))
  {
    RaisedMeans(b, Field.Open, fields, factor);
    RaisedMeans(b, High, fields, factor);
    RaisedMeans(b, Low, fields, factor);
    RaisedMeans(b, Close, fields, factor);
    hide Raised, UpIf;
  }

  lemma RaisedMeans(b: Bar, f: Field, fields: set<Field>, factor: Positive)
    ensures Raised(b, f, fields, factor) == UpIf(f in fields, factor, FieldOf(b, f))
  {
  }

  lemma GlitchedMeans(b: Bar, fields: set<Field>, factor: Positive)
    ensures Glitched(b, fields, factor) <==>
            && b.open > 0.0
            && (Field.Open in fields ==> OffBy(factor, b.open, b.open))
               && (High in fields ==> OffBy(factor, b.high, b.open))
            && (Low in fields ==> OffBy(factor, b.low, b.open)) && (Close in fields ==> OffBy(factor, b.close, b.open))
  {
    forall f: Field
      ensures FieldOf(b, f) > 0.0 && Near(b.open / FieldOf(b, f), factor) <==> OffBy(factor, FieldOf(b, f), b.open)
    {
      if FieldOf(b, f) > 0.0 {
        NearIs(factor, FieldOf(b, f), b.open);
      } else {
        NotBelow(factor, FieldOf(b, f), b.open);
      }
    }
    assert FieldOf(b, Field.Open) == b.open && FieldOf(b, High) == b.high && FieldOf(b, Low) == b.low
           && FieldOf(b, Close) == b.close;
    hide Near, OffBy, FieldOf;
  }

  lemma NotBelow(factor: Positive, low: real, high: real)
    requires low <= 0.0
    ensures !OffBy(factor, low, high)
  {
  }

  /** A repair applies exactly when the day's bar is broken so, and then to that bar alone. */
  lemma RepairMeans(bars: seq<Bar>, day: int, fields: set<Field>, factor: Positive)
    ensures (forall k :: !Broken(bars, day, fields, factor, k)) ==> RepairedBar(bars, day, fields, factor) == bars
    ensures forall k :: Broken(bars, day, fields, factor, k) ==>
      var r := RepairedBar(bars, day, fields, factor);
      && |r| == |bars| && FixedBar(fields, factor, bars[k], r[k])
      && forall i :: 0 <= i < |bars| && i != k ==> r[i] == bars[i]
  {
    hide Glitched, Fixed, OffBy, FixedBar;
    var at := IndexOn(bars, day);
    if at.Some? {
      GlitchedMeans(bars[at.value], fields, factor);
      FixedMeans(bars[at.value], fields, factor);
      assert Glitched(bars[at.value], fields, factor) ==> Broken(bars, day, fields, factor, at.value);
    }
    forall k | Broken(bars, day, fields, factor, k)
      ensures at == Some(k) && Glitched(bars[k], fields, factor)
    {
      assert bars[k] in bars;
      GlitchedMeans(bars[k], fields, factor);
    }
  }

  // ---- Which bars stay ----

  /** The bars of a series within a span of dates, in order. */
  function Within(bars: seq<Bar>, from: Option<int>, until: Option<int>): seq<Bar> {
    if bars == [] then []
    else
      var b := bars[|bars| - 1];
      Within(bars[..|bars| - 1], from, until)
      + if (from.Some? ==> b.date >= from.value) && (until.Some? ==> b.date < until.value) then [b] else []
  }

  lemma {:induction false} WithinTwice(bars: seq<Bar>, d: int, until: Option<int>)
    ensures From(Within(bars, None, until), d) == Within(bars, Some(d), until)
  {
    if bars != [] {
      var head, b := bars[..|bars| - 1], bars[|bars| - 1];
      WithinTwice(head, d, until);
      FromPush(Within(head, None, until), b, d);
      assert Within(head, None, until) + [] == Within(head, None, until);
      hide From;
    }
  }

  lemma FromPush(bars: seq<Bar>, b: Bar, d: int)
    ensures From(bars + [b], d) == From(bars, d) + if b.date >= d then [b] else []
  {
    assert (bars + [b])[..|bars|] == bars;
  }

  lemma {:induction false} BeforeIsWithin(bars: seq<Bar>, d: int)
    ensures Before(bars, d) == Within(bars, None, Some(d))
  {
    if bars != [] {
      BeforeIsWithin(bars[..|bars| - 1], d);
    }
  }

  lemma {:induction false} AllWithin(bars: seq<Bar>)
    ensures Within(bars, None, None) == bars
  {
    if bars != [] {
      AllWithin(bars[..|bars| - 1]);
      assert bars == bars[..|bars| - 1] + [bars[|bars| - 1]];
    }
  }

  /**
   The tables keep, of a name's bars and in their order, exactly those dated
   before its alias ends and from the day it has prices of its own; none when it
   never has.
   */
  lemma TablesKeep(ts: Tables, t: Ticker, bars: seq<Bar>)
    ensures Tabled(ts, t, bars)
            == if t in ts.unpriced && ts.unpriced[t].None? then []
               else Within(bars,
                           if t in ts.unpriced then ts.unpriced[t] else None, if t in ts.until then ts.until[t]
                               else None)
  {
    AllWithin(bars);
    if t in ts.until && ts.until[t].Some? {
      BeforeIsWithin(bars, ts.until[t].value);
    }
    if t in ts.unpriced && ts.unpriced[t].Some? {
      WithinTwice(bars, ts.unpriced[t].value, if t in ts.until then ts.until[t] else None);
    }
    hide Within, Before, From;
  }
}
