/**
 Repairs of split artefacts in daily bars. Each checks that its glitch is present
 before it applies; whether that makes it idempotent depends on its factor, and
 exactly which factors do is proved here.
 */
module BarRepair {
  import opened Basics
  import opened Market
  import opened Costs

  datatype Field = Open | High | Low | Close

  datatype Correction =
    | ScaleBefore(before: int, factor: Positive)
    | RepairBar(day: int, fields: set<Field>, factor: Positive)

  const TOLERANCE := 0.02

  predicate Near(observed: real, expected: Positive) {
    Abs(observed / expected - 1.0) <= TOLERANCE
  }

  function FieldOf(b: Bar, f: Field): real {
    match f
    case Open => b.open
    case High => b.high
    case Low => b.low
    case Close => b.close
  }

  // ---- Scaling everything before a split ----

  /** The first bar on or after a date. */
  function FirstFrom(bars: seq<Bar>, d: int): (i: nat)
    ensures i <= |bars|
    ensures i < |bars| ==> bars[i].date >= d
    ensures forall k :: 0 <= k < i ==> bars[k].date < d
  {
    if bars == [] || bars[0].date >= d then 0
    else
      var rest := FirstFrom(bars[1..], d);
      assert forall k :: 1 <= k < rest + 1 ==> bars[k] == bars[1..][k - 1];
      rest + 1
  }

  function Rescaled(b: Bar, factor: Positive): Bar {
    Bar(b.date, Times(b.open, factor), Times(b.high, factor), Times(b.low, factor), Times(b.close, factor),
        RoundHalfEven(b.volume as real / factor))
  }

  function RescaledAll(bars: seq<Bar>, factor: Positive): (r: seq<Bar>)
    ensures |r| == |bars| && forall i :: 0 <= i < |r| ==> r[i] == Rescaled(bars[i], factor)
  {
    seq(|bars|, i requires 0 <= i < |bars| => Rescaled(bars[i], factor))
  }

  /** The series still jumps by the factor where the split went ex. */
  predicate Jumps(bars: seq<Bar>, split: nat, factor: Positive)
    requires 0 < split < |bars|
  {
    bars[split - 1].close > 0.0 && Near(bars[split].open / bars[split - 1].close, factor)
  }

  function ScaledBefore(bars: seq<Bar>, before: int, factor: Positive): seq<Bar> {
    var split := FirstFrom(bars, before);
    if split == |bars| || split == 0 then bars
    else if !Jumps(bars, split, factor) then bars
    else RescaledAll(bars[..split], factor) + bars[split..]
  }

  // ---- Repairing one bar ----

  /** Every named field is still the factor below the open. */
  predicate Glitched(b: Bar, fields: set<Field>, factor: Positive) {
    b.open > 0.0 && forall f :: f in fields ==> FieldOf(b, f) > 0.0 && Near(b.open / FieldOf(b, f), factor)
  }

  function Raised(b: Bar, f: Field, fields: set<Field>, factor: Positive): real {
    if f in fields then Times(FieldOf(b, f), factor) else FieldOf(b, f)
  }

  function Fixed(b: Bar, fields: set<Field>, factor: Positive): Bar {
    var open, close := Raised(b, Open, fields, factor), Raised(b, Close, fields, factor);
    Bar(b.date, open, Max(Max(Raised(b, High, fields, factor), open), close),
        Min(Min(Raised(b, Low, fields, factor), open), close), close, b.volume)
  }

  function IndexOn(bars: seq<Bar>, d: int): (r: Option<nat>)
    ensures r.Some? ==> r.value < |bars| && bars[r.value].date == d && forall k :: 0 <= k < r.value ==>
      bars[k].date != d
    ensures r.None? ==> forall b :: b in bars ==> b.date != d
  {
    if bars == [] then None
    else if bars[0].date == d then Some(0)
    else
      var rest := IndexOn(bars[1..], d);
      assert rest.Some? ==> forall k :: 1 <= k < rest.value + 1 ==> bars[k] == bars[1..][k - 1];
      if rest.Some? then Some(rest.value + 1) else None
  }

  function RepairedBar(bars: seq<Bar>, day: int, fields: set<Field>, factor: Positive): seq<Bar> {
    var i := IndexOn(bars, day);
    if i.None? then bars
    else if !Glitched(bars[i.value], fields, factor) then bars
    else bars[..i.value] + [Fixed(bars[i.value], fields, factor)] + bars[i.value + 1..]
  }

  /** correct_bars for a ticker's own correction. */
  function Corrected(c: Correction, bars: seq<Bar>): seq<Bar> {
    match c
    case ScaleBefore(before, factor) => ScaledBefore(bars, before, factor)
    case RepairBar(day, fields, factor) => RepairedBar(bars, day, fields, factor)
  }

  // ---- What a correction keeps ----

  /** A correction changes neither how many bars there are nor their dates. */
  lemma CorrectionKeepsDates(c: Correction, bars: seq<Bar>)
    ensures |Corrected(c, bars)| == |bars|
    ensures forall i :: 0 <= i < |bars| ==> Corrected(c, bars)[i].date == bars[i].date
  {
    hide Near, Times, Jumps, Glitched, Raised;
  }

  /** A repaired bar is a proper one: its low is at most, and its high at least, its open and its close. */
  lemma FixedIsProper(b: Bar, fields: set<Field>, factor: Positive)
    ensures
      var r := Fixed(b, fields, factor);
      r.low <= r.open <= r.high && r.low <= r.close <= r.high
  {
  }

  // ---- Idempotence of a scale ----

  /** The factors at which the series can still seem to jump after it was scaled. */
  predicate ScaleRepeats(factor: Positive) {
    factor != 1.0 && 49.0 / 51.0 <= factor <= 51.0 / 49.0
  }

  lemma NearBounds(x: real, factor: Positive)
    ensures Near(x, factor) <==> Times(0.98, factor) <= x <= Times(1.02, factor)
  {
    var q := x / factor;
    assert q * factor == x;
    if q >= 0.98 {
      assert q * factor >= 0.98 * factor;
    } else {
      assert q * factor < 0.98 * factor;
    }
    if q <= 1.02 {
      assert q * factor <= 1.02 * factor;
    } else {
      assert q * factor > 1.02 * factor;
    }
  }

  lemma RatioScaled(open: real, close: real, factor: Positive)
    requires close > 0.0
    ensures Times(close, factor) > 0.0
    ensures Times(open / Times(close, factor), factor) == open / close
  {
    var c := close * factor;
    assert c > 0.0;
    assert (open / c) * c == open;
    assert ((open / c) * factor) * close == open;
  }

  /** Scaled once, the seam jumps again only at a factor close to one. */
  lemma SeamSettles(open: real, close: real, factor: Positive)
    requires close > 0.0 && Near(open / close, factor) && Near(open / Times(close, factor), factor)
    ensures 49.0 / 51.0 <= factor <= 51.0 / 49.0
  {
    hide Near;
    var x := open / Times(close, factor);
    RatioScaled(open, close, factor);
    NearBounds(Times(x, factor), factor);
    NearBounds(x, factor);
    OnceNear(x, factor);
  }

  lemma OnceNear(x: real, factor: Positive)
    requires Times(0.98, factor) <= Times(x, factor) <= Times(1.02, factor)
    requires Times(0.98, factor) <= x <= Times(1.02, factor)
    ensures 49.0 / 51.0 <= factor <= 51.0 / 49.0
  {
    KeepsOrder(x, 0.98, factor);
    KeepsOrder(1.02, x, factor);
    hide Times;
    assert 0.98 <= x <= 1.02;
    assert Times(0.98, factor) == 0.98 * factor && Times(1.02, factor) == 1.02 * factor by {
      ByHundredths(factor);
    }
  }

  lemma KeepsOrder(x: real, y: real, factor: Positive)
    ensures x < y <==> Times(x, factor) < Times(y, factor)
  {
    TimesOrder(x, y, factor);
  }

  lemma ByHundredths(factor: Positive)
    ensures Times(0.98, factor) == 0.98 * factor && Times(1.02, factor) == 1.02 * factor
  {
  }

  lemma UnitScale(bars: seq<Bar>, factor: Positive)
    requires factor == 1.0
    ensures RescaledAll(bars, factor) == bars
  {
    forall i | 0 <= i < |bars|
      ensures Rescaled(bars[i], factor) == bars[i]
    {
      assert bars[i].volume as real / factor == bars[i].volume as real;
    }
  }

  lemma SameSplit(bars: seq<Bar>, scaled: seq<Bar>, before: int)
    requires |scaled| == |bars| && forall i :: 0 <= i < |bars| ==> scaled[i].date == bars[i].date
    ensures FirstFrom(scaled, before) == FirstFrom(bars, before)
  {
    var i, j := FirstFrom(bars, before), FirstFrom(scaled, before);
    assert i < |bars| ==> scaled[i].date >= before;
    assert j < |bars| ==> bars[j].date >= before;
  }

  lemma ScaleSettles(bars: seq<Bar>, before: int, factor: Positive)
    requires !ScaleRepeats(factor)
    ensures ScaledBefore(ScaledBefore(bars, before, factor), before, factor) == ScaledBefore(bars, before, factor)
  {
    hide Near, Times, Rescaled;
    var split := FirstFrom(bars, before);
    if 0 < split < |bars| && Jumps(bars, split, factor) {
      var scaled := ScaledBefore(bars, before, factor);
      assert scaled == RescaledAll(bars[..split], factor) + bars[split..];
      CorrectionKeepsDates(ScaleBefore(before, factor), bars);
      SameSplit(bars, scaled, before);
      assert scaled[split] == bars[split] && scaled[split - 1] == Rescaled(bars[split - 1], factor);
      SeamAfter(bars[split - 1], bars[split], factor);
      if Jumps(scaled, split, factor) {
        UnitScale(scaled[..split], factor);
        assert scaled == scaled[..split] + scaled[split..];
      }
    }
  }

  lemma SeamAfter(last: Bar, first: Bar, factor: Positive)
    requires last.close > 0.0 && Near(first.open / last.close, factor)
    ensures Rescaled(last, factor).close > 0.0
    ensures Near(first.open / Rescaled(last, factor).close, factor) ==> 49.0 / 51.0 <= factor <= 51.0 / 49.0
  {
    RatioScaled(first.open, last.close, factor);
    hide Near;
    if Near(first.open / Times(last.close, factor), factor) {
      SeamSettles(first.open, last.close, factor);
    }
  }

  /** Two bars whose jump survives the scaling. */
  function StubbornPair(before: int, factor: Positive): seq<Bar> {
    var x := if factor > 1.0 then 1.02 else 0.98;
    [Bar(before - 1, 1.0, 1.0, 1.0, 1.0, 0), Bar(before, Times(x, factor), 1.0, 1.0, 1.0, 0)]
  }

  lemma StubbornJump(factor: Positive)
    requires ScaleRepeats(factor)
    ensures
      var x := if factor > 1.0 then 1.02 else 0.98;
      Near(Times(x, factor) / 1.0, factor) && Near(Times(x, factor) / Times(1.0, factor), factor)
  {
    var x := if factor > 1.0 then 1.02 else 0.98;
    assert Times(x, factor) / 1.0 == Times(x, factor);
    assert Times(1.0, factor) == factor;
    assert Times(x, factor) / factor == x;
    NearBounds(Times(x, factor), factor);
    NearBounds(x, factor);
  }

  lemma ScaleTwiceDiffers(before: int, factor: Positive)
    requires ScaleRepeats(factor)
    ensures
      var bars := StubbornPair(before, factor);
      ScaledBefore(ScaledBefore(bars, before, factor), before, factor) != ScaledBefore(bars, before, factor)
  {
    var bars := StubbornPair(before, factor);
    StubbornJump(factor);
    assert FirstFrom(bars[1..], before) == 0;
    assert FirstFrom(bars, before) == 1;
    var once := ScaledBefore(bars, before, factor);
    hide Near;
    assert Jumps(bars, 1, factor);
    assert once == RescaledAll(bars[..1], factor) + bars[1..];
    CorrectionKeepsDates(ScaleBefore(before, factor), bars);
    SameSplit(bars, once, before);
    assert once[0] == Rescaled(bars[0], factor) && once[1] == bars[1];
    assert Jumps(once, 1, factor);
    var twice := ScaledBefore(once, before, factor);
    assert twice[0] == Rescaled(once[0], factor);
    assert once[0].close == Times(1.0, factor) == factor;
    assert twice[0].close == Times(factor, factor);
    assert factor * factor != factor;
  }

  /**
   A scale correction is idempotent on every bar series just when its factor is
   one, or lies outside the range in which a scaled seam can still look like a
   jump (49/51 to 51/49, the ratio of the tolerance's edges).
   */
  lemma ScaleIdempotent(before: int, factor: Positive)
    ensures (forall bars: seq<Bar> ::
               ScaledBefore(ScaledBefore(bars, before, factor), before, factor) == ScaledBefore(bars, before, factor))
            <==> !ScaleRepeats(factor)
  {
    hide ScaledBefore, ScaleRepeats;
    if ScaleRepeats(factor) {
      ScaleTwiceDiffers(before, factor);
    } else {
      forall bars: seq<Bar>
        ensures ScaledBefore(ScaledBefore(bars, before, factor), before, factor) == ScaledBefore(bars, before, factor)
      {
        ScaleSettles(bars, before, factor);
      }
    }
  }

  // ---- Idempotence of a bar repair ----

  /** The factors at which a bar can still seem glitched after it was repaired, given the fields repaired. */
  predicate RepairRepeats(fields: set<Field>, factor: Positive) {
    && fields != {} && factor != 1.0
    && (if Open in fields || Low in fields then 50.0 / 51.0 else 49.0 / 51.0) <= factor
    && factor <= if Open in fields || High in fields then 50.0 / 49.0 else 51.0 / 49.0
  }

  lemma UnitTimes(x: real, factor: Positive)
    requires factor == 1.0
    ensures Times(x, factor) == x
  {
  }

  lemma Grows(x: real, factor: Positive)
    requires x > 0.0
    ensures factor > 1.0 ==> Times(x, factor) > x
    ensures factor < 1.0 ==> Times(x, factor) < x
  {
  }

  /** Nothing is left to clamp, and nothing to scale. */
  lemma PlainSettles(b: Bar, fields: set<Field>, factor: Positive)
    requires fields == {} || factor == 1.0
    ensures Fixed(Fixed(b, fields, factor), fields, factor) == Fixed(b, fields, factor)
  {
    var r := Fixed(b, fields, factor);
    UnitField(r, Open, fields, factor);
    UnitField(r, High, fields, factor);
    UnitField(r, Low, fields, factor);
    UnitField(r, Close, fields, factor);
    FixedIsProper(b, fields, factor);
  }

  lemma UnitField(b: Bar, f: Field, fields: set<Field>, factor: Positive)
    requires fields == {} || factor == 1.0
    ensures Raised(b, f, fields, factor) == FieldOf(b, f)
  {
    if factor == 1.0 {
      UnitTimes(FieldOf(b, f), factor);
    }
  }

  /** A ratio of at most one is near the factor only when the factor is at most 50/49, and likewise below. */
  lemma NearOne(open: real, level: real, factor: Positive)
    requires open > 0.0 && level > 0.0 && Near(open / level, factor)
    ensures level >= open ==> factor <= 50.0 / 49.0
    ensures level <= open ==> factor >= 50.0 / 51.0
  {
    var q := open / level;
    NearBounds(q, factor);
    assert q * level == open;
    assert 0.98 * factor <= q <= 1.02 * factor;
    hide Near;
    TimesOrder(1.0, q, level);
    TimesOrder(q, 1.0, level);
  }

  lemma OpenFieldNear(b: Bar, fields: set<Field>, factor: Positive)
    requires Glitched(b, fields, factor) && Open in fields
    ensures 50.0 / 51.0 <= factor <= 50.0 / 49.0
  {
    assert FieldOf(b, Open) > 0.0 && Near(b.open / FieldOf(b, Open), factor);
    NearOne(b.open, b.open, factor);
  }

  lemma CloseSettles(b: Bar, fields: set<Field>, factor: Positive)
    requires Open !in fields && Close in fields
    requires Glitched(b, fields, factor) && Glitched(Fixed(b, fields, factor), fields, factor)
    ensures 49.0 / 51.0 <= factor <= 51.0 / 49.0
  {
    var r := Fixed(b, fields, factor);
    assert FieldOf(b, Close) > 0.0 && Near(b.open / FieldOf(b, Close), factor);
    assert FieldOf(r, Close) > 0.0 && Near(r.open / FieldOf(r, Close), factor);
    hide Near, Times;
    SeamSettles(b.open, b.close, factor);
  }

  lemma HighLowNear(b: Bar, fields: set<Field>, factor: Positive)
    requires Open !in fields && Glitched(b, fields, factor) && Glitched(Fixed(b, fields, factor), fields, factor)
    ensures High in fields ==> factor <= 50.0 / 49.0
    ensures Low in fields ==> factor >= 50.0 / 51.0
  {
    var r := Fixed(b, fields, factor);
    FixedIsProper(b, fields, factor);
    hide Near;
    if High in fields {
      assert FieldOf(r, High) > 0.0 && Near(r.open / FieldOf(r, High), factor);
      NearOne(r.open, r.high, factor);
    }
    if Low in fields {
      assert FieldOf(r, Low) > 0.0 && Near(r.open / FieldOf(r, Low), factor);
      NearOne(r.open, r.low, factor);
    }
  }

  lemma HighSettles(b: Bar, factor: Positive)
    requires Glitched(b, {High}, factor) && Glitched(Fixed(b, {High}, factor), {High}, factor)
    requires factor < 49.0 / 51.0
    ensures Fixed(Fixed(b, {High}, factor), {High}, factor) == Fixed(b, {High}, factor)
  {
    var r := Fixed(b, {High}, factor);
    assert FieldOf(b, High) > 0.0 && Near(b.open / FieldOf(b, High), factor);
    assert FieldOf(r, High) > 0.0 && Near(r.open / FieldOf(r, High), factor);
    Grows(r.high, factor);
    hide Near, Times;
    if r.high == Times(b.high, factor) {
      SeamSettles(b.open, b.high, factor);
    }
  }

  lemma LowSettles(b: Bar, factor: Positive)
    requires Glitched(b, {Low}, factor) && Glitched(Fixed(b, {Low}, factor), {Low}, factor)
    requires factor > 51.0 / 49.0
    ensures Fixed(Fixed(b, {Low}, factor), {Low}, factor) == Fixed(b, {Low}, factor)
  {
    var r := Fixed(b, {Low}, factor);
    assert FieldOf(b, Low) > 0.0 && Near(b.open / FieldOf(b, Low), factor);
    assert FieldOf(r, Low) > 0.0 && Near(r.open / FieldOf(r, Low), factor);
    Grows(r.low, factor);
    hide Near, Times;
    if r.low == Times(b.low, factor) {
      SeamSettles(b.open, b.low, factor);
    }
  }

  /** Outside those factors a repaired bar is left alone, or repaired again to itself. */
  lemma RepairSettles(b: Bar, fields: set<Field>, factor: Positive)
    requires !RepairRepeats(fields, factor)
    requires Glitched(b, fields, factor) && Glitched(Fixed(b, fields, factor), fields, factor)
    ensures Fixed(Fixed(b, fields, factor), fields, factor) == Fixed(b, fields, factor)
  {
    hide Near, Times, Glitched, Fixed;
    if fields == {} || factor == 1.0 {
      PlainSettles(b, fields, factor);
    } else if Open in fields {
      OpenFieldNear(b, fields, factor);
    } else {
      HighLowNear(b, fields, factor);
      if Close in fields {
        CloseSettles(b, fields, factor);
      } else if High in fields {
        assert Low in fields || fields == {High} by {
          OnlyField(fields, High, Low);
        }
        if fields == {High} {
          HighSettles(b, factor);
        }
      } else {
        OnlyField(fields, Low, High);
        LowSettles(b, factor);
      }
    }
  }

  lemma OnlyField(fields: set<Field>, f: Field, g: Field)
    requires Open !in fields && Close !in fields && fields != {} && f != g && {f, g} == {High, Low}
    ensures g !in fields ==> fields == {f}
  {
    assert f in {High, Low} && g in {High, Low};
    forall x | x in fields
      ensures x == f || x == g
    {
    }
    if g !in fields {
      assert (forall y :: y !in fields) ==> fields == {};
    }
  }

  lemma SameIndex(bars: seq<Bar>, fixed: seq<Bar>, day: int)
    requires |fixed| == |bars| && forall i :: 0 <= i < |bars| ==> fixed[i].date == bars[i].date
    ensures IndexOn(fixed, day) == IndexOn(bars, day)
  {
    var i, j := IndexOn(bars, day), IndexOn(fixed, day);
    if i.Some? {
      assert fixed[i.value] in fixed;
    }
    if j.Some? {
      assert bars[j.value] in bars;
    }
  }

  lemma RepairOnceMore(bars: seq<Bar>, day: int, fields: set<Field>, factor: Positive)
    requires !RepairRepeats(fields, factor)
    ensures RepairedBar(RepairedBar(bars, day, fields, factor), day, fields, factor)
            == RepairedBar(bars, day, fields, factor)
  {
    hide Near, Times, Glitched, Fixed, RepairRepeats;
    var i := IndexOn(bars, day);
    if i.Some? && Glitched(bars[i.value], fields, factor) {
      var fixed := RepairedBar(bars, day, fields, factor);
      CorrectionKeepsDates(RepairBar(day, fields, factor), bars);
      SameIndex(bars, fixed, day);
      assert fixed[i.value] == Fixed(bars[i.value], fields, factor);
      if Glitched(fixed[i.value], fields, factor) {
        RepairSettles(bars[i.value], fields, factor);
        assert fixed == fixed[..i.value] + [fixed[i.value]] + fixed[i.value + 1..];
      }
    }
  }

  // ---- A bar that is repaired twice ----

  /** How far from the open, as a fraction of one, a field is left by its first repair. */
  function Left(f: Field, fields: set<Field>, factor: Positive): (x: real)
    ensures 0.98 <= x <= 1.02
  {
    if factor > 1.0 then
      if f == Low || (f == Close && High !in fields) then 1.02 else 1.0
    else if f == High || (f == Close && Low !in fields) then 0.98 else 1.0
  }

  function Level(f: Field, fields: set<Field>, factor: Positive): real {
    if f !in fields || Open in fields then 1.0 else 1.0 / Times(Left(f, fields, factor), factor)
  }

  function StubbornBar(day: int, fields: set<Field>, factor: Positive): Bar {
    Bar(day, 1.0, Level(High, fields, factor), Level(Low, fields, factor), Level(Close, fields, factor), 0)
  }

  lemma LevelRatio(f: Field, fields: set<Field>, factor: Positive)
    requires f in fields && Open !in fields
    ensures Level(f, fields, factor) > 0.0 && Near(1.0 / Level(f, fields, factor), factor)
    ensures Times(Level(f, fields, factor), factor) == 1.0 / Left(f, fields, factor)
  {
    var x := Left(f, fields, factor);
    var p := x * factor;
    assert p > 0.0;
    assert (1.0 / p) * p == 1.0;
    assert 1.0 / (1.0 / p) == p;
    NearBounds(p, factor);
    assert 0.98 * factor <= p <= 1.02 * factor;
    assert ((1.0 / p) * factor) * x == 1.0;
  }

  lemma StubbornGlitch(day: int, fields: set<Field>, factor: Positive)
    requires Open !in fields
    ensures Glitched(StubbornBar(day, fields, factor), fields, factor)
  {
    hide Near, Level;
    forall f | f in fields
      ensures FieldOf(StubbornBar(day, fields, factor), f) > 0.0
              && Near(1.0 / FieldOf(StubbornBar(day, fields, factor), f), factor)
    {
      LevelRatio(f, fields, factor);
    }
  }

  /** The bar after its first repair: each field is off the open by what was left. */
  lemma StubbornFixed(day: int, fields: set<Field>, factor: Positive)
    requires Open !in fields && RepairRepeats(fields, factor)
    ensures
      var r := Fixed(StubbornBar(day, fields, factor), fields, factor);
      && r.open == 1.0
      && (High in fields ==> r.high == 1.0 / Left(High, fields, factor))
      && (Low in fields ==> r.low == 1.0 / Left(Low, fields, factor))
      && r.close == (if Close in fields then 1.0 / Left(Close, fields, factor) else 1.0)
  {
    hide Near, Level, Times;
    if High in fields {
      LevelRatio(High, fields, factor);
    }
    if Low in fields {
      LevelRatio(Low, fields, factor);
    }
    if Close in fields {
      LevelRatio(Close, fields, factor);
    }
    assert Level(Close, fields, factor) == 1.0 || Close in fields by {
      Unlisted(Close, fields, factor);
    }
  }

  lemma Unlisted(f: Field, fields: set<Field>, factor: Positive)
    ensures f !in fields ==> Level(f, fields, factor) == 1.0
  {
  }

  lemma LeftNear(f: Field, fields: set<Field>, factor: Positive)
    requires f in fields && f != Open && Open !in fields && RepairRepeats(fields, factor)
    ensures 1.0 / Left(f, fields, factor) > 0.0 && Near(1.0 / (1.0 / Left(f, fields, factor)), factor)
  {
    var x := Left(f, fields, factor);
    assert 1.0 / (1.0 / x) == x;
    NearBounds(x, factor);
    assert 0.98 * factor <= x <= 1.02 * factor;
  }

  lemma StubbornAgain(day: int, fields: set<Field>, factor: Positive)
    requires Open !in fields && RepairRepeats(fields, factor)
    ensures
      var r := Fixed(StubbornBar(day, fields, factor), fields, factor);
      Glitched(r, fields, factor) && Fixed(r, fields, factor) != r
  {
    var r := Fixed(StubbornBar(day, fields, factor), fields, factor);
    StubbornFixed(day, fields, factor);
    hide Near, Level, StubbornBar;
    forall f | f in fields
      ensures FieldOf(r, f) > 0.0 && Near(r.open / FieldOf(r, f), factor)
    {
      LeftNear(f, fields, factor);
    }
    if Close in fields {
      Grows(r.close, factor);
    } else if High in fields {
      Grows(r.high, factor);
      Grows(r.low, factor);
    } else {
      assert Low in fields by {
        OnlyField(fields, High, Low);
      }
      Grows(r.low, factor);
    }
  }

  lemma OpenAgain(day: int, fields: set<Field>, factor: Positive)
    requires Open in fields && RepairRepeats(fields, factor)
    ensures
      var b := StubbornBar(day, fields, factor);
      var r := Fixed(b, fields, factor);
      Glitched(b, fields, factor) && Glitched(r, fields, factor) && Fixed(r, fields, factor) != r
  {
    var b := StubbornBar(day, fields, factor);
    assert b == Bar(day, 1.0, 1.0, 1.0, 1.0, 0);
    NearUnit(factor);
    Grows(factor, factor);
    assert Times(1.0, factor) == factor;
    hide Near, Level, StubbornBar, Times, RepairRepeats;
    var r := Fixed(b, fields, factor);
    assert Glitched(b, fields, factor) by {
      assert forall f :: FieldOf(b, f) == 1.0;
    }
    assert Glitched(r, fields, factor) by {
      assert forall f :: FieldOf(r, f) == factor || FieldOf(r, f) == 1.0;
    }
  }

  lemma NearUnit(factor: Positive)
    requires 50.0 / 51.0 <= factor <= 50.0 / 49.0
    ensures Near(1.0 / 1.0, factor) && Near(factor / factor, factor) && Near(factor / 1.0, factor)
  {
    assert factor / factor == 1.0 && factor / 1.0 == factor;
    NearBounds(1.0, factor);
    NearBounds(factor, factor);
  }

  lemma RepairTwiceDiffers(day: int, fields: set<Field>, factor: Positive)
    requires RepairRepeats(fields, factor)
    ensures
      var bars := [StubbornBar(day, fields, factor)];
      RepairedBar(RepairedBar(bars, day, fields, factor), day, fields, factor) != RepairedBar(bars, day, fields, factor)
  {
    var b := StubbornBar(day, fields, factor);
    var r := Fixed(b, fields, factor);
    if Open in fields {
      OpenAgain(day, fields, factor);
    } else {
      StubbornGlitch(day, fields, factor);
      StubbornAgain(day, fields, factor);
    }
    OneBar(b, day);
    OneBar(r, day);
    OneBar(Fixed(r, fields, factor), day);
    hide Glitched, RepairRepeats;
    assert RepairedBar([b], day, fields, factor) == [r];
    assert RepairedBar([r], day, fields, factor) == [Fixed(r, fields, factor)];
  }

  lemma OneBar(b: Bar, day: int)
    requires b.date == day
    ensures IndexOn([b], day) == Some(0)
  {
  }

  /** A bar repair is idempotent on every bar series just when its factor and fields leave no bar glitched twice. */
  lemma RepairIdempotent(day: int, fields: set<Field>, factor: Positive)
    ensures (forall bars: seq<Bar> ::
               RepairedBar(RepairedBar(bars, day, fields, factor), day, fields, factor)
                   == RepairedBar(bars, day, fields, factor))
            <==> !RepairRepeats(fields, factor)
  {
    hide RepairedBar, RepairRepeats;
    if RepairRepeats(fields, factor) {
      RepairTwiceDiffers(day, fields, factor);
    } else {
      forall bars: seq<Bar>
        ensures RepairedBar(RepairedBar(bars, day, fields, factor), day, fields, factor)
                == RepairedBar(bars, day, fields, factor)
      {
        RepairOnceMore(bars, day, fields, factor);
      }
    }
  }

  predicate Repeats(c: Correction) {
    match c
    case ScaleBefore(_, factor) => ScaleRepeats(factor)
    case RepairBar(_, fields, factor) => RepairRepeats(fields, factor)
  }

  lemma CorrectionIdempotent(c: Correction, bars: seq<Bar>)
    requires !Repeats(c)
    ensures Corrected(c, Corrected(c, bars)) == Corrected(c, bars)
  {
    match c
    case ScaleBefore(before, factor) => ScaleSettles(bars, before, factor);
    case RepairBar(day, fields, factor) => RepairOnceMore(bars, day, fields, factor);
  }

  // ---- The whole pipeline ----

  /** The symbol tables: where an alias's bars stop, where a name's own bars start (or that none are its own). */
  datatype Tables = Tables(until: map<Ticker, Option<int>>, unpriced: map<Ticker, Option<int>>,
                           corrections: map<Ticker, Correction>)

  function Before(bars: seq<Bar>, d: int): seq<Bar> {
    if bars == [] then []
    else Before(bars[..|bars| - 1], d) + if bars[|bars| - 1].date < d then [bars[|bars| - 1]] else []
  }

  function From(bars: seq<Bar>, d: int): seq<Bar> {
    if bars == [] then []
    else From(bars[..|bars| - 1], d) + if bars[|bars| - 1].date >= d then [bars[|bars| - 1]] else []
  }

  /** clip_to_alias. */
  function Clipped(ts: Tables, t: Ticker, bars: seq<Bar>): seq<Bar> {
    if t in ts.until && ts.until[t].Some? then Before(bars, ts.until[t].value) else bars
  }

  /** drop_unpriced. */
  function Dropped(ts: Tables, t: Ticker, bars: seq<Bar>): seq<Bar> {
    if t !in ts.unpriced then bars
    else if ts.unpriced[t].None? then []
    else From(bars, ts.unpriced[t].value)
  }

  function Tabled(ts: Tables, t: Ticker, bars: seq<Bar>): seq<Bar> {
    Dropped(ts, t, Clipped(ts, t, bars))
  }

  function Repaired(ts: Tables, t: Ticker, bars: seq<Bar>): seq<Bar> {
    var tabled := Tabled(ts, t, bars);
    if t in ts.corrections && tabled != [] then Corrected(ts.corrections[t], tabled) else tabled
  }

  /** Bars that keep to the tables pass through them unchanged. */
  ghost predicate Admitted(ts: Tables, t: Ticker, bars: seq<Bar>) {
    && (t in ts.until && ts.until[t].Some? ==> AllBefore(bars, ts.until[t].value))
    && (t in ts.unpriced ==> if ts.unpriced[t].None? then bars == [] else AllFrom(bars, ts.unpriced[t].value))
  }

  ghost predicate AllBefore(bars: seq<Bar>, d: int) {
    forall i :: 0 <= i < |bars| ==> bars[i].date < d
  }

  ghost predicate AllFrom(bars: seq<Bar>, d: int) {
    forall i :: 0 <= i < |bars| ==> bars[i].date >= d
  }

  lemma {:induction false} BeforeAll(bars: seq<Bar>, n: nat, d: int)
    requires n <= |bars| && AllBefore(bars, d)
    ensures Before(bars[..n], d) == bars[..n]
  {
    if n > 0 {
      BeforeAll(bars, n - 1, d);
      assert bars[..n][..n - 1] == bars[..n - 1];
      assert bars[..n] == bars[..n - 1] + [bars[n - 1]];
    }
  }

  lemma {:induction false} FromAll(bars: seq<Bar>, n: nat, d: int)
    requires n <= |bars| && AllFrom(bars, d)
    ensures From(bars[..n], d) == bars[..n]
  {
    if n > 0 {
      FromAll(bars, n - 1, d);
      assert bars[..n][..n - 1] == bars[..n - 1];
      assert bars[..n] == bars[..n - 1] + [bars[n - 1]];
    }
  }

  /** What is kept before a date, or from one on, are bars of the series on the right side of it. */
  lemma {:induction false} BeforeIs(bars: seq<Bar>, n: nat, d: int)
    requires n <= |bars|
    ensures AllBefore(Before(bars[..n], d), d)
    ensures forall e :: AllFrom(bars, e) ==> AllFrom(Before(bars[..n], d), e)
  {
    if n > 0 {
      BeforeIs(bars, n - 1, d);
      assert bars[..n][..n - 1] == bars[..n - 1];
    }
  }

  lemma {:induction false} FromIs(bars: seq<Bar>, n: nat, d: int)
    requires n <= |bars|
    ensures AllFrom(From(bars[..n], d), d)
    ensures forall e :: AllBefore(bars, e) ==> AllBefore(From(bars[..n], d), e)
  {
    if n > 0 {
      FromIs(bars, n - 1, d);
      assert bars[..n][..n - 1] == bars[..n - 1];
    }
  }

  lemma AdmittedPass(ts: Tables, t: Ticker, bars: seq<Bar>)
    requires Admitted(ts, t, bars)
    ensures Tabled(ts, t, bars) == bars
  {
    assert bars[..|bars|] == bars;
    if t in ts.until && ts.until[t].Some? {
      BeforeAll(bars, |bars|, ts.until[t].value);
    }
    if t in ts.unpriced && ts.unpriced[t].Some? {
      FromAll(bars, |bars|, ts.unpriced[t].value);
    }
  }

  lemma TabledAdmitted(ts: Tables, t: Ticker, bars: seq<Bar>)
    ensures Admitted(ts, t, Tabled(ts, t, bars))
  {
    var clipped := Clipped(ts, t, bars);
    assert bars[..|bars|] == bars && clipped[..|clipped|] == clipped;
    if t in ts.until && ts.until[t].Some? {
      BeforeIs(bars, |bars|, ts.until[t].value);
    }
    if t in ts.unpriced && ts.unpriced[t].Some? {
      FromIs(clipped, |clipped|, ts.unpriced[t].value);
    }
  }

  lemma CorrectedAdmitted(ts: Tables, t: Ticker, bars: seq<Bar>, c: Correction)
    requires Admitted(ts, t, bars)
    ensures Admitted(ts, t, Corrected(c, bars))
  {
    CorrectionKeepsDates(c, bars);
  }

  /**
   The repair pipeline. Applying the tables and the correction twice gives what
   once gives just when correcting the tabled bars twice does; so always, for a
   ticker without a correction or with one that cannot repeat.
   */
  lemma PipelineIdempotent(ts: Tables, t: Ticker, bars: seq<Bar>)
    ensures Repaired(ts, t, Repaired(ts, t, bars)) == Repaired(ts, t, bars)
            <==> (t in ts.corrections ==>
                    var x := Tabled(ts, t, bars);
                    Corrected(ts.corrections[t], Corrected(ts.corrections[t], x)) == Corrected(ts.corrections[t], x))
    ensures t in ts.corrections ==> !Repeats(ts.corrections[t]) ==>
              Repaired(ts, t, Repaired(ts, t, bars)) == Repaired(ts, t, bars)
  {
    hide Tabled, Admitted, Repeats;
    var tabled := Tabled(ts, t, bars);
    TabledAdmitted(ts, t, bars);
    AdmittedPass(ts, t, tabled);
    if t in ts.corrections {
      var c := ts.corrections[t];
      CorrectedAdmitted(ts, t, tabled, c);
      AdmittedPass(ts, t, Corrected(c, tabled));
      CorrectionKeepsDates(c, tabled);
      if !Repeats(c) {
        CorrectionIdempotent(c, tabled);
      }
    }
  }

  /**
   apply_symbol_tables_to_cache: every ticker's bars are repaired in place; the
   aliased tickers left bare are returned.
   */
  method ApplySymbolTables(cache: map<Ticker, seq<Bar>>, ts: Tables)
    returns (repaired: map<Ticker, seq<Bar>>, bare: seq<Ticker>)
    ensures repaired.Keys == cache.Keys
    ensures forall t :: t in cache ==> repaired[t] == Repaired(ts, t, cache[t])
    ensures Ascending(bare) && forall t :: t in bare <==> t in ts.until && t in cache && repaired[t] == []
  {
    hide Repaired;
    repaired := cache;
    var todo := cache.Keys;
    while todo != {}
      invariant todo <= cache.Keys == repaired.Keys
      invariant forall t :: t in cache ==> repaired[t] == if t in todo then cache[t] else Repaired(ts, t, cache[t])
      decreases |todo|
    {
      assert (forall y :: y !in todo) ==> todo == {};
      var t :| t in todo;
      repaired := repaired[t := Repaired(ts, t, repaired[t])];
      todo := todo - {t};
    }
    bare := SortedInts(set t | t in ts.until && t in repaired && repaired[t] == []);
  }
}
