/**
 The tail-risk hedge's regime: labels by market breadth, with hysteresis so that
 breadth sitting on a threshold does not flip them.
 */
module HedgeRegime {
  import opened Basics
  import Breadth

  datatype Label = Bull | Neutral | Bear

  /** Python's round(x, 9). */
  function Round9(x: real): real {
    RoundTo(x, 1000000000)
  }

  /** The thresholds and the levels at which each label is left and entered. */
  datatype Edges = Edges(bull: real, bear: real, leaveBull: real, leaveBear: real, enterBull: real, enterBear: real)

  function EdgesOf(bull: real, bear: real, band: real): Edges {
    Edges(bull, bear, Round9(bull - band), Round9(bear + band), Round9(bull + band), Round9(bear - band))
  }

  function Plain(e: Edges, breadth: real): Label {
    if breadth > e.bull then Bull else if breadth < e.bear then Bear else Neutral
  }

  /** One day's label from the label before. */
  function Next(e: Edges, current: Label, breadth: real): Label {
    match current
    case Bull => if breadth <= e.leaveBull then Plain(e, breadth) else Bull
    case Bear => if breadth >= e.leaveBear then Plain(e, breadth) else Bear
    case Neutral => if breadth > e.enterBull || breadth < e.enterBear then Plain(e, breadth) else Neutral
  }

  /** The labels that follow a given label. */
  function Following(e: Edges, from: Label, breadths: seq<real>): (r: seq<Label>)
    ensures |r| == |breadths|
  {
    if breadths == [] then []
    else
      var n := |breadths| - 1;
      var before := Following(e, from, breadths[..n]);
      before + [Next(e, if n == 0 then from else before[n - 1], breadths[n])]
  }

  /** The labels of a series: the first date takes its plain label. */
  function Labels(e: Edges, breadths: seq<real>): (r: seq<Label>)
    ensures |r| == |breadths|
  {
    if breadths == [] then [] else [Plain(e, breadths[0])] + Following(e, Plain(e, breadths[0]), breadths[1..])
  }

  function PlainLabels(e: Edges, breadths: seq<real>): (r: seq<Label>)
    ensures |r| == |breadths| && forall i :: 0 <= i < |r| ==> r[i] == Plain(e, breadths[i])
  {
    seq(|breadths|, i requires 0 <= i < |breadths| => Plain(e, breadths[i]))
  }

  // ---- The computation as it runs ----

  /** Labels each date in order, carrying the current label along. */
  method ComputeHedgeRegime(breadthByDate: map<int, real>, band: real, bull: real, bear: real)
    returns (labels: map<int, Label>)
    ensures labels.Keys == breadthByDate.Keys
    ensures
      var dates := SortedInts(breadthByDate.Keys);
      var expected := Labels(EdgesOf(bull, bear, band), BreadthsOn(breadthByDate, dates));
      forall i :: 0 <= i < |dates| ==> labels[dates[i]] == expected[i]
  {
    hide *;
    var e := EdgesOf(bull, bear, band);
    var dates := SortedInts(breadthByDate.Keys);
    ghost var breadths := BreadthsOn(breadthByDate, dates);
    ghost var expected := Labels(e, breadths);
    labels := map[];
    var current: Option<Label> := None;
    LabelledNone(dates, expected);
    for i := 0 to |dates|
      invariant current == if i == 0 then None else Some(expected[i - 1])
      invariant Labelled(labels, dates, expected, i)
    {
      var breadth := breadthByDate[dates[i]];
      LabelsNext(e, breadths, i);
      current := Some(if current.None? then Plain(e, breadth) else Next(e, current.value, breadth));
      LabelledNext(labels, dates, expected, i);
      labels := labels[dates[i] := current.value];
    }
    LabelledAll(labels, dates, expected, breadthByDate.Keys);
  }

  /** The first i dates carry their labels. */
  ghost predicate Labelled(labels: map<int, Label>, dates: seq<int>, expected: seq<Label>, i: nat)
    requires i <= |dates| == |expected|
  {
    labels.Keys == Elements(dates[..i]) && forall k :: 0 <= k < i ==>
      dates[k] in labels && labels[dates[k]] == expected[k]
  }

  lemma LabelledNone(dates: seq<int>, expected: seq<Label>)
    requires |dates| == |expected|
    ensures Labelled(map[], dates, expected, 0)
  {
  }

  lemma LabelledNext(labels: map<int, Label>, dates: seq<int>, expected: seq<Label>, i: nat)
    requires i < |dates| == |expected| && Ascending(dates) && Labelled(labels, dates, expected, i)
    ensures Labelled(labels[dates[i] := expected[i]], dates, expected, i + 1)
  {
    assert dates[..i + 1] == dates[..i] + [dates[i]];
  }

  lemma LabelledAll(labels: map<int, Label>, dates: seq<int>, expected: seq<Label>, keys: set<int>)
    requires |dates| == |expected| && Labelled(labels, dates, expected, |dates|)
    requires forall d :: d in dates <==> d in keys
    ensures labels.Keys == keys
    ensures forall k :: 0 <= k < |dates| ==> dates[k] in labels && labels[dates[k]] == expected[k]
  {
    assert dates[..|dates|] == dates;
    assert forall d :: d in Elements(dates) <==> d in keys;
    assert Elements(dates) == keys;
  }

  function BreadthsOn(breadthByDate: map<int, real>, dates: seq<int>): (r: seq<real>)
    requires forall i :: 0 <= i < |dates| ==> dates[i] in breadthByDate
    ensures |r| == |dates| && forall i :: 0 <= i < |r| ==> r[i] == breadthByDate[dates[i]]
  {
    seq(|dates|, i requires 0 <= i < |dates| => breadthByDate[dates[i]])
  }

  lemma {:induction false} FollowingPrefix(e: Edges, from: Label, breadths: seq<real>, n: nat)
    requires n <= |breadths|
    ensures Following(e, from, breadths[..n]) == Following(e, from, breadths)[..n]
  {
    if n == |breadths| {
      assert breadths[..n] == breadths;
    } else {
      var m := |breadths| - 1;
      assert breadths[..m][..n] == breadths[..n];
      FollowingPrefix(e, from, breadths[..m], n);
    }
  }

  /** A date's label depends on nothing later: a shorter series is a prefix. */
  lemma LabelsPrefix(e: Edges, breadths: seq<real>, n: nat)
    requires n <= |breadths|
    ensures Labels(e, breadths[..n]) == Labels(e, breadths)[..n]
  {
    if n > 0 {
      assert breadths[..n][1..] == breadths[1..][..n - 1];
      FollowingPrefix(e, Plain(e, breadths[0]), breadths[1..], n - 1);
    }
  }

  /** Each label follows from the one before. */
  lemma LabelsNext(e: Edges, breadths: seq<real>, i: nat)
    requires i < |breadths|
    ensures Labels(e, breadths)[i]
            == if i == 0 then Plain(e, breadths[0]) else Next(e, Labels(e, breadths)[i - 1], breadths[i])
  {
    hide Plain, Next;
    if i > 0 {
      FollowingNext(e, Plain(e, breadths[0]), breadths[1..], i - 1);
    }
  }

  lemma FollowingNext(e: Edges, from: Label, breadths: seq<real>, i: nat)
    requires i < |breadths|
    ensures Following(e, from, breadths)[i]
            == Next(e, if i == 0 then from else Following(e, from, breadths)[i - 1], breadths[i])
  {
    hide Next;
    FollowingPrefix(e, from, breadths, i + 1);
    FollowingPrefix(e, from, breadths, i);
    assert breadths[..i + 1][..i] == breadths[..i];
  }

  // ---- A band of zero ----

  function CrashAsBear(r: Breadth.Regime): Label {
    match r
    case Bull => Bull
    case Neutral => Neutral
    case _ => Bear
  }

  /** compute_regime_by_date's label for one breadth, with crash read as bear. */
  function RegimeLabel(e: Edges, crash: real, breadth: real): Label {
    CrashAsBear(Breadth.RegimeOf(breadth, Breadth.Thresholds(e.bull, e.bear, crash)))
  }

  /**
   The plain labels are the regime's with crash read as bear, at every breadth,
   just when the crash level is no higher.
   */
  lemma PlainIsRegime(e: Edges, crash: real)
    ensures (forall b: real :: RegimeLabel(e, crash, b) == Plain(e, b)) <==> crash <= e.bear || e.bear > e.bull
  {
    if crash > e.bear && e.bear <= e.bull {
      assert RegimeLabel(e, crash, e.bear) != Plain(e, e.bear);
    }
  }

  /** Half a unit of the ninth decimal place. */
  const HALF_NINTH := 0.0000000005

  lemma RoundNear(x: real)
    ensures -HALF_NINTH <= x - Round9(x) <= HALF_NINTH
  {
    var scaled := x * 1000000000.0;
    assert Round9(x) == RoundHalfEven(scaled) as real / 1000000000.0;
  }

  lemma RoundMonotone(x: real, y: real)
    requires x <= y
    ensures Round9(x) <= Round9(y)
  {
    var m, n := RoundHalfEven(x * 1000000000.0), RoundHalfEven(y * 1000000000.0);
    assert x * 1000000000.0 <= y * 1000000000.0;
    HalfEvenMonotone(x * 1000000000.0, y * 1000000000.0);
    assert m as real / 1000000000.0 <= n as real / 1000000000.0;
  }

  lemma HalfEvenMonotone(x: real, y: real)
    requires x <= y
    ensures RoundHalfEven(x) <= RoundHalfEven(y)
  {
  }

  /** The thresholds for which a band of zero changes nothing. */
  predicate ZeroBandPlain(bull: real, bear: real) {
    Round9(bull) == bull && if bear <= bull then Round9(bear) == bear else Round9(bear) == bull
  }

  lemma ZeroBandStep(bull: real, bear: real, current: Label, breadth: real)
    requires ZeroBandPlain(bull, bear) && (current == Neutral ==> bear <= bull)
    ensures Next(EdgesOf(bull, bear, 0.0), current, breadth) == Plain(EdgesOf(bull, bear, 0.0), breadth)
  {
    hide Round9;
    assert bull - 0.0 == bull + 0.0 == bull && bear - 0.0 == bear + 0.0 == bear;
  }

  lemma {:induction false} ZeroBandFollowing(bull: real, bear: real, from: Label, breadths: seq<real>)
    requires ZeroBandPlain(bull, bear) && (from == Neutral ==> bear <= bull)
    ensures
      var e := EdgesOf(bull, bear, 0.0);
      Following(e, from, breadths) == PlainLabels(e, breadths)
  {
    hide EdgesOf, ZeroBandPlain;
    if breadths != [] {
      var e, n := EdgesOf(bull, bear, 0.0), |breadths| - 1;
      ZeroBandFollowing(bull, bear, from, breadths[..n]);
      var before := Following(e, from, breadths[..n]);
      EdgeThresholds(bull, bear, 0.0);
      ZeroBandStep(bull, bear, if n == 0 then from else before[n - 1], breadths[n]);
    }
  }

  lemma EdgeThresholds(bull: real, bear: real, band: real)
    ensures EdgesOf(bull, bear, band).bull == bull && EdgesOf(bull, bear, band).bear == bear
  {
  }

  /** A pair of breadths whose labels at a band of zero are not the plain ones, when the thresholds are off. */
  function Flip(bull: real, bear: real): seq<real> {
    var low, high := (if bear < bull then bear else bull) - 1.0, bull + 1.0;
    if Round9(bull) < bull then [high, bull]
    else if bear > bull then
      if Round9(bear) > bull
          then [low, if Round9(bear) < bear then (bull + Round9(bear)) / 2.0 else (bull + bear) / 2.0]
      else [high, bull]
    else if Round9(bull) > bull then [bull, Round9(bull)]
    else if Round9(bear) > bear then [low, bear]
    else [bear, Round9(bear)]
  }

  lemma TwoLabels(e: Edges, x: real, y: real)
    ensures Labels(e, [x, y]) == [Plain(e, x), Next(e, Plain(e, x), y)]
  {
    assert [x, y][1..] == [y];
    assert Following(e, Plain(e, x), [y]) == [Next(e, Plain(e, x), y)] by {
      assert [y][..0] == [];
    }
  }

  lemma FlipFlips(bull: real, bear: real)
    requires !ZeroBandPlain(bull, bear)
    ensures
      var e := EdgesOf(bull, bear, 0.0);
      Labels(e, Flip(bull, bear)) != PlainLabels(e, Flip(bull, bear))
  {
    var e, f := EdgesOf(bull, bear, 0.0), Flip(bull, bear);
    assert bull - 0.0 == bull + 0.0 == bull && bear - 0.0 == bear + 0.0 == bear;
    if bear <= bull {
      RoundMonotone(bear, bull);
    } else {
      RoundMonotone(bull, bear);
    }
    hide Round9;
    assert f == [f[0], f[1]];
    TwoLabels(e, f[0], f[1]);
    assert Next(e, Plain(e, f[0]), f[1]) != Plain(e, f[1]);
    assert PlainLabels(e, f)[1] == Plain(e, f[1]);
  }

  /**
   With a band of zero the series is the plain one, whatever the breadths, just
   when the thresholds survive rounding to nine places and the bear threshold is
   no higher than the bull one (or rounds to it).
   */
  lemma ZeroBand(bull: real, bear: real)
    ensures
      var e := EdgesOf(bull, bear, 0.0);
      (forall breadths: seq<real> :: Labels(e, breadths) == PlainLabels(e, breadths)) <==> ZeroBandPlain(bull, bear)
  {
    var e := EdgesOf(bull, bear, 0.0);
    EdgeThresholds(bull, bear, 0.0);
    hide EdgesOf, ZeroBandPlain, Flip;
    if ZeroBandPlain(bull, bear) {
      forall breadths: seq<real>
        ensures Labels(e, breadths) == PlainLabels(e, breadths)
      {
        if breadths != [] {
          ZeroBandFollowing(bull, bear, Plain(e, breadths[0]), breadths[1..]);
        }
      }
    } else {
      FlipFlips(bull, bear);
    }
  }

  // ---- Switching ----

  function Switches(labels: seq<Label>): nat {
    if |labels| < 2 then 0
    else Switches(labels[..|labels| - 1]) + if labels[|labels| - 1] != labels[|labels| - 2] then 1 else 0
  }

  lemma {:induction false} FewerSwitchesTo(e: Edges, breadths: seq<real>, n: nat)
    requires 0 < n <= |breadths|
    ensures
      var h, p := Labels(e, breadths)[..n], PlainLabels(e, breadths)[..n];
      Switches(h) + (if h[n - 1] != p[n - 1] then 1 else 0) <= Switches(p)
  {
    var h, p := Labels(e, breadths), PlainLabels(e, breadths);
    if n == 1 {
    } else {
      FewerSwitchesTo(e, breadths, n - 1);
      LabelsNext(e, breadths, n - 1);
      hide Labels, Next, Plain;
      assert h[..n][..n - 1] == h[..n - 1] && p[..n][..n - 1] == p[..n - 1];
      HoldOrPlain(e, h[n - 2], breadths[n - 1]);
      assert h[n - 1] == Next(e, h[n - 2], breadths[n - 1]);
    }
  }

  lemma HoldOrPlain(e: Edges, current: Label, breadth: real)
    ensures Next(e, current, breadth) == current || Next(e, current, breadth) == Plain(e, breadth)
  {
  }

  /** Whatever the edges, hysteresis never switches more often than the plain labels do. */
  lemma NeverSwitchesMore(e: Edges, breadths: seq<real>)
    ensures Switches(Labels(e, breadths)) <= Switches(PlainLabels(e, breadths))
  {
    if breadths != [] {
      FewerSwitchesTo(e, breadths, |breadths|);
      assert Labels(e, breadths)[..|breadths|] == Labels(e, breadths);
      assert PlainLabels(e, breadths)[..|breadths|] == PlainLabels(e, breadths);
    }
  }

  // ---- Where the series starts stops mattering ----

  ghost predicate Ordered(e: Edges) {
    && e.leaveBull <= e.bull <= e.enterBull && e.enterBear <= e.bear <= e.leaveBear && e.bear <= e.bull
    && e.enterBear <= e.leaveBull && e.leaveBear <= e.enterBull
  }

  /** No level is more than half a unit of the ninth place from its threshold plus or less the band. */
  lemma EdgesNear(bull: real, bear: real, band: real)
    ensures
      var e := EdgesOf(bull, bear, band);
      && bull - band - HALF_NINTH <= e.leaveBull <= bull - band + HALF_NINTH
      && bull + band - HALF_NINTH <= e.enterBull <= bull + band + HALF_NINTH
      && bear - band - HALF_NINTH <= e.enterBear <= bear - band + HALF_NINTH
      && bear + band - HALF_NINTH <= e.leaveBear <= bear + band + HALF_NINTH
  {
    hide Round9;
    RoundNear(bull - band);
    RoundNear(bull + band);
    RoundNear(bear - band);
    RoundNear(bear + band);
  }

  /** Rounding cannot move a level past its threshold: the band covers it, or the thresholds have nine places. */
  predicate BandCovers(bull: real, bear: real, band: real) {
    bear <= bull && (band >= HALF_NINTH || (band >= 0.0 && Round9(bull) == bull && Round9(bear) == bear))
  }

  /** Then, the bear threshold no higher than the bull, the levels come in order. */
  lemma EdgesOrdered(bull: real, bear: real, band: real)
    requires BandCovers(bull, bear, band)
    ensures Ordered(EdgesOf(bull, bear, band))
  {
    hide Round9;
    RoundMonotone(bear - band, bull - band);
    RoundMonotone(bear + band, bull + band);
    if band >= HALF_NINTH {
      EdgesNear(bull, bear, band);
    } else {
      RoundMonotone(bull - band, bull);
      RoundMonotone(bull, bull + band);
      RoundMonotone(bear - band, bear);
      RoundMonotone(bear, bear + band);
    }
  }

  predicate Decisive(e: Edges, x: real) {
    x > e.enterBull || x < e.enterBear || e.leaveBear <= x <= e.leaveBull
  }

  /** A breadth gives every current label the same next one just when it is decisive. */
  lemma DecisiveMerges(e: Edges, x: real)
    requires Ordered(e)
    ensures Decisive(e, x) <==> forall a, b :: Next(e, a, x) == Next(e, b, x)
  {
    if !Decisive(e, x) {
      assert Next(e, Bull, x) != Next(e, Neutral, x) || Next(e, Bear, x) != Next(e, Neutral, x);
    }
  }

  /** What it takes, at any levels at all, for a breadth to give every current label the same next one. */
  predicate Merging(e: Edges, x: real) {
    match Plain(e, x)
    case Bull => x >= e.leaveBear && (x > e.enterBull || x < e.enterBear)
    case Bear => x <= e.leaveBull && (x > e.enterBull || x < e.enterBear)
    case Neutral => e.leaveBear <= x <= e.leaveBull
  }

  lemma MergingIff(e: Edges, x: real)
    ensures Merging(e, x) <==> forall a, b :: Next(e, a, x) == Next(e, b, x)
  {
    if !Merging(e, x) {
      assert Next(e, Bull, x) != Next(e, Neutral, x) || Next(e, Bear, x) != Next(e, Neutral, x);
    }
  }

  lemma {:induction false} FollowingAlike(e: Edges, a: Label, b: Label, breadths: seq<real>, k: nat, i: nat)
    requires k <= i < |breadths| && Merging(e, breadths[k])
    ensures Following(e, a, breadths)[i] == Following(e, b, breadths)[i]
  {
    hide Merging, Next;
    FollowingNext(e, a, breadths, i);
    FollowingNext(e, b, breadths, i);
    if i == k {
      MergingIff(e, breadths[k]);
    } else {
      FollowingAlike(e, a, b, breadths, k, i - 1);
    }
  }

  /**
   Whatever the thresholds and the band, two series that start from different
   labels agree forever from the first breadth that leaves no label a choice.
   */
  lemma StartsForgotten(bull: real, bear: real, band: real, a: Label, b: Label, breadths: seq<real>, k: nat)
    requires k < |breadths| && Merging(EdgesOf(bull, bear, band), breadths[k])
    ensures
      var e := EdgesOf(bull, bear, band);
      Following(e, a, breadths)[k..] == Following(e, b, breadths)[k..]
  {
    var e := EdgesOf(bull, bear, band);
    hide EdgesOf, Merging;
    forall i | k <= i < |breadths|
      ensures Following(e, a, breadths)[i] == Following(e, b, breadths)[i]
    {
      FollowingAlike(e, a, b, breadths, k, i);
    }
  }

  /**
   In particular from the first breadth above the bull edge plus the band, below
   the bear edge less the band, or between the two leave levels.
   */
  lemma DecisiveForgets(bull: real, bear: real, band: real, a: Label, b: Label, breadths: seq<real>, k: nat)
    requires BandCovers(bull, bear, band)
    requires k < |breadths| && Decisive(EdgesOf(bull, bear, band), breadths[k])
    ensures
      var e := EdgesOf(bull, bear, band);
      Following(e, a, breadths)[k..] == Following(e, b, breadths)[k..]
  {
    var e := EdgesOf(bull, bear, band);
    EdgesOrdered(bull, bear, band);
    DecisiveMerges(e, breadths[k]);
    hide EdgesOf, Ordered, BandCovers;
    MergingIff(e, breadths[k]);
    StartsForgotten(bull, bear, band, a, b, breadths, k);
  }
}
