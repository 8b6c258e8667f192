/**
 Ranking a complete universe by score, and pairing selected newcomers with the
 holdings the ranking dropped.
 */
module RankedSelection {
  import opened Basics
  import opened Market

  // ---- sorted() by a weight, then by name ----

  predicate Precedes(w: map<Ticker, real>, a: Ticker, b: Ticker)
    requires a in w && b in w
  {
    w[a] < w[b] || (w[a] == w[b] && a < b)
  }

  ghost predicate IsFirst(w: map<Ticker, real>, s: set<Ticker>, m: Ticker)
    requires s <= w.Keys
  {
    m in s && forall x :: x in s && x != m ==> Precedes(w, m, x)
  }

  lemma {:induction false} FirstExists(w: map<Ticker, real>, s: set<Ticker>)
    requires s <= w.Keys && |s| > 0
    ensures exists m :: IsFirst(w, s, m)
  {
    assert (forall y :: y !in s) ==> s == {};
    var y :| y in s;
    var rest := s - {y};
    if |rest| == 0 {
      assert forall x :: x in s ==> x == y || x in rest;
      assert IsFirst(w, s, y);
    } else {
      FirstExists(w, rest);
      var m :| IsFirst(w, rest, m);
      assert forall x :: x in s ==> x == y || x in rest;
      if Precedes(w, m, y) {
        assert IsFirst(w, s, m);
      } else {
        assert IsFirst(w, s, y);
      }
    }
  }

  ghost predicate InOrder(w: map<Ticker, real>, r: seq<Ticker>)
    requires Elements(r) <= w.Keys
  {
    forall i, j :: 0 <= i < j < |r| ==> r[i] in Elements(r) && r[j] in Elements(r) && Precedes(w, r[i], r[j])
  }

  /** The members of a set by ascending weight, names breaking ties. */
  function SortedBy(w: map<Ticker, real>, s: set<Ticker>): (r: seq<Ticker>)
    requires s <= w.Keys
    ensures Elements(r) == s && InOrder(w, r) && |r| == |s|
    decreases |s|
  {
    if |s| == 0 then []
    else
      FirstExists(w, s);
      var m :| m in s && forall x :: x in s && x != m ==> Precedes(w, m, x);
      var rest := SortedBy(w, s - {m});
      FirstThenRest(w, s, m, rest);
      [m] + rest
  }

  lemma FirstThenRest(w: map<Ticker, real>, s: set<Ticker>, m: Ticker, rest: seq<Ticker>)
    requires s <= w.Keys && IsFirst(w, s, m) && Elements(rest) == s - {m} && InOrder(w, rest)
    ensures Elements([m] + rest) == s && InOrder(w, [m] + rest)
  {
    var r := [m] + rest;
    assert forall x :: x in rest <==> x in Elements(rest);
    assert forall x :: x in r <==> x == m || x in rest;
    forall i, j | 0 <= i < j < |r|
      ensures Precedes(w, r[i], r[j])
    {
      assert r[j] == rest[j - 1] && rest[j - 1] in Elements(rest);
      if i > 0 {
        assert r[i] == rest[i - 1] && rest[i - 1] in Elements(rest);
      }
    }
  }

  function Negated(scores: map<Ticker, real>): map<Ticker, real> {
    map t | t in scores :: -scores[t]
  }

  // ---- Ranking ----

  datatype RankError = TopNotPositive | NonFinite(tickers: seq<Ticker>)

  /** The scores that are finite; a score that is not is given as None. */
  function Finite(scores: map<Ticker, Option<real>>): map<Ticker, real> {
    map t | t in scores && scores[t].Some? :: scores[t].value
  }

  function InvalidScores(scores: map<Ticker, Option<real>>): set<Ticker> {
    set t | t in scores && scores[t].None?
  }

  /** rank_complete_universe. */
  function RankComplete(scores: map<Ticker, Option<real>>, topN: int): Result<seq<Ticker>, RankError> {
    if topN <= 0 then Failure(TopNotPositive)
    else if InvalidScores(scores) != {} then Failure(NonFinite(SortedInts(InvalidScores(scores))))
    else
      var ranked := SortedBy(Negated(Finite(scores)), Finite(scores).Keys);
      Success(if |ranked| <= topN then ranked else ranked[..topN])
  }

  /** A first argument that is strictly better, or ties and comes first by name. */
  predicate Beats(scores: map<Ticker, real>, a: Ticker, b: Ticker)
    requires a in scores && b in scores
  {
    scores[a] > scores[b] || (scores[a] == scores[b] && a < b)
  }

  ghost predicate Chain(finite: map<Ticker, real>, r: seq<Ticker>) {
    forall i, j :: 0 <= i < j < |r| ==> r[i] in finite && r[j] in finite && Beats(finite, r[i], r[j])
  }

  /** A listing in which each member beats the later ones, and all of them beat everything left out. */
  ghost predicate TopOf(finite: map<Ticker, real>, r: seq<Ticker>) {
    && (forall t :: t in r ==> t in finite)
    && Chain(finite, r)
    && (forall a, b :: a in r && b in finite && b !in r ==> Beats(finite, a, b))
  }

  /** The ranking holds as many tickers as asked for, or all of them, and every one of them beats every one left out. */
  lemma RankingIsTop(scores: map<Ticker, Option<real>>, topN: int)
    requires topN > 0 && InvalidScores(scores) == {}
    ensures RankComplete(scores, topN).Success?
    ensures TopOf(Finite(scores), RankComplete(scores, topN).value)
    ensures |RankComplete(scores, topN).value| == if |Finite(scores)| <= topN then |Finite(scores)| else topN
  {
    hide *;
    RankIs(scores, topN);
    var finite := Finite(scores);
    NegatedKeys(finite);
    var all := SortedBy(Negated(finite), finite.Keys);
    assert |finite| == |finite.Keys|;
    NegatedOrder(finite, all);
    PrefixIsTop(finite, all, if |all| <= topN then |all| else topN);
  }

  lemma RankIs(scores: map<Ticker, Option<real>>, topN: int)
    requires topN > 0 && InvalidScores(scores) == {}
    ensures Finite(scores).Keys <= Negated(Finite(scores)).Keys
    ensures
      var all := SortedBy(Negated(Finite(scores)), Finite(scores).Keys);
      RankComplete(scores, topN) == Success(all[..if |all| <= topN then |all| else topN])
  {
    hide SortedBy, InOrder, Elements;
    var all := SortedBy(Negated(Finite(scores)), Finite(scores).Keys);
    assert all[..|all|] == all;
  }

  lemma PrefixIsTop(finite: map<Ticker, real>, all: seq<Ticker>, n: nat)
    requires n <= |all| && Elements(all) == finite.Keys
    requires Chain(finite, all)
    ensures TopOf(finite, all[..n])
  {
    hide Beats;
    assert forall t :: t in all[..n] ==> t in Elements(all);
    forall a, b | a in all[..n] && b in finite && b !in all[..n]
      ensures Beats(finite, a, b)
    {
      var i :| 0 <= i < n && all[i] == a;
      assert b in Elements(all);
      var j :| 0 <= j < |all| && all[j] == b;
    }
  }

  lemma NegatedOrder(finite: map<Ticker, real>, all: seq<Ticker>)
    requires Elements(all) == finite.Keys && InOrder(Negated(finite), all)
    ensures Chain(finite, all)
  {
    forall i, j | 0 <= i < j < |all|
      ensures all[i] in finite && all[j] in finite && Beats(finite, all[i], all[j])
    {
      assert all[i] in Elements(all) && all[j] in Elements(all);
      assert Precedes(Negated(finite), all[i], all[j]);
    }
  }

  // ---- Replacements ----

  datatype Policy = TechnicalOnly | Weakest | ScoreMargin

  datatype Delta = Delta(outgoing: Ticker, incoming: Ticker, improvement: real)

  datatype DeltaError = NegativeMargin | MissingScores(tickers: seq<Ticker>)

  function WeakestFirst(held: set<Ticker>, selected: set<Ticker>, scores: map<Ticker, real>): seq<Ticker>
    requires held - selected <= scores.Keys
  {
    SortedBy(scores, held - selected)
  }

  function StrongestFirst(held: set<Ticker>, selected: set<Ticker>, scores: map<Ticker, real>): seq<Ticker>
    requires selected - held <= scores.Keys
  {
    SortedBy(Negated(scores), selected - held)
  }

  function PairOf(scores: map<Ticker, real>, leaving: Ticker, arriving: Ticker): Delta
    requires leaving in scores && arriving in scores
  {
    Delta(leaving, arriving, scores[arriving] - scores[leaving])
  }

  /** The first n pairs of two listings. */
  function Pairs(scores: map<Ticker, real>, leaving: seq<Ticker>, arriving: seq<Ticker>, n: nat): (r: seq<Delta>)
    requires n <= |leaving| && n <= |arriving| && Elements(leaving) <= scores.Keys && Elements(arriving) <= scores.Keys
    ensures |r| == n
    ensures forall i :: 0 <= i < n ==>
      leaving[i] in Elements(leaving) && arriving[i] in Elements(arriving)
          && r[i] == PairOf(scores, leaving[i], arriving[i])
  {
    seq(n, i requires 0 <= i < n =>
      assert leaving[i] in Elements(leaving) && arriving[i] in Elements(arriving);
      PairOf(scores, leaving[i], arriving[i]))
  }

  function AtLeast(pairs: seq<Delta>, margin: real): seq<Delta> {
    if pairs == [] then []
    else
      var n := |pairs| - 1;
      AtLeast(pairs[..n], margin) + if pairs[n].improvement >= margin then [pairs[n]] else []
  }

  function Shorter(a: nat, b: nat): nat {
    if a < b then a else b
  }

  function Missing(held: set<Ticker>, selected: set<Ticker>, scores: map<Ticker, real>): set<Ticker> {
    (held - selected) + (selected - held) - scores.Keys
  }

  /** Every newcomer paired off against a dropped holding, strongest against weakest. */
  function AllPairs(held: set<Ticker>, selected: set<Ticker>, scores: map<Ticker, real>): seq<Delta>
    requires Missing(held, selected, scores) == {}
  {
    NoneMissing(held, selected, scores);
    var leaving, arriving := WeakestFirst(held, selected, scores), StrongestFirst(held, selected, scores);
    Pairs(scores, leaving, arriving, Shorter(|leaving|, |arriving|))
  }

  lemma NoneMissing(held: set<Ticker>, selected: set<Ticker>, scores: map<Ticker, real>)
    requires Missing(held, selected, scores) == {}
    ensures held - selected <= scores.Keys && selected - held <= scores.Keys
  {
    forall t | t in (held - selected) + (selected - held)
      ensures t in scores
    {
      assert t !in Missing(held, selected, scores);
    }
  }

  /** target_deltas. */
  function TargetDeltas(held: set<Ticker>, selected: set<Ticker>, scores: map<Ticker, real>, policy: Policy,
                        margin: real)
    : Result<seq<Delta>, DeltaError>
  {
    if policy == TechnicalOnly then Success([])
    else if margin < 0.0 then Failure(NegativeMargin)
    else if Missing(held, selected, scores) != {}
        then Failure(MissingScores(SortedInts(Missing(held, selected, scores))))
    else
      var pairs := AllPairs(held, selected, scores);
      Success(if policy == ScoreMargin then AtLeast(pairs, margin) else pairs)
  }

  /** What the first i pairs come to under the policy. */
  function Emitted(pairs: seq<Delta>, i: nat, byMargin: bool, margin: real): seq<Delta>
    requires i <= |pairs|
  {
    if byMargin then AtLeast(pairs[..i], margin) else pairs[..i]
  }

  lemma EmittedNext(pairs: seq<Delta>, i: nat, byMargin: bool, margin: real)
    requires i < |pairs|
    ensures Emitted(pairs, i + 1, byMargin, margin)
            == Emitted(pairs, i, byMargin, margin)
               + if byMargin && pairs[i].improvement < margin then [] else [pairs[i]]
  {
    PairAdded(pairs, i, margin);
  }

  lemma EmittedEnds(pairs: seq<Delta>, byMargin: bool, margin: real)
    ensures Emitted(pairs, 0, byMargin, margin) == []
    ensures Emitted(pairs, |pairs|, byMargin, margin) == if byMargin then AtLeast(pairs, margin) else pairs
  {
    assert pairs[..|pairs|] == pairs;
  }

  /** The pairing loop: each newcomer against a holding, kept unless the margin policy says otherwise. */
  method PairOff(scores: map<Ticker, real>, weakestFirst: seq<Ticker>, strongestFirst: seq<Ticker>, byMargin: bool,
                 margin: real)
    returns (replacements: seq<Delta>)
    requires Elements(weakestFirst) <= scores.Keys && Elements(strongestFirst) <= scores.Keys
    ensures
      var pairs := Pairs(scores, weakestFirst, strongestFirst, Shorter(|weakestFirst|, |strongestFirst|));
      replacements == if byMargin then AtLeast(pairs, margin) else pairs
  {
    hide Pairs, Elements, AtLeast, Emitted;
    var n := Shorter(|weakestFirst|, |strongestFirst|);
    ghost var pairs := Pairs(scores, weakestFirst, strongestFirst, n);
    EmittedEnds(pairs, byMargin, margin);
    replacements := [];
    for i := 0 to n
      invariant |pairs| == n && replacements == Emitted(pairs, i, byMargin, margin)
    {
      PairListed(scores, weakestFirst, strongestFirst, n, i);
      EmittedNext(pairs, i, byMargin, margin);
      var improvement := scores[strongestFirst[i]] - scores[weakestFirst[i]];
      if byMargin && improvement < margin {
        continue;
      }
      replacements := replacements + [Delta(weakestFirst[i], strongestFirst[i], improvement)];
    }
  }

  lemma PairListed(scores: map<Ticker, real>, leaving: seq<Ticker>, arriving: seq<Ticker>, n: nat, i: nat)
    requires i < n <= |leaving| && n <= |arriving|
    requires Elements(leaving) <= scores.Keys && Elements(arriving) <= scores.Keys
    ensures leaving[i] in scores && arriving[i] in scores
    ensures Pairs(scores, leaving, arriving, n)[i]
            == Delta(leaving[i], arriving[i], scores[arriving[i]] - scores[leaving[i]])
  {
    assert leaving[i] in Elements(leaving) && arriving[i] in Elements(arriving);
  }

  lemma PairAdded(pairs: seq<Delta>, i: nat, margin: real)
    requires i < |pairs|
    ensures pairs[..i + 1] == pairs[..i] + [pairs[i]]
    ensures AtLeast(pairs[..i + 1], margin)
            == if pairs[i].improvement >= margin then AtLeast(pairs[..i], margin) + [pairs[i]]
                else AtLeast(pairs[..i], margin)
  {
    assert pairs[..i + 1][..i] == pairs[..i];
  }

  /** target_deltas as it runs. */
  method PairReplacements(held: set<Ticker>, selected: set<Ticker>, scores: map<Ticker, real>, policy: Policy,
                          margin: real)
    returns (r: Result<seq<Delta>, DeltaError>)
    ensures r == TargetDeltas(held, selected, scores, policy, margin)
  {
    hide SortedBy, Pairs, AtLeast, InOrder, Elements, Negated;
    if policy == TechnicalOnly {
      return Success([]);
    }
    if margin < 0.0 {
      return Failure(NegativeMargin);
    }
    var outgoing, incoming := held - selected, selected - held;
    var missing := (outgoing + incoming) - scores.Keys;
    if missing != {} {
      return Failure(MissingScores(SortedInts(missing)));
    }
    NoneMissing(held, selected, scores);
    NegatedKeys(scores);
    var weakestFirst, strongestFirst := SortedBy(scores, outgoing), SortedBy(Negated(scores), incoming);
    var replacements := PairOff(scores, weakestFirst, strongestFirst, policy == ScoreMargin, margin);
    return Success(replacements);
  }

  lemma NegatedKeys(scores: map<Ticker, real>)
    ensures Negated(scores).Keys == scores.Keys
  {
  }

  // ---- Improvements fall, and no other pairing does better ----

  lemma ImprovementsFall(held: set<Ticker>, selected: set<Ticker>, scores: map<Ticker, real>)
    requires Missing(held, selected, scores) == {}
    ensures
      var pairs := AllPairs(held, selected, scores);
      forall i, j :: 0 <= i < j < |pairs| ==> pairs[i].improvement >= pairs[j].improvement
  {
    NoneMissing(held, selected, scores);
    var leaving, arriving := WeakestFirst(held, selected, scores), StrongestFirst(held, selected, scores);
    var pairs := AllPairs(held, selected, scores);
    forall i, j | 0 <= i < j < |pairs|
      ensures pairs[i].improvement >= pairs[j].improvement
    {
      assert Precedes(scores, leaving[i], leaving[j]) && Precedes(Negated(scores), arriving[i], arriving[j]);
    }
  }

  function WeightIn(w: map<Ticker, real>): Ticker -> real {
    t => if t in w then w[t] else 0.0
  }

  lemma {:induction false} DistinctCount(a: seq<Ticker>)
    requires Distinct(a)
    ensures |Elements(a)| == |a|
  {
    if a == [] {
      assert Elements(a) == {};
    } else {
      var n := |a| - 1;
      DistinctCount(a[..n]);
      assert Elements(a) == Elements(a[..n]) + {a[n]};
      assert a[n] !in Elements(a[..n]);
    }
  }

  /** Among k distinct members at least one lies past the first k - 1 of any listing. */
  lemma OneLies(a: seq<Ticker>, r: seq<Ticker>)
    requires Distinct(a) && a != [] && Elements(a) <= Elements(r) && |a| <= |r|
    ensures exists j :: 0 <= j < |a| && a[j] !in r[..|a| - 1]
  {
    var k := |a| - 1;
    if forall j :: 0 <= j < |a| ==> a[j] in r[..k] {
      DistinctCount(a);
      assert Elements(a) <= Elements(r[..k]);
      ElementsAtMost(r[..k]);
      SubsetCount(Elements(a), Elements(r[..k]));
      assert false;
    }
  }

  lemma {:induction false} ElementsAtMost(a: seq<Ticker>)
    ensures |Elements(a)| <= |a|
  {
    if a == [] {
      assert Elements(a) == {};
    } else {
      ElementsAtMost(a[..|a| - 1]);
      assert Elements(a) == Elements(a[..|a| - 1]) + {a[|a| - 1]};
    }
  }

  lemma SumWithout(a: seq<Ticker>, j: nat, w: Ticker -> real)
    requires j < |a|
    ensures SeqSum(a, w) == SeqSum(a[..j] + a[j + 1..], w) + w(a[j])
  {
    hide SeqSum;
    SeqSumConcat(a[..j], a[j + 1..], w);
    SeqSumConcat(a[..j + 1], a[j + 1..], w);
    assert a == a[..j + 1] + a[j + 1..] && a[..j + 1] == a[..j] + [a[j]];
    SeqSumPush(a[..j], a[j], w);
  }

  /** No choice of distinct members weighs less than as many taken from the front of the ascending listing. */
  lemma {:induction false} FrontWeighsLeast(w: map<Ticker, real>, r: seq<Ticker>, a: seq<Ticker>)
    requires Elements(r) <= w.Keys && InOrder(w, r) && Distinct(a) && Elements(a) <= Elements(r) && |a| <= |r|
    ensures SeqSum(r[..|a|], WeightIn(w)) <= SeqSum(a, WeightIn(w))
    decreases |a|
  {
    hide InOrder, WeightIn;
    if a == [] {
      assert r[..0] == [];
    } else {
      var k := |a| - 1;
      OneLies(a, r);
      var j :| 0 <= j < |a| && a[j] !in r[..k];
      var rest := a[..j] + a[j + 1..];
      RestDistinct(a, j);
      assert a[j] in Elements(a) && a[j] in Elements(r);
      hide Elements, Distinct, SeqSum;
      FrontWeighsLeast(w, r, rest);
      SumWithout(a, j, WeightIn(w));
      assert r[..k + 1] == r[..k] + [r[k]];
      SeqSumPush(r[..k], r[k], WeightIn(w));
      LaterWeighsMore(w, r, k, a[j]);
    }
  }

  lemma RestDistinct(a: seq<Ticker>, j: nat)
    requires Distinct(a) && j < |a|
    ensures
      var rest := a[..j] + a[j + 1..];
      |rest| == |a| - 1 && Distinct(rest) && Elements(rest) <= Elements(a)
  {
    var rest := a[..j] + a[j + 1..];
    assert forall i :: 0 <= i < |rest| ==> rest[i] == a[if i < j then i else i + 1] && rest[i] in Elements(a);
  }

  lemma LaterWeighsMore(w: map<Ticker, real>, r: seq<Ticker>, k: nat, x: Ticker)
    requires Elements(r) <= w.Keys && InOrder(w, r) && k < |r| && x in r && x !in r[..k]
    ensures WeightIn(w)(r[k]) <= WeightIn(w)(x)
  {
    var i :| 0 <= i < |r| && r[i] == x;
    assert r[k] in Elements(r) && x in Elements(r);
    if i != k {
      assert Precedes(w, r[k], r[i]);
    }
  }

  function Gain(d: Delta): real {
    d.improvement
  }

  lemma {:induction false} PairsTotal(scores: map<Ticker, real>, leaving: seq<Ticker>, arriving: seq<Ticker>, n: nat)
    requires n <= |leaving| && n <= |arriving| && Elements(leaving) <= scores.Keys && Elements(arriving) <= scores.Keys
    ensures SeqSum(Pairs(scores, leaving, arriving, n), Gain)
            == SeqSum(arriving[..n], WeightIn(scores)) - SeqSum(leaving[..n], WeightIn(scores))
  {
    if n == 0 {
      assert Pairs(scores, leaving, arriving, 0) == [] && arriving[..0] == [] && leaving[..0] == [];
    } else {
      PairsNext(scores, leaving, arriving, n - 1);
      hide WeightIn, SeqSum, Pairs, Gain, PairOf, Elements;
      PairsTotal(scores, leaving, arriving, n - 1);
      FrontNext(leaving, n - 1, WeightIn(scores));
      FrontNext(arriving, n - 1, WeightIn(scores));
      SeqSumPush(Pairs(scores, leaving, arriving, n - 1), PairOf(scores, leaving[n - 1], arriving[n - 1]), Gain);
      PairGain(scores, leaving[n - 1], arriving[n - 1]);
    }
  }

  lemma PairsNext(scores: map<Ticker, real>, leaving: seq<Ticker>, arriving: seq<Ticker>, n: nat)
    requires n < |leaving| && n < |arriving| && Elements(leaving) <= scores.Keys && Elements(arriving) <= scores.Keys
    ensures leaving[n] in scores && arriving[n] in scores
    ensures Pairs(scores, leaving, arriving, n + 1)
            == Pairs(scores, leaving, arriving, n) + [PairOf(scores, leaving[n], arriving[n])]
  {
    hide PairOf;
    assert leaving[n] in Elements(leaving) && arriving[n] in Elements(arriving);
  }

  lemma FrontNext(a: seq<Ticker>, n: nat, w: Ticker -> real)
    requires n < |a|
    ensures SeqSum(a[..n + 1], w) == SeqSum(a[..n], w) + w(a[n])
  {
    hide SeqSum;
    assert a[..n + 1] == a[..n] + [a[n]];
    SeqSumPush(a[..n], a[n], w);
  }

  lemma PairGain(scores: map<Ticker, real>, leaving: Ticker, arriving: Ticker)
    requires leaving in scores && arriving in scores
    ensures Gain(PairOf(scores, leaving, arriving)) == WeightIn(scores)(arriving) - WeightIn(scores)(leaving)
  {
  }

  lemma {:induction false} NegatedSum(scores: map<Ticker, real>, a: seq<Ticker>)
    ensures SeqSum(a, WeightIn(Negated(scores))) == -SeqSum(a, WeightIn(scores))
  {
    if a != [] {
      NegatedSum(scores, a[..|a| - 1]);
    }
  }

  /**
   The pairing is best possible. Pair off any distinct dropped holdings against
   as many distinct newcomers, in any order: the total improvement is at most
   that of as many of the emitted pairs.
   */
  lemma NoPairingBeats(held: set<Ticker>, selected: set<Ticker>, scores: map<Ticker, real>, leaving: seq<Ticker>,
                       arriving: seq<Ticker>)
    requires Missing(held, selected, scores) == {}
    requires |leaving| == |arriving| <= |AllPairs(held, selected, scores)| && Distinct(leaving) && Distinct(arriving)
    requires Elements(leaving) <= held - selected && Elements(arriving) <= selected - held
    ensures Elements(leaving) <= scores.Keys && Elements(arriving) <= scores.Keys
    ensures SeqSum(Pairs(scores, leaving, arriving, |leaving|), Gain)
            <= SeqSum(AllPairs(held, selected, scores)[..|leaving|], Gain)
  {
    hide *;
    NoneMissing(held, selected, scores);
    NegatedKeys(scores);
    var weakest, strongest := SortedBy(scores, held - selected), SortedBy(Negated(scores), selected - held);
    var n := |leaving|;
    PairsFront(held, selected, scores, n);
    assert leaving[..n] == leaving && arriving[..n] == arriving;
    PairsTotal(scores, leaving, arriving, n);
    PairsTotal(scores, weakest, strongest, n);
    FrontWeighsLeast(scores, weakest, leaving);
    FrontWeighsLeast(Negated(scores), strongest, arriving);
    NegatedSum(scores, arriving);
    NegatedSum(scores, strongest[..n]);
  }

  lemma PairsFront(held: set<Ticker>, selected: set<Ticker>, scores: map<Ticker, real>, n: nat)
    requires Missing(held, selected, scores) == {} && n <= |AllPairs(held, selected, scores)|
    ensures held - selected <= scores.Keys && selected - held <= Negated(scores).Keys == scores.Keys
    ensures
      var weakest, strongest := SortedBy(scores, held - selected), SortedBy(Negated(scores), selected - held);
      && n <= |weakest| && n <= |strongest|
      && AllPairs(held, selected, scores)[..n] == Pairs(scores, weakest, strongest, n)
  {
    NoneMissing(held, selected, scores);
    NegatedKeys(scores);
    var weakest, strongest := SortedBy(scores, held - selected), SortedBy(Negated(scores), selected - held);
    hide SortedBy, InOrder, Elements, Missing, Negated, PairOf;
    PairsPrefix(scores, weakest, strongest, Shorter(|weakest|, |strongest|), n);
  }

  lemma PairsPrefix(scores: map<Ticker, real>, leaving: seq<Ticker>, arriving: seq<Ticker>, m: nat, n: nat)
    requires n <= m <= |leaving| && m <= |arriving|
    requires Elements(leaving) <= scores.Keys && Elements(arriving) <= scores.Keys
    ensures Pairs(scores, leaving, arriving, m)[..n] == Pairs(scores, leaving, arriving, n)
  {
    hide PairOf, Elements;
  }

  // ---- Margins ----

  lemma {:induction false} MarginPrefix(pairs: seq<Delta>, margin: real)
    requires forall i, j :: 0 <= i < j < |pairs| ==> pairs[i].improvement >= pairs[j].improvement
    ensures AtLeast(pairs, margin) <= pairs
    ensures forall i :: 0 <= i < |pairs| ==> (i < |AtLeast(pairs, margin)| <==> pairs[i].improvement >= margin)
  {
    if pairs != [] {
      var n := |pairs| - 1;
      MarginPrefix(pairs[..n], margin);
      assert pairs == pairs[..n] + [pairs[n]];
      if pairs[n].improvement >= margin {
        assert forall i :: 0 <= i < n ==> pairs[..n][i].improvement >= margin;
        assert n > 0 ==> n - 1 < |AtLeast(pairs[..n], margin)|;
      }
    }
  }

  /** The score-margin policy emits a prefix of the weakest policy's pairs: exactly those that clear the margin. */
  lemma MarginEmitsPrefix(held: set<Ticker>, selected: set<Ticker>, scores: map<Ticker, real>, margin: real)
    requires margin >= 0.0 && Missing(held, selected, scores) == {}
    ensures TargetDeltas(held, selected, scores, ScoreMargin, margin).Success?
    ensures TargetDeltas(held, selected, scores, Weakest, margin).Success?
    ensures
      var some, all := TargetDeltas(held, selected, scores, ScoreMargin, margin).value,
                       TargetDeltas(held, selected, scores, Weakest, margin).value;
      && some <= all
      && forall i :: 0 <= i < |all| ==> (i < |some| <==> all[i].improvement >= margin)
  {
    hide AllPairs, AtLeast;
    ImprovementsFall(held, selected, scores);
    MarginPrefix(AllPairs(held, selected, scores), margin);
  }

  /**
   When the selection is the top of a ranking that scores every holding, no
   replacement makes the portfolio worse.
   */
  lemma RankedSelectionNeverWorse(held: set<Ticker>, scores: map<Ticker, Option<real>>, topN: int, policy: Policy,
                                  margin: real)
    requires topN > 0 && InvalidScores(scores) == {} && held <= scores.Keys && margin >= 0.0
    ensures RankComplete(scores, topN).Success?
    ensures
      var r := TargetDeltas(held, Elements(RankComplete(scores, topN).value), Finite(scores), policy, margin);
      r.Success? && forall d :: d in r.value ==> d.improvement >= 0.0
  {
    RankingIsTop(scores, topN);
    var selected, finite := Elements(RankComplete(scores, topN).value), Finite(scores);
    assert forall t :: t in held ==> t !in InvalidScores(scores) && t in finite;
    hide RankComplete, Finite, InvalidScores;
    assert Missing(held, selected, finite) == {};
    TopPairsGain(held, selected, finite);
    hide *;
    ImprovementsFall(held, selected, finite);
    DeltasWithin(held, selected, finite, policy, margin);
  }

  /** Every delta emitted is one of the pairs. */
  lemma DeltasWithin(held: set<Ticker>, selected: set<Ticker>, scores: map<Ticker, real>, policy: Policy, margin: real)
    requires margin >= 0.0 && Missing(held, selected, scores) == {}
    requires
      var pairs := AllPairs(held, selected, scores);
      forall i, j :: 0 <= i < j < |pairs| ==> pairs[i].improvement >= pairs[j].improvement
    ensures TargetDeltas(held, selected, scores, policy, margin).Success?
    ensures forall d :: d in TargetDeltas(held, selected, scores, policy, margin).value ==>
      d in AllPairs(held, selected, scores)
  {
    hide AllPairs, AtLeast;
    MarginPrefix(AllPairs(held, selected, scores), margin);
  }

  lemma TopPairsGain(held: set<Ticker>, selected: set<Ticker>, scores: map<Ticker, real>)
    requires Missing(held, selected, scores) == {}
    requires selected <= scores.Keys && held <= scores.Keys
    requires forall a, b :: a in selected && b in scores && b !in selected ==> Beats(scores, a, b)
    ensures forall d :: d in AllPairs(held, selected, scores) ==> d.improvement >= 0.0
  {
    NoneMissing(held, selected, scores);
    hide SortedBy, InOrder;
    var pairs := AllPairs(held, selected, scores);
    var weakest, strongest := WeakestFirst(held, selected, scores), StrongestFirst(held, selected, scores);
    forall i | 0 <= i < |pairs|
      ensures pairs[i].improvement >= 0.0
    {
      assert weakest[i] in Elements(weakest) && strongest[i] in Elements(strongest);
      assert Beats(scores, strongest[i], weakest[i]);
    }
  }

  // ---- What is emitted, and when nothing is ----

  /** The first k of a listing by ascending weight are of the set listed, apart, and before everything else in it. */
  lemma FrontIsFirst(w: map<Ticker, real>, s: set<Ticker>, k: nat)
    requires s <= w.Keys && k <= |SortedBy(w, s)|
    ensures
      var r := SortedBy(w, s);
      && (forall i :: 0 <= i < k ==> r[i] in s) && (forall i, j :: 0 <= i < j < k ==> r[i] != r[j])
      && forall i, t :: 0 <= i < k && t in s && t !in r[..k] ==> Precedes(w, r[i], t)
  {
    var r := SortedBy(w, s);
    hide SortedBy, Precedes;
    assert forall i :: 0 <= i < |r| ==> r[i] in Elements(r);
    forall i, j | 0 <= i < j < |r|
      ensures r[i] != r[j]
    {
      assert Precedes(w, r[i], r[j]);
      NotBeforeItself(w, r[i]);
    }
    forall i, t | 0 <= i < k && t in s && t !in r[..k]
      ensures Precedes(w, r[i], t)
    {
      assert t in Elements(r);
      var j :| 0 <= j < |r| && r[j] == t;
    }
  }

  lemma NotBeforeItself(w: map<Ticker, real>, t: Ticker)
    requires t in w
    ensures !Precedes(w, t, t)
  {
  }

  /** A replacement of a dropped holding by a newcomer, at the difference of their scores. */
  predicate Replaces(held: set<Ticker>, selected: set<Ticker>, scores: map<Ticker, real>, d: Delta) {
    && d.outgoing in held && d.outgoing !in selected && d.incoming in selected && d.incoming !in held
    && d.outgoing in scores && d.incoming in scores && d.improvement == scores[d.incoming] - scores[d.outgoing]
  }

  /** A holding left in place is no weaker than one replaced, and a newcomer left out no stronger than one let in. */
  ghost predicate WeakestOut(held: set<Ticker>, selected: set<Ticker>, scores: map<Ticker, real>, pairs: seq<Delta>) {
    forall d, t :: d in pairs && d.outgoing in scores && t in held && t !in selected && t in scores
                   && (forall e :: e in pairs ==> e.outgoing != t) ==>
      scores[d.outgoing] < scores[t] || (scores[d.outgoing] == scores[t] && d.outgoing < t)
  }

  ghost predicate StrongestIn(held: set<Ticker>, selected: set<Ticker>, scores: map<Ticker, real>, pairs: seq<Delta>) {
    forall d, t :: d in pairs && d.incoming in scores && t in selected && t !in held && t in scores
                   && (forall e :: e in pairs ==> e.incoming != t) ==>
      scores[d.incoming] > scores[t] || (scores[d.incoming] == scores[t] && d.incoming < t)
  }

  lemma PairsAre(held: set<Ticker>, selected: set<Ticker>, scores: map<Ticker, real>)
    requires Missing(held, selected, scores) == {}
    ensures held - selected <= scores.Keys && selected - held <= scores.Keys == Negated(scores).Keys
    ensures
      var pairs, leaving, arriving := AllPairs(held, selected, scores), SortedBy(scores, held - selected),
                                      SortedBy(Negated(scores), selected - held);
      && |leaving| == |held - selected| && |arriving| == |selected - held|
      && |pairs| == (if |leaving| <= |arriving| then |leaving| else |arriving|)
      && forall i :: 0 <= i < |pairs| ==>
           leaving[i] in scores && arriving[i] in scores && pairs[i] == PairOf(scores, leaving[i], arriving[i])
  {
    NoneMissing(held, selected, scores);
    NegatedKeys(scores);
    hide InOrder, PairOf, Missing;
    assert forall t :: t in Elements(SortedBy(scores, held - selected)) ==> t in scores;
    assert forall t :: t in Elements(SortedBy(Negated(scores), selected - held)) ==> t in scores;
    hide SortedBy, Negated;
  }

  lemma PairReplaces(held: set<Ticker>, selected: set<Ticker>, scores: map<Ticker, real>, leaving: Ticker,
                     arriving: Ticker)
    requires leaving in held - selected && arriving in selected - held && leaving in scores && arriving in scores
    ensures Replaces(held, selected, scores, PairOf(scores, leaving, arriving))
  {
  }

  lemma OutIsWeakest(held: set<Ticker>, selected: set<Ticker>, scores: map<Ticker, real>)
    requires Missing(held, selected, scores) == {}
    ensures WeakestOut(held, selected, scores, AllPairs(held, selected, scores))
  {
    hide AllPairs, SortedBy, InOrder, Elements, Missing;
    PairsAre(held, selected, scores);
    var pairs, leaving := AllPairs(held, selected, scores), SortedBy(scores, held - selected);
    FrontIsFirst(scores, held - selected, |pairs|);
    forall d, t | d in pairs && d.outgoing in scores && t in held && t !in selected && t in scores
                  && forall e :: e in pairs ==> e.outgoing != t
      ensures scores[d.outgoing] < scores[t] || (scores[d.outgoing] == scores[t] && d.outgoing < t)
    {
      var i :| 0 <= i < |pairs| && pairs[i] == d;
      assert forall k :: 0 <= k < |pairs| ==> pairs[k] in pairs && leaving[k] != t;
      assert t !in leaving[..|pairs|] && t in held - selected;
      assert Precedes(scores, leaving[i], t);
    }
  }

  lemma InIsStrongest(held: set<Ticker>, selected: set<Ticker>, scores: map<Ticker, real>)
    requires Missing(held, selected, scores) == {}
    ensures StrongestIn(held, selected, scores, AllPairs(held, selected, scores))
  {
    hide AllPairs, SortedBy, InOrder, Elements, Missing;
    PairsAre(held, selected, scores);
    var pairs, arriving := AllPairs(held, selected, scores), SortedBy(Negated(scores), selected - held);
    FrontIsFirst(Negated(scores), selected - held, |pairs|);
    forall d, t | d in pairs && d.incoming in scores && t in selected && t !in held && t in scores
                  && forall e :: e in pairs ==> e.incoming != t
      ensures scores[d.incoming] > scores[t] || (scores[d.incoming] == scores[t] && d.incoming < t)
    {
      var i :| 0 <= i < |pairs| && pairs[i] == d;
      assert forall k :: 0 <= k < |pairs| ==> pairs[k] in pairs && arriving[k] != t;
      assert t !in arriving[..|pairs|] && t in selected - held;
      assert Precedes(Negated(scores), arriving[i], t);
    }
  }

  /**
   The pairs of the weakest policy: as many as there are dropped holdings or
   newcomers, whichever are fewer, each ticker in one pair, the weakest holdings
   replaced and the strongest newcomers let in.
   */
  lemma DeltasMean(held: set<Ticker>, selected: set<Ticker>, scores: map<Ticker, real>)
    requires Missing(held, selected, scores) == {}
    ensures
      var pairs, out, into := AllPairs(held, selected, scores), |held - selected|, |selected - held|;
      && |pairs| == (if out <= into then out else into)
      && (forall d :: d in pairs ==> Replaces(held, selected, scores, d))
      && (forall i, j :: 0 <= i < j < |pairs| ==>
            pairs[i].outgoing != pairs[j].outgoing && pairs[i].incoming != pairs[j].incoming)
      && WeakestOut(held, selected, scores, pairs) && StrongestIn(held, selected, scores, pairs)
  {
    hide AllPairs, SortedBy, InOrder, Elements, Missing, Replaces, WeakestOut, StrongestIn, Precedes;
    PairsAre(held, selected, scores);
    OutIsWeakest(held, selected, scores);
    InIsStrongest(held, selected, scores);
    var pairs := AllPairs(held, selected, scores);
    FrontIsFirst(scores, held - selected, |pairs|);
    FrontIsFirst(Negated(scores), selected - held, |pairs|);
    forall d | d in pairs
      ensures Replaces(held, selected, scores, d)
    {
      var i :| 0 <= i < |pairs| && pairs[i] == d;
      PairReplaces(held, selected, scores, SortedBy(scores, held - selected)[i],
                   SortedBy(Negated(scores), selected - held)[i]);
    }
  }

  /** A replacement is asked for in vain exactly when the margin is below zero or a name it touches has no score. */
  lemma DeltasFail(held: set<Ticker>, selected: set<Ticker>, scores: map<Ticker, real>, policy: Policy, margin: real)
    ensures
      var r := TargetDeltas(held, selected, scores, policy, margin);
      var unscored := set t | t in held + selected && !(t in held && t in selected) && t !in scores;
      && (policy == TechnicalOnly ==> r == Success([]))
      && (r == Failure(NegativeMargin) <==> policy != TechnicalOnly && margin < 0.0)
      && (r.Failure? && r.error.MissingScores? <==> policy != TechnicalOnly && margin >= 0.0 && unscored != {})
      && (r.Failure? && r.error.MissingScores? ==> Ascending(r.error.tickers) && Elements(r.error.tickers) == unscored)
  {
    var unscored := set t | t in held + selected && !(t in held && t in selected) && t !in scores;
    assert unscored == Missing(held, selected, scores);
    SortedElements(unscored);
    hide AllPairs, AtLeast, Missing;
  }

  /** A ranking is refused exactly for an empty top or a score that is not finite, which it names. */
  lemma RankFails(scores: map<Ticker, Option<real>>, topN: int)
    ensures
      var r, bad := RankComplete(scores, topN), set t | t in scores && scores[t].None?;
      && (r == Failure(TopNotPositive) <==> topN <= 0)
      && (r.Failure? && r.error.NonFinite? <==> topN > 0 && bad != {})
      && (r.Failure? && r.error.NonFinite? ==> Ascending(r.error.tickers) && Elements(r.error.tickers) == bad)
  {
    SortedElements(InvalidScores(scores));
    hide SortedBy, InOrder;
  }
}
