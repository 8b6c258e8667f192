/**
 Small shared vocabulary: optional values, results that may fail, sums over
 sequences, and the ascending listing that Python's sorted() gives of a set.
 */
module Basics {

  datatype Option<+T> = None | Some(value: T)

  datatype Result<+T, +E> = Success(value: T) | Failure(error: E) {
    predicate IsFailure() {
      Failure?
    }

    function PropagateFailure<U>(): Result<U, E>
      requires Failure?
    {
      Failure(error)
    }

    function Extract(): T
      requires Success?
    {
      value
    }
  }

  function Max(x: real, y: real): real {
    if x >= y then x else y
  }

  function Min(x: real, y: real): real {
    if x <= y then x else y
  }

  function Abs(x: real): real {
    if x >= 0.0 then x else -x
  }

  /** A product, named so that proofs can keep it whole. */
  function Times(x: real, y: real): real {
    x * y
  }

  lemma TimesOrder(x: real, y: real, k: real)
    requires k > 0.0
    ensures x < y <==> x * k < y * k
  {
    assert (y - x) * k == y * k - x * k;
  }

  /** Python's round() to a whole number: to the nearest, ties to even. */
  function RoundHalfEven(x: real): (n: int)
    ensures -0.5 <= x - n as real <= 0.5
    ensures x - n as real == 0.5 || x - n as real == -0.5 ==> n % 2 == 0
  {
    var f := x.Floor;
    var rest := x - f as real;
    if rest < 0.5 || (rest == 0.5 && f % 2 == 0) then f else f + 1
  }

  /** Python's round() to a number of decimal places, given as a power of ten. */
  function RoundTo(x: real, scale: int): real
    requires scale > 0
  {
    RoundHalfEven(x * scale as real) as real / scale as real
  }

  ghost predicate Distinct<T>(s: seq<T>) {
    forall i, j :: 0 <= i < j < |s| ==> s[i] != s[j]
  }

  ghost predicate Ascending(s: seq<int>) {
    forall i, j :: 0 <= i < j < |s| ==> s[i] < s[j]
  }

  function Elements<T>(s: seq<T>): set<T> {
    set x | x in s
  }

  lemma SubsetCount(a: set<int>, b: set<int>)
    requires a <= b
    ensures |a| <= |b|
  {
    assert b == a + (b - a);
  }

  // ---- sorted() of a set of integers ----

  lemma {:induction false} LeastExists(s: set<int>)
    requires |s| > 0
    ensures exists m :: m in s && forall x :: x in s ==> m <= x
  {
    assert (forall y :: y !in s) ==> s == {};
    var y :| y in s;
    var rest := s - {y};
    if |rest| == 0 {
      assert forall x :: x in s ==> x == y || x in rest;
    } else {
      LeastExists(rest);
      var m :| m in rest && forall x :: x in rest ==> m <= x;
      var k := if m < y then m else y;
      assert k in s;
      assert forall x :: x in s ==> x == y || x in rest;
    }
  }

  function SortedInts(s: set<int>): (r: seq<int>)
    ensures Ascending(r)
    ensures forall x :: x in r <==> x in s
    decreases |s|
  {
    if |s| == 0 then
      []
    else
      LeastExists(s);
      var m :| m in s && forall x :: x in s ==> m <= x;
      [m] + SortedInts(s - {m})
  }

  lemma SortedElements(s: set<int>)
    ensures Elements(SortedInts(s)) == s
  {
  }

  /** An ascending sequence is determined by its elements. */
  lemma {:induction false} AscendingUnique(a: seq<int>, b: seq<int>)
    requires Ascending(a) && Ascending(b) && Elements(a) == Elements(b)
    ensures a == b
  {
    if a == [] {
      assert forall i :: 0 <= i < |b| ==> b[i] in Elements(b);
    } else {
      assert a[0] in Elements(b);
      assert b != [] && b[0] in Elements(a);
      var i :| 0 <= i < |b| && b[i] == a[0];
      var j :| 0 <= j < |a| && a[j] == b[0];
      assert a[0] == b[0];
      forall x
        ensures x in Elements(a[1..]) <==> x in Elements(b[1..])
      {
        assert x in Elements(a) <==> x in Elements(b);
        assert x in a[1..] <==> x in a && x != a[0];
        assert x in b[1..] <==> x in b && x != b[0];
      }
      AscendingUnique(a[1..], b[1..]);
      assert a == [a[0]] + a[1..] && b == [b[0]] + b[1..];
    }
  }

  // ---- Positions in a sequence ----

  /** The last place of an element. */
  function IndexOf(s: seq<int>, d: int): (r: Option<nat>)
    ensures r.Some? ==> r.value < |s| && s[r.value] == d
    ensures r.None? ==> d !in s
  {
    if s == [] then None
    else if s[|s| - 1] == d then Some(|s| - 1)
    else IndexOf(s[..|s| - 1], d)
  }

  lemma AscendingIndex(s: seq<int>, i: nat)
    requires Ascending(s) && i < |s|
    ensures IndexOf(s, s[i]) == Some(i)
  {
  }

  lemma {:induction false} PrefixIndex(s: seq<int>, n: nat, d: int)
    requires n <= |s| && forall i :: n <= i < |s| ==> s[i] != d
    ensures IndexOf(s[..n], d) == IndexOf(s, d)
  {
    if n < |s| {
      assert s[..|s| - 1][..n] == s[..n];
      PrefixIndex(s[..|s| - 1], n, d);
    } else {
      assert s[..n] == s;
    }
  }

  // ---- Sums along a sequence of keys ----

  /** The sum of f over the first n keys. */
  function SumTo(keys: seq<int>, n: nat, f: int -> real): real
    requires n <= |keys|
  {
    if n == 0 then 0.0 else SumTo(keys, n - 1, f) + f(keys[n - 1])
  }

  function Sum(keys: seq<int>, f: int -> real): real {
    SumTo(keys, |keys|, f)
  }

  lemma {:induction false} SumAgree(keys: seq<int>, n: nat, f: int -> real, g: int -> real)
    requires n <= |keys|
    requires forall i :: 0 <= i < n ==> f(keys[i]) == g(keys[i])
    ensures SumTo(keys, n, f) == SumTo(keys, n, g)
  {
    if n > 0 {
      SumAgree(keys, n - 1, f, g);
    }
  }

  /** Changing the summand at one key changes the sum by that difference. */
  lemma {:induction false} SumChange(keys: seq<int>, n: nat, f: int -> real, g: int -> real, k: int)
    requires n <= |keys| && Distinct(keys)
    requires forall i :: 0 <= i < n && keys[i] != k ==> f(keys[i]) == g(keys[i])
    ensures SumTo(keys, n, g) == SumTo(keys, n, f) + if k in keys[..n] then g(k) - f(k) else 0.0
  {
    if n > 0 {
      assert keys[..n] == keys[..n - 1] + [keys[n - 1]];
      SumChange(keys, n - 1, f, g, k);
    }
  }

  lemma {:induction false} SumNonNegative(keys: seq<int>, n: nat, f: int -> real)
    requires n <= |keys|
    requires forall i :: 0 <= i < n ==> f(keys[i]) >= 0.0
    ensures SumTo(keys, n, f) >= 0.0
  {
    if n > 0 {
      SumNonNegative(keys, n - 1, f);
    }
  }

  lemma {:induction false} SumToAtMost(keys: seq<int>, n: nat, m: nat, f: int -> real)
    requires n <= m <= |keys| && forall i :: 0 <= i < m ==> f(keys[i]) >= 0.0
    ensures SumTo(keys, n, f) <= SumTo(keys, m, f)
  {
    if n < m {
      SumToAtMost(keys, n, m - 1, f);
    }
  }

  // ---- Sums along a sequence of values ----

  function SeqSum<T>(s: seq<T>, w: T -> real): real {
    if s == [] then 0.0 else SeqSum(s[..|s| - 1], w) + w(s[|s| - 1])
  }

  lemma SeqSumPush<T>(s: seq<T>, x: T, w: T -> real)
    ensures SeqSum(s + [x], w) == SeqSum(s, w) + w(x)
  {
    assert (s + [x])[..|s|] == s;
  }

  lemma {:induction false} SeqSumConcat<T>(a: seq<T>, b: seq<T>, w: T -> real)
    ensures SeqSum(a + b, w) == SeqSum(a, w) + SeqSum(b, w)
  {
    if b == [] {
      assert a + b == a;
    } else {
      var n := |b| - 1;
      assert (a + b)[..|a| + n] == a + b[..n];
      SeqSumConcat(a, b[..n], w);
    }
  }

  lemma {:induction false} SeqSumAgree<T>(s: seq<T>, v: T -> real, w: T -> real)
    requires forall x :: x in s ==> v(x) == w(x)
    ensures SeqSum(s, v) == SeqSum(s, w)
  {
    if s != [] {
      SeqSumAgree(s[..|s| - 1], v, w);
    }
  }
}
