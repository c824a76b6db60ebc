/** Python's list comprehensions and sum/min/max over the values a
    statistics routine collects. */
module Seqs {
  import opened Json

  /** [x for x in xs if p(x)] */
  function Filter<T>(xs: seq<T>, p: T -> bool): seq<T> {
    if xs == [] then [] else (if p(xs[0]) then [xs[0]] else []) + Filter(xs[1..], p)
  }

  /** A filtered list holds exactly the elements that pass, and never more
      elements than its source. */
  lemma {:induction false} FilterMembers<T>(xs: seq<T>, p: T -> bool)
    ensures |Filter(xs, p)| <= |xs|
    ensures forall x :: x in Filter(xs, p) <==> x in xs && p(x)
  {
    if xs != [] {
      FilterMembers(xs[1..], p);
      assert xs == [xs[0]] + xs[1..];
    }
  }

  /** Filtering keeps the relative order: filtering a concatenation is
      the concatenation of the filtered parts. */
  lemma {:induction false} FilterAppend<T>(xs: seq<T>, ys: seq<T>, p: T -> bool)
    ensures Filter(xs + ys, p) == Filter(xs, p) + Filter(ys, p)
  {
    if xs == [] {
      assert xs + ys == ys;
    } else {
      var zs := xs + ys;
      assert zs[0] == xs[0];
      assert zs[1..] == xs[1..] + ys;
      FilterAppend(xs[1..], ys, p);
      var h := if p(xs[0]) then [xs[0]] else [];
      calc {
        Filter(zs, p);
        h + Filter(zs[1..], p);
        h + (Filter(xs[1..], p) + Filter(ys, p));
        (h + Filter(xs[1..], p)) + Filter(ys, p);
      }
    }
  }

  /** When every element passes, nothing is removed. */
  lemma {:induction false} FilterAll<T>(xs: seq<T>, p: T -> bool)
    requires forall k | 0 <= k < |xs| :: p(xs[k])
    ensures Filter(xs, p) == xs
  {
    if xs != [] {
      FilterAll(xs[1..], p);
    }
  }

  /** When no element passes, nothing is kept. */
  lemma {:induction false} FilterNone<T>(xs: seq<T>, p: T -> bool)
    requires forall k | 0 <= k < |xs| :: !p(xs[k])
    ensures Filter(xs, p) == []
  {
    if xs != [] {
      FilterNone(xs[1..], p);
    }
  }

  /** sum(xs) */
  function Sum(xs: seq<int>): int {
    if xs == [] then 0 else xs[0] + Sum(xs[1..])
  }

  /** sum(xs) over floats */
  function SumReal(xs: seq<real>): real {
    if xs == [] then 0.0 else xs[0] + SumReal(xs[1..])
  }

  lemma {:induction false} SumAppend(xs: seq<int>, ys: seq<int>)
    ensures Sum(xs + ys) == Sum(xs) + Sum(ys)
  {
    if xs == [] {
      assert xs + ys == ys;
    } else {
      SumAppend(xs[1..], ys);
      assert (xs + ys)[1..] == xs[1..] + ys;
    }
  }

  lemma {:induction false} SumNonNegative(xs: seq<int>)
    requires forall k | 0 <= k < |xs| :: xs[k] >= 0
    ensures Sum(xs) >= 0
  {
    if xs != [] {
      SumNonNegative(xs[1..]);
    }
  }

  /** max(xs) of a non-empty list */
  function Max(xs: seq<int>): int
    requires xs != []
  {
    if |xs| == 1 then xs[0] else var m := Max(xs[1..]); if xs[0] >= m then xs[0] else m
  }

  /** min(xs) of a non-empty list */
  function Min(xs: seq<int>): int
    requires xs != []
  {
    if |xs| == 1 then xs[0] else var m := Min(xs[1..]); if xs[0] <= m then xs[0] else m
  }

  /** max and min are elements of the list and bound every element. */
  lemma {:induction false} MaxMinBound(xs: seq<int>)
    requires xs != []
    ensures Max(xs) in xs && Min(xs) in xs
    ensures forall k | 0 <= k < |xs| :: Min(xs) <= xs[k] <= Max(xs)
  {
    if |xs| > 1 {
      MaxMinBound(xs[1..]);
      forall k | 1 <= k < |xs| ensures Min(xs) <= xs[k] <= Max(xs) {
        assert xs[k] == xs[1..][k - 1];
      }
    }
  }

  /** A lower bound on every element bounds the sum from below. */
  lemma {:induction false} SumAtLeast(xs: seq<int>, lo: int)
    requires forall k | 0 <= k < |xs| :: lo <= xs[k]
    ensures |xs| * lo <= Sum(xs)
  {
    if xs != [] {
      SumAtLeast(xs[1..], lo);
      assert |xs| * lo == lo + |xs[1..]| * lo;
    }
  }

  /** An upper bound on every element bounds the sum from above. */
  lemma {:induction false} SumAtMost(xs: seq<int>, hi: int)
    requires forall k | 0 <= k < |xs| :: xs[k] <= hi
    ensures Sum(xs) <= |xs| * hi
  {
    if xs != [] {
      SumAtMost(xs[1..], hi);
      assert |xs| * hi == hi + |xs[1..]| * hi;
    }
  }

  /** sum(xs) / len(xs) of a non-empty list of integers (true division). */
  function Mean(xs: seq<int>): real
    requires xs != []
  {
    Sum(xs) as real / |xs| as real
  }

  lemma QuotientBounds(s: real, n: real, lo: real, hi: real)
    requires n > 0.0 && n * lo <= s <= n * hi
    ensures lo <= s / n <= hi
  {
  }

  /** The average of a non-empty list lies between its minimum and maximum. */
  lemma {:induction false} MeanBetweenMinMax(xs: seq<int>)
    requires xs != []
    ensures Min(xs) as real <= Mean(xs) <= Max(xs) as real
  {
    MaxMinBound(xs);
    SumAtLeast(xs, Min(xs));
    SumAtMost(xs, Max(xs));
    QuotientBounds(Sum(xs) as real, |xs| as real, Min(xs) as real, Max(xs) as real);
  }

  /** An average per day in hours, (total / n) / 3600, scales back to the
      summed seconds. */
  lemma HoursScaleBack(hours: real, total: real, n: real)
    requires n > 0.0 && hours == (total / n) / 3600.0
    ensures hours * 3600.0 * n == total
  {
  }

  /** [v for v in xs if v]: the present, non-zero values, in order. */
  function TruthyInts(xs: seq<Option<int>>): seq<int> {
    if xs == [] then []
    else (if xs[0].Some? && xs[0].value != 0 then [xs[0].value] else []) + TruthyInts(xs[1..])
  }

  lemma {:induction false} TruthyIntsMembers(xs: seq<Option<int>>)
    ensures |TruthyInts(xs)| <= |xs|
    ensures forall v :: v in TruthyInts(xs) <==> v != 0 && Some(v) in xs
  {
    if xs != [] {
      TruthyIntsMembers(xs[1..]);
      assert xs == [xs[0]] + xs[1..];
    }
  }

  lemma {:induction false} TruthyIntsEmpty(xs: seq<Option<int>>)
    ensures TruthyInts(xs) == [] <==> forall k | 0 <= k < |xs| :: xs[k] == None || xs[k] == Some(0)
  {
    if xs != [] {
      TruthyIntsEmpty(xs[1..]);
      if TruthyInts(xs) == [] {
        forall k | 0 <= k < |xs| ensures xs[k] == None || xs[k] == Some(0) {
          if k > 0 { assert xs[k] == xs[1..][k - 1]; }
        }
      }
    }
  }

  /** [v for v in xs if v is not None]: the present values, in order,
      zeros included. */
  function Present(xs: seq<Option<int>>): (r: seq<int>)
    ensures |r| <= |xs|
  {
    if xs == [] then []
    else (if xs[0].Some? then [xs[0].value] else []) + Present(xs[1..])
  }

  lemma {:induction false} PresentMembers(xs: seq<Option<int>>)
    ensures forall v :: v in Present(xs) <==> Some(v) in xs
    ensures Present(xs) == [] <==> forall k | 0 <= k < |xs| :: xs[k] == None
  {
    if xs != [] {
      PresentMembers(xs[1..]);
      assert xs == [xs[0]] + xs[1..];
      if Present(xs) == [] {
        forall k | 0 <= k < |xs| ensures xs[k] == None {
          if k > 0 { assert xs[k] == xs[1..][k - 1]; }
        }
      }
    }
  }

  /** sum(1 for x in xs if p(x)) */
  function Count<T>(xs: seq<T>, p: T -> bool): (r: int)
    ensures 0 <= r <= |xs|
  {
    if xs == [] then 0 else (if p(xs[0]) then 1 else 0) + Count(xs[1..], p)
  }

  /** max(xs) of a non-empty list of floats */
  function MaxReal(xs: seq<real>): real
    requires xs != []
  {
    if |xs| == 1 then xs[0] else var m := MaxReal(xs[1..]); if xs[0] >= m then xs[0] else m
  }

  /** min(xs) of a non-empty list of floats */
  function MinReal(xs: seq<real>): real
    requires xs != []
  {
    if |xs| == 1 then xs[0] else var m := MinReal(xs[1..]); if xs[0] <= m then xs[0] else m
  }

  lemma {:induction false} MaxMinBoundReal(xs: seq<real>)
    requires xs != []
    ensures MaxReal(xs) in xs && MinReal(xs) in xs
    ensures forall k | 0 <= k < |xs| :: MinReal(xs) <= xs[k] <= MaxReal(xs)
  {
    if |xs| > 1 {
      MaxMinBoundReal(xs[1..]);
      forall k | 1 <= k < |xs| ensures MinReal(xs) <= xs[k] <= MaxReal(xs) {
        assert xs[k] == xs[1..][k - 1];
      }
    }
  }

  lemma {:induction false} SumRealBetween(xs: seq<real>, lo: real, hi: real)
    requires forall k | 0 <= k < |xs| :: lo <= xs[k] <= hi
    ensures |xs| as real * lo <= SumReal(xs) <= |xs| as real * hi
  {
    if xs != [] {
      SumRealBetween(xs[1..], lo, hi);
    }
  }

  /** sum(xs) / len(xs) of a non-empty list of floats */
  function MeanReal(xs: seq<real>): real
    requires xs != []
  {
    SumReal(xs) / |xs| as real
  }

  /** The average of a non-empty list of floats lies between its minimum
      and maximum. */
  lemma {:induction false} MeanRealBetweenMinMax(xs: seq<real>)
    requires xs != []
    ensures MinReal(xs) <= MeanReal(xs) <= MaxReal(xs)
  {
    MaxMinBoundReal(xs);
    SumRealBetween(xs, MinReal(xs), MaxReal(xs));
    QuotientBounds(SumReal(xs), |xs| as real, MinReal(xs), MaxReal(xs));
  }

  lemma {:induction false} SumRealAppend(xs: seq<real>, ys: seq<real>)
    ensures SumReal(xs + ys) == SumReal(xs) + SumReal(ys)
  {
    if xs == [] {
      assert xs + ys == ys;
    } else {
      SumRealAppend(xs[1..], ys);
      assert (xs + ys)[1..] == xs[1..] + ys;
    }
  }

  // ---------------------------------------------------------------------
  // Totals over a dict's values

  /** The sum of f over the values of a dict; the order in which the
      values are visited does not matter (MapTotalRemove). */
  ghost function MapTotal<K, V>(m: map<K, V>, f: V -> real): real
    decreases |m|
  {
    if m == map[] then 0.0
    else
      var k :| k in m;
      f(m[k]) + MapTotal(m - {k}, f)
  }

  /** Any key can be taken out first. */
  lemma {:induction false} MapTotalRemove<K, V>(m: map<K, V>, f: V -> real, k: K)
    requires k in m
    ensures MapTotal(m, f) == f(m[k]) + MapTotal(m - {k}, f)
    decreases |m|
  {
    var j :| j in m && MapTotal(m, f) == f(m[j]) + MapTotal(m - {j}, f);
    if j != k {
      MapTotalRemove(m - {j}, f, k);
      MapTotalRemove(m - {k}, f, j);
      assert m - {j} - {k} == m - {k} - {j};
    }
  }

  /** Setting one entry changes the total by the difference it makes. */
  lemma {:induction false} MapTotalUpdate<K, V>(m: map<K, V>, f: V -> real, k: K, v: V)
    ensures MapTotal(m[k := v], f) == MapTotal(m, f) - (if k in m then f(m[k]) else 0.0) + f(v)
  {
    MapTotalRemove(m[k := v], f, k);
    assert m[k := v] - {k} == m - {k};
    if k in m {
      MapTotalRemove(m, f, k);
    } else {
      assert m - {k} == m;
    }
  }

  // ---------------------------------------------------------------------
  // Python's round()

  /** round(x): the nearest integer, halves to the even one. */
  function RoundHalfEven(x: real): (r: int)
    ensures r as real - 0.5 <= x <= r as real + 0.5
    ensures x - x.Floor as real == 0.5 ==> r % 2 == 0
  {
    var f := x.Floor;
    var frac := x - f as real;
    if frac < 0.5 then f
    else if frac > 0.5 then f + 1
    else if f % 2 == 0 then f
    else f + 1
  }

  /** round(x, 1): the nearest tenth, halves to the even tenth. */
  function Round1(x: real): (r: real)
    ensures x - 0.05 <= r <= x + 0.05
  {
    RoundHalfEven(x * 10.0) as real / 10.0
  }
}
