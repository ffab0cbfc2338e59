/** Sums, extrema and running maxima of real sequences. */
module Sums {

  /** Sum of a sequence, peeling the last element so that prefix sums unfold one step at a time. */
  function Sum(xs: seq<real>): real
  {
    if |xs| == 0 then 0.0 else Sum(xs[..|xs| - 1]) + xs[|xs| - 1]
  }

  lemma {:induction false} SumAppend(a: seq<real>, b: seq<real>)
    ensures Sum(a + b) == Sum(a) + Sum(b)
  {
    if |b| == 0 {
      assert a + b == a;
    } else {
      assert (a + b)[..|a + b| - 1] == a + b[..|b| - 1];
      SumAppend(a, b[..|b| - 1]);
    }
  }

  /** Scaling every element scales the sum. */
  lemma {:induction false} SumScale(xs: seq<real>, c: real, ys: seq<real>)
    requires |ys| == |xs| && forall i :: 0 <= i < |xs| ==> ys[i] == xs[i] * c
    ensures Sum(ys) == Sum(xs) * c
  {
    if |xs| > 0 {
      SumScale(xs[..|xs| - 1], c, ys[..|ys| - 1]);
    }
  }

  /** The smallest element. */
  function Min(xs: seq<real>): (m: real)
    requires |xs| > 0
    ensures m in xs
    ensures forall i :: 0 <= i < |xs| ==> m <= xs[i]
  {
    if |xs| == 1 then xs[0]
    else
      var rest := Min(xs[..|xs| - 1]);
      if xs[|xs| - 1] < rest then xs[|xs| - 1] else rest
  }

  /** The largest element. */
  function Max(xs: seq<real>): (m: real)
    requires |xs| > 0
    ensures m in xs
    ensures forall i :: 0 <= i < |xs| ==> xs[i] <= m
  {
    if |xs| == 1 then xs[0]
    else
      var rest := Max(xs[..|xs| - 1]);
      if xs[|xs| - 1] > rest then xs[|xs| - 1] else rest
  }

  lemma {:induction false} SumBounds(xs: seq<real>, lo: real, hi: real)
    requires forall i :: 0 <= i < |xs| ==> lo <= xs[i] <= hi
    ensures |xs| as real * lo <= Sum(xs) <= |xs| as real * hi
  {
    if |xs| > 0 {
      SumBounds(xs[..|xs| - 1], lo, hi);
    }
  }

  lemma DivideBounds(s: real, n: real, lo: real, hi: real)
    requires n > 0.0 && n * lo <= s <= n * hi
    ensures lo <= s / n <= hi
  {
  }

  /** Arithmetic mean of a non-empty sequence. */
  function Mean(xs: seq<real>): (m: real)
    requires |xs| > 0
    ensures m * (|xs| as real) == Sum(xs)
  {
    var n := |xs| as real;
    var s := Sum(xs);
    QuotientTimesDivisor(s, n, s / n);
    s / n
  }

  lemma QuotientTimesDivisor(s: real, n: real, q: real)
    requires n != 0.0 && q == s / n
    ensures q * n == s
  {
  }

  /** The mean of a non-empty sequence lies between its smallest and largest element. */
  lemma MeanBetweenExtremes(xs: seq<real>)
    requires |xs| > 0
    ensures Min(xs) <= Mean(xs) <= Max(xs)
  {
    var lo, hi := Min(xs), Max(xs);
    assert forall i :: 0 <= i < |xs| ==> lo <= xs[i] <= hi;
    SumBounds(xs, lo, hi);
    MeanOf(xs, lo, hi);
  }

  lemma MeanOf(xs: seq<real>, lo: real, hi: real)
    requires |xs| > 0
    requires |xs| as real * lo <= Sum(xs) <= |xs| as real * hi
    ensures lo <= Sum(xs) / |xs| as real <= hi
  {
    DivideBounds(Sum(xs), |xs| as real, lo, hi);
  }

  predicate NonDecreasing(xs: seq<real>)
  {
    forall i, j :: 0 <= i <= j < |xs| ==> xs[i] <= xs[j]
  }

  /** The value lying `pct` percent away from `base` (below it when `pct` is negative): the inverse of a percentage change. */
  function Level(base: real, pct: real): real
  {
    base + base * pct / 100.0
  }

  /** Percentage change from `base` to `x`, `(x - base) / base * 100`: the inverse of `Level`. */
  function Change(base: real, x: real): (r: real)
    requires base != 0.0
    ensures x == Level(base, r)
  {
    (x - base) / base * 100.0
  }

  /** A change is 0 exactly when nothing changed, and from a positive base it is non-negative exactly when the value did not fall. */
  lemma ChangeSign(base: real, x: real)
    requires base != 0.0
    ensures Change(base, x) == 0.0 <==> x == base
    ensures base > 0.0 ==> (Change(base, x) >= 0.0 <==> x >= base)
    ensures base < 0.0 ==> (Change(base, x) >= 0.0 <==> x <= base)
  {
    var r := Change(base, x);
    assert x - base == base * r / 100.0;
    if r > 0.0 && base > 0.0 {
      assert base * r > 0.0;
    }
    if r < 0.0 && base > 0.0 {
      assert base * r < 0.0;
    }
    if r > 0.0 && base < 0.0 {
      assert base * r < 0.0;
    }
    if r < 0.0 && base < 0.0 {
      assert base * r > 0.0;
    }
  }

  /** Running maximum (pandas `cummax`): entry i is the largest of xs[0..i]. */
  function RunningMax(xs: seq<real>): (m: seq<real>)
    ensures |m| == |xs|
    ensures forall i, j :: 0 <= j <= i < |xs| ==> xs[j] <= m[i]
  {
    if |xs| == 0 then []
    else
      var init := xs[..|xs| - 1];
      var p := RunningMax(init);
      var last := xs[|xs| - 1];
      var top := if |p| == 0 || last > p[|p| - 1] then last else p[|p| - 1];
      p + [top]
  }

  /** Every running maximum is attained: entry i equals some value at or before position i. */
  lemma {:induction false} RunningMaxAttained(xs: seq<real>, i: nat)
    requires i < |xs|
    ensures exists j :: 0 <= j <= i && RunningMax(xs)[i] == xs[j]
  {
    var init := xs[..|xs| - 1];
    var p := RunningMax(init);
    var last := xs[|xs| - 1];
    assert RunningMax(xs) == p + [if |p| == 0 || last > p[|p| - 1] then last else p[|p| - 1]];
    if i < |xs| - 1 {
      RunningMaxAttained(init, i);
      var j :| 0 <= j <= i && p[i] == init[j];
      assert RunningMax(xs)[i] == xs[j];
    } else if |p| > 0 && !(last > p[|p| - 1]) {
      RunningMaxAttained(init, |p| - 1);
      var j :| 0 <= j <= |p| - 1 && p[|p| - 1] == init[j];
      assert RunningMax(xs)[i] == xs[j];
    } else {
      assert RunningMax(xs)[i] == xs[i];
    }
  }

  /** The running maximum never decreases, and it coincides with the series exactly when the series never decreases. */
  lemma RunningMaxShape(xs: seq<real>)
    ensures NonDecreasing(RunningMax(xs))
    ensures RunningMax(xs) == xs <==> NonDecreasing(xs)
  {
    var m := RunningMax(xs);
    forall i, k | 0 <= i <= k < |xs|
      ensures m[i] <= m[k]
    {
      RunningMaxAttained(xs, i);
      var j :| 0 <= j <= i && m[i] == xs[j];
    }
    if NonDecreasing(xs) {
      forall i | 0 <= i < |xs|
        ensures m[i] == xs[i]
      {
        RunningMaxAttained(xs, i);
        var j :| 0 <= j <= i && m[i] == xs[j];
      }
    }
  }
}
