/**
 * Drawdown of a value series: how far each value sits below the highest value seen so far, in
 * percent, and the worst such drop.
 */
module Drawdown {
  import opened Sums

  /** No running maximum is zero, so every drawdown entry is a finite ratio. */
  predicate DrawdownDefined(xs: seq<real>)
  {
    forall i :: 0 <= i < |xs| ==> RunningMax(xs)[i] != 0.0
  }

  datatype DrawdownReport = DrawdownReport(series: seq<real>, worst: real)

  /**
   * Drawdown of `xs` measured against the peaks `m`: entry-wise the percentage change from `m[i]` to `xs[i]` and the
   * smallest entry; no entries give maximum drawdown 0.
   */
  function DrawdownAgainst(xs: seq<real>, m: seq<real>): (r: DrawdownReport)
    requires |m| == |xs| && forall i :: 0 <= i < |m| ==> m[i] != 0.0
    ensures |r.series| == |xs|
    ensures |xs| == 0 ==> r.worst == 0.0
    ensures |xs| > 0 ==> r.worst in r.series
    ensures forall i :: 0 <= i < |xs| ==> r.worst <= r.series[i]
    ensures forall i :: 0 <= i < |xs| ==> xs[i] == Level(m[i], r.series[i])
  {
    if |xs| == 0 then DrawdownReport([], 0.0)
    else
      var series := seq(|xs|, i requires 0 <= i < |xs| => Change(m[i], xs[i]));
      assert forall i :: 0 <= i < |xs| ==> xs[i] == Level(m[i], series[i]) by {
        forall i | 0 <= i < |xs|
          ensures xs[i] == Level(m[i], series[i])
        {
          var b := Change(m[i], xs[i]);
          assert series[i] == b;
        }
      }
      DrawdownReport(series, Min(series))
  }

  /**
   * Drawdown series `(v - runningMax) / runningMax * 100` and its minimum (the maximum drawdown);
   * an empty series gives an empty report with maximum drawdown 0.
   */
  function MaxDrawdown(xs: seq<real>): (r: DrawdownReport)
    requires DrawdownDefined(xs)
    ensures |r.series| == |xs|
    ensures |xs| == 0 ==> r.worst == 0.0
    ensures |xs| > 0 ==> r.worst in r.series
    ensures forall i :: 0 <= i < |xs| ==> r.worst <= r.series[i]
    ensures forall i :: 0 <= i < |xs| ==>
      xs[i] == Level(RunningMax(xs)[i], r.series[i])
  {
    DrawdownAgainst(xs, RunningMax(xs))
  }

  /** One entry of a positive series' drawdown: at most 0, and 0 exactly at a new peak. */
  lemma DrawdownEntry(xs: seq<real>, i: int)
    requires forall k :: 0 <= k < |xs| ==> xs[k] > 0.0
    requires 0 <= i < |xs|
    ensures DrawdownDefined(xs)
    ensures MaxDrawdown(xs).series[i] <= 0.0
    ensures MaxDrawdown(xs).series[i] == 0.0 <==> xs[i] == RunningMax(xs)[i]
  {
    var m := RunningMax(xs);
    assert m[i] >= xs[i] && m[i] > 0.0;
    assert DrawdownDefined(xs) by {
      forall k | 0 <= k < |xs| ensures m[k] != 0.0 {
        assert m[k] >= xs[k];
      }
    }
    var r := MaxDrawdown(xs).series[i];
    assert r == Change(m[i], xs[i]);
    ChangeSign(m[i], xs[i]);
  }

  /**
   * For a positive series every drawdown entry is at most 0, and exactly 0 where the value equals
   * its running maximum; so the maximum drawdown is at most 0 as well.
   */
  lemma DrawdownOfPositive(xs: seq<real>)
    requires forall i :: 0 <= i < |xs| ==> xs[i] > 0.0
    ensures DrawdownDefined(xs)
    ensures forall i :: 0 <= i < |xs| ==> MaxDrawdown(xs).series[i] <= 0.0
    ensures forall i :: 0 <= i < |xs| ==> (MaxDrawdown(xs).series[i] == 0.0 <==> xs[i] == RunningMax(xs)[i])
    ensures MaxDrawdown(xs).worst <= 0.0
  {
    if |xs| == 0 {
      return;
    }
    DrawdownEntry(xs, 0);
    forall i | 0 <= i < |xs|
      ensures MaxDrawdown(xs).series[i] <= 0.0
      ensures MaxDrawdown(xs).series[i] == 0.0 <==> xs[i] == RunningMax(xs)[i]
    {
      DrawdownEntry(xs, i);
    }
  }

  lemma RisingWhenNoDrawdown(xs: seq<real>)
    requires forall i :: 0 <= i < |xs| ==> xs[i] > 0.0
    requires DrawdownDefined(xs) && MaxDrawdown(xs).worst == 0.0
    ensures NonDecreasing(xs)
  {
    DrawdownOfPositive(xs);
    var m := RunningMax(xs);
    var r := MaxDrawdown(xs);
    forall i, j | 0 <= i <= j < |xs| ensures xs[i] <= xs[j] {
      assert r.worst <= r.series[j] <= 0.0;
      assert xs[j] == m[j];
    }
  }

  lemma NoDrawdownWhenRising(xs: seq<real>)
    requires forall i :: 0 <= i < |xs| ==> xs[i] > 0.0
    requires NonDecreasing(xs)
    ensures DrawdownDefined(xs) && MaxDrawdown(xs).worst == 0.0
  {
    DrawdownOfPositive(xs);
    RunningMaxShape(xs);
    var r := MaxDrawdown(xs);
    if |xs| > 0 {
      var j :| 0 <= j < |xs| && r.series[j] == r.worst;
      assert xs[j] == RunningMax(xs)[j];
    }
  }

  /** A positive series has maximum drawdown 0 exactly when it never decreases. */
  lemma NoDrawdownIffRising(xs: seq<real>)
    requires forall i :: 0 <= i < |xs| ==> xs[i] > 0.0
    ensures DrawdownDefined(xs)
    ensures MaxDrawdown(xs).worst == 0.0 <==> NonDecreasing(xs)
  {
    DrawdownOfPositive(xs);
    if MaxDrawdown(xs).worst == 0.0 {
      RisingWhenNoDrawdown(xs);
    }
    if NonDecreasing(xs) {
      NoDrawdownWhenRising(xs);
    }
  }
}
