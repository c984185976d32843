/**
 * `Series.rolling(window).mean()` with pandas' defaults: `min_periods` equals
 * the window, so a row gets a value only once `window` observations end at it.
 */
module Rolling {
  import opened Wrappers

  /** Sum of a series, accumulated from the last element backwards. */
  function Sum(s: seq<real>): real
  {
    if |s| == 0 then 0.0 else Sum(s[..|s| - 1]) + s[|s| - 1]
  }

  /** Arithmetic mean of a non-empty series. */
  function Mean(s: seq<real>): real
    requires |s| > 0
  {
    Sum(s) / (|s| as real)
  }

  /** The rolling mean at the last row of `s`: missing while fewer than `window` rows exist. */
  function LastWindowMean(s: seq<real>, window: nat): Option<real>
    requires window >= 1
  {
    if |s| < window then None else Some(Mean(s[|s| - window..]))
  }

  /** The whole rolling-mean column: row i is the rolling mean of the prefix ending at row i. */
  function TrailingMean(s: seq<real>, window: nat): (r: seq<Option<real>>)
    requires window >= 1
    ensures |r| == |s|
  {
    if |s| == 0 then [] else TrailingMean(s[..|s| - 1], window) + [LastWindowMean(s, window)]
  }

  // ---------------------------------------------------------------- sums

  lemma {:induction false} SumFront(s: seq<real>)
    requires |s| > 0
    ensures Sum(s) == s[0] + Sum(s[1..])
  {
    if |s| > 1 {
      var p := s[..|s| - 1];
      SumFront(p);
      assert p[1..] == s[1..][..|s[1..]| - 1];
    }
  }

  lemma {:induction false} SumAtLeast(s: seq<real>, lo: real)
    requires forall k :: 0 <= k < |s| ==> lo <= s[k]
    ensures (|s| as real) * lo <= Sum(s)
  {
    if |s| > 0 {
      SumAtLeast(s[..|s| - 1], lo);
    }
  }

  lemma {:induction false} SumAtMost(s: seq<real>, hi: real)
    requires forall k :: 0 <= k < |s| ==> s[k] <= hi
    ensures Sum(s) <= (|s| as real) * hi
  {
    if |s| > 0 {
      SumAtMost(s[..|s| - 1], hi);
    }
  }

  /** A series of non-negative values whose last value is positive has a positive sum. */
  lemma SumPositiveLast(s: seq<real>)
    requires |s| > 0 && s[|s| - 1] > 0.0
    requires forall k :: 0 <= k < |s| ==> 0.0 <= s[k]
    ensures Sum(s) > 0.0
  {
    SumAtLeast(s[..|s| - 1], 0.0);
  }

  lemma MeanPositiveLast(s: seq<real>)
    requires |s| > 0 && s[|s| - 1] > 0.0
    requires forall k :: 0 <= k < |s| ==> 0.0 <= s[k]
    ensures Mean(s) > 0.0
  {
    SumPositiveLast(s);
  }

  lemma MeanAtLeast(s: seq<real>, lo: real)
    requires |s| > 0
    requires forall k :: 0 <= k < |s| ==> lo <= s[k]
    ensures lo <= Mean(s)
  {
    SumAtLeast(s, lo);
  }

  lemma MeanAtMost(s: seq<real>, hi: real)
    requires |s| > 0
    requires forall k :: 0 <= k < |s| ==> s[k] <= hi
    ensures Mean(s) <= hi
  {
    SumAtMost(s, hi);
  }

  // ---------------------------------------------------------------- rolling mean

  /**
   * The row-by-row definition agrees with the closed form: rows 0..window-2 are
   * missing, and row i >= window-1 is the mean of the `window` rows ending at i.
   */
  lemma {:induction false} TrailingMeanAt(s: seq<real>, window: nat, i: nat)
    requires window >= 1 && i < |s|
    ensures TrailingMean(s, window)[i] ==
              if i + 1 < window then None else Some(Mean(s[i + 1 - window..i + 1]))
  {
    if i < |s| - 1 {
      var p := s[..|s| - 1];
      TrailingMeanAt(p, window, i);
      if i + 1 >= window {
        assert p[i + 1 - window..i + 1] == s[i + 1 - window..i + 1];
      }
    } else if i + 1 >= window {
      assert s[i + 1 - window..i + 1] == s[|s| - window..];
    }
  }

  /** When the window is longer than the series, every row is missing. */
  lemma TrailingMeanShort(s: seq<real>, window: nat, i: nat)
    requires window >= 1 && window > |s| && i < |s|
    ensures TrailingMean(s, window)[i] == None
  {
    TrailingMeanAt(s, window, i);
  }

  /** A lower bound of the series bounds every defined rolling mean. */
  lemma TrailingMeanAtLeast(s: seq<real>, window: nat, lo: real, i: nat)
    requires window >= 1 && i < |s|
    requires forall k :: 0 <= k < |s| ==> lo <= s[k]
    ensures TrailingMean(s, window)[i].Some? ==> lo <= TrailingMean(s, window)[i].value
  {
    TrailingMeanAt(s, window, i);
    if i + 1 >= window {
      MeanAtLeast(s[i + 1 - window..i + 1], lo);
    }
  }

  /** An upper bound of the series bounds every defined rolling mean. */
  lemma TrailingMeanAtMost(s: seq<real>, window: nat, hi: real, i: nat)
    requires window >= 1 && i < |s|
    requires forall k :: 0 <= k < |s| ==> s[k] <= hi
    ensures TrailingMean(s, window)[i].Some? ==> TrailingMean(s, window)[i].value <= hi
  {
    TrailingMeanAt(s, window, i);
    if i + 1 >= window {
      MeanAtMost(s[i + 1 - window..i + 1], hi);
    }
  }

  /** The rolling mean of a constant series is that constant at every row from window-1 on. */
  lemma TrailingMeanConstant(s: seq<real>, window: nat, c: real, i: nat)
    requires window >= 1 && window - 1 <= i < |s|
    requires forall k :: 0 <= k < |s| ==> s[k] == c
    ensures TrailingMean(s, window)[i] == Some(c)
  {
    TrailingMeanAt(s, window, i);
    TrailingMeanAtLeast(s, window, c, i);
    TrailingMeanAtMost(s, window, c, i);
  }

  /** A non-negative series that is positive at row i has a positive rolling mean there once the window is filled. */
  lemma TrailingMeanPositive(s: seq<real>, window: nat, i: nat)
    requires window >= 1 && window - 1 <= i < |s|
    requires forall k :: 0 <= k < |s| ==> 0.0 <= s[k]
    requires s[i] > 0.0
    ensures TrailingMean(s, window)[i].Some? && TrailingMean(s, window)[i].value > 0.0
  {
    TrailingMeanAt(s, window, i);
    var w := s[i + 1 - window..i + 1];
    assert w[|w| - 1] == s[i];
    forall k | 0 <= k < |w| ensures 0.0 <= w[k] {
      assert w[k] == s[i + 1 - window + k];
    }
    MeanPositiveLast(w);
  }

  /**
   * Sliding-window recurrence: moving one row down adds the entering value and
   * drops the leaving one, each weighted by 1/window.
   */
  lemma TrailingMeanSlide(s: seq<real>, window: nat, i: nat)
    requires window >= 1 && window - 1 <= i && i + 1 < |s|
    ensures TrailingMean(s, window)[i].Some? && TrailingMean(s, window)[i + 1].Some?
    ensures TrailingMean(s, window)[i + 1].value ==
              TrailingMean(s, window)[i].value + (s[i + 1] - s[i + 1 - window]) / (window as real)
  {
    TrailingMeanAt(s, window, i);
    TrailingMeanAt(s, window, i + 1);
    var leaving := s[i + 1 - window..i + 1];
    var entering := s[i + 2 - window..i + 2];
    var shared := s[i + 2 - window..i + 1];
    SumFront(leaving);
    assert leaving[1..] == shared;
    assert entering[..|entering| - 1] == shared;
    assert Sum(entering) == Sum(leaving) + (s[i + 1] - s[i + 1 - window]);
    DivideSum(Sum(leaving), s[i + 1] - s[i + 1 - window], window as real);
  }

  lemma DivideSum(a: real, b: real, w: real)
    requires w > 0.0
    ensures (a + b) / w == a / w + b / w
  {
  }
}
