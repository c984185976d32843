/**
 * The Relative Strength Index column of `calculate_rsi`: simple rolling means
 * of gains and losses (Cutler's variant), combined as `100 - 100 / (1 + rs)`.
 */
module Rsi {
  import opened Wrappers
  import opened Rolling

  /** The window `calculate_rsi` uses when none is given. */
  const DefaultWindow: nat := 14

  /** `Series.diff(1)`: row 0 has no predecessor and is missing. */
  function Diff(s: seq<real>): (d: seq<Option<real>>)
    ensures |d| == |s|
  {
    seq(|s|, i requires 0 <= i < |s| => if i == 0 then None else Some(s[i] - s[i - 1]))
  }

  /**
   * `Series.where(cond, 0)`: a value is kept where `cond` holds and replaced by
   * 0 elsewhere; a missing value fails every comparison, so it becomes 0 too.
   */
  function KeepWhere(d: seq<Option<real>>, cond: real -> bool): (r: seq<real>)
    ensures |r| == |d|
  {
    seq(|d|, i requires 0 <= i < |d| => if d[i].Some? && cond(d[i].value) then d[i].value else 0.0)
  }

  /** Elementwise unary minus. */
  function Negate(s: seq<real>): (r: seq<real>)
    ensures |r| == |s|
  {
    seq(|s|, i requires 0 <= i < |s| => -s[i])
  }

  /** `gain = delta.where(delta > 0, 0)` */
  function Gain(close: seq<real>): (g: seq<real>)
    ensures |g| == |close|
  {
    KeepWhere(Diff(close), x => x > 0.0)
  }

  /** `loss = -delta.where(delta < 0, 0)` */
  function Loss(close: seq<real>): (l: seq<real>)
    ensures |l| == |close|
  {
    Negate(KeepWhere(Diff(close), x => x < 0.0))
  }

  /** `avg_gain = gain.rolling(window).mean()` */
  function AvgGain(close: seq<real>, window: nat): (a: seq<Option<real>>)
    requires window >= 1
    ensures |a| == |close|
  {
    TrailingMean(Gain(close), window)
  }

  /** `avg_loss = loss.rolling(window).mean()` */
  function AvgLoss(close: seq<real>, window: nat): (a: seq<Option<real>>)
    requires window >= 1
    ensures |a| == |close|
  {
    TrailingMean(Loss(close), window)
  }

  /**
   * RSI of one row from its average gain and loss, evaluated as the source does,
   * `100 - 100 / (1 + ag / al)`. Over IEEE floats `al == 0` makes `rs` infinite
   * (RSI 100) when `ag > 0`, and NaN (RSI missing) when `ag == 0` too.
   */
  function RsiPoint(ag: real, al: real): (r: Option<real>)
    requires ag >= 0.0 && al >= 0.0
    ensures r.None? <==> ag == 0.0 && al == 0.0
    ensures al == 0.0 && ag > 0.0 ==> r == Some(100.0)
    ensures ag == 0.0 && al > 0.0 ==> r == Some(0.0)
    ensures al > 0.0 ==> r == Some(100.0 * ag / (ag + al))
    ensures r.Some? ==> 0.0 <= r.value <= 100.0
  {
    if al == 0.0 then
      (if ag == 0.0 then None else Some(100.0))
    else
      RsiClosedForm(ag, al);
      Some(100.0 - 100.0 / (1.0 + ag / al))
  }

  /** The source's expression equals the share of the average gain in the average movement. */
  lemma RsiClosedForm(ag: real, al: real)
    requires ag >= 0.0 && al > 0.0
    ensures 100.0 - 100.0 / (1.0 + ag / al) == 100.0 * ag / (ag + al)
    ensures 0.0 <= 100.0 * ag / (ag + al) <= 100.0
  {
    var t := ag + al;
    var u := 1.0 + ag / al;
    assert ag / al * al == ag;
    assert u * al == t;
    var v := 100.0 / u;
    assert v * u == 100.0;
    assert v * t == 100.0 * al by {
      assert v * t == v * (u * al);
      assert v * (u * al) == (v * u) * al;
    }
    var z := 100.0 * ag / t;
    assert z * t == 100.0 * ag;
    assert (100.0 - v) * t == 100.0 * t - v * t;
    assert 100.0 * t - 100.0 * al == 100.0 * ag;
    CancelFactor(100.0 - v, z, t);
    assert 100.0 * ag <= 100.0 * t;
  }

  lemma CancelFactor(x: real, y: real, t: real)
    requires t > 0.0 && x * t == y * t
    ensures x == y
  {
    assert (x - y) * t == 0.0;
  }

  /** Both rolling averages are non-negative wherever they are defined. */
  lemma AveragesNonNegative(close: seq<real>, window: nat)
    requires window >= 1
    ensures forall i :: 0 <= i < |close| && AvgGain(close, window)[i].Some? ==> AvgGain(close, window)[i].value >= 0.0
    ensures forall i :: 0 <= i < |close| && AvgLoss(close, window)[i].Some? ==> AvgLoss(close, window)[i].value >= 0.0
  {
    forall i | 0 <= i < |close|
      ensures AvgGain(close, window)[i].Some? ==> AvgGain(close, window)[i].value >= 0.0
      ensures AvgLoss(close, window)[i].Some? ==> AvgLoss(close, window)[i].value >= 0.0
    {
      TrailingMeanAtLeast(Gain(close), window, 0.0, i);
      TrailingMeanAtLeast(Loss(close), window, 0.0, i);
    }
  }

  /** `data['RSI']`: the RSI of every row; missing where either average is missing. */
  function RsiColumn(close: seq<real>, window: nat): (r: seq<Option<real>>)
    requires window >= 1
    ensures |r| == |close|
  {
    var ag := AvgGain(close, window);
    var al := AvgLoss(close, window);
    AveragesNonNegative(close, window);
    seq(|close|, i requires 0 <= i < |close| =>
      if ag[i].Some? && al[i].Some? then RsiPoint(ag[i].value, al[i].value) else None)
  }

  // ---------------------------------------------------------------- properties

  /**
   * The gain/loss split of every row: both parts are non-negative, at most one
   * is non-zero, row 0 has neither, and from row 1 on their difference is the
   * price change since the previous row.
   */
  lemma GainLossSplit(close: seq<real>, i: nat)
    requires i < |close|
    ensures Gain(close)[i] >= 0.0 && Loss(close)[i] >= 0.0
    ensures Gain(close)[i] * Loss(close)[i] == 0.0
    ensures i == 0 ==> Gain(close)[i] == 0.0 && Loss(close)[i] == 0.0
    ensures i >= 1 ==> Gain(close)[i] - Loss(close)[i] == close[i] - close[i - 1]
    ensures i >= 1 && close[i] <= close[i - 1] ==> Gain(close)[i] == 0.0
    ensures i >= 1 && close[i] >= close[i - 1] ==> Loss(close)[i] == 0.0
  {
  }

  /**
   * Where RSI is defined and what it is: missing on rows 0..window-2 and where
   * both averages are 0; elsewhere in [0, 100], exactly 100 when there was no
   * loss, and otherwise the gain's share of the total movement.
   */
  lemma RsiAt(close: seq<real>, window: nat, i: nat)
    requires window >= 1 && i < |close|
    ensures i + 1 < window ==> RsiColumn(close, window)[i].None?
    ensures i + 1 >= window ==>
      var ag := AvgGain(close, window)[i];
      var al := AvgLoss(close, window)[i];
      var r := RsiColumn(close, window)[i];
      && ag.Some? && al.Some? && ag.value >= 0.0 && al.value >= 0.0
      && (r.None? <==> ag.value == 0.0 && al.value == 0.0)
      && (r.Some? ==> 0.0 <= r.value <= 100.0)
      && (al.value == 0.0 && ag.value > 0.0 ==> r == Some(100.0))
      && (ag.value == 0.0 && al.value > 0.0 ==> r == Some(0.0))
      && (al.value > 0.0 ==> r == Some(100.0 * ag.value / (ag.value + al.value)))
  {
    TrailingMeanAt(Gain(close), window, i);
    TrailingMeanAt(Loss(close), window, i);
    AveragesNonNegative(close, window);
  }

  ghost predicate StrictlyRising(s: seq<real>)
  {
    forall i :: 0 < i < |s| ==> s[i - 1] < s[i]
  }

  ghost predicate StrictlyFalling(s: seq<real>)
  {
    forall i :: 0 < i < |s| ==> s[i - 1] > s[i]
  }

  /** A strictly rising series has no loss on any row, and a positive gain from row 1 on. */
  lemma RisingGainLoss(close: seq<real>)
    requires StrictlyRising(close)
    ensures forall k :: 0 <= k < |close| ==> Loss(close)[k] == 0.0 && Gain(close)[k] >= 0.0
    ensures forall k :: 1 <= k < |close| ==> Gain(close)[k] > 0.0
  {
    forall k | 0 <= k < |close|
      ensures Loss(close)[k] == 0.0 && Gain(close)[k] >= 0.0
      ensures k >= 1 ==> Gain(close)[k] > 0.0
    {
      GainLossSplit(close, k);
    }
  }

  /** A strictly falling series has no gain on any row, and a positive loss from row 1 on. */
  lemma FallingGainLoss(close: seq<real>)
    requires StrictlyFalling(close)
    ensures forall k :: 0 <= k < |close| ==> Gain(close)[k] == 0.0 && Loss(close)[k] >= 0.0
    ensures forall k :: 1 <= k < |close| ==> Loss(close)[k] > 0.0
  {
    forall k | 0 <= k < |close|
      ensures Gain(close)[k] == 0.0 && Loss(close)[k] >= 0.0
      ensures k >= 1 ==> Loss(close)[k] > 0.0
    {
      GainLossSplit(close, k);
    }
  }

  /**
   * A strictly rising close series never loses, so RSI is 100 at every row
   * where the window is filled; row 0 has no change at all and, with a window
   * of 1, is missing.
   */
  lemma RsiRisingIsHundred(close: seq<real>, window: nat, i: nat)
    requires window >= 1 && window - 1 <= i < |close| && i >= 1
    requires StrictlyRising(close)
    ensures RsiColumn(close, window)[i] == Some(100.0)
  {
    RisingGainLoss(close);
    TrailingMeanConstant(Loss(close), window, 0.0, i);
    TrailingMeanPositive(Gain(close), window, i);
    RsiAt(close, window, i);
  }

  /** Symmetrically, a strictly falling close series has RSI 0 wherever the window is filled. */
  lemma RsiFallingIsZero(close: seq<real>, window: nat, i: nat)
    requires window >= 1 && window - 1 <= i < |close| && i >= 1
    requires StrictlyFalling(close)
    ensures RsiColumn(close, window)[i] == Some(0.0)
  {
    FallingGainLoss(close);
    TrailingMeanConstant(Gain(close), window, 0.0, i);
    TrailingMeanPositive(Loss(close), window, i);
    RsiAt(close, window, i);
  }
}
