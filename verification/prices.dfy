/** Analysis of the fund's daily closing prices: the latest close, the
    trailing 200-point average, the lowest close of the window, and the two
    signals derived from them. */
module Prices {
  import opened Wrappers
  import opened Numbers

  /** The length of the trailing average, in price points. */
  const AverageWindow: nat := 200

  /** A price within this fraction above the lowest close counts as near the low. */
  const NearLowFraction: real := 0.1

  /** Why the price analysis stops without a result. */
  datatype AnalysisError = EmptySeries

  /** What the analysis reads off a non-empty series of closes. `average` is
      `None` where pandas would hold NaN. */
  datatype Stats = Stats(current: real, average: Option<real>, lowest: real)

  /** The value at index `i` of a pandas rolling mean of width `window`: the
      mean of the `window` closes ending at `i`, or NaN (here `None`) while
      fewer than `window` closes have been seen. The mean lies between the
      smallest and largest close of its window. */
  function RollingMean(closes: seq<real>, window: nat, i: nat): (r: Option<real>)
    requires 0 < window
    requires i < |closes|
    ensures r.Some? <==> window <= i + 1
    ensures r.Some? ==>
      Min(closes[i + 1 - window .. i + 1]) <= r.value <= Max(closes[i + 1 - window .. i + 1])
  {
    if window <= i + 1 then Some(Mean(closes[i + 1 - window .. i + 1])) else None
  }

  /** The whole 200-point average column is NaN exactly when the series has
      fewer than 200 closes; this is when the chart is skipped. */
  lemma AverageColumnAllMissing(closes: seq<real>)
    ensures (forall i: nat :: i < |closes| ==> RollingMean(closes, AverageWindow, i).None?)
            <==> |closes| < AverageWindow
  {
    if |closes| >= AverageWindow {
      assert RollingMean(closes, AverageWindow, |closes| - 1).Some?;
    }
  }

  /** The price analysis. An empty series halts with `EmptySeries` before
      anything is computed. Otherwise the current price is the last close,
      the average is the mean of the last 200 closes when there are at least
      200 and missing otherwise, and the lowest price is a close that no
      close undercuts, so it is at most the current price and at most the
      average. */
  function Analyse(closes: seq<real>): (r: Result<Stats, AnalysisError>)
    ensures r.Failure? <==> |closes| == 0
    ensures r.Success? ==> r.value.current == closes[|closes| - 1]
    ensures r.Success? ==>
      r.value.average == (if |closes| >= AverageWindow
                          then Some(Mean(closes[|closes| - AverageWindow..]))
                          else None)
    ensures r.Success? ==> r.value.lowest in closes
    ensures r.Success? ==> forall i :: 0 <= i < |closes| ==> r.value.lowest <= closes[i]
    ensures r.Success? ==> r.value.lowest <= r.value.current
    ensures r.Success? && r.value.average.Some? ==> r.value.lowest <= r.value.average.value
  {
    if |closes| == 0 then Failure(EmptySeries)
    else
      var last := |closes| - 1;
      var average := RollingMean(closes, AverageWindow, last);
      TrailingAverage(closes);
      Success(Stats(closes[last], average, Min(closes)))
  }

  /** The rolling mean at the last index is the mean of the final 200 closes,
      and it is never below the lowest close of the whole series. */
  lemma TrailingAverage(closes: seq<real>)
    requires |closes| > 0
    ensures RollingMean(closes, AverageWindow, |closes| - 1) ==
      (if |closes| >= AverageWindow then Some(Mean(closes[|closes| - AverageWindow..])) else None)
    ensures RollingMean(closes, AverageWindow, |closes| - 1).Some? ==>
      Min(closes) <= RollingMean(closes, AverageWindow, |closes| - 1).value
  {
    if |closes| >= AverageWindow {
      var k := |closes| - AverageWindow;
      assert closes[|closes| - 1 + 1 - AverageWindow .. |closes| - 1 + 1] == closes[k..];
      MinOfSuffix(closes, k);
    }
  }

  /** Whether the current price is strictly above the average. A missing
      average compares false, like a comparison with NaN, and so does a
      price equal to the average. */
  function AboveAverage(current: real, average: Option<real>): (above: bool)
    ensures above <==> average.Some? && current > average.value
    ensures average.None? ==> !above
    ensures average == Some(current) ==> !above
  {
    match average
    case None => false
    case Some(a) => current > a
  }

  /** "Not above the average" is the strict "below the average" plus exactly
      two more cases: a price equal to the average and a missing average. */
  lemma NotAboveIsBelowOrEqualOrMissing(current: real, average: Option<real>)
    ensures !AboveAverage(current, average) <==>
      (average.Some? && current < average.value)
      || (average.Some? && current == average.value)
      || average.None?
  {
  }

  /** The fractional distance of the current price above the lowest price.
      It is never negative when the current price is at or above the low,
      and it is below 10% exactly when `10 * current < 11 * lowest`, which
      states the near-low test without division. */
  function DistanceToLow(current: real, lowest: real): (d: real)
    requires lowest > 0.0
    ensures current >= lowest ==> d >= 0.0
    ensures d < NearLowFraction <==> 10.0 * current < 11.0 * lowest
  {
    var d := (current - lowest) / lowest;
    assert d * lowest == current - lowest;
    assert (NearLowFraction - d) * lowest == 11.0 * lowest / 10.0 - current;
    d
  }

  /** A flat series of at least 200 closes has its constant as the average,
      and its current price is then not above the average. */
  lemma FlatSeries(closes: seq<real>, c: real)
    requires |closes| >= AverageWindow
    requires forall i :: 0 <= i < |closes| ==> closes[i] == c
    ensures Analyse(closes).Success?
    ensures Analyse(closes).value.average == Some(c)
    ensures !AboveAverage(Analyse(closes).value.current, Analyse(closes).value.average)
  {
    MeanOfConstant(closes[|closes| - AverageWindow..], c);
  }

  /** Worked cases of the near-low test with a low of 100: a price of 105 is
      near the low and a price of 115 is not. */
  lemma NearLowExamples()
    ensures DistanceToLow(105.0, 100.0) < NearLowFraction
    ensures !(DistanceToLow(115.0, 100.0) < NearLowFraction)
  {
  }
}
