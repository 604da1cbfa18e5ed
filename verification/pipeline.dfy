/** One evaluation of the page: the questionnaire and the price series go
    in, and the composite score, its reading, the price statistics, the
    recommendation score and the advice tier come out. The evaluation is a
    pure function of its inputs. */
module Pipeline {
  import opened Wrappers
  import opened Sentiment
  import opened Prices
  import opened Numbers
  import Recommendation

  /** The values one evaluation derives: the composite score and its band,
      the price statistics, the two price signals (whether the price is above
      its average and its distance to the low), the recommendation score and
      the advice tier. The page shows the band's message and colour, the
      statistics and the tier's message and severity; the two signals are
      only used to compute the score. */
  datatype Report = Report(
    composite: real,
    band: Band,
    stats: Stats,
    above: bool,
    distance: real,
    score: nat,
    tier: Recommendation.Tier)

  /** Every close is a positive price. */
  predicate PositivePrices(closes: seq<real>)
  {
    forall i :: 0 <= i < |closes| ==> closes[i] > 0.0
  }

  /** The scoring of one evaluation, once the price statistics are known.
      The score counts the three buy arguments: the price is not strictly
      above the average (a missing average counts as not above), the
      sentiment band is fear, and the price is less than 10% above the
      lowest close. The tier is the one that score selects. */
  function Evaluate(sel: Selections, stats: Stats): (rep: Report)
    requires 0.0 < stats.lowest <= stats.current
    ensures rep.composite == CompositeScore(sel)
    ensures rep.band == Classify(rep.composite)
    ensures rep.stats == stats
    ensures rep.above <==> stats.average.Some? && stats.current > stats.average.value
    ensures rep.distance >= 0.0
    ensures rep.distance < NearLowFraction <==> 10.0 * stats.current < 11.0 * stats.lowest
    ensures rep.score <= 3
    ensures rep.score ==
        (if stats.average.None? || stats.current <= stats.average.value then 1 else 0)
      + (if rep.band == FearBand then 1 else 0)
      + (if 10.0 * stats.current < 11.0 * stats.lowest then 1 else 0)
    ensures rep.tier == Recommendation.TierOf(rep.score)
  {
    var composite := CompositeScore(sel);
    var above := AboveAverage(stats.current, stats.average);
    var distance := DistanceToLow(stats.current, stats.lowest);
    var score := Recommendation.Score(above, composite, distance);
    Report(composite, Classify(composite), stats, above, distance, score, Recommendation.TierOf(score))
  }

  /** How one evaluation ends. The sentiment part runs before the prices
      are looked at, so its composite score and band exist even when the
      analysis halts. */
  datatype Outcome =
    | Halted(composite: real, band: Band, error: AnalysisError)
    | Done(report: Report)

  /** The full evaluation. The composite score and its band are computed
      first, on every path. The price analysis then halts with
      `EmptySeries` exactly when there are no closes; otherwise its
      statistics are scored. */
  function Run(sel: Selections, closes: seq<real>): (r: Outcome)
    requires PositivePrices(closes)
    ensures r.Halted? <==> |closes| == 0
    ensures r.Halted? ==> r.error == EmptySeries
    ensures r.Halted? ==> r.composite == CompositeScore(sel) && r.band == Classify(r.composite)
    ensures r.Done? ==> r.report.composite == CompositeScore(sel) && r.report.band == Classify(r.report.composite)
    ensures r.Done? ==> r.report.stats.current == closes[|closes| - 1]
    ensures r.Done? ==> r.report.stats.lowest == Min(closes)
    ensures r.Done? ==> r.report == Evaluate(sel, Analyse(closes).value)
  {
    var composite := CompositeScore(sel);
    var band := Classify(composite);
    match Analyse(closes)
    case Failure(e) => Halted(composite, band, e)
    case Success(stats) =>
      assert stats.lowest in closes;
      Done(Evaluate(sel, stats))
  }

  /** With fewer than 200 closes the average is missing, so the average
      point is always earned and the score is one plus the other two
      arguments. */
  lemma ShortHistoryEarnsAveragePoint(sel: Selections, closes: seq<real>)
    requires PositivePrices(closes)
    requires 0 < |closes| < AverageWindow
    ensures Run(sel, closes).Done?
    ensures Run(sel, closes).report.stats.average.None?
    ensures Run(sel, closes).report.score ==
      1 + (if Run(sel, closes).report.band == FearBand then 1 else 0)
        + (if 10.0 * closes[|closes| - 1] < 11.0 * Min(closes) then 1 else 0)
  {
  }

  /** All Extreme Fear, a current price below its 200-point average and
      within 10% of the low gives the strongest buy signal. */
  lemma StrongBuyExample(stats: Stats)
    requires 0.0 < stats.lowest <= stats.current
    requires stats.average.Some? && stats.current < stats.average.value
    requires 10.0 * stats.current < 11.0 * stats.lowest
    ensures Evaluate(AllSet(ExtremeFear), stats).score == 3
    ensures Evaluate(AllSet(ExtremeFear), stats).tier == Recommendation.StrongBuy
  {
    UniformReading(ExtremeFear);
  }

  /** All Extreme Greed, a current price above its 200-point average and at
      least 10% above the low gives the weakest advice. */
  lemma FewArgumentsExample(stats: Stats)
    requires 0.0 < stats.lowest <= stats.current
    requires stats.average.Some? && stats.current > stats.average.value
    requires 10.0 * stats.current >= 11.0 * stats.lowest
    ensures Evaluate(AllSet(ExtremeGreed), stats).score == 0
    ensures Evaluate(AllSet(ExtremeGreed), stats).tier == Recommendation.FewArguments
  {
    UniformReading(ExtremeGreed);
  }
}
