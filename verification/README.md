# IWDA buy-moment analysis: scoring model

A Dafny model of the scoring logic of `sprd_fear_greed_app.py`, a one-page
Streamlit app. The app combines a hand-filled fear & greed questionnaire with
a year of daily closes of the IWDA.AS ETF, and gives a buy-moment advice.

The model has three parts and one composition:

- **Sentiment** (`sentiment.dfy`). Each of seven indicators is rated in one of
  five categories. The anchor table maps those categories to 10, 25, 50, 75 and 90.
  The composite score is the unweighted mean of the seven anchors. The score is
  read as fear (below 30, red), greed (above 70, green) or neutral (orange, with
  both 30 and 70 included). A completed form is a total function
  `Indicator -> Category`, so an incomplete form cannot be expressed.
- **Prices** (`prices.dfy`). Closes are a `seq<real>`. An empty series halts with
  `EmptySeries`. Otherwise the analysis takes three values:
  - the current price, which is the last close;
  - the 200-point rolling mean at the last index, which is `None` where pandas has NaN;
  - the lowest close of the whole series.

  From these it derives two signals:
  - whether the price is strictly above the average;
  - the fractional distance above the low.
- **Recommendation** (`recommendation.dfy`). Three buy arguments are counted into
  a score of 0..3. The score maps to one of four advice tiers, each with a
  message and a severity style (success, info, warning or error).
- **Pipeline** (`pipeline.dfy`) runs all three once over explicit inputs. `Run`
  first computes the composite score and its band. An empty series then ends in
  `Halted`, which still carries that score and band, as the page has already shown
  them. Otherwise `Evaluate` scores the statistics into a `Report`.

`numbers.dfy` holds sum, minimum, maximum and mean over `seq<real>`.
`wrappers.dfy` holds `Option` and `Result`.

Dafny's `real` is exact. The sentiment thresholds are therefore also stated
without division:
- the score is below 30 exactly when the anchors sum to less than 210;
- the score is above 70 exactly when they sum to more than 490.

The near-low test is stated the same way: with a positive low, it holds
exactly when `10 * current < 11 * lowest`.

### Two details of the code

- **Average point.** The point is awarded whenever `current_price > avg_200d`
  is false (lines 89 and 94). So it is also awarded when the price equals the
  average, and when the average is NaN because there are fewer than 200 closes.
  The model awards the point in both cases. `Prices.NotAboveIsBelowOrEqualOrMissing`
  and `Pipeline.ShortHistoryEarnsAveragePoint` state this.
- **Non-positive low.** The division at line 90 is not guarded. Because the
  current price is one of the closes, it is never below the low. A negative low
  therefore gives a finite distance of at most 0, which passes the `< 0.1` test at
  line 98. A zero low gives inf when the current price is positive, and NaN when it
  is zero. The model requires positive closes in `Pipeline.Run` instead (see Left out).

## Model

| member | source | states |
|---|---|---|
| Sentiment.Anchor | sprd_fear_greed_app.py:32-38 | every category's anchor lies in [10, 90] |
| Sentiment.AnchorOrder | sprd_fear_greed_app.py:32-38 | the table covers all five categories, rises strictly from Extreme Fear to Extreme Greed, and no two categories share an anchor |
| Sentiment.Scores | sprd_fear_greed_app.py:40-51 | one numeric score per indicator, in form order, each being the anchor of that indicator's selection and lying in [10, 90] |
| Sentiment.CompositeScore | sprd_fear_greed_app.py:51-52 | the composite is the unweighted mean of the seven anchors (seven times it is their sum) and always lies in [10, 90] |
| Sentiment.ThresholdsWithoutDivision | sprd_fear_greed_app.py:52-59 | score below 30 iff the anchors sum below 210; score above 70 iff they sum above 490 |
| Sentiment.UniformSelection | sprd_fear_greed_app.py:51-52 | setting every indicator to one category gives exactly that category's anchor as the composite |
| Sentiment.UniformReading | sprd_fear_greed_app.py:32-62 | a form filled with one category reads as fear for Extreme Fear or Fear, neutral for Neutral, and greed for Greed or Extreme Greed |
| Sentiment.Classify | sprd_fear_greed_app.py:57-62 | exactly one band per score: fear iff below 30, greed iff above 70, neutral iff within [30, 70] (both boundaries neutral) |
| Sentiment.ClassifyMonotone | sprd_fear_greed_app.py:57-62 | a higher score never reads as a more fearful band |
| Sentiment.Interpret | sprd_fear_greed_app.py:57-62 | the shown pair is (fear message, red) below 30, (greed message, green) above 70, and (neutral message, orange) otherwise |
| Sentiment.ColourIdentifiesBand | sprd_fear_greed_app.py:58-62 | the three bands have three distinct colours |
| Numbers.Min | sprd_fear_greed_app.py:82 | the lowest price is one of the closes and no close is below it |
| Numbers.Mean | sprd_fear_greed_app.py:79 | a mean lies between the smallest and largest value it averages |
| Prices.RollingMean | sprd_fear_greed_app.py:79 | the rolling mean at an index is defined iff at least `window` closes end there, and then lies between that window's min and max |
| Prices.AverageColumnAllMissing | sprd_fear_greed_app.py:103 | the whole 200-point average column is missing iff the series has fewer than 200 closes |
| Prices.TrailingAverage | sprd_fear_greed_app.py:79-82 | the average at the last index is the mean of the final 200 closes when there are 200 or more, missing otherwise, and never below the series minimum |
| Prices.Analyse | sprd_fear_greed_app.py:73-82 | an empty series halts with EmptySeries and nothing else; otherwise current is the last close, lowest is a close that no close undercuts (so at most current and at most the average), and the average is the final-200 mean or missing |
| Prices.AboveAverage | sprd_fear_greed_app.py:89 | above iff the average is defined and the price is strictly above it; so a missing average and a price equal to the average both compare as not above |
| Prices.NotAboveIsBelowOrEqualOrMissing | sprd_fear_greed_app.py:89-95 | "not above" holds iff the price is strictly below, equal to, or without an average |
| Prices.DistanceToLow | sprd_fear_greed_app.py:90-98 | with a positive low, the distance is non-negative when the price is at or above the low, and is below 10% iff 10 * current < 11 * lowest |
| Prices.FlatSeries | sprd_fear_greed_app.py:79-89 | 200 or more equal closes have that value as their average, and the price is then not above it |
| Prices.NearLowExamples | sprd_fear_greed_app.py:90-98 | with a low of 100, 105 is near the low and 115 is not |
| Recommendation.Score | sprd_fear_greed_app.py:93-99 | the score is the number of buy arguments that hold (not above average, sentiment below 30, within 10% of the low), lies in 0..3, is 3 iff all hold and 0 iff none does |
| Recommendation.SentimentPointIsFearBand | sprd_fear_greed_app.py:96-97 | the sentiment point is earned iff the sentiment band is fear, since both use the same strict test against 30 |
| Recommendation.TierOf | sprd_fear_greed_app.py:115-122 | 3, 2 and 1 each select their own tier, and every other score selects the few-arguments tier |
| Recommendation.TierRoundTrip | sprd_fear_greed_app.py:115-122 | on scores 0..3, tier and score determine each other |
| Recommendation.SeverityIdentifiesTier | sprd_fear_greed_app.py:115-122 | the four tiers have four distinct severities |
| Recommendation.Advice | sprd_fear_greed_app.py:115-122 | the shown advice is success for 3, info for 2, warning for 1 and error for anything else, with that tier's message |
| Pipeline.Evaluate | sprd_fear_greed_app.py:51-122 | given statistics with a positive low at most the current price, the score is the average point (price not strictly above, or average missing) plus the fear-band point plus the near-low point, at most 3; the above flag holds iff the average is defined and strictly below the price; the distance is non-negative and below 10% iff 10 * current < 11 * lowest; and the tier is that score's tier |
| Pipeline.Run | sprd_fear_greed_app.py:51-99 | the composite score and its band are produced on every path; the run halts with EmptySeries iff there are no closes; otherwise the current price is the last close, the low is the series minimum, and the report scores those statistics |
| Pipeline.ShortHistoryEarnsAveragePoint | sprd_fear_greed_app.py:79-95 | with 1 to 199 closes the average is missing and the score is 1 plus the fear and near-low points |
| Pipeline.StrongBuyExample | sprd_fear_greed_app.py:93-116 | all Extreme Fear, a price strictly below a defined average and within 10% of the low gives score 3 and the strong-buy tier |
| Pipeline.FewArgumentsExample | sprd_fear_greed_app.py:93-122 | all Extreme Greed, a price strictly above a defined average and at least 10% above the low gives score 0 and the few-arguments tier |

## Left out

- Page setup, CSS, the selection widgets and all `st.markdown`, `st.success`, `st.info`, `st.warning` and `st.error` output (lines 7-29, 40-48, 54, 64, 84-86). The form is an input function and the shown texts are returned values.
- The emoji that prefix the shown messages. The strings are otherwise the source's own.
- The `yfinance` download of IWDA.AS (lines 69-70). This is network I/O. The closes are a parameter; the dates are not modelled because no computation uses them.
- The matplotlib chart (lines 106-112). `Prices.AverageColumnAllMissing` states only when it is skipped.
- Number formatting with one or two decimals.
- IEEE double rounding. The model uses exact reals. For the sentiment test this changes nothing, because the anchor sum is an integer and 30 * 7 is exact. The literal `0.1` is read as exactly one tenth.
- Pipeline.Run: requires every close to be positive. With a negative low the script computes a distance of at most 0, which earns the near-low point. With a zero low it gets inf or NaN. Neither case is modelled.
- Positional versus label indexing in `close[-1]`. It is modelled as the last element of the sequence.
- NaN closes inside the series, which pandas' `min` and rolling mean would skip or propagate. Closes are ordinary numbers.
