/** The sentiment questionnaire: seven market indicators, each rated in one of
    five fear/greed categories, averaged into one composite score that is then
    read as fear, greed or neutral. */
module Sentiment {
  import opened Numbers

  /** The seven indicators the form asks about. */
  datatype Indicator =
    | Momentum
    | StockPriceStrength
    | StockPriceBreadth
    | PutCallRatio
    | MarketVolatility
    | SafeHavenDemand
    | JunkBondDemand

  /** The five categories a selection box offers, from most fearful to most greedy. */
  datatype Category = ExtremeFear | Fear | Neutral | Greed | ExtremeGreed

  /** A completed form: every indicator has exactly one category. A total
      function makes a missing or unknown indicator impossible by type. */
  type Selections = Indicator -> Category

  /** The indicators in the order the form lists them. */
  const Indicators: seq<Indicator> :=
    [Momentum, StockPriceStrength, StockPriceBreadth, PutCallRatio,
     MarketVolatility, SafeHavenDemand, JunkBondDemand]

  /** The categories in the order the selection boxes list them. */
  const Categories: seq<Category> := [ExtremeFear, Fear, Neutral, Greed, ExtremeGreed]

  /** A composite score below this is read as fear. */
  const FearThreshold: real := 30.0

  /** A composite score above this is read as greed. */
  const GreedThreshold: real := 70.0

  /** The fixed anchor table that turns a category into a number. */
  function Anchor(c: Category): (a: int)
    ensures 10 <= a <= 90
  {
    match c
    case ExtremeFear => 10
    case Fear => 25
    case Neutral => 50
    case Greed => 75
    case ExtremeGreed => 90
  }

  /** The anchor table lists every category once and is strictly increasing
      from most fearful to most greedy, so distinct categories have distinct
      anchors. */
  lemma AnchorOrder()
    ensures forall c :: c in Categories
    ensures forall i, j :: 0 <= i < j < |Categories| ==> Anchor(Categories[i]) < Anchor(Categories[j])
    ensures forall c, d :: Anchor(c) == Anchor(d) ==> c == d
  {
    forall c ensures c in Categories {
      match c
      case ExtremeFear => assert Categories[0] == c;
      case Fear => assert Categories[1] == c;
      case Neutral => assert Categories[2] == c;
      case Greed => assert Categories[3] == c;
      case ExtremeGreed => assert Categories[4] == c;
    }
  }

  /** The numeric score of each indicator, in form order. */
  function Scores(sel: Selections): (r: seq<real>)
    ensures |r| == |Indicators|
    ensures forall i :: 0 <= i < |r| ==> r[i] == Anchor(sel(Indicators[i])) as real
    ensures forall i :: 0 <= i < |r| ==> 10.0 <= r[i] <= 90.0
  {
    seq(|Indicators|, i requires 0 <= i < |Indicators| => Anchor(sel(Indicators[i])) as real)
  }

  /** The composite fear & greed score: the unweighted mean of the seven
      anchors. It always lies within the anchor range [10, 90], and seven
      times it is the sum of the anchors. */
  function CompositeScore(sel: Selections): (r: real)
    ensures 10.0 <= r <= 90.0
    ensures 7.0 * r == Sum(Scores(sel))
  {
    var xs := Scores(sel);
    assert Min(xs) in xs && Max(xs) in xs;
    Mean(xs)
  }

  /** The thresholds can be read off the sum of anchors without division:
      the score is below 30 exactly when the anchors sum to less than 210,
      and above 70 exactly when they sum to more than 490. */
  lemma ThresholdsWithoutDivision(sel: Selections)
    ensures CompositeScore(sel) < FearThreshold <==> Sum(Scores(sel)) < 210.0
    ensures CompositeScore(sel) > GreedThreshold <==> Sum(Scores(sel)) > 490.0
  {
  }

  /** Selecting the same category for every indicator gives exactly that
      category's anchor as the composite score. */
  lemma UniformSelection(sel: Selections, c: Category)
    requires forall ind :: sel(ind) == c
    ensures CompositeScore(sel) == Anchor(c) as real
  {
    MeanOfConstant(Scores(sel), Anchor(c) as real);
  }

  /** The form with every indicator set to `c`. */
  function AllSet(c: Category): Selections
  {
    _ => c
  }

  /** The three ways the composite score is read. */
  datatype Band = FearBand | NeutralBand | GreedBand

  /** The band of a composite score: strictly below 30 is fear, strictly
      above 70 is greed, and everything else, both boundaries included, is
      neutral. Exactly one band applies to every score. */
  function Classify(score: real): (b: Band)
    ensures b == FearBand <==> score < FearThreshold
    ensures b == GreedBand <==> score > GreedThreshold
    ensures b == NeutralBand <==> FearThreshold <= score <= GreedThreshold
  {
    if score < FearThreshold then FearBand
    else if score > GreedThreshold then GreedBand
    else NeutralBand
  }

  /** The position of a band on the fear-to-greed axis. */
  function BandRank(b: Band): nat
  {
    match b
    case FearBand => 0
    case NeutralBand => 1
    case GreedBand => 2
  }

  /** A higher score never lands in a more fearful band. */
  lemma ClassifyMonotone(s: real, t: real)
    requires s <= t
    ensures BandRank(Classify(s)) <= BandRank(Classify(t))
  {
  }

  /** The message shown for a band. */
  function Label(b: Band): string
  {
    match b
    case FearBand => "Angst op de markt"
    case GreedBand => "Hebzucht overheerst"
    case NeutralBand => "Neutraal sentiment"
  }

  /** The display colour of a band. */
  function Colour(b: Band): string
  {
    match b
    case FearBand => "red"
    case GreedBand => "green"
    case NeutralBand => "orange"
  }

  /** The (message, colour) pair shown for a composite score. Fear shows in
      red, greed in green and everything else in orange; the boundary scores
      30 and 70 both show as neutral. */
  function Interpret(score: real): (r: (string, string))
    ensures score < FearThreshold ==> r == ("Angst op de markt", "red")
    ensures score > GreedThreshold ==> r == ("Hebzucht overheerst", "green")
    ensures FearThreshold <= score <= GreedThreshold ==> r == ("Neutraal sentiment", "orange")
  {
    var b := Classify(score);
    (Label(b), Colour(b))
  }

  /** The colour alone determines the band, so the colour and message never
      disagree. */
  lemma ColourIdentifiesBand(b: Band, d: Band)
    requires Colour(b) == Colour(d)
    ensures b == d
  {
  }

  /** The band a uniformly filled form reads as: all Extreme Fear or all
      Fear reads as fear, all Greed or all Extreme Greed as greed, and all
      Neutral as neutral. */
  lemma UniformReading(c: Category)
    ensures Classify(CompositeScore(AllSet(c))) ==
      match c
      case ExtremeFear | Fear => FearBand
      case Neutral => NeutralBand
      case Greed | ExtremeGreed => GreedBand
  {
    UniformSelection(AllSet(c), c);
  }
}
