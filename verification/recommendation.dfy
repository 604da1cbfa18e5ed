/** The recommendation: three buy arguments counted into a score of 0 to 3,
    and the score mapped to one of four advice tiers. */
module Recommendation {
  import Sentiment
  import Prices

  /** The number of true values in a sequence of conditions. */
  function CountTrue(bs: seq<bool>): (n: nat)
    ensures n <= |bs|
    ensures n == 0 <==> forall i :: 0 <= i < |bs| ==> !bs[i]
    ensures n == |bs| <==> forall i :: 0 <= i < |bs| ==> bs[i]
  {
    if |bs| == 0 then 0
    else (if bs[0] then 1 else 0) + CountTrue(bs[1..])
  }

  /** The three buy arguments, in the order they are scored: the price is
      not above its 200-point average, the sentiment is fearful, and the
      price is within 10% of its low. */
  function Arguments(above: bool, fearGreed: real, distance: real): seq<bool>
  {
    [!above, fearGreed < Sentiment.FearThreshold, distance < Prices.NearLowFraction]
  }

  /** The score, accumulated one point at a time as the script does. It is
      the number of buy arguments that hold, so it lies in 0..3, is 3 exactly
      when all three hold and 0 exactly when none does. */
  function Score(above: bool, fearGreed: real, distance: real): (score: nat)
    ensures score <= 3
    ensures score == CountTrue(Arguments(above, fearGreed, distance))
    ensures score == 3 <==> !above && fearGreed < Sentiment.FearThreshold && distance < Prices.NearLowFraction
    ensures score == 0 <==> above && fearGreed >= Sentiment.FearThreshold && distance >= Prices.NearLowFraction
  {
    var args := Arguments(above, fearGreed, distance);
    assert args[1..][1..][1..] == [];
    var s0 := 0;
    var s1 := if !above then s0 + 1 else s0;
    var s2 := if fearGreed < Sentiment.FearThreshold then s1 + 1 else s1;
    var s3 := if distance < Prices.NearLowFraction then s2 + 1 else s2;
    s3
  }

  /** The sentiment point is earned exactly when the sentiment reads as
      fear: both use the same strict test against 30. */
  lemma SentimentPointIsFearBand(above: bool, fearGreed: real, distance: real)
    ensures Arguments(above, fearGreed, distance)[1] <==> Sentiment.Classify(fearGreed) == Sentiment.FearBand
  {
  }

  /** The four advice tiers, from the strongest buy signal down. */
  datatype Tier = StrongBuy | PotentialBuy | NotOvervalued | FewArguments

  /** How a tier is styled when shown. */
  datatype Severity = Success | Info | Warning | Error

  /** The tier for a score: 3, 2 and 1 each have their own tier, and every
      other value falls through to the last one. */
  function TierOf(score: int): (t: Tier)
    ensures t == StrongBuy <==> score == 3
    ensures t == PotentialBuy <==> score == 2
    ensures t == NotOvervalued <==> score == 1
    ensures t == FewArguments <==> score != 1 && score != 2 && score != 3
  {
    if score == 3 then StrongBuy
    else if score == 2 then PotentialBuy
    else if score == 1 then NotOvervalued
    else FewArguments
  }

  /** The score a tier stands for when the score is in 0..3. */
  function TierScore(t: Tier): nat
  {
    match t
    case StrongBuy => 3
    case PotentialBuy => 2
    case NotOvervalued => 1
    case FewArguments => 0
  }

  /** On the scores the recommendation can produce, the tier and the score
      determine each other. */
  lemma TierRoundTrip(score: int, t: Tier)
    ensures 0 <= score <= 3 ==> TierScore(TierOf(score)) == score
    ensures TierOf(TierScore(t)) == t
  {
  }

  /** The styling of each tier. */
  function SeverityOf(t: Tier): Severity
  {
    match t
    case StrongBuy => Success
    case PotentialBuy => Info
    case NotOvervalued => Warning
    case FewArguments => Error
  }

  /** The message of each tier. */
  function Message(t: Tier): string
  {
    match t
    case StrongBuy => "Interessant koopmoment: angstig sentiment, lage prijs en onder 200d gemiddelde."
    case PotentialBuy => "Potentieel koopmoment, maar niet alle signalen zijn gunstig."
    case NotOvervalued => "Markt is niet overgewaardeerd, maar geen sterk signaal."
    case FewArguments => "Weinig koopargumenten momenteel. Geduld is een deugd."
  }

  /** Each score gets exactly one message and one severity, and distinct
      tiers never share a severity, so the styling identifies the tier. */
  lemma SeverityIdentifiesTier(t: Tier, u: Tier)
    requires SeverityOf(t) == SeverityOf(u)
    ensures t == u
  {
  }

  /** The advice shown for a score: success for 3, info for 2, warning for 1
      and error for anything else. */
  function Advice(score: int): (r: (string, Severity))
    ensures score == 3 ==> r.1 == Success
    ensures score == 2 ==> r.1 == Info
    ensures score == 1 ==> r.1 == Warning
    ensures score != 1 && score != 2 && score != 3 ==> r.1 == Error
    ensures r.0 == Message(TierOf(score))
  {
    var t := TierOf(score);
    (Message(t), SeverityOf(t))
  }
}
