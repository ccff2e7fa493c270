/** The pair score of `_calculate_match_score` (image_analyzer.py:438-484):
    a weighted sum over the factors that apply to a (signal, result) pair,
    divided by the sum of the weights of those factors. */
module MatchScorer {
  import opened Wrappers
  import opened Trades

  /** `difflib.SequenceMatcher(None, a, b).ratio()`, kept abstract. */
  type Similarity = (string, string) -> real

  /** What the model assumes of the similarity ratio: it lies in [0, 1] and a
      string is fully similar to itself. */
  ghost predicate ValidSimilarity(sim: Similarity) {
    && (forall a, b :: 0.0 <= sim(a, b) <= 1.0)
    && (forall a :: sim(a, a) == 1.0)
  }

  const CoinWeight: real := 0.6
  const TimeWeight: real := 0.2
  const PriceWeight: real := 0.2
  const OneHour: real := 3600.0
  const OneDay: real := 86400.0

  /** The points a factor earned and the weight it adds to the maximum;
      a factor that does not apply contributes (0, 0). */
  datatype Factor = Factor(earned: real, weight: real)

  /** Coin agreement: applies when both coins are non-empty. */
  function CoinFactor(s: Observation, r: Observation, sim: Similarity): (f: Factor)
    ensures f.weight == (if s.coin != "" && r.coin != "" then CoinWeight else 0.0)
    ensures s.coin != "" && s.coin == r.coin ==> f.earned == CoinWeight
  {
    if s.coin != "" && r.coin != "" then
      if s.coin == r.coin then Factor(CoinWeight, CoinWeight)
      else Factor(CoinWeight * sim(s.coin, r.coin) * 0.5, CoinWeight)
    else Factor(0.0, 0.0)
  }

  /** Python truthiness of a timestamp value: present and not the empty string. */
  predicate HasStamp(t: Option<Stamp>)
    ensures HasStamp(t) ==> t.Some? && |t.value.text| > 0
    ensures t.Some? && |t.value.text| > 0 ==> HasStamp(t)
  {
    t.Some? && t.value.text != ""
  }

  /** The time points for a distance of `delta` seconds (the float
      `total_seconds()` of the difference). */
  function TimeEarned(delta: real): (e: real)
    requires delta >= 0.0
    ensures 0.0 <= e <= TimeWeight
    ensures delta <= OneHour ==> e == TimeWeight
    ensures delta > OneDay ==> e == 0.0
  {
    if delta <= OneHour then TimeWeight
    else if delta <= OneDay then TimeWeight * (1.0 - delta / OneDay)
    else 0.0
  }

  /** `abs(a - b)`. */
  function AbsDiff(a: real, b: real): (d: real)
    ensures d >= 0.0 && (d == a - b || d == b - a)
  {
    if a <= b then b - a else a - b
  }

  /** Temporal proximity: applies when both records carry a timestamp; an
      unparsable one still adds the weight but earns nothing. */
  function TimeFactor(s: Observation, r: Observation): (f: Factor)
    ensures f.weight == (if HasStamp(s.timestamp) && HasStamp(r.timestamp) then TimeWeight else 0.0)
    ensures 0.0 <= f.earned <= f.weight
  {
    if HasStamp(s.timestamp) && HasStamp(r.timestamp) then
      match (s.timestamp.value.seconds, r.timestamp.value.seconds)
      case (Some(a), Some(b)) => Factor(TimeEarned(AbsDiff(a, b)), TimeWeight)
      case _ => Factor(0.0, TimeWeight)
    else Factor(0.0, 0.0)
  }

  /** The price a result is compared with: `entry_price or exit_price`. */
  function ResultPrice(r: Observation): (p: Option<real>)
    ensures p == r.entryPrice || p == r.exitPrice
    ensures Truthy(p) <==> Truthy(r.entryPrice) || Truthy(r.exitPrice)
    ensures Truthy(r.entryPrice) ==> p == r.entryPrice
  {
    if Truthy(r.entryPrice) then r.entryPrice else r.exitPrice
  }

  function Min(a: real, b: real): real { if a <= b then a else b }
  function Max(a: real, b: real): real { if a <= b then b else a }

  /** Price consistency: applies when the signal's entry price and the result's
      entry-or-exit price are both truthy; earns 0.2 times their min/max ratio
      when that ratio exceeds 0.8. */
  function PriceFactor(s: Observation, r: Observation): (f: Factor)
    ensures f.weight == (if Truthy(s.entryPrice) && Truthy(ResultPrice(r)) then PriceWeight else 0.0)
  {
    if Truthy(s.entryPrice) && Truthy(ResultPrice(r)) then
      var a, b := s.entryPrice.value, ResultPrice(r).value;
      var ratio := Min(a, b) / Max(a, b);
      if ratio > 0.8 then Factor(PriceWeight * ratio, PriceWeight) else Factor(0.0, PriceWeight)
    else Factor(0.0, 0.0)
  }

  /** The normalised score: earned points over the applicable maximum, 0 when
      no factor applies. */
  function Score(s: Observation, r: Observation, sim: Similarity): (score: real)
    ensures CoinFactor(s, r, sim).weight + TimeFactor(s, r).weight + PriceFactor(s, r).weight == 0.0 ==> score == 0.0
  {
    var c, t, p := CoinFactor(s, r, sim), TimeFactor(s, r), PriceFactor(s, r);
    var maxScore := c.weight + t.weight + p.weight;
    if maxScore > 0.0 then (c.earned + t.earned + p.earned) / maxScore else 0.0
  }

  /** Every price a record carries is positive, as `detect_prices` guarantees. */
  predicate PositivePrices(o: Observation) {
    && (o.entryPrice.Some? ==> o.entryPrice.value > 0.0)
    && (o.exitPrice.Some? ==> o.exitPrice.value > 0.0)
  }

  /** `_calculate_match_score` step by step: each factor adds to the running
      `score` and `maxScore` as the source does. */
  method CalculateMatchScore(s: Observation, r: Observation, sim: Similarity) returns (result: real)
    ensures result == Score(s, r, sim)
  {
    var score := 0.0;
    var maxScore := 0.0;
    if s.coin != "" && r.coin != "" {
      maxScore := maxScore + CoinWeight;
      if s.coin == r.coin {
        score := score + CoinWeight;
      } else {
        score := score + CoinWeight * sim(s.coin, r.coin) * 0.5;
      }
    }
    if HasStamp(s.timestamp) && HasStamp(r.timestamp) {
      maxScore := maxScore + TimeWeight;
      var a, b := s.timestamp.value.seconds, r.timestamp.value.seconds;
      if a.Some? && b.Some? {
        score := score + TimeEarned(AbsDiff(a.value, b.value));
      }
    }
    var signalPrice := s.entryPrice;
    var resultPrice := if Truthy(r.entryPrice) then r.entryPrice else r.exitPrice;
    if Truthy(signalPrice) && Truthy(resultPrice) {
      maxScore := maxScore + PriceWeight;
      var ratio := Min(signalPrice.value, resultPrice.value) / Max(signalPrice.value, resultPrice.value);
      if ratio > 0.8 {
        score := score + PriceWeight * ratio;
      }
    }
    if maxScore > 0.0 {
      result := score / maxScore;
    } else {
      result := 0.0;
    }
  }

  lemma PriceFactorBounded(s: Observation, r: Observation)
    requires PositivePrices(s) && PositivePrices(r)
    ensures 0.0 <= PriceFactor(s, r).earned <= PriceFactor(s, r).weight
  {
    if Truthy(s.entryPrice) && Truthy(ResultPrice(r)) {
      var a, b := s.entryPrice.value, ResultPrice(r).value;
      assert a > 0.0 && b > 0.0;
      RatioAtMostOne(a, b);
    }
  }

  lemma RatioAtMostOne(a: real, b: real)
    requires a > 0.0 && b > 0.0
    ensures 0.0 < Min(a, b) / Max(a, b) <= 1.0
  {
  }

  lemma QuotientInUnit(e: real, w: real)
    requires 0.0 <= e <= w && w > 0.0
    ensures 0.0 <= e / w <= 1.0
  {
  }

  /** The score lies in [0, 1] whenever prices are positive (as the analyser
      produces them) and the similarity ratio lies in [0, 1]. */
  lemma ScoreInUnitInterval(s: Observation, r: Observation, sim: Similarity)
    requires ValidSimilarity(sim)
    requires PositivePrices(s) && PositivePrices(r)
    ensures 0.0 <= Score(s, r, sim) <= 1.0
  {
    var c, t, p := CoinFactor(s, r, sim), TimeFactor(s, r), PriceFactor(s, r);
    PriceFactorBounded(s, r);
    if s.coin != "" && r.coin != "" && s.coin != r.coin {
      var x := sim(s.coin, r.coin);
      assert 0.0 <= x <= 1.0;
      assert 0.0 <= CoinWeight * x * 0.5 <= CoinWeight;
    }
    assert 0.0 <= c.earned <= c.weight;
    var maxScore := c.weight + t.weight + p.weight;
    if maxScore > 0.0 {
      QuotientInUnit(c.earned + t.earned + p.earned, maxScore);
    }
  }

  /** The time points never grow as the distance grows. */
  lemma TimeEarnedNonIncreasing(d1: real, d2: real)
    requires 0.0 <= d1 <= d2
    ensures TimeEarned(d1) >= TimeEarned(d2)
  {
    if d1 > OneHour && d2 <= OneDay {
      assert d1 / OneDay <= d2 / OneDay;
    }
  }

  /** A gap just over an hour, with its fractional second, already earns less
      than the full time weight: the decay starts right after 3600 s. */
  lemma JustOverAnHour()
    ensures TimeEarned(3600.4) == TimeWeight * (1.0 - 3600.4 / OneDay)
    ensures 0.0 < TimeEarned(3600.4) < TimeWeight
  {
  }

  /** Identical coins, timestamps at most an hour apart and equal prices:
      the pair scores exactly 1. */
  lemma FullAgreementScoresOne(s: Observation, r: Observation, sim: Similarity, a: real, b: real)
    requires s.coin != "" && s.coin == r.coin
    requires s.timestamp.Some? && s.timestamp.value.text != "" && s.timestamp.value.seconds == Some(a)
    requires r.timestamp.Some? && r.timestamp.value.text != "" && r.timestamp.value.seconds == Some(b)
    requires AbsDiff(a, b) <= OneHour
    requires Truthy(s.entryPrice) && ResultPrice(r) == s.entryPrice
    ensures Score(s, r, sim) == 1.0
  {
    var v := s.entryPrice.value;
    assert Min(v, v) / Max(v, v) == 1.0;
  }

  /** With all three factors applicable, the same coin and at most an hour
      between the timestamps, the score is 0.8 plus the price points; with a
      price ratio of at most 0.8 it is exactly 0.8. */
  lemma AgreeingPairScore(s: Observation, r: Observation, sim: Similarity, a: real, b: real)
    requires s.coin != "" && s.coin == r.coin
    requires s.timestamp.Some? && s.timestamp.value.text != "" && s.timestamp.value.seconds == Some(a)
    requires r.timestamp.Some? && r.timestamp.value.text != "" && r.timestamp.value.seconds == Some(b)
    requires AbsDiff(a, b) <= OneHour
    requires Truthy(s.entryPrice) && Truthy(ResultPrice(r))
    ensures Score(s, r, sim) == 0.8 + PriceFactor(s, r).earned
    ensures PriceFactor(s, r).earned == 0.0 ==> Score(s, r, sim) == 0.8
  {
  }

  /** Two different non-empty coins never reach the default threshold 0.8,
      whatever the time and price factors earn. */
  lemma DifferentCoinsScoreBelowDefaultThreshold(s: Observation, r: Observation, sim: Similarity)
    requires ValidSimilarity(sim)
    requires PositivePrices(s) && PositivePrices(r)
    requires s.coin != "" && r.coin != "" && s.coin != r.coin
    ensures Score(s, r, sim) < 0.8
  {
    var c, t, p := CoinFactor(s, r, sim), TimeFactor(s, r), PriceFactor(s, r);
    PriceFactorBounded(s, r);
    var x := sim(s.coin, r.coin);
    assert 0.0 <= x <= 1.0;
    assert c.earned <= 0.3;
    var w := c.weight + t.weight + p.weight;
    var e := c.earned + t.earned + p.earned;
    assert e <= 0.3 + t.weight + p.weight;
    assert w == 0.6 + t.weight + p.weight;
    assert 0.8 * w - e >= 0.48 - 0.3 - 0.2 * (t.weight + p.weight) + 0.8 * (t.weight + p.weight) - (t.weight + p.weight);
    assert e < 0.8 * w;
    DivBelow(e, w, 0.8);
  }

  lemma DivBelow(e: real, w: real, k: real)
    requires w > 0.0 && e < k * w
    ensures e / w < k
  {
  }
}
