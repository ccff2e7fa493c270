/** The price and ROI detectors and the assembly of one screenshot's
    observation (image_analyzer.py:195-326), on top of the coin-name
    detector.  OCR, image loading and the colour masking are outside the
    model: the detectors receive the text regions and the green/red pixel
    counts. */
module RecordBuilder {
  import opened Wrappers
  import opened Trades
  import opened TextScan
  import opened MatchScorer
  import opened CoinDetector

  // ---------------------------------------------------------------------
  // Prices (image_analyzer.py:195-215)
  // ---------------------------------------------------------------------

  /** The plausibility range for a price: 0.000001 to 1000000 inclusive. */
  predicate PlausiblePrice(v: real) {
    0.000001 <= v <= 1000000.0
  }

  /** The plausible values among vs[..n], each paired with `conf`, in order. */
  function PlausibleHits(vs: seq<real>, conf: real, n: nat): (hits: seq<PriceHit>)
    requires n <= |vs|
    ensures forall h :: h in hits ==> h.confidence == conf && PlausiblePrice(h.value)
  {
    if n == 0 then []
    else PlausibleHits(vs, conf, n - 1) + (if PlausiblePrice(vs[n - 1]) then [PriceHit(vs[n - 1], conf)] else [])
  }

  function RegionPrices(r: TextRegion): seq<PriceHit> {
    var vs := PriceValues(r.text, 0);
    PlausibleHits(vs, r.confidence, |vs|)
  }

  /** The prices of regions[..n], region by region. */
  function Prices(regions: seq<TextRegion>, n: nat): (ps: seq<PriceHit>)
    requires n <= |regions|
    ensures forall h :: h in ps ==> PlausiblePrice(h.value)
  {
    if n == 0 then [] else Prices(regions, n - 1) + RegionPrices(regions[n - 1])
  }

  /** `detect_prices`: every price match of every region, in order, kept when
      it lies in the plausible range, with its region's confidence. */
  method DetectPrices(regions: seq<TextRegion>) returns (prices: seq<PriceHit>)
    ensures prices == Prices(regions, |regions|)
  {
    prices := [];
    for k := 0 to |regions|
      invariant prices == Prices(regions, k)
    {
      var region := regions[k];
      var matches := PriceValues(region.text, 0);
      ghost var before := prices;
      for m := 0 to |matches|
        invariant prices == before + PlausibleHits(matches, region.confidence, m)
      {
        var price := matches[m];
        if PlausiblePrice(price) {
          prices := prices + [PriceHit(price, region.confidence)];
        }
      }
    }
  }

  lemma {:induction false} PlausibleHitsExact(vs: seq<real>, conf: real, n: nat)
    requires n <= |vs|
    ensures forall h :: h in PlausibleHits(vs, conf, n) <==>
              h.confidence == conf && PlausiblePrice(h.value) && exists i :: 0 <= i < n && vs[i] == h.value
    decreases n
  {
    if n > 0 {
      PlausibleHitsExact(vs, conf, n - 1);
    }
  }

  /** A price is detected exactly when some region's text yields it as a
      match, it is plausible, and it carries that region's confidence. */
  lemma {:induction false} DetectedPricesExact(regions: seq<TextRegion>, n: nat)
    requires n <= |regions|
    ensures forall h :: h in Prices(regions, n) <==>
              exists k :: 0 <= k < n && h in RegionPrices(regions[k])
    decreases n
  {
    if n > 0 {
      DetectedPricesExact(regions, n - 1);
      assert Prices(regions, n) == Prices(regions, n - 1) + RegionPrices(regions[n - 1]);
    }
  }

  /** Every detected price is plausible, hence positive. */
  lemma DetectedPricesPlausible(regions: seq<TextRegion>)
    ensures forall h :: h in Prices(regions, |regions|) ==> PlausiblePrice(h.value) && h.value > 0.0
  {
    DetectedPricesExact(regions, |regions|);
    forall h | h in Prices(regions, |regions|)
      ensures PlausiblePrice(h.value)
    {
      var k :| 0 <= k < |regions| && h in RegionPrices(regions[k]);
      var vs := PriceValues(regions[k].text, 0);
      PlausibleHitsExact(vs, regions[k].confidence, |vs|);
    }
  }

  // ---------------------------------------------------------------------
  // ROI (image_analyzer.py:217-245)
  // ---------------------------------------------------------------------

  /** A percentage candidate and its region's confidence. */
  datatype RoiHit = RoiHit(value: real, confidence: real)

  /** The plausibility range for an ROI: -100 % to +10000 % inclusive. */
  predicate PlausibleRoi(v: real) {
    -100.0 <= v <= 10000.0
  }

  function PlausibleRois(vs: seq<real>, conf: real, n: nat): (hits: seq<RoiHit>)
    requires n <= |vs|
    ensures |hits| <= n
    ensures forall h :: h in hits ==> h.confidence == conf && PlausibleRoi(h.value)
  {
    if n == 0 then []
    else PlausibleRois(vs, conf, n - 1) + (if PlausibleRoi(vs[n - 1]) then [RoiHit(vs[n - 1], conf)] else [])
  }

  function RegionRois(r: TextRegion): seq<RoiHit> {
    var vs := PercentValues(r.text, 0);
    PlausibleRois(vs, r.confidence, |vs|)
  }

  /** The ROI candidates of regions[..n], in order. */
  function RoiCandidates(regions: seq<TextRegion>, n: nat): (hs: seq<RoiHit>)
    requires n <= |regions|
    ensures n == 0 ==> hs == []
    ensures forall h :: h in hs ==> PlausibleRoi(h.value)
  {
    if n == 0 then [] else RoiCandidates(regions, n - 1) + RegionRois(regions[n - 1])
  }

  /** Python's `max(hs, key=confidence)`: the index of the first candidate of
      highest confidence. */
  function FirstMax(hs: seq<RoiHit>): (i: nat)
    requires hs != []
    ensures i < |hs|
    ensures forall j :: 0 <= j < |hs| ==> hs[j].confidence <= hs[i].confidence
    ensures forall j :: 0 <= j < i ==> hs[j].confidence < hs[i].confidence
  {
    if |hs| == 1 then 0
    else
      var i := FirstMax(hs[..|hs| - 1]);
      if hs[|hs| - 1].confidence > hs[i].confidence then |hs| - 1 else i
  }

  /** The ROI `detect_roi` reports: none without candidates, else the value of
      the first highest-confidence one. */
  function ChosenRoi(regions: seq<TextRegion>): (roi: Option<real>)
    ensures roi.None? <==> RoiCandidates(regions, |regions|) == []
    ensures roi.Some? ==>
              exists h :: h in RoiCandidates(regions, |regions|) && h.value == roi.value &&
                (forall g :: g in RoiCandidates(regions, |regions|) ==> g.confidence <= h.confidence)
  {
    var hs := RoiCandidates(regions, |regions|);
    if hs == [] then None
    else
      var h := hs[FirstMax(hs)];
      assert h in hs && forall g :: g in hs ==> g.confidence <= h.confidence;
      Some(h.value)
  }

  /** Green and red pixel counts of the screenshot's colour masks. */
  datatype PixelCounts = PixelCounts(green: nat, red: nat)

  /** `_detect_color_status`: win when green pixels exceed 1.5 times the red
      ones, loss when red exceed 1.5 times green, neutral otherwise, and
      unknown when the image could not be read (None). */
  function ColorStatus(px: Option<PixelCounts>): (s: Status)
    ensures s != Pending
    ensures s == Unknown <==> px.None?
    ensures px.Some? ==> (s == Win <==> px.value.green as real > px.value.red as real * 1.5)
    ensures px.Some? ==> (s == Loss <==> px.value.red as real > px.value.green as real * 1.5)
    ensures px.Some? ==> (s == Neutral <==>
              px.value.green as real <= px.value.red as real * 1.5 &&
              px.value.red as real <= px.value.green as real * 1.5)
  {
    match px
    case None => Unknown
    case Some(p) =>
      if p.green as real > p.red as real * 1.5 then Win
      else if p.red as real > p.green as real * 1.5 then Loss
      else Neutral
  }

  /** `detect_roi`: the plausible percentage candidates of every region, in
      order; the first of highest confidence is reported with the colour
      status. */
  method DetectRoi(regions: seq<TextRegion>, px: Option<PixelCounts>) returns (roi: Option<real>, status: Status)
    ensures roi == ChosenRoi(regions)
    ensures status == ColorStatus(px)
  {
    var roiValues: seq<RoiHit> := [];
    for k := 0 to |regions|
      invariant roiValues == RoiCandidates(regions, k)
    {
      var region := regions[k];
      var matches := PercentValues(region.text, 0);
      ghost var before := roiValues;
      for m := 0 to |matches|
        invariant roiValues == before + PlausibleRois(matches, region.confidence, m)
      {
        if PlausibleRoi(matches[m]) {
          roiValues := roiValues + [RoiHit(matches[m], region.confidence)];
        }
      }
    }
    status := ColorStatus(px);
    if roiValues != [] {
      roi := Some(roiValues[FirstMax(roiValues)].value);
    } else {
      roi := None;
    }
  }

  lemma {:induction false} PlausibleRoisSound(vs: seq<real>, conf: real, n: nat)
    requires n <= |vs|
    ensures forall h :: h in PlausibleRois(vs, conf, n) ==> PlausibleRoi(h.value) && h.confidence == conf
    decreases n
  {
    if n > 0 {
      PlausibleRoisSound(vs, conf, n - 1);
    }
  }

  lemma {:induction false} RoiCandidatesSound(regions: seq<TextRegion>, n: nat)
    requires n <= |regions|
    ensures forall h :: h in RoiCandidates(regions, n) ==>
              PlausibleRoi(h.value) && exists k :: 0 <= k < n && h.confidence == regions[k].confidence
    decreases n
  {
    if n > 0 {
      RoiCandidatesSound(regions, n - 1);
      var r := regions[n - 1];
      var vs := PercentValues(r.text, 0);
      PlausibleRoisSound(vs, r.confidence, |vs|);
      assert RoiCandidates(regions, n) == RoiCandidates(regions, n - 1) + RegionRois(r);
    }
  }

  /** A reported ROI lies in [-100, 10000] and was read in a region at least
      as confident as every other candidate's. */
  lemma ChosenRoiPlausible(regions: seq<TextRegion>)
    ensures ChosenRoi(regions).Some? ==> PlausibleRoi(ChosenRoi(regions).value)
    ensures ChosenRoi(regions).None? <==> RoiCandidates(regions, |regions|) == []
  {
    var hs := RoiCandidates(regions, |regions|);
    RoiCandidatesSound(regions, |regions|);
    if hs != [] {
      assert hs[FirstMax(hs)] in hs;
    }
  }

  // ---------------------------------------------------------------------
  // Assembly (image_analyzer.py:278-328)
  // ---------------------------------------------------------------------

  /** Python's `sum` of the price confidences. */
  function SumConfidences(ps: seq<PriceHit>): (s: real)
    ensures (forall h :: h in ps ==> h.confidence >= 0.0) ==> s >= 0.0
  {
    if ps == [] then 0.0 else SumConfidences(ps[..|ps| - 1]) + ps[|ps| - 1].confidence
  }

  /** The mean of the coin confidence and every price confidence. */
  function OverallConfidence(coinConfidence: real, prices: seq<PriceHit>): (c: real)
    ensures c * (1 + |prices|) as real == coinConfidence + SumConfidences(prices)
    ensures prices == [] ==> c == coinConfidence
  {
    (coinConfidence + SumConfidences(prices)) / (1 + |prices|) as real
  }

  /** The observation `analyze_image` assembles from non-empty text regions:
      the detectors' outputs, the first price as entry and the second as exit
      (when present), the processing time as timestamp, and the mean
      confidence. */
  function Assembled(path: string, regions: seq<TextRegion>, known: seq<string>, sim: Similarity,
                     px: Option<PixelCounts>, now: Stamp): (o: Observation)
    ensures o.prices == Prices(regions, |regions|)
    ensures o.entryPrice.Some? <==> |o.prices| >= 1
    ensures o.exitPrice.Some? <==> |o.prices| >= 2
    ensures o.entryPrice.Some? ==> o.entryPrice.value == o.prices[0].value
    ensures o.exitPrice.Some? ==> o.exitPrice.value == o.prices[1].value
    ensures o.timestamp == Some(now) && o.regionCount == |regions| && o.sourceImage == path
  {
    var c := PickBest(AllHits(regions, known, sim, |regions|));
    var prices := Prices(regions, |regions|);
    Observation(c.coin, c.confidence, prices, ChosenRoi(regions), ColorStatus(px), |regions|, path, Some(now),
                if prices != [] then Some(prices[0].value) else None,
                if |prices| > 1 then Some(prices[1].value) else None,
                OverallConfidence(c.confidence, prices))
  }

  /** `analyze_image` after OCR: no regions means no analysis (None);
      otherwise the assembled observation.  `now` stands for
      `datetime.now()` and `px` for the colour masks of the image. */
  method AnalyzeImage(path: string, regions: seq<TextRegion>, known: seq<string>, sim: Similarity,
                      px: Option<PixelCounts>, now: Stamp) returns (result: Option<Observation>)
    ensures result.None? <==> regions == []
    ensures result.Some? ==> result.value == Assembled(path, regions, known, sim, px, now)
  {
    if regions == [] {
      return None;
    }
    var coin, coinConfidence := DetectCoinName(regions, known, sim);
    var prices := DetectPrices(regions);
    var roi, status := DetectRoi(regions, px);
    var entry: Option<real> := None;
    var exit: Option<real> := None;
    if prices != [] {
      entry := Some(prices[0].value);
      if |prices| > 1 {
        exit := Some(prices[1].value);
      }
    }
    var overall := OverallConfidence(coinConfidence, prices);
    result := Some(Observation(coin, coinConfidence, prices, roi, status, |regions|, path, Some(now),
                               entry, exit, overall));
  }

  lemma {:induction false} SumConfidencesBounded(ps: seq<PriceHit>)
    requires forall h :: h in ps ==> 0.0 <= h.confidence <= 1.0
    ensures 0.0 <= SumConfidences(ps) <= |ps| as real
    decreases |ps|
  {
    if ps != [] {
      var pre := ps[..|ps| - 1];
      assert forall h :: h in pre ==> h in ps;
      assert ps[|ps| - 1] in ps;
      SumConfidencesBounded(pre);
    }
  }

  /** Every detected price carries the confidence of some region. */
  lemma PriceConfidencesFromRegions(regions: seq<TextRegion>)
    ensures forall h :: h in Prices(regions, |regions|) ==>
              exists k :: 0 <= k < |regions| && h.confidence == regions[k].confidence
  {
    DetectedPricesExact(regions, |regions|);
    forall h | h in Prices(regions, |regions|)
      ensures exists k :: 0 <= k < |regions| && h.confidence == regions[k].confidence
    {
      var k :| 0 <= k < |regions| && h in RegionPrices(regions[k]);
      var vs := PriceValues(regions[k].text, 0);
      PlausibleHitsExact(vs, regions[k].confidence, |vs|);
    }
  }

  /** The mean of confidences in [0, 1] is in [0, 1]. */
  lemma OverallConfidenceInUnitInterval(coinConfidence: real, prices: seq<PriceHit>)
    requires 0.0 <= coinConfidence <= 1.0
    requires forall h :: h in prices ==> 0.0 <= h.confidence <= 1.0
    ensures 0.0 <= OverallConfidence(coinConfidence, prices) <= 1.0
  {
    SumConfidencesBounded(prices);
    QuotientInUnit(coinConfidence + SumConfidences(prices), (1 + |prices|) as real);
  }

  lemma PriceConfidencesInUnitInterval(regions: seq<TextRegion>)
    requires forall r :: r in regions ==> 0.0 <= r.confidence <= 1.0
    ensures forall h :: h in Prices(regions, |regions|) ==> 0.0 <= h.confidence <= 1.0
  {
    PriceConfidencesFromRegions(regions);
    forall h | h in Prices(regions, |regions|)
      ensures 0.0 <= h.confidence <= 1.0
    {
      var k :| 0 <= k < |regions| && h.confidence == regions[k].confidence;
      assert regions[k] in regions;
    }
  }

  /** With region confidences and similarities in [0, 1], the overall
      confidence of an analysis is in [0, 1]. */
  lemma AssembledConfidenceInUnitInterval(path: string, regions: seq<TextRegion>, known: seq<string>,
                                          sim: Similarity, px: Option<PixelCounts>, now: Stamp)
    requires ValidSimilarity(sim)
    requires forall r :: r in regions ==> 0.0 <= r.confidence <= 1.0
    ensures 0.0 <= Assembled(path, regions, known, sim, px, now).overallConfidence <= 1.0
  {
    CoinConfidenceInUnitInterval(regions, known, sim);
    PriceConfidencesInUnitInterval(regions);
    OverallConfidenceInUnitInterval(PickBest(AllHits(regions, known, sim, |regions|)).confidence,
                                    Prices(regions, |regions|));
  }

  /** An analysis carries only positive prices, as the matcher's score bound
      needs, and never the status "pending". */
  lemma AssembledWellFormed(path: string, regions: seq<TextRegion>, known: seq<string>,
                            sim: Similarity, px: Option<PixelCounts>, now: Stamp)
    ensures PositivePrices(Assembled(path, regions, known, sim, px, now))
    ensures Assembled(path, regions, known, sim, px, now).status != Pending
  {
    var prices := Prices(regions, |regions|);
    DetectedPricesPlausible(regions);
    if prices != [] {
      assert prices[0] in prices;
    }
    if |prices| > 1 {
      assert prices[1] in prices;
    }
  }
}
