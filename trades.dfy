/** The records that flow between the analyser, the matcher and the
    presentation statistics (image_analyzer.py, presentation_builder.py). */
module Trades {
  import opened Wrappers

  /** The status strings the system writes into a record:
      "win", "loss", "neutral", "unknown" and "pending". */
  datatype Status = Win | Loss | Neutral | Unknown | Pending

  /** A timestamp as the records carry it: its ISO text, and the instant (in
      seconds, with the microseconds of `isoformat` as a fraction) that
      `datetime.fromisoformat` reads from it, or None when that call raises. */
  datatype Stamp = Stamp(text: string, seconds: Option<real>)

  /** A price read from a text region, with that region's OCR confidence. */
  datatype PriceHit = PriceHit(value: real, confidence: real)

  /** One analysed screenshot: the dictionary `analyze_image` returns
      (image_analyzer.py:304-326).  `entryPrice` and `exitPrice` are None
      where that dictionary has no such key; `coin` is "" when no coin was
      recognised. */
  datatype Observation = Observation(
    coin: string,
    coinConfidence: real,
    prices: seq<PriceHit>,
    roi: Option<real>,
    status: Status,
    regionCount: nat,
    sourceImage: string,
    timestamp: Option<Stamp>,
    entryPrice: Option<real>,
    exitPrice: Option<real>,
    overallConfidence: real)

  /** One emitted trade (the dictionaries built at image_analyzer.py:381-425).
      A field is None where the dictionary holds None or lacks the key. */
  datatype TradeRecord = TradeRecord(
    coin: string,
    entryPrice: Option<real>,
    exitPrice: Option<real>,
    roi: Option<real>,
    status: Status,
    signalImage: Option<string>,
    resultImage: Option<string>,
    matchConfidence: real,
    timestamp: Option<string>)

  /** Python truthiness of an optional number: present and non-zero. */
  predicate Truthy(x: Option<real>)
    ensures Truthy(x) <==> x.GetOr(0.0) != 0.0
  {
    x.Some? && x.value != 0.0
  }

  /** The sort key `x.get('roi', 0)` with a missing ROI read as 0. */
  function RoiKey(t: TradeRecord): (k: real)
    ensures t.roi.Some? ==> k == t.roi.value
    ensures t.roi.None? ==> k == 0.0
  {
    t.roi.GetOr(0.0)
  }
}
