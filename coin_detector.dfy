/** The coin-name detector (image_analyzer.py:164-193): the OCR text
    regions of one screenshot, the exact and fuzzy hits they give against
    the known coins, and the running best the detector keeps.  OCR itself
    is outside the model: the detector receives the text regions. */
module CoinDetector {
  import opened TextScan
  import opened MatchScorer

  /** One OCR text region: its text and its confidence (0..1). */
  datatype TextRegion = TextRegion(text: string, confidence: real)

  /** The built-in coin registry, in its listed order (image_analyzer.py:81-86). */
  const DefaultCoins: seq<string> := [
    "BTC", "ETH", "BNB", "ADA", "DOT", "XRP", "LINK", "LTC", "BCH",
    "UNI", "THETA", "XLM", "VET", "FIL", "TRX", "EOS", "ATOM", "NEO",
    "AVAX", "LUNA", "SOL", "MATIC", "ALGO", "ICP", "EGLD", "RUNE",
    "EPIC", "FLOKI", "HBAR", "COOK", "TAO", "ZORA", "DOGE", "SHIB"]

  /** Fuzzy coin hits need a similarity strictly above this. */
  const FuzzyCutoff: real := 0.8

  // ---------------------------------------------------------------------
  // Coin detection (image_analyzer.py:164-193)
  // ---------------------------------------------------------------------

  /** A coin candidate and the confidence it would earn. */
  datatype Hit = Hit(coin: string, confidence: real)

  const NoCoin: Hit := Hit("", 0.0)

  /** The exact hits of one upper-cased region text against known[..n]. */
  function ExactHits(u: string, known: seq<string>, conf: real, n: nat): (hits: seq<Hit>)
    requires n <= |known|
    ensures |hits| <= n
    ensures forall h :: h in hits ==> h.confidence == conf && h.coin in known[..n]
  {
    if n == 0 then []
    else ExactHits(u, known, conf, n - 1) + (if Contains(u, known[n - 1]) then [Hit(known[n - 1], conf)] else [])
  }

  /** The confidence a fuzzy hit earns: the region's confidence times the
      similarity. */
  function Scaled(conf: real, similarity: real): real {
    conf * similarity
  }

  /** The fuzzy hits of one coin word against known[..n]. */
  function FuzzyHitsFor(w: string, known: seq<string>, conf: real, sim: Similarity, n: nat): (hits: seq<Hit>)
    requires n <= |known|
    ensures |hits| <= n
    ensures forall h :: h in hits ==> h.coin in known[..n]
  {
    if n == 0 then []
    else
      FuzzyHitsFor(w, known, conf, sim, n - 1) +
      (if sim(w, known[n - 1]) > FuzzyCutoff then [Hit(known[n - 1], Scaled(conf, sim(w, known[n - 1])))] else [])
  }

  /** The fuzzy hits of words[..m], word by word. */
  function FuzzyHits(words: seq<string>, known: seq<string>, conf: real, sim: Similarity, m: nat): (hits: seq<Hit>)
    requires m <= |words|
  {
    if m == 0 then []
    else FuzzyHits(words, known, conf, sim, m - 1) + FuzzyHitsFor(words[m - 1], known, conf, sim, |known|)
  }

  /** A region's hits in the order the detector evaluates them: every exact
      hit, then the fuzzy hits of each coin word. */
  function RegionHits(r: TextRegion, known: seq<string>, sim: Similarity): seq<Hit> {
    var u := Upper(r.text);
    var words := CoinWords(u, 0);
    ExactHits(u, known, r.confidence, |known|) + FuzzyHits(words, known, r.confidence, sim, |words|)
  }

  /** The hits of regions[..n], region by region. */
  function AllHits(regions: seq<TextRegion>, known: seq<string>, sim: Similarity, n: nat): (hits: seq<Hit>)
    requires n <= |regions|
    ensures n == 0 ==> hits == []
  {
    if n == 0 then [] else AllHits(regions, known, sim, n - 1) + RegionHits(regions[n - 1], known, sim)
  }

  /** Every fuzzy hit names a registry coin. */
  lemma {:induction false} FuzzyHitsKnown(words: seq<string>, known: seq<string>, conf: real, sim: Similarity, m: nat)
    requires m <= |words|
    ensures forall h :: h in FuzzyHits(words, known, conf, sim, m) ==> h.coin in known
    decreases m
  {
    if m > 0 {
      FuzzyHitsKnown(words, known, conf, sim, m - 1);
      var before, last := FuzzyHits(words, known, conf, sim, m - 1), FuzzyHitsFor(words[m - 1], known, conf, sim, |known|);
      assert FuzzyHits(words, known, conf, sim, m) == before + last;
      assert known[..|known|] == known;
    }
  }

  /** Every hit of a region names a registry coin. */
  lemma RegionHitsKnown(r: TextRegion, known: seq<string>, sim: Similarity)
    ensures forall h :: h in RegionHits(r, known, sim) ==> h.coin in known
  {
    var u := Upper(r.text);
    var words := CoinWords(u, 0);
    FuzzyHitsKnown(words, known, r.confidence, sim, |words|);
    assert known[..|known|] == known;
  }

  /** Every hit of regions[..n] names a registry coin. */
  lemma {:induction false} AllHitsKnown(regions: seq<TextRegion>, known: seq<string>, sim: Similarity, n: nat)
    requires n <= |regions|
    ensures forall h :: h in AllHits(regions, known, sim, n) ==> h.coin in known
    decreases n
  {
    if n > 0 {
      AllHitsKnown(regions, known, sim, n - 1);
      RegionHitsKnown(regions[n - 1], known, sim);
      var before, last := AllHits(regions, known, sim, n - 1), RegionHits(regions[n - 1], known, sim);
      assert AllHits(regions, known, sim, n) == before + last;
    }
  }

  /** One step of the running best: a hit replaces it only with strictly
      greater confidence. */
  function Step(b: Hit, h: Hit): Hit {
    if h.confidence > b.confidence then h else b
  }

  /** The running best after the hits `hs`, starting from `b`. */
  function PickFrom(b: Hit, hs: seq<Hit>): (r: Hit)
    ensures r == b || (r in hs && r.confidence > b.confidence)
    ensures r.confidence >= b.confidence
    ensures forall h :: h in hs ==> h.confidence <= r.confidence
  {
    if hs == [] then b
    else
      var h := hs[|hs| - 1];
      assert hs == hs[..|hs| - 1] + [h];
      Step(PickFrom(b, hs[..|hs| - 1]), h)
  }

  /** The detector's answer for a sequence of hits: the best from ("", 0.0);
      either no hit at all or a hit with positive confidence, at least that
      of every hit. */
  function PickBest(hs: seq<Hit>): (b: Hit)
    ensures b == NoCoin || (b in hs && b.confidence > 0.0)
    ensures b.confidence >= 0.0
    ensures forall h :: h in hs ==> h.confidence <= b.confidence
  {
    PickFrom(NoCoin, hs)
  }

  /** Scanning hits in two batches is scanning them at once. */
  lemma {:induction false} PickFromAppend(b: Hit, xs: seq<Hit>, ys: seq<Hit>)
    ensures PickFrom(b, xs + ys) == PickFrom(PickFrom(b, xs), ys)
    decreases |ys|
  {
    if ys == [] {
      assert xs + ys == xs;
    } else {
      var y := ys[|ys| - 1];
      var ys' := ys[..|ys| - 1];
      assert xs + ys == (xs + ys') + [y];
      assert (xs + ys)[..|xs + ys| - 1] == xs + ys';
      PickFromAppend(b, xs, ys');
    }
  }

  /** One more hit is one more step of the running best. */
  lemma PickFromSnoc(b: Hit, hs: seq<Hit>, h: Hit)
    ensures PickFrom(b, hs + [h]) == Step(PickFrom(b, hs), h)
  {
    assert (hs + [h])[..|hs|] == hs;
  }

  /** One registry coin more in the exact scan of a text. */
  lemma ExactStep(b: Hit, text: string, known: seq<string>, conf: real, j: nat)
    requires j < |known|
    ensures PickFrom(b, ExactHits(text, known, conf, j + 1)) ==
            if Contains(text, known[j])
            then Step(PickFrom(b, ExactHits(text, known, conf, j)), Hit(known[j], conf))
            else PickFrom(b, ExactHits(text, known, conf, j))
  {
    var hs := ExactHits(text, known, conf, j);
    if Contains(text, known[j]) {
      assert ExactHits(text, known, conf, j + 1) == hs + [Hit(known[j], conf)];
      PickFromSnoc(b, hs, Hit(known[j], conf));
    } else {
      assert ExactHits(text, known, conf, j + 1) == hs;
    }
  }

  /** The exact-substring loop over the registry for one region. */
  method ScanExact(text: string, known: seq<string>, conf: real, coin0: string, confidence0: real)
    returns (coin: string, confidence: real)
    ensures Hit(coin, confidence) == PickFrom(Hit(coin0, confidence0), ExactHits(text, known, conf, |known|))
  {
    coin, confidence := coin0, confidence0;
    for j := 0 to |known|
      invariant Hit(coin, confidence) == PickFrom(Hit(coin0, confidence0), ExactHits(text, known, conf, j))
    {
      ExactStep(Hit(coin0, confidence0), text, known, conf, j);
      if Contains(text, known[j]) {
        if conf > confidence {
          coin, confidence := known[j], conf;
        }
      }
    }
  }

  /** One registry coin more in the fuzzy scan of a word. */
  lemma FuzzyStep(b: Hit, word: string, known: seq<string>, conf: real, sim: Similarity, j: nat)
    requires j < |known|
    ensures PickFrom(b, FuzzyHitsFor(word, known, conf, sim, j + 1)) ==
            if sim(word, known[j]) > FuzzyCutoff
            then Step(PickFrom(b, FuzzyHitsFor(word, known, conf, sim, j)), Hit(known[j], Scaled(conf, sim(word, known[j]))))
            else PickFrom(b, FuzzyHitsFor(word, known, conf, sim, j))
  {
    var hs := FuzzyHitsFor(word, known, conf, sim, j);
    var h := Hit(known[j], Scaled(conf, sim(word, known[j])));
    if sim(word, known[j]) > FuzzyCutoff {
      assert FuzzyHitsFor(word, known, conf, sim, j + 1) == hs + [h];
      PickFromSnoc(b, hs, h);
    } else {
      assert FuzzyHitsFor(word, known, conf, sim, j + 1) == hs;
    }
  }

  /** The fuzzy loop over the registry for one coin word. */
  method ScanFuzzy(word: string, known: seq<string>, conf: real, sim: Similarity, coin0: string, confidence0: real)
    returns (coin: string, confidence: real)
    ensures Hit(coin, confidence) == PickFrom(Hit(coin0, confidence0), FuzzyHitsFor(word, known, conf, sim, |known|))
  {
    coin, confidence := coin0, confidence0;
    for j := 0 to |known|
      invariant Hit(coin, confidence) == PickFrom(Hit(coin0, confidence0), FuzzyHitsFor(word, known, conf, sim, j))
    {
      FuzzyStep(Hit(coin0, confidence0), word, known, conf, sim, j);
      var similarity := sim(word, known[j]);
      if similarity > FuzzyCutoff {
        var c := Scaled(conf, similarity);
        if c > confidence {
          coin, confidence := known[j], c;
        }
      }
    }
  }

  /** The loop over one region's coin words. */
  method ScanWords(words: seq<string>, known: seq<string>, conf: real, sim: Similarity, coin0: string, confidence0: real)
    returns (coin: string, confidence: real)
    ensures Hit(coin, confidence) == PickFrom(Hit(coin0, confidence0), FuzzyHits(words, known, conf, sim, |words|))
  {
    coin, confidence := coin0, confidence0;
    for m := 0 to |words|
      invariant Hit(coin, confidence) == PickFrom(Hit(coin0, confidence0), FuzzyHits(words, known, conf, sim, m))
    {
      ghost var done := FuzzyHits(words, known, conf, sim, m);
      ghost var next := FuzzyHitsFor(words[m], known, conf, sim, |known|);
      coin, confidence := ScanFuzzy(words[m], known, conf, sim, coin, confidence);
      PickFromAppend(Hit(coin0, confidence0), done, next);
    }
  }

  /** The detector's loops for one region: registry substrings, then coin words. */
  method ScanRegion(region: TextRegion, known: seq<string>, sim: Similarity, coin0: string, confidence0: real)
    returns (coin: string, confidence: real)
    ensures Hit(coin, confidence) == PickFrom(Hit(coin0, confidence0), RegionHits(region, known, sim))
  {
    var text := Upper(region.text);
    var conf := region.confidence;
    var words := CoinWords(text, 0);
    ghost var exact := ExactHits(text, known, conf, |known|);
    coin, confidence := ScanExact(text, known, conf, coin0, confidence0);
    coin, confidence := ScanWords(words, known, conf, sim, coin, confidence);
    PickFromAppend(Hit(coin0, confidence0), exact, FuzzyHits(words, known, conf, sim, |words|));
  }

  /** `detect_coin_name`: each region's text is upper-cased; a registry coin
      occurring in it earns the region's confidence, and a coin word whose
      similarity to a registry coin exceeds 0.8 earns the confidence times
      that similarity; the best hit is kept, ties going to the first. */
  method DetectCoinName(regions: seq<TextRegion>, known: seq<string>, sim: Similarity)
    returns (coin: string, confidence: real)
    ensures Hit(coin, confidence) == PickBest(AllHits(regions, known, sim, |regions|))
  {
    coin, confidence := "", 0.0;
    for k := 0 to |regions|
      invariant Hit(coin, confidence) == PickBest(AllHits(regions, known, sim, k))
    {
      coin, confidence := ScanRegion(regions[k], known, sim, coin, confidence);
      PickFromAppend(NoCoin, AllHits(regions, known, sim, k), RegionHits(regions[k], known, sim));
    }
  }

  /** A region backs a hit by an exact registry substring. */
  predicate ExactSupport(r: TextRegion, h: Hit) {
    Contains(Upper(r.text), h.coin) && h.confidence == r.confidence
  }

  /** A region backs a hit through one of its coin words. */
  predicate FuzzySupport(r: TextRegion, h: Hit, sim: Similarity) {
    exists w :: w in CoinWords(Upper(r.text), 0) && sim(w, h.coin) > FuzzyCutoff
                && h.confidence == Scaled(r.confidence, sim(w, h.coin))
  }

  /** Some region backs the hit, exactly or fuzzily, and the coin is registered. */
  predicate Supported(regions: seq<TextRegion>, known: seq<string>, sim: Similarity, h: Hit) {
    h.coin in known &&
    exists k :: 0 <= k < |regions| && (ExactSupport(regions[k], h) || FuzzySupport(regions[k], h, sim))
  }

  lemma {:induction false} ExactHitsSound(u: string, known: seq<string>, conf: real, n: nat)
    requires n <= |known|
    ensures forall h :: h in ExactHits(u, known, conf, n) ==> h.coin in known && Contains(u, h.coin) && h.confidence == conf
    decreases n
  {
    if n > 0 {
      ExactHitsSound(u, known, conf, n - 1);
    }
  }

  lemma {:induction false} FuzzyHitsForSound(w: string, known: seq<string>, conf: real, sim: Similarity, n: nat)
    requires n <= |known|
    ensures forall h :: h in FuzzyHitsFor(w, known, conf, sim, n) ==>
              h.coin in known && sim(w, h.coin) > FuzzyCutoff && h.confidence == Scaled(conf, sim(w, h.coin))
    decreases n
  {
    if n > 0 {
      FuzzyHitsForSound(w, known, conf, sim, n - 1);
    }
  }

  /** Every fuzzy hit of words[..m] comes from one of those words. */
  lemma {:induction false} FuzzyWordsSound(words: seq<string>, known: seq<string>, conf: real, sim: Similarity, m: nat)
    requires m <= |words|
    ensures forall h :: h in FuzzyHits(words, known, conf, sim, m) ==>
              h.coin in known &&
              exists w :: w in words && sim(w, h.coin) > FuzzyCutoff && h.confidence == Scaled(conf, sim(w, h.coin))
    decreases m
  {
    if m > 0 {
      var w := words[m - 1];
      var pre := FuzzyHits(words, known, conf, sim, m - 1);
      var last := FuzzyHitsFor(w, known, conf, sim, |known|);
      assert FuzzyHits(words, known, conf, sim, m) == pre + last;
      FuzzyWordsSound(words, known, conf, sim, m - 1);
      FuzzyHitsForSound(w, known, conf, sim, |known|);
      assert w in words;
      forall h: Hit | h in pre + last
        ensures h.coin in known &&
                exists v :: v in words && sim(v, h.coin) > FuzzyCutoff && h.confidence == Scaled(conf, sim(v, h.coin))
      {
        if h in last {
          assert sim(w, h.coin) > FuzzyCutoff && h.confidence == Scaled(conf, sim(w, h.coin));
        }
      }
    }
  }

  lemma FuzzyHitsSound(r: TextRegion, known: seq<string>, sim: Similarity, m: nat)
    requires m <= |CoinWords(Upper(r.text), 0)|
    ensures forall h :: h in FuzzyHits(CoinWords(Upper(r.text), 0), known, r.confidence, sim, m) ==>
              h.coin in known && FuzzySupport(r, h, sim)
  {
    FuzzyWordsSound(CoinWords(Upper(r.text), 0), known, r.confidence, sim, m);
  }

  /** Soundness: every hit is a registry coin backed by some region. */
  lemma {:induction false} AllHitsSound(regions: seq<TextRegion>, known: seq<string>, sim: Similarity, n: nat)
    requires n <= |regions|
    ensures forall h :: h in AllHits(regions, known, sim, n) ==> Supported(regions, known, sim, h)
    decreases n
  {
    if n > 0 {
      AllHitsSound(regions, known, sim, n - 1);
      AllHitsSoundStep(regions, known, sim, n);
    }
  }

  /** Every hit of regions[k] is supported by regions[k]. */
  lemma RegionHitsSupported(regions: seq<TextRegion>, known: seq<string>, sim: Similarity, k: nat)
    requires k < |regions|
    ensures forall h :: h in RegionHits(regions[k], known, sim) ==> Supported(regions, known, sim, h)
  {
    var r := regions[k];
    var u := Upper(r.text);
    ExactHitsSound(u, known, r.confidence, |known|);
    FuzzyHitsSound(r, known, sim, |CoinWords(u, 0)|);
    forall h | h in RegionHits(r, known, sim)
      ensures Supported(regions, known, sim, h)
    {
      assert ExactSupport(regions[k], h) || FuzzySupport(regions[k], h, sim);
    }
  }

  /** Soundness of regions[..n-1] extends to regions[..n]. */
  lemma AllHitsSoundStep(regions: seq<TextRegion>, known: seq<string>, sim: Similarity, n: nat)
    requires 0 < n <= |regions|
    requires forall h :: h in AllHits(regions, known, sim, n - 1) ==> Supported(regions, known, sim, h)
    ensures forall h :: h in AllHits(regions, known, sim, n) ==> Supported(regions, known, sim, h)
  {
    RegionHitsSupported(regions, known, sim, n - 1);
    forall h | h in AllHits(regions, known, sim, n)
      ensures Supported(regions, known, sim, h)
    {
      AllHitsGrow(regions, known, sim, n, h);
    }
  }

  /** The hits of regions[..n] are those of regions[..n-1] and those of regions[n-1]. */
  lemma AllHitsGrow(regions: seq<TextRegion>, known: seq<string>, sim: Similarity, n: nat, h: Hit)
    requires 0 < n <= |regions|
    ensures h in AllHits(regions, known, sim, n) <==>
      h in AllHits(regions, known, sim, n - 1) || h in RegionHits(regions[n - 1], known, sim)
  {
  }

  lemma {:induction false} ExactHitsComplete(u: string, known: seq<string>, conf: real, n: nat, j: nat)
    requires j < n <= |known| && Contains(u, known[j])
    ensures Hit(known[j], conf) in ExactHits(u, known, conf, n)
    decreases n
  {
    if j < n - 1 {
      ExactHitsComplete(u, known, conf, n - 1, j);
    }
  }

  lemma {:induction false} FuzzyHitsForComplete(w: string, known: seq<string>, conf: real, sim: Similarity, n: nat, j: nat)
    requires j < n <= |known| && sim(w, known[j]) > FuzzyCutoff
    ensures Hit(known[j], Scaled(conf, sim(w, known[j]))) in FuzzyHitsFor(w, known, conf, sim, n)
    decreases n
  {
    if j < n - 1 {
      FuzzyHitsForComplete(w, known, conf, sim, n - 1, j);
    }
  }

  lemma FuzzyHitsComplete(words: seq<string>, known: seq<string>, conf: real, sim: Similarity, m: nat, i: nat, j: nat)
    requires i < m <= |words| && j < |known| && sim(words[i], known[j]) > FuzzyCutoff
    ensures Hit(known[j], Scaled(conf, sim(words[i], known[j]))) in FuzzyHits(words, known, conf, sim, m)
  {
    FuzzyHitsForComplete(words[i], known, conf, sim, |known|, j);
    FuzzyHitsIncludeWord(words, known, conf, sim, m, i, Hit(known[j], Scaled(conf, sim(words[i], known[j]))));
  }

  /** Every hit of words[i] is among the hits of words[..m] once i < m. */
  lemma FuzzyHitsIncludeWord(words: seq<string>, known: seq<string>, conf: real, sim: Similarity, m: nat, i: nat, h: Hit)
    requires i < m <= |words| && h in FuzzyHitsFor(words[i], known, conf, sim, |known|)
    ensures h in FuzzyHits(words, known, conf, sim, m)
  {
    var q :| 0 <= q < |FuzzyHitsFor(words[i], known, conf, sim, |known|)| && FuzzyHitsFor(words[i], known, conf, sim, |known|)[q] == h;
    var p := WordHitPosition(words, known, conf, sim, m, i, q);
  }

  /** Where the q-th hit of words[i] sits among the hits of words[..m]. */
  lemma {:induction false} WordHitPosition(words: seq<string>, known: seq<string>, conf: real, sim: Similarity, m: nat, i: nat, q: nat)
    returns (p: nat)
    requires i < m <= |words| && q < |FuzzyHitsFor(words[i], known, conf, sim, |known|)|
    ensures p < |FuzzyHits(words, known, conf, sim, m)|
    ensures FuzzyHits(words, known, conf, sim, m)[p] == FuzzyHitsFor(words[i], known, conf, sim, |known|)[q]
    decreases m
  {
    if i < m - 1 {
      var p' := WordHitPosition(words, known, conf, sim, m - 1, i, q);
      p := EarlierWordPosition(words, known, conf, sim, m, p');
    } else {
      p := LastWordPosition(words, known, conf, sim, m, q);
    }
  }

  /** A hit of words[..m-1] keeps its position among the hits of words[..m]. */
  lemma EarlierWordPosition(words: seq<string>, known: seq<string>, conf: real, sim: Similarity, m: nat, p': nat) returns (p: nat)
    requires 0 < m <= |words| && p' < |FuzzyHits(words, known, conf, sim, m - 1)|
    ensures p < |FuzzyHits(words, known, conf, sim, m)|
    ensures FuzzyHits(words, known, conf, sim, m)[p] == FuzzyHits(words, known, conf, sim, m - 1)[p']
  {
    var before, last := FuzzyHits(words, known, conf, sim, m - 1), FuzzyHitsFor(words[m - 1], known, conf, sim, |known|);
    assert FuzzyHits(words, known, conf, sim, m) == before + last;
    p := p';
  }

  /** The hits of the last word words[m-1] follow those of words[..m-1]. */
  lemma LastWordPosition(words: seq<string>, known: seq<string>, conf: real, sim: Similarity, m: nat, q: nat) returns (p: nat)
    requires 0 < m <= |words| && q < |FuzzyHitsFor(words[m - 1], known, conf, sim, |known|)|
    ensures p < |FuzzyHits(words, known, conf, sim, m)|
    ensures FuzzyHits(words, known, conf, sim, m)[p] == FuzzyHitsFor(words[m - 1], known, conf, sim, |known|)[q]
  {
    var before, last := FuzzyHits(words, known, conf, sim, m - 1), FuzzyHitsFor(words[m - 1], known, conf, sim, |known|);
    assert FuzzyHits(words, known, conf, sim, m) == before + last;
    p := |before| + q;
  }

  lemma AllHitsIncludeRegion(regions: seq<TextRegion>, known: seq<string>, sim: Similarity, n: nat, k: nat)
    requires k < n <= |regions|
    ensures forall h :: h in RegionHits(regions[k], known, sim) ==> h in AllHits(regions, known, sim, n)
  {
    forall h | h in RegionHits(regions[k], known, sim)
      ensures h in AllHits(regions, known, sim, n)
    {
      var q :| 0 <= q < |RegionHits(regions[k], known, sim)| && RegionHits(regions[k], known, sim)[q] == h;
      var p := RegionHitPosition(regions, known, sim, n, k, q);
    }
  }

  /** Where the q-th hit of regions[k] sits among the hits of regions[..n]. */
  lemma {:induction false} RegionHitPosition(regions: seq<TextRegion>, known: seq<string>, sim: Similarity, n: nat, k: nat, q: nat)
    returns (p: nat)
    requires k < n <= |regions| && q < |RegionHits(regions[k], known, sim)|
    ensures p < |AllHits(regions, known, sim, n)|
    ensures AllHits(regions, known, sim, n)[p] == RegionHits(regions[k], known, sim)[q]
    decreases n
  {
    if k < n - 1 {
      var p' := RegionHitPosition(regions, known, sim, n - 1, k, q);
      p := EarlierRegionPosition(regions, known, sim, n, p');
    } else {
      p := LastRegionPosition(regions, known, sim, n, q);
    }
  }

  /** A hit of regions[..n-1] keeps its position among the hits of regions[..n]. */
  lemma EarlierRegionPosition(regions: seq<TextRegion>, known: seq<string>, sim: Similarity, n: nat, p': nat) returns (p: nat)
    requires 0 < n <= |regions| && p' < |AllHits(regions, known, sim, n - 1)|
    ensures p < |AllHits(regions, known, sim, n)|
    ensures AllHits(regions, known, sim, n)[p] == AllHits(regions, known, sim, n - 1)[p']
  {
    var before, last := AllHits(regions, known, sim, n - 1), RegionHits(regions[n - 1], known, sim);
    assert AllHits(regions, known, sim, n) == before + last;
    p := p';
  }

  /** The hits of the last region regions[n-1] follow those of regions[..n-1]. */
  lemma LastRegionPosition(regions: seq<TextRegion>, known: seq<string>, sim: Similarity, n: nat, q: nat) returns (p: nat)
    requires 0 < n <= |regions| && q < |RegionHits(regions[n - 1], known, sim)|
    ensures p < |AllHits(regions, known, sim, n)|
    ensures AllHits(regions, known, sim, n)[p] == RegionHits(regions[n - 1], known, sim)[q]
  {
    var before, last := AllHits(regions, known, sim, n - 1), RegionHits(regions[n - 1], known, sim);
    assert AllHits(regions, known, sim, n) == before + last;
    p := |before| + q;
  }


  /** Completeness for exact hits: a registry coin occurring in a region's
      upper-cased text bounds the detected confidence from below. */
  lemma ExactHitBoundsDetection(regions: seq<TextRegion>, known: seq<string>, sim: Similarity, k: nat, j: nat)
    requires k < |regions| && j < |known| && Contains(Upper(regions[k].text), known[j])
    ensures PickBest(AllHits(regions, known, sim, |regions|)).confidence >= regions[k].confidence
  {
    var u := Upper(regions[k].text);
    ExactHitsComplete(u, known, regions[k].confidence, |known|, j);
    AllHitsIncludeRegion(regions, known, sim, |regions|, k);
    assert Hit(known[j], regions[k].confidence) in RegionHits(regions[k], known, sim);
  }

  /** Completeness for fuzzy hits: a coin word more than 0.8 similar to a
      registry coin bounds the detected confidence from below. */
  lemma FuzzyHitBoundsDetection(regions: seq<TextRegion>, known: seq<string>, sim: Similarity, k: nat, i: nat, j: nat)
    requires k < |regions| && j < |known|
    requires i < |CoinWords(Upper(regions[k].text), 0)|
    requires sim(CoinWords(Upper(regions[k].text), 0)[i], known[j]) > FuzzyCutoff
    ensures PickBest(AllHits(regions, known, sim, |regions|)).confidence >=
              Scaled(regions[k].confidence, sim(CoinWords(Upper(regions[k].text), 0)[i], known[j]))
  {
    var words := CoinWords(Upper(regions[k].text), 0);
    FuzzyHitsComplete(words, known, regions[k].confidence, sim, |words|, i, j);
    AllHitsIncludeRegion(regions, known, sim, |regions|, k);
    var h := Hit(known[j], Scaled(regions[k].confidence, sim(words[i], known[j])));
    assert h in RegionHits(regions[k], known, sim);
  }

  /** The detected coin is ("", 0.0) or a registry coin with positive
      confidence that some region backs, exactly or through a coin word. */
  lemma DetectedCoinSupported(regions: seq<TextRegion>, known: seq<string>, sim: Similarity)
    ensures var b := PickBest(AllHits(regions, known, sim, |regions|));
            b == NoCoin || (b.confidence > 0.0 && Supported(regions, known, sim, b))
  {
    AllHitsSound(regions, known, sim, |regions|);
  }

  /** The running best is the first hit of maximal confidence. */
  lemma {:induction false} PickFromFirst(b: Hit, hs: seq<Hit>)
    ensures var r := PickFrom(b, hs);
            r == b || exists i :: 0 <= i < |hs| && hs[i] == r && forall j :: 0 <= j < i ==> hs[j].confidence < r.confidence
    decreases |hs|
  {
    if hs != [] {
      var pre, last := hs[..|hs| - 1], hs[|hs| - 1];
      var r := PickFrom(b, pre);
      var res := PickFrom(b, hs);
      assert res == Step(r, last);
      if last.confidence > r.confidence {
        assert forall j :: 0 <= j < |hs| - 1 ==> hs[j] == pre[j] && pre[j] in pre;
      } else if r != b {
        PickFromFirst(b, pre);
        var i :| 0 <= i < |pre| && pre[i] == r && forall j :: 0 <= j < i ==> pre[j].confidence < r.confidence;
        assert hs[i] == res;
        assert forall j :: 0 <= j < i ==> hs[j] == pre[j];
      }
    }
  }

  lemma ScaledWithin(conf: real, similarity: real)
    requires 0.0 <= conf <= 1.0 && 0.0 <= similarity <= 1.0
    ensures 0.0 <= Scaled(conf, similarity) <= conf
  {
    assert conf * similarity <= conf * 1.0;
  }

  /** With region confidences and similarities in [0, 1], so is the detected
      confidence. */
  lemma CoinConfidenceInUnitInterval(regions: seq<TextRegion>, known: seq<string>, sim: Similarity)
    requires ValidSimilarity(sim)
    requires forall r :: r in regions ==> 0.0 <= r.confidence <= 1.0
    ensures 0.0 <= PickBest(AllHits(regions, known, sim, |regions|)).confidence <= 1.0
  {
    var b := PickBest(AllHits(regions, known, sim, |regions|));
    DetectedCoinSupported(regions, known, sim);
    if b != NoCoin {
      var k :| 0 <= k < |regions| && (ExactSupport(regions[k], b) || FuzzySupport(regions[k], b, sim));
      var r := regions[k];
      assert r in regions;
      if !ExactSupport(r, b) {
        var w :| w in CoinWords(Upper(r.text), 0) && sim(w, b.coin) > FuzzyCutoff
                 && b.confidence == Scaled(r.confidence, sim(w, b.coin));
        ScaledWithin(r.confidence, sim(w, b.coin));
      }
    }
  }
}
