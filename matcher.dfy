/** The greedy signal/result linkage of `match_signals_to_results`
    (image_analyzer.py:342-436). */
module Matcher {
  import opened Wrappers
  import opened Trades
  import opened MatchScorer
  import StableSort

  /** Whether an image was taken as a signal or as a result screenshot
      (the 'type' entry of each processed item). */
  datatype Kind = SignalShot | ResultShot

  /** One processed image: its path, its kind and the analysis of it
      (None where the analysis is missing or empty). */
  datatype Entry = Entry(path: string, kind: Kind, data: Option<Observation>)

  function Signals(items: seq<Entry>): (r: seq<Entry>)
    ensures forall e :: e in r <==> e in items && e.kind == SignalShot
  {
    if items == [] then []
    else (if items[0].kind == SignalShot then [items[0]] else []) + Signals(items[1..])
  }

  function Results(items: seq<Entry>): (r: seq<Entry>)
    ensures forall e :: e in r <==> e in items && e.kind == ResultShot
  {
    if items == [] then []
    else (if items[0].kind == ResultShot then [items[0]] else []) + Results(items[1..])
  }

  /** An entry whose analysis found a coin: the only kind that is emitted alone. */
  predicate HasCoin(e: Entry) {
    e.data.Some? && e.data.value.coin != ""
  }

  /** An unconsumed result with an analysis: a candidate for a signal. */
  predicate Candidate(results: seq<Entry>, used: set<nat>, i: nat)
    requires i < |results|
  {
    i !in used && results[i].data.Some?
  }

  /** The running best of the scan over one signal's candidates. */
  datatype Best = Best(index: Option<nat>, score: real)

  /** The scan of results[..n] for one signal: a candidate replaces the running
      best (initially none, with score 0) only when its score is strictly
      greater and reaches the threshold. */
  function ScanBest(sd: Observation, results: seq<Entry>, used: set<nat>, n: nat,
                    threshold: real, sim: Similarity): (b: Best)
    requires n <= |results|
    ensures b.index.None? ==> b.score == 0.0
    ensures b.index.None? ==> forall j :: 0 <= j < n && Candidate(results, used, j) ==>
              var sc := Score(sd, results[j].data.value, sim); !(sc > 0.0 && sc >= threshold)
    ensures b.index.Some? ==>
              && b.index.value < n
              && Candidate(results, used, b.index.value)
              && b.score == Score(sd, results[b.index.value].data.value, sim)
              && b.score > 0.0 && b.score >= threshold
    ensures b.index.Some? ==> forall j :: 0 <= j < n && Candidate(results, used, j) ==>
              Score(sd, results[j].data.value, sim) <= b.score
    ensures b.index.Some? ==> forall j :: 0 <= j < b.index.value && Candidate(results, used, j) ==>
              Score(sd, results[j].data.value, sim) < b.score
  {
    if n == 0 then Best(None, 0.0)
    else
      var b := ScanBest(sd, results, used, n - 1, threshold, sim);
      var i := n - 1;
      if !Candidate(results, used, i) then b
      else
        var sc := Score(sd, results[i].data.value, sim);
        if sc > b.score && sc >= threshold then Best(Some(i), sc) else b
  }

  /** A signal paired with the result it consumed (image_analyzer.py:381-391):
      coin, entry price and timestamp from the signal; exit price, ROI and
      status from the result. */
  function MergedRecord(signal: Entry, result: Entry, score: real): (t: TradeRecord)
    requires signal.data.Some? && result.data.Some?
    ensures t.coin == signal.data.value.coin && t.entryPrice == signal.data.value.entryPrice
    ensures t.exitPrice == result.data.value.exitPrice && t.roi == result.data.value.roi
    ensures t.status == result.data.value.status
    ensures t.signalImage == Some(signal.path) && t.resultImage == Some(result.path)
    ensures t.matchConfidence == score
  {
    var sd, rd := signal.data.value, result.data.value;
    TradeRecord(sd.coin, sd.entryPrice, rd.exitPrice, rd.roi, rd.status,
                Some(signal.path), Some(result.path), score, StampText(sd.timestamp))
  }

  /** A signal no result qualified for (image_analyzer.py:399-408). */
  function SignalOnlyRecord(signal: Entry): (t: TradeRecord)
    requires signal.data.Some?
    ensures t.coin == signal.data.value.coin && t.entryPrice == signal.data.value.entryPrice
    ensures t.exitPrice.None? && t.roi == signal.data.value.roi && t.status == signal.data.value.status
    ensures t.signalImage == Some(signal.path) && t.resultImage.None? && t.matchConfidence == 0.0
  {
    var sd := signal.data.value;
    TradeRecord(sd.coin, sd.entryPrice, None, sd.roi, sd.status,
                Some(signal.path), None, 0.0, StampText(sd.timestamp))
  }

  /** A result no signal consumed (image_analyzer.py:416-425). */
  function ResultOnlyRecord(result: Entry): (t: TradeRecord)
    requires result.data.Some?
    ensures t.coin == result.data.value.coin && t.entryPrice.None? && t.exitPrice == result.data.value.exitPrice
    ensures t.roi == result.data.value.roi && t.status == result.data.value.status
    ensures t.signalImage.None? && t.resultImage == Some(result.path) && t.matchConfidence == 0.0
  {
    var rd := result.data.value;
    TradeRecord(rd.coin, None, rd.exitPrice, rd.roi, rd.status,
                None, Some(result.path), 0.0, StampText(rd.timestamp))
  }

  function StampText(t: Option<Stamp>): Option<string> {
    match t
    case Some(s) => Some(s.text)
    case None => None
  }

  /** The matcher's state after a prefix of the signals: the records emitted so
      far, the consumed result indices, and those indices in consumption order. */
  datatype State = State(records: seq<TradeRecord>, used: set<nat>, picks: seq<nat>)

  /** One signal's turn: skipped without a coin; otherwise it consumes the best
      qualifying result or is emitted alone. */
  function StepSignal(st: State, signal: Entry, results: seq<Entry>, threshold: real, sim: Similarity): (next: State)
    ensures st.records <= next.records
    ensures |next.records| == |st.records| + (if HasCoin(signal) then 1 else 0)
    ensures st.used <= next.used
    ensures forall i :: i in next.used && i !in st.used ==> i < |results| && results[i].data.Some?
  {
    if !HasCoin(signal) then st
    else
      var b := ScanBest(signal.data.value, results, st.used, |results|, threshold, sim);
      match b.index
      case Some(i) => State(st.records + [MergedRecord(signal, results[i], b.score)], st.used + {i}, st.picks + [i])
      case None => State(st.records + [SignalOnlyRecord(signal)], st.used, st.picks)
  }

  /** The signals processed in arrival order. */
  function Greedy(signals: seq<Entry>, results: seq<Entry>, threshold: real, sim: Similarity): (st: State)
    ensures |st.records| <= |signals|
  {
    if signals == [] then State([], {}, [])
    else StepSignal(Greedy(signals[..|signals| - 1], results, threshold, sim), signals[|signals| - 1], results, threshold, sim)
  }

  /** The result-only records for results[..n] that were not consumed and have a coin. */
  function Leftovers(results: seq<Entry>, used: set<nat>, n: nat): (r: seq<TradeRecord>)
    requires n <= |results|
    ensures |r| <= n
    ensures forall t :: t in r ==> t.matchConfidence == 0.0 && t.signalImage.None?
  {
    if n == 0 then []
    else Leftovers(results, used, n - 1) +
         (if n - 1 !in used && HasCoin(results[n - 1]) then [ResultOnlyRecord(results[n - 1])] else [])
  }

  /** The emitted records before the final sort. */
  function Unsorted(items: seq<Entry>, threshold: real, sim: Similarity): (u: seq<TradeRecord>)
    ensures |u| <= |Signals(items)| + |Results(items)|
  {
    var signals, results := Signals(items), Results(items);
    var st := Greedy(signals, results, threshold, sim);
    st.records + Leftovers(results, st.used, |results|)
  }

  /** The whole matcher: the emitted records sorted by ROI, largest first,
      a missing ROI counting as 0. */
  function MatchAll(items: seq<Entry>, threshold: real, sim: Similarity): (trades: seq<TradeRecord>)
    ensures multiset(trades) == multiset(Unsorted(items, threshold, sim))
  {
    StableSort.SortDesc(Unsorted(items, threshold, sim), RoiKey)
  }

  /** The inner scan of `match_signals_to_results` for one signal
      (image_analyzer.py:359-375). */
  method BestResultFor(signalData: Observation, results: seq<Entry>, used: set<nat>, threshold: real, sim: Similarity)
    returns (bestMatch: Option<nat>, bestScore: real)
    ensures Best(bestMatch, bestScore) == ScanBest(signalData, results, used, |results|, threshold, sim)
  {
    bestMatch := None;
    bestScore := 0.0;
    for i := 0 to |results|
      invariant Best(bestMatch, bestScore) == ScanBest(signalData, results, used, i, threshold, sim)
    {
      if i in used {
        continue;
      }
      if results[i].data.None? {
        continue;
      }
      var score := CalculateMatchScore(signalData, results[i].data.value, sim);
      if score > bestScore && score >= threshold {
        bestMatch := Some(i);
        bestScore := score;
      }
    }
  }

  /** Greedy over one more signal is one more step. */
  lemma GreedyPrefix(signals: seq<Entry>, results: seq<Entry>, threshold: real, sim: Similarity, k: nat)
    requires k < |signals|
    ensures Greedy(signals[..k + 1], results, threshold, sim)
         == StepSignal(Greedy(signals[..k], results, threshold, sim), signals[k], results, threshold, sim)
  {
    assert signals[..k + 1][..k] == signals[..k];
  }

  /** The signal loop of `match_signals_to_results` (image_analyzer.py:354-409):
      each signal with a coin consumes its best result or is emitted alone. */
  method GreedyPass(signals: seq<Entry>, results: seq<Entry>, threshold: real, sim: Similarity)
    returns (matched: seq<TradeRecord>, used: set<nat>)
    ensures matched == Greedy(signals, results, threshold, sim).records
    ensures used == Greedy(signals, results, threshold, sim).used
  {
    matched, used := [], {};
    ghost var picks: seq<nat> := [];
    for k := 0 to |signals|
      invariant State(matched, used, picks) == Greedy(signals[..k], results, threshold, sim)
    {
      GreedyPrefix(signals, results, threshold, sim, k);
      var signal := signals[k];
      if signal.data.None? || signal.data.value.coin == "" {
        continue;
      }
      var bestMatch, bestScore := BestResultFor(signal.data.value, results, used, threshold, sim);
      if bestMatch.Some? {
        var trade := MergedRecord(signal, results[bestMatch.value], bestScore);
        matched := matched + [trade];
        used := used + {bestMatch.value};
        picks := picks + [bestMatch.value];
      } else {
        matched := matched + [SignalOnlyRecord(signal)];
      }
    }
    assert signals[..|signals|] == signals;
  }

  /** The result loop (image_analyzer.py:412-425): every unconsumed result
      with a coin is appended alone. */
  method AppendLeftovers(matched0: seq<TradeRecord>, results: seq<Entry>, used: set<nat>)
    returns (matched: seq<TradeRecord>)
    ensures matched == matched0 + Leftovers(results, used, |results|)
  {
    matched := matched0;
    for i := 0 to |results|
      invariant matched == matched0 + Leftovers(results, used, i)
    {
      if i !in used {
        if results[i].data.Some? && results[i].data.value.coin != "" {
          matched := matched + [ResultOnlyRecord(results[i])];
        }
      }
    }
  }

  method MatchSignalsToResults(items: seq<Entry>, threshold: real, sim: Similarity)
    returns (trades: seq<TradeRecord>)
    ensures trades == MatchAll(items, threshold, sim)
  {
    var signals := Signals(items);
    var results := Results(items);
    var matched, used := GreedyPass(signals, results, threshold, sim);
    matched := AppendLeftovers(matched, results, used);
    trades := StableSort.SortDesc(matched, RoiKey);
  }

  // ---------------------------------------------------------------------
  // Properties of the matcher

  /** The number of signals with a coin: each yields exactly one record. */
  function CoinedCount(signals: seq<Entry>): nat {
    if signals == [] then 0
    else CoinedCount(signals[..|signals| - 1]) + (if HasCoin(signals[|signals| - 1]) then 1 else 0)
  }

  /** What every emitted record satisfies: a non-empty coin, at least one image
      reference, and a confidence that is the pair score (at least the threshold
      and positive) exactly when both images are set, and 0 otherwise. */
  predicate WellFormedRecord(t: TradeRecord, threshold: real) {
    && t.coin != ""
    && (t.signalImage.Some? || t.resultImage.Some?)
    && (if t.signalImage.Some? && t.resultImage.Some?
        then t.matchConfidence >= threshold && t.matchConfidence > 0.0
        else t.matchConfidence == 0.0)
  }

  /** Facts the greedy pass keeps: one record per coined signal, every record
      from a signal, the consumed indices distinct, in range, and exactly the
      `used` set. */
  lemma {:induction false} GreedyInvariant(signals: seq<Entry>, results: seq<Entry>, threshold: real, sim: Similarity)
    ensures var st := Greedy(signals, results, threshold, sim);
      && |st.records| == CoinedCount(signals)
      && |st.picks| <= |st.records|
      && (forall k :: 0 <= k < |st.picks| ==> st.picks[k] < |results|)
      && (forall a, b :: 0 <= a < b < |st.picks| ==> st.picks[a] != st.picks[b])
      && (forall i :: i in st.used <==> i in st.picks)
      && (forall t :: t in st.records ==> WellFormedRecord(t, threshold) && t.signalImage.Some?)
  {
    if signals != [] {
      var init := signals[..|signals| - 1];
      GreedyInvariant(init, results, threshold, sim);
    }
  }

  lemma {:induction false} LeftoversShape(results: seq<Entry>, used: set<nat>, n: nat, threshold: real)
    requires n <= |results|
    ensures forall t :: t in Leftovers(results, used, n) ==>
              WellFormedRecord(t, threshold) && t.signalImage.None? && t.resultImage.Some?
  {
    if n > 0 {
      LeftoversShape(results, used, n - 1, threshold);
    }
  }

  /** Every emitted record is well formed (see WellFormedRecord). */
  lemma EmittedRecordsWellFormed(items: seq<Entry>, threshold: real, sim: Similarity)
    ensures forall t :: t in MatchAll(items, threshold, sim) ==> WellFormedRecord(t, threshold)
  {
    var signals, results := Signals(items), Results(items);
    var st := Greedy(signals, results, threshold, sim);
    GreedyInvariant(signals, results, threshold, sim);
    LeftoversShape(results, st.used, |results|, threshold);
    var u := Unsorted(items, threshold, sim);
    forall t | t in MatchAll(items, threshold, sim) ensures WellFormedRecord(t, threshold) {
      assert t in multiset(MatchAll(items, threshold, sim));
      assert t in multiset(u);
      assert t in st.records || t in Leftovers(results, st.used, |results|);
    }
  }

  /** The unconsumed result indices whose analysis has a coin. */
  function UnusedCoined(results: seq<Entry>, used: set<nat>, n: nat): (r: set<nat>)
    requires n <= |results|
  {
    set i | 0 <= i < n && i !in used && HasCoin(results[i])
  }

  lemma {:induction false} LeftoversCount(results: seq<Entry>, used: set<nat>, n: nat)
    requires n <= |results|
    ensures |Leftovers(results, used, n)| == |UnusedCoined(results, used, n)|
  {
    if n > 0 {
      LeftoversCount(results, used, n - 1);
      UnusedCoinedStep(results, used, n);
      if n - 1 !in used && HasCoin(results[n - 1]) {
        assert n - 1 !in UnusedCoined(results, used, n - 1);
      }
    }
  }

  lemma UnusedCoinedStep(results: seq<Entry>, used: set<nat>, n: nat)
    requires 0 < n <= |results|
    ensures UnusedCoined(results, used, n) ==
            UnusedCoined(results, used, n - 1) + (if n - 1 !in used && HasCoin(results[n - 1]) then {n - 1} else {})
  {
  }

  /** Count rule: one record per signal with a coin (matched or not) plus one
      per unconsumed result with a coin; coinless entries yield nothing of their own. */
  lemma MatchCount(items: seq<Entry>, threshold: real, sim: Similarity)
    ensures var st := Greedy(Signals(items), Results(items), threshold, sim);
      |MatchAll(items, threshold, sim)| == CoinedCount(Signals(items)) + |UnusedCoined(Results(items), st.used, |Results(items)|)|
  {
    var signals, results := Signals(items), Results(items);
    var st := Greedy(signals, results, threshold, sim);
    GreedyInvariant(signals, results, threshold, sim);
    LeftoversCount(results, st.used, |results|);
  }

  /** The output is ordered by ROI (missing counts as 0), largest first, and
      holds exactly the emitted records, equal keys in emission order. */
  lemma MatchAllOrdered(items: seq<Entry>, threshold: real, sim: Similarity, k: real)
    ensures StableSort.SortedDesc(MatchAll(items, threshold, sim), RoiKey)
    ensures multiset(MatchAll(items, threshold, sim)) == multiset(Unsorted(items, threshold, sim))
    ensures StableSort.WithKey(MatchAll(items, threshold, sim), RoiKey, k)
         == StableSort.WithKey(Unsorted(items, threshold, sim), RoiKey, k)
  {
    StableSort.SortDescSorted(Unsorted(items, threshold, sim), RoiKey);
    StableSort.SortDescStable(Unsorted(items, threshold, sim), RoiKey, k);
  }

  // ---------------------------------------------------------------------
  // Exclusivity: no result screenshot is referenced twice

  predicate DistinctPaths(results: seq<Entry>) {
    forall i, j :: 0 <= i < j < |results| ==> results[i].path != results[j].path
  }

  /** A record whose result image is `path`. */
  function RefersTo(path: string): TradeRecord -> bool {
    (t: TradeRecord) => t.resultImage == Some(path)
  }

  function ImageCount(records: seq<TradeRecord>, path: string): nat {
    StableSort.Count(records, RefersTo(path))
  }

  lemma ImageCountAppend(records: seq<TradeRecord>, t: TradeRecord, path: string)
    ensures ImageCount(records + [t], path) == ImageCount(records, path) + (if t.resultImage == Some(path) then 1 else 0)
  {
    StableSort.CountConcat(records, [t], RefersTo(path));
    assert StableSort.Count([t], RefersTo(path)) == (if t.resultImage == Some(path) then 1 else 0);
  }

  lemma {:induction false} GreedyImages(signals: seq<Entry>, results: seq<Entry>, threshold: real, sim: Similarity, path: string)
    requires DistinctPaths(results)
    ensures var st := Greedy(signals, results, threshold, sim);
      && ImageCount(st.records, path) <= 1
      && (ImageCount(st.records, path) == 1 ==> exists i :: i in st.used && i < |results| && results[i].path == path)
      && (forall i :: i in st.used ==> i < |results|)
  {
    if signals != [] {
      var init := signals[..|signals| - 1];
      var signal := signals[|signals| - 1];
      var prev := Greedy(init, results, threshold, sim);
      GreedyImages(init, results, threshold, sim, path);
      if HasCoin(signal) {
        var b := ScanBest(signal.data.value, results, prev.used, |results|, threshold, sim);
        if b.index.Some? {
          var i := b.index.value;
          ImageCountAppend(prev.records, MergedRecord(signal, results[i], b.score), path);
        } else {
          ImageCountAppend(prev.records, SignalOnlyRecord(signal), path);
        }
      }
    }
  }

  lemma {:induction false} LeftoverImages(results: seq<Entry>, used: set<nat>, n: nat, path: string)
    requires n <= |results|
    requires DistinctPaths(results)
    ensures ImageCount(Leftovers(results, used, n), path) <= 1
    ensures ImageCount(Leftovers(results, used, n), path) == 1 ==>
              exists i :: 0 <= i < n && i !in used && results[i].path == path
  {
    if n > 0 {
      LeftoverImages(results, used, n - 1, path);
      var prev := Leftovers(results, used, n - 1);
      if n - 1 !in used && HasCoin(results[n - 1]) {
        ImageCountAppend(prev, ResultOnlyRecord(results[n - 1]), path);
      } else {
        assert Leftovers(results, used, n) == prev + [];
        assert prev + [] == prev;
      }
    }
  }

  /** Exclusivity: when the result screenshots have distinct paths, no two
      emitted records reference the same result screenshot; so a consumed
      result is never emitted again on its own. */
  lemma ResultReferencedAtMostOnce(items: seq<Entry>, threshold: real, sim: Similarity, path: string)
    requires DistinctPaths(Results(items))
    ensures ImageCount(MatchAll(items, threshold, sim), path) <= 1
  {
    var signals, results := Signals(items), Results(items);
    var st := Greedy(signals, results, threshold, sim);
    var left := Leftovers(results, st.used, |results|);
    GreedyImages(signals, results, threshold, sim, path);
    LeftoverImages(results, st.used, |results|, path);
    NotInBoth(results, st.used, path, ImageCount(st.records, path), ImageCount(left, path));
    StableSort.CountConcat(st.records, left, RefersTo(path));
    assert Unsorted(items, threshold, sim) == st.records + left;
    StableSort.CountPermutation(MatchAll(items, threshold, sim), Unsorted(items, threshold, sim), RefersTo(path));
  }

  /** With distinct paths, a path cannot belong both to a consumed and to an
      unconsumed result. */
  lemma NotInBoth(results: seq<Entry>, used: set<nat>, path: string, a: nat, b: nat)
    requires DistinctPaths(results)
    requires a <= 1 && b <= 1
    requires a == 1 ==> exists i :: i in used && i < |results| && results[i].path == path
    requires b == 1 ==> exists j :: 0 <= j < |results| && j !in used && results[j].path == path
    ensures a + b <= 1
  {
    if a == 1 {
      var i :| i in used && i < |results| && results[i].path == path;
      forall j | 0 <= j < |results| && results[j].path == path
        ensures j in used
      {
        SamePathSameIndex(results, i, j);
      }
    }
  }

  /** With distinct paths, the path identifies the result. */
  lemma SamePathSameIndex(results: seq<Entry>, i: nat, j: nat)
    requires DistinctPaths(results)
    requires i < |results| && j < |results| && results[i].path == results[j].path
    ensures i == j
  {
  }

  // ---------------------------------------------------------------------
  // Confidence bounds and coin agreement

  /** Every analysed entry carries positive prices, as `detect_prices` ensures. */
  predicate PricesPositive(entries: seq<Entry>) {
    forall e :: e in entries && e.data.Some? ==> PositivePrices(e.data.value)
  }

  lemma {:induction false} GreedyConfidence(signals: seq<Entry>, results: seq<Entry>, threshold: real, sim: Similarity)
    requires ValidSimilarity(sim)
    requires PricesPositive(signals) && PricesPositive(results)
    ensures forall t :: t in Greedy(signals, results, threshold, sim).records ==> 0.0 <= t.matchConfidence <= 1.0
  {
    if signals != [] {
      var init := signals[..|signals| - 1];
      var signal := signals[|signals| - 1];
      assert PricesPositive(init) by {
        forall e | e in init ensures e in signals { }
      }
      GreedyConfidence(init, results, threshold, sim);
      var prev := Greedy(init, results, threshold, sim);
      if HasCoin(signal) {
        var b := ScanBest(signal.data.value, results, prev.used, |results|, threshold, sim);
        if b.index.Some? {
          var i := b.index.value;
          assert results[i] in results;
          ScoreInUnitInterval(signal.data.value, results[i].data.value, sim);
        }
      }
    }
  }

  /** Every emitted confidence lies in [0, 1]. */
  lemma ConfidenceInUnitInterval(items: seq<Entry>, threshold: real, sim: Similarity)
    requires ValidSimilarity(sim)
    requires PricesPositive(items)
    ensures forall t :: t in MatchAll(items, threshold, sim) ==> 0.0 <= t.matchConfidence <= 1.0
  {
    var signals, results := Signals(items), Results(items);
    var st := Greedy(signals, results, threshold, sim);
    GreedyConfidence(signals, results, threshold, sim);
    LeftoversShape(results, st.used, |results|, threshold);
    var u := Unsorted(items, threshold, sim);
    forall t | t in MatchAll(items, threshold, sim) ensures 0.0 <= t.matchConfidence <= 1.0 {
      assert t in multiset(MatchAll(items, threshold, sim));
      assert t in multiset(u);
      assert t in st.records || t in Leftovers(results, st.used, |results|);
    }
  }

  /** At the default threshold (or above), a signal never consumes a result
      that names a different coin; it may consume a coinless one. */
  lemma ChosenResultCoin(sd: Observation, results: seq<Entry>, used: set<nat>, threshold: real, sim: Similarity)
    requires ValidSimilarity(sim) && threshold >= 0.8
    requires sd.coin != "" && PositivePrices(sd) && PricesPositive(results)
    ensures var b := ScanBest(sd, results, used, |results|, threshold, sim);
      b.index.Some? ==> results[b.index.value].data.value.coin in {"", sd.coin}
  {
    var b := ScanBest(sd, results, used, |results|, threshold, sim);
    if b.index.Some? {
      var rd := results[b.index.value].data.value;
      assert results[b.index.value] in results;
      if rd.coin != "" && rd.coin != sd.coin {
        DifferentCoinsScoreBelowDefaultThreshold(sd, rd, sim);
      }
    }
  }
}
