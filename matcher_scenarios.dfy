/** Worked inputs for the matcher of image_analyzer.py:342-436, each proved
    against the model. */
module MatcherScenarios {
  import opened Wrappers
  import opened Trades
  import opened MatchScorer
  import opened Matcher
  import StableSort

  /** An analysis with the fields the matcher reads; the rest are neutral. */
  function Obs(coin: string, entry: Option<real>, exit: Option<real>, roi: Option<real>,
               status: Status, seconds: real): Observation
  {
    Observation(coin, 1.0, [], roi, status, 1, "", Some(Stamp("t", Some(seconds))),
                entry, exit, 1.0)
  }

  function Shot(path: string, kind: Kind, o: Observation): Entry {
    Entry(path, kind, Some(o))
  }

  lemma SortOne(x: TradeRecord)
    ensures StableSort.SortDesc([x], RoiKey) == [x]
  {
    assert [x][..0] == [];
  }

  lemma SortTwo(x: TradeRecord, y: TradeRecord)
    requires RoiKey(x) >= RoiKey(y)
    ensures StableSort.SortDesc([x, y], RoiKey) == [x, y]
  {
    assert [x, y][..1] == [x];
    SortOne(x);
    assert StableSort.Insert([], y, RoiKey) == [y];
    assert [x] + [y] == [x, y];
  }

  /** A lone result. */
  lemma SplitResult(r: Entry)
    requires r.kind == ResultShot
    ensures Signals([r]) == [] && Results([r]) == [r]
  {
    assert [r][1..] == [];
  }

  /** A signal followed by a result. */
  lemma SplitSignalResult(s: Entry, r: Entry)
    requires s.kind == SignalShot && r.kind == ResultShot
    ensures Signals([s, r]) == [s] && Results([s, r]) == [r]
  {
    assert [s, r][1..] == [r];
    SplitResult(r);
  }

  /** Two results. */
  lemma SplitTwoResults(r1: Entry, r2: Entry)
    requires r1.kind == ResultShot && r2.kind == ResultShot
    ensures Signals([r1, r2]) == [] && Results([r1, r2]) == [r1, r2]
  {
    assert [r1, r2][1..] == [r2];
    SplitResult(r2);
  }

  /** A signal followed by two results. */
  lemma SplitSignalTwoResults(s: Entry, r1: Entry, r2: Entry)
    requires s.kind == SignalShot && r1.kind == ResultShot && r2.kind == ResultShot
    ensures Signals([s, r1, r2]) == [s] && Results([s, r1, r2]) == [r1, r2]
  {
    assert [s, r1, r2][1..] == [r1, r2];
    SplitTwoResults(r1, r2);
  }

  /** Two signals followed by a result. */
  lemma SplitTwoSignalsResult(s0: Entry, s1: Entry, r: Entry)
    requires s0.kind == SignalShot && s1.kind == SignalShot && r.kind == ResultShot
    ensures Signals([s0, s1, r]) == [s0, s1] && Results([s0, s1, r]) == [r]
  {
    assert [s0, s1, r][1..] == [s1, r];
    SplitSignalResult(s1, r);
  }

  /** The greedy pass over a single signal is that signal's turn. */
  lemma GreedyOne(s: Entry, results: seq<Entry>, threshold: real, sim: Similarity)
    ensures Greedy([s], results, threshold, sim) == StepSignal(State([], {}, []), s, results, threshold, sim)
  {
    assert [s][..0] == [];
  }

  /** A first signal whose scan picks result i consumes it. */
  lemma FirstSignalMerges(s: Entry, results: seq<Entry>, threshold: real, sim: Similarity, i: nat, score: real)
    requires HasCoin(s) && i < |results| && results[i].data.Some?
    requires ScanBest(s.data.value, results, {}, |results|, threshold, sim) == Best(Some(i), score)
    ensures Greedy([s], results, threshold, sim) == State([MergedRecord(s, results[i], score)], {i}, [i])
  {
    GreedyOne(s, results, threshold, sim);
  }

  /** The emitted records, once the pass and the leftovers are known. */
  lemma UnsortedIs(items: seq<Entry>, threshold: real, sim: Similarity,
                   signals: seq<Entry>, results: seq<Entry>, st: State, left: seq<TradeRecord>)
    requires Signals(items) == signals && Results(items) == results
    requires Greedy(signals, results, threshold, sim) == st
    requires Leftovers(results, st.used, |results|) == left
    ensures Unsorted(items, threshold, sim) == st.records + left
  {
  }

  /** One result, consumed: no leftovers. */
  lemma NoLeftoverOfOne(r: Entry)
    ensures Leftovers([r], {0}, 1) == []
  {
    assert Leftovers([r], {0}, 0) == [];
  }

  /** A signal and a result for the same coin ten minutes apart, the result
      showing only an exit price far from the entry: coin and time agree, the
      price factor applies but earns nothing, so the pair scores exactly 0.8
      and is matched at the default threshold with confidence 0.8. */
  lemma SameCoinFarPricesMatchAtPointEight(sim: Similarity)
    ensures MatchAll([Shot("s.png", SignalShot, Obs("EPIC", Some(0.000123), None, None, Neutral, 0.0)),
                      Shot("r.png", ResultShot, Obs("EPIC", None, Some(0.006594), Some(5261.0), Win, 600.0))], 0.8, sim) ==
              [TradeRecord("EPIC", Some(0.000123), Some(0.006594), Some(5261.0), Win,
                           Some("s.png"), Some("r.png"), 0.8, Some("t"))]
  {
    var sd := Obs("EPIC", Some(0.000123), None, None, Neutral, 0.0);
    var rd := Obs("EPIC", None, Some(0.006594), Some(5261.0), Win, 600.0);
    var s, r := Shot("s.png", SignalShot, sd), Shot("r.png", ResultShot, rd);
    SplitSignalResult(s, r);
    FarPricesScorePointEight(sd, rd, sim);
    FirstSignalMerges(s, [r], 0.8, sim, 0, 0.8);
    NoLeftoverOfOne(r);
    var merged := MergedRecord(s, r, 0.8);
    UnsortedIs([s, r], 0.8, sim, [s], [r], State([merged], {0}, [0]), []);
    SortOne(merged);
  }

  /** The pair of the scenario above scores exactly 0.8 and is the scan's pick. */
  lemma FarPricesScorePointEight(sd: Observation, rd: Observation, sim: Similarity)
    requires sd == Obs("EPIC", Some(0.000123), None, None, Neutral, 0.0)
    requires rd == Obs("EPIC", None, Some(0.006594), Some(5261.0), Win, 600.0)
    ensures ScanBest(sd, [Shot("r.png", ResultShot, rd)], {}, 1, 0.8, sim) == Best(Some(0), 0.8)
  {
    var r := Shot("r.png", ResultShot, rd);
    assert Min(0.000123, 0.006594) / Max(0.000123, 0.006594) < 0.8;
    assert PriceFactor(sd, rd).earned == 0.0;
    AgreeingPairScore(sd, rd, sim, 0.0, 600.0);
    assert ScanBest(sd, [r], {}, 0, 0.8, sim) == Best(None, 0.0);
  }

  /** The scan over two equally scoring results keeps the first. */
  lemma FirstOfEqualResultsWins(sd: Observation, r1: Entry, r2: Entry, sim: Similarity)
    requires r1.data.Some? && r2.data.Some?
    requires Score(sd, r1.data.value, sim) == 1.0 && Score(sd, r2.data.value, sim) == 1.0
    ensures ScanBest(sd, [r1, r2], {}, 2, 0.8, sim) == Best(Some(0), 1.0)
  {
    assert ScanBest(sd, [r1, r2], {}, 0, 0.8, sim) == Best(None, 0.0);
    assert ScanBest(sd, [r1, r2], {}, 1, 0.8, sim) == Best(Some(0), 1.0);
  }

  /** The leftovers after the first of two results was consumed. */
  lemma SecondResultLeftOver(r1: Entry, r2: Entry)
    requires HasCoin(r2)
    ensures Leftovers([r1, r2], {0}, 2) == [ResultOnlyRecord(r2)]
  {
    assert Leftovers([r1, r2], {0}, 0) == [];
    assert Leftovers([r1, r2], {0}, 1) == [];
  }

  /** Two equally good results for one signal: the first in list order is
      consumed, the second is emitted alone with confidence 0. */
  lemma TieGoesToFirstResult(sim: Similarity)
    ensures MatchAll([Shot("s", SignalShot, Obs("ETH", Some(10.0), None, None, Neutral, 0.0)),
                      Shot("r1", ResultShot, Obs("ETH", Some(10.0), None, Some(5.0), Win, 0.0)),
                      Shot("r2", ResultShot, Obs("ETH", Some(10.0), None, Some(5.0), Win, 0.0))], 0.8, sim) ==
              [TradeRecord("ETH", Some(10.0), None, Some(5.0), Win, Some("s"), Some("r1"), 1.0, Some("t")),
               TradeRecord("ETH", None, None, Some(5.0), Win, None, Some("r2"), 0.0, Some("t"))]
  {
    var sd := Obs("ETH", Some(10.0), None, None, Neutral, 0.0);
    var rd := Obs("ETH", Some(10.0), None, Some(5.0), Win, 0.0);
    var s, r1, r2 := Shot("s", SignalShot, sd), Shot("r1", ResultShot, rd), Shot("r2", ResultShot, rd);
    SplitSignalTwoResults(s, r1, r2);
    FullAgreementScoresOne(sd, rd, sim, 0.0, 0.0);
    FirstOfEqualResultsWins(sd, r1, r2, sim);
    FirstSignalMerges(s, [r1, r2], 0.8, sim, 0, 1.0);
    SecondResultLeftOver(r1, r2);
    var merged := MergedRecord(s, r1, 1.0);
    var alone := ResultOnlyRecord(r2);
    UnsortedIs([s, r1, r2], 0.8, sim, [s], [r1, r2], State([merged], {0}, [0]), [alone]);
    SortTwo(merged, alone);
  }

  /** A result without a coin is still scored, and consumed when time and price
      agree: the merged record takes the signal's coin, and the coinless result
      is not emitted on its own. */
  lemma CoinlessResultIsConsumed(sim: Similarity)
    ensures MatchAll([Shot("s", SignalShot, Obs("BTC", Some(100.0), None, None, Neutral, 0.0)),
                      Shot("r", ResultShot, Obs("", Some(100.0), None, Some(12.0), Win, 60.0))], 0.8, sim) ==
              [TradeRecord("BTC", Some(100.0), None, Some(12.0), Win, Some("s"), Some("r"), 1.0, Some("t"))]
  {
    var sd := Obs("BTC", Some(100.0), None, None, Neutral, 0.0);
    var rd := Obs("", Some(100.0), None, Some(12.0), Win, 60.0);
    var s, r := Shot("s", SignalShot, sd), Shot("r", ResultShot, rd);
    SplitSignalResult(s, r);
    CoinlessPairScoresOne(sd, rd, sim);
    FirstSignalMerges(s, [r], 0.8, sim, 0, 1.0);
    NoLeftoverOfOne(r);
    var merged := MergedRecord(s, r, 1.0);
    UnsortedIs([s, r], 0.8, sim, [s], [r], State([merged], {0}, [0]), []);
    SortOne(merged);
  }

  /** The pair of the scenario above: no coin factor, but time and price agree,
      so the score is 1.0 and the scan picks the result. */
  lemma CoinlessPairScoresOne(sd: Observation, rd: Observation, sim: Similarity)
    requires sd == Obs("BTC", Some(100.0), None, None, Neutral, 0.0)
    requires rd == Obs("", Some(100.0), None, Some(12.0), Win, 60.0)
    ensures ScanBest(sd, [Shot("r", ResultShot, rd)], {}, 1, 0.8, sim) == Best(Some(0), 1.0)
  {
    var r := Shot("r", ResultShot, rd);
    assert Min(100.0, 100.0) / Max(100.0, 100.0) == 1.0;
    assert CoinFactor(sd, rd, sim) == Factor(0.0, 0.0);
    assert TimeFactor(sd, rd) == Factor(0.2, 0.2);
    assert PriceFactor(sd, rd) == Factor(0.2, 0.2);
    assert Score(sd, rd, sim) == 1.0;
    assert ScanBest(sd, [r], {}, 0, 0.8, sim) == Best(None, 0.0);
  }

  /** A result more than a day away from a signal, with neither coin nor
      prices to compare, scores 0 and is not taken. */
  lemma StaleResultNotTaken(s0: Entry, s1: Entry, r: Entry, sim: Similarity)
    requires !HasCoin(s0) && HasCoin(s1) && r.data.Some?
    requires s1.data.value.entryPrice.None? && r.data.value.coin == ""
    requires r.data.value.entryPrice.None? && r.data.value.exitPrice.None?
    requires s1.data.value.timestamp == Some(Stamp("t", Some(0.0)))
    requires r.data.value.timestamp == Some(Stamp("t", Some(90000.0)))
    ensures Greedy([s0, s1], [r], 0.8, sim) == State([SignalOnlyRecord(s1)], {}, [])
  {
    var s1d, rd := s1.data.value, r.data.value;
    assert TimeFactor(s1d, rd) == Factor(0.0, 0.2);
    assert Score(s1d, rd, sim) == 0.0;
    assert ScanBest(s1d, [r], {}, 0, 0.8, sim) == Best(None, 0.0);
    assert ScanBest(s1d, [r], {}, 1, 0.8, sim) == Best(None, 0.0);
    assert [s0, s1][..1] == [s0] && [s0][..0] == [];
    assert Greedy([s0], [r], 0.8, sim) == State([], {}, []);
  }

  /** Entries without a recognised coin yield no record of their own: the
      coinless signal is skipped and the unmatched coinless result dropped,
      while a signal with a coin and no qualifying result is emitted alone with
      confidence 0 and its own colour status. */
  lemma CoinlessEntriesAreDropped(sim: Similarity)
    ensures MatchAll([Shot("s0", SignalShot, Obs("", Some(1.0), None, None, Neutral, 0.0)),
                      Shot("s1", SignalShot, Obs("BTC", None, None, Some(3.0), Loss, 0.0)),
                      Shot("r", ResultShot, Obs("", None, None, None, Win, 90000.0))], 0.8, sim) ==
              [TradeRecord("BTC", None, None, Some(3.0), Loss, Some("s1"), None, 0.0, Some("t"))]
  {
    var s0d := Obs("", Some(1.0), None, None, Neutral, 0.0);
    var s1d := Obs("BTC", None, None, Some(3.0), Loss, 0.0);
    var rd := Obs("", None, None, None, Win, 90000.0);
    var s0, s1, r := Shot("s0", SignalShot, s0d), Shot("s1", SignalShot, s1d), Shot("r", ResultShot, rd);
    SplitTwoSignalsResult(s0, s1, r);
    StaleResultNotTaken(s0, s1, r, sim);
    CoinlessResultNotLeftOver(r);
    var alone := SignalOnlyRecord(s1);
    UnsortedIs([s0, s1, r], 0.8, sim, [s0, s1], [r], State([alone], {}, []), []);
    SortOne(alone);
  }

  /** An unconsumed result without a coin leaves nothing over. */
  lemma CoinlessResultNotLeftOver(r: Entry)
    requires !HasCoin(r)
    ensures Leftovers([r], {}, 1) == []
  {
    assert Leftovers([r], {}, 0) == [];
  }
}
