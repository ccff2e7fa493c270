/** The trade statistics computed while building a presentation
    (presentation_builder.py): status counts for the overview, the top
    trades, the median and thresholds of the statistics slide, the tier of a
    trade slide, the ROI distribution with its win rate and risk-reward
    ratio, and the figures of the HTML and PDF reports. */
module PresentationStats {
  import opened Wrappers
  import opened Trades
  import opened StableSort

  // ---------------------------------------------------------------------
  // Lists of ROI values
  // ---------------------------------------------------------------------

  /** `[t.get('roi', 0) for t in trades if t.get('roi') is not None]`. */
  function RoiValues(trades: seq<TradeRecord>): (rois: seq<real>)
    ensures |rois| <= |trades|
    ensures forall x :: x in rois <==> exists i :: 0 <= i < |trades| && trades[i].roi == Some(x)
  {
    if trades == [] then []
    else
      var rest := RoiValues(trades[1..]);
      assert forall i :: 0 < i < |trades| ==> trades[i] == trades[1..][i - 1];
      match trades[0].roi
      case None => rest
      case Some(x) => [x] + rest
  }

  function Above(m: real): real -> bool {
    x => x > m
  }

  function Below(m: real): real -> bool {
    x => x < m
  }

  /** The elements of `s` that satisfy `p`, in order. */
  function Where(s: seq<real>, p: real -> bool): (r: seq<real>)
    ensures |r| == Count(s, p)
    ensures forall x :: x in r <==> x in s && p(x)
  {
    if s == [] then []
    else
      var rest := Where(s[1..], p);
      assert forall x :: x in s <==> x == s[0] || x in s[1..];
      if p(s[0]) then [s[0]] + rest else rest
  }

  function Sum(s: seq<real>): real {
    if s == [] then 0.0 else s[0] + Sum(s[1..])
  }

  /** The arithmetic mean; 0 for no values, as the source's fallbacks give. */
  function Mean(s: seq<real>): (m: real)
    ensures s == [] ==> m == 0.0
    ensures s != [] ==> m * |s| as real == Sum(s)
  {
    if s == [] then 0.0 else Sum(s) / |s| as real
  }

  /** `max(values)`. */
  function Max(s: seq<real>): (m: real)
    requires s != []
    ensures m in s
    ensures forall x :: x in s ==> x <= m
  {
    if |s| == 1 then s[0]
    else
      var rest := Max(s[1..]);
      assert forall x :: x in s ==> x == s[0] || x in s[1..];
      if s[0] >= rest then s[0] else rest
  }

  lemma {:induction false} SumOfNegatives(s: seq<real>)
    requires s != []
    requires forall x :: x in s ==> x < 0.0
    ensures Sum(s) < 0.0
    decreases |s|
  {
    assert s[0] in s;
    if |s| == 1 {
      assert s[1..] == [];
    } else {
      assert forall x :: x in s[1..] ==> x in s;
      SumOfNegatives(s[1..]);
    }
  }

  lemma {:induction false} SumOfNonNegatives(s: seq<real>)
    requires forall x :: x in s ==> x >= 0.0
    ensures Sum(s) >= 0.0
    decreases |s|
  {
    if s != [] {
      assert s[0] in s;
      assert forall x :: x in s[1..] ==> x in s;
      SumOfNonNegatives(s[1..]);
    }
  }

  /** Counting a weaker property never gives less. */
  lemma {:induction false} CountAboveMonotone(s: seq<real>, high: real, low: real)
    requires low <= high
    ensures Count(s, Above(high)) <= Count(s, Above(low))
    decreases |s|
  {
    if s != [] {
      CountAboveMonotone(s[1..], high, low);
    }
  }

  lemma {:induction false} CountNone(s: seq<real>, p: real -> bool)
    requires forall i :: 0 <= i < |s| ==> !p(s[i])
    ensures Count(s, p) == 0
    decreases |s|
  {
    if s != [] {
      CountNone(s[1..], p);
    }
  }

  lemma {:induction false} CountAll(s: seq<real>, p: real -> bool)
    requires forall i :: 0 <= i < |s| ==> p(s[i])
    ensures Count(s, p) == |s|
    decreases |s|
  {
    if s != [] {
      CountAll(s[1..], p);
    }
  }

  /** Count reaches the length only when every element qualifies, and is
      zero only when none does. */
  lemma {:induction false} CountExtremes(s: seq<real>, p: real -> bool)
    ensures Count(s, p) == |s| <==> forall i :: 0 <= i < |s| ==> p(s[i])
    ensures Count(s, p) == 0 <==> forall i :: 0 <= i < |s| ==> !p(s[i])
    decreases |s|
  {
    if s != [] {
      CountExtremes(s[1..], p);
      assert forall i :: 0 < i < |s| ==> s[i] == s[1..][i - 1];
    }
  }

  // ---------------------------------------------------------------------
  // Overview slide (presentation_builder.py:198-216)
  // ---------------------------------------------------------------------

  function HasStatus(st: Status): TradeRecord -> bool {
    (t: TradeRecord) => t.status == st
  }

  datatype Overview = Overview(
    total: nat, wins: nat, losses: nat, pending: nat,
    winShare: real, lossShare: real, averageRoi: real, bestRoi: real)

  lemma {:induction false} StatusCountsBounded(trades: seq<TradeRecord>)
    ensures Count(trades, HasStatus(Win)) + Count(trades, HasStatus(Loss)) + Count(trades, HasStatus(Pending)) <= |trades|
    decreases |trades|
  {
    if trades != [] {
      StatusCountsBounded(trades[1..]);
    }
  }

  /** `part / total * 100`, a percentage of the trades. */
  function Share(part: nat, total: nat): (s: real)
    requires total > 0
    ensures 0.0 <= s
  {
    part as real / total as real * 100.0
  }

  /** The overview figures.  An empty trade list makes the share
      computation divide by zero; the exception ends the whole presentation
      build, which then reports failure: None here. */
  function OverviewOf(trades: seq<TradeRecord>): (r: Option<Overview>)
    ensures r.None? <==> trades == []
    ensures r.Some? ==> r.value.total == |trades| &&
                        r.value.wins + r.value.losses + r.value.pending <= r.value.total &&
                        0.0 <= r.value.winShare && 0.0 <= r.value.lossShare &&
                        r.value.winShare + r.value.lossShare <= 100.0
  {
    if trades == [] then None
    else
      var total := |trades|;
      var wins := Count(trades, HasStatus(Win));
      var losses := Count(trades, HasStatus(Loss));
      var pending := Count(trades, HasStatus(Pending));
      var rois := RoiValues(trades);
      StatusCountsBounded(trades);
      ShareSum(wins, losses, total);
      Some(Overview(total, wins, losses, pending, Share(wins, total), Share(losses, total),
                    Mean(rois), if rois == [] then 0.0 else Max(rois)))
  }

  lemma ShareSum(a: nat, b: nat, total: nat)
    requires total > 0 && a + b <= total
    ensures Share(a, total) + Share(b, total) <= 100.0
  {
    var t := total as real;
    var q := (a + b) as real / t;
    assert a as real / t + b as real / t == q;
    assert q * t == (a + b) as real;
    assert q <= 1.0;
  }

  // ---------------------------------------------------------------------
  // Statuses, tiers and top lists
  // ---------------------------------------------------------------------

  /** The status marker of a trade line: a check mark, a cross or an
      hourglass (presentation_builder.py:264, 297, 893). */
  datatype Marker = CheckMark | CrossMark | Hourglass

  function MarkerOf(st: Status): (m: Marker)
    ensures m == CheckMark <==> st == Win
    ensures m == CrossMark <==> st == Loss
    ensures m == Hourglass <==> st != Win && st != Loss
  {
    if st == Win then CheckMark else if st == Loss then CrossMark else Hourglass
  }

  /** The verdict appended to a trade slide (presentation_builder.py:351-365). */
  datatype Tier = Exceptional | Excellent | SolidProfit | ProfitableTrade | LearningExperience | AnalyzedTrade

  /** The first-hit chain, stated as the band each verdict covers. */
  function TierOf(roi: real): (t: Tier)
    ensures t == Exceptional <==> roi > 500.0
    ensures t == Excellent <==> 200.0 < roi <= 500.0
    ensures t == SolidProfit <==> 50.0 < roi <= 200.0
    ensures t == ProfitableTrade <==> 0.0 < roi <= 50.0
    ensures t == LearningExperience <==> roi < -50.0
    ensures t == AnalyzedTrade <==> -50.0 <= roi <= 0.0
  {
    if roi > 500.0 then Exceptional
    else if roi > 200.0 then Excellent
    else if roi > 50.0 then SolidProfit
    else if roi > 0.0 then ProfitableTrade
    else if roi < -50.0 then LearningExperience
    else AnalyzedTrade
  }

  /** A trade slide carries a verdict only when the trade has an ROI. */
  function TradeTier(roi: Option<real>): (t: Option<Tier>)
    ensures t.Some? <==> roi.Some?
    ensures t.Some? ==> (t.value == Exceptional <==> roi.value > 500.0)
  {
    if roi.Some? then Some(TierOf(roi.value)) else None
  }

  /** `sorted(trades, key=roi, reverse=True)[:k]`, a missing ROI counting as 0. */
  function TopTrades(trades: seq<TradeRecord>, k: nat): (top: seq<TradeRecord>)
    ensures |top| == if k < |trades| then k else |trades|
    ensures forall x :: x in top ==> x in trades
  {
    var sorted := SortDesc(trades, RoiKey);
    var top := Take(sorted, k);
    assert forall x :: x in top ==> x in sorted && x in multiset(sorted) && x in multiset(trades);
    top
  }

  /** In a list ordered by key, nothing after position `n` outranks
      anything before it. */
  lemma PrefixDominates(sorted: seq<TradeRecord>, n: nat)
    requires SortedDesc(sorted, RoiKey) && n <= |sorted|
    ensures forall x, y :: x in sorted[..n] && y in sorted[n..] ==> RoiKey(x) >= RoiKey(y)
  {
    forall x, y | x in sorted[..n] && y in sorted[n..]
      ensures RoiKey(x) >= RoiKey(y)
    {
      var i :| 0 <= i < n && sorted[..n][i] == x;
      var j :| 0 <= j < |sorted| - n && sorted[n..][j] == y;
      assert sorted[i] == x && sorted[n + j] == y;
    }
  }

  /** The top list has min(k, n) trades taken from the input, ordered by ROI,
      and no trade left out has a higher ROI than any trade in it. */
  lemma TopTradesAreBest(trades: seq<TradeRecord>, k: nat)
    ensures |TopTrades(trades, k)| == if k < |trades| then k else |trades|
    ensures multiset(TopTrades(trades, k)) <= multiset(trades)
    ensures SortedDesc(TopTrades(trades, k), RoiKey)
    ensures forall x, y :: x in TopTrades(trades, k) && y in multiset(trades) - multiset(TopTrades(trades, k)) ==>
              RoiKey(x) >= RoiKey(y)
  {
    var sorted := SortDesc(trades, RoiKey);
    var n := |TopTrades(trades, k)|;
    assert TopTrades(trades, k) == sorted[..n];
    SortDescSorted(trades, RoiKey);
    TopSplit(sorted, n);
    PrefixIsBest(sorted, n);
  }

  /** A prefix of a sorted list is sorted, and nothing outside it outranks it. */
  lemma PrefixIsBest(sorted: seq<TradeRecord>, n: nat)
    requires SortedDesc(sorted, RoiKey) && n <= |sorted|
    ensures SortedDesc(sorted[..n], RoiKey)
    ensures forall x, y :: x in sorted[..n] && y in multiset(sorted) - multiset(sorted[..n]) ==>
              RoiKey(x) >= RoiKey(y)
  {
    TopSplit(sorted, n);
    PrefixDominates(sorted, n);
    forall x, y | x in sorted[..n] && y in multiset(sorted) - multiset(sorted[..n])
      ensures RoiKey(x) >= RoiKey(y)
    {
      assert y in sorted[n..];
    }
  }

  /** A prefix and the rest of a sequence split its multiset. */
  lemma TopSplit(sorted: seq<TradeRecord>, n: nat)
    requires n <= |sorted|
    ensures multiset(sorted[..n]) <= multiset(sorted)
    ensures multiset(sorted) - multiset(sorted[..n]) == multiset(sorted[n..])
  {
    assert sorted == sorted[..n] + sorted[n..];
  }

  /** The statistics slide lists the top five, the HTML report the top ten;
      trade slides cover the first 20 trades and the PDF the first 10
      (presentation_builder.py:116, 242-243, 712, 884). */
  function StatisticsTop(trades: seq<TradeRecord>): (top: seq<TradeRecord>)
    ensures |top| == if |trades| < 5 then |trades| else 5
    ensures forall x :: x in top ==> x in trades
  {
    TopTrades(trades, 5)
  }

  function HtmlTop(trades: seq<TradeRecord>): (top: seq<TradeRecord>)
    ensures |top| == if |trades| < 10 then |trades| else 10
    ensures forall x :: x in top ==> x in trades
  {
    TopTrades(trades, 10)
  }

  function SlideTrades(trades: seq<TradeRecord>): (shown: seq<TradeRecord>)
    ensures |shown| == if |trades| < 20 then |trades| else 20
    ensures shown <= trades
  {
    Take(trades, 20)
  }

  function PdfTrades(trades: seq<TradeRecord>): (shown: seq<TradeRecord>)
    ensures |shown| == if |trades| < 10 then |trades| else 10
    ensures shown <= trades
  {
    Take(trades, 10)
  }

  /** At most 20 trade slides and 10 PDF entries, each the leading trades
      in input order. */
  lemma TradeListsCapped(trades: seq<TradeRecord>)
    ensures |SlideTrades(trades)| <= 20 && SlideTrades(trades) <= trades
    ensures |PdfTrades(trades)| <= 10 && PdfTrades(trades) <= SlideTrades(trades)
    ensures |trades| >= 20 ==> |SlideTrades(trades)| == 20
  {
  }

  // ---------------------------------------------------------------------
  // Statistics slide (presentation_builder.py:272-278)
  // ---------------------------------------------------------------------

  /** The positive ROIs: present and above 0. */
  function PositiveRois(trades: seq<TradeRecord>): (pos: seq<real>)
    ensures |pos| <= |trades|
    ensures forall x :: x in pos <==> x > 0.0 && exists i :: 0 <= i < |trades| && trades[i].roi == Some(x)
  {
    Where(RoiValues(trades), Above(0.0))
  }

  function Negate(x: real): real { -x }

  /** `sorted(values)[len(values)//2]`: the upper median. */
  function UpperMedian(s: seq<real>): (m: real)
    requires s != []
    ensures m in s
  {
    var asc := SortDesc(s, Negate);
    assert asc[|s| / 2] in multiset(asc);
    asc[|s| / 2]
  }

  /** In an ascending list, the values below the one at `h` all sit
      before it. */
  lemma CountBelowAt(asc: seq<real>, h: nat)
    requires SortedDesc(asc, Negate) && h < |asc|
    ensures Count(asc, Below(asc[h])) <= h
  {
    var m := asc[h];
    assert asc == asc[..h] + asc[h..];
    CountConcat(asc[..h], asc[h..], Below(m));
    forall i | 0 <= i < |asc| - h
      ensures !Below(m)(asc[h..][i])
    {
      assert asc[h..][i] == asc[h + i];
      assert Negate(asc[h]) >= Negate(asc[h + i]);
    }
    CountNone(asc[h..], Below(m));
  }

  /** In an ascending list, the values above the one at `h` all sit after
      it. */
  lemma CountAboveAt(asc: seq<real>, h: nat)
    requires SortedDesc(asc, Negate) && h < |asc|
    ensures Count(asc, Above(asc[h])) <= |asc| - 1 - h
  {
    assert asc == asc[..h + 1] + asc[h + 1..];
    CountConcat(asc[..h + 1], asc[h + 1..], Above(asc[h]));
    NoneAboveUpTo(asc, h);
  }

  /** In an ascending list, nothing up to position `h` lies above the value there. */
  lemma NoneAboveUpTo(asc: seq<real>, h: nat)
    requires SortedDesc(asc, Negate) && h < |asc|
    ensures Count(asc[..h + 1], Above(asc[h])) == 0
  {
    var m := asc[h];
    var upTo := asc[..h + 1];
    forall i | 0 <= i < |upTo|
      ensures !Above(m)(upTo[i])
    {
      assert upTo[i] == asc[i];
      assert Negate(asc[i]) >= Negate(asc[h]);
    }
    CountNone(upTo, Above(m));
  }

  /** The upper median is one of the values, at most half of them lie below
      it and fewer than half above it. */
  lemma UpperMedianSplits(s: seq<real>)
    requires s != []
    ensures UpperMedian(s) in s
    ensures Count(s, Below(UpperMedian(s))) <= |s| / 2
    ensures Count(s, Above(UpperMedian(s))) <= |s| - 1 - |s| / 2
  {
    var asc := SortDesc(s, Negate);
    var h := |s| / 2;
    var m := asc[h];
    SortDescSorted(s, Negate);
    assert m in multiset(asc);
    CountBelowAt(asc, h);
    CountAboveAt(asc, h);
    CountPermutation(s, asc, Below(m));
    CountPermutation(s, asc, Above(m));
  }

  /** Every trade over +500% is also over +100%. */
  lemma OverFiveHundredWithinOverHundred(trades: seq<TradeRecord>)
    ensures Count(PositiveRois(trades), Above(500.0)) <= Count(PositiveRois(trades), Above(100.0))
  {
    CountAboveMonotone(PositiveRois(trades), 500.0, 100.0);
  }

  /** The extra figures of the statistics slide, shown only when some
      trade has a positive ROI. */
  datatype Highlights = Highlights(averageGain: real, median: real, overHundred: nat, overFiveHundred: nat)

  function HighlightsOf(trades: seq<TradeRecord>): (h: Option<Highlights>)
    ensures h.None? <==> PositiveRois(trades) == []
    ensures h.Some? ==> h.value.median > 0.0 && h.value.median in PositiveRois(trades)
    ensures h.Some? ==> h.value.overFiveHundred <= h.value.overHundred <= |PositiveRois(trades)|
  {
    var gains := PositiveRois(trades);
    if gains == [] then None
    else
      UpperMedianSplits(gains);
      OverFiveHundredWithinOverHundred(trades);
      Some(Highlights(Mean(gains), UpperMedian(gains), Count(gains, Above(100.0)), Count(gains, Above(500.0))))
  }

  // ---------------------------------------------------------------------
  // ROI distribution slide (presentation_builder.py:474-517)
  // ---------------------------------------------------------------------

  datatype Category = Moonshot | BigGain | VeryGood | Good | Profitable | BreakEven | LossCategory

  /** The bands as the slide writes them. */
  predicate InCategory(c: Category, r: real) {
    match c
    case Moonshot => r > 1000.0
    case BigGain => 500.0 <= r <= 1000.0
    case VeryGood => 200.0 <= r < 500.0
    case Good => 100.0 <= r < 200.0
    case Profitable => 0.0 < r < 100.0
    case BreakEven => r == 0.0
    case LossCategory => r < 0.0
  }

  function Member(c: Category): real -> bool {
    r => InCategory(c, r)
  }

  /** The band holding a value. */
  function CategoryOf(r: real): (c: Category)
    ensures forall d :: InCategory(d, r) <==> d == c
  {
    if r > 1000.0 then Moonshot
    else if r >= 500.0 then BigGain
    else if r >= 200.0 then VeryGood
    else if r >= 100.0 then Good
    else if r > 0.0 then Profitable
    else if r == 0.0 then BreakEven
    else LossCategory
  }

  function CategoryCount(rois: seq<real>, c: Category): nat {
    Count(rois, Member(c))
  }

  /** The seven bands are disjoint and cover every value, so their counts
      add up to the number of ROIs. */
  lemma {:induction false} CategoriesPartition(rois: seq<real>)
    ensures CategoryCount(rois, Moonshot) + CategoryCount(rois, BigGain) + CategoryCount(rois, VeryGood) +
            CategoryCount(rois, Good) + CategoryCount(rois, Profitable) + CategoryCount(rois, BreakEven) +
            CategoryCount(rois, LossCategory) == |rois|
    decreases |rois|
  {
    if rois != [] {
      CategoriesPartition(rois[1..]);
      var c := CategoryOf(rois[0]);
      assert forall d :: Member(d)(rois[0]) <==> d == c;
    }
  }

  /** The share of positive values, in percent; 0 for no values. */
  function WinRate(rois: seq<real>): (w: real)
    ensures 0.0 <= w <= 100.0
  {
    if rois == [] then 0.0 else Count(rois, Above(0.0)) as real / |rois| as real * 100.0
  }

  /** A win rate of 100 means every ROI is positive, and 0 means none is
      (for a non-empty list; the empty list also gives 0). */
  lemma WinRateExtremes(rois: seq<real>)
    ensures rois == [] ==> WinRate(rois) == 0.0
    ensures rois != [] ==> (WinRate(rois) == 100.0 <==> forall i :: 0 <= i < |rois| ==> rois[i] > 0.0)
    ensures rois != [] ==> (WinRate(rois) == 0.0 <==> forall i :: 0 <= i < |rois| ==> rois[i] <= 0.0)
  {
    if rois != [] {
      CountExtremes(rois, Above(0.0));
      var n := |rois| as real;
      var c := Count(rois, Above(0.0)) as real;
      assert WinRate(rois) == c / n * 100.0;
      PercentExtremes(c, n);
    }
  }

  /** A percentage of a positive whole is 100 only for the whole and 0 only for nothing. */
  lemma PercentExtremes(c: real, n: real)
    requires n > 0.0
    ensures c / n * 100.0 == 100.0 <==> c == n
    ensures c / n * 100.0 == 0.0 <==> c == 0.0
  {
    var q := c / n;
    assert q * n == c;
    assert q * 100.0 == 100.0 <==> q == 1.0;
    assert q * 100.0 == 0.0 <==> q == 0.0;
  }

  /** Average gain over average loss, only when the average loss is
      positive. */
  function RiskReward(rois: seq<real>): (r: Option<real>)
    ensures r.Some? <==> exists i :: 0 <= i < |rois| && rois[i] < 0.0
    ensures r.Some? ==> r.value >= 0.0
  {
    var wins := Where(rois, Above(0.0));
    var losses := Where(rois, Below(0.0));
    var averageWin := if |wins| > 0 then Mean(wins) else 0.0;
    var averageLoss := if losses != [] then Abs(Mean(losses)) else 0.0;
    MeansSigned(rois);
    if averageLoss > 0.0 then Some(averageWin / averageLoss) else None
  }

  function Abs(x: real): real {
    if x < 0.0 then -x else x
  }

  lemma MeansSigned(rois: seq<real>)
    ensures Mean(Where(rois, Above(0.0))) >= 0.0
    ensures Where(rois, Below(0.0)) != [] ==> Abs(Mean(Where(rois, Below(0.0)))) > 0.0
    ensures Where(rois, Below(0.0)) != [] <==> exists i :: 0 <= i < |rois| && rois[i] < 0.0
  {
    MeanOfWins(rois);
    MeanOfLosses(rois);
    LossesExist(rois);
  }

  lemma MeanOfWins(rois: seq<real>)
    ensures Mean(Where(rois, Above(0.0))) >= 0.0
  {
    var wins := Where(rois, Above(0.0));
    SumOfNonNegatives(wins);
  }

  lemma MeanOfLosses(rois: seq<real>)
    ensures Where(rois, Below(0.0)) != [] ==> Abs(Mean(Where(rois, Below(0.0)))) > 0.0
  {
    var losses := Where(rois, Below(0.0));
    if losses != [] {
      SumOfNegatives(losses);
      assert Mean(losses) == Sum(losses) / |losses| as real;
    }
  }

  lemma LossesExist(rois: seq<real>)
    ensures Where(rois, Below(0.0)) != [] <==> exists i :: 0 <= i < |rois| && rois[i] < 0.0
  {
    var losses := Where(rois, Below(0.0));
    if exists i :: 0 <= i < |rois| && rois[i] < 0.0 {
      var i :| 0 <= i < |rois| && rois[i] < 0.0;
      assert rois[i] in losses;
    }
    if losses != [] {
      assert losses[0] in losses;
    }
  }
}
