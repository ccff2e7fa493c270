# Crypto trading screenshot pipeline — a verified Dafny model

This project models the core of a tool that turns screenshots of crypto trading signals and their results into
presentation material. It covers four pieces:

- **Record linkage** (`image_analyzer.py`):
  - An analyser reads the OCR text regions and pixel counts of one screenshot. From them it picks a coin name,
    the prices, an ROI and a win/loss colour status. It assembles these into one observation.
  - A weighted score compares a signal observation with a result observation. The weights are coin 0.6,
    time 0.2 and price 0.2, and the score is normalised by the weights that applied.
  - A greedy matcher pairs every signal with the first best-scoring unused result, at or above the
    auto-match threshold of 0.8. It emits leftover signals and results with confidence 0. The output is
    sorted by ROI, largest first.
- **Templates** (`templates.py`):
  - The `#rrggbb` hex colour codec.
  - A `TemplateManager` class that owns the registry of presentation templates. The registry starts with
    five built-ins, and the class supports create-custom, brand-customise and import.
  - Template objects share their colour, font, layout and animation sub-configurations with the template
    they were derived from, so edits to a derived template reach its base. The model keeps this sharing:
    these are Dafny classes that the methods update in place.
- **Presentation statistics** (`presentation_builder.py`): the counts, shares, top-N lists, the upper
  median, the ROI categories and tiers, the status markers, the win rate and the risk-reward ratio that
  the slide builders compute.
- **Real-screenshot processing** (`process_real_screenshots.py`): the filename timestamp
  (`YYYY-MM-DD_HH-MM-SS` becomes `YYYY-MM-DDTHH:MM:SS`) and the loop that pairs catalogue trades with
  screenshot files.

Floats are modelled as `real`. OCR output, the similarity ratio of `difflib.SequenceMatcher`, pixel counts
and clocks are parameters. The loops of the source are Dafny methods with loop invariants, each proved
against a specification function. The properties are proved as lemmas about those functions.

Modules:

| file | module | content |
|---|---|---|
| wrappers.dfy | Wrappers | `Option` |
| trades.dfy | Trades | observations, trade records, status, the ROI sort key |
| stable_sort.dfy | StableSort | stable descending sort by a real key (the semantics of Python's `sorted(..., reverse=True)`), take, count |
| text_scan.dfy | TextScan | ASCII scanners for the three regular expressions the analyser uses |
| coin_detector.dfy | CoinDetector | `detect_coin_name` |
| record_builder.dfy | RecordBuilder | `detect_prices`, `detect_roi`, `_detect_color_status`, `analyze_image` |
| match_scorer.dfy | MatchScorer | `_calculate_match_score` |
| matcher.dfy | Matcher | `match_signals_to_results` |
| matcher_scenarios.dfy | MatcherScenarios | concrete matcher runs |
| hex_color.dfy | HexColor | `_hex_to_rgb_color`, `_rgb_color_to_hex` |
| templates.dfy | Templates | template classes, modifications, defaults, `TemplateManager` |
| presentation_stats.dfy | PresentationStats | slide statistics |
| screenshots.dfy | Screenshots | filename timestamp and screenshot pairing |

## Model

| member | source | states |
|---|---|---|
| Trades.Truthy | image_analyzer.py:474 | an optional number is truthy exactly when it is present and non-zero, so `None` and `0.0` are both falsy |
| Trades.RoiKey | image_analyzer.py:429 | the sort key is the ROI when present and 0 when missing |
| TextScan.UpperChar | image_analyzer.py:170 | `str.upper` on one character: ASCII lower-case letters become upper case and every other character is kept |
| TextScan.Contains | image_analyzer.py:174 | `coin in text` holds exactly when the coin occurs in the text at some position |
| TextScan.UpperRun | image_analyzer.py:55 | the run of `[A-Z]` starting at a position is maximal: every character in it is upper case and the next one is not |
| TextScan.DigitRun | image_analyzer.py:56 | the run of `\d` starting at a position is maximal |
| TextScan.NumberAt | image_analyzer.py:56 | a number read at a digit ends after that digit and is non-negative |
| TextScan.PriceValues | image_analyzer.py:56 | every value the price pattern yields is non-negative |
| TextScan.CoinWordsShape | image_analyzer.py:55 | every `\b[A-Z]{2,8}\b` match has 2 to 8 characters, all upper-case letters |
| TextScan.CoinWordExample | image_analyzer.py:55 | in "BTC 5" the coin pattern finds exactly "BTC" |
| TextScan.SignedPercentExample | image_analyzer.py:57 | the percentage pattern keeps the sign: "x-3%" yields -3 |
| TextScan.CoinWords | image_analyzer.py:55 | the coin-word matches of `\b[A-Z]{2,8}\b` never outnumber half the scanned characters, since each takes at least two |
| TextScan.PercentValues | image_analyzer.py:57 | the percentage scan yields nothing when no `%` follows, and only non-negative values when the text has no `-` |
| CoinDetector.ExactHits | image_analyzer.py:173-178 | at most one exact hit per registry coin, each a registry coin carrying the region's confidence |
| CoinDetector.FuzzyHitsFor | image_analyzer.py:185-191 | at most one fuzzy hit per registry coin for one word, each a registry coin |
| CoinDetector.FuzzyHits | image_analyzer.py:181-191 | the fuzzy hits word by word; stated by `FuzzyHitsKnown`, `FuzzyHitsSound` and `FuzzyHitsComplete` |
| CoinDetector.FuzzyHitsKnown | image_analyzer.py:181-191 | every fuzzy hit over the region's words is a registry coin |
| CoinDetector.RegionHits | image_analyzer.py:169-191 | a region's exact hits then its fuzzy hits; stated by `RegionHitsKnown` and `AllHitsSound` |
| CoinDetector.RegionHitsKnown | image_analyzer.py:169-191 | every hit a region offers, exact or fuzzy, is a registry coin |
| CoinDetector.AllHits | image_analyzer.py:168-191 | no regions give no candidates |
| CoinDetector.AllHitsKnown | image_analyzer.py:168-191 | every candidate over all regions is a registry coin |
| CoinDetector.PickFrom | image_analyzer.py:173-191 | the running best only changes on a strictly higher confidence, and it ends at or above every candidate's confidence |
| CoinDetector.PickBest | image_analyzer.py:164-193 | the detected coin is ("", 0.0) or a candidate with positive confidence that no other candidate exceeds |
| CoinDetector.PickFromAppend | image_analyzer.py:168-191 | scanning two runs of candidates equals scanning them one after the other, so the scan over regions composes |
| CoinDetector.PickFromFirst | image_analyzer.py:173-191 | on ties the first candidate evaluated is kept: every earlier candidate had strictly lower confidence |
| CoinDetector.ScanExact | image_analyzer.py:173-178 | the exact-substring loop over the coin registry ends in the running best of the exact hits |
| CoinDetector.ScanFuzzy | image_analyzer.py:185-191 | the fuzzy loop over the registry for one word ends in the running best of its fuzzy hits |
| CoinDetector.ScanWords | image_analyzer.py:181-191 | the loop over the coin-pattern words ends in the running best of all their fuzzy hits |
| CoinDetector.ScanRegion | image_analyzer.py:169-191 | one region's exact pass, then its fuzzy pass, ends in the running best of that region's hits |
| CoinDetector.DetectCoinName | image_analyzer.py:164-193 | the returned (coin, confidence) is the best hit over all regions, in region order |
| CoinDetector.ExactHitsSound | image_analyzer.py:173-175 | an exact hit is a registry coin contained in the upper-cased text, and it carries the region's confidence |
| CoinDetector.FuzzyHitsForSound | image_analyzer.py:185-188 | a fuzzy hit is a registry coin with similarity strictly above 0.8, and it carries confidence times similarity |
| CoinDetector.FuzzyHitsSound | image_analyzer.py:181-188 | every fuzzy hit of a region is supported by one of its coin-pattern words |
| CoinDetector.AllHitsSound | image_analyzer.py:164-193 | every candidate over all regions is a registry coin supported by an exact or a fuzzy match in some region |
| CoinDetector.ExactHitsComplete | image_analyzer.py:173-178 | every registry coin contained in the text is a candidate |
| CoinDetector.FuzzyHitsForComplete | image_analyzer.py:185-191 | every registry coin with similarity above 0.8 is a candidate for that word |
| CoinDetector.FuzzyHitsComplete | image_analyzer.py:181-191 | the same, for every coin-pattern word of the region |
| CoinDetector.AllHitsIncludeRegion | image_analyzer.py:169 | every region's candidates take part in the overall choice |
| CoinDetector.ExactHitBoundsDetection | image_analyzer.py:173-178 | an exact hit in a region forces the detected confidence up to at least that region's confidence |
| CoinDetector.FuzzyHitBoundsDetection | image_analyzer.py:185-191 | a fuzzy hit forces the detected confidence up to at least its scaled confidence |
| CoinDetector.DetectedCoinSupported | image_analyzer.py:164-193 | the result is ("", 0.0), or a registry coin with positive confidence backed by an exact or fuzzy match |
| CoinDetector.ScaledWithin | image_analyzer.py:188 | a fuzzy confidence never exceeds the region's own confidence |
| CoinDetector.CoinConfidenceInUnitInterval | image_analyzer.py:164-193 | for region confidences and similarities in [0,1], the coin confidence is in [0,1] |
| RecordBuilder.PlausibleHits | image_analyzer.py:203-211 | every kept price lies in [1e-6, 1e6] and carries the region's confidence |
| RecordBuilder.DetectPrices | image_analyzer.py:195-215 | the price loop returns exactly the plausible prices of all regions, in region and match order |
| RecordBuilder.Prices | image_analyzer.py:197-213 | every price collected from the regions lies in the plausible range [1e-6, 1e6] |
| RecordBuilder.PlausibleHitsExact | image_analyzer.py:201-211 | a region contributes a price iff the pattern read that value and it lies in [1e-6, 1e6]; it carries the region's confidence |
| RecordBuilder.DetectedPricesExact | image_analyzer.py:197-213 | a price is detected iff some region contributes it |
| RecordBuilder.DetectedPricesPlausible | image_analyzer.py:209 | every detected price is positive and lies in [1e-6, 1e6] |
| RecordBuilder.FirstMax | image_analyzer.py:239-242 | the chosen ROI candidate has the highest confidence, and every earlier candidate's confidence is strictly lower |
| RecordBuilder.ColorStatus | image_analyzer.py:247-276 | win iff green > 1.5·red, loss iff red > 1.5·green, neutral otherwise, and unknown iff the pixel counts are unavailable; never pending |
| RecordBuilder.DetectRoi | image_analyzer.py:217-245 | the ROI loop returns the chosen ROI candidate, and the status is the colour status |
| RecordBuilder.PlausibleRoisSound | image_analyzer.py:224-233 | every kept ROI lies in [-100, 10000] and carries its region's confidence |
| RecordBuilder.PlausibleRois | image_analyzer.py:224-233 | at most one candidate per match, each in [-100, 10000] with the region's confidence |
| RecordBuilder.RoiCandidates | image_analyzer.py:219-235 | no regions give no candidates, and every candidate lies in [-100, 10000] |
| RecordBuilder.RoiCandidatesSound | image_analyzer.py:219-235 | every ROI candidate is plausible and carries the confidence of one of the regions |
| RecordBuilder.ChosenRoiPlausible | image_analyzer.py:237-245 | the ROI is None exactly when there is no candidate, otherwise a value in [-100, 10000] |
| RecordBuilder.ChosenRoi | image_analyzer.py:237-245 | None exactly when no candidate passed the range check; otherwise the value of a candidate whose confidence no other candidate exceeds |
| RecordBuilder.Assembled | image_analyzer.py:304-326 | entry price is the first detected price and exit price the second, each present exactly when that many prices were found; the timestamp is the processing time |
| RecordBuilder.AnalyzeImage | image_analyzer.py:278-332 | no observation without text regions (the analysis returns None), otherwise the assembled observation |
| RecordBuilder.SumConfidences | image_analyzer.py:326 | the sum of non-negative confidences is non-negative |
| RecordBuilder.OverallConfidence | image_analyzer.py:323-326 | the mean times the number of factors (coin plus prices) is their sum; with no prices it is the coin confidence |
| RecordBuilder.SumConfidencesBounded | image_analyzer.py:326 | the sum of confidences in [0,1] lies between 0 and their number |
| RecordBuilder.PriceConfidencesFromRegions | image_analyzer.py:211 | every price confidence is some region's OCR confidence |
| RecordBuilder.OverallConfidenceInUnitInterval | image_analyzer.py:323-326 | the mean of the coin confidence and the price confidences lies in [0,1] |
| RecordBuilder.PriceConfidencesInUnitInterval | image_analyzer.py:195-215 | price confidences are in [0,1] when the region confidences are |
| RecordBuilder.AssembledConfidenceInUnitInterval | image_analyzer.py:304-326 | an assembled observation's overall confidence lies in [0,1] |
| RecordBuilder.AssembledWellFormed | image_analyzer.py:304-326 | an assembled observation has only positive prices, and its status is never pending |
| MatchScorer.CoinFactor | image_analyzer.py:443-451 | the coin weight 0.6 applies iff both coins are non-empty, and equal coins earn all of it |
| MatchScorer.HasStamp | image_analyzer.py:454-456 | a timestamp is truthy exactly when present and not the empty string |
| MatchScorer.TimeEarned | image_analyzer.py:462-469 | for a real (fractional) gap in seconds, the time factor earns the full 0.2 within an hour and nothing beyond a day, always within [0, 0.2] |
| MatchScorer.AbsDiff | image_analyzer.py:461 | `abs(...)` of the difference of two instants is non-negative and is one of the two differences |
| MatchScorer.JustOverAnHour | image_analyzer.py:462-467 | a gap of 3600.4 s already earns 0.2·(1 − 3600.4/86400), strictly between 0 and 0.2 |
| MatchScorer.TimeFactor | image_analyzer.py:454-469 | the time weight applies iff both timestamps are truthy, even when they fail to parse, and earns at most the weight |
| MatchScorer.ResultPrice | image_analyzer.py:473 | `entry_price or exit_price` is one of the two, is the entry price when that is truthy, and is truthy exactly when either price is |
| MatchScorer.PriceFactor | image_analyzer.py:472-478 | the price weight applies iff the signal entry price and the result entry-or-exit price are both truthy |
| MatchScorer.Score | image_analyzer.py:481-484 | the score is 0.0 when no factor applies, so it never divides by zero |
| MatchScorer.CalculateMatchScore | image_analyzer.py:438-484 | the accumulating method returns the normalised weighted score |
| MatchScorer.PriceFactorBounded | image_analyzer.py:472-478 | for positive prices the price factor earns between 0 and its weight |
| MatchScorer.ScoreInUnitInterval | image_analyzer.py:438-484 | for similarities in [0,1] and positive prices the score lies in [0,1] |
| MatchScorer.TimeEarnedNonIncreasing | image_analyzer.py:462-469 | the earned time credit never increases as the gap grows |
| MatchScorer.FullAgreementScoresOne | image_analyzer.py:438-484 | the same coin, timestamps within an hour and identical prices score exactly 1.0 |
| MatchScorer.AgreeingPairScore | image_analyzer.py:438-484 | the same coin and timestamps within an hour score 0.8 plus the price credit, and exactly 0.8 when the prices are far apart |
| MatchScorer.DifferentCoinsScoreBelowDefaultThreshold | image_analyzer.py:443-484 | two different non-empty coins score below the default threshold of 0.8, whatever the similarity |
| Matcher.BestResultFor | image_analyzer.py:359-375 | the inner loop returns the first unused result whose score is strictly best and at least the threshold, with that score |
| Matcher.ScanBest | image_analyzer.py:359-375 | no pick means no unused result passes both tests and the score stays 0; a pick is an unused result scoring above 0 and at least the threshold, no candidate scores higher, and every earlier candidate scores strictly lower |
| Matcher.MergedRecord | image_analyzer.py:381-391 | coin and entry price from the signal; exit price, ROI and status from the result; both image paths set; the confidence is the match score |
| Matcher.SignalOnlyRecord | image_analyzer.py:399-408 | coin, entry price, ROI and status from the signal; no exit price and no result image; confidence 0 |
| Matcher.ResultOnlyRecord | image_analyzer.py:416-425 | coin, exit price, ROI and status from the result; no entry price and no signal image; confidence 0 |
| Matcher.StepSignal | image_analyzer.py:354-409 | one signal adds exactly one record when it has a coin and none otherwise, keeps the earlier records, and consumes only in-range results that have an analysis |
| Matcher.Greedy | image_analyzer.py:354-409 | the signal pass emits at most one record per signal |
| Matcher.Leftovers | image_analyzer.py:412-425 | at most one record per result, each without a signal image and with confidence 0 |
| Matcher.Unsorted | image_analyzer.py:354-426 | the records before sorting never outnumber the signals plus the results |
| Matcher.GreedyPass | image_analyzer.py:354-409 | the signal loop produces exactly the records and the consumed set of the greedy specification |
| Matcher.AppendLeftovers | image_analyzer.py:412-425 | the result loop appends exactly the result-only records of the unconsumed coined results, in result order |
| Matcher.MatchAll | image_analyzer.py:342-429 | the sorted output holds the same records as the unsorted emission, each as often |
| Matcher.MatchSignalsToResults | image_analyzer.py:342-432 | the method returns the greedy pass, the leftover results and the stable ROI sort of the specification function |
| Matcher.GreedyInvariant | image_analyzer.py:350-409 | one record per coined signal; the consumed indices are distinct, in range and exactly `used_results`; every record is well formed and names its signal image |
| Matcher.LeftoversShape | image_analyzer.py:412-425 | every leftover record is a well-formed result-only record with confidence 0 |
| Matcher.EmittedRecordsWellFormed | image_analyzer.py:381-425 | every emitted record is well formed: a merged record carries the threshold-passing score, and an unmatched one carries 0.0 |
| Matcher.LeftoversCount | image_analyzer.py:412-425 | the leftovers are exactly the unconsumed results that have a coin |
| Matcher.MatchCount | image_analyzer.py:354-426 | output size = coined signals + unconsumed coined results; coinless entries add nothing of their own |
| Matcher.MatchAllOrdered | image_analyzer.py:429 | the output is sorted by ROI descending, is a permutation of the emitted records, and keeps emission order among equal keys |
| Matcher.ImageCountAppend | image_analyzer.py:381-426 | appending a record adds one reference to its result image and none to any other |
| Matcher.GreedyImages | image_analyzer.py:350-394 | in the greedy pass a result image is referenced at most once, and only when its index was consumed |
| Matcher.LeftoverImages | image_analyzer.py:412-414 | a leftover references a result image at most once, and never a consumed one |
| Matcher.ResultReferencedAtMostOnce | image_analyzer.py:350-425 | with distinct result paths, no result image appears in two output records |
| Matcher.GreedyConfidence | image_analyzer.py:354-409 | every greedy record's match confidence lies in [0,1] |
| Matcher.ConfidenceInUnitInterval | image_analyzer.py:373-423 | every output record's match confidence lies in [0,1] |
| Matcher.ChosenResultCoin | image_analyzer.py:366-373 | at a threshold of 0.8 or more a signal consumes only a result with the same coin or with no coin |
| MatcherScenarios.SameCoinFarPricesMatchAtPointEight | image_analyzer.py:438-484 | a same-coin pair with far-apart prices matches with confidence 0.8, not 1.0 |
| MatcherScenarios.FirstOfEqualResultsWins | image_analyzer.py:372-375 | of two results with equal best scores the first is chosen |
| MatcherScenarios.SecondResultLeftOver | image_analyzer.py:412-425 | an unconsumed coined result becomes a result-only record |
| MatcherScenarios.TieGoesToFirstResult | image_analyzer.py:354-429 | a full run: the first tied result is merged and the second is emitted with confidence 0 |
| MatcherScenarios.CoinlessResultIsConsumed | image_analyzer.py:366-373 | a coinless result is still scored and can be consumed by a signal |
| MatcherScenarios.StaleResultNotTaken | image_analyzer.py:454-469 | a result more than a day away, with no coin and no prices, scores 0 and is not taken |
| MatcherScenarios.CoinlessEntriesAreDropped | image_analyzer.py:356-415 | coinless signals and coinless unconsumed results produce no record |
| MatcherScenarios.SortOne | image_analyzer.py:429 | sorting one record returns it |
| MatcherScenarios.SortTwo | image_analyzer.py:429 | two records already in ROI order keep their order |
| StableSort.WithKey | image_analyzer.py:429 | the records with a given key form a subsequence of the input |
| StableSort.Insert | image_analyzer.py:429 | inserting a record adds exactly that record to the multiset |
| StableSort.SortDesc | image_analyzer.py:429 | the sort is a permutation of its input |
| StableSort.Take | presentation_builder.py:116 | a slice `[:k]` is a prefix of length min(k, n) |
| StableSort.InsertSorted | image_analyzer.py:429 | inserting into a sorted list keeps it sorted |
| StableSort.InsertWithKey | image_analyzer.py:429 | a record is inserted behind every record with an equal key |
| StableSort.WithKeyNone | image_analyzer.py:429 | a sorted list whose head is below a key holds nothing with that key |
| StableSort.WithKeyAppend | image_analyzer.py:429 | the records with a key, after an append, are the earlier ones plus the new one if it matches |
| StableSort.SortDescSorted | image_analyzer.py:429 | the result is sorted by the key, largest first |
| StableSort.SortDescStable | image_analyzer.py:429 | records with equal keys keep their input order |
| StableSort.Count | presentation_builder.py:200-202 | a count never exceeds the length |
| StableSort.CountConcat | presentation_builder.py:200-202 | counts add over concatenation |
| StableSort.CountPermutation | presentation_builder.py:242 | a count is the same over any permutation |
| HexColor.Packed | templates.py:526-528 | the packed value `.rgb` of a colour is below 2^24 |
| HexColor.StripHashes | templates.py:385 | `lstrip('#')` removes a leading run of `#`s and nothing else |
| HexColor.HexValue | templates.py:387-389 | a hex digit is worth less than 16 |
| HexColor.ParsePair | templates.py:387-389 | `int(pair, 16)` of two characters lies in [-15, 255] when it parses |
| HexColor.ParseSix | templates.py:386-392 | six characters never raise the length error, and six hex digits always give a colour |
| HexColor.HexToRgb | templates.py:383-392 | the parse fails with a length error iff the stripped text does not have 6 characters |
| HexColor.Digit | templates.py:528 | the printed hex digit parses back to its value |
| HexColor.HexDigits | templates.py:528 | `:06x` prints exactly 6 digits |
| HexColor.RgbToHex | templates.py:526-528 | the serialised colour has 7 characters and starts with `#` |
| HexColor.PackedDigits | templates.py:528 | the six digits of the packed value are the two digits of each channel |
| HexColor.HexRoundTrip | templates.py:383-392 | parsing a colour serialised by `_rgb_color_to_hex` (lines 526-528) gives back the colour |
| HexColor.PairOfDigits | templates.py:387-389 | two hex digits parse to 16·high + low |
| HexColor.ParseDigits | templates.py:386-390 | six hex digits parse to the colour of their pairs |
| HexColor.PrintDigits | templates.py:526-528 | printing that colour gives `#` and the six digits in lower case |
| HexColor.HexNormalises | templates.py:383-392 | parsing and re-serialising (lines 526-528) a valid 6-digit colour gives `#` plus its lower-case form |
| HexColor.SignedZeroAccepted | templates.py:387-389 | "#-00000" parses, to black, because `int('-0', 16)` is 0 |
| HexColor.NegativePairRejected | templates.py:386-392 | "-10000" fails, because `int('-1', 16)` is negative |
| HexColor.PaddedPairAccepted | templates.py:387-389 | " f0000" parses, because `int` ignores surrounding blanks |
| Templates.ColorScheme.constructor | templates.py:31-44 | the scheme holds the given colours |
| Templates.FontConfig.constructor | templates.py:45-56 | the font config holds the given attributes |
| Templates.LayoutConfig.constructor | templates.py:57-67 | the layout config holds the given attributes |
| Templates.AnimationConfig.constructor | templates.py:68-76 | the animation config holds the given attributes |
| Templates.TemplateConfig.constructor | templates.py:77-87 | a template holds the given name, description, sub-configurations and dictionaries |
| Templates.ColorOf | templates.py:352-359 | what a colour value converts to; its cases are stated by `ColorOfCases` |
| Templates.ColorOfCases | templates.py:352-359 | a value that is neither a string nor a list or tuple is ignored; a string is converted, failing exactly when the hex parse fails; a list of three items of any kind is converted, failing exactly when an item is not an integer in 0..255 (a float such as `128.0` fails), and otherwise giving the colour of its three integers; lists of other lengths are ignored |
| Templates.SetAttrs | templates.py:361-378 | `setattr` guarded by `hasattr` leaves the set of attribute names unchanged |
| Templates.ApplyColors | templates.py:348-359 | the colour loop up to the first failed conversion; its properties are stated by `ApplyColorsKeepsNames`, `ApplyColorsOk`, `ApplyColorsOkStep` and `ApplyColorsStopped` |
| Templates.SetAttrsKeepsNames | templates.py:361-378 | `setattr` only on existing attributes: the attribute names are unchanged, and unnamed attributes keep their values |
| Templates.ApplyColorsKeepsNames | templates.py:348-359 | colour updates touch only existing colour names |
| Templates.ApplyColorsOk | templates.py:348-359 | the colour pass succeeds iff no colour is rejected (a bad hex string, or a triple outside 0..255) |
| Templates.PartialColorUpdate | templates.py:348-359 | a failure on the second colour leaves the first one already changed |
| Templates.ApplyColorsOkStep | templates.py:348-359 | one more colour keeps the pass successful iff it was so far and that colour is not rejected |
| Templates.ShortHexRejected | templates.py:388-392 | "#12" raises the length error |
| Templates.HexNormalisesZero | templates.py:383-392 | "#000000" is black |
| Templates.ApplyColorsStopped | templates.py:333-359 | after the first failure no further colour is applied |
| Templates.ApplyModifications | templates.py:346-381 | colours are applied in order up to the first failure; on success fonts, layout and animations get their `setattr`s, on failure they are unchanged |
| Templates.ColorsAfter | templates.py:348-359 | without a colours section the colour scheme is unchanged and the pass succeeds |
| Templates.AttrsAfter | templates.py:361-378 | without a section for a config its attributes are unchanged |
| Templates.ApplyColorList | templates.py:348-359 | the colour loop returns the outcome of the colour specification |
| Templates.SetAll | templates.py:361-378 | the attribute loop returns the attributes with every named existing attribute set |
| Templates.Scheme | templates.py:31-43 | the ten colour fields of a scheme; their set is stated by `SchemeFields` |
| Templates.Fonts | templates.py:45-55 | the eight font fields; their set and the caption default are stated by `FontsFields` |
| Templates.Layout | templates.py:57-66 | the seven layout fields; their set is stated by `LayoutFieldsSet` |
| Templates.Animation | templates.py:68-75 | the five animation fields; their set and the auto-advance default are stated by `AnimationFieldsSet` |
| Templates.CryptoProfessional | templates.py:101-141 | the "crypto_professional" data; its completeness is stated by `CryptoProfessionalComplete` |
| Templates.ModernDark | templates.py:143-178 | the "modern_dark" data; its completeness is stated by `ModernDarkComplete` |
| Templates.CorporateBlue | templates.py:180-214 | the "corporate_blue" data; its completeness is stated by `CorporateBlueComplete` |
| Templates.Minimalist | templates.py:216-250 | the "minimalist" data; its completeness is stated by `MinimalistComplete` |
| Templates.GamingStyle | templates.py:252-286 | the "gaming_style" data; its completeness is stated by `GamingStyleComplete` |
| Templates.DefaultTemplate | templates.py:97-288 | the built-in stored under each default key; stated by `BuiltInsComplete` and `LoadBuiltIns` |
| Templates.SchemeFields | templates.py:31-43 | a colour scheme sets exactly the ten `ColorScheme` fields |
| Templates.FontsFields | templates.py:45-55 | a font config sets exactly the eight `FontConfig` fields, the caption size keeping its default 14 |
| Templates.LayoutFieldsSet | templates.py:57-66 | a layout config sets exactly the seven `LayoutConfig` fields |
| Templates.AnimationFieldsSet | templates.py:68-75 | an animation config sets exactly the five `AnimationConfig` fields, auto-advance keeping its default off |
| Templates.CryptoProfessionalComplete | templates.py:101-141 | the built-in sets every field of the four configuration dataclasses |
| Templates.ModernDarkComplete | templates.py:143-178 | the built-in sets every field of the four configuration dataclasses |
| Templates.CorporateBlueComplete | templates.py:180-214 | the built-in sets every field of the four configuration dataclasses |
| Templates.MinimalistComplete | templates.py:216-250 | the built-in sets every field of the four configuration dataclasses |
| Templates.GamingStyleComplete | templates.py:252-286 | the built-in sets every field of the four configuration dataclasses |
| Templates.BuiltInsComplete | templates.py:97-288 | each of the five built-ins sets every dataclass field, has a non-empty name and description, and no custom elements |
| Templates.Instantiate | templates.py:97-288 | a default template is built from fresh objects holding exactly the given data |
| Templates.InstantiateAll | templates.py:97-288 | one template object per data record, each fresh with fresh sub-configurations holding exactly that record, and no two templates sharing a sub-configuration |
| Templates.LoadDefaults | templates.py:97-288 | five templates stored under five distinct keys: the registry holds exactly those keys, each a fresh template with fresh sub-configurations holding its data, no two entries sharing one |
| Templates.LoadBuiltIns | templates.py:97-288 | the registry holds exactly the five built-in keys, each with its built-in content in fresh objects, no two entries sharing a sub-configuration |
| Templates.LowerChar | templates.py:429 | lowering and replacing spaces leaves no space and no upper-case letter |
| Templates.ImportKey | templates.py:429 | the key keeps the name's length and holds no space and no upper-case letter |
| Templates.ImportKeyIdempotent | templates.py:429 | normalising a key again changes nothing |
| Templates.NormalisesTo | templates.py:429 | a name normalises to a key that agrees with it at every position |
| Templates.CryptoProfessionalKey | templates.py:429 | the built-in name "Crypto Professional" normalises to "crypto_professional", the key it is loaded under at line 101, so importing an export of it replaces that built-in |
| Templates.ModernDarkKey | templates.py:429 | the built-in name "Modern Dark" normalises to "modern_dark", the key it is loaded under at line 143, so importing an export of it replaces that built-in |
| Templates.CorporateBlueKey | templates.py:429 | the built-in name "Corporate Blue" normalises to "corporate_blue", the key it is loaded under at line 180, so importing an export of it replaces that built-in |
| Templates.MinimalistKey | templates.py:429 | the built-in name "Minimalist" normalises to "minimalist", the key it is loaded under at line 216, so importing an export of it replaces that built-in |
| Templates.GamingStyleKey | templates.py:429 | the built-in name "Gaming Style" normalises to "gaming_style", the key it is loaded under at line 252, so importing an export of it replaces that built-in |
| Templates.RecordLogo | templates.py:633-634 | a non-empty logo path is recorded as `brand_logo` in the custom elements; an empty one changes nothing; name, description and layouts are untouched |
| Templates.BrandModifications | templates.py:614-629 | a colours section exactly when brand colours are given and a fonts section exactly when brand fonts are given, each entry keeping its name and carrying a hex string or font string; no layout or animation section |
| Templates.TemplateManager.constructor | templates.py:89-95 | a new manager holds exactly the five built-in keys, in loading order, each a fresh template with its own fresh sub-configurations, so modifying one built-in leaves the others as they were |
| Templates.TemplateManager.Store | templates.py:337 | storing under a key (here and at line 429) sets that key only; a new key goes to the end of the listing order, an existing key keeps its place |
| Templates.TemplateManager.GetTemplate | templates.py:290-292 | a lookup finds a template iff its key is registered |
| Templates.TemplateManager.GetAvailableTemplates | templates.py:294-296 | the list names every registered key exactly once |
| Templates.TemplateManager.CreateCustomTemplate | templates.py:311-344 | a missing base gives False with nothing changed; otherwise the new template shares the base's sub-configurations (so the base's colours change too), copies its layouts and elements, and is stored, overwriting any entry, only if the modifications succeed |
| Templates.TemplateManager.CustomizeForBrand | templates.py:608-640 | "" for an unknown template or a bad colour, else name + "_branded"; the logo goes only into the new template's elements and the base entry is kept |
| Templates.TemplateManager.ImportTemplate | templates.py:417-436 | an imported template is renamed when a name is given, and stored under its lower-cased, underscored name |
| PresentationStats.RoiValues | presentation_builder.py:204 | the ROI list holds exactly the non-None ROIs |
| PresentationStats.Where | presentation_builder.py:272 | a filtered list holds exactly the values that satisfy the condition |
| PresentationStats.Max | presentation_builder.py:206 | the maximum is in the list and no value exceeds it |
| PresentationStats.SumOfNegatives | presentation_builder.py:512 | a non-empty list of losses has a negative sum |
| PresentationStats.SumOfNonNegatives | presentation_builder.py:510 | a list of non-negative values has a non-negative sum |
| PresentationStats.CountAboveMonotone | presentation_builder.py:277-278 | raising the bar never increases the count above it |
| PresentationStats.CountNone | presentation_builder.py:200-202 | the count is 0 when nothing qualifies |
| PresentationStats.CountAll | presentation_builder.py:200-202 | the count is the length when everything qualifies |
| PresentationStats.CountExtremes | presentation_builder.py:506-507 | the count equals the length iff all qualify, and is 0 iff none does |
| PresentationStats.StatusCountsBounded | presentation_builder.py:199-202 | wins + losses + pending never exceed the number of trades |
| PresentationStats.OverviewOf | presentation_builder.py:199-216 | the overview fails exactly for an empty trade list; otherwise its counts fit the total and the win and loss shares add to at most 100 |
| PresentationStats.ShareSum | presentation_builder.py:215-216 | two percentages of disjoint counts add to at most 100 |
| PresentationStats.MarkerOf | presentation_builder.py:297 | ✅ iff win, ❌ iff loss, ⏳ otherwise (the same chain at lines 264 and 893) |
| PresentationStats.TierOf | presentation_builder.py:351-365 | the first-hit chain: >500, >200, >50, >0, < -50, else analysed; each band is characterised in both directions |
| PresentationStats.TradeTier | presentation_builder.py:299 | a tier is given iff the trade has an ROI |
| PresentationStats.PrefixDominates | presentation_builder.py:242-243 | in a sorted list every kept trade's ROI is at least every dropped trade's |
| PresentationStats.TopTradesAreBest | presentation_builder.py:242-243 | the top-k list (top 5 here, top 10 at line 884) has min(k, n) trades taken from the input, sorted by ROI, and no left-out trade has a higher ROI |
| PresentationStats.TopTrades | presentation_builder.py:242-243 | `sorted(...)[:k]` has min(k, n) trades, each one of the input trades |
| PresentationStats.StatisticsTop | presentation_builder.py:242-243 | the statistics slide lists min(5, n) trades, each an input trade |
| PresentationStats.HtmlTop | presentation_builder.py:884 | the HTML report lists min(10, n) trades, each an input trade |
| PresentationStats.SlideTrades | presentation_builder.py:116 | trade slides cover the first min(20, n) trades, in input order |
| PresentationStats.PdfTrades | presentation_builder.py:712 | the PDF lists the first min(10, n) trades, in input order |
| PresentationStats.TradeListsCapped | presentation_builder.py:116 | at most 20 trade slides and 10 PDF entries (line 712), each the leading trades in input order |
| PresentationStats.CountBelowAt | presentation_builder.py:275 | in an ascending list, at most h values are below position h |
| PresentationStats.NoneAboveUpTo | presentation_builder.py:275 | in an ascending list, no value up to position h is above the value at h |
| PresentationStats.CountAboveAt | presentation_builder.py:275 | in an ascending list, at most n-1-h values are above position h |
| PresentationStats.UpperMedianSplits | presentation_builder.py:275 | `sorted(v)[len(v)//2]` is an element with at most n/2 values below it and at most n-1-n/2 above it |
| PresentationStats.PositiveRois | presentation_builder.py:272 | exactly the ROIs that are present and above 0, no more of them than trades |
| PresentationStats.UpperMedian | presentation_builder.py:275 | `sorted(v)[len(v)//2]` is one of the values |
| PresentationStats.OverFiveHundredWithinOverHundred | presentation_builder.py:277-278 | the count over +500 never exceeds the count over +100 |
| PresentationStats.HighlightsOf | presentation_builder.py:271-278 | the extra statistics exist iff some ROI is positive; the median is one of the positive ROIs, and over-500 ≤ over-100 ≤ the number of positives |
| PresentationStats.CategoryOf | presentation_builder.py:476-484 | every ROI falls into exactly one of the seven categories |
| PresentationStats.CategoriesPartition | presentation_builder.py:474-484 | the seven category counts add up to the number of ROIs |
| PresentationStats.WinRate | presentation_builder.py:506-507 | the win rate lies in [0,100] (also computed at line 752) |
| PresentationStats.WinRateExtremes | presentation_builder.py:506-507 | it is 0 for no ROIs, 100 iff every ROI is positive, and 0 iff none is |
| PresentationStats.RiskReward | presentation_builder.py:510-517 | the ratio is given iff some ROI is negative, and is then non-negative |
| PresentationStats.MeansSigned | presentation_builder.py:510-514 | the average win is non-negative and the average loss has a positive magnitude exactly when a loss exists |
| PresentationStats.Mean | presentation_builder.py:510-512 | the mean times the count is the sum; 0 for an empty list, as the `else 0` fallbacks give |
| PresentationStats.MeanOfWins | presentation_builder.py:510 | the average win is non-negative |
| PresentationStats.MeanOfLosses | presentation_builder.py:511-512 | a non-empty loss list has an average of positive magnitude |
| PresentationStats.LossesExist | presentation_builder.py:511 | the loss list is non-empty iff some ROI is negative |
| Screenshots.NameStart | process_real_screenshots.py:17 | the base name starts just after the last `/` or `\`, and never before the end of a drive `X:` |
| Screenshots.BaseName | process_real_screenshots.py:17 | as Windows' `os.path.basename` splits: the base name is a separator-free suffix of the path, preceded by `/`, `\` or a drive's colon when shorter than the path, and never includes a drive |
| Screenshots.FindStamp | process_real_screenshots.py:20 | `re.search` finds the leftmost position of the stamp pattern, and None means no position matches |
| Screenshots.Colons | process_real_screenshots.py:23 | `.replace('-', ':')` turns every hyphen into a colon and keeps every other character |
| Screenshots.StampText | process_real_screenshots.py:20-24 | the converted stamp has 19 characters |
| Screenshots.StampShape | process_real_screenshots.py:20-24 | the timestamp is the date unchanged, `T`, and the time with colons |
| Screenshots.ScreenshotTimestamp | process_real_screenshots.py:14-28 | without a stamp in the base name the modification time; with one, a 19-character `DDDD-DD-DDTDD:DD:DD` text |
| Screenshots.TwoStampsHasNoSeparator | process_real_screenshots.py:17 | a file name used below contains no `/`, `\` or `:` |
| Screenshots.TwoStampsText | process_real_screenshots.py:20-24 | that file name's first stamp converts to "2024-01-15T09:30:00" |
| Screenshots.FirstStampWins | process_real_screenshots.py:17-24 | with two stamps in a file name, the first one is used |
| Screenshots.NameStartOfSuffix | process_real_screenshots.py:17 | a path made of a directory ending in `/` or `\` and a name without separators or `:` has its base name start after the directory |
| Screenshots.BaseNameOfSuffix | process_real_screenshots.py:17 | the base name of such a path is the name |
| Screenshots.NoStampFallsBack | process_real_screenshots.py:25-28 | without a stamp in the base name the modification time is used |
| Screenshots.DirectoryStampIgnored | process_real_screenshots.py:17-28 | a stamp in a directory name (`shots\2024-01-15_09-30-00\a.png`) is not read: the modification time is used |
| Screenshots.DriveNotInName | process_real_screenshots.py:17 | a drive prefix is not part of the base name: `C:a.png` has base name `a.png` |
| Screenshots.ResultIndex | process_real_screenshots.py:138 | the result index is the next file, or the same file for the last one |
| Screenshots.Update | process_real_screenshots.py:135-142 | the update produces the paired trade |
| Screenshots.Paired | process_real_screenshots.py:135-142 | the catalogue's coin, ROI, prices and status are kept; the signal image is file i and the result image file i+1, or file i again for the last file |
| Screenshots.PairTrades | process_real_screenshots.py:125-144 | min(trades, files, 50) trades are produced, trade i paired with file i |
| Screenshots.PairingProperties | process_real_screenshots.py:125-144 | coin, ROI, prices and status are unchanged; confidence is 0.95, verified is set, the signal image is file i, and each result image is the next trade's signal image |
| Screenshots.LastScreenshotServesTwice | process_real_screenshots.py:137-138 | when the files run out first, the last trade uses the last file as both signal and result |

## Left out

- OCR, image loading, preprocessing and the HSV masking in `_detect_color_status` are foreign libraries. The
  model takes the text regions and the green/red pixel counts as inputs; a failed colour analysis is `None`
  and gives the status unknown.
- `difflib.SequenceMatcher(...).ratio()` is a parameter `sim`. The lemmas that need it assume it lies in [0,1].
- Python floats, including `total_seconds()` of a timestamp difference, are modelled as exact reals.
  Rounding in `float()`, in `total_seconds()`, in the division of the score and in the means is not modelled.
- `datetime.now()` in `analyze_image` is a parameter. `datetime.fromisoformat` is modelled as an optional
  number of seconds carried by each timestamp: None where the call raises.
- MatchScorer.TimeFactor: subtracting a timestamp with a UTC offset from one without raises `TypeError`, which
  keeps the 0.2 weight and earns nothing. The model carries no offset, so for such a pair it computes a gap.
  The timestamps `analyze_image` writes never carry an offset, so only timestamps from outside differ.
- The coin registry is loaded from JSON through a `set`, so its order is not fixed. The model takes it as a
  fixed sequence.
- Matcher.MatchSignalsToResults: when the list to sort holds two or more records and at least one ROI is None,
  Python's sort compares None with a number and raises `TypeError`, and the blanket `except` then returns `[]`.
  The model sorts with a missing ROI read as 0 instead, and does not model that exception path. A list of
  fewer than two records is never compared, so it comes back unchanged, with or without None, as in the model.
  The same holds for the top lists in `presentation_builder.py`.
- The regular expressions are modelled by hand-written ASCII scanners. Python's `\d`, `\b` and `str.upper`/`lower`
  also accept non-ASCII digits and letters, which the model treats as ordinary characters.
- HexColor.ParsePair: `int(s, 16)` also strips non-ASCII whitespace (such as U+00A0) and accepts non-ASCII decimal
  digits; the model accepts only ASCII blanks and ASCII hex digits, so it rejects some colour strings Python accepts.
- PresentationStats.TradeTier: a missing ROI gives no tier. In the source a trade dictionary without an `roi` key
  reads as 0 and gets the "analyzed" tier. The records the matcher emits always carry the key (possibly None), so
  the model does not distinguish an absent key from a None value.
- `float()` of a matched number is modelled as the exact decimal value of its digits.
- `_apply_template_modifications` uses `hasattr`/`setattr`. The model allows only the attributes a config
  already has, and does not model attributes that Python objects carry besides their dataclass fields.
- Templates.TemplateManager.constructor: does not restate the contents of the five built-ins; `LoadBuiltIns`, which
  it calls, states them, and the constructor states the keys, their order, freshness and that no two entries
  share a sub-configuration.
- `_load_default_templates` writes five dictionary assignments. The model creates the five templates in a loop
  over a table of their data and then stores them under their keys.
- `RGBColor` of python-pptx is not part of this model. It is assumed to accept exactly integers in 0..255, a
  `bool` counting as the integer 0 or 1, and to raise `ValueError` for anything else; a colour-list item is
  therefore modelled only as an integer or not. Its `.rgb` is modelled as the packed 24-bit value.
- The `dict.update` of each catalogue trade in `process_real_screenshots.py` is modelled on values: a paired
  record is built from the catalogue entry. The aliasing between the catalogue list and the processed list is
  not captured.
- The hard-coded catalogue of demo trades in `process_real_screenshots.py` is a parameter.
- Screenshots.BaseName: follows `os.path.basename` on Windows, where the tool runs. On POSIX a `\` or a drive
  prefix would belong to the name. A bare UNC share such as `\\server\share` has an empty base name on Windows;
  the model gives `share`.
- The `os.stat` modification-time fallback and the `Path.glob` file order are filesystem-dependent. They are
  a field of each screenshot and the order of the given file list.
- `export_template`, `import_template`'s file reading, `_template_to_dict` and `_dict_to_template` are JSON
  file I/O. Import takes the already-parsed template, or None when reading fails.
- `get_template_info`, `get_marketing_templates`, `generate_template_preview` and the HTML preview produce
  display text only.
- numpy's `mean`, `median` and `std` in the distribution slide, and all PPTX, PDF, HTML and chart output, are
  floating-point numerics and document generation. The model keeps only the quantities listed above.
