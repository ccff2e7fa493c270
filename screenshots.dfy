/** Building demo trades from a folder of screenshots without OCR
    (process_real_screenshots.py): the timestamp read from a screenshot's
    file name, and the pairing of catalogue trades with consecutive
    screenshots. */
module Screenshots {
  import opened Wrappers
  import opened Trades

  // ---------------------------------------------------------------------
  // File-name timestamps (process_real_screenshots.py:14-35)
  // ---------------------------------------------------------------------

  predicate IsDigit(c: char) {
    '0' <= c <= '9'
  }

  /** A path separator on Windows, the platform the tool targets. */
  predicate IsSep(c: char) {
    c == '/' || c == '\\'
  }

  /** A drive such as `C:` ends at position 2 of the path. */
  predicate DriveEndsAt(path: string, i: nat) {
    i == 2 && |path| >= 2 && path[1] == ':'
  }

  /** Where the last component of `path[..end]` starts: just after its
      final separator, else just after a drive, else 0. */
  function NameStart(path: string, end: nat): (start: nat)
    requires end <= |path|
    ensures start <= end
    ensures forall k :: start <= k < end ==> !IsSep(path[k])
    ensures start > 0 ==> IsSep(path[start - 1]) || DriveEndsAt(path, start)
    ensures DriveEndsAt(path, 2) && 2 <= end ==> 2 <= start
  {
    if end == 0 || IsSep(path[end - 1]) || DriveEndsAt(path, end) then end else NameStart(path, end - 1)
  }

  /** `os.path.basename` as `ntpath` computes it: the part after the final
      slash or backslash, and after any drive. */
  function BaseName(path: string): (name: string)
    ensures |name| <= |path|
    ensures forall k :: 0 <= k < |name| ==> !IsSep(name[k]) && name[k] == path[|path| - |name| + k]
    ensures |name| < |path| ==> IsSep(path[|path| - |name| - 1]) || DriveEndsAt(path, |path| - |name|)
    ensures DriveEndsAt(path, 2) ==> |name| <= |path| - 2
  {
    path[NameStart(path, |path|)..]
  }

  /** `DDDD-DD-DD_DD-DD-DD` starts at position `i` of `s`. */
  predicate StampAt(s: string, i: nat) {
    i + 19 <= |s| &&
    IsDigit(s[i]) && IsDigit(s[i + 1]) && IsDigit(s[i + 2]) && IsDigit(s[i + 3]) && s[i + 4] == '-' &&
    IsDigit(s[i + 5]) && IsDigit(s[i + 6]) && s[i + 7] == '-' && IsDigit(s[i + 8]) && IsDigit(s[i + 9]) &&
    s[i + 10] == '_' &&
    IsDigit(s[i + 11]) && IsDigit(s[i + 12]) && s[i + 13] == '-' && IsDigit(s[i + 14]) && IsDigit(s[i + 15]) &&
    s[i + 16] == '-' && IsDigit(s[i + 17]) && IsDigit(s[i + 18])
  }

  /** The leftmost match at or after `from`, as `re.search` finds it. */
  function FindStamp(s: string, from: nat): (r: Option<nat>)
    ensures r.Some? ==> from <= r.value && StampAt(s, r.value)
    ensures r.Some? ==> forall k :: from <= k < r.value ==> !StampAt(s, k)
    ensures r.None? ==> forall k :: from <= k ==> !StampAt(s, k)
    decreases |s| - from
  {
    if from + 19 > |s| then None
    else if StampAt(s, from) then Some(from)
    else FindStamp(s, from + 1)
  }

  /** Every '-' turned into ':'. */
  function Colons(t: string): (r: string)
    ensures |r| == |t|
    ensures forall i :: 0 <= i < |t| ==> r[i] == (if t[i] == '-' then ':' else t[i])
  {
    seq(|t|, i requires 0 <= i < |t| => if t[i] == '-' then ':' else t[i])
  }

  /** `date + "T" + time` with the time's hyphens made colons. */
  function StampText(s: string, i: nat): (r: string)
    requires StampAt(s, i)
    ensures |r| == 19
  {
    s[i..i + 10] + "T" + Colons(s[i + 11..i + 19])
  }

  /** A screenshot file: its path and the ISO form of its modification
      time, which the file system supplies. */
  datatype Screenshot = Screenshot(path: string, modified: string)

  /** The timestamp of `analyze_screenshot_metadata`: from the first
      `DDDD-DD-DD_DD-DD-DD` in the file name, else the modification time. */
  function ScreenshotTimestamp(shot: Screenshot): (ts: string)
    ensures FindStamp(BaseName(shot.path), 0).None? ==> ts == shot.modified
    ensures FindStamp(BaseName(shot.path), 0).Some? ==>
              |ts| == 19 && ts[10] == 'T' && ts[13] == ':' && ts[16] == ':'
  {
    var name := BaseName(shot.path);
    match FindStamp(name, 0)
    case Some(i) => StampShape(name, i); StampText(name, i)
    case None => shot.modified
  }

  /** A file-name timestamp has the ISO shape `DDDD-DD-DDTDD:DD:DD`: the
      date copied, the time's separators made colons, its digits kept.  The
      digits are not range-checked. */
  lemma StampShape(s: string, i: nat)
    requires StampAt(s, i)
    ensures var r := StampText(s, i);
            |r| == 19 && r[..10] == s[i..i + 10] && r[10] == 'T' && r[13] == ':' && r[16] == ':' &&
            r[11] == s[i + 11] && r[12] == s[i + 12] && r[14] == s[i + 14] && r[15] == s[i + 15] &&
            r[17] == s[i + 17] && r[18] == s[i + 18]
  {
    var time := s[i + 11..i + 19];
    var r := StampText(s, i);
    assert r == s[i..i + 10] + ("T" + Colons(time));
    assert r[10..] == "T" + Colons(time);
    assert Colons(time)[2] == ':' && Colons(time)[5] == ':';
  }

  const TwoStamps := "2024-01-15_09-30-00" + "_2023-12-31_23-59-59.png"

  lemma TwoStampsHasNoSeparator()
    ensures forall i :: 0 <= i < |TwoStamps| ==> !IsSep(TwoStamps[i]) && TwoStamps[i] != ':'
  {
    forall i | 0 <= i < |TwoStamps|
      ensures !IsSep(TwoStamps[i]) && TwoStamps[i] != ':'
    {
    }
  }

  lemma TwoStampsText()
    ensures StampAt(TwoStamps, 0)
    ensures StampText(TwoStamps, 0) == "2024-01-15T09:30:00"
  {
    var stamp := "2024-01-15_09-30-00";
    assert StampAt(stamp, 0);
    assert StampAt(TwoStamps, 0);
    var r := StampText(TwoStamps, 0);
    assert TwoStamps[0..10] == stamp[0..10] && TwoStamps[11..19] == stamp[11..19];
    var expected := "2024-01-15T09:30:00";
    forall k | 0 <= k < 19
      ensures r[k] == expected[k]
    {
    }
  }

  /** With two stamps in the name, the first one is taken. */
  lemma FirstStampWins()
    ensures ScreenshotTimestamp(Screenshot("shots/" + TwoStamps, "mtime")) == "2024-01-15T09:30:00"
  {
    TwoStampsHasNoSeparator();
    BaseNameOfSuffix("shots/", TwoStamps);
    TwoStampsText();
  }

  /** A stamp in a directory name is not looked at: the name `a.png` has
      none, so the modification time is used. */
  lemma DirectoryStampIgnored()
    ensures ScreenshotTimestamp(Screenshot("shots\\2024-01-15_09-30-00\\a.png", "mtime")) == "mtime"
  {
    var dir, name := "shots\\2024-01-15_09-30-00\\", "a.png";
    assert dir + name == "shots\\2024-01-15_09-30-00\\a.png";
    BaseNameOfSuffix(dir, name);
  }

  /** A drive is not part of the base name. */
  lemma DriveNotInName()
    ensures BaseName("C:a.png") == "a.png"
  {
    assert NameStart("C:a.png", 7) == 2;
  }

  /** The base name of a directory followed by a plain file name is that
      file name. */
  lemma {:induction false} NameStartOfSuffix(dir: string, name: string, end: nat)
    requires forall i :: 0 <= i < |name| ==> !IsSep(name[i]) && name[i] != ':'
    requires dir != [] && IsSep(dir[|dir| - 1])
    requires |dir| <= end <= |dir + name|
    ensures NameStart(dir + name, end) == |dir|
    decreases end
  {
    if end > |dir| {
      assert (dir + name)[end - 1] == name[end - 1 - |dir|];
      if end == 2 {
        assert (dir + name)[1] == name[0];
      }
      NameStartOfSuffix(dir, name, end - 1);
    } else {
      assert (dir + name)[end - 1] == dir[|dir| - 1];
    }
  }

  /** A file name has no separator and no ':' (which Windows forbids in
      names). */
  lemma BaseNameOfSuffix(dir: string, name: string)
    requires forall i :: 0 <= i < |name| ==> !IsSep(name[i]) && name[i] != ':'
    requires dir != [] && IsSep(dir[|dir| - 1])
    ensures BaseName(dir + name) == name
  {
    NameStartOfSuffix(dir, name, |dir + name|);
    assert (dir + name)[|dir|..] == name;
  }

  /** Without a stamp in the name, the modification time is used. */
  lemma NoStampFallsBack(shot: Screenshot)
    requires forall k :: !StampAt(BaseName(shot.path), k)
    ensures ScreenshotTimestamp(shot) == shot.modified
  {
  }

  // ---------------------------------------------------------------------
  // Pairing (process_real_screenshots.py:125-144)
  // ---------------------------------------------------------------------

  /** A catalogue trade: the five keys every built-in entry has. */
  datatype DemoTrade = DemoTrade(coin: string, roi: real, entryPrice: real, exitPrice: real, status: Status)

  /** A catalogue trade after `update` with the screenshot fields. */
  datatype PairedTrade = PairedTrade(
    coin: string, roi: real, entryPrice: real, exitPrice: real, status: Status,
    timestamp: string, signalImage: string, resultImage: string,
    matchConfidence: real, source: string, verified: bool)

  const MaxTrades := 50
  const DemoConfidence := 0.95

  function Min(a: int, b: int): int {
    if a <= b then a else b
  }

  /** The index of the result screenshot of trade `i`: the next file, or
      the last one. */
  function ResultIndex(i: nat, fileCount: nat): (j: nat)
    requires i < fileCount
    ensures j < fileCount
    ensures j == i + 1 || (j == i && i == fileCount - 1)
  {
    Min(i + 1, fileCount - 1)
  }

  /** Trade `i` of the catalogue paired with screenshot `i`. */
  function Paired(t: DemoTrade, files: seq<Screenshot>, i: nat): (p: PairedTrade)
    requires i < |files|
    ensures p.coin == t.coin && p.roi == t.roi && p.entryPrice == t.entryPrice && p.exitPrice == t.exitPrice
    ensures p.status == t.status
    ensures p.signalImage == files[i].path
    ensures i + 1 < |files| ==> p.resultImage == files[i + 1].path
    ensures i + 1 == |files| ==> p.resultImage == p.signalImage
  {
    PairedTrade(t.coin, t.roi, t.entryPrice, t.exitPrice, t.status,
                ScreenshotTimestamp(files[i]), files[i].path, files[ResultIndex(i, |files|)].path,
                DemoConfidence, "real_screenshots", true)
  }

  /** `trade.update(...)` with the metadata of screenshot `i`. */
  method Update(trade: DemoTrade, files: seq<Screenshot>, i: nat) returns (paired: PairedTrade)
    requires i < |files|
    ensures paired == Paired(trade, files, i)
  {
    var timestamp := ScreenshotTimestamp(files[i]);
    paired := PairedTrade(trade.coin, trade.roi, trade.entryPrice, trade.exitPrice, trade.status,
                          timestamp, files[i].path, files[Min(i + 1, |files| - 1)].path,
                          DemoConfidence, "real_screenshots", true);
  }

  /** The pairing loop of `create_realistic_trades_from_screenshots`: the
      first min(catalogue, files, 50) catalogue trades, in order, the i-th
      paired with screenshot i. */
  method PairTrades(catalogue: seq<DemoTrade>, files: seq<Screenshot>) returns (processed: seq<PairedTrade>)
    ensures |processed| == Min(Min(|catalogue|, |files|), MaxTrades)
    ensures forall i :: 0 <= i < |processed| ==> i < |files| && processed[i] == Paired(catalogue[i], files, i)
  {
    var n := Min(Min(|catalogue|, |files|), MaxTrades);
    assert n <= |catalogue| && n <= |files|;
    var selected := catalogue[..n];
    processed := [];
    for i := 0 to |selected|
      invariant |processed| == i
      invariant i <= n
      invariant forall j :: 0 <= j < i ==> processed[j] == Paired(catalogue[j], files, j)
    {
      if i < |files| {
        var paired := Update(selected[i], files, i);
        processed := processed + [paired];
      }
    }
  }

  /** What pairing keeps and adds: the catalogue fields unchanged, the
      screenshot fields filled in, and each trade's result screenshot being
      the next trade's signal screenshot. */
  lemma PairingProperties(catalogue: seq<DemoTrade>, files: seq<Screenshot>, processed: seq<PairedTrade>)
    requires |processed| == Min(Min(|catalogue|, |files|), MaxTrades)
    requires forall i :: 0 <= i < |processed| ==> i < |files| && processed[i] == Paired(catalogue[i], files, i)
    ensures |processed| <= MaxTrades && |processed| <= |catalogue| && |processed| <= |files|
    ensures forall i :: 0 <= i < |processed| ==>
              processed[i].coin == catalogue[i].coin && processed[i].roi == catalogue[i].roi &&
              processed[i].entryPrice == catalogue[i].entryPrice && processed[i].exitPrice == catalogue[i].exitPrice &&
              processed[i].status == catalogue[i].status &&
              processed[i].matchConfidence == 0.95 && processed[i].verified &&
              processed[i].signalImage == files[i].path
    ensures forall i :: 0 <= i < |processed| - 1 ==> processed[i].resultImage == processed[i + 1].signalImage
  {
  }

  /** When the screenshots run out before the catalogue (and the cap), the
      last trade uses the last screenshot as both signal and result. */
  lemma LastScreenshotServesTwice(catalogue: seq<DemoTrade>, files: seq<Screenshot>, processed: seq<PairedTrade>)
    requires |processed| == Min(Min(|catalogue|, |files|), MaxTrades)
    requires forall i :: 0 <= i < |processed| ==> i < |files| && processed[i] == Paired(catalogue[i], files, i)
    requires 0 < |files| <= |catalogue| && |files| <= MaxTrades
    ensures processed[|processed| - 1].signalImage == processed[|processed| - 1].resultImage == files[|files| - 1].path
  {
  }
}
