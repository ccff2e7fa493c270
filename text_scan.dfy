/** ASCII scanners for the three patterns the analyser applies to OCR text
    (image_analyzer.py:54-60): `\b[A-Z]{2,8}\b` for coin words,
    `\$?\d+\.?\d*` for prices and `[+-]?\d+\.?\d*%` for percentages, each
    scanned left to right as `re.findall` does, with each match converted the
    way the detectors convert it (`float` after removing `$`, `%` and `+`). */
module TextScan {

  predicate IsDigit(c: char) { '0' <= c <= '9' }
  predicate IsUpper(c: char) { 'A' <= c <= 'Z' }
  predicate IsLower(c: char) { 'a' <= c <= 'z' }

  /** The characters `\b` treats as word characters (ASCII letters, digits, `_`). */
  predicate IsWordChar(c: char) { IsDigit(c) || IsUpper(c) || IsLower(c) || c == '_' }

  function UpperChar(c: char): (u: char)
    ensures IsLower(c) ==> IsUpper(u)
    ensures !IsLower(c) ==> u == c
  {
    if IsLower(c) then (c as int - 32) as char else c
  }

  /** `str.upper()` on ASCII text. */
  function Upper(s: string): (u: string)
    ensures |u| == |s|
  {
    seq(|s|, i requires 0 <= i < |s| => UpperChar(s[i]))
  }

  /** `w` occurs in `text` starting at position `k`. */
  predicate OccursAt(text: string, w: string, k: nat) {
    k + |w| <= |text| && text[k..k + |w|] == w
  }

  /** Python's `w in text` for strings: `w` occurs in `text` as a substring. */
  predicate Contains(text: string, w: string)
    ensures Contains(text, w) <==> exists k: nat :: OccursAt(text, w, k)
    decreases |text|
  {
    if w <= text then
      assert OccursAt(text, w, 0);
      true
    else if |text| == 0 then
      assert w != [];
      false
    else
      OccursShift(text, w);
      Contains(text[1..], w)
  }

  /** Past a position where `w` does not start, the occurrences of `w` are
      those in the tail of the text. */
  lemma OccursShift(text: string, w: string)
    requires text != [] && !(w <= text)
    ensures (exists k: nat :: OccursAt(text, w, k)) <==> (exists k: nat :: OccursAt(text[1..], w, k))
  {
    assert !OccursAt(text, w, 0);
    forall k: nat
      ensures OccursAt(text, w, k + 1) <==> OccursAt(text[1..], w, k)
    {
      if k + 1 + |w| <= |text| {
        assert text[1..][k..k + |w|] == text[k + 1..k + 1 + |w|];
      }
    }
    if k: nat :| OccursAt(text, w, k) {
      assert OccursAt(text[1..], w, k - 1);
    }
  }

  /** The number of consecutive upper-case letters starting at `i`. */
  function UpperRun(t: string, i: nat): (n: nat)
    requires i <= |t|
    ensures i + n <= |t|
    ensures forall k :: i <= k < i + n ==> IsUpper(t[k])
    ensures i + n < |t| ==> !IsUpper(t[i + n])
    decreases |t| - i
  {
    if i < |t| && IsUpper(t[i]) then 1 + UpperRun(t, i + 1) else 0
  }

  /** The number of consecutive digits starting at `i`. */
  function DigitRun(t: string, i: nat): (n: nat)
    requires i <= |t|
    ensures i + n <= |t|
    ensures forall k :: i <= k < i + n ==> IsDigit(t[k])
    ensures i + n < |t| ==> !IsDigit(t[i + n])
    decreases |t| - i
  {
    if i < |t| && IsDigit(t[i]) then 1 + DigitRun(t, i + 1) else 0
  }

  /** `\b[A-Z]{2,8}\b` matches at `i`: `i` starts a word, and the run of
      capitals there has 2 to 8 letters and ends the word.  (A longer run or a
      digit right after the capitals leaves no word boundary for any shorter
      match either.) */
  predicate CoinWordAt(t: string, i: nat)
    requires i < |t|
  {
    var n := UpperRun(t, i);
    && (i == 0 || !IsWordChar(t[i - 1]))
    && 2 <= n <= 8
    && (i + n == |t| || !IsWordChar(t[i + n]))
  }

  /** `re.findall(r'\b[A-Z]{2,8}\b', t[i..])`, with `\b` judged against the
      whole of `t`. */
  function CoinWords(t: string, i: nat): (words: seq<string>)
    requires i <= |t|
    ensures 2 * |words| <= |t| - i
    decreases |t| - i
  {
    if i == |t| then []
    else if CoinWordAt(t, i) then
      var n := UpperRun(t, i);
      [t[i..i + n]] + CoinWords(t, i + n)
    else CoinWords(t, i + 1)
  }

  function Pow10(n: nat): (p: nat)
    ensures p >= 1
  {
    if n == 0 then 1 else 10 * Pow10(n - 1)
  }

  /** The decimal value of the digits t[i..j]. */
  function DigitsValue(t: string, i: nat, j: nat): nat
    requires i <= j <= |t|
    requires forall k :: i <= k < j ==> IsDigit(t[k])
    decreases j - i
  {
    if j == i then 0
    else
      assert IsDigit(t[j - 1]);
      10 * DigitsValue(t, i, j - 1) + (t[j - 1] as int - '0' as int)
  }

  /** A number read by `\d+\.?\d*` and `float`: its value and where it ends. */
  datatype Number = Number(value: real, end: nat)

  /** The greedy match of `\d+\.?\d*` at `p` (`float("12.")` is 12.0). */
  function NumberAt(t: string, p: nat): (n: Number)
    requires p < |t| && IsDigit(t[p])
    ensures p < n.end <= |t|
    ensures n.value >= 0.0
  {
    var w := DigitRun(t, p);
    var whole := DigitsValue(t, p, p + w) as real;
    if p + w < |t| && t[p + w] == '.' then
      var f := DigitRun(t, p + w + 1);
      Number(whole + DigitsValue(t, p + w + 1, p + w + 1 + f) as real / Pow10(f) as real, p + w + 1 + f)
    else Number(whole, p + w)
  }

  /** The prices `re.findall(r'\$?\d+\.?\d*', t[i..])` yields, each read with
      `float` after the `$` is removed. */
  function PriceValues(t: string, i: nat): (vs: seq<real>)
    requires i <= |t|
    ensures forall v :: v in vs ==> v >= 0.0
    decreases |t| - i
  {
    if i == |t| then []
    else if t[i] == '$' && i + 1 < |t| && IsDigit(t[i + 1]) then
      var n := NumberAt(t, i + 1);
      [n.value] + PriceValues(t, n.end)
    else if IsDigit(t[i]) then
      var n := NumberAt(t, i);
      [n.value] + PriceValues(t, n.end)
    else PriceValues(t, i + 1)
  }

  /** The percentages `re.findall(r'[+-]?\d+\.?\d*%', t[i..])` yields, each
      read with `float` after `%` and `+` are removed.  A number not followed
      by `%` yields no match at that position: no shorter match can end in
      `%` either, so the scan moves on by one character. */
  function PercentValues(t: string, i: nat): (vs: seq<real>)
    requires i <= |t|
    ensures (forall k :: i <= k < |t| ==> t[k] != '%') ==> vs == []
    ensures (forall k :: i <= k < |t| ==> t[k] != '-') ==> forall v :: v in vs ==> v >= 0.0
    decreases |t| - i
  {
    if i == |t| then []
    else
      var signed := (t[i] == '+' || t[i] == '-') && i + 1 < |t| && IsDigit(t[i + 1]);
      if !signed && !IsDigit(t[i]) then PercentValues(t, i + 1)
      else
        var n := NumberAt(t, if signed then i + 1 else i);
        if n.end < |t| && t[n.end] == '%' then
          [if t[i] == '-' then -n.value else n.value] + PercentValues(t, n.end + 1)
        else PercentValues(t, i + 1)
  }

  /** Every coin word is 2 to 8 capital letters. */
  lemma {:induction false} CoinWordsShape(t: string, i: nat)
    requires i <= |t|
    ensures forall w :: w in CoinWords(t, i) ==> 2 <= |w| <= 8 && forall c :: c in w ==> IsUpper(c)
    decreases |t| - i
  {
    if i < |t| {
      if CoinWordAt(t, i) {
        var n := UpperRun(t, i);
        CoinWordsShape(t, i + n);
        assert forall c :: c in t[i..i + n] ==> IsUpper(c);
      } else {
        CoinWordsShape(t, i + 1);
      }
    }
  }

  /** A signed percentage keeps its sign; the text before it yields nothing. */
  lemma SignedPercentExample()
    ensures PercentValues("x-3%", 0) == [-3.0]
  {
    var t := "x-3%";
    assert DigitRun(t, 3) == 0;
    assert DigitRun(t, 2) == 1;
    assert DigitsValue(t, 2, 2) == 0;
    assert DigitsValue(t, 2, 3) == 3;
    assert NumberAt(t, 2) == Number(3.0, 3);
    assert PercentValues(t, 4) == [];
    assert PercentValues(t, 1) == [-3.0];
  }

  /** A run of capitals is a coin word only between word boundaries: the
      digit after the space stands alone and yields nothing. */
  lemma CoinWordExample()
    ensures CoinWords("BTC 5", 0) == ["BTC"]
  {
    var t := "BTC 5";
    assert UpperRun(t, 3) == 0;
    assert UpperRun(t, 2) == 1;
    assert UpperRun(t, 1) == 2;
    assert UpperRun(t, 0) == 3;
    assert CoinWords(t, 5) == [];
    assert CoinWords(t, 4) == [];
    assert CoinWords(t, 3) == [];
    assert CoinWordAt(t, 0);
    assert t[0..3] == "BTC";
  }
}
