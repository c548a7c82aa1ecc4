/**
  `CoinScraper.detectCoins` (src/scrapers.ts): every match of the global pattern `/\$([A-Z]{2,10})\b/g`
  in a text, re-prefixed with `$`.

  The pattern is modelled the way a backtracking engine runs it (a greedy letter run capped at ten, then
  shorter lengths down to two until `\b` holds, and `matchAll` resuming after each match or one index
  further after a failure), and `DetectCoins` is proved equal to a declarative reference `Tickers`:
  one token for each `$` whose maximal run of word characters is two to ten upper-case letters.
 */
module Detector {
  import opened Wrappers
  import opened Text

  const MinLetters := 2
  const MaxLetters := 10

  /** A detected symbol: `$` followed by two to ten upper-case ASCII letters. */
  predicate IsTicker(t: string) {
    && 1 + MinLetters <= |t| <= 1 + MaxLetters
    && t[0] == '$'
    && forall j :: 1 <= j < |t| ==> IsUpper(t[j])
  }

  /** `\b` at index `p`: exactly one of the characters on either side of `p` is a word character. */
  predicate AtBoundary(text: string, p: nat)
    requires p <= |text|
  {
    (0 < p && IsWordChar(text[p - 1])) != (p < |text| && IsWordChar(text[p]))
  }

  /** The greedy quantifier `[A-Z]{0,max}` at index `i`: how many upper-case letters it takes. */
  function UpperRun(text: string, i: nat, max: nat): (n: nat)
    requires i <= |text|
    ensures n <= max && i + n <= |text|
    decreases max
  {
    if max == 0 || i == |text| || !IsUpper(text[i]) then 0
    else 1 + UpperRun(text, i + 1, max - 1)
  }

  /** The greedy run is the longest run of upper-case letters that fits under the cap. */
  lemma {:induction false} UpperRunIsLongest(text: string, i: nat, max: nat)
    requires i <= |text|
    ensures forall j :: i <= j < i + UpperRun(text, i, max) ==> IsUpper(text[j])
    ensures var n := UpperRun(text, i, max); n < max && i + n < |text| ==> !IsUpper(text[i + n])
    decreases max
  {
    if !(max == 0 || i == |text| || !IsUpper(text[i])) {
      UpperRunIsLongest(text, i + 1, max - 1);
    }
  }

  /**
    Backtracking over `{2,k}` followed by `\b`: lengths are tried from `k` down to 2 and the first one
    followed by a word boundary is kept.
   */
  function Backtrack(text: string, start: nat, k: nat): Option<nat>
    requires start + k <= |text|
    decreases k
  {
    if k < MinLetters then None
    else if AtBoundary(text, start + k) then Some(k)
    else Backtrack(text, start, k - 1)
  }

  /** Backtracking keeps the longest length in `2..k` that ends at a word boundary, if there is one. */
  lemma {:induction false} BacktrackFindsLongest(text: string, start: nat, k: nat)
    requires start + k <= |text|
    ensures var r := Backtrack(text, start, k);
      r.Some? ==> MinLetters <= r.value <= k && AtBoundary(text, start + r.value)
    ensures var r := Backtrack(text, start, k);
      r.Some? ==> forall p :: start + r.value < p <= start + k ==> !AtBoundary(text, p)
    ensures Backtrack(text, start, k).None? ==> forall p :: start + MinLetters <= p <= start + k ==> !AtBoundary(text, p)
    decreases k
  {
    if MinLetters <= k && !AtBoundary(text, start + k) {
      BacktrackFindsLongest(text, start, k - 1);
    }
  }

  /** One attempt of the pattern at index `i`: the length of the captured letter group, if it matches. */
  function MatchAt(text: string, i: nat): (r: Option<nat>)
    requires i <= |text|
    ensures r.Some? ==> MinLetters <= r.value <= MaxLetters && i + 1 + r.value <= |text|
    ensures r.Some? ==> forall j :: i + 1 <= j < i + 1 + r.value ==> IsUpper(text[j])
  {
    if i < |text| && text[i] == '$' then
      var u := UpperRun(text, i + 1, MaxLetters);
      UpperRunIsLongest(text, i + 1, MaxLetters);
      BacktrackFindsLongest(text, i + 1, u);
      Backtrack(text, i + 1, u)
    else None
  }

  /** `matchAll` from `lastIndex` `i`: after a match the scan resumes behind it, otherwise one index on. */
  function Scan(text: string, i: nat): (r: seq<string>)
    requires i <= |text|
    ensures forall t :: t in r ==> IsTicker(t)
    decreases |text| - i
  {
    if i == |text| then []
    else
      match MatchAt(text, i)
      case Some(n) => ["$" + text[i + 1..i + 1 + n]] + Scan(text, i + 1 + n)
      case None => Scan(text, i + 1)
  }

  /** `detectCoins(text)`: the tickers of `text` in order of appearance, duplicates kept. */
  function DetectCoins(text: string): (r: seq<string>)
    ensures forall t :: t in r ==> IsTicker(t)
  {
    Scan(text, 0)
  }

  // ---------------------------------------------------------------------------------------------
  // Reference definition

  /** Length of the maximal run of word characters starting at index `i`. */
  function WordRun(text: string, i: nat): (n: nat)
    requires i <= |text|
    ensures i + n <= |text|
    ensures forall j :: i <= j < i + n ==> IsWordChar(text[j])
    ensures i + n < |text| ==> !IsWordChar(text[i + n])
    decreases |text| - i
  {
    if i < |text| && IsWordChar(text[i]) then 1 + WordRun(text, i + 1) else 0
  }

  /** The `$` at index `i` is reported: the word run after it is two to ten upper-case letters. */
  predicate Qualifies(text: string, i: nat)
    requires i < |text|
  {
    && text[i] == '$'
    && MinLetters <= WordRun(text, i + 1) <= MaxLetters
    && forall j :: i + 1 <= j < i + 1 + WordRun(text, i + 1) ==> IsUpper(text[j])
  }

  /** One token per qualifying `$` at index `i` or later, left to right. */
  function Tickers(text: string, i: nat): seq<string>
    requires i <= |text|
    decreases |text| - i
  {
    if i == |text| then []
    else if Qualifies(text, i) then ["$" + text[i + 1..i + 1 + WordRun(text, i + 1)]] + Tickers(text, i + 1)
    else Tickers(text, i + 1)
  }

  /** The engine matches at `i` exactly when the `$` there qualifies, and captures the whole word run. */
  lemma MatchAtIffQualifies(text: string, i: nat)
    requires i < |text|
    ensures MatchAt(text, i) == if Qualifies(text, i) then Some(WordRun(text, i + 1)) else None
  {
    if text[i] == '$' {
      var u := UpperRun(text, i + 1, MaxLetters);
      var w := WordRun(text, i + 1);
      UpperRunIsLongest(text, i + 1, MaxLetters);
      BacktrackFindsLongest(text, i + 1, u);
      // Inside the upper-case run every position is followed by a word character.
      forall p | i + 1 + MinLetters <= p < i + 1 + u
        ensures !AtBoundary(text, p)
      {
        assert IsWordChar(text[p - 1]) && IsWordChar(text[p]);
      }
      if Qualifies(text, i) {
        assert u == w;
        assert AtBoundary(text, i + 1 + w) by {
          assert IsWordChar(text[i + w]);
        }
      }
    }
  }

  /** Indexes holding no `$` contribute nothing to the reference. */
  lemma {:induction false} SkipNonMarkers(text: string, a: nat, b: nat)
    requires a <= b <= |text|
    requires forall j :: a <= j < b ==> text[j] != '$'
    ensures Tickers(text, a) == Tickers(text, b)
    decreases b - a
  {
    if a < b {
      SkipNonMarkers(text, a + 1, b);
    }
  }

  /** One step of the scan at an index where the pattern matches. */
  lemma ScanOnMatch(text: string, i: nat, n: nat)
    requires i < |text| && MatchAt(text, i) == Some(n)
    ensures i + 1 + n <= |text|
    ensures Scan(text, i) == ["$" + text[i + 1..i + 1 + n]] + Scan(text, i + 1 + n)
  {
  }

  /** One step of the reference at a qualifying `$`. */
  lemma TickersOnQualifies(text: string, i: nat)
    requires i < |text| && Qualifies(text, i)
    ensures Tickers(text, i) == ["$" + text[i + 1..i + 1 + WordRun(text, i + 1)]] + Tickers(text, i + 1)
  {
  }

  /** One step of the scan at an index where the pattern fails. */
  lemma ScanOnMiss(text: string, i: nat)
    requires i < |text| && MatchAt(text, i) == None
    ensures Scan(text, i) == Scan(text, i + 1)
  {
  }

  /** One step of the reference at an index that does not qualify. */
  lemma TickersOnMiss(text: string, i: nat)
    requires i < |text| && !Qualifies(text, i)
    ensures Tickers(text, i) == Tickers(text, i + 1)
  {
  }

  /** At a qualifying `$` the scan emits the token and resumes behind the letters. */
  lemma ScanAtQualifying(text: string, i: nat)
    requires i < |text| && Qualifies(text, i)
    ensures i + 1 + WordRun(text, i + 1) <= |text|
    ensures Scan(text, i) == ["$" + text[i + 1..i + 1 + WordRun(text, i + 1)]] + Scan(text, i + 1 + WordRun(text, i + 1))
  {
    MatchAtIffQualifies(text, i);
    ScanOnMatch(text, i, WordRun(text, i + 1));
  }

  /** At a qualifying `$` the reference emits the token, and the letters after it add nothing. */
  lemma TickersAtQualifying(text: string, i: nat)
    requires i < |text| && Qualifies(text, i)
    ensures i + 1 + WordRun(text, i + 1) <= |text|
    ensures Tickers(text, i) == ["$" + text[i + 1..i + 1 + WordRun(text, i + 1)]] + Tickers(text, i + 1 + WordRun(text, i + 1))
  {
    var n := WordRun(text, i + 1);
    TickersOnQualifies(text, i);
    forall j | i + 1 <= j < i + 1 + n ensures text[j] != '$' {
      assert IsUpper(text[j]);
    }
    SkipNonMarkers(text, i + 1, i + 1 + n);
  }

  /** Where no `$` qualifies, the scan and the reference both move on by one. */
  lemma StepAtMiss(text: string, i: nat)
    requires i < |text| && !Qualifies(text, i)
    ensures Scan(text, i) == Scan(text, i + 1)
    ensures Tickers(text, i) == Tickers(text, i + 1)
  {
    MatchAtIffQualifies(text, i);
    ScanOnMiss(text, i);
    TickersOnMiss(text, i);
  }

  /** The engine's scan from any index agrees with the reference. */
  lemma {:induction false} ScanIsTickers(text: string, i: nat)
    requires i <= |text|
    ensures Scan(text, i) == Tickers(text, i)
    decreases |text| - i
  {
    if i < |text| {
      if Qualifies(text, i) {
        ScanAtQualifying(text, i);
        TickersAtQualifying(text, i);
        ScanIsTickers(text, i + 1 + WordRun(text, i + 1));
      } else {
        StepAtMiss(text, i);
        ScanIsTickers(text, i + 1);
      }
    }
  }

  /** `detectCoins` reports exactly the qualifying `$` positions, left to right, duplicates kept. */
  lemma DetectCoinsIsReference(text: string)
    ensures DetectCoins(text) == Tickers(text, 0)
  {
    ScanIsTickers(text, 0);
  }

  /** A text without `$` (the empty text included) yields no symbol. */
  lemma NoMarkerNoTickers(text: string)
    requires '$' !in text
    ensures DetectCoins(text) == []
  {
    ScanIsTickers(text, 0);
    SkipNonMarkers(text, 0, |text|);
  }

  /** The word-boundary rule on small inputs: too many letters, a trailing letter or digit, or one letter. */
  lemma BoundaryExamples()
    ensures DetectCoins("$ABCDEFGHIJK") == []
    ensures DetectCoins("$BTCs") == []
    ensures DetectCoins("$BTC2") == []
    ensures DetectCoins("$B") == []
    ensures DetectCoins("$btc") == []
    ensures DetectCoins("") == []
  {
  }

  /** A lone ticker is reported with its marker. */
  lemma SingleTickerExample()
    ensures DetectCoins("$BTC") == ["$BTC"]
  {
    assert UpperRun("$BTC", 1, MaxLetters) == 3;
    ScanOnMatch("$BTC", 0, 3);
    assert Scan("$BTC", 4) == [];
    assert "$" + "$BTC"[1..4] == "$BTC";
  }
}
