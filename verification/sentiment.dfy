/**
  The scoring of the `analyze_sentiment` tool (src/tools.ts): each fetched tweet scores +1 per bullish
  keyword and -1 per bearish keyword found in its lower-cased text; the sum divided by the number of
  tweets is labelled bullish above 0.2, bearish below -0.2 and neutral otherwise.
 */
module Sentiment {
  import opened Wrappers
  import opened Text
  import opened Seqs

  const BullishWords: seq<string> := ["moon", "bullish", "buy", "pump", "gem", "100x", "lfg"]

  const BearishWords: seq<string> := ["dump", "bearish", "sell", "rug", "scam", "dead"]

  /** How many of `words` occur in `text`: one per keyword, however often it occurs. */
  function Hits(words: seq<string>, text: string): (n: nat)
    ensures n <= |words|
  {
    if words == [] then 0 else (if Contains(text, words[0]) then 1 else 0) + Hits(words[1..], text)
  }

  /** One tweet's contribution to `sentimentScore`. */
  function TweetScore(tweet: string): (s: int)
    ensures -|BearishWords| <= s <= |BullishWords|
  {
    var text := ToLower(tweet);
    Hits(BullishWords, text) - Hits(BearishWords, text)
  }

  /** The scores of the tweets, summed in order. */
  function SumScores(tweets: seq<string>): int {
    if tweets == [] then 0 else SumScores(tweets[..|tweets| - 1]) + TweetScore(tweets[|tweets| - 1])
  }

  datatype Label = Bullish | Bearish | Neutral

  /** `totalMentions > 0 ? sentimentScore / totalMentions : 0`, as an exact quotient. */
  function Normalized(score: int, total: nat): real {
    if total > 0 then score as real / total as real else 0.0
  }

  /** The label of a normalized score. */
  function LabelOf(n: real): Label {
    if n > 0.2 then Bullish else if n < -0.2 then Bearish else Neutral
  }

  /** The tool's answer: `sentiment`, `sentimentScore` and `totalMentions`. */
  datatype Report = Report(sentiment: Label, score: real, total: nat)

  /** What the Twitter search gave back. */
  datatype Search =
    | NoToken                                // no bearer token: nothing is fetched
    | SearchFailed                           // the request threw
    | Found(tweets: Option<seq<string>>)     // the response; `None` when it has no `data.data` array

  /** Why the tool throws `Failed to analyze sentiment: …`. */
  datatype SentimentError = RequestError | NoTweetList

  /** The two counters after the loop over the tweets. */
  method Accumulate(tweets: seq<string>) returns (score: int, total: nat)
    ensures total == |tweets| && score == SumScores(tweets)
  {
    score, total := 0, 0;
    while total < |tweets|
      invariant total <= |tweets| && score == SumScores(tweets[..total])
    {
      assert tweets[..total + 1][..total] == tweets[..total];
      score := score + TweetScore(tweets[total]);
      total := total + 1;
    }
    assert tweets[..total] == tweets;
  }

  /** The report built from the counters. */
  function Summarize(score: int, total: nat): Report {
    var n := Normalized(score, total);
    Report(LabelOf(n), n, total)
  }

  /** `analyze_sentiment` from the search outcome to its report or error. */
  method Analyze(search: Search) returns (r: Result<Report, SentimentError>)
    ensures search.NoToken? ==> r == Success(Report(Neutral, 0.0, 0))
    ensures search.SearchFailed? ==> r == Failure(RequestError)
    ensures search.Found? && search.tweets.None? ==> r == Failure(NoTweetList)
    ensures search.Found? && search.tweets.Some? ==>
      r.Success? && r.value.total == |search.tweets.value|
      && r.value == Summarize(SumScores(search.tweets.value), |search.tweets.value|)
  {
    match search
    case NoToken =>
      r := Success(Summarize(0, 0));
    case SearchFailed =>
      r := Failure(RequestError);
    case Found(None) =>
      r := Failure(NoTweetList);
    case Found(Some(tweets)) =>
      var score, total := Accumulate(tweets);
      r := Success(Summarize(score, total));
  }

  /**
    The labels in integer terms: with no tweets the score is 0 and neutral; otherwise bullish exactly when
    5 * score > total, bearish exactly when 5 * score < -total, and neutral in between.
   */
  lemma {:induction false} LabelByIntegers(score: int, total: nat)
    ensures total == 0 ==> Normalized(score, total) == 0.0 && LabelOf(Normalized(score, total)) == Neutral
    ensures total > 0 ==> (LabelOf(Normalized(score, total)) == Bullish <==> 5 * score > total)
    ensures total > 0 ==> (LabelOf(Normalized(score, total)) == Bearish <==> 5 * score < -(total as int))
    ensures total > 0 ==> (LabelOf(Normalized(score, total)) == Neutral <==> -(total as int) <= 5 * score <= total)
  {
    if total > 0 {
      DivideCompares(score as real, total as real, 0.2);
      DivideCompares(score as real, total as real, -0.2);
      FifthCompares(score, total);
    }
  }

  /** Comparing a quotient by a positive divisor is comparing the dividend with the scaled bound. */
  lemma DivideCompares(x: real, t: real, c: real)
    requires t > 0.0
    ensures x / t > c <==> x > c * t
    ensures x / t < c <==> x < c * t
  {
    var q := x / t;
    assert q * t == x;
    if q > c { MultiplyKeepsOrder(c, q, t); } else { MultiplyKeepsOrder(q, c, t); }
    if q < c { MultiplyKeepsOrder(q, c, t); } else { MultiplyKeepsOrder(c, q, t); }
  }

  /** A fifth of the total, in integers. */
  lemma FifthCompares(score: int, total: int)
    ensures score as real > 0.2 * total as real <==> 5 * score > total
    ensures score as real < -0.2 * total as real <==> 5 * score < -total
  {
    assert (5 * score) as real == 5.0 * score as real;
  }

  lemma MultiplyKeepsOrder(a: real, b: real, t: real)
    requires t > 0.0
    ensures a < b ==> a * t < b * t
    ensures a <= b ==> a * t <= b * t
  {
  }

  /** A tweet's score lies between -6 and 7, so the sum over n tweets lies between -6n and 7n. */
  lemma {:induction false} SumScoresBounds(tweets: seq<string>)
    ensures -|BearishWords| * |tweets| <= SumScores(tweets) <= |BullishWords| * |tweets|
    decreases |tweets|
  {
    if tweets != [] {
      SumScoresBounds(tweets[..|tweets| - 1]);
    }
  }

  /** Since the text is lower-cased first, the case a tweet is written in does not change its score. */
  lemma {:induction false} TweetScoreIgnoresCase(tweet: string)
    ensures TweetScore(ToUpper(tweet)) == TweetScore(tweet)
    ensures TweetScore(ToLower(tweet)) == TweetScore(tweet)
  {
    LowerAbsorbsCaseMaps(tweet);
  }

  /** The keywords in `words` that occur in `text`. */
  function Matched(words: seq<string>, text: string): set<string> {
    set w | w in words && Contains(text, w)
  }

  /** With distinct keywords, a tweet's count is the number of distinct keywords it contains. */
  lemma {:induction false} HitsCountsMatchedWords(words: seq<string>, text: string)
    requires NoDuplicates(words)
    ensures Hits(words, text) == |Matched(words, text)|
    decreases |words|
  {
    if words != [] {
      var rest := words[1..];
      HitsCountsMatchedWords(rest, text);
      assert words[0] !in rest;
      var head := if Contains(text, words[0]) then {words[0]} else {};
      assert Matched(words, text) == head + Matched(rest, text) by {
        assert words == [words[0]] + rest;
      }
      assert head !! Matched(rest, text);
    }
  }

  /** Both keyword lists are free of repeats, so a tweet's score counts distinct keywords. */
  lemma KeywordsAreDistinct()
    ensures NoDuplicates(BullishWords) && NoDuplicates(BearishWords)
  {
  }

  /** A text shorter than a keyword cannot contain it. */
  lemma {:induction false} ShortTextMisses(s: string, w: string)
    requires |s| < |w|
    ensures !Contains(s, w)
    decreases |s|
  {
    if 0 < |s| {
      ShortTextMisses(s[1..], w);
    }
  }

  /** A tweet reading "Gem" scores +1: it is lower-cased to "gem", one bullish keyword and no bearish one. */
  lemma GemExample()
    ensures TweetScore("Gem") == 1
  {
    assert ToLower("Gem") == "gem" by {
      assert ToLower("Gem") == [LowerChar('G')] + ToLower("em");
      assert ToLower("em") == [LowerChar('e')] + ToLower("m");
      assert ToLower("m") == [LowerChar('m')] + ToLower("");
    }
    var text := "gem";
    assert Contains(text, "gem") by { assert text[..3] == "gem"; }
    assert !Contains(text, "buy") by { assert text[..3] != "buy"; ShortTextMisses(text[1..], "buy"); }
    assert !Contains(text, "lfg") by { assert text[..3] != "lfg"; ShortTextMisses(text[1..], "lfg"); }
    assert !Contains(text, "rug") by { assert text[..3] != "rug"; ShortTextMisses(text[1..], "rug"); }
    ShortTextMisses(text, "moon");
    ShortTextMisses(text, "bullish");
    ShortTextMisses(text, "pump");
    ShortTextMisses(text, "100x");
    ShortTextMisses(text, "dump");
    ShortTextMisses(text, "bearish");
    ShortTextMisses(text, "sell");
    ShortTextMisses(text, "scam");
    ShortTextMisses(text, "dead");
    assert Hits(BullishWords, text) == 1 by {
      assert BullishWords[1..] == ["bullish", "buy", "pump", "gem", "100x", "lfg"];
      assert BullishWords[1..][1..] == ["buy", "pump", "gem", "100x", "lfg"];
      assert BullishWords[1..][1..][1..] == ["pump", "gem", "100x", "lfg"];
      assert BullishWords[1..][1..][1..][1..] == ["gem", "100x", "lfg"];
      assert BullishWords[1..][1..][1..][1..][1..] == ["100x", "lfg"];
      assert BullishWords[1..][1..][1..][1..][1..][1..] == ["lfg"];
    }
    assert Hits(BearishWords, text) == 0 by {
      assert BearishWords[1..] == ["bearish", "sell", "rug", "scam", "dead"];
      assert BearishWords[1..][1..] == ["sell", "rug", "scam", "dead"];
      assert BearishWords[1..][1..][1..] == ["rug", "scam", "dead"];
      assert BearishWords[1..][1..][1..][1..] == ["scam", "dead"];
      assert BearishWords[1..][1..][1..][1..][1..] == ["dead"];
    }
  }
}
