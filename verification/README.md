# Memecoin MCP server: ticker scraping, ranking and sentiment, in Dafny

This project models the text-processing core of a Model Context Protocol server for Solana memecoins.
It covers the following parts:

- `CoinScraper` (src/scrapers.ts):
  - `detectCoins` finds `$TICKER` tokens in free text with the regular expression `/\$([A-Z]{2,10})\b/g`.
  - `categorizeCoin` files a symbol as a major coin, a memecoin or unknown.
  - `aggregateMentions` turns the per-symbol counters into categorized records sorted stably by descending engagement.
- The pure parts of three tools in src/tools.ts:
  - the fold of `scrape_trending_tokens`, which keeps an insertion-ordered map from symbol to mention, engagement and per-source counters, then ranks the map and keeps the first 20 records;
  - the 280-character guard of `post_to_twitter`;
  - the keyword scoring and labelling of `analyze_sentiment`.

The modules follow the program:

| module | file | what it is |
|---|---|---|
| `Wrappers` | wrappers.dfy | `Option` (an absent JavaScript field), `Result` (a value or a thrown error), `Outcome` (a guard) |
| `Seqs` | seqs.dfy | `NoDuplicates`, shared by the map model and the keyword lists |
| `Text` | text.dfy | ASCII character classes, `toUpperCase`/`toLowerCase`, `includes` |
| `Detector` | detector.dfy | `detectCoins`, as a regex-engine model and as a reference definition |
| `Classifier` | classifier.dfy | `categorizeCoin` |
| `Mentions` | mentions.dfy | the `CoinMention` record and its source breakdown |
| `Ranking` | ranking.dfy | the stable sort by descending engagement |
| `OrderedMap` | orderedmap.dfy | JavaScript's `Map` as an insertion-ordered list of entries |
| `Aggregator` | aggregator.dfy | `aggregateMentions` |
| `Trending` | trending.dfy | the `scrape_trending_tokens` fold and its top-20 cut |
| `TweetGuard` | tweetguard.dfy | the length check of `post_to_twitter` |
| `Sentiment` | sentiment.dfy | the scoring in `analyze_sentiment` |

Some choices made in the model:

- **Detector.** `MatchAt` follows the regular expression engine literally:
  - a greedy run of at most 10 upper-case letters;
  - backtracking over the run lengths 10…2 until `\b` holds;
  - `matchAll` resuming after a match, or one index further on after a miss.
- **Reference ticker definition.** `Tickers` is an independent definition: a `$` contributes a ticker exactly when the maximal `[A-Za-z0-9_]` run after it is 2 to 10 upper-case letters. The two are proved equal.
- **`categorizeCoin` follows the code, not the plain reading of its intent.** `symbol.replace('$', '')` removes the first `$` wherever it is, not only a leading one. `RemoveFirst` models that, and `DoubledMarkerExample` shows its effect: `"$$BTC"` is unknown.
- **Per-source engagement.** The fold credits the running total to the breakdown entry, exactly as the source does. The per-post delta is not used. The model keeps this behaviour and states it: `RunningCredit` is what the entry receives. `RunningCreditCovers` and `RunningCreditExample` compare it with the source's true contribution.
- **Fetched posts are inputs.** Their texts and like/repost counts arrive as an `Option<seq<Post>>` per platform. `None` stands for a platform section that did not reach its loop, because the credential is missing or the request threw and the error was logged.

## Model

| member | source | states |
|---|---|---|
| Text.ToUpper | src/scrapers.ts:24 | upper-casing keeps the length |
| Text.ToLower | src/tools.ts:260 | lower-casing keeps the length |
| Text.CaseMapsAt | src/scrapers.ts:24 | the case maps act character by character |
| Text.UpperAbsorbsCaseMaps | src/scrapers.ts:24 | upper-casing after either case map equals upper-casing once |
| Text.LowerAbsorbsCaseMaps | src/tools.ts:260 | lower-casing after either case map equals lower-casing once |
| Text.UpperFixesUpper | src/scrapers.ts:24 | a string of capitals is its own upper-case form |
| Text.Contains | src/tools.ts:263 | `String.prototype.includes`, a left-to-right search; stated by `ContainsIffOccurs` |
| Text.ContainsHasOccurrence | src/tools.ts:263 | whatever `includes` finds starts at some index of the text |
| Text.OccurrenceIsFound | src/tools.ts:263 | `includes` finds a copy of the word wherever one starts |
| Text.ContainsIffOccurs | src/tools.ts:263 | `includes` holds exactly when some index of the text starts a copy of the word |
| Detector.UpperRun | src/scrapers.ts:15 | the greedy `[A-Z]{2,10}` run stays within the cap and the text |
| Detector.UpperRunIsLongest | src/scrapers.ts:15 | the run holds only capitals and stops before a capital only at the cap |
| Detector.AtBoundary | src/scrapers.ts:15 | `\b`: exactly one of the two neighbouring characters is a word character, the text ends counting as non-word |
| Detector.Backtrack | src/scrapers.ts:15 | the engine giving back letters of `[A-Z]{2,10}` one at a time until `\b` holds; stated by `BacktrackFindsLongest` |
| Detector.BacktrackFindsLongest | src/scrapers.ts:15 | backtracking returns the longest length from 2 up to the run whose end is a `\b`, or none when no such length exists |
| Detector.MatchAt | src/scrapers.ts:15 | a match at a `$` captures 2 to 10 capitals inside the text |
| Detector.Scan | src/scrapers.ts:16-17 | every string `matchAll` yields is `$` followed by 2 to 10 capitals |
| Detector.DetectCoins | src/scrapers.ts:14-18 | every returned string is `$` followed by 2 to 10 capitals |
| Detector.WordRun | src/scrapers.ts:15 | the maximal `\w` run after a position: all word characters, followed by a non-word character or the end |
| Detector.MatchAtIffQualifies | src/scrapers.ts:15 | the engine matches at `i` exactly when `i` holds a `$` whose maximal word run is 2 to 10 capitals, and the match is that whole run |
| Detector.SkipNonMarkers | src/scrapers.ts:16 | positions without a `$` contribute nothing |
| Detector.ScanOnMatch | src/scrapers.ts:16-17 | after a match the scan emits `$` plus the group and resumes after the match |
| Detector.ScanOnMiss | src/scrapers.ts:16 | after a failed attempt the scan resumes one index further on |
| Detector.ScanAtQualifying | src/scrapers.ts:16-17 | at a qualifying `$` the scan emits its ticker and resumes after the run |
| Detector.StepAtMiss | src/scrapers.ts:16 | at a non-qualifying index neither the scan nor the reference emits anything |
| Detector.ScanIsTickers | src/scrapers.ts:15-17 | from any index, the `matchAll` scan equals the reference list of tickers |
| Detector.DetectCoinsIsReference | src/scrapers.ts:14-18 | `detectCoins` yields one ticker per qualifying `$`, left to right, duplicates kept |
| Detector.NoMarkerNoTickers | src/scrapers.ts:14-18 | text without a `$` yields nothing |
| Detector.BoundaryExamples | src/scrapers.ts:15 | `$ABCDEFGHIJK`, `$BTCs`, `$BTC2`, `$B`, `$btc` and the empty text yield nothing |
| Detector.SingleTickerExample | src/scrapers.ts:14-18 | `$BTC` yields `["$BTC"]` |
| Classifier.IndexOf | src/scrapers.ts:24 | the index of the first occurrence of a character, or the length when absent |
| Classifier.RemoveFirstCutsFirstIndex | src/scrapers.ts:24 | `replace('$', '')` deletes the first `$` only, wherever it is |
| Classifier.RemoveFirst | src/scrapers.ts:24 | `replace('$', '')`; its law is `RemoveFirstCutsFirstIndex` |
| Classifier.Clean | src/scrapers.ts:24 | `symbol.replace('$', '').toUpperCase()`; its laws are `RemoveFirstCommutesWithUpper`/`Lower` and `UpperAbsorbsCaseMaps` |
| Classifier.Categorize | src/scrapers.ts:20-29 | `categorizeCoin`: `Lookup` of the cleaned symbol; stated by `Lookup`, `CategorizeIgnoresCase`, `SameCategoryAnySpelling`, `CategorizeDetected` |
| Classifier.Lookup | src/scrapers.ts:21-28 | major iff in the major list; memecoin iff in the memecoin list and not the major list; unknown otherwise |
| Classifier.ListsAreDisjoint | src/scrapers.ts:21-22 | no symbol is on both lists |
| Classifier.RemoveFirstCommutesWithUpper | src/scrapers.ts:24 | removing the first `$` commutes with upper-casing |
| Classifier.RemoveFirstCommutesWithLower | src/scrapers.ts:24 | removing the first `$` commutes with lower-casing |
| Classifier.CategorizeIgnoresCase | src/scrapers.ts:24-28 | upper- or lower-casing a symbol never changes its category |
| Classifier.CategorizeIgnoresMarker | src/scrapers.ts:24-28 | a leading `$` on a symbol without another `$` does not change its category |
| Classifier.SameCategoryAnySpelling | src/scrapers.ts:24-28 | `x`, `$x`, lower-case `x` and `$` plus lower-case `x` share a category when `x` has no `$` |
| Classifier.CategorizeDetected | src/scrapers.ts:24-28 | a detected ticker is categorized by its letters |
| Classifier.MajorExample | src/scrapers.ts:21-26 | `BTC`, `$BTC` and `btc` are major |
| Classifier.MemecoinExample | src/scrapers.ts:22-27 | `$pepe` is a memecoin |
| Classifier.UnknownExample | src/scrapers.ts:24-28 | `$ZZZZZ` is unknown |
| Classifier.DoubledMarkerExample | src/scrapers.ts:24-28 | `$$BTC` is unknown, because only one `$` is removed |
| Ranking.Insert | src/scrapers.ts:44 | inserting adds exactly one record |
| Ranking.InsertKeepsSorted | src/scrapers.ts:44 | inserting into a ranking keeps it sorted by non-increasing engagement |
| Ranking.InsertIsStable | src/scrapers.ts:44 | an inserted record lands before the records of its own engagement, as if prepended |
| Ranking.InsertPastHead | src/scrapers.ts:44 | moving a record past a head of higher engagement keeps every tie class |
| Ranking.SwapKeepsTieClass | src/scrapers.ts:44 | swapping neighbours of different engagement keeps every tie class |
| Ranking.SortByEngagement | src/scrapers.ts:44 | the sort is a permutation, sorted by non-increasing engagement, and keeps the order within each engagement value |
| Ranking.WithEngagementMembers | src/scrapers.ts:44 | a tie class holds exactly the records of that engagement |
| Ranking.HeadIsMaximal | src/scrapers.ts:44 | the first record of a ranking has the highest engagement |
| Ranking.SameHead | src/scrapers.ts:44 | two rankings with the same tie classes start with the same record |
| Ranking.SameTail | src/scrapers.ts:44 | removing a shared first record keeps the tie classes equal |
| Ranking.NoTieClasses | src/scrapers.ts:44 | a sequence with every tie class empty is empty |
| Ranking.SortedTieClassesDetermine | src/scrapers.ts:44 | two sorted sequences with the same tie classes are equal |
| Ranking.SortIsUnique | src/scrapers.ts:44 | any sorted, tie-order-keeping rearrangement of the records is the sort's result |
| OrderedMap.Keys | src/tools.ts:75-82 | one key per entry |
| OrderedMap.KeysAt | src/tools.ts:75-82 | the key list lines up with the entries |
| OrderedMap.Has | src/tools.ts:75 | `trending.has(symbol)`: the key is among the keys; used by `GetSetSame` and `GetSetOther` |
| OrderedMap.Get | src/tools.ts:84 | `trending.get(symbol)` for a present key; stated by `GetSetSame`, `GetSetOther` and `GetAt` |
| OrderedMap.Set | src/tools.ts:76-82 | `set` grows the map only for a new key |
| OrderedMap.SetKeys | src/tools.ts:76-82 | `set` leaves the key order alone for a present key and appends a new key |
| OrderedMap.GetSetSame | src/tools.ts:84 | `get` after `set` returns the value set |
| OrderedMap.GetSetOther | src/tools.ts:84 | `set` on one key leaves `get` on any other key unchanged |
| OrderedMap.SetKeepsKeysUnique | src/tools.ts:75-82 | `set` never repeats a key |
| OrderedMap.AppendNewCons | src/tools.ts:75-82 | first-seen order, one element at a time |
| OrderedMap.AppendNewMembers | src/tools.ts:75-82 | the first-seen list holds exactly the elements seen |
| OrderedMap.AppendNewUnique | src/tools.ts:75-82 | the first-seen list never repeats an element |
| OrderedMap.GetAt | src/scrapers.ts:34 | with unique keys, each entry is what `get` returns for its key |
| Aggregator.Describe | src/scrapers.ts:35-41 | the record pushed for one entry; its fields are stated by `DescribeFields` |
| Aggregator.Records | src/scrapers.ts:34-42 | one record per map entry, in map order, with its symbol, mentions and engagement copied, its category `categorizeCoin(symbol)` and `sources \|\| []` |
| Aggregator.RecordsKeepKeys | src/scrapers.ts:34-36 | the records carry the map's keys in map order |
| Aggregator.AggregateMentions | src/scrapers.ts:31-45 | one record per entry, a permutation of them, sorted by non-increasing engagement, ties in map order |
| Aggregator.AggregateKeepsEntry | src/scrapers.ts:34-42 | every map entry is in the result |
| Aggregator.AggregateOnlyEntries | src/scrapers.ts:34-44 | every result record comes from a map entry |
| Aggregator.DescribeFields | src/scrapers.ts:35-41 | the symbol, mentions and engagement are copied, the category is `categorizeCoin(symbol)`, absent sources become empty and present ones are kept |
| Aggregator.AggregateIsTheStableSort | src/scrapers.ts:44 | the result is the only sorted, tie-order-keeping arrangement |
| Aggregator.AggregateEmpty | src/scrapers.ts:31-45 | an empty map gives an empty result |
| Aggregator.RecordsDistinct | src/scrapers.ts:34-42 | distinct keys give distinct records |
| Aggregator.RankedSymbolsDistinct | src/scrapers.ts:31-45 | no two ranked records share a symbol |
| Aggregator.AggregateOneRecordPerKey | src/scrapers.ts:31-45 | for a `Map`, every key is ranked exactly once |
| Trending.Score | src/tools.ts:86-87 | likes plus twice the retweets, or (lines 124-125) plus three times the recasts; absent counts by `MissingMetricIsZero` |
| Trending.MissingMetricIsZero | src/tools.ts:86-87 | an absent like or repost count weighs as zero |
| Trending.BumpSource | src/tools.ts:89-94 | a breakdown entry is added only for a source not yet listed |
| Trending.BumpSourceNames | src/tools.ts:89-92 | a new source's entry goes last; a listed source adds none |
| Trending.BumpSourceCredits | src/tools.ts:92-94 | the first entry of the source gains one mention and the credited engagement |
| Trending.BumpSourceOther | src/tools.ts:92-94 | every other source's entry is untouched |
| Trending.Find | src/tools.ts:89-92 | `data.sources.find(s => s.source === name)`, the first entry of that name; stated by `FindIffListed` |
| Trending.FindIffListed | src/tools.ts:89 | `find` succeeds exactly for a listed source and returns an entry of that name |
| Trending.Touch | src/tools.ts:75-82 | after the `has` check the symbol is in the map |
| Trending.Bumped | src/tools.ts:85-94 | one occurrence on its record; its laws are the `BumpAll…` lemmas |
| Trending.Step | src/tools.ts:75-94 | the inner loop body; stated by `StepKeys` and `StepCurrent` |
| Trending.StepKeys | src/tools.ts:75-82 | a first occurrence appends the symbol; later ones keep the key order |
| Trending.StepCurrent | src/tools.ts:75-94 | an occurrence changes only its own symbol's record, by one mention, its score and the source credit |
| Trending.FoldAll | src/tools.ts:71-95 | the two nested loops over posts and their symbols; stated by `FoldPosts`, `FoldKeys`, `FoldCurrent` and `FreshRecord` |
| Trending.FoldKeys | src/tools.ts:71-82 | the keys are the symbols in order of first occurrence |
| Trending.FoldCurrent | src/tools.ts:71-95 | each symbol's record depends only on that symbol's occurrences |
| Trending.StepKeepsKeysUnique | src/tools.ts:75-82 | a step never re-inserts a symbol |
| Trending.FoldKeepsKeysUnique | src/tools.ts:71-95 | the fold never re-inserts a symbol |
| Trending.BumpAllMentions | src/tools.ts:85 | each occurrence adds one mention, duplicates within a post included |
| Trending.BumpAllEngagement | src/tools.ts:86-87 | each occurrence adds its post's weighted score |
| Trending.BumpAllNames | src/tools.ts:89-92 | breakdown entries appear once per source, in order of first contribution |
| Trending.NamesAfterOne | src/tools.ts:89-92 | one occurrence moves its source name, if new, from the pending list into the breakdown |
| Trending.BumpAllSourceMentions | src/tools.ts:93 | a source's entry counts that source's occurrences |
| Trending.BumpAllSourceEngagement | src/tools.ts:86-94 | a source's entry is credited the symbol's running total after each of that source's occurrences |
| Trending.RunningCreditCovers | src/tools.ts:94 | the running-total credit is never below the source's own contribution |
| Trending.RunningCreditExample | src/tools.ts:94 | two tweets worth 10 mentioning `$BTC` give engagement 20 but a twitter credit of 30 |
| Trending.Mentioned | src/tools.ts:72-74 | one occurrence per detected symbol |
| Trending.Occurrences | src/tools.ts:71-74 | the occurrences of a platform's posts, post by post (Farcaster alike at lines 109-112); stated by `OccurrencesAreTickers` and `FoldPosts` |
| Trending.Selected | src/tools.ts:62-71 | the Twitter section when chosen and fetched, then the Farcaster section (lines 102-109) when chosen and fetched |
| Trending.FoldAllAppend | src/tools.ts:71-133 | folding the Twitter then the Farcaster occurrences is folding their concatenation |
| Trending.FoldPosts | src/tools.ts:71-95 | the nested loops over posts and symbols compute the fold of the posts' occurrences |
| Trending.OccurrencesAreTickers | src/tools.ts:72 | every occurrence is a detected ticker from its platform |
| Trending.MentionedAt | src/tools.ts:74 | the occurrences of a post follow its detected symbols |
| Trending.EntriesGet | src/tools.ts:140 | looking a symbol up in the map handed to `aggregateMentions` gives its counters and its (always present) sources |
| Trending.Top | src/tools.ts:140 | at most 20 records, a prefix of the ranking, all of it when short |
| Trending.TopKeepsHighest | src/tools.ts:140 | every record kept by `slice(0, 20)` has at least the engagement of every record cut |
| Trending.Scrape | src/tools.ts:60-140 | the tool folds the selected platforms' posts, ranks the map and keeps the first 20 |
| Trending.ScrapedAreRanked | src/tools.ts:140 | the returned records are sorted by non-increasing engagement |
| Trending.FoldedKeys | src/tools.ts:75-82 | the folded map's keys are unique, in order of first occurrence |
| Trending.EntriesKeys | src/tools.ts:140 | the conversion keeps the keys |
| Trending.FreshRecord | src/tools.ts:75-95 | a symbol's counters are its occurrence count and score sum; its sources are distinct, each with its own count and running-total credit |
| Trending.RankedRecord | src/tools.ts:71-140 | every ranked record is a mentioned symbol with exactly those counters and its category |
| Trending.RankedOncePerSymbol | src/tools.ts:71-140 | every mentioned symbol is ranked exactly once and nothing else is ranked |
| Trending.ScrapedAreTickers | src/tools.ts:72-140 | every ranked symbol is a ticker, categorized by its letters |
| Trending.SymbolsOfTickers | src/tools.ts:72-74 | symbols drawn from tickers are tickers |
| TweetGuard.CheckLength | src/tools.ts:173-175 | text longer than 280 code units fails with the length error; anything else passes |
| TweetGuard.GuardIsPrefixClosed | src/tools.ts:173-175 | shortening never makes a text fail and lengthening never makes it pass |
| TweetGuard.GuardBoundary | src/tools.ts:173-175 | 280 code units pass and 281 fail |
| TweetGuard.AstralCharactersCountTwice | src/tools.ts:173-175 | 140 characters outside the Basic Multilingual Plane (one astral code point each) pass, and 141 of them (282 code units) are refused |
| Sentiment.Hits | src/tools.ts:262-267 | a keyword list contributes at most one point per keyword |
| Sentiment.TweetScore | src/tools.ts:260-267 | a tweet scores between -6 and +7 |
| Sentiment.Accumulate | src/tools.ts:258-268 | the loop counts every tweet and sums their scores |
| Sentiment.Analyze | src/tools.ts:245-273 | no token gives a neutral zero report; a failed request or a missing tweet list fails; otherwise the report counts and scores every tweet |
| Sentiment.Normalized | src/tools.ts:271 | the score per tweet, 0 with no tweets; stated by `LabelByIntegers` |
| Sentiment.LabelOf | src/tools.ts:272-273 | the ±0.2 thresholds; stated by `LabelByIntegers` |
| Sentiment.Summarize | src/tools.ts:271-273 | the report: label, normalized score and tweet count; stated by `LabelByIntegers` and `Analyze` |
| Sentiment.LabelByIntegers | src/tools.ts:271-273 | no tweets give 0 and neutral; otherwise bullish iff 5·score > total, bearish iff 5·score < -total, neutral in between |
| Sentiment.DivideCompares | src/tools.ts:271-273 | comparing the quotient is comparing the score with the scaled bound |
| Sentiment.FifthCompares | src/tools.ts:272-273 | the 0.2 threshold in integer terms |
| Sentiment.SumScoresBounds | src/tools.ts:258-268 | the summed score lies between -6 and +7 times the number of tweets |
| Sentiment.TweetScoreIgnoresCase | src/tools.ts:260 | the case of a tweet does not change its score |
| Sentiment.HitsCountsMatchedWords | src/tools.ts:262-267 | with distinct keywords, a list's points are the number of distinct keywords the text contains |
| Sentiment.KeywordsAreDistinct | src/tools.ts:248-249 | neither keyword list repeats a word |
| Sentiment.ShortTextMisses | src/tools.ts:263 | a text shorter than a keyword does not contain it |
| Sentiment.GemExample | src/tools.ts:260-267 | a tweet reading `Gem` scores +1 |

## Left out

- All network and SDK calls: the Twitter client, the Neynar HTTP request, the Solana RPC and token-minting calls, and the MCP server registration. Posts, their metrics and the search outcome are inputs instead.
- The `limit` argument of `scrape_trending_tokens` only sizes the remote requests and is echoed in the output, so it does not appear.
- src/repository.ts (Solana RPC wrapper with floating-point amounts), src/resources.ts (static documents with a timestamp), src/prompts.ts (fixed prose templates) and src/server.ts (hosting wiring) are not part of this model.
- `JSON.stringify`, `new Date().toISOString()`, `toFixed(2)` and `console.error` are output formatting and logging, so they are left out. The echoed `symbol` and `timeframe` of `analyze_sentiment` are left out too.
- Environment-credential checks are not modelled: the token checks and the four-key check of `post_to_twitter`. A missing credential appears only as a platform section or search that did not run.
- `toUpperCase`/`toLowerCase` are modelled on ASCII letters only. Non-ASCII case mappings (which can change a string's length) are left out.
- A string is the sequence of UTF-16 code units of the JavaScript string. Dafny's `char` has no surrogate values, so each surrogate code unit is written as the stand-in U+FFFD (`TweetGuard.UnitStandIn`). A character outside the Basic Multilingual Plane (one astral code point) is then two characters, and `|text|` is `text.length`. This is not the same as an emoji: some emoji are one code unit and emoji sequences are longer. The stand-in is a non-word character that no keyword contains, as a real surrogate is. The model does not distinguish one astral character from another, and a literal U+FFFD in a text cannot be told apart from half of a surrogate pair.
- Counters and scores are JavaScript numbers, which are exact integers only below 2^53. The model's integers are unbounded, so rounding of counters beyond 2^53 is not modelled.
- Sentiment.Normalized: the quotient and the 0.2 bounds are exact reals, not IEEE doubles. With at most 100 tweets per search, no quotient comes close enough to ±0.2 for rounding to change the label. The integer form is given by `LabelByIntegers`.
- Trending.BumpSource: `find`-then-push-then-`find` is written as one pass that updates the first entry of the source, or appends it. The two agree, since the push happens only when no entry exists.
- The `try`/`catch` around each platform section swallows an error thrown mid-loop and keeps the updates already made. The model treats a section as all-or-nothing: it runs in full or is skipped.
- Detector: no example lemma covers a long multi-ticker sentence. The general equality with the reference definition covers such inputs.
