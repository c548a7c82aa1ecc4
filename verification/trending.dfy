/**
  The pure part of the `scrape_trending_tokens` tool (src/tools.ts): every ticker detected in a post is
  folded into an insertion-ordered map from symbol to a mention record, the map is ranked by
  `aggregateMentions` and the first 20 records are kept.
 */
module Trending {
  import opened Wrappers
  import opened Detector
  import opened Mentions
  import opened Ranking
  import opened Aggregator
  import OrderedMap
  import Seqs

  datatype Platform = Twitter | Farcaster

  /** The `source` name a platform's breakdown entry carries. */
  function SourceName(p: Platform): string {
    match p
    case Twitter => "twitter"
    case Farcaster => "farcaster"
  }

  /** How much one repost counts: a retweet twice a like, a recast three times. */
  function RepostWeight(p: Platform): nat {
    match p
    case Twitter => 2
    case Farcaster => 3
  }

  /**
    A tweet or cast: its text and its like and repost counts (`public_metrics.like_count` and
    `retweet_count`, or `reactions.likes_count` and `recasts_count`), any of which may be absent.
   */
  datatype Post = Post(text: string, likes: Option<nat>, reposts: Option<nat>)

  /** The engagement one post adds for each ticker it mentions; a missing count counts as zero. */
  function Score(p: Platform, post: Post): nat {
    post.likes.GetOr(0) + post.reposts.GetOr(0) * RepostWeight(p)
  }

  /** The value stored under a symbol: `{ symbol, mentions, engagement, sources }` without the key. */
  datatype Record = Record(mentions: int, engagement: int, sources: seq<SourceStat>)

  /** An absent count weighs what a zero count weighs, and a post with neither scores zero. */
  lemma MissingMetricIsZero(p: Platform, text: string, n: nat)
    ensures Score(p, Post(text, None, Some(n))) == Score(p, Post(text, Some(0), Some(n)))
    ensures Score(p, Post(text, Some(n), None)) == Score(p, Post(text, Some(n), Some(0))) == n
    ensures Score(p, Post(text, None, None)) == 0
  {
  }

  /** The record a symbol gets the first time it is seen. */
  const Fresh := Record(0, 0, [])

  /** The `trending` map. */
  type Tally = seq<(string, Record)>

  /** One detected ticker in one post: the unit the fold consumes. */
  datatype Occurrence = Occurrence(symbol: string, platform: Platform, score: nat)

  // ---------------------------------------------------------------------------------------------
  // Per-source breakdown
  // ---------------------------------------------------------------------------------------------

  /** The source names of a breakdown, in list order. */
  function Names(sources: seq<SourceStat>): (ns: seq<string>)
    ensures |ns| == |sources|
  {
    if sources == [] then [] else [sources[0].source] + Names(sources[1..])
  }

  /** `sources.find(s => s.source === name)`: the first entry with that name. */
  function Find(sources: seq<SourceStat>, name: string): Option<SourceStat> {
    if sources == [] then None
    else if sources[0].source == name then Some(sources[0])
    else Find(sources[1..], name)
  }

  /** A source's entry, or zero counters when it has none yet. */
  function Stat(sources: seq<SourceStat>, name: string): SourceStat {
    Find(sources, name).GetOr(SourceStat(name, 0, 0))
  }

  /**
    Push `{ source: name, mentions: 0, engagement: 0 }` unless `find` locates an entry, then add one
    mention and `credit` engagement to the first entry with that name.
   */
  function BumpSource(sources: seq<SourceStat>, name: string, credit: int): (r: seq<SourceStat>)
    ensures |r| == if name in Names(sources) then |sources| else |sources| + 1
  {
    if sources == [] then [SourceStat(name, 1, credit)]
    else if sources[0].source == name then
      [SourceStat(name, sources[0].mentions + 1, sources[0].engagement + credit)] + sources[1..]
    else [sources[0]] + BumpSource(sources[1..], name, credit)
  }

  /** An entry is created only for a name not yet listed, and goes last. */
  lemma {:induction false} BumpSourceNames(sources: seq<SourceStat>, name: string, credit: int)
    ensures Names(BumpSource(sources, name, credit))
         == if name in Names(sources) then Names(sources) else Names(sources) + [name]
    decreases |sources|
  {
    if sources != [] && sources[0].source != name {
      BumpSourceNames(sources[1..], name, credit);
      assert ([sources[0]] + BumpSource(sources[1..], name, credit))[1..] == BumpSource(sources[1..], name, credit);
    } else if sources != [] {
      var r := BumpSource(sources, name, credit);
      assert r[1..] == sources[1..];
    }
  }

  /** The named entry gains one mention and `credit` engagement. */
  lemma {:induction false} BumpSourceCredits(sources: seq<SourceStat>, name: string, credit: int)
    ensures Find(BumpSource(sources, name, credit), name)
         == Some(SourceStat(name, Stat(sources, name).mentions + 1, Stat(sources, name).engagement + credit))
    decreases |sources|
  {
    if sources != [] && sources[0].source != name {
      BumpSourceCredits(sources[1..], name, credit);
      assert ([sources[0]] + BumpSource(sources[1..], name, credit))[1..] == BumpSource(sources[1..], name, credit);
    }
  }

  /** Every other source's entry is untouched. */
  lemma {:induction false} BumpSourceOther(sources: seq<SourceStat>, name: string, credit: int, other: string)
    requires other != name
    ensures Find(BumpSource(sources, name, credit), other) == Find(sources, other)
    decreases |sources|
  {
    if sources == [] {
    } else if sources[0].source == name {
      var r := BumpSource(sources, name, credit);
      assert r[1..] == sources[1..];
    } else if sources[0].source != other {
      BumpSourceOther(sources[1..], name, credit, other);
      assert ([sources[0]] + BumpSource(sources[1..], name, credit))[1..] == BumpSource(sources[1..], name, credit);
    }
  }

  /** `find` succeeds exactly for the listed names. */
  lemma {:induction false} FindIffListed(sources: seq<SourceStat>, name: string)
    ensures Find(sources, name).Some? <==> name in Names(sources)
    ensures Find(sources, name).Some? ==> Find(sources, name).value.source == name
    decreases |sources|
  {
    if sources != [] {
      FindIffListed(sources[1..], name);
    }
  }

  // ---------------------------------------------------------------------------------------------
  // The fold over occurrences
  // ---------------------------------------------------------------------------------------------

  /** `if (!trending.has(symbol)) trending.set(symbol, { symbol, mentions: 0, engagement: 0, sources: [] })`. */
  function Touch(t: Tally, symbol: string): (r: Tally)
    ensures OrderedMap.Has(r, symbol)
  {
    if OrderedMap.Has(t, symbol) then t
    else
      OrderedMap.GetSetSame(t, symbol, Fresh);
      OrderedMap.Set(t, symbol, Fresh)
  }

  /**
    One occurrence applied to its symbol's record: one more mention, the post's score added to the
    engagement, and the platform's breakdown entry credited with the record's new engagement total.
   */
  function Bumped(d: Record, o: Occurrence): Record {
    var total := d.engagement + o.score;
    Record(d.mentions + 1, total, BumpSource(d.sources, SourceName(o.platform), total))
  }

  /** The body of the inner `for (const symbol of symbols)` loop. */
  function Step(t: Tally, o: Occurrence): Tally {
    var t1 := Touch(t, o.symbol);
    OrderedMap.Set(t1, o.symbol, Bumped(OrderedMap.Get(t1, o.symbol), o))
  }

  /** The occurrences folded in order, left to right. */
  function FoldAll(t: Tally, occs: seq<Occurrence>): Tally
    decreases |occs|
  {
    if occs == [] then t else FoldAll(Step(t, occs[0]), occs[1..])
  }

  /** A symbol's record, or the fresh record when the map has none yet. */
  function Current(t: Tally, k: string): Record {
    if OrderedMap.Has(t, k) then OrderedMap.Get(t, k) else Fresh
  }

  /** The symbols of the occurrences, in order. */
  function SymbolsOf(occs: seq<Occurrence>): (ks: seq<string>)
    ensures |ks| == |occs|
  {
    if occs == [] then [] else [occs[0].symbol] + SymbolsOf(occs[1..])
  }

  /** One symbol's record folded over the occurrences that concern it. */
  function BumpAll(d: Record, occs: seq<Occurrence>, k: string): Record
    decreases |occs|
  {
    if occs == [] then d
    else BumpAll(if occs[0].symbol == k then Bumped(d, occs[0]) else d, occs[1..], k)
  }

  /** A step inserts its symbol last the first time and otherwise keeps the key order. */
  lemma StepKeys(t: Tally, o: Occurrence)
    ensures OrderedMap.Keys(Step(t, o))
         == if OrderedMap.Has(t, o.symbol) then OrderedMap.Keys(t) else OrderedMap.Keys(t) + [o.symbol]
  {
    var t1 := Touch(t, o.symbol);
    OrderedMap.SetKeys(t, o.symbol, Fresh);
    OrderedMap.SetKeys(t1, o.symbol, Bumped(OrderedMap.Get(t1, o.symbol), o));
  }

  /** A step changes its own symbol's record by `Bumped` and no other record. */
  lemma StepCurrent(t: Tally, o: Occurrence, k: string)
    ensures Current(Step(t, o), k) == if o.symbol == k then Bumped(Current(t, k), o) else Current(t, k)
  {
    var t1 := Touch(t, o.symbol);
    var v := Bumped(OrderedMap.Get(t1, o.symbol), o);
    StepKeys(t, o);
    OrderedMap.SetKeys(t, o.symbol, Fresh);
    if !OrderedMap.Has(t, o.symbol) {
      OrderedMap.GetSetSame(t, o.symbol, Fresh);
    }
    if o.symbol == k {
      OrderedMap.GetSetSame(t1, k, v);
    } else if OrderedMap.Has(t, k) {
      if !OrderedMap.Has(t, o.symbol) {
        OrderedMap.GetSetOther(t, o.symbol, Fresh, k);
      }
      OrderedMap.GetSetOther(t1, o.symbol, v, k);
    }
  }

  /** The map's keys are its initial keys followed by each new symbol at its first occurrence. */
  lemma {:induction false} FoldKeys(t: Tally, occs: seq<Occurrence>)
    ensures OrderedMap.Keys(FoldAll(t, occs)) == OrderedMap.AppendNew(OrderedMap.Keys(t), SymbolsOf(occs))
    decreases |occs|
  {
    if occs != [] {
      StepKeys(t, occs[0]);
      FoldKeys(Step(t, occs[0]), occs[1..]);
    }
  }

  /** Each symbol's final record is its initial record bumped by that symbol's occurrences only. */
  lemma {:induction false} FoldCurrent(t: Tally, occs: seq<Occurrence>, k: string)
    ensures Current(FoldAll(t, occs), k) == BumpAll(Current(t, k), occs, k)
    decreases |occs|
  {
    if occs != [] {
      StepCurrent(t, occs[0], k);
      FoldCurrent(Step(t, occs[0]), occs[1..], k);
    }
  }

  /** A step never makes a key repeat. */
  lemma StepKeepsKeysUnique(t: Tally, o: Occurrence)
    requires OrderedMap.UniqueKeys(t)
    ensures OrderedMap.UniqueKeys(Step(t, o))
  {
    OrderedMap.SetKeepsKeysUnique(t, o.symbol, Fresh);
    var t1 := Touch(t, o.symbol);
    OrderedMap.SetKeepsKeysUnique(t1, o.symbol, Bumped(OrderedMap.Get(t1, o.symbol), o));
  }

  /** The fold keeps the map's keys unique. */
  lemma {:induction false} FoldKeepsKeysUnique(t: Tally, occs: seq<Occurrence>)
    requires OrderedMap.UniqueKeys(t)
    ensures OrderedMap.UniqueKeys(FoldAll(t, occs))
    decreases |occs|
  {
    if occs != [] {
      StepKeepsKeysUnique(t, occs[0]);
      FoldKeepsKeysUnique(Step(t, occs[0]), occs[1..]);
    }
  }

  // ---------------------------------------------------------------------------------------------
  // Reference counts of what the fold accumulates
  // ---------------------------------------------------------------------------------------------

  /** How many occurrences name `k`. */
  function Count(occs: seq<Occurrence>, k: string): nat {
    if occs == [] then 0 else (if occs[0].symbol == k then 1 else 0) + Count(occs[1..], k)
  }

  /** The scores of the occurrences naming `k`, summed. */
  function ScoreSum(occs: seq<Occurrence>, k: string): nat {
    if occs == [] then 0 else (if occs[0].symbol == k then occs[0].score else 0) + ScoreSum(occs[1..], k)
  }

  /** Whether an occurrence names `k` and comes from the source called `name`. */
  predicate From(o: Occurrence, k: string, name: string) {
    o.symbol == k && SourceName(o.platform) == name
  }

  /** How many occurrences name `k` and come from `name`. */
  function SourceCount(occs: seq<Occurrence>, k: string, name: string): nat {
    if occs == [] then 0 else (if From(occs[0], k, name) then 1 else 0) + SourceCount(occs[1..], k, name)
  }

  /** What the posts of `name` contributed to `k`'s engagement: their scores, summed. */
  function SourceScoreSum(occs: seq<Occurrence>, k: string, name: string): nat {
    if occs == [] then 0
    else (if From(occs[0], k, name) then occs[0].score else 0) + SourceScoreSum(occs[1..], k, name)
  }

  /**
    What the breakdown entry of `name` is credited for `k`: for each occurrence of `k` from `name`,
    `k`'s running engagement total just after that occurrence, starting from `run`.
   */
  function RunningCredit(run: int, occs: seq<Occurrence>, k: string, name: string): int
    decreases |occs|
  {
    if occs == [] then 0
    else if occs[0].symbol != k then RunningCredit(run, occs[1..], k, name)
    else
      var after := run + occs[0].score;
      (if SourceName(occs[0].platform) == name then after else 0) + RunningCredit(after, occs[1..], k, name)
  }

  /** The source names of the occurrences naming `k`, in order. */
  function SourcesOf(occs: seq<Occurrence>, k: string): seq<string> {
    if occs == [] then []
    else (if occs[0].symbol == k then [SourceName(occs[0].platform)] else []) + SourcesOf(occs[1..], k)
  }

  // ---------------------------------------------------------------------------------------------
  // One record under the fold
  // ---------------------------------------------------------------------------------------------

  /** Each occurrence adds exactly one mention. */
  lemma {:induction false} BumpAllMentions(d: Record, occs: seq<Occurrence>, k: string)
    ensures BumpAll(d, occs, k).mentions == d.mentions + Count(occs, k)
    decreases |occs|
  {
    if occs != [] {
      BumpAllMentions(if occs[0].symbol == k then Bumped(d, occs[0]) else d, occs[1..], k);
    }
  }

  /** Each occurrence adds its post's score. */
  lemma {:induction false} BumpAllEngagement(d: Record, occs: seq<Occurrence>, k: string)
    ensures BumpAll(d, occs, k).engagement == d.engagement + ScoreSum(occs, k)
    decreases |occs|
  {
    if occs != [] {
      BumpAllEngagement(if occs[0].symbol == k then Bumped(d, occs[0]) else d, occs[1..], k);
    }
  }

  /** A breakdown entry is appended when its source first mentions the symbol, and never again. */
  lemma {:induction false} BumpAllNames(d: Record, occs: seq<Occurrence>, k: string)
    ensures Names(BumpAll(d, occs, k).sources) == OrderedMap.AppendNew(Names(d.sources), SourcesOf(occs, k))
    decreases |occs|
  {
    if occs != [] {
      var d' := if occs[0].symbol == k then Bumped(d, occs[0]) else d;
      BumpAllNames(d', occs[1..], k);
      NamesAfterOne(d, occs, k);
    }
  }

  /** One occurrence moves the first source name it concerns from the pending list into the breakdown. */
  lemma NamesAfterOne(d: Record, occs: seq<Occurrence>, k: string)
    requires occs != []
    ensures var d' := if occs[0].symbol == k then Bumped(d, occs[0]) else d;
      OrderedMap.AppendNew(Names(d.sources), SourcesOf(occs, k))
      == OrderedMap.AppendNew(Names(d'.sources), SourcesOf(occs[1..], k))
  {
    SourcesOfCons(occs, k);
    if occs[0].symbol == k {
      NamesAfterMatch(d, occs[0], SourcesOf(occs[1..], k));
    }
  }

  lemma NamesAfterMatch(d: Record, o: Occurrence, pending: seq<string>)
    ensures OrderedMap.AppendNew(Names(d.sources), [SourceName(o.platform)] + pending)
         == OrderedMap.AppendNew(Names(Bumped(d, o).sources), pending)
  {
    BumpSourceNames(d.sources, SourceName(o.platform), d.engagement + o.score);
    OrderedMap.AppendNewCons(Names(d.sources), SourceName(o.platform), pending);
  }

  lemma SourcesOfCons(occs: seq<Occurrence>, k: string)
    requires occs != []
    ensures SourcesOf(occs, k)
         == if occs[0].symbol == k then [SourceName(occs[0].platform)] + SourcesOf(occs[1..], k) else SourcesOf(occs[1..], k)
  {
    if occs[0].symbol != k {
      assert [] + SourcesOf(occs[1..], k) == SourcesOf(occs[1..], k);
    }
  }

  /** The breakdown entry of a source that mentions the symbol gets one mention per occurrence. */
  lemma {:induction false} BumpAllSourceMentions(d: Record, occs: seq<Occurrence>, k: string, name: string)
    ensures Stat(BumpAll(d, occs, k).sources, name).mentions == Stat(d.sources, name).mentions + SourceCount(occs, k, name)
    decreases |occs|
  {
    if occs != [] {
      var o := occs[0];
      if o.symbol == k {
        if SourceName(o.platform) == name {
          BumpSourceCredits(d.sources, name, d.engagement + o.score);
        } else {
          BumpSourceOther(d.sources, SourceName(o.platform), d.engagement + o.score, name);
        }
      }
      BumpAllSourceMentions(if o.symbol == k then Bumped(d, o) else d, occs[1..], k, name);
    }
  }

  /** The breakdown entry of a source is credited with the running total, not the post's score. */
  lemma {:induction false} BumpAllSourceEngagement(d: Record, occs: seq<Occurrence>, k: string, name: string)
    ensures Stat(BumpAll(d, occs, k).sources, name).engagement
         == Stat(d.sources, name).engagement + RunningCredit(d.engagement, occs, k, name)
    decreases |occs|
  {
    if occs != [] {
      var o := occs[0];
      if o.symbol == k {
        if SourceName(o.platform) == name {
          BumpSourceCredits(d.sources, name, d.engagement + o.score);
        } else {
          BumpSourceOther(d.sources, SourceName(o.platform), d.engagement + o.score, name);
        }
      }
      BumpAllSourceEngagement(if o.symbol == k then Bumped(d, o) else d, occs[1..], k, name);
    }
  }

  /** With a non-negative starting total, a source is credited at least what its own posts contributed. */
  lemma {:induction false} RunningCreditCovers(run: int, occs: seq<Occurrence>, k: string, name: string)
    requires run >= 0
    ensures RunningCredit(run, occs, k, name) >= SourceScoreSum(occs, k, name)
    decreases |occs|
  {
    if occs != [] {
      if occs[0].symbol != k {
        RunningCreditCovers(run, occs[1..], k, name);
      } else {
        RunningCreditCovers(run + occs[0].score, occs[1..], k, name);
      }
    }
  }

  /**
    Two tweets worth 10 each, both mentioning $BTC: the symbol's engagement is 20, yet its twitter entry
    is credited 10 + 20 = 30.
   */
  lemma RunningCreditExample()
    ensures var occs := [Occurrence("$BTC", Twitter, 10), Occurrence("$BTC", Twitter, 10)];
      var r := Current(FoldAll([], occs), "$BTC");
      r.engagement == 20 && Stat(r.sources, "twitter").engagement == 30
      && SourceScoreSum(occs, "$BTC", "twitter") == 20
  {
    var occs := [Occurrence("$BTC", Twitter, 10), Occurrence("$BTC", Twitter, 10)];
    FoldCurrent([], occs, "$BTC");
    BumpAllEngagement(Fresh, occs, "$BTC");
    BumpAllSourceEngagement(Fresh, occs, "$BTC", "twitter");
  }

  // ---------------------------------------------------------------------------------------------
  // Posts, platforms and the tool's result
  // ---------------------------------------------------------------------------------------------

  /** The occurrences of one post: one per detected symbol, duplicates kept, all with the post's score. */
  function Mentioned(symbols: seq<string>, p: Platform, score: nat): (occs: seq<Occurrence>)
    ensures |occs| == |symbols|
  {
    if symbols == [] then [] else [Occurrence(symbols[0], p, score)] + Mentioned(symbols[1..], p, score)
  }

  /** The occurrences of a platform's posts, post by post. */
  function Occurrences(p: Platform, posts: seq<Post>): seq<Occurrence> {
    if posts == [] then []
    else Mentioned(DetectCoins(posts[0].text), p, Score(p, posts[0])) + Occurrences(p, posts[1..])
  }

  /** Folding a concatenation folds its parts one after the other. */
  lemma {:induction false} FoldAllAppend(t: Tally, a: seq<Occurrence>, b: seq<Occurrence>)
    ensures FoldAll(t, a + b) == FoldAll(FoldAll(t, a), b)
    decreases |a|
  {
    if a != [] {
      assert (a + b)[0] == a[0] && (a + b)[1..] == a[1..] + b;
      FoldAllAppend(Step(t, a[0]), a[1..], b);
    } else {
      assert a + b == b;
    }
  }

  /** The two nested `for` loops of one platform's section. */
  method FoldPosts(t0: Tally, p: Platform, posts: seq<Post>) returns (t: Tally)
    ensures t == FoldAll(t0, Occurrences(p, posts))
  {
    t := t0;
    var i := 0;
    while i < |posts|
      invariant 0 <= i <= |posts|
      invariant FoldAll(t, Occurrences(p, posts[i..])) == FoldAll(t0, Occurrences(p, posts))
    {
      var symbols := DetectCoins(posts[i].text);
      var score := Score(p, posts[i]);
      assert posts[i..][1..] == posts[i + 1..];
      FoldAllAppend(t, Mentioned(symbols, p, score), Occurrences(p, posts[i + 1..]));
      var j := 0;
      while j < |symbols|
        invariant 0 <= j <= |symbols|
        invariant FoldAll(FoldAll(t, Mentioned(symbols[j..], p, score)), Occurrences(p, posts[i + 1..]))
               == FoldAll(t0, Occurrences(p, posts))
      {
        assert symbols[j..][1..] == symbols[j + 1..];
        t := Step(t, Occurrence(symbols[j], p, score));
        j := j + 1;
      }
      i := i + 1;
    }
  }

  /** Every occurrence of a platform's posts is a detected ticker from that platform. */
  lemma {:induction false} OccurrencesAreTickers(p: Platform, posts: seq<Post>)
    ensures forall i :: 0 <= i < |Occurrences(p, posts)| ==>
      IsTicker(Occurrences(p, posts)[i].symbol) && Occurrences(p, posts)[i].platform == p
    decreases |posts|
  {
    if posts != [] {
      OccurrencesAreTickers(p, posts[1..]);
      MentionedAt(DetectCoins(posts[0].text), p, Score(p, posts[0]));
    }
  }

  lemma {:induction false} MentionedAt(symbols: seq<string>, p: Platform, score: nat)
    ensures forall i :: 0 <= i < |symbols| ==>
      Mentioned(symbols, p, score)[i] == Occurrence(symbols[i], p, score)
    decreases |symbols|
  {
    if symbols != [] {
      MentionedAt(symbols[1..], p, score);
    }
  }

  /** The `platform` argument: `'twitter'`, `'farcaster'` or `'both'` (the default). */
  datatype Choice = TwitterOnly | FarcasterOnly | Both

  /**
    The occurrences the tool folds. A section runs when the choice includes its platform and its posts
    arrived: `None` stands for a missing credential or a request that threw, whose error is logged and
    swallowed; a response without a post list folds nothing.
   */
  function Selected(choice: Choice, tweets: Option<seq<Post>>, casts: Option<seq<Post>>): seq<Occurrence> {
    (if choice != FarcasterOnly && tweets.Some? then Occurrences(Twitter, tweets.value) else [])
    + (if choice != TwitterOnly && casts.Some? then Occurrences(Farcaster, casts.value) else [])
  }

  /** The map handed to `aggregateMentions`: every record keeps its fields, its sources always present. */
  function ToEntries(t: Tally): seq<(string, Entry)> {
    seq(|t|, i requires 0 <= i < |t| => (t[i].0, Entry(t[i].1.mentions, t[i].1.engagement, Some(t[i].1.sources))))
  }

  /** The number of records the tool returns at most. */
  const TopCount := 20

  /** `.slice(0, 20)`. */
  function Top(ranked: seq<CoinMention>): (r: seq<CoinMention>)
    ensures |r| <= TopCount && (|ranked| <= TopCount ==> r == ranked)
    ensures |r| == (if |ranked| < TopCount then |ranked| else TopCount) && r <= ranked
  {
    if |ranked| <= TopCount then ranked else ranked[..TopCount]
  }

  /** On a ranking, the kept records are worth at least as much as every dropped one. */
  lemma TopKeepsHighest(ranked: seq<CoinMention>, a: nat, b: nat)
    requires SortedByEngagement(ranked)
    requires a < |Top(ranked)| <= b < |ranked|
    ensures Top(ranked)[a].engagement >= ranked[b].engagement
  {
  }

  /** The ranking of the folded map, before the cut. */
  function Ranked(occs: seq<Occurrence>): seq<CoinMention> {
    AggregateMentions(ToEntries(FoldAll([], occs)))
  }

  /** `scrape_trending_tokens` from the fetched posts to the `trending` array. */
  method Scrape(choice: Choice, tweets: Option<seq<Post>>, casts: Option<seq<Post>>) returns (r: seq<CoinMention>)
    ensures r == Top(Ranked(Selected(choice, tweets, casts)))
    ensures |r| <= TopCount
  {
    var t: Tally := [];
    var tw: seq<Occurrence> := [];
    var fc: seq<Occurrence> := [];
    if choice != FarcasterOnly && tweets.Some? {
      t := FoldPosts(t, Twitter, tweets.value);
      tw := Occurrences(Twitter, tweets.value);
    }
    if choice != TwitterOnly && casts.Some? {
      t := FoldPosts(t, Farcaster, casts.value);
      fc := Occurrences(Farcaster, casts.value);
    }
    FoldAllAppend([], tw, fc);
    assert Selected(choice, tweets, casts) == tw + fc;
    r := Top(AggregateMentions(ToEntries(t)));
  }

  /** The returned records are ranked by engagement like the full ranking. */
  lemma ScrapedAreRanked(occs: seq<Occurrence>)
    ensures SortedByEngagement(Top(Ranked(occs)))
  {
    var ranked := Ranked(occs);
    assert Top(ranked) <= ranked;
  }

  /** The keys of the folded map are unique, each symbol at its first occurrence. */
  lemma FoldedKeys(occs: seq<Occurrence>)
    ensures OrderedMap.Keys(FoldAll([], occs)) == OrderedMap.AppendNew([], SymbolsOf(occs))
    ensures OrderedMap.UniqueKeys(FoldAll([], occs))
  {
    FoldKeys([], occs);
    FoldKeepsKeysUnique([], occs);
  }

  /** `ToEntries` keeps the keys. */
  lemma EntriesKeys(t: Tally)
    ensures OrderedMap.Keys(ToEntries(t)) == OrderedMap.Keys(t)
  {
    var es := ToEntries(t);
    forall i | 0 <= i < |t| ensures OrderedMap.Keys(es)[i] == OrderedMap.Keys(t)[i] {
      OrderedMap.KeysAt(es, i);
      OrderedMap.KeysAt(t, i);
    }
  }

  /** Looking a symbol up in the handed-over map gives its record's counters and its sources. */
  lemma {:induction false} EntriesGet(t: Tally, k: string)
    requires OrderedMap.Has(t, k)
    ensures OrderedMap.Has(ToEntries(t), k)
    ensures OrderedMap.Get(ToEntries(t), k)
         == Entry(OrderedMap.Get(t, k).mentions, OrderedMap.Get(t, k).engagement, Some(OrderedMap.Get(t, k).sources))
    decreases |t|
  {
    EntriesKeys(t);
    if t[0].0 != k {
      assert ToEntries(t)[1..] == ToEntries(t[1..]);
      EntriesGet(t[1..], k);
    }
  }

  /** The record of a symbol folded from scratch: its counters are exactly what its occurrences sum to. */
  lemma FreshRecord(occs: seq<Occurrence>, k: string, name: string)
    ensures Current(FoldAll([], occs), k).mentions == Count(occs, k)
    ensures Current(FoldAll([], occs), k).engagement == ScoreSum(occs, k)
    ensures Names(Current(FoldAll([], occs), k).sources) == OrderedMap.AppendNew([], SourcesOf(occs, k))
    ensures Seqs.NoDuplicates(Names(Current(FoldAll([], occs), k).sources))
    ensures Stat(Current(FoldAll([], occs), k).sources, name).mentions == SourceCount(occs, k, name)
    ensures Stat(Current(FoldAll([], occs), k).sources, name).engagement == RunningCredit(0, occs, k, name)
    ensures Stat(Current(FoldAll([], occs), k).sources, name).engagement >= SourceScoreSum(occs, k, name)
  {
    FoldCurrent([], occs, k);
    BumpAllMentions(Fresh, occs, k);
    BumpAllEngagement(Fresh, occs, k);
    BumpAllNames(Fresh, occs, k);
    OrderedMap.AppendNewUnique([], SourcesOf(occs, k));
    BumpAllSourceMentions(Fresh, occs, k, name);
    BumpAllSourceEngagement(Fresh, occs, k, name);
    RunningCreditCovers(0, occs, k, name);
  }

  /**
    Every ranked record is a mentioned symbol with its own counters: as many mentions as occurrences,
    the sum of their scores as engagement, one breakdown entry per contributing source in order of first
    contribution, each with that source's occurrence count and running-total credit.
   */
  lemma RankedRecord(occs: seq<Occurrence>, m: CoinMention, name: string)
    requires m in Ranked(occs)
    ensures m.symbol in SymbolsOf(occs)
    ensures m.mentions == Count(occs, m.symbol) && m.engagement == ScoreSum(occs, m.symbol)
    ensures m.category == Classifier.Categorize(m.symbol)
    ensures Names(m.sources) == OrderedMap.AppendNew([], SourcesOf(occs, m.symbol))
    ensures Seqs.NoDuplicates(Names(m.sources))
    ensures Stat(m.sources, name).mentions == SourceCount(occs, m.symbol, name)
    ensures Stat(m.sources, name).engagement == RunningCredit(0, occs, m.symbol, name)
  {
    var t := FoldAll([], occs);
    var es := ToEntries(t);
    AggregateOnlyEntries(es, m);
    var i :| 0 <= i < |es| && m == Describe(es[i].0, es[i].1);
    FoldedKeys(occs);
    OrderedMap.GetAt(t, i);
    assert Current(t, m.symbol) == t[i].1;
    FreshRecord(occs, m.symbol, name);
    OrderedMap.KeysAt(t, i);
    OrderedMap.AppendNewMembers([], SymbolsOf(occs), m.symbol);
  }

  /** Each mentioned symbol is ranked exactly once, and nothing else is ranked. */
  lemma {:induction false} RankedOncePerSymbol(occs: seq<Occurrence>)
    ensures Seqs.NoDuplicates(Symbols(Ranked(occs)))
    ensures forall k :: k in SymbolsOf(occs) <==> k in Symbols(Ranked(occs))
    ensures |Ranked(occs)| == |OrderedMap.AppendNew([], SymbolsOf(occs))|
  {
    var t := FoldAll([], occs);
    var es := ToEntries(t);
    FoldedKeys(occs);
    EntriesKeys(t);
    AggregateOneRecordPerKey(es);
    forall k ensures k in SymbolsOf(occs) <==> k in Symbols(Ranked(occs)) {
      OrderedMap.AppendNewMembers([], SymbolsOf(occs), k);
      if k in SymbolsOf(occs) {
        var i :| 0 <= i < |t| && OrderedMap.Keys(t)[i] == k;
        OrderedMap.KeysAt(t, i);
        assert es[i].0 == k;
      }
      if k in Symbols(Ranked(occs)) {
        var j :| 0 <= j < |Ranked(occs)| && Symbols(Ranked(occs))[j] == k;
        RankedRecord(occs, Ranked(occs)[j], "");
      }
    }
  }

  /** Whatever the posts, every symbol the tool ranks is a ticker, so its category is its letters'. */
  lemma ScrapedAreTickers(choice: Choice, tweets: Option<seq<Post>>, casts: Option<seq<Post>>, m: CoinMention)
    requires m in Ranked(Selected(choice, tweets, casts))
    ensures IsTicker(m.symbol)
    ensures m.category == Classifier.Lookup(m.symbol[1..])
  {
    var occs := Selected(choice, tweets, casts);
    RankedRecord(occs, m, "");
    if tweets.Some? {
      OccurrencesAreTickers(Twitter, tweets.value);
    }
    if casts.Some? {
      OccurrencesAreTickers(Farcaster, casts.value);
    }
    SymbolsOfTickers(occs);
    Classifier.CategorizeDetected(m.symbol);
  }

  lemma {:induction false} SymbolsOfTickers(occs: seq<Occurrence>)
    requires forall i :: 0 <= i < |occs| ==> IsTicker(occs[i].symbol)
    ensures forall k :: k in SymbolsOf(occs) ==> IsTicker(k)
    decreases |occs|
  {
    if occs != [] {
      SymbolsOfTickers(occs[1..]);
    }
  }
}
