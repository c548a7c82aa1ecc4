/** The `CoinMention` record of src/scrapers.ts and its per-source breakdown. */
module Mentions {
  import opened Classifier

  /** One platform's share of a symbol's mentions: `{ source, mentions, engagement }`. */
  datatype SourceStat = SourceStat(source: string, mentions: int, engagement: int)

  /** A ranked, categorized symbol as returned by `aggregateMentions`. */
  datatype CoinMention = CoinMention(
    symbol: string,
    mentions: int,
    engagement: int,
    category: Category,
    sources: seq<SourceStat>)
}
