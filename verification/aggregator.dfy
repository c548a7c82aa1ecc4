/**
  `CoinScraper.aggregateMentions` (src/scrapers.ts): one categorized record per entry of the mention map,
  sorted by non-increasing engagement, ties in map order.
 */
module Aggregator {
  import opened Wrappers
  import opened Classifier
  import opened Mentions
  import opened Ranking
  import OrderedMap
  import Seqs

  /**
    The value stored under a symbol in the mention map. The map is typed `Map<string, any>`, so the
    `sources` field may be absent.
   */
  datatype Entry = Entry(mentions: int, engagement: int, sources: Option<seq<SourceStat>>)

  /** The record pushed for one map entry: fields copied, category added, absent sources made empty. */
  function Describe(symbol: string, e: Entry): CoinMention {
    CoinMention(symbol, e.mentions, e.engagement, Categorize(symbol), e.sources.GetOr([]))
  }

  /** The loop over `mentions.entries()`, before sorting. */
  function Records(entries: seq<(string, Entry)>): (r: seq<CoinMention>)
    ensures |r| == |entries|
    ensures forall i :: 0 <= i < |entries| ==>
      && r[i].symbol == entries[i].0
      && r[i].mentions == entries[i].1.mentions
      && r[i].engagement == entries[i].1.engagement
      && r[i].category == Categorize(entries[i].0)
      && r[i].sources == entries[i].1.sources.GetOr([])
  {
    seq(|entries|, i requires 0 <= i < |entries| => Describe(entries[i].0, entries[i].1))
  }

  /** `aggregateMentions(mentions)`. */
  function AggregateMentions(entries: seq<(string, Entry)>): (r: seq<CoinMention>)
    ensures |r| == |entries|
    ensures multiset(r) == multiset(Records(entries))
    ensures SortedByEngagement(r)
    ensures StableReorder(Records(entries), r)
  {
    SortByEngagement(Records(entries))
  }

  /** Each map entry appears in the result with its fields copied, its category and its sources. */
  lemma AggregateKeepsEntry(entries: seq<(string, Entry)>, i: nat)
    requires i < |entries|
    ensures exists j :: 0 <= j < |entries| && AggregateMentions(entries)[j] == Describe(entries[i].0, entries[i].1)
  {
    var r := AggregateMentions(entries);
    var d := Records(entries)[i];
    assert d in multiset(Records(entries));
    assert d in multiset(r);
    assert d in r;
  }

  /** Every record of the result comes from a map entry. */
  lemma AggregateOnlyEntries(entries: seq<(string, Entry)>, m: CoinMention)
    requires m in AggregateMentions(entries)
    ensures exists i :: 0 <= i < |entries| && m == Describe(entries[i].0, entries[i].1)
  {
    assert m in multiset(AggregateMentions(entries));
    assert m in Records(entries);
  }

  /** The fields of a described record, as `aggregateMentions` fills them in. */
  lemma DescribeFields(symbol: string, e: Entry)
    ensures Describe(symbol, e).symbol == symbol
    ensures Describe(symbol, e).mentions == e.mentions && Describe(symbol, e).engagement == e.engagement
    ensures Describe(symbol, e).category == Categorize(symbol)
    ensures e.sources.None? ==> Describe(symbol, e).sources == []
    ensures e.sources.Some? ==> Describe(symbol, e).sources == e.sources.value
  {
  }

  /** The result is the one sorted, tie-stable arrangement of the records. */
  lemma AggregateIsTheStableSort(entries: seq<(string, Entry)>, r: seq<CoinMention>)
    requires SortedByEngagement(r) && StableReorder(Records(entries), r)
    ensures r == AggregateMentions(entries)
  {
    SortIsUnique(Records(entries), r);
  }

  /** An empty map gives an empty ranking. */
  lemma AggregateEmpty()
    ensures AggregateMentions([]) == []
  {
  }

  /** The symbols of a ranking, in ranking order. */
  function Symbols(r: seq<CoinMention>): seq<string> {
    seq(|r|, j requires 0 <= j < |r| => r[j].symbol)
  }

  /** The records carry the map's keys, in map order. */
  lemma RecordsKeepKeys(entries: seq<(string, Entry)>)
    ensures Symbols(Records(entries)) == OrderedMap.Keys(entries)
  {
    forall i | 0 <= i < |entries| ensures Symbols(Records(entries))[i] == OrderedMap.Keys(entries)[i] {
      OrderedMap.KeysAt(entries, i);
    }
  }

  lemma {:induction false} DistinctCountsOnce<T>(s: seq<T>, x: T)
    requires Seqs.NoDuplicates(s)
    ensures multiset(s)[x] <= 1
    decreases |s|
  {
    if s != [] {
      assert s == [s[0]] + s[1..];
      DistinctCountsOnce(s[1..], x);
      if s[0] == x {
        assert x !in s[1..];
      }
    }
  }

  lemma {:induction false} RepeatCountsTwice<T>(s: seq<T>, a: nat, b: nat)
    requires a < b < |s| && s[a] == s[b]
    ensures multiset(s)[s[a]] >= 2
    decreases |s|
  {
    if a == 0 {
      assert s == [s[0]] + s[1..];
      assert s[b] in s[1..];
    } else {
      assert s == [s[0]] + s[1..];
      RepeatCountsTwice(s[1..], a - 1, b - 1);
    }
  }

  /** Distinct keys make distinct records. */
  lemma RecordsDistinct(entries: seq<(string, Entry)>)
    requires OrderedMap.UniqueKeys(entries)
    ensures Seqs.NoDuplicates(Records(entries))
  {
    var recs := Records(entries);
    forall a, b | 0 <= a < b < |recs| ensures recs[a] != recs[b] {
      OrderedMap.KeysAt(entries, a);
      OrderedMap.KeysAt(entries, b);
    }
  }

  /** Two ranked records with one symbol would be two map entries with one key. */
  lemma RankedSymbolsDistinct(entries: seq<(string, Entry)>, a: nat, b: nat)
    requires OrderedMap.UniqueKeys(entries)
    requires a < b < |AggregateMentions(entries)|
    ensures AggregateMentions(entries)[a].symbol != AggregateMentions(entries)[b].symbol
  {
    var r := AggregateMentions(entries);
    var recs := Records(entries);
    if r[a].symbol == r[b].symbol {
      AggregateOnlyEntries(entries, r[a]);
      AggregateOnlyEntries(entries, r[b]);
      var ia :| 0 <= ia < |entries| && r[a] == Describe(entries[ia].0, entries[ia].1);
      var ib :| 0 <= ib < |entries| && r[b] == Describe(entries[ib].0, entries[ib].1);
      assert r[a] == r[b] by {
        OrderedMap.KeysAt(entries, ia);
        OrderedMap.KeysAt(entries, ib);
      }
      RepeatCountsTwice(r, a, b);
      RecordsDistinct(entries);
      DistinctCountsOnce(recs, r[a]);
      assert false;
    }
  }

  /**
    With the keys of a `Map` (which never repeat), the ranking holds exactly one record per symbol:
    every key has a record and no symbol is ranked twice.
   */
  lemma AggregateOneRecordPerKey(entries: seq<(string, Entry)>)
    requires OrderedMap.UniqueKeys(entries)
    ensures Seqs.NoDuplicates(Symbols(AggregateMentions(entries)))
    ensures forall i :: 0 <= i < |entries| ==> entries[i].0 in Symbols(AggregateMentions(entries))
  {
    var r := AggregateMentions(entries);
    forall a, b | 0 <= a < b < |r| ensures Symbols(r)[a] != Symbols(r)[b] {
      RankedSymbolsDistinct(entries, a, b);
    }
    forall i | 0 <= i < |entries| ensures entries[i].0 in Symbols(r) {
      AggregateKeepsEntry(entries, i);
      var j :| 0 <= j < |entries| && r[j] == Describe(entries[i].0, entries[i].1);
      assert Symbols(r)[j] == entries[i].0;
    }
  }
}
