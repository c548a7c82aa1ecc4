/**
  The sort at the end of `aggregateMentions` (src/scrapers.ts): `Array.prototype.sort` with the comparator
  `(a, b) => b.engagement - a.engagement`. The sort of the language is stable, so records of equal engagement
  keep their relative order; here it is an insertion sort on sequences.
 */
module Ranking {
  import opened Mentions

  /** Engagement never increases from left to right. */
  predicate SortedByEngagement(s: seq<CoinMention>) {
    forall i, j :: 0 <= i < j < |s| ==> s[i].engagement >= s[j].engagement
  }

  /** The records of `s` whose engagement is `e`, in their order in `s`. */
  function WithEngagement(s: seq<CoinMention>, e: int): seq<CoinMention>
    decreases |s|
  {
    if s == [] then []
    else (if s[0].engagement == e then [s[0]] else []) + WithEngagement(s[1..], e)
  }

  /** `r` moves records of `s` only past records of another engagement: every tie class keeps its order. */
  ghost predicate StableReorder(s: seq<CoinMention>, r: seq<CoinMention>) {
    forall e :: WithEngagement(r, e) == WithEngagement(s, e)
  }

  /** Filtering a record in front of a sequence. */
  lemma WithEngagementCons(x: CoinMention, s: seq<CoinMention>, e: int)
    ensures WithEngagement([x] + s, e) == (if x.engagement == e then [x] else []) + WithEngagement(s, e)
  {
    assert ([x] + s)[1..] == s;
  }

  /**
    Inserts `x` in front of the first record whose engagement is not above its own, so that it stays
    ahead of the records it tied with.
   */
  function Insert(x: CoinMention, s: seq<CoinMention>): (r: seq<CoinMention>)
    ensures |r| == |s| + 1
    ensures multiset(r) == multiset(s) + multiset{x}
    decreases |s|
  {
    if s == [] || x.engagement >= s[0].engagement then [x] + s
    else
      assert s == [s[0]] + s[1..];
      [s[0]] + Insert(x, s[1..])
  }

  lemma {:induction false} InsertKeepsSorted(x: CoinMention, s: seq<CoinMention>)
    requires SortedByEngagement(s)
    ensures SortedByEngagement(Insert(x, s))
    decreases |s|
  {
    if s != [] && x.engagement < s[0].engagement {
      var rest := Insert(x, s[1..]);
      InsertKeepsSorted(x, s[1..]);
      forall y | y in rest ensures y.engagement <= s[0].engagement {
        assert y in multiset(rest);
        assert y == x || y in multiset(s[1..]);
      }
      assert Insert(x, s) == [s[0]] + rest;
    }
  }

  lemma {:induction false} InsertIsStable(x: CoinMention, s: seq<CoinMention>, e: int)
    ensures WithEngagement(Insert(x, s), e) == WithEngagement([x] + s, e)
    decreases |s|
  {
    if s != [] && x.engagement < s[0].engagement {
      InsertIsStable(x, s[1..], e);
      InsertPastHead(x, s, e);
    }
  }

  /**
    The step of `InsertIsStable` where `x` moves past a head of higher engagement: the two never share a
    tie class, so swapping them changes no tie class.
   */
  lemma InsertPastHead(x: CoinMention, s: seq<CoinMention>, e: int)
    requires s != [] && x.engagement < s[0].engagement
    requires WithEngagement(Insert(x, s[1..]), e) == WithEngagement([x] + s[1..], e)
    ensures WithEngagement(Insert(x, s), e) == WithEngagement([x] + s, e)
  {
    assert Insert(x, s) == [s[0]] + Insert(x, s[1..]);
    ConsKeepsTieClass(s[0], Insert(x, s[1..]), [x] + s[1..], e);
    SwapKeepsTieClass(s[0], x, s[1..], e);
    assert [x] + s == [x] + ([s[0]] + s[1..]);
  }

  /** Putting the same record in front of two sequences with equal tie classes keeps them equal. */
  lemma ConsKeepsTieClass(y: CoinMention, a: seq<CoinMention>, b: seq<CoinMention>, e: int)
    requires WithEngagement(a, e) == WithEngagement(b, e)
    ensures WithEngagement([y] + a, e) == WithEngagement([y] + b, e)
  {
    WithEngagementCons(y, a, e);
    WithEngagementCons(y, b, e);
  }

  /** Swapping two neighbours of different engagement changes no tie class. */
  lemma SwapKeepsTieClass(a: CoinMention, b: CoinMention, t: seq<CoinMention>, e: int)
    requires a.engagement != b.engagement
    ensures WithEngagement([a] + ([b] + t), e) == WithEngagement([b] + ([a] + t), e)
  {
    WithEngagementCons(a, [b] + t, e);
    WithEngagementCons(b, t, e);
    WithEngagementCons(b, [a] + t, e);
    WithEngagementCons(a, t, e);
  }

  /** The stable sort by non-increasing engagement. */
  function SortByEngagement(s: seq<CoinMention>): (r: seq<CoinMention>)
    ensures |r| == |s| && multiset(r) == multiset(s)
    ensures SortedByEngagement(r)
    ensures StableReorder(s, r)
    decreases |s|
  {
    if s == [] then []
    else
      var rest := SortByEngagement(s[1..]);
      InsertKeepsSorted(s[0], rest);
      assert StableReorder(s, Insert(s[0], rest)) by {
        forall e ensures WithEngagement(Insert(s[0], rest), e) == WithEngagement(s, e) {
          InsertIsStable(s[0], rest, e);
          WithEngagementCons(s[0], rest, e);
          assert s == [s[0]] + s[1..];
          WithEngagementCons(s[0], s[1..], e);
        }
      }
      assert s == [s[0]] + s[1..];
      Insert(s[0], rest)
  }

  lemma {:induction false} WithEngagementMembers(s: seq<CoinMention>, e: int, y: CoinMention)
    ensures y in WithEngagement(s, e) <==> y in s && y.engagement == e
    decreases |s|
  {
    if s != [] {
      WithEngagementMembers(s[1..], e, y);
      assert s == [s[0]] + s[1..];
      WithEngagementCons(s[0], s[1..], e);
    }
  }

  /** The first record of a sorted sequence has the highest engagement. */
  lemma HeadIsMaximal(a: seq<CoinMention>, y: CoinMention)
    requires SortedByEngagement(a) && a != [] && y in a
    ensures y.engagement <= a[0].engagement
  {
    var k :| 0 <= k < |a| && a[k] == y;
    if k > 0 {
      assert a[0].engagement >= a[k].engagement;
    }
  }

  /** Sorted sequences with the same tie classes start with the same record. */
  lemma SameHead(a: seq<CoinMention>, b: seq<CoinMention>)
    requires SortedByEngagement(a) && SortedByEngagement(b) && a != [] && b != []
    requires WithEngagement(a, a[0].engagement) == WithEngagement(b, a[0].engagement)
    requires WithEngagement(a, b[0].engagement) == WithEngagement(b, b[0].engagement)
    ensures a[0] == b[0]
  {
    var a0, b0 := a[0], b[0];
    WithEngagementMembers(a, a0.engagement, a0);
    WithEngagementMembers(b, a0.engagement, a0);
    HeadIsMaximal(b, a0);
    WithEngagementMembers(b, b0.engagement, b0);
    WithEngagementMembers(a, b0.engagement, b0);
    HeadIsMaximal(a, b0);
    assert a == [a0] + a[1..];
    assert b == [b0] + b[1..];
    WithEngagementCons(a0, a[1..], a0.engagement);
    WithEngagementCons(b0, b[1..], a0.engagement);
    assert WithEngagement(a, a0.engagement)[0] == a0;
  }

  /** Dropping a common first record keeps the tie classes equal. */
  lemma SameTail(a: seq<CoinMention>, b: seq<CoinMention>, e: int)
    requires a != [] && b != [] && a[0] == b[0]
    requires WithEngagement(a, e) == WithEngagement(b, e)
    ensures WithEngagement(a[1..], e) == WithEngagement(b[1..], e)
  {
    assert a == [a[0]] + a[1..];
    assert b == [b[0]] + b[1..];
    WithEngagementCons(a[0], a[1..], e);
    WithEngagementCons(b[0], b[1..], e);
    var h := if a[0].engagement == e then [a[0]] else [];
    assert (h + WithEngagement(a[1..], e))[|h|..] == WithEngagement(a[1..], e);
    assert (h + WithEngagement(b[1..], e))[|h|..] == WithEngagement(b[1..], e);
  }

  /** A sequence whose every tie class is empty is empty. */
  lemma NoTieClasses(a: seq<CoinMention>)
    requires forall e :: WithEngagement(a, e) == []
    ensures a == []
  {
    if a != [] {
      WithEngagementMembers(a, a[0].engagement, a[0]);
      assert false;
    }
  }

  /** Two sorted sequences with the same tie classes, in the same orders, are equal. */
  lemma {:induction false} SortedTieClassesDetermine(a: seq<CoinMention>, b: seq<CoinMention>)
    requires SortedByEngagement(a) && SortedByEngagement(b)
    requires forall e :: WithEngagement(a, e) == WithEngagement(b, e)
    ensures a == b
    decreases |a| + |b|
  {
    if a == [] {
      NoTieClasses(b);
    } else if b == [] {
      NoTieClasses(a);
    } else {
      SameHead(a, b);
      forall e ensures WithEngagement(a[1..], e) == WithEngagement(b[1..], e) {
        SameTail(a, b, e);
      }
      SortedTieClassesDetermine(a[1..], b[1..]);
      assert a == [a[0]] + a[1..];
      assert b == [b[0]] + b[1..];
    }
  }

  /**
    The contract of the sort pins its result down: the only sorted stable reorder of `s` is the one
    `SortByEngagement` returns.
   */
  lemma SortIsUnique(s: seq<CoinMention>, r: seq<CoinMention>)
    requires SortedByEngagement(r) && StableReorder(s, r)
    ensures r == SortByEngagement(s)
  {
    var t := SortByEngagement(s);
    SortedTieClassesDetermine(r, t);
  }
}
