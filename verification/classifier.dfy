/**
  `CoinScraper.categorizeCoin` (src/scrapers.ts): a symbol loses its first `$`, is upper-cased and is looked
  up in two fixed lists, the major coins first.
 */
module Classifier {
  import opened Text
  import Detector

  datatype Category = Major | Memecoin | Unknown

  const MajorCoins: seq<string> := ["BTC", "ETH", "SOL", "BNB", "ADA", "AVAX", "MATIC", "DOT"]

  const Memecoins: seq<string> := ["DOGE", "SHIB", "PEPE", "BONK", "WIF", "FLOKI", "ELON", "SAMO"]

  /** Index of the first `c` in `s`, or `|s|` when `s` has none. */
  function IndexOf(s: string, c: char): (i: nat)
    ensures i <= |s|
    ensures i < |s| ==> s[i] == c
    ensures forall j :: 0 <= j < i ==> s[j] != c
    decreases |s|
  {
    if s == [] then 0
    else if s[0] == c then 0
    else 1 + IndexOf(s[1..], c)
  }

  /**
    `s.replace(c, '')` with a one-character string pattern: only the first occurrence of `c` is removed,
    wherever it is, and a string without `c` comes back unchanged.
   */
  function RemoveFirst(s: string, c: char): string
    decreases |s|
  {
    if s == [] then []
    else if s[0] == c then s[1..]
    else [s[0]] + RemoveFirst(s[1..], c)
  }

  /** `RemoveFirst` cuts out exactly the character at the first index of `c`. */
  lemma {:induction false} RemoveFirstCutsFirstIndex(s: string, c: char)
    ensures var i := IndexOf(s, c); RemoveFirst(s, c) == if i == |s| then s else s[..i] + s[i + 1..]
    decreases |s|
  {
    if s != [] && s[0] != c {
      RemoveFirstCutsFirstIndex(s[1..], c);
      var i := IndexOf(s[1..], c);
      if i < |s[1..]| {
        assert [s[0]] + (s[1..][..i] + s[1..][i + 1..]) == s[..i + 1] + s[i + 2..];
      } else {
        assert [s[0]] + s[1..] == s;
      }
    }
  }

  /** The symbol as it is looked up: first `$` removed, then upper-cased. */
  function Clean(symbol: string): string {
    ToUpper(RemoveFirst(symbol, '$'))
  }

  /** The two membership tests, the major list first. */
  function Lookup(clean: string): (r: Category)
    ensures r == Major <==> clean in MajorCoins
    ensures r == Memecoin <==> clean !in MajorCoins && clean in Memecoins
    ensures r == Unknown <==> clean !in MajorCoins && clean !in Memecoins
  {
    if clean in MajorCoins then Major
    else if clean in Memecoins then Memecoin
    else Unknown
  }

  /** `categorizeCoin(symbol)`. */
  function Categorize(symbol: string): Category {
    Lookup(Clean(symbol))
  }

  /** No symbol is on both lists, so the order of the two tests never decides a category. */
  lemma ListsAreDisjoint(s: string)
    ensures !(s in MajorCoins && s in Memecoins)
  {
  }

  lemma {:induction false} RemoveFirstCommutesWithUpper(s: string)
    ensures RemoveFirst(ToUpper(s), '$') == ToUpper(RemoveFirst(s, '$'))
    decreases |s|
  {
    if s != [] {
      RemoveFirstCommutesWithUpper(s[1..]);
      assert ToUpper(s)[1..] == ToUpper(s[1..]);
    }
  }

  lemma {:induction false} RemoveFirstCommutesWithLower(s: string)
    ensures RemoveFirst(ToLower(s), '$') == ToLower(RemoveFirst(s, '$'))
    decreases |s|
  {
    if s != [] {
      RemoveFirstCommutesWithLower(s[1..]);
      assert ToLower(s)[1..] == ToLower(s[1..]);
    }
  }

  /** The category does not depend on letter case. */
  lemma {:induction false} CategorizeIgnoresCase(symbol: string)
    ensures Categorize(ToUpper(symbol)) == Categorize(symbol)
    ensures Categorize(ToLower(symbol)) == Categorize(symbol)
  {
    RemoveFirstCommutesWithUpper(symbol);
    RemoveFirstCommutesWithLower(symbol);
    UpperAbsorbsCaseMaps(RemoveFirst(symbol, '$'));
  }

  /** A leading `$` is optional: it is the one that gets removed when the rest has no `$`. */
  lemma CategorizeIgnoresMarker(rest: string)
    requires '$' !in rest
    ensures Categorize("$" + rest) == Categorize(rest)
  {
    assert ("$" + rest)[1..] == rest;
    RemoveFirstCutsFirstIndex(rest, '$');
  }

  /** `X`, `$X`, `x` and `$x` all receive the same category. */
  lemma SameCategoryAnySpelling(x: string)
    requires '$' !in x
    ensures Categorize("$" + x) == Categorize(x)
    ensures Categorize(ToLower(x)) == Categorize(x)
    ensures Categorize("$" + ToLower(x)) == Categorize(x)
  {
    CategorizeIgnoresMarker(x);
    CategorizeIgnoresCase(x);
    assert '$' !in ToLower(x) by {
      forall j | 0 <= j < |x| ensures ToLower(x)[j] != '$' {
        CaseMapsAt(x, j);
      }
    }
    CategorizeIgnoresMarker(ToLower(x));
  }

  /** A symbol found by the detector is categorized by its letters alone. */
  lemma CategorizeDetected(t: string)
    requires Detector.IsTicker(t)
    ensures Categorize(t) == Lookup(t[1..])
  {
    var letters := t[1..];
    assert t == "$" + letters;
    assert forall j :: 0 <= j < |letters| ==> IsUpper(letters[j]) by {
      forall j | 0 <= j < |letters| ensures IsUpper(letters[j]) {
        assert letters[j] == t[j + 1];
      }
    }
    CategorizeIgnoresMarker(letters);
    RemoveFirstCutsFirstIndex(letters, '$');
    UpperFixesUpper(letters);
  }

  /** The spellings of a major coin. */
  lemma MajorExample()
    ensures Categorize("BTC") == Major && Categorize("$BTC") == Major && Categorize("btc") == Major
  {
    assert RemoveFirst("BTC", '$') == "BTC";
    assert RemoveFirst("$BTC", '$') == "BTC";
    assert RemoveFirst("btc", '$') == "btc";
    assert ToUpper("BTC") == "BTC";
    assert ToUpper("btc") == "BTC";
  }

  lemma MemecoinExample()
    ensures Categorize("$pepe") == Memecoin
  {
    assert RemoveFirst("$pepe", '$') == "pepe";
    assert ToUpper("pepe") == "PEPE";
    assert "PEPE" !in MajorCoins;
  }

  lemma UnknownExample()
    ensures Categorize("$ZZZZZ") == Unknown
  {
    assert RemoveFirst("$ZZZZZ", '$') == "ZZZZZ";
    assert ToUpper("ZZZZZ") == "ZZZZZ";
    assert "ZZZZZ" !in MajorCoins;
    assert "ZZZZZ" !in Memecoins;
  }

  /** Only the first `$` goes: a doubled marker leaves one behind and the symbol is not recognised. */
  lemma DoubledMarkerExample()
    ensures Clean("$$BTC") == "$BTC" && Categorize("$$BTC") == Unknown
  {
    assert RemoveFirst("$$BTC", '$') == "$BTC";
    assert ToUpper("$BTC") == "$BTC";
    assert "$BTC" !in MajorCoins;
    assert "$BTC" !in Memecoins;
  }
}
