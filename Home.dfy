/** The home feed: a category tab ("all", "crops", "livestock") and a free-text box
    that narrow the collection. */
module Home {
  import opened Types
  import Wrappers
  import Seqs
  import Text

  /** The category tab; `All` is the wildcard. */
  datatype CategoryFilter = All | Only(category: Category)

  predicate MatchesCategory(p: Product, filter: CategoryFilter) {
    filter.All? || p.category == filter.category
  }

  /** Case-insensitive containment of the query in the name, the location or the subcategory. */
  predicate MatchesSearch(p: Product, query: string) {
    Text.IncludesIgnoringCase(p.name, query)
    || Text.IncludesIgnoringCase(p.location, query)
    || Text.IncludesIgnoringCase(p.subcategory, query)
  }

  predicate Keep(p: Product, filter: CategoryFilter, query: string) {
    MatchesCategory(p, filter) && MatchesSearch(p, query)
  }

  /** `filteredProducts`: the listings that pass both tests, in collection order. */
  function FilteredProducts(ps: seq<Product>, filter: CategoryFilter, query: string): (r: seq<Product>)
    ensures |r| <= |ps|
    ensures forall p :: p in r <==> p in ps && MatchesCategory(p, filter) && MatchesSearch(p, query)
    ensures forall p :: multiset(r)[p] == if Keep(p, filter, query) then multiset(ps)[p] else 0
  {
    var keep := (p: Product) => Keep(p, filter, query);
    assert forall p :: multiset(Seqs.Filter(ps, keep))[p] == if keep(p) then multiset(ps)[p] else 0 by {
      forall p { Seqs.FilterCounts(ps, keep, p); }
    }
    Seqs.Filter(ps, keep)
  }

  /** The `all` tab lets every listing through the category test. */
  lemma AllTabAdmitsEverything(p: Product)
    ensures MatchesCategory(p, All)
  {
  }

  /** A category tab admits exactly the listings of that category; in particular
      `crops` never shows livestock. */
  lemma CategoryTabExact(p: Product, c: Category)
    ensures MatchesCategory(p, Only(c)) <==> p.category == c
  {
  }

  /** An empty search box matches every listing. */
  lemma EmptyQueryMatches(p: Product)
    ensures MatchesSearch(p, "")
  {
    Text.IncludesEmpty(Text.ToLower(p.name));
  }

  /** With the `all` tab and an empty search box the feed is the whole collection. */
  lemma {:induction false} UnfilteredFeed(ps: seq<Product>)
    ensures FilteredProducts(ps, All, "") == ps
  {
    forall i | 0 <= i < |ps|
      ensures Keep(ps[i], All, "")
    {
      EmptyQueryMatches(ps[i]);
    }
    Seqs.FilterKeepsAll(ps, (p: Product) => Keep(p, All, ""));
  }

  /** The query's letter case does not matter. */
  lemma QueryCaseIrrelevant(p: Product, query: string)
    ensures MatchesSearch(p, Text.ToLower(query)) == MatchesSearch(p, query)
  {
    Text.IgnoringCaseStable(p.name, query);
    Text.IgnoringCaseStable(p.location, query);
    Text.IgnoringCaseStable(p.subcategory, query);
  }

  /** The feed keeps the collection's order, and filtering the feed again changes nothing. */
  lemma FeedOrderAndIdempotence(ps: seq<Product>, filter: CategoryFilter, query: string)
    ensures Seqs.IsSubsequence(FilteredProducts(ps, filter, query), ps)
    ensures FilteredProducts(FilteredProducts(ps, filter, query), filter, query)
         == FilteredProducts(ps, filter, query)
  {
    Seqs.FilterIsSubsequence(ps, (p: Product) => Keep(p, filter, query));
    Seqs.FilterIdempotent(ps, (p: Product) => Keep(p, filter, query));
  }

  /** A sample listing: a Maize lot called "Maize", offered in Burao. */
  function SampleListing(): Product {
    Product("sample", "Maize", Crops, "Maize", "500 kg", Wrappers.None,
            "Burao", Wrappers.None, [], "seller", "Seller", "+252 61 000 0000", 0)
  }

  /** "maize" finds the sample listing. */
  lemma SampleQueryMaize()
    ensures MatchesSearch(SampleListing(), "maize")
  {
    LowerMaize();
    Text.IncludesPrefix("maize", "maize");
  }

  /** "BURAO" finds the sample listing through its location. */
  lemma SampleQueryCity()
    ensures MatchesSearch(SampleListing(), "BURAO")
  {
    LowerBurao();
    Text.IncludesPrefix("burao", "burao");
  }

  /** "goat" does not find the sample listing: none of its fields holds a 'g'. */
  lemma SampleQueryGoat()
    ensures !MatchesSearch(SampleListing(), "goat")
  {
    LowerGoat();
    LowerMaize();
    LowerBurao();
    LacksChar("Maize", "maize", "goat", "goat", 'g');
    LacksChar("Burao", "burao", "goat", "goat", 'g');
  }

  /** A field whose lowered form lacks a character of the lowered query does not match it. */
  lemma LacksChar(s: string, lower: string, query: string, lowerQuery: string, c: char)
    requires Text.ToLower(s) == lower && Text.ToLower(query) == lowerQuery
    requires c in lowerQuery && c !in lower
    ensures !Text.IncludesIgnoringCase(s, query)
  {
    Text.IncludesNeedsChars(lower, lowerQuery, c);
  }

  lemma LowerLiteral(s: string, t: string)
    requires |s| == |t| && forall i :: 0 <= i < |s| ==> Text.LowerChar(s[i]) == t[i]
    ensures Text.ToLower(s) == t
  {
  }

  lemma LowerMaize()
    ensures Text.ToLower("Maize") == "maize" && Text.ToLower("maize") == "maize"
  {
    LowerLiteral("Maize", "maize");
    LowerLiteral("maize", "maize");
  }

  lemma LowerBurao()
    ensures Text.ToLower("Burao") == "burao" && Text.ToLower("BURAO") == "burao"
  {
    LowerLiteral("Burao", "burao");
    LowerLiteral("BURAO", "burao");
  }

  lemma LowerGoat()
    ensures Text.ToLower("goat") == "goat"
  {
    LowerLiteral("goat", "goat");
  }
}
