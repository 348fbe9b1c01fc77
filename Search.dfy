/** The search page: a text box over name and subcategory, and two chip rows
    (city, subcategory) where pressing the selected chip clears it. */
module Search {
  import opened Types
  import Seqs
  import Text
  import Home

  /** The subcategory chips: the crop kinds followed by the livestock kinds. */
  function AllSubcategories(): (r: seq<string>)
    ensures |r| == 9 && Distinct(r)
    ensures r[..5] == Subcategories(Crops) && r[5..] == Subcategories(Livestock)
    ensures forall s :: s in r <==> CategoryOfSubcategory(s) != Wrappers.None
  {
    var r := Subcategories(Crops) + Subcategories(Livestock);
    assert r[..5] == Subcategories(Crops) && r[5..] == Subcategories(Livestock);
    r
  }

  /** An empty box matches everything; otherwise the query must occur, ignoring case,
      in the name or the subcategory. The location is not searched here. */
  predicate MatchesSearch(p: Product, query: string) {
    query == ""
    || Text.IncludesIgnoringCase(p.name, query)
    || Text.IncludesIgnoringCase(p.subcategory, query)
  }

  /** `''` selects no city; otherwise the city must be exactly the selected one. */
  predicate MatchesLocation(p: Product, location: string) {
    location == "" || p.location == location
  }

  /** `''` selects no subcategory; otherwise the subcategory must be exactly the selected one. */
  predicate MatchesSubcategory(p: Product, subcategory: string) {
    subcategory == "" || p.subcategory == subcategory
  }

  predicate Keep(p: Product, query: string, location: string, subcategory: string) {
    MatchesSearch(p, query) && MatchesLocation(p, location) && MatchesSubcategory(p, subcategory)
  }

  /** `filteredProducts` of the search page, in collection order. */
  function FilteredProducts(ps: seq<Product>, query: string, location: string, subcategory: string)
    : (r: seq<Product>)
    ensures |r| <= |ps|
    ensures forall p :: p in r <==>
      p in ps && MatchesSearch(p, query) && MatchesLocation(p, location)
      && MatchesSubcategory(p, subcategory)
    ensures forall p :: multiset(r)[p] == if Keep(p, query, location, subcategory) then multiset(ps)[p] else 0
  {
    var keep := (p: Product) => Keep(p, query, location, subcategory);
    assert forall p :: multiset(Seqs.Filter(ps, keep))[p] == if keep(p) then multiset(ps)[p] else 0 by {
      forall p { Seqs.FilterCounts(ps, keep, p); }
    }
    Seqs.Filter(ps, keep)
  }

  /** With nothing typed and no chip selected, every listing is shown, in order. */
  lemma {:induction false} NoFiltersShowsAll(ps: seq<Product>)
    ensures FilteredProducts(ps, "", "", "") == ps
  {
    Seqs.FilterKeepsAll(ps, (p: Product) => Keep(p, "", "", ""));
  }

  /** A selected city or subcategory admits exactly the listings equal to it. */
  lemma ChipFiltersExact(p: Product, location: string, subcategory: string)
    requires location != "" && subcategory != ""
    ensures MatchesLocation(p, location) <==> p.location == location
    ensures MatchesSubcategory(p, subcategory) <==> p.subcategory == subcategory
  {
  }

  /** A hit in the location alone is not a match on this page. */
  lemma LocationNotSearched(p: Product, query: string)
    requires query != ""
    requires !Text.IncludesIgnoringCase(p.name, query)
    requires !Text.IncludesIgnoringCase(p.subcategory, query)
    ensures !MatchesSearch(p, query)
  {
  }

  /** The sample Maize lot from Burao: the home feed finds it under "BURAO",
      the search page does not. */
  lemma HomeAndSearchDiffer()
    ensures Home.MatchesSearch(Home.SampleListing(), "BURAO")
    ensures !MatchesSearch(Home.SampleListing(), "BURAO")
  {
    Home.SampleQueryCity();
    Home.LowerMaize();
    Home.LowerBurao();
    Home.LacksChar("Maize", "maize", "BURAO", "burao", 'b');
  }

  /** The results keep the collection's order, and filtering them again changes nothing. */
  lemma ResultsOrderAndIdempotence(ps: seq<Product>, query: string, location: string, subcategory: string)
    ensures Seqs.IsSubsequence(FilteredProducts(ps, query, location, subcategory), ps)
    ensures FilteredProducts(FilteredProducts(ps, query, location, subcategory), query, location, subcategory)
         == FilteredProducts(ps, query, location, subcategory)
  {
    Seqs.FilterIsSubsequence(ps, (p: Product) => Keep(p, query, location, subcategory));
    Seqs.FilterIdempotent(ps, (p: Product) => Keep(p, query, location, subcategory));
  }

  /** A chip press: pressing the selected chip clears the selection, any other chip replaces it. */
  function Toggle(current: string, choice: string): string {
    if current == choice then "" else choice
  }

  /** After a press on a chip, that chip is selected exactly when it was not selected before,
      and no third value is ever selected. */
  lemma ToggleFlips(current: string, choice: string)
    requires choice != ""
    ensures Toggle(current, choice) == choice <==> current != choice
    ensures Toggle(current, choice) == "" || Toggle(current, choice) == choice
  {
  }

  /** The filter dot and the "Clear all" link appear when a chip is selected. */
  predicate HasActiveFilters(location: string, subcategory: string) {
    location != "" || subcategory != ""
  }

  /** When no chip is selected, only the text box narrows the results. */
  lemma InactiveFiltersAdmitAll(p: Product, location: string, subcategory: string)
    requires !HasActiveFilters(location, subcategory)
    ensures MatchesLocation(p, location) && MatchesSubcategory(p, subcategory)
  {
  }

  /** The results caption, "<n> product found" or "<n> products found": the count in
      decimal, and the plural ending dropped exactly for one result. */
  function ResultsLabel(n: nat): (r: string)
    ensures |r| >= |Text.NatToString(n)| + 14
    ensures r[..|Text.NatToString(n)|] == Text.NatToString(n)
    ensures r[|r| - 6..] == " found"
    ensures r[|r| - 7] == 's' <==> n != 1
  {
    Text.NatToString(n) + " product" + (if n != 1 then "s" else "") + " found"
  }

  /** The page's state variables. */
  class SearchPage {
    var searchQuery: string
    var selectedLocation: string
    var selectedSubcategory: string
    var showFilters: bool

    constructor ()
      ensures searchQuery == "" && selectedLocation == "" && selectedSubcategory == ""
      ensures !showFilters
    {
      searchQuery, selectedLocation, selectedSubcategory := "", "", "";
      showFilters := false;
    }

    method SetSearchQuery(query: string)
      modifies this
      ensures searchQuery == query
      ensures selectedLocation == old(selectedLocation)
      ensures selectedSubcategory == old(selectedSubcategory)
      ensures showFilters == old(showFilters)
    {
      searchQuery := query;
    }

    method ToggleShowFilters()
      modifies this
      ensures showFilters == !old(showFilters)
      ensures searchQuery == old(searchQuery)
      ensures selectedLocation == old(selectedLocation)
      ensures selectedSubcategory == old(selectedSubcategory)
    {
      showFilters := !showFilters;
    }

    /** A press on a city chip. */
    method SelectLocation(location: string)
      modifies this
      ensures selectedLocation == Toggle(old(selectedLocation), location)
      ensures searchQuery == old(searchQuery)
      ensures selectedSubcategory == old(selectedSubcategory)
      ensures showFilters == old(showFilters)
    {
      selectedLocation := if selectedLocation == location then "" else location;
    }

    /** A press on a subcategory chip. */
    method SelectSubcategory(subcategory: string)
      modifies this
      ensures selectedSubcategory == Toggle(old(selectedSubcategory), subcategory)
      ensures searchQuery == old(searchQuery)
      ensures selectedLocation == old(selectedLocation)
      ensures showFilters == old(showFilters)
    {
      selectedSubcategory := if selectedSubcategory == subcategory then "" else subcategory;
    }

    /** "Clear all": both chip rows are cleared, the text box is kept. */
    method ClearFilters()
      modifies this
      ensures selectedLocation == "" && selectedSubcategory == ""
      ensures !HasActiveFilters(selectedLocation, selectedSubcategory)
      ensures searchQuery == old(searchQuery)
      ensures showFilters == old(showFilters)
    {
      selectedLocation := "";
      selectedSubcategory := "";
    }

    function Results(ps: seq<Product>): seq<Product>
      reads this
    {
      FilteredProducts(ps, searchQuery, selectedLocation, selectedSubcategory)
    }
  }
}
