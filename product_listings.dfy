/**
 * The buyers' product listings (client/src/components/buyers/ProductListings.tsx): a
 * natural-language search box whose search runs after a short delay, a quick-search box,
 * two category selects, and the list of products shown. The delayed step is a second
 * transition that receives the term and the products captured when the search was started.
 */
module Listings {
  import opened Wrappers
  import opened Seqs
  import opened Text
  import opened Schema
  import opened ProductFilters
  import opened NaturalLanguageSearch

  class ProductListings {
    var industry: string
    var age: string
    var nlSearchTerm: string
    var isSearching: bool
    var hasSearched: bool
    var searchExplanation: string
    var quickSearchTerm: string

    /** The initial state of the component. */
    constructor ()
      ensures industry == "All Industries" && age == "Any Age"
      ensures nlSearchTerm == "" && quickSearchTerm == "" && searchExplanation == ""
      ensures !isSearching && !hasSearched
    {
      industry := "All Industries";
      age := "Any Age";
      nlSearchTerm := "";
      isSearching := false;
      hasSearched := false;
      searchExplanation := "";
      quickSearchTerm := "";
    }

    /** Whether the list shows natural-language results: a search has completed and the box is not blank. */
    predicate ShowsSearchResults()
      reads this
    {
      hasSearched && Trim(nlSearchTerm) != ""
    }

    /**
     * handleNaturalLanguageSearch: a blank term does nothing; otherwise the component
     * shows that it is searching and schedules the delayed step with the current term.
     */
    method HandleNaturalLanguageSearch() returns (scheduled: Option<string>)
      modifies this
      ensures Trim(old(nlSearchTerm)) == "" ==> scheduled == None && isSearching == old(isSearching)
      ensures Trim(old(nlSearchTerm)) != "" ==> scheduled == Some(old(nlSearchTerm)) && isSearching
      ensures industry == old(industry) && age == old(age) && nlSearchTerm == old(nlSearchTerm)
      ensures hasSearched == old(hasSearched) && searchExplanation == old(searchExplanation)
      ensures quickSearchTerm == old(quickSearchTerm)
    {
      if Trim(nlSearchTerm) == "" {
        return None;
      }
      isSearching := true;
      scheduled := Some(nlSearchTerm);
    }

    /**
     * The delayed step of handleNaturalLanguageSearch, run with the term and the products
     * captured when the search started: searching ends, a search counts as done, and the
     * explanation describes the ranked results ("" for an empty term).
     */
    method CompleteNaturalLanguageSearch(term: string, products: seq<Product>)
      requires LiteralKeyTerms(term)
      modifies this
      ensures !isSearching && hasSearched
      ensures searchExplanation ==
        if term != "" then GenerateSearchExplanation(term, RankedProducts(products, term)) else ""
      ensures industry == old(industry) && age == old(age) && nlSearchTerm == old(nlSearchTerm)
      ensures quickSearchTerm == old(quickSearchTerm)
    {
      isSearching := false;
      hasSearched := true;
      if term != "" {
        var nlResults := NaturalLanguageSearch.NaturalLanguageSearch(products, term);
        var explanation := GenerateSearchExplanation(term, nlResults);
        searchExplanation := explanation;
      } else {
        searchExplanation := "";
      }
    }

    /** clearAllFilters: every box and select back to its initial value, and no search shown. */
    method ClearAllFilters()
      modifies this
      ensures nlSearchTerm == "" && quickSearchTerm == ""
      ensures industry == "All Industries" && age == "Any Age"
      ensures !hasSearched && searchExplanation == ""
      ensures isSearching == old(isSearching)
      ensures !ShowsSearchResults()
    {
      nlSearchTerm := "";
      quickSearchTerm := "";
      industry := "All Industries";
      age := "Any Age";
      hasSearched := false;
      searchExplanation := "";
    }

    /**
     * filteredProducts: nothing for no products; otherwise the ranked natural-language
     * results when a search is shown, else the products themselves, in both cases
     * narrowed, in order, to those passing the quick search and the two selects.
     */
    function FilteredProducts(products: seq<Product>): (r: seq<Product>)
      requires ShowsSearchResults() ==> LiteralKeyTerms(nlSearchTerm)
      reads this
      ensures products == [] ==> r == []
      ensures ShowsSearchResults() ==> IsSubsequence(r, RankedProducts(products, nlSearchTerm))
      ensures ShowsSearchResults() ==> forall p :: p in r <==>
        p in RankedProducts(products, nlSearchTerm) && ListingMatches(quickSearchTerm, industry, age, p)
      ensures !ShowsSearchResults() ==> IsSubsequence(r, products)
      ensures !ShowsSearchResults() ==> forall p :: p in r <==>
        p in products && ListingMatches(quickSearchTerm, industry, age, p)
    {
      if |products| == 0 then
        assert ShowsSearchResults() ==> RankedProducts(products, nlSearchTerm) == [] by {
          if ShowsSearchResults() {
            RankedProductsOfNothing(nlSearchTerm);
          }
        }
        []
      else
        var source := if ShowsSearchResults() then RankedProducts(products, nlSearchTerm) else products;
        ListingFilterExact(source, quickSearchTerm, industry, age);
        Filter(source, ListingFilter(quickSearchTerm, industry, age))
    }

    /**
     * With an empty quick search and both selects on their "any" entry, the list is the
     * ranked search results when a search is shown, and all products otherwise.
     */
    lemma DefaultFiltersShowSource(products: seq<Product>)
      requires quickSearchTerm == "" && industry == "All Industries" && age == "Any Age"
      requires ShowsSearchResults() ==> LiteralKeyTerms(nlSearchTerm)
      ensures FilteredProducts(products) ==
        if ShowsSearchResults() then RankedProducts(products, nlSearchTerm) else products
    {
      if |products| == 0 {
        if ShowsSearchResults() {
          RankedProductsOfNothing(nlSearchTerm);
        }
      } else {
        DefaultListingFilterKeepsAll(if ShowsSearchResults() then RankedProducts(products, nlSearchTerm) else products);
      }
    }
  }

  /** Ranking no products gives no products. */
  lemma RankedProductsOfNothing(query: string)
    requires LiteralKeyTerms(query)
    ensures RankedProducts([], query) == []
  {
    if Meaningful(query) {
      RankMembers([], ScoreOf(ExtractKeyTerms(query), DetectedIntents(query)));
    }
  }
}
