/**
 * The per-product tests shared by the search results page and the buyers' product
 * listings: the category selects (industry, age), whose "All Industries" / "Any Age"
 * entries pass everything, and the free-text box, which looks for the text
 * case-insensitively in the headline or the description.
 */
module ProductFilters {
  import opened Seqs
  import opened Text
  import opened Schema

  /** `industry === 'All Industries' || product.industry === industry` */
  predicate IndustryMatches(industry: string, p: Product)
  {
    industry == "All Industries" || p.fields.industry == industry
  }

  /** `age === 'Any Age' || product.age === age` */
  predicate AgeMatches(age: string, p: Product)
  {
    age == "Any Age" || p.fields.age == age
  }

  /** An empty text passes; otherwise the lower-cased text occurs in the lower-cased headline or description. */
  predicate TextMatches(text: string, p: Product)
  {
    || text == ""
    || Contains(Lower(p.fields.headline), Lower(text))
    || Contains(Lower(p.fields.description), Lower(text))
  }

  /** The category selects and the text box together. */
  predicate ListingMatches(text: string, industry: string, age: string, p: Product)
  {
    TextMatches(text, p) && IndustryMatches(industry, p) && AgeMatches(age, p)
  }

  function ListingFilter(text: string, industry: string, age: string): Product -> bool
  {
    p => ListingMatches(text, industry, age, p)
  }

  /** The filter keeps, in order, exactly the products passing the test. */
  lemma ListingFilterExact(products: seq<Product>, text: string, industry: string, age: string)
    ensures IsSubsequence(Filter(products, ListingFilter(text, industry, age)), products)
    ensures forall p :: p in Filter(products, ListingFilter(text, industry, age)) <==>
      p in products && ListingMatches(text, industry, age, p)
  {
    FilterIsSubsequence(products, ListingFilter(text, industry, age));
    FilterMultiset(products, ListingFilter(text, industry, age));
  }

  /** With an empty text and both selects on their "any" entry, the filter keeps everything. */
  lemma DefaultListingFilterKeepsAll(products: seq<Product>)
    ensures Filter(products, ListingFilter("", "All Industries", "Any Age")) == products
  {
    FilterKeepsAll(products, ListingFilter("", "All Industries", "Any Age"));
  }
}
