/**
 * The search results page (client/src/pages/SearchResultsPage.tsx): four filter fields
 * initialised from the URL, a change handler that sets one of them, and the list of
 * products that pass the text box, the two category selects and the revenue select.
 */
module SearchPage {
  import opened Wrappers
  import opened Seqs
  import opened Text
  import opened Schema
  import opened ProductFilters

  /** The four specific entries of the revenue select. */
  const RevenueBuckets: seq<string> := ["$0-50K ARR", "$50-250K ARR", "$250K-1M ARR", "$1M+ ARR"]

  /**
   * The revenue test: "Any Revenue" passes everything; a specific entry needs a non-empty
   * `arr` whose digits, read as one integer, fall in its range; any other value passes nothing.
   */
  predicate RevenueMatches(revenue: string, p: Product)
  {
    var arr := p.fields.arr;
    var value := ParseDigits(arr);
    || revenue == "Any Revenue"
    || (revenue == "$0-50K ARR" && arr != "" && NumberAtMost(value, 50000))
    || (revenue == "$50-250K ARR" && arr != "" && NumberAbove(value, 50000) && NumberAtMost(value, 250000))
    || (revenue == "$250K-1M ARR" && arr != "" && NumberAbove(value, 250000) && NumberAtMost(value, 1000000))
    || (revenue == "$1M+ ARR" && arr != "" && NumberAbove(value, 1000000))
  }

  function AdmittedBy(p: Product): string -> bool
  {
    revenue => RevenueMatches(revenue, p)
  }

  /** Whether a product is shown for the four filter values. */
  predicate PagePasses(searchQuery: string, industry: string, age: string, revenue: string, p: Product)
  {
    ListingMatches(searchQuery, industry, age, p) && RevenueMatches(revenue, p)
  }

  function PageFilter(searchQuery: string, industry: string, age: string, revenue: string): Product -> bool
  {
    p => PagePasses(searchQuery, industry, age, revenue, p)
  }

  /**
   * The specific revenue buckets partition the products with a number in `arr`: such a
   * product passes exactly one of them, and a product whose `arr` has no digit passes none.
   */
  lemma RevenueBucketsPartition(p: Product)
    ensures |Filter(RevenueBuckets, AdmittedBy(p))| == if ParseDigits(p.fields.arr).Some? then 1 else 0
  {
    var f, b := AdmittedBy(p), RevenueBuckets;
    assert b[..3] == ["$0-50K ARR", "$50-250K ARR", "$250K-1M ARR"];
    assert b[..3][..2] == ["$0-50K ARR", "$50-250K ARR"];
    assert b[..3][..2][..1] == ["$0-50K ARR"];
    assert b[..3][..2][..1][..0] == [];
    assert |Filter(b, f)| == |Filter(b[..3][..2][..1], f)| + (if f(b[1]) then 1 else 0) + (if f(b[2]) then 1 else 0) + (if f(b[3]) then 1 else 0);
    if ParseDigits(p.fields.arr).Some? {
      assert p.fields.arr != "";
    }
  }

  /** "$1.2 million" keeps only its digits, 12, and so lands in the lowest bucket. */
  lemma MillionWordedArrIsSmall(p: Product)
    requires p.fields.arr == "$1.2 million"
    ensures ParseDigits(p.fields.arr) == Some(12)
    ensures RevenueMatches("$0-50K ARR", p) && !RevenueMatches("$1M+ ARR", p)
  {
    MillionWordedDigits();
    assert "12"[..1] == "1" && "1"[..0] == "";
    assert DigitsValue("12") == 12;
  }

  lemma MillionWordedDigits()
    ensures Filter("$1.2 million", IsDigit) == "12"
  {
    var head := "$1.2";
    LeadingFigureDigits();
    FilterNone(" million", IsDigit);
    assert "$1.2 million" == head + " million";
    FilterAppend(head, " million", IsDigit);
  }

  lemma LeadingFigureDigits()
    ensures Filter("$1.2", IsDigit) == "12"
  {
    var head := "$1.2";
    assert head[..3] == "$1." && head[3] == '2';
    assert "$1."[..2] == "$1" && "$1."[2] == '.';
    assert "$1"[..1] == "$" && "$1"[1] == '1';
    assert "$"[..0] == "" && "$"[0] == '$';
    assert Filter("$", IsDigit) == [];
    assert Filter("$1", IsDigit) == "1";
    assert Filter("$1.", IsDigit) == "1";
  }

  class SearchResultsPage {
    var searchQuery: string
    var industry: string
    var age: string
    var revenue: string

    /** The URL parameters q, industry, age and revenue; a missing or empty one gives the default. */
    constructor (q: string, industryParam: string, ageParam: string, revenueParam: string)
      ensures searchQuery == q
      ensures industry == if industryParam == "" then "All Industries" else industryParam
      ensures age == if ageParam == "" then "Any Age" else ageParam
      ensures revenue == if revenueParam == "" then "Any Revenue" else revenueParam
    {
      searchQuery := q;
      industry := if industryParam == "" then "All Industries" else industryParam;
      age := if ageParam == "" then "Any Age" else ageParam;
      revenue := if revenueParam == "" then "Any Revenue" else revenueParam;
    }

    /** handleFilterChange: sets the field named by filterType; any other name changes nothing. */
    method HandleFilterChange(filterType: string, value: string)
      modifies this
      ensures searchQuery == if filterType == "query" then value else old(searchQuery)
      ensures industry == if filterType == "industry" then value else old(industry)
      ensures age == if filterType == "age" then value else old(age)
      ensures revenue == if filterType == "revenue" then value else old(revenue)
    {
      match filterType {
        case "query" => searchQuery := value;
        case "industry" => industry := value;
        case "age" => age := value;
        case "revenue" => revenue := value;
        case _ =>
      }
    }

    /**
     * filteredProducts: nothing while the products are not loaded; otherwise exactly the
     * products passing all four tests, in their order.
     */
    function FilteredProducts(products: Option<seq<Product>>): (r: seq<Product>)
      reads this
      ensures products.None? ==> r == []
      ensures products.Some? ==> IsSubsequence(r, products.value)
      ensures products.Some? ==> forall p :: p in r <==>
        p in products.value && PagePasses(searchQuery, industry, age, revenue, p)
    {
      if products.None? then []
      else
        var keep := PageFilter(searchQuery, industry, age, revenue);
        FilterIsSubsequence(products.value, keep);
        FilterMultiset(products.value, keep);
        Filter(products.value, keep)
    }

    /** With every filter at its default, the page shows all loaded products. */
    lemma DefaultsShowEverything(products: seq<Product>)
      requires searchQuery == "" && industry == "All Industries" && age == "Any Age" && revenue == "Any Revenue"
      ensures FilteredProducts(Some(products)) == products
    {
      FilterKeepsAll(products, PageFilter(searchQuery, industry, age, revenue));
    }
  }
}
