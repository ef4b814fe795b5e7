/**
 * Pagination of the search results (client/src/components/search/SearchResults.tsx):
 * six products per page, the current page as state, and the Previous / page-number / Next
 * buttons that set it. `products.slice(first, last)` follows the JavaScript rules for
 * Array.prototype.slice, which clamp an index past the end and count a negative one from
 * the end.
 */
module Pagination {
  import opened Text
  import opened Schema

  const ProductsPerPage: nat := 6

  function Min(a: int, b: int): int
  {
    if a <= b then a else b
  }

  /** How Array.prototype.slice reads an index into a list of length n. */
  function SliceIndex(i: int, n: nat): (r: nat)
    ensures r <= n
    ensures 0 <= i ==> r == Min(i, n)
  {
    if i < 0 then (if n + i < 0 then 0 else n + i) else if i > n then n else i
  }

  /**
   * Array.prototype.slice(start, end): for non-negative indices the elements from start up
   * to end, each clamped to the length, and nothing when end does not pass start; a
   * negative start counts back from the end.
   */
  function Slice<T>(s: seq<T>, start: int, end: int): (r: seq<T>)
    ensures |r| <= |s|
    ensures 0 <= start <= end ==> r == s[Min(start, |s|)..Min(end, |s|)]
    ensures 0 <= end <= start ==> r == []
    ensures -|s| <= start < 0 && |s| <= end ==> r == s[|s| + start..]
  {
    var from, to := SliceIndex(start, |s|), SliceIndex(end, |s|);
    if from < to then s[from..to] else []
  }

  /** Math.ceil(n / 6): the least number of pages that holds n products. */
  function TotalPages(n: nat): (r: nat)
    ensures r * ProductsPerPage >= n
    ensures r == 0 || (r - 1) * ProductsPerPage < n
  {
    (n + ProductsPerPage - 1) / ProductsPerPage
  }

  /**
   * The products shown on a page: the slice from (page - 1) * 6 to page * 6. For a page
   * number of at least 1 that is the page's window of the list, at most six products,
   * and non-empty exactly for the pages 1 .. TotalPages.
   */
  function Page(products: seq<Product>, page: int): (r: seq<Product>)
    ensures page >= 1 ==> r == products[Min((page - 1) * ProductsPerPage, |products|)..Min(page * ProductsPerPage, |products|)]
    ensures page >= 1 ==> |r| <= ProductsPerPage
    ensures page >= 1 ==> (r != [] <==> page <= TotalPages(|products|))
  {
    var indexOfLastProduct := page * ProductsPerPage;
    var indexOfFirstProduct := indexOfLastProduct - ProductsPerPage;
    Slice(products, indexOfFirstProduct, indexOfLastProduct)
  }

  /** Pages 1 .. k shown one after the other. */
  function Pages(products: seq<Product>, k: nat): seq<Product>
  {
    if k == 0 then [] else Pages(products, k - 1) + Page(products, k)
  }

  /** Pages 1 .. k hold exactly the first 6k products, in order. */
  lemma {:induction false} PagesArePrefix(products: seq<Product>, k: nat)
    ensures Pages(products, k) == products[..Min(k * ProductsPerPage, |products|)]
  {
    if k > 0 {
      PagesArePrefix(products, k - 1);
      var a := Min((k - 1) * ProductsPerPage, |products|);
      var b := Min(k * ProductsPerPage, |products|);
      assert products[..a] + products[a..b] == products[..b];
    }
  }

  /** Showing every page in turn gives back the whole list in order. */
  lemma AllPagesGiveBackProducts(products: seq<Product>)
    ensures Pages(products, TotalPages(|products|)) == products
  {
    PagesArePrefix(products, TotalPages(|products|));
    assert products[..|products|] == products;
  }

  /** The controls are drawn only when there is more than one page. */
  predicate ControlsShown(n: nat)
  {
    TotalPages(n) > 1
  }

  /** "Showing {products.length} results": the count is the whole list, not the page. */
  function ResultsLabel(products: seq<Product>): (r: string)
    ensures |r| > 16 && r[..8] == "Showing " && r[|r| - 8..] == " results"
    ensures AllDigits(r[8..|r| - 8]) && DigitsValue(r[8..|r| - 8]) == |products|
  {
    var digits := DecimalString(|products|);
    var r := "Showing " + digits + " results";
    assert r[8..|r| - 8] == digits;
    DecimalStringRoundTrip(|products|);
    r
  }

  class SearchResults {
    var currentPage: int

    /** The current page never drops below 1 through the controls. */
    ghost predicate Valid()
      reads this
    {
      currentPage >= 1
    }

    constructor ()
      ensures currentPage == 1 && Valid()
    {
      currentPage := 1;
    }

    /**
     * The products of the current page: from a page number of at least 1, the page's window
     * of the list, at most six products, and some product exactly while the page is in range.
     */
    function CurrentProducts(products: seq<Product>): (r: seq<Product>)
      reads this
      ensures currentPage >= 1 ==>
        r == products[Min((currentPage - 1) * ProductsPerPage, |products|)..Min(currentPage * ProductsPerPage, |products|)]
      ensures currentPage >= 1 ==> |r| <= ProductsPerPage
      ensures currentPage >= 1 ==> (r != [] <==> currentPage <= TotalPages(|products|))
    {
      Page(products, currentPage)
    }

    predicate PreviousDisabled()
      reads this
    {
      currentPage == 1
    }

    predicate NextDisabled(n: nat)
      reads this
    {
      currentPage == TotalPages(n)
    }

    /**
     * On a page in range, Previous is disabled exactly when there is no page before it and
     * Next exactly when the page after it would be empty.
     */
    lemma DisabledButtonsLeadNowhere(products: seq<Product>)
      requires 1 <= currentPage <= TotalPages(|products|)
      ensures PreviousDisabled() <==> Page(products, currentPage - 1) == []
      ensures NextDisabled(|products|) <==> Page(products, currentPage + 1) == []
    {
      if currentPage == 1 {
        assert Page(products, 0) == Slice(products, -(ProductsPerPage as int), 0);
      }
    }

    /** paginate: sets the page as given, with no clamping. */
    method Paginate(pageNumber: int)
      modifies this
      ensures currentPage == pageNumber
    {
      currentPage := pageNumber;
    }

    /** A click on Previous, which does nothing while it is disabled. */
    method ClickPrevious(n: nat)
      requires ControlsShown(n) && Valid()
      modifies this
      ensures Valid()
      ensures currentPage == if old(PreviousDisabled()) then old(currentPage) else old(currentPage) - 1
    {
      if !PreviousDisabled() {
        Paginate(currentPage - 1);
      }
    }

    /** A click on the button of page k; the buttons are numbered 1 .. TotalPages. */
    method ClickPageNumber(n: nat, k: int)
      requires ControlsShown(n) && 1 <= k <= TotalPages(n)
      modifies this
      ensures Valid() && currentPage == k
    {
      Paginate(k);
    }

    /**
     * A click on Next, which does nothing while it is disabled. From a page within range
     * it stays within range; from a page past the end (after the list shrank) it moves on.
     */
    method ClickNext(n: nat)
      requires ControlsShown(n) && Valid()
      modifies this
      ensures Valid()
      ensures currentPage == if old(NextDisabled(n)) then old(currentPage) else old(currentPage) + 1
      ensures old(currentPage) <= TotalPages(n) ==> currentPage <= TotalPages(n)
    {
      if !NextDisabled(n) {
        Paginate(currentPage + 1);
      }
    }
  }
}
