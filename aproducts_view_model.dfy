/**
 * viewmodel/AProductsViewModel.kt: the part every product list shares, a
 * name order (ascending or descending) and a search query, and the two list
 * transformations they drive.
 */
module AProductsViewModels {
  import opened Text
  import opened Model
  import opened Listing

  function ProductName(p: Product): string {
    p.productName
  }

  /** The search-query test: an empty query matches every product. */
  predicate MatchesQuery(p: Product, query: string) {
    query == [] || ContainsIgnoreCase(p.productName, query)
  }

  /**
   * `sortedBy { it.productName }` / `sortedByDescending { … }` put the list
   * in name order, keep every product exactly as often as it occurred, and
   * keep products with equal names in their input order.
   */
  lemma SortByNameSpec(products: seq<Product>, descending: bool)
    ensures SortedBy(SortBy(products, ProductName, descending), ProductName, descending)
    ensures multiset(SortBy(products, ProductName, descending)) == multiset(products)
    ensures forall name :: WithKey(SortBy(products, ProductName, descending), ProductName, name) ==
                           WithKey(products, ProductName, name)
  {
    SortBySorted(products, ProductName, descending);
    SortByPermutes(products, ProductName, descending);
    forall name {
      SortByStable(products, ProductName, descending, name);
    }
  }

  /** An empty query keeps every product, in order. */
  lemma EmptyQueryKeepsAll(products: seq<Product>)
    ensures Filter(products, p => MatchesQuery(p, "")) == products
  {
    FilterAll(products, p => MatchesQuery(p, ""));
  }

  class AProductsViewModel {
    var productsOrder: ProductsOrder
    var searchQuery: string

    /** The list starts in ascending order with no query. */
    constructor ()
      ensures productsOrder == Asc && searchQuery == ""
    {
      productsOrder := Asc;
      searchQuery := "";
    }

    /** `setProductsOrder` */
    method SetProductsOrder(order: ProductsOrder)
      modifies this`productsOrder
      ensures productsOrder == order
    {
      productsOrder := order;
    }

    /** `setSearchQuery` */
    method SetSearchQuery(query: string)
      modifies this`searchQuery
      ensures searchQuery == query
    {
      searchQuery := query;
    }

    /**
     * `reordersProducts`: the products sorted by name in the current order,
     * as a stable rearrangement of the input.
     */
    function ReordersProducts(products: seq<Product>): (r: seq<Product>)
      reads this
      ensures SortedBy(r, ProductName, productsOrder == Desc)
      ensures multiset(r) == multiset(products)
      ensures forall name :: WithKey(r, ProductName, name) == WithKey(products, ProductName, name)
    {
      SortByNameSpec(products, productsOrder == Desc);
      SortBy(products, ProductName, productsOrder == Desc)
    }

    /**
     * `applyFilter`: an empty query keeps the list as it is; otherwise the
     * products whose name contains the query, ignoring case, in input order.
     */
    function ApplyFilter(products: seq<Product>): (r: seq<Product>)
      reads this
      ensures searchQuery == "" ==> r == products
      ensures IsSubseq(r, products)
      ensures forall p :: p in r <==> p in products && MatchesQuery(p, searchQuery)
    {
      var query := searchQuery;
      if query == "" then EmptyQueryKeepsAll(products); Filter(products, p => MatchesQuery(p, ""))
      else Filter(products, p => MatchesQuery(p, query))
    }
  }
}
