/**
 * The legacy ui/viewmodel/CategoriesViewModel.kt: a product list narrowed
 * by a set of active categories (the others are kept in a disabled list)
 * and a search query, and sorted by name.
 */
module LegacyCategoriesViewModels {
  import opened Results
  import opened Model
  import opened Text
  import opened Listing
  import opened LegacyStorage

  const CategoryNotFoundMessage := "Category not found"

  function ProductName(p: LegacyProduct): string {
    p.productName
  }

  /** The category test: an empty active list matches every product. */
  predicate MatchesCategories(p: LegacyProduct, categories: seq<string>) {
    |categories| == 0 || p.category in categories
  }

  /** The search-query test: an empty query matches every product. */
  predicate MatchesQuery(p: LegacyProduct, query: string) {
    query == [] || ContainsIgnoreCase(p.productName, query)
  }

  /**
   * `applyFilter`: the products of an active category (any category when
   * none is active) whose name contains the query, in input order.  The
   * disabled list plays no part.
   */
  function ApplyFilter(products: seq<LegacyProduct>, categories: seq<string>, query: string): (r: seq<LegacyProduct>)
    ensures IsSubseq(r, products)
    ensures forall p :: p in r <==> p in products && MatchesCategories(p, categories) && MatchesQuery(p, query)
    ensures |categories| == 0 && query == "" ==> r == products
  {
    var keep := p => MatchesCategories(p, categories) && MatchesQuery(p, query);
    if |categories| == 0 && query == "" then
      FilterAll(products, keep);
      Filter(products, keep)
    else Filter(products, keep)
  }

  /**
   * `reordersProducts`: sorted by name, ascending or descending, as a
   * stable rearrangement of the input.
   */
  function ReordersProducts(products: seq<LegacyProduct>, order: ProductsOrder): (r: seq<LegacyProduct>)
    ensures SortedBy(r, ProductName, order == Desc)
    ensures multiset(r) == multiset(products)
    ensures forall name :: WithKey(r, ProductName, name) == WithKey(products, ProductName, name)
  {
    var r := SortBy(products, ProductName, order == Desc);
    SortBySorted(products, ProductName, order == Desc);
    SortByPermutes(products, ProductName, order == Desc);
    forall name ensures WithKey(r, ProductName, name) == WithKey(products, ProductName, name) {
      SortByStable(products, ProductName, order == Desc, name);
    }
    r
  }

  /** What the screen shows: the filtered and sorted list. */
  function View(products: seq<LegacyProduct>, categories: seq<string>, query: string, order: ProductsOrder)
    : seq<LegacyProduct>
  {
    ReordersProducts(ApplyFilter(products, categories, query), order)
  }

  /** The screen's state (a data class): the list shown and the list it is computed from. */
  datatype CategoriesUiState = CategoriesUiState(filteredProductList: seq<LegacyProduct>, productList: seq<LegacyProduct>)

  /** `updateState`'s update: recompute the shown list from the stored one. */
  function Refreshed(current: CategoriesUiState, categories: seq<string>, query: string, order: ProductsOrder)
    : (r: CategoriesUiState)
    ensures r.productList == current.productList
  {
    current.(filteredProductList := View(current.productList, categories, query, order))
  }

  /**
   * The update applied to each list the product table emits, as written:
   * the copy that stores the new list is discarded, so only the shown list
   * changes and the stored one stays as it was.
   */
  function EmittedAsWritten(current: CategoriesUiState, list: seq<LegacyProduct>, categories: seq<string>,
                            query: string, order: ProductsOrder): (r: CategoriesUiState)
    ensures r.productList == current.productList
  {
    var _ := current.(productList := list);
    current.(filteredProductList := View(list, categories, query, order))
  }

  /** The update as intended: the new list is stored and shown, filtered and sorted. */
  function Emitted(current: CategoriesUiState, list: seq<LegacyProduct>, categories: seq<string>,
                   query: string, order: ProductsOrder): (r: CategoriesUiState)
    ensures r.productList == list
    ensures r == Refreshed(r, categories, query, order)
  {
    CategoriesUiState(View(list, categories, query, order), list)
  }

  /**
   * As written, the first refresh after an emission loses it: from the
   * initial state, a one-product list is shown, and any later change of
   * categories, order or query (each refreshes) empties the screen.  As
   * intended, the product stays.
   */
  lemma EmissionLostOnRefresh(p: LegacyProduct, order: ProductsOrder)
    ensures var initial := CategoriesUiState([], []);
      EmittedAsWritten(initial, [p], [], "", order).filteredProductList == [p] &&
      Refreshed(EmittedAsWritten(initial, [p], [], "", order), [], "", order).filteredProductList == [] &&
      Refreshed(Emitted(initial, [p], [], "", order), [], "", order).filteredProductList == [p]
  {
    var shown := View([p], [], "", order);
    assert ApplyFilter([p], [], "") == [p];
    assert |shown| == 1 by {
      assert |multiset(shown)| == |multiset([p])|;
    }
    assert shown[0] in multiset(shown);
    assert shown == [p];
    var none := View([], [], "", order);
    assert |multiset(none)| == 0;
  }

  /**
   * `toggleCategory` on the two lists: an active category moves to the end
   * of the disabled list, a disabled one to the end of the active list (the
   * first occurrence leaves), and one in neither list raises.
   */
  function ToggleLists(active: seq<string>, disabled: seq<string>, category: string): (r: Completion<(seq<string>, seq<string>)>)
    ensures r.Thrown? <==> category !in active && category !in disabled
    ensures r.Thrown? ==> r.crash == IllegalState(CategoryNotFoundMessage)
    ensures r.Returned? ==> multiset(r.result.0 + r.result.1) == multiset(active + disabled)
    ensures category in active ==> r.Returned? && r.result.1 == disabled + [category] &&
                                   multiset(r.result.0) == multiset(active) - multiset{category}
    ensures category !in active && category in disabled ==>
              r.Returned? && r.result.0 == active + [category] &&
              multiset(r.result.1) == multiset(disabled) - multiset{category}
  {
    if category in active then Returned((RemoveFirst(active, category), disabled + [category]))
    else if category in disabled then Returned((active + [category], RemoveFirst(disabled, category)))
    else Thrown(IllegalState(CategoryNotFoundMessage))
  }

  /**
   * Toggling a category that occurs once across the two lists twice puts it
   * back in the list it came from, every other category where it was.
   */
  lemma ToggleTwice(active: seq<string>, disabled: seq<string>, category: string)
    requires multiset(active + disabled)[category] == 1
    ensures ToggleLists(active, disabled, category).Returned?
    ensures var once := ToggleLists(active, disabled, category).result;
            var twice := ToggleLists(once.0, once.1, category);
            twice.Returned? && multiset(twice.result.0) == multiset(active) && multiset(twice.result.1) == multiset(disabled)
  {
    assert multiset(active + disabled) == multiset(active) + multiset(disabled);
    if category in active {
      ToggleTwiceFrom(active, disabled, category);
    } else {
      assert category in multiset(active + disabled);
      ToggleTwiceFrom(disabled, active, category);
    }
  }

  /** The round trip that starts in `from`. */
  lemma ToggleTwiceFrom(from: seq<string>, to: seq<string>, category: string)
    requires multiset(from)[category] == 1 && category !in to
    ensures category !in RemoveFirst(from, category)
    ensures multiset(RemoveFirst(from, category) + [category]) == multiset(from)
    ensures multiset(RemoveFirst(to + [category], category)) == multiset(to)
  {
    assert category in multiset(from);
    assert multiset(RemoveFirst(from, category))[category] == 0;
    assert category in to + [category];
  }

  class LegacyCategoriesViewModel {
    var categories: seq<string>
    var disabledCategories: seq<string>
    var productsOrder: ProductsOrder
    var searchQuery: string
    var categoriesUiState: CategoriesUiState

    constructor ()
      ensures categories == [] && disabledCategories == [] && productsOrder == Asc && searchQuery == ""
      ensures categoriesUiState == CategoriesUiState([], [])
    {
      categories := [];
      disabledCategories := [];
      productsOrder := Asc;
      searchQuery := "";
      categoriesUiState := CategoriesUiState([], []);
    }

    /** `categoriesList`: the active categories, then the disabled ones. */
    function CategoriesList(): (r: seq<string>)
      reads this
      ensures |r| == |categories| + |disabledCategories|
      ensures forall c :: c in r <==> c in categories || c in disabledCategories
      ensures multiset(r) == multiset(categories) + multiset(disabledCategories)
    {
      categories + disabledCategories
    }

    /** The shown list agrees with the stored list and the current filters. */
    predicate Consistent()
      reads this
    {
      categoriesUiState == Refreshed(categoriesUiState, categories, searchQuery, productsOrder)
    }

    /** `updateState` */
    method UpdateState()
      modifies this`categoriesUiState
      ensures categoriesUiState == Refreshed(old(categoriesUiState), categories, searchQuery, productsOrder)
      ensures Consistent()
    {
      categoriesUiState := Refreshed(categoriesUiState, categories, searchQuery, productsOrder);
    }

    /** The `productsOrder` setter, which refreshes. */
    method SetProductsOrder(order: ProductsOrder)
      modifies this`productsOrder, this`categoriesUiState
      ensures productsOrder == order && Consistent()
      ensures categoriesUiState.productList == old(categoriesUiState.productList)
    {
      productsOrder := order;
      UpdateState();
    }

    /** The `searchQuery` setter, which refreshes. */
    method SetSearchQuery(query: string)
      modifies this`searchQuery, this`categoriesUiState
      ensures searchQuery == query && Consistent()
      ensures categoriesUiState.productList == old(categoriesUiState.productList)
    {
      searchQuery := query;
      UpdateState();
    }

    /** A list emitted by the product table, stored and shown (as intended). */
    method OnProductsEmitted(list: seq<LegacyProduct>)
      modifies this`categoriesUiState
      ensures categoriesUiState == Emitted(old(categoriesUiState), list, categories, searchQuery, productsOrder)
      ensures Consistent()
    {
      categoriesUiState := Emitted(categoriesUiState, list, categories, searchQuery, productsOrder);
    }

    /** `addCategory`: appended, with no duplicate check. */
    method AddCategory(category: string)
      modifies this`categories, this`categoriesUiState
      ensures categories == old(categories) + [category] && Consistent()
      ensures categoriesUiState.productList == old(categoriesUiState.productList)
    {
      categories := categories + [category];
      UpdateState();
    }

    /** `removeCategory`: the first occurrence leaves the active list. */
    method RemoveCategory(category: string)
      modifies this`categories, this`categoriesUiState
      ensures categories == RemoveFirst(old(categories), category) && Consistent()
      ensures categoriesUiState.productList == old(categoriesUiState.productList)
    {
      categories := RemoveFirst(categories, category);
      UpdateState();
    }

    /** `toggleCategory`: moves the category between the lists and refreshes; raising changes nothing. */
    method ToggleCategory(category: string) returns (c: Completion<()>)
      modifies this`categories, this`disabledCategories, this`categoriesUiState
      ensures var t := ToggleLists(old(categories), old(disabledCategories), category);
              (t.Thrown? ==> c == Thrown(t.crash) && categories == old(categories) &&
                             disabledCategories == old(disabledCategories) && categoriesUiState == old(categoriesUiState)) &&
              (t.Returned? ==> c == Returned(()) && categories == t.result.0 && disabledCategories == t.result.1 &&
                               Consistent() && categoriesUiState.productList == old(categoriesUiState.productList))
      ensures multiset(CategoriesList()) == multiset(old(CategoriesList()))
    {
      if category in categories {
        categories := RemoveFirst(categories, category);
        disabledCategories := disabledCategories + [category];
      } else if category in disabledCategories {
        disabledCategories := RemoveFirst(disabledCategories, category);
        categories := categories + [category];
      } else {
        return Thrown(IllegalState(CategoryNotFoundMessage));
      }
      UpdateState();
      return Returned(());
    }
  }
}
