/**
 * viewmodel/ProductsViewModel.kt: the product list of one store (or of all
 * stores), narrowed by a set of categories and the inherited search query,
 * and sorted by the inherited name order.
 */
module ProductsViewModels {
  import opened Results
  import opened Text
  import opened Model
  import opened Listing
  import opened ProductStorage
  import opened ProductsRepositories
  import opened StoresService
  import opened AProductsViewModels

  /** The message of a Kotlin `require` without one. */
  const FailedRequirement := "Failed requirement."

  /** `ProductsUiState` */
  datatype ProductsUiState =
    | Loading
    | Display(filteredProductList: seq<Product>, productList: seq<Product>)
    | Error(message: string)

  /** The category test: no chosen category admits every product. */
  predicate MatchesCategories(p: Product, categories: seq<string>) {
    categories == [] || p.category in categories
  }

  /** With no category chosen and no query, the filter keeps the whole list. */
  lemma NoFilterKeepsAll(products: seq<Product>)
    ensures Filter(products, p => MatchesCategories(p, []) && MatchesQuery(p, "")) == products
  {
    FilterAll(products, p => MatchesCategories(p, []) && MatchesQuery(p, ""));
  }

  /** `getCategoryList`: the store's category (id, name) pairs; `UNKNOWN` fails the `require`. */
  function GetCategoryList(storeId: StoreId): (c: Completion<seq<(string, string)>>)
    ensures storeId == Unknown ==> c == Thrown(IllegalArgument(FailedRequirement))
    ensures storeId != Unknown ==> c.Returned? && c == GetStoreCategory(storeId)
  {
    if storeId == Unknown then Thrown(IllegalArgument(FailedRequirement)) else GetStoreCategory(storeId)
  }

  /** The flow a selected store is followed through. */
  function FlowOf(storeId: StoreId): ProductsFlow {
    if storeId == Unknown then AllProducts else StoreProducts(storeId.Value())
  }

  class ProductsViewModel {
    /** The inherited order and query. */
    const base: AProductsViewModel
    const products: ProductsRepository
    var productsUiState: ProductsUiState
    var storeSelected: StoreId
    var categories: seq<string>
    var isInitialized: bool
    /** The product flow the list follows; none before `initialize`. */
    var following: Option<ProductsFlow>

    /** The chosen categories never repeat. */
    ghost predicate Valid()
      reads this
    {
      Distinct(categories)
    }

    constructor (products: ProductsRepository)
      ensures Valid() && this.products == products
      ensures fresh(base) && base.productsOrder == Asc && base.searchQuery == ""
      ensures productsUiState == Loading && storeSelected == Unknown && categories == [] && !isInitialized && following == None
    {
      this.products := products;
      base := new AProductsViewModel();
      productsUiState := Loading;
      storeSelected := Unknown;
      categories := [];
      isInitialized := false;
      following := None;
    }

    /**
     * `applyFilter`: keeps, in input order, exactly the products that pass
     * both the category test and the query test.
     */
    function ApplyFilter(list: seq<Product>): (r: seq<Product>)
      reads this, base
      ensures IsSubseq(r, list)
      ensures forall p :: p in r <==> p in list && MatchesCategories(p, categories) && MatchesQuery(p, base.searchQuery)
      ensures categories == [] && base.searchQuery == "" ==> r == list
    {
      var chosen, query := categories, base.searchQuery;
      if chosen == [] && query == "" then
        NoFilterKeepsAll(list);
        Filter(list, p => MatchesCategories(p, []) && MatchesQuery(p, ""))
      else
        Filter(list, p => MatchesCategories(p, chosen) && MatchesQuery(p, query))
    }

    /**
     * The reaction to a newly selected store (and the first one, at
     * `initialize`): the chosen categories are cleared and the screen waits
     * while the store's product flow (every store's, for `UNKNOWN`) becomes
     * the one followed.  The flow getters never fail, so the error branch of
     * the source cannot be taken.
     */
    method OnStoreSelected()
      modifies this`categories, this`productsUiState, this`following
      ensures Valid() && categories == []
      ensures productsUiState == Loading
      ensures following == Some(FlowOf(storeSelected))
      ensures forall p :: p in Emits(following.value, products.dao.rows) <==>
                p in products.dao.rows.Values && (storeSelected != Unknown ==> p.storeId == storeSelected.Value())
    {
      categories := [];
      var flow;
      if storeSelected == Unknown {
        flow := products.GetAllProductsFlow();
      } else {
        flow := products.GetProductsByStoreFlow(storeSelected.Value());
      }
      productsUiState := Loading;
      following := Some(flow.data);
    }

    /** `initialize`: only the first call starts following the selected store. */
    method Initialize()
      modifies this`isInitialized, this`categories, this`productsUiState, this`following
      ensures isInitialized
      ensures old(isInitialized) ==>
                categories == old(categories) && productsUiState == old(productsUiState) && following == old(following)
      ensures !old(isInitialized) ==>
                categories == [] && productsUiState == Loading && following == Some(FlowOf(storeSelected))
      ensures old(Valid()) ==> Valid()
    {
      if isInitialized {
        return;
      }
      isInitialized := true;
      OnStoreSelected();
    }

    /**
     * `selectStore`: the selection is a state flow, so the list reacts (and
     * the chosen categories are cleared) only when the store actually changes
     * and the view-model is following it.
     */
    method SelectStore(storeId: StoreId)
      modifies this`storeSelected, this`categories, this`productsUiState, this`following
      ensures storeSelected == storeId
      ensures isInitialized && storeId != old(storeSelected) ==>
                categories == [] && productsUiState == Loading && following == Some(FlowOf(storeId))
      ensures !(isInitialized && storeId != old(storeSelected)) ==>
                categories == old(categories) && productsUiState == old(productsUiState) && following == old(following)
      ensures old(Valid()) ==> Valid()
    {
      var changed := storeId != storeSelected;
      storeSelected := storeId;
      if isInitialized && changed {
        OnStoreSelected();
      }
    }

    /**
     * A new list (or a change of categories, query or order) recomputed for
     * display: the filtered, reordered list next to the full one.  Only a
     * Loading or Display state can be updated; an Error state fails the
     * `as ProductsUiState.Display` cast.
     */
    method Refresh(list: seq<Product>) returns (c: Completion<()>)
      modifies this`productsUiState
      ensures old(productsUiState).Error? ==> c == Thrown(ClassCast) && productsUiState == old(productsUiState)
      ensures !old(productsUiState).Error? ==>
                c == Returned(()) && productsUiState == Display(base.ReordersProducts(ApplyFilter(list)), list)
    {
      if productsUiState.Error? {
        return Thrown(ClassCast);
      }
      var shown;
      if list == [] {
        shown := list;
      } else {
        shown := base.ReordersProducts(ApplyFilter(list));
      }
      productsUiState := Display(shown, list);
      return Returned(());
    }

    /**
     * An emission of the followed flow reaching the collector: collecting runs
     * the query, so an unusable database throws out of the collecting
     * coroutine and the screen keeps its state; otherwise the emitted list is
     * shown as `refresh` shows it.
     */
    method OnEmission() returns (c: Completion<()>, emitted: seq<Product>)
      requires following.Some?
      modifies this`productsUiState
      ensures products.dao.faulty ==> c == Thrown(StorageFailure) && productsUiState == old(productsUiState)
      ensures !products.dao.faulty ==>
                Distinct(emitted) && forall p :: p in emitted <==> p in Emits(following.value, products.dao.rows)
      ensures !products.dao.faulty && old(productsUiState).Error? ==>
                c == Thrown(ClassCast) && productsUiState == old(productsUiState)
      ensures !products.dao.faulty && !old(productsUiState).Error? ==>
                c == Returned(()) && productsUiState == Display(base.ReordersProducts(ApplyFilter(emitted)), emitted)
    {
      emitted := [];
      var got := products.Collect(following.value);
      if got.Thrown? {
        return Thrown(got.crash), emitted;
      }
      emitted := got.result;
      c := Refresh(emitted);
    }

    /** `addCategory`: a category already chosen fails the `require`; a new one is appended. */
    method AddCategory(category: string) returns (c: Completion<()>)
      requires Valid()
      modifies this`categories
      ensures Valid()
      ensures category in old(categories) ==> c == Thrown(IllegalArgument(FailedRequirement)) && categories == old(categories)
      ensures category !in old(categories) ==> c == Returned(()) && categories == old(categories) + [category]
    {
      if category in categories {
        return Thrown(IllegalArgument(FailedRequirement));
      }
      AppendDistinct(categories, category);
      categories := categories + [category];
      return Returned(());
    }

    /** `removeCategory`: a category not chosen fails the `require`; a chosen one is removed. */
    method RemoveCategory(category: string) returns (c: Completion<()>)
      requires Valid()
      modifies this`categories
      ensures Valid()
      ensures category !in old(categories) ==> c == Thrown(IllegalArgument(FailedRequirement)) && categories == old(categories)
      ensures category in old(categories) ==>
                c == Returned(()) && category !in categories &&
                IsSubseq(categories, old(categories)) &&
                multiset(categories) == multiset(old(categories)) - multiset{category}
    {
      if category !in categories {
        return Thrown(IllegalArgument(FailedRequirement));
      }
      RemoveFirstDistinct(categories, category);
      categories := RemoveFirst(categories, category);
      return Returned(());
    }
  }
}
