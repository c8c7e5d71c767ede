/**
 * The store page: the search box and the category filter over the loaded
 * stores and products, the prefixes handed to the featured tab, and the
 * page cells at mount and after loading.
 */
module StorePage {
  import opened Wrappers
  import Seqs
  import Text

  datatype Store = Store(name: string, description: Option<string>)
  datatype Product = Product(name: string, description: Option<string>, category: string)

  /** A missing description never matches. */
  predicate DescriptionMatches(description: Option<string>, query: string)
  {
    description.Some? && Text.MatchesIgnoringCase(description.value, query)
  }

  /** Name or description contains the query, ignoring case. */
  predicate StoreMatches(store: Store, query: string)
  {
    Text.MatchesIgnoringCase(store.name, query) || DescriptionMatches(store.description, query)
  }

  predicate ProductMatchesSearch(product: Product, query: string)
  {
    Text.MatchesIgnoringCase(product.name, query) || DescriptionMatches(product.description, query)
  }

  predicate MatchesCategory(product: Product, selectedCategory: string)
  {
    selectedCategory == "all" || product.category == selectedCategory
  }

  function KeepStore(query: string): Store -> bool
  {
    (store: Store) => StoreMatches(store, query)
  }

  function KeepProduct(query: string, selectedCategory: string): Product -> bool
  {
    (product: Product) => ProductMatchesSearch(product, query) && MatchesCategory(product, selectedCategory)
  }

  /** `filteredStores`. */
  function FilteredStores(stores: seq<Store>, query: string): seq<Store>
  {
    Seqs.Filter(stores, KeepStore(query))
  }

  /** `filteredProducts`. */
  function FilteredProducts(products: seq<Product>, query: string, selectedCategory: string): seq<Product>
  {
    Seqs.Filter(products, KeepProduct(query, selectedCategory))
  }

  /** A store is listed exactly when it is loaded and matches the search; the order is kept. */
  lemma FilteredStoresSpec(stores: seq<Store>, query: string)
    ensures forall s :: s in FilteredStores(stores, query) <==> s in stores && StoreMatches(s, query)
    ensures Seqs.IsSubsequence(FilteredStores(stores, query), stores)
  {
    forall s ensures s in FilteredStores(stores, query) <==> s in stores && KeepStore(query)(s) {
      Seqs.FilterMembership(stores, KeepStore(query), s);
    }
    Seqs.FilterIsSubsequence(stores, KeepStore(query));
  }

  /**
   * A product is listed exactly when it is loaded, matches the search and
   * passes the category filter; the order is kept.
   */
  lemma FilteredProductsSpec(products: seq<Product>, query: string, selectedCategory: string)
    ensures forall p :: p in FilteredProducts(products, query, selectedCategory) <==>
      p in products && ProductMatchesSearch(p, query) && MatchesCategory(p, selectedCategory)
    ensures Seqs.IsSubsequence(FilteredProducts(products, query, selectedCategory), products)
  {
    var keep := KeepProduct(query, selectedCategory);
    forall p ensures p in Seqs.Filter(products, keep) <==> p in products && keep(p) {
      Seqs.FilterMembership(products, keep, p);
    }
    Seqs.FilterIsSubsequence(products, keep);
  }

  /** An empty search with category `all` lists every store and every product, in place. */
  lemma NoFilterListsAll(stores: seq<Store>, products: seq<Product>)
    ensures FilteredStores(stores, "") == stores
    ensures FilteredProducts(products, "", "all") == products
  {
    forall i | 0 <= i < |stores| ensures KeepStore("")(stores[i]) {
      Text.EmptyQueryMatches(stores[i].name);
    }
    Seqs.FilterKeepsAll(stores, KeepStore(""));
    forall i | 0 <= i < |products| ensures KeepProduct("", "all")(products[i]) {
      Text.EmptyQueryMatches(products[i].name);
    }
    Seqs.FilterKeepsAll(products, KeepProduct("", "all"));
  }

  /** The featured tab: the first 6 filtered stores and the first 12 filtered products. */
  datatype Featured = Featured(stores: seq<Store>, products: seq<Product>)

  function FeaturedOf(stores: seq<Store>, products: seq<Product>, query: string, selectedCategory: string): (r: Featured)
    ensures |r.stores| <= 6 && |r.products| <= 12
    ensures |r.stores| == if |FilteredStores(stores, query)| < 6 then |FilteredStores(stores, query)| else 6
    ensures |r.products| == if |FilteredProducts(products, query, selectedCategory)| < 12
      then |FilteredProducts(products, query, selectedCategory)| else 12
    ensures forall j :: 0 <= j < |r.stores| ==> r.stores[j] == FilteredStores(stores, query)[j]
    ensures forall j :: 0 <= j < |r.products| ==> r.products[j] == FilteredProducts(products, query, selectedCategory)[j]
  {
    Featured(Seqs.Take(FilteredStores(stores, query), 6), Seqs.Take(FilteredProducts(products, query, selectedCategory), 12))
  }

  /** Every featured store and product is one the lists show too. */
  lemma FeaturedAreListed(stores: seq<Store>, products: seq<Product>, query: string, selectedCategory: string)
    ensures forall s :: s in FeaturedOf(stores, products, query, selectedCategory).stores ==>
      s in stores && StoreMatches(s, query)
    ensures forall p :: p in FeaturedOf(stores, products, query, selectedCategory).products ==>
      p in products && ProductMatchesSearch(p, query) && MatchesCategory(p, selectedCategory)
  {
    FilteredStoresSpec(stores, query);
    FilteredProductsSpec(products, query, selectedCategory);
    var f := FeaturedOf(stores, products, query, selectedCategory);
    forall s | s in f.stores ensures s in FilteredStores(stores, query) {
      var j :| 0 <= j < |f.stores| && f.stores[j] == s;
    }
    forall p | p in f.products ensures p in FilteredProducts(products, query, selectedCategory) {
      var j :| 0 <= j < |f.products| && f.products[j] == p;
    }
  }

  /** The page cells. */
  datatype PageState = PageState(
    stores: seq<Store>,
    products: seq<Product>,
    searchQuery: string,
    selectedCategory: string,
    showOrderModal: bool,
    isLoading: bool)

  /**
   * The cells right after the mount effect: empty lists, no search,
   * category `all`, still loading, and the order modal open exactly when
   * the `action` URL parameter is `order`.
   */
  function Mounted(action: Option<string>): (r: PageState)
    ensures r.stores == [] && r.products == [] && r.searchQuery == "" && r.selectedCategory == "all"
    ensures r.isLoading
    ensures r.showOrderModal <==> action == Some("order")
  {
    PageState([], [], "", "all", action == Some("order"), true)
  }

  /** What `loadData` obtains: a failure, or both lists. */
  datatype LoadOutcome = Failed | Loaded(stores: seq<Store>, products: seq<Product>)

  /** After loading: the lists are replaced on success and kept on failure; loading ends either way. */
  function AfterLoad(state: PageState, outcome: LoadOutcome): (r: PageState)
    ensures !r.isLoading
    ensures outcome.Loaded? ==> r.stores == outcome.stores && r.products == outcome.products
    ensures outcome.Failed? ==> r.stores == state.stores && r.products == state.products
    ensures r.searchQuery == state.searchQuery && r.selectedCategory == state.selectedCategory
    ensures r.showOrderModal == state.showOrderModal
  {
    match outcome
    case Failed => state.(isLoading := false)
    case Loaded(stores, products) => state.(stores := stores, products := products, isLoading := false)
  }

  /** A failed first load leaves both lists, and so both filtered lists, empty. */
  lemma FailedFirstLoadListsNothing(action: Option<string>)
    ensures var r := AfterLoad(Mounted(action), Failed);
      FilteredStores(r.stores, r.searchQuery) == [] && FilteredProducts(r.products, r.searchQuery, r.selectedCategory) == []
  {
  }
}
