/**
 * The product menu: the two product caches (the Python `menu_cache` dict and
 * the TypeScript `productCache` object), the category buttons and the product
 * list of one category.
 */
module Menu {
  import opened Wrappers
  import opened Query
  import opened Schema
  import opened Callback

  /** Python's window, in the units of `os.times().elapsed` (seconds). */
  const PyWindow := 300
  /** TypeScript's CACHE_DURATION, in milliseconds. */
  const CacheDuration := 5 * 60 * 1000

  function IsAvailable(p: Product): (r: bool) { p.isAvailable }

  /** What `select('*').eq('is_available', True)` returns from the products table. */
  function Available(table: seq<Product>): (r: seq<Product>)
    ensures forall p :: p in r <==> p in table && p.isAvailable
  {
    Filter(table, IsAvailable)
  }

  /** The Python cache: `products` is None until the first fetch, `last_updated` likewise. */
  class PyMenuCache {
    var products: Option<seq<Product>>
    var lastUpdated: Option<int>

    constructor ()
      ensures products == None && lastUpdated == None
    {
      products := None;
      lastUpdated := None;
    }

    /** The test that serves the cache: a non-empty list, a truthy (set, non-zero) timestamp, inside the window. */
    predicate Fresh(now: int)
      reads this
    {
      products.Some? && products.value != [] && lastUpdated.Some? && lastUpdated.value != 0
      && now - lastUpdated.value < PyWindow
    }

    /**
     * `get_products()`. A fresh cache is returned without a query; otherwise the
     * query replaces list and timestamp together, and a failed query returns []
     * and leaves the cache as it was.
     */
    method GetProducts(now: int, table: seq<Product>, fetchFails: bool) returns (r: seq<Product>)
      modifies this
      ensures old(Fresh(now)) ==> r == old(products.value) && products == old(products) && lastUpdated == old(lastUpdated)
      ensures !old(Fresh(now)) && fetchFails ==> r == [] && products == old(products) && lastUpdated == old(lastUpdated)
      ensures !old(Fresh(now)) && !fetchFails ==> r == Available(table) && products == Some(r) && lastUpdated == Some(now)
    {
      if Fresh(now) {
        return products.value;
      }
      if fetchFails {
        return [];
      }
      var data := Available(table);
      products := Some(data);
      lastUpdated := Some(now);
      return data;
    }
  }

  /**
   * Two calls inside the window: when the first fetched a non-empty menu at a
   * non-zero time, the second returns the same list without looking at the table.
   */
  method PyRepeatWithinWindow(cache: PyMenuCache, now: int, later: int, table: seq<Product>, table2: seq<Product>, fails2: bool)
    returns (first: seq<Product>, second: seq<Product>)
    requires !cache.Fresh(now)
    requires now != 0 && now <= later < now + PyWindow
    modifies cache
    ensures first == Available(table)
    ensures first != [] ==> second == first
    ensures first == [] && !fails2 ==> second == Available(table2)
  {
    first := cache.GetProducts(now, table, false);
    second := cache.GetProducts(later, table2, fails2);
  }

  /** The TypeScript cache: `{ data: null, timestamp: 0 }` at start. */
  class TsProductCache {
    var data: Option<seq<Product>>
    var timestamp: int

    constructor ()
      ensures data == None && timestamp == 0
    {
      data := None;
      timestamp := 0;
    }

    /** The test that serves the cache: any array (an empty one included) inside the window. */
    predicate Hit(now: int)
      reads this
    {
      data.Some? && now - timestamp < CacheDuration
    }

    /**
     * `getProducts()`. A hit is returned without a query; a query error gives
     * null and leaves the cache as it was; otherwise `(data, now)` replaces it.
     */
    method GetProducts(now: int, table: seq<Product>, error: bool) returns (r: Option<seq<Product>>)
      modifies this
      ensures old(Hit(now)) ==> r == old(data) && data == old(data) && timestamp == old(timestamp)
      ensures !old(Hit(now)) && error ==> r == None && data == old(data) && timestamp == old(timestamp)
      ensures !old(Hit(now)) && !error ==> r == Some(Available(table)) && data == r && timestamp == now
    {
      if Hit(now) {
        return data;
      }
      if error {
        return None;
      }
      data := Some(Available(table));
      timestamp := now;
      return data;
    }
  }

  /** An empty menu, once fetched, is served from the TypeScript cache for the whole window. */
  method TsEmptyMenuCached(cache: TsProductCache, now: int, later: int, table2: seq<Product>, error2: bool)
    returns (first: Option<seq<Product>>, second: Option<seq<Product>>)
    requires !cache.Hit(now)
    requires now <= later < now + CacheDuration
    modifies cache
    ensures first == Some(Available([])) && second == first
  {
    first := cache.GetProducts(now, [], false);
    second := cache.GetProducts(later, table2, error2);
  }

  // ----- show_categories and show_products ---------------------------------------

  /** The categories that get a button: one per distinct category of the product list. */
  function Categories(products: seq<Product>): (r: set<string>)
  {
    set i | 0 <= i < |products| :: products[i].category
  }

  /** The callback data of the category buttons. */
  function CategoryButtons(products: seq<Product>): (r: set<string>)
  {
    set c | c in Categories(products) :: CategoryData(c)
  }

  /** `[p for p in products if p['category'] == category]`. */
  function CategoryProducts(products: seq<Product>, category: string): (r: seq<Product>)
  {
    Filter(products, CategoryIs(category))
  }

  /** The callback data of the product buttons of one category, in list order. */
  function ProductButtons(products: seq<Product>, category: string): (r: seq<string>)
  {
    var listed := CategoryProducts(products, category);
    seq(|listed|, i requires 0 <= i < |listed| => AddToCartData(listed[i].id))
  }

  /** Every product on a category's list has that category, and every product of that category is listed. */
  lemma CategoryListExact(products: seq<Product>, category: string)
    ensures forall p :: p in CategoryProducts(products, category) <==> p in products && p.category == category
  {
  }

  /**
   * With the routing corrected, each category button opens a list that holds
   * every product of that category, and the list is not empty.
   */
  lemma CategoryButtonsListProducts(products: seq<Product>, button: string)
    requires button in CategoryButtons(products)
    ensures exists c :: RouteData(button) == Handle(ShowCategory(c)) && c in Categories(products)
    ensures match RouteData(button)
      case Handle(ShowCategory(c)) => CategoryProducts(products, c) != []
      case _ => false
  {
    var c :| c in Categories(products) && button == CategoryData(c);
    RouteCategory(c);
    var i :| 0 <= i < |products| && products[i].category == c;
    assert products[i] in CategoryProducts(products, c);
  }

  /** As written, the `cotton_candy` button opens a list with no cotton-candy product on it. */
  lemma CottonCandyNotListedAsWritten(products: seq<Product>)
    ensures match RouteAsWritten(CategoryData("cotton_candy"))
      case Handle(ShowCategory(c)) => forall p :: p in CategoryProducts(products, c) ==> p.category != "cotton_candy"
      case _ => false
  {
    CottonCandyAsWritten();
    assert "cotton" != "cotton_candy" by { assert |"cotton"| != |"cotton_candy"|; }
  }

  /** Each product button of a list reaches add_to_cart with that product's id. */
  lemma ProductButtonsRoute(products: seq<Product>, category: string, i: nat)
    requires i < |ProductButtons(products, category)|
    ensures RouteAsWritten(ProductButtons(products, category)[i]) == Handle(AddToCart(CategoryProducts(products, category)[i].id))
  {
    RouteAddToCart(CategoryProducts(products, category)[i].id);
  }
}
