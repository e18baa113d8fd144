/**
 * The customer's cart in the Python bot: add_to_cart, remove_from_cart and
 * show_cart as functions from the tables before to the tables after, and the
 * properties they keep.
 */
module Cart {
  import opened Wrappers
  import opened Query
  import opened Schema
  import opened Store
  import opened Callback

  // ----- add_to_cart, step by step -----------------------------------------------

  /** The tables after finding or creating the cart, and the cart's id. */
  datatype CartStep = CartStep(tables: Tables, orderId: int)

  /** Find the customer's cart; insert one (status cart, total 0) when there is none. */
  function EnsureCart(t: Tables, userId: int): (r: CartStep)
  {
    match CartIndex(t.orders, userId)
    case Some(c) => CartStep(t, t.orders[c].id)
    case None =>
      CartStep(t.(orders := t.orders + [Order(t.nextId, userId, Cart, None, 0)], nextId := t.nextId + 1), t.nextId)
  }

  /** Raise the quantity of the order's line for the product by one, or insert a line with quantity 1 at `price`. */
  function PutLine(t: Tables, orderId: int, productId: int, price: int): (r: Tables)
  {
    match LineIndex(t.items, orderId, productId)
    case Some(k) => t.(items := UpdateWhere(t.items, ItemIdIs(t.items[k].id), SetQuantity(t.items[k].quantity + 1)))
    case None => t.(items := t.items + [OrderItem(t.nextId, orderId, productId, 1, price)], nextId := t.nextId + 1)
  }

  /**
   * `calculate_order_total(order_id)`: the sum over the order's lines, or 0
   * when reading the lines fails (`fails`), since the `except` returns 0.
   */
  function ReadTotal(items: seq<OrderItem>, orderId: int, fails: bool): (r: int)
  {
    if fails then 0 else OrderTotal(items, orderId)
  }

  /** Write the total `calculate_order_total` returned onto the order. */
  function StoreTotal(t: Tables, orderId: int, fails: bool): (r: Tables)
  {
    t.(orders := UpdateWhere(t.orders, OrderIdIs(orderId), SetTotal(ReadTotal(t.items, orderId, fails))))
  }

  /** The callback answer: the product's name, or the error answer when the handler raised. */
  datatype AddReply = Added(productName: string) | AddFailed

  /**
   * `add_to_cart(user_id, product_id)`. A product id with no row makes
   * `data[0]` raise after the cart was created; the new cart stays.
   * `totalFails` says whether `calculate_order_total` failed to read the lines.
   */
  function AddToCartSpec(t: Tables, userId: int, productId: int, totalFails: bool): (r: Outcome<AddReply>)
  {
    var step := EnsureCart(t, userId);
    var t1 := step.tables;
    match ProductIndex(t1.products, productId)
    case None => Outcome(t1, AddFailed, [])
    case Some(p) =>
      var product := t1.products[p];
      Outcome(StoreTotal(PutLine(t1, step.orderId, productId, product.price), step.orderId, totalFails), Added(product.name), [])
  }

  // ----- Facts about the steps ----------------------------------------------------

  /** A new row appended after a table in which p held nowhere is the first match. */
  lemma FindAppended<T>(s: seq<T>, x: T, p: T -> bool)
    requires FindFirst(s, p).None? && p(x)
    ensures FindFirst(s + [x], p) == Some(|s|)
  {
    var r := FindFirst(s + [x], p);
    assert p((s + [x])[|s|]);
    forall j | 0 <= j < |s| ensures !p((s + [x])[j]) { assert (s + [x])[j] == s[j]; }
  }

  /** After the first step the customer has exactly the cart whose id is returned, and the tables are still valid. */
  lemma EnsureCartFacts(t: Tables, userId: int)
    requires Valid(t)
    ensures var s := EnsureCart(t, userId);
      && Valid(s.tables)
      && 1 <= s.orderId < s.tables.nextId
      && CartIndex(s.tables.orders, userId).Some?
      && s.tables.orders[CartIndex(s.tables.orders, userId).value].id == s.orderId
      && s.tables.items == t.items && s.tables.products == t.products && s.tables.profiles == t.profiles
      && (CartIndex(t.orders, userId).Some? ==> s.tables == t)
      && (CartIndex(t.orders, userId).None? ==>
            s.tables.orders == t.orders + [Order(t.nextId, userId, Cart, None, 0)] && s.tables.nextId == t.nextId + 1)
  {
    match CartIndex(t.orders, userId)
    case Some(c) =>
    case None =>
      var o := Order(t.nextId, userId, Cart, None, 0);
      var t1 := EnsureCart(t, userId).tables;
      assert t1.orders == t.orders + [o];
      FindAppended(t.orders, o, CartOf(userId));
      AppendKeepsDistinct(t.orders, o, OrderId);
      NewCartKeepsOneCart(t.orders, o);
      forall i | 0 <= i < |t1.orders| ensures 1 <= t1.orders[i].id < t1.nextId {
        if i < |t.orders| { assert t1.orders[i] == t.orders[i]; }
      }
  }

  /** The orders' rows are left alone and every key stays what it was when one line is rewritten by a quantity-only change. */
  lemma BumpedLine(t: Tables, k: nat)
    requires Valid(t) && k < |t.items|
    ensures var f := SetQuantity(t.items[k].quantity + 1);
      UpdateWhere(t.items, ItemIdIs(t.items[k].id), f) == t.items[k := t.items[k].(quantity := t.items[k].quantity + 1)]
  {
    DistinctKeyAt(t.items, ItemId, k);
    UpdateOnly(t.items, ItemIdIs(t.items[k].id), SetQuantity(t.items[k].quantity + 1), k);
  }

  /** Raising one line's quantity keeps the tables valid, adds its frozen price to its order and touches no other order. */
  lemma BumpFacts(t: Tables, k: nat)
    requires Valid(t) && k < |t.items|
    ensures var bumped := t.items[k].(quantity := t.items[k].quantity + 1);
      && Valid(t.(items := t.items[k := bumped]))
      && OrderTotal(t.items[k := bumped], t.items[k].orderId) == OrderTotal(t.items, t.items[k].orderId) + t.items[k].priceAtTime
      && (forall other :: other != t.items[k].orderId ==> OrderTotal(t.items[k := bumped], other) == OrderTotal(t.items, other))
  {
    var it := t.items[k];
    var bumped := it.(quantity := it.quantity + 1);
    var items := t.items[k := bumped];
    ReplaceKeepsDistinct(t.items, k, bumped, ItemId);
    ReplaceKeepsDistinct(t.items, k, bumped, LineKey);
    assert forall i :: 0 <= i < |items| ==> items[i].quantity >= 1;
    IncrementAddsPrice(t.items, k);
    forall other | other != it.orderId ensures OrderTotal(items, other) == OrderTotal(t.items, other) {
      OrderTotalReplace(t.items, k, bumped, other);
    }
  }

  /** Inserting a line for a (order, product) pair that has none keeps the tables valid and adds its amount to its order only. */
  lemma InsertFacts(t: Tables, orderId: int, productId: int, price: int)
    requires Valid(t) && 1 <= orderId < t.nextId && LineIndex(t.items, orderId, productId).None?
    ensures var it := OrderItem(t.nextId, orderId, productId, 1, price);
      && Valid(t.(items := t.items + [it], nextId := t.nextId + 1))
      && LineIndex(t.items + [it], orderId, productId) == Some(|t.items|)
      && OrderTotal(t.items + [it], orderId) == OrderTotal(t.items, orderId) + price
      && (forall other :: other != orderId ==> OrderTotal(t.items + [it], other) == OrderTotal(t.items, other))
  {
    var it := OrderItem(t.nextId, orderId, productId, 1, price);
    var t2 := t.(items := t.items + [it], nextId := t.nextId + 1);
    AppendKeepsDistinct(t.items, it, ItemId);
    assert forall i :: 0 <= i < |t.items| ==> !LineFor(orderId, productId)(t.items[i]);
    AppendKeepsDistinct(t.items, it, LineKey);
    FindAppended(t.items, it, LineFor(orderId, productId));
    OrderTotalAppend(t.items, it, orderId);
    forall other | other != orderId ensures OrderTotal(t2.items, other) == OrderTotal(t.items, other) {
      OrderTotalAppend(t.items, it, other);
    }
    forall i | 0 <= i < |t2.items|
      ensures 1 <= t2.items[i].id < t2.nextId && 1 <= t2.items[i].orderId < t2.nextId && t2.items[i].quantity >= 1
    {
      if i < |t.items| { assert t2.items[i] == t.items[i]; }
    }
  }

  /**
   * The second step keeps the tables valid, leaves a line for
   * (order, product), raises the order's total by that line's price and
   * changes no other order's total.
   */
  lemma PutLineFacts(t: Tables, orderId: int, productId: int, price: int)
    requires Valid(t) && 1 <= orderId < t.nextId
    ensures var t2 := PutLine(t, orderId, productId, price);
      && Valid(t2)
      && t2.orders == t.orders && t2.products == t.products && t2.profiles == t.profiles
      && LineIndex(t2.items, orderId, productId).Some?
      && (match LineIndex(t.items, orderId, productId)
          case Some(k) =>
            && t2.items == t.items[k := t.items[k].(quantity := t.items[k].quantity + 1)]
            && t2.nextId == t.nextId
            && OrderTotal(t2.items, orderId) == OrderTotal(t.items, orderId) + t.items[k].priceAtTime
          case None =>
            && t2.items == t.items + [OrderItem(t.nextId, orderId, productId, 1, price)]
            && t2.nextId == t.nextId + 1
            && OrderTotal(t2.items, orderId) == OrderTotal(t.items, orderId) + price)
      && (forall other :: other != orderId ==> OrderTotal(t2.items, other) == OrderTotal(t.items, other))
  {
    var t2 := PutLine(t, orderId, productId, price);
    match LineIndex(t.items, orderId, productId)
    case Some(k) =>
      PutLineBumps(t, orderId, productId, price, k);
    case None =>
      InsertFacts(t, orderId, productId, price);
  }

  /** The second step on a product already in the order: its line is raised by one. */
  lemma PutLineBumps(t: Tables, orderId: int, productId: int, price: int, k: nat)
    requires Valid(t) && LineIndex(t.items, orderId, productId) == Some(k)
    ensures var t2 := PutLine(t, orderId, productId, price);
      && Valid(t2)
      && t2 == t.(items := t.items[k := t.items[k].(quantity := t.items[k].quantity + 1)])
      && LineIndex(t2.items, orderId, productId).Some?
      && OrderTotal(t2.items, orderId) == OrderTotal(t.items, orderId) + t.items[k].priceAtTime
      && (forall other :: other != orderId ==> OrderTotal(t2.items, other) == OrderTotal(t.items, other))
  {
    var bumped := t.items[k].(quantity := t.items[k].quantity + 1);
    assert LineFor(orderId, productId)(t.items[k]);
    assert t.items[k].orderId == orderId;
    BumpedLine(t, k);
    BumpFacts(t, k);
    assert LineFor(orderId, productId)(t.items[k := bumped][k]);
  }

  /** The third step keeps the tables valid and sets the total of that order, and of no other, to what `calculate_order_total` returned. */
  lemma StoreTotalFacts(t: Tables, orderId: int, fails: bool)
    requires Valid(t)
    ensures var t3 := StoreTotal(t, orderId, fails);
      && Valid(t3)
      && t3.items == t.items && t3.products == t.products && t3.profiles == t.profiles && t3.nextId == t.nextId
      && |t3.orders| == |t.orders|
      && (forall i :: 0 <= i < |t.orders| ==>
            t3.orders[i] == if t.orders[i].id == orderId then t.orders[i].(totalAmount := ReadTotal(t.items, orderId, fails)) else t.orders[i])
      && (forall u :: CartIndex(t3.orders, u) == CartIndex(t.orders, u))
      && KeepsRows(t.orders, t3.orders)
  {
    var f := SetTotal(ReadTotal(t.items, orderId, fails));
    var t3 := StoreTotal(t, orderId, fails);
    UpdateKeepsDistinct(t.orders, OrderIdIs(orderId), f, OrderId);
    UpdateKeepsOneCart(t.orders, OrderIdIs(orderId), f);
    forall u ensures CartIndex(t3.orders, u) == CartIndex(t.orders, u) {
      FindSame(t3.orders, t.orders, CartOf(u));
    }
  }

  // ----- add_to_cart: what the source promises ---------------------------------------

  /** add_to_cart keeps every table invariant. */
  lemma AddToCartKeepsValid(t: Tables, userId: int, productId: int, totalFails: bool)
    requires Valid(t)
    ensures Valid(AddToCartSpec(t, userId, productId, totalFails).tables)
  {
    var step := EnsureCart(t, userId);
    EnsureCartFacts(t, userId);
    match ProductIndex(step.tables.products, productId)
    case None =>
    case Some(p) =>
      var t2 := PutLine(step.tables, step.orderId, productId, step.tables.products[p].price);
      PutLineFacts(step.tables, step.orderId, productId, step.tables.products[p].price);
      StoreTotalFacts(t2, step.orderId, totalFails);
  }

  /** The cart's id: the existing cart's, or the id the new cart receives. */
  function CartIdAfter(t: Tables, userId: int): (r: int)
  {
    match CartIndex(t.orders, userId)
    case Some(c) => t.orders[c].id
    case None => t.nextId
  }

  /**
   * A product already in the cart: its line's quantity goes up by exactly one,
   * its frozen price stays, no line is added, and the cart total rises by that
   * frozen price.
   */
  lemma AddToCartIncrements(t: Tables, userId: int, productId: int, totalFails: bool, k: nat)
    requires Valid(t) && ProductIndex(t.products, productId).Some?
    requires CartIndex(t.orders, userId).Some?
    requires LineIndex(t.items, CartIdAfter(t, userId), productId) == Some(k)
    ensures var r := AddToCartSpec(t, userId, productId, totalFails);
      && r.tables.items == t.items[k := t.items[k].(quantity := t.items[k].quantity + 1)]
      && r.tables.items[k].priceAtTime == t.items[k].priceAtTime
      && |r.tables.orders| == |t.orders|
      && OrderTotal(r.tables.items, CartIdAfter(t, userId)) == OrderTotal(t.items, CartIdAfter(t, userId)) + t.items[k].priceAtTime
      && r.reply == Added(t.products[ProductIndex(t.products, productId).value].name)
  {
    var cid := CartIdAfter(t, userId);
    var p := ProductIndex(t.products, productId).value;
    var price := t.products[p].price;
    assert EnsureCart(t, userId) == CartStep(t, cid);
    var t2 := PutLine(t, cid, productId, price);
    assert t2.items == t.items[k := t.items[k].(quantity := t.items[k].quantity + 1)]
        && OrderTotal(t2.items, cid) == OrderTotal(t.items, cid) + t.items[k].priceAtTime by {
      PutLineBumps(t, cid, productId, price, k);
    }
    assert AddToCartSpec(t, userId, productId, totalFails) == Outcome(StoreTotal(t2, cid, totalFails), Added(t.products[p].name), []);
  }

  /**
   * A product not yet in the cart (or no cart at all): exactly one new line
   * with quantity 1 at the product's current price, and the total rises by
   * that price.
   */
  lemma AddToCartInsertsLine(t: Tables, userId: int, productId: int, totalFails: bool)
    requires Valid(t) && ProductIndex(t.products, productId).Some?
    requires CartIndex(t.orders, userId).None? || LineIndex(t.items, CartIdAfter(t, userId), productId).None?
    ensures var r := AddToCartSpec(t, userId, productId, totalFails);
      var price := t.products[ProductIndex(t.products, productId).value].price;
      var id := EnsureCart(t, userId).tables.nextId;
      && r.tables.items == t.items + [OrderItem(id, CartIdAfter(t, userId), productId, 1, price)]
      && id >= t.nextId
      && OrderTotal(r.tables.items, CartIdAfter(t, userId)) == OrderTotal(t.items, CartIdAfter(t, userId)) + price
  {
    var step := EnsureCart(t, userId);
    EnsureCartFacts(t, userId);
    var p := ProductIndex(t.products, productId).value;
    if CartIndex(t.orders, userId).None? {
      assert forall i :: 0 <= i < |t.items| ==> !LineFor(step.orderId, productId)(t.items[i]);
    }
    PutLineFacts(step.tables, step.orderId, productId, t.products[p].price);
  }

  /** The rows of `a` are still the first rows of `b`, with the same id, status and customer. */
  ghost predicate KeepsRows(a: seq<Order>, b: seq<Order>)
  {
    |a| <= |b|
    && forall i :: 0 <= i < |a| ==>
         b[i].id == a[i].id && b[i].status == a[i].status && b[i].customerId == a[i].customerId
  }

  lemma KeepsRowsTrans(a: seq<Order>, b: seq<Order>, c: seq<Order>)
    requires KeepsRows(a, b) && KeepsRows(b, c)
    ensures KeepsRows(a, c)
  {
  }

  /**
   * A cart is created (status cart, total 0, the next id) only when the
   * customer has none; whatever happens next, the customer then has a cart.
   */
  lemma AddToCartCreatesCartOnlyWhenNone(t: Tables, userId: int, productId: int, totalFails: bool)
    requires Valid(t)
    ensures var r := AddToCartSpec(t, userId, productId, totalFails);
      && |r.tables.orders| == |t.orders| + (if CartIndex(t.orders, userId).None? then 1 else 0)
      && (forall i :: 0 <= i < |t.orders| ==>
            (r.tables.orders[i].id == t.orders[i].id && r.tables.orders[i].status == t.orders[i].status
             && r.tables.orders[i].customerId == t.orders[i].customerId))
      && (CartIndex(t.orders, userId).None? ==>
            var o := r.tables.orders[|t.orders|];
            o.id == t.nextId && o.customerId == userId && o.status == Cart && o.pickupLocation == None)
      && CartIndex(r.tables.orders, userId).Some?
  {
    var step := EnsureCart(t, userId);
    EnsureCartFacts(t, userId);
    var r := AddToCartSpec(t, userId, productId, totalFails);
    assert KeepsRows(t.orders, step.tables.orders) by {
      if CartIndex(t.orders, userId).None? {
        forall i | 0 <= i < |t.orders| ensures step.tables.orders[i] == t.orders[i] { }
      }
    }
    match ProductIndex(step.tables.products, productId)
    case None =>
    case Some(p) =>
      var t2 := PutLine(step.tables, step.orderId, productId, step.tables.products[p].price);
      PutLineFacts(step.tables, step.orderId, productId, step.tables.products[p].price);
      StoreTotalFacts(t2, step.orderId, totalFails);
      assert r.tables == StoreTotal(t2, step.orderId, totalFails);
      KeepsRowsTrans(t.orders, t2.orders, r.tables.orders);
      if CartIndex(t.orders, userId).None? {
        var n := |t.orders|;
        assert r.tables.orders[n] == t2.orders[n].(totalAmount := r.tables.orders[n].totalAmount);
      }
  }

  /**
   * After a successful add the cart's stored total is the sum over its lines,
   * or 0 when `calculate_order_total` could not read them.
   */
  lemma AddToCartStoresTotal(t: Tables, userId: int, productId: int, totalFails: bool)
    requires Valid(t) && ProductIndex(t.products, productId).Some?
    ensures var r := AddToCartSpec(t, userId, productId, totalFails);
      match CartIndex(r.tables.orders, userId)
      case Some(c) => r.tables.orders[c].totalAmount == ReadTotal(r.tables.items, r.tables.orders[c].id, totalFails)
      case None => false
  {
    var step := EnsureCart(t, userId);
    EnsureCartFacts(t, userId);
    var p := ProductIndex(t.products, productId).value;
    var t2 := PutLine(step.tables, step.orderId, productId, t.products[p].price);
    PutLineFacts(step.tables, step.orderId, productId, t.products[p].price);
    StoreTotalFacts(t2, step.orderId, totalFails);
    var c := CartIndex(step.tables.orders, userId).value;
    assert CartIndex(AddToCartSpec(t, userId, productId, totalFails).tables.orders, userId) == Some(c);
  }

  /** A product id with no row: no line changes and the answer is the error, but a cart created on the way stays. */
  lemma AddToCartMissingProduct(t: Tables, userId: int, productId: int, totalFails: bool)
    requires Valid(t) && ProductIndex(t.products, productId).None?
    ensures var r := AddToCartSpec(t, userId, productId, totalFails);
      r.reply == AddFailed && r.tables.items == t.items && CartIndex(r.tables.orders, userId).Some?
  {
    EnsureCartFacts(t, userId);
  }

  /**
   * Totals of other orders are untouched and the cart's own is recomputed, so
   * consistent cart totals stay consistent when the lines can be read.
   */
  lemma AddToCartKeepsTotals(t: Tables, userId: int, productId: int, totalFails: bool)
    requires Valid(t) && CartTotalsConsistent(t.orders, t.items)
    ensures !totalFails ==>
      CartTotalsConsistent(AddToCartSpec(t, userId, productId, totalFails).tables.orders, AddToCartSpec(t, userId, productId, totalFails).tables.items)
  {
    if !totalFails {
      var step := EnsureCart(t, userId);
      EnsureCartFacts(t, userId);
      var t1 := step.tables;
      assert CartTotalsConsistent(t1.orders, t1.items) by {
        if CartIndex(t.orders, userId).None? {
          NoLinesNoTotal(t.items, t.nextId);
          forall i | 0 <= i < |t1.orders| && t1.orders[i].status == Cart
            ensures t1.orders[i].totalAmount == OrderTotal(t1.items, t1.orders[i].id)
          {
            if i < |t.orders| { assert t1.orders[i] == t.orders[i]; }
          }
        }
      }
      match ProductIndex(t1.products, productId)
      case None =>
      case Some(p) =>
        var t2 := PutLine(t1, step.orderId, productId, t1.products[p].price);
        PutLineFacts(t1, step.orderId, productId, t1.products[p].price);
        StoreTotalFacts(t2, step.orderId, false);
        var t3 := StoreTotal(t2, step.orderId, false);
        forall i | 0 <= i < |t3.orders| && t3.orders[i].status == Cart
          ensures t3.orders[i].totalAmount == OrderTotal(t3.items, t3.orders[i].id)
        {
          if t2.orders[i].id != step.orderId {
            assert t3.orders[i] == t1.orders[i];
          }
        }
    }
  }

  /**
   * When `calculate_order_total` cannot read the lines, its `except` returns 0
   * and add_to_cart stores 0 on a cart that has a line, and still answers that
   * the product was added.
   */
  lemma AddToCartFailedReadZeroes()
    ensures var t := Tables([], [], [Product(5, "Popcorn", "popcorn", 50, true)], [], 1);
      var r := AddToCartSpec(t, 10, 5, true);
      && Valid(t)
      && r.reply == Added("Popcorn")
      && |r.tables.orders| == 1 && r.tables.orders[0].totalAmount == 0
      && OrderTotal(r.tables.items, r.tables.orders[0].id) == 50
      && !CartTotalsConsistent(r.tables.orders, r.tables.items)
  {
    var t := Tables([], [], [Product(5, "Popcorn", "popcorn", 50, true)], [], 1);
    var t1 := EnsureCart(t, 10).tables;
    assert t1.orders == [Order(1, 10, Cart, None, 0)];
    assert ProductIndex(t1.products, 5) == Some(0);
    assert LineIndex(t1.items, 1, 5) == None;
    var t2 := PutLine(t1, 1, 5, 50);
    assert t2.items == [OrderItem(2, 1, 5, 1, 50)];
    assert OrderTotal(t2.items, 1) == 50;
    var r := AddToCartSpec(t, 10, 5, true);
    assert r.tables == StoreTotal(t2, 1, true);
    assert r.tables.orders == [Order(1, 10, Cart, None, 0)];
  }

  // ----- show_cart ------------------------------------------------------------------

  /** One line of the cart message and its delete button. */
  datatype CartLine = CartLine(name: string, quantity: int, amount: int, removeButton: string)

  /** What show_cart puts on screen. */
  datatype CartView = CartEmpty | CartShown(lines: seq<CartLine>, total: int) | CartLoadError

  /** The product name the `products(name)` join gives each row; None when some row's product has no row of its own. */
  function LineNames(rows: seq<OrderItem>, products: seq<Product>): (r: Option<seq<string>>)
    ensures r.Some? <==> forall i :: 0 <= i < |rows| ==> ProductIndex(products, rows[i].productId).Some?
    ensures r.Some? ==> |r.value| == |rows|
    ensures r.Some? ==> forall i :: 0 <= i < |rows| ==> r.value[i] == products[ProductIndex(products, rows[i].productId).value].name
    decreases |rows|
  {
    if rows == [] then Some([])
    else match ProductIndex(products, rows[0].productId)
      case None => None
      case Some(p) =>
        match LineNames(rows[1..], products)
        case None => None
        case Some(rest) => Some([products[p].name] + rest)
  }

  /** The message lines for the cart's rows, in row order. */
  function CartLines(rows: seq<OrderItem>, names: seq<string>): (r: seq<CartLine>)
    requires |names| == |rows|
  {
    seq(|rows|, i requires 0 <= i < |rows| => CartLine(names[i], rows[i].quantity, LineAmount(rows[i]), RemoveFromCartData(rows[i].id)))
  }

  /** Sum of the amounts shown. */
  function SumAmounts(lines: seq<CartLine>): (r: int)
  {
    if lines == [] then 0 else lines[0].amount + SumAmounts(lines[1..])
  }

  /** The rows the cart query returns. */
  function CartRows(t: Tables, orderId: int): (r: seq<OrderItem>)
  {
    Filter(t.items, InOrder(orderId))
  }

  /** `show_cart(user_id)`: empty without a cart or without lines, otherwise its lines and their total. */
  function CartViewSpec(t: Tables, userId: int): (r: CartView)
  {
    match CartIndex(t.orders, userId)
    case None => CartEmpty
    case Some(c) =>
      var rows := CartRows(t, t.orders[c].id);
      if rows == [] then CartEmpty
      else match LineNames(rows, t.products)
        case None => CartLoadError
        case Some(names) => CartShown(CartLines(rows, names), OrderTotal(t.items, t.orders[c].id))
  }

  /** The amounts shown add up to the sum over the rows. */
  lemma {:induction false} SumAmountsOfLines(rows: seq<OrderItem>, names: seq<string>)
    requires |names| == |rows|
    ensures SumAmounts(CartLines(rows, names)) == Sum(rows)
    decreases |rows|
  {
    if rows != [] {
      SumAmountsOfLines(rows[1..], names[1..]);
      assert CartLines(rows, names)[1..] == CartLines(rows[1..], names[1..]);
    }
  }

  /** The cart shows as empty exactly when the customer has no cart or the cart has no lines. */
  lemma CartViewEmptyIff(t: Tables, userId: int)
    ensures CartViewSpec(t, userId) == CartEmpty <==>
      match CartIndex(t.orders, userId)
      case None => true
      case Some(c) => forall i :: 0 <= i < |t.items| ==> t.items[i].orderId != t.orders[c].id
  {
    match CartIndex(t.orders, userId)
    case None =>
    case Some(c) =>
      var rows := CartRows(t, t.orders[c].id);
      if rows != [] {
        assert rows[0] in rows;
        var i :| 0 <= i < |t.items| && t.items[i] == rows[0];
        assert t.items[i].orderId == t.orders[c].id;
      } else {
        forall i | 0 <= i < |t.items| ensures t.items[i].orderId != t.orders[c].id {
          assert t.items[i] in t.items && t.items[i] !in rows;
        }
      }
  }

  /**
   * A shown cart lists its rows in order, each with quantity times its frozen
   * price and a delete button that reaches remove_from_cart for that row; the
   * total is the sum of the amounts and the sum over the order's lines.
   */
  lemma CartViewShown(t: Tables, userId: int)
    ensures match CartViewSpec(t, userId)
      case CartShown(lines, total) =>
        var c := CartIndex(t.orders, userId).value;
        var rows := CartRows(t, t.orders[c].id);
        && |lines| == |rows|
        && (forall i :: 0 <= i < |rows| ==> lines[i].quantity == rows[i].quantity && lines[i].amount == rows[i].quantity * rows[i].priceAtTime)
        && (forall i :: 0 <= i < |rows| ==> RouteAsWritten(lines[i].removeButton) == Handle(RemoveFromCart(rows[i].id)))
        && total == SumAmounts(lines)
        && total == OrderTotal(t.items, t.orders[c].id)
      case _ => true
  {
    match CartIndex(t.orders, userId)
    case None =>
    case Some(c) =>
      var rows := CartRows(t, t.orders[c].id);
      if rows != [] {
        match LineNames(rows, t.products)
        case None =>
        case Some(names) =>
          var lines := CartLines(rows, names);
          SumAmountsOfLines(rows, names);
          SumOfOrderRows(t.items, t.orders[c].id);
          forall i | 0 <= i < |rows| ensures RouteAsWritten(lines[i].removeButton) == Handle(RemoveFromCart(rows[i].id)) {
            RouteRemoveFromCart(rows[i].id);
          }
      }
  }

  /** With consistent cart totals, the total shown is the total stored on the cart. */
  lemma CartViewMatchesStored(t: Tables, userId: int)
    requires CartTotalsConsistent(t.orders, t.items)
    ensures match CartViewSpec(t, userId)
      case CartShown(_, total) => total == t.orders[CartIndex(t.orders, userId).value].totalAmount
      case _ => true
  {
  }

  // ----- remove_from_cart ---------------------------------------------------------------

  /**
   * `remove_from_cart(user_id, item_id)`: delete the line with that id, whoever's
   * order it is in, then recompute the customer's cart total when there is a
   * cart, then show the cart.
   */
  function RemoveFromCartSpec(t: Tables, userId: int, itemId: int, totalFails: bool): (r: Outcome<CartView>)
  {
    var t1 := t.(items := Filter(t.items, ItemIdIsNot(itemId)));
    var t2 := match CartIndex(t1.orders, userId)
      case None => t1
      case Some(c) => StoreTotal(t1, t1.orders[c].id, totalFails);
    Outcome(t2, CartViewSpec(t2, userId), [])
  }

  /** Deleting lines keeps every table invariant. */
  lemma DeleteKeepsValid(t: Tables, itemId: int)
    requires Valid(t)
    ensures Valid(t.(items := Filter(t.items, ItemIdIsNot(itemId))))
  {
    var t1 := t.(items := Filter(t.items, ItemIdIsNot(itemId)));
    FilterKeepsDistinct(t.items, ItemIdIsNot(itemId), ItemId);
    FilterKeepsDistinct(t.items, ItemIdIsNot(itemId), LineKey);
    forall i | 0 <= i < |t1.items|
      ensures 1 <= t1.items[i].id < t1.nextId && 1 <= t1.items[i].orderId < t1.nextId && t1.items[i].quantity >= 1
    {
      assert t1.items[i] in t.items;
    }
  }

  /** remove_from_cart keeps every table invariant. */
  lemma RemoveFromCartKeepsValid(t: Tables, userId: int, itemId: int, totalFails: bool)
    requires Valid(t)
    ensures Valid(RemoveFromCartSpec(t, userId, itemId, totalFails).tables)
  {
    var t1 := t.(items := Filter(t.items, ItemIdIsNot(itemId)));
    DeleteKeepsValid(t, itemId);
    match CartIndex(t1.orders, userId)
    case None =>
    case Some(c) => StoreTotalFacts(t1, t1.orders[c].id, totalFails);
  }

  /** The line with that id is gone and every other line stays. */
  lemma RemoveFromCartDeletes(t: Tables, userId: int, itemId: int, totalFails: bool)
    ensures var r := RemoveFromCartSpec(t, userId, itemId, totalFails);
      forall x :: x in r.tables.items <==> x in t.items && x.id != itemId
  {
    var t1 := t.(items := Filter(t.items, ItemIdIsNot(itemId)));
    assert RemoveFromCartSpec(t, userId, itemId, totalFails).tables.items == t1.items;
  }

  /** Storing the recomputed total on the customer's cart keeps it the customer's cart and gives it that total. */
  lemma StoreCartTotal(t: Tables, userId: int, c: nat, fails: bool)
    requires Valid(t) && CartIndex(t.orders, userId) == Some(c)
    ensures var t3 := StoreTotal(t, t.orders[c].id, fails);
      && CartIndex(t3.orders, userId) == Some(c)
      && t3.orders[c].totalAmount == ReadTotal(t.items, t.orders[c].id, fails)
  {
    var t3 := StoreTotal(t, t.orders[c].id, fails);
    StoreTotalFacts(t, t.orders[c].id, fails);
    assert CartOf(userId)(t3.orders[c]);
    forall j | 0 <= j < c ensures !CartOf(userId)(t3.orders[j]) {
      assert !CartOf(userId)(t.orders[j]);
    }
  }

  /**
   * The customer's cart, if any, then stores the sum over its remaining lines,
   * which is the old sum less the deleted line's amount when that line was in
   * this cart; without a cart no order changes.
   */
  lemma RemoveFromCartTotal(t: Tables, userId: int, itemId: int, totalFails: bool)
    requires Valid(t)
    ensures var r := RemoveFromCartSpec(t, userId, itemId, totalFails);
      match CartIndex(t.orders, userId)
      case None => r.tables.orders == t.orders
      case Some(c) =>
        var id := t.orders[c].id;
        && CartIndex(r.tables.orders, userId) == Some(c)
        && r.tables.orders[c].totalAmount == ReadTotal(r.tables.items, id, totalFails)
        && OrderTotal(r.tables.items, id) == OrderTotal(t.items, id) -
             (match FindFirst(t.items, ItemIdIs(itemId)) case Some(k) => Share(t.items[k], id) case None => 0)
  {
    var t1 := t.(items := Filter(t.items, ItemIdIsNot(itemId)));
    match CartIndex(t.orders, userId)
    case None =>
    case Some(c) =>
      DeleteKeepsValid(t, itemId);
      StoreCartTotal(t1, userId, c, totalFails);
      StoreTotalFacts(t1, t.orders[c].id, totalFails);
      OrderTotalWithout(t.items, itemId, t.orders[c].id);
  }

  /**
   * There is no ownership check: one customer can delete a line of another
   * customer's cart, whose stored total then no longer matches its lines.
   */
  lemma RemoveIgnoresOwnership()
    ensures var t := Tables([Order(1, 10, Cart, None, 5)], [OrderItem(2, 1, 7, 1, 5)], [], [], 3);
      var r := RemoveFromCartSpec(t, 20, 2, false);
      && Valid(t) && CartTotalsConsistent(t.orders, t.items)
      && r.tables.items == [] && !CartTotalsConsistent(r.tables.orders, r.tables.items)
  {
    var t := Tables([Order(1, 10, Cart, None, 5)], [OrderItem(2, 1, 7, 1, 5)], [], [], 3);
    assert OrderTotal(t.items, 1) == 5;
    var t1 := t.(items := Filter(t.items, ItemIdIsNot(2)));
    assert t1.items == [];
    assert CartIndex(t1.orders, 20) == None;
    var r := RemoveFromCartSpec(t, 20, 2, false);
    assert r.tables.orders[0].totalAmount == 5 && OrderTotal(r.tables.items, 1) == 0;
  }
}
