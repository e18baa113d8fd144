/**
 * The four Supabase tables the bot reads and writes, the filters and update
 * payloads its queries use, and the order total: the sum of quantity times
 * price_at_time over an order's lines.
 */
module Schema {
  import opened Wrappers
  import opened Query

  /** orders.status, as written by the bot. */
  datatype Status = Cart | Pending | Preparing | ReadyForPickup | Completed | Cancelled

  /** A row of `orders`; pickupLocation is None until checkout writes `<location>_buffer`. */
  datatype Order = Order(id: int, customerId: int, status: Status, pickupLocation: Option<string>, totalAmount: int)

  /** A row of `order_items`: a cart line with the unit price frozen when it was added. */
  datatype OrderItem = OrderItem(id: int, orderId: int, productId: int, quantity: int, priceAtTime: int)

  /** A row of `products`. */
  datatype Product = Product(id: int, name: string, category: string, price: int, isAvailable: bool)

  /** A row of `profiles`; role is `customer`, `seller_left` or `seller_right` in practice. */
  datatype Profile = Profile(userId: int, username: string, fullName: string, role: string)

  // Keys of the tables' primary keys and of the (order_id, product_id) uniqueness of lines.

  function OrderId(o: Order): (r: int) { o.id }
  function ItemId(it: OrderItem): (r: int) { it.id }
  function LineKey(it: OrderItem): (r: (int, int)) { (it.orderId, it.productId) }
  function ProfileUser(p: Profile): (r: int) { p.userId }

  // The `.eq(...)` conditions of the bot's queries.

  function OrderIdIs(id: int): (r: Order -> bool) { (o: Order) => o.id == id }
  function CartOf(customer: int): (r: Order -> bool) { (o: Order) => o.customerId == customer && o.status == Cart }
  function ActiveOf(customer: int): (r: Order -> bool)
  {
    (o: Order) => o.customerId == customer && (o.status == Pending || o.status == Preparing || o.status == ReadyForPickup)
  }
  function PendingAt(pickup: string): (r: Order -> bool) { (o: Order) => o.status == Pending && o.pickupLocation == Some(pickup) }
  function PendingWithId(id: int): (r: Order -> bool) { (o: Order) => o.id == id && o.status == Pending }
  function ItemIdIs(id: int): (r: OrderItem -> bool) { (it: OrderItem) => it.id == id }
  function ItemIdIsNot(id: int): (r: OrderItem -> bool) { (it: OrderItem) => it.id != id }
  function InOrder(orderId: int): (r: OrderItem -> bool) { (it: OrderItem) => it.orderId == orderId }
  function LineFor(orderId: int, productId: int): (r: OrderItem -> bool)
  {
    (it: OrderItem) => it.orderId == orderId && it.productId == productId
  }
  function ProductIdIs(id: int): (r: Product -> bool) { (p: Product) => p.id == id }
  function CategoryIs(category: string): (r: Product -> bool) { (p: Product) => p.category == category }
  function UserIs(userId: int): (r: Profile -> bool) { (p: Profile) => p.userId == userId }
  function RoleIs(role: string): (r: Profile -> bool) { (p: Profile) => p.role == role }

  // The `.update(...)` payloads.

  function SetStatus(s: Status): (r: Order -> Order) { (o: Order) => o.(status := s) }
  function SetTotal(t: int): (r: Order -> Order) { (o: Order) => o.(totalAmount := t) }
  function SetCheckout(pickup: string): (r: Order -> Order) { (o: Order) => o.(status := Pending, pickupLocation := Some(pickup)) }
  function SetQuantity(q: int): (r: OrderItem -> OrderItem) { (it: OrderItem) => it.(quantity := q) }
  function SetLine(q: int, price: int): (r: OrderItem -> OrderItem) { (it: OrderItem) => it.(quantity := q, priceAtTime := price) }
  function SetNames(username: string, fullName: string): (r: Profile -> Profile)
  {
    (p: Profile) => p.(username := username, fullName := fullName)
  }

  // Lookups that read `data[0]`.

  function CartIndex(orders: seq<Order>, customer: int): (r: Option<nat>) { FindFirst(orders, CartOf(customer)) }
  function OrderIndex(orders: seq<Order>, id: int): (r: Option<nat>) { FindFirst(orders, OrderIdIs(id)) }
  function LineIndex(items: seq<OrderItem>, orderId: int, productId: int): (r: Option<nat>)
  {
    FindFirst(items, LineFor(orderId, productId))
  }
  function ProductIndex(products: seq<Product>, id: int): (r: Option<nat>) { FindFirst(products, ProductIdIs(id)) }
  function ProfileIndex(profiles: seq<Profile>, userId: int): (r: Option<nat>) { FindFirst(profiles, UserIs(userId)) }

  /** The role of the user's profile row, if there is one. */
  function RoleOf(profiles: seq<Profile>, userId: int): (r: Option<string>)
  {
    match ProfileIndex(profiles, userId)
    case None => None
    case Some(i) => Some(profiles[i].role)
  }

  /** The customer has at most one order in status `cart`. */
  ghost predicate AtMostOneCart(orders: seq<Order>)
  {
    forall i, j :: 0 <= i < j < |orders| && orders[i].status == Cart && orders[j].status == Cart ==>
      orders[i].customerId != orders[j].customerId
  }

  // Totals.

  /** quantity * price_at_time of one line. */
  function LineAmount(it: OrderItem): (r: int) { it.quantity * it.priceAtTime }

  /** Sum of the line amounts of a list of rows. */
  function Sum(rows: seq<OrderItem>): (r: int)
  {
    if rows == [] then 0 else LineAmount(rows[0]) + Sum(rows[1..])
  }

  /** What one line contributes to the total of the given order. */
  function Share(it: OrderItem, orderId: int): (r: int)
  {
    if it.orderId == orderId then LineAmount(it) else 0
  }

  /** The total of an order: the sum of quantity * price_at_time over the lines that belong to it. */
  function OrderTotal(items: seq<OrderItem>, orderId: int): (r: int)
  {
    if items == [] then 0 else Share(items[0], orderId) + OrderTotal(items[1..], orderId)
  }

  /** Every cart's stored total_amount equals the sum over its lines. */
  ghost predicate CartTotalsConsistent(orders: seq<Order>, items: seq<OrderItem>)
  {
    forall i :: 0 <= i < |orders| && orders[i].status == Cart ==> orders[i].totalAmount == OrderTotal(items, orders[i].id)
  }

  /** Summing the rows `select().eq('order_id', id)` returns gives the order's total. */
  lemma {:induction false} SumOfOrderRows(items: seq<OrderItem>, orderId: int)
    ensures Sum(Filter(items, InOrder(orderId))) == OrderTotal(items, orderId)
    decreases |items|
  {
    if items != [] {
      var rest := Filter(items[1..], InOrder(orderId));
      SumOfOrderRows(items[1..], orderId);
      if items[0].orderId == orderId {
        var rows := [items[0]] + rest;
        assert Filter(items, InOrder(orderId)) == rows;
        assert rows[0] == items[0] && rows[1..] == rest;
      } else {
        assert Filter(items, InOrder(orderId)) == [] + rest;
        assert [] + rest == rest;
      }
    }
  }

  /** An order that no line refers to has total 0. */
  lemma {:induction false} NoLinesNoTotal(items: seq<OrderItem>, orderId: int)
    requires forall i :: 0 <= i < |items| ==> items[i].orderId != orderId
    ensures OrderTotal(items, orderId) == 0
    decreases |items|
  {
    if items != [] {
      assert forall i :: 0 <= i < |items[1..]| ==> items[1..][i].orderId != orderId by {
        forall i | 0 <= i < |items[1..]| ensures items[1..][i].orderId != orderId { assert items[1..][i] == items[i + 1]; }
      }
      NoLinesNoTotal(items[1..], orderId);
    }
  }

  /** Inserting a line adds its amount to its own order's total and nothing to any other. */
  lemma {:induction false} OrderTotalAppend(items: seq<OrderItem>, it: OrderItem, orderId: int)
    ensures OrderTotal(items + [it], orderId) == OrderTotal(items, orderId) + Share(it, orderId)
    decreases |items|
  {
    if items == [] {
      assert items + [it] == [it];
      assert [it][1..] == [];
    } else {
      assert (items + [it])[0] == items[0];
      assert (items + [it])[1..] == items[1..] + [it];
      OrderTotalAppend(items[1..], it, orderId);
    }
  }

  /** Rewriting one line changes each order's total by the difference of that line's shares. */
  lemma {:induction false} OrderTotalReplace(items: seq<OrderItem>, k: nat, it: OrderItem, orderId: int)
    requires k < |items|
    ensures OrderTotal(items[k := it], orderId) == OrderTotal(items, orderId) - Share(items[k], orderId) + Share(it, orderId)
    decreases |items|
  {
    var upd := items[k := it];
    if k == 0 {
      assert upd[1..] == items[1..];
    } else {
      assert upd[0] == items[0];
      assert upd[1..] == items[1..][k - 1 := it];
      OrderTotalReplace(items[1..], k - 1, it, orderId);
    }
  }

  /** Raising the quantity of a line by one adds exactly its frozen price to its order's total. */
  lemma IncrementAddsPrice(items: seq<OrderItem>, k: nat)
    requires k < |items|
    ensures OrderTotal(items[k := items[k].(quantity := items[k].quantity + 1)], items[k].orderId)
         == OrderTotal(items, items[k].orderId) + items[k].priceAtTime
  {
    var it := items[k];
    var bumped := it.(quantity := it.quantity + 1);
    assert Share(bumped, it.orderId) == Share(it, it.orderId) + it.priceAtTime by {
      MulSucc(it.quantity, it.priceAtTime);
    }
    OrderTotalReplace(items, k, bumped, it.orderId);
  }

  /** One more unit adds one more price: the arithmetic step of `IncrementAddsPrice`. */
  lemma MulSucc(q: int, price: int)
    ensures (q + 1) * price == q * price + price
  {
  }

  /** Deleting the line with a given id lowers its order's total by that line's amount, and only that. */
  lemma {:induction false} OrderTotalWithout(items: seq<OrderItem>, id: int, orderId: int)
    requires DistinctBy(items, ItemId)
    ensures OrderTotal(Filter(items, ItemIdIsNot(id)), orderId) ==
      OrderTotal(items, orderId) - (match FindFirst(items, ItemIdIs(id)) case Some(k) => Share(items[k], orderId) case None => 0)
    decreases |items|
  {
    if items != [] {
      var tail := items[1..];
      assert DistinctBy(tail, ItemId) by {
        forall i, j | 0 <= i < j < |tail| ensures ItemId(tail[i]) != ItemId(tail[j]) {
          assert tail[i] == items[i + 1] && tail[j] == items[j + 1];
        }
      }
      OrderTotalWithout(tail, id, orderId);
      if items[0].id == id {
        assert forall i :: 0 <= i < |tail| ==> ItemIdIsNot(id)(tail[i]) by {
          forall i | 0 <= i < |tail| ensures tail[i].id != id {
            assert tail[i] == items[i + 1];
            assert ItemId(items[0]) != ItemId(items[i + 1]);
          }
        }
        FilterAll(tail, ItemIdIsNot(id));
        assert Filter(items, ItemIdIsNot(id)) == [] + tail;
        assert [] + tail == tail;
        assert FindFirst(tail, ItemIdIs(id)).None?;
      } else {
        var rest := Filter(tail, ItemIdIsNot(id));
        assert Filter(items, ItemIdIsNot(id)) == [items[0]] + rest;
        assert ([items[0]] + rest)[0] == items[0] && ([items[0]] + rest)[1..] == rest;
        match FindFirst(tail, ItemIdIs(id))
        case None =>
        case Some(m) =>
          assert FindFirst(items, ItemIdIs(id)) == Some(m + 1);
          assert items[m + 1] == tail[m];
      }
    }
  }

  /**
   * The order lifecycle the status writes are meant to follow:
   * cart -> pending -> preparing -> ready_for_pickup -> completed, and cart -> cancelled.
   */
  predicate LifecycleStep(from: Status, to: Status)
  {
    match (from, to)
    case (Cart, Pending) => true
    case (Pending, Preparing) => true
    case (Preparing, ReadyForPickup) => true
    case (ReadyForPickup, Completed) => true
    case (Cart, Cancelled) => true
    case _ => false
  }

  // Preservation of the table invariants under the bot's writes.

  /** Status writes that never produce `cart` keep at most one cart per customer. */
  lemma UpdateKeepsOneCart(orders: seq<Order>, p: Order -> bool, f: Order -> Order)
    requires AtMostOneCart(orders)
    requires forall o :: f(o).customerId == o.customerId && (f(o).status == Cart ==> o.status == Cart)
    ensures AtMostOneCart(UpdateWhere(orders, p, f))
  {
    var r := UpdateWhere(orders, p, f);
    forall i, j | 0 <= i < j < |r| && r[i].status == Cart && r[j].status == Cart
      ensures r[i].customerId != r[j].customerId
    {
      assert r[i].customerId == orders[i].customerId && orders[i].status == Cart;
      assert r[j].customerId == orders[j].customerId && orders[j].status == Cart;
    }
  }

  /** Creating a cart for a customer who has none keeps at most one cart per customer. */
  lemma NewCartKeepsOneCart(orders: seq<Order>, o: Order)
    requires AtMostOneCart(orders)
    requires o.status == Cart && CartIndex(orders, o.customerId).None?
    ensures AtMostOneCart(orders + [o])
  {
    var r := orders + [o];
    forall i, j | 0 <= i < j < |r| && r[i].status == Cart && r[j].status == Cart
      ensures r[i].customerId != r[j].customerId
    {
      if j == |orders| {
        assert !CartOf(o.customerId)(orders[i]);
      } else {
        assert r[i] == orders[i] && r[j] == orders[j];
      }
    }
  }
}
