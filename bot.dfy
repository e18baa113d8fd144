/**
 * The Python handlers as methods on the database object: each reads and
 * rewrites the tables step by step, as the handler issues its queries, and is
 * proved to leave exactly the state its specification function describes.
 */
module Bot {
  import opened Wrappers
  import opened Query
  import opened Schema
  import opened Store
  import opened Callback
  import opened Menu
  import opened Cart
  import opened Orders
  import opened Buttons

  /**
   * `calculate_order_total(order_id)`: the loop over the order's rows; when the
   * read fails (`fails`) the `except` returns 0.
   */
  method CalculateOrderTotal(db: Db, orderId: int, fails: bool) returns (total: int)
    ensures fails ==> total == 0
    ensures !fails ==> total == OrderTotal(db.items, orderId)
  {
    if fails {
      return 0;
    }
    var rows := Filter(db.items, InOrder(orderId));
    total := 0;
    var i := 0;
    while i < |rows|
      invariant 0 <= i <= |rows|
      invariant total + Sum(rows[i..]) == Sum(rows)
    {
      assert rows[i..][1..] == rows[i + 1..];
      total := total + rows[i].quantity * rows[i].priceAtTime;
      i := i + 1;
    }
    SumOfOrderRows(db.items, orderId);
  }

  /** `add_to_cart(user_id, product_id)`. */
  method AddToCart(db: Db, userId: int, productId: int, totalFails: bool) returns (reply: AddReply)
    modifies db
    ensures db.State() == AddToCartSpec(old(db.State()), userId, productId, totalFails).tables
    ensures reply == AddToCartSpec(old(db.State()), userId, productId, totalFails).reply
  {
    var orderId: int;
    var cart := CartIndex(db.orders, userId);
    if cart.None? {
      orderId := db.TakeId();
      db.orders := db.orders + [Order(orderId, userId, Cart, None, 0)];
    } else {
      orderId := db.orders[cart.value].id;
    }
    ghost var t1 := db.State();
    assert EnsureCart(old(db.State()), userId) == CartStep(t1, orderId);
    var found := ProductIndex(db.products, productId);
    if found.None? {
      return AddFailed;
    }
    var product := db.products[found.value];
    var existing := LineIndex(db.items, orderId, productId);
    if existing.Some? {
      var line := db.items[existing.value];
      db.items := UpdateWhere(db.items, ItemIdIs(line.id), SetQuantity(line.quantity + 1));
    } else {
      var id := db.TakeId();
      db.items := db.items + [OrderItem(id, orderId, productId, 1, product.price)];
    }
    assert db.State() == PutLine(t1, orderId, productId, product.price);
    var total := CalculateOrderTotal(db, orderId, totalFails);
    db.orders := UpdateWhere(db.orders, OrderIdIs(orderId), SetTotal(total));
    reply := Added(product.name);
  }

  /** `show_cart(user_id)`: the loop that builds the lines and adds up the total. */
  method ShowCart(db: Db, userId: int) returns (view: CartView)
    ensures view == CartViewSpec(db.State(), userId)
  {
    var cart := CartIndex(db.orders, userId);
    if cart.None? {
      return CartEmpty;
    }
    var orderId := db.orders[cart.value].id;
    var rows := Filter(db.items, InOrder(orderId));
    if rows == [] {
      return CartEmpty;
    }
    var lines: seq<CartLine> := [];
    var total := 0;
    var i := 0;
    while i < |rows|
      invariant 0 <= i <= |rows|
      invariant LinesUpTo(lines, rows, db.products, i)
      invariant total + Sum(rows[i..]) == Sum(rows)
    {
      var p := ProductIndex(db.products, rows[i].productId);
      if p.None? {
        return CartLoadError;
      }
      var amount := rows[i].quantity * rows[i].priceAtTime;
      assert rows[i..][1..] == rows[i + 1..];
      total := total + amount;
      LinesStep(lines, rows, db.products, i, p.value);
      lines := lines + [CartLine(db.products[p.value].name, rows[i].quantity, amount, RemoveFromCartData(rows[i].id))];
      i := i + 1;
    }
    SumOfOrderRows(db.items, orderId);
    LinesDone(lines, rows, db.products);
    view := CartShown(lines, total);
  }

  /** `remove_from_cart(user_id, item_id)`. */
  method RemoveFromCart(db: Db, userId: int, itemId: int, totalFails: bool) returns (view: CartView)
    modifies db
    ensures db.State() == RemoveFromCartSpec(old(db.State()), userId, itemId, totalFails).tables
    ensures view == RemoveFromCartSpec(old(db.State()), userId, itemId, totalFails).reply
  {
    db.items := Filter(db.items, ItemIdIsNot(itemId));
    var cart := CartIndex(db.orders, userId);
    if cart.Some? {
      var orderId := db.orders[cart.value].id;
      var total := CalculateOrderTotal(db, orderId, totalFails);
      db.orders := UpdateWhere(db.orders, OrderIdIs(orderId), SetTotal(total));
    }
    view := ShowCart(db, userId);
  }

  /**
   * `notify_sellers(order_id, location)`: read the order and its lines, then
   * one send per seller of that location.
   */
  method NotifySellers(db: Db, out: Outbox, orderId: int, location: string)
    modifies out
    ensures out.sent == old(out.sent) + Deliveries(SellerMessages(db.State(), orderId, location), out.unreachable)
  {
    var found := OrderIndex(db.orders, orderId);
    if found.None? {
      return;
    }
    var lines := BuildNoticeLines(db, Filter(db.items, InOrder(orderId)));
    if lines.None? {
      return;
    }
    var notice := NewOrderNotice(orderId, location == "left", db.orders[found.value].totalAmount, lines.value, TakeOrderData(orderId));
    SendEach(out, SellersAt(db.profiles, location), notice);
  }

  /** The loop over the order's lines that writes the notice text; None where a product join fails. */
  method BuildNoticeLines(db: Db, rows: seq<OrderItem>) returns (r: Option<seq<(string, int)>>)
    ensures r == NoticeLines(rows, db.products)
  {
    var lines: seq<(string, int)> := [];
    var i := 0;
    while i < |rows|
      invariant 0 <= i <= |rows|
      invariant |lines| == i
      invariant forall j :: 0 <= j < i ==> ProductIndex(db.products, rows[j].productId).Some?
      invariant forall j :: 0 <= j < i ==>
        (lines[j] == (db.products[ProductIndex(db.products, rows[j].productId).value].name, rows[j].quantity))
    {
      var p := ProductIndex(db.products, rows[i].productId);
      if p.None? {
        return None;
      }
      lines := lines + [(db.products[p.value].name, rows[i].quantity)];
      i := i + 1;
    }
    ghost var names := LineNames(rows, db.products).value;
    assert lines == seq(|rows|, j requires 0 <= j < |rows| => (names[j], rows[j].quantity));
    r := Some(lines);
  }

  /** The send loop: one attempt per recipient; a refused send is recorded and the loop goes on. */
  method SendEach(out: Outbox, recipients: seq<Profile>, notice: Notice)
    modifies out
    ensures out.sent == old(out.sent) + Deliveries(NoticeTo(recipients, notice), out.unreachable)
  {
    ghost var msgs := NoticeTo(recipients, notice);
    var k := 0;
    while k < |recipients|
      invariant 0 <= k <= |recipients|
      invariant out.sent == old(out.sent) + Deliveries(msgs[..k], out.unreachable)
    {
      var _ := out.Send(Message(recipients[k].userId, notice));
      assert msgs[..k + 1] == msgs[..k] + [msgs[k]];
      DeliveriesAppend(msgs[..k], [msgs[k]], out.unreachable);
      k := k + 1;
    }
    assert msgs[..|recipients|] == msgs;
  }

  /** `confirm_order(user_id, location)`. */
  method ConfirmOrder(db: Db, out: Outbox, userId: int, location: string) returns (reply: ConfirmReply)
    modifies db, out
    ensures db.State() == ConfirmOrderSpec(old(db.State()), userId, location).tables
    ensures reply == ConfirmOrderSpec(old(db.State()), userId, location).reply
    ensures out.sent == old(out.sent) + Deliveries(ConfirmOrderSpec(old(db.State()), userId, location).sent, out.unreachable)
  {
    var cart := CartIndex(db.orders, userId);
    if cart.None? {
      return NoCart;
    }
    var orderId := db.orders[cart.value].id;
    db.orders := UpdateWhere(db.orders, OrderIdIs(orderId), SetCheckout(Pickup(location)));
    NotifySellers(db, out, orderId, location);
    reply := Confirmed;
  }

  /** `role_required(['seller_left', 'seller_right'])`: the profile query and the role test. */
  method SellerGate(db: Db, userId: int) returns (admitted: bool)
    ensures admitted == Admits(db.profiles, userId, SellerRoles)
    ensures DistinctBy(db.profiles, ProfileUser) ==>
      (admitted <==> exists i :: 0 <= i < |db.profiles| && db.profiles[i].userId == userId && db.profiles[i].role in SellerRoles)
  {
    var found := ProfileIndex(db.profiles, userId);
    admitted := found.Some? && db.profiles[found.value].role in SellerRoles;
    if DistinctBy(db.profiles, ProfileUser) {
      AdmitsIff(db.profiles, userId, SellerRoles);
    }
  }

  /** `show_new_orders(role)`: the gate, the buffer query, then the entries. */
  method ShowNewOrders(db: Db, userId: int) returns (view: NewOrdersView)
    ensures view == NewOrdersSpec(db.State(), userId)
  {
    var admitted := SellerGate(db, userId);
    if !admitted {
      return NewOrdersDenied;
    }
    var role := RoleOf(db.profiles, userId).value;
    var rows := Filter(db.orders, PendingAt(BufferFor(role)));
    if rows == [] {
      return NoNewOrders;
    }
    var entries := BuildEntries(db, rows);
    if entries.None? {
      return NewOrdersLoadError;
    }
    view := NewOrdersList(entries.value);
  }

  /** The loop of show_new_orders over the orders found; None where the customer join fails. */
  method BuildEntries(db: Db, rows: seq<Order>) returns (r: Option<seq<Entry>>)
    ensures r == match CustomerNames(rows, db.profiles)
      case None => None
      case Some(names) => Some(Entries(rows, names))
  {
    var entries: seq<Entry> := [];
    var i := 0;
    while i < |rows|
      invariant 0 <= i <= |rows|
      invariant EntriesUpTo(entries, rows, db.profiles, i)
    {
      var p := ProfileIndex(db.profiles, rows[i].customerId);
      if p.None? {
        return None;
      }
      EntriesStep(entries, rows, db.profiles, i, p.value);
      entries := entries + [Entry(rows[i].id, db.profiles[p.value].fullName, rows[i].totalAmount, TakeOrderData(rows[i].id))];
      i := i + 1;
    }
    EntriesDone(entries, rows, db.profiles);
    r := Some(entries);
  }

  /** `take_order(order_id, seller_id)`. */
  method TakeOrder(db: Db, out: Outbox, sellerId: int, orderId: int) returns (reply: TakeReply)
    modifies db, out
    ensures db.State() == TakeOrderSpec(old(db.State()), sellerId, orderId).tables
    ensures reply == TakeOrderSpec(old(db.State()), sellerId, orderId).reply
    ensures out.sent == old(out.sent) + Deliveries(TakeOrderSpec(old(db.State()), sellerId, orderId).sent, out.unreachable)
  {
    var admitted := SellerGate(db, sellerId);
    if !admitted {
      return TakeDenied;
    }
    var found := OrderIndex(db.orders, orderId);
    if found.None? {
      return NotFound;
    }
    var order := db.orders[found.value];
    if order.status != Pending {
      return AlreadyTaken;
    }
    db.orders := UpdateWhere(db.orders, OrderIdIs(orderId), SetStatus(Preparing));
    var _ := out.Send(Message(order.customerId, TakenNotice(orderId)));
    reply := Taken(OrderReadyData(orderId));
  }

  /** `mark_order_ready(order_id)`. */
  method MarkOrderReady(db: Db, out: Outbox, sellerId: int, orderId: int) returns (reply: MarkReply)
    modifies db, out
    ensures db.State() == MarkReadySpec(old(db.State()), sellerId, orderId).tables
    ensures reply == MarkReadySpec(old(db.State()), sellerId, orderId).reply
    ensures out.sent == old(out.sent) + Deliveries(MarkReadySpec(old(db.State()), sellerId, orderId).sent, out.unreachable)
  {
    var admitted := SellerGate(db, sellerId);
    if !admitted {
      return MarkDenied;
    }
    db.orders := UpdateWhere(db.orders, OrderIdIs(orderId), SetStatus(ReadyForPickup));
    var found := OrderIndex(db.orders, orderId);
    if found.None? {
      return MarkFailed;
    }
    var order := db.orders[found.value];
    var _ := out.Send(Message(order.customerId, ReadyNotice(orderId, order.pickupLocation == Some("left_buffer"))));
    reply := MarkedReady(OrderCompletedData(orderId));
  }

  /** `mark_order_completed(order_id)`. */
  method MarkOrderCompleted(db: Db, sellerId: int, orderId: int) returns (reply: MarkReply)
    modifies db
    ensures db.State() == MarkCompletedSpec(old(db.State()), sellerId, orderId).tables
    ensures reply == MarkCompletedSpec(old(db.State()), sellerId, orderId).reply
  {
    var admitted := SellerGate(db, sellerId);
    if !admitted {
      return MarkDenied;
    }
    db.orders := UpdateWhere(db.orders, OrderIdIs(orderId), SetStatus(Completed));
    reply := MarkedCompleted;
  }

  /** `start`: register or refresh the profile, read it back, choose the screen. */
  method Start(db: Db, userId: int, username: string, fullName: string) returns (screen: StartScreen)
    modifies db
    ensures db.State() == StartSpec(old(db.State()), userId, username, fullName).tables
    ensures screen == StartSpec(old(db.State()), userId, username, fullName).reply
  {
    var known := ProfileIndex(db.profiles, userId);
    if known.None? {
      db.profiles := db.profiles + [Profile(userId, username, fullName, "customer")];
    } else {
      db.profiles := UpdateWhere(db.profiles, UserIs(userId), SetNames(username, fullName));
    }
    var found := ProfileIndex(db.profiles, userId);
    if found.None? {
      return StartFailed;
    }
    var role := db.profiles[found.value].role;
    if role == "customer" {
      var active := FindFirst(db.orders, ActiveOf(userId));
      if active.Some? {
        var o := db.orders[active.value];
        return ActiveOrderScreen(o.id, o.status, o.pickupLocation == Some("left_buffer"), o.totalAmount);
      }
      return CustomerMenu;
    }
    if role == "seller_left" || role == "seller_right" {
      return SellerMenu(role == "seller_left");
    }
    screen := NoMenu;
  }

  /** `button_handler`: the profile check, the route, then the handler it reaches. */
  method HandleButton(db: Db, out: Outbox, userId: int, data: string, menu: seq<Product>, totalFails: bool) returns (reply: ButtonReply)
    modifies db, out
    ensures db.State() == ButtonSpec(old(db.State()), userId, data, menu, totalFails).tables
    ensures reply == ButtonSpec(old(db.State()), userId, data, menu, totalFails).reply
    ensures out.sent == old(out.sent) + Deliveries(ButtonSpec(old(db.State()), userId, data, menu, totalFails).sent, out.unreachable)
  {
    var found := ProfileIndex(db.profiles, userId);
    if found.None? {
      return ProfileMissing;
    }
    var role := db.profiles[found.value].role;
    match RouteAsWritten(data)
    case Unhandled => reply := NoAnswer;
    case Raised => reply := HandlerError;
    case Handle(intent) => reply := HandleIntent(db, out, userId, role, intent, menu, totalFails);
  }

  /** The handler a routed button reaches. */
  method HandleIntent(db: Db, out: Outbox, userId: int, role: string, intent: Intent, menu: seq<Product>, totalFails: bool) returns (reply: ButtonReply)
    modifies db, out
    ensures db.State() == IntentSpec(old(db.State()), userId, role, intent, menu, totalFails).tables
    ensures reply == IntentSpec(old(db.State()), userId, role, intent, menu, totalFails).reply
    ensures out.sent == old(out.sent) + Deliveries(IntentSpec(old(db.State()), userId, role, intent, menu, totalFails).sent, out.unreachable)
  {
    match intent
    case MakeOrder => reply := CategoryMenu(CategoryButtons(menu));
    case ViewCart =>
      var view := ShowCart(db, userId);
      reply := CartScreen(view);
    case MyOrders => reply := HistoryScreen(MyOrdersSpec(db.State(), userId));
    case BackToMain => reply := MainMenu(BackToMainScreen(role));
    case ShowCategory(c) => reply := ProductMenu(ProductButtons(menu, c));
    case AddToCart(productId) =>
      var add := AddToCart(db, userId, productId, totalFails);
      reply := AddAnswer(add, if add.Added? then Some(CategoryButtons(menu)) else None);
    case RemoveFromCart(itemId) =>
      var view := RemoveFromCart(db, userId, itemId, totalFails);
      reply := CartScreen(view);
    case Checkout => reply := PickupMenu(PickupButtons);
    case ConfirmOrder(location) =>
      var confirm := ConfirmOrder(db, out, userId, location);
      reply := ConfirmAnswer(confirm);
    case NewOrders =>
      var view := ShowNewOrders(db, userId);
      reply := NewOrdersScreen(view);
    case TakeOrder(orderId) =>
      var take := TakeOrder(db, out, userId, orderId);
      reply := TakeAnswer(take);
    case OrderReady(orderId) =>
      var mark := MarkOrderReady(db, out, userId, orderId);
      reply := MarkAnswer(mark);
    case OrderCompleted(orderId) =>
      var mark := MarkOrderCompleted(db, userId, orderId);
      reply := MarkAnswer(mark);
  }

  // ----- Loop bookkeeping for the list-building loops ------------------------------------

  /** The first i cart lines are built, each with its product's name. */
  ghost predicate LinesUpTo(lines: seq<CartLine>, rows: seq<OrderItem>, products: seq<Product>, i: nat)
  {
    && i <= |rows| && |lines| == i
    && (forall j :: 0 <= j < i ==> ProductIndex(products, rows[j].productId).Some?)
    && (forall j :: 0 <= j < i ==>
          lines[j] == CartLine(products[ProductIndex(products, rows[j].productId).value].name,
                               rows[j].quantity, LineAmount(rows[j]), RemoveFromCartData(rows[j].id)))
  }

  lemma LinesStep(lines: seq<CartLine>, rows: seq<OrderItem>, products: seq<Product>, i: nat, p: nat)
    requires LinesUpTo(lines, rows, products, i) && i < |rows|
    requires ProductIndex(products, rows[i].productId) == Some(p)
    ensures LinesUpTo(lines + [CartLine(products[p].name, rows[i].quantity, rows[i].quantity * rows[i].priceAtTime,
                                        RemoveFromCartData(rows[i].id))], rows, products, i + 1)
  {
  }

  lemma LinesDone(lines: seq<CartLine>, rows: seq<OrderItem>, products: seq<Product>)
    requires LinesUpTo(lines, rows, products, |rows|)
    ensures LineNames(rows, products).Some? && lines == CartLines(rows, LineNames(rows, products).value)
  {
  }

  /** The first i entries are built, each with its customer's full name. */
  ghost predicate EntriesUpTo(entries: seq<Entry>, rows: seq<Order>, profiles: seq<Profile>, i: nat)
  {
    && i <= |rows| && |entries| == i
    && (forall j :: 0 <= j < i ==> ProfileIndex(profiles, rows[j].customerId).Some?)
    && (forall j :: 0 <= j < i ==>
          entries[j] == Entry(rows[j].id, profiles[ProfileIndex(profiles, rows[j].customerId).value].fullName,
                              rows[j].totalAmount, TakeOrderData(rows[j].id)))
  }

  lemma EntriesStep(entries: seq<Entry>, rows: seq<Order>, profiles: seq<Profile>, i: nat, p: nat)
    requires EntriesUpTo(entries, rows, profiles, i) && i < |rows|
    requires ProfileIndex(profiles, rows[i].customerId) == Some(p)
    ensures EntriesUpTo(entries + [Entry(rows[i].id, profiles[p].fullName, rows[i].totalAmount, TakeOrderData(rows[i].id))],
                        rows, profiles, i + 1)
  {
  }

  lemma EntriesDone(entries: seq<Entry>, rows: seq<Order>, profiles: seq<Profile>)
    requires EntriesUpTo(entries, rows, profiles, |rows|)
    ensures CustomerNames(rows, profiles).Some? && entries == Entries(rows, CustomerNames(rows, profiles).value)
  {
  }
}
