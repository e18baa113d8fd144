/**
 * Checkout and the sellers' side of the Python bot: confirm_order and the
 * seller notifications, the role gate on the seller handlers, the new-orders
 * list, taking an order and marking it ready and completed, plus /start and
 * the order history.
 */
module Orders {
  import opened Wrappers
  import opened Query
  import opened Schema
  import opened Store
  import opened Callback
  import opened Cart

  // ----- The role gate ----------------------------------------------------------------

  /** The roles allowed on the seller handlers. */
  const SellerRoles: seq<string> := ["seller_left", "seller_right"]

  /** `role_required(allowed)`: the user has a profile and its role is allowed. */
  predicate Admits(profiles: seq<Profile>, userId: int, allowed: seq<string>)
  {
    match RoleOf(profiles, userId)
    case None => false
    case Some(role) => role in allowed
  }

  /** With unique user ids, the gate admits exactly the users with some profile whose role is allowed. */
  lemma AdmitsIff(profiles: seq<Profile>, userId: int, allowed: seq<string>)
    requires DistinctBy(profiles, ProfileUser)
    ensures Admits(profiles, userId, allowed) <==>
      exists i :: 0 <= i < |profiles| && profiles[i].userId == userId && profiles[i].role in allowed
  {
    if exists i :: 0 <= i < |profiles| && profiles[i].userId == userId && profiles[i].role in allowed {
      var i :| 0 <= i < |profiles| && profiles[i].userId == userId && profiles[i].role in allowed;
      DistinctKeyAt(profiles, ProfileUser, i);
      FindOnly(profiles, UserIs(userId), i);
    }
  }

  // ----- confirm_order and notify_sellers ------------------------------------------------

  /** The (name, quantity) list of the seller notification; None when a product join fails. */
  function NoticeLines(rows: seq<OrderItem>, products: seq<Product>): (r: Option<seq<(string, int)>>)
  {
    match LineNames(rows, products)
    case None => None
    case Some(names) => Some(seq(|rows|, i requires 0 <= i < |rows| => (names[i], rows[i].quantity)))
  }

  /** The profiles `select().eq('role', f"seller_{location}")` returns. */
  function SellersAt(profiles: seq<Profile>, location: string): (r: seq<Profile>)
  {
    Filter(profiles, RoleIs("seller_" + location))
  }

  /**
   * `notify_sellers(order_id, location)`: one message per seller of that
   * location, each carrying a take button. A missing order or a failed join
   * raises before any send, and nothing is sent.
   */
  function SellerMessages(t: Tables, orderId: int, location: string): (r: seq<Message>)
  {
    match OrderIndex(t.orders, orderId)
    case None => []
    case Some(k) =>
      match NoticeLines(CartRows(t, orderId), t.products)
      case None => []
      case Some(lines) =>
        var notice := NewOrderNotice(orderId, location == "left", t.orders[k].totalAmount, lines, TakeOrderData(orderId));
        NoticeTo(SellersAt(t.profiles, location), notice)
  }

  /** The same notice to each of the given profiles, in order. */
  function NoticeTo(recipients: seq<Profile>, notice: Notice): (r: seq<Message>)
  {
    seq(|recipients|, i requires 0 <= i < |recipients| => Message(recipients[i].userId, notice))
  }

  /**
   * When the order is found and its lines join, the messages go, in table
   * order, one each to exactly the profiles whose role is `seller_<location>`,
   * and every take button reaches take_order for this order.
   */
  lemma SellerRecipients(t: Tables, orderId: int, location: string)
    requires OrderIndex(t.orders, orderId).Some? && NoticeLines(CartRows(t, orderId), t.products).Some?
    ensures var msgs := SellerMessages(t, orderId, location);
      var sellers := SellersAt(t.profiles, location);
      && |msgs| == |sellers|
      && (forall p :: p in sellers <==> p in t.profiles && p.role == "seller_" + location)
      && (forall i :: 0 <= i < |msgs| ==>
            msgs[i].chatId == sellers[i].userId && msgs[i].notice.NewOrderNotice? && msgs[i].notice.orderId == orderId)
      && (forall i :: 0 <= i < |msgs| ==> RouteAsWritten(msgs[i].notice.takeButton) == Handle(TakeOrder(orderId)))
  {
    RouteTakeOrder(orderId);
  }

  /** A missing order or an unjoinable line means no seller is told. */
  lemma SellerMessagesNone(t: Tables, orderId: int, location: string)
    requires OrderIndex(t.orders, orderId).None? || NoticeLines(CartRows(t, orderId), t.products).None?
    ensures SellerMessages(t, orderId, location) == []
  {
  }

  /** The checkout answer. */
  datatype ConfirmReply = Confirmed | NoCart

  /** The pickup location the checkout writes. */
  function Pickup(location: string): (r: string) { location + "_buffer" }

  /**
   * `confirm_order(user_id, location)`: without a cart nothing changes;
   * otherwise the cart becomes pending at `<location>_buffer` (there is no
   * check that it has lines) and the sellers are told.
   */
  function ConfirmOrderSpec(t: Tables, userId: int, location: string): (r: Outcome<ConfirmReply>)
  {
    match CartIndex(t.orders, userId)
    case None => Outcome(t, NoCart, [])
    case Some(c) =>
      var id := t.orders[c].id;
      var t1 := t.(orders := UpdateWhere(t.orders, OrderIdIs(id), SetCheckout(Pickup(location))));
      Outcome(t1, Confirmed, SellerMessages(t1, id, location))
  }

  /** Without a cart, checkout changes nothing and tells nobody. */
  lemma ConfirmWithoutCart(t: Tables, userId: int, location: string)
    requires CartIndex(t.orders, userId).None?
    ensures ConfirmOrderSpec(t, userId, location) == Outcome(t, NoCart, [])
  {
  }

  /**
   * With a cart, exactly that order changes: it becomes pending at
   * `<location>_buffer`, a lifecycle step; the lines stay, empty or not;
   * the tables stay valid.
   */
  lemma ConfirmChangesOnlyCart(t: Tables, userId: int, location: string)
    requires Valid(t) && CartIndex(t.orders, userId).Some?
    ensures var c := CartIndex(t.orders, userId).value;
      var r := ConfirmOrderSpec(t, userId, location);
      && r.reply == Confirmed
      && r.tables == t.(orders := t.orders[c := t.orders[c].(status := Pending, pickupLocation := Some(location + "_buffer"))])
      && LifecycleStep(t.orders[c].status, r.tables.orders[c].status)
      && CartIndex(r.tables.orders, userId).None?
      && Valid(r.tables)
  {
    var c := CartIndex(t.orders, userId).value;
    var f := SetCheckout(Pickup(location));
    DistinctKeyAt(t.orders, OrderId, c);
    UpdateOnly(t.orders, OrderIdIs(t.orders[c].id), f, c);
    UpdateKeepsDistinct(t.orders, OrderIdIs(t.orders[c].id), f, OrderId);
    UpdateKeepsOneCart(t.orders, OrderIdIs(t.orders[c].id), f);
    var r := ConfirmOrderSpec(t, userId, location);
    assert forall i :: 0 <= i < |r.tables.orders| ==> !CartOf(userId)(r.tables.orders[i]) by {
      forall i | 0 <= i < |r.tables.orders| ensures !CartOf(userId)(r.tables.orders[i]) {
        if i != c { assert r.tables.orders[i] == t.orders[i]; }
      }
    }
  }

  // ----- show_new_orders -------------------------------------------------------------------

  /** The seller's buffer: `left_buffer` for seller_left, `right_buffer` for any other role. */
  function BufferFor(role: string): (r: string)
  {
    if role == "seller_left" then "left_buffer" else "right_buffer"
  }

  /** One entry of the new-orders list. */
  datatype Entry = Entry(orderId: int, customerName: string, total: int, takeButton: string)

  datatype NewOrdersView = NewOrdersDenied | NoNewOrders | NewOrdersList(entries: seq<Entry>) | NewOrdersLoadError

  /** The `profiles(full_name)` join for each order; None when some customer has no profile. */
  function CustomerNames(rows: seq<Order>, profiles: seq<Profile>): (r: Option<seq<string>>)
    ensures r.Some? <==> forall i :: 0 <= i < |rows| ==> ProfileIndex(profiles, rows[i].customerId).Some?
    ensures r.Some? ==> |r.value| == |rows|
    ensures r.Some? ==> forall i :: 0 <= i < |rows| ==> r.value[i] == profiles[ProfileIndex(profiles, rows[i].customerId).value].fullName
    decreases |rows|
  {
    if rows == [] then Some([])
    else match ProfileIndex(profiles, rows[0].customerId)
      case None => None
      case Some(p) =>
        match CustomerNames(rows[1..], profiles)
        case None => None
        case Some(rest) => Some([profiles[p].fullName] + rest)
  }

  /** The orders `select().eq('status', 'pending').eq('pickup_location', buffer)` returns. */
  function PendingOrders(t: Tables, buffer: string): (r: seq<Order>)
  {
    Filter(t.orders, PendingAt(buffer))
  }

  /** `show_new_orders`, behind the seller gate, for the user pressing the button. */
  function NewOrdersSpec(t: Tables, userId: int): (r: NewOrdersView)
  {
    if !Admits(t.profiles, userId, SellerRoles) then NewOrdersDenied
    else
      var rows := PendingOrders(t, BufferFor(RoleOf(t.profiles, userId).value));
      if rows == [] then NoNewOrders
      else match CustomerNames(rows, t.profiles)
        case None => NewOrdersLoadError
        case Some(names) => NewOrdersList(Entries(rows, names))
  }

  /** One entry per order, with its customer's name and a take button. */
  function Entries(rows: seq<Order>, names: seq<string>): (r: seq<Entry>)
    requires |names| == |rows|
  {
    seq(|rows|, i requires 0 <= i < |rows| => Entry(rows[i].id, names[i], rows[i].totalAmount, TakeOrderData(rows[i].id)))
  }

  /**
   * A seller sees exactly the pending orders waiting at their own buffer,
   * `left_buffer` for seller_left and `right_buffer` for seller_right, in
   * table order; each entry's button reaches take_order for that order.
   */
  lemma NewOrdersExact(t: Tables, userId: int)
    requires NewOrdersSpec(t, userId).NewOrdersList?
    ensures var role := RoleOf(t.profiles, userId).value;
      var entries := NewOrdersSpec(t, userId).entries;
      var rows := PendingOrders(t, BufferFor(role));
      && (role == "seller_left" || role == "seller_right")
      && (role == "seller_right" ==> BufferFor(role) == "right_buffer")
      && (forall o :: o in rows <==> o in t.orders && o.status == Pending && o.pickupLocation == Some(BufferFor(role)))
      && |entries| == |rows|
      && (forall i :: 0 <= i < |entries| ==> entries[i].orderId == rows[i].id && entries[i].total == rows[i].totalAmount)
      && (forall i :: 0 <= i < |entries| ==> RouteAsWritten(entries[i].takeButton) == Handle(TakeOrder(entries[i].orderId)))
  {
    var entries := NewOrdersSpec(t, userId).entries;
    forall i | 0 <= i < |entries| ensures RouteAsWritten(entries[i].takeButton) == Handle(TakeOrder(entries[i].orderId)) {
      RouteTakeOrder(entries[i].orderId);
    }
  }

  /** An empty list means no pending order waits at the seller's buffer. */
  lemma NoNewOrdersExact(t: Tables, userId: int)
    requires NewOrdersSpec(t, userId) == NoNewOrders
    ensures var role := RoleOf(t.profiles, userId).value;
      forall o :: o in t.orders ==> !(o.status == Pending && o.pickupLocation == Some(BufferFor(role)))
  {
    var role := RoleOf(t.profiles, userId).value;
    forall o | o in t.orders ensures !(o.status == Pending && o.pickupLocation == Some(BufferFor(role))) {
      assert o !in PendingOrders(t, BufferFor(role));
    }
  }

  // ----- take_order ------------------------------------------------------------------------

  datatype TakeReply = TakeDenied | NotFound | AlreadyTaken | Taken(readyButton: string)

  /**
   * `take_order(order_id, seller_id)` behind the seller gate: a missing order
   * or one that is no longer pending is refused with no change; otherwise it
   * becomes preparing and its customer is told. The seller's station is not
   * compared with the order's pickup location.
   */
  function TakeOrderSpec(t: Tables, sellerId: int, orderId: int): (r: Outcome<TakeReply>)
  {
    if !Admits(t.profiles, sellerId, SellerRoles) then Outcome(t, TakeDenied, [])
    else match OrderIndex(t.orders, orderId)
      case None => Outcome(t, NotFound, [])
      case Some(k) =>
        if t.orders[k].status != Pending then Outcome(t, AlreadyTaken, [])
        else
          Outcome(t.(orders := UpdateWhere(t.orders, OrderIdIs(orderId), SetStatus(Preparing))),
                  Taken(OrderReadyData(orderId)),
                  [Message(t.orders[k].customerId, TakenNotice(orderId))])
  }

  /**
   * The three outcomes for an admitted seller: not found and already taken
   * change nothing and tell nobody; a pending order becomes preparing (a
   * lifecycle step), only that row changes, exactly one message goes to its
   * customer, and the ready button reaches mark_order_ready.
   */
  lemma TakeOrderOutcomes(t: Tables, sellerId: int, orderId: int)
    requires Valid(t) && Admits(t.profiles, sellerId, SellerRoles)
    ensures var r := TakeOrderSpec(t, sellerId, orderId);
      match OrderIndex(t.orders, orderId)
      case None => r == Outcome(t, NotFound, [])
      case Some(k) =>
        if t.orders[k].status != Pending then r == Outcome(t, AlreadyTaken, [])
        else
          && r.tables == t.(orders := t.orders[k := t.orders[k].(status := Preparing)])
          && LifecycleStep(t.orders[k].status, r.tables.orders[k].status)
          && r.sent == [Message(t.orders[k].customerId, TakenNotice(orderId))]
          && RouteAsWritten(r.reply.readyButton) == Handle(OrderReady(orderId))
          && Valid(r.tables)
  {
    match OrderIndex(t.orders, orderId)
    case None =>
    case Some(k) =>
      if t.orders[k].status == Pending {
        StatusWrite(t, k, Preparing);
        RouteOrderReady(orderId);
      }
  }

  /** A user the gate refuses changes nothing and tells nobody, on every seller handler. */
  lemma GateRefusesSellerHandlers(t: Tables, userId: int, orderId: int)
    requires !Admits(t.profiles, userId, SellerRoles)
    ensures TakeOrderSpec(t, userId, orderId) == Outcome(t, TakeDenied, [])
    ensures MarkReadySpec(t, userId, orderId) == Outcome(t, MarkDenied, [])
    ensures MarkCompletedSpec(t, userId, orderId) == Outcome(t, MarkDenied, [])
    ensures NewOrdersSpec(t, userId) == NewOrdersDenied
  {
  }

  /** Taking an order twice, one call after the other: the second is refused and changes nothing. */
  lemma SecondTakeRefused(t: Tables, sellerId: int, otherSeller: int, orderId: int)
    requires Valid(t) && Admits(t.profiles, sellerId, SellerRoles) && Admits(t.profiles, otherSeller, SellerRoles)
    requires TakeOrderSpec(t, sellerId, orderId).reply.Taken?
    ensures var t1 := TakeOrderSpec(t, sellerId, orderId).tables;
      TakeOrderSpec(t1, otherSeller, orderId) == Outcome(t1, AlreadyTaken, [])
  {
    TakeOrderOutcomes(t, sellerId, orderId);
    var k := OrderIndex(t.orders, orderId).value;
    var t1 := TakeOrderSpec(t, sellerId, orderId).tables;
    FindOnlyKey(t1.orders, orderId, k);
  }

  // ----- mark_order_ready and mark_order_completed -----------------------------------------------

  datatype MarkReply = MarkDenied | MarkFailed | MarkedReady(completedButton: string) | MarkedCompleted

  /**
   * `mark_order_ready(order_id)` behind the seller gate: the status write has
   * no condition on the current status; then the order is read back (a missing
   * order raises) and its customer is told where to collect it.
   */
  function MarkReadySpec(t: Tables, sellerId: int, orderId: int): (r: Outcome<MarkReply>)
  {
    if !Admits(t.profiles, sellerId, SellerRoles) then Outcome(t, MarkDenied, [])
    else
      var t1 := t.(orders := UpdateWhere(t.orders, OrderIdIs(orderId), SetStatus(ReadyForPickup)));
      match OrderIndex(t1.orders, orderId)
      case None => Outcome(t1, MarkFailed, [])
      case Some(k) =>
        var o := t1.orders[k];
        Outcome(t1, MarkedReady(OrderCompletedData(orderId)),
                [Message(o.customerId, ReadyNotice(orderId, o.pickupLocation == Some("left_buffer")))])
  }

  /** `mark_order_completed(order_id)` behind the seller gate: an unconditional status write. */
  function MarkCompletedSpec(t: Tables, sellerId: int, orderId: int): (r: Outcome<MarkReply>)
  {
    if !Admits(t.profiles, sellerId, SellerRoles) then Outcome(t, MarkDenied, [])
    else Outcome(t.(orders := UpdateWhere(t.orders, OrderIdIs(orderId), SetStatus(Completed))), MarkedCompleted, [])
  }

  /**
   * Whatever the order's status was, it becomes ready_for_pickup; exactly one
   * message goes to its customer and it names the left buffet exactly when the
   * pickup location is `left_buffer`.
   */
  lemma MarkReadyUnguarded(t: Tables, sellerId: int, orderId: int)
    requires Valid(t) && Admits(t.profiles, sellerId, SellerRoles)
    ensures var r := MarkReadySpec(t, sellerId, orderId);
      match OrderIndex(t.orders, orderId)
      case None => r.tables == t && r.reply == MarkFailed && r.sent == []
      case Some(k) =>
        && r.tables == t.(orders := t.orders[k := t.orders[k].(status := ReadyForPickup)])
        && |r.sent| == 1 && r.sent[0].chatId == t.orders[k].customerId
        && r.sent[0].notice == ReadyNotice(orderId, t.orders[k].pickupLocation == Some("left_buffer"))
        && RouteAsWritten(r.reply.completedButton) == Handle(OrderCompleted(orderId))
        && Valid(r.tables)
  {
    var f := SetStatus(ReadyForPickup);
    match OrderIndex(t.orders, orderId)
    case None =>
      UpdateNone(t.orders, OrderIdIs(orderId), f);
    case Some(k) =>
      StatusWrite(t, k, ReadyForPickup);
      RouteOrderCompleted(orderId);
  }

  /** Whatever the order's status was, it becomes completed, and only that row changes. */
  lemma MarkCompletedUnguarded(t: Tables, sellerId: int, orderId: int)
    requires Valid(t) && Admits(t.profiles, sellerId, SellerRoles)
    ensures var r := MarkCompletedSpec(t, sellerId, orderId);
      && r.reply == MarkedCompleted && r.sent == []
      && match OrderIndex(t.orders, orderId)
        case None => r.tables == t
        case Some(k) => r.tables == t.(orders := t.orders[k := t.orders[k].(status := Completed)]) && Valid(r.tables)
  {
    var f := SetStatus(Completed);
    match OrderIndex(t.orders, orderId)
    case None =>
      UpdateNone(t.orders, OrderIdIs(orderId), f);
    case Some(k) =>
      StatusWrite(t, k, Completed);
  }

  /** A cart can be marked ready straight away: the write does not follow the order lifecycle. */
  lemma MarkReadySkipsLifecycle()
    ensures var t := Tables([Order(1, 10, Cart, None, 0)], [], [], [Profile(20, "s", "S", "seller_left")], 2);
      var r := MarkReadySpec(t, 20, 1);
      && Valid(t)
      && r.tables.orders[0].status == ReadyForPickup
      && !LifecycleStep(t.orders[0].status, r.tables.orders[0].status)
  {
    var t := Tables([Order(1, 10, Cart, None, 0)], [], [], [Profile(20, "s", "S", "seller_left")], 2);
    assert RoleOf(t.profiles, 20) == Some("seller_left");
    assert Admits(t.profiles, 20, SellerRoles);
    assert UpdateWhere(t.orders, OrderIdIs(1), SetStatus(ReadyForPickup)) == [Order(1, 10, ReadyForPickup, None, 0)];
  }

  // ----- /start ------------------------------------------------------------------------

  /** What /start shows. */
  datatype StartScreen =
    | ActiveOrderScreen(orderId: int, status: Status, leftBuffet: bool, total: int)
    | CustomerMenu
    | SellerMenu(leftBuffet: bool)
    | NoMenu
    | StartFailed

  /** Insert a customer profile for a new user, or refresh the names of a known one. */
  function Register(t: Tables, userId: int, username: string, fullName: string): (r: Tables)
  {
    match ProfileIndex(t.profiles, userId)
    case None => t.(profiles := t.profiles + [Profile(userId, username, fullName, "customer")])
    case Some(_) => t.(profiles := UpdateWhere(t.profiles, UserIs(userId), SetNames(username, fullName)))
  }

  /** The screen for the registered user: a customer with an active order sees only that order. */
  function StartScreenFor(t: Tables, userId: int): (r: StartScreen)
  {
    match ProfileIndex(t.profiles, userId)
    case None => StartFailed
    case Some(p) =>
      var role := t.profiles[p].role;
      if role == "customer" then
        match FindFirst(t.orders, ActiveOf(userId))
        case Some(j) =>
          var o := t.orders[j];
          ActiveOrderScreen(o.id, o.status, o.pickupLocation == Some("left_buffer"), o.totalAmount)
        case None => CustomerMenu
      else if role == "seller_left" || role == "seller_right" then SellerMenu(role == "seller_left")
      else NoMenu
  }

  /** `start`: register, read the profile back, then choose the screen. */
  function StartSpec(t: Tables, userId: int, username: string, fullName: string): (r: Outcome<StartScreen>)
  {
    var t1 := Register(t, userId, username, fullName);
    Outcome(t1, StartScreenFor(t1, userId), [])
  }

  /**
   * A new user gets one profile with role `customer` and the given names; a
   * known user keeps the role and gets the new names. Either way the user has
   * a profile afterwards and the tables stay valid.
   */
  lemma StartRegisters(t: Tables, userId: int, username: string, fullName: string)
    requires Valid(t)
    ensures var r := StartSpec(t, userId, username, fullName);
      && Valid(r.tables)
      && r.tables.orders == t.orders && r.tables.items == t.items
      && match ProfileIndex(t.profiles, userId)
        case None =>
          && r.tables.profiles == t.profiles + [Profile(userId, username, fullName, "customer")]
          && RoleOf(r.tables.profiles, userId) == Some("customer")
        case Some(p) =>
          && r.tables.profiles == t.profiles[p := Profile(userId, username, fullName, t.profiles[p].role)]
          && RoleOf(r.tables.profiles, userId) == RoleOf(t.profiles, userId)
  {
    match ProfileIndex(t.profiles, userId)
    case None =>
      var np := Profile(userId, username, fullName, "customer");
      assert forall i :: 0 <= i < |t.profiles| ==> !UserIs(userId)(t.profiles[i]);
      AppendKeepsDistinct(t.profiles, np, ProfileUser);
      FindAppended(t.profiles, np, UserIs(userId));
    case Some(p) =>
      var f := SetNames(username, fullName);
      DistinctKeyAt(t.profiles, ProfileUser, p);
      UpdateOnly(t.profiles, UserIs(userId), f, p);
      UpdateKeepsDistinct(t.profiles, UserIs(userId), f, ProfileUser);
      var ps := t.profiles[p := f(t.profiles[p])];
      DistinctKeyAt(ps, ProfileUser, p);
      FindOnly(ps, UserIs(userId), p);
  }

  /**
   * A customer with an order that is pending, preparing or ready for pickup is
   * shown the first such order and not the menu; a customer without one gets
   * the menu.
   */
  lemma ActiveOrderBlocksMenu(t: Tables, userId: int, username: string, fullName: string)
    requires Valid(t) && RoleOf(StartSpec(t, userId, username, fullName).tables.profiles, userId) == Some("customer")
    ensures var screen := StartSpec(t, userId, username, fullName).reply;
      match FindFirst(t.orders, ActiveOf(userId))
      case Some(j) =>
        && screen.ActiveOrderScreen? && screen.orderId == t.orders[j].id
        && (screen.status == Pending || screen.status == Preparing || screen.status == ReadyForPickup)
      case None => screen == CustomerMenu
  {
    StartRegisters(t, userId, username, fullName);
  }

  // ----- show_my_orders ------------------------------------------------------------------------

  datatype HistoryView = NoOrders | History(orders: seq<Order>)

  /** `show_my_orders(user_id)`: every order of the customer, the open cart included. */
  function MyOrdersSpec(t: Tables, userId: int): (r: HistoryView)
  {
    var mine := Filter(t.orders, (o: Order) => o.customerId == userId);
    if mine == [] then NoOrders else History(mine)
  }

  /** The history holds exactly the customer's orders, whatever their status. */
  lemma MyOrdersExact(t: Tables, userId: int)
    ensures match MyOrdersSpec(t, userId)
      case NoOrders => forall o :: o in t.orders ==> o.customerId != userId
      case History(mine) => mine != [] && forall o :: o in mine <==> o in t.orders && o.customerId == userId
  {
    match MyOrdersSpec(t, userId)
    case NoOrders =>
      forall o | o in t.orders ensures o.customerId != userId {
        assert o !in Filter(t.orders, (o: Order) => o.customerId == userId);
      }
    case History(mine) =>
  }
}
