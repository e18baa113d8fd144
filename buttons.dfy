/**
 * `button_handler`: the profile check, then the route the callback data
 * takes, then the handler it reaches, as one function from the tables before
 * to the tables after, the answer and the messages to other chats.
 */
module Buttons {
  import opened Wrappers
  import opened Query
  import opened Schema
  import opened Store
  import opened Callback
  import opened Menu
  import opened Cart
  import opened Orders

  /** What the user who pressed the button sees. */
  datatype ButtonReply =
    | ProfileMissing
    | CategoryMenu(categoryButtons: set<string>)
    | ProductMenu(productButtons: seq<string>)
    | CartScreen(view: CartView)
    | HistoryScreen(history: HistoryView)
    | MainMenu(screen: StartScreen)
    | AddAnswer(add: AddReply, thenCategories: Option<set<string>>)
    | PickupMenu(pickupButtons: seq<string>)
    | ConfirmAnswer(confirm: ConfirmReply)
    | NewOrdersScreen(newOrders: NewOrdersView)
    | TakeAnswer(take: TakeReply)
    | MarkAnswer(mark: MarkReply)
    | NoAnswer
    | HandlerError

  /** The two buttons of `request_pickup_location`. */
  const PickupButtons: seq<string> := [ConfirmData("left"), ConfirmData("right")]

  /** The menu `back_to_main` shows: the customer menu for a customer, the seller menu for every other role. */
  function BackToMainScreen(role: string): (r: StartScreen)
  {
    if role == "customer" then CustomerMenu else SellerMenu(role == "seller_left")
  }

  /**
   * `button_handler(data)` for the user pressing the button; `menu` is what
   * `get_products()` returned for the screens that list the menu, and
   * `totalFails` whether `calculate_order_total` fails to read the lines.
   */
  function ButtonSpec(t: Tables, userId: int, data: string, menu: seq<Product>, totalFails: bool): (r: Outcome<ButtonReply>)
  {
    match ProfileIndex(t.profiles, userId)
    case None => Outcome(t, ProfileMissing, [])
    case Some(p) =>
      match RouteAsWritten(data)
      case Unhandled => Outcome(t, NoAnswer, [])
      case Raised => Outcome(t, HandlerError, [])
      case Handle(intent) => IntentSpec(t, userId, t.profiles[p].role, intent, menu, totalFails)
  }

  /** The handler a routed button reaches, for a user with a profile and the given role. */
  function IntentSpec(t: Tables, userId: int, role: string, intent: Intent, menu: seq<Product>, totalFails: bool): (r: Outcome<ButtonReply>)
  {
    match intent
    case MakeOrder => Outcome(t, CategoryMenu(CategoryButtons(menu)), [])
    case ViewCart => Outcome(t, CartScreen(CartViewSpec(t, userId)), [])
    case MyOrders => Outcome(t, HistoryScreen(MyOrdersSpec(t, userId)), [])
    case BackToMain => Outcome(t, MainMenu(BackToMainScreen(role)), [])
    case ShowCategory(c) => Outcome(t, ProductMenu(ProductButtons(menu, c)), [])
    case AddToCart(productId) =>
      var r := AddToCartSpec(t, userId, productId, totalFails);
      Outcome(r.tables, AddAnswer(r.reply, if r.reply.Added? then Some(CategoryButtons(menu)) else None), [])
    case RemoveFromCart(itemId) =>
      var r := RemoveFromCartSpec(t, userId, itemId, totalFails);
      Outcome(r.tables, CartScreen(r.reply), [])
    case Checkout => Outcome(t, PickupMenu(PickupButtons), [])
    case ConfirmOrder(location) =>
      var r := ConfirmOrderSpec(t, userId, location);
      Outcome(r.tables, ConfirmAnswer(r.reply), r.sent)
    case NewOrders => Outcome(t, NewOrdersScreen(NewOrdersSpec(t, userId)), [])
    case TakeOrder(orderId) =>
      var r := TakeOrderSpec(t, userId, orderId);
      Outcome(r.tables, TakeAnswer(r.reply), r.sent)
    case OrderReady(orderId) =>
      var r := MarkReadySpec(t, userId, orderId);
      Outcome(r.tables, MarkAnswer(r.reply), r.sent)
    case OrderCompleted(orderId) =>
      var r := MarkCompletedSpec(t, userId, orderId);
      Outcome(r.tables, MarkAnswer(r.reply), r.sent)
  }

  /** Without a profile no button does anything: the tables stay and nobody is told. */
  lemma ProfileRequired(t: Tables, userId: int, data: string, menu: seq<Product>, totalFails: bool)
    requires ProfileIndex(t.profiles, userId).None?
    ensures ButtonSpec(t, userId, data, menu, totalFails) == Outcome(t, ProfileMissing, [])
  {
  }

  /**
   * As written, the `category_cotton_candy` button of a user with a profile
   * answers with the product list of category `cotton`.
   */
  lemma CottonCandyButtonAsWritten(t: Tables, userId: int, menu: seq<Product>, totalFails: bool)
    requires ProfileIndex(t.profiles, userId).Some?
    ensures ButtonSpec(t, userId, CategoryData("cotton_candy"), menu, totalFails) == Outcome(t, ProductMenu(ProductButtons(menu, "cotton")), [])
  {
    var d := CategoryData("cotton_candy");
    assert RouteAsWritten(d) == Handle(ShowCategory("cotton")) by { CottonCandyAsWritten(); }
    CategoryButton(t, userId, d, "cotton", menu, totalFails);
  }

  /** A button routed to show_products answers with that category's product list and changes nothing. */
  lemma CategoryButton(t: Tables, userId: int, d: string, c: string, menu: seq<Product>, totalFails: bool)
    requires ProfileIndex(t.profiles, userId).Some? && RouteAsWritten(d) == Handle(ShowCategory(c))
    ensures ButtonSpec(t, userId, d, menu, totalFails) == Outcome(t, ProductMenu(ProductButtons(menu, c)), [])
  {
  }

  /** Every button, pressed by anyone, keeps the table invariants. */
  lemma ButtonKeepsValid(t: Tables, userId: int, data: string, menu: seq<Product>, totalFails: bool)
    requires Valid(t)
    ensures Valid(ButtonSpec(t, userId, data, menu, totalFails).tables)
  {
    match ProfileIndex(t.profiles, userId)
    case None =>
    case Some(p) =>
      if RouteAsWritten(data).Handle? {
        IntentKeepsValid(t, userId, t.profiles[p].role, RouteAsWritten(data).intent, menu, totalFails);
      }
  }

  /** Every handler keeps the table invariants. */
  lemma IntentKeepsValid(t: Tables, userId: int, role: string, intent: Intent, menu: seq<Product>, totalFails: bool)
    requires Valid(t)
    ensures Valid(IntentSpec(t, userId, role, intent, menu, totalFails).tables)
  {
    match intent
    case AddToCart(productId) => AddToCartKeepsValid(t, userId, productId, totalFails);
    case RemoveFromCart(itemId) => RemoveFromCartKeepsValid(t, userId, itemId, totalFails);
    case ConfirmOrder(location) =>
      if CartIndex(t.orders, userId).Some? { ConfirmChangesOnlyCart(t, userId, location); }
    case TakeOrder(orderId) =>
      if Admits(t.profiles, userId, SellerRoles) { TakeOrderOutcomes(t, userId, orderId); }
    case OrderReady(orderId) =>
      if Admits(t.profiles, userId, SellerRoles) { MarkReadyUnguarded(t, userId, orderId); }
    case OrderCompleted(orderId) =>
      if Admits(t.profiles, userId, SellerRoles) { MarkCompletedUnguarded(t, userId, orderId); }
    case _ =>
  }

  /** Only the buttons that reach a writing handler can change the tables; only checkout and the seller handlers send messages. */
  lemma ReadOnlyButtons(t: Tables, userId: int, data: string, menu: seq<Product>, totalFails: bool)
    requires !(RouteAsWritten(data).Handle? && (RouteAsWritten(data).intent.AddToCart? || RouteAsWritten(data).intent.RemoveFromCart?
      || RouteAsWritten(data).intent.ConfirmOrder? || RouteAsWritten(data).intent.TakeOrder?
      || RouteAsWritten(data).intent.OrderReady? || RouteAsWritten(data).intent.OrderCompleted?))
    ensures ButtonSpec(t, userId, data, menu, totalFails).tables == t
    ensures ButtonSpec(t, userId, data, menu, totalFails).sent == []
  {
  }

  /** The pickup buttons reach confirm_order with location `left` and `right`. */
  lemma PickupButtonsRoute()
    ensures RouteAsWritten(PickupButtons[0]) == Handle(ConfirmOrder("left"))
    ensures RouteAsWritten(PickupButtons[1]) == Handle(ConfirmOrder("right"))
  {
    assert '_' !in "left" && '_' !in "right";
    RouteConfirm("left");
    RouteConfirm("right");
  }
}
