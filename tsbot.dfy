/**
 * The TypeScript variant of the bot: the customer scene's add action (an
 * upsert on (order_id, product_id)), the seller scene's take action, the
 * scene chosen by /start and the cart count on the main menu. Query errors
 * the code tests for are parameters.
 */
module TsBot {
  import opened Wrappers
  import opened Query
  import opened Schema
  import opened Store
  import opened Callback

  // ----- The add action -------------------------------------------------------------

  datatype TsAddReply = LoadFailed | ProductNotFound | CreateFailed | UpsertFailed | TsAdded(productName: string)

  /** `.single()` on the customer's carts, then `order?.id`: a usable id only when exactly one cart matches and its id is not 0. */
  function SingleCartId(orders: seq<Order>, userId: int): (r: Option<int>)
  {
    match Single(Filter(orders, CartOf(userId)))
    case None => None
    case Some(o) => if o.id == 0 then None else Some(o.id)
  }

  /** The upsert with `onConflict: 'order_id,product_id'`: the line is overwritten with quantity 1 at `price`, or inserted. */
  function Upsert(t: Tables, orderId: int, productId: int, price: int): (r: Tables)
  {
    match LineIndex(t.items, orderId, productId)
    case Some(k) => t.(items := t.items[k := t.items[k].(quantity := 1, priceAtTime := price)])
    case None => t.(items := t.items + [OrderItem(t.nextId, orderId, productId, 1, price)], nextId := t.nextId + 1)
  }

  /**
   * The `add_(\d+)` action. `products` is what getProducts returned (None for
   * null); an inserted order gets the column defaults, status cart and total 0.
   * A failed upsert leaves the new cart in place. No total is recomputed.
   */
  function TsAddSpec(t: Tables, products: Option<seq<Product>>, userId: int, productId: int,
                     insertFails: bool, upsertFails: bool): (r: Outcome<TsAddReply>)
  {
    match products
    case None => Outcome(t, LoadFailed, [])
    case Some(list) =>
      match FindFirst(list, ProductIdIs(productId))
      case None => Outcome(t, ProductNotFound, [])
      case Some(p) =>
        var product := list[p];
        match SingleCartId(t.orders, userId)
        case Some(orderId) => TsAddLine(t, orderId, productId, product, upsertFails)
        case None =>
          if insertFails then Outcome(t, CreateFailed, [])
          else
            var t1 := t.(orders := t.orders + [Order(t.nextId, userId, Cart, None, 0)], nextId := t.nextId + 1);
            TsAddLine(t1, t.nextId, productId, product, upsertFails)
  }

  /** The upsert step and its answer. */
  function TsAddLine(t: Tables, orderId: int, productId: int, product: Product, upsertFails: bool): (r: Outcome<TsAddReply>)
  {
    if upsertFails then Outcome(t, UpsertFailed, [])
    else Outcome(Upsert(t, orderId, productId, product.price), TsAdded(product.name), [])
  }

  /** A failed product load or an id not on the list changes nothing. */
  lemma TsAddNoProductNoChange(t: Tables, products: Option<seq<Product>>, userId: int, productId: int, insertFails: bool, upsertFails: bool)
    requires products.None? || forall i :: 0 <= i < |products.value| ==> products.value[i].id != productId
    ensures TsAddSpec(t, products, userId, productId, insertFails, upsertFails).tables == t
    ensures TsAddSpec(t, products, userId, productId, insertFails, upsertFails).reply in {LoadFailed, ProductNotFound}
  {
  }

  /** After the upsert the order has exactly one line for the product, with quantity 1 at the given price. */
  lemma UpsertSetsLine(t: Tables, orderId: int, productId: int, price: int)
    requires Valid(t) && 1 <= orderId < t.nextId
    ensures var t1 := Upsert(t, orderId, productId, price);
      && Valid(t1)
      && t1.orders == t.orders
      && (exists k :: 0 <= k < |t1.items| && t1.items[k].orderId == orderId && t1.items[k].productId == productId
            && t1.items[k].quantity == 1 && t1.items[k].priceAtTime == price)
      && (forall i, j :: 0 <= i < j < |t1.items| ==> LineKey(t1.items[i]) != LineKey(t1.items[j]))
  {
    var t1 := Upsert(t, orderId, productId, price);
    match LineIndex(t.items, orderId, productId)
    case Some(k) =>
      var line := t.items[k].(quantity := 1, priceAtTime := price);
      ReplaceKeepsDistinct(t.items, k, line, ItemId);
      ReplaceKeepsDistinct(t.items, k, line, LineKey);
      assert t1.items[k] == line;
    case None =>
      var line := OrderItem(t.nextId, orderId, productId, 1, price);
      assert forall i :: 0 <= i < |t.items| ==> ItemId(t.items[i]) != ItemId(line);
      AppendKeepsDistinct(t.items, line, ItemId);
      assert forall i :: 0 <= i < |t.items| ==> LineKey(t.items[i]) != LineKey(line) by {
        forall i | 0 <= i < |t.items| ensures LineKey(t.items[i]) != LineKey(line) {
          assert !LineFor(orderId, productId)(t.items[i]);
        }
      }
      AppendKeepsDistinct(t.items, line, LineKey);
      assert t1.items[|t.items|] == line;
  }

  /** Adding the same product again resets its line to quantity 1 instead of raising it. */
  lemma ReAddResets(t: Tables, orderId: int, productId: int, price: int)
    requires Valid(t) && 1 <= orderId < t.nextId
    ensures var t2 := Upsert(Upsert(t, orderId, productId, price), orderId, productId, price);
      && LineIndex(t2.items, orderId, productId).Some?
      && t2.items[LineIndex(t2.items, orderId, productId).value].quantity == 1
  {
    UpsertSetsLine(t, orderId, productId, price);
    var t1 := Upsert(t, orderId, productId, price);
    var k :| 0 <= k < |t1.items| && t1.items[k].orderId == orderId && t1.items[k].productId == productId
            && t1.items[k].quantity == 1 && t1.items[k].priceAtTime == price;
    assert LineIndex(t1.items, orderId, productId).Some?;
    UpsertSetsLine(t1, orderId, productId, price);
  }

  /**
   * A cart order is created only when no single usable cart is found; the
   * orders table is otherwise left as it was, so no order's total_amount is
   * recomputed.
   */
  lemma TsAddOrders(t: Tables, products: Option<seq<Product>>, userId: int, productId: int, insertFails: bool, upsertFails: bool)
    ensures var r := TsAddSpec(t, products, userId, productId, insertFails, upsertFails);
      || r.tables.orders == t.orders
      || (SingleCartId(t.orders, userId).None? && !insertFails
          && r.tables.orders == t.orders + [Order(t.nextId, userId, Cart, None, 0)])
  {
  }

  /** The add action keeps the table invariants. */
  lemma TsAddKeepsValid(t: Tables, products: Option<seq<Product>>, userId: int, productId: int, insertFails: bool, upsertFails: bool)
    requires Valid(t)
    ensures Valid(TsAddSpec(t, products, userId, productId, insertFails, upsertFails).tables)
  {
    if products.Some? && FindFirst(products.value, ProductIdIs(productId)).Some? {
      var product := products.value[FindFirst(products.value, ProductIdIs(productId)).value];
      match SingleCartId(t.orders, userId)
      case Some(orderId) =>
        assert TsAddSpec(t, products, userId, productId, insertFails, upsertFails)
          == TsAddLine(t, orderId, productId, product, upsertFails);
        SingleCartInTable(t, userId);
        TsAddLineKeepsValid(t, orderId, productId, product, upsertFails);
      case None =>
        if !insertFails {
          var t1 := t.(orders := t.orders + [Order(t.nextId, userId, Cart, None, 0)], nextId := t.nextId + 1);
          assert TsAddSpec(t, products, userId, productId, insertFails, upsertFails)
            == TsAddLine(t1, t.nextId, productId, product, upsertFails);
          SingleCartNone(t, userId);
          TsNewCartKeepsValid(t, userId);
          TsAddLineKeepsValid(t1, t.nextId, productId, product, upsertFails);
        }
    }
  }

  /** The id `.single()` finds is the id of an order in the table. */
  lemma SingleCartInTable(t: Tables, userId: int)
    requires Valid(t) && SingleCartId(t.orders, userId).Some?
    ensures 1 <= SingleCartId(t.orders, userId).value < t.nextId
  {
    var cart := Single(Filter(t.orders, CartOf(userId))).value;
    assert cart in Filter(t.orders, CartOf(userId));
  }

  /** The upsert step keeps the table invariants for an order in the table. */
  lemma TsAddLineKeepsValid(t: Tables, orderId: int, productId: int, product: Product, upsertFails: bool)
    requires Valid(t) && 1 <= orderId < t.nextId
    ensures Valid(TsAddLine(t, orderId, productId, product, upsertFails).tables)
  {
    if !upsertFails { UpsertSetsLine(t, orderId, productId, product.price); }
  }

  /** Inserting a cart for a customer without one keeps the table invariants. */
  lemma TsNewCartKeepsValid(t: Tables, userId: int)
    requires Valid(t) && CartIndex(t.orders, userId).None?
    ensures Valid(t.(orders := t.orders + [Order(t.nextId, userId, Cart, None, 0)], nextId := t.nextId + 1))
  {
    var o := Order(t.nextId, userId, Cart, None, 0);
    assert forall i :: 0 <= i < |t.orders| ==> OrderId(t.orders[i]) != OrderId(o);
    AppendKeepsDistinct(t.orders, o, OrderId);
    NewCartKeepsOneCart(t.orders, o);
  }

  /** Under the invariants, a customer's one cart is what `.single()` finds. */
  lemma CartIsSingle(t: Tables, userId: int)
    requires Valid(t) && CartIndex(t.orders, userId).Some?
    ensures SingleCartId(t.orders, userId) == Some(t.orders[CartIndex(t.orders, userId).value].id)
  {
    var c := CartIndex(t.orders, userId).value;
    forall i | 0 <= i < |t.orders| && i != c ensures !CartOf(userId)(t.orders[i]) {
      if i > c {
        assert t.orders[c].status == Cart && t.orders[c].customerId == userId;
      }
    }
    FilterOnly(t.orders, CartOf(userId), c);
  }

  /** Under the invariants, no single usable cart means no cart at all. */
  lemma SingleCartNone(t: Tables, userId: int)
    requires Valid(t) && SingleCartId(t.orders, userId).None?
    ensures CartIndex(t.orders, userId).None?
  {
    if CartIndex(t.orders, userId).Some? {
      CartIsSingle(t, userId);
    }
  }

  /**
   * Re-adding a product to a cart whose total was correct can leave a stale
   * total: here a line of quantity 2 is reset to 1 while total_amount stays.
   * The upsert never writes total_amount (`TsAddOrders`), so the total goes
   * stale exactly when the reset changes the line's amount.
   */
  lemma TsAddLeavesStaleTotal()
    ensures var t := Tables([Order(1, 10, Cart, None, 100)], [OrderItem(2, 1, 5, 2, 50)], [], [], 3);
      var r := TsAddSpec(t, Some([Product(5, "Popcorn", "popcorn", 50, true)]), 10, 5, false, false);
      && Valid(t)
      && CartTotalsConsistent(t.orders, t.items)
      && r.reply == TsAdded("Popcorn")
      && !CartTotalsConsistent(r.tables.orders, r.tables.items)
  {
    var t := Tables([Order(1, 10, Cart, None, 100)], [OrderItem(2, 1, 5, 2, 50)], [], [], 3);
    var list := [Product(5, "Popcorn", "popcorn", 50, true)];
    assert FindFirst(list, ProductIdIs(5)) == Some(0);
    assert Filter(t.orders, CartOf(10)) == [t.orders[0]] by {
      assert Filter(t.orders[1..], CartOf(10)) == [];
    }
    assert SingleCartId(t.orders, 10) == Some(1);
    assert LineIndex(t.items, 1, 5) == Some(0);
    var r := TsAddSpec(t, Some(list), 10, 5, false, false);
    assert r.tables.items == [OrderItem(2, 1, 5, 1, 50)];
    assert OrderTotal(r.tables.items, 1) == 50;
    assert OrderTotal(t.items, 1) == 100;
  }

  // ----- The take action ---------------------------------------------------------------

  datatype TsTakeReply = TakeRejected | TsTaken | TakeError

  /**
   * The `take_(\d+)` action: `.single()` over the orders with that id and
   * status pending; none (or a query error) is refused with no change; a failed
   * update is thrown and caught. There is no role or station check.
   */
  function TsTakeSpec(t: Tables, orderId: int, selectFails: bool, updateFails: bool): (r: Outcome<TsTakeReply>)
  {
    if selectFails || Single(Filter(t.orders, PendingWithId(orderId))).None? then Outcome(t, TakeRejected, [])
    else if updateFails then Outcome(t, TakeError, [])
    else Outcome(t.(orders := UpdateWhere(t.orders, OrderIdIs(orderId), SetStatus(Preparing))), TsTaken, [])
  }

  /**
   * Under the invariants the take action succeeds exactly when a pending order
   * with that id exists and neither query fails; the order is then preparing, a
   * lifecycle step, and only that row changes. Every other outcome changes nothing.
   */
  lemma TsTakeOutcomes(t: Tables, orderId: int, selectFails: bool, updateFails: bool)
    requires Valid(t)
    ensures var r := TsTakeSpec(t, orderId, selectFails, updateFails);
      && (r.reply == TsTaken <==>
            && !selectFails && !updateFails
            && OrderIndex(t.orders, orderId).Some? && t.orders[OrderIndex(t.orders, orderId).value].status == Pending)
      && (r.reply != TsTaken ==> r.tables == t)
      && (r.reply == TsTaken ==>
            var k := OrderIndex(t.orders, orderId).value;
            && r.tables == t.(orders := t.orders[k := t.orders[k].(status := Preparing)])
            && LifecycleStep(t.orders[k].status, r.tables.orders[k].status)
            && Valid(r.tables))
  {
    var pending := Filter(t.orders, PendingWithId(orderId));
    match OrderIndex(t.orders, orderId)
    case None =>
      FilterNone(t.orders, PendingWithId(orderId));
    case Some(k) =>
      DistinctKeyAt(t.orders, OrderId, k);
      if t.orders[k].status == Pending {
        FilterOnly(t.orders, PendingWithId(orderId), k);
        assert Single(pending).Some?;
        if !selectFails && !updateFails {
          StatusWrite(t, k, Preparing);
        }
      } else {
        FilterNone(t.orders, PendingWithId(orderId));
      }
  }

  // ----- /start and the main menu ----------------------------------------------------------

  datatype Scene = SellerScene | CustomerScene

  /** `profile?.role?.startsWith('seller_')`: the seller scene, else the customer scene. */
  function SceneFor(role: Option<string>): (r: Scene)
  {
    if role.Some? && StartsWith(role.value, "seller_") then SellerScene else CustomerScene
  }

  /** The seller scene is entered exactly for a role of the form `seller_<anything>`. */
  lemma SceneForIff(role: Option<string>)
    ensures SceneFor(role) == SellerScene <==> exists rest :: role == Some("seller_" + rest)
  {
    if SceneFor(role) == SellerScene {
      var r := role.value;
      assert r == "seller_" + r[7..];
    }
    if exists rest :: role == Some("seller_" + rest) {
      var rest :| role == Some("seller_" + rest);
      assert role.value[..7] == "seller_";
    }
  }

  /**
   * The TS `/start` keeps the table invariants: a new user is appended with an
   * id no profile has, a known user's row keeps its id, and no other table
   * changes, whether or not the upsert fails.
   */
  lemma TsStartKeepsValid(t: Tables, userId: int, username: string, fullName: string, defaultRole: string, upsertFails: bool)
    requires Valid(t)
    ensures var r := TsStartSpec(t, userId, username, fullName, defaultRole, upsertFails);
      && Valid(r.tables)
      && r.tables.orders == t.orders && r.tables.items == t.items && r.tables.nextId == t.nextId
      && (upsertFails ==> r.tables == t)
  {
    if !upsertFails {
      match ProfileIndex(t.profiles, userId)
      case None =>
        var np := Profile(userId, username, fullName, defaultRole);
        assert forall i :: 0 <= i < |t.profiles| ==> !UserIs(userId)(t.profiles[i]);
        AppendKeepsDistinct(t.profiles, np, ProfileUser);
      case Some(p) =>
        UpdateKeepsDistinct(t.profiles, UserIs(userId), SetNames(username, fullName), ProfileUser);
    }
  }

  /**
   * `bot.start`: upsert the profile on user_id (a new row takes the column
   * default role, `defaultRole`; a known row keeps its role), ignore an upsert
   * error, then read the role back with `.single()` and choose the scene.
   */
  function TsStartSpec(t: Tables, userId: int, username: string, fullName: string, defaultRole: string, upsertFails: bool): (r: Outcome<Scene>)
  {
    var t1 :=
      if upsertFails then t
      else match ProfileIndex(t.profiles, userId)
        case None => t.(profiles := t.profiles + [Profile(userId, username, fullName, defaultRole)])
        case Some(_) => t.(profiles := UpdateWhere(t.profiles, UserIs(userId), SetNames(username, fullName)))
    ;
    var role := match Single(Filter(t1.profiles, UserIs(userId))) case None => None case Some(p) => Some(p.role);
    Outcome(t1, SceneFor(role), [])
  }

  /** A known user keeps the role, so the scene follows that role; a new user's scene follows the default role. */
  lemma TsStartScene(t: Tables, userId: int, username: string, fullName: string, defaultRole: string)
    requires Valid(t)
    ensures var r := TsStartSpec(t, userId, username, fullName, defaultRole, false);
      match ProfileIndex(t.profiles, userId)
      case None => r.reply == SceneFor(Some(defaultRole))
      case Some(p) => r.reply == SceneFor(Some(t.profiles[p].role))
  {
    match ProfileIndex(t.profiles, userId)
    case None =>
      var np := Profile(userId, username, fullName, defaultRole);
      var ps := t.profiles + [np];
      assert forall i :: 0 <= i < |t.profiles| ==> !UserIs(userId)(t.profiles[i]);
      FilterOnly(ps, UserIs(userId), |t.profiles|);
    case Some(p) =>
      var f := SetNames(username, fullName);
      DistinctKeyAt(t.profiles, ProfileUser, p);
      UpdateOnly(t.profiles, UserIs(userId), f, p);
      var ps := t.profiles[p := f(t.profiles[p])];
      FilterOnly(ps, UserIs(userId), p);
  }

  /**
   * `showMainMenu`: the exact count of order_items rows of
   * `ctx.session.orderId || 0`, or 0 when the count is absent.
   */
  function MainMenuCartCount(t: Tables, sessionOrderId: Option<int>, countFails: bool): (r: int)
  {
    var id := match sessionOrderId case None => 0 case Some(v) => v;
    if countFails then 0 else |Filter(t.items, InOrder(id))|
  }

  /** The session's orderId is never assigned, so the count is taken for order 0, which has no lines: it is always 0. */
  lemma CartCountAlwaysZero(t: Tables, countFails: bool)
    requires Valid(t)
    ensures MainMenuCartCount(t, None, countFails) == 0
  {
    FilterNone(t.items, InOrder(0));
  }

  /** The count the menu evidently means: the lines of the customer's cart. */
  function CartCount(t: Tables, userId: int): (r: nat)
  {
    match CartIndex(t.orders, userId)
    case None => 0
    case Some(c) => |Filter(t.items, InOrder(t.orders[c].id))|
  }

  /** The intended count is 0 exactly when the customer has no cart or an empty one. */
  lemma CartCountZeroIff(t: Tables, userId: int)
    ensures CartCount(t, userId) == 0 <==>
      match CartIndex(t.orders, userId)
      case None => true
      case Some(c) => forall i :: 0 <= i < |t.items| ==> t.items[i].orderId != t.orders[c].id
  {
    match CartIndex(t.orders, userId)
    case None =>
    case Some(c) =>
      var rows := Filter(t.items, InOrder(t.orders[c].id));
      if rows != [] {
        assert rows[0] in rows;
      }
      if exists i :: 0 <= i < |t.items| && t.items[i].orderId == t.orders[c].id {
        var i :| 0 <= i < |t.items| && t.items[i].orderId == t.orders[c].id;
        assert t.items[i] in rows;
      }
  }

  /** As written, a customer with a non-empty cart still sees 0. */
  lemma CartCountLostAsWritten()
    ensures var t := Tables([Order(1, 10, Cart, None, 50)], [OrderItem(2, 1, 5, 1, 50)], [], [], 3);
      && Valid(t) && CartCount(t, 10) == 1 && MainMenuCartCount(t, None, false) == 0
  {
    var t := Tables([Order(1, 10, Cart, None, 50)], [OrderItem(2, 1, 5, 1, 50)], [], [], 3);
    assert CartIndex(t.orders, 10) == Some(0);
    assert Filter(t.items, InOrder(1)) == t.items by {
      assert Filter(t.items[1..], InOrder(1)) == [];
    }
    CartCountAlwaysZero(t, false);
  }

  // ----- The actions on the database -----------------------------------------------------------

  /** The `add_(\d+)` action, query by query; `products` is what getProducts returned. */
  method TsAddAction(db: Db, products: Option<seq<Product>>, userId: int, productId: int, insertFails: bool, upsertFails: bool)
    returns (reply: TsAddReply)
    modifies db
    ensures db.State() == TsAddSpec(old(db.State()), products, userId, productId, insertFails, upsertFails).tables
    ensures reply == TsAddSpec(old(db.State()), products, userId, productId, insertFails, upsertFails).reply
  {
    if products.None? {
      return LoadFailed;
    }
    var found := FindFirst(products.value, ProductIdIs(productId));
    if found.None? {
      return ProductNotFound;
    }
    var product := products.value[found.value];
    var orderId: int;
    var cart := SingleCartId(db.orders, userId);
    if cart.None? {
      if insertFails {
        return CreateFailed;
      }
      orderId := db.TakeId();
      db.orders := db.orders + [Order(orderId, userId, Cart, None, 0)];
    } else {
      orderId := cart.value;
    }
    if upsertFails {
      return UpsertFailed;
    }
    var existing := LineIndex(db.items, orderId, productId);
    if existing.Some? {
      var k := existing.value;
      db.items := db.items[k := db.items[k].(quantity := 1, priceAtTime := product.price)];
    } else {
      var id := db.TakeId();
      db.items := db.items + [OrderItem(id, orderId, productId, 1, product.price)];
    }
    reply := TsAdded(product.name);
  }

  /** The `take_(\d+)` action, query by query. */
  method TsTakeAction(db: Db, orderId: int, selectFails: bool, updateFails: bool) returns (reply: TsTakeReply)
    modifies db
    ensures db.State() == TsTakeSpec(old(db.State()), orderId, selectFails, updateFails).tables
    ensures reply == TsTakeSpec(old(db.State()), orderId, selectFails, updateFails).reply
  {
    var order := Single(Filter(db.orders, PendingWithId(orderId)));
    if selectFails || order.None? {
      return TakeRejected;
    }
    if updateFails {
      return TakeError;
    }
    db.orders := UpdateWhere(db.orders, OrderIdIs(orderId), SetStatus(Preparing));
    reply := TsTaken;
  }

  /** `bot.start`: the profile upsert, then the role read and the scene. */
  method TsStart(db: Db, userId: int, username: string, fullName: string, defaultRole: string, upsertFails: bool)
    returns (scene: Scene)
    modifies db
    ensures db.State() == TsStartSpec(old(db.State()), userId, username, fullName, defaultRole, upsertFails).tables
    ensures scene == TsStartSpec(old(db.State()), userId, username, fullName, defaultRole, upsertFails).reply
  {
    if !upsertFails {
      var known := ProfileIndex(db.profiles, userId);
      if known.None? {
        db.profiles := db.profiles + [Profile(userId, username, fullName, defaultRole)];
      } else {
        db.profiles := UpdateWhere(db.profiles, UserIs(userId), SetNames(username, fullName));
      }
    }
    var profile := Single(Filter(db.profiles, UserIs(userId)));
    scene := SceneFor(if profile.Some? then Some(profile.value.role) else None);
  }
}
