/**
 * The bot's state: the four Supabase tables as one Db object whose handlers
 * rewrite them in place, and the Telegram messages sent to other chats than
 * the one that pressed the button (sellers, customers).
 */
module Store {
  import opened Wrappers
  import opened Query
  import opened Schema

  /** A snapshot of the tables; nextId stands for the database's id sequences. */
  datatype Tables = Tables(
    orders: seq<Order>,
    items: seq<OrderItem>,
    products: seq<Product>,
    profiles: seq<Profile>,
    nextId: int)

  /**
   * What the database and the bot's own writes keep true: ids come from the
   * sequence, the keys are unique, (order_id, product_id) is unique among the
   * lines, quantities are positive and a customer has at most one cart.
   */
  ghost predicate Valid(t: Tables)
  {
    && t.nextId >= 1
    && (forall i :: 0 <= i < |t.orders| ==> 1 <= t.orders[i].id < t.nextId)
    && (forall i :: 0 <= i < |t.items| ==> 1 <= t.items[i].id < t.nextId)
    && (forall i :: 0 <= i < |t.items| ==> 1 <= t.items[i].orderId < t.nextId)
    && (forall i :: 0 <= i < |t.items| ==> t.items[i].quantity >= 1)
    && DistinctBy(t.orders, OrderId)
    && DistinctBy(t.items, ItemId)
    && DistinctBy(t.items, LineKey)
    && DistinctBy(t.profiles, ProfileUser)
    && AtMostOneCart(t.orders)
  }

  /** The database. Handlers read and reassign its tables. */
  class Db {
    var orders: seq<Order>
    var items: seq<OrderItem>
    var products: seq<Product>
    var profiles: seq<Profile>
    var nextId: int

    function State(): (r: Tables)
      reads this
    {
      Tables(orders, items, products, profiles, nextId)
    }

    /** A database with a product catalogue and registered users and no orders yet. */
    constructor (products: seq<Product>, profiles: seq<Profile>)
      ensures State() == Tables([], [], products, profiles, 1)
    {
      this.orders := [];
      this.items := [];
      this.products := products;
      this.profiles := profiles;
      this.nextId := 1;
    }

    /** The id the next insert receives. */
    method TakeId() returns (id: int)
      modifies this
      ensures id == old(nextId) && nextId == old(nextId) + 1
      ensures orders == old(orders) && items == old(items) && products == old(products) && profiles == old(profiles)
    {
      id := nextId;
      nextId := nextId + 1;
    }
  }

  /** What a handler leaves behind: the tables, its reply to the user who pressed, and the messages it sends to other chats. */
  datatype Outcome<R> = Outcome(tables: Tables, reply: R, sent: seq<Message>)

  /** In a table with unique ids, the row at k is the one found by its id. */
  lemma FindOnlyKey(orders: seq<Order>, id: int, k: nat)
    requires DistinctBy(orders, OrderId) && k < |orders| && orders[k].id == id
    ensures OrderIndex(orders, id) == Some(k)
  {
    DistinctKeyAt(orders, OrderId, k);
    FindOnly(orders, OrderIdIs(id), k);
  }

  /** Writing a status other than `cart` onto the order at k rewrites that row alone and keeps the invariants. */
  lemma StatusWrite(t: Tables, k: nat, s: Status)
    requires Valid(t) && k < |t.orders| && s != Cart
    ensures UpdateWhere(t.orders, OrderIdIs(t.orders[k].id), SetStatus(s)) == t.orders[k := t.orders[k].(status := s)]
    ensures Valid(t.(orders := t.orders[k := t.orders[k].(status := s)]))
    ensures OrderIndex(t.orders[k := t.orders[k].(status := s)], t.orders[k].id) == Some(k)
  {
    var f := SetStatus(s);
    DistinctKeyAt(t.orders, OrderId, k);
    UpdateOnly(t.orders, OrderIdIs(t.orders[k].id), f, k);
    UpdateKeepsDistinct(t.orders, OrderIdIs(t.orders[k].id), f, OrderId);
    UpdateKeepsOneCart(t.orders, OrderIdIs(t.orders[k].id), f);
    FindOnlyKey(t.orders[k := f(t.orders[k])], t.orders[k].id, k);
  }

  /** An empty database is valid. */
  lemma EmptyValid(products: seq<Product>, profiles: seq<Profile>)
    requires DistinctBy(profiles, ProfileUser)
    ensures Valid(Tables([], [], products, profiles, 1))
  {
  }

  // ----- Messages to other chats ------------------------------------------------

  /** What a notification says, apart from its wording. */
  datatype Notice =
    | NewOrderNotice(orderId: int, leftBuffet: bool, total: int, lines: seq<(string, int)>, takeButton: string)
    | TakenNotice(orderId: int)
    | ReadyNotice(orderId: int, leftBuffet: bool)

  datatype Message = Message(chatId: int, notice: Notice)

  /** One `send_message` attempt and whether Telegram accepted it. */
  datatype Delivery = Delivery(message: Message, delivered: bool)

  /** The attempts for a list of messages when the chats in `unreachable` refuse them. */
  function Deliveries(msgs: seq<Message>, unreachable: set<int>): (r: seq<Delivery>)
    ensures |r| == |msgs|
    ensures forall i :: 0 <= i < |msgs| ==> r[i].message == msgs[i] && (r[i].delivered <==> msgs[i].chatId !in unreachable)
  {
    if msgs == [] then [] else [Delivery(msgs[0], msgs[0].chatId !in unreachable)] + Deliveries(msgs[1..], unreachable)
  }

  /** Attempts for consecutive lists of messages concatenate. */
  lemma {:induction false} DeliveriesAppend(a: seq<Message>, b: seq<Message>, unreachable: set<int>)
    ensures Deliveries(a + b, unreachable) == Deliveries(a, unreachable) + Deliveries(b, unreachable)
    decreases |a|
  {
    if a != [] {
      assert (a + b)[1..] == a[1..] + b;
      DeliveriesAppend(a[1..], b, unreachable);
    }
  }

  /** Telegram's outgoing side: every attempt is recorded, delivered or not. */
  class Outbox {
    /** Chats that make `send_message` raise (blocked bot, unknown chat). */
    const unreachable: set<int>
    var sent: seq<Delivery>

    constructor (unreachable: set<int>)
      ensures this.unreachable == unreachable && sent == []
    {
      this.unreachable := unreachable;
      sent := [];
    }

    /** `application.bot.send_message(...)`; a refused send raises, which every caller catches. */
    method Send(m: Message) returns (ok: bool)
      modifies this
      ensures ok <==> m.chatId !in unreachable
      ensures sent == old(sent) + Deliveries([m], unreachable)
    {
      ok := m.chatId !in unreachable;
      sent := sent + [Delivery(m, ok)];
    }
  }
}
