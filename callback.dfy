/**
 * The callback data carried by the bot's inline buttons: how the buttons build
 * it, how `button_handler` takes it apart with `str.startswith`,
 * `str.split("_")[k]` and `int(...)`, and which handler it reaches.
 */
module Callback {
  import opened Wrappers
  import opened Query

  // ----- Strings -----------------------------------------------------------

  function IsUnderscore(c: char): (r: bool) { c == '_' }

  function StartsWith(s: string, prefix: string): (r: bool)
  {
    |prefix| <= |s| && s[..|prefix|] == prefix
  }

  /** Python's `s.split("_")`: the pieces between the underscores, in order, empty pieces included. */
  function Split(s: string): (parts: seq<string>)
    ensures |parts| >= 1
    ensures forall k :: 0 <= k < |parts| ==> '_' !in parts[k]
    decreases |s|
  {
    match FindFirst(s, IsUnderscore)
    case None => [s]
    case Some(i) =>
      assert forall j :: 0 <= j < i ==> s[..i][j] == s[j];
      [s[..i]] + Split(s[i + 1..])
  }

  /** Python's `"_".join(parts)`. */
  function Join(parts: seq<string>): (r: string)
    requires |parts| >= 1
  {
    if |parts| == 1 then parts[0] else parts[0] + "_" + Join(parts[1..])
  }

  /** Splitting loses nothing: joining the pieces back gives the original text. */
  lemma {:induction false} JoinSplit(s: string)
    ensures Join(Split(s)) == s
    decreases |s|
  {
    match FindFirst(s, IsUnderscore)
    case None =>
    case Some(i) =>
      assert Join(Split(s[i + 1..])) == s[i + 1..] by { JoinSplit(s[i + 1..]); }
      assert Split(s) == [s[..i]] + Split(s[i + 1..]);
      assert s == s[..i] + "_" + s[i + 1..];
  }

  /** Text without an underscore is a single piece. */
  lemma SplitWhole(s: string)
    requires '_' !in s
    ensures Split(s) == [s]
  {
    assert FindFirst(s, IsUnderscore).None? by {
      forall j | 0 <= j < |s| ensures !IsUnderscore(s[j]) { assert s[j] in s; }
    }
  }

  /** A leading word followed by an underscore becomes the first piece. */
  lemma SplitWord(w: string, rest: string)
    requires '_' !in w
    ensures Split(w + "_" + rest) == [w] + Split(rest)
  {
    var s := w + "_" + rest;
    assert IsUnderscore(s[|w|]);
    assert forall j :: 0 <= j < |w| ==> s[j] == w[j] && !IsUnderscore(s[j]) by {
      forall j | 0 <= j < |w| ensures s[j] == w[j] && !IsUnderscore(s[j]) { assert w[j] in w; }
    }
    var r := FindFirst(s, IsUnderscore);
    assert r == Some(|w|);
    assert s[..|w|] == w;
    assert s[|w| + 1..] == rest;
  }

  // ----- Python int() on one piece ------------------------------------------

  /** The ASCII characters `str.strip()` and `int()` treat as white space. */
  function IsSpace(c: char): (r: bool)
  {
    c == ' ' || (9 <= c as int <= 13) || (28 <= c as int <= 31)
  }

  function IsDigit(c: char): (r: bool) { '0' <= c <= '9' }

  function StripLeft(s: string): (r: string)
    ensures |r| <= |s|
    decreases |s|
  {
    if s != [] && IsSpace(s[0]) then StripLeft(s[1..]) else s
  }

  function StripRight(s: string): (r: string)
    ensures |r| <= |s|
    decreases |s|
  {
    if s != [] && IsSpace(s[|s| - 1]) then StripRight(s[..|s| - 1]) else s
  }

  function Strip(s: string): (r: string) { StripRight(StripLeft(s)) }

  ghost predicate AllDigits(s: string)
  {
    forall i :: 0 <= i < |s| ==> IsDigit(s[i])
  }

  /** The value of a string of decimal digits, most significant first. */
  function DigitsValue(s: string): (n: nat)
    requires AllDigits(s)
    decreases |s|
  {
    if s == [] then 0 else DigitsValue(s[..|s| - 1]) * 10 + (s[|s| - 1] as int - '0' as int)
  }

  /**
   * `int(piece)` for a piece of callback data: surrounding white space is
   * ignored, an optional sign, then one or more decimal digits (leading zeros
   * allowed). Anything else raises ValueError, modelled as None.
   */
  function ParseInt(s: string): (r: Option<int>)
  {
    var t := Strip(s);
    var signed := |t| > 0 && (t[0] == '-' || t[0] == '+');
    var digits := if signed then t[1..] else t;
    if digits != [] && forall i :: 0 <= i < |digits| ==> IsDigit(digits[i]) then
      var n: int := DigitsValue(digits);
      Some(if signed && t[0] == '-' then -n else n)
    else
      None
  }

  // ----- The f-strings that put numbers into callback data -------------------

  function Digit(d: nat): (c: char)
    requires d < 10
    ensures IsDigit(c) && c as int - '0' as int == d
  {
    ('0' as int + d) as char
  }

  /** Python's `str(n)` for n >= 0. */
  function NatToString(n: nat): (s: string)
    ensures |s| >= 1 && AllDigits(s)
    decreases n
  {
    if n < 10 then [Digit(n)] else NatToString(n / 10) + [Digit(n % 10)]
  }

  /** Python's `str(n)`. */
  function IntToString(n: int): (s: string)
    ensures |s| >= 1 && '_' !in s
    ensures forall i :: 0 < i < |s| ==> IsDigit(s[i])
    ensures IsDigit(s[0]) || s[0] == '-'
  {
    if n < 0 then "-" + NatToString(-n) else NatToString(n)
  }

  lemma {:induction false} NatRoundTrip(n: nat)
    ensures DigitsValue(NatToString(n)) == n
    decreases n
  {
    var s := NatToString(n);
    if n < 10 {
      assert s[..|s| - 1] == [];
    } else {
      NatRoundTrip(n / 10);
      assert s[..|s| - 1] == NatToString(n / 10);
    }
  }

  lemma StripDigits(s: string)
    requires |s| >= 1 && !IsSpace(s[0]) && !IsSpace(s[|s| - 1])
    ensures Strip(s) == s
  {
  }

  /** `int()` of a plain run of digits is its value. */
  lemma ParseDigits(u: string)
    requires |u| >= 1 && AllDigits(u)
    ensures ParseInt(u) == Some(DigitsValue(u))
  {
    StripDigits(u);
    assert IsDigit(u[0]);
  }

  /** `int()` of `-` followed by a run of digits is minus its value. */
  lemma ParseNegative(s: string)
    requires |s| >= 2 && s[0] == '-' && AllDigits(s[1..])
    ensures ParseInt(s) == Some(-(DigitsValue(s[1..]) as int))
  {
    assert !IsSpace(s[|s| - 1]) by {
      assert s[|s| - 1] == s[1..][|s| - 2];
      assert IsDigit(s[1..][|s| - 2]);
    }
    assert Strip(s) == s by { StripDigits(s); }
  }

  lemma NegativeRoundTrip(n: int)
    requires n < 0
    ensures ParseInt(IntToString(n)) == Some(n)
  {
    var u := NatToString(-n);
    var s := IntToString(n);
    assert s == "-" + u;
    assert s[0] == '-' && s[1..] == u;
    assert DigitsValue(u) == -n && AllDigits(u) by { NatRoundTrip(-n); }
    assert ParseInt(s) == Some(-(DigitsValue(s[1..]) as int)) by { ParseNegative(s); }
  }

  lemma NonNegativeRoundTrip(n: int)
    requires n >= 0
    ensures ParseInt(IntToString(n)) == Some(n)
  {
    var u := NatToString(n);
    assert IntToString(n) == u;
    NatRoundTrip(n);
    ParseDigits(u);
  }

  /** `int(str(n)) == n`: the numbers the buttons carry are read back unchanged. */
  lemma IntRoundTrip(n: int)
    ensures ParseInt(IntToString(n)) == Some(n)
  {
    if n < 0 {
      NegativeRoundTrip(n);
    } else {
      NonNegativeRoundTrip(n);
    }
  }

  // ----- Intents and routing ---------------------------------------------------

  /** The handler a button press reaches, with the argument it extracted. */
  datatype Intent =
    | MakeOrder | ViewCart | MyOrders | BackToMain
    | ShowCategory(category: string)
    | AddToCart(productId: int)
    | RemoveFromCart(itemId: int)
    | Checkout
    | ConfirmOrder(location: string)
    | NewOrders
    | TakeOrder(orderId: int)
    | OrderReady(orderId: int)
    | OrderCompleted(orderId: int)

  /**
   * Handle: the branch taken. Unhandled: no branch matches, nothing happens.
   * Raised: the branch raised IndexError or ValueError, which the handler's
   * `except` turns into an error message.
   */
  datatype Route = Handle(intent: Intent) | Unhandled | Raised

  /** `data.split("_")[k]`, None where it raises IndexError. */
  function Segment(data: string, k: nat): (r: Option<string>)
  {
    var parts := Split(data);
    if k < |parts| then Some(parts[k]) else None
  }

  /** `int(data.split("_")[k])`, None where it raises. */
  function NumberAt(data: string, k: nat): (r: Option<int>)
  {
    match Segment(data, k)
    case None => None
    case Some(piece) => ParseInt(piece)
  }

  function Numbered(n: Option<int>, mk: int -> Intent): (r: Route)
  {
    match n
    case None => Raised
    case Some(v) => Handle(mk(v))
  }

  /** The four buttons matched by equality, tested first. */
  function FixedRoute(data: string): (r: Option<Intent>)
  {
    if data == "make_order" then Some(MakeOrder)
    else if data == "view_cart" then Some(ViewCart)
    else if data == "my_orders" then Some(MyOrders)
    else if data == "back_to_main" then Some(BackToMain)
    else None
  }

  /** The branches after `category_`, in the order they are tested. */
  function RouteRest(data: string): (r: Route)
  {
    if StartsWith(data, "add_to_cart_") then Numbered(NumberAt(data, 3), (n: int) => AddToCart(n))
    else if StartsWith(data, "remove_from_cart_") then Numbered(NumberAt(data, 3), (n: int) => RemoveFromCart(n))
    else if data == "checkout" then Handle(Checkout)
    else if StartsWith(data, "confirm_order_") then
      (match Segment(data, 2) case Some(loc) => Handle(ConfirmOrder(loc)) case None => Raised)
    else if data == "new_orders" then Handle(NewOrders)
    else if StartsWith(data, "take_order_") then Numbered(NumberAt(data, 2), (n: int) => TakeOrder(n))
    else if StartsWith(data, "order_ready_") then Numbered(NumberAt(data, 2), (n: int) => OrderReady(n))
    else if StartsWith(data, "order_completed_") then Numbered(NumberAt(data, 2), (n: int) => OrderCompleted(n))
    else Unhandled
  }

  /** Routing as written: the category is the second `_`-piece. */
  function RouteAsWritten(data: string): (r: Route)
  {
    match FixedRoute(data)
    case Some(i) => Handle(i)
    case None =>
      if StartsWith(data, "category_") then
        (match Segment(data, 1) case Some(c) => Handle(ShowCategory(c)) case None => Raised)
      else RouteRest(data)
  }

  /** Routing with the category taken as everything after `category_`. */
  function RouteData(data: string): (r: Route)
  {
    match FixedRoute(data)
    case Some(i) => Handle(i)
    case None =>
      if StartsWith(data, "category_") then Handle(ShowCategory(data[|"category_"|..]))
      else RouteRest(data)
  }

  // ----- Button producers ------------------------------------------------------

  function CategoryData(category: string): (r: string) { "category_" + category }
  function AddToCartData(productId: int): (r: string) { "add_to_cart_" + IntToString(productId) }
  function RemoveFromCartData(itemId: int): (r: string) { "remove_from_cart_" + IntToString(itemId) }
  function ConfirmData(location: string): (r: string) { "confirm_order_" + location }
  function TakeOrderData(orderId: int): (r: string) { "take_order_" + IntToString(orderId) }
  function OrderReadyData(orderId: int): (r: string) { "order_ready_" + IntToString(orderId) }
  function OrderCompletedData(orderId: int): (r: string) { "order_completed_" + IntToString(orderId) }

  // ----- Round trips -------------------------------------------------------------

  /** The pieces of `a_b_c_tail` for words a, b, c and a tail without underscores. */
  lemma ThreeWords(a: string, b: string, c: string, tail: string)
    requires '_' !in a && '_' !in b && '_' !in c && '_' !in tail
    ensures Split(a + "_" + (b + "_" + (c + "_" + tail))) == [a, b, c, tail]
  {
    var x2 := c + "_" + tail;
    var x3 := b + "_" + x2;
    SplitWhole(tail);
    SplitWord(c, tail);
    SplitWord(b, x2);
    SplitWord(a, x3);
  }

  /** The pieces of `a_b_tail` for words a, b and a tail without underscores. */
  lemma TwoWords(a: string, b: string, tail: string)
    requires '_' !in a && '_' !in b && '_' !in tail
    ensures Split(a + "_" + (b + "_" + tail)) == [a, b, tail]
  {
    SplitWhole(tail);
    SplitWord(b, tail);
    SplitWord(a, b + "_" + tail);
  }

  /** The characters of a literal prefix are where they were. */
  lemma CharAt(w: string, x: string, i: nat)
    requires i < |w|
    ensures (w + x)[i] == w[i] && |w + x| >= |w|
  {
  }

  /** A literal followed by anything starts with that literal. */
  lemma PrefixOf(w: string, x: string)
    ensures StartsWith(w + x, w)
  {
    assert (w + x)[..|w|] == w;
  }

  /** `int(d.split("_")[2])` on `a_b_{n}`. */
  lemma NumberAfterTwo(a: string, b: string, n: int)
    requires '_' !in a && '_' !in b
    ensures NumberAt(a + "_" + (b + "_" + IntToString(n)), 2) == Some(n)
  {
    TwoWords(a, b, IntToString(n));
    IntRoundTrip(n);
  }

  /** `int(d.split("_")[3])` on `a_b_c_{n}`. */
  lemma NumberAfterThree(a: string, b: string, c: string, n: int)
    requires '_' !in a && '_' !in b && '_' !in c
    ensures NumberAt(a + "_" + (b + "_" + (c + "_" + IntToString(n))), 3) == Some(n)
  {
    ThreeWords(a, b, c, IntToString(n));
    IntRoundTrip(n);
  }

  /** A character that differs from the literal's rules out both the prefix test and equality. */
  lemma Differs(d: string, w: string, i: nat)
    requires i < |d| && i < |w| && d[i] != w[i]
    ensures !StartsWith(d, w) && d != w
  {
  }

  /** Data not starting with `m`, `v` or `b` is none of the four fixed buttons. */
  lemma FixedNone(d: string)
    requires |d| >= 1 && d[0] != 'm' && d[0] != 'v' && d[0] != 'b'
    ensures FixedRoute(d).None?
  {
    Differs(d, "make_order", 0);
    Differs(d, "view_cart", 0);
    Differs(d, "my_orders", 0);
    Differs(d, "back_to_main", 0);
  }

  /** Away from the fixed buttons and `category_`, both routings test the same branches. */
  lemma OffCategory(d: string)
    requires FixedRoute(d).None? && !StartsWith(d, "category_")
    ensures RouteAsWritten(d) == RouteRest(d) && RouteData(d) == RouteRest(d)
  {
  }

  /** `add_to_cart_{id}` (the product buttons) reaches add_to_cart with that id. */
  lemma RouteAddToCart(productId: int)
    ensures RouteAsWritten(AddToCartData(productId)) == Handle(AddToCart(productId))
    ensures RouteData(AddToCartData(productId)) == Handle(AddToCart(productId))
  {
    var x := IntToString(productId);
    var d := AddToCartData(productId);
    assert d == "add" + "_" + ("to" + "_" + ("cart" + "_" + x));
    NumberAfterThree("add", "to", "cart", productId);
    assert d[0] == 'a';
    FixedNone(d);
    Differs(d, "category_", 0);
    OffCategory(d);
    PrefixOf("add_to_cart_", x);
  }

  /** `remove_from_cart_{id}` (the cart's delete buttons) reaches remove_from_cart with that id. */
  lemma RouteRemoveFromCart(itemId: int)
    ensures RouteAsWritten(RemoveFromCartData(itemId)) == Handle(RemoveFromCart(itemId))
    ensures RouteData(RemoveFromCartData(itemId)) == Handle(RemoveFromCart(itemId))
  {
    var x := IntToString(itemId);
    var d := RemoveFromCartData(itemId);
    assert d == "remove" + "_" + ("from" + "_" + ("cart" + "_" + x));
    NumberAfterThree("remove", "from", "cart", itemId);
    assert d[0] == 'r';
    FixedNone(d);
    Differs(d, "category_", 0);
    Differs(d, "add_to_cart_", 0);
    OffCategory(d);
    PrefixOf("remove_from_cart_", x);
  }

  /** `confirm_order_{loc}` (the pickup buttons) reaches confirm_order with that location. */
  lemma RouteConfirm(location: string)
    requires '_' !in location
    ensures RouteAsWritten(ConfirmData(location)) == Handle(ConfirmOrder(location))
    ensures RouteData(ConfirmData(location)) == Handle(ConfirmOrder(location))
  {
    var d := ConfirmData(location);
    assert Segment(d, 2) == Some(location) by {
      assert d == "confirm" + "_" + ("order" + "_" + location);
      TwoWords("confirm", "order", location);
    }
    assert d[0] == 'c' && d[1] == 'o';
    FixedNone(d);
    Differs(d, "category_", 1);
    Differs(d, "add_to_cart_", 0);
    Differs(d, "remove_from_cart_", 0);
    Differs(d, "checkout", 1);
    OffCategory(d);
    PrefixOf("confirm_order_", location);
  }

  /** Data starting with `t` or `or` passes every test before `new_orders`. */
  lemma PastCartBranches(d: string)
    requires |d| >= 2 && (d[0] == 't' || (d[0] == 'o' && d[1] == 'r'))
    ensures FixedRoute(d) == None && !StartsWith(d, "category_")
    ensures !StartsWith(d, "add_to_cart_") && !StartsWith(d, "remove_from_cart_")
    ensures d != "checkout" && !StartsWith(d, "confirm_order_") && d != "new_orders"
  {
    FixedNone(d);
    Differs(d, "category_", 0);
    Differs(d, "add_to_cart_", 0);
    Differs(d, "remove_from_cart_", 0);
    Differs(d, "checkout", 0);
    Differs(d, "confirm_order_", 0);
    Differs(d, "new_orders", 0);
  }

  /** Data starting with `or` and a `c` at index 6 also passes `take_order_` and `order_ready_`. */
  lemma PastReadyBranch(d: string)
    requires |d| >= 7 && d[0] == 'o' && d[1] == 'r' && d[6] == 'c'
    ensures FixedRoute(d) == None && !StartsWith(d, "category_")
    ensures !StartsWith(d, "add_to_cart_") && !StartsWith(d, "remove_from_cart_")
    ensures d != "checkout" && !StartsWith(d, "confirm_order_") && d != "new_orders"
    ensures !StartsWith(d, "take_order_") && !StartsWith(d, "order_ready_")
  {
    PastCartBranches(d);
    Differs(d, "take_order_", 0);
    Differs(d, "order_ready_", 6);
  }

  /** `take_order_{id}` (the sellers' notification and list buttons) reaches take_order with that id. */
  lemma RouteTakeOrder(orderId: int)
    ensures RouteAsWritten(TakeOrderData(orderId)) == Handle(TakeOrder(orderId))
    ensures RouteData(TakeOrderData(orderId)) == Handle(TakeOrder(orderId))
  {
    var x := IntToString(orderId);
    var d := TakeOrderData(orderId);
    assert d == "take" + "_" + ("order" + "_" + x);
    NumberAfterTwo("take", "order", orderId);
    assert d[0] == 't' && |d| >= 2;
    PastCartBranches(d);
    OffCategory(d);
    PrefixOf("take_order_", x);
  }

  /** The characters of `order_ready_…` the earlier branches test. */
  lemma ReadyChars(x: string)
    ensures var d := "order_ready_" + x;
      |d| >= 2 && d[0] == 'o' && d[1] == 'r' && !StartsWith(d, "take_order_")
  {
    var d := "order_ready_" + x;
    CharAt("order_ready_", x, 0);
    CharAt("order_ready_", x, 1);
    Differs(d, "take_order_", 0);
  }

  /** The characters of `order_completed_…` the earlier branches test. */
  lemma CompletedChars(x: string)
    ensures var d := "order_completed_" + x;
      |d| >= 7 && d[0] == 'o' && d[1] == 'r' && d[6] == 'c'
  {
    CharAt("order_completed_", x, 0);
    CharAt("order_completed_", x, 1);
    CharAt("order_completed_", x, 6);
  }

  /** Past the cart branches, data starting `order_ready_` with a number after it reaches mark_order_ready. */
  lemma ReadyRoute(d: string, n: int)
    requires |d| >= 2 && d[0] == 'o' && d[1] == 'r'
    requires !StartsWith(d, "take_order_") && StartsWith(d, "order_ready_") && NumberAt(d, 2) == Some(n)
    ensures RouteAsWritten(d) == Handle(OrderReady(n)) && RouteData(d) == Handle(OrderReady(n))
  {
    PastCartBranches(d);
    OffCategory(d);
  }

  /** Data starting `order_completed_` with a number after it reaches mark_order_completed. */
  lemma CompletedRoute(d: string, n: int)
    requires |d| >= 7 && d[0] == 'o' && d[1] == 'r' && d[6] == 'c'
    requires StartsWith(d, "order_completed_") && NumberAt(d, 2) == Some(n)
    ensures RouteAsWritten(d) == Handle(OrderCompleted(n)) && RouteData(d) == Handle(OrderCompleted(n))
  {
    PastReadyBranch(d);
    OffCategory(d);
  }

  /** `order_ready_{id}` reaches mark_order_ready with that id. */
  lemma RouteOrderReady(orderId: int)
    ensures RouteAsWritten(OrderReadyData(orderId)) == Handle(OrderReady(orderId))
    ensures RouteData(OrderReadyData(orderId)) == Handle(OrderReady(orderId))
  {
    var x := IntToString(orderId);
    var d := OrderReadyData(orderId);
    assert NumberAt(d, 2) == Some(orderId) by {
      assert d == "order" + "_" + ("ready" + "_" + x);
      NumberAfterTwo("order", "ready", orderId);
    }
    ReadyChars(x);
    assert StartsWith(d, "order_ready_") by { PrefixOf("order_ready_", x); }
    ReadyRoute(d, orderId);
  }

  /** `order_completed_{id}` reaches mark_order_completed with that id. */
  lemma RouteOrderCompleted(orderId: int)
    ensures RouteAsWritten(OrderCompletedData(orderId)) == Handle(OrderCompleted(orderId))
    ensures RouteData(OrderCompletedData(orderId)) == Handle(OrderCompleted(orderId))
  {
    var x := IntToString(orderId);
    var d := OrderCompletedData(orderId);
    assert NumberAt(d, 2) == Some(orderId) by {
      assert d == "order" + "_" + ("completed" + "_" + x);
      NumberAfterTwo("order", "completed", orderId);
    }
    CompletedChars(x);
    assert StartsWith(d, "order_completed_") by { PrefixOf("order_completed_", x); }
    CompletedRoute(d, orderId);
  }

  /** The category buttons reach show_products with their whole category. */
  lemma RouteCategory(category: string)
    ensures RouteData(CategoryData(category)) == Handle(ShowCategory(category))
  {
    var d := CategoryData(category);
    assert d[0] == 'c';
    FixedNone(d);
    assert d[..|"category_"|] == "category_";
    assert d[|"category_"|..] == category;
  }

  /** As written, data starting `category_` reaches show_products with its second `_`-piece. */
  lemma CategoryRouteAsWritten(d: string, c: string)
    requires |d| >= 1 && d[0] == 'c' && StartsWith(d, "category_") && Segment(d, 1) == Some(c)
    ensures RouteAsWritten(d) == Handle(ShowCategory(c))
  {
    FixedNone(d);
  }

  /** As written, a category button carries on only the category's first `_`-piece. */
  lemma RouteCategoryAsWritten(category: string)
    ensures RouteAsWritten(CategoryData(category)) == Handle(ShowCategory(Split(category)[0]))
  {
    var d := CategoryData(category);
    assert |d| >= 1 && d[0] == 'c' by { CharAt("category_", category, 0); }
    assert StartsWith(d, "category_") by { PrefixOf("category_", category); }
    assert Segment(d, 1) == Some(Split(category)[0]) by {
      assert d == "category" + "_" + category;
      SplitWord("category", category);
    }
    CategoryRouteAsWritten(d, Split(category)[0]);
  }

  /** The two routings agree on every category without an underscore. */
  lemma RouteCategoryPlain(category: string)
    requires '_' !in category
    ensures RouteAsWritten(CategoryData(category)) == RouteData(CategoryData(category))
  {
    RouteCategoryAsWritten(category);
    RouteCategory(category);
    SplitWhole(category);
  }

  /** As written, the category `a_b` reaches show_products with category `a`. */
  lemma RouteTwoWordCategory(a: string, b: string)
    requires '_' !in a
    ensures RouteAsWritten(CategoryData(a + "_" + b)) == Handle(ShowCategory(a))
  {
    RouteCategoryAsWritten(a + "_" + b);
    SplitWord(a, b);
  }

  /** The `cotton_candy` button, as written, asks for category `cotton`. */
  lemma CottonCandyAsWritten()
    ensures RouteAsWritten(CategoryData("cotton_candy")) == Handle(ShowCategory("cotton"))
  {
    assert "cotton_candy" == "cotton" + "_" + "candy";
    RouteTwoWordCategory("cotton", "candy");
  }

  /** Data that no branch's test accepts reaches no handler. */
  lemma UnknownUnhandled(d: string)
    requires |d| >= 3 && (d[0] == 'p' || (d[0] == 'r' && d[2] == 'a'))
    ensures RouteAsWritten(d) == Unhandled && RouteData(d) == Unhandled
  {
    FixedNone(d);
    Differs(d, "category_", 0);
    Differs(d, "add_to_cart_", 0);
    if d[0] == 'p' {
      Differs(d, "remove_from_cart_", 0);
    } else {
      Differs(d, "remove_from_cart_", 2);
    }
    Differs(d, "checkout", 0);
    Differs(d, "confirm_order_", 0);
    Differs(d, "new_orders", 0);
    Differs(d, "take_order_", 0);
    Differs(d, "order_ready_", 0);
    Differs(d, "order_completed_", 0);
    OffCategory(d);
  }

  /** The seller menu's `preparing_orders` and `ready_orders` buttons reach no handler. */
  lemma SellerListsUnhandled()
    ensures RouteAsWritten("preparing_orders") == Unhandled
    ensures RouteAsWritten("ready_orders") == Unhandled
  {
    UnknownUnhandled("preparing_orders");
    UnknownUnhandled("ready_orders");
  }

  /** A piece that `int()` rejects makes take_order's branch raise instead of reaching it. */
  lemma RouteBadNumber(x: string)
    requires '_' !in x && ParseInt(x).None?
    ensures RouteAsWritten("take_order_" + x) == Raised && RouteData("take_order_" + x) == Raised
  {
    var d := "take_order_" + x;
    assert NumberAt(d, 2) == None by {
      assert d == "take" + "_" + ("order" + "_" + x);
      TwoWords("take", "order", x);
    }
    assert d[0] == 't' && |d| >= 2;
    PastCartBranches(d);
    OffCategory(d);
    PrefixOf("take_order_", x);
  }
}
