# Circusbuffet ordering bot — a Dafny model

Circusbuffet is a Telegram bot that sells popcorn, drinks and cotton candy at
two buffets ("left" and "right"). Customers fill a cart, pick a buffet and
check out. Sellers of that buffet are notified, take the order, mark it ready
and then completed. The data lives in four Supabase tables: `orders`,
`order_items`, `products` and `profiles`. The Python bot (`api/bot.py`, with
`bot.py` a byte-identical copy) drives all of this from inline-keyboard
callbacks. A smaller TypeScript bot (`api/bot.ts`) has an add-to-cart action
and a take-order action of its own.

This project models the bot's core in Dafny:

- **Tables.** The four tables are sequences of records inside one `Store.Db`
  object, together with an id counter that stands for the database's id
  sequences. Every handler is a method that rewrites those fields query by
  query.
- **Outgoing messages.** A message to a chat other than the one that pressed
  the button (a seller, a customer) is appended to a `Store.Outbox`, and every
  attempt records whether Telegram accepted it.
- **Two layers per handler.** Each handler has a specification function from
  the tables before to an `Outcome`. An `Outcome` holds the tables after, the
  answer shown to the user, and the messages sent. The method's `ensures`
  ties it to that function. The properties the bot promises are lemmas about
  the functions: totals, one cart per customer, the status guards, the
  recipients of notifications and the round trips of button data.
- **Query builder.** Supabase's query builder is modelled once, in `Query`:
  - `select().eq()` is `Filter`;
  - `data[0]` is `FindFirst`;
  - `update().eq()` is `UpdateWhere`;
  - `delete().eq()` is a `Filter` with the negated test;
  - `.single()` is `Single`.

  Keys and unique constraints are `DistinctBy`. `Store.Valid` collects what
  the tables keep true:
  - ids come from the sequence;
  - keys are unique;
  - a cart has one line per product;
  - quantities are positive;
  - a customer has at most one cart.

Modules:

- `query.dfy`: `Wrappers` (Option) and `Query`.
- `schema.dfy`: `Schema`. The record types, the row tests and payloads, order totals, and the order lifecycle.
- `store.dfy`: `Store`. The `Db` and `Outbox` classes and the table invariant.
- `callback.dfy`: `Callback`. `split("_")`, `int()`, `str(int)`, the button producers and the `button_handler` router.
- `menu.dfy`: `Menu`. Both product caches, the category buttons and the category filter.
- `cart.dfy`: `Cart`. `add_to_cart`, `show_cart` and `remove_from_cart` as specification functions.
- `orders.dfy`: `Orders`. The role gate, checkout and seller notification, new orders, take, ready and completed, `/start`, and the order history.
- `buttons.dfy`: `Buttons`. `button_handler` as a whole.
- `bot.dfy`: `Bot`. The Python handlers as methods on `Db` and `Outbox`.
- `tsbot.dfy`: `TsBot`. The TypeScript add and take actions, the scene split and the cart count.

Where the code and its description disagree, the model follows the code:

- Checkout does not check that the cart has lines.
- A failed `get_products` fetch returns `[]`, not the previous snapshot.
- `take_order` does not compare the seller's buffet with the order's pickup location.
- `button_handler` routes a category button by `data.split("_")[1]`, so `ButtonSpec` and `HandleButton` dispatch with `Callback.RouteAsWritten`. The corrected router `Callback.RouteData` appears only in the corrected half of the cotton-candy finding below.
- The TypeScript insert of a new order sends only `customer_id`. The model gives the new row the defaults the Python insert writes explicitly: status `cart` and total 0.
- The TypeScript `/start` upsert (api/bot.ts:179-185) names no `onConflict` column, so it conflicts on the table's primary key, which the code does not show. The model takes that key to be `user_id`. Any other outcome of the upsert is covered by `upsertFails`.
- `calculate_order_total` catches a failed read and returns 0 (api/bot.py:631-633). `add_to_cart` and `remove_from_cart` then store 0 as the cart's total and answer success. The model makes this failure the `totalFails` parameter of `AddToCartSpec`, `RemoveFromCartSpec` and the button specification.

## Model

| member | source | states |
|---|---|---|
| Schema.SumOfOrderRows | api/bot.py:622-630 | summing quantity × price_at_time over the rows `select().eq('order_id', id)` returns gives the order's total |
| Schema.NoLinesNoTotal | api/bot.py:622-630 | an order with no lines has total 0 |
| Schema.IncrementAddsPrice | api/bot.py:289-293 | raising a line's quantity by one adds exactly its frozen price to its order's total |
| Schema.OrderTotalWithout | api/bot.py:365 | deleting the line with a given id lowers its order's total by that line's amount and changes no other order's total |
| Bot.CalculateOrderTotal | api/bot.py:622-633 | the loop's result is the order's total, Σ quantity × price_at_time over its lines, 0 for none; when the read fails the `except` returns 0 |
| Cart.EnsureCartFacts | api/bot.py:270-280 | the cart is found, or inserted with status cart, total 0 and a fresh id only when the customer has none; the invariants hold |
| Cart.PutLineFacts | api/bot.py:286-301 | an existing line gets quantity + 1 and keeps its price; otherwise one new line with quantity 1 at the current price; the order's total rises by that price, other orders' totals stay |
| Cart.StoreTotalFacts | api/bot.py:304-307 | only the order with that id changes, and it gets the recomputed total |
| Cart.AddToCartIncrements | api/bot.py:283-307 | re-adding a product already in the cart increments that line by exactly 1, keeps price_at_time, and raises the sum over the cart's lines by that price |
| Cart.AddToCartInsertsLine | api/bot.py:295-301 | a product not yet in the cart gets one new line with quantity 1 and price_at_time equal to the product's price |
| Cart.AddToCartCreatesCartOnlyWhenNone | api/bot.py:270-280 | a new cart order (status cart, no pickup) is appended exactly when the customer had none; existing orders keep id, status and customer |
| Cart.AddToCartStoresTotal | api/bot.py:304-307 | afterwards the cart's total_amount equals the sum over its lines, or 0 when `calculate_order_total` could not read them |
| Cart.AddToCartMissingProduct | api/bot.py:283 | a product id with no row fails after the cart was created: no line changes, the new cart stays (see also api/bot.py:312-314) |
| Cart.AddToCartKeepsValid | api/bot.py:267-314 | add_to_cart keeps the table invariants |
| Cart.AddToCartKeepsTotals | api/bot.py:267-314 | if every cart's stored total matched its lines before, it does after, provided `calculate_order_total` can read the lines |
| Cart.AddToCartFailedReadZeroes | api/bot.py:631-633 | a failed read makes add_to_cart store 0 on a cart holding a 50 line and still answer that the product was added |
| Cart.CartViewEmptyIff | api/bot.py:319-330 | the cart shows as empty exactly when there is no cart or the cart has no lines |
| Cart.CartViewShown | api/bot.py:333-347 | one displayed line per row with its quantity and amount, each delete button routes to that row, and the total is the sum of the amounts and the order's total |
| Cart.CartViewMatchesStored | api/bot.py:333-347 | when stored totals are consistent, the displayed total equals the cart's total_amount |
| Cart.SumAmountsOfLines | api/bot.py:336-341 | the amounts shown add up to Σ quantity × price_at_time over the rows |
| Bot.ShowCart | api/bot.py:317-359 | the loop produces exactly the view the specification gives: empty, the lines and total, or the error when a product join fails |
| Cart.RemoveFromCartDeletes | api/bot.py:365 | afterwards the lines are exactly the old lines whose id differs from the given id |
| Cart.RemoveFromCartTotal | api/bot.py:367-374 | the customer's cart, if any, stores the sum over its remaining lines (0 when that read fails), the old sum less the deleted line's share; without a cart no order changes |
| Cart.RemoveFromCartKeepsValid | api/bot.py:362-381 | remove_from_cart keeps the table invariants |
| Cart.RemoveIgnoresOwnership | api/bot.py:365-374 | a customer can delete a line of another customer's cart, whose stored total then no longer matches its lines |
| Bot.AddToCart | api/bot.py:267-314 | the queries leave exactly the tables and answer of the add_to_cart specification |
| Bot.RemoveFromCart | api/bot.py:362-381 | the queries leave exactly the tables and cart view of the remove_from_cart specification |
| Orders.AdmitsIff | bot.py:52-59 | with unique user ids, the gate admits exactly the users with a profile whose role is allowed |
| Orders.GateRefusesSellerHandlers | bot.py:53-58 | a refused user changes nothing and causes no message on take, ready, completed and the new-orders list |
| Bot.SellerGate | bot.py:50-53 | with unique user ids, the user is admitted exactly when some profile row has that user id and a seller role |
| Orders.ConfirmWithoutCart | api/bot.py:398-402 | checkout without a cart changes nothing and tells nobody |
| Orders.ConfirmChangesOnlyCart | api/bot.py:404-411 | with a cart, only that order changes: it becomes pending at `<location>_buffer` whatever its lines, a lifecycle step; the customer has no cart afterwards; the invariants hold |
| Orders.SellerRecipients | bot.py:440-455 | the notifications go, in table order, one each to exactly the profiles with role `seller_<location>`, and each take button routes to take_order for that order |
| Orders.SellerMessagesNone | bot.py:429-437 | a missing order or a line whose product join fails means no seller is told (see also bot.py:457-458) |
| Bot.SendEach | bot.py:444-455 | one send attempt per recipient in order; a refused send is recorded and the rest are still attempted |
| Bot.BuildNoticeLines | bot.py:436-437 | the loop over the order's lines gives their (name, quantity) list, or the failure when a product join fails |
| Bot.NotifySellers | bot.py:426-458 | the outbox grows by exactly the attempts for the seller messages of the specification |
| Bot.ConfirmOrder | api/bot.py:395-423 | the queries leave exactly the tables, answer and seller messages of the checkout specification |
| Orders.NewOrdersExact | api/bot.py:464-474 | a seller sees exactly the pending orders at `left_buffer` for seller_left and `right_buffer` for seller_right, with their totals, each with a button routing to take_order |
| Orders.NoNewOrdersExact | api/bot.py:467-469 | "no new orders" means no pending order waits at the seller's buffer |
| Bot.BuildEntries | api/bot.py:472-474 | the loop gives one entry per order with its customer's full name, or the failure when a customer has no profile |
| Bot.ShowNewOrders | api/bot.py:461-483 | the gate, query and loop produce exactly the view of the specification |
| Orders.TakeOrderOutcomes | api/bot.py:491-516 | missing order: not found, no change; status not pending: already taken, no change, no message; otherwise only that order becomes preparing, exactly one message goes to its customer, and the ready button routes to mark_order_ready |
| Orders.SecondTakeRefused | api/bot.py:499-501 | after a successful take, a second take of the same order, by any seller, is refused and changes nothing |
| Bot.TakeOrder | api/bot.py:486-529 | the queries leave exactly the tables, answer and messages of the take_order specification |
| Orders.MarkReadyUnguarded | api/bot.py:536-550 | whatever the prior status, the order becomes ready_for_pickup, only that row changes, and exactly one message goes to its customer naming the left buffet iff the pickup is `left_buffer`; a missing order is an error with no message |
| Orders.MarkCompletedUnguarded | api/bot.py:570-573 | whatever the prior status, the order becomes completed and only that row changes |
| Orders.MarkReadySkipsLifecycle | api/bot.py:536-539 | a cart can be marked ready directly: the status write does not follow the lifecycle |
| Bot.MarkOrderReady | api/bot.py:532-563 | the queries leave exactly the tables, answer and message of the specification |
| Bot.MarkOrderCompleted | api/bot.py:566-585 | the queries leave exactly the tables and answer of the specification |
| Orders.StartRegisters | api/bot.py:94-112 | an unknown user gets one profile with role customer; a known user keeps the role and gets the new names; orders and lines stay; the invariants hold |
| Orders.ActiveOrderBlocksMenu | api/bot.py:115-138 | a customer with a pending, preparing or ready order is shown the first such order and not the menu; one without gets the customer menu |
| Bot.Start | api/bot.py:86-142 | the queries leave exactly the tables and screen of the /start specification |
| Orders.MyOrdersExact | api/bot.py:588-597 | the history holds exactly the customer's orders, whatever their status; "no orders" means the customer has none |
| Callback.JoinSplit | bot.py:199-216 | joining the pieces of `split("_")` with `_` gives back the string |
| Callback.IntRoundTrip | bot.py:202 | `int()` reads back every id the buttons print (see also bot.py:258) |
| Callback.RouteAddToCart | bot.py:201-203 | `add_to_cart_{id}` routes to add_to_cart with that id (see also bot.py:258) |
| Callback.RouteRemoveFromCart | bot.py:204-206 | `remove_from_cart_{id}` routes to remove_from_cart with that id (see also bot.py:344) |
| Callback.RouteConfirm | bot.py:209-211 | `confirm_order_{location}` routes to confirm_order with that location, for a location without `_` (see also bot.py:386-387) |
| Callback.RouteTakeOrder | bot.py:214-216 | `take_order_{id}` routes to take_order with that id (see also bot.py lines 446, 474) |
| Callback.RouteOrderReady | bot.py:217-219 | `order_ready_{id}` routes to mark_order_ready with that id (see also bot.py:522) |
| Callback.RouteOrderCompleted | bot.py:220-222 | `order_completed_{id}` routes to mark_order_completed with that id (see also bot.py:556) |
| Callback.CottonCandyAsWritten | bot.py:198-200 | as written, `category_cotton_candy` routes to category `cotton` (see also bot.py:243) |
| Callback.RouteCategoryAsWritten | bot.py:198-200 | as written, the category is the part of the name before its first `_` |
| Callback.RouteCategory | bot.py:198-200 | corrected, `category_{c}` routes to category `c` for every name (see also bot.py:243) |
| Callback.RouteCategoryPlain | bot.py:198-200 | for names without `_` the two routers agree |
| Callback.SellerListsUnhandled | bot.py:187-222 | the seller-menu buttons `preparing_orders` and `ready_orders` match no branch |
| Callback.RouteBadNumber | bot.py:214-216 | `take_order_x` where x is not a number raises and is answered with the error message (see also bot.py:224-226) |
| Buttons.PickupButtonsRoute | bot.py:386-387 | the two pickup buttons route to confirm_order with `left` and `right` (see also bot.py:209-211) |
| Buttons.ProfileRequired | bot.py:180-183 | without a profile no button does anything: no table changes, no message |
| Buttons.ReadOnlyButtons | bot.py:187-222 | only add, remove, confirm, take, ready and completed can change the tables or send messages |
| Buttons.ButtonKeepsValid | bot.py:172-226 | every button, pressed by anyone, keeps the table invariants |
| Buttons.CottonCandyButtonAsWritten | bot.py:198-200 | as written, pressing `category_cotton_candy` answers with the product list of category `cotton` and changes nothing |
| Bot.HandleButton | bot.py:172-226 | the handler dispatch, routing with the as-written `split("_")[1]`, leaves exactly the tables, answer and messages of the button specification |
| Menu.Available | bot.py:77 | the fetched list holds exactly the table's available products |
| Menu.PyMenuCache.GetProducts | bot.py:70-83 | a fresh cache (non-empty list, set timestamp, under 300) is returned without a fetch; otherwise a successful fetch replaces list and timestamp together, and a failed one returns `[]` and leaves the cache |
| Menu.PyRepeatWithinWindow | bot.py:73-74 | a second call inside the window after a non-empty fetch returns the same list |
| Menu.TsProductCache.GetProducts | api/bot.ts:39-57 | data present and under 300000 ms old is returned without a query; a query error returns null and leaves the cache; otherwise the cache becomes (data, now) |
| Menu.TsEmptyMenuCached | api/bot.ts:41-43 | an empty list, once fetched, is still served from the cache within the window |
| Menu.CategoryListExact | bot.py:253 | a category's list holds exactly the products of that category |
| Menu.CategoryButtonsListProducts | bot.py:230-243 | with the corrected router every category button opens a non-empty list of its products |
| Menu.CottonCandyNotListedAsWritten | bot.py:199 | as written, the cotton-candy button opens a list with no cotton-candy product (see also bot.py lines 243, 253) |
| Menu.ProductButtonsRoute | bot.py:253-258 | each product button routes to add_to_cart with that product's id |
| TsBot.TsAddNoProductNoChange | api/bot.ts:71-83 | a failed product load or an id not on the list changes nothing |
| TsBot.UpsertSetsLine | api/bot.ts:110-117 | after the upsert the order has exactly one line for the product, quantity 1 at the list price, and the invariants hold |
| TsBot.ReAddResets | api/bot.ts:110-117 | adding the same product twice leaves quantity 1, not 2 |
| TsBot.TsAddOrders | api/bot.ts:86-107 | orders change only by a new cart, and only when no single usable cart was found; no total is recomputed |
| TsBot.TsAddKeepsValid | api/bot.ts:67-126 | the add action keeps the table invariants |
| TsBot.CartIsSingle | api/bot.ts:86-93 | under the invariants the customer's one cart is what `.single()` finds |
| TsBot.TsAddLeavesStaleTotal | api/bot.ts:110-125 | re-adding a product can leave the cart's total_amount different from the sum over its lines, e.g. when the line had quantity 2; the upsert never writes total_amount |
| TsBot.TsAddAction | api/bot.ts:67-126 | the queries leave exactly the tables and answer of the add specification |
| TsBot.TsTakeOutcomes | api/bot.ts:135-152 | the take succeeds exactly when a pending order with that id exists and neither query fails; then only that order becomes preparing; otherwise nothing changes |
| TsBot.TsTakeAction | api/bot.ts:129-165 | the queries leave exactly the tables and answer of the take specification |
| TsBot.SceneForIff | api/bot.ts:196-200 | the seller scene is entered exactly for a role `seller_<anything>` |
| TsBot.TsStartScene | api/bot.ts:179-200 | a known user's scene follows the stored role; a new user's follows the default role |
| TsBot.TsStartKeepsValid | api/bot.ts:179-187 | the profile upsert keeps every table invariant and no other table; a failed upsert changes nothing |
| TsBot.TsStart | api/bot.ts:175-201 | the upsert and role read leave exactly the tables and scene of the specification |
| TsBot.CartCountAlwaysZero | api/bot.ts:204-209 | with no session order the count is taken for order 0, which has no lines: always 0 |
| TsBot.CartCountZeroIff | api/bot.ts:204-209 | the intended count, the lines of the customer's cart, is 0 exactly when there is no cart or it is empty |
| TsBot.CartCountLostAsWritten | api/bot.ts:204-209 | a customer with one line in the cart is shown 0 |
| Store.DeliveriesAppend | bot.py:444-455 | the delivery records of consecutive sends concatenate |
| Store.Outbox.Send | bot.py:450-455 | a send succeeds exactly when the chat accepts it, and every attempt is recorded |

## Left out

- Telegram and Supabase I/O are replaced by the in-memory tables and the outbox. This covers sending, editing and answering messages, keyboards, and message wording and emoji. The status labels (api/bot.py:119-123, 599-606) and the buffet names (api/bot.py:128, 547) are wording; only the "left buffet" flag is kept.
- Transient Supabase errors inside the Python handlers' blanket `try` are not modelled. Only deterministic failures are: a missing row for `data[0]`, a failed join, and `int()` on a non-number. The read failure that `calculate_order_total` catches itself is modelled as `totalFails`. The TypeScript error branches the code tests are boolean parameters.
- The webhook entry points (api/bot.py:636-665, api/webhook.py, the TypeScript `handler`) are transport code, as are the Telegraf scene and session middleware.
- Concurrency is not modelled. Handlers run one after another: the read-then-write in `take_order` and in the cart's find-or-create is proved only sequentially.
- Time and numbers:
  - `os.times().elapsed` and `Date.now()` are an integer `now` parameter.
  - The one read of the clock in `get_products` stands for the two the code makes.
  - `updated_at = now()` is a server column and is not modelled.
  - Prices and totals are integers, not floats.
- `int()` accepts only ASCII digits with optional sign and surrounding whitespace. Unicode digits and digit underscores are not modelled.
- TsBot: the actions' regex matching (`/add_(\d+)/`, `/take_(\d+)/`) and `parseInt` are replaced by an integer id.
- TsBot: the `full_name` template is replaced by a `fullName` parameter.
- TsBot.TsAddAction: `products` is what `getProducts` returned. The cache itself is `Menu.TsProductCache`.
- Bot.HandleButton: `menu` is what `get_products()` returned. The cache itself is `Menu.PyMenuCache`. The second call made by `show_categories` after a successful add is taken to return the same list.
- All ids come from one counter, not one sequence per table. This only matters for which numbers appear.
- `show_categories` iterates a Python set, so button order is unspecified: the model gives the set of buttons. `show_my_orders` sorts by `created_at` (api/bot.py:590), which is not modelled: the history lists the customer's orders in table order, and its dates are wording.
- `role_required`'s `except` branch (bot.py:60-65) is not modelled, because the model's profile query cannot fail.

## Findings

| source | as written | input that shows it | evidently intended | confidence | as-written member | corrected member |
|---|---|---|---|---|---|---|
| bot.py:198-200 | `data.split("_")[1]` keeps only the first word of the category | `category_cotton_candy` (produced at bot.py:243) routes to category `cotton`, and `show_products` then lists nothing | the category is everything after `category_` | high, not executed | Callback.CottonCandyAsWritten | Callback.RouteCategory |
| api/bot.ts:204-209 | the count is taken for `ctx.session.orderId \|\| 0`, and `session.orderId` is never assigned | a customer whose cart has one line sees a cart count of 0 | the number of lines in the customer's cart | medium, not executed | TsBot.CartCountLostAsWritten | TsBot.CartCountZeroIff |
