# Marketplace order, cart and payment bookkeeping in Dafny

This project models the core of a small marketplace with an Express/MySQL backend and a React frontend. Buyers fill a cart and place orders. Sellers list products and move orders through their statuses. Payments go through the VNPAY gateway, which calls back to confirm them.

The database is one in-memory store, `Store.Database`, a class whose fields are the tables:
- users;
- categories;
- products (stock, price, seller, name);
- cart rows;
- orders with their items;
- payment transactions.

Each controller handler is a method on that store. It returns the HTTP status, or the gateway's `RspCode`, and its contract says which rows change and how. A handler that runs inside a database transaction is one atomic method.

Several things the backend calls are parameters of the model rather than code in it:
- HMAC-SHA512, bcrypt and jwt verification are function-typed parameters;
- random tokens, fresh hashes and the clock are plain inputs.

Modules, one per source file plus shared ones:

| module | file | models |
|---|---|---|
| `Store` | store.dfy | the tables, the order statuses, the role names, row deletion by condition |
| `Sql` | sql.dfy | query text as tokens, placeholder counting, `SET` lists |
| `Numbers` | numbers.dfy | decimal strings of integers and `Number(...)` on them |
| `Paging` | paging.dfy | offset and page-count arithmetic |
| `Ledger` | ledger.dfy | order items, stock decrement and restock, as functions with their conservation lemmas |
| `Orders` | orders.dfy | backend/controllers/orderController.js |
| `Cart` | cart.dfy | backend/controllers/cartController.js |
| `VnPay` | vnpay.dfy | backend/config/vnpay.js |
| `Payment` | payment.dfy | backend/controllers/paymentController.js |
| `Catalog` | products.dfy | backend/controllers/productController.js |
| `Profile` | users.dfy | backend/controllers/userController.js |
| `Accounts` | auth.dfy | backend/controllers/authController.js |
| `Guard` | middleware.dfy | backend/middleware/auth.js |
| `LocalCart` | cart_context.dfy | frontend/src/contexts/CartContext.jsx, local-cart branches |
| `Pager` | product_list.dfy | frontend/src/pages/Products/ProductList.jsx, pagination |
| `QuantitySelector` | product_detail.dfy | frontend/src/pages/Products/ProductDetail.jsx, quantity selector and purchase buttons |

The order status is a datatype holding every string the code uses: pending, paid, confirmed, processing, shipped, delivered, cancelled. The model follows the code where the intended lifecycle differs from it:
- confirmOrder writes `paid`, but startProcessing waits for `confirmed`, which no handler writes (`Orders.ConfirmedNeverReached`);
- startShipping starts from `paid`;
- a buyer may cancel only a `pending` order.

## Model

| member | source | states |
|---|---|---|
| Accounts.StoredRole | backend/controllers/authController.js:35-36 | 'buyer' and a falsy role are stored as 'customer'; any other truthy role is stored as given |
| Accounts.RoleRoundTrip | backend/controllers/authController.js:36-45 | the role reported after registering is 'buyer' for no role, 'buyer' or 'customer', and the given role otherwise; 'seller' comes back as 'seller' |
| Accounts.Register | backend/controllers/authController.js:9-60 | 400 with the missing-fields message iff a required field is falsy; 400 for an email in use; no write on either. Success inserts exactly one user under an id not yet used, with falsy phone/address stored as null and the stored role; emails stay distinct |
| Accounts.Login | backend/controllers/authController.js:73-125 | 400 when email or password is falsy; the same 401 reply for an unknown email and a wrong password. A login names a user with that email whose hash matches; with distinct emails, login succeeds iff such a user exists |
| Accounts.WithResetToken | backend/controllers/authController.js:157-160 | every row with the email gets the token and the expiry; every other row and the set of ids are unchanged |
| Accounts.ForgotPassword | backend/controllers/authController.js:138-168 | 404 iff no user has the email, with no write; otherwise 200, the token is returned, and all rows with the email hold it until now + 3600000 ms |
| Accounts.ResetPassword | backend/controllers/authController.js:181-211 | 400 iff no user holds the token unexpired, with no write; with a valid token but no new password, 500 with nothing written and the token kept; otherwise exactly that user's hash is replaced and token and expiry cleared. When one user held the token, it is never valid again |
| Cart.TotalsConcat | backend/controllers/cartController.js:38-42 | both reply totals are sums over the lines: they add up over any split of the list |
| Cart.CartEntries | backend/controllers/cartController.js:8-33 | the joined lines are at most the cart rows; each carries its product's live price and stock |
| Cart.CartEntriesAreBuyerRows | backend/controllers/cartController.js:8-33 | every listed line is one of the caller's own rows, with that row's id, product and quantity |
| Cart.GetCart | backend/controllers/cartController.js:6-43 | the reply lists the caller's joined lines, each one of the caller's own rows, and its item count and total price are summed over exactly those lines; GetCartMatchesOrderTotal ties the total to the order total |
| Cart.CartEntriesMatchLines | backend/controllers/cartController.js:8-33 | while every product's seller exists, the cart page lists the same lines, in order, ids, quantities and prices, as the order placed from the cart |
| Cart.SumsAgree | backend/controllers/cartController.js:39-42 | lines that agree pointwise on quantity and price have the same total price as the order's items total |
| Cart.GetCartMatchesOrderTotal | backend/controllers/cartController.js:35-43 | the cart's total price plus the shipping fee is the total of the order placed from that cart |
| Cart.QuantityAppend | backend/controllers/cartController.js:103-106 | an inserted row adds exactly its own share to each (user, product) quantity |
| Cart.QuantityReplace | backend/controllers/cartController.js:97-100 | rewriting one row changes each (user, product) quantity by the difference of that row alone |
| Cart.QuantityOfOthers | backend/controllers/cartController.js:81-86 | a user with no row for a product holds 0 of it |
| Cart.FindLine | backend/controllers/cartController.js:81-86 | the lookup finds a row of that user and product, or reports none exists |
| Cart.FindOwned | backend/controllers/cartController.js:137-147 | the lookup finds the row with that id, owned by the caller, whose product still exists, or reports none exists |
| Cart.SetQuantity | backend/controllers/cartController.js:156-159 | the UPDATE gives every row with the id the new quantity and leaves the other rows and the order as they were |
| Cart.SetQuantityOneLine | backend/controllers/cartController.js:156-159 | with distinct line ids the UPDATE touches exactly one row |
| Cart.AddedCartQuantity | backend/controllers/cartController.js:80-107 | re-adding merges: the buyer's quantity of the product rises by exactly the requested amount, every other quantity stays, and a row is added only when the buyer had none |
| Cart.AddedCartValid | backend/controllers/cartController.js:80-107 | line ids stay distinct and below the counter, and each user keeps at most one row per product |
| Cart.AddToCart | backend/controllers/cartController.js:56-120 | an unknown product is 404; otherwise success iff the stock covers the request and the merged quantity; any failure is 400 with no write; success writes only the cart |
| Cart.AddToCartWithinStock | backend/controllers/cartController.js:73-95 | every quantity addToCart writes is within the product's stock at the time of the write |
| Cart.QuantityOfOneLine | backend/controllers/cartController.js:86-88 | with one row per (user, product), the quantity held is that row's quantity |
| Cart.NonPositiveQuantityAccepted | backend/controllers/cartController.js:58-78 | a quantity of -3 passes every guard; ordering the resulting cart raises stock by 3 and gives a negative total |
| Cart.AddToCartChecked | backend/controllers/cartController.js:129-134 | a quantity below 1 is refused with 400 before anything is read; otherwise the result is addToCart's: 400 only for a refusal of an existing product, and on success the cart becomes exactly the merged or appended cart. All quantities stay at least 1 |
| Cart.PositiveCartNeverRaisesStock | backend/controllers/orderController.js:85-89 | with all cart quantities at least 1, placing the cart as an order can only lower each product's stock |
| Cart.SetQuantityEffect | backend/controllers/cartController.js:156-159 | setting line i gives its (user, product) exactly the new quantity; every other quantity, every line id and the cart invariants are kept |
| Cart.UpdateCartItem | backend/controllers/cartController.js:125-172 | 400 for a quantity below 1; 404 when the line is not the caller's or its product is gone; 500 for an absent quantity on an owned line; 400 above the stock. Otherwise that line takes the quantity. No write on failure, and quantities stay at least 1 |
| Cart.RemoveFromCart | backend/controllers/cartController.js:177-202 | deletes exactly the caller's rows with the id; 404 iff there were none |
| Cart.ClearCart | backend/controllers/cartController.js:207-214 | deletes every row of the caller and no other; afterwards the caller holds 0 of every product |
| LocalCart.FindIndex | frontend/src/contexts/CartContext.jsx:97-99 | the index of the first line holding the product, or -1 exactly when no line holds it |
| LocalCart.SetQuantity | frontend/src/contexts/CartContext.jsx:142-146 | the lines with the id take the new quantity; every other line and the length are kept |
| LocalCart.WithoutId | frontend/src/contexts/CartContext.jsx:164 | a line survives iff it was in the cart and its id differs |
| LocalCart.WithoutIdAppend | frontend/src/contexts/CartContext.jsx:164 | filtering works piece by piece, so the kept lines keep their order |
| LocalCart.WithoutAbsentId | frontend/src/contexts/CartContext.jsx:164 | removing an id that no line has changes nothing |
| LocalCart.TotalsAfterBump | frontend/src/contexts/CartContext.jsx:186-190 | raising one line's quantity by d raises the item count by d and the total price by d times that line's price |
| LocalCart.Cart.constructor | frontend/src/contexts/CartContext.jsx:17 | the cart starts empty |
| LocalCart.Updated | frontend/src/contexts/CartContext.jsx:95-118 | adding to the local cart keeps the lines of other products, grows the length only for a product not yet held, and always leaves a line for the product |
| LocalCart.Cart.UpdateLocalCart | frontend/src/contexts/CartContext.jsx:95-118 | the lines become `Updated` of the old lines: a product already present has its first line's quantity raised and nothing else changes; a new product is appended as one line whose id is the clock reading. Either way the item count rises by the quantity and the total price by the quantity times the price |
| LocalCart.Cart.RemoveFromCart | frontend/src/contexts/CartContext.jsx:162-165 | the lines with the id are dropped, the rest kept in order |
| LocalCart.Cart.UpdateQuantity | frontend/src/contexts/CartContext.jsx:120-148 | a quantity below 1 removes the line; any other quantity is set on the lines with that id |
| LocalCart.Cart.ClearCart | frontend/src/contexts/CartContext.jsx:168-183 | the cart is empty afterwards, with zero items and zero total |
| Ledger.CartLines | backend/controllers/orderController.js:22-29 | the cart snapshot has at most one line per cart row, each with its product's live price and stock |
| Ledger.CartLinesJoin | backend/controllers/orderController.js:22-29 | the join is exact: every line comes from one of the buyer's rows whose product exists, and every such row yields a line |
| Ledger.CartLinesDistinct | backend/controllers/orderController.js:22-29 | with one cart row per (user, product), the snapshot names each product at most once |
| Ledger.ItemOf | backend/controllers/orderController.js:75-83 | an order item copies the line's product, seller, name, price and quantity; its subtotal is price times quantity |
| Ledger.MakeItems | backend/controllers/orderController.js:74-83 | one item per cart line, in cart order |
| Ledger.TotalMatchesItems | backend/controllers/orderController.js:51-56 | the order total is the sum of the written items' subtotals plus the 30000 shipping fee |
| Ledger.DecrementedAt | backend/controllers/orderController.js:85-89 | after the decrement loop each product has lost exactly the quantity ordered of it; the set of products and every other field are unchanged |
| Ledger.RestockedAt | backend/controllers/orderController.js:776-782 | after the restock loop each product has gained exactly the quantity the items hold of it; nothing else changes |
| Ledger.ItemQtyForMakeItems | backend/controllers/orderController.js:74-83 | the items return, per product, exactly the quantity the lines ordered |
| Ledger.RestockUndoesDecrement | backend/controllers/orderController.js:776-782 | stock conservation: restocking an order's items returns every product to its stock before the order |
| Ledger.QtyForDistinct | backend/controllers/orderController.js:74-90 | with distinct products, the quantity ordered of a product is that of its single line, or 0 when it has none |
| Ledger.DecrementKeepsStockNonNegative | backend/controllers/orderController.js:40-48 | no oversell: when every line passed the stock check and the products are distinct, no non-negative stock becomes negative |
| Ledger.DuplicateLinesOversell | backend/controllers/orderController.js:40-48 | two lines for one product, each within stock alone, drive the stock to -1 |
| Ledger.ItemsOfConcat | backend/controllers/orderController.js:770-774 | selecting an order's items works piece by piece over concatenated tables |
| Ledger.ItemsOfAll | backend/controllers/orderController.js:770-774 | when every item belongs to the order, the selection is the whole table |
| Ledger.ItemsOfNone | backend/controllers/orderController.js:770-774 | when no item belongs to the order, the selection is empty |
| Ledger.ItemsOfAppend | backend/controllers/orderController.js:78-83 | the items inserted for a new order, after every existing row, are exactly what selecting that order's items finds |
| Orders.Next | backend/controllers/orderController.js:505-519 | the one source status each action accepts and the status it writes: no action writes 'confirmed'; only a 'confirmed' order can move to 'processing'; every other accepted source is pending, paid or shipped |
| Orders.ConfirmedNeverReached | backend/controllers/orderController.js:515-519 | confirmOrder writes 'paid' while startProcessing waits for 'confirmed', so from 'pending' no run of handler actions ever reaches 'confirmed' or 'processing' |
| Orders.RunStaysOnPath | backend/controllers/orderController.js:468-901 | from 'pending' every run of handler actions ends in pending, paid, shipped, delivered or cancelled |
| Orders.TerminalStatuses | backend/controllers/orderController.js:705-711 | delivered and cancelled orders accept no action |
| Orders.FindShortage | backend/controllers/orderController.js:40-48 | finds the first cart line asking for more than its product holds, or reports that every line is within stock |
| Orders.InsertOrder | backend/controllers/orderController.js:65-90 | inserts the 'pending' order under a new id with the computed total, then one item per line after the existing rows, then decrements each product by the quantity ordered |
| Orders.OrderRowsValid | backend/controllers/orderController.js:71-83 | item rows already stored never name the new order id; all rows stay below the id counter |
| Orders.CreateOrder | backend/controllers/orderController.js:4-112 | 400 when address or payment method is missing; 400 for an empty cart; 400 naming the first line beyond stock; no write on any of these. Otherwise it writes the order with total = items + 30000, one item per line, the stock decrements and the emptied cart, and nothing else |
| Orders.CreateOrderKeepsStock | backend/controllers/orderController.js:40-48 | with one cart line per product and every line within stock, createOrder never drives a non-negative stock below zero |
| Orders.CreatedOrderItems | backend/controllers/orderController.js:74-83 | the new order holds exactly one item per cart line, and their subtotals plus the fee are the order total |
| Orders.ConfirmOrder | backend/controllers/orderController.js:468-535 | 403 unless the seller has an item in the order, then 404 for a missing order, 400 unless 'pending'; otherwise only that order's status becomes 'paid'. No write on failure |
| Orders.StartProcessingOrder | backend/controllers/orderController.js:538-605 | the same 403/404 checks, 400 unless 'confirmed'; otherwise only the status becomes 'processing' |
| Orders.StartShippingOrder | backend/controllers/orderController.js:608-676 | the same 403/404 checks, 400 unless 'paid'; otherwise only the status becomes 'shipped' |
| Orders.ConfirmDeliveryOrder | backend/controllers/orderController.js:679-733 | 404 for an order that is absent or not the buyer's; 400 unless 'shipped'; otherwise only the status becomes 'delivered' |
| Orders.RestoreStock | backend/controllers/orderController.js:770-782 | every item of the order gives its quantity back to its product; products deleted since are skipped; nothing else changes |
| Orders.MarkCancelled | backend/controllers/orderController.js:784-789 | the cancel UPDATE sets the status to cancelled with the reason and canceller given, and changes nothing else |
| Orders.CancelOrderByBuyer | backend/controllers/orderController.js:736-806 | 404 unless the buyer owns the order; 400 unless 'pending'. Otherwise the order is cancelled by 'buyer' with the reason or the default reason, and all its items go back to stock; nothing else changes |
| Orders.CancelOrderBySeller | backend/controllers/orderController.js:809-901 | 400 without a reason; 403 unless the seller has an item; 404 for a missing order; 400 unless 'pending' or 'confirmed'. Otherwise the order is cancelled by 'seller' with the reason, and all its items restocked |
| Orders.CancelOrder | backend/controllers/orderController.js:400-465 | 404 unless the buyer owns the order, 400 unless 'pending'; otherwise cancelled with every item restocked |
| Orders.CancelUndoesCreate | backend/controllers/orderController.js:74-90 | placing an order and then cancelling it gives every product back exactly its stock before the order |
| Orders.UpdateOrderStatus | backend/controllers/orderController.js:339-397 | 400 for a status outside the five names; 403 unless the seller has an item; 404 for a missing order; 400 for a cancelled or delivered order. Otherwise only the status is written, and no stock is restored |
| Orders.UpdateOrderStatusNames | backend/controllers/orderController.js:345 | the accepted names parse to pending, paid, shipped, delivered or cancelled, never to 'confirmed' or 'processing' |
| Orders.SellerItems | backend/controllers/orderController.js:306-310 | an item is kept iff it was in the order's items and belongs to the seller |
| Orders.GetOrderById | backend/controllers/orderController.js:260-336 | 404 iff the order is absent. A buyer sees an order iff it is theirs, with all its items. A seller sees it iff they have an item in it, and then only their items |
| Orders.OrderPage | backend/controllers/orderController.js:118-120 | page 1 and limit 10 by default; the offset is (page - 1) * limit; the page count is the ceiling of total / limit |
| Orders.StatsAudience | backend/controllers/orderController.js:907-936 | the buyer aggregation runs iff the role is 'buyer' or 'customer' |
| Orders.LastStat | backend/controllers/orderController.js:950-955 | a status has an entry iff some row names it |
| Orders.FormatStats | backend/controllers/orderController.js:941-955 | the keys are the six defaults plus every status a row names; a status takes its last row's entry, and the others stay zero |
| Orders.StatsDefaultsMismatch | backend/controllers/orderController.js:941-948 | the default keys miss 'paid' and 'shipped', which handlers write, and 'shipping' names no status at all |
| Orders.RevenueItems | backend/controllers/orderController.js:1045-1048 | an item counts as revenue iff it is the seller's and its order is paid, shipped or delivered |
| Orders.RevenueAfterConfirm | backend/controllers/orderController.js:515-519 | a confirmed order ('paid') already counts as revenue; pending and cancelled orders never do |
| Paging.TotalPages | backend/controllers/orderController.js:174 | the page count is the ceiling of total / limit for a non-zero limit, bracketing the total; a zero limit gives Infinity |
| Paging.PagesCoverRows | backend/controllers/orderController.js:120 | with a positive limit the pages tile the rows: page 1 starts at row 0, consecutive pages meet, and the last page holds the last row |
| Payment.ClientIp | backend/controllers/paymentController.js:45-49 | the first truthy of the forwarded header and the three socket addresses, else 127.0.0.1, in that order of preference |
| Payment.CreateVNPayPayment | backend/controllers/paymentController.js:7-90 | 400 for a missing or zero order id; 404 unless the caller owns the order; 400 unless it is pending; 500 with the configuration message when the gateway is unconfigured; no write on any refusal. Otherwise the signed link for the order total, carrying the address `ClientIp` picks from the request, is returned and exactly one pending transaction is appended |
| Payment.IpnCode | backend/controllers/paymentController.js:99-140 | the guard chain in order: '97' iff the signature fails, '01' iff the order is unknown, '04' iff the amount differs, '02' iff the order is already paid, '00' otherwise |
| Payment.Settled | backend/controllers/paymentController.js:151-156 | a settled transaction is no longer pending and keeps its order and amount |
| Payment.SettlePending | backend/controllers/paymentController.js:151-174 | exactly the order's pending transactions are settled; every other row is kept, and so is the length |
| Payment.IpnEffect | backend/controllers/paymentController.js:142-180 | nothing is written unless every guard passes. On code '00' the order becomes paid by VNPAY; on any other code it is cancelled. Only that order and its pending transactions change |
| Payment.VnpayIpn | backend/controllers/paymentController.js:95-188 | the reply is the guard code with its message, and the store after the call is the IPN effect of the verified notification; the hash keys are stripped from the query object |
| Payment.IpnReplay | backend/controllers/paymentController.js:134-140 | replaying an applied '00' notification stops at the already-paid guard ('02') and changes nothing more |
| Payment.IpnSettlesEveryPending | backend/controllers/paymentController.js:151-174 | after an applied notification the order has no pending transaction left |
| Payment.IpnIgnoresOtherStatuses | backend/controllers/paymentController.js:134-148 | the paid guard is the only status check: a verified '00' notification with the right amount marks even a cancelled, shipped or delivered order as paid |
| Payment.ReturnFor | backend/controllers/paymentController.js:198-230 | success iff the signature verifies and the code is '00', carrying the order id and amount; an unverified redirect is reported as such; a decline carries the code and its message |
| Payment.VnpayReturn | backend/controllers/paymentController.js:193-238 | replies what ReturnFor says for the verified query, writing no table |
| Payment.GetTransaction | backend/controllers/paymentController.js:243-273 | a transaction of the order is returned only when the caller owns the order; 404 when the order is absent or someone else's, or has no transaction |
| Payment.FirstTxn | backend/controllers/paymentController.js:247-264 | the transaction of the order that comes first in table order, no earlier one belonging to it; none exactly when the order has no transaction |
| Payment.CreatedLinkPassesIpn | backend/controllers/paymentController.js:55-60 | the parameters of a link created for a pending order, returned with the same signature, pass every IPN guard ('00') |
| Catalog.SortField | backend/controllers/productController.js:73-74 | the sort column is always whitelisted: the requested one when it is in the whitelist, else created_at |
| Catalog.Upper | backend/controllers/productController.js:75 | upper-casing keeps the length and maps each character on its own |
| Catalog.SortOrder | backend/controllers/productController.js:75 | the direction is always ASC or DESC |
| Catalog.SortOrderAscending | backend/controllers/productController.js:75 | ascending iff the requested order is the three letters a, s, c, each in either case |
| Catalog.FilterClauses | backend/controllers/productController.js:42-62 | the filter clauses have exactly as many placeholders as parameters, two for a search and one per other filter present; the search binds %search% twice |
| Catalog.BuildProductQuery | backend/controllers/productController.js:38-78 | both queries have as many placeholders as parameters. The count query is the filtered query with the select list swapped. The listing adds only the whitelisted ORDER BY and LIMIT/OFFSET, binding the limit and the offset (page - 1) * limit after the filter parameters |
| Catalog.FormatProductRoundTrip | backend/controllers/productController.js:83-94 | the camel-case renaming loses nothing: id, stock and category come from product_id, stock_quantity and category_id, and the row can be read back |
| Catalog.NumericCategory | backend/controllers/productController.js:237-238 | a number is used as the category id; only a string that does not read as a number is treated as a name |
| Catalog.ResolveCategory | backend/controllers/productController.js:236-255 | a numeric category is used as given, with no write. A name already present resolves to a category with that name, with no write. A new name is inserted under the next category id and nothing else changes: the table becomes `ResolvedCategories` of the old one |
| Catalog.CreateProduct | backend/controllers/productController.js:224-282 | 400 iff name, price or category is falsy or stock is absent, writing nothing. Otherwise 201 with a fresh id whose row is the caller's product in the resolved category; the only category row that may change is the one row a new category name inserts under the next category id, and nothing beyond products and categories changes |
| Catalog.BoundValueIsNewValue | backend/controllers/productController.js:315-356 | the value bound to a written column is that column of the updated product; an unwritten column keeps its value |
| Catalog.ColumnNames | backend/controllers/productController.js:316-354 | the names of the columns in order, one per column |
| Catalog.ChosenColumns | backend/controllers/productController.js:315-356 | among the first k candidates, a column is chosen iff the request writes it, and the columns come in the code's order |
| Catalog.ChosenAreWritten | backend/controllers/productController.js:315-363 | exactly the written columns are chosen, each once; none are chosen exactly when the request names no field |
| Catalog.PushIfWritten | backend/controllers/productController.js:315-356 | one step of the selection keeps the chosen columns and their bound values in step |
| Catalog.SelectUpdates | backend/controllers/productController.js:312-356 | the pushed columns are the chosen ones in the code's order, each with the value the request gives |
| Catalog.UpdateProduct | backend/controllers/productController.js:309-372 | 400 iff the request names no field, writing nothing. Otherwise one UPDATE with as many placeholders as values, the id bound last, writing exactly the requested columns. The stored product becomes ApplyUpdate of the old one. The categories table changes only when a truthy category names a new name, and then by that one row under the next category id; nothing beyond products and categories changes |
| Catalog.OwnershipAsWritten | backend/controllers/productController.js:290-307 | 404 iff the lookup finds no row; the handler goes on iff the first row's seller equals `req.user.user_id` |
| Catalog.UpdateNeverAuthorized | backend/controllers/productController.js:290-307 | since protect never sets `user_id`, the check refuses every request, including the owner's: 404 when the lookup bound to the absent parameter finds no row, 403 if one were found |
| Catalog.UpdateOwnProduct | backend/controllers/productController.js:287-380 | 404 for a missing product and 403 for another seller's, both writing nothing. The owner's request is updated as UpdateProduct says. No other product changes and the seller is kept, and the categories table gains at most the one new-name row of a successful update |
| Catalog.DeleteProduct | backend/controllers/productController.js:385-420 | 404 for a missing product and 403 for another seller's, both writing nothing; otherwise exactly that product row is deleted |
| Store.FrontendRole | backend/middleware/auth.js:45-46 | the stored 'customer' is reported as 'buyer'; every other stored role is reported unchanged |
| Store.ParseStatus | backend/controllers/orderController.js:345-347 | a status string reads back only as the status stored under it, and is rejected iff no status is stored under it |
| Store.FilterRows | backend/controllers/cartController.js:209 | a DELETE keeps a row iff the condition spares it, in order; it removes nothing iff it spares every row |
| Store.FilterKeepsCartInvariants | backend/controllers/cartController.js:180 | deleting cart rows keeps line ids distinct and keeps one row per (user, product) |
| Store.WithoutUser | backend/controllers/cartController.js:209 | exactly the rows of other users remain, with the cart invariants kept |
| Store.WithoutLine | backend/controllers/cartController.js:179-182 | exactly the rows that are not the user's line with that id remain, with the cart invariants kept |
| Store.ItemsOf | backend/controllers/orderController.js:434-437 | exactly the items of the order, in row order |
| Sql.SetList | backend/controllers/productController.js:367 | `updates.join(', ')` over `column = ?` pieces has one placeholder per column |
| Sql.UpdateStatement | backend/controllers/userController.js:91 | the UPDATE has one placeholder per column plus one for the key |
| Profile.ProfileOf | backend/controllers/userController.js:21-37 | a profile carries the row's fields without the password hash, with the role in its frontend form |
| Profile.GetProfile | backend/controllers/userController.js:7-46 | 404 iff the caller's row is gone; otherwise the caller's id, name and email, with 'customer' reported as 'buyer' |
| Profile.Or | backend/controllers/userController.js:56-57 | `a || b`: the first operand when truthy, else the second; the result is truthy iff either operand is |
| Profile.ProfileUpdateScope | backend/controllers/userController.js:66-80 | the update touches only name, phone and address: email, role, password and reset token are kept; it is idempotent; with no field it changes nothing |
| Profile.UpdateProfile | backend/controllers/userController.js:51-129 | 400 iff no field is supplied, writing nothing. Otherwise one UPDATE with as many placeholders as values, the caller's id last, writing exactly the supplied columns. 500 when the caller's row is gone, else the row becomes ApplyProfile of itself and is read back. Only users change |
| Profile.ChangePassword | backend/controllers/userController.js:134-181 | 400 iff either password is falsy; 500 when the caller's row is gone; 401 iff the old password does not match. Success iff every check passes, replacing only the caller's hash. No write on failure |
| VnPay.StrLeTotal | backend/config/vnpay.js:28 | the default string order of `sort` relates any two keys |
| VnPay.StrLeAntisymmetric | backend/config/vnpay.js:28 | keys that are each at most the other are equal |
| VnPay.StrLeTransitive | backend/config/vnpay.js:28 | the default string order is transitive |
| VnPay.InsertSorted | backend/config/vnpay.js:28 | inserting a key into sorted keys keeps them sorted and adds exactly that key |
| VnPay.SortKeysSorted | backend/config/vnpay.js:28 | `Object.keys(obj).sort()` is in order and holds the same keys |
| VnPay.SortedHeadLeast | backend/config/vnpay.js:28 | the first sorted key is the least |
| VnPay.SortedUnique | backend/config/vnpay.js:28 | there is one sorted arrangement of a collection of keys |
| VnPay.SortKeysPermutation | backend/config/vnpay.js:28 | sorting forgets the order the keys arrived in |
| VnPay.KeysOf | backend/config/vnpay.js:50-64 | the keys of an object literal, in the order written |
| VnPay.ObjOfWellFormed | backend/config/vnpay.js:50-64 | an object literal lists exactly the keys that hold a value |
| VnPay.ObjOfField | backend/config/vnpay.js:50-64 | a key not written again later keeps the value written |
| VnPay.ObjOfMissing | backend/config/vnpay.js:50-64 | a key never written is undefined |
| VnPay.SortObject | backend/config/vnpay.js:26-33 | the new object has the same keys, sorted, and the same value under every key |
| VnPay.Delete | backend/config/vnpay.js:90-91 | `delete` removes the key from the keys and from the values, nothing else |
| VnPay.Without | backend/config/vnpay.js:90-91 | every occurrence of the key goes and nothing else |
| VnPay.Unsigned | backend/config/vnpay.js:89-91 | neither hash key remains; every other field is unchanged |
| VnPay.AmountRoundTrip | backend/config/vnpay.js:59-106 | scaling an integer amount by 100 for the gateway and dividing by 100 on return gives back the amount |
| VnPay.PaymentParamsFacts | backend/config/vnpay.js:50-64 | the payment parameters are well formed, carry the order id and the amount times 100 as decimal strings, and hold no hash key |
| VnPay.CreatePaymentUrl | backend/config/vnpay.js:36-84 | refuses an unconfigured or placeholder terminal code, then an unconfigured or placeholder secret. Otherwise the URL is the gateway URL, '?', and the sorted parameters with the HMAC of their unencoded query string appended |
| VnPay.Verification | backend/config/vnpay.js:87-119 | verified iff a secret is configured and the received hash equals the signature of the other parameters; a verified result reports the order reference, the response code and the amount divided by 100 |
| VnPay.Query.constructor | backend/controllers/paymentController.js:97 | the query object holds the received parameters |
| VnPay.VerifyReturnUrl | backend/config/vnpay.js:87-119 | deletes both hash keys from the caller's object, and reports Verification of the parameters as received |
| VnPay.SignVerifyRoundTrip | backend/config/vnpay.js:67-102 | parameters signed under a secret verify under it, whatever order their keys arrive in and even with an added hash type |
| VnPay.UnsignAppended | backend/config/vnpay.js:74-91 | removing the hash keys from parameters with the signature appended gives back the parameters |
| VnPay.UnsignSigned | backend/config/vnpay.js:74-91 | stripping signed parameters gives back the same keys and values |
| VnPay.SignedVerifies | backend/config/vnpay.js:67-102 | signed parameters verify under the same secret and carry the original fields |
| VnPay.SignedReports | backend/config/vnpay.js:103-111 | signed parameters verify and report the order reference and amount they carry |
| VnPay.PaymentUrlVerifies | backend/config/vnpay.js:36-119 | the URL createPaymentUrl builds verifies on return and reports the order id and the amount it was built for |
| VnPay.ResponseMessage | backend/config/vnpay.js:122-141 | the table's message for a code the table holds as its own key; the fallback for every other code (prototype keys are left out) |
| Guard.Split | backend/middleware/auth.js:10 | `split(' ')` always yields at least one piece |
| Guard.SplitJoin | backend/middleware/auth.js:10 | splitting loses nothing: joining the pieces with spaces gives back the header, and no piece holds a space |
| Guard.SplitWord | backend/middleware/auth.js:10 | a string without spaces splits into itself |
| Guard.SplitAfterWord | backend/middleware/auth.js:10 | a word followed by a space splits into the word and the pieces of the rest |
| Guard.ExtractToken | backend/middleware/auth.js:8-11 | a token is read only from a truthy header starting with 'Bearer', and never holds a space |
| Guard.BearerRoundTrip | backend/middleware/auth.js:8-11 | the header `Bearer <token>` yields the token back |
| Guard.OtherSchemeRejected | backend/middleware/auth.js:8-11 | a header with another scheme yields no token |
| Guard.Request.constructor | backend/middleware/auth.js:5-11 | a request arrives with its header and no user attached |
| Guard.Protect | backend/middleware/auth.js:5-64 | the handler runs iff the token verifies to an existing user; 401 with the no-token message when no token is read, the bad-token message when it does not verify, and the unknown-user message when its user is gone; every rejection is 401 and leaves the request untouched. On success the user is attached with its role in frontend form |
| Guard.Authorize | backend/middleware/auth.js:67-79 | the handler runs iff the attached role is listed; 403 otherwise |
| Guard.RouteRoles | backend/routes/cart.js:13 | 'seller' admits exactly stored sellers; 'buyer' admits stored customers and buyers; the cart's list admits those plus sellers, and its 'customer' never matches since protect reports customers as buyers |
| Numbers.NatString | backend/config/vnpay.js:56 | `toString()` of a non-negative integer is a non-empty string of decimal digits |
| Numbers.NatStringRoundTrip | backend/config/vnpay.js:56 | the digits written for a number read back as that number |
| Numbers.NumberRoundTrip | backend/controllers/paymentController.js:110-113 | an order id written out with `toString` and read back as a number for the integer key gives that id, negative ones included |
| Pager.Window | frontend/src/pages/Products/ProductList.jsx:85-91 | the window lies within 1..total, holds at most five pages, exactly five when there are that many, all pages otherwise, and contains the current page whenever it is a real page |
| Pager.Numbers | frontend/src/pages/Products/ProductList.jsx:122-133 | one link for each page from start to end |
| Pager.NumbersAt | frontend/src/pages/Products/ProductList.jsx:122-133 | the i-th numbered link is page start+i, marked active exactly when it is the current page |
| Pager.LayoutLinks | frontend/src/pages/Products/ProductList.jsx:81-162 | the bar links exactly page 1, the last page and the pages of the window; only the current page is active, and it always is when it is a real page |
| Pager.PushNumbers | frontend/src/pages/Products/ProductList.jsx:122-133 | the loop appends exactly the numbered links of the window to the links pushed so far |
| Pager.Pagination.constructor | frontend/src/pages/Products/ProductList.jsx:11-16 | the listing starts on page 1 of 1, with no items and twelve per page |
| Pager.Pagination.HandleFilterChange | frontend/src/pages/Products/ProductList.jsx:71-74 | a new filter resets to page 1 and keeps the rest of the pagination state |
| Pager.Pagination.HandlePageChange | frontend/src/pages/Products/ProductList.jsx:76-78 | moves to the requested page and keeps the rest of the pagination state |
| Pager.Pagination.RenderPagination | frontend/src/pages/Products/ProductList.jsx:81-162 | no bar for one page or fewer; otherwise the bar starts with Prev (disabled on page 1), ends with Next (disabled on the last page), and is the layout LayoutLinks describes |
| QuantitySelector.Selector.constructor | frontend/src/pages/Products/ProductDetail.jsx:17 | the quantity starts at 1, which is within range for any stock |
| QuantitySelector.Selector.Increase | frontend/src/pages/Products/ProductDetail.jsx:94-100 | one more only while below the stock; the quantity stays between 1 and the stock |
| QuantitySelector.Selector.Decrease | frontend/src/pages/Products/ProductDetail.jsx:94-100 | one fewer only while above 1; the quantity stays between 1 and the stock |
| QuantitySelector.Selector.Type | frontend/src/pages/Products/ProductDetail.jsx:245-250 | a typed value is taken iff it is a number between 1 and the stock; otherwise the quantity is kept |
| QuantitySelector.Selector.AddToCart | frontend/src/pages/Products/ProductDetail.jsx:102-118 | refused with no stock and nothing changes; otherwise the cart becomes `Updated` with the chosen quantity, gaining exactly that many items, and the selector returns to 1 |
| QuantitySelector.Selector.BuyNow | frontend/src/pages/Products/ProductDetail.jsx:120-139 | out of stock first, then login required for a signed-out visitor, both leaving the cart alone; otherwise the cart becomes `Updated` with the chosen quantity and checkout follows |
| Profile.ProfileUpdates | backend/controllers/userController.js:66-80 | one value per pushed column; the name, phone and address columns are pushed iff their field is supplied, and nothing is pushed iff the update has no field |
| VnPay.CopyFields | backend/config/vnpay.js:29-31 | the `forEach` copies the keys in the order visited, each with its value in the source object |

## Left out

- Database plumbing is not modelled: connections, transactions, rollbacks and row locking. Each transactional handler is one atomic method, so races between concurrent orders or duplicate notifications are out of scope.
- Exceptions are not modelled: a failed query, a driver error, or a gateway exception. Their 500 replies, and the IPN's `'99'` reply, are therefore absent. The 500s that follow from the data itself are modelled, such as reading `users[0]` of an empty result, a reset with no new password, or a cart update with no quantity.
- Foreign primitives are parameters or inputs: HMAC-SHA512, bcrypt hashing and comparison, jwt signing and verification, `crypto.randomBytes`, `Date.now`, SQL `NOW()` and `moment`. authController's `generateToken` and the JWT contents it produces are not modelled. vnpay.js's create and expiry dates are inputs.
- Numbers are integers. Prices and amounts are `int`, and floating point is not modelled. `Number(...)` is modelled only on decimal integer strings. The IPN compares the amount with the order total as numbers; the driver's string form of a DECIMAL column is not modelled.
- JSON `null` and `undefined` are both `None`. `toUpperCase` is modelled on ASCII letters only.
- The read-only listings are not modelled beyond their arithmetic and filters: getCategories, getProductById, getSellerProducts, getBuyerOrders, getSellerOrders, and the per-period aggregation of getRevenueStats and getOrderStats (GROUP BY, AVG, preview items). Only these are modelled:
  - the paging (`Orders.OrderPage`, `Paging`);
  - the revenue status filter (`Orders.RevenueItems`);
  - the stats defaults (`Orders.FormatStats`).
- The listing filter names the column `p.category` while rows hold `category_id`. The model keeps the query text and does not decide whether the database accepts it.
- updateOrderStatus and the legacy cancelOrder are modelled, but no route reaches them.
- The cart route lists the role 'customer', which protect never reports (`Guard.RouteRoles`). Which route uses which role list is cited, not modelled as routing.
- forgotPassword writes the token to every row with the email. The model does the same and does not assume emails are unique.
- The authenticated branches of CartContext.jsx are not modelled: the API calls, loadCart and the localStorage sync. `QuantitySelector.Selector.AddToCart` and `BuyNow` go through the local-cart path.
- `LocalCart.Cart.UpdateLocalCart` does not model aliasing. updateLocalCart copies the array but mutates the shared line object (`newCart[existingIndex].quantity += …`), and the model treats lines as values.
- React rendering, navigation, alerts and the checkout page are not modelled. That includes the checkout page's shipping fee of 0 against the backend's 30000.
- File storage (googleDrive.js, uploadController.js), the schema script, server wiring and error middleware are not part of this model.
- Cart.UpdateCartItem: an absent quantity on an owned line is modelled as 500 with no write, on the assumption that `cart_items.quantity` is NOT NULL; the schema is not part of this model. With a nullable column the row would hold NULL, which the integer quantity cannot represent, and the preserved positivity of quantities rests on that assumption. A JSON `null` quantity is refused with 400 in the source (`null < 1` holds), while the model's `None` is the absent case.
- Payment.FirstTxn takes transactions in table order. The query has no ORDER BY, so which matching row the database returns first is not fixed.
- Accounts.EmailTaken, Accounts.EmailsDistinct, Accounts.Register, Accounts.Login, Accounts.ForgotPassword, Accounts.ResetPassword and Catalog.ResolveCategory compare column values exactly: a binary collation is assumed, and the schema is not modelled. Under a case- and accent-insensitive collation, the database's `=` on emails, reset tokens and category names would identify strings the model keeps apart. For example, logging in as "a@x.com" against a stored "A@x.com" would succeed, and registering "A@x.com" beside "a@x.com" would be refused.
- Orders.CreateOrder stores the shipping address as an opaque value that stands for its JSON text (the handler writes `JSON.stringify(shippingAddress)`). In the model an absent or empty value is falsy. The client sends an object, and any object is truthy, so the source refuses only an absent address; an empty object is accepted and stored as `{}`.
- VnPay.ResponseMessage treats the response-code table as holding only its own keys. An inherited key of the object literal, such as "constructor" or "toString", yields the inherited member in the source, not the fallback message.
- Payment.ClientIp returns the loopback address when all four addresses are falsy, as the expression is written. In Node the connection's socket is then absent, reading its address throws, and the handler answers 500; that 500 is not modelled.
- Catalog.OwnershipAsWritten takes the rows the lookup returns. If `products` has no `user_id` column, the lookup fails and the handler's catch answers 500, which the model does not represent; the schema is not part of this model.
- `Numbers.NatString` states only that the result is a non-empty digit string. Its meaning is carried by `Numbers.NatStringRoundTrip`.

## Findings

| source | as written | input that shows it | evidently intended | confidence | as-written member | corrected member |
|---|---|---|---|---|---|---|
| backend/controllers/cartController.js:58-78 | addToCart checks that the product exists and that the stock covers the quantity. It never checks that the quantity is positive, although updateCartItem refuses a quantity below 1 (cartController.js:129-134) | buyer 2 adds quantity -3 of product 7, which has stock 5. The line is stored, and ordering the cart raises the stock to 8 and prices the line at -300000 | a quantity below 1 is refused with 400, as in updateCartItem, so an order can only lower stock | not executed | Cart.AddToCart, Cart.NonPositiveQuantityAccepted | Cart.AddToCartChecked, Cart.PositiveCartNeverRaisesStock |
| backend/controllers/productController.js:290-307 | updateProduct looks the product up with `WHERE user_id = ?` bound to `req.params.user_id`, which the route `/:id` never supplies. It then compares the row's seller with `req.user.user_id`, while protect sets only `req.user.id` | seller 1 sends PUT /api/products/7 for their own product 7. The lookup binds nothing and the comparison is with `undefined`, so the UPDATE is never reached: the answer is 404 if `products` has a `user_id` column (NULL matches no row), otherwise 500 from the handler's catch | the product with id `req.params.id` is looked up; the owner may update it, another seller gets 403 | not executed | Catalog.OwnershipAsWritten, Catalog.UpdateNeverAuthorized | Catalog.UpdateOwnProduct |
