# GHOST-KITCHEN core, modelled in Dafny

GHOST-KITCHEN is a food-ordering web application. An Express back end keeps
users, delivery addresses, menu items and orders in MySQL. Browser scripts
keep the shopping cart in local storage, validate the checkout and contact
forms, and show past orders and an order-progress tracker. This project
models the logic inside those parts. Tables are sequences and maps held in a
class. Browser state is a class whose fields the handlers reassign. Money
is exact `real`.

The modules follow the source files:

| module | file | models |
|---|---|---|
| `Common` | — | optional fields and JavaScript truthiness, `trim`, `replace(/\D/g, '')`, `find`, newest-first reads, exact line totals |
| `AuthGate` | backend/middleware/auth.js | bearer-token extraction, `verifyToken`, `verifyAdmin`, `verifyKitchenOwner` |
| `Accounts` | backend/routes/auth.js | registration checks and insert, login outcome, profile update (class `UserTable`) |
| `AddressBook` | backend/routes/user.js | list, add, update and delete of addresses (class `AddressTable`) |
| `OrderService` | backend/routes/order.js | create-order pricing and inserts, status update, visibility, status filters (class `OrderStore`) |
| `ShoppingCart` | frontend/js/cart.js, frontend/js/orders.js | the cart and its two `addToCart`s, the quantity buttons, remove, clear, reorder, the summary (class `Cart`) |
| `Checkout` | frontend/js/checkout.js | form validation, totals, the order payload, clearing the cart on success, agreement with the server's pricing |
| `OrderHistory` | frontend/js/orders.js | card totals with their fallbacks, status labels and actions, the status tabs, the newest-first sort |
| `OrderTracking` | frontend/js/order-confirmation.js | the four-step tracker, when polling stops, item totals, the payment and delivery texts (class `TrackingPage`) |
| `ContactForm` | frontend/js/contact.js | the contact validator, the email pattern, saving messages (class `MessageStore`) |

Some behaviour differs from what the system's own description implies. The
model follows the code in each case except `reorder`, which it models as the
code was evidently meant to run:

- A status update for an order id that does not exist still answers with
  success. `UpdateStatus` states this.
- Create-order does not check that quantities are at least 1. It does not
  round. It never stores `scheduled_delivery`.
- The tracker and the polling stop compare capitalised labels
  (`Delivered`). The server stores lower-case statuses (`delivered`). So for
  any stored order the tracker stays on its first step, and polling never
  stops on its own. `OrderTracking.TrackerIgnoresBackendStatuses` states
  this.
- The orders page labels only four of the server's seven statuses. The
  other three show as `Unknown`. `OrderHistory.ServerStatusesShownAsUnknown`
  states this.
- The orders page's `reorder` (frontend/js/orders.js:254-282) calls
  `window.api.getOrderById`, which the API client does not define; it defines
  only `getOrder` (frontend/js/api.js:184). So every click throws into the
  `catch`, and the cart is never touched. Even with the right call, the items
  of GET `/:id` (backend/routes/order.js:226-232) carry `unit_price` and no
  `kitchen` object, so `item.kitchen.id` would throw and `item.price` would be
  undefined. `ShoppingCart.Cart.Reorder` models the loop of
  frontend/js/orders.js:260-271 as if it were reached with cart-shaped items.
- The orders page reads `createdAt`, `subtotal`, `deliveryFee`, `gst` and
  `total` (frontend/js/orders.js:48, 86-89). GET `/user` returns the table's
  own columns, `created_at`, `total_amount`, `delivery_fee` and `gst_amount`
  (backend/routes/order.js:39, 143-147). So with this back end every card
  takes the fallback figures, which
  `OrderHistory.FallbackTotalsMatchCheckout` covers, and the sort compares
  `NaN`.
- The items of GET `/:id` are the stored rows (`oi.*`,
  backend/routes/order.js:226-232), which carry `unit_price` and no `price`.
  The confirmation page reads `item.price` (frontend/js/order-confirmation.js:91),
  so with this back end every item total there shows 0. This is the
  missing-price case of `OrderTracking.ItemTotal`.

Parameters stand in for the parts of the system that are out of reach:

- `verify: string -> Option<int>` is `jwt.verify` reduced to the user id it
  decodes.
- `hash` and `matches` stand for `bcrypt.hash` and `bcrypt.compare`.
- `succeeds` is the outcome of the create-order request.
- `timestamp` is `new Date().toISOString()`.
- `idOf` is the conversion of cart ids (strings in the browser) to the
  server's numeric menu ids.

## Model

| member | source | states |
|---|---|---|
| Common.OrElse | frontend/js/order-confirmation.js:115-117 | `f \|\| d` gives the field when it is truthy and the default otherwise |
| Common.TrimStart | frontend/js/checkout.js:150 | the result is a suffix of the input and starts with a non-whitespace character, or is empty |
| Common.TrimStartDropsWhitespace | frontend/js/checkout.js:150 | what trimming the start drops is whitespace |
| Common.TrimEnd | frontend/js/checkout.js:150 | the result is a prefix of the input and ends with a non-whitespace character, or is empty |
| Common.TrimEndDropsWhitespace | frontend/js/checkout.js:150 | what trimming the end drops is whitespace |
| Common.TrimStartOfWhitespace | frontend/js/checkout.js:150 | trimming a string of whitespace leaves nothing |
| Common.BlankIffTrimEmpty | frontend/js/checkout.js:150 | `!s.trim()` holds exactly when every character of `s` is whitespace |
| Common.StripNonDigits | frontend/js/checkout.js:158 | the result holds only digits and is no longer than the input |
| Common.StripNonDigitsFixesDigits | frontend/js/checkout.js:158 | stripping leaves a string of digits unchanged and erases a string with no digits |
| Common.StripNonDigitsAppend | frontend/js/checkout.js:158 | stripping distributes over concatenation |
| Common.FirstIndex | frontend/js/cart.js:36 | the index of the first element satisfying the test, or none when no element does |
| Common.NewestFirst | backend/routes/order.js:39 | exactly the kept rows, and with keys increasing along the table the latest row comes first |
| Common.LastKeyExceedsEarlier | backend/routes/order.js:39 | with increasing keys the last row's key exceeds every earlier key |
| Common.LineTotalAdd | frontend/js/cart.js:129 | a line total is additive in the quantity |
| AuthGate.IndexOfFrom | backend/middleware/auth.js:7 | the first position at or after the start where the pattern occurs, or none when it occurs nowhere there |
| AuthGate.RemoveFirst | backend/middleware/auth.js:7 | `replace` with a string pattern removes only the first occurrence; without an occurrence the string is unchanged |
| AuthGate.ExtractToken | backend/middleware/auth.js:7 | the optional chain gives no token exactly when there is no header |
| AuthGate.BearerHeaderYieldsToken | backend/middleware/auth.js:7 | `Bearer <t>` yields exactly `t` |
| AuthGate.HeaderWithoutPrefixIsToken | backend/middleware/auth.js:7 | a header that never contains `Bearer ` is taken whole as the token |
| AuthGate.Authenticate | backend/middleware/auth.js:5-30 | a request is admitted exactly when a truthy token decodes to the id of a stored user, and then as that user; no token gives the 401 "No token provided" answer |
| AuthGate.VerifyAdmin | backend/middleware/auth.js:33-38 | passes exactly for role `admin`, otherwise 403 |
| AuthGate.VerifyKitchenOwner | backend/middleware/auth.js:41-46 | passes exactly for role `kitchen_owner` or `admin`, otherwise 403 |
| AuthGate.AdminPassesKitchenOwnerGate | backend/middleware/auth.js:33-46 | every caller admitted by `verifyAdmin` is admitted by `verifyKitchenOwner` |
| AuthGate.Request.constructor | backend/middleware/auth.js:5-7 | a fresh request carries its header and no user |
| AuthGate.Request.VerifyToken | backend/middleware/auth.js:5-30 | an admitted request gets `req.user` set and goes to the next handler; a refused one gets the 401 with the refusal's message and no user |
| Accounts.FindByEmail | backend/routes/auth.js:24-27 | the position of the first row with that email, present exactly when the email is registered |
| Accounts.CheckRegistration | backend/routes/auth.js:15-31 | a short-password refusal has a short password, a taken-email refusal a registered email, and an acceptance an unregistered email and a password of at least 6 characters |
| Accounts.RegistrationAccepted | backend/routes/auth.js:15-31 | registration goes through exactly when all four fields are truthy, the password has at least 6 characters and the email is not registered; a registered email is always refused; a short password is refused and not reported as a taken email |
| Accounts.Login | backend/routes/auth.js:71-110 | login succeeds exactly when both fields are truthy, the email is registered and the password matches that row's hash, and it answers with that row's id, name, email and role; a missing field gives 400 |
| Accounts.LoginFailuresIndistinguishable | backend/routes/auth.js:81-91 | an unknown email and a wrong password get the same 401 answer |
| Accounts.WithProfile | backend/routes/auth.js:149-152 | the rows with the caller's id get the new name and phone; every other row is unchanged |
| Accounts.ProfileChangesOnlyOwnNameAndPhone | backend/routes/auth.js:149-152 | apart from name and phone of the caller's own row, nothing in the table changes |
| Accounts.AppendKeepsTableValid | backend/routes/auth.js:37-40 | inserting the next id with an unregistered email keeps ids increasing and emails unique |
| Accounts.ProfileKeepsTableValid | backend/routes/auth.js:149-152 | a profile update keeps ids increasing and emails unique |
| Accounts.UserTable.constructor | backend/routes/auth.js:37-40 | the table starts empty with the first id 1 |
| Accounts.UserTable.Principals | backend/middleware/auth.js:16-19 | the users as `verifyToken` loads them: id, name, email, role of each row, in order |
| Accounts.UserTable.Register | backend/routes/auth.js:10-59 | a refused registration changes nothing and names the first failing check; an accepted one appends one row with the next id, the hashed password and role `customer`, and answers with that id and role |
| Accounts.UserTable.UpdateProfile | backend/routes/auth.js:140-157 | with a missing name or phone the answer is 400 and nothing changes; otherwise only the caller's name and phone are rewritten |
| Accounts.NewAccountIsCustomer | backend/routes/auth.js:37-58 | right after registering, logging in with the same email and password admits the new id with role `customer` |
| AddressBook.NewAddress | backend/routes/user.js:51-58 | the inserted row belongs to the caller, has the new id, takes the type `home` when none is sent, and keeps the sent default flag |
| AddressBook.ClearDefaults | backend/routes/user.js:44-49 | the caller's rows lose the default flag and every other row is unchanged |
| AddressBook.ClearDefaultsEffect | backend/routes/user.js:44-49 | after clearing, none of the user's rows is the default, no other column changed, and other users' rows are as they were |
| AddressBook.RewriteOwned | backend/routes/user.js:104-112 | only the row matching both id and user takes the form's values |
| AddressBook.DeleteOwned | backend/routes/user.js:129-132 | the delete never lengthens the table |
| AddressBook.DeleteOwnedMembers | backend/routes/user.js:129-132 | a delete keeps exactly the rows other than the user's row with that id |
| AddressBook.DeleteUnownedIsNoOp | backend/routes/user.js:129-132 | deleting an id the user does not own leaves the table as it was |
| AddressBook.ListForShape | backend/routes/user.js:10-13 | the list holds exactly the user's rows, defaults first, and within each group later rows first |
| AddressBook.ClearKeepsValid | backend/routes/user.js:44-49 | clearing keeps ids increasing and at most one default per user, and leaves the user without a default |
| AddressBook.AppendKeepsValid | backend/routes/user.js:51-58 | inserting a row with the next id, with no default of its user left, keeps the invariant |
| AddressBook.RewriteKeepsValid | backend/routes/user.js:97-112 | a rewrite after the defaults were cleared (or one that does not set the default) keeps the invariant |
| AddressBook.DeleteKeepsValid | backend/routes/user.js:129-132 | a delete keeps the invariant |
| AddressBook.AddressTable.constructor | backend/routes/user.js:51-58 | the table starts empty with the first id 1 |
| AddressBook.AddressTable.List | backend/routes/user.js:8-18 | GET returns exactly the caller's rows, defaults first, newest first within each group |
| AddressBook.AddressTable.Add | backend/routes/user.js:26-64 | without the four required fields the answer is 400 and nothing changes; otherwise the user's defaults are cleared when the new row is the default, and one row is appended under the next id |
| AddressBook.AddressTable.Update | backend/routes/user.js:72-117 | an address the caller does not own gives 404 and no change; otherwise the defaults are cleared when asked and only the owned row is rewritten |
| AddressBook.AddressTable.Delete | backend/routes/user.js:125-137 | the table becomes the delete of the caller's row with that id, and the invariant is kept |
| OrderService.Lookup | backend/routes/order.js:119-127 | a price is found exactly when the item exists and is available, and it is the catalog price |
| OrderService.PriceLines | backend/routes/order.js:115-137 | either every line is priced from the catalog in request order, or the result names the first line whose item is missing or unavailable |
| OrderService.PriceLinesPrefixMissing | backend/routes/order.js:118-126 | once a prefix fails, the whole request fails on the same id |
| OrderService.PriceLinesIgnoresClientPrice | backend/routes/order.js:119-136 | requests that agree on ids and quantities are priced identically, whatever prices the client sent |
| OrderService.SubtotalAppend | backend/routes/order.js:129 | the subtotal grows by each line's total |
| OrderService.CheckRequest | backend/routes/order.js:107-137 | the checks run in order: an accepted request has items, a truthy address and phone and one priced line per item; a missing delivery field is reported only when there are items, an unavailable item only when both delivery fields are present |
| OrderService.CheckRequestAccepted | backend/routes/order.js:107-137 | a request is accepted exactly when it has items, a truthy address and phone and only available items; each accepted line has the catalog unit price and the price times quantity as its total |
| OrderService.CheckRequestNamesFirstUnavailable | backend/routes/order.js:124-126 | the 400 names the first request line whose item is missing or unavailable |
| OrderService.WorkedExample | backend/routes/order.js:139-141 | two portions at 150 give subtotal 300, GST 15 and total 355 |
| OrderService.Rows | backend/routes/order.js:162-167 | one order-item row per priced line, in order, all under the new order id |
| OrderService.Lines | backend/routes/order.js:162-167 | reading back a row gives the line it stores |
| OrderService.LinesOfRows | backend/routes/order.js:162-167 | storing priced lines loses nothing |
| OrderService.ItemsOf | backend/routes/order.js:226-232 | exactly the rows of that order |
| OrderService.ItemsOfAppend | backend/routes/order.js:226-232 | selecting one order's rows distributes over concatenation |
| OrderService.ItemsOfUniform | backend/routes/order.js:226-232 | rows that all belong to the order are all selected |
| OrderService.ItemsOfAbsent | backend/routes/order.js:226-232 | no row is selected for an order that owns none |
| OrderService.WithStatus | backend/routes/order.js:196-199 | the order with that id takes the new status and every other order is unchanged |
| OrderService.WithStatusKeepsRest | backend/routes/order.js:196-199 | only the status field changes |
| OrderService.VisibleToOwnerOrAdmin | backend/routes/order.js:217-220 | an admin sees every order, and two callers who are not admins both see an order only when they are the same user |
| OrderService.StatusFilterMeaning | backend/routes/order.js:34-36 | no filter, an empty one or `all` keeps every order; any other filter keeps exactly the orders in its status (the admin list applies the same test at lines 74-76) |
| OrderService.StatusCheckIsExact | backend/routes/order.js:190-194 | each of the seven stored statuses passes; a missing status, the empty string and the capitalised `Delivered` and `Cancelled` do not |
| OrderService.OrderStore.constructor | backend/routes/order.js:143-167 | the store starts with the catalog, no orders, no rows and the first id 1 |
| OrderService.OrderStore.CreateOrder | backend/routes/order.js:95-182 | a refused request writes nothing and answers with the first failing check; an accepted one appends one header and one row per line under the next id, and answers with that id, the total and `pending` |
| OrderService.OrderStore.InsertOrder | backend/routes/order.js:139-167 | the header with fee 40, GST and total from the subtotal, then the rows, under the next id |
| OrderService.OrderStore.PriceItems | backend/routes/order.js:115-137 | the lookup loop gives the same result as the pricing function, with the running subtotal equal to the sum of the line totals |
| OrderService.OrderStore.InsertRows | backend/routes/order.js:162-167 | the insert loop appends exactly the rows for the lines |
| OrderService.OrderStore.UpdateStatus | backend/routes/order.js:185-209 | a non-admin gets 403 and a status outside the seven gets 400, both with no change; otherwise the status is overwritten, and an unknown id too is answered with success |
| OrderService.OrderStore.GetOrder | backend/routes/order.js:212-240 | an order is returned exactly when it exists and the caller owns it or is an admin, and then with exactly its rows |
| OrderService.OrderStore.UserOrders | backend/routes/order.js:10-52 | exactly the caller's orders under the status filter, where `all` or no filter keeps everything, newest first |
| OrderService.OrderStore.AdminOrders | backend/routes/order.js:60-87 | for an admin exactly the orders under the status filter, newest first; nothing for anyone else |
| OrderService.NoRowsForFreshId | backend/routes/order.js:159 | no stored row belongs to the next id |
| OrderService.ItemsOfOtherOrder | backend/routes/order.js:162-167 | a new order's rows leave every other order's rows alone |
| OrderService.ItemsOfNewOrder | backend/routes/order.js:162-167 | the new order's rows are exactly the rows inserted for it |
| OrderService.AppendKeepsIdsAssigned | backend/routes/order.js:143-159 | the new header keeps ids increasing |
| OrderService.AppendKeepsRowsOwned | backend/routes/order.js:143-167 | every row still belongs to a stored order |
| OrderService.AppendKeepsRowsTotalled | backend/routes/order.js:162-167 | every row still records its own line total |
| OrderService.AppendKeepsOrdersPriced | backend/routes/order.js:139-167 | every order's fee, GST and total still agree with its rows |
| OrderService.CreateKeepsValid | backend/routes/order.js:139-167 | a create keeps the store invariant |
| OrderService.StatusUpdateKeepsValid | backend/routes/order.js:196-199 | a status update keeps the store invariant |
| ShoppingCart.IndexOfId | frontend/js/cart.js:36 | the first line with that id, or none when no line has it |
| ShoppingCart.IndexOfIdUnique | frontend/js/cart.js:36 | in a cart with unique ids no other line has the found line's id |
| ShoppingCart.AcceptsMeaning | frontend/js/cart.js:29 | on a cart from one kitchen, the test of the first line's kitchen holds exactly when every line is from that kitchen |
| ShoppingCart.Merge | frontend/js/cart.js:25-48 | a foreign kitchen leaves the cart unchanged; a present id gets its quantity raised, with length and other lines unchanged; a new id is appended at the end with the bump as its quantity |
| ShoppingCart.MergeKeepsValid | frontend/js/cart.js:29-43 | adding keeps ids unique and the cart on one kitchen |
| ShoppingCart.SubtotalNonNegative | frontend/js/cart.js:108 | with no negative price or quantity the subtotal is not negative |
| ShoppingCart.SubtotalAppend | frontend/js/cart.js:108 | the subtotal grows by the appended line's amount |
| ShoppingCart.SubtotalUpdate | frontend/js/cart.js:108 | replacing a line changes the subtotal by the difference of the two amounts |
| ShoppingCart.Without | frontend/js/cart.js:131-135 | a removal never lengthens the cart |
| ShoppingCart.WithoutMembers | frontend/js/cart.js:134-135 | a removal keeps exactly the lines with another id |
| ShoppingCart.WithoutAppend | frontend/js/cart.js:134-135 | `filter` works line by line: removing from a concatenation is the concatenation of the removals, so kept lines stay in their order |
| ShoppingCart.WithoutCutsLine | frontend/js/cart.js:134-135 | in a cart with unique ids, removing a present id cuts out exactly that line, with the lines before and after it in their order |
| ShoppingCart.WithoutAbsent | frontend/js/cart.js:134-135 | removing an id the cart does not hold changes nothing |
| ShoppingCart.SubtotalWithout | frontend/js/cart.js:134-135 | in a valid cart a removal lowers the subtotal by exactly the removed line's amount |
| ShoppingCart.SubtotalWithoutSole | frontend/js/cart.js:134-135 | removing the only line with an id lowers the subtotal by that line's amount |
| ShoppingCart.WithoutKeepsValid | frontend/js/cart.js:134-135 | a removal keeps ids unique and the cart on one kitchen |
| ShoppingCart.WithoutKeepsUnique | frontend/js/cart.js:134-135 | a removal keeps ids unique |
| ShoppingCart.Changed | frontend/js/cart.js:125-133 | for a missing id nothing changes; a result of at most 0 removes exactly that id's lines, and in a cart with unique ids cuts out that one line with the others in their order; otherwise only that line's quantity changes by `change` |
| ShoppingCart.ChangedKeepsValid | frontend/js/cart.js:125-133 | a quantity change keeps ids unique and the cart on one kitchen |
| ShoppingCart.MergeSubtotal | frontend/js/cart.js:36-43 | an accepted add raises the subtotal by the price times the bump |
| ShoppingCart.ChangedSubtotal | frontend/js/cart.js:125-133 | a quantity change moves the subtotal by the price times the change, or by the line's whole amount when the line goes |
| ShoppingCart.Summary | frontend/js/cart.js:107-110 | the subtotal is the sum of price times quantity over the lines, the total is the subtotal plus 40, with no GST; for the empty cart the figures are 0 and 40, though the page then hides the summary (frontend/js/cart.js:93-98) |
| ShoppingCart.ReorderedKeepsValid | frontend/js/orders.js:260-271 | a reorder keeps ids unique and the cart on one kitchen |
| ShoppingCart.ReorderedForeignKitchen | frontend/js/orders.js:302-305 | reordering another kitchen's items into a non-empty cart adds nothing |
| ShoppingCart.Cart.constructor | frontend/js/cart.js:7-8 | with nothing stored the cart is empty |
| ShoppingCart.Cart.FindLine | frontend/js/cart.js:36 | the loop finds the first line with the id, as the specification function does |
| ShoppingCart.Cart.MergeItem | frontend/js/cart.js:29-45 | the cart becomes the merge of the item with the given bump, and ids stay unique on one kitchen |
| ShoppingCart.Cart.AddToCart | frontend/js/cart.js:25-48 | the menu pages' add merges with a bump of 1 |
| ShoppingCart.Cart.AddReordered | frontend/js/orders.js:300-316 | the reorder page's add merges with the item's own quantity |
| ShoppingCart.Cart.Reorder | frontend/js/orders.js:260-271 | every fetched item goes through the reorder add, in order |
| ShoppingCart.Cart.ChangeQuantity | frontend/js/cart.js:125-133 | the cart becomes the quantity change, and ids stay unique on one kitchen |
| ShoppingCart.Cart.Remove | frontend/js/cart.js:134-135 | the cart loses exactly the lines with that id, and a valid cart keeps its other lines in their order |
| ShoppingCart.Cart.Clear | frontend/js/cart.js:146-157 | a confirmed clear empties the cart |
| Checkout.Totals | frontend/js/checkout.js:75-78 | the subtotal is the sum of price times quantity, the same as the cart page's; the delivery fee is 40, GST a twentieth of the subtotal, and the total the cart page's total plus GST |
| Checkout.RequiredErrors | frontend/js/checkout.js:149-154 | no more errors than fields, each "This field is required" |
| Checkout.RequiredErrorsComplete | frontend/js/checkout.js:149-154 | no required-field error exactly when no field is blank; every blank field is reported, and every error names a blank field |
| Checkout.CheckoutErrorsMeaning | frontend/js/checkout.js:147-185 | of the errors shown (`CheckoutErrors`): no error exactly when no field is blank, the phone and PIN pass and a scheduled delivery has date and slot; every failing check is reported with its message |
| Checkout.CheckRequiredFields | frontend/js/checkout.js:149-154 | the loop reports the required-field errors in document order and clears the flag exactly when there is one |
| Checkout.ValidateCheckoutForm | frontend/js/checkout.js:144-186 | every check runs and shows its error, in order; the form is valid exactly when no error is shown |
| Checkout.CheckSchedule | frontend/js/checkout.js:170-183 | a scheduled delivery needs a date and a slot, each missing one reported |
| Checkout.PhoneIgnoresSeparators | frontend/js/checkout.js:156-161 | the phone check (`PhoneValid`): non-digits anywhere make no difference to the phone check, and a string of digits passes exactly when it has 10 |
| Checkout.PinValidMeaning | frontend/js/checkout.js:163-168 | a PIN passes exactly when it has six digits and holds nothing that stripping non-digits would remove |
| Checkout.PinIsNotStripped | frontend/js/checkout.js:163-168 | `560 001` fails the PIN check although its digits number six |
| Checkout.PayloadItems | frontend/js/checkout.js:274-277 | one entry per cart line, in order, with id and quantity only |
| Checkout.PayloadIgnoresPrices | frontend/js/checkout.js:274-277 | carts that agree on ids and quantities give the same items |
| Checkout.DeliveryAddress | frontend/js/checkout.js:278 | the text is the address, then `, `, the city, `, `, the state, ` - ` and the PIN, each part in its place |
| Checkout.SlotStart | frontend/js/checkout.js:283 | the part of the slot before its first `-` |
| Checkout.Payload | frontend/js/checkout.js:273-284 | items from the cart, the joined delivery address, phone and payment method as entered, instructions defaulting to the empty string, and exactly for a scheduled delivery the date, `T`, the slot's start and `:00` |
| Checkout.ProcessSuccessfulOrder | frontend/js/checkout.js:271-299 | the payload is built from the cart, and the cart is cleared only when the request succeeds |
| Checkout.AsCreateRequest | frontend/js/checkout.js:273-284 | the payload as the server reads it: the same lines with no client price |
| Checkout.ServerSubtotalIsCartSubtotal | backend/routes/order.js:127-129 | lines priced at the cart's own prices sum to the cart's subtotal |
| Checkout.ServerAcceptsCheckout | backend/routes/order.js:107-141 | a non-empty cart at current catalog prices, with a phone that passed the checkout check, is accepted by create-order, which charges the total the checkout page showed |
| OrderHistory.Totals | frontend/js/orders.js:86-89 | each figure is the server's value when present; otherwise the subtotal is the items' sum, the fee 40, GST a twentieth of the subtotal and the total their sum |
| OrderHistory.StatusText | frontend/js/orders.js:155-163 | a label exactly for pending, preparing, delivered and cancelled, the status with its first letter upper-cased; `Unknown` for anything else |
| OrderHistory.Actions | frontend/js/orders.js:166-186 | cancel only for pending, track only for preparing, reorder and rate only for delivered, contact for pending and preparing, and nothing for any other status |
| OrderHistory.ServerStatusesShownAsUnknown | frontend/js/orders.js:155-186 | of the seven server statuses, confirmed, ready and out_for_delivery show as `Unknown` with no action |
| OrderHistory.Render | frontend/js/orders.js:63-141 | an order without a truthy id or without an items array renders nothing; otherwise its card carries the label, totals and actions above |
| OrderHistory.ItemsSumOfCart | frontend/js/orders.js:86 | the items' sum (`ItemsSum`): items carrying a cart's prices and quantities sum to the cart's subtotal |
| OrderHistory.FallbackTotalsMatchCheckout | frontend/js/orders.js:86-89 | an order with none of the four figures shows the totals the checkout page showed for the same lines |
| OrderHistory.ShownOrders | frontend/js/orders.js:200-206 | a tab never shows more orders than there are |
| OrderHistory.TabsMeaning | frontend/js/orders.js:200-206 | a tab shows exactly the orders it selects: `all` hides nothing, any other tab shows exactly the orders in that status |
| OrderHistory.InsertByDate | frontend/js/orders.js:48 | inserting into a newest-first list keeps it newest first and adds exactly the new order |
| OrderHistory.InsertedFollowsHead | frontend/js/orders.js:48 | an order older than the head goes after it without breaking the order |
| OrderHistory.SortNewestFirst | frontend/js/orders.js:48 | the sorted list is newest first and a permutation of the input |
| OrderTracking.StepIndex | frontend/js/order-confirmation.js:127-136 | the position of the status among the four steps, or 0 when it is not one of them |
| OrderTracking.TrackerStates | frontend/js/order-confirmation.js:138-163 | step i is completed exactly when i is below the current index, current exactly at it, upcoming exactly above it |
| OrderTracking.ExactlyOneCurrent | frontend/js/order-confirmation.js:143-161 | exactly one step is current, and it is the step the status names |
| OrderTracking.StopsPollingMeaning | frontend/js/order-confirmation.js:58-60 | polling stops exactly on `Delivered` and `Cancelled`; `Delivered` is drawn with every earlier step completed, `Cancelled` at the first step |
| OrderTracking.TrackerIgnoresBackendStatuses | frontend/js/order-confirmation.js:56-60 | for any of the seven stored statuses the tracker stays on its first step and polling goes on |
| OrderTracking.ItemTotal | frontend/js/order-confirmation.js:91-93 | a missing price counts as 0, a missing or zero quantity as 1, and otherwise the price times the quantity |
| OrderTracking.FinancialDetails | frontend/js/order-confirmation.js:67-75 | each figure is the server's value when present and 0 otherwise |
| OrderTracking.LowerAscii | frontend/js/order-confirmation.js:118 | `toLowerCase` on A to Z, with every other character unchanged |
| OrderTracking.PaymentTextMeaning | frontend/js/order-confirmation.js:117-118 | the payment line (`PaymentText`) shows `Cash on Delivery` exactly for `cod` in any mix of cases; a missing method shows `Paid Online` |
| OrderTracking.DeliveryText | frontend/js/order-confirmation.js:115-116 | the value when truthy, otherwise `Not Provided` |
| OrderTracking.TrackingPage.constructor | frontend/js/order-confirmation.js:13-26 | polling starts exactly when the URL carries an order id |
| OrderTracking.TrackingPage.UpdateOrderStatusVisuals | frontend/js/order-confirmation.js:126-164 | the loop leaves the tracker in the states the classification gives |
| OrderTracking.TrackingPage.DisplayOrderDetails | frontend/js/order-confirmation.js:51-61 | the tracker shows the status, `Confirmed` when missing, and polling stops exactly on `Delivered` or `Cancelled` |
| OrderTracking.TrackingPage.LoadFailed | frontend/js/order-confirmation.js:167-171 | a failed load stops polling |
| ContactForm.EmailValidIffPattern | frontend/js/contact.js:68-72 | the computed email test (`EmailValid`) accepts exactly the strings of the form a@b.c with a, b, c non-empty and free of whitespace and `@` |
| ContactForm.EmailValidGivesPattern | frontend/js/contact.js:68 | every accepted email splits as the pattern describes |
| ContactForm.PatternGivesEmailValid | frontend/js/contact.js:68 | every string built as the pattern describes is accepted |
| ContactForm.ValidateContactForm | frontend/js/contact.js:60-90 | accepted exactly when all five required fields are present, the email is valid, the phone is blank or has 10 to 15 digits and the message has at least 10 characters; otherwise the first failing check's message |
| ContactForm.PhoneIsOptional | frontend/js/contact.js:75-81 | of the phone test (`PhoneAcceptable`): a blank phone passes, and a phone of digits passes exactly with 10 to 15 of them |
| ContactForm.AcceptedEmailMatchesPattern | frontend/js/contact.js:68-72 | an accepted message has an email of the pattern's form |
| ContactForm.MessageStore.constructor | frontend/js/contact.js:94 | with nothing stored the list is empty |
| ContactForm.MessageStore.SaveContactMessage | frontend/js/contact.js:92-101 | one pending record with the data and the time is appended, and earlier records are kept |
| ContactForm.MessageStore.HandleContactSubmission | frontend/js/contact.js:9-58 | the message is saved exactly when the checks pass |

## Left out

- SQL text, `GROUP_CONCAT`/JSON parsing of the items and `LIMIT`/`OFFSET` are not modelled. Tables are in-memory sequences; `created_at` ordering is insertion order, so ties between equal timestamps do not arise.
- MySQL collation (case-insensitive, pad-space comparison) is not modelled. Emails, the status filter of GET `/user` and `/admin` (`AND o.status = ?`) and the `? = 'admin'` test of GET `/:id` compare exactly, so, for example, `?status=Pending` keeps no order in the model while the database would return the pending ones.
- `bcrypt` and `jwt` are parameters, not implementations. GET `/me` is not modelled; it is a plain lookup.
- Express routing, status codes other than those in the outcomes, and server errors (the `catch` blocks answering 500) are left out. Inserts always succeed; there is no transaction in the source and no failure injection here.
- JavaScript floating point, `toFixed`, `parseFloat`/`parseInt` of strings and the Razorpay paise rounding are not modelled: money is exact `real`.
- DOM rendering, notifications, modals, `setTimeout`/`setInterval`, date formatting and local-storage JSON are not modelled. Cart and contact storage are class fields.
- The kitchen name, image and item names shown on cards, and the `image` field of cart lines, are not modelled.
- OrderService.OrderStore.CreateOrder: `scheduled_delivery` is accepted and never stored, as in the source; the time-zone conversion of `toISOString` in the payload is not modelled (the payload carries the local date and slot start).
- Checkout.ServerAcceptsCheckout: JavaScript `===` between a cart's string id and a menu item's number is not modelled; `idOf` maps cart ids to menu ids.
- AddressBook, OrderService.OrderStore.UpdateStatus and OrderService.OrderStore.GetOrder: address, order and user ids are integers; `req.params.id` being a string is not modelled.
- ShoppingCart.Cart.Reorder: the modelled loop is unreachable in the source, because `reorder` calls the undefined `window.api.getOrderById` and throws first; the model states what the loop would do with cart-shaped items, not the no-op the click actually is.
- Lengths are counted in Unicode code points, not UTF-16 code units.
- OrderTracking.LowerAscii: `toLowerCase` is modelled on A to Z only.
- OrderHistory.SortNewestFirst: invalid dates (`NaN` comparisons) and the stability of the browser's sort are not stated; the result is one newest-first permutation.
- OrderTracking.TrackingPage: a missing tracker element is skipped in the source; the model always draws all four steps.
- Checkout.ValidateCheckoutForm: a second error on a field replaces the first on screen; the model lists every error shown in order.
- `undefined` bind parameters (which `mysql2` refuses) for missing optional fields are modelled as stored absent values.
