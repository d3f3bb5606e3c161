# Food-ordering backend, modelled in Dafny

A model of the logic of a small food-ordering REST backend, with its properties proved. Underneath the HTTP and Mongoose layers the backend keeps three stores: Food documents (the catalog), one Cart per user, and Orders. Each store is modelled as a class with a map field (`FoodStore.foods`, `CartStore.carts`, `OrderStore.orders`). Each controller is a method. It returns the HTTP status the controller answers with, and its `ensures` clauses state the whole new contents of the maps it changes.

Modules, one per source file, and one for a finding:

- `Js` (`js.dfy`): the JSON values a request body carries (a missing key is `Undefined`), JavaScript truthiness, and `String.prototype.trim`. `trim` strips exactly the code points of ECMAScript's WhiteSpace and LineTerminator productions.
- `Api` (`api.dfy`): document ids, the id arguments of requests (`Absent` when falsy, `Malformed` when `ObjectId.isValid` fails, `Ref(id)` otherwise), and the status codes 200/201/400/404/409/500.
- `FoodModel` (`food_model.dfy`), `OrderModel` (`order_model.dfy`): the two Mongoose schemas. Each has a datatype, a validity predicate, defaults and the `ORDER_STATUSES` enum.
- `Catalog` (`catalog.dfy`): the food controller.
- `Carts` (`carts.dfy`): the cart controller. A reference definition `AddLine` gives the cart merge.
- `Orders` (`orders.dfy`): the order controller. It has the pure snapshot parts (`UnavailableLines`, `Report`, `Snapshot`, `Total`, mirroring the source's `filter`/`map`/`reduce`), the status machine `Advance`, and the store.
- `AuthValidation`, `AuthController` (`auth.dfy`): the signup and resend schemas, and the rule that an account starts verified exactly when it has no e-mail address.
- `IdText` (`id_text.dfy`): the cart merge over the TEXT of food ids, used for the finding below. Everywhere else a food id is the ObjectId itself, so `Carts.AddLine` compares ids as the cart controller evidently intends.

Modelling choices:

- Prices, quantities and subtotals are `nat`, meaning integer cents. JSON numbers are modelled as integers.
- New ObjectIds come from a counter `nextId` in `FoodStore` and in `OrderStore`. `CartStore` needs none, because a cart is keyed by its user's id. The clock is the `now` parameter of `FoodStore.Create`.
- The e-mail syntax check of the validation library is the parameter `isEmail`.
- Two behaviours of `createFoodController` worth knowing:
  - Creating a food with a whitespace-only name or description passes the controller's truthiness check. The trimmed value is then "", which fails the schema's `required` check (src/models/Food.js:7,12). The controller's catch (src/controllers/food.js:36-38) therefore answers 500, not 400.
  - A truthy name or description that is not a string makes `.trim` throw (src/controllers/food.js:29-30), which also reaches the catch and answers 500.

## Model

| member | source | states |
|---|---|---|
| `Js.TrimStrips` | src/models/Food.js:5-14 | `trim` returns the slice of its argument left after cutting off whitespace and line terminators at both ends. The result neither starts nor ends with one. It is empty exactly when the argument consists of them alone, which is what `!name.trim()` tests. |
| `Js.TrimIdempotent` | src/models/Food.js:8 | Trimming a trimmed string changes nothing, so the schema's `trim` setter leaves the controller's already-trimmed values as they are. |
| `FoodModel.NewFood` | src/models/Food.js:3-26 | A new document exists exactly when the trimmed name and description are non-empty (`required`). It is valid, stores the trimmed texts, the price and the creation time, and `isAvailable` defaults to true. |
| `OrderModel.StatusesExactlyOnce` | src/models/Order.js:3-10 | `ORDER_STATUSES` has exactly the six statuses, each once, in declared order, and their stored names are distinct. |
| `Catalog.InsertNewestFirst` | src/controllers/food.js:6 | Inserting an entry into a list sorted newest first puts it at one position, leaves the other entries in order, and keeps the list sorted by `createdAt` descending. |
| `Catalog.FoodStore.List` | src/controllers/food.js:4-12 | The listing holds exactly the foods with `isAvailable` true, each once, with its stored fields, sorted by `createdAt` descending. |
| `Catalog.BuildUpdates` | src/controllers/food.js:51-83 | The per-field checks of a partial update: it succeeds exactly when every supplied field passes its own check (number ≥ 0, boolean, non-blank string). The built record holds exactly the supplied fields, with texts trimmed. It is empty exactly when nothing was supplied. |
| `Catalog.Merge` | src/controllers/food.js:89-92 | Writing an update record into a document keeps its creation time, and an empty record changes nothing. |
| `Catalog.MergeValid` | src/controllers/food.js:89-92 | Writing trimmed, non-empty texts into a valid document keeps it valid. |
| `Catalog.FoodStore.Create` | src/controllers/food.js:14-40 | 400 when name or description is falsy or the price is not a non-negative number. 500 when a text is not a string or is blank. Otherwise 201: the trimmed name and description, the price, `isAvailable` if it is a boolean (else true) and the creation time are stored under a fresh id, and nothing else changes. |
| `Catalog.FoodStore.Update` | src/controllers/food.js:42-103 | 400 for a malformed id, for any supplied field failing its check, or when no field is supplied; all of these come before the lookup, then 404 for an unknown id. On 200 only the supplied fields of that document change (texts trimmed); its `createdAt` and every other document stay. Nothing changes on an error. |
| `Catalog.FoodStore.Delete` | src/controllers/food.js:105-130 | Soft delete: 400 for a malformed id, 404 for an unknown one. On 200 the document stays with `isAvailable` false and every other field unchanged, so deleting twice gives the same state. |
| `Carts.QuantityArg` | src/controllers/cart.js:7-22 | The quantity defaults to 1 when absent. Otherwise it is accepted exactly when it is an integer ≥ 1, and then it is that integer. |
| `Carts.FindLine` | src/controllers/cart.js:40-42 | `find` returns the index of the first line for the food, or -1 exactly when no line holds it. |
| `Carts.AddLineAt` | src/controllers/cart.js:44-45 | When the food has a line, the merge increases that line's quantity by exactly the added quantity, in place. No other line changes and the line count stays. |
| `Carts.AddLineAppends` | src/controllers/cart.js:46-48 | When the food has no line, the merge appends one new line at the end and the existing lines stay. |
| `Carts.AddLineFoods` | src/controllers/cart.js:40-48 | After the merge the cart holds the foods it held before, plus the added one. |
| `Carts.AddLineValid` | src/controllers/cart.js:40-48 | The merge keeps food ids unique within the cart and quantities ≥ 1. |
| `Carts.AddLineLength` | src/controllers/cart.js:40-48 | The merge adds a line exactly when the food was not yet in the cart. |
| `Carts.AddLineTwice` | src/controllers/cart.js:40-48 | Adding q1 and then q2 of a food is the same as adding q1 + q2 once. |
| `Carts.AddTwiceToEmpty` | src/controllers/cart.js:33-48 | Starting from no cart, adding a food twice leaves a single line with the summed quantity. |
| `IdText.AsWrittenDuplicatesLine` | src/controllers/cart.js:13-48 | With the comparison as written, a cart holding one line for a food, and a request naming the same ObjectId in upper-case hex, ends with two lines for that ObjectId. |
| `IdText.IntendedTexts` | src/controllers/cart.js:40-48 | With the intended comparison, the merged cart's stored ids are the old ones plus the request's ObjectId. |
| `IdText.IntendedKeepsOneLinePerId` | src/controllers/cart.js:40-48 | With the intended comparison, a cart holding one line per ObjectId keeps one line per ObjectId, whatever case the request uses. |
| `IdText.IntendedAgreesOnCanonical` | src/controllers/cart.js:40-48 | For a request whose id is already lower-case, the intended merge and the merge as written give the same cart. |
| `Carts.CartStore.Add` | src/controllers/cart.js:5-62 | 400 for missing or malformed ids or a bad quantity; 404 for an unknown food; 409 for an unavailable one. In all three cases the cart store is unchanged. On 200 the user's cart becomes the merge of its old lines (no lines if it had no cart) with the food and quantity. Other users' carts are untouched and stored carts stay valid. |
| `Carts.CartStore.Get` | src/controllers/cart.js:64-86 | 400 for a malformed id. Otherwise 200 with the user's lines, or no lines for a user without a cart; nothing is stored. |
| `Carts.CartStore.Clear` | src/controllers/cart.js:88-107 | 400 for a malformed id. On 200 the user's cart has no lines, created if absent (upsert). Other users' carts are untouched, and clearing twice gives the same state. |
| `Orders.UnavailableLines` | src/controllers/order.js:28-29 | The filter keeps exactly the cart lines whose food is missing or unavailable. It is empty exactly when every line is in stock. |
| `Orders.UnavailableSingle` | src/controllers/order.js:28-29 | The filter of a single line is that line when its food is missing or unavailable, and nothing otherwise. |
| `Orders.UnavailableAppend` | src/controllers/order.js:28-29 | The filter of two concatenated carts is the filter of the first followed by the filter of the second. With `UnavailableSingle`, the result keeps cart order and holds each unavailable line once, where it stands in the cart. |
| `Orders.Report` | src/controllers/order.js:30-36 | One report entry per unavailable line, with the food's id and name. Both are absent when the food no longer exists. |
| `Orders.Snapshot` | src/controllers/order.js:39-48 | One order line per cart line, in the same order. Each copies the food id, the food's current name and price, and the quantity, with subtotal = price × quantity. |
| `Orders.TotalAppend` | src/controllers/order.js:50 | The `reduce` total of two runs of lines is the sum of their totals. |
| `Orders.TotalOfSnapshot` | src/controllers/order.js:39-50 | The order total equals the cart's value at the prices read when the order was placed. |
| `Orders.SubtotalWithinTotal` | src/controllers/order.js:50 | Each line's subtotal is at most the order total. |
| `Orders.PlacedConsistent` | src/controllers/order.js:52-57 | An order placed from a valid cart whose foods are all in stock is `Pending` and has one line per cart line. Its lines are valid (quantity ≥ 1, non-empty name), subtotals are price × quantity, the total is their sum, and `cancelledBy` is absent. |
| `Orders.Lookup` | src/controllers/order.js:100 | `includes`: it finds a status of the list with the given name, or reports that none has it. |
| `Orders.ParseStatus` | src/controllers/order.js:100-105 | A requested status is accepted exactly when it is the stored name of one of the six statuses, and then it is that status. Falsy and non-string values are refused. |
| `Orders.AdvanceRule` | src/controllers/order.js:112-130 | An update is refused exactly when the order is Completed or Cancelled, a same-status update included. From any other status every target is reached. A cancellation records `cancelledBy` "admin" exactly when the actor is "admin", else "customer". Any other target leaves `cancelledBy` alone. User, lines and total never change. |
| `Orders.AdvanceConsistent` | src/controllers/order.js:118-130 | A status update keeps an order consistent, in particular `cancelledBy` being present exactly on a cancelled order. |
| `Orders.TerminalIsFinal` | src/controllers/order.js:112-116 | Once an order is Completed or Cancelled, no series of update requests changes it. |
| `Orders.ReplayKeepsSnapshot` | src/controllers/order.js:118-130 | No series of update requests changes an order's user, lines or total. |
| `Orders.ReplayConsistent` | src/controllers/order.js:112-130 | A series of update requests keeps a consistent order consistent. |
| `Orders.OrderStore.Place` | src/controllers/order.js:7-70 | 400 for a missing or malformed user id, or for a missing or empty cart. 409 when any line is out of stock, reporting exactly those lines. In both cases no order is created and the carts are unchanged. Otherwise 201: a Pending order with the cart's snapshot and total is stored under a fresh id, and that user's cart, alone, is emptied. |
| `Orders.OrderStore.Get` | src/controllers/order.js:72-89 | 400 for a malformed id, 404 for an unknown one, otherwise 200 with the stored order. |
| `Orders.OrderStore.UpdateStatus` | src/controllers/order.js:91-137 | 400 for a malformed id or a status outside `ORDER_STATUSES`, before any lookup. Then 404 for an unknown id and 409 for a terminal order; nothing changes in any of these. On 200 the order takes one `Advance` step and stored orders stay consistent. |
| `AuthValidation.SignupHasContact` | src/validations/auth.js:3-13 | An accepted signup (name ≥ 2 characters, password ≥ 6, a valid e-mail or a phone ≥ 10 characters when present, and one of them truthy) has a non-empty valid address or a phone of at least 10 characters. |
| `AuthValidation.SignupEmailResendable` | src/validations/auth.js:7-17 | The e-mail address of an accepted signup is one the resend schema accepts. |
| `AuthController.VerifiedIffPhoneOnly` | src/controllers/auth.js:5 | Among accepted signups, one with an e-mail address starts unverified. One without an address starts verified and has a phone of at least 10 characters. |

## Left out

- HTTP routing, response bodies and messages: only the status code and the returned data are modelled. The catch-all 500 for a store that fails or is unreachable is also left out, because the model treats every store read and write as succeeding.
- Resolving foods for display (`populate`): `CartStore.Get` returns the cart's unpopulated lines (food ids and quantities), and `CartStore.Add` and `CartStore.Clear` return only the status code.
- `updatedAt` timestamps: they are not read by any controller.
- The text form of ObjectIds, outside `IdText`: the controllers' `ObjectId.isValid` checks are abstracted into `IdArg`, which treats every spelling of an id as that id. So `CartStore.Add` and `Carts.AddLineValid` keep one line per food even for an upper-case id. The source, as written, then appends a duplicate line. `IdText` and the finding below model that case.
- Floating-point prices and quantities: JSON numbers are integers here. A fractional quantity (refused by `Number.isInteger`) and a fractional price (accepted by the source) cannot be expressed.
- String lengths in `z.string().min(n)`: JavaScript counts UTF-16 code units, and here a string is a sequence of code points.
- The e-mail syntax check and the validation library's error details: `isEmail` is a parameter and acceptance is a predicate.
- The account controllers beyond the one rule `isVerified = !email`:
  - src/controllers/auth.js runs its user creation at module scope against an undefined variable.
  - The verify, login and resend controllers that its routes import are not defined in it.
  - One-time codes, password hashing, tokens and the duplicate-account check are not part of this model.
- Concurrency: order creation and the cart clear are one sequential step, and double submits and interleaved requests are not modelled.
- The Cart and User schemas: src/models/Cart.js and src/models/User.js are not part of this model. The cart is inferred from its use in the cart controller as a user id with a list of (food, quantity) lines.
- Missing foods: placing an order handles a cart line whose food does not exist, as the code does. No operation here removes a food, since delete is a soft delete. But `CartStore.Add` and `OrderStore.Place` each take any catalog, and no invariant ties the cart store to one `FoodStore`. So nothing here proves that every cart line names a stored food.

## Findings

| source | as written | input that shows it | evidently intended | confidence | as-written member | corrected member |
|---|---|---|---|---|---|---|
| src/controllers/cart.js:41 | `item.food.toString() === foodId` compares the stored id's lower-case hex text with the request's text as sent. `ObjectId.isValid` (line 15) and `Food.findById` (line 24) accept the id in either case. | A cart with one line for food `aaaaaaaaaaaaaaaaaaaaaaaa`, then an add of `AAAAAAAAAAAAAAAAAAAAAAAA`: `find` misses, and `push` (line 47) stores a second line for the same food. | Compare ObjectIds (for example with `item.food.equals(foodId)`), so each food has at most one line. | medium, not executed | `IdText.AddLineAsWritten`, `IdText.AsWrittenDuplicatesLine` | `IdText.AddLineIntended`, `IdText.IntendedKeepsOneLinePerId` |
