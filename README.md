# Storefront cart and catalog, modelled in Dafny

This project models the server-side shopping cart of a small storefront
backend, together with the catalog rules the cart depends on.

- **The cart store** is `CartRoutes.CartStore`: a map from session id to cart
  document, with the five handlers of `backend/routes/cart.js`.
  - GET returns the session's cart, or an empty one that is not stored.
  - POST /add creates the cart lazily, checks stock, and either merges into
    the product's line or appends a new line.
  - PUT /update removes a line at quantity 0. A positive quantity is
    re-checked against stock and refreshes the line's price.
  - DELETE /remove deletes one line. DELETE /clear empties the cart.
  - Every refused request returns before the save, so a refusal stores
    nothing.
- **The cart document** of `backend/models/Cart.js` is module `CartModel`:
  - the line and cart schemas;
  - the pre-save hook that recomputes `totalItems` and `totalAmount` as left
    folds over the lines;
  - the TTL horizon. A cart is stamped `expiresAt` at creation and is gone
    86400 seconds later. The model treats a cart past that horizon as absent
    whenever it is read.
- **The product record** of `backend/models/Product.js` is module
  `ProductModel`: its validators, its defaults and the `discountPercentage`
  virtual.
- **The deterministic parts of `backend/routes/products.js`** are module
  `ProductRoutes`:
  - how GET / turns its query into a filter, a sort and pagination figures;
  - how GET /:id reports an inactive product as not found;
  - how DELETE /:id deactivates a record instead of removing it.

Every stored cart satisfies `CartModel.WellFormed`, and each cart handler keeps
this as part of `CartStore.Valid`. This holds for product ids in their
canonical lower-case form, which is how the model compares them (see
"## Left out"):
- every line has quantity at least 1 and price at least 0;
- there is at most one line per product;
- the totals equal the folds over the lines, and neither total is negative.

Module `CartScenarios` is a client of the handlers. It follows one session
step by step from the handlers' contracts alone: first add, an add beyond
stock, an update after a price change, remove and clear, and a read after the
horizon.

Conventions:
- Money is integer cents.
- The rating and the exact discount ratio are `real`.
- Times are whole seconds.
- Each handler takes as parameters the clock (`now`), the catalog as the
  handler reads it (`catalog`) and, for POST /add, the session id that would
  be generated for a request without one (`freshId`).

No handler assigns `expiresAt`, so the horizon stays fixed at creation time
plus 86400 seconds; changes do not renew it.

## Model

| member | source | states |
|---|---|---|
| `CartRoutes.CartStore.constructor` | backend/models/Cart.js:24-48 | The store starts empty and valid. |
| `CartRoutes.CartStore.Save` | backend/models/Cart.js:50-55 | Saving keeps the cart's session, lines and expiry stamp and recomputes the totals as the folds over its lines. The totals are then no smaller than the number of lines and zero respectively. The document replaces whatever was stored under its session id, and the store stays valid. |
| `CartRoutes.CartStore.Get` | backend/routes/cart.js:14-35 | A session without a live cart reads as that session id with no lines, zero totals and no expiry stamp, and nothing is stored. A live cart reads as the stored document. Either way the totals equal the folds over the lines returned. |
| `CartRoutes.CartStore.Add` | backend/routes/cart.js:47-123 | A quantity below 1 is a ValidationError, and a missing or inactive product is ProductUnavailable. Otherwise the request is InsufficientStock exactly when the quantity, together with what the product's line already holds, exceeds the stock. If not refused, the cart (created empty at `now` when absent) gets the merged lines and keeps its session and expiry stamp. Afterwards the product's line holds no more than the stock. A refusal leaves the store unchanged, including any cart that would have been created. |
| `CartRoutes.MergeWithinStock` | backend/routes/cart.js:78-121 | The stock checks and the line work of POST /add. The result is InsufficientStock exactly when the stock is below the requested quantity plus the product's existing line. Otherwise it is the merged lines, which stay valid and one per product, with the product's line within stock. |
| `CartRoutes.FindOrCreate` | backend/routes/cart.js:86-94 | The cart POST /add starts from is well formed and filed under the request's session. A live cart is returned exactly as stored. When the session has no live cart, it is a new empty cart stamped `now`. |
| `CartRoutes.CartStore.Update` | backend/routes/cart.js:144-205 | The refusals and their order: a negative quantity, then no live cart, then no line for the product. Quantity 0 removes exactly that line, lowers the totals by its contribution, and leaves no line for the product. Otherwise: unavailable product, then stock below the quantity. If neither, that line gets the new quantity and the product's current price, every other line is unchanged, and the totals move by the difference. The session and expiry stamp are kept. A refusal stores nothing. |
| `CartRoutes.CartStore.Remove` | backend/routes/cart.js:224-260 | No live cart is CartNotFound, and no line for the product is ItemNotFound; both store nothing. Otherwise exactly that line is deleted and the other lines keep their order. The totals drop by the line's contribution, and no line for the product remains. |
| `CartRoutes.CartStore.Clear` | backend/routes/cart.js:279-292 | No live cart is CartNotFound and stores nothing. Otherwise the stored cart becomes one with no lines, both totals 0, the same session and the same expiry stamp. |
| `CartModel.NewCart` | backend/routes/cart.js:89-94 | A new cart has no lines, is stamped with its creation time and is well formed. |
| `CartModel.FindCart` | backend/models/Cart.js:41-45 | A cart is found exactly when it is stored and less than 86400 seconds have passed since its stamp. A cart past that horizon reads exactly as one that was never stored. |
| `CartModel.LineIndex` | backend/routes/cart.js:97-99 | The result is the first line for the product, or -1 exactly when no line is for it. |
| `CartModel.LineIndexOfDistinct` | backend/routes/cart.js:169-171 | With one line per product, the lookup of any line's product finds that very line. |
| `CartModel.RemoveAt` | backend/routes/cart.js:182 | Deleting position `i` keeps the lines before it and shifts the lines after it down by one, in order. |
| `CartModel.RemoveAtDistinct` | backend/routes/cart.js:259 | Deleting a line keeps one line per product and leaves no line for the removed product. |
| `CartModel.RemoveAtValid` | backend/models/Cart.js:9-19 | Deleting a line keeps every remaining line valid. |
| `CartModel.TotalsAppend` | backend/models/Cart.js:52-53 | Both folds distribute over concatenation of line sequences. |
| `CartModel.TotalsSplit` | backend/models/Cart.js:52-53 | Both totals are the lines before `i`, plus line `i`'s contribution, plus the lines after it. |
| `CartModel.TotalsRemoveAt` | backend/models/Cart.js:52-53 | Deleting a line lowers the item total by its quantity and the amount by its price times quantity. |
| `CartModel.TotalsReplaceAt` | backend/models/Cart.js:52-53 | Replacing a line changes each total by the new line's contribution minus the old one's. |
| `CartModel.TotalsRaiseQuantity` | backend/routes/cart.js:113 | Raising a line's quantity by `extra` at its own price adds `extra` items and `extra` times that price. |
| `CartModel.TotalsBounds` | backend/models/Cart.js:31-40 | With valid lines, the item total is at least the number of lines and the amount is non-negative. A cart with no lines has both totals 0. |
| `CartModel.MergeLineFacts` | backend/routes/cart.js:96-121 | Merging keeps the lines valid and one per product. The product's line holds the requested total. A new line takes the current price, and an existing line keeps its own price. No other line changes. The totals grow by exactly the requested quantity and that quantity times the line's price. |
| `CartModel.AppendNewLine` | backend/routes/cart.js:116-120 | Appending a valid line for a product without a line keeps the lines valid and one per product, and makes the new line that product's line. The totals grow by its quantity and its subtotal. |
| `CartModel.ReplaceLine` | backend/routes/cart.js:113 | Replacing a line by a valid one for the same product keeps the lines valid and one per product, and keeps the product's line in place. |
| `CartModel.TotalItems` | backend/models/Cart.js:52 | The item total: the sum of the line quantities, folded from the left from 0. Its properties are stated by the `Totals` lemmas. |
| `CartModel.TotalAmount` | backend/models/Cart.js:53 | The amount: the sum of price times quantity over the lines, folded from the left from 0. Its properties are stated by the `Totals` lemmas. |
| `CartModel.ValidItem` | backend/models/Cart.js:3-22 | The line schema: quantity at least 1 and price at least 0. |
| `CartModel.WellFormed` | backend/models/Cart.js:24-48 | A stored cart: valid lines, at most one line per product, totals equal to the folds, and neither total negative. |
| `CartModel.QuantityAfterAdd` | backend/routes/cart.js:101-103 | The quantity POST /add asks the product's line to hold. With valid lines it is at least the requested quantity, and strictly more exactly when the product already has a line. |
| `CartModel.MergeLine` | backend/routes/cart.js:101-121 | Without a line for the product, the merged lines are the old ones plus one new last line with the requested quantity and price. With a line, the length is unchanged. Either way, every other line is unchanged. |
| `CartRoutes.SessionFor` | backend/routes/cart.js:62-67 | A given non-empty session id is used as is. Any other result is the generated id. |
| `ProductModel.ValidProduct` | backend/models/Product.js:3-79 | The schema's validators: name 1 to 100 characters, description 1 to 500, price and original price non-negative, category one of the eight names, brand at most 50, rating in [0, 5], reviews and stock non-negative. |
| `ProductRoutes.Skip` | backend/routes/products.js:48 | The number of matching records a page skips: `(page - 1) * limit`. |
| `ProductRoutes.Matches` | backend/routes/products.js:23-41 | What the filter asks of a record: the active flag, the category, the price bounds and the featured flag. `BuildListQuery` proves it equal to what the query requests. |
| `ProductModel.NewProduct` | backend/models/Product.js:3-79 | A new record copies every given field. Omitted ones take image "", rating 4.5, no reviews, stock 0, active and not featured. The record passes the schema's validators exactly when the given fields do. |
| `ProductModel.DiscountPercentage` | backend/models/Product.js:89-94 | The discount is 0 unless an original price is given and exceeds the price. Otherwise it is within one half of the exact percentage saved, and for a valid record it lies in [0, 100]. |
| `ProductModel.RoundHalfUp` | backend/models/Product.js:91 | The result is the integer nearest to its argument, with halves rounded up. |
| `ProductModel.ExactPercentageBounds` | backend/models/Product.js:90-91 | A positive saving no larger than the original price is a percentage in (0, 100]. |
| `ProductRoutes.BuildListQuery` | backend/routes/products.js:10-45 | The filter always requires an active record. A category constraint is present exactly when a category other than "all" is given. A text search is present exactly when a search is given. The price bounds are exactly the given ones. A featured constraint is present exactly when featured is "true". The filter admits exactly the records the query asks for. The sort key defaults to createdAt, and the sort is ascending exactly when sortOrder is "asc" and descending otherwise. |
| `ProductRoutes.TotalPages` | backend/routes/products.js:59 | The page count is the fewest pages of `limit` records that hold every matching record. It is 0 exactly when nothing matches. |
| `ProductRoutes.Paginate` | backend/routes/products.js:61-70 | The pagination block reports the requested page (default 1), the page count for the limit (default 12) and the match count. `hasNext` holds when the page is before the last, and `hasPrev` when it is after the first. |
| `ProductRoutes.PageFlagsMeaning` | backend/routes/products.js:48 | `hasNext` holds exactly when matching records remain beyond the skipped ones plus this page, and `hasPrev` exactly when the page skips some records. |
| `ProductRoutes.PagesAreNonEmpty` | backend/routes/products.js:48-59 | Every page from the first to the last skips fewer records than match, so it starts at a matching record. |
| `ProductRoutes.ProductStore.constructor` | backend/models/Product.js:100 | The catalog store holds the given valid records. |
| `ProductRoutes.ProductStore.GetById` | backend/routes/products.js:126-147 | A product is returned exactly when it is stored and active. A missing id is NotFound, and an inactive record is NotAvailable. |
| `ProductRoutes.ProductStore.Delete` | backend/routes/products.js:257-275 | Delete is soft. It sets only the record's `isActive` to false, every other record and field is unchanged, and the set of ids stays the same. A missing id is NotFound and changes nothing. |

## Left out

- Identifier generation (`generateSessionId`, backend/routes/cart.js:9-11) uses randomness and the clock. The generated id is the parameter `freshId`.
- HTTP status codes, response bodies and `populate(...)` of the product fields are transport plumbing. Each refusal is a distinct error value instead.
- express-validator checks the id format and the types of body fields; those checks are not modelled. The quantity bounds are modelled, as ValidationError.
- The default `quantity = 1` at backend/routes/cart.js:62 is not modelled. The validator at line 50 rejects a missing quantity before it is read.
- The database `CastError` branch for malformed ids and the 500 answers for database failures are not modelled.
- Product ids are assumed to be in canonical lower-case hex. The id validator and `Product.findById` accept upper-case hex. The line lookup at backend/routes/cart.js:97-99 compares lower-case `toString()` forms with `===`, so an upper-case id for a product that already has a line would get a second line. The model compares ids as given strings and looks the catalog up by the same string, so it does not produce that duplicate.
- Quantities are assumed to arrive as JSON numbers. The form-encoded parser delivers strings, which the validators accept without converting. Add would then concatenate (`3 + "2"` is `"32"`) instead of adding. Update with `"0"` would skip the removal branch and fail on save.
- String lengths count characters, while the schema's `maxlength` counts UTF-16 code units. Names, descriptions and brands with characters outside the Basic Multilingual Plane can be accepted by the model but rejected by the schema.
- Query parsing by `parseInt`/`parseFloat` is not modelled. Numeric query values arrive already parsed, as `Some(n)` when present and non-empty.
- Paginate: a limit of 0 or less is excluded by its precondition. In JavaScript a limit of 0 gives an Infinity or NaN page count. A negative limit gives a negative page count, while the database reads `.limit(-n)` as n.
- Paginate: a page below 1 is not refused. The skip is then negative; the database rejects it and the route answers with an error. The model instead returns a pagination block with that page.
- The MongoDB `$text` search is not modelled. The filter records the search string, but `Matches` does not evaluate it.
- The database executes sort, skip and limit. Only the sort specification and the skip arithmetic are modelled.
- GET /categories, GET /featured and the POST and PUT product routes are outside the modelled core.
- The `specifications` map, `timestamps`, string trimming and the text index declarations are not modelled.
- Expiry is modelled as a check at read time against the horizon declared at backend/models/Cart.js:44. The background TTL reaper is not modelled, nor the second index with `expireAfterSeconds: 0` at backend/models/Cart.js:59.
- Concurrency between requests is not modelled. That includes the race between the stock check and the save; each handler is atomic.
- Save: it requires valid lines rather than modelling a schema validation failure during save, since every handler only saves lines it has checked.
- Add: its ensures states the merged lines, not the new totals. The totals follow from `CartStore.Valid` together with `CartModel.MergeLineFacts`, which states their exact increase.
- DiscountPercentage: rounding is exact rational arithmetic followed by round-half-up, not IEEE double division. Prices are cents, so the ratio is the same as in currency units.
