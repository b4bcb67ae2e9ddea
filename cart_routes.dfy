/**
 * The cart handlers of backend/routes/cart.js over the store of cart
 * documents. Each handler reads the session's cart, changes its lines, and
 * saves it through the pre-save hook of backend/models/Cart.js; every
 * rejection returns before the save, so nothing of a rejected request is
 * stored.
 *
 * The clock (`now`), the catalog as the handler reads it (`catalog`) and the
 * session id that would be generated for a request without one (`freshId`)
 * are parameters.
 */
module CartRoutes {
  import opened Results
  import opened ProductModel
  import opened CartModel

  /** The distinct ways a cart request is refused. */
  datatype CartError =
    | ValidationError
    | ProductUnavailable
    | InsufficientStock
    | CartNotFound
    | ItemNotFound

  /**
   * What GET answers: the stored cart's fields, or for a session without a
   * live cart an empty cart that carries no expiry stamp.
   */
  datatype CartView = CartView(
    sessionId: SessionId,
    items: seq<CartItem>,
    totalAmount: int,
    totalItems: int,
    expiresAt: Option<int>)

  function View(c: Cart): CartView {
    CartView(c.sessionId, c.items, c.totalAmount, c.totalItems, Some(c.expiresAt))
  }

  /** The session a POST /add request works on: the given one, or a fresh one when it is absent or empty. */
  function SessionFor(sessionId: Option<SessionId>, freshId: SessionId): (s: SessionId)
    ensures sessionId.Some? && sessionId.value != "" ==> s == sessionId.value
    ensures s != freshId ==> sessionId.Some? && s == sessionId.value && s != ""
  {
    if sessionId.None? || sessionId.value == "" then freshId else sessionId.value
  }

  /** The product exists and is active. */
  predicate Available(catalog: Catalog, productId: ProductId) {
    productId in catalog && catalog[productId].isActive
  }

  /** The cart POST /add starts from: the live cart, or a new empty one stamped `now`. */
  function FindOrCreate(carts: map<SessionId, Cart>, sessionId: SessionId, now: int): (c: Cart)
    requires sessionId in carts ==> carts[sessionId].sessionId == sessionId && WellFormed(carts[sessionId])
    ensures c.sessionId == sessionId && WellFormed(c)
    ensures FindCart(carts, sessionId, now).Some? ==> c == carts[sessionId]
    ensures FindCart(carts, sessionId, now).None? ==> c.items == [] && c.expiresAt == now
  {
    match FindCart(carts, sessionId, now)
    case Some(c) => c
    case None => NewCart(sessionId, now)
  }

  /**
   * The line work of POST /add on a cart's lines, for an available product:
   * refused when the requested quantity alone, or added to the product's
   * existing line, exceeds the stock; otherwise the merged lines, whose line
   * for the product then holds no more than the stock.
   */
  method MergeWithinStock(items: seq<CartItem>, productId: ProductId, quantity: int, product: Product)
    returns (r: Result<seq<CartItem>, CartError>)
    requires ValidItems(items) && DistinctProducts(items)
    requires quantity >= 1 && product.price >= 0
    ensures if product.stock < QuantityAfterAdd(items, productId, quantity) then r == Err(InsufficientStock)
      else r == Ok(MergeLine(items, productId, quantity, product.price))
    ensures r.Ok? ==> ValidItems(r.value) && DistinctProducts(r.value)
    ensures r.Ok? ==>
      var j := LineIndex(r.value, productId);
      0 <= j && r.value[j].quantity <= product.stock
  {
    MergeLineFacts(items, productId, quantity, product.price);
    if product.stock < quantity {
      return Err(InsufficientStock);
    }
    var i := LineIndex(items, productId);
    if i > -1 {
      var newQuantity := items[i].quantity + quantity;
      if product.stock < newQuantity {
        return Err(InsufficientStock);
      }
      r := Ok(items[i := items[i].(quantity := newQuantity)]);
    } else {
      r := Ok(items + [CartItem(productId, quantity, product.price)]);
    }
  }

  class CartStore {
    /** The persisted cart documents, keyed by their unique session id. */
    var carts: map<SessionId, Cart>

    /** Each stored cart is filed under its own session id and is well formed. */
    ghost predicate Valid()
      reads this
    {
      forall s :: s in carts ==> carts[s].sessionId == s && WellFormed(carts[s])
    }

    constructor ()
      ensures Valid() && carts == map[]
    {
      carts := map[];
    }

    /**
     * `cart.save()`: the pre-save hook recomputes both totals from the lines,
     * then the document replaces whatever was stored under its session id.
     */
    method Save(cart: Cart) returns (saved: Cart)
      requires Valid()
      requires ValidItems(cart.items) && DistinctProducts(cart.items)
      modifies this
      ensures Valid()
      ensures saved.sessionId == cart.sessionId && saved.items == cart.items && saved.expiresAt == cart.expiresAt
      ensures saved.totalItems == TotalItems(cart.items) && saved.totalAmount == TotalAmount(cart.items)
      ensures saved.totalItems >= |cart.items| && saved.totalAmount >= 0
      ensures carts == old(carts)[cart.sessionId := saved]
    {
      saved := cart;
      saved := saved.(totalItems := TotalItems(saved.items));
      saved := saved.(totalAmount := TotalAmount(saved.items));
      TotalsBounds(saved.items);
      carts := carts[saved.sessionId := saved];
    }

    /**
     * GET /:sessionId. A session without a live cart (never created, or past
     * its horizon) reads as an empty cart with zero totals, which is not stored.
     */
    method Get(sessionId: SessionId, now: int) returns (v: CartView)
      requires Valid()
      ensures FindCart(carts, sessionId, now).None? ==> v == CartView(sessionId, [], 0, 0, None)
      ensures FindCart(carts, sessionId, now).Some? ==> v == View(carts[sessionId])
      ensures v.sessionId == sessionId
      ensures v.totalItems == TotalItems(v.items) && v.totalAmount == TotalAmount(v.items)
    {
      var cart := FindCart(carts, sessionId, now);
      if cart.None? {
        return CartView(sessionId, [], 0, 0, None);
      }
      v := View(cart.value);
    }

    /**
     * POST /add. Rejects a quantity below 1, a missing or inactive product,
     * and a request whose quantity (added to the existing line's, if any)
     * exceeds the stock. Otherwise the cart (created if the session has no
     * live one) gets a new last line at the current price, or its existing
     * line for the product has its quantity raised and its price kept.
     */
    method Add(sessionId: Option<SessionId>, freshId: SessionId, productId: ProductId, quantity: int,
               catalog: Catalog, now: int) returns (r: Result<Cart, CartError>)
      requires Valid() && ValidCatalog(catalog)
      modifies this
      ensures Valid()
      ensures r.Err? ==> carts == old(carts)
      ensures quantity < 1 ==> r == Err(ValidationError)
      ensures quantity >= 1 && !Available(catalog, productId) ==> r == Err(ProductUnavailable)
      ensures quantity >= 1 && Available(catalog, productId) ==>
        var base := FindOrCreate(old(carts), SessionFor(sessionId, freshId), now);
        if catalog[productId].stock < QuantityAfterAdd(base.items, productId, quantity) then r == Err(InsufficientStock)
        else
          && r.Ok?
          && r.value.sessionId == base.sessionId
          && r.value.expiresAt == base.expiresAt
          && r.value.items == MergeLine(base.items, productId, quantity, catalog[productId].price)
      ensures r.Ok? ==> carts == old(carts)[r.value.sessionId := r.value]
      ensures r.Ok? ==>
        var j := LineIndex(r.value.items, productId);
        0 <= j && r.value.items[j].quantity <= catalog[productId].stock
    {
      if quantity < 1 {
        return Err(ValidationError);
      }
      var sid := SessionFor(sessionId, freshId);
      if productId !in catalog || !catalog[productId].isActive {
        return Err(ProductUnavailable);
      }
      var product := catalog[productId];
      var cart := FindOrCreate(carts, sid, now);
      var merged := MergeWithinStock(cart.items, productId, quantity, product);
      if merged.Err? {
        return Err(merged.error);
      }
      var saved := Save(cart.(items := merged.value));
      r := Ok(saved);
    }

    /**
     * PUT /update. Rejects a negative quantity, a session without a live cart
     * and a product without a line in it. Quantity 0 removes that line. A
     * positive quantity is checked against the product's availability and
     * stock, then becomes the line's quantity and the line's price is
     * refreshed to the product's current price; other lines are unchanged.
     */
    method Update(sessionId: SessionId, productId: ProductId, quantity: int, catalog: Catalog, now: int)
      returns (r: Result<Cart, CartError>)
      requires Valid() && ValidCatalog(catalog)
      modifies this
      ensures Valid()
      ensures r.Err? ==> carts == old(carts)
      ensures quantity < 0 ==> r == Err(ValidationError)
      ensures quantity >= 0 && FindCart(old(carts), sessionId, now).None? ==> r == Err(CartNotFound)
      ensures quantity >= 0 && FindCart(old(carts), sessionId, now).Some? ==>
        var cart := old(carts)[sessionId];
        var i := LineIndex(cart.items, productId);
        if i == -1 then r == Err(ItemNotFound)
        else if quantity == 0 then
          && r.Ok?
          && r.value.items == RemoveAt(cart.items, i)
          && r.value.totalItems == cart.totalItems - cart.items[i].quantity
          && r.value.totalAmount == cart.totalAmount - cart.items[i].price * cart.items[i].quantity
        else if !Available(catalog, productId) then r == Err(ProductUnavailable)
        else if catalog[productId].stock < quantity then r == Err(InsufficientStock)
        else
          && r.Ok?
          && r.value.items == cart.items[i := CartItem(productId, quantity, catalog[productId].price)]
          && r.value.totalItems == cart.totalItems - cart.items[i].quantity + quantity
          && r.value.totalAmount == cart.totalAmount - cart.items[i].price * cart.items[i].quantity + catalog[productId].price * quantity
      ensures r.Ok? ==> r.value.sessionId == sessionId && r.value.expiresAt == old(carts)[sessionId].expiresAt
      ensures r.Ok? ==> carts == old(carts)[sessionId := r.value]
      ensures r.Ok? && quantity > 0 ==>
        var j := LineIndex(r.value.items, productId);
        0 <= j && r.value.items[j].quantity <= catalog[productId].stock
      ensures r.Ok? && quantity == 0 ==> LineIndex(r.value.items, productId) == -1
    {
      if quantity < 0 {
        return Err(ValidationError);
      }
      var found := FindCart(carts, sessionId, now);
      if found.None? {
        return Err(CartNotFound);
      }
      var cart := found.value;
      var i := LineIndex(cart.items, productId);
      if i == -1 {
        return Err(ItemNotFound);
      }
      if quantity == 0 {
        TotalsRemoveAt(cart.items, i);
        RemoveAtDistinct(cart.items, i);
        RemoveAtValid(cart.items, i);
        cart := cart.(items := RemoveAt(cart.items, i));
      } else {
        if productId !in catalog || !catalog[productId].isActive {
          return Err(ProductUnavailable);
        }
        var product := catalog[productId];
        if product.stock < quantity {
          return Err(InsufficientStock);
        }
        var line := cart.items[i].(quantity := quantity, price := product.price);
        TotalsReplaceAt(cart.items, i, line);
        cart := cart.(items := cart.items[i := line]);
        LineIndexOfDistinct(cart.items, i);
      }
      var saved := Save(cart);
      r := Ok(saved);
    }

    /**
     * DELETE /remove. Rejects a session without a live cart and a product
     * without a line in it; otherwise deletes exactly that line, keeping the
     * other lines in their order.
     */
    method Remove(sessionId: SessionId, productId: ProductId, now: int) returns (r: Result<Cart, CartError>)
      requires Valid()
      modifies this
      ensures Valid()
      ensures r.Err? ==> carts == old(carts)
      ensures FindCart(old(carts), sessionId, now).None? ==> r == Err(CartNotFound)
      ensures FindCart(old(carts), sessionId, now).Some? ==>
        var cart := old(carts)[sessionId];
        var i := LineIndex(cart.items, productId);
        if i == -1 then r == Err(ItemNotFound)
        else
          && r.Ok?
          && r.value.items == RemoveAt(cart.items, i)
          && r.value.totalItems == cart.totalItems - cart.items[i].quantity
          && r.value.totalAmount == cart.totalAmount - cart.items[i].price * cart.items[i].quantity
      ensures r.Ok? ==> r.value.sessionId == sessionId && r.value.expiresAt == old(carts)[sessionId].expiresAt
      ensures r.Ok? ==> carts == old(carts)[sessionId := r.value]
      ensures r.Ok? ==> LineIndex(r.value.items, productId) == -1
    {
      var found := FindCart(carts, sessionId, now);
      if found.None? {
        return Err(CartNotFound);
      }
      var cart := found.value;
      var i := LineIndex(cart.items, productId);
      if i == -1 {
        return Err(ItemNotFound);
      }
      TotalsRemoveAt(cart.items, i);
      RemoveAtDistinct(cart.items, i);
      RemoveAtValid(cart.items, i);
      cart := cart.(items := RemoveAt(cart.items, i));
      var saved := Save(cart);
      r := Ok(saved);
    }

    /**
     * DELETE /clear/:sessionId. Rejects a session without a live cart;
     * otherwise empties its lines, after which both totals are 0.
     */
    method Clear(sessionId: SessionId, now: int) returns (r: Result<Cart, CartError>)
      requires Valid()
      modifies this
      ensures Valid()
      ensures FindCart(old(carts), sessionId, now).None? ==> r == Err(CartNotFound) && carts == old(carts)
      ensures FindCart(old(carts), sessionId, now).Some? ==>
        && r.Ok?
        && r.value == Cart(sessionId, [], 0, 0, old(carts)[sessionId].expiresAt)
        && carts == old(carts)[sessionId := r.value]
    {
      var found := FindCart(carts, sessionId, now);
      if found.None? {
        return Err(CartNotFound);
      }
      var cart := found.value.(items := []);
      var saved := Save(cart);
      r := Ok(saved);
    }
  }
}
