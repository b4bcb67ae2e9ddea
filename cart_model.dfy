/**
 * The cart document of one session (backend/models/Cart.js): its line items,
 * the totals the pre-save hook derives from them, the constraints the schema
 * checks on save, and the TTL horizon after which the cart is gone.
 *
 * Prices and amounts are integer cents; times are whole seconds.
 */
module CartModel {
  import opened Results
  import opened ProductModel

  /** The opaque key correlating a browser session with its cart. */
  type SessionId = string

  /** Seconds between a cart's `expiresAt` stamp and its removal by the TTL index. */
  const ExpireAfterSeconds: int := 86400

  /** One line of a cart: a product, how many of it, and the unit price captured for it. */
  datatype CartItem = CartItem(product: ProductId, quantity: int, price: int)

  datatype Cart = Cart(
    sessionId: SessionId,
    items: seq<CartItem>,
    totalAmount: int,
    totalItems: int,
    expiresAt: int)

  /** A cart document as `new Cart({ sessionId, items: [] })` builds it at time `now`. */
  function NewCart(sessionId: SessionId, now: int): (c: Cart)
    ensures c.sessionId == sessionId && c.items == [] && c.expiresAt == now
    ensures WellFormed(c)
  {
    Cart(sessionId, [], 0, 0, now)
  }

  /** `items.reduce((total, item) => total + item.quantity, 0)`, a fold from the left. */
  function TotalItems(items: seq<CartItem>): int {
    if items == [] then 0
    else TotalItems(items[..|items| - 1]) + items[|items| - 1].quantity
  }

  /** `items.reduce((total, item) => total + item.price * item.quantity, 0)`, a fold from the left. */
  function TotalAmount(items: seq<CartItem>): int {
    if items == [] then 0
    else TotalAmount(items[..|items| - 1]) + items[|items| - 1].price * items[|items| - 1].quantity
  }

  /** The line schema: quantity at least 1 and a non-negative price. */
  predicate ValidItem(item: CartItem) {
    item.quantity >= 1 && item.price >= 0
  }

  predicate ValidItems(items: seq<CartItem>) {
    forall k :: 0 <= k < |items| ==> ValidItem(items[k])
  }

  /** At most one line per product. */
  predicate DistinctProducts(items: seq<CartItem>) {
    forall j, k :: 0 <= j < k < |items| ==> items[j].product != items[k].product
  }

  /** Both totals are exactly the folds over the current lines. */
  predicate TotalsCurrent(c: Cart) {
    c.totalItems == TotalItems(c.items) && c.totalAmount == TotalAmount(c.items)
  }

  /**
   * What holds of every stored cart: valid lines, one line per product,
   * totals recomputed from the lines and, as the schema demands, never negative.
   */
  predicate WellFormed(c: Cart) {
    && ValidItems(c.items)
    && DistinctProducts(c.items)
    && TotalsCurrent(c)
    && c.totalAmount >= 0
    && c.totalItems >= 0
  }

  /** The instant from which the TTL index treats the cart as gone. */
  function Horizon(c: Cart): int {
    c.expiresAt + ExpireAfterSeconds
  }

  predicate Expired(c: Cart, now: int) {
    now >= Horizon(c)
  }

  /**
   * `Cart.findOne({ sessionId })` at time `now`: a cart past its horizon reads
   * exactly as one that was never created.
   */
  function FindCart(carts: map<SessionId, Cart>, sessionId: SessionId, now: int): (r: Option<Cart>)
    ensures r.Some? <==> sessionId in carts && now < carts[sessionId].expiresAt + ExpireAfterSeconds
    ensures r.Some? ==> r.value == carts[sessionId]
    ensures sessionId in carts && Expired(carts[sessionId], now) ==> r == FindCart(carts - {sessionId}, sessionId, now)
  {
    if sessionId in carts && !Expired(carts[sessionId], now) then Some(carts[sessionId]) else None
  }

  /** The first line for `product`, or -1 when the cart has none: `items.findIndex(...)`. */
  function LineIndex(items: seq<CartItem>, product: ProductId): (i: int)
    ensures -1 <= i < |items|
    ensures i == -1 <==> forall k :: 0 <= k < |items| ==> items[k].product != product
    ensures 0 <= i ==> items[i].product == product
    ensures 0 <= i ==> forall k :: 0 <= k < i ==> items[k].product != product
  {
    if items == [] then -1
    else if items[0].product == product then 0
    else
      var j := LineIndex(items[1..], product);
      if j == -1 then -1 else j + 1
  }

  /** `items.splice(i, 1)`: the lines before and after position `i`, in their order. */
  function RemoveAt(items: seq<CartItem>, i: int): (r: seq<CartItem>)
    requires 0 <= i < |items|
    ensures |r| == |items| - 1
    ensures forall k :: 0 <= k < i ==> r[k] == items[k]
    ensures forall k :: i <= k < |r| ==> r[k] == items[k + 1]
  {
    items[..i] + items[i + 1..]
  }

  /** In a cart with one line per product, the line found for a product is its only line. */
  lemma LineIndexOfDistinct(items: seq<CartItem>, k: int)
    requires DistinctProducts(items)
    requires 0 <= k < |items|
    ensures LineIndex(items, items[k].product) == k
  {
  }

  /** Both folds distribute over concatenation. */
  lemma {:induction false} TotalsAppend(a: seq<CartItem>, b: seq<CartItem>)
    ensures TotalItems(a + b) == TotalItems(a) + TotalItems(b)
    ensures TotalAmount(a + b) == TotalAmount(a) + TotalAmount(b)
  {
    if b == [] {
      assert a + b == a;
    } else {
      var b' := b[..|b| - 1];
      assert (a + b)[..|a + b| - 1] == a + b';
      TotalsAppend(a, b');
    }
  }

  /** Both totals split around line `i` into the lines before it, its own contribution, and the lines after it. */
  lemma TotalsSplit(items: seq<CartItem>, i: int)
    requires 0 <= i < |items|
    ensures TotalItems(items) == TotalItems(items[..i]) + items[i].quantity + TotalItems(items[i + 1..])
    ensures TotalAmount(items) == TotalAmount(items[..i]) + items[i].price * items[i].quantity + TotalAmount(items[i + 1..])
  {
    var pre, x, post := items[..i], items[i], items[i + 1..];
    assert items == (pre + [x]) + post;
    TotalsAppend(pre + [x], post);
    assert (pre + [x])[..|pre|] == pre;
  }

  /** Removing line `i` lowers the item count by its quantity and the amount by its subtotal. */
  lemma TotalsRemoveAt(items: seq<CartItem>, i: int)
    requires 0 <= i < |items|
    ensures TotalItems(RemoveAt(items, i)) == TotalItems(items) - items[i].quantity
    ensures TotalAmount(RemoveAt(items, i)) == TotalAmount(items) - items[i].price * items[i].quantity
  {
    TotalsSplit(items, i);
    TotalsAppend(items[..i], items[i + 1..]);
  }

  /** Replacing line `i` by `x` changes each total by the difference of the two lines' contributions. */
  lemma TotalsReplaceAt(items: seq<CartItem>, i: int, x: CartItem)
    requires 0 <= i < |items|
    ensures TotalItems(items[i := x]) == TotalItems(items) - items[i].quantity + x.quantity
    ensures TotalAmount(items[i := x]) == TotalAmount(items) - items[i].price * items[i].quantity + x.price * x.quantity
  {
    var replaced := items[i := x];
    TotalsSplit(items, i);
    TotalsSplit(replaced, i);
    assert replaced[..i] == items[..i];
    assert replaced[i + 1..] == items[i + 1..];
  }

  /** Raising line `i`'s quantity by `extra` at its own price adds `extra` items and `extra` times that price. */
  lemma TotalsRaiseQuantity(items: seq<CartItem>, i: int, extra: int)
    requires 0 <= i < |items|
    ensures var raised := items[i := items[i].(quantity := items[i].quantity + extra)];
      && TotalItems(raised) == TotalItems(items) + extra
      && TotalAmount(raised) == TotalAmount(items) + items[i].price * extra
  {
    var line := items[i].(quantity := items[i].quantity + extra);
    TotalsReplaceAt(items, i, line);
    assert line.price * line.quantity == items[i].price * items[i].quantity + items[i].price * extra;
  }

  /**
   * With valid lines, the item count is at least the number of lines and the
   * amount is never negative; an empty cart has both totals 0.
   */
  lemma {:induction false} TotalsBounds(items: seq<CartItem>)
    requires ValidItems(items)
    ensures TotalItems(items) >= |items|
    ensures TotalAmount(items) >= 0
    ensures items == [] ==> TotalItems(items) == 0 && TotalAmount(items) == 0
  {
    if items != [] {
      var init := items[..|items| - 1];
      assert ValidItems(init) by {
        forall k | 0 <= k < |init| ensures ValidItem(init[k]) {
          assert init[k] == items[k];
        }
      }
      TotalsBounds(init);
      assert ValidItem(items[|items| - 1]);
    }
  }

  /**
   * Removing line `i` of a cart with one line per product leaves one line per
   * product and no line at all for the removed product.
   */
  lemma RemoveAtDistinct(items: seq<CartItem>, i: int)
    requires DistinctProducts(items)
    requires 0 <= i < |items|
    ensures DistinctProducts(RemoveAt(items, i))
    ensures LineIndex(RemoveAt(items, i), items[i].product) == -1
  {
    var r := RemoveAt(items, i);
    forall j, k | 0 <= j < k < |r| ensures r[j].product != r[k].product {
      var j' := if j < i then j else j + 1;
      var k' := if k < i then k else k + 1;
      assert r[j] == items[j'] && r[k] == items[k'];
    }
    forall k | 0 <= k < |r| ensures r[k].product != items[i].product {
      var k' := if k < i then k else k + 1;
      assert r[k] == items[k'];
    }
  }

  /** Valid lines stay valid when one is removed. */
  lemma RemoveAtValid(items: seq<CartItem>, i: int)
    requires ValidItems(items)
    requires 0 <= i < |items|
    ensures ValidItems(RemoveAt(items, i))
  {
    var r := RemoveAt(items, i);
    forall k | 0 <= k < |r| ensures ValidItem(r[k]) {
      var k' := if k < i then k else k + 1;
      assert r[k] == items[k'];
    }
  }

  /** The quantity POST /add asks the product's line to hold: the existing line's plus the requested one. */
  function QuantityAfterAdd(items: seq<CartItem>, product: ProductId, quantity: int): (q: int)
    ensures ValidItems(items) ==> q >= quantity
    ensures ValidItems(items) ==> (q > quantity <==> LineIndex(items, product) != -1)
  {
    var i := LineIndex(items, product);
    if i == -1 then quantity else items[i].quantity + quantity
  }

  /**
   * The lines after a successful POST /add: a new last line at `price` when
   * the product has none, otherwise its line with the quantity raised and
   * the price it already had.
   */
  function MergeLine(items: seq<CartItem>, product: ProductId, quantity: int, price: int): (merged: seq<CartItem>)
    ensures LineIndex(items, product) == -1 ==> |merged| == |items| + 1 && merged[|items|] == CartItem(product, quantity, price)
    ensures LineIndex(items, product) != -1 ==> |merged| == |items|
    ensures forall k :: 0 <= k < |items| && k != LineIndex(items, product) ==> merged[k] == items[k]
  {
    var i := LineIndex(items, product);
    if i == -1 then items + [CartItem(product, quantity, price)]
    else items[i := items[i].(quantity := items[i].quantity + quantity)]
  }

  /**
   * Merging keeps the lines valid and one per product, leaves the product's
   * line holding the requested total quantity, never below the requested
   * quantity, changes no other line, and adds exactly `quantity` items and
   * `quantity` times the line's price to the totals.
   */
  lemma MergeLineFacts(items: seq<CartItem>, product: ProductId, quantity: int, price: int)
    requires ValidItems(items) && DistinctProducts(items)
    requires quantity >= 1 && price >= 0
    ensures var merged := MergeLine(items, product, quantity, price);
      var j := LineIndex(merged, product);
      && ValidItems(merged) && DistinctProducts(merged)
      && 0 <= j && merged[j].quantity == QuantityAfterAdd(items, product, quantity)
      && merged[j].price == (if LineIndex(items, product) == -1 then price else items[j].price)
      && QuantityAfterAdd(items, product, quantity) >= quantity
      && (forall k :: 0 <= k < |items| && k != j ==> merged[k] == items[k])
      && TotalItems(merged) == TotalItems(items) + quantity
      && TotalAmount(merged) == TotalAmount(items) + merged[j].price * quantity
  {
    var i := LineIndex(items, product);
    var merged := MergeLine(items, product, quantity, price);
    if i == -1 {
      var line := CartItem(product, quantity, price);
      assert merged == items + [line];
      AppendNewLine(items, line);
      assert LineIndex(merged, product) == |items|;
    } else {
      var line := items[i].(quantity := items[i].quantity + quantity);
      assert merged == items[i := line];
      assert ValidItem(items[i]);
      TotalsRaiseQuantity(items, i, quantity);
      ReplaceLine(items, i, line);
      assert LineIndex(merged, product) == i;
    }
  }

  /**
   * Appending a valid line for a product the cart has no line for keeps the
   * lines valid and one per product, makes it the product's line, and adds
   * its quantity and subtotal to the totals.
   */
  lemma AppendNewLine(items: seq<CartItem>, line: CartItem)
    requires ValidItems(items) && DistinctProducts(items)
    requires LineIndex(items, line.product) == -1
    requires ValidItem(line)
    ensures ValidItems(items + [line]) && DistinctProducts(items + [line])
    ensures LineIndex(items + [line], line.product) == |items|
    ensures TotalItems(items + [line]) == TotalItems(items) + line.quantity
    ensures TotalAmount(items + [line]) == TotalAmount(items) + line.price * line.quantity
  {
    var r := items + [line];
    assert r[..|items|] == items;
    forall j, k | 0 <= j < k < |r| ensures r[j].product != r[k].product {
      if k == |items| {
        assert r[j] == items[j];
      } else {
        assert r[j] == items[j] && r[k] == items[k];
      }
    }
    LineIndexOfDistinct(r, |items|);
  }

  /**
   * Replacing line `i` by a valid line for the same product keeps the lines
   * valid and one per product, and the product's line stays at `i`.
   */
  lemma ReplaceLine(items: seq<CartItem>, i: int, line: CartItem)
    requires ValidItems(items) && DistinctProducts(items)
    requires 0 <= i < |items| && line.product == items[i].product
    requires ValidItem(line)
    ensures ValidItems(items[i := line]) && DistinctProducts(items[i := line])
    ensures LineIndex(items[i := line], line.product) == i
  {
    var r := items[i := line];
    forall j, k | 0 <= j < k < |r| ensures r[j].product != r[k].product {
      assert r[j].product == items[j].product && r[k].product == items[k].product;
    }
    LineIndexOfDistinct(r, i);
  }
}
