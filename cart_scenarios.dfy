/**
 * A client of the cart handlers: a session's life with one product whose
 * price changes between requests, followed step by step from the handlers'
 * contracts alone.
 */
module CartScenarios {
  import opened Results
  import opened ProductModel
  import opened CartModel
  import opened CartRoutes

  /** An active "home" product with the given price (cents) and stock. */
  function Lamp(price: int, stock: int): Product {
    NewProduct(ProductInput("Desk lamp", "An adjustable desk lamp", price, "home",
      None, None, None, [], None, None, Some(stock), None, None, []))
  }

  /** The cart of session "s1" after 3 lamps at 10.00 were added to it at time `created`. */
  function ThreeLamps(created: int): Cart {
    Cart("s1", [CartItem("p1", 3, 1000)], 3000, 3, created)
  }

  /** A first read and a first add on a fresh session. */
  method FirstAdd(now: int) {
    var store := new CartStore();
    var catalog := map["p1" := Lamp(1000, 5)];
    assert ValidProduct(catalog["p1"]);

    // A session that never had a cart reads as an empty one.
    var v := store.Get("s1", now);
    assert v == CartView("s1", [], 0, 0, None);

    // Adding 3 of 5 in stock creates the cart with one line at the current price.
    assert FindOrCreate(store.carts, "s1", now) == NewCart("s1", now);
    assert QuantityAfterAdd([], "p1", 3) == 3;
    assert MergeLine([], "p1", 3, 1000) == [CartItem("p1", 3, 1000)];
    MergeLineFacts([], "p1", 3, 1000);
    var r := store.Add(Some("s1"), "generated", "p1", 3, catalog, now);
    assert r.Ok? && r.value.items == [CartItem("p1", 3, 1000)];
    assert r.value.totalItems == 3 && r.value.totalAmount == 3000;
    assert r == Ok(ThreeLamps(now));
  }

  /** 3 more lamps would make 6 of 5 in stock: refused, and nothing is stored. */
  method AddBeyondStock(store: CartStore, created: int, now: int)
    requires store.Valid() && store.carts == map["s1" := ThreeLamps(created)]
    requires created <= now < created + ExpireAfterSeconds
    modifies store
  {
    var catalog := map["p1" := Lamp(1000, 5)];
    assert ValidProduct(catalog["p1"]);
    assert LineIndex(ThreeLamps(created).items, "p1") == 0;
    assert QuantityAfterAdd(ThreeLamps(created).items, "p1", 3) == 6;
    var r := store.Add(Some("s1"), "generated", "p1", 3, catalog, now);
    assert r == Err(InsufficientStock);
    assert store.carts["s1"].items == [CartItem("p1", 3, 1000)];
  }

  /** After a price change, an update sets the quantity and refreshes the price. */
  method UpdateAfterPriceChange(store: CartStore, created: int, now: int)
    requires store.Valid() && store.carts == map["s1" := ThreeLamps(created)]
    requires created <= now < created + ExpireAfterSeconds
    modifies store
  {
    var catalog := map["p1" := Lamp(1200, 5)];
    assert ValidProduct(catalog["p1"]);
    var r := store.Update("s1", "p1", 2, catalog, now);
    assert LineIndex(ThreeLamps(created).items, "p1") == 0;
    assert r.Ok? && r.value.items == [CartItem("p1", 2, 1200)];
    assert r.value.totalAmount == 2400 && r.value.totalItems == 2;
  }

  /** Removing an absent product is refused; clearing leaves an empty cart with zero totals. */
  method RemoveAbsentThenClear(store: CartStore, created: int, now: int)
    requires store.Valid() && store.carts == map["s1" := ThreeLamps(created)]
    requires created <= now < created + ExpireAfterSeconds - 1
    modifies store
  {
    var r := store.Remove("s1", "p2", now);
    assert LineIndex(ThreeLamps(created).items, "p2") == -1;
    assert r == Err(ItemNotFound);
    r := store.Clear("s1", now);
    var v := store.Get("s1", now + 1);
    assert v.items == [] && v.totalItems == 0 && v.totalAmount == 0;
  }

  /** One day after creation the cart reads as never created, and an update finds no cart. */
  method AfterHorizon(store: CartStore, created: int)
    requires store.Valid() && store.carts == map["s1" := ThreeLamps(created)]
    modifies store
  {
    var later := created + ExpireAfterSeconds;
    var v := store.Get("s1", later);
    assert v == CartView("s1", [], 0, 0, None);
    var catalog := map["p1" := Lamp(1000, 5)];
    assert ValidProduct(catalog["p1"]);
    var r := store.Update("s1", "p1", 1, catalog, later);
    assert r == Err(CartNotFound);
  }
}
