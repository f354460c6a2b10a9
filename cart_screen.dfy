/**
 * The cart screen's checkout: a login guard, an empty-cart guard, then the
 * cart appended as one order to the order list in the store, and the cart
 * cleared once the order is written and the confirmation is acknowledged.
 * Failures of the store and the buttons pressed in the alerts are inputs.
 */
module Checkout {
  import opened Entities
  import opened KeyValue
  import opened CartProvider
  import Cart

  const OrdersKey: string := "@orders"

  /** `existingOrders ? JSON.parse(existingOrders) : []`: None is a parse
      failure (a stored value that is not an order list). */
  function ParseOrders(stored: Option<Doc>): (r: Option<seq<seq<Line>>>)
    ensures !Truthy(stored) ==> r == Some([])
    ensures Truthy(stored) ==> (r.Some? <==> stored.value.OrderList?)
    ensures r.Some? && Truthy(stored) ==> r.value == stored.value.orders
  {
    if !Truthy(stored) then Some([])
    else if stored.value.OrderList? then Some(stored.value.orders)
    else None
  }

  /** What the environment decides during one checkout: the button pressed in
      the login alert, whether the read and the write of the order list
      succeed, and whether the "Order Placed" alert's OK is pressed. */
  datatype Choices = Choices(loginPressed: bool, readOk: bool, writeOk: bool, okPressed: bool)

  datatype Outcome = LoginRequired | EmptyCart | OrderPlaced | SaveFailed

  /** What checkout reads and changes: the screen's login flag, the cart, and the store. */
  datatype Screen = Screen(loggedIn: bool, cart: seq<Line>, entries: Entries)

  datatype CheckoutResult = CheckoutResult(outcome: Outcome, after: Screen)

  /** `handleCheckout()` as one guarded step. */
  function Checkout(st: Screen, c: Choices): (r: CheckoutResult)
    // Not logged in: only the login flag may change, and only to true.
    ensures !st.loggedIn ==>
      r.outcome == LoginRequired && r.after.cart == st.cart && r.after.entries == st.entries &&
      r.after.loggedIn == c.loginPressed
    // The login guard comes first, then the empty-cart guard.
    ensures st.loggedIn && st.cart == [] ==> r.outcome == EmptyCart && r.after == st
    ensures r.outcome == OrderPlaced <==>
      st.loggedIn && st.cart != [] && c.readOk && c.writeOk &&
      ParseOrders(Get(st.entries, OrdersKey)).Some?
    // On success the order list in the store is the old one plus this cart.
    ensures r.outcome == OrderPlaced ==>
      Get(r.after.entries, OrdersKey) ==
        Some(OrderList(ParseOrders(Get(st.entries, OrdersKey)).value + [st.cart]))
    // Any failure leaves the cart and the store as they were.
    ensures st.loggedIn && st.cart != [] && r.outcome != OrderPlaced ==> r.outcome == SaveFailed && r.after == st
    ensures r.outcome != OrderPlaced ==> r.after.cart == st.cart && r.after.entries == st.entries
    // The cart is only ever cleared, and only after the order was written.
    ensures r.after.cart != st.cart ==> r.outcome == OrderPlaced && c.okPressed && r.after.cart == []
    // A placed order acknowledged with OK empties the cart and removes the stored cart.
    ensures r.outcome == OrderPlaced ==>
      r.after.loggedIn &&
      r.after.cart == (if c.okPressed then [] else st.cart) &&
      Get(r.after.entries, CartKey) == (if c.okPressed then None else Get(st.entries, CartKey))
    // No key other than the order list and the cart is touched.
    ensures forall k :: k != OrdersKey && k != CartKey ==> Get(r.after.entries, k) == Get(st.entries, k)
  {
    if !st.loggedIn then
      CheckoutResult(LoginRequired, st.(loggedIn := c.loginPressed))
    else if st.cart == [] then
      CheckoutResult(EmptyCart, st)
    else if !c.readOk then
      CheckoutResult(SaveFailed, st)
    else
      match ParseOrders(Get(st.entries, OrdersKey))
      case None => CheckoutResult(SaveFailed, st)
      case Some(orders) =>
        if !c.writeOk then CheckoutResult(SaveFailed, st)
        else
          var written := st.entries[OrdersKey := OrderList(orders + [st.cart])];
          if c.okPressed then CheckoutResult(OrderPlaced, Screen(true, [], SaveCart(written, [])))
          else CheckoutResult(OrderPlaced, st.(entries := written))
  }

  /** A placed order grows the stored order list by exactly one entry, the
      cart, and leaves the earlier orders unchanged and in order. */
  lemma LedgerAppend(st: Screen, c: Choices)
    requires Checkout(st, c).outcome == OrderPlaced
    ensures var before := ParseOrders(Get(st.entries, OrdersKey)).value;
            var after := Get(Checkout(st, c).after.entries, OrdersKey).value.orders;
            |after| == |before| + 1 && after[..|before|] == before && after[|before|] == st.cart
  {
    var before := ParseOrders(Get(st.entries, OrdersKey)).value;
    assert Get(Checkout(st, c).after.entries, OrdersKey).value.orders == before + [st.cart];
    assert (before + [st.cart])[..|before|] == before;
  }

  /** A store without an order list checks out as a first order. */
  lemma FirstOrder(st: Screen, c: Choices)
    requires OrdersKey !in st.entries
    requires st.loggedIn && st.cart != [] && c.readOk && c.writeOk
    ensures Get(Checkout(st, c).after.entries, OrdersKey) == Some(OrderList([st.cart]))
  {
    assert [] + [st.cart] == [st.cart];
  }

  class CartScreen {
    var isLoggedIn: bool
    const cart: CartStore

    constructor (cart: CartStore)
      ensures this.cart == cart && !isLoggedIn
    {
      this.cart := cart;
      isLoggedIn := false;
    }

    ghost function State(): Screen
      reads this, cart, cart.storage
    {
      Screen(isLoggedIn, cart.items, cart.storage.entries)
    }

    method HandleCheckout(c: Choices) returns (outcome: Outcome)
      modifies this, cart, cart.storage
      ensures CheckoutResult(outcome, State()) == Checkout(old(State()), c)
      ensures old(cart.Synced()) ==> cart.Synced()
    {
      if !isLoggedIn {
        if c.loginPressed {
          isLoggedIn := true;
        }
        return LoginRequired;
      }
      if |cart.items| == 0 {
        return EmptyCart;
      }
      if !c.readOk {
        return SaveFailed;
      }
      var parsed := ParseOrders(Get(cart.storage.entries, OrdersKey));
      if parsed.None? {
        return SaveFailed;
      }
      var newOrders := parsed.value + [cart.items];
      if !c.writeOk {
        return SaveFailed;
      }
      cart.storage.SetItem(OrdersKey, OrderList(newOrders));
      if c.okPressed {
        cart.ClearCart();
      }
      return OrderPlaced;
    }
  }

  /** The end-to-end scenario: add a product twice, take one back, then check
      out, logging in at the first attempt. The cart ends empty, with count
      and total 0, and the store holds the one-line cart as the only order. */
  method EndToEndScenario(p: Product) returns (count: int, total: int, orders: Option<Doc>)
    ensures count == 0 && total == 0
    ensures orders == Some(OrderList([[NewLine(p)]]))
  {
    var storage := new Storage(map[]);
    var store := new CartStore.Mount(storage, true);
    assert Get(storage.entries, OrdersKey) == None;
    Cart.FirstAdd(p);
    Cart.SecondAdd(p);
    Cart.DecreaseAfterSecondAdd(p);
    Cart.ClearCartCount();

    store.AddToCart(p);
    var n := store.GetItemsCount();
    var t := store.GetTotalPrice();
    assert n == 1 && t == p.price;
    assert Get(storage.entries, OrdersKey) == None;

    store.AddToCart(p);
    n := store.GetItemsCount();
    t := store.GetTotalPrice();
    assert n == 2 && t == 2 * p.price;
    assert Get(storage.entries, OrdersKey) == None;

    store.DecreaseQuantity(p.id);
    n := store.GetItemsCount();
    t := store.GetTotalPrice();
    assert store.items == [NewLine(p)] && n == 1 && t == p.price;
    assert Get(storage.entries, OrdersKey) == None;

    CheckoutScenario(store);
    count := store.GetItemsCount();
    total := store.GetTotalPrice();
    orders := Get(storage.entries, OrdersKey);
  }

  /** The checkout half of the scenario: the first attempt only logs in,
      the second places the cart as the first order and empties the cart. */
  method CheckoutScenario(store: CartStore)
    requires store.items != [] && OrdersKey !in store.storage.entries
    modifies store, store.storage
    ensures store.items == []
    ensures Get(store.storage.entries, OrdersKey) == Some(OrderList([old(store.items)]))
  {
    ghost var cart := store.items;
    var screen := new CartScreen(store);
    var outcome := screen.HandleCheckout(Choices(true, true, true, true));
    assert outcome == LoginRequired && store.items == cart;

    ghost var before := screen.State();
    var placing := Choices(false, true, true, true);
    FirstOrder(before, placing);
    outcome := screen.HandleCheckout(placing);
    assert outcome == OrderPlaced;
  }
}
