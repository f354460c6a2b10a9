/**
 * The cart provider: the live `cartItems` list, replaced through
 * `setCartItems`, and the two effects that tie it to the store. The save
 * effect is applied synchronously after every change.
 */
module CartProvider {
  import opened Entities
  import opened KeyValue
  import Cart

  const CartKey: string := "@myapp_cart"

  /** The save effect: a non-empty cart is written under the cart key, an
      empty one removes the key. No other key is touched. */
  function SaveCart(m: Entries, items: seq<Line>): (r: Entries)
    ensures forall k :: k != CartKey ==> Get(r, k) == Get(m, k)
    ensures Get(r, CartKey) == if items == [] then None else Some(CartLines(items))
  {
    if |items| > 0 then m[CartKey := CartLines(items)] else m - {CartKey}
  }

  /** The load effect on first mount, starting from the empty cart: a
      truthy value that parses as a cart replaces it; a missing key, a failed
      read or a value that does not parse leaves it empty. */
  function LoadCart(stored: Option<Doc>, readOk: bool): (items: seq<Line>)
    ensures items != [] ==> readOk && stored == Some(CartLines(items))
    ensures readOk && stored.Some? && stored.value.CartLines? ==> items == stored.value.lines
  {
    if readOk && Truthy(stored) && stored.value.CartLines? then stored.value.lines else []
  }

  /** Saving any cart, of 0 or more lines, and loading it back gives the same cart. */
  lemma SaveThenLoad(m: Entries, items: seq<Line>)
    ensures LoadCart(Get(SaveCart(m, items), CartKey), true) == items
  {
  }

  /** A store that holds no cart key loads as the empty cart. */
  lemma LoadMissing(m: Entries, readOk: bool)
    requires CartKey !in m
    ensures LoadCart(Get(m, CartKey), readOk) == []
  {
  }

  class CartStore {
    var items: seq<Line>
    const storage: Storage

    /** The stored cart mirrors the live one. */
    ghost predicate Synced()
      reads this, storage
    {
      Get(storage.entries, CartKey) == if items == [] then None else Some(CartLines(items))
    }

    /** First mount: the load effect, then the save effect on what was loaded. */
    constructor Mount(storage: Storage, readOk: bool)
      modifies storage
      ensures this.storage == storage
      ensures items == LoadCart(Get(old(storage.entries), CartKey), readOk)
      ensures storage.entries == SaveCart(old(storage.entries), items)
      ensures Synced()
    {
      this.storage := storage;
      items := LoadCart(Get(storage.entries, CartKey), readOk);
      new;
      Save();
    }

    /** The save effect. */
    method Save()
      modifies storage
      ensures storage.entries == SaveCart(old(storage.entries), items)
      ensures Synced()
    {
      if |items| > 0 {
        storage.SetItem(CartKey, CartLines(items));
      } else {
        storage.RemoveItem(CartKey);
      }
    }

    method AddToCart(p: Product)
      modifies this, storage
      ensures items == Cart.AddToCart(old(items), p)
      ensures storage.entries == SaveCart(old(storage.entries), items)
      ensures Synced()
    {
      items := Cart.AddToCart(items, p);
      Save();
    }

    method IncreaseQuantity(id: string)
      modifies this, storage
      ensures items == Cart.IncreaseQuantity(old(items), id)
      ensures storage.entries == SaveCart(old(storage.entries), items)
      ensures Synced()
    {
      items := Cart.IncreaseQuantity(items, id);
      Save();
    }

    method DecreaseQuantity(id: string)
      requires Cart.HasId(items, id)
      modifies this, storage
      ensures items == Cart.DecreaseQuantity(old(items), id)
      ensures storage.entries == SaveCart(old(storage.entries), items)
      ensures Synced()
    {
      items := Cart.DecreaseQuantity(items, id);
      Save();
    }

    /** Same body as DecreaseQuantity in the source, so the same update. */
    method RemoveFromCart(id: string)
      requires Cart.HasId(items, id)
      modifies this, storage
      ensures items == Cart.DecreaseQuantity(old(items), id)
      ensures storage.entries == SaveCart(old(storage.entries), items)
      ensures Synced()
    {
      items := Cart.DecreaseQuantity(items, id);
      Save();
    }

    method ClearCart()
      modifies this, storage
      ensures items == []
      ensures storage.entries == old(storage.entries) - {CartKey}
      ensures Synced()
    {
      items := Cart.ClearCart();
      Save();
    }

    method GetItemsCount() returns (n: int)
      ensures n == Cart.ItemsCount(items)
      ensures Cart.PositiveQuantities(items) ==> n >= |items|
    {
      n := Cart.ItemsCount(items);
    }

    method GetTotalPrice() returns (t: int)
      ensures t == Cart.TotalPrice(items)
    {
      t := Cart.TotalPrice(items);
    }
  }
}
