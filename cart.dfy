/**
 * The cart's list transforms: each updater that the cart provider hands to
 * `setCartItems`, as a function of the previous list, and the two `reduce`
 * aggregates. Lines keep insertion order.
 */
module Cart {
  import opened Entities

  predicate HasId(s: seq<Line>, id: string) {
    exists i :: 0 <= i < |s| && s[i].id == id
  }

  predicate UniqueIds(s: seq<Line>) {
    forall i, j :: 0 <= i < j < |s| ==> s[i].id != s[j].id
  }

  predicate PositiveQuantities(s: seq<Line>) {
    forall i :: 0 <= i < |s| ==> s[i].quantity >= 1
  }

  /** The cart invariant: one line per id, no line with quantity below 1. */
  predicate WellFormed(s: seq<Line>) {
    UniqueIds(s) && PositiveQuantities(s)
  }

  // ---------------------------------------------------------------------------
  // The building blocks: find, map and filter over the previous list

  /** `prevItems.find(item => item.id === id)`, as the position of the first match. */
  function Find(s: seq<Line>, id: string): (r: Option<nat>)
    ensures r.Some? <==> HasId(s, id)
    ensures r.Some? ==> r.value < |s| && s[r.value].id == id
    ensures r.Some? ==> forall k :: 0 <= k < r.value ==> s[k].id != id
  {
    if s == [] then None
    else if s[0].id == id then Some(0)
    else
      match Find(s[1..], id)
      case None =>
        assert forall i :: 1 <= i < |s| ==> s[i] == s[1..][i - 1];
        None
      case Some(k) => Some(k + 1)
  }

  /** With unique ids, the first match is the only one. */
  lemma FindUnique(s: seq<Line>, id: string, j: nat)
    requires UniqueIds(s) && j < |s| && s[j].id == id
    ensures Find(s, id) == Some(j)
  {
  }

  /** `prevItems.map(item => item.id === id ? { ...item, quantity: item.quantity + delta } : item)` */
  function Adjust(s: seq<Line>, id: string, delta: int): (r: seq<Line>)
    ensures |r| == |s|
    ensures forall i :: 0 <= i < |s| ==>
      r[i].id == s[i].id && r[i].name == s[i].name && r[i].price == s[i].price
    ensures forall i :: 0 <= i < |s| && s[i].id != id ==> r[i] == s[i]
    ensures forall i :: 0 <= i < |s| && s[i].id == id ==> r[i].quantity == s[i].quantity + delta
  {
    seq(|s|, i requires 0 <= i < |s| =>
      if s[i].id == id then s[i].(quantity := s[i].quantity + delta) else s[i])
  }

  /** With unique ids the map changes exactly one line, in place. */
  lemma AdjustAt(s: seq<Line>, id: string, delta: int, j: nat)
    requires UniqueIds(s) && j < |s| && s[j].id == id
    ensures Adjust(s, id, delta) == s[j := s[j].(quantity := s[j].quantity + delta)]
  {
  }

  /** When no line has the id, the map changes nothing. */
  lemma AdjustAbsent(s: seq<Line>, id: string, delta: int)
    requires !HasId(s, id)
    ensures Adjust(s, id, delta) == s
  {
  }

  /** `prevItems.filter(item => item.id !== id)` */
  function Without(s: seq<Line>, id: string): (r: seq<Line>)
    ensures |r| <= |s|
    ensures HasId(s, id) ==> |r| < |s|
    ensures forall i :: 0 <= i < |r| ==> r[i].id != id
  {
    if s == [] then []
    else (if s[0].id == id then [] else [s[0]]) + Without(s[1..], id)
  }

  /** The `filter` keeps exactly the lines whose id differs, whatever ids
      the other lines carry. */
  lemma {:induction false} WithoutKeeps(s: seq<Line>, id: string)
    ensures forall l :: l in Without(s, id) <==> l in s && l.id != id
  {
    if s != [] {
      WithoutKeeps(s[1..], id);
      assert s == [s[0]] + s[1..];
      assert Without(s, id) == (if s[0].id == id then [] else [s[0]]) + Without(s[1..], id);
    }
  }

  lemma {:induction false} WithoutAbsent(s: seq<Line>, id: string)
    requires !HasId(s, id)
    ensures Without(s, id) == s
  {
    if s != [] {
      assert s[0].id != id;
      assert !HasId(s[1..], id) by {
        forall i | 0 <= i < |s[1..]| ensures s[1..][i].id != id {
          assert s[1..][i] == s[i + 1];
        }
      }
      WithoutAbsent(s[1..], id);
      assert s == [s[0]] + s[1..];
    }
  }

  /** With unique ids the filter drops exactly the one matching line and
      keeps the others in their order. */
  lemma {:induction false} WithoutAt(s: seq<Line>, id: string, j: nat)
    requires UniqueIds(s) && j < |s| && s[j].id == id
    ensures Without(s, id) == s[..j] + s[j + 1..]
  {
    if j == 0 {
      assert !HasId(s[1..], id) by {
        forall i | 0 <= i < |s[1..]| ensures s[1..][i].id != id {
          assert s[1..][i] == s[i + 1];
        }
      }
      WithoutAbsent(s[1..], id);
      assert Without(s, id) == Without(s[1..], id);
      assert s[..0] + s[1..] == s[1..];
    } else {
      assert s[1..][j - 1] == s[j];
      WithoutAt(s[1..], id, j - 1);
      assert s[0].id != id by { assert s[0].id != s[j].id; }
      assert Without(s, id) == [s[0]] + Without(s[1..], id);
      assert s[..j] == [s[0]] + s[1..][..j - 1];
      assert s[j + 1..] == s[1..][j..];
    }
  }

  // ---------------------------------------------------------------------------
  // The cart operations

  /** `increaseQuantity(id)`. */
  function IncreaseQuantity(s: seq<Line>, id: string): (r: seq<Line>)
    ensures WellFormed(s) ==> WellFormed(r)
  {
    Adjust(s, id, 1)
  }

  /** `addToCart(product)`: a repeat add bumps the existing line, which keeps
      the fields of the first add; a new product is appended with quantity 1. */
  function AddToCart(s: seq<Line>, p: Product): (r: seq<Line>)
    ensures WellFormed(s) ==> WellFormed(r)
    ensures HasId(r, p.id)
    ensures |r| == if HasId(s, p.id) then |s| else |s| + 1
  {
    match Find(s, p.id)
    case Some(j) =>
      var r := IncreaseQuantity(s, p.id);
      assert r[j].id == p.id;
      r
    case None =>
      var r := s + [NewLine(p)];
      assert r[|s|].id == p.id;
      r
  }

  /** `decreaseQuantity(id)` and, with the same body, `removeFromCart(id)`.
      `item.quantity` is read from the found line without a check, so an
      absent id throws; hence the precondition. */
  function DecreaseQuantity(s: seq<Line>, id: string): (r: seq<Line>)
    requires HasId(s, id)
    ensures |r| < |s| <==> s[Find(s, id).value].quantity <= 1
  {
    var j := Find(s, id).value;
    if s[j].quantity > 1 then Adjust(s, id, -1) else Without(s, id)
  }

  /** `clearCart()`. */
  function ClearCart(): (r: seq<Line>)
    ensures |r| == 0
  {
    []
  }

  // ---------------------------------------------------------------------------
  // What each operation does to a well-formed cart

  /** A repeat add adds 1 to that line's quantity, keeps its stored price and
      every other line, and adds no line. */
  lemma AddExisting(s: seq<Line>, p: Product, j: nat)
    requires UniqueIds(s) && j < |s| && s[j].id == p.id
    ensures AddToCart(s, p) == s[j := s[j].(quantity := s[j].quantity + 1)]
    ensures AddToCart(s, p)[j].price == s[j].price
  {
    AdjustAt(s, p.id, 1, j);
  }

  /** A first add appends exactly one line, at the end, with quantity 1. */
  lemma AddNew(s: seq<Line>, p: Product)
    requires !HasId(s, p.id)
    ensures AddToCart(s, p) == s + [Line(p.id, p.name, Some(p.price), 1)]
  {
  }

  /** Increase on a present id adds 1 to that line only. */
  lemma IncreaseExisting(s: seq<Line>, id: string, j: nat)
    requires UniqueIds(s) && j < |s| && s[j].id == id
    ensures IncreaseQuantity(s, id) == s[j := s[j].(quantity := s[j].quantity + 1)]
  {
    AdjustAt(s, id, 1, j);
  }

  /** Increase on an absent id is a no-op: the map matches nothing. */
  lemma IncreaseAbsent(s: seq<Line>, id: string)
    requires !HasId(s, id)
    ensures IncreaseQuantity(s, id) == s
  {
    AdjustAbsent(s, id, 1);
  }

  /** Decrease (and remove): a quantity above 1 goes down by one in place, a
      quantity of 1 drops the line; the other lines keep their relative order. */
  lemma DecreaseAt(s: seq<Line>, id: string, j: nat)
    requires UniqueIds(s) && j < |s| && s[j].id == id
    ensures DecreaseQuantity(s, id) ==
      if s[j].quantity > 1 then s[j := s[j].(quantity := s[j].quantity - 1)]
      else s[..j] + s[j + 1..]
  {
    FindUnique(s, id, j);
    if s[j].quantity > 1 {
      AdjustAt(s, id, -1, j);
    } else {
      WithoutAt(s, id, j);
    }
  }

  /** Dropping a line from a well-formed cart leaves it well-formed. */
  lemma RemoveAtWellFormed(s: seq<Line>, j: nat)
    requires WellFormed(s) && j < |s|
    ensures WellFormed(s[..j] + s[j + 1..])
  {
    var r := s[..j] + s[j + 1..];
    assert forall a :: 0 <= a < |r| ==> r[a] == s[if a < j then a else a + 1];
  }

  lemma DecreasePreservesWellFormed(s: seq<Line>, id: string)
    requires WellFormed(s) && HasId(s, id)
    ensures WellFormed(DecreaseQuantity(s, id))
  {
    var j := Find(s, id).value;
    DecreaseAt(s, id, j);
    if s[j].quantity <= 1 {
      RemoveAtWellFormed(s, j);
    }
  }

  // ---------------------------------------------------------------------------
  // Aggregates: left folds over the lines, as `reduce` computes them

  function Sum(s: seq<Line>, f: Line -> int): int {
    if s == [] then 0 else Sum(s[..|s| - 1], f) + f(s[|s| - 1])
  }

  function Quantity(l: Line): int {
    l.quantity
  }

  /** The number `Number(item.price)` gives, or 0 for NaN. */
  function UnitPrice(l: Line): int {
    match l.price
    case None => 0
    case Some(p) => p
  }

  /** A line's contribution to the total: price × quantity, or 0 when the
      price is not numeric. */
  function Subtotal(l: Line): int {
    match l.price
    case None => 0
    case Some(p) => p * l.quantity
  }

  lemma {:induction false} SumAppend(a: seq<Line>, b: seq<Line>, f: Line -> int)
    ensures Sum(a + b, f) == Sum(a, f) + Sum(b, f)
  {
    if b == [] {
      assert a + b == a;
    } else {
      assert (a + b)[..|a + b| - 1] == a + b[..|b| - 1];
      SumAppend(a, b[..|b| - 1], f);
    }
  }

  lemma SumSplit(s: seq<Line>, j: nat, f: Line -> int)
    requires j < |s|
    ensures Sum(s, f) == Sum(s[..j], f) + f(s[j]) + Sum(s[j + 1..], f)
  {
    assert s == s[..j] + [s[j]] + s[j + 1..];
    SumAppend(s[..j] + [s[j]], s[j + 1..], f);
    SumAppend(s[..j], [s[j]], f);
    assert Sum([s[j]], f) == f(s[j]) by {
      assert [s[j]][..0] == [];
    }
  }

  /** Replacing one line changes the sum by the difference of the two terms. */
  lemma SumUpdate(s: seq<Line>, j: nat, x: Line, f: Line -> int)
    requires j < |s|
    ensures Sum(s[j := x], f) == Sum(s, f) - f(s[j]) + f(x)
  {
    var t := s[j := x];
    SumSplit(s, j, f);
    SumSplit(t, j, f);
    assert t[..j] == s[..j] && t[j + 1..] == s[j + 1..];
  }

  /** Dropping one line takes its term out of the sum. */
  lemma SumRemove(s: seq<Line>, j: nat, f: Line -> int)
    requires j < |s|
    ensures Sum(s[..j] + s[j + 1..], f) == Sum(s, f) - f(s[j])
  {
    SumSplit(s, j, f);
    SumAppend(s[..j], s[j + 1..], f);
  }

  lemma {:induction false} SumAtLeast(s: seq<Line>, f: Line -> int, k: int)
    ensures (forall i :: 0 <= i < |s| ==> f(s[i]) >= k) ==> Sum(s, f) >= k * |s|
  {
    if s != [] && forall i :: 0 <= i < |s| ==> f(s[i]) >= k {
      var init := s[..|s| - 1];
      assert forall i :: 0 <= i < |init| ==> init[i] == s[i];
      SumAtLeast(init, f, k);
    }
  }

  /** `getItemsCount()`: the sum of the quantities, which is at least the
      number of lines once every quantity is at least 1. */
  function ItemsCount(s: seq<Line>): (n: int)
    ensures PositiveQuantities(s) ==> n >= |s|
  {
    SumAtLeast(s, Quantity, 1);
    Sum(s, Quantity)
  }

  /** `getTotalPrice()`: the sum of price × quantity, a non-numeric price
      contributing 0. */
  function TotalPrice(s: seq<Line>): (t: int)
    ensures (forall i :: 0 <= i < |s| ==> UnitPrice(s[i]) >= 0 && s[i].quantity >= 0) ==> t >= 0
  {
    SumAtLeast(s, Subtotal, 0);
    Sum(s, Subtotal)
  }

  // ---------------------------------------------------------------------------
  // How the operations move the aggregates

  lemma ClearCartCount()
    ensures ClearCart() == [] && ItemsCount(ClearCart()) == 0 && TotalPrice(ClearCart()) == 0
  {
  }

  /** Every add raises the item count by exactly one, whether it merges or appends. */
  lemma AddToCartCount(s: seq<Line>, p: Product)
    requires UniqueIds(s)
    ensures ItemsCount(AddToCart(s, p)) == ItemsCount(s) + 1
  {
    match Find(s, p.id)
    case Some(j) =>
      AddExisting(s, p, j);
      SumUpdate(s, j, s[j].(quantity := s[j].quantity + 1), Quantity);
    case None =>
      SumAppend(s, [NewLine(p)], Quantity);
      assert [NewLine(p)][..0] == [];
  }

  /** The price one more unit of `p` adds: that of the line already in the
      cart if there is one, otherwise the product's. */
  function PriceCharged(s: seq<Line>, p: Product): int {
    match Find(s, p.id)
    case Some(j) => UnitPrice(s[j])
    case None => p.price
  }

  /** A repeat add raises the total by the line's stored unit price (the
      price of the first add), a first add by the product's price. */
  lemma AddToCartTotal(s: seq<Line>, p: Product)
    requires UniqueIds(s)
    ensures TotalPrice(AddToCart(s, p)) == TotalPrice(s) + PriceCharged(s, p)
  {
    match Find(s, p.id)
    case Some(j) =>
      var l := s[j].(quantity := s[j].quantity + 1);
      AddExisting(s, p, j);
      SumUpdate(s, j, l, Subtotal);
      assert Subtotal(l) == Subtotal(s[j]) + UnitPrice(s[j]) by {
        match s[j].price
        case None =>
        case Some(x) => assert x * (s[j].quantity + 1) == x * s[j].quantity + x;
      }
    case None =>
      SumAppend(s, [NewLine(p)], Subtotal);
      assert [NewLine(p)][..0] == [];
  }

  /** Increase raises the count by one when the line exists and leaves it
      alone otherwise. */
  lemma IncreaseCount(s: seq<Line>, id: string)
    requires UniqueIds(s)
    ensures ItemsCount(IncreaseQuantity(s, id)) == ItemsCount(s) + (if HasId(s, id) then 1 else 0)
  {
    match Find(s, id)
    case Some(j) =>
      IncreaseExisting(s, id, j);
      SumUpdate(s, j, s[j].(quantity := s[j].quantity + 1), Quantity);
    case None =>
      IncreaseAbsent(s, id);
  }

  /** Taking one unit off line `j` lowers the count by one and the total by
      that line's unit price. */
  lemma DecrementAggregates(s: seq<Line>, j: nat)
    requires j < |s|
    ensures ItemsCount(s[j := s[j].(quantity := s[j].quantity - 1)]) == ItemsCount(s) - 1
    ensures TotalPrice(s[j := s[j].(quantity := s[j].quantity - 1)]) == TotalPrice(s) - UnitPrice(s[j])
  {
    var l := s[j].(quantity := s[j].quantity - 1);
    SumUpdate(s, j, l, Quantity);
    SumUpdate(s, j, l, Subtotal);
    assert Subtotal(l) == Subtotal(s[j]) - UnitPrice(s[j]) by {
      match s[j].price
      case None =>
      case Some(x) => assert x * (s[j].quantity - 1) == x * s[j].quantity - x;
    }
  }

  /** Dropping a line of quantity 1 lowers the count by one and the total by
      that line's unit price. */
  lemma DropAggregates(s: seq<Line>, j: nat)
    requires j < |s| && s[j].quantity == 1
    ensures ItemsCount(s[..j] + s[j + 1..]) == ItemsCount(s) - 1
    ensures TotalPrice(s[..j] + s[j + 1..]) == TotalPrice(s) - UnitPrice(s[j])
  {
    SumRemove(s, j, Quantity);
    SumRemove(s, j, Subtotal);
  }

  /** On a well-formed cart, decrease (and remove) lower the count by exactly
      one and the total by that line's unit price, whichever branch runs. */
  lemma DecreaseAggregates(s: seq<Line>, id: string)
    requires WellFormed(s) && HasId(s, id)
    ensures ItemsCount(DecreaseQuantity(s, id)) == ItemsCount(s) - 1
    ensures TotalPrice(DecreaseQuantity(s, id)) == TotalPrice(s) - UnitPrice(s[Find(s, id).value])
  {
    var j := Find(s, id).value;
    DecreaseAt(s, id, j);
    if s[j].quantity > 1 {
      DecrementAggregates(s, j);
    } else {
      DropAggregates(s, j);
    }
  }

  /** The worked example, in three steps: add a product to the empty cart,
      add it again, then take one back. The count follows the quantity, the
      total follows price × quantity, and the decrease undoes the second add. */
  lemma FirstAdd(p: Product)
    ensures AddToCart([], p) == [NewLine(p)]
    ensures ItemsCount([NewLine(p)]) == 1 && TotalPrice([NewLine(p)]) == p.price
  {
    AddNew([], p);
    AddToCartCount([], p);
    AddToCartTotal([], p);
  }

  lemma SecondAdd(p: Product)
    ensures AddToCart([NewLine(p)], p) == [NewLine(p).(quantity := 2)]
    ensures ItemsCount([NewLine(p).(quantity := 2)]) == 2
    ensures TotalPrice([NewLine(p).(quantity := 2)]) == 2 * p.price
  {
    var s1 := [NewLine(p)];
    FirstAdd(p);
    AddExisting(s1, p, 0);
    assert s1[0 := s1[0].(quantity := 2)] == [NewLine(p).(quantity := 2)];
    AddToCartCount(s1, p);
    AddToCartTotal(s1, p);
    FindUnique(s1, p.id, 0);
    assert PriceCharged(s1, p) == p.price;
  }

  lemma DecreaseAfterSecondAdd(p: Product)
    ensures HasId([NewLine(p).(quantity := 2)], p.id)
    ensures DecreaseQuantity([NewLine(p).(quantity := 2)], p.id) == [NewLine(p)]
  {
    var s2 := [NewLine(p).(quantity := 2)];
    assert s2[0].id == p.id;
    DecreaseAt(s2, p.id, 0);
    assert s2[0 := s2[0].(quantity := 1)] == [NewLine(p)];
  }

  // ---------------------------------------------------------------------------
  // Any sequence of calls keeps the invariant

  /** One call through the cart context. */
  datatype Op =
    | Add(product: Product)
    | Increase(id: string)
    | Decrease(id: string)
    | Remove(id: string)
    | Clear

  /** The cart after one call, or None where the source throws (decrease or
      remove of an id that is not in the cart). */
  function Apply(s: seq<Line>, op: Op): (r: Option<seq<Line>>)
    ensures r.None? <==> (op.Decrease? || op.Remove?) && !HasId(s, op.id)
  {
    match op
    case Add(p) => Some(AddToCart(s, p))
    case Increase(id) => Some(IncreaseQuantity(s, id))
    case Decrease(id) => if HasId(s, id) then Some(DecreaseQuantity(s, id)) else None
    case Remove(id) => if HasId(s, id) then Some(DecreaseQuantity(s, id)) else None
    case Clear => Some(ClearCart())
  }

  /** The cart after a sequence of calls, or None if one of them throws. */
  function Run(s: seq<Line>, ops: seq<Op>): Option<seq<Line>>
    decreases |ops|
  {
    if ops == [] then Some(s)
    else
      match Apply(s, ops[0])
      case None => None
      case Some(s') => Run(s', ops[1..])
  }

  lemma ApplyPreservesWellFormed(s: seq<Line>, op: Op)
    requires WellFormed(s) && Apply(s, op).Some?
    ensures WellFormed(Apply(s, op).value)
  {
    match op
    case Decrease(id) => DecreasePreservesWellFormed(s, id);
    case Remove(id) => DecreasePreservesWellFormed(s, id);
    case _ =>
  }

  /** Starting from a well-formed cart (the empty one, say), ids stay unique
      and quantities stay at least 1 after every sequence of calls that does
      not throw. */
  lemma {:induction false} RunPreservesWellFormed(s: seq<Line>, ops: seq<Op>)
    requires WellFormed(s) && Run(s, ops).Some?
    ensures WellFormed(Run(s, ops).value)
    decreases |ops|
  {
    if ops != [] {
      ApplyPreservesWellFormed(s, ops[0]);
      RunPreservesWellFormed(Apply(s, ops[0]).value, ops[1..]);
    }
  }
}
