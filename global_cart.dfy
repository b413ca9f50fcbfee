/** The module-level cart: one mutable array of lines shared by every caller,
    keyed by the pair (`menuItemId`, `restaurantId`). A repeated add raises the
    existing line by the incoming quantity. */
module GlobalCart {
  import opened Options
  import opened CartLines

  /** `c` is the line `addToCart` merges `item` into. */
  predicate Matches(c: CartItem, item: CartItem)
  {
    c.menuItemId == item.menuItemId && c.restaurantId == item.restaurantId
  }

  /** No two lines share a (`menuItemId`, `restaurantId`) pair. */
  predicate DistinctKeys(cart: seq<CartItem>)
  {
    forall i, j :: 0 <= i < j < |cart| ==> !Matches(cart[i], cart[j])
  }

  /** What `find` returns: the position of the first matching line, if any. */
  function FirstMatch(cart: seq<CartItem>, item: CartItem): (r: Option<nat>)
    ensures r.Some? ==> r.value < |cart| && Matches(cart[r.value], item)
                        && forall j :: 0 <= j < r.value ==> !Matches(cart[j], item)
    ensures r.None? ==> forall j :: 0 <= j < |cart| ==> !Matches(cart[j], item)
  {
    if cart == [] then None
    else if Matches(cart[0], item) then Some(0)
    else match FirstMatch(cart[1..], item)
      case Some(k) => Some(k + 1)
      case None => None
  }

  /** The cart `addToCart(item)` leaves behind. */
  function Added(cart: seq<CartItem>, item: CartItem): (r: seq<CartItem>)
    ensures FirstMatch(r, item).Some?
    ensures |r| == |cart| || |r| == |cart| + 1
  {
    match FirstMatch(cart, item)
    case Some(k) =>
      var r := cart[k := cart[k].(quantity := cart[k].quantity + item.quantity)];
      assert Matches(r[k], item);
      r
    case None =>
      var r := cart + [item];
      assert Matches(r[|cart|], item);
      r
  }

  /** The module's `cart` variable and the three functions over it. */
  class Cart {
    var cart: seq<CartItem>

    /** The module starts with an empty cart. */
    constructor ()
      ensures cart == []
    {
      cart := [];
    }

    /** `getCart` hands out the current lines and changes nothing. */
    method GetCart() returns (r: seq<CartItem>)
      ensures r == cart
    {
      r := cart;
    }

    /** `clearCart` replaces the lines with an empty cart. */
    method ClearCart()
      modifies this
      ensures cart == []
    {
      cart := [];
    }

    /** `addToCart`: find the first line with the same item and restaurant;
        raise it by `item.quantity`, or append `item` when there is none. */
    method AddToCart(item: CartItem)
      modifies this
      ensures cart == Added(old(cart), item)
    {
      var i := 0;
      while i < |cart| && !Matches(cart[i], item)
        invariant 0 <= i <= |cart|
        invariant forall j :: 0 <= j < i ==> !Matches(cart[j], item)
      {
        i := i + 1;
      }
      if i < |cart| {
        cart := cart[i := cart[i].(quantity := cart[i].quantity + item.quantity)];
      } else {
        cart := cart + [item];
      }
    }
  }

  /** After `clearCart`, `getCart` returns an empty cart. */
  method ClearThenGet(c: Cart) returns (r: seq<CartItem>)
    modifies c
    ensures r == []
  {
    c.ClearCart();
    r := c.GetCart();
  }

  /** With a matching line at `k` (the first one), the add raises that line by
      `item.quantity`, keeps its own name, price and keys, keeps the length and
      leaves every other line as it was. */
  lemma AddedMatch(cart: seq<CartItem>, item: CartItem, k: nat)
    requires k < |cart| && Matches(cart[k], item)
    requires forall j :: 0 <= j < k ==> !Matches(cart[j], item)
    ensures var r := Added(cart, item);
      |r| == |cart|
      && r[k].quantity == cart[k].quantity + item.quantity
      && r[k].menuItemId == cart[k].menuItemId && r[k].restaurantId == cart[k].restaurantId
      && r[k].name == cart[k].name && r[k].price == cart[k].price
      && forall j :: 0 <= j < |cart| && j != k ==> r[j] == cart[j]
  {
    var m := FirstMatch(cart, item);
    assert m.Some?;
    assert m.value == k;
  }

  /** With no matching line, the item is appended after the unchanged lines. */
  lemma AddedNoMatch(cart: seq<CartItem>, item: CartItem)
    requires forall j :: 0 <= j < |cart| ==> !Matches(cart[j], item)
    ensures var r := Added(cart, item);
      |r| == |cart| + 1 && r[..|cart|] == cart && r[|cart|] == item
  {
    assert (cart + [item])[..|cart|] == cart;
  }

  /** The same menu item from a different restaurant is not merged into
      line `k`: that line stays as it was, and when no line matches the pair
      the item gets a line of its own at the end. */
  lemma AddedOtherRestaurant(cart: seq<CartItem>, item: CartItem, k: nat)
    requires k < |cart| && cart[k].menuItemId == item.menuItemId
    requires cart[k].restaurantId != item.restaurantId
    ensures Added(cart, item)[k] == cart[k]
    ensures FirstMatch(cart, item).None? ==>
      |Added(cart, item)| == |cart| + 1 && Added(cart, item)[|cart|] == item
  {
  }

  /** The total quantity grows by exactly `item.quantity`, whatever its sign. */
  lemma AddedTotal(cart: seq<CartItem>, item: CartItem)
    ensures TotalQuantity(Added(cart, item)) == TotalQuantity(cart) + item.quantity
  {
    match FirstMatch(cart, item)
    case Some(k) =>
      TotalQuantityUpdate(cart, k, item.quantity);
    case None =>
      TotalQuantityAppend(cart, [item]);
      assert TotalQuantity([item]) == item.quantity;
  }

  /** Distinct (`menuItemId`, `restaurantId`) pairs stay distinct. */
  lemma AddedKeepsDistinct(cart: seq<CartItem>, item: CartItem)
    requires DistinctKeys(cart)
    ensures DistinctKeys(Added(cart, item))
  {
    var r := Added(cart, item);
    match FirstMatch(cart, item)
    case Some(k) =>
      forall i, j | 0 <= i < j < |r| ensures !Matches(r[i], r[j]) {
        assert Matches(r[i], r[j]) <==> Matches(cart[i], cart[j]);
      }
    case None =>
      forall i, j | 0 <= i < j < |r| ensures !Matches(r[i], r[j]) {
        if j == |cart| {
          assert r[i] == cart[i] && r[j] == item;
        } else {
          assert r[i] == cart[i] && r[j] == cart[j];
        }
      }
  }
}
