/** The cart line shared by the two client-side carts (the store and the
    module-level cart), and the quantity sum both of them are reasoned about
    with. Prices are integers in minor currency units. */
module CartLines {

  /** One line of a cart: a snapshot of a menu item plus how many of it. */
  datatype CartItem = CartItem(
    menuItemId: string,
    restaurantId: string,
    name: string,
    price: int,
    quantity: int)

  /** Sum of the quantities of all lines, first line first. */
  function TotalQuantity(items: seq<CartItem>): int
  {
    if items == [] then 0 else items[0].quantity + TotalQuantity(items[1..])
  }

  /** The quantity sum splits over concatenation. */
  lemma {:induction false} TotalQuantityAppend(a: seq<CartItem>, b: seq<CartItem>)
    ensures TotalQuantity(a + b) == TotalQuantity(a) + TotalQuantity(b)
  {
    if a == [] {
      assert a + b == b;
    } else {
      assert (a + b)[1..] == a[1..] + b;
      TotalQuantityAppend(a[1..], b);
    }
  }

  /** Changing the quantity of one line by `delta` changes the sum by `delta`. */
  lemma {:induction false} TotalQuantityUpdate(items: seq<CartItem>, k: nat, delta: int)
    requires k < |items|
    ensures TotalQuantity(items[k := items[k].(quantity := items[k].quantity + delta)])
         == TotalQuantity(items) + delta
  {
    var updated := items[k := items[k].(quantity := items[k].quantity + delta)];
    if k == 0 {
      assert updated[1..] == items[1..];
    } else {
      assert updated[1..] == items[1..][k - 1 := items[k].(quantity := items[k].quantity + delta)];
      TotalQuantityUpdate(items[1..], k - 1, delta);
    }
  }
}
