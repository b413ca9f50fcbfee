/** The reducers of the cart store: each action computes a new `items` list
    from the old one, and the store replaces its single `items` field with it.
    Lines are keyed by `menuItemId` alone. */
module CartStore {
  import opened CartLines

  /** What `addItem` receives: a cart item without a quantity. */
  datatype NewItem = NewItem(menuItemId: string, restaurantId: string, name: string, price: int)

  /** The store's state when it is created. */
  const InitialItems: seq<CartItem> := []

  predicate HasId(items: seq<CartItem>, id: string)
  {
    exists i :: 0 <= i < |items| && items[i].menuItemId == id
  }

  /** Number of lines carrying `id`. */
  function CountId(items: seq<CartItem>, id: string): nat
  {
    if items == [] then 0
    else (if items[0].menuItemId == id then 1 else 0) + CountId(items[1..], id)
  }

  /** No two lines share a `menuItemId`. */
  predicate DistinctIds(items: seq<CartItem>)
  {
    forall i, j :: 0 <= i < j < |items| ==> items[i].menuItemId != items[j].menuItemId
  }

  /** Every line holds at least one unit. */
  predicate AllPositive(items: seq<CartItem>)
  {
    forall i :: 0 <= i < |items| ==> items[i].quantity >= 1
  }

  /** Two lines agree on everything but their quantity. */
  predicate SameSnapshot(a: CartItem, b: CartItem)
  {
    a.menuItemId == b.menuItemId && a.restaurantId == b.restaurantId
    && a.name == b.name && a.price == b.price
  }

  /** The line a first `addItem` of `item` appends. */
  function FreshLine(item: NewItem): (r: CartItem)
    ensures r.quantity == 1
    ensures r.menuItemId == item.menuItemId && r.restaurantId == item.restaurantId
    ensures r.name == item.name && r.price == item.price
  {
    CartItem(item.menuItemId, item.restaurantId, item.name, item.price, 1)
  }

  /** The `map` of `addItem`: every line with `id` goes up by one unit. */
  function IncrementMatching(items: seq<CartItem>, id: string): (r: seq<CartItem>)
    ensures |r| == |items|
    ensures forall i :: 0 <= i < |items| ==> SameSnapshot(r[i], items[i])
    ensures forall i :: 0 <= i < |items| ==>
      r[i].quantity == items[i].quantity + (if items[i].menuItemId == id then 1 else 0)
  {
    seq(|items|, i requires 0 <= i < |items| =>
      if items[i].menuItemId == id then items[i].(quantity := items[i].quantity + 1) else items[i])
  }

  /** `addItem`: a repeated add bumps the quantity of the existing line(s);
      a first add appends a new line with quantity 1. */
  function AddItem(items: seq<CartItem>, item: NewItem): (r: seq<CartItem>)
    ensures HasId(r, item.menuItemId)
    ensures HasId(items, item.menuItemId) ==> |r| == |items|
    ensures !HasId(items, item.menuItemId) ==> |r| == |items| + 1
  {
    if HasId(items, item.menuItemId) then
      var r := IncrementMatching(items, item.menuItemId);
      var k :| 0 <= k < |items| && items[k].menuItemId == item.menuItemId;
      assert r[k].menuItemId == item.menuItemId;
      r
    else
      var r := items + [FreshLine(item)];
      assert r[|items|].menuItemId == item.menuItemId;
      r
  }

  /** `removeItem`: keep exactly the lines whose id differs, in order. */
  function RemoveItem(items: seq<CartItem>, id: string): (r: seq<CartItem>)
    ensures !HasId(r, id)
    ensures forall l :: l in r <==> l in items && l.menuItemId != id
    ensures |r| == |items| - CountId(items, id)
    ensures !HasId(items, id) ==> r == items
  {
    if items == [] then []
    else if items[0].menuItemId == id then RemoveItem(items[1..], id)
    else [items[0]] + RemoveItem(items[1..], id)
  }

  /** `clear`: the store holds no line afterwards. */
  function Clear(items: seq<CartItem>): (r: seq<CartItem>)
    ensures forall id :: !HasId(r, id)
    ensures TotalQuantity(r) == 0
  {
    []
  }

  /** A fresh store holds no line, so it trivially has distinct ids and
      positive quantities, and its quantity sum is 0. */
  lemma InitialState()
    ensures forall id :: !HasId(InitialItems, id)
    ensures DistinctIds(InitialItems) && AllPositive(InitialItems)
    ensures TotalQuantity(InitialItems) == 0
  {
  }

  // ---------------------------------------------------------------------
  // addItem

  /** Adding an id that is not in the cart appends a line with quantity 1
      snapshotting the item, and every earlier line stays where it was. */
  lemma AddItemNew(items: seq<CartItem>, item: NewItem)
    requires !HasId(items, item.menuItemId)
    ensures var r := AddItem(items, item);
      |r| == |items| + 1 && r[..|items|] == items
      && r[|items|].quantity == 1
      && r[|items|].menuItemId == item.menuItemId && r[|items|].restaurantId == item.restaurantId
      && r[|items|].name == item.name && r[|items|].price == item.price
  {
    assert (items + [FreshLine(item)])[..|items|] == items;
  }

  /** Adding an id held by line `k` of a cart with distinct ids raises that
      line by exactly one unit, keeps its original name, price and restaurant,
      and leaves every other line unchanged in its place. */
  lemma AddItemExisting(items: seq<CartItem>, item: NewItem, k: nat)
    requires DistinctIds(items)
    requires k < |items| && items[k].menuItemId == item.menuItemId
    ensures var r := AddItem(items, item);
      |r| == |items|
      && r[k].quantity == items[k].quantity + 1 && SameSnapshot(r[k], items[k])
      && forall j :: 0 <= j < |items| && j != k ==> r[j] == items[j]
  {
  }

  /** Distinct ids stay distinct after `addItem`. */
  lemma AddItemKeepsDistinct(items: seq<CartItem>, item: NewItem)
    requires DistinctIds(items)
    ensures DistinctIds(AddItem(items, item))
  {
    var r := AddItem(items, item);
    if !HasId(items, item.menuItemId) {
      forall i, j | 0 <= i < j < |r| ensures r[i].menuItemId != r[j].menuItemId {
        if j == |items| {
          assert r[i] == items[i];
        }
      }
    }
  }

  /** Positive quantities stay positive after `addItem`. */
  lemma AddItemKeepsPositive(items: seq<CartItem>, item: NewItem)
    requires AllPositive(items)
    ensures AllPositive(AddItem(items, item))
  {
  }

  lemma {:induction false} IncrementMatchingTotal(items: seq<CartItem>, id: string)
    ensures TotalQuantity(IncrementMatching(items, id)) == TotalQuantity(items) + CountId(items, id)
  {
    if items != [] {
      assert IncrementMatching(items, id)[1..] == IncrementMatching(items[1..], id);
      IncrementMatchingTotal(items[1..], id);
    }
  }

  lemma {:induction false} CountIdDistinct(items: seq<CartItem>, id: string)
    requires DistinctIds(items)
    ensures CountId(items, id) == (if HasId(items, id) then 1 else 0)
  {
    if items != [] {
      CountIdDistinct(items[1..], id);
      if items[0].menuItemId == id {
        assert !HasId(items[1..], id) by {
          forall i | 0 <= i < |items| - 1 ensures items[1..][i].menuItemId != id {
            assert items[1..][i] == items[i + 1];
          }
        }
      } else {
        assert HasId(items, id) <==> HasId(items[1..], id) by {
          if HasId(items, id) {
            var i :| 0 <= i < |items| && items[i].menuItemId == id;
            assert items[1..][i - 1] == items[i];
          }
          if HasId(items[1..], id) {
            var i :| 0 <= i < |items| - 1 && items[1..][i].menuItemId == id;
            assert items[1..][i] == items[i + 1];
          }
        }
      }
    }
  }

  /** `addItem` adds one unit for every line already holding the id, or one
      unit for the new line. */
  lemma AddItemTotal(items: seq<CartItem>, item: NewItem)
    ensures TotalQuantity(AddItem(items, item))
         == TotalQuantity(items) + (if HasId(items, item.menuItemId) then CountId(items, item.menuItemId) else 1)
  {
    if HasId(items, item.menuItemId) {
      IncrementMatchingTotal(items, item.menuItemId);
    } else {
      TotalQuantityAppend(items, [FreshLine(item)]);
      assert TotalQuantity([FreshLine(item)]) == 1;
    }
  }

  /** In a cart with distinct ids, `addItem` raises the total quantity by exactly 1. */
  lemma AddItemTotalDistinct(items: seq<CartItem>, item: NewItem)
    requires DistinctIds(items)
    ensures TotalQuantity(AddItem(items, item)) == TotalQuantity(items) + 1
  {
    AddItemTotal(items, item);
    CountIdDistinct(items, item.menuItemId);
  }

  // ---------------------------------------------------------------------
  // removeItem

  /** Removal keeps relative order: filtering a concatenation is the
      concatenation of the filtered parts. */
  lemma {:induction false} RemoveItemAppend(a: seq<CartItem>, b: seq<CartItem>, id: string)
    ensures RemoveItem(a + b, id) == RemoveItem(a, id) + RemoveItem(b, id)
  {
    if a == [] {
      assert a + b == b;
    } else {
      assert (a + b)[0] == a[0];
      assert (a + b)[1..] == a[1..] + b;
      RemoveItemAppend(a[1..], b, id);
    }
  }

  /** Distinct ids and positive quantities survive `removeItem`. */
  lemma RemoveItemKeepsInvariants(items: seq<CartItem>, id: string)
    requires DistinctIds(items) && AllPositive(items)
    ensures DistinctIds(RemoveItem(items, id)) && AllPositive(RemoveItem(items, id))
  {
    RemoveKeepsDistinct(items, id);
    var r := RemoveItem(items, id);
    forall j | 0 <= j < |r| ensures r[j].quantity >= 1 {
      assert r[j] in items;
    }
  }

  lemma DistinctTail(items: seq<CartItem>)
    requires items != [] && DistinctIds(items)
    ensures DistinctIds(items[1..])
    ensures forall l :: l in items[1..] ==> l.menuItemId != items[0].menuItemId
  {
    forall l | l in items[1..] ensures l.menuItemId != items[0].menuItemId {
      var m :| 0 <= m < |items| - 1 && items[1..][m] == l;
      assert items[m + 1] == l;
    }
  }

  lemma ConsDistinct(h: CartItem, rest: seq<CartItem>)
    requires DistinctIds(rest)
    requires forall l :: l in rest ==> l.menuItemId != h.menuItemId
    ensures DistinctIds([h] + rest)
  {
    var r := [h] + rest;
    forall i, j | 0 <= i < j < |r| ensures r[i].menuItemId != r[j].menuItemId {
      assert r[j] == rest[j - 1];
      if i > 0 {
        assert r[i] == rest[i - 1];
      }
    }
  }

  lemma {:induction false} RemoveKeepsDistinct(items: seq<CartItem>, id: string)
    requires DistinctIds(items)
    ensures DistinctIds(RemoveItem(items, id))
  {
    if items != [] {
      DistinctTail(items);
      RemoveKeepsDistinct(items[1..], id);
      var rest := RemoveItem(items[1..], id);
      if items[0].menuItemId != id {
        assert forall l :: l in rest ==> l in items[1..];
        ConsDistinct(items[0], rest);
      }
    }
  }

  // ---------------------------------------------------------------------
  // The store over a run of actions

  datatype Action = Add(item: NewItem) | Remove(menuItemId: string) | ClearAll

  /** One dispatched action. */
  function Apply(items: seq<CartItem>, a: Action): seq<CartItem>
  {
    match a
    case Add(item) => AddItem(items, item)
    case Remove(id) => RemoveItem(items, id)
    case ClearAll => Clear(items)
  }

  /** The items after dispatching `actions` in order to a fresh store. */
  function Run(actions: seq<Action>): seq<CartItem>
  {
    if actions == [] then InitialItems
    else Apply(Run(actions[..|actions| - 1]), actions[|actions| - 1])
  }

  /** No action lowers a line: every resulting line is either a fresh line of
      quantity 1 or an earlier line with the same id and at least its quantity. */
  lemma ApplyNeverDecrements(items: seq<CartItem>, a: Action)
    ensures var r := Apply(items, a);
      forall j :: 0 <= j < |r| ==>
        r[j].quantity == 1
        || exists i :: 0 <= i < |items| && items[i].menuItemId == r[j].menuItemId
                                        && items[i].quantity <= r[j].quantity
  {
    var r := Apply(items, a);
    match a
    case Add(item) =>
      forall j | 0 <= j < |r|
        ensures r[j].quantity == 1
          || exists i :: 0 <= i < |items| && items[i].menuItemId == r[j].menuItemId
                                          && items[i].quantity <= r[j].quantity
      {
        if j < |items| {
          assert items[j].menuItemId == r[j].menuItemId && items[j].quantity <= r[j].quantity;
        }
      }
    case Remove(id) =>
      forall j | 0 <= j < |r|
        ensures exists i :: 0 <= i < |items| && items[i].menuItemId == r[j].menuItemId
                                             && items[i].quantity <= r[j].quantity
      {
        assert r[j] in items;
        var i :| 0 <= i < |items| && items[i] == r[j];
      }
    case ClearAll =>
  }

  /** Every state the store can reach has distinct ids and only lines with
      at least one unit. */
  lemma {:induction false} RunInvariant(actions: seq<Action>)
    ensures DistinctIds(Run(actions)) && AllPositive(Run(actions))
  {
    if actions != [] {
      var before := Run(actions[..|actions| - 1]);
      RunInvariant(actions[..|actions| - 1]);
      match actions[|actions| - 1]
      case Add(item) =>
        AddItemKeepsDistinct(before, item);
        AddItemKeepsPositive(before, item);
      case Remove(id) =>
        RemoveItemKeepsInvariants(before, id);
      case ClearAll =>
    }
  }

  /** Along any run, an `Add` raises the total quantity by exactly one. */
  lemma RunAddTotal(actions: seq<Action>, item: NewItem)
    ensures TotalQuantity(Run(actions + [Add(item)])) == TotalQuantity(Run(actions)) + 1
  {
    assert (actions + [Add(item)])[..|actions|] == actions;
    RunInvariant(actions);
    AddItemTotalDistinct(Run(actions), item);
  }
}
