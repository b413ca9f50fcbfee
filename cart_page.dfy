/** The pure computations of the cart page: reading the cart payload from
    the `data` query parameter, deciding whether the empty-cart view is shown,
    the per-line subtotals and the total, the body of the order request, and
    the login guard in front of the order submission. Prices are integers in
    minor currency units. */
module CartPage {
  import opened Options

  datatype PayloadItem = PayloadItem(menuItemId: string, name: string, price: int, quantity: int)

  /** The cart handed to the page. */
  datatype CartPayload = CartPayload(restaurantId: string, items: seq<PayloadItem>)

  /** One entry of the order request: only the id and the quantity. */
  datatype OrderLine = OrderLine(menuItemId: string, quantity: int)

  /** The body of `POST /orders`. */
  datatype OrderRequest = OrderRequest(restaurantId: string, items: seq<OrderLine>)

  /** What pressing "Place Order" does before any request is sent. */
  datatype OrderAction =
    | RedirectToLogin
    | PostOrder(authorization: string, body: OrderRequest)

  // ---------------------------------------------------------------------
  // Reading the payload

  /** The payload the page works with. `raw` is the `data` query parameter
      (None when absent); `decode` stands for URI-decoding followed by JSON
      parsing, and gives None when either throws or the text parses to null.
      A missing or empty parameter gives no payload without decoding. */
  function ReadPayload(raw: Option<string>, decode: string -> Option<CartPayload>): (r: Option<CartPayload>)
    ensures raw.None? || raw == Some("") ==> r.None?
    ensures r.Some? ==> raw.Some? && raw.value != "" && decode(raw.value) == r
    ensures raw.Some? && raw.value != "" && decode(raw.value).Some? ==> r == decode(raw.value)
  {
    if raw.None? || raw.value == "" then None else decode(raw.value)
  }

  /** The empty-cart view: no payload, or a payload without items. */
  predicate ShowsEmpty(data: Option<CartPayload>)
  {
    data.None? || |data.value.items| == 0
  }

  /** The empty-cart view is shown exactly when the parameter is missing or
      empty, fails to decode, or decodes to a cart with no items. */
  lemma ShowsEmptyIff(raw: Option<string>, decode: string -> Option<CartPayload>)
    ensures ShowsEmpty(ReadPayload(raw, decode)) <==>
      raw.None? || raw.value == "" || decode(raw.value).None? || |decode(raw.value).value.items| == 0
  {
  }

  /** A missing or undecodable payload renders like an explicitly empty cart. */
  lemma MalformedLikeEmpty(raw: Option<string>, decode: string -> Option<CartPayload>, restaurantId: string)
    requires raw.None? || raw.value == "" || decode(raw.value).None?
    ensures ShowsEmpty(ReadPayload(raw, decode)) && ShowsEmpty(Some(CartPayload(restaurantId, [])))
  {
  }

  // ---------------------------------------------------------------------
  // Subtotals and total

  /** The amount shown beside one line. */
  function Subtotal(item: PayloadItem): int
  {
    item.price * item.quantity
  }

  /** The amounts shown beside the lines, in display order. */
  function Subtotals(items: seq<PayloadItem>): (r: seq<int>)
    ensures |r| == |items|
    ensures forall i :: 0 <= i < |items| ==> r[i] == items[i].price * items[i].quantity
  {
    seq(|items|, i requires 0 <= i < |items| => Subtotal(items[i]))
  }

  /** Sum of a list of amounts, first element first. */
  function Sum(xs: seq<int>): int
  {
    if xs == [] then 0 else xs[0] + Sum(xs[1..])
  }

  lemma {:induction false} SumAppend(xs: seq<int>, ys: seq<int>)
    ensures Sum(xs + ys) == Sum(xs) + Sum(ys)
  {
    if xs == [] {
      assert xs + ys == ys;
    } else {
      assert (xs + ys)[1..] == xs[1..] + ys;
      SumAppend(xs[1..], ys);
    }
  }

  /** The total, accumulated from the first line onwards starting at 0; it
      equals the sum of the subtotals displayed for the lines. */
  function Total(items: seq<PayloadItem>): (r: int)
    ensures r == Sum(Subtotals(items))
  {
    if items == [] then 0
    else
      var n := |items| - 1;
      assert Subtotals(items) == Subtotals(items[..n]) + [Subtotal(items[n])];
      SumAppend(Subtotals(items[..n]), [Subtotal(items[n])]);
      Total(items[..n]) + Subtotal(items[n])
  }

  /** The total of concatenated lines is the sum of their totals. */
  lemma {:induction false} TotalAppend(a: seq<PayloadItem>, b: seq<PayloadItem>)
    ensures Total(a + b) == Total(a) + Total(b)
  {
    if b != [] {
      var n := |b| - 1;
      assert (a + b)[..|a + b| - 1] == a + b[..n];
      TotalAppend(a, b[..n]);
    } else {
      assert a + b == a;
    }
  }

  /** With non-negative prices and quantities the total is non-negative. */
  lemma {:induction false} TotalNonNegative(items: seq<PayloadItem>)
    requires forall i :: 0 <= i < |items| ==> items[i].price >= 0 && items[i].quantity >= 0
    ensures Total(items) >= 0
  {
    if items != [] {
      TotalNonNegative(items[..|items| - 1]);
    }
  }

  /** Two lines at 100 × 2 and 50 × 1 make 250; no lines make 0. */
  lemma TotalExample()
    ensures Total([PayloadItem("a", "A", 100, 2), PayloadItem("b", "B", 50, 1)]) == 250
    ensures Total([]) == 0
  {
    var items := [PayloadItem("a", "A", 100, 2), PayloadItem("b", "B", 50, 1)];
    assert items[..1] == [PayloadItem("a", "A", 100, 2)];
    assert items[..1][..0] == [];
  }

  // ---------------------------------------------------------------------
  // The order request

  /** The body sent with the order: the restaurant id (or "" without a
      payload) and each line's id and quantity, in order. */
  function OrderBody(data: Option<CartPayload>): (r: OrderRequest)
    ensures data.None? ==> r.restaurantId == "" && r.items == []
    ensures data.Some? ==> r.restaurantId == data.value.restaurantId
                           && |r.items| == |data.value.items|
    ensures data.Some? ==> forall i :: 0 <= i < |r.items| ==>
      r.items[i].menuItemId == data.value.items[i].menuItemId
      && r.items[i].quantity == data.value.items[i].quantity
  {
    match data
    case None => OrderRequest("", [])
    case Some(p) =>
      OrderRequest(p.restaurantId,
        seq(|p.items|, i requires 0 <= i < |p.items| => OrderLine(p.items[i].menuItemId, p.items[i].quantity)))
  }

  /** Names and prices do not reach the order: two payloads that agree on
      the restaurant and on each line's id and quantity give the same body. */
  lemma OrderBodyIgnoresNameAndPrice(p: CartPayload, q: CartPayload)
    requires p.restaurantId == q.restaurantId && |p.items| == |q.items|
    requires forall i :: 0 <= i < |p.items| ==>
      p.items[i].menuItemId == q.items[i].menuItemId && p.items[i].quantity == q.items[i].quantity
    ensures OrderBody(Some(p)) == OrderBody(Some(q))
  {
    assert OrderBody(Some(p)).items == OrderBody(Some(q)).items;
  }

  /** Whenever the page offers "Place Order", the body carries at least one line. */
  lemma NonEmptyViewSendsItems(data: Option<CartPayload>)
    requires !ShowsEmpty(data)
    ensures |OrderBody(data).items| >= 1
  {
  }

  // ---------------------------------------------------------------------
  // The login guard

  /** Pressing "Place Order": without a stored token (absent or empty) the
      user is sent to `/login` and nothing is posted; otherwise the order
      body goes out with a bearer authorization. */
  function PlaceOrder(token: Option<string>, data: Option<CartPayload>): (r: OrderAction)
    ensures r.RedirectToLogin? <==> token.None? || token.value == ""
    ensures r.PostOrder? ==> token.Some? && r.authorization == "Bearer " + token.value
                             && r.body == OrderBody(data)
  {
    if token.None? || token.value == "" then RedirectToLogin
    else PostOrder("Bearer " + token.value, OrderBody(data))
  }
}
