/**
 * `POST /api/orders/create`: the required-field check, the `pending` order header and one
 * `order_items` row per cart line, written header first and without rollback.
 */
module OrderCreate {
  import opened Options
  import opened Http
  import opened Tables
  import opened CouponList

  /** The fields of the JSON body. A missing string field reads as `""` (both are falsy);
      `cart` and `totalPrice` may be absent. */
  datatype CreateRequest = CreateRequest(
    userId: string,
    cart: Option<seq<CartLine>>,
    totalPrice: Option<int>,
    firstName: string,
    lastName: string,
    contact: string,
    address: string)

  /** `userId && cart && totalPrice`: an empty cart array is truthy, a total of 0 is not. */
  predicate HasRequiredFields(req: CreateRequest) {
    req.userId != "" && req.cart.Some? && req.totalPrice.Some? && req.totalPrice.value != 0
  }

  /** The inserted header; the total is the one the client sent. */
  function Header(req: CreateRequest): Order
    requires HasRequiredFields(req)
  {
    Order(req.userId, req.totalPrice.value, req.firstName, req.lastName, req.contact, req.address,
          Pending, None, None)
  }

  /** `item.coupon?.id || null`: an empty id is stored as null. */
  function IdOrNull(id: string): (r: Option<string>)
    ensures r.Some? <==> id != ""
    ensures r.Some? ==> r.value == id
  {
    if id != "" then Some(id) else None
  }

  /** The row `cart.map` builds for one line. `used`/`used_at` are not sent and take the
      column defaults, `false` and null. */
  function ItemRow(orderId: string, line: CartLine): OrderItem {
    match line
    case CouponLine(c, q) =>
      OrderItem(orderId, IdOrNull(c.id), None, CouponItem, q, line.UnitPrice(), false, None)
    case PrashadLine(p, q) =>
      OrderItem(orderId, None, IdOrNull(p.id), PrashadItem, q, line.UnitPrice(), false, None)
  }

  /** `cart.map(...)`: one row per line, in cart order. */
  function ItemRows(orderId: string, cart: seq<CartLine>): (rows: seq<OrderItem>)
    ensures |rows| == |cart|
  {
    seq(|cart|, i requires 0 <= i < |cart| => ItemRow(orderId, cart[i]))
  }

  /** Every row belongs to the new order and records the line's kind, item, quantity and
      price at the moment of ordering. */
  lemma ItemRowsDescribeCart(orderId: string, cart: seq<CartLine>, i: nat)
    requires i < |cart|
    ensures var row := ItemRows(orderId, cart)[i];
      && row.orderId == orderId
      && (row.itemType == CouponItem <==> cart[i].CouponLine?)
      && (row.couponId.Some? <==> cart[i].CouponLine? && cart[i].coupon.id != "")
      && (row.prashadId.Some? <==> cart[i].PrashadLine? && cart[i].prashad.id != "")
      && (row.couponId.Some? || row.prashadId.Some? ==> (row.couponId.Some? != row.prashadId.Some?))
      && (row.couponId.Some? ==> row.couponId.value == cart[i].ItemId())
      && (row.prashadId.Some? ==> row.prashadId.value == cart[i].ItemId())
      && row.quantity == cart[i].quantity
      && row.priceInCents == cart[i].UnitPrice()
      && !row.used && row.usedAt.None?
  {
  }

  /** What the item rows add up to: `price_in_cents * quantity` over all rows. */
  function RowsTotal(rows: seq<OrderItem>): int {
    if rows == [] then 0 else RowsTotal(rows[..|rows| - 1]) + rows[|rows| - 1].priceInCents * rows[|rows| - 1].quantity
  }

  /** The price snapshots in the rows add up to the cart's `totalPrice`. */
  lemma {:induction false} RowsTotalIsCartTotal(orderId: string, cart: seq<CartLine>)
    ensures RowsTotal(ItemRows(orderId, cart)) == SumPrices(cart)
    decreases |cart|
  {
    if cart != [] {
      var rows := ItemRows(orderId, cart);
      var front := cart[..|cart| - 1];
      RowsTotalIsCartTotal(orderId, front);
      assert rows[..|rows| - 1] == ItemRows(orderId, front);
    }
  }

  /** The header stores whatever total was sent, and it is not checked against the cart: for
      every request the stored total is the sent one, and for some it differs from the cart. */
  lemma TotalIsNotRecomputed()
    ensures forall req :: HasRequiredFields(req) ==> Header(req).totalAmountInCents == req.totalPrice.value
    ensures exists req :: HasRequiredFields(req) && Header(req).totalAmountInCents != SumPrices(req.cart.value)
  {
    var req := CreateRequest("user@example.com", Some([]), Some(1), "", "", "", "");
    assert HasRequiredFields(req) && Header(req).totalAmountInCents != SumPrices(req.cart.value);
  }

  /** The header insert succeeds: the database accepts it and the generated id is new. */
  predicate HeaderAccepted(orders: map<string, Order>, orderId: string, headerFails: bool) {
    !headerFails && orderId !in orders
  }

  /** The item insert succeeds: the database accepts it and the generated ids are new. */
  predicate ItemsAccepted(orderItems: map<string, OrderItem>, itemIds: seq<string>, itemsFail: bool) {
    !itemsFail && FreshKeys(orderItems, itemIds)
  }

  /**
   * The handler. `body` is `None` when the request is not JSON; `orderId` and `itemIds` are the
   * ids the database generates; `headerFails`/`itemsFail` say whether it rejects either insert.
   */
  method CreateOrder(db: Database, body: Option<CreateRequest>, orderId: string, headerFails: bool,
                     itemIds: seq<string>, itemsFail: bool) returns (reply: Reply<string>)
    requires body.Some? && body.value.cart.Some? ==> |itemIds| == |body.value.cart.value|
    modifies db`orders, db`orderItems
    ensures body.None? ==>
      reply == Error(500, "Failed to create order") && unchanged(db)
    ensures body.Some? && !HasRequiredFields(body.value) ==>
      reply == Error(400, "Missing required fields") && unchanged(db)
    ensures body.Some? && HasRequiredFields(body.value) && !HeaderAccepted(old(db.orders), orderId, headerFails) ==>
      reply == Error(500, "Failed to create order") && unchanged(db)
    ensures body.Some? && HasRequiredFields(body.value) && HeaderAccepted(old(db.orders), orderId, headerFails) ==>
      db.orders == old(db.orders)[orderId := Header(body.value)]
      && (if ItemsAccepted(old(db.orderItems), itemIds, itemsFail)
          then reply == Ok(orderId)
               && db.orderItems == InsertAll(old(db.orderItems), itemIds, ItemRows(orderId, body.value.cart.value))
          else reply == Error(500, "Failed to create order") && db.orderItems == old(db.orderItems))
  {
    if body.None? {
      return Error(500, "Failed to create order");
    }
    var req := body.value;
    if !HasRequiredFields(req) {
      return Error(400, "Missing required fields");
    }
    if !HeaderAccepted(db.orders, orderId, headerFails) {
      return Error(500, "Failed to create order");
    }
    db.orders := db.orders[orderId := Header(req)];
    var rows := ItemRows(orderId, req.cart.value);
    if !ItemsAccepted(db.orderItems, itemIds, itemsFail) {
      return Error(500, "Failed to create order");
    }
    db.orderItems := InsertAll(db.orderItems, itemIds, rows);
    return Ok(orderId);
  }

  /** After a successful create, each item row can be found under its id and points to the
      new header, which is `pending`. */
  lemma CreatedRowsPointToHeader(orders: map<string, Order>, orderItems: map<string, OrderItem>,
                                 req: CreateRequest, orderId: string, itemIds: seq<string>)
    requires HasRequiredFields(req) && |itemIds| == |req.cart.value|
    requires HeaderAccepted(orders, orderId, false) && ItemsAccepted(orderItems, itemIds, false)
    ensures var items := InsertAll(orderItems, itemIds, ItemRows(orderId, req.cart.value));
      var header := orders[orderId := Header(req)];
      && orderId in header && header[orderId].status == Pending
      && forall i :: 0 <= i < |itemIds| ==> itemIds[i] in items && items[itemIds[i]].orderId in header
  {
    var rows := ItemRows(orderId, req.cart.value);
    InsertAllStores(orderItems, itemIds, rows);
    forall i | 0 <= i < |itemIds|
      ensures rows[i].orderId == orderId
    {
      ItemRowsDescribeCart(orderId, req.cart.value, i);
    }
  }
}
