/**
 * The database tables the core reads and writes, as maps from row id to row. Ids the database
 * generates are passed in by the callers; a write the database rejects is a `fails` input.
 */
module Tables {
  import opened Options
  import opened Catalog

  /** The `status` column of `orders`. */
  datatype OrderStatus = Pending | Completed

  function StatusName(s: OrderStatus): string {
    match s
    case Pending => "pending"
    case Completed => "completed"
  }

  /** A row of `orders`. */
  datatype Order = Order(
    userEmail: string,
    totalAmountInCents: int,
    firstName: string,
    lastName: string,
    contact: string,
    address: string,
    status: OrderStatus,
    razorpayOrderId: Option<string>,
    razorpayPaymentId: Option<string>)

  /** The `item_type` column of `order_items`. */
  datatype ItemType = CouponItem | PrashadItem

  /** A row of `order_items`; its id is the code printed in the QR coupon. */
  datatype OrderItem = OrderItem(
    orderId: string,
    couponId: Option<string>,
    prashadId: Option<string>,
    itemType: ItemType,
    quantity: int,
    priceInCents: int,
    used: bool,
    usedAt: Option<string>)

  /** A row of the `prashad` table as the admin portal writes it (the portal sets no price). */
  datatype PrashadRow = PrashadRow(
    name: string,
    description: Option<string>,
    mealTime: MealTime,
    imageUrl: Option<string>,
    isAvailable: bool)

  /** A row of `admin_users`. */
  datatype AdminUser = AdminUser(email: string, name: string, phoneNumber: string)

  /** The tables, keyed by row id. */
  class Database {
    var orders: map<string, Order>
    var orderItems: map<string, OrderItem>
    var coupons: map<string, Coupon>
    var prashads: map<string, PrashadRow>
    var adminUsers: map<string, AdminUser>

    constructor ()
      ensures orders == map[] && orderItems == map[] && coupons == map[]
      ensures prashads == map[] && adminUsers == map[]
    {
      orders := map[];
      orderItems := map[];
      coupons := map[];
      prashads := map[];
      adminUsers := map[];
    }
  }

  /** `ids` are pairwise distinct and none of them is a key of `m` yet. */
  predicate FreshKeys<V>(m: map<string, V>, ids: seq<string>) {
    (forall i :: 0 <= i < |ids| ==> ids[i] !in m)
    && (forall i, j :: 0 <= i < j < |ids| ==> ids[i] != ids[j])
  }

  /** `m` with `rows[i]` stored under `ids[i]`, as one multi-row insert does. */
  function InsertAll<V>(m: map<string, V>, ids: seq<string>, rows: seq<V>): (r: map<string, V>)
    requires |ids| == |rows|
    ensures forall k :: k in r <==> k in m || k in ids
    ensures forall k :: k in m && k !in ids ==> r[k] == m[k]
    decreases |ids|
  {
    if ids == [] then m else InsertAll(m[ids[0] := rows[0]], ids[1..], rows[1..])
  }

  /** With distinct ids, every inserted row can be read back under its id. */
  lemma {:induction false} InsertAllStores<V>(m: map<string, V>, ids: seq<string>, rows: seq<V>)
    requires |ids| == |rows|
    requires forall i, j :: 0 <= i < j < |ids| ==> ids[i] != ids[j]
    ensures forall i :: 0 <= i < |ids| ==> InsertAll(m, ids, rows)[ids[i]] == rows[i]
    decreases |ids|
  {
    if ids != [] {
      InsertAllStores(m[ids[0] := rows[0]], ids[1..], rows[1..]);
      var r := InsertAll(m, ids, rows);
      forall i | 0 <= i < |ids|
        ensures r[ids[i]] == rows[i]
      {
        if i == 0 {
          assert ids[0] !in ids[1..] by {
            forall j | 0 <= j < |ids[1..]|
              ensures ids[1..][j] != ids[0]
            {
              assert ids[1..][j] == ids[j + 1];
            }
          }
        } else {
          assert ids[i] == ids[1..][i - 1];
        }
      }
    }
  }

  /** `.update(f).eq("id", id)`: the row with that id, if any, is changed; a missing id
      matches no row and is not an error. */
  function UpdateWhere<V>(m: map<string, V>, id: string, f: V -> V): (r: map<string, V>)
    ensures r.Keys == m.Keys
    ensures id in m ==> r[id] == f(m[id])
    ensures forall k :: k in m && k != id ==> r[k] == m[k]
  {
    if id in m then m[id := f(m[id])] else m
  }
}
