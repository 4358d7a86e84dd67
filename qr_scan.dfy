/**
 * The coupon scanner page: look an `order_items` row up by the scanned code, show its status,
 * and mark it used at most once.
 */
module QrScan {
  import opened Options
  import opened Tables
  import JsString

  datatype CouponStatus = Valid | Used

  function StatusName(s: CouponStatus): string {
    match s
    case Valid => "valid"
    case Used => "used"
  }

  /** `CouponValidation`, the page's `validationResult`. */
  datatype CouponValidation = CouponValidation(
    id: string,
    orderId: string,
    userEmail: string,
    couponName: string,
    status: CouponStatus,
    usedAt: Option<string>)

  /** `orderItem.used ? "used" : "valid"`. */
  function StatusOf(used: bool): (s: CouponStatus)
    ensures s == Used <==> used
  {
    if used then Used else Valid
  }

  /** `orderItem.coupons?.name || orderItem.prashad?.name || "Unknown"`. */
  function CouponName(couponName: Option<string>, prashadName: Option<string>): (name: string)
    ensures name != ""
    ensures couponName.Some? && couponName.value != "" ==> name == couponName.value
    ensures (couponName.None? || couponName.value == "") && prashadName.Some? && prashadName.value != "" ==>
      name == prashadName.value
    ensures name == "Unknown" || (couponName.Some? && name == couponName.value) || (prashadName.Some? && name == prashadName.value)
  {
    if couponName.Some? && couponName.value != "" then couponName.value
    else if prashadName.Some? && prashadName.value != "" then prashadName.value
    else "Unknown"
  }

  /** The embedded `coupons (name)` or `prashad (name)` of a row: the name of the row its id
      points to, if any. */
  function JoinedName<V>(table: map<string, V>, id: Option<string>, name: V -> string): Option<string> {
    if id.Some? && id.value in table then Some(name(table[id.value])) else None
  }

  function CouponRowName(c: Catalog.Coupon): string {
    c.name
  }

  function PrashadRowName(p: PrashadRow): string {
    p.name
  }

  /** A toast's title and description; `NoToast` before the first one. */
  datatype Toast = NoToast | Toast(title: string, description: string)

  /** How the lookup of `validateCoupon` ends. */
  datatype Lookup = NotFound | Found(result: CouponValidation) | Failed

  /** `.eq("id", couponCode).single()` with its joins, and the result built from it. A row
      whose order is missing makes `orderItem.orders.user_email` throw. */
  function LookUp(orders: map<string, Order>, orderItems: map<string, OrderItem>,
                  coupons: map<string, Catalog.Coupon>, prashads: map<string, PrashadRow>,
                  code: string): (r: Lookup)
    ensures r.NotFound? <==> code !in orderItems
    ensures r.Found? ==>
      && r.result.id == code && code in orderItems
      && r.result.orderId == orderItems[code].orderId
      && (r.result.status == Used <==> orderItems[code].used)
      && r.result.usedAt == orderItems[code].usedAt
      && orderItems[code].orderId in orders
      && r.result.userEmail == orders[orderItems[code].orderId].userEmail
      && r.result.couponName == CouponName(JoinedName(coupons, orderItems[code].couponId, CouponRowName),
                                           JoinedName(prashads, orderItems[code].prashadId, PrashadRowName))
    ensures r.Failed? <==> code in orderItems && orderItems[code].orderId !in orders
  {
    if code !in orderItems then NotFound
    else
      var item := orderItems[code];
      if item.orderId !in orders then Failed
      else Found(CouponValidation(
        code, item.orderId, orders[item.orderId].userEmail,
        CouponName(JoinedName(coupons, item.couponId, CouponRowName), JoinedName(prashads, item.prashadId, PrashadRowName)),
        StatusOf(item.used), item.usedAt))
  }

  /** The code is looked up as typed: with a row `"abc"` and no row `" abc"`, scanning `" abc"`
      passes the blank check and then finds nothing. */
  lemma LookupUsesUntrimmedCode(orders: map<string, Order>, orderItems: map<string, OrderItem>,
                                coupons: map<string, Catalog.Coupon>, prashads: map<string, PrashadRow>)
    requires "abc" in orderItems && " abc" !in orderItems
    ensures JsString.Trim(" abc") != ""
    ensures LookUp(orders, orderItems, coupons, prashads, " abc") == NotFound
  {
    JsString.TrimEmptyIff(" abc");
    assert !JsString.IsWhitespace(" abc"[1]);
  }

  /** The update `{used: true, used_at}`. */
  function MarkedUsed(usedAt: string): OrderItem -> OrderItem {
    (item: OrderItem) => item.(used := true, usedAt := Some(usedAt))
  }

  /** `markAsUsed` returns early unless there is a result whose status is not `used`. */
  predicate WritesOnMark(result: Option<CouponValidation>) {
    result.Some? && result.value.status != Used
  }

  /** "Mark as Used" is rendered only for a `valid` result. */
  predicate OffersMarkAsUsed(result: Option<CouponValidation>) {
    result.Some? && result.value.status == Valid
  }

  /** The local result after a successful mark. */
  function AfterMark(v: CouponValidation, usedAt: string): CouponValidation {
    v.(status := Used, usedAt := Some(usedAt))
  }

  /** The button's `=== "valid"` test and the handler's `!== "used"` guard agree, since a status
      is one of the two; after one successful mark neither holds any more, so repeated presses
      write once. */
  lemma MarkWritesOnce(result: Option<CouponValidation>, v: CouponValidation, usedAt: string)
    ensures OffersMarkAsUsed(result) <==> WritesOnMark(result)
    ensures !WritesOnMark(Some(AfterMark(v, usedAt))) && !OffersMarkAsUsed(Some(AfterMark(v, usedAt)))
  {
  }

  /** Marking never clears a `used` flag, sets it on the scanned row and touches no other row. */
  lemma MarkIsOneWay(items: map<string, OrderItem>, id: string, usedAt: string)
    ensures var after := UpdateWhere(items, id, MarkedUsed(usedAt));
      && after.Keys == items.Keys
      && (forall k :: k in items && items[k].used ==> after[k].used)
      && (id in items ==> after[id].used && after[id].usedAt == Some(usedAt))
      && (forall k :: k in items && k != id ==> after[k] == items[k])
  {
  }

  /** A scanned row that was already used is shown as used and is not offered for marking. */
  lemma UsedRowIsNotOffered(orders: map<string, Order>, orderItems: map<string, OrderItem>,
                            coupons: map<string, Catalog.Coupon>, prashads: map<string, PrashadRow>, code: string)
    requires code in orderItems && orderItems[code].used
    ensures var r := LookUp(orders, orderItems, coupons, prashads, code);
      r.Found? ==> !OffersMarkAsUsed(Some(r.result))
  {
  }

  class QrScanPage {
    var couponCode: string
    var validationResult: Option<CouponValidation>
    var loading: bool
    /** The last toast shown. */
    var toast: Toast

    constructor ()
      ensures couponCode == "" && validationResult.None? && !loading && toast == NoToast
    {
      couponCode := "";
      validationResult := None;
      loading := false;
      toast := NoToast;
    }

    /** `validateCoupon`; `queried` says whether the table was read at all, `readFails` says
        whether the read returned an error, whose `data` is null and which the page therefore
        reports like a missing row, and `shownDate` stands for
        `new Date(result.used_at!).toLocaleString()`. */
    method ValidateCoupon(db: Database, readFails: bool, shownDate: string) returns (queried: bool)
      modifies this`validationResult, this`loading, this`toast
      ensures queried <==> JsString.Trim(couponCode) != ""
      ensures JsString.Trim(couponCode) == "" ==>
        toast == Toast("Error", "Please enter a coupon code")
        && validationResult == old(validationResult) && loading == old(loading)
      ensures JsString.Trim(couponCode) != "" ==>
        !loading &&
        match (if readFails then NotFound else LookUp(db.orders, db.orderItems, db.coupons, db.prashads, couponCode))
        case NotFound => validationResult.None? && toast == Toast("Invalid Coupon", "Coupon code not found")
        case Failed => validationResult == old(validationResult) && toast == Toast("Error", "Failed to validate coupon")
        case Found(v) =>
          && validationResult == Some(v)
          && toast == (if v.status == Used then Toast("Coupon Already Used", "This coupon was used on " + shownDate)
                       else Toast("Valid Coupon", "Coupon is valid and ready to use"))
    {
      if JsString.Trim(couponCode) == "" {
        toast := Toast("Error", "Please enter a coupon code");
        return false;
      }
      loading := true;
      var found := if readFails then NotFound else LookUp(db.orders, db.orderItems, db.coupons, db.prashads, couponCode);
      match found {
        case NotFound =>
          validationResult := None;
          toast := Toast("Invalid Coupon", "Coupon code not found");
        case Failed =>
          toast := Toast("Error", "Failed to validate coupon");
        case Found(v) =>
          validationResult := Some(v);
          if v.status == Used {
            toast := Toast("Coupon Already Used", "This coupon was used on " + shownDate);
          } else {
            toast := Toast("Valid Coupon", "Coupon is valid and ready to use");
          }
      }
      loading := false;
      return true;
    }

    /**
     * `markAsUsed`. `writeFails` says whether the update is rejected; `writeTime` and
     * `shownTime` are the two `new Date().toISOString()` readings.
     */
    method MarkAsUsed(db: Database, writeFails: bool, writeTime: string, shownTime: string)
      modifies db`orderItems, this`validationResult, this`toast
      ensures !WritesOnMark(old(validationResult)) ==>
        db.orderItems == old(db.orderItems) && validationResult == old(validationResult) && toast == old(toast)
      ensures WritesOnMark(old(validationResult)) && writeFails ==>
        db.orderItems == old(db.orderItems) && validationResult == old(validationResult)
        && toast == Toast("Error", "Failed to mark coupon as used")
      ensures WritesOnMark(old(validationResult)) && !writeFails ==>
        && db.orderItems == UpdateWhere(old(db.orderItems), old(validationResult).value.id, MarkedUsed(writeTime))
        && validationResult == Some(AfterMark(old(validationResult).value, shownTime))
        && toast == Toast("Coupon Marked as Used", "The coupon has been successfully marked as used")
    {
      if !WritesOnMark(validationResult) {
        return;
      }
      var v := validationResult.value;
      if writeFails {
        toast := Toast("Error", "Failed to mark coupon as used");
        return;
      }
      db.orderItems := UpdateWhere(db.orderItems, v.id, MarkedUsed(writeTime));
      validationResult := Some(AfterMark(v, shownTime));
      toast := Toast("Coupon Marked as Used", "The coupon has been successfully marked as used");
    }
  }
}
