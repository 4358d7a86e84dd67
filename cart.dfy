/**
 * The shopping page (`CouponList`): the cart and its updaters, the two totals, the prashad
 * filters and the grouping of coupons by category.
 */
module CouponList {
  import opened Options
  import opened Catalog
  import JsString
  import Seqs

  // ================================================================ cart lines

  /** The `type` argument of `updateQuantity`. */
  datatype ItemKind = CouponKind | PrashadKind

  /** A cart line holds either a coupon or a prashad, never both. */
  datatype CartLine =
    | CouponLine(coupon: Coupon, quantity: int)
    | PrashadLine(prashad: Prashad, quantity: int)
  {
    function Kind(): ItemKind {
      if CouponLine? then CouponKind else PrashadKind
    }

    function ItemId(): string {
      if CouponLine? then coupon.id else prashad.id
    }

    /** `item.coupon?.price_in_cents || item.prashad?.price_in_cents || 0`: on a tagged line
        this is the price of the one item it holds (a price of 0 falls through to 0). */
    function UnitPrice(): int {
      if CouponLine? then coupon.priceInCents else prashad.priceInCents
    }

    function WithQuantity(q: int): CartLine {
      this.(quantity := q)
    }
  }

  /** What identifies the item of a line. */
  function Key(line: CartLine): (ItemKind, string) {
    (line.Kind(), line.ItemId())
  }

  /** What the `find`/`map` callbacks compare: `item.coupon?.id === id` or `item.prashad?.id === id`. */
  predicate Matches(line: CartLine, kind: ItemKind, id: string) {
    Key(line) == (kind, id)
  }

  ghost predicate AllPositive(cart: seq<CartLine>) {
    forall i :: 0 <= i < |cart| ==> cart[i].quantity >= 1
  }

  ghost predicate UniqueKeys(cart: seq<CartLine>) {
    forall i, j :: 0 <= i < |cart| && 0 <= j < |cart| && i != j ==> Key(cart[i]) != Key(cart[j])
  }

  /** At most one line per item and every quantity at least 1. */
  ghost predicate WellFormed(cart: seq<CartLine>) {
    AllPositive(cart) && UniqueKeys(cart)
  }

  /** `prev.find(...)`: the position of the first line for the item. */
  function Find(cart: seq<CartLine>, kind: ItemKind, id: string): (r: Option<nat>)
    ensures r.Some? ==> r.value < |cart| && Matches(cart[r.value], kind, id)
    ensures r.Some? ==> forall j :: 0 <= j < r.value ==> !Matches(cart[j], kind, id)
    ensures r.None? ==> forall j :: 0 <= j < |cart| ==> !Matches(cart[j], kind, id)
  {
    if cart == [] then None
    else if Matches(cart[0], kind, id) then Some(0)
    else match Find(cart[1..], kind, id)
      case None => None
      case Some(j) => Some(j + 1)
  }

  /** In a cart with unique keys the line `Find` returns is the only one for its item. */
  lemma OnlyMatch(cart: seq<CartLine>, kind: ItemKind, id: string, i: nat)
    requires UniqueKeys(cart) && Find(cart, kind, id) == Some(i)
    ensures forall j :: 0 <= j < |cart| && j != i ==> !Matches(cart[j], kind, id)
  {
  }

  lemma ReplaceKeepsWellFormed(cart: seq<CartLine>, i: nat, x: CartLine)
    requires WellFormed(cart) && i < |cart| && Key(x) == Key(cart[i]) && x.quantity >= 1
    ensures WellFormed(cart[i := x])
  {
    var r := cart[i := x];
    assert forall j :: 0 <= j < |r| ==> Key(r[j]) == Key(cart[j]);
  }

  lemma RemoveKeepsWellFormed(cart: seq<CartLine>, i: nat)
    requires WellFormed(cart) && i < |cart|
    ensures WellFormed(cart[..i] + cart[i + 1..])
  {
    var r := cart[..i] + cart[i + 1..];
    assert forall j :: 0 <= j < |r| ==> r[j] == cart[if j < i then j else j + 1];
  }

  lemma AppendKeepsWellFormed(cart: seq<CartLine>, x: CartLine)
    requires WellFormed(cart) && x.quantity >= 1
    requires forall j :: 0 <= j < |cart| ==> Key(cart[j]) != Key(x)
    ensures WellFormed(cart + [x])
  {
  }

  // ================================================================ adding

  /** The `prev.map(...)` of an add: every line for the item gets one more. */
  function IncrementMatching(cart: seq<CartLine>, kind: ItemKind, id: string): seq<CartLine> {
    seq(|cart|, i requires 0 <= i < |cart| =>
      if Matches(cart[i], kind, id) then cart[i].WithQuantity(cart[i].quantity + 1) else cart[i])
  }

  /** The common body of `addToCart` and `addPrashadToCart`. */
  function AddLine(cart: seq<CartLine>, kind: ItemKind, id: string, newLine: CartLine): seq<CartLine> {
    if Find(cart, kind, id).Some? then IncrementMatching(cart, kind, id) else cart + [newLine]
  }

  /** `addToCart(coupon)` applied to the cart. */
  function AddedCoupon(cart: seq<CartLine>, coupon: Coupon): seq<CartLine> {
    AddLine(cart, CouponKind, coupon.id, CouponLine(coupon, 1))
  }

  /** `addPrashadToCart(prashad)` applied to the cart. */
  function AddedPrashad(cart: seq<CartLine>, prashad: Prashad): seq<CartLine> {
    AddLine(cart, PrashadKind, prashad.id, PrashadLine(prashad, 1))
  }

  /** Adding an item already in a cart with unique keys adds one to its line and changes
      nothing else; the line keeps the item it was created with. */
  lemma AddExisting(cart: seq<CartLine>, kind: ItemKind, id: string, newLine: CartLine, i: nat)
    requires UniqueKeys(cart) && Find(cart, kind, id) == Some(i)
    ensures AddLine(cart, kind, id, newLine) == cart[i := cart[i].WithQuantity(cart[i].quantity + 1)]
  {
    OnlyMatch(cart, kind, id, i);
  }

  /** Adding an item that is not in the cart appends one line of quantity 1. */
  lemma AddNew(cart: seq<CartLine>, coupon: Coupon, prashad: Prashad)
    ensures Find(cart, CouponKind, coupon.id).None? ==>
      AddedCoupon(cart, coupon) == cart + [CouponLine(coupon, 1)]
    ensures Find(cart, PrashadKind, prashad.id).None? ==>
      AddedPrashad(cart, prashad) == cart + [PrashadLine(prashad, 1)]
  {
  }

  /** A prashad add never touches a coupon line, and the other way round. */
  lemma AddLeavesOtherKind(cart: seq<CartLine>, coupon: Coupon, prashad: Prashad, i: nat)
    requires i < |cart|
    ensures cart[i].PrashadLine? ==> AddedCoupon(cart, coupon)[i] == cart[i]
    ensures cart[i].CouponLine? ==> AddedPrashad(cart, prashad)[i] == cart[i]
  {
  }

  lemma AddPreservesWellFormed(cart: seq<CartLine>, kind: ItemKind, id: string, newLine: CartLine)
    requires WellFormed(cart)
    requires Key(newLine) == (kind, id) && newLine.quantity == 1
    ensures WellFormed(AddLine(cart, kind, id, newLine))
  {
    match Find(cart, kind, id)
    case Some(i) =>
      AddExisting(cart, kind, id, newLine, i);
      ReplaceKeepsWellFormed(cart, i, cart[i].WithQuantity(cart[i].quantity + 1));
    case None =>
      AppendKeepsWellFormed(cart, newLine);
  }

  // ================================================================ changing a quantity

  function Max0(n: int): int {
    if n < 0 then 0 else n
  }

  predicate IsPositiveLine(line: CartLine) {
    line.quantity > 0
  }

  /** The `prev.map(...)` of `updateQuantity`: the matched line becomes `max(0, q + delta)`. */
  function ClampMatching(cart: seq<CartLine>, kind: ItemKind, id: string, delta: int): seq<CartLine> {
    seq(|cart|, i requires 0 <= i < |cart| =>
      if Matches(cart[i], kind, id) then cart[i].WithQuantity(Max0(cart[i].quantity + delta)) else cart[i])
  }

  /** `updateQuantity(itemId, delta, type)` applied to the cart: clamp, then drop every line
      whose quantity is not positive. */
  function QuantityUpdated(cart: seq<CartLine>, itemId: string, delta: int, kind: ItemKind): (r: seq<CartLine>)
    ensures forall i :: 0 <= i < |r| ==> r[i].quantity > 0
  {
    Seqs.Filter(IsPositiveLine, ClampMatching(cart, kind, itemId, delta))
  }

  /** The positive-quantity filter around one line of a cart whose other lines are positive. */
  lemma FilterAround(before: seq<CartLine>, x: CartLine, after: seq<CartLine>)
    requires AllPositive(before) && AllPositive(after)
    ensures Seqs.Filter(IsPositiveLine, before + [x] + after)
      == before + (if x.quantity > 0 then [x] else []) + after
  {
    Seqs.FilterAppend(IsPositiveLine, before + [x], after);
    Seqs.FilterAppend(IsPositiveLine, before, [x]);
    Seqs.FilterAll(IsPositiveLine, before);
    Seqs.FilterAll(IsPositiveLine, after);
    assert [x][1..] == [];
  }

  lemma ClampAt(cart: seq<CartLine>, itemId: string, delta: int, kind: ItemKind, i: nat)
    requires UniqueKeys(cart) && Find(cart, kind, itemId) == Some(i)
    ensures ClampMatching(cart, kind, itemId, delta)
      == cart[..i] + [cart[i].WithQuantity(Max0(cart[i].quantity + delta))] + cart[i + 1..]
  {
    OnlyMatch(cart, kind, itemId, i);
  }

  /** On a well-formed cart, `updateQuantity` changes the one matching line to `q + delta`,
      removes it when that is not positive, and keeps all other lines in their order. */
  lemma UpdateOnWellFormed(cart: seq<CartLine>, itemId: string, delta: int, kind: ItemKind)
    requires WellFormed(cart)
    ensures Find(cart, kind, itemId).None? ==> QuantityUpdated(cart, itemId, delta, kind) == cart
    ensures Find(cart, kind, itemId).Some? ==>
      var i := Find(cart, kind, itemId).value;
      var q := cart[i].quantity + delta;
      QuantityUpdated(cart, itemId, delta, kind)
        == cart[..i] + (if q > 0 then [cart[i].WithQuantity(q)] else []) + cart[i + 1..]
  {
    match Find(cart, kind, itemId)
    case None =>
      assert ClampMatching(cart, kind, itemId, delta) == cart;
      Seqs.FilterAll(IsPositiveLine, cart);
    case Some(i) =>
      UpdateAt(cart, itemId, delta, kind, i);
  }

  lemma UpdateAt(cart: seq<CartLine>, itemId: string, delta: int, kind: ItemKind, i: nat)
    requires WellFormed(cart) && Find(cart, kind, itemId) == Some(i)
    ensures QuantityUpdated(cart, itemId, delta, kind)
      == cart[..i] + (if cart[i].quantity + delta > 0 then [cart[i].WithQuantity(cart[i].quantity + delta)] else []) + cart[i + 1..]
  {
    var before, after := cart[..i], cart[i + 1..];
    var x := cart[i].WithQuantity(Max0(cart[i].quantity + delta));
    ClampAt(cart, itemId, delta, kind, i);
    assert AllPositive(before) && AllPositive(after);
    FilterAround(before, x, after);
  }

  lemma SpliceIsReplace(cart: seq<CartLine>, i: nat, x: CartLine)
    requires i < |cart|
    ensures cart[..i] + [x] + cart[i + 1..] == cart[i := x]
    ensures cart[..i] + [] + cart[i + 1..] == cart[..i] + cart[i + 1..]
  {
  }

  lemma UpdatePreservesWellFormed(cart: seq<CartLine>, itemId: string, delta: int, kind: ItemKind)
    requires WellFormed(cart)
    ensures WellFormed(QuantityUpdated(cart, itemId, delta, kind))
  {
    match Find(cart, kind, itemId)
    case None =>
      UpdateOnWellFormed(cart, itemId, delta, kind);
    case Some(i) =>
      UpdateAt(cart, itemId, delta, kind, i);
      var q := cart[i].quantity + delta;
      SpliceIsReplace(cart, i, cart[i].WithQuantity(q));
      if q > 0 {
        ReplaceKeepsWellFormed(cart, i, cart[i].WithQuantity(q));
      } else {
        RemoveKeepsWellFormed(cart, i);
      }
  }

  // ================================================================ any sequence of actions

  /** The button handlers that change the cart. */
  datatype CartAction =
    | AddCouponAction(coupon: Coupon)
    | AddPrashadAction(prashad: Prashad)
    | UpdateAction(itemId: string, delta: int, kind: ItemKind)

  function Apply(cart: seq<CartLine>, action: CartAction): seq<CartLine> {
    match action
    case AddCouponAction(c) => AddedCoupon(cart, c)
    case AddPrashadAction(p) => AddedPrashad(cart, p)
    case UpdateAction(id, d, k) => QuantityUpdated(cart, id, d, k)
  }

  function ApplyAll(cart: seq<CartLine>, actions: seq<CartAction>): seq<CartLine>
    decreases |actions|
  {
    if actions == [] then cart else ApplyAll(Apply(cart, actions[0]), actions[1..])
  }

  lemma ApplyPreservesWellFormed(cart: seq<CartLine>, action: CartAction)
    requires WellFormed(cart)
    ensures WellFormed(Apply(cart, action))
  {
    match action {
      case AddCouponAction(c) => AddPreservesWellFormed(cart, CouponKind, c.id, CouponLine(c, 1));
      case AddPrashadAction(p) => AddPreservesWellFormed(cart, PrashadKind, p.id, PrashadLine(p, 1));
      case UpdateAction(id, d, k) => UpdatePreservesWellFormed(cart, id, d, k);
    }
  }

  /** Starting from a well-formed cart, every sequence of adds and quantity changes keeps at
      most one line per item and every quantity positive. */
  lemma {:induction false} ActionsPreserveWellFormed(cart: seq<CartLine>, actions: seq<CartAction>)
    requires WellFormed(cart)
    ensures WellFormed(ApplyAll(cart, actions))
    decreases |actions|
  {
    if actions != [] {
      ApplyPreservesWellFormed(cart, actions[0]);
      ActionsPreserveWellFormed(Apply(cart, actions[0]), actions[1..]);
    }
  }

  // ================================================================ totals

  function LineQuantity(line: CartLine): int {
    line.quantity
  }

  function LineTotal(line: CartLine): int {
    line.UnitPrice() * line.quantity
  }

  /** `cart.reduce((sum, item) => sum + f(item), 0)`. */
  function Sum(f: CartLine -> int, cart: seq<CartLine>): int {
    if cart == [] then 0 else Sum(f, cart[..|cart| - 1]) + f(cart[|cart| - 1])
  }

  /** `totalItems`. */
  function SumQuantities(cart: seq<CartLine>): int {
    Sum(LineQuantity, cart)
  }

  /** `totalPrice`. */
  function SumPrices(cart: seq<CartLine>): int {
    Sum(LineTotal, cart)
  }

  lemma {:induction false} SumAppend(f: CartLine -> int, a: seq<CartLine>, b: seq<CartLine>)
    ensures Sum(f, a + b) == Sum(f, a) + Sum(f, b)
    decreases |b|
  {
    if b == [] {
      assert a + b == a;
    } else {
      assert (a + b)[..|a + b| - 1] == a + b[..|b| - 1];
      SumAppend(f, a, b[..|b| - 1]);
    }
  }

  lemma SumSingle(f: CartLine -> int, x: CartLine)
    ensures Sum(f, [x]) == f(x)
  {
    assert [x][..0] == [];
  }

  /** Replacing one line changes a total by the difference of the two lines. */
  lemma SumReplace(f: CartLine -> int, cart: seq<CartLine>, i: nat, x: CartLine)
    requires i < |cart|
    ensures Sum(f, cart[i := x]) == Sum(f, cart) - f(cart[i]) + f(x)
  {
    assert cart == cart[..i] + [cart[i]] + cart[i + 1..];
    assert cart[i := x] == cart[..i] + [x] + cart[i + 1..];
    SumAppend(f, cart[..i] + [cart[i]], cart[i + 1..]);
    SumAppend(f, cart[..i], [cart[i]]);
    SumAppend(f, cart[..i] + [x], cart[i + 1..]);
    SumAppend(f, cart[..i], [x]);
    SumSingle(f, x);
    SumSingle(f, cart[i]);
  }

  /** Removing one line subtracts that line from a total. */
  lemma SumRemove(f: CartLine -> int, cart: seq<CartLine>, i: nat)
    requires i < |cart|
    ensures Sum(f, cart[..i] + cart[i + 1..]) == Sum(f, cart) - f(cart[i])
  {
    assert cart == cart[..i] + [cart[i]] + cart[i + 1..];
    SumAppend(f, cart[..i] + [cart[i]], cart[i + 1..]);
    SumAppend(f, cart[..i], [cart[i]]);
    SumAppend(f, cart[..i], cart[i + 1..]);
    SumSingle(f, cart[i]);
  }

  /** The empty cart has no items and costs nothing; the totals of two carts put together add up. */
  lemma TotalsOfEmptyAndAppend(a: seq<CartLine>, b: seq<CartLine>)
    ensures SumQuantities([]) == 0 && SumPrices([]) == 0
    ensures SumQuantities(a + b) == SumQuantities(a) + SumQuantities(b)
    ensures SumPrices(a + b) == SumPrices(a) + SumPrices(b)
  {
    SumAppend(LineQuantity, a, b);
    SumAppend(LineTotal, a, b);
  }

  /** Adding an item already in the cart raises `totalItems` by one and `totalPrice` by the
      unit price the line was created with. */
  lemma AddExistingTotals(cart: seq<CartLine>, kind: ItemKind, id: string, newLine: CartLine, i: nat)
    requires UniqueKeys(cart) && Find(cart, kind, id) == Some(i)
    ensures SumQuantities(AddLine(cart, kind, id, newLine)) == SumQuantities(cart) + 1
    ensures SumPrices(AddLine(cart, kind, id, newLine)) == SumPrices(cart) + cart[i].UnitPrice()
  {
    AddExisting(cart, kind, id, newLine, i);
    var x := cart[i].WithQuantity(cart[i].quantity + 1);
    SumReplace(LineQuantity, cart, i, x);
    SumReplace(LineTotal, cart, i, x);
    assert LineTotal(x) == LineTotal(cart[i]) + cart[i].UnitPrice();
  }

  /** Adding a new item raises `totalItems` by one and `totalPrice` by its price. */
  lemma AddNewTotals(cart: seq<CartLine>, kind: ItemKind, id: string, newLine: CartLine)
    requires Find(cart, kind, id).None? && newLine.quantity == 1
    ensures SumQuantities(AddLine(cart, kind, id, newLine)) == SumQuantities(cart) + 1
    ensures SumPrices(AddLine(cart, kind, id, newLine)) == SumPrices(cart) + newLine.UnitPrice()
  {
    TotalsOfEmptyAndAppend(cart, [newLine]);
    SumSingle(LineQuantity, newLine);
    SumSingle(LineTotal, newLine);
  }

  /** A quantity change on a well-formed cart moves `totalItems` from `q` to `max(0, q + delta)`
      for the one matching line, and leaves it alone when nothing matches. */
  lemma UpdateTotalItems(cart: seq<CartLine>, itemId: string, delta: int, kind: ItemKind)
    requires WellFormed(cart)
    ensures Find(cart, kind, itemId).None? ==>
      SumQuantities(QuantityUpdated(cart, itemId, delta, kind)) == SumQuantities(cart)
    ensures Find(cart, kind, itemId).Some? ==>
      var i := Find(cart, kind, itemId).value;
      SumQuantities(QuantityUpdated(cart, itemId, delta, kind))
        == SumQuantities(cart) - cart[i].quantity + Max0(cart[i].quantity + delta)
  {
    match Find(cart, kind, itemId)
    case None =>
      UpdateOnWellFormed(cart, itemId, delta, kind);
    case Some(i) =>
      UpdateAt(cart, itemId, delta, kind, i);
      var q := cart[i].quantity + delta;
      SpliceIsReplace(cart, i, cart[i].WithQuantity(q));
      if q > 0 {
        SumReplace(LineQuantity, cart, i, cart[i].WithQuantity(q));
      } else {
        SumRemove(LineQuantity, cart, i);
      }
  }

  /** A prashad line at 5000 x 2 and a coupon line at 10000 x 1 total 20000 for 3 items. */
  lemma TotalPriceExample(p: Prashad, c: Coupon)
    requires p.priceInCents == 5000 && c.priceInCents == 10000
    ensures SumPrices([PrashadLine(p, 2), CouponLine(c, 1)]) == 20000
    ensures SumQuantities([PrashadLine(p, 2), CouponLine(c, 1)]) == 3
  {
    TotalsOfEmptyAndAppend([PrashadLine(p, 2)], [CouponLine(c, 1)]);
    SumSingle(LineTotal, PrashadLine(p, 2));
    SumSingle(LineTotal, CouponLine(c, 1));
    SumSingle(LineQuantity, PrashadLine(p, 2));
    SumSingle(LineQuantity, CouponLine(c, 1));
    assert [PrashadLine(p, 2)] + [CouponLine(c, 1)] == [PrashadLine(p, 2), CouponLine(c, 1)];
  }

  // ================================================================ prashad filters

  /** `prashad.name.toLowerCase().includes(searchQuery.toLowerCase())`. */
  predicate NameMatches(p: Prashad, query: string) {
    JsString.Includes(JsString.ToLower(p.name), JsString.ToLower(query))
  }

  /** `prashad.meal_time === mealTimeFilter`. */
  predicate MealMatches(p: Prashad, mealTimeFilter: string) {
    MealTimeName(p.mealTime) == mealTimeFilter
  }

  function NameTest(query: string): Prashad -> bool {
    p => NameMatches(p, query)
  }

  function MealTest(mealTimeFilter: string): Prashad -> bool {
    p => MealMatches(p, mealTimeFilter)
  }

  /** The list `applyFilters` stores: the search filter (skipped for an empty query), then the
      meal-time filter (skipped for an empty filter). */
  function Filtered(prashads: seq<Prashad>, searchQuery: string, mealTimeFilter: string): seq<Prashad> {
    var byName := if searchQuery != "" then Seqs.Filter(NameTest(searchQuery), prashads) else prashads;
    if mealTimeFilter != "" then Seqs.Filter(MealTest(mealTimeFilter), byName) else byName
  }

  /** The reference test a prashad must pass: both filters, each vacuous when empty. */
  predicate PassesFilters(p: Prashad, searchQuery: string, mealTimeFilter: string) {
    (searchQuery == "" || NameMatches(p, searchQuery)) && (mealTimeFilter == "" || MealMatches(p, mealTimeFilter))
  }

  function PassesTest(searchQuery: string, mealTimeFilter: string): Prashad -> bool {
    p => PassesFilters(p, searchQuery, mealTimeFilter)
  }

  /** The two successive filters select, in order, exactly the prashads that pass both tests. */
  lemma FilteredIsOnePass(prashads: seq<Prashad>, searchQuery: string, mealTimeFilter: string)
    ensures Filtered(prashads, searchQuery, mealTimeFilter) == Seqs.Filter(PassesTest(searchQuery, mealTimeFilter), prashads)
  {
    var both := PassesTest(searchQuery, mealTimeFilter);
    if searchQuery != "" && mealTimeFilter != "" {
      Seqs.FilterTwice(NameTest(searchQuery), MealTest(mealTimeFilter), both, prashads);
    } else if searchQuery != "" {
      Seqs.FilterTwice(NameTest(searchQuery), NameTest(searchQuery), both, prashads);
      Seqs.FilterAll(NameTest(searchQuery), Seqs.Filter(NameTest(searchQuery), prashads));
    } else if mealTimeFilter != "" {
      Seqs.FilterTwice(MealTest(mealTimeFilter), MealTest(mealTimeFilter), both, prashads);
      Seqs.FilterAll(MealTest(mealTimeFilter), Seqs.Filter(MealTest(mealTimeFilter), prashads));
    } else {
      Seqs.FilterAll(both, prashads);
    }
  }

  /** A prashad is listed exactly when it is in the catalogue and passes both filters. */
  lemma FilteredMember(prashads: seq<Prashad>, searchQuery: string, mealTimeFilter: string, p: Prashad)
    ensures p in Filtered(prashads, searchQuery, mealTimeFilter)
      <==> p in prashads && PassesFilters(p, searchQuery, mealTimeFilter)
  {
    FilteredIsOnePass(prashads, searchQuery, mealTimeFilter);
    Seqs.FilterMember(PassesTest(searchQuery, mealTimeFilter), prashads, p);
  }

  /** After `resetFilters` the whole list is shown again. */
  lemma ResetShowsAll(prashads: seq<Prashad>)
    ensures Filtered(prashads, "", "") == prashads
  {
  }

  /** The search ignores the case of the query. */
  lemma SearchIgnoresQueryCase(prashads: seq<Prashad>, searchQuery: string, mealTimeFilter: string)
    ensures Filtered(prashads, JsString.ToLower(searchQuery), mealTimeFilter) == Filtered(prashads, searchQuery, mealTimeFilter)
  {
    var lower := JsString.ToLower(searchQuery);
    JsString.ToLowerIdempotent(searchQuery);
    assert lower == "" <==> searchQuery == "";
    Seqs.FilterEquivalent(NameTest(lower), NameTest(searchQuery), prashads);
  }

  // ================================================================ grouping coupons

  /** `coupon.category || "Other"`. */
  function CategoryOf(c: Coupon): string {
    match c.category
    case Some(k) => if k != "" then k else "Other"
    case None => "Other"
  }

  function InCategory(k: string): Coupon -> bool {
    c => CategoryOf(c) == k
  }

  /** `groups` holds one key per category that occurs, and under each key the coupons of that
      category in input order. */
  ghost predicate IsGrouping(coupons: seq<Coupon>, groups: map<string, seq<Coupon>>) {
    && (forall k :: k in groups <==> exists c :: c in coupons && CategoryOf(c) == k)
    && (forall k :: k in groups ==> groups[k] == Seqs.Filter(InCategory(k), coupons))
  }

  /** The accumulator step: push `c` onto its category's list, creating the list if needed. */
  function Pushed(groups: map<string, seq<Coupon>>, c: Coupon): map<string, seq<Coupon>> {
    var k := CategoryOf(c);
    groups[k := (if k in groups then groups[k] else []) + [c]]
  }

  lemma PushedKeepsGrouping(prefix: seq<Coupon>, groups: map<string, seq<Coupon>>, c: Coupon)
    requires IsGrouping(prefix, groups)
    ensures IsGrouping(prefix + [c], Pushed(groups, c))
  {
    var k := CategoryOf(c);
    var next := Pushed(groups, c);
    forall key | key in next
      ensures next[key] == Seqs.Filter(InCategory(key), prefix + [c])
    {
      Seqs.FilterAppend(InCategory(key), prefix, [c]);
      assert [c][1..] == [];
      if key == k && k !in groups {
        Seqs.FilterNone(InCategory(key), prefix);
      }
    }
    forall key
      ensures key in next <==> exists d :: d in prefix + [c] && CategoryOf(d) == key
    {
      if key in next && key != k {
        var d :| d in prefix && CategoryOf(d) == key;
        assert d in prefix + [c];
      }
      if key == k {
        assert c in prefix + [c];
      }
    }
  }

  /** `groupedCoupons`: the `reduce` that pushes every coupon into its category's list. */
  method GroupCoupons(coupons: seq<Coupon>) returns (groups: map<string, seq<Coupon>>)
    ensures IsGrouping(coupons, groups)
  {
    groups := map[];
    for n := 0 to |coupons|
      invariant IsGrouping(coupons[..n], groups)
    {
      PushedKeepsGrouping(coupons[..n], groups, coupons[n]);
      assert coupons[..n + 1] == coupons[..n] + [coupons[n]];
      groups := Pushed(groups, coupons[n]);
    }
    assert coupons[..|coupons|] == coupons;
  }

  /** Each coupon is placed in exactly one group, as often as it occurs in the input. */
  lemma GroupingPlacesEachCouponOnce(coupons: seq<Coupon>, groups: map<string, seq<Coupon>>, c: Coupon)
    requires IsGrouping(coupons, groups) && c in coupons
    ensures CategoryOf(c) in groups
    ensures multiset(groups[CategoryOf(c)])[c] == multiset(coupons)[c]
    ensures forall k :: k in groups && k != CategoryOf(c) ==> c !in groups[k]
  {
    Seqs.FilterCount(InCategory(CategoryOf(c)), coupons, c);
    forall k | k in groups && k != CategoryOf(c)
      ensures c !in groups[k]
    {
      Seqs.FilterMember(InCategory(k), coupons, c);
    }
  }

  // ---------------------------------------------------------------- the grouping as written

  /** Own-looking keys of a `{}` literal: the members of `Object.prototype`. */
  const ObjectPrototypeMembers: set<string> := {
    "constructor", "hasOwnProperty", "isPrototypeOf", "propertyIsEnumerable",
    "toString", "toLocaleString", "valueOf", "__proto__",
    "__defineGetter__", "__defineSetter__", "__lookupGetter__", "__lookupSetter__"
  }

  /** One step of the reduce over a `{}` accumulator. `acc[category]` is found on the prototype
      for the names above, so `!acc[category]` is false, no list is created, and `.push` on a
      function throws a TypeError (`None`). */
  function PushedAsWritten(acc: Option<map<string, seq<Coupon>>>, c: Coupon): Option<map<string, seq<Coupon>>> {
    match acc
    case None => None
    case Some(groups) =>
      var k := CategoryOf(c);
      if k in groups then Some(groups[k := groups[k] + [c]])
      else if k in ObjectPrototypeMembers then None
      else Some(groups[k := [c]])
  }

  function GroupedFrom(acc: Option<map<string, seq<Coupon>>>, coupons: seq<Coupon>): Option<map<string, seq<Coupon>>>
    decreases |coupons|
  {
    if coupons == [] then acc else GroupedFrom(PushedAsWritten(acc, coupons[0]), coupons[1..])
  }

  /** `groupedCoupons` as the source computes it; `None` is the TypeError. */
  function GroupedAsWritten(coupons: seq<Coupon>): Option<map<string, seq<Coupon>>> {
    GroupedFrom(Some(map[]), coupons)
  }

  /** A single coupon filed under "constructor" makes the render throw instead of grouping. */
  lemma GroupedAsWrittenThrows(c: Coupon)
    requires c.category == Some("constructor")
    ensures GroupedAsWritten([c]) == None
  {
    assert CategoryOf(c) in ObjectPrototypeMembers;
    assert PushedAsWritten(Some(map[]), c) == None;
    assert [c][1..] == [];
    assert GroupedFrom(None, []) == None;
    assert GroupedAsWritten([c]) == GroupedFrom(PushedAsWritten(Some(map[]), c), []);
  }

  lemma AsWrittenStep(coupons: seq<Coupon>, n: nat, groups: map<string, seq<Coupon>>)
    requires n < |coupons| && IsGrouping(coupons[..n], groups)
    requires CategoryOf(coupons[n]) !in ObjectPrototypeMembers
    ensures PushedAsWritten(Some(groups), coupons[n]) == Some(Pushed(groups, coupons[n]))
    ensures IsGrouping(coupons[..n + 1], Pushed(groups, coupons[n]))
  {
    var c := coupons[n];
    PushedAsWrittenIsPushed(groups, c);
    PushedKeepsGrouping(coupons[..n], groups, c);
    assert coupons[..n + 1] == coupons[..n] + [c];
  }

  lemma PushedAsWrittenIsPushed(groups: map<string, seq<Coupon>>, c: Coupon)
    requires CategoryOf(c) !in ObjectPrototypeMembers
    ensures PushedAsWritten(Some(groups), c) == Some(Pushed(groups, c))
  {
    assert [] + [c] == [c];
  }

  /** When no category collides with a prototype member, the source's reduce computes the grouping. */
  lemma {:induction false} GroupedAsWrittenAgrees(coupons: seq<Coupon>, n: nat, groups: map<string, seq<Coupon>>)
    requires n <= |coupons| && IsGrouping(coupons[..n], groups)
    requires forall c :: c in coupons ==> CategoryOf(c) !in ObjectPrototypeMembers
    ensures GroupedFrom(Some(groups), coupons[n..]).Some?
    ensures IsGrouping(coupons, GroupedFrom(Some(groups), coupons[n..]).value)
    decreases |coupons| - n
  {
    if n == |coupons| {
      assert coupons[..n] == coupons;
      assert coupons[n..] == [];
    } else {
      var c := coupons[n];
      AsWrittenStep(coupons, n, groups);
      assert coupons[n..][1..] == coupons[n + 1..];
      GroupedAsWrittenAgrees(coupons, n + 1, Pushed(groups, c));
    }
  }

  // ================================================================ the page state

  /** The component's state: `cart`, the two filter inputs and `filteredPrashads`. */
  class CouponListPage {
    const coupons: seq<Coupon>
    const prashads: seq<Prashad>
    var cart: seq<CartLine>
    var searchQuery: string
    var mealTimeFilter: string
    var filteredPrashads: seq<Prashad>

    /** The cart is well formed and the shown list is the filter effect's result. */
    ghost predicate Valid()
      reads this
    {
      WellFormed(cart) && filteredPrashads == Filtered(prashads, searchQuery, mealTimeFilter)
    }

    constructor (coupons: seq<Coupon>, prashads: seq<Prashad>)
      ensures Valid()
      ensures this.coupons == coupons && this.prashads == prashads
      ensures cart == [] && searchQuery == "" && mealTimeFilter == "" && filteredPrashads == prashads
    {
      this.coupons := coupons;
      this.prashads := prashads;
      cart := [];
      searchQuery := "";
      mealTimeFilter := "";
      filteredPrashads := prashads;
    }

    method AddToCart(coupon: Coupon)
      requires Valid()
      modifies this`cart
      ensures Valid()
      ensures cart == AddedCoupon(old(cart), coupon)
    {
      AddPreservesWellFormed(cart, CouponKind, coupon.id, CouponLine(coupon, 1));
      cart := AddedCoupon(cart, coupon);
    }

    method AddPrashadToCart(prashad: Prashad)
      requires Valid()
      modifies this`cart
      ensures Valid()
      ensures cart == AddedPrashad(old(cart), prashad)
    {
      AddPreservesWellFormed(cart, PrashadKind, prashad.id, PrashadLine(prashad, 1));
      cart := AddedPrashad(cart, prashad);
    }

    method UpdateQuantity(itemId: string, delta: int, kind: ItemKind := CouponKind)
      requires Valid()
      modifies this`cart
      ensures Valid()
      ensures cart == QuantityUpdated(old(cart), itemId, delta, kind)
    {
      UpdatePreservesWellFormed(cart, itemId, delta, kind);
      cart := QuantityUpdated(cart, itemId, delta, kind);
    }

    function TotalItems(): int
      reads this
    {
      SumQuantities(cart)
    }

    function TotalPrice(): int
      reads this
    {
      SumPrices(cart)
    }

    /** `applyFilters`: store the filtered list. */
    method ApplyFilters()
      requires WellFormed(cart)
      modifies this`filteredPrashads
      ensures Valid()
    {
      filteredPrashads := Filtered(prashads, searchQuery, mealTimeFilter);
    }

    /** Typing in the search box; the effect then re-applies the filters. */
    method SetSearchQuery(query: string)
      requires Valid()
      modifies this`searchQuery, this`filteredPrashads
      ensures Valid() && searchQuery == query && mealTimeFilter == old(mealTimeFilter)
    {
      searchQuery := query;
      ApplyFilters();
    }

    /** Choosing a meal time; the effect then re-applies the filters. */
    method SetMealTimeFilter(mealTime: string)
      requires Valid()
      modifies this`mealTimeFilter, this`filteredPrashads
      ensures Valid() && mealTimeFilter == mealTime && searchQuery == old(searchQuery)
    {
      mealTimeFilter := mealTime;
      ApplyFilters();
    }

    /** `resetFilters`, followed by the effect: the full list comes back. */
    method ResetFilters()
      requires Valid()
      modifies this`searchQuery, this`mealTimeFilter, this`filteredPrashads
      ensures Valid() && searchQuery == "" && mealTimeFilter == ""
      ensures filteredPrashads == prashads
    {
      searchQuery := "";
      mealTimeFilter := "";
      ApplyFilters();
    }
  }
}
