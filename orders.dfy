/**
 * The order ledger of js/order-manager.js: order totals, order identifiers,
 * the `orders` table and the queries over it.
 */
module Orders {
  import opened Wrappers
  import opened Text
  import opened Money
  import opened Seqs
  import opened Storage

  /** The flat shipping fee, 5.00. */
  const ShippingFee: int := 500
  /** The tax rate, 10%. */
  const TaxRatePercent: int := 10

  /** A cart line as `createOrder` receives it; a missing or non-numeric price or quantity is `None`. */
  datatype ItemInput = ItemInput(
    id: int, productId: int, name: string, price: Option<int>, quantity: Option<int>,
    size: string, color: Option<string>, image: string)

  /** The `shipping` argument of `createOrder`; an empty string stands for a missing field. */
  datatype ShippingInput = ShippingInput(
    fullName: string, email: string, address: string, city: string, state: string,
    zip: string, country: string, phone: Option<string>)

  /** The errors the ledger throws. */
  datatype OrderError = EmptyItems | MissingShipping | InvalidStatus

  /** A reading of the clock: epoch milliseconds and the local calendar fields (month counted from 1). */
  datatype Clock = Clock(
    millis: int, year: nat, month: nat, day: nat, hours: nat, minutes: nat, seconds: nat)

  /** `x || null` on an optional string: the empty string counts as missing. */
  function OrNull(x: Option<string>): (r: Option<string>)
    ensures r.Some? ==> r.value != ""
    ensures x.Some? && x.value != "" ==> r == x
    ensures x.None? || x == Some("") ==> r == None
  {
    if x == Some("") then None else x
  }

  // ---------------------------------------------------------------- totals

  /** `parseFloat(item.price) || 0` */
  function UnitPrice(it: ItemInput): int {
    it.price.GetOr(0)
  }

  /** `parseInt(item.quantity) || 1`: a missing or zero quantity counts as one. */
  function UnitQuantity(it: ItemInput): int {
    match it.quantity
    case Some(q) => if q == 0 then 1 else q
    case None => 1
  }

  function LineAmount(it: ItemInput): int {
    UnitPrice(it) * UnitQuantity(it)
  }

  /** `calculateSubtotal`: the `reduce` that adds up price times quantity, left to right. */
  function Subtotal(items: seq<ItemInput>): int {
    if items == [] then 0 else Subtotal(items[..|items| - 1]) + LineAmount(items[|items| - 1])
  }

  /** The subtotal of two carts put together is the sum of their subtotals. */
  lemma {:induction false} SubtotalAppend(a: seq<ItemInput>, b: seq<ItemInput>)
    ensures Subtotal(a + b) == Subtotal(a) + Subtotal(b)
    decreases |b|
  {
    if b == [] {
      assert a + b == a;
    } else {
      assert (a + b)[..|a + b| - 1] == a + b[..|b| - 1];
      SubtotalAppend(a, b[..|b| - 1]);
    }
  }

  /** Lines with a price of at least zero and no negative quantity never give a negative subtotal. */
  lemma {:induction false} SubtotalNonnegative(items: seq<ItemInput>)
    requires forall i :: 0 <= i < |items| ==> UnitPrice(items[i]) >= 0 && UnitQuantity(items[i]) >= 0
    ensures Subtotal(items) >= 0
  {
    if items != [] {
      var last := items[|items| - 1];
      MulNonnegative(UnitPrice(last), UnitQuantity(last));
      SubtotalNonnegative(items[..|items| - 1]);
    }
  }

  /** `calculateTax`: the subtotal times the rate, rounded to the cent. */
  function Tax(subtotal: int): (t: int)
    ensures subtotal >= 0 ==> 10 * t - 5 <= subtotal < 10 * t + 5
    ensures subtotal < 0 ==> 10 * t - 5 < subtotal <= 10 * t + 5
  {
    RoundDiv(subtotal * TaxRatePercent, 100)
  }

  /** `calculateTotal`: on whole cents, `toFixed(2)` leaves the sum as it is. */
  function Total(subtotal: int, shipping: int, tax: int): int {
    subtotal + shipping + tax
  }

  /** Totals that add up: the flat fee, the rounded tax, and their sum with the subtotal. */
  predicate ConsistentTotals(t: Totals) {
    t.shipping == ShippingFee && t.tax == Tax(t.subtotal) &&
    t.total == t.subtotal + t.shipping + t.tax
  }

  /** `calculateOrderTotals` */
  function OrderTotals(items: seq<ItemInput>): (t: Totals)
    ensures ConsistentTotals(t) && t.subtotal == Subtotal(items)
  {
    var subtotal := Subtotal(items);
    var tax := Tax(subtotal);
    Totals(subtotal, ShippingFee, tax, Total(subtotal, ShippingFee, tax))
  }

  /**
   * In cents, rounding the tax before adding it gives the same total as rounding
   * the taxed subtotal once: the total is the nearest cent to 110% of the subtotal,
   * plus the fee.
   */
  lemma TotalRoundsOnce(items: seq<ItemInput>)
    ensures OrderTotals(items).total == RoundDiv(11 * Subtotal(items), 10) + ShippingFee
  {
    TaxedRoundsOnce(Subtotal(items));
  }

  /** The subtotal plus its rounded tax is the nearest cent to 110% of the subtotal. */
  lemma TaxedRoundsOnce(s: int)
    ensures s + Tax(s) == RoundDiv(11 * s, 10)
  {
    var t := Tax(s);
    if s >= 0 {
      assert 20 * (s + t) - 10 <= 22 * s < 20 * (s + t) + 10;
    } else {
      assert 20 * (s + t) - 10 < 22 * s <= 20 * (s + t) + 10;
    }
    RoundDivUnique(11 * s, 10, s + t);
  }

  /** One line of 29.99 times 2: subtotal 59.98, tax 6.00, total 70.98. */
  lemma TwoShirtsScenario()
    ensures var items := [ItemInput(1, 1, "Anime T-Shirt", Some(2999), Some(2), "M", None, "")];
      OrderTotals(items) == Totals(5998, 500, 600, 7098)
  {
    var items := [ItemInput(1, 1, "Anime T-Shirt", Some(2999), Some(2), "M", None, "")];
    assert items[..0] == [];
    assert Subtotal(items) == 5998;
    RoundDivUnique(59980, 100, 600);
  }

  // ---------------------------------------------------------------- identifiers

  /** `generateOrderId`: `ORD-YYYYMMDD-HHMMSS-XXXX` from the clock and a random number. */
  function GenerateOrderId(now: Clock, random: nat): string {
    "ORD-" + DatePart(now) + "-" + TimePart(now) + "-" + Padded(random, 4)
  }

  function DatePart(now: Clock): string {
    Digits(now.year) + Padded(now.month, 2) + Padded(now.day, 2)
  }

  function TimePart(now: Clock): string {
    Padded(now.hours, 2) + Padded(now.minutes, 2) + Padded(now.seconds, 2)
  }

  /** The calendar fields a `Date` yields for a four-digit year, and `Math.floor(Math.random() * 10000)`. */
  predicate ValidClock(now: Clock) {
    1000 <= now.year <= 9999 && 1 <= now.month <= 12 && 1 <= now.day <= 31 &&
    now.hours < 24 && now.minutes < 60 && now.seconds < 60
  }

  /** The fields an order identifier encodes. */
  datatype IdFields = IdFields(
    year: nat, month: nat, day: nat, hours: nat, minutes: nat, seconds: nat, random: nat)

  /** The number written by the digits `s[i..j]`, or zero when that is not a run of digits. */
  function FieldValue(s: string, i: nat, j: nat): nat {
    if i <= j <= |s| && AllDigits(s[i..j]) then DecimalValue(s[i..j]) else 0
  }

  /** A field of a field is a field of the whole. */
  lemma SubField(s: string, i: nat, j: nat, a: nat, b: nat)
    requires i <= j <= |s| && a <= b <= j - i
    ensures FieldValue(s, i + a, i + b) == FieldValue(s[i..j], a, b)
  {
    assert forall k :: 0 <= k < b - a ==> s[i..j][a..b][k] == s[i + a..i + b][k];
    assert s[i..j][a..b] == s[i + a..i + b];
  }

  /** Reads the fields back out of an identifier of the `ORD-YYYYMMDD-HHMMSS-XXXX` shape. */
  function ParseOrderId(id: string): Option<IdFields> {
    if |id| == 24 && id[..4] == "ORD-" && id[12] == '-' && id[19] == '-' &&
       AllDigits(id[4..12]) && AllDigits(id[13..19]) && AllDigits(id[20..])
    then
      Some(IdFields(
        FieldValue(id, 4, 8), FieldValue(id, 8, 10), FieldValue(id, 10, 12),
        FieldValue(id, 13, 15), FieldValue(id, 15, 17), FieldValue(id, 17, 19),
        FieldValue(id, 20, 24)))
    else None
  }

  lemma AllDigitsConcat(a: string, b: string)
    requires AllDigits(a) && AllDigits(b)
    ensures AllDigits(a + b)
  {
    assert forall k :: 0 <= k < |a + b| ==> (a + b)[k] == if k < |a| then a[k] else b[k - |a|];
  }

  /** Three digit fields laid side by side can be read apart again. */
  lemma ThreeFields(a: string, b: string, c: string)
    requires AllDigits(a) && AllDigits(b) && AllDigits(c)
    ensures var d := a + b + c;
      AllDigits(d) && FieldValue(d, 0, |a|) == DecimalValue(a) &&
      FieldValue(d, |a|, |a| + |b|) == DecimalValue(b) &&
      FieldValue(d, |a| + |b|, |d|) == DecimalValue(c)
  {
    AllDigitsConcat(a, b);
    AllDigitsConcat(a + b, c);
    var d := a + b + c;
    assert d[0..|a|] == a;
    assert d[|a|..|a| + |b|] == b;
    assert d[|a| + |b|..|d|] == c;
  }

  lemma DatePartReadsBack(now: Clock)
    requires ValidClock(now)
    ensures var d := DatePart(now);
      |d| == 8 && AllDigits(d) && FieldValue(d, 0, 4) == now.year &&
      FieldValue(d, 4, 6) == now.month && FieldValue(d, 6, 8) == now.day
  {
    var y, m, dd := Digits(now.year), Padded(now.month, 2), Padded(now.day, 2);
    SmallPowers();
    DigitsWidth(now.year, 4);
    PaddedRoundTrip(now.month, 2);
    PaddedRoundTrip(now.day, 2);
    ThreeFields(y, m, dd);
  }

  lemma TimePartReadsBack(now: Clock)
    requires ValidClock(now)
    ensures var t := TimePart(now);
      |t| == 6 && AllDigits(t) && FieldValue(t, 0, 2) == now.hours &&
      FieldValue(t, 2, 4) == now.minutes && FieldValue(t, 4, 6) == now.seconds
  {
    var h, m, sec := Padded(now.hours, 2), Padded(now.minutes, 2), Padded(now.seconds, 2);
    SmallPowers();
    PaddedRoundTrip(now.hours, 2);
    PaddedRoundTrip(now.minutes, 2);
    PaddedRoundTrip(now.seconds, 2);
    ThreeFields(h, m, sec);
  }

  /**
   * For a four-digit year and a random number below 10000 the identifier is 24
   * characters of the form `ORD-` 8 digits `-` 6 digits `-` 4 digits, and every
   * field can be read back out of it.
   */
  lemma OrderIdRoundTrip(now: Clock, random: nat)
    requires ValidClock(now) && random < 10000
    ensures var id := GenerateOrderId(now, random);
      |id| == 24 && id[..4] == "ORD-" && id[12] == '-' && id[19] == '-' &&
      AllDigits(id[4..12]) && AllDigits(id[13..19]) && AllDigits(id[20..]) &&
      ParseOrderId(id) == Some(IdFields(now.year, now.month, now.day, now.hours,
                                        now.minutes, now.seconds, random))
  {
    var d, t, r := DatePart(now), TimePart(now), Padded(random, 4);
    DatePartReadsBack(now);
    TimePartReadsBack(now);
    SmallPowers();
    PaddedRoundTrip(random, 4);
    FieldWhole(r);
    IdShape(d, t, r);
    assert GenerateOrderId(now, random) == "ORD-" + d + "-" + t + "-" + r;
  }

  lemma FieldWhole(s: string)
    requires AllDigits(s)
    ensures FieldValue(s, 0, |s|) == DecimalValue(s)
  {
    assert s[0..|s|] == s;
  }

  /** The layout of an identifier, whatever digits fill its fields. */
  lemma IdShape(d: string, t: string, r: string)
    requires |d| == 8 && |t| == 6 && |r| == 4 && AllDigits(d) && AllDigits(t) && AllDigits(r)
    ensures var id := "ORD-" + d + "-" + t + "-" + r;
      |id| == 24 && id[..4] == "ORD-" && id[12] == '-' && id[19] == '-' &&
      id[4..12] == d && id[13..19] == t && id[20..] == r &&
      ParseOrderId(id) == Some(IdFields(
        FieldValue(d, 0, 4), FieldValue(d, 4, 6), FieldValue(d, 6, 8),
        FieldValue(t, 0, 2), FieldValue(t, 2, 4), FieldValue(t, 4, 6), FieldValue(r, 0, 4)))
  {
    var id := "ORD-" + d + "-" + t + "-" + r;
    assert id[4..12] == d;
    assert id[13..19] == t;
    assert id[20..24] == r;
    SubField(id, 4, 12, 0, 4);
    SubField(id, 4, 12, 4, 6);
    SubField(id, 4, 12, 6, 8);
    SubField(id, 13, 19, 0, 2);
    SubField(id, 13, 19, 2, 4);
    SubField(id, 13, 19, 4, 6);
    SubField(id, 20, 24, 0, 4);
  }

  /** Two orders get the same identifier only when created in the same second with the same random number. */
  lemma OrderIdCollision(c1: Clock, r1: nat, c2: Clock, r2: nat)
    requires ValidClock(c1) && r1 < 10000 && ValidClock(c2) && r2 < 10000
    requires GenerateOrderId(c1, r1) == GenerateOrderId(c2, r2)
    ensures c1.year == c2.year && c1.month == c2.month && c1.day == c2.day
    ensures c1.hours == c2.hours && c1.minutes == c2.minutes && c1.seconds == c2.seconds
    ensures r1 == r2
  {
    OrderIdRoundTrip(c1, r1);
    OrderIdRoundTrip(c2, r2);
  }

  // ---------------------------------------------------------------- records

  function StatusName(s: Status): string {
    match s
    case Pending => "pending"
    case Processing => "processing"
    case Shipped => "shipped"
    case Delivered => "delivered"
    case Cancelled => "cancelled"
  }

  /** `validStatuses.includes(status)`, giving the matching state. */
  function ParseStatus(s: string): (r: Option<Status>)
    ensures r.Some? ==> StatusName(r.value) == s
  {
    if s == "pending" then Some(Pending)
    else if s == "processing" then Some(Processing)
    else if s == "shipped" then Some(Shipped)
    else if s == "delivered" then Some(Delivered)
    else if s == "cancelled" then Some(Cancelled)
    else None
  }

  /** Every state's name is accepted and denotes that state. */
  lemma StatusNameRoundTrip(s: Status)
    ensures ParseStatus(StatusName(s)) == Some(s)
  {
  }

  /** The stored form of one cart line. */
  function LineOf(it: ItemInput): LineItem {
    LineItem(
      if it.id != 0 then it.id else it.productId,
      if it.productId != 0 then it.productId else it.id,
      it.name, it.price, UnitQuantity(it),
      if it.size == "" then "N/A" else it.size,
      OrNull(it.color), it.image)
  }

  function LinesOf(items: seq<ItemInput>): (r: seq<LineItem>)
    ensures |r| == |items| && forall i :: 0 <= i < |items| ==> r[i] == LineOf(items[i])
  {
    seq(|items|, i requires 0 <= i < |items| => LineOf(items[i]))
  }

  /** `calculateSubtotal` run again over stored lines: their price (or zero) times their quantity. */
  function LinesSubtotal(lines: seq<LineItem>): int {
    if lines == [] then 0
    else LinesSubtotal(lines[..|lines| - 1]) + lines[|lines| - 1].price.GetOr(0) * lines[|lines| - 1].quantity
  }

  /** The stored lines hold the price and the counted quantity, so they add up to the subtotal of the items. */
  lemma {:induction false} LinesKeepSubtotal(items: seq<ItemInput>)
    ensures LinesSubtotal(LinesOf(items)) == Subtotal(items)
    decreases |items|
  {
    if items != [] {
      var n := |items|;
      assert LinesOf(items)[..n - 1] == LinesOf(items[..n - 1]);
      LinesKeepSubtotal(items[..n - 1]);
    }
  }

  /** The order record `createOrder` builds before saving it. */
  function NewOrder(items: seq<ItemInput>, sh: ShippingInput, id: string, now: int): Order {
    Order(
      id, Normalize(sh.email), sh.fullName,
      ShippingSnapshot(sh.address, sh.city, sh.state, sh.zip, sh.country, OrNull(sh.phone)),
      LinesOf(items), OrderTotals(items), Pending, now, now)
  }

  /** What every order the ledger writes satisfies: a normalized owner and totals that add up. */
  predicate WellFormed(o: Order) {
    o.email == Normalize(o.email) && ConsistentTotals(o.totals)
  }

  predicate AllWellFormed(orders: seq<Order>) {
    forall i :: 0 <= i < |orders| ==> WellFormed(orders[i])
  }

  /** A new order is pending, owned by the normalized address, and its totals add up. */
  lemma NewOrderWellFormed(items: seq<ItemInput>, sh: ShippingInput, id: string, now: int)
    ensures var o := NewOrder(items, sh, id, now);
      WellFormed(o) && o.status == Pending && o.email == Normalize(sh.email) &&
      o.totals.subtotal == Subtotal(items) && |o.items| == |items| &&
      LinesSubtotal(o.items) == o.totals.subtotal
  {
    NormalizeIdempotent(sh.email);
    LinesKeepSubtotal(items);
  }

  // ---------------------------------------------------------------- queries

  /** The order belongs to `email`, compared without case and surrounding whitespace. */
  predicate OwnedBy(o: Order, email: string) {
    Normalize(o.email) == Normalize(email)
  }

  /** The address `getUserOrders` looks up: the argument, or else the signed-in user's. */
  function LookupEmail(email: string, signedIn: string): string {
    if email != "" then email else signedIn
  }

  /**
   * `getUserOrders(email)`; `signedIn` is the signed-in user's address, or empty
   * when nobody is signed in.
   */
  function UserOrders(orders: seq<Order>, email: string, signedIn: string): (r: seq<Order>)
    ensures LookupEmail(email, signedIn) == "" ==> r == []
    ensures forall i :: 0 <= i < |r| ==> r[i] in orders && OwnedBy(r[i], LookupEmail(email, signedIn))
    ensures LookupEmail(email, signedIn) != "" ==>
      forall i :: 0 <= i < |orders| && OwnedBy(orders[i], LookupEmail(email, signedIn)) ==> orders[i] in r
  {
    var e := LookupEmail(email, signedIn);
    if e == "" then [] else Filter(orders, (o: Order) => OwnedBy(o, e))
  }

  /** Appending to the ledger appends to the owner's list, so results keep storage order. */
  lemma UserOrdersAppend(orders: seq<Order>, o: Order, email: string, signedIn: string)
    ensures UserOrders(orders + [o], email, signedIn) ==
      UserOrders(orders, email, signedIn) +
      (if LookupEmail(email, signedIn) != "" && OwnedBy(o, LookupEmail(email, signedIn)) then [o] else [])
  {
    var e := LookupEmail(email, signedIn);
    if e != "" {
      FilterAppend(orders, [o], (x: Order) => OwnedBy(x, e));
    }
  }

  /** An order is found by any spelling of its owner's address that differs only in case and padding. */
  lemma CreatedOrderFound(items: seq<ItemInput>, sh: ShippingInput, id: string, now: int,
                          orders: seq<Order>, query: string, signedIn: string)
    requires query != "" && Normalize(query) == Normalize(sh.email)
    ensures NewOrder(items, sh, id, now) in UserOrders(orders + [NewOrder(items, sh, id, now)], query, signedIn)
  {
    var o := NewOrder(items, sh, id, now);
    NormalizeIdempotent(sh.email);
    assert OwnedBy(o, query);
    UserOrdersAppend(orders, o, query, signedIn);
  }

  /** `getOrderById`: the first order with that identifier, or `null`. */
  function OrderById(orders: seq<Order>, orderId: string): (r: Option<Order>)
    ensures r.Some? <==> exists i :: 0 <= i < |orders| && orders[i].orderId == orderId
    ensures r.Some? ==>
      r.value.orderId == orderId &&
      exists i :: 0 <= i < |orders| && orders[i] == r.value &&
                  forall j :: 0 <= j < i ==> orders[j].orderId != orderId
  {
    var i := FindIndex(orders, (o: Order) => o.orderId == orderId);
    if i < |orders| then Some(orders[i]) else None
  }

  /** `getOrdersByStatus`: the orders whose state is named `status`, in storage order. */
  function OrdersByStatus(orders: seq<Order>, status: string): (r: seq<Order>)
    ensures forall i :: 0 <= i < |r| ==> r[i] in orders && StatusName(r[i].status) == status
    ensures forall i :: 0 <= i < |orders| && StatusName(orders[i].status) == status ==> orders[i] in r
    ensures ParseStatus(status).None? ==> r == []
  {
    var r := Filter(orders, (o: Order) => StatusName(o.status) == status);
    assert ParseStatus(status).None? ==> r == [] by {
      if ParseStatus(status).None? {
        forall i | 0 <= i < |orders| ensures StatusName(orders[i].status) != status {
          StatusNameRoundTrip(orders[i].status);
        }
        FilterDropsAll(orders, (o: Order) => StatusName(o.status) == status);
      }
    }
    r
  }

  /** `getOrdersByDateRange`: the orders created between the two instants, both included. */
  function OrdersByDateRange(orders: seq<Order>, start: int, end: int): (r: seq<Order>)
    ensures forall i :: 0 <= i < |r| ==> r[i] in orders && start <= r[i].orderDate <= end
    ensures forall i :: 0 <= i < |orders| && start <= orders[i].orderDate <= end ==> orders[i] in r
    ensures end < start ==> r == []
  {
    var r := Filter(orders, (o: Order) => start <= o.orderDate <= end);
    FilterDropsAll(orders, (o: Order) => start <= o.orderDate <= end);
    r
  }

  // ---------------------------------------------------------------- updates

  predicate HasId(o: Order, orderId: string) {
    o.orderId == orderId
  }

  /** The ledger after `updateOrderStatus` found the order: only the first match changes. */
  function SetStatus(orders: seq<Order>, orderId: string, status: Status, now: int): (r: seq<Order>)
    ensures |r| == |orders|
  {
    var i := FindIndex(orders, (o: Order) => HasId(o, orderId));
    if i < |orders| then orders[i := orders[i].(status := status, updatedAt := now)] else orders
  }

  /**
   * The first order with the identifier gets the state and the time; every other
   * order, including later ones with the same identifier, is as it was.
   */
  lemma SetStatusChangesFirstMatch(orders: seq<Order>, orderId: string, status: Status, now: int)
    requires exists i :: 0 <= i < |orders| && orders[i].orderId == orderId
    ensures exists i ::
      && 0 <= i < |orders| && orders[i].orderId == orderId
      && (forall j :: 0 <= j < i ==> orders[j].orderId != orderId)
      && SetStatus(orders, orderId, status, now)[i] == orders[i].(status := status, updatedAt := now)
      && forall j :: 0 <= j < |orders| && j != i ==> SetStatus(orders, orderId, status, now)[j] == orders[j]
  {
    var i := FindIndex(orders, (o: Order) => HasId(o, orderId));
    var k :| 0 <= k < |orders| && orders[k].orderId == orderId;
    assert HasId(orders[k], orderId);
    assert i <= k;
    var r := SetStatus(orders, orderId, status, now);
    assert r == orders[i := orders[i].(status := status, updatedAt := now)];
    assert forall j :: 0 <= j < i ==> orders[j].orderId != orderId by {
      forall j | 0 <= j < i ensures orders[j].orderId != orderId {
        assert !HasId(orders[j], orderId);
      }
    }
  }

  /** Setting the same state twice keeps that state; the update time is the later one. */
  lemma SetStatusTwice(orders: seq<Order>, orderId: string, status: Status, t1: int, t2: int)
    ensures SetStatus(SetStatus(orders, orderId, status, t1), orderId, status, t2) ==
      SetStatus(orders, orderId, status, t2)
  {
    var p := (o: Order) => HasId(o, orderId);
    var once := SetStatus(orders, orderId, status, t1);
    var i := FindIndex(orders, p);
    if i < |orders| {
      assert forall j :: 0 <= j < |once| ==> once[j].orderId == orders[j].orderId;
      assert FindIndex(once, p) == i by {
        FindIndexSameKeys(orders, once, orderId);
      }
    } else {
      assert once == orders;
    }
  }

  lemma FindIndexSameKeys(a: seq<Order>, b: seq<Order>, orderId: string)
    requires |a| == |b| && forall j :: 0 <= j < |a| ==> a[j].orderId == b[j].orderId
    ensures FindIndex(a, (o: Order) => HasId(o, orderId)) == FindIndex(b, (o: Order) => HasId(o, orderId))
  {
    var p := (o: Order) => HasId(o, orderId);
    var i, k := FindIndex(a, p), FindIndex(b, p);
    if i < |a| { assert p(b[i]); }
    if k < |b| { assert p(a[k]); }
  }

  /** `deleteOrder` keeps the orders without this identifier. */
  function WithoutOrder(orders: seq<Order>, orderId: string): (r: seq<Order>)
    ensures forall i :: 0 <= i < |r| ==> r[i] in orders && r[i].orderId != orderId
    ensures forall i :: 0 <= i < |orders| && orders[i].orderId != orderId ==> orders[i] in r
    ensures |r| == |orders| <==> forall i :: 0 <= i < |orders| ==> orders[i].orderId != orderId
  {
    FilterKeepsAll(orders, (o: Order) => o.orderId != orderId);
    Filter(orders, (o: Order) => o.orderId != orderId)
  }

  // ---------------------------------------------------------------- statistics

  datatype StatusCounts = StatusCounts(
    pending: nat, processing: nat, shipped: nat, delivered: nat, cancelled: nat)

  /** What `getUserOrderStatistics` reports; amounts in cents. */
  datatype Stats = Stats(
    totalOrders: nat, totalSpent: int, averageOrderValue: int, statusCounts: StatusCounts)

  function CountStatus(orders: seq<Order>, s: Status): nat {
    |Filter(orders, (o: Order) => o.status == s)|
  }

  /** The `reduce` over `order.totals.total`. */
  function Spent(orders: seq<Order>): int {
    if orders == [] then 0 else Spent(orders[..|orders| - 1]) + orders[|orders| - 1].totals.total
  }

  function CountsOf(orders: seq<Order>): StatusCounts {
    StatusCounts(
      CountStatus(orders, Pending), CountStatus(orders, Processing), CountStatus(orders, Shipped),
      CountStatus(orders, Delivered), CountStatus(orders, Cancelled))
  }

  function Sum(c: StatusCounts): nat {
    c.pending + c.processing + c.shipped + c.delivered + c.cancelled
  }

  /** `statusCounts[order.status]++` */
  function Bump(c: StatusCounts, s: Status): StatusCounts {
    match s
    case Pending => c.(pending := c.pending + 1)
    case Processing => c.(processing := c.processing + 1)
    case Shipped => c.(shipped := c.shipped + 1)
    case Delivered => c.(delivered := c.delivered + 1)
    case Cancelled => c.(cancelled := c.cancelled + 1)
  }

  lemma CountStatusSnoc(orders: seq<Order>, o: Order, s: Status)
    ensures CountStatus(orders + [o], s) == CountStatus(orders, s) + (if o.status == s then 1 else 0)
  {
    FilterAppend(orders, [o], (x: Order) => x.status == s);
  }

  /** Counting one more order bumps exactly the count of its state. */
  lemma CountsSnoc(orders: seq<Order>, o: Order)
    ensures CountsOf(orders + [o]) == Bump(CountsOf(orders), o.status)
    ensures Spent(orders + [o]) == Spent(orders) + o.totals.total
  {
    CountStatusSnoc(orders, o, Pending);
    CountStatusSnoc(orders, o, Processing);
    CountStatusSnoc(orders, o, Shipped);
    CountStatusSnoc(orders, o, Delivered);
    CountStatusSnoc(orders, o, Cancelled);
    assert (orders + [o])[..|orders + [o]| - 1] == orders;
  }

  /** Every order is counted under exactly one state, so the five counts add up to the number of orders. */
  lemma {:induction false} StatusCountsAddUp(orders: seq<Order>)
    ensures Sum(CountsOf(orders)) == |orders|
    decreases |orders|
  {
    if orders != [] {
      var init, last := orders[..|orders| - 1], orders[|orders| - 1];
      assert orders == init + [last];
      StatusCountsAddUp(init);
      CountsSnoc(init, last);
    }
  }

  /** One more order of the list counted. */
  lemma TallyStep(mine: seq<Order>, i: nat)
    requires i < |mine|
    ensures Spent(mine[..i + 1]) == Spent(mine[..i]) + mine[i].totals.total
    ensures CountsOf(mine[..i + 1]) == Bump(CountsOf(mine[..i]), mine[i].status)
  {
    assert mine[..i + 1] == mine[..i] + [mine[i]];
    CountsSnoc(mine[..i], mine[i]);
  }

  /** The `reduce` and the `forEach` of `getUserOrderStatistics`, over one list of orders. */
  method Tally(mine: seq<Order>) returns (spent: int, counts: StatusCounts)
    ensures spent == Spent(mine) && counts == CountsOf(mine)
  {
    spent := 0;
    counts := StatusCounts(0, 0, 0, 0, 0);
    for i := 0 to |mine|
      invariant spent == Spent(mine[..i])
      invariant counts == CountsOf(mine[..i])
    {
      TallyStep(mine, i);
      spent := spent + mine[i].totals.total;
      counts := Bump(counts, mine[i].status);
    }
    assert mine[..|mine|] == mine;
  }

  /** `getUserOrderStatistics(email)` over the ledger `orders`. */
  method UserOrderStatistics(orders: seq<Order>, email: string, signedIn: string) returns (s: Stats)
    ensures var mine := UserOrders(orders, email, signedIn);
      s.totalOrders == |mine| && s.totalSpent == Spent(mine) &&
      s.averageOrderValue == (if |mine| > 0 then RoundDiv(Spent(mine), |mine|) else 0) &&
      s.statusCounts == CountsOf(mine) && Sum(s.statusCounts) == |mine|
  {
    var mine := UserOrders(orders, email, signedIn);
    var spent, counts := Tally(mine);
    StatusCountsAddUp(mine);
    var average := if |mine| > 0 then RoundDiv(spent, |mine|) else 0;
    s := Stats(|mine|, spent, average, counts);
  }

  // ---------------------------------------------------------------- the ledger

  /** `OrderManager`: the `orders` key of local storage and the operations that change it. */
  class OrderManager {
    const store: LocalStore

    constructor (store: LocalStore)
      ensures this.store == store
    {
      this.store := store;
    }

    /** `saveOrder`: append to the stored ledger. */
    method SaveOrder(o: Order)
      modifies store`orders
      ensures store.orders == old(store.orders) + [o]
    {
      store.orders := store.orders + [o];
    }

    /**
     * `createOrder`: refuses a missing or empty item list, then a missing shipping
     * address or e-mail, leaving the ledger as it was; otherwise appends exactly one
     * order, computed from the items, at the end.
     */
    method CreateOrder(items: Option<seq<ItemInput>>, shipping: Option<ShippingInput>,
                       now: Clock, random: nat) returns (r: Result<Order, OrderError>)
      modifies store`orders
      ensures (items.None? || items.value == []) ==> r == Failure(EmptyItems)
      ensures items.Some? && items.value != [] && (shipping.None? || shipping.value.email == "") ==>
        r == Failure(MissingShipping)
      ensures r.Failure? ==> store.orders == old(store.orders)
      ensures r.Success? <==> items.Some? && items.value != [] && shipping.Some? && shipping.value.email != ""
      ensures r.Success? ==>
        r.value == NewOrder(items.value, shipping.value, GenerateOrderId(now, random), now.millis) &&
        r.value.status == Pending && r.value.email == Normalize(shipping.value.email) &&
        WellFormed(r.value) &&
        store.orders == old(store.orders) + [r.value]
    {
      if items.None? || items.value == [] {
        return Failure(EmptyItems);
      }
      if shipping.None? || shipping.value.email == "" {
        return Failure(MissingShipping);
      }
      var order := NewOrder(items.value, shipping.value, GenerateOrderId(now, random), now.millis);
      NewOrderWellFormed(items.value, shipping.value, GenerateOrderId(now, random), now.millis);
      SaveOrder(order);
      r := Success(order);
    }

    /**
     * `updateOrderStatus`: throws on a state name outside the five; answers `false`
     * with the ledger unchanged when no order has the identifier; otherwise sets
     * the state and update time of the first such order and answers `true`.
     */
    method UpdateOrderStatus(orderId: string, status: string, now: int) returns (r: Result<bool, OrderError>)
      modifies store`orders
      ensures ParseStatus(status).None? ==> r == Failure(InvalidStatus) && store.orders == old(store.orders)
      ensures ParseStatus(status).Some? ==>
        r == Success(exists i :: 0 <= i < |old(store.orders)| && old(store.orders)[i].orderId == orderId) &&
        store.orders == SetStatus(old(store.orders), orderId, ParseStatus(status).value, now)
      ensures r == Success(false) ==> store.orders == old(store.orders)
      ensures AllWellFormed(old(store.orders)) ==> AllWellFormed(store.orders)
    {
      var st := ParseStatus(status);
      if st.None? {
        return Failure(InvalidStatus);
      }
      var i := FindIndex(store.orders, (o: Order) => HasId(o, orderId));
      if i == |store.orders| {
        assert forall j :: 0 <= j < |store.orders| ==> !HasId(store.orders[j], orderId);
        return Success(false);
      }
      store.orders := store.orders[i := store.orders[i].(status := st.value, updatedAt := now)];
      r := Success(true);
    }

    /** `deleteOrder`: keeps every order with another identifier and tells whether any was removed. */
    method DeleteOrder(orderId: string) returns (deleted: bool)
      modifies store`orders
      ensures store.orders == WithoutOrder(old(store.orders), orderId)
      ensures deleted <==> exists i :: 0 <= i < |old(store.orders)| && old(store.orders)[i].orderId == orderId
      ensures !deleted ==> store.orders == old(store.orders)
    {
      var kept := WithoutOrder(store.orders, orderId);
      if |kept| == |store.orders| {
        FilterKeepsAll(store.orders, (o: Order) => o.orderId != orderId);
        return false;
      }
      store.orders := kept;
      deleted := true;
    }

    /** `clearAllOrders` */
    method ClearAllOrders()
      modifies store`orders
      ensures store.orders == []
    {
      store.orders := [];
    }
  }
}
