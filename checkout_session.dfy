/** Creation of a Stripe Checkout session from the cart: the cart's
    quantities are normalised in place and checked against stock, a promo
    code is re-validated, every line is priced from the catalogue, a
    shipping line is added under the free-shipping threshold, and the
    session's metadata carries what order reconciliation reads back.
    Amounts are integer cents. */
module CheckoutSession {
  import opened Common
  import opened Auth
  import opened Catalog
  import ProcessOrder
  import ValidatePromo

  const MAX_QUANTITY: int := 99
  const FREE_SHIPPING_THRESHOLD_CENTS: int := 4900   // 49 euros
  const SHIPPING_COST_CENTS: int := 499
  const SHIPPING_NAME: string := "Gastos de envío"

  /** A cart line's `quantity` as `Math.floor(quantity || 1)` sees it: a
      falsy value, a value that converts to a number (given by its floor),
      or one that converts to NaN (such as a non-numeric string). */
  datatype QuantityInput = Falsy | Numeric(floor: int) | NotANumber

  datatype Item = Item(id: string, quantity: QuantityInput)

  datatype LineItem = LineItem(name: string, images: seq<string>, productId: Option<string>,
                               unitAmount: int, quantity: int)

  /** The session parameters the route builds; `customer` and
      `customerEmail` are the two mutually exclusive Stripe fields. */
  datatype SessionParams = SessionParams(lineItems: seq<LineItem>, metadata: map<string, string>,
                                         customer: Option<string>, customerEmail: Option<string>)

  /** Outcomes of the calls the route makes: get-or-create of the Stripe
      customer (None when it throws), the product query, and the session
      creation (None when Stripe throws). */
  datatype Oracles = Oracles(customerId: Option<string>, productsOk: bool, sessionId: Option<string>)

  datatype Reply = Reply(status: int, params: Option<SessionParams>, sessionId: Option<string>)

  // ---------------------------------------------------------------------
  // Quantities

  /** `Math.min(Math.max(Math.floor(quantity || 1), 1), 99)` as written: NaN
      (None) passes through both bounds. */
  function ClampAsWritten(q: QuantityInput): (r: Option<int>)
    ensures r.None? <==> q.NotANumber?
    ensures r.Some? ==> 1 <= r.value <= MAX_QUANTITY
  {
    match q
    case Falsy => Some(1)
    case Numeric(f) => Some(if f < 1 then 1 else if f > MAX_QUANTITY then MAX_QUANTITY else f)
    case NotANumber => None
  }

  /** `dbProduct.stock < qty` rejects; a comparison with NaN is false. */
  predicate StockPassesAsWritten(stock: int, qty: Option<int>) {
    qty.None? || !(stock < qty.value)
  }

  /** `item.quantity || 1` after normalisation: NaN is falsy. */
  function BilledAsWritten(qty: Option<int>): int {
    if qty.None? then 1 else qty.value
  }

  /** A non-numeric quantity for a product with no stock at all passes the
      stock check as written, and the session bills one unit of it. */
  lemma NotANumberSkipsStockCheck()
    ensures StockPassesAsWritten(0, ClampAsWritten(NotANumber))
    ensures BilledAsWritten(ClampAsWritten(NotANumber)) == 1 > 0
  {
  }

  /** The normalised quantity, with NaN treated as the default 1 (the value
      the line item bills). */
  function Clamp(q: QuantityInput): (n: int)
    ensures 1 <= n <= MAX_QUANTITY
    ensures q.Numeric? && 1 <= q.floor <= MAX_QUANTITY ==> n == q.floor
    ensures q.Numeric? && q.floor > MAX_QUANTITY ==> n == MAX_QUANTITY
    ensures !q.Numeric? || q.floor < 1 ==> n == 1
  {
    match ClampAsWritten(q)
    case None => 1
    case Some(n) => n
  }

  /** Away from NaN the corrected clamp is the written one, and it is the
      quantity billed. */
  lemma ClampAgrees(q: QuantityInput, stock: int)
    ensures !q.NotANumber? ==> ClampAsWritten(q) == Some(Clamp(q))
    ensures BilledAsWritten(ClampAsWritten(q)) == Clamp(q)
    ensures StockPassesAsWritten(stock, Some(Clamp(q))) <==> stock >= Clamp(q)
  {
  }

  function Normalised(it: Item): Item {
    it.(quantity := Numeric(Clamp(it.quantity)))
  }

  /** Normalising twice is normalising once. */
  lemma NormalisedIdempotent(it: Item)
    ensures Normalised(Normalised(it)) == Normalised(it)
    ensures Clamp(Normalised(it).quantity) == Clamp(it.quantity)
  {
  }

  /** The line's product exists and holds the clamped quantity. */
  predicate Available(it: Item, products: map<string, Product>) {
    it.id in products && products[it.id].stock >= Clamp(it.quantity)
  }

  predicate AllAvailable(cart: seq<Item>, products: map<string, Product>) {
    forall j :: 0 <= j < |cart| ==> Available(cart[j], products)
  }

  /** The loop over the cart: each line is normalised in place before its
      stock is compared, and the first unknown product or short stock stops
      the loop with 400. */
  method NormaliseCart(items: array<Item>, products: map<string, Product>) returns (ok: bool)
    modifies items
    ensures ok <==> AllAvailable(old(items[..]), products)
    ensures ok ==> forall j :: 0 <= j < items.Length ==> items[j] == Normalised(old(items[j]))
    // a failing cart is left with each line either normalised or as it was
    ensures forall j :: 0 <= j < items.Length ==> items[j] == Normalised(old(items[j])) || items[j] == old(items[j])
  {
    for i := 0 to items.Length
      invariant forall j :: 0 <= j < i ==> items[j] == Normalised(old(items[j])) && Available(old(items[j]), products)
      invariant forall j :: i <= j < items.Length ==> items[j] == old(items[j])
    {
      var item := items[i];
      if item.id !in products {
        return false;
      }
      var qty := Clamp(item.quantity);
      items[i] := item.(quantity := Numeric(qty));
      if products[item.id].stock < qty {
        return false;
      }
    }
    ok := true;
  }

  // ---------------------------------------------------------------------
  // The promo code

  datatype PromoOutcome = Percent(pct: int) | Rejected(status: int)

  /** The promo check: a truthy code is upper-cased (a non-string one makes
      `toUpperCase` throw, 500) and looked up among the active codes; an
      expired or exhausted one is refused with 400, and an unknown or
      inactive one silently gives no discount. */
  function PromoDiscount(promos: map<string, PromoCode>, promoCode: Value, now: int): (r: PromoOutcome)
    ensures !Truthy(promoCode) ==> r == Percent(0)
    ensures promoCode.NonText? && promoCode.truthy ==> r == Rejected(500)
    ensures promoCode.Text? && promoCode.s != "" ==>
              match FindActive(promos, ToUpper(promoCode.s))
              case None => r == Percent(0)
              case Some(p) =>
                (Expired(p, now) ==> r == Rejected(400)) &&
                (!Expired(p, now) && MaxedOut(p) ==> r == Rejected(400)) &&
                (Usable(p, now) ==> r == Percent(p.discountPercentage))
  {
    if !Truthy(promoCode) then Percent(0)
    else if promoCode.NonText? then Rejected(500)
    else
      match FindActive(promos, ToUpper(promoCode.s))
      case None => Percent(0)
      case Some(p) =>
        if Expired(p, now) then Rejected(400)
        else if MaxedOut(p) then Rejected(400)
        else Percent(p.discountPercentage)
  }

  /** Checkout and the promo validation route agree on a string code:
      what validates gives its discount, an expired or exhausted code is
      refused by both, and an unknown one is refused by the validation route
      but ignored at checkout. */
  lemma AgreesWithValidation(promos: map<string, PromoCode>, code: string, now: int)
    requires code != ""
    ensures ValidatePromo.ValidatePromo(promos, Text(code), now).valid ==>
              PromoDiscount(promos, Text(code), now) ==
              Percent(ValidatePromo.ValidatePromo(promos, Text(code), now).discountPercentage.value)
    ensures PromoDiscount(promos, Text(code), now) == Rejected(400) <==>
              ValidatePromo.ValidatePromo(promos, Text(code), now).error in {ValidatePromo.EXPIRED, ValidatePromo.EXHAUSTED}
    ensures ValidatePromo.ValidatePromo(promos, Text(code), now).error == ValidatePromo.NOT_VALID ==>
              PromoDiscount(promos, Text(code), now) == Percent(0)
  {
    assert ValidatePromo.NOT_VALID != ValidatePromo.EXPIRED && ValidatePromo.NOT_VALID != ValidatePromo.EXHAUSTED;
    assert ValidatePromo.EXPIRED != "" && ValidatePromo.EXHAUSTED != "";
  }

  // ---------------------------------------------------------------------
  // Line items

  /** `Math.round(unitPrice * (1 - pct / 100) * 100)` in exact cents; a
      non-positive percentage leaves the price as it is. */
  function UnitAmount(baseCents: int, pct: int): (r: int)
    ensures pct <= 0 ==> r == baseCents
    ensures pct > 0 ==> 200 * r <= 2 * baseCents * (100 - pct) + 100 && 200 * r > 2 * baseCents * (100 - pct) - 100
  {
    if pct > 0 then RoundDiv(baseCents * (100 - pct), 100) else baseCents
  }

  /** A discount between 0 and 100 percent never raises a price or makes it
      negative, and 100 percent makes it free. */
  lemma UnitAmountBounded(baseCents: int, pct: int)
    requires baseCents >= 0 && 0 <= pct <= 100
    ensures 0 <= UnitAmount(baseCents, pct) <= baseCents
    ensures pct == 100 ==> UnitAmount(baseCents, pct) == 0
  {
    if pct > 0 {
      var a := baseCents * (100 - pct);
      assert 0 <= a <= baseCents * 100 by {
        assert baseCents * pct >= 0;
      }
      var r := UnitAmount(baseCents, pct);
      assert 200 * r <= 2 * a + 100;
      assert 200 * r > 2 * a - 100;
    }
  }

  function ProductLine(p: Product, qty: int, pct: int): LineItem {
    LineItem(p.name, if p.imageUrl.Some? && p.imageUrl.value != "" then [p.imageUrl.value] else [],
             Some(p.id), UnitAmount(UnitPriceCents(p), pct), qty)
  }

  /** `items.map(...)`: one line per cart entry, in cart order. */
  function ProductLines(cart: seq<Item>, products: map<string, Product>, pct: int): (r: seq<LineItem>)
    requires forall j :: 0 <= j < |cart| ==> cart[j].id in products
    ensures |r| == |cart|
    ensures forall j :: 0 <= j < |cart| ==>
              r[j] == ProductLine(products[cart[j].id], Clamp(cart[j].quantity), pct)
  {
    if |cart| == 0 then []
    else ProductLines(cart[..|cart| - 1], products, pct) +
         [ProductLine(products[cart[|cart| - 1].id], Clamp(cart[|cart| - 1].quantity), pct)]
  }

  /** The undiscounted subtotal that decides shipping. */
  function SubtotalCents(cart: seq<Item>, products: map<string, Product>): int
    requires forall j :: 0 <= j < |cart| ==> cart[j].id in products
  {
    if |cart| == 0 then 0
    else SubtotalCents(cart[..|cart| - 1], products) +
         UnitPriceCents(products[cart[|cart| - 1].id]) * Clamp(cart[|cart| - 1].quantity)
  }

  const SHIPPING_LINE: LineItem := LineItem(SHIPPING_NAME, [], None, SHIPPING_COST_CENTS, 1)

  /** The product lines, then a shipping line exactly when the subtotal is
      under the threshold. */
  function AllLines(cart: seq<Item>, products: map<string, Product>, pct: int): (r: seq<LineItem>)
    requires forall j :: 0 <= j < |cart| ==> cart[j].id in products
    ensures |r| == |cart| || |r| == |cart| + 1
    ensures r[..|cart|] == ProductLines(cart, products, pct)
    ensures |r| == |cart| + 1 <==> SubtotalCents(cart, products) < FREE_SHIPPING_THRESHOLD_CENTS
    ensures |r| == |cart| + 1 ==> r[|cart|] == SHIPPING_LINE
  {
    var lines := ProductLines(cart, products, pct);
    if SubtotalCents(cart, products) < FREE_SHIPPING_THRESHOLD_CENTS then lines + [SHIPPING_LINE] else lines
  }

  /** A subtotal is the same whatever the discount: shipping is decided on
      catalogue prices, before the promo. */
  lemma ShippingIgnoresDiscount(cart: seq<Item>, products: map<string, Product>, pct1: int, pct2: int)
    requires forall j :: 0 <= j < |cart| ==> cart[j].id in products
    ensures |AllLines(cart, products, pct1)| == |AllLines(cart, products, pct2)|
  {
  }

  /** Every billed product line stays within the stock checked for it. */
  lemma LinesWithinStock(cart: seq<Item>, products: map<string, Product>, pct: int)
    requires AllAvailable(cart, products)
    ensures forall j :: 0 <= j < |cart| ==>
              1 <= ProductLines(cart, products, pct)[j].quantity <= products[cart[j].id].stock
  {
  }

  // ---------------------------------------------------------------------
  // Metadata and the customer

  /** `{ user_id: userId || '', promo_code: promoCode || '',
      discount_percent: discountPercent.toString() }` */
  function Metadata(userId: Option<string>, promoCode: Value, pct: int): (m: map<string, string>)
    ensures m.Keys == {"user_id", "promo_code", "discount_percent"}
    ensures m["discount_percent"] == IntToString(pct)
  {
    map["user_id" := userId.GetOr(""),
        "promo_code" := if promoCode.Text? then promoCode.s else "",
        "discount_percent" := IntToString(pct)]
  }

  /** Order reconciliation reads back the same user, code and percentage:
      an absent user or code written as '' reads back as absent. The code
      comes back as the customer typed it, not upper-cased. */
  lemma MetadataReadBack(userId: Option<string>, promoCode: Value, pct: int, s: ProcessOrder.Session)
    requires s.metadata == Metadata(userId, promoCode, pct)
    ensures ProcessOrder.Meta(s, "user_id") == NonEmpty(userId)
    ensures ProcessOrder.Meta(s, "promo_code") == (if promoCode.Text? then NonEmpty(Some(promoCode.s)) else None)
    ensures ProcessOrder.DiscountPercent(s) == Some(pct)
  {
    ParseIntOfInt(pct);
    assert "user_id" != "promo_code" && "user_id" != "discount_percent" && "promo_code" != "discount_percent";
    assert ProcessOrder.Meta(s, "discount_percent") == Some(IntToString(pct));
  }

  /** The customer fields: the linked Stripe customer of an
      authenticated caller, else the email of their profile when
      get-or-create failed, else neither. */
  function Customer(auth: AuthResult, profileEmails: map<string, Option<string>>, o: Oracles)
      : (r: (Option<string>, Option<string>))
    ensures !(r.0.Some? && r.1.Some?)
    ensures !auth.Authenticated? ==> r == (None, None)
    ensures auth.Authenticated? && o.customerId.Some? ==> r == (NonEmpty(o.customerId), None)
    ensures (auth.Authenticated? && o.customerId.None?) ==>
              r.0.None? &&
              r.1 == (if auth.user.id in profileEmails then NonEmpty(profileEmails[auth.user.id]) else None)
  {
    if !auth.Authenticated? then (None, None)
    else if o.customerId.Some? then (NonEmpty(o.customerId), None)
    else (None, if auth.user.id in profileEmails then NonEmpty(profileEmails[auth.user.id]) else None)
  }

  // ---------------------------------------------------------------------
  // The route

  /** Everything after the cart loop, on the normalised cart. */
  function Finish(cart: seq<Item>, promoCode: Value, auth: AuthResult, profileEmails: map<string, Option<string>>,
                  products: map<string, Product>, promos: map<string, PromoCode>, now: int, o: Oracles): (r: Reply)
    requires AllAvailable(cart, products)
    ensures r.status == 200 <==> PromoDiscount(promos, promoCode, now).Percent? && o.sessionId.Some?
    ensures r.status != 200 ==> r.params.None? && r.sessionId.None?
    ensures PromoDiscount(promos, promoCode, now).Rejected? ==> r.status == PromoDiscount(promos, promoCode, now).status
    ensures r.status == 200 ==>
              r.sessionId == o.sessionId &&
              r.params == Some(SessionParams(
                AllLines(cart, products, PromoDiscount(promos, promoCode, now).pct),
                Metadata(if auth.Authenticated? then Some(auth.user.id) else None, promoCode,
                         PromoDiscount(promos, promoCode, now).pct),
                Customer(auth, profileEmails, o).0, Customer(auth, profileEmails, o).1))
  {
    match PromoDiscount(promos, promoCode, now)
    case Rejected(status) => Reply(status, None, None)
    case Percent(pct) =>
      var userId := if auth.Authenticated? then Some(auth.user.id) else None;
      var (customer, email) := Customer(auth, profileEmails, o);
      var params := SessionParams(AllLines(cart, products, pct), Metadata(userId, promoCode, pct), customer, email);
      if o.sessionId.None? then Reply(500, None, None) else Reply(200, Some(params), o.sessionId)
  }

  /** `POST`: `bodyOk` is false when the body is not JSON (the parse throws
      into the 500 answer); the cart `items` (null when missing or not an
      array) is normalised in place. */
  method CreateCheckoutSession(bodyOk: bool, items: array?<Item>, promoCode: Value, id: Identity, header: Option<string>,
                               profileEmails: map<string, Option<string>>, products: map<string, Product>,
                               promos: map<string, PromoCode>, now: int, o: Oracles) returns (r: Reply)
    modifies items
    ensures !bodyOk ==> r == Reply(500, None, None) && (items != null ==> items[..] == old(items[..]))
    ensures bodyOk && (items == null || items.Length == 0) ==> r == Reply(400, None, None)
    ensures bodyOk && items != null && items.Length > 0 && !o.productsOk ==> r == Reply(500, None, None) && items[..] == old(items[..])
    ensures (bodyOk && items != null && items.Length > 0 && o.productsOk && !AllAvailable(old(items[..]), products)) ==>
              r == Reply(400, None, None) &&
              forall j :: 0 <= j < items.Length ==> items[j] == Normalised(old(items[j])) || items[j] == old(items[j])
    ensures (bodyOk && items != null && items.Length > 0 && o.productsOk && AllAvailable(old(items[..]), products)) ==>
              (forall j :: 0 <= j < items.Length ==> items[j] == Normalised(old(items[j]))) &&
              r == Finish(items[..], promoCode, Authenticate(id, header, RequirePrefix), profileEmails,
                          products, promos, now, o)
  {
    if !bodyOk {
      return Reply(500, None, None);
    }
    if items == null || items.Length == 0 {
      return Reply(400, None, None);
    }
    var auth := Authenticate(id, header, RequirePrefix);
    if !o.productsOk {
      return Reply(500, None, None);
    }
    var ok := NormaliseCart(items, products);
    if !ok {
      return Reply(400, None, None);
    }
    assert forall j :: 0 <= j < items.Length ==> Available(items[..][j], products) by {
      forall j | 0 <= j < items.Length
        ensures Available(items[..][j], products)
      {
        assert items[j] == Normalised(old(items[j]));
        assert Available(old(items[..])[j], products);
      }
    }
    r := Finish(items[..], promoCode, auth, profileEmails, products, promos, now, o);
  }

  /** The billed cart of a successful session: every product line is one the
      stock allowed, with a price never above the catalogue's for a
      discount of 0 to 100 percent. */
  lemma SessionLinesSound(cart: seq<Item>, promoCode: Value, auth: AuthResult, profileEmails: map<string, Option<string>>,
                          products: map<string, Product>, promos: map<string, PromoCode>, now: int, o: Oracles, j: int)
    requires AllAvailable(cart, products) && 0 <= j < |cart|
    requires Finish(cart, promoCode, auth, profileEmails, products, promos, now, o).status == 200
    requires UnitPriceCents(products[cart[j].id]) >= 0
    requires 0 <= PromoDiscount(promos, promoCode, now).pct <= 100
    ensures Finish(cart, promoCode, auth, profileEmails, products, promos, now, o).params.value.lineItems[j].quantity
              <= products[cart[j].id].stock
    ensures 0 <= Finish(cart, promoCode, auth, profileEmails, products, promos, now, o).params.value.lineItems[j].unitAmount
              <= UnitPriceCents(products[cart[j].id])
  {
    var pct := PromoDiscount(promos, promoCode, now).pct;
    var lines := Finish(cart, promoCode, auth, profileEmails, products, promos, now, o).params.value.lineItems;
    assert lines[..|cart|] == ProductLines(cart, products, pct);
    assert lines[j] == ProductLines(cart, products, pct)[j];
    UnitAmountBounded(UnitPriceCents(products[cart[j].id]), pct);
  }
}
