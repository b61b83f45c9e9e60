/** Direct order creation from the cart: every price is re-read from the
    catalogue, quantities are clamped, stock is checked, a promo code is
    re-validated, and the `create_order_and_reduce_stock` RPC records the
    order. Amounts are integer cents. */
module CreateOrder {
  import opened Common
  import opened Auth
  import opened Catalog

  const MAX_ITEMS: nat := 50
  const MAX_QUANTITY: int := 99

  /** A cart line as sent by the client: `product_id || id`, and the
      quantity in the string form `parseInt` reads. */
  datatype CartItem = CartItem(productId: Option<string>, id: Option<string>, quantity: Option<string>)

  datatype VerifiedItem = VerifiedItem(productId: string, quantity: int, priceCents: int, name: string)

  datatype CreatedOrder = CreatedOrder(id: string, userId: string, totalCents: int, items: seq<VerifiedItem>,
                                       promoCode: Option<string>, discountCents: int, shippingAddress: Option<string>)

  datatype Confirmation = Confirmation(to: string, orderId: string, subtotalCents: int, discountCents: Option<int>,
                                       totalCents: int)

  datatype Store = Store(products: map<string, Product>, promos: map<string, PromoCode>,
                         orders: seq<CreatedOrder>, emails: seq<Confirmation>)

  /** The order id the RPC returns (None when it errors), and whether the
      promo increment and the email succeed. */
  datatype Oracles = Oracles(rpcOrderId: Option<string>, incrementOk: bool, emailOk: bool)

  function ItemId(item: CartItem): Option<string> {
    OrElse(item.productId, item.id)
  }

  /** `Math.max(1, Math.min(parseInt(q) || 1, 99))` */
  function Quantity(q: Option<string>): (n: int)
    ensures 1 <= n <= MAX_QUANTITY
    ensures q.Some? && ParseInt(q.value).Some? && 1 <= ParseInt(q.value).value <= MAX_QUANTITY ==>
              n == ParseInt(q.value).value
    ensures q.Some? && ParseInt(q.value).Some? && ParseInt(q.value).value > MAX_QUANTITY ==> n == MAX_QUANTITY
    ensures q.None? || ParseInt(q.value).None? || ParseInt(q.value).value < 1 ==> n == 1
  {
    var parsed := if q.Some? then ParseInt(q.value) else None;
    var n := if parsed.Some? && parsed.value != 0 then parsed.value else 1;
    if n > MAX_QUANTITY then MAX_QUANTITY else if n < 1 then 1 else n
  }

  /** Quantities 1..99 are kept, 0 and non-numbers become 1, larger ones 99. */
  lemma QuantityOfNat(n: nat)
    ensures Quantity(Some(NatToString(n))) == if n == 0 then 1 else if n > MAX_QUANTITY then MAX_QUANTITY else n
  {
    ParseIntOfNat(n);
  }

  /** One cart line against the catalogue: None when the product is unknown
      or its stock is below the clamped quantity. */
  function VerifyOne(item: CartItem, products: map<string, Product>): (v: Option<VerifiedItem>)
  {
    var pid := ItemId(item);
    if pid.None? || pid.value !in products then None
    else
      var p := products[pid.value];
      var q := Quantity(item.quantity);
      if p.stock < q then None else Some(VerifiedItem(p.id, q, UnitPriceCents(p), p.name))
  }

  /** A line is accepted exactly when its product is known and in stock
      for the clamped quantity, and then it carries the catalogue's id,
      name and price, never the client's. */
  lemma VerifiedLine(item: CartItem, products: map<string, Product>)
    ensures VerifyOne(item, products).Some? <==>
              ItemId(item).Some? && ItemId(item).value in products &&
              products[ItemId(item).value].stock >= Quantity(item.quantity)
    ensures VerifyOne(item, products).Some? ==>
              var p := products[ItemId(item).value];
              VerifyOne(item, products).value == VerifiedItem(p.id, Quantity(item.quantity), UnitPriceCents(p), p.name) &&
              1 <= VerifyOne(item, products).value.quantity <= p.stock
  {
  }

  /** The lines in order, each `Some` when it passes: all of them pass, or
      the first failure ends the collection. */
  function Collected<T>(checks: seq<Option<T>>): (r: Option<seq<T>>)
    ensures r.Some? ==> |r.value| == |checks|
  {
    if |checks| == 0 then Some([])
    else match Collected(checks[..|checks| - 1])
      case None => None
      case Some(vs) => if checks[|checks| - 1].None? then None else Some(vs + [checks[|checks| - 1].value])
  }

  /** A collection succeeds exactly when every check does, and then it
      holds every checked value in place. */
  lemma {:induction false} CollectedAll<T>(checks: seq<Option<T>>)
    ensures Collected(checks).Some? <==> forall j :: 0 <= j < |checks| ==> checks[j].Some?
    ensures Collected(checks).Some? ==> forall j :: 0 <= j < |checks| ==> checks[j] == Some(Collected(checks).value[j])
  {
    if |checks| > 0 {
      var front := checks[..|checks| - 1];
      CollectedAll(front);
      assert forall j :: 0 <= j < |front| ==> front[j] == checks[j];
    }
  }

  /** Every cart line checked against the catalogue. */
  function Checks(items: seq<CartItem>, products: map<string, Product>): (c: seq<Option<VerifiedItem>>)
    ensures |c| == |items| && forall j :: 0 <= j < |items| ==> c[j] == VerifyOne(items[j], products)
  {
    seq(|items|, j requires 0 <= j < |items| => VerifyOne(items[j], products))
  }

  /** The whole cart: any failing line rejects the order. */
  function VerifyItems(items: seq<CartItem>, products: map<string, Product>): (r: Option<seq<VerifiedItem>>)
    ensures r.Some? ==> |r.value| == |items|
  {
    Collected(Checks(items, products))
  }

  /** The cart is accepted exactly when every line is, and then each line
      is verified in place. */
  lemma VerifyItemsAll(items: seq<CartItem>, products: map<string, Product>)
    ensures VerifyItems(items, products).Some? <==> forall j :: 0 <= j < |items| ==> VerifyOne(items[j], products).Some?
    ensures VerifyItems(items, products).Some? ==>
              forall j :: 0 <= j < |items| ==> VerifyOne(items[j], products) == Some(VerifyItems(items, products).value[j])
  {
    CollectedAll(Checks(items, products));
  }

  /** The loop over the cart, pushing verified lines. */
  method CollectItems(items: seq<CartItem>, products: map<string, Product>) returns (r: Option<seq<VerifiedItem>>)
    ensures r == VerifyItems(items, products)
  {
    var checks := Checks(items, products);
    var verified: seq<VerifiedItem> := [];
    for i := 0 to |checks|
      invariant Collected(checks[..i]) == Some(verified)
    {
      var v := checks[i];
      if v.None? {
        CollectedAll(checks);
        return None;
      }
      CollectedStep(checks, i);
      verified := verified + [v.value];
    }
    assert checks[..|checks|] == checks;
    r := Some(verified);
  }

  /** One more passing check extends a successful collection by its value. */
  lemma CollectedStep<T>(checks: seq<Option<T>>, i: nat)
    requires i < |checks| && Collected(checks[..i]).Some? && checks[i].Some?
    ensures Collected(checks[..i + 1]) == Some(Collected(checks[..i]).value + [checks[i].value])
  {
    assert checks[..i + 1][..i] == checks[..i];
  }

  function Subtotal(vs: seq<VerifiedItem>): int {
    if |vs| == 0 then 0 else Subtotal(vs[..|vs| - 1]) + vs[|vs| - 1].priceCents * vs[|vs| - 1].quantity
  }

  /** The discount `Math.round(subtotal * pct / 100 * 100) / 100`, in cents. */
  function DiscountCents(subtotalCents: int, pct: int): int {
    RoundDiv(subtotalCents * pct, 100)
  }

  /** A percentage in 0..100 takes off between nothing and everything. */
  lemma DiscountBounded(subtotalCents: int, pct: int)
    requires subtotalCents >= 0 && 0 <= pct <= 100
    ensures 0 <= DiscountCents(subtotalCents, pct) <= subtotalCents
    ensures pct == 0 ==> DiscountCents(subtotalCents, pct) == 0
    ensures pct == 100 ==> DiscountCents(subtotalCents, pct) == subtotalCents
  {
    var a := subtotalCents * pct;
    assert 0 <= a;
    assert a <= subtotalCents * 100 by {
      assert subtotalCents * (100 - pct) == subtotalCents * 100 - a;
    }
    var r := DiscountCents(subtotalCents, pct);
    assert 200 * r <= 2 * a + 100 && 200 * r > 2 * a - 100;
    if pct == 0 {
      assert a == 0;
    }
  }

  /** The lookup key: `promo_code.toUpperCase().trim()`. */
  function PromoKey(code: string): string {
    Trim(ToUpper(code))
  }

  /** The promo that applies: an active, unexpired code under its cap. */
  function AppliedPromo(promos: map<string, PromoCode>, promoCode: Value, now: int): (p: Option<PromoCode>)
    ensures p.Some? <==> promoCode.Text? && promoCode.s != "" &&
                         FindActive(promos, PromoKey(promoCode.s)).Some? &&
                         Usable(FindActive(promos, PromoKey(promoCode.s)).value, now)
    ensures p.Some? ==> PromoKey(promoCode.s) in promos && p.value == promos[PromoKey(promoCode.s)]
  {
    if promoCode.Text? && promoCode.s != "" then
      match FindActive(promos, PromoKey(promoCode.s))
      case Some(p) => if Usable(p, now) then Some(p) else None
      case None => None
    else None
  }

  /** The order the RPC records for verified lines. */
  function NewOrder(orderId: string, userId: string, vs: seq<VerifiedItem>, promo: Option<PromoCode>,
                    shippingAddress: Option<string>): (r: CreatedOrder)
    ensures r.userId == userId && r.items == vs && r.totalCents == Subtotal(vs) - r.discountCents
    ensures promo.None? ==> r.discountCents == 0 && r.promoCode.None?
    ensures promo.Some? ==> r.discountCents == DiscountCents(Subtotal(vs), promo.value.discountPercentage) &&
                            r.promoCode == Some(promo.value.code)
  {
    var discount := if promo.Some? then DiscountCents(Subtotal(vs), promo.value.discountPercentage) else 0;
    CreatedOrder(orderId, userId, Subtotal(vs) - discount, vs,
                 if promo.Some? then Some(promo.value.code) else None, discount, shippingAddress)
  }

  /** One more counted use of the code stored under `key`. */
  function CountUse(promos: map<string, PromoCode>, key: string): (r: map<string, PromoCode>)
    requires key in promos
    ensures r.Keys == promos.Keys && r[key].currentUses == Some(promos[key].currentUses.GetOr(0) + 1)
    ensures forall k :: k in promos && k != key ==> r[k] == promos[k]
  {
    promos[key := promos[key].(currentUses := Some(promos[key].currentUses.GetOr(0) + 1))]
  }

  /** The confirmation mail: to the token's address, with the subtotal,
      the discount only when it is positive, and the total; the order id
      and user do not affect the amounts. */
  function ConfirmationFor(to: string, orderId: string, vs: seq<VerifiedItem>, promo: Option<PromoCode>)
      : (c: Confirmation)
    ensures c.to == to && c.orderId == orderId && c.subtotalCents == Subtotal(vs)
    // the mail shows the recorded order's total and its discount when there is one
    ensures c.totalCents == NewOrder(orderId, "", vs, promo, None).totalCents
    ensures c.discountCents.Some? <==> NewOrder(orderId, "", vs, promo, None).discountCents > 0
    ensures c.discountCents.Some? ==> c.discountCents.value == NewOrder(orderId, "", vs, promo, None).discountCents
    ensures promo.None? ==> c.discountCents.None?
  {
    var discount := if promo.Some? then DiscountCents(Subtotal(vs), promo.value.discountPercentage) else 0;
    Confirmation(to, orderId, Subtotal(vs), if discount > 0 then Some(discount) else None, Subtotal(vs) - discount)
  }

  /** What `create_order_and_reduce_stock` does to the catalogue: each line
      takes its quantity off its product's stock. */
  function ReduceStock(products: map<string, Product>, vs: seq<VerifiedItem>): (r: map<string, Product>)
    ensures r.Keys == products.Keys
  {
    if |vs| == 0 then products
    else
      var before := ReduceStock(products, vs[..|vs| - 1]);
      var v := vs[|vs| - 1];
      if v.productId in before then before[v.productId := before[v.productId].(stock := before[v.productId].stock - v.quantity)]
      else before
  }

  /** The quantity the lines ask of one product. */
  function QuantityOf(vs: seq<VerifiedItem>, id: string): int {
    if |vs| == 0 then 0
    else QuantityOf(vs[..|vs| - 1], id) + (if vs[|vs| - 1].productId == id then vs[|vs| - 1].quantity else 0)
  }

  /** After the RPC every product keeps all its fields except the stock,
      which drops by exactly the quantity the order's lines ask of it. */
  lemma {:induction false} ReduceStockSpec(products: map<string, Product>, vs: seq<VerifiedItem>, id: string)
    requires id in products
    ensures ReduceStock(products, vs)[id] == products[id].(stock := products[id].stock - QuantityOf(vs, id))
  {
    if |vs| > 0 {
      ReduceStockSpec(products, vs[..|vs| - 1], id);
    }
  }

  /** The steps after verification: totals, the RPC, the promo use and the
      confirmation email. */
  method Record(st: Store, user: AuthUser, vs: seq<VerifiedItem>, promoCode: Value,
                shippingAddress: Option<string>, now: int, o: Oracles)
      returns (status: int, orderId: Option<string>, st': Store)
    ensures o.rpcOrderId.None? ==> status == 500 && st' == st && orderId.None?
    ensures o.rpcOrderId.Some? ==>
              (status == 200 && orderId == o.rpcOrderId &&
               st'.orders == st.orders + [NewOrder(o.rpcOrderId.value, user.id, vs, AppliedPromo(st.promos, promoCode, now),
                                                   shippingAddress)])
    ensures st'.products == if o.rpcOrderId.Some? then ReduceStock(st.products, vs) else st.products
    ensures st'.emails == (if o.rpcOrderId.Some? && NonEmpty(user.email).Some? && o.emailOk
                           then st.emails + [ConfirmationFor(user.email.value, o.rpcOrderId.value, vs,
                                                             AppliedPromo(st.promos, promoCode, now))]
                           else st.emails)
    ensures st'.promos == (if o.rpcOrderId.Some? && o.incrementOk && AppliedPromo(st.promos, promoCode, now).Some?
                           then CountUse(st.promos, PromoKey(promoCode.s)) else st.promos)
  {
    var promo := AppliedPromo(st.promos, promoCode, now);
    var order := NewOrder(if o.rpcOrderId.Some? then o.rpcOrderId.value else "", user.id, vs, promo, shippingAddress);
    if o.rpcOrderId.None? {
      return 500, None, st;
    }
    orderId := o.rpcOrderId;
    st' := st.(orders := st.orders + [order], products := ReduceStock(st.products, vs));
    if promo.Some? && o.incrementOk {
      st' := st'.(promos := CountUse(st'.promos, PromoKey(promoCode.s)));
    }
    if NonEmpty(user.email).Some? && o.emailOk {
      st' := st'.(emails := st'.emails + [ConfirmationFor(user.email.value, orderId.value, vs, promo)]);
    }
    status := 200;
  }

  /** The endpoint. The body is parsed first (`bodyOk` is false when it is
      not JSON, which throws into the 500 answer); authentication comes
      before the body's items are looked at; the order's user is always the
      token's user. */
  method CreateOrder(st: Store, id: Identity, header: Option<string>, bodyOk: bool, items: Option<seq<CartItem>>,
                     promoCode: Value, shippingAddress: Option<string>, now: int, o: Oracles)
      returns (status: int, orderId: Option<string>, st': Store)
    ensures !bodyOk ==> status == 500 && st' == st
    ensures bodyOk && !Authenticate(id, header, RequirePresent).Authenticated? ==> status == 401 && st' == st
    ensures (bodyOk && Authenticate(id, header, RequirePresent).Authenticated? &&
             (items.None? || |items.value| == 0 || |items.value| > MAX_ITEMS)) ==> status == 400 && st' == st
    ensures (bodyOk && Authenticate(id, header, RequirePresent).Authenticated? && items.Some? && 1 <= |items.value| <= MAX_ITEMS &&
             VerifyItems(items.value, st.products).None?) ==> status == 400 && st' == st
    ensures status == 200 <==>
              bodyOk && Authenticate(id, header, RequirePresent).Authenticated? && items.Some? && 1 <= |items.value| <= MAX_ITEMS &&
              VerifyItems(items.value, st.products).Some? && o.rpcOrderId.Some?
    ensures status != 200 ==> st' == st && orderId.None?
    // the RPC takes the ordered quantities off the stock
    ensures status == 200 ==> st'.products == ReduceStock(st.products, VerifyItems(items.value, st.products).value)
    // the recorded order: the token's user, catalogue prices, the promo's discount
    ensures status == 200 ==>
              orderId == o.rpcOrderId &&
              st'.orders == st.orders + [NewOrder(o.rpcOrderId.value, Authenticate(id, header, RequirePresent).user.id,
                                                  VerifyItems(items.value, st.products).value,
                                                  AppliedPromo(st.promos, promoCode, now), shippingAddress)]
    // the confirmation mail goes to the token's address only
    ensures st'.emails != st.emails ==>
              status == 200 && o.emailOk && NonEmpty(Authenticate(id, header, RequirePresent).user.email).Some? &&
              st'.emails == st.emails + [ConfirmationFor(Authenticate(id, header, RequirePresent).user.email.value,
                                                         o.rpcOrderId.value, VerifyItems(items.value, st.products).value,
                                                         AppliedPromo(st.promos, promoCode, now))]
    // the promo's use is counted only for an applied code and a created order
    ensures st'.promos != st.promos ==>
              status == 200 && o.incrementOk && AppliedPromo(st.promos, promoCode, now).Some? &&
              st'.promos == CountUse(st.promos, PromoKey(promoCode.s))
  {
    if !bodyOk {
      return 500, None, st;
    }
    var auth := Authenticate(id, header, RequirePresent);
    if !auth.Authenticated? {
      return 401, None, st;
    }
    if items.None? || |items.value| == 0 || |items.value| > MAX_ITEMS {
      return 400, None, st;
    }
    var verified := CollectItems(items.value, st.products);
    if verified.None? {
      return 400, None, st;
    }
    status, orderId, st' := Record(st, auth.user, verified.value, promoCode, shippingAddress, now, o);
  }
}
