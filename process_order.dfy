/** Order reconciliation after a Stripe Checkout payment
    (`ensureOrderFromStripeSession` and `generateInvoiceNumber`).

    The database is a `Store` value that the method takes and returns. The
    Stripe checkout session (with its expanded line items) is a value passed
    in. Every external write whose outcome the code observes or tolerates is
    an oracle parameter: the guest-user insert, the atomic
    create-order RPC, the update that stamps the order with its session, the
    refund, the invoice insert, the promo-usage RPC, the confirmation email
    and the customer sync. */
module ProcessOrder {
  import opened Common

  const SHIPPING_DESCRIPTION: string := "Gastos de envío"
  const INVOICE_PREFIX: string := "FAC"
  const INVOICE_ATTEMPTS: nat := 5

  datatype LineItem = LineItem(
    description: Option<string>,
    quantity: Option<int>,
    amountTotal: Option<int>,        // cents
    metaProductId: Option<string>)   // price.product.metadata.product_id

  datatype Session = Session(
    id: string,
    paymentStatus: string,
    metadata: map<string, string>,
    customerEmail: Option<string>,
    customerName: Option<string>,
    amountTotal: Option<int>,        // cents
    paymentIntent: Option<string>,
    customer: Option<string>,
    shipping: Option<string>,        // JSON of shipping_details, when present
    lineItems: seq<LineItem>)

  datatype Product = Product(id: string, name: string)
  datatype User = User(id: string, email: Option<string>, fullName: string, role: string)
  datatype OrderItem = OrderItem(productId: string, quantity: int, lineTotalCents: int, name: string)
  datatype Order = Order(
    id: string, userId: string, totalCents: int, items: seq<OrderItem>,
    promoCode: Option<string>, discountCents: Option<int>, shipping: Option<string>,
    stripeSessionId: Option<string>, paymentIntentId: Option<string>)
  datatype Invoice = Invoice(orderId: string, userId: string, number: string, totalCents: int)
  datatype Email = Email(to: string, orderId: string, discountCents: Option<int>)

  datatype Store = Store(
    orders: seq<Order>,
    users: seq<User>,
    products: seq<Product>,
    invoices: seq<Invoice>,
    refunds: seq<string>,            // payment intents refunded
    emails: seq<Email>,              // confirmation emails delivered
    promoUses: seq<string>,          // increment_promo_uses calls that succeeded
    customerSyncs: seq<string>)      // Stripe customers synced from the session

  /** Outcomes of the external writes. */
  datatype Oracles = Oracles(
    guestId: Option<string>,         // id of the inserted guest user, None = insert error
    rpcOrderId: Option<string>,      // id returned by create_order_and_reduce_stock, None = RPC error
    linkOk: bool,                    // the stripe_session_id / payment_intent_id update
    refundOk: bool,
    invoiceOk: bool,
    promoOk: bool,
    emailOk: bool,
    syncOk: bool,
    year: nat,
    nowMs: nat)

  // ---------------------------------------------------------------------
  // Reading the session

  /** `session.metadata?.<key> || null` */
  function Meta(s: Session, key: string): (r: Option<string>)
    ensures r.Some? <==> key in s.metadata && s.metadata[key] != ""
    ensures r.Some? ==> r.value == s.metadata[key]
  {
    if key in s.metadata then NonEmpty(Some(s.metadata[key])) else None
  }

  function PaymentIntent(s: Session): Option<string> { NonEmpty(s.paymentIntent) }

  /** `parseInt(session.metadata?.discount_percent || '0')`; None is NaN. */
  function DiscountPercent(s: Session): Option<int> {
    ParseInt(Meta(s, "discount_percent").GetOr("0"))
  }

  /** The discount recorded on the order, in cents. The code divides the
      discounted subtotal by (1 - p/100) to recover the pre-discount subtotal
      and rounds the difference to cents; in exact arithmetic the difference
      is D*p/(100-p) cents. A NaN or non-positive percentage gives 0; at
      exactly 100 the division is by zero and the amount is not a finite
      number (None). */
  function DiscountCents(d: int, p: Option<int>): (r: Option<int>)
    ensures (p.None? || p.value <= 0) ==> r == Some(0)
    ensures r.None? <==> p == Some(100)
    ensures p.Some? && 0 < p.value < 100 && d >= 0 ==> r.Some? && r.value >= 0
    // strictly between 0 and 100: D*p/(100-p) rounded to the nearest cent, halves up
    ensures p.Some? && 0 < p.value < 100 ==>
              r.Some? && 2 * d * p.value - (100 - p.value) < 2 * (100 - p.value) * r.value <= 2 * d * p.value + (100 - p.value)
  {
    if p.None? || p.value <= 0 then Some(0)
    else if p.value == 100 then None
    else if p.value < 100 then
      var a := d * p.value;
      assert d >= 0 ==> a >= 0;
      RoundDivNonNegative(a, 100 - p.value);
      Some(RoundDiv(a, 100 - p.value))
    else Some(RoundDiv(-(d * p.value), p.value - 100))
  }

  /** When the Stripe amounts are the undiscounted subtotal S reduced by p
      percent without any rounding, the recorded discount is exactly the
      amount the promotion took off. */
  lemma DiscountRecoversPromotion(s: int, d: int, p: int)
    requires 0 < p < 100
    requires d * 100 == s * (100 - p)
    ensures DiscountCents(d, Some(p)) == Some(s - d)
  {
    var q := 100 - p;
    var x := s - d;
    assert x * 100 == s * p;
    assert d * p * 100 == x * q * 100 by {
      calc {
        d * p * 100;
        (d * 100) * p;
        s * q * p;
        (s * p) * q;
        x * 100 * q;
      }
    }
    assert 2 * (d * p) + q == x * (2 * q) + q;
    DivOfMultiplePlus(x, 2 * q, q);
  }

  // ---------------------------------------------------------------------
  // Resolving the owning user

  datatype UserSource = FromMetadata(id: string) | ExistingByEmail(id: string) | NewGuest(id: string) | Unresolved

  function FirstUserByEmail(users: seq<User>, email: string): (r: Option<User>)
    ensures r.Some? ==> r.value in users && r.value.email == Some(email)
    ensures r.None? ==> forall k :: 0 <= k < |users| ==> users[k].email != Some(email)
  {
    if |users| == 0 then None
    else if users[0].email == Some(email) then Some(users[0])
    else FirstUserByEmail(users[1..], email)
  }

  /** The fixed resolution order: the checkout's metadata user_id, then an
      existing user with the customer's email, then a freshly inserted
      guest. */
  function ResolveUser(users: seq<User>, s: Session, guestId: Option<string>): (r: UserSource)
    ensures Meta(s, "user_id").Some? ==> r == FromMetadata(Meta(s, "user_id").value)
    ensures Meta(s, "user_id").None? && NonEmpty(s.customerEmail).None? ==> r == Unresolved
    ensures r.ExistingByEmail? ==>
              Meta(s, "user_id").None? &&
              exists u :: u in users && u.email == NonEmpty(s.customerEmail) && u.id == r.id
    ensures r.NewGuest? ==>
              Meta(s, "user_id").None? && NonEmpty(s.customerEmail).Some? &&
              (forall u :: u in users ==> u.email != s.customerEmail) && guestId == Some(r.id)
    // without metadata, an e-mail picks the first user holding it, else the guest, else nothing
    ensures (Meta(s, "user_id").None? && NonEmpty(s.customerEmail).Some? &&
             FirstUserByEmail(users, s.customerEmail.value).Some?) ==>
              r == ExistingByEmail(FirstUserByEmail(users, s.customerEmail.value).value.id)
    ensures (Meta(s, "user_id").None? && NonEmpty(s.customerEmail).Some? &&
             FirstUserByEmail(users, s.customerEmail.value).None? && guestId.Some?) ==> r == NewGuest(guestId.value)
    ensures (Meta(s, "user_id").None? && NonEmpty(s.customerEmail).Some? &&
             FirstUserByEmail(users, s.customerEmail.value).None? && guestId.None?) ==> r == Unresolved
  {
    var meta := Meta(s, "user_id");
    var email := NonEmpty(s.customerEmail);
    if meta.Some? then FromMetadata(meta.value)
    else if email.None? then Unresolved
    else match FirstUserByEmail(users, email.value)
      case Some(u) => ExistingByEmail(u.id)
      case None => if guestId.Some? then NewGuest(guestId.value) else Unresolved
  }

  /** The `if (!userId)` guard after resolution. */
  function ResolvedId(src: UserSource): (r: Option<string>)
    ensures r.Some? ==> r.value != ""
    ensures src.Unresolved? ==> r.None?
  {
    if src.Unresolved? || src.id == "" then None else Some(src.id)
  }

  /** A guest row is inserted when there is no metadata user, there is an
      email, and no user has it; the insert's outcome is `guestId`. */
  predicate InsertsGuest(users: seq<User>, s: Session) {
    Meta(s, "user_id").None? && NonEmpty(s.customerEmail).Some? &&
    FirstUserByEmail(users, NonEmpty(s.customerEmail).value).None?
  }

  function Guest(s: Session, id: string): User {
    User(id, NonEmpty(s.customerEmail), OrElse(s.customerName, Some("Cliente")).value, "user")
  }

  // ---------------------------------------------------------------------
  // Line items

  predicate IsShipping(it: LineItem) { it.description == Some(SHIPPING_DESCRIPTION) }

  /** `item.quantity || 1` */
  function Quantity(it: LineItem): (q: int)
    ensures q != 0
  {
    if it.quantity.None? || it.quantity.value == 0 then 1 else it.quantity.value
  }

  function ItemName(it: LineItem): (n: string)
    ensures n != ""
  {
    OrElse(it.description, Some("Producto")).value
  }

  /** The products whose name is `name`. */
  function ProductsNamed(products: seq<Product>, name: string): (r: seq<Product>)
    ensures forall p :: p in r ==> p in products && p.name == name
    ensures forall p :: p in products && p.name == name ==> p in r
  {
    if |products| == 0 then []
    else (if products[0].name == name then [products[0]] else []) + ProductsNamed(products[1..], name)
  }

  /** The product id of a line: the Stripe product's metadata, else the one
      product whose name equals the description (`.single()` yields a row
      only when exactly one matches). */
  function ItemProductId(products: seq<Product>, it: LineItem): (r: Option<string>)
    ensures r.Some? ==> r.value != ""
    ensures NonEmpty(it.metaProductId).Some? ==> r == it.metaProductId
    // the fallback by name: a row only when exactly one product bears the description
    ensures NonEmpty(it.metaProductId).None? ==>
              (r.Some? <==> it.description.Some? && |ProductsNamed(products, it.description.value)| == 1 &&
                            ProductsNamed(products, it.description.value)[0].id != "")
    ensures NonEmpty(it.metaProductId).None? && r.Some? ==>
              exists p :: p in products && Some(p.name) == it.description && p.id == r.value
  {
    var m := NonEmpty(it.metaProductId);
    if m.Some? then m
    else if it.description.None? then None
    else
      var named := ProductsNamed(products, it.description.value);
      if |named| == 1 then NonEmpty(Some(named[0].id)) else None
  }

  predicate Resolves(products: seq<Product>, it: LineItem) {
    !IsShipping(it) && ItemProductId(products, it).Some?
  }

  /** The items passed to the order RPC: every non-shipping line whose
      product resolves, in order; the others are dropped. */
  function ResolvedItems(products: seq<Product>, items: seq<LineItem>): (r: seq<OrderItem>)
    ensures |r| <= |items|
    ensures forall k :: 0 <= k < |r| ==> r[k].quantity != 0 && r[k].name != "" && r[k].productId != ""
    decreases |items|
  {
    if |items| == 0 then []
    else
      var init := ResolvedItems(products, items[..|items| - 1]);
      var it := items[|items| - 1];
      if !Resolves(products, it) then init
      else init + [OrderItem(ItemProductId(products, it).value, Quantity(it), it.amountTotal.GetOr(0), ItemName(it))]
  }

  /** Nothing is sent to the RPC exactly when every line is the shipping line
      or unresolvable. */
  lemma {:induction false} ResolvedItemsEmptyIff(products: seq<Product>, items: seq<LineItem>)
    ensures ResolvedItems(products, items) == [] <==>
              forall k :: 0 <= k < |items| ==> !Resolves(products, items[k])
    decreases |items|
  {
    if |items| > 0 {
      var init := items[..|items| - 1];
      ResolvedItemsEmptyIff(products, init);
      assert forall k :: 0 <= k < |init| ==> init[k] == items[k];
    }
  }

  /** Resolvable lines are never dropped: one order item per resolvable line. */
  lemma {:induction false} ResolvedItemsCount(products: seq<Product>, items: seq<LineItem>)
    ensures |ResolvedItems(products, items)| == CountResolving(products, items)
    decreases |items|
  {
    if |items| > 0 {
      ResolvedItemsCount(products, items[..|items| - 1]);
    }
  }

  function CountResolving(products: seq<Product>, items: seq<LineItem>): nat
    decreases |items|
  {
    if |items| == 0 then 0
    else CountResolving(products, items[..|items| - 1]) + (if Resolves(products, items[|items| - 1]) then 1 else 0)
  }

  /** The discounted subtotal sums every non-shipping line, including lines
      whose product is later dropped. */
  function DiscountedSubtotal(items: seq<LineItem>): int
    decreases |items|
  {
    if |items| == 0 then 0
    else
      var it := items[|items| - 1];
      DiscountedSubtotal(items[..|items| - 1]) + (if IsShipping(it) then 0 else it.amountTotal.GetOr(0))
  }

  /** The shipping line contributes nothing to the subtotal. */
  lemma {:induction false} SubtotalIgnoresShipping(items: seq<LineItem>, ship: LineItem)
    requires IsShipping(ship)
    ensures DiscountedSubtotal(items + [ship]) == DiscountedSubtotal(items)
  {
    assert (items + [ship])[..|items|] == items;
  }

  /** The `for (const item of lineItems.data)` loop. */
  method CollectLineItems(products: seq<Product>, items: seq<LineItem>)
      returns (rpcItems: seq<OrderItem>, subtotal: int)
    ensures rpcItems == ResolvedItems(products, items)
    ensures subtotal == DiscountedSubtotal(items)
  {
    rpcItems := [];
    subtotal := 0;
    var i := 0;
    while i < |items|
      invariant 0 <= i <= |items|
      invariant rpcItems == ResolvedItems(products, items[..i])
      invariant subtotal == DiscountedSubtotal(items[..i])
    {
      var item := items[i];
      assert items[..i + 1][..i] == items[..i];
      if !IsShipping(item) {
        subtotal := subtotal + item.amountTotal.GetOr(0);
        var pid := ItemProductId(products, item);
        if pid.Some? {
          rpcItems := rpcItems + [OrderItem(pid.value, Quantity(item), item.amountTotal.GetOr(0), ItemName(item))];
        }
      }
      i := i + 1;
    }
    assert items[..i] == items;
  }

  // ---------------------------------------------------------------------
  // Orders

  /** The idempotency lookup: the id of the first order stamped with the
      session. */
  function FindOrderBySession(orders: seq<Order>, sid: string): (r: Option<string>)
    ensures r.None? <==> forall k :: 0 <= k < |orders| ==> orders[k].stripeSessionId != Some(sid)
    ensures r.Some? ==> exists k :: 0 <= k < |orders| && orders[k].stripeSessionId == Some(sid) && orders[k].id == r.value
  {
    if |orders| == 0 then None
    else if orders[0].stripeSessionId == Some(sid) then Some(orders[0].id)
    else match FindOrderBySession(orders[1..], sid)
      case None => None
      case Some(id) => Some(id)
  }

  /** `update({stripe_session_id, payment_intent_id}).eq('id', orderId)` */
  function Stamp(orders: seq<Order>, oid: string, sid: string, pi: Option<string>): (r: seq<Order>)
    ensures |r| == |orders|
    ensures forall k :: 0 <= k < |orders| ==>
              r[k] == if orders[k].id == oid then orders[k].(stripeSessionId := Some(sid), paymentIntentId := pi) else orders[k]
  {
    if |orders| == 0 then []
    else [if orders[0].id == oid then orders[0].(stripeSessionId := Some(sid), paymentIntentId := pi) else orders[0]]
         + Stamp(orders[1..], oid, sid, pi)
  }

  /** After stamping, the lookup by session finds the stamped order whenever
      no order carried the session before. */
  lemma StampedIsFound(orders: seq<Order>, o: Order, sid: string, pi: Option<string>)
    requires FindOrderBySession(orders, sid).None?
    ensures FindOrderBySession(Stamp(orders + [o], o.id, sid, pi), sid) == Some(o.id)
  {
    var all := orders + [o];
    var st := Stamp(all, o.id, sid, pi);
    assert st[|orders|].stripeSessionId == Some(sid);
    forall k | 0 <= k < |st| && st[k].stripeSessionId == Some(sid)
      ensures st[k].id == o.id
    {
      if k < |orders| {
        assert all[k] == orders[k];
      }
    }
  }

  // ---------------------------------------------------------------------
  // The reconciliation

  /** What `ensureOrderFromStripeSession` returns: note that it depends on
      none of the best-effort outcomes (stamping, invoice, promo usage,
      email, sync), nor on whether a refund succeeded. */
  function Outcome(st: Store, s: Session, guestId: Option<string>, rpcOrderId: Option<string>): Option<string> {
    match FindOrderBySession(st.orders, s.id)
    case Some(id) => Some(id)
    case None =>
      if s.paymentStatus != "paid" then None
      else if ResolvedId(ResolveUser(st.users, s, guestId)).None? then None
      else if ResolvedItems(st.products, s.lineItems) == [] then None
      else rpcOrderId
  }

  /** A refund is due for a paid, new session with a resolved user when no
      line resolved or the create-order RPC failed. */
  predicate RefundDue(st: Store, s: Session, guestId: Option<string>, rpcOrderId: Option<string>) {
    FindOrderBySession(st.orders, s.id).None? && s.paymentStatus == "paid" &&
    ResolvedId(ResolveUser(st.users, s, guestId)).Some? &&
    (ResolvedItems(st.products, s.lineItems) == [] || rpcOrderId.None?)
  }

  method Refund(st: Store, s: Session, ok: bool) returns (st': Store)
    ensures st' == if PaymentIntent(s).Some? && ok then st.(refunds := st.refunds + [PaymentIntent(s).value]) else st
  {
    st' := st;
    var pi := PaymentIntent(s);
    if pi.Some? && ok {
      st' := st'.(refunds := st'.refunds + [pi.value]);
    }
  }

  /** Everything but the Stripe fields of an order. */
  predicate SameContent(a: Order, b: Order) {
    a.(stripeSessionId := None, paymentIntentId := None) == b.(stripeSessionId := None, paymentIntentId := None)
  }

  /** The orders after the insert and, when it succeeds, the stamping with
      the session. */
  function Linked(orders: seq<Order>, order: Order, sid: string, pi: Option<string>, linkOk: bool): (r: seq<Order>)
    requires FindOrderBySession(orders, sid).None?
    requires order.stripeSessionId.None?
    ensures |r| == |orders| + 1 && SameContent(r[|orders|], order)
    ensures linkOk ==> FindOrderBySession(r, sid) == Some(order.id)
    ensures !linkOk ==> r == orders + [order] && FindOrderBySession(r, sid).None?
  {
    if linkOk then
      StampedIsFound(orders, order, sid, pi);
      Stamp(orders + [order], order.id, sid, pi)
    else
      assert forall k :: 0 <= k < |orders| ==> (orders + [order])[k] == orders[k];
      orders + [order]
  }

  /** `discount: discountAmount > 0 ? discountAmount : undefined`. */
  function ShownDiscount(order: Order): (d: Option<int>)
    ensures d.Some? <==> order.discountCents.Some? && order.discountCents.value > 0
    ensures d.Some? ==> d == order.discountCents
  {
    if order.discountCents.Some? && order.discountCents.value > 0 then order.discountCents else None
  }

  /** One invoice added for the order, with its user and total, under a
      number no earlier invoice has, or the timestamp fallback. */
  predicate FreshInvoice(before: seq<Invoice>, after: seq<Invoice>, order: Order, o: Oracles) {
    |after| == |before| + 1 && after[..|before|] == before &&
    var inv := after[|before|];
    inv.orderId == order.id && inv.userId == order.userId && inv.totalCents == order.totalCents &&
    (inv.number !in InvoiceNumbers(before) || inv.number == FallbackInvoiceNumber(o.year, o.nowMs))
  }

  /** After a successful RPC: the new order, its stamping with the session,
      and the best-effort invoice, promo-usage, email and sync steps. */
  method RecordOrder(st: Store, s: Session, o: Oracles, order: Order) returns (st': Store)
    requires FindOrderBySession(st.orders, s.id).None?
    requires order.stripeSessionId.None?
    ensures |st'.orders| == |st.orders| + 1 && SameContent(st'.orders[|st.orders|], order)
    ensures o.linkOk ==> FindOrderBySession(st'.orders, s.id) == Some(order.id)
    ensures !o.linkOk ==> st'.orders == st.orders + [order] && FindOrderBySession(st'.orders, s.id).None?
    ensures st'.users == st.users && st'.refunds == st.refunds && st'.products == st.products
    ensures !o.invoiceOk ==> st'.invoices == st.invoices
    ensures o.invoiceOk ==> FreshInvoice(st.invoices, st'.invoices, order, o)
    ensures st'.promoUses == if order.promoCode.Some? && o.promoOk then st.promoUses + [order.promoCode.value]
                             else st.promoUses
    ensures st'.emails == if NonEmpty(s.customerEmail).Some? && o.emailOk
                          then st.emails + [Email(NonEmpty(s.customerEmail).value, order.id, ShownDiscount(order))]
                          else st.emails
    ensures st'.customerSyncs == if NonEmpty(s.customer).Some? && o.syncOk
                                 then st.customerSyncs + [NonEmpty(s.customer).value] else st.customerSyncs
  {
    var invoices := AddInvoice(st.invoices, order, o);
    var promoUses := if order.promoCode.Some? && o.promoOk then st.promoUses + [order.promoCode.value]
                     else st.promoUses;
    var email := NonEmpty(s.customerEmail);
    var emails := if email.Some? && o.emailOk then st.emails + [Email(email.value, order.id, ShownDiscount(order))]
                  else st.emails;
    var customer := NonEmpty(s.customer);
    var syncs := if customer.Some? && o.syncOk then st.customerSyncs + [customer.value] else st.customerSyncs;
    st' := Store(Linked(st.orders, order, s.id, PaymentIntent(s), o.linkOk), st.users, st.products, invoices,
                 st.refunds, emails, promoUses, syncs);
  }

  /** The invoice insert, whose failure is only logged. */
  method AddInvoice(invoices: seq<Invoice>, order: Order, o: Oracles) returns (invoices': seq<Invoice>)
    ensures !o.invoiceOk ==> invoices' == invoices
    ensures o.invoiceOk ==> FreshInvoice(invoices, invoices', order, o)
  {
    var number := GenerateInvoiceNumber(InvoiceNumbers(invoices), o.year, o.nowMs);
    invoices' := invoices;
    if o.invoiceOk {
      invoices' := invoices + [Invoice(order.id, order.userId, number, order.totalCents)];
    }
  }

  /** The (possible) guest insert, the user guard, the line-item loop and the
      RPC of a paid session that has no order yet. */
  method CreateOrder(st: Store, s: Session, o: Oracles) returns (r: Option<string>, st': Store)
    requires FindOrderBySession(st.orders, s.id).None? && s.paymentStatus == "paid"
    ensures r == Outcome(st, s, o.guestId, o.rpcOrderId)
    ensures st'.users == if InsertsGuest(st.users, s) && o.guestId.Some? then st.users + [Guest(s, o.guestId.value)] else st.users
    ensures st'.refunds == if RefundDue(st, s, o.guestId, o.rpcOrderId) && PaymentIntent(s).Some? && o.refundOk
                           then st.refunds + [PaymentIntent(s).value] else st.refunds
    ensures r.None? ==> st'.orders == st.orders
    ensures r.Some? ==>
              |st'.orders| == |st.orders| + 1 && st'.orders[|st.orders|].id == r.value &&
              SameContent(st'.orders[|st.orders|],
                Order(r.value, ResolvedId(ResolveUser(st.users, s, o.guestId)).value, s.amountTotal.GetOr(0),
                      ResolvedItems(st.products, s.lineItems), Meta(s, "promo_code"),
                      DiscountCents(DiscountedSubtotal(s.lineItems), DiscountPercent(s)), s.shipping, None, None))
    ensures r.Some? && o.linkOk ==> FindOrderBySession(st'.orders, s.id) == r
    ensures r.Some? && !o.linkOk ==> FindOrderBySession(st'.orders, s.id).None?
    ensures st'.products == st.products
    ensures r.Some? && o.invoiceOk ==> FreshInvoice(st.invoices, st'.invoices, st'.orders[|st.orders|], o)
    ensures !(r.Some? && o.invoiceOk) ==> st'.invoices == st.invoices
    ensures r.Some? ==> st'.promoUses == if Meta(s, "promo_code").Some? && o.promoOk
                                         then st.promoUses + [Meta(s, "promo_code").value] else st.promoUses
    ensures r.None? ==> st'.promoUses == st.promoUses && st'.emails == st.emails &&
                        st'.customerSyncs == st.customerSyncs
  {
    st' := st;
    var src := ResolveUser(st.users, s, o.guestId);
    if InsertsGuest(st.users, s) && o.guestId.Some? {
      st' := st'.(users := st'.users + [Guest(s, o.guestId.value)]);
    }
    var userId := ResolvedId(src);
    if userId.None? {
      return None, st';
    }

    var rpcItems, subtotal := CollectLineItems(st.products, s.lineItems);
    if rpcItems == [] {
      st' := Refund(st', s, o.refundOk);
      return None, st';
    }

    var discount := DiscountCents(subtotal, DiscountPercent(s));
    var total := s.amountTotal.GetOr(0);
    if o.rpcOrderId.None? {
      st' := Refund(st', s, o.refundOk);
      return None, st';
    }
    var order := Order(o.rpcOrderId.value, userId.value, total, rpcItems, Meta(s, "promo_code"), discount, s.shipping, None, None);
    st' := RecordOrder(st', s, o, order);
    r := Some(order.id);
  }

  method EnsureOrder(st: Store, s: Session, o: Oracles) returns (r: Option<string>, st': Store)
    // the returned id is determined by the store, the session, the guest
    // insert and the RPC alone
    ensures r == Outcome(st, s, o.guestId, o.rpcOrderId)
    // idempotency: an order already stamped with the session is returned untouched
    ensures FindOrderBySession(st.orders, s.id).Some? ==> st' == st
    // an unpaid session changes nothing
    ensures FindOrderBySession(st.orders, s.id).None? && s.paymentStatus != "paid" ==> r.None? && st' == st
    // the only user ever created is the guest
    ensures st'.users == if FindOrderBySession(st.orders, s.id).None? && s.paymentStatus == "paid" &&
                            InsertsGuest(st.users, s) && o.guestId.Some?
                         then st.users + [Guest(s, o.guestId.value)] else st.users
    // refund exactly when due (and when there is a payment intent to refund)
    ensures st'.refunds == if RefundDue(st, s, o.guestId, o.rpcOrderId) && PaymentIntent(s).Some? && o.refundOk
                           then st.refunds + [PaymentIntent(s).value] else st.refunds
    ensures RefundDue(st, s, o.guestId, o.rpcOrderId) ==> r.None?
    // a failed reconciliation leaves no order behind
    ensures r.None? ==> st'.orders == st.orders && FindOrderBySession(st'.orders, s.id).None?
    ensures r.None? ==> st'.emails == st.emails && st'.customerSyncs == st.customerSyncs
    // a new order belongs to the resolved user and carries the resolved items
    ensures r.Some? && FindOrderBySession(st.orders, s.id).None? ==>
              |st'.orders| == |st.orders| + 1 && st'.orders[|st.orders|].id == r.value &&
              Some(st'.orders[|st.orders|].userId) == ResolvedId(ResolveUser(st.users, s, o.guestId)) &&
              st'.orders[|st.orders|].items == ResolvedItems(st.products, s.lineItems) &&
              st'.orders[|st.orders|].totalCents == s.amountTotal.GetOr(0) &&
              st'.orders[|st.orders|].discountCents == DiscountCents(DiscountedSubtotal(s.lineItems), DiscountPercent(s))
    // stamping makes the next call take the idempotent branch; without it, it does not
    ensures r.Some? && o.linkOk ==> FindOrderBySession(st'.orders, s.id) == r
    ensures r.Some? && !o.linkOk && FindOrderBySession(st.orders, s.id).None? ==>
              FindOrderBySession(st'.orders, s.id).None?
    ensures st'.products == st.products
    // a new order gets one invoice under a fresh number, or the fallback; nothing else adds one
    ensures r.Some? && FindOrderBySession(st.orders, s.id).None? && o.invoiceOk ==>
              FreshInvoice(st.invoices, st'.invoices, st'.orders[|st.orders|], o)
    ensures !(r.Some? && FindOrderBySession(st.orders, s.id).None? && o.invoiceOk) ==> st'.invoices == st.invoices
    // the promotion's use is counted only for an order that was created
    ensures r.None? || FindOrderBySession(st.orders, s.id).Some? ==> st'.promoUses == st.promoUses
  {
    var existing := FindOrderBySession(st.orders, s.id);
    if existing.Some? {
      return existing, st;
    }
    if s.paymentStatus != "paid" {
      return None, st;
    }
    r, st' := CreateOrder(st, s, o);
    if r.Some? {
      var n := st'.orders[|st.orders|];
      assert n.(stripeSessionId := None, paymentIntentId := None).userId == n.userId;
    }
  }

  /** Reconciling the same session twice (the webhook and the success page)
      yields one order: once the first call has stamped its order, the second
      returns the same id and changes nothing. */
  method ReconcileTwice(st: Store, s: Session, first: Oracles, second: Oracles)
      returns (r1: Option<string>, r2: Option<string>, st2: Store)
    ensures r1.Some? && first.linkOk ==> r2 == r1
    ensures r1.Some? && first.linkOk ==> |st2.orders| == |st.orders| + (if FindOrderBySession(st.orders, s.id).Some? then 0 else 1)
  {
    var st1;
    r1, st1 := EnsureOrder(st, s, first);
    r2, st2 := EnsureOrder(st1, s, second);
  }

  // ---------------------------------------------------------------------
  // Invoice numbers

  function InvoiceNumbers(invoices: seq<Invoice>): (r: seq<string>)
    ensures |r| == |invoices| && forall k :: 0 <= k < |r| ==> r[k] == invoices[k].number
  {
    if |invoices| == 0 then [] else [invoices[0].number] + InvoiceNumbers(invoices[1..])
  }

  function YearPrefix(year: nat): string {
    INVOICE_PREFIX + "-" + NatToString(year) + "-"
  }

  /** `FAC-<year>-` followed by the number zero-padded to six digits. */
  function InvoiceCandidate(year: nat, n: nat): string {
    YearPrefix(year) + PadStart(NatToString(n), 6, '0')
  }

  /** The candidate of retry number `attempt`. */
  function Attempt(year: nat, sequence: nat, attempt: nat): string {
    InvoiceCandidate(year, sequence + attempt)
  }

  function FallbackInvoiceNumber(year: nat, nowMs: nat): string {
    YearPrefix(year) + "T" + NatToString(nowMs)
  }

  /** Code-point lexicographic order, the order of `.order('invoice_number',
      { ascending: false })`. */
  predicate LexLe(a: string, b: string)
    decreases |a|
  {
    |a| == 0 || (|b| > 0 && (a[0] < b[0] || (a[0] == b[0] && LexLe(a[1..], b[1..]))))
  }

  lemma {:induction false} LexLeTotal(a: string, b: string)
    ensures LexLe(a, b) || LexLe(b, a)
    decreases |a|
  {
    if |a| > 0 && |b| > 0 && a[0] == b[0] {
      LexLeTotal(a[1..], b[1..]);
    }
  }

  /** The greatest of a non-empty list. */
  function MaxLex(xs: seq<string>): (m: string)
    requires |xs| > 0
    ensures m in xs
    ensures forall x :: x in xs ==> LexLe(x, m)
  {
    if |xs| == 1 then LexLeRefl(xs[0]); xs[0]
    else
      var rest := MaxLex(xs[1..]);
      LexLeTotal(xs[0], rest);
      if LexLe(xs[0], rest) then rest else
        assert forall x :: x in xs ==> LexLe(x, xs[0]) by {
          forall x | x in xs ensures LexLe(x, xs[0]) {
            if x == xs[0] {
              LexLeRefl(x);
            } else {
              assert x in xs[1..];
              LexLeTrans(x, rest, xs[0]);
            }
          }
        }
        xs[0]
  }

  lemma {:induction false} LexLeRefl(a: string)
    ensures LexLe(a, a)
    decreases |a|
  {
    if |a| > 0 {
      LexLeRefl(a[1..]);
    }
  }

  lemma {:induction false} LexLeTrans(a: string, b: string, c: string)
    requires LexLe(a, b) && LexLe(b, c)
    ensures LexLe(a, c)
    decreases |a|
  {
    if |a| > 0 && a[0] == b[0] && b[0] == c[0] {
      LexLeTrans(a[1..], b[1..], c[1..]);
    }
  }

  /** `invoice_number LIKE 'FAC-<year>-%'` */
  function WithPrefix(xs: seq<string>, p: string): (r: seq<string>)
    ensures forall x :: x in r <==> x in xs && StartsWith(x, p)
  {
    if |xs| == 0 then []
    else (if StartsWith(xs[0], p) then [xs[0]] else []) + WithPrefix(xs[1..], p)
  }

  /** The match of `/(\d+)$/`: the longest suffix of digits. */
  function TrailingDigits(s: string): (r: string)
    ensures |r| <= |s| && r == s[|s| - |r|..] && AllDigits(r)
    ensures |r| < |s| ==> !IsDigit(s[|s| - |r| - 1])
    decreases |s|
  {
    if |s| > 0 && IsDigit(s[|s| - 1]) then TrailingDigits(s[..|s| - 1]) + [s[|s| - 1]] else ""
  }

  /** The sequence number the next invoice of the year starts from: one past
      the trailing number of the greatest stored number of that year, else 1. */
  function InvoiceSequence(numbers: seq<string>, year: nat): (r: nat)
    ensures r >= 1
  {
    var ofYear := WithPrefix(numbers, YearPrefix(year));
    if |ofYear| == 0 then 1
    else
      var digits := TrailingDigits(MaxLex(ofYear));
      if digits == "" then 1 else DigitsValue(digits) + 1
  }

  method GenerateInvoiceNumber(numbers: seq<string>, year: nat, nowMs: nat) returns (n: string)
    ensures n != FallbackInvoiceNumber(year, nowMs) ==>
              n !in numbers &&
              exists k: nat :: k < INVOICE_ATTEMPTS && n == Attempt(year, InvoiceSequence(numbers, year), k) &&
                forall j: nat :: j < k ==> Attempt(year, InvoiceSequence(numbers, year), j) in numbers
    ensures n == FallbackInvoiceNumber(year, nowMs) ==>
              forall k: nat :: k < INVOICE_ATTEMPTS ==> Attempt(year, InvoiceSequence(numbers, year), k) in numbers
  {
    n := TryCandidates(numbers, year, InvoiceSequence(numbers, year), nowMs);
  }

  /** The five attempts from a given sequence number. */
  method TryCandidates(numbers: seq<string>, year: nat, sequence: nat, nowMs: nat) returns (n: string)
    ensures n != FallbackInvoiceNumber(year, nowMs) ==>
              n !in numbers &&
              exists k: nat :: k < INVOICE_ATTEMPTS && n == Attempt(year, sequence, k) &&
                forall j: nat :: j < k ==> Attempt(year, sequence, j) in numbers
    ensures n == FallbackInvoiceNumber(year, nowMs) ==>
              forall k: nat :: k < INVOICE_ATTEMPTS ==> Attempt(year, sequence, k) in numbers
  {
    var attempt := 0;
    while attempt < INVOICE_ATTEMPTS
      invariant 0 <= attempt <= INVOICE_ATTEMPTS
      invariant forall j: nat :: j < attempt ==> Attempt(year, sequence, j) in numbers
    {
      var candidate := Attempt(year, sequence, attempt);
      if candidate !in numbers {
        CandidateIsNotFallback(year, sequence + attempt, nowMs);
        n := candidate;
        return;
      }
      attempt := attempt + 1;
    }
    n := FallbackInvoiceNumber(year, nowMs);
  }

  /** A candidate and the timestamp fallback never coincide: after the year
      prefix one has a digit, the other a 'T'. */
  lemma CandidateIsNotFallback(year: nat, n: nat, nowMs: nat)
    ensures InvoiceCandidate(year, n) != FallbackInvoiceNumber(year, nowMs)
  {
    var p := YearPrefix(year);
    var c := InvoiceCandidate(year, n);
    var pad := PadStart(NatToString(n), 6, '0');
    assert c[|p|] == pad[0];
    assert IsDigit(pad[0]) by {
      if |pad| - |NatToString(n)| > 0 { assert pad[0] == '0'; }
      else { assert pad[0] == NatToString(n)[0]; }
    }
    assert FallbackInvoiceNumber(year, nowMs)[|p|] == 'T';
  }

  /** The number written into a candidate is read back by the trailing-digit
      parse, so a year's first invoice continues from itself. */
  lemma CandidateRoundTrip(year: nat, n: nat)
    ensures TrailingDigits(InvoiceCandidate(year, n)) == PadStart(NatToString(n), 6, '0')
    ensures DigitsValue(TrailingDigits(InvoiceCandidate(year, n))) == n
  {
    var pad := PadStart(NatToString(n), 6, '0');
    PaddedValue(n);
    var p := YearPrefix(year);
    assert p[|p| - 1] == '-';
    TrailingDigitsAfter(p, pad);
  }

  /** Zero-padding keeps the digits and their value. */
  lemma PaddedValue(n: nat)
    ensures AllDigits(PadStart(NatToString(n), 6, '0'))
    ensures DigitsValue(PadStart(NatToString(n), 6, '0')) == n
  {
    var digits := NatToString(n);
    var pad := PadStart(digits, 6, '0');
    var z := pad[..|pad| - |digits|];
    assert pad == z + digits;
    ZerosValue(z, digits);
    NatToStringRoundTrip(n);
  }

  lemma {:induction false} TrailingDigitsAfter(p: string, d: string)
    requires AllDigits(d) && |p| > 0 && !IsDigit(p[|p| - 1])
    ensures TrailingDigits(p + d) == d
    decreases |d|
  {
    if |d| == 0 {
      assert p + d == p;
    } else {
      assert (p + d)[..|p + d| - 1] == p + d[..|d| - 1];
      TrailingDigitsAfter(p, d[..|d| - 1]);
    }
  }

  /** With a single invoice of the year on file, the next sequence continues
      after it. */
  lemma NextSequenceAfterCandidate(year: nat, n: nat)
    ensures InvoiceSequence([InvoiceCandidate(year, n)], year) == n + 1
  {
    var c := InvoiceCandidate(year, n);
    assert StartsWith(c, YearPrefix(year));
    var one: seq<string> := [c];
    var ofYear := WithPrefix(one, YearPrefix(year));
    assert one[1..] == [];
    assert WithPrefix(one[1..], YearPrefix(year)) == [];
    assert ofYear == one;
    CandidateRoundTrip(year, n);
  }
}
