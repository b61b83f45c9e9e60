/** The admin decision on a customer's cancellation request: approve
    (refund through Stripe, cancel the order and restore its stock) or
    reject. Stripe, the stock RPC and the mailer are oracles; the
    `cancellation_requests` and `orders` tables are maps, and refunds, stock
    restores and emails are logs. */
module ApproveCancellation {
  import opened Common
  import opened Auth

  const APROBAR: string := "aprobar"
  const RECHAZAR: string := "rechazar"
  const PENDIENTE: string := "pendiente"
  const CANCELLABLE: seq<string> := ["pagado", "enviado"]

  // ---------------------------------------------------------------------
  // The request id: /^[0-9a-f]{8}-[0-9a-f]{4}-[0-9a-f]{4}-[0-9a-f]{4}-[0-9a-f]{12}$/i,
  // the 8-4-4-4-12 layout of section 3 of RFC 4122.

  predicate IsHyphenPosition(i: int) { i == 8 || i == 13 || i == 18 || i == 23 }

  predicate IsUuid(s: string) {
    |s| == 36 &&
    forall i :: 0 <= i < |s| ==> (if IsHyphenPosition(i) then s[i] == '-' else IsHexDigit(s[i]))
  }

  predicate AllHex(s: string) {
    forall i :: 0 <= i < |s| ==> IsHexDigit(s[i])
  }

  /** The regular expression read group by group: five runs of hexadecimal
      digits of lengths 8, 4, 4, 4 and 12 joined by hyphens. */
  lemma UuidGroups(a: string, b: string, c: string, d: string, e: string)
    requires |a| == 8 && |b| == 4 && |c| == 4 && |d| == 4 && |e| == 12
    ensures IsUuid(a + "-" + b + "-" + c + "-" + d + "-" + e) <==>
              AllHex(a) && AllHex(b) && AllHex(c) && AllHex(d) && AllHex(e)
  {
    var s := a + "-" + b + "-" + c + "-" + d + "-" + e;
    assert forall i :: 0 <= i < 8 ==> s[i] == a[i];
    assert forall i :: 0 <= i < 4 ==> s[9 + i] == b[i] && s[14 + i] == c[i] && s[19 + i] == d[i];
    assert forall i :: 0 <= i < 12 ==> s[24 + i] == e[i];
  }

  /** The `i` flag: the match does not depend on letter case. */
  lemma UuidIgnoresCase(s: string)
    ensures IsUuid(ToLower(s)) <==> IsUuid(s)
    ensures IsUuid(ToUpper(s)) <==> IsUuid(s)
  {
    forall c: char
      ensures IsHexDigit(LowerChar(c)) <==> IsHexDigit(c)
      ensures IsHexDigit(UpperChar(c)) <==> IsHexDigit(c)
      ensures LowerChar(c) == '-' <==> c == '-'
      ensures UpperChar(c) == '-' <==> c == '-'
    {
    }
  }

  // ---------------------------------------------------------------------
  // State

  datatype CancelRequest = CancelRequest(orderId: string, status: string, adminNotes: Option<string>,
                                         refundId: Option<string>)

  datatype Order = Order(status: string, paymentIntentId: Option<string>, stripeSessionId: Option<string>,
                         customerEmail: Option<string>, customerName: Option<string>)

  datatype Refund = Refund(paymentIntent: string, refundId: string)

  datatype MailKind = CancellationApproved | CancellationRejected
  datatype Mail = Mail(kind: MailKind, to: string, orderId: string, name: string, notes: Option<string>)

  datatype Store = Store(requests: map<string, CancelRequest>, orders: map<string, Order>,
                         refunds: seq<Refund>, restocked: seq<string>, emails: seq<Mail>)

  datatype Body = Body(cancellationId: Option<string>, action: Option<string>, adminNotes: Option<string>)

  /** Stripe's answers (the session's payment intent, None when the retrieval
      throws; the refund id, None when the refund throws), and whether the
      unchecked writes, the stock RPC and the mailer succeed. */
  datatype Oracles = Oracles(retrieved: Option<Option<string>>, saveIntentOk: bool, refund: Option<string>,
                             rpcOk: bool, requestUpdateOk: bool, emailOk: bool)

  predicate ValidBody(b: Body) {
    NonEmpty(b.cancellationId).Some? && b.action.Some? && b.action.value in [APROBAR, RECHAZAR]
  }

  /** `.eq('id', …).eq('status', 'pendiente').single()` */
  predicate Pending(st: Store, cid: string) {
    cid in st.requests && st.requests[cid].status == PENDIENTE
  }

  /** The request passes every guard before the branch on the action. */
  predicate Found(st: Store, b: Body) {
    ValidBody(b) && IsUuid(b.cancellationId.value) && Pending(st, b.cancellationId.value) &&
    st.requests[b.cancellationId.value].orderId in st.orders
  }

  /** The Stripe session is consulted only when the order has no stored
      payment intent but does have a session. */
  predicate Retrieves(order: Order) {
    NonEmpty(order.paymentIntentId).None? && NonEmpty(order.stripeSessionId).Some?
  }

  /** The payment intent the refund is made against, if any. */
  function PaymentIntent(order: Order, retrieved: Option<Option<string>>): (pi: Option<string>)
    ensures pi.Some? ==> pi.value != ""
    ensures NonEmpty(order.paymentIntentId).Some? ==> pi == order.paymentIntentId
    ensures NonEmpty(order.paymentIntentId).None? && !Retrieves(order) ==> pi.None?
    ensures Retrieves(order) ==> (pi.Some? <==> retrieved.Some? && NonEmpty(retrieved.value).Some?)
  {
    if Retrieves(order) && retrieved.Some? then NonEmpty(retrieved.value)
    else NonEmpty(order.paymentIntentId)
  }

  /** The order after the attempt to recover its payment intent: the
      retrieved value (null included) is saved when the write succeeds. */
  function AfterRecovery(order: Order, o: Oracles): Order {
    if Retrieves(order) && o.retrieved.Some? && o.saveIntentOk then order.(paymentIntentId := o.retrieved.value)
    else order
  }

  /** The cancelled order's notification, sent only to a truthy address. */
  function Notify(emails: seq<Mail>, order: Order, orderId: string, kind: MailKind, notes: Option<string>, ok: bool): seq<Mail> {
    if NonEmpty(order.customerEmail).Some? && ok then
      emails + [Mail(kind, order.customerEmail.value, orderId, OrElse(order.customerName, Some("Cliente")).value, notes)]
    else emails
  }

  // ---------------------------------------------------------------------
  // The two branches

  /** Approval, from the order-state check on. */
  method Approve(st: Store, cid: string, notes: Option<string>, o: Oracles)
      returns (status: int, refundId: Option<string>, st': Store)
    requires Pending(st, cid) && st.requests[cid].orderId in st.orders
    ensures st'.requests.Keys == st.requests.Keys && st'.orders.Keys == st.orders.Keys
    ensures var oid := st.requests[cid].orderId; var order := st.orders[oid];
            // an order that left 'pagado'/'enviado' is refused before anything
            (order.status !in CANCELLABLE ==> status == 400 && st' == st) &&
            (order.status in CANCELLABLE && PaymentIntent(order, o.retrieved).None? ==>
               status == 400 && st' == st.(orders := st.orders[oid := AfterRecovery(order, o)])) &&
            // a failed refund leaves the request pending and nothing refunded
            (order.status in CANCELLABLE && PaymentIntent(order, o.retrieved).Some? && o.refund.None? ==>
               status == 500 && st' == st.(orders := st.orders[oid := AfterRecovery(order, o)])) &&
            // after a refund the answer is 200 whatever the stock restore did
            (order.status in CANCELLABLE && PaymentIntent(order, o.retrieved).Some? && o.refund.Some? ==>
               status == 200 && refundId == o.refund &&
               st'.refunds == st.refunds + [Refund(PaymentIntent(order, o.retrieved).value, o.refund.value)] &&
               st'.restocked == (if o.rpcOk then st.restocked + [oid] else st.restocked) &&
               st'.orders == st.orders[oid := if o.rpcOk then AfterRecovery(order, o).(status := "cancelado")
                                              else AfterRecovery(order, o)] &&
               st'.requests == (if o.requestUpdateOk
                                then st.requests[cid := st.requests[cid].(status := "aprobada",
                                       adminNotes := NonEmpty(notes), refundId := o.refund)]
                                else st.requests) &&
               st'.emails == Notify(st.emails, order, oid, CancellationApproved, None, o.emailOk))
    ensures status != 200 ==> st'.requests == st.requests && st'.refunds == st.refunds &&
                              st'.restocked == st.restocked && st'.emails == st.emails
  {
    var oid := st.requests[cid].orderId;
    var order := st.orders[oid];
    st' := st;
    refundId := None;
    if order.status !in CANCELLABLE {
      return 400, None, st;
    }
    var recovered := AfterRecovery(order, o);
    st' := st'.(orders := st'.orders[oid := recovered]);
    var pi := PaymentIntent(order, o.retrieved);
    if pi.None? {
      return 400, None, st';
    }
    if o.refund.None? {
      return 500, None, st';
    }
    refundId := o.refund;
    st' := st'.(refunds := st'.refunds + [Refund(pi.value, refundId.value)]);
    if o.rpcOk {
      st' := st'.(orders := st'.orders[oid := recovered.(status := "cancelado")],
                  restocked := st'.restocked + [oid]);
    }
    if o.requestUpdateOk {
      st' := st'.(requests := st'.requests[cid := st'.requests[cid].(status := "aprobada",
                    adminNotes := NonEmpty(notes), refundId := refundId)]);
    }
    st' := st'.(emails := Notify(st'.emails, order, oid, CancellationApproved, None, o.emailOk));
    status := 200;
  }

  /** Rejection: no order check, no refund. */
  method Reject(st: Store, cid: string, notes: Option<string>, o: Oracles) returns (st': Store)
    requires Pending(st, cid) && st.requests[cid].orderId in st.orders
    ensures st'.orders == st.orders && st'.refunds == st.refunds && st'.restocked == st.restocked
    ensures st'.requests == (if o.requestUpdateOk
                             then st.requests[cid := st.requests[cid].(status := "rechazada", adminNotes := NonEmpty(notes))]
                             else st.requests)
    ensures st'.emails == Notify(st.emails, st.orders[st.requests[cid].orderId], st.requests[cid].orderId,
                                 CancellationRejected, notes, o.emailOk)
  {
    var oid := st.requests[cid].orderId;
    st' := st;
    if o.requestUpdateOk {
      st' := st'.(requests := st'.requests[cid := st'.requests[cid].(status := "rechazada", adminNotes := NonEmpty(notes))]);
    }
    st' := st'.(emails := Notify(st'.emails, st.orders[oid], oid, CancellationRejected, notes, o.emailOk));
  }

  /** The endpoint. `bodyOk` is false when the body, read after the admin
      check, is not JSON, which throws into the 500 answer. */
  method ApproveCancellation(st: Store, id: Identity, header: Option<string>, bodyOk: bool, b: Body, o: Oracles)
      returns (status: int, refundId: Option<string>, st': Store)
    // admin is checked before the body is read
    ensures !AuthenticateAdmin(id, header, RequirePresent).Admin? ==>
              status == AdminFailureStatus(AuthenticateAdmin(id, header, RequirePresent)) && st' == st
    ensures AuthenticateAdmin(id, header, RequirePresent).Admin? && !bodyOk ==> status == 500 && st' == st
    ensures AuthenticateAdmin(id, header, RequirePresent).Admin? && bodyOk && !ValidBody(b) ==>
              status == 400 && st' == st
    ensures (AuthenticateAdmin(id, header, RequirePresent).Admin? && bodyOk && ValidBody(b) &&
             !IsUuid(b.cancellationId.value)) ==> status == 400 && st' == st
    ensures (AuthenticateAdmin(id, header, RequirePresent).Admin? && bodyOk && ValidBody(b) &&
             IsUuid(b.cancellationId.value) && !Found(st, b)) ==> status == 404 && st' == st
    ensures status == 200 ==> AuthenticateAdmin(id, header, RequirePresent).Admin? && bodyOk && Found(st, b)
    // only an approval of a cancellable order with a payment intent refunds
    ensures st'.refunds != st.refunds ==>
              AuthenticateAdmin(id, header, RequirePresent).Admin? && Found(st, b) && b.action == Some(APROBAR) &&
              st.orders[st.requests[b.cancellationId.value].orderId].status in CANCELLABLE &&
              o.refund.Some? && status == 200 &&
              PaymentIntent(st.orders[st.requests[b.cancellationId.value].orderId], o.retrieved).Some? &&
              st'.refunds == st.refunds + [Refund(PaymentIntent(st.orders[st.requests[b.cancellationId.value].orderId],
                                                                o.retrieved).value, o.refund.value)]
    // the request leaves 'pendiente' only on a 200, to 'aprobada' with the
    // refund id or to 'rechazada'
    ensures status != 200 ==> st'.requests == st.requests
    ensures status == 200 ==>
              st'.requests == (if o.requestUpdateOk
                then st.requests[b.cancellationId.value := st.requests[b.cancellationId.value].(
                  status := if b.action == Some(APROBAR) then "aprobada" else "rechazada",
                  adminNotes := NonEmpty(b.adminNotes),
                  refundId := if b.action == Some(APROBAR) then o.refund else st.requests[b.cancellationId.value].refundId)]
                else st.requests)
    ensures (AuthenticateAdmin(id, header, RequirePresent).Admin? && bodyOk && Found(st, b) &&
             b.action == Some(APROBAR) && st.orders[st.requests[b.cancellationId.value].orderId].status in CANCELLABLE &&
             PaymentIntent(st.orders[st.requests[b.cancellationId.value].orderId], o.retrieved).Some? &&
             o.refund.Some?) ==> status == 200
    ensures AuthenticateAdmin(id, header, RequirePresent).Admin? && bodyOk && Found(st, b) && b.action == Some(RECHAZAR) ==>
              status == 200 && st'.refunds == st.refunds && st'.orders == st.orders
    ensures status == 200 && b.action == Some(APROBAR) ==>
              refundId.Some? && refundId == o.refund &&
              PaymentIntent(st.orders[st.requests[b.cancellationId.value].orderId], o.retrieved).Some? &&
              st'.refunds == st.refunds + [Refund(PaymentIntent(st.orders[st.requests[b.cancellationId.value].orderId],
                                                                o.retrieved).value, o.refund.value)]
  {
    var auth := AuthenticateAdmin(id, header, RequirePresent);
    if !auth.Admin? {
      return AdminFailureStatus(auth), None, st;
    }
    if !bodyOk {
      return 500, None, st;
    }
    if !ValidBody(b) {
      return 400, None, st;
    }
    var cid := b.cancellationId.value;
    if !IsUuid(cid) {
      return 400, None, st;
    }
    if !Pending(st, cid) || st.requests[cid].orderId !in st.orders {
      return 404, None, st;
    }
    if b.action.value == APROBAR {
      status, refundId, st' := Approve(st, cid, b.adminNotes, o);
    } else {
      st' := Reject(st, cid, b.adminNotes, o);
      status, refundId := 200, None;
    }
  }

  /** Approving twice refunds once: the first approval moves the request out
      of 'pendiente', so the second finds nothing to process. */
  method ApproveTwice(st: Store, id: Identity, header: Option<string>, b: Body, o1: Oracles, o2: Oracles)
      returns (status2: int, st2: Store)
    requires AuthenticateAdmin(id, header, RequirePresent).Admin? && Found(st, b) && b.action == Some(APROBAR)
    requires o1.requestUpdateOk && o1.refund.Some?
    requires st.orders[st.requests[b.cancellationId.value].orderId].status in CANCELLABLE
    requires PaymentIntent(st.orders[st.requests[b.cancellationId.value].orderId], o1.retrieved).Some?
    ensures status2 == 404
    ensures |st2.refunds| == |st.refunds| + 1
  {
    var s1, r1, st1 := ApproveCancellation(st, id, header, true, b, o1);
    assert st1.requests[b.cancellationId.value].status == "aprobada";
    assert !Found(st1, b);
    var r2;
    status2, r2, st2 := ApproveCancellation(st1, id, header, true, b, o2);
  }
}
