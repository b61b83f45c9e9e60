/** The admin's order-status update: a body check, the admin guard, the
    tracking-number rule, one order update and the status email. The Stripe
    session lookup and the mailer are oracles. */
module UpdateOrderStatus {
  import opened Common
  import opened Auth

  const ENVIADO: string := "enviado"
  const ENTREGADO: string := "entregado"
  /** 'pendiente' is deliberately not a status an admin can set. */
  const VALID_STATUSES: seq<string> := ["pagado", ENVIADO, ENTREGADO, "cancelado"]
  const DEFAULT_CARRIER: string := "Correos Express"

  datatype Order = Order(status: string, trackingNumber: Option<string>, stripeSessionId: Option<string>,
                         userEmail: Option<string>, userFullName: Option<string>)

  datatype Mail =
    | ShippingNotification(to: string, name: string, orderId: string, tracking: Option<string>, carrier: string)
    | DeliveryConfirmation(to: string, orderId: string, name: string)

  datatype Store = Store(orders: map<string, Order>, emails: seq<Mail>)

  datatype Body = Body(orderId: Option<string>, newStatus: Option<string>, trackingNumber: Option<string>,
                       carrier: Option<string>)

  /** The Stripe session's customer details (email, name), None when the
      retrieval throws; whether the order update and the mailer succeed. */
  datatype Oracles = Oracles(sessionDetails: Option<(Option<string>, Option<string>)>, updateOk: bool, emailOk: bool)

  predicate ValidBody(b: Body) {
    NonEmpty(b.orderId).Some? && NonEmpty(b.newStatus).Some? && b.newStatus.value in VALID_STATUSES
  }

  /** The written row: the status always, the tracking number only when a
      truthy one was supplied; the current status is not consulted. */
  function Updated(order: Order, b: Body): (r: Order)
    requires b.newStatus.Some?
    ensures r.status == b.newStatus.value
    ensures r.trackingNumber == (if NonEmpty(b.trackingNumber).Some? then b.trackingNumber else order.trackingNumber)
    ensures r.stripeSessionId == order.stripeSessionId && r.userEmail == order.userEmail && r.userFullName == order.userFullName
  {
    order.(status := b.newStatus.value,
           trackingNumber := if NonEmpty(b.trackingNumber).Some? then b.trackingNumber else order.trackingNumber)
  }

  /** The notification address and name: the user row's, with the Stripe
      session's customer details as the fallback for guest orders. */
  method Contact(order: Order, details: Option<(Option<string>, Option<string>)>)
      returns (email: Option<string>, name: string)
    ensures NonEmpty(order.userEmail).Some? ==>
              email == order.userEmail && name == OrElse(order.userFullName, Some("Cliente")).value
    ensures (NonEmpty(order.userEmail).None? && NonEmpty(order.stripeSessionId).Some? && details.Some?) ==>
              email == NonEmpty(details.value.0) && name == OrElse(details.value.1, Some("Cliente")).value
    ensures (NonEmpty(order.userEmail).None? && (NonEmpty(order.stripeSessionId).None? || details.None?)) ==>
              email.None? && name == OrElse(order.userFullName, Some("Cliente")).value
    ensures email.Some? ==> email.value != "" && name != ""
  {
    email := NonEmpty(order.userEmail);
    name := OrElse(order.userFullName, Some("Cliente")).value;
    if email.None? && NonEmpty(order.stripeSessionId).Some? {
      match details {
        case Some(d) =>
          email := NonEmpty(d.0);
          name := OrElse(d.1, Some("Cliente")).value;
        case None =>
      }
    }
  }

  /** The email for a status change: shipping for 'enviado', delivery for
      'entregado', none for the other statuses. */
  function StatusMail(newStatus: string, to: string, name: string, orderId: string, b: Body): (m: Option<Mail>)
    ensures m.Some? <==> newStatus == ENVIADO || newStatus == ENTREGADO
    ensures newStatus == ENVIADO ==>
              m == Some(ShippingNotification(to, name, orderId, b.trackingNumber, OrElse(b.carrier, Some(DEFAULT_CARRIER)).value))
    ensures newStatus == ENTREGADO ==> m == Some(DeliveryConfirmation(to, orderId, name))
    ensures m.Some? ==> m.value.to == to
  {
    if newStatus == ENVIADO then
      Some(ShippingNotification(to, name, orderId, b.trackingNumber, OrElse(b.carrier, Some(DEFAULT_CARRIER)).value))
    else if newStatus == ENTREGADO then Some(DeliveryConfirmation(to, orderId, name))
    else None
  }

  /** `POST`. `bodyOk` is false when the body is not JSON, which throws
      into the 500 answer. */
  method UpdateOrderStatus(st: Store, id: Identity, header: Option<string>, bodyOk: bool, b: Body, o: Oracles)
      returns (status: int, st': Store)
    ensures !bodyOk ==> status == 500 && st' == st
    // the body is validated before the caller
    ensures bodyOk && !ValidBody(b) ==> status == 400 && st' == st
    ensures bodyOk && ValidBody(b) && !AuthenticateAdmin(id, header, RequirePresent).Admin? ==>
              status == AdminFailureStatus(AuthenticateAdmin(id, header, RequirePresent)) && st' == st
    ensures (bodyOk && ValidBody(b) && AuthenticateAdmin(id, header, RequirePresent).Admin? &&
             b.newStatus.value == ENVIADO && NonEmpty(b.trackingNumber).None?) ==> status == 400 && st' == st
    ensures (bodyOk && ValidBody(b) && AuthenticateAdmin(id, header, RequirePresent).Admin? &&
             (b.newStatus.value == ENVIADO ==> NonEmpty(b.trackingNumber).Some?) &&
             b.orderId.value !in st.orders) ==> status == 404 && st' == st
    ensures status == 200 <==>
              bodyOk && ValidBody(b) && AuthenticateAdmin(id, header, RequirePresent).Admin? &&
              (b.newStatus.value == ENVIADO ==> NonEmpty(b.trackingNumber).Some?) &&
              b.orderId.value in st.orders && o.updateOk
    ensures status != 200 ==> st' == st
    // on success exactly one order row changes, as Updated says, and at most
    // one email is logged, whose failure does not change the answer
    ensures status == 200 ==>
              st'.orders == st.orders[b.orderId.value := Updated(st.orders[b.orderId.value], b)] &&
              (st'.emails == st.emails || (|st'.emails| == |st.emails| + 1 && st'.emails[..|st.emails|] == st.emails))
    ensures status == 200 && b.newStatus.value != ENVIADO && b.newStatus.value != ENTREGADO ==> st'.emails == st.emails
    ensures status == 200 && !o.emailOk ==> st'.emails == st.emails
    // a registered customer is mailed at the user row's address
    ensures (status == 200 && o.emailOk && NonEmpty(st.orders[b.orderId.value].userEmail).Some? &&
             (b.newStatus.value == ENVIADO || b.newStatus.value == ENTREGADO)) ==>
              st'.emails == st.emails + [StatusMail(b.newStatus.value, st.orders[b.orderId.value].userEmail.value,
                                                    OrElse(st.orders[b.orderId.value].userFullName, Some("Cliente")).value,
                                                    b.orderId.value, b).value]
    // a guest at the Stripe session's address, if there is one
    ensures (status == 200 && o.emailOk && NonEmpty(st.orders[b.orderId.value].userEmail).None? &&
             NonEmpty(st.orders[b.orderId.value].stripeSessionId).Some? && o.sessionDetails.Some? &&
             NonEmpty(o.sessionDetails.value.0).Some? &&
             (b.newStatus.value == ENVIADO || b.newStatus.value == ENTREGADO)) ==>
              st'.emails == st.emails + [StatusMail(b.newStatus.value, o.sessionDetails.value.0.value,
                                                    OrElse(o.sessionDetails.value.1, Some("Cliente")).value,
                                                    b.orderId.value, b).value]
    ensures (status == 200 && NonEmpty(st.orders[b.orderId.value].userEmail).None? &&
             (NonEmpty(st.orders[b.orderId.value].stripeSessionId).None? || o.sessionDetails.None? ||
              NonEmpty(o.sessionDetails.value.0).None?)) ==> st'.emails == st.emails
  {
    if !bodyOk {
      return 500, st;
    }
    if !ValidBody(b) {
      return 400, st;
    }
    var auth := AuthenticateAdmin(id, header, RequirePresent);
    if !auth.Admin? {
      return AdminFailureStatus(auth), st;
    }
    var newStatus := b.newStatus.value;
    if newStatus == ENVIADO && NonEmpty(b.trackingNumber).None? {
      return 400, st;
    }
    var orderId := b.orderId.value;
    if orderId !in st.orders {
      return 404, st;
    }
    var order := st.orders[orderId];
    if !o.updateOk {
      return 500, st;
    }
    st' := st.(orders := st.orders[orderId := Updated(order, b)]);
    var email, name := Contact(order, o.sessionDetails);
    if email.Some? && o.emailOk {
      var mail := StatusMail(newStatus, email.value, name, orderId, b);
      if mail.Some? {
        st' := st'.(emails := st'.emails + [mail.value]);
      }
    }
    status := 200;
  }
}
