/** The Stripe webhook endpoint: a guard chain over the signature header,
    the configured endpoint secret and the signature verifier, then a switch
    on the event type. The verifier (`stripe.webhooks.constructEvent`) is an
    abstract function of body, signature and secret; it yields an event or
    rejects. */
module Webhook {
  import opened Common
  import ProcessOrder

  const CHECKOUT_COMPLETED: string := "checkout.session.completed"
  const PAYMENT_FAILED: string := "payment_intent.payment_failed"

  datatype Event = Event(kind: string, objectId: string)

  /** The response status, and the checkout session handed to
      reconciliation (at most one). */
  datatype Reply = Reply(status: int, reconcile: Option<string>)

  function Decide(sig: Option<string>, secret: string, body: string,
                  construct: (string, string, string) -> Option<Event>): (r: Reply)
    ensures NonEmpty(sig).None? ==> r == Reply(400, None)
    ensures NonEmpty(sig).Some? && secret == "" ==> r == Reply(500, None)
    ensures NonEmpty(sig).Some? && secret != "" && construct(body, sig.value, secret).None? ==> r == Reply(400, None)
    // every verified event is acknowledged, whatever reconciliation does
    ensures NonEmpty(sig).Some? && secret != "" && construct(body, sig.value, secret).Some? ==> r.status == 200
    // reconciliation runs for completed checkouts only, on their session
    ensures r.reconcile.Some? <==>
              NonEmpty(sig).Some? && secret != "" && construct(body, sig.value, secret).Some? &&
              construct(body, sig.value, secret).value.kind == CHECKOUT_COMPLETED
    ensures r.reconcile.Some? ==> r.reconcile.value == construct(body, sig.value, secret).value.objectId
    ensures r.status == 200 || r.reconcile.None?
  {
    if NonEmpty(sig).None? then Reply(400, None)
    else if secret == "" then Reply(500, None)
    else match construct(body, sig.value, secret)
      case None => Reply(400, None)
      case Some(ev) =>
        if ev.kind == CHECKOUT_COMPLETED then Reply(200, Some(ev.objectId))
        else Reply(200, None)   // payment_intent.payment_failed and every other type are only logged
  }

  /** `stripe.checkout.sessions.retrieve(sid)`: the map holds what Stripe
      knows about each session; the session it returns carries the id it
      was asked for, whatever id the map's entry was written with. */
  function Retrieve(stripe: map<string, ProcessOrder.Session>, sid: string): (r: ProcessOrder.Session)
    requires sid in stripe
    ensures r.id == sid
    ensures r.(id := stripe[sid].id) == stripe[sid]
  {
    stripe[sid].(id := sid)
  }

  predicate AlreadyReconciled(st: ProcessOrder.Store, stripe: map<string, ProcessOrder.Session>, sid: string) {
    sid in stripe && ProcessOrder.FindOrderBySession(st.orders, sid).Some?
  }

  /** The endpoint with its one reconciliation call. The session is fetched
      from Stripe by id; an id Stripe does not know makes the retrieval throw,
      which the handler catches like any reconciliation error. */
  method Handle(st: ProcessOrder.Store, stripe: map<string, ProcessOrder.Session>,
                sig: Option<string>, secret: string, body: string,
                construct: (string, string, string) -> Option<Event>, o: ProcessOrder.Oracles)
      returns (status: int, st': ProcessOrder.Store)
    ensures status == Decide(sig, secret, body, construct).status
    ensures Decide(sig, secret, body, construct).reconcile.None? ==> st' == st
    ensures status != 200 ==> st' == st
    // a redelivered event for a session that already has its order changes nothing
    ensures (Decide(sig, secret, body, construct).reconcile.Some? &&
             AlreadyReconciled(st, stripe, Decide(sig, secret, body, construct).reconcile.value)) ==> st' == st
    // a session Stripe does not know makes the retrieval throw: nothing changes
    ensures (Decide(sig, secret, body, construct).reconcile.Some? &&
             Decide(sig, secret, body, construct).reconcile.value !in stripe) ==> st' == st
    // otherwise the retrieved session is reconciled: a failure leaves the orders as they were,
    // a new order is appended under the reconciled id, and stamping makes it findable
    ensures (Decide(sig, secret, body, construct).reconcile.Some? &&
             Decide(sig, secret, body, construct).reconcile.value in stripe) ==>
              var sess := Retrieve(stripe, Decide(sig, secret, body, construct).reconcile.value);
              var out := ProcessOrder.Outcome(st, sess, o.guestId, o.rpcOrderId);
              (out.None? ==> st'.orders == st.orders) &&
              (out.Some? && ProcessOrder.FindOrderBySession(st.orders, sess.id).None? ==>
                 |st'.orders| == |st.orders| + 1 && st'.orders[|st.orders|].id == out.value) &&
              (out.Some? && o.linkOk ==> ProcessOrder.FindOrderBySession(st'.orders, sess.id) == out)
  {
    var reply := Decide(sig, secret, body, construct);
    status := reply.status;
    st' := st;
    if reply.reconcile.Some? && reply.reconcile.value in stripe {
      var session := Retrieve(stripe, reply.reconcile.value);
      var orderId;
      orderId, st' := ProcessOrder.EnsureOrder(st, session, o);
    }
  }
}
