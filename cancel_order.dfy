/** A customer's own cancellation of a paid order: a guard chain of early
    returns before one call to the `cancel_order_and_restore_stock` RPC,
    whose outcome is an oracle. */
module CancelOrder {
  import opened Common
  import opened Auth

  datatype Order = Order(userId: string, status: string)

  /** The response status, and whether the RPC was called (always on the
      requested order). */
  datatype Reply = Reply(status: int, rpcCalled: bool)

  /** `.eq('id', orderId).eq('user_id', user.id).single()` and the 'pagado'
      check. */
  predicate Cancellable(orders: map<string, Order>, orderId: string, userId: string) {
    orderId in orders && orders[orderId].userId == userId && orders[orderId].status == "pagado"
  }

  /** `POST`. `bodyOk` is false when the body is not JSON, which throws
      into the 500 answer. */
  function CancelOrder(orders: map<string, Order>, id: Identity, header: Option<string>, bodyOk: bool,
                       orderId: Option<string>, rpcOk: bool): (r: Reply)
    ensures !bodyOk ==> r == Reply(500, false)
    // the body is checked before the caller
    ensures bodyOk && NonEmpty(orderId).None? ==> r == Reply(400, false)
    ensures bodyOk && NonEmpty(orderId).Some? && !Authenticate(id, header, RequirePresent).Authenticated? ==> r == Reply(401, false)
    ensures (bodyOk && NonEmpty(orderId).Some? && Authenticate(id, header, RequirePresent).Authenticated? &&
             !Cancellable(orders, orderId.value, Authenticate(id, header, RequirePresent).user.id)) ==>
              r == Reply(400, false)
    // the RPC runs only for the caller's own paid order
    ensures r.rpcCalled <==>
              bodyOk && NonEmpty(orderId).Some? && Authenticate(id, header, RequirePresent).Authenticated? &&
              Cancellable(orders, orderId.value, Authenticate(id, header, RequirePresent).user.id)
    // success is reported only when the RPC returned no error
    ensures r.status == 200 <==> r.rpcCalled && rpcOk
    ensures r.rpcCalled && !rpcOk ==> r.status == 500
  {
    if !bodyOk then Reply(500, false)
    else if NonEmpty(orderId).None? then Reply(400, false)
    else match Authenticate(id, header, RequirePresent)
      case Authenticated(user) =>
        if !Cancellable(orders, orderId.value, user.id) then Reply(400, false)
        else if rpcOk then Reply(200, true)
        else Reply(500, true)
      case _ => Reply(401, false)
  }

  /** What the RPC does to the order row (stock is not modelled). */
  function Cancelled(orders: map<string, Order>, orderId: string): (r: map<string, Order>)
    requires orderId in orders
    ensures r.Keys == orders.Keys && r[orderId].status == "cancelado" && r[orderId].userId == orders[orderId].userId
    ensures forall k :: k in orders && k != orderId ==> r[k] == orders[k]
  {
    orders[orderId := orders[orderId].(status := "cancelado")]
  }

  /** An order is cancelled at most once: after a successful cancellation the
      same request is refused with 400 and no second RPC. */
  lemma CancelOnce(orders: map<string, Order>, id: Identity, header: Option<string>, orderId: Option<string>, rpcOk: bool)
    requires CancelOrder(orders, id, header, true, orderId, true).status == 200
    ensures CancelOrder(Cancelled(orders, orderId.value), id, header, true, orderId, rpcOk) == Reply(400, false)
  {
    assert !Cancellable(Cancelled(orders, orderId.value), orderId.value, Authenticate(id, header, RequirePresent).user.id);
  }

  /** Nobody cancels another customer's order. */
  lemma OnlyOwner(orders: map<string, Order>, id: Identity, header: Option<string>, orderId: Option<string>, rpcOk: bool,
                  caller: AuthUser)
    requires Authenticate(id, header, RequirePresent) == Authenticated(caller)
    requires NonEmpty(orderId).Some? && orderId.value in orders && orders[orderId.value].userId != caller.id
    ensures CancelOrder(orders, id, header, true, orderId, rpcOk) == Reply(400, false)
  {
  }
}
