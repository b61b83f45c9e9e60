/** Admin processing of a product return: the return state machine, the
    refund-amount guards and the credit ('abono') invoice written when a
    return is completed. Amounts are integer cents; the request's
    `refundAmount` is given as what `parseFloat` makes of it (None for NaN)
    together with its JavaScript truthiness. */
module ProcessReturn {
  import opened Common
  import opened Auth

  const SOLICITADA: string := "solicitada"
  const APROBADA: string := "aprobada"
  const RECHAZADA: string := "rechazada"
  const COMPLETADA: string := "completada"

  const VALID_STATUSES: seq<string> := [SOLICITADA, APROBADA, RECHAZADA, COMPLETADA]

  /** `ALLOWED_TRANSITIONS[current] || []` */
  function AllowedTransitions(current: string): (r: seq<string>)
    ensures forall t :: t in r ==> t in VALID_STATUSES && t != current
    ensures current == RECHAZADA || current == COMPLETADA ==> r == []
  {
    if current == SOLICITADA then [APROBADA, RECHAZADA]
    else if current == APROBADA then [COMPLETADA, RECHAZADA]
    else []
  }

  /** A stored status that is missing (or empty) counts as 'solicitada'. */
  function CurrentStatus(stored: Option<string>): string {
    OrElse(stored, Some(SOLICITADA)).value
  }

  /** The transition check, skipped when the status does not change. */
  predicate TransitionOk(current: string, next: string) {
    next == current || next in AllowedTransitions(current)
  }

  /** The two final states admit no change, and 'completada' is entered
      only from 'aprobada'. */
  lemma StateMachine(current: string, next: string)
    ensures (current == RECHAZADA || current == COMPLETADA) && TransitionOk(current, next) ==> next == current
    ensures next == COMPLETADA && current != COMPLETADA && TransitionOk(current, next) ==> current == APROBADA
    ensures TransitionOk(SOLICITADA, APROBADA) && TransitionOk(SOLICITADA, RECHAZADA)
    ensures TransitionOk(APROBADA, COMPLETADA) && TransitionOk(APROBADA, RECHAZADA)
    ensures !TransitionOk(SOLICITADA, COMPLETADA) && !TransitionOk(APROBADA, SOLICITADA)
  {
  }

  /** A field of the request whose value goes through parseFloat. */
  datatype AmountField = Absent | Given(parsed: Option<int>, truthy: bool)

  datatype ReturnRow = ReturnRow(
    status: Option<string>, refundCents: Option<int>, adminNotes: Option<string>,
    orderId: string, orderUserId: Option<string>, userId: string)

  /** An invoice row, amounts in cents. */
  datatype CreditInvoice = CreditInvoice(orderId: string, userId: string, number: string, invoiceType: string,
                                         subtotalCents: int, taxCents: int, totalCents: int)

  const CREDIT_NOTE: string := "abono"

  datatype Store = Store(rows: map<string, ReturnRow>, invoices: seq<CreditInvoice>)

  /** The body's fields; `adminNotes` is None when undefined and Some(None)
      when null. */
  datatype Request = Request(returnId: Option<string>, newStatus: Option<string>,
                             refundAmount: AmountField, adminNotes: Option<Option<string>>)

  /** Outcomes of the writes: the generate_invoice_number RPC (None on error
      or an empty result), the invoice insert and the return update. */
  datatype Oracles = Oracles(invoiceNumber: Option<string>, insertOk: bool, updateOk: bool)

  /** The refund that completing a return must justify: the supplied amount
      when it is truthy, else the stored one. */
  function EffectiveRefund(field: AmountField, stored: Option<int>): Option<int> {
    if field.Given? && field.truthy then field.parsed else stored
  }

  /** Entering 'completada' from a different stored status. */
  predicate Completes(row: ReturnRow, next: string) {
    next == COMPLETADA && row.status != Some(COMPLETADA)
  }

  /** The return row after a successful update. */
  function Updated(row: ReturnRow, req: Request): ReturnRow {
    row.(status := req.newStatus,
         refundCents := if req.refundAmount.Given? then req.refundAmount.parsed else row.refundCents,
         adminNotes := if req.adminNotes.Some? then req.adminNotes.value else row.adminNotes)
  }

  /** The request passes every guard up to the invoice RPC. */
  predicate Accepted(st: Store, req: Request) {
    NonEmpty(req.returnId).Some? && NonEmpty(req.newStatus).Some? &&
    req.newStatus.value in VALID_STATUSES && req.returnId.value in st.rows &&
    TransitionOk(CurrentStatus(st.rows[req.returnId.value].status), req.newStatus.value) &&
    (req.refundAmount.Given? ==> req.refundAmount.parsed.Some? && req.refundAmount.parsed.value >= 0) &&
    (Completes(st.rows[req.returnId.value], req.newStatus.value) ==>
       EffectiveRefund(req.refundAmount, st.rows[req.returnId.value].refundCents).Some? &&
       EffectiveRefund(req.refundAmount, st.rows[req.returnId.value].refundCents).value > 0)
  }

  /** `-Math.abs(effectiveRefund)`: the credit invoice's total. */
  function CreditTotal(refund: int): (total: int)
    ensures total <= 0 && (total == refund || total == -refund)
    ensures total < 0 <==> refund != 0
  {
    if refund < 0 then refund else -refund
  }

  /** The credit invoice for completing `row` (its order's user, else the
      return's own user). */
  function Credit(row: ReturnRow, refund: int, number: string): (inv: CreditInvoice)
    ensures inv.orderId == row.orderId && inv.number == number && inv.invoiceType == CREDIT_NOTE
    ensures inv.userId == if NonEmpty(row.orderUserId).Some? then row.orderUserId.value else row.userId
    ensures inv.totalCents == CreditTotal(refund)
    ensures inv.subtotalCents == NetOfTax(inv.totalCents) && inv.taxCents == inv.totalCents - inv.subtotalCents
  {
    var total := CreditTotal(refund);
    var subtotal := NetOfTax(total);
    CreditInvoice(row.orderId, OrElse(row.orderUserId, Some(row.userId)).value, number, CREDIT_NOTE,
                  subtotal, total - subtotal, total)
  }

  /** `+(total / 1.21).toFixed(2)` for a total of at most zero, in cents:
      the amount before 21% VAT, to the nearest cent. */
  function NetOfTax(totalCents: int): (subtotal: int)
    requires totalCents <= 0
    ensures 2 * (100 * -totalCents) - 121 <= 2 * 121 * -subtotal <= 2 * (100 * -totalCents) + 121
  {
    -RoundDiv(100 * -totalCents, 121)
  }

  /** The credit note's amounts: the subtotal is the total without its 21%
      VAT to the nearest cent, subtotal and tax add up to the total, and
      neither is positive. A tie cannot occur, so the rounding direction of
      toFixed does not matter. */
  lemma CreditAmounts(row: ReturnRow, refund: int, number: string)
    ensures var inv := Credit(row, refund, number);
            inv.subtotalCents + inv.taxCents == inv.totalCents &&
            inv.subtotalCents <= 0 && inv.taxCents <= 0 &&
            2 * (121 * inv.subtotalCents - 100 * inv.totalCents) < 121 &&
            2 * (100 * inv.totalCents - 121 * inv.subtotalCents) < 121
  {
    var inv := Credit(row, refund, number);
    var t := -inv.totalCents;
    var s := -inv.subtotalCents;
    assert 200 * t - 121 <= 242 * s <= 200 * t + 121;
    // 242 * s is even and 200 * t +- 121 odd, so neither bound is reached.
    assert 242 * s != 200 * t + 121 && 242 * s != 200 * t - 121 by {
      assert (242 * s) % 2 == 0 && (200 * t + 121) % 2 == 1 && (200 * t - 121) % 2 == 1;
    }
  }

  /** The request reaches the invoice insert with a number in hand. */
  predicate Credits(st: Store, id: Identity, header: Option<string>, bodyOk: bool, req: Request, o: Oracles) {
    AuthenticateAdmin(id, header, RequirePrefix).Admin? && bodyOk && Accepted(st, req) &&
    Completes(st.rows[req.returnId.value], req.newStatus.value) && o.invoiceNumber.Some? && o.insertOk
  }

  /** `POST`. `bodyOk` is false when the body, read after the admin check,
      is not JSON, which throws into the 500 answer. */
  method ProcessReturn(st: Store, id: Identity, header: Option<string>, bodyOk: bool, req: Request, o: Oracles)
      returns (status: int, invoiceNumber: Option<string>, st': Store)
    // admin first: 401 without a valid Bearer token, 403 for a non-admin
    ensures !AuthenticateAdmin(id, header, RequirePrefix).Admin? ==>
              status == AdminFailureStatus(AuthenticateAdmin(id, header, RequirePrefix)) && st' == st
    ensures AuthenticateAdmin(id, header, RequirePrefix).Admin? && !bodyOk ==> status == 500 && st' == st
    // every guard failure is a 4xx with nothing written
    ensures AuthenticateAdmin(id, header, RequirePrefix).Admin? && bodyOk && (NonEmpty(req.returnId).None? || NonEmpty(req.newStatus).None?) ==>
              status == 400 && st' == st
    ensures (AuthenticateAdmin(id, header, RequirePrefix).Admin? && bodyOk && NonEmpty(req.returnId).Some? &&
             NonEmpty(req.newStatus).Some? && req.newStatus.value !in VALID_STATUSES) ==>
              status == 400 && st' == st
    ensures (AuthenticateAdmin(id, header, RequirePrefix).Admin? && bodyOk && NonEmpty(req.returnId).Some? &&
             NonEmpty(req.newStatus).Some? && req.newStatus.value in VALID_STATUSES &&
             req.returnId.value !in st.rows) ==>
              status == 404 && st' == st
    // past the lookup, a forbidden transition, a bad amount or a completion
    // without a positive refund is a 400
    ensures (AuthenticateAdmin(id, header, RequirePrefix).Admin? && bodyOk && NonEmpty(req.returnId).Some? &&
             NonEmpty(req.newStatus).Some? && req.newStatus.value in VALID_STATUSES &&
             req.returnId.value in st.rows && !Accepted(st, req)) ==>
              status == 400 && st' == st
    ensures status == 200 ==> AuthenticateAdmin(id, header, RequirePrefix).Admin? && bodyOk && Accepted(st, req)
    ensures !Accepted(st, req) ==> st' == st && status != 200
    ensures (AuthenticateAdmin(id, header, RequirePrefix).Admin? && bodyOk && Accepted(st, req) && o.updateOk &&
             (Completes(st.rows[req.returnId.value], req.newStatus.value) ==> o.invoiceNumber.Some? && o.insertOk)) ==>
              status == 200
    // a credit invoice only for a return entering 'completada' (necessarily from
    // 'aprobada'), carrying the negated refund, and before the return update
    ensures |st'.invoices| != |st.invoices| <==> Credits(st, id, header, bodyOk, req, o)
    ensures Credits(st, id, header, bodyOk, req, o) ==>
              CurrentStatus(st.rows[req.returnId.value].status) == APROBADA &&
              st'.invoices == st.invoices + [Credit(st.rows[req.returnId.value],
                EffectiveRefund(req.refundAmount, st.rows[req.returnId.value].refundCents).value, o.invoiceNumber.value)] &&
              st'.invoices[|st.invoices|].totalCents < 0
    ensures !Credits(st, id, header, bodyOk, req, o) ==> st'.invoices == st.invoices
    ensures AuthenticateAdmin(id, header, RequirePrefix).Admin? && Accepted(st, req) &&
            Completes(st.rows[req.returnId.value], req.newStatus.value) && (o.invoiceNumber.None? || !o.insertOk) ==>
              status == 500 && st' == st
    // the return row changes only on success, and then as requested
    ensures st'.rows != st.rows ==> status == 200
    ensures !o.updateOk ==> status != 200 && st'.rows == st.rows
    ensures status == 200 ==>
              st'.rows == st.rows[req.returnId.value := Updated(st.rows[req.returnId.value], req)] &&
              (invoiceNumber.Some? <==> Completes(st.rows[req.returnId.value], req.newStatus.value)) &&
              (invoiceNumber.Some? ==> invoiceNumber == o.invoiceNumber)
  {
    st' := st;
    invoiceNumber := None;
    var auth := AuthenticateAdmin(id, header, RequirePrefix);
    if !auth.Admin? {
      return AdminFailureStatus(auth), None, st;
    }
    if !bodyOk {
      return 500, None, st;
    }
    if NonEmpty(req.returnId).None? || NonEmpty(req.newStatus).None? {
      return 400, None, st;
    }
    var returnId := req.returnId.value;
    var newStatus := req.newStatus.value;
    if newStatus !in VALID_STATUSES {
      return 400, None, st;
    }
    if returnId !in st.rows {
      return 404, None, st;
    }
    var row := st.rows[returnId];
    var current := CurrentStatus(row.status);
    if newStatus != current && newStatus !in AllowedTransitions(current) {
      return 400, None, st;
    }
    if req.refundAmount.Given? && (req.refundAmount.parsed.None? || req.refundAmount.parsed.value < 0) {
      return 400, None, st;
    }

    if newStatus == COMPLETADA && row.status != Some(COMPLETADA) {
      var effective := EffectiveRefund(req.refundAmount, row.refundCents);
      if effective.None? || effective.value <= 0 {
        return 400, None, st;
      }
      if o.invoiceNumber.None? {
        return 500, None, st;
      }
      invoiceNumber := o.invoiceNumber;
      if !o.insertOk {
        return 500, None, st;
      }
      st' := st'.(invoices := st'.invoices + [Credit(row, effective.value, invoiceNumber.value)]);
    }

    if !o.updateOk {
      return 500, None, st';
    }
    st' := st'.(rows := st'.rows[returnId := Updated(row, req)]);
    status := 200;
  }

  /** A failed status update after the credit invoice was inserted leaves the
      invoice in place, so retrying the same completion writes a second
      credit invoice for the same return. */
  method RetryAfterFailedUpdate(st: Store, id: Identity, header: Option<string>, req: Request,
                                number1: string, number2: string)
      returns (st2: Store)
    requires AuthenticateAdmin(id, header, RequirePrefix).Admin? && Accepted(st, req)
    requires Completes(st.rows[req.returnId.value], req.newStatus.value)
    ensures |st2.invoices| == |st.invoices| + 2
  {
    var s1, n1, st1 := ProcessReturn(st, id, header, true, req, Oracles(Some(number1), true, false));
    var s2, n2;
    s2, n2, st2 := ProcessReturn(st1, id, header, true, req, Oracles(Some(number2), true, true));
  }
}
