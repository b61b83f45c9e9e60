/** The public promo-code check used by the cart: look the upper-cased
    code up among the active codes, then test expiry and the usage cap. */
module ValidatePromo {
  import opened Common
  import opened Catalog

  datatype Reply = Reply(status: int, valid: bool, discountPercentage: Option<int>, error: string)

  const REQUIRED: string := "Codigo requerido"
  const NOT_VALID: string := "Codigo no valido"
  const EXPIRED: string := "El codigo ha expirado"
  const EXHAUSTED: string := "El codigo ha alcanzado su limite de usos"
  const CHECK_FAILED: string := "Error al validar"

  function ValidatePromo(promos: map<string, PromoCode>, code: Value, now: int): (r: Reply)
    // a missing, empty or non-string code is a 400
    ensures r.status == 400 <==> !(code.Text? && code.s != "")
    ensures r.status != 400 ==> r.status == 200
    // valid exactly for an active, unexpired code under its cap, with its stored discount
    ensures r.valid <==> code.Text? && code.s != "" && FindActive(promos, ToUpper(code.s)).Some? &&
                         Usable(FindActive(promos, ToUpper(code.s)).value, now)
    ensures r.valid ==> r.discountPercentage == Some(promos[ToUpper(code.s)].discountPercentage) && r.error == ""
    ensures !r.valid ==> r.discountPercentage.None? && r.error != ""
    // the reasons are decided in order: unknown, expired, exhausted
    ensures (code.Text? && code.s != "" && FindActive(promos, ToUpper(code.s)).Some? &&
             Expired(promos[ToUpper(code.s)], now)) ==> r.error == EXPIRED
    ensures (code.Text? && code.s != "" && FindActive(promos, ToUpper(code.s)).Some? &&
             !Expired(promos[ToUpper(code.s)], now) && MaxedOut(promos[ToUpper(code.s)])) ==> r.error == EXHAUSTED
  {
    if !(code.Text? && code.s != "") then Reply(400, false, None, REQUIRED)
    else match FindActive(promos, ToUpper(code.s))
      case None => Reply(200, false, None, NOT_VALID)
      case Some(p) =>
        if Expired(p, now) then Reply(200, false, None, EXPIRED)
        else if MaxedOut(p) then Reply(200, false, None, EXHAUSTED)
        else Reply(200, true, Some(p.discountPercentage), "")
  }

  /** `POST`: a body that is not JSON ends in the `catch`, a 500; any
      other body gets the validation's answer. */
  function Post(bodyOk: bool, promos: map<string, PromoCode>, code: Value, now: int): (r: Reply)
    ensures !bodyOk ==> r == Reply(500, false, None, CHECK_FAILED)
    ensures bodyOk ==> r == ValidatePromo(promos, code, now)
    ensures r.valid ==> bodyOk && r.status == 200
  {
    if !bodyOk then Reply(500, false, None, CHECK_FAILED) else ValidatePromo(promos, code, now)
  }

  /** Letter case does not matter: 'verano10' and 'VERANO10' get the same
      answer. */
  lemma CaseInsensitive(promos: map<string, PromoCode>, s: string, now: int)
    ensures ValidatePromo(promos, Text(s), now) == ValidatePromo(promos, Text(ToUpper(s)), now)
  {
    ToUpperIdempotent(s);
  }

  /** A code used up to its cap stops validating, and validates again only if
      the cap is raised. */
  lemma UseUpToCap(promos: map<string, PromoCode>, code: string, now: int)
    requires code != "" && ToUpper(code) in promos
    requires ValidatePromo(promos, Text(code), now).valid
    requires promos[ToUpper(code)].maxUses.Some? && promos[ToUpper(code)].maxUses.value > 0
    ensures var p := promos[ToUpper(code)];
            !ValidatePromo(promos[ToUpper(code) := p.(currentUses := p.maxUses)], Text(code), now).valid
  {
  }
}
