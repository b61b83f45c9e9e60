/** The admin promo-code endpoints: list, create (upper-cased, active, with
    a discount of 1 to 100 percent) and delete by id. The table is a map
    keyed by the unique code; the insert's unique-key violation is the
    code already being a key. */
module PromoCodes {
  import opened Common
  import opened Auth
  import opened Catalog
  import ValidatePromo

  const MAX_CODE_LENGTH: nat := 50

  const UNAUTHORIZED: string := "No autorizado"
  const INVALID_CODE: string := "Código inválido"
  const INVALID_DISCOUNT: string := "Descuento inválido (1-100)"
  const DUPLICATE: string := "Ya existe un código con ese nombre"
  const ID_REQUIRED: string := "ID requerido"
  const INTERNAL: string := "Error interno"

  datatype Reply = Reply(status: int, error: string)

  /** `GET`: the whole table for an admin, 500 when the query fails. */
  function List(promos: map<string, PromoCode>, id: Identity, header: Option<string>, queryOk: bool)
      : (r: (Reply, Option<set<PromoCode>>))
    ensures !VerifyAdmin(id, header) ==> r == (Reply(401, UNAUTHORIZED), None)
    ensures VerifyAdmin(id, header) && !queryOk ==> r == (Reply(500, INTERNAL), None)
    ensures r.0.status == 200 <==> VerifyAdmin(id, header) && queryOk
    ensures r.0.status == 200 ==> r.1 == Some(set k | k in promos :: promos[k])
  {
    if !VerifyAdmin(id, header) then (Reply(401, UNAUTHORIZED), None)
    else if !queryOk then (Reply(500, INTERNAL), None)
    else (Reply(200, ""), Some(set k | k in promos :: promos[k]))
  }

  /** `!code || typeof code !== 'string' || code.length > 50` rejects. */
  predicate ValidCode(code: Value) {
    code.Text? && code.s != "" && |code.s| <= MAX_CODE_LENGTH
  }

  /** `parseInt(discount)` in 1..100; its string form is given. */
  function ParsedDiscount(discount: Option<string>): (r: Option<int>)
    ensures r.Some? ==> 1 <= r.value <= 100
    ensures r.Some? <==> discount.Some? && ParseInt(discount.value).Some? && 1 <= ParseInt(discount.value).value <= 100
    ensures r.Some? ==> r.value == ParseInt(discount.value).value
  {
    if discount.None? then None
    else match ParseInt(discount.value)
      case None => None
      case Some(n) => if 1 <= n <= 100 then Some(n) else None
  }

  /** `POST`: the new row gets the id `newId`; `bodyOk` is false when the
      body is not JSON and `insertOk` false for any insert error other than
      the duplicate code. */
  function Create(promos: map<string, PromoCode>, id: Identity, header: Option<string>, bodyOk: bool, code: Value,
                  discount: Option<string>, newId: string, insertOk: bool): (r: (Reply, map<string, PromoCode>))
    ensures r.0.status != 201 ==> r.1 == promos
    ensures !VerifyAdmin(id, header) ==> r.0 == Reply(401, UNAUTHORIZED)
    ensures VerifyAdmin(id, header) && !bodyOk ==> r.0 == Reply(500, INTERNAL)
    ensures VerifyAdmin(id, header) && bodyOk && !ValidCode(code) ==> r.0 == Reply(400, INVALID_CODE)
    ensures (VerifyAdmin(id, header) && bodyOk && ValidCode(code) && ParsedDiscount(discount).None?) ==>
              r.0 == Reply(400, INVALID_DISCOUNT)
    ensures (VerifyAdmin(id, header) && bodyOk && ValidCode(code) && ParsedDiscount(discount).Some? &&
             ToUpper(code.s) in promos) ==> r.0 == Reply(400, DUPLICATE)
    ensures r.0.status == 201 <==>
              VerifyAdmin(id, header) && bodyOk && ValidCode(code) && ParsedDiscount(discount).Some? &&
              ToUpper(code.s) !in promos && insertOk
    // the stored code is upper-cased and active, with the parsed discount
    ensures r.0.status == 201 ==>
              r.1 == promos[ToUpper(code.s) := PromoCode(newId, ToUpper(code.s), ParsedDiscount(discount).value,
                                                         true, None, None, None)]
  {
    if !VerifyAdmin(id, header) then (Reply(401, UNAUTHORIZED), promos)
    else if !bodyOk then (Reply(500, INTERNAL), promos)
    else if !ValidCode(code) then (Reply(400, INVALID_CODE), promos)
    else match ParsedDiscount(discount)
      case None => (Reply(400, INVALID_DISCOUNT), promos)
      case Some(n) =>
        var key := ToUpper(code.s);
        if key in promos then (Reply(400, DUPLICATE), promos)
        else if !insertOk then (Reply(500, INTERNAL), promos)
        else (Reply(201, ""), promos[key := PromoCode(newId, key, n, true, None, None, None)])
  }

  /** A freshly created code validates, in any letter case, with the
      discount it was created with, and creating it a second time is
      refused as a duplicate. */
  lemma CreatedCodeValidates(promos: map<string, PromoCode>, id: Identity, header: Option<string>, code: string,
                             discount: Option<string>, newId: string, now: int)
    requires Create(promos, id, header, true, Text(code), discount, newId, true).0.status == 201
    ensures var promos' := Create(promos, id, header, true, Text(code), discount, newId, true).1;
            ValidatePromo.ValidatePromo(promos', Text(code), now).valid &&
            ValidatePromo.ValidatePromo(promos', Text(code), now).discountPercentage == ParsedDiscount(discount) &&
            Create(promos', id, header, true, Text(code), discount, newId, true).0 == Reply(400, DUPLICATE)
  {
  }

  /** The rows `DELETE ... where id = id` keeps. */
  function WithoutId(promos: map<string, PromoCode>, rowId: string): (r: map<string, PromoCode>)
    ensures forall k :: k in r <==> k in promos && promos[k].id != rowId
    ensures forall k :: k in r ==> r[k] == promos[k]
  {
    map k | k in promos && promos[k].id != rowId :: promos[k]
  }

  /** `DELETE ?id=`: a missing or empty id is a 400; a failed delete 500. */
  function Delete(promos: map<string, PromoCode>, id: Identity, header: Option<string>, rowId: Option<string>,
                  deleteOk: bool): (r: (Reply, map<string, PromoCode>))
    ensures r.0.status != 200 ==> r.1 == promos
    ensures !VerifyAdmin(id, header) ==> r.0 == Reply(401, UNAUTHORIZED)
    ensures VerifyAdmin(id, header) && NonEmpty(rowId).None? ==> r.0 == Reply(400, ID_REQUIRED)
    ensures r.0.status == 200 <==> VerifyAdmin(id, header) && NonEmpty(rowId).Some? && deleteOk
    ensures r.0.status == 200 ==> r.1 == WithoutId(promos, rowId.value)
  {
    if !VerifyAdmin(id, header) then (Reply(401, UNAUTHORIZED), promos)
    else if NonEmpty(rowId).None? then (Reply(400, ID_REQUIRED), promos)
    else if !deleteOk then (Reply(500, INTERNAL), promos)
    else (Reply(200, ""), WithoutId(promos, rowId.value))
  }

  /** A deleted code no longer validates, and deleting is idempotent. */
  lemma DeletedCodeInvalid(promos: map<string, PromoCode>, id: Identity, header: Option<string>, rowId: string,
                           code: string, now: int)
    requires Delete(promos, id, header, Some(rowId), true).0.status == 200
    requires code != "" && ToUpper(code) in promos && promos[ToUpper(code)].id == rowId
    ensures !ValidatePromo.ValidatePromo(Delete(promos, id, header, Some(rowId), true).1, Text(code), now).valid
    ensures Delete(Delete(promos, id, header, Some(rowId), true).1, id, header, Some(rowId), true).1 ==
            Delete(promos, id, header, Some(rowId), true).1
  {
  }
}
