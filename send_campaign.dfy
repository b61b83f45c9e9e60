/** The admin newsletter campaign: an admin picks subscribers and either
    mints a fresh single-campaign promo code (capped at one use per
    recipient, valid for thirty days) or reuses an active one; the batch
    of emails is then handed to the mailer. The random bytes and the clock
    are parameters. */
module SendCampaign {
  import opened Common
  import opened Auth
  import opened Catalog
  import ValidatePromo

  const CHARS: string := "ABCDEFGHIJKLMNOPQRSTUVWXYZ0123456789"
  const PREFIX: string := "PROMO"
  const CODE_BYTES: nat := 6
  const THIRTY_DAYS_MS: int := 30 * 24 * 60 * 60 * 1000
  const DEFAULT_SUBJECT: string := "Oferta exclusiva para suscriptores"

  /** A code of the campaign shape: 'PROMO' and six characters of CHARS. */
  predicate IsCampaignCode(code: string) {
    |code| == |PREFIX| + CODE_BYTES && code[..|PREFIX|] == PREFIX &&
    forall i :: |PREFIX| <= i < |code| ==> IsUpper(code[i]) || IsDigit(code[i])
  }

  /** The k-th character of CHARS: the 26 letters, then the 10 digits. */
  function Alphabet(k: nat): char
    requires k < 36
  {
    if k < 26 then ('A' as int + k) as char else ('0' as int + (k - 26)) as char
  }

  lemma CharsAt(k: int)
    requires 0 <= k < |CHARS|
    ensures CHARS[k] == Alphabet(k)
  {
    assert CHARS == seq(36, i requires 0 <= i < 36 => Alphabet(i));
  }

  lemma CharsAlphanumeric(k: int)
    requires 0 <= k < |CHARS|
    ensures IsUpper(CHARS[k]) || IsDigit(CHARS[k])
  {
    CharsAt(k);
  }

  lemma CharsDistinct(m: int, n: int)
    requires 0 <= m < n < |CHARS|
    ensures CHARS[m] != CHARS[n]
  {
    CharsAt(m);
    CharsAt(n);
  }

  /** `generateCampaignCode`, with the six bytes of `randomBytes(6)` given. */
  method GenerateCampaignCode(bytes: seq<bv8>) returns (code: string)
    requires |bytes| == CODE_BYTES
    ensures |code| == 11 && code[..5] == PREFIX
    ensures forall i :: 0 <= i < CODE_BYTES ==> code[5 + i] == CHARS[bytes[i] as int % |CHARS|]
    ensures IsCampaignCode(code)
  {
    code := PREFIX;
    for i := 0 to CODE_BYTES
      invariant |code| == 5 + i && code[..5] == PREFIX
      invariant forall j :: 0 <= j < i ==> code[5 + j] == CHARS[bytes[j] as int % |CHARS|]
      invariant forall j :: 5 <= j < |code| ==> IsUpper(code[j]) || IsDigit(code[j])
    {
      var c := CHARS[bytes[i] as int % |CHARS|];
      CharsAlphanumeric(bytes[i] as int % |CHARS|);
      assert (code + [c])[..5] == code[..5];
      code := code + [c];
    }
  }

  /** Two campaign codes are equal exactly when their bytes agree modulo 36. */
  lemma {:induction false} CodesEqualIff(a: string, b: string, x: seq<bv8>, y: seq<bv8>)
    requires |x| == CODE_BYTES && |y| == CODE_BYTES
    requires |a| == 11 && a[..5] == PREFIX && forall i :: 0 <= i < CODE_BYTES ==> a[5 + i] == CHARS[x[i] as int % |CHARS|]
    requires |b| == 11 && b[..5] == PREFIX && forall i :: 0 <= i < CODE_BYTES ==> b[5 + i] == CHARS[y[i] as int % |CHARS|]
    ensures a == b <==> forall i :: 0 <= i < CODE_BYTES ==> x[i] as int % 36 == y[i] as int % 36
  {
    if a == b {
      forall i | 0 <= i < CODE_BYTES
        ensures x[i] as int % 36 == y[i] as int % 36
      {
        assert a[5 + i] == b[5 + i];
        var m, n := x[i] as int % 36, y[i] as int % 36;
        if m < n {
          CharsDistinct(m, n);
        } else if n < m {
          CharsDistinct(n, m);
        }
      }
    } else {
      var k :| 0 <= k < 11 && a[k] != b[k];
      assert k >= 5;
      assert x[k - 5] as int % 36 != y[k - 5] as int % 36;
    }
  }

  /** A campaign code is already upper case, so it is found whatever case
      a customer types it in. */
  lemma CampaignCodeUpper(code: string)
    requires IsCampaignCode(code)
    ensures ToUpper(code) == code
  {
    assert forall i :: 0 <= i < |PREFIX| ==> IsUpper(code[i]) by {
      forall i | 0 <= i < |PREFIX|
        ensures IsUpper(code[i])
      {
        assert code[i] == code[..|PREFIX|][i] == PREFIX[i];
      }
    }
    assert forall i :: 0 <= i < |code| ==> UpperChar(code[i]) == code[i];
  }

  datatype Mode = New | Existing

  /** `promoCodeMode` is 'new' or 'existing'. */
  function ParseMode(mode: Value): (r: Option<Mode>)
    ensures r == Some(New) <==> mode == Text("new")
    ensures r == Some(Existing) <==> mode == Text("existing")
  {
    if mode == Text("new") then Some(New) else if mode == Text("existing") then Some(Existing) else None
  }

  /** The batch handed to the mailer. */
  datatype Batch = Batch(emails: seq<string>, promoCode: string, discount: int, subject: string)

  datatype Reply = Reply(status: int, batch: Option<Batch>)

  /** The row a new campaign code is inserted as. */
  function CampaignPromo(rowId: string, code: string, discount: int, recipients: nat, now: int): (p: PromoCode) {
    PromoCode(rowId, code, discount, true, Some(now + THIRTY_DAYS_MS), Some(recipients), Some(0))
  }

  /** `POST`. `bodyOk` is false when the body, read after the admin check,
      is not JSON (the parse throws into the 500 answer). `emails` is None when the field is not an array;
      `discountPercentage` is the numeric field (None when falsy); the
      insert fails when the code is already taken or `insertOk` is false. */
  method SendCampaign(promos: map<string, PromoCode>, id: Identity, header: Option<string>, bodyOk: bool,
                      emails: Option<seq<string>>, mode: Value, discountPercentage: Option<int>,
                      existingPromoCode: Option<string>, subject: Option<string>,
                      bytes: seq<bv8>, rowId: string, now: int, insertOk: bool)
      returns (r: Reply, promos': map<string, PromoCode>)
    requires |bytes| == CODE_BYTES
    ensures r.status == 200 <==> r.batch.Some?
    ensures !AuthenticateAdmin(id, header, RequirePrefix).Admin? ==>
              r.status == AdminFailureStatus(AuthenticateAdmin(id, header, RequirePrefix)) && promos' == promos
    ensures AuthenticateAdmin(id, header, RequirePrefix).Admin? && !bodyOk ==> r.status == 500 && promos' == promos
    ensures AuthenticateAdmin(id, header, RequirePrefix).Admin? && bodyOk && (emails.None? || |emails.value| == 0) ==>
              r.status == 400 && promos' == promos
    ensures (AuthenticateAdmin(id, header, RequirePrefix).Admin? && bodyOk && emails.Some? && |emails.value| > 0 &&
             ParseMode(mode).None?) ==> r.status == 400 && promos' == promos
    // new mode: a valid discount, then a fresh campaign code capped at the number of recipients
    ensures (AuthenticateAdmin(id, header, RequirePrefix).Admin? && bodyOk && emails.Some? && |emails.value| > 0 &&
             ParseMode(mode) == Some(New) && !(discountPercentage.Some? && 1 <= discountPercentage.value <= 100)) ==>
              r.status == 400 && promos' == promos
    ensures promos' != promos ==>
              r.status == 200 && ParseMode(mode) == Some(New) && IsCampaignCode(r.batch.value.promoCode) &&
              r.batch.value.promoCode !in promos &&
              promos' == promos[r.batch.value.promoCode := CampaignPromo(rowId, r.batch.value.promoCode,
                                                                         discountPercentage.value, |emails.value|, now)]
    ensures r.status == 200 && ParseMode(mode) == Some(New) ==> promos' != promos
    // with no campaign code taken yet, a successful insert leads to the send
    ensures (AuthenticateAdmin(id, header, RequirePrefix).Admin? && bodyOk && emails.Some? && |emails.value| > 0 &&
             ParseMode(mode) == Some(New) && discountPercentage.Some? && 1 <= discountPercentage.value <= 100 &&
             insertOk && forall c :: IsCampaignCode(c) ==> c !in promos) ==> r.status == 200
    // existing mode: an active stored code, looked up exactly as given
    ensures (AuthenticateAdmin(id, header, RequirePrefix).Admin? && bodyOk && emails.Some? && |emails.value| > 0 &&
             ParseMode(mode) == Some(Existing)) ==>
              promos' == promos &&
              (r.status == 200 <==> (NonEmpty(existingPromoCode).Some? &&
                                    FindActive(promos, existingPromoCode.value).Some?)) &&
              (r.status != 200 ==> r.status == 400) &&
              (r.status == 200 ==> r.batch.value.promoCode == promos[existingPromoCode.value].code &&
                                   r.batch.value.discount == promos[existingPromoCode.value].discountPercentage)
    ensures r.status == 200 ==>
              AuthenticateAdmin(id, header, RequirePrefix).Admin? && bodyOk &&
              r.batch.value.emails == emails.value &&
              r.batch.value.subject == OrElse(subject, Some(DEFAULT_SUBJECT)).value
  {
    promos' := promos;
    var auth := AuthenticateAdmin(id, header, RequirePrefix);
    if !auth.Admin? {
      return Reply(AdminFailureStatus(auth), None), promos;
    }
    if !bodyOk {
      return Reply(500, None), promos;
    }
    if emails.None? || |emails.value| == 0 {
      return Reply(400, None), promos;
    }
    var m := ParseMode(mode);
    if m.None? {
      return Reply(400, None), promos;
    }
    var code: string;
    var discount: int;
    if m.value == New {
      if discountPercentage.None? || discountPercentage.value < 1 || discountPercentage.value > 100 {
        return Reply(400, None), promos;
      }
      code := GenerateCampaignCode(bytes);
      discount := discountPercentage.value;
      if code in promos || !insertOk {
        return Reply(500, None), promos;
      }
      promos' := promos[code := CampaignPromo(rowId, code, discount, |emails.value|, now)];
      assert code in promos' && code !in promos;
    } else {
      if NonEmpty(existingPromoCode).None? {
        return Reply(400, None), promos;
      }
      var existing := FindActive(promos, existingPromoCode.value);
      if existing.None? {
        return Reply(400, None), promos;
      }
      code := existing.value.code;
      discount := existing.value.discountPercentage;
    }
    r := Reply(200, Some(Batch(emails.value, code, discount, OrElse(subject, Some(DEFAULT_SUBJECT)).value)));
  }

  /** The route as it is written: the batch helper it imports is not
      defined by the e-mail module, so the call at the send throws and the
      request that would have been sent answers 500 instead, after a new
      campaign code has already been inserted. */
  method SendCampaignAsWritten(promos: map<string, PromoCode>, id: Identity, header: Option<string>, bodyOk: bool,
                               emails: Option<seq<string>>, mode: Value, discountPercentage: Option<int>,
                               existingPromoCode: Option<string>, subject: Option<string>,
                               bytes: seq<bv8>, rowId: string, now: int, insertOk: bool)
      returns (status: int, promos': map<string, PromoCode>)
    requires |bytes| == CODE_BYTES
    ensures status != 200
    // a code inserted for the campaign is left behind by a failed request
    ensures promos' != promos ==> status == 500
    ensures (AuthenticateAdmin(id, header, RequirePrefix).Admin? && bodyOk && emails.Some? && |emails.value| > 0 &&
             ParseMode(mode) == Some(New) && discountPercentage.Some? && 1 <= discountPercentage.value <= 100 &&
             insertOk && forall c :: IsCampaignCode(c) ==> c !in promos) ==> status == 500 && promos' != promos
  {
    var r;
    r, promos' := SendCampaign(promos, id, header, bodyOk, emails, mode, discountPercentage, existingPromoCode,
                               subject, bytes, rowId, now, insertOk);
    status := if r.status == 200 then 500 else r.status;
  }

  /** A new campaign code validates, in any letter case, for thirty days
      from its creation and not after, and stops validating once every
      recipient has used it. */
  lemma CampaignCodeLifetime(promos: map<string, PromoCode>, rowId: string, code: string, typed: string,
                             discount: int, recipients: nat, now: int, t: int)
    requires IsCampaignCode(code) && ToUpper(typed) == code && recipients > 0
    ensures var promos' := promos[code := CampaignPromo(rowId, code, discount, recipients, now)];
            (ValidatePromo.ValidatePromo(promos', Text(typed), t).valid <==> t <= now + THIRTY_DAYS_MS) &&
            !ValidatePromo.ValidatePromo(promos'[code := promos'[code].(currentUses := Some(recipients))],
                                         Text(typed), t).valid
  {
  }
}
