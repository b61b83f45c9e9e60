/** `PUT /api/profile`: a signed-in user edits their own profile. Two
    length checks come first; then exactly the profile fields present in
    the body are written, never the role; then the linked Stripe customer
    is updated, and a failure there does not fail the request. */
module Profile {
  import opened Common
  import Auth
  import StripeCustomer

  const MAX_NAME: nat := 100
  const MAX_PHONE: nat := 20

  const NOT_AUTHORISED: string := "No autorizado"
  const INVALID_SESSION: string := "Sesión no válida"
  const NAME_TOO_LONG: string := "Nombre demasiado largo (máx 100 caracteres)"
  const PHONE_TOO_LONG: string := "Teléfono demasiado largo (máx 20 caracteres)"
  const UPDATE_FAILED: string := "Error al actualizar perfil"

  /** The keys a body may carry. The handler reads the first nine; the
      others stand for anything else a client might send. */
  datatype Field = FullName | Phone | Address | AddressLine1 | AddressLine2 | City | State | PostalCode | Country
                 | Role | Email | StripeCustomerId

  const WRITABLE: set<Field> := {FullName, Phone, Address, AddressLine1, AddressLine2, City, State, PostalCode, Country}

  type Body = map<Field, Value>

  function Get(body: Body, f: Field): (v: Value)
    ensures f !in body ==> v == Missing
    ensures f in body ==> v == body[f]
  {
    if f in body then body[f] else Missing
  }

  /** `x && typeof x === 'string' && x.length > max`. */
  predicate TooLong(v: Value, max: nat) {
    v.Text? && |v.s| > max
  }

  /** `dbUpdates`: every profile field the body defines (null included),
      with its value as sent. */
  function DbUpdates(body: Body): (u: map<Field, Value>)
    ensures forall f :: f in u <==> f in WRITABLE && Get(body, f) != Missing
    ensures forall f :: f in u ==> u[f] == Get(body, f)
    ensures Role !in u && Email !in u && StripeCustomerId !in u
  {
    map f | f in body && f in WRITABLE && body[f] != Missing :: body[f]
  }

  /** Keys outside the profile fields never reach the update: a body that
      also sends a role, an e-mail or a customer id writes the same. */
  lemma DbUpdatesIgnoresExtras(body: Body, f: Field, v: Value)
    requires f !in WRITABLE
    ensures DbUpdates(body[f := v]) == DbUpdates(body)
  {
    var a := DbUpdates(body[f := v]);
    var b := DbUpdates(body);
    assert forall g :: g in a <==> g in b;
    assert a.Keys == b.Keys;
  }

  /** Whether Stripe gets an address: `address_line1 || city || postal_code`. */
  predicate HasAddress(body: Body) {
    Truthy(Get(body, AddressLine1)) || Truthy(Get(body, City)) || Truthy(Get(body, PostalCode))
  }

  /** The `updates` passed to `syncUserToStripeCustomer`: truthy name and
      phone, and the address only when gated in, with Spain as the default
      country. */
  function StripeUpdates(body: Body): (u: StripeCustomer.UserUpdates)
    ensures u.name == Or(Get(body, FullName), Missing) && u.phone == Or(Get(body, Phone), Missing)
    ensures u.email.Missing?
    ensures u.address.Some? <==> HasAddress(body)
    ensures u.address.Some? ==>
              u.address.value == StripeCustomer.AddressUpdate(
                Get(body, AddressLine1), Get(body, AddressLine2), Get(body, City), Get(body, State),
                Get(body, PostalCode), Or(Get(body, Country), Text(StripeCustomer.DEFAULT_COUNTRY)))
  {
    var address :=
      if HasAddress(body) then
        Some(StripeCustomer.AddressUpdate(Get(body, AddressLine1), Get(body, AddressLine2), Get(body, City),
                                          Get(body, State), Get(body, PostalCode),
                                          Or(Get(body, Country), Text(StripeCustomer.DEFAULT_COUNTRY))))
      else None;
    StripeCustomer.UserUpdates(Or(Get(body, FullName), Missing), Missing, Or(Get(body, Phone), Missing), address)
  }

  /** What Stripe is sent for a gated-in address: the first line, or ''
      when the body has none, and a country that is never empty. */
  lemma StripeAddressSent(body: Body)
    requires HasAddress(body)
    ensures var p := StripeCustomer.UserParams(StripeUpdates(body));
            p.address.Some? &&
            p.address.value.line1 == Or(Get(body, AddressLine1), Text("")) &&
            p.address.value.country == Or(Get(body, Country), Text(StripeCustomer.DEFAULT_COUNTRY)) &&
            Truthy(p.address.value.country) && p.email.Missing?
  {
  }

  /** The response; `update` is the write that took effect, `stripeCall`
      the customer update `syncUserToStripeCustomer` attempted. */
  datatype Reply = Reply(status: int, error: string, update: Option<map<Field, Value>>,
                         stripeCall: Option<(string, StripeCustomer.Params)>)

  /** `PUT`. `bodyOk` is false when the body is not JSON and `updateOk` is
      the outcome of the `users` update. The Stripe call's outcome is only
      logged, so it is no input here. `users` is the table the sync reads
      the customer id from; the update never changes that column. */
  function Put(id: Auth.Identity, header: Option<string>, bodyOk: bool, body: Body, updateOk: bool,
               users: map<string, StripeCustomer.UserRow>): (r: Reply)
    ensures !Auth.HeaderPasses(header, Auth.RequirePrefix) ==> r == Reply(401, NOT_AUTHORISED, None, None)
    ensures Auth.Authenticate(id, header, Auth.RequirePrefix).InvalidToken? ==>
              r == Reply(401, INVALID_SESSION, None, None)
    ensures Auth.Authenticate(id, header, Auth.RequirePrefix).Authenticated? && !bodyOk ==>
              r == Reply(500, UPDATE_FAILED, None, None)
    ensures Auth.Authenticate(id, header, Auth.RequirePrefix).Authenticated? && bodyOk &&
            TooLong(Get(body, FullName), MAX_NAME) ==>
              r == Reply(400, NAME_TOO_LONG, None, None)
    ensures Auth.Authenticate(id, header, Auth.RequirePrefix).Authenticated? && bodyOk &&
            !TooLong(Get(body, FullName), MAX_NAME) && TooLong(Get(body, Phone), MAX_PHONE) ==>
              r == Reply(400, PHONE_TOO_LONG, None, None)
    ensures r.status == 200 <==>
              Auth.Authenticate(id, header, Auth.RequirePrefix).Authenticated? && bodyOk &&
              !TooLong(Get(body, FullName), MAX_NAME) && !TooLong(Get(body, Phone), MAX_PHONE) && updateOk
    ensures r.update.Some? <==> r.status == 200
    ensures r.status == 200 ==>
              r.update == Some(DbUpdates(body)) &&
              r.stripeCall == StripeCustomer.SyncUser(users, Auth.Authenticate(id, header, Auth.RequirePrefix).user.id,
                                                      StripeUpdates(body))
    ensures r.status != 200 ==> r.stripeCall.None?
  {
    match Auth.Authenticate(id, header, Auth.RequirePrefix)
    case NoCredentials => Reply(401, NOT_AUTHORISED, None, None)
    case InvalidToken => Reply(401, INVALID_SESSION, None, None)
    case Authenticated(user) =>
      if !bodyOk then Reply(500, UPDATE_FAILED, None, None)
      else if TooLong(Get(body, FullName), MAX_NAME) then Reply(400, NAME_TOO_LONG, None, None)
      else if TooLong(Get(body, Phone), MAX_PHONE) then Reply(400, PHONE_TOO_LONG, None, None)
      else if !updateOk then Reply(500, UPDATE_FAILED, None, None)
      else Reply(200, "", Some(DbUpdates(body)), StripeCustomer.SyncUser(users, user.id, StripeUpdates(body)))
  }
}
