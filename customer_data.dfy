/** `GET /api/stripe/customer-data`: the checkout form's prefill for the
    signed-in user. Stripe's copy of each field wins, the local profile
    fills the gaps, and the customer is always the caller's own: the route
    takes no customer id from the client. */
module CustomerData {
  import opened Common
  import Auth
  import StripeCustomer

  const NOT_AUTHORISED: string := "No autorizado"
  const INVALID_SESSION: string := "Sesión no válida"
  const LINK_FAILED: string := "Error al vincular con Stripe"
  const INTERNAL_ERROR: string := "Error interno del servidor"

  const CACHE_CONTROL: string := "no-store, no-cache, must-revalidate, private"
  const PRAGMA: string := "no-cache"

  /** The first truthy string of the list, else null. */
  function Pick(xs: seq<Option<string>>): (r: Option<string>)
    ensures r.Some? ==> r.value != ""
    ensures r.None? <==> forall i :: 0 <= i < |xs| ==> NonEmpty(xs[i]).None?
    ensures r.Some? ==> exists i :: 0 <= i < |xs| && xs[i] == r && forall j :: 0 <= j < i ==> NonEmpty(xs[j]).None?
  {
    if |xs| == 0 then None
    else if NonEmpty(xs[0]).Some? then xs[0]
    else
      var rest := xs[1..];
      assert forall i :: 0 <= i < |rest| ==> rest[i] == xs[i + 1];
      Pick(rest)
  }

  /** One step of the search: a truthy head is the answer, else the rest
      is searched. */
  lemma PickStep(xs: seq<Option<string>>)
    requires |xs| > 0
    ensures NonEmpty(xs[0]).Some? ==> Pick(xs) == xs[0]
    ensures NonEmpty(xs[0]).None? ==> Pick(xs) == Pick(xs[1..])
  {
  }

  datatype MergedAddress = MergedAddress(line1: Option<string>, line2: Option<string>, city: Option<string>,
                                         postalCode: Option<string>, country: string)

  datatype Merged = Merged(name: Option<string>, email: Option<string>, phone: Option<string>,
                           address: MergedAddress)

  const NO_ROW: StripeCustomer.UserRow := StripeCustomer.UserRow(None, None, None, None, None, None, None, None, None)
  const NO_ADDRESS: StripeCustomer.AddressData := StripeCustomer.AddressData(None, None, None, None, None, None)

  /** The row `profile?.<column>` reads: without a profile every column
      is undefined. */
  function Profile(profile: Option<StripeCustomer.UserRow>): (u: StripeCustomer.UserRow)
    ensures profile.Some? ==> u == profile.value
    ensures profile.None? ==> u == NO_ROW
  {
    profile.GetOr(NO_ROW)
  }

  /** The address `customerData.address?.<field>` reads. */
  function StripeAddress(d: StripeCustomer.CustomerData): (a: StripeCustomer.AddressData)
    ensures d.address.Some? ==> a == d.address.value
    ensures d.address.None? ==> a == NO_ADDRESS
  {
    d.address.GetOr(NO_ADDRESS)
  }

  /** The address half of `mergedData`. */
  function MergeAddress(d: StripeCustomer.CustomerData, profile: Option<StripeCustomer.UserRow>)
      : MergedAddress
  {
    MergedAddress(
      Pick([StripeAddress(d).line1, Profile(profile).addressLine1]),
      Pick([StripeAddress(d).line2, Profile(profile).addressLine2]),
      Pick([StripeAddress(d).city, Profile(profile).city]),
      Pick([StripeAddress(d).postalCode, Profile(profile).postalCode]),
      FirstNonEmpty([StripeAddress(d).country, Profile(profile).country], StripeCustomer.DEFAULT_COUNTRY))
  }

  /** `mergedData`: Stripe over the profile over null; the e-mail falls
      back to the token's e-mail as a last resort. */
  function Merge(d: StripeCustomer.CustomerData, profile: Option<StripeCustomer.UserRow>, tokenEmail: Option<string>)
      : Merged
  {
    Merged(Pick([d.name, Profile(profile).fullName]),
           Pick([d.email, Profile(profile).email, tokenEmail]),
           Pick([d.phone, Profile(profile).phone]),
           MergeAddress(d, profile))
  }

  /** Stripe's data wins wherever Stripe has a value; where it has none the
      profile's value is used, else null; the country is never empty. */
  lemma StripeWins(c: StripeCustomer.Customer, profile: StripeCustomer.UserRow, tokenEmail: Option<string>)
    ensures var m := Merge(StripeCustomer.Safe(c), Some(profile), tokenEmail);
            (NonEmpty(c.name).Some? ==> m.name == c.name) &&
            (NonEmpty(c.name).None? ==> m.name == NonEmpty(profile.fullName)) &&
            (NonEmpty(c.phone).Some? ==> m.phone == c.phone) &&
            (NonEmpty(c.phone).None? ==> m.phone == NonEmpty(profile.phone)) &&
            (NonEmpty(c.email).Some? ==> m.email == c.email) &&
            (NonEmpty(c.email).None? && NonEmpty(profile.email).None? ==> m.email == NonEmpty(tokenEmail)) &&
            m.address.country != ""
  {
    var d := StripeCustomer.Safe(c);
    var m := Merge(d, Some(profile), tokenEmail);
    assert [d.name, profile.fullName][1..] == [profile.fullName];
    assert [d.phone, profile.phone][1..] == [profile.phone];
    assert [d.email, profile.email, tokenEmail][1..] == [profile.email, tokenEmail];
    assert [profile.email, tokenEmail][1..] == [tokenEmail];
    PickStep([d.name, profile.fullName]);
    PickStep([profile.fullName]);
    PickStep([d.phone, profile.phone]);
    PickStep([profile.phone]);
    PickStep([d.email, profile.email, tokenEmail]);
    PickStep([profile.email, tokenEmail]);
    PickStep([tokenEmail]);
    FirstNonEmptyTwo(StripeAddress(d).country, Profile(Some(profile)).country,
                     StripeCustomer.DEFAULT_COUNTRY);
  }

  /** A Stripe address with a country keeps it; with none, the profile's
      country, else Spain. */
  lemma CountryFallback(c: StripeCustomer.Customer, profile: Option<StripeCustomer.UserRow>, tokenEmail: Option<string>)
    ensures var m := Merge(StripeCustomer.Safe(c), profile, tokenEmail);
            var sc := if c.address.Some? then NonEmpty(c.address.value.country) else None;
            m.address.country == OrElse(OrElse(sc, Profile(profile).country),
                                        Some(StripeCustomer.DEFAULT_COUNTRY)).value
  {
    var d := StripeCustomer.Safe(c);
    FirstNonEmptyTwo(StripeAddress(d).country, Profile(profile).country, StripeCustomer.DEFAULT_COUNTRY);
  }

  datatype Reply = Reply(status: int, error: string, body: Option<Merged>, headers: map<string, string>)

  const JSON_HEADERS: map<string, string> := map["Content-Type" := "application/json"]
  const PRIVATE_HEADERS: map<string, string> :=
    map["Content-Type" := "application/json", "Cache-Control" := CACHE_CONTROL, "Pragma" := PRAGMA]

  /** The response, given what `getOrCreateStripeCustomer` returned for
      the authenticated caller (`link`) and the state it left (`w`);
      neither is looked at when authentication fails. The profile is the
      caller's row of `w`. */
  function Respond(id: Auth.Identity, header: Option<string>, link: StripeCustomer.Link, w: StripeCustomer.World)
      : (r: Reply)
    ensures !Auth.HeaderPasses(header, Auth.RequirePrefix) ==> r == Reply(401, NOT_AUTHORISED, None, JSON_HEADERS)
    ensures Auth.Authenticate(id, header, Auth.RequirePrefix).InvalidToken? ==>
              r == Reply(401, INVALID_SESSION, None, JSON_HEADERS)
    ensures Auth.Authenticate(id, header, Auth.RequirePrefix).Authenticated? && !link.Linked? ==>
              r == Reply(500, LINK_FAILED, None, JSON_HEADERS)
    ensures Auth.Authenticate(id, header, Auth.RequirePrefix).Authenticated? && link.Linked? &&
            !StripeCustomer.GetCustomerData(w.customers, link.id).Data? ==>
              r == Reply(500, INTERNAL_ERROR, None, JSON_HEADERS)
    ensures r.status == 200 <==>
              Auth.Authenticate(id, header, Auth.RequirePrefix).Authenticated? && link.Linked? &&
              StripeCustomer.GetCustomerData(w.customers, link.id).Data?
    ensures r.status == 200 ==>
              var user := Auth.Authenticate(id, header, Auth.RequirePrefix).user;
              r.headers == PRIVATE_HEADERS &&
              r.body == Some(Merge(StripeCustomer.GetCustomerData(w.customers, link.id).data,
                                   if user.id in w.users then Some(w.users[user.id]) else None, user.email))
    ensures r.status != 200 ==> r.body.None? && r.headers == JSON_HEADERS
  {
    match Auth.Authenticate(id, header, Auth.RequirePrefix)
    case NoCredentials => Reply(401, NOT_AUTHORISED, None, JSON_HEADERS)
    case InvalidToken => Reply(401, INVALID_SESSION, None, JSON_HEADERS)
    case Authenticated(user) =>
      if !link.Linked? then Reply(500, LINK_FAILED, None, JSON_HEADERS)
      else match StripeCustomer.GetCustomerData(w.customers, link.id)
        case Data(d) =>
          var profile := if user.id in w.users then Some(w.users[user.id]) else None;
          Reply(200, "", Some(Merge(d, profile, user.email)), PRIVATE_HEADERS)
        case _ => Reply(500, INTERNAL_ERROR, None, JSON_HEADERS)
  }

  /** `GET`: authentication, then `getOrCreateStripeCustomer` for the
      authenticated caller's own id (with the outcomes of its external
      writes as parameters), then the response. `link` is what the call
      returned, None when authentication failed and it was never made. */
  method Get(id: Auth.Identity, header: Option<string>, w: StripeCustomer.World,
             newId: string, clearOk: bool, createOk: bool, persistOk: bool)
      returns (r: Reply, link: Option<StripeCustomer.Link>, w': StripeCustomer.World)
    ensures !Auth.Authenticate(id, header, Auth.RequirePrefix).Authenticated? ==>
              link.None? && w' == w && r == Respond(id, header, StripeCustomer.UserMissing, w)
    ensures Auth.Authenticate(id, header, Auth.RequirePrefix).Authenticated? ==>
              link.Some? && r == Respond(id, header, link.value, w')
    // the data shown belong to the caller: its linked customer, or the one just created for it
    ensures Auth.Authenticate(id, header, Auth.RequirePrefix).Authenticated? && link.Some? && link.value.Linked? ==>
              var uid := Auth.Authenticate(id, header, Auth.RequirePrefix).user.id;
              uid in w.users &&
              (StripeCustomer.LinkedTo(w, uid, link.value.id) ||
               (link.value.id == newId && newId in w'.customers && w'.customers[newId] == StripeCustomer.NewCustomer(uid, w.users[uid])))
    // an authenticated caller gets 200 exactly when it has a row and either an active
    // linked customer or a successful create
    ensures Auth.Authenticate(id, header, Auth.RequirePrefix).Authenticated? ==>
              var uid := Auth.Authenticate(id, header, Auth.RequirePrefix).user.id;
              (r.status == 200 <==>
                 uid in w.users &&
                 ((StripeCustomer.StoredId(w.users[uid]).Some? &&
                   StripeCustomer.Active(w, StripeCustomer.StoredId(w.users[uid]).value)) || createOk))
  {
    var auth := Auth.Authenticate(id, header, Auth.RequirePrefix);
    if !auth.Authenticated? {
      return Respond(id, header, StripeCustomer.UserMissing, w), None, w;
    }
    var l;
    l, w' := StripeCustomer.GetOrCreate(w, auth.user.id, newId, clearOk, createOk, persistOk);
    link := Some(l);
    r := Respond(id, header, l, w');
  }
}
