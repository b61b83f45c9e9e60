/** Linking shop users to Stripe customers: get-or-create, the read of a
    customer's non-payment fields, and the two syncs that build Stripe's
    update parameters field by field.

    The `users` table and Stripe's customer list are maps that the
    operations take and return. Stripe chooses the id of a new customer;
    here it is a parameter. The outcome of every external write is a
    parameter as well. */
module StripeCustomer {
  import opened Common

  const DEFAULT_COUNTRY: string := "ES"
  const USER_ID_KEY: string := "supabase_user_id"

  /** The `users` columns these operations read and write; null is None. */
  datatype UserRow = UserRow(
    email: Option<string>, fullName: Option<string>, phone: Option<string>,
    stripeCustomerId: Option<string>,
    addressLine1: Option<string>, addressLine2: Option<string>, city: Option<string>,
    postalCode: Option<string>, country: Option<string>)

  /** A Stripe address; an absent sub-field is None. */
  datatype Address = Address(line1: Option<string>, line2: Option<string>, city: Option<string>,
                             state: Option<string>, postalCode: Option<string>, country: Option<string>)

  /** A Stripe customer. Payment sources are not part of the model: nothing
      here reads or writes them. */
  datatype Customer = Customer(name: Option<string>, email: Option<string>, phone: Option<string>,
                               address: Option<Address>, metadata: map<string, string>, deleted: bool)

  datatype World = World(users: map<string, UserRow>, customers: map<string, Customer>)

  // ---------------------------------------------------------------------
  // getOrCreateStripeCustomer

  /** The stored customer id, when it is truthy. */
  function StoredId(u: UserRow): Option<string> {
    NonEmpty(u.stripeCustomerId)
  }

  /** Stripe knows `cid` and has not deleted it. */
  predicate Active(w: World, cid: string) {
    cid in w.customers && !w.customers[cid].deleted
  }

  /** The user's stored id names an active customer. */
  predicate LinkedTo(w: World, userId: string, cid: string) {
    userId in w.users && StoredId(w.users[userId]) == Some(cid) && Active(w, cid)
  }

  /** The customer created for a user row: empty name and phone are left
      out, an address is sent only with a first line, its country defaults
      to Spain, and the metadata points back at the shop user. */
  function NewCustomer(userId: string, u: UserRow): (c: Customer)
    ensures c.metadata == map[USER_ID_KEY := userId] && !c.deleted
    ensures c.email == u.email && c.name == NonEmpty(u.fullName) && c.phone == NonEmpty(u.phone)
    ensures c.address.Some? <==> NonEmpty(u.addressLine1).Some?
    ensures c.address.Some? ==>
              c.address.value.line1 == u.addressLine1 && c.address.value.line2 == NonEmpty(u.addressLine2) &&
              c.address.value.city == NonEmpty(u.city) && c.address.value.state.None? &&
              c.address.value.postalCode == NonEmpty(u.postalCode) &&
              c.address.value.country == OrElse(u.country, Some(DEFAULT_COUNTRY))
  {
    var address :=
      if NonEmpty(u.addressLine1).Some? then
        Some(Address(u.addressLine1, NonEmpty(u.addressLine2), NonEmpty(u.city), None, NonEmpty(u.postalCode),
                     OrElse(u.country, Some(DEFAULT_COUNTRY))))
      else None;
    Customer(NonEmpty(u.fullName), u.email, NonEmpty(u.phone), address, map[USER_ID_KEY := userId], false)
  }

  datatype Link = UserMissing | StripeFailed | Linked(id: string)

  /** `getOrCreateStripeCustomer`. A missing user row throws. A stored id
      whose customer is still active is returned as it is. Otherwise a
      customer is created under `newId` and its id is stored; if Stripe
      could not retrieve the stored id, the stored id is cleared first. A
      failed create throws; the two `users` updates are best effort and
      their outcomes (`clearOk`, `persistOk`) do not change the result. */
  method GetOrCreate(w: World, userId: string, newId: string, clearOk: bool, createOk: bool, persistOk: bool)
      returns (r: Link, w': World)
    ensures userId !in w.users ==> r == UserMissing && w' == w
    ensures userId in w.users && StoredId(w.users[userId]).Some? && Active(w, StoredId(w.users[userId]).value) ==>
              r == Linked(StoredId(w.users[userId]).value) && w' == w
    ensures r.StripeFailed? <==>
              userId in w.users && !(StoredId(w.users[userId]).Some? && Active(w, StoredId(w.users[userId]).value)) &&
              !createOk
    ensures r.Linked? && r.id != newId ==> w' == w
    ensures r.UserMissing? <==> userId !in w.users
    ensures r.Linked? ==> Active(w', r.id)
    // a returned id is always the caller's: the one already linked, or the customer just created
    ensures r.Linked? ==>
              (LinkedTo(w, userId, r.id) && w' == w) ||
              (r.id == newId && !LinkedTo(w, userId, newId) &&
               w'.customers == w.customers[newId := NewCustomer(userId, w.users[userId])])
    ensures r.Linked? && r.id == newId && !LinkedTo(w, userId, newId) ==>
              w'.customers == w.customers[newId := NewCustomer(userId, w.users[userId])]
    ensures r.Linked? && persistOk && newId != "" ==> LinkedTo(w', userId, r.id)
    ensures !r.Linked? ==> w'.customers == w.customers
    ensures w'.users.Keys == w.users.Keys
    ensures forall k :: k in w.users && k != userId ==> w'.users[k] == w.users[k]
    ensures userId in w.users ==>
              w'.users[userId] == w.users[userId].(stripeCustomerId := w'.users[userId].stripeCustomerId)
    ensures userId in w.users && w'.users[userId] != w.users[userId] ==>
              w'.users[userId].stripeCustomerId == (if r.Linked? && persistOk then Some(newId) else None)
  {
    if userId !in w.users {
      return UserMissing, w;
    }
    var u := w.users[userId];
    w' := w;
    var stored := StoredId(u);
    if stored.Some? {
      if stored.value in w.customers {
        if !w.customers[stored.value].deleted {
          return Linked(stored.value), w;
        }
      } else if clearOk {
        // the retrieval failed: drop the reference before recreating
        w' := w'.(users := w'.users[userId := u.(stripeCustomerId := None)]);
      }
    }
    if !createOk {
      return StripeFailed, w';
    }
    w' := w'.(customers := w'.customers[newId := NewCustomer(userId, u)]);
    if persistOk {
      w' := w'.(users := w'.users[userId := u.(stripeCustomerId := Some(newId))]);
    }
    return Linked(newId), w';
  }

  // ---------------------------------------------------------------------
  // getStripeCustomerData

  /** What is handed out about a customer; there is no field for payment
      data. */
  datatype AddressData = AddressData(line1: Option<string>, line2: Option<string>, city: Option<string>,
                                     state: Option<string>, postalCode: Option<string>, country: Option<string>)

  datatype CustomerData = CustomerData(name: Option<string>, email: Option<string>, phone: Option<string>,
                                       address: Option<AddressData>)

  datatype DataResult = RetrieveFailed | Deleted | Data(data: CustomerData)

  /** No field of the data holds the empty string: every falsy value is
      null. */
  predicate NoEmptyFields(d: CustomerData) {
    d.name != Some("") && d.email != Some("") && d.phone != Some("") &&
    (d.address.Some? ==>
       d.address.value.line1 != Some("") && d.address.value.line2 != Some("") &&
       d.address.value.city != Some("") && d.address.value.state != Some("") &&
       d.address.value.postalCode != Some("") && d.address.value.country != Some(""))
  }

  /** The `|| null` mapping of an address. */
  function SafeAddress(a: Address): (d: AddressData)
    ensures d.line1 == NonEmpty(a.line1) && d.line2 == NonEmpty(a.line2) && d.city == NonEmpty(a.city)
    ensures d.state == NonEmpty(a.state) && d.postalCode == NonEmpty(a.postalCode)
    ensures d.country == NonEmpty(a.country)
  {
    AddressData(NonEmpty(a.line1), NonEmpty(a.line2), NonEmpty(a.city), NonEmpty(a.state),
                NonEmpty(a.postalCode), NonEmpty(a.country))
  }

  /** The customer's fields with every falsy value made null. */
  function Safe(c: Customer): (d: CustomerData)
    ensures NoEmptyFields(d)
    ensures d.name == NonEmpty(c.name) && d.email == NonEmpty(c.email) && d.phone == NonEmpty(c.phone)
    ensures d.address.Some? <==> c.address.Some?
    ensures d.address.Some? ==> d.address.value == SafeAddress(c.address.value)
  {
    CustomerData(NonEmpty(c.name), NonEmpty(c.email), NonEmpty(c.phone),
                 if c.address.Some? then Some(SafeAddress(c.address.value)) else None)
  }

  /** `getStripeCustomerData`: an unknown id makes the retrieval throw, a
      deleted customer throws too. */
  function GetCustomerData(customers: map<string, Customer>, cid: string): (r: DataResult)
    ensures r.RetrieveFailed? <==> cid !in customers
    ensures r.Deleted? <==> cid in customers && customers[cid].deleted
    ensures r.Data? ==> r.data == Safe(customers[cid]) && NoEmptyFields(r.data)
  {
    if cid !in customers then RetrieveFailed
    else if customers[cid].deleted then Deleted
    else Data(Safe(customers[cid]))
  }

  /** Reading back a customer just created from a user row gives the row's
      truthy fields, and an address exactly when the row has a first line,
      with Spain as the default country. */
  lemma CreatedCustomerData(customers: map<string, Customer>, userId: string, u: UserRow, newId: string)
    ensures GetCustomerData(customers[newId := NewCustomer(userId, u)], newId) ==
              Data(CustomerData(NonEmpty(u.fullName), NonEmpty(u.email), NonEmpty(u.phone),
                                if NonEmpty(u.addressLine1).Some? then
                                  Some(AddressData(u.addressLine1, NonEmpty(u.addressLine2), NonEmpty(u.city), None,
                                                   NonEmpty(u.postalCode), OrElse(u.country, Some(DEFAULT_COUNTRY))))
                                else None))
  {
    var c := NewCustomer(userId, u);
    if c.address.Some? {
      assert NonEmpty(c.address.value.line1) == u.addressLine1;
      assert NonEmpty(c.address.value.country) == OrElse(u.country, Some(DEFAULT_COUNTRY));
    }
  }

  // ---------------------------------------------------------------------
  // Update parameters

  /** Stripe's address parameters; Missing is `undefined`, a key not sent. */
  datatype AddressParams = AddressParams(line1: Value, line2: Value, city: Value, state: Value,
                                         postalCode: Value, country: Value)

  /** `Stripe.CustomerUpdateParams`; a Missing field is a key not sent. */
  datatype Params = Params(name: Value, email: Value, phone: Value, address: Option<AddressParams>)

  /** `Object.keys(updateParams).length === 0`. */
  predicate NoKeys(p: Params) {
    p.name.Missing? && p.email.Missing? && p.phone.Missing? && p.address.None?
  }

  /** A sub-field sent as `x || undefined`: never a falsy value. */
  predicate Optional(v: Value) {
    v.Missing? || Truthy(v)
  }

  /** The fields of `syncUserToStripeCustomer`'s `updates`; Missing is
      `undefined`. */
  datatype AddressUpdate = AddressUpdate(line1: Value, line2: Value, city: Value, state: Value,
                                         postalCode: Value, country: Value)

  datatype UserUpdates = UserUpdates(name: Value, email: Value, phone: Value, address: Option<AddressUpdate>)

  /** The address object of `syncUserToStripeCustomer`. */
  function UserAddressParams(a: AddressUpdate): (p: AddressParams)
    ensures p.line1 == Or(a.line1, Text("")) && p.country == Or(a.country, Text(DEFAULT_COUNTRY))
    ensures p.line2 == Or(a.line2, Missing) && p.city == Or(a.city, Missing)
    ensures p.state == Or(a.state, Missing) && p.postalCode == Or(a.postalCode, Missing)
    ensures Truthy(p.country) && (Truthy(p.line1) || p.line1 == Text(""))
    ensures Optional(p.line2) && Optional(p.city) && Optional(p.state) && Optional(p.postalCode)
  {
    AddressParams(Or(a.line1, Text("")), Or(a.line2, Missing), Or(a.city, Missing), Or(a.state, Missing),
                  Or(a.postalCode, Missing), Or(a.country, Text(DEFAULT_COUNTRY)))
  }

  /** The parameters built from `updates`: exactly its defined fields. */
  function UserParams(updates: UserUpdates): (p: Params)
    ensures p.name.Missing? <==> updates.name.Missing?
    ensures p.email.Missing? <==> updates.email.Missing?
    ensures p.phone.Missing? <==> updates.phone.Missing?
    ensures !p.name.Missing? ==> p.name == updates.name
    ensures !p.email.Missing? ==> p.email == updates.email
    ensures !p.phone.Missing? ==> p.phone == updates.phone
    ensures p.address.Some? <==> updates.address.Some?
    ensures p.address.Some? ==> p.address.value == UserAddressParams(updates.address.value)
  {
    var address := if updates.address.Some? then Some(UserAddressParams(updates.address.value)) else None;
    Params(updates.name, updates.email, updates.phone, address)
  }

  /** `syncUserToStripeCustomer`: the Stripe update it makes, as the
      customer id and the parameters, or None when the user has no linked
      customer. */
  function SyncUser(users: map<string, UserRow>, userId: string, updates: UserUpdates): (r: Option<(string, Params)>)
    ensures r.None? <==> userId !in users || StoredId(users[userId]).None?
    ensures r.Some? ==> r.value.0 == StoredId(users[userId]).value && r.value.1 == UserParams(updates)
  {
    if userId in users && StoredId(users[userId]).Some? then Some((StoredId(users[userId]).value, UserParams(updates)))
    else None
  }

  /** The parts of a completed Checkout session that are synced; strings
      Stripe leaves out are None. */
  datatype ShippingAddress = ShippingAddress(line1: Option<string>, line2: Option<string>, city: Option<string>,
                                             postalCode: Option<string>, country: Option<string>)

  datatype CheckoutSession = CheckoutSession(name: Option<string>, phone: Option<string>,
                                             shipping: Option<ShippingAddress>)

  /** A truthy string sent as such; anything else is not sent. */
  function Sent(o: Option<string>): (v: Value)
    ensures v.Missing? <==> NonEmpty(o).Some? == false
    ensures v.Text? ==> o == Some(v.s) && v.s != ""
    ensures Optional(v)
  {
    if NonEmpty(o).Some? then Text(o.value) else Missing
  }

  /** A string with a default: `x || dflt`. */
  function SentOr(o: Option<string>, dflt: string): (v: Value)
    ensures v == Text(OrElse(o, Some(dflt)).value)
  {
    Text(OrElse(o, Some(dflt)).value)
  }

  /** Something in the session is worth syncing. */
  predicate HasSyncData(s: CheckoutSession) {
    NonEmpty(s.name).Some? || NonEmpty(s.phone).Some? || s.shipping.Some?
  }

  /** The address parameters of `syncCheckoutToCustomer`: first line
      defaulting to '', Spain as the default country, no state. */
  function ShippingParams(a: ShippingAddress): (p: AddressParams)
    ensures p.line1 == SentOr(a.line1, "") && p.country == SentOr(a.country, DEFAULT_COUNTRY)
    ensures p.line2 == Sent(a.line2) && p.city == Sent(a.city) && p.postalCode == Sent(a.postalCode)
    ensures p.state.Missing? && Truthy(p.country)
  {
    AddressParams(SentOr(a.line1, ""), Sent(a.line2), Sent(a.city), Missing, Sent(a.postalCode),
                  SentOr(a.country, DEFAULT_COUNTRY))
  }

  /** The parameters `syncCheckoutToCustomer` sends: name, phone and
      address, each only when present; never an e-mail. */
  function CheckoutParams(s: CheckoutSession): (p: Params)
    ensures p.email.Missing? && p.name == Sent(s.name) && p.phone == Sent(s.phone)
    ensures p.address.Some? <==> s.shipping.Some?
    ensures p.address.Some? ==> p.address.value == ShippingParams(s.shipping.value)
    ensures NoKeys(p) <==> !HasSyncData(s)
  {
    Params(Sent(s.name), Missing, Sent(s.phone),
           if s.shipping.Some? then Some(ShippingParams(s.shipping.value)) else None)
  }

  /** The local columns written from the session; an address writes all
      five address columns, null for the missing ones. */
  datatype DbAddress = DbAddress(line1: Option<string>, line2: Option<string>, city: Option<string>,
                                 postalCode: Option<string>, country: string)

  datatype DbUpdates = DbUpdates(fullName: Option<string>, phone: Option<string>, address: Option<DbAddress>)

  function CheckoutDbUpdates(s: CheckoutSession): (d: DbUpdates)
    ensures d.fullName == NonEmpty(s.name) && d.phone == NonEmpty(s.phone)
    ensures d.address.Some? <==> s.shipping.Some?
    ensures d.address.Some? ==>
              d.address.value == DbAddress(NonEmpty(s.shipping.value.line1), NonEmpty(s.shipping.value.line2),
                                           NonEmpty(s.shipping.value.city), NonEmpty(s.shipping.value.postalCode),
                                           OrElse(s.shipping.value.country, Some(DEFAULT_COUNTRY)).value)
  {
    var address :=
      if s.shipping.Some? then
        var a := s.shipping.value;
        Some(DbAddress(NonEmpty(a.line1), NonEmpty(a.line2), NonEmpty(a.city), NonEmpty(a.postalCode),
                       OrElse(a.country, Some(DEFAULT_COUNTRY)).value))
      else None;
    DbUpdates(NonEmpty(s.name), NonEmpty(s.phone), address)
  }

  /** A `users` row after `update(dbUpdates)`: the listed columns change,
      the others (e-mail, customer id) stay. */
  function ApplyDb(u: UserRow, d: DbUpdates): (v: UserRow)
    ensures v.email == u.email && v.stripeCustomerId == u.stripeCustomerId
    ensures v.fullName == (if d.fullName.Some? then d.fullName else u.fullName)
    ensures v.phone == (if d.phone.Some? then d.phone else u.phone)
    ensures d.address.None? ==>
              v.addressLine1 == u.addressLine1 && v.addressLine2 == u.addressLine2 && v.city == u.city &&
              v.postalCode == u.postalCode && v.country == u.country
    ensures d.address.Some? ==>
              v.addressLine1 == d.address.value.line1 && v.addressLine2 == d.address.value.line2 &&
              v.city == d.address.value.city && v.postalCode == d.address.value.postalCode &&
              v.country == Some(d.address.value.country)
  {
    var v := u.(fullName := if d.fullName.Some? then d.fullName else u.fullName,
                phone := if d.phone.Some? then d.phone else u.phone);
    match d.address
    case None => v
    case Some(a) =>
      v.(addressLine1 := a.line1, addressLine2 := a.line2, city := a.city, postalCode := a.postalCode,
         country := Some(a.country))
  }

  /** The users whose stored customer id is `cid`. */
  function Owners(users: map<string, UserRow>, cid: string): (ids: set<string>)
    ensures forall id :: id in ids <==> id in users && users[id].stripeCustomerId == Some(cid)
  {
    set id | id in users && users[id].stripeCustomerId == Some(cid)
  }

  /** The outcome of `syncCheckoutToCustomer`: the Stripe update made (if
      any), whether it threw, and the `users` table afterwards. */
  datatype CheckoutSync = CheckoutSync(stripeCall: Option<Params>, thrown: bool, users: map<string, UserRow>)

  /** `syncCheckoutToCustomer`. Stripe is called only with something to
      send; if that call fails (`stripeOk` false) the error propagates and
      nothing local is written. The local row is found by its customer
      id with `.single()`, which finds it only when exactly one row has
      that id. */
  function SyncCheckout(users: map<string, UserRow>, cid: string, s: CheckoutSession, stripeOk: bool)
      : (r: CheckoutSync)
    ensures r.stripeCall.Some? <==> HasSyncData(s)
    ensures r.stripeCall.Some? ==> r.stripeCall.value == CheckoutParams(s) && !NoKeys(r.stripeCall.value)
    ensures r.thrown <==> HasSyncData(s) && !stripeOk
    ensures r.users.Keys == users.Keys
    ensures !HasSyncData(s) || !stripeOk || |Owners(users, cid)| != 1 ==> r.users == users
    ensures forall id :: id in users ==>
              r.users[id] == (if id in Owners(users, cid) && |Owners(users, cid)| == 1 && HasSyncData(s) && stripeOk
                              then ApplyDb(users[id], CheckoutDbUpdates(s)) else users[id])
  {
    if !HasSyncData(s) then CheckoutSync(None, false, users)
    else if !stripeOk then CheckoutSync(Some(CheckoutParams(s)), true, users)
    else
      var owners := Owners(users, cid);
      if |owners| != 1 then CheckoutSync(Some(CheckoutParams(s)), false, users)
      else
        var d := CheckoutDbUpdates(s);
        CheckoutSync(Some(CheckoutParams(s)), false,
                     map id | id in users :: if id in owners then ApplyDb(users[id], d) else users[id])
  }
}
