/** The Google Place Details proxy: the place id is checked before any call,
    then the address components of the answer are flattened into the
    checkout form's fields. Google's answer is a parameter. */
module PlaceDetails {
  import opened Common

  const MIN_PLACE_ID: nat := 20
  const MAX_PLACE_ID: nat := 300

  /** The character class [A-Za-z0-9_-]. */
  predicate PlaceIdChar(c: char) {
    IsUpper(c) || IsLower(c) || IsDigit(c) || c == '_' || c == '-'
  }

  /** `placeId` is a string matching ^[A-Za-z0-9_-]{20,300}$. */
  predicate ValidPlaceId(placeId: Value) {
    placeId.Text? && MIN_PLACE_ID <= |placeId.s| <= MAX_PLACE_ID &&
    forall i :: 0 <= i < |placeId.s| ==> PlaceIdChar(placeId.s[i])
  }

  /** One entry of `addressComponents`; a missing `types` is the empty list. */
  datatype Component = Component(types: seq<string>, longText: Option<string>, longName: Option<string>,
                                 shortText: Option<string>, shortName: Option<string>)

  datatype Location = Location(latitude: Option<real>, longitude: Option<real>)

  datatype Part = Part(long: string, short: string)

  datatype ParsedAddress = ParsedAddress(
    streetNumber: string, route: string, addressLine1: string, addressLine2: string,
    city: string, state: string, postalCode: string, country: string, countryCode: string,
    formattedAddress: string, latitude: Option<real>, longitude: Option<real>)

  /** `components.find(c => c.types?.includes(type))`, as an index. */
  function Find(cs: seq<Component>, t: string): (r: Option<nat>)
    ensures r.Some? ==> r.value < |cs| && t in cs[r.value].types &&
                        forall j :: 0 <= j < r.value ==> t !in cs[j].types
    ensures r.None? ==> forall j :: 0 <= j < |cs| ==> t !in cs[j].types
  {
    if |cs| == 0 then None
    else if t in cs[0].types then Some(0)
    else match Find(cs[1..], t)
      case None => None
      case Some(k) => Some(k + 1)
  }

  /** The local `get(type)`: the long text falls back from `longText` to
      `long_name` to '', the short text likewise. */
  function Get(cs: seq<Component>, t: string): (p: Part)
    ensures Find(cs, t).None? ==> p == Part("", "")
    ensures Find(cs, t).Some? ==>
              p.long == FirstNonEmpty([cs[Find(cs, t).value].longText, cs[Find(cs, t).value].longName], "") &&
              p.short == FirstNonEmpty([cs[Find(cs, t).value].shortText, cs[Find(cs, t).value].shortName], "")
  {
    match Find(cs, t)
    case None => Part("", "")
    case Some(k) =>
      FirstNonEmptyTwo(cs[k].longText, cs[k].longName, "");
      FirstNonEmptyTwo(cs[k].shortText, cs[k].shortName, "");
      Part(OrElse(OrElse(cs[k].longText, cs[k].longName), Some("")).value,
           OrElse(OrElse(cs[k].shortText, cs[k].shortName), Some("")).value)
  }

  /** Components after the first match are never looked at. */
  lemma {:induction false} FindFirstWins(cs: seq<Component>, more: seq<Component>, t: string)
    requires Find(cs, t).Some?
    ensures Find(cs + more, t) == Find(cs, t)
    ensures Get(cs + more, t) == Get(cs, t)
  {
    if t !in cs[0].types {
      assert (cs + more)[1..] == cs[1..] + more;
      FindFirstWins(cs[1..], more, t);
    }
  }

  /** 'route, number' when both are there, the route alone, else ''. */
  function Line1(route: string, number: string): (r: string)
    ensures r == "" <==> route == ""
    ensures route != "" && number == "" ==> r == route
    ensures route != "" && number != "" ==> StartsWith(r, route) && r[|route|..] == ", " + number
  {
    if route != "" && number != "" then route + ", " + number
    else if route != "" then route
    else ""
  }

  /** The city: the locality, else the first-level sub-locality. */
  function City(cs: seq<Component>): (r: string)
    ensures r == FirstNonEmpty([Some(Get(cs, "locality").long), Some(Get(cs, "sublocality_level_1").long)], "")
  {
    FirstNonEmptyTwo(Some(Get(cs, "locality").long), Some(Get(cs, "sublocality_level_1").long), "");
    if Get(cs, "locality").long != "" then Get(cs, "locality").long else Get(cs, "sublocality_level_1").long
  }

  /** The state: the province (level 2), else the region (level 1). */
  function State(cs: seq<Component>): (r: string)
    ensures r == FirstNonEmpty([Some(Get(cs, "administrative_area_level_2").long),
                                Some(Get(cs, "administrative_area_level_1").long)], "")
  {
    FirstNonEmptyTwo(Some(Get(cs, "administrative_area_level_2").long),
                     Some(Get(cs, "administrative_area_level_1").long), "");
    if Get(cs, "administrative_area_level_2").long != "" then Get(cs, "administrative_area_level_2").long
    else Get(cs, "administrative_area_level_1").long
  }

  /** `parseAddressComponents`; `location` is None when the answer has none. */
  function ParseAddressComponents(cs: seq<Component>, formatted: string, location: Option<Location>)
      : ParsedAddress
  {
    var streetNumber := Get(cs, "street_number");
    var route := Get(cs, "route");
    var country := Get(cs, "country");
    ParsedAddress(
      streetNumber.long, route.long, Line1(route.long, streetNumber.long), Get(cs, "subpremise").long,
      City(cs), State(cs), Get(cs, "postal_code").long, country.long, country.short,
      formatted,
      if location.Some? then location.value.latitude else None,
      if location.Some? then location.value.longitude else None)
  }

  /** The first address line is built from the route and the street number:
      empty without a route, the route alone without a number, and
      'route, number' with both. */
  lemma AddressLine1Shape(cs: seq<Component>, formatted: string, location: Option<Location>)
    ensures var a := ParseAddressComponents(cs, formatted, location);
            a.route == Get(cs, "route").long && a.streetNumber == Get(cs, "street_number").long &&
            (a.addressLine1 == "" <==> a.route == "") &&
            (a.streetNumber == "" ==> a.addressLine1 == a.route) &&
            (a.route != "" && a.streetNumber != "" ==> a.addressLine1 == a.route + ", " + a.streetNumber)
  {
  }

  /** The component types `parseAddressComponents` looks up. */
  const ADDRESS_TYPES: set<string> := {"street_number", "route", "subpremise", "locality", "sublocality_level_1",
    "administrative_area_level_2", "administrative_area_level_1", "postal_code", "country"}

  /** A locality with a long text is the city, whatever sub-localities follow. */
  lemma CityPrefersLocality(cs: seq<Component>, formatted: string, location: Option<Location>, name: string)
    requires Find(cs, "locality").Some? && cs[Find(cs, "locality").value].longText == Some(name) && name != ""
    ensures ParseAddressComponents(cs, formatted, location).city == name
  {
  }

  /** Without a locality, the first-level sub-locality is the city; the
      province is the state, else the region. */
  lemma CityAndStateFallBack(cs: seq<Component>, formatted: string, location: Option<Location>)
    requires Find(cs, "locality").None?
    ensures var a := ParseAddressComponents(cs, formatted, location);
            a.city == Get(cs, "sublocality_level_1").long &&
            (Get(cs, "administrative_area_level_2").long != "" ==> a.state == Get(cs, "administrative_area_level_2").long) &&
            (Get(cs, "administrative_area_level_2").long == "" ==> a.state == Get(cs, "administrative_area_level_1").long)
  {
  }

  /** An answer without components gives an address whose every text field is
      empty but the formatted address, and the coordinates pass through. */
  lemma NoComponents(formatted: string, location: Option<Location>)
    ensures var a := ParseAddressComponents([], formatted, location);
            a.streetNumber == "" && a.route == "" && a.addressLine1 == "" && a.addressLine2 == "" &&
            a.city == "" && a.state == "" && a.postalCode == "" && a.country == "" && a.countryCode == "" &&
            a.formattedAddress == formatted &&
            (location.None? ==> a.latitude.None? && a.longitude.None?) &&
            (location.Some? ==> a.latitude == location.value.latitude && a.longitude == location.value.longitude)
  {
  }

  /** Components after the first ones that answer every lookup are never
      looked at. */
  lemma ParseIgnoresLaterComponents(cs: seq<Component>, more: seq<Component>, formatted: string,
                                    location: Option<Location>)
    requires forall t :: t in ADDRESS_TYPES ==> Find(cs, t).Some?
    ensures ParseAddressComponents(cs + more, formatted, location) == ParseAddressComponents(cs, formatted, location)
  {
    forall t | t in ADDRESS_TYPES
      ensures Get(cs + more, t) == Get(cs, t)
    {
      FindFirstWins(cs, more, t);
    }
  }

  /** The request sent to Google. */
  datatype DetailsRequest = DetailsRequest(placeId: string, sessionToken: Option<string>)

  /** Google's answer: None when the response is not ok. */
  datatype GoogleData = GoogleData(addressComponents: Option<seq<Component>>, formattedAddress: Option<string>,
                                   location: Option<Location>)

  datatype Reply = Reply(status: int, address: Option<ParsedAddress>, request: Option<DetailsRequest>)

  /** The session token goes out only as a non-empty string. */
  function SessionToken(sessionToken: Value): (r: Option<string>)
    ensures r.Some? <==> sessionToken.Text? && sessionToken.s != ""
    ensures r.Some? ==> r.value == sessionToken.s
  {
    if sessionToken.Text? && sessionToken.s != "" then Some(sessionToken.s) else None
  }

  /** `POST`: `bodyOk` is false when the body is not JSON. */
  function PlaceDetails(apiKey: bool, bodyOk: bool, placeId: Value, sessionToken: Value,
                        google: Option<GoogleData>): (r: Reply)
    ensures !apiKey ==> r == Reply(503, None, None)
    ensures apiKey && !bodyOk ==> r == Reply(500, None, None)
    ensures apiKey && bodyOk && !ValidPlaceId(placeId) ==> r == Reply(400, None, None)
    ensures r.request.Some? <==> apiKey && bodyOk && ValidPlaceId(placeId)
    ensures r.request.Some? ==> r.request.value == DetailsRequest(placeId.s, SessionToken(sessionToken))
    ensures r.request.Some? && google.None? ==> r.status == 502 && r.address.None?
    ensures r.status == 200 <==> r.request.Some? && google.Some?
    ensures r.status == 200 ==>
              r.address == Some(ParseAddressComponents(google.value.addressComponents.GetOr([]),
                                                       google.value.formattedAddress.GetOr(""),
                                                       google.value.location))
  {
    if !apiKey then Reply(503, None, None)
    else if !bodyOk then Reply(500, None, None)
    else if !ValidPlaceId(placeId) then Reply(400, None, None)
    else
      var req := DetailsRequest(placeId.s, SessionToken(sessionToken));
      match google
      case None => Reply(502, None, Some(req))
      case Some(d) =>
        Reply(200, Some(ParseAddressComponents(d.addressComponents.GetOr([]),
                                               OrElse(d.formattedAddress, Some("")).value, d.location)),
              Some(req))
  }
}
