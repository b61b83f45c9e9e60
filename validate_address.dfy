/** Address validation before checkout: a local check of the address form
    (required fields, minimum and maximum lengths, the postal-code shape of
    the country) and the response status around it. The Address
    Validation service of Google is an oracle consulted only when the local
    check passes. */
module ValidateAddress {
  import opened Common
  import opened Auth

  datatype Address = Address(line1: Option<string>, line2: Option<string>, city: Option<string>,
                             state: Option<string>, postalCode: Option<string>, country: Option<string>)

  /** The postal-code patterns of the table, written out. */
  datatype PostalPattern = FiveDigits | Portugal | FourDigits | Britain | Netherlands

  datatype PostalRule = PostalRule(pattern: PostalPattern, caption: string)

  datatype AddressError =
    | Line1Required | Line1TooShort | CityRequired | PostalRequired | PostalInvalid(caption: string)
    | Line1TooLong | CityTooLong

  datatype AddressWarning = NoCountry | NoState

  datatype ValidationResult = ValidationResult(isValid: bool, errors: seq<AddressError>, warnings: seq<AddressWarning>)

  /** The text pushed for each error. */
  function Message(e: AddressError): string {
    match e
    case Line1Required => "La dirección (calle y número) es obligatoria"
    case Line1TooShort => "La dirección parece demasiado corta"
    case CityRequired => "La ciudad es obligatoria"
    case PostalRequired => "El código postal es obligatorio"
    case PostalInvalid(caption) => "Código postal inválido para " + caption
    case Line1TooLong => "Dirección demasiado larga (máx 200 caracteres)"
    case CityTooLong => "Ciudad demasiado larga (máx 100 caracteres)"
  }

  /** `!field?.trim()` */
  predicate Blank(field: Option<string>) {
    field.None? || Trim(field.value) == ""
  }

  /** The own entries of `postalPatterns[country]`: ten countries; any
      other own key, lower-case ones included, has no rule. A key the
      object inherits from `Object.prototype` is not a rule either: see
      `InheritedKey`. */
  function Rule(country: string): Option<PostalRule> {
    if country == "ES" then Some(PostalRule(FiveDigits, "España (5 dígitos, ej: 28001)"))
    else if country == "PT" then Some(PostalRule(Portugal, "Portugal (ej: 1000-001)"))
    else if country == "FR" then Some(PostalRule(FiveDigits, "Francia (5 dígitos)"))
    else if country == "DE" then Some(PostalRule(FiveDigits, "Alemania (5 dígitos)"))
    else if country == "IT" then Some(PostalRule(FiveDigits, "Italia (5 dígitos)"))
    else if country == "GB" then Some(PostalRule(Britain, "Reino Unido (ej: SW1A 1AA)"))
    else if country == "NL" then Some(PostalRule(Netherlands, "Países Bajos (ej: 1234 AB)"))
    else if country == "BE" then Some(PostalRule(FourDigits, "Bélgica (4 dígitos)"))
    else if country == "AT" then Some(PostalRule(FourDigits, "Austria (4 dígitos)"))
    else if country == "CH" then Some(PostalRule(FourDigits, "Suiza (4 dígitos)"))
    else None
  }

  /** The properties every object literal inherits from `Object.prototype`.
      Looking one of them up in the pattern table gives a truthy value (a
      function, or the prototype itself for `__proto__`) with no `pattern`,
      so `postalRule.pattern.test(cp)` throws. */
  const INHERITED_KEYS: set<string> :=
    {"constructor", "__proto__", "toString", "toLocaleString", "valueOf", "hasOwnProperty", "isPrototypeOf",
     "propertyIsEnumerable", "__defineGetter__", "__defineSetter__", "__lookupGetter__", "__lookupSetter__"}

  predicate InheritedKey(country: string) {
    country in INHERITED_KEYS
  }

  /** `[A-Z]` under the `i` flag: an ASCII letter of either case. */
  predicate Letter(c: char) { IsUpper(c) || IsLower(c) }

  predicate Alnum(c: char) { Letter(c) || IsDigit(c) }

  /** The outward part of a British postcode, `[A-Z]{1,2}\d[A-Z\d]?`. */
  predicate OutwardCode(o: string) {
    (|o| == 2 && Letter(o[0]) && IsDigit(o[1])) ||
    (|o| == 3 && Letter(o[0]) && IsDigit(o[1]) && Alnum(o[2])) ||
    (|o| == 3 && Letter(o[0]) && Letter(o[1]) && IsDigit(o[2])) ||
    (|o| == 4 && Letter(o[0]) && Letter(o[1]) && IsDigit(o[2]) && Alnum(o[3]))
  }

  /** `^[A-Z]{1,2}\d[A-Z\d]?\s?\d[A-Z]{2}$` with the `i` flag: the inward
      part is the last three characters, and a separating white space is
      the optional `\s` (the outward part cannot end in one). */
  predicate BritishPostcode(s: string) {
    |s| >= 5 && IsDigit(s[|s| - 3]) && Letter(s[|s| - 2]) && Letter(s[|s| - 1]) &&
    var p := s[..|s| - 3];
    OutwardCode(p) || (|p| > 0 && IsSpace(p[|p| - 1]) && OutwardCode(p[..|p| - 1]))
  }

  predicate Matches(pattern: PostalPattern, s: string) {
    match pattern
    case FiveDigits => |s| == 5 && AllDigits(s)
    case FourDigits => |s| == 4 && AllDigits(s)
    // ^\d{4}-?\d{3}$
    case Portugal => (|s| == 7 && AllDigits(s)) || (|s| == 8 && AllDigits(s[..4]) && s[4] == '-' && AllDigits(s[5..]))
    // ^\d{4}\s?[A-Z]{2}$ with the i flag
    case Netherlands =>
      (|s| == 6 || (|s| == 7 && IsSpace(s[4]))) && AllDigits(s[..4]) && Letter(s[|s| - 2]) && Letter(s[|s| - 1])
    case Britain => BritishPostcode(s)
  }

  /** The examples the rule labels quote are accepted. */
  lemma LabelExamples()
    ensures Matches(FiveDigits, "28001")
    ensures Matches(Portugal, "1000-001") && Matches(Portugal, "1000001")
    ensures Matches(Britain, "SW1A 1AA") && Matches(Britain, "sw1a1aa")
    ensures Matches(Netherlands, "1234 AB")
    ensures !Matches(FiveDigits, "2800") && !Matches(Portugal, "1000--001") && !Matches(Britain, "SW1A  1AA")
  {
    assert "1000-001"[..4] == "1000" && "1000-001"[5..] == "001";
    assert "SW1A 1AA"[..5] == "SW1A ";
    assert "SW1A 1AA"[..5][..4] == "SW1A";
    assert "sw1a1aa"[..4] == "sw1a";
    assert "1234 AB"[..4] == "1234";
    assert "1000--001"[4..5] == "-" && "1000--001"[5] == '-';
    assert "SW1A  1AA"[..6] == "SW1A  ";
    assert "SW1A  1AA"[..6][..5] == "SW1A ";
  }

  /** The country the postal code is checked for: `country || 'ES'`. */
  function Country(addr: Address): string {
    OrElse(addr.country, Some("ES")).value
  }

  /** The postal check throws: a non-blank code looked up under an
      inherited key. */
  predicate PostalLookupThrows(addr: Address) {
    !Blank(addr.postalCode) && InheritedKey(Country(addr))
  }

  predicate PostalMismatch(addr: Address) {
    !Blank(addr.postalCode) && Rule(Country(addr)).Some? &&
    !Matches(Rule(Country(addr)).value.pattern, Trim(addr.postalCode.value))
  }

  /** The line-1 check: required, then at least 5 characters once trimmed. */
  function Line1Errors(addr: Address): (r: seq<AddressError>)
    ensures forall e :: e in r ==> e == Line1Required || e == Line1TooShort
    ensures Line1Required in r <==> Blank(addr.line1)
    ensures Line1TooShort in r <==> !Blank(addr.line1) && |Trim(addr.line1.value)| < 5
  {
    if Blank(addr.line1) then [Line1Required]
    else if |Trim(addr.line1.value)| < 5 then [Line1TooShort]
    else []
  }

  function CityErrors(addr: Address): (r: seq<AddressError>)
    ensures forall e :: e in r ==> e == CityRequired
    ensures CityRequired in r <==> Blank(addr.city)
  {
    if Blank(addr.city) then [CityRequired] else []
  }

  /** The postal-code check: required, then the country's pattern on the
      trimmed code. */
  function PostalErrors(addr: Address): (r: seq<AddressError>)
    ensures forall e :: e in r ==> e == PostalRequired || (PostalMismatch(addr) && e == PostalInvalid(Rule(Country(addr)).value.caption))
    ensures PostalRequired in r <==> Blank(addr.postalCode)
    ensures PostalMismatch(addr) ==> PostalInvalid(Rule(Country(addr)).value.caption) in r
  {
    if Blank(addr.postalCode) then [PostalRequired]
    else if PostalMismatch(addr) then [PostalInvalid(Rule(Country(addr)).value.caption)]
    else []
  }

  /** The maximum lengths, on the untrimmed text. */
  function LengthErrors(addr: Address): (r: seq<AddressError>)
    ensures forall e :: e in r ==> e == Line1TooLong || e == CityTooLong
    ensures Line1TooLong in r <==> addr.line1.Some? && |addr.line1.value| > 200
    ensures CityTooLong in r <==> addr.city.Some? && |addr.city.value| > 100
  {
    (if addr.line1.Some? && addr.line1.value != "" && |addr.line1.value| > 200 then [Line1TooLong] else []) +
    (if addr.city.Some? && addr.city.value != "" && |addr.city.value| > 100 then [CityTooLong] else [])
  }

  /** All the errors the local check can report. */
  function AllErrors(addr: Address): seq<AddressError> {
    Line1Errors(addr) + CityErrors(addr) + PostalErrors(addr) + LengthErrors(addr)
  }

  /** The address is valid exactly when every condition holds. */
  lemma ValidIff(addr: Address)
    ensures AllErrors(addr) == [] <==>
              !Blank(addr.line1) && |Trim(addr.line1.value)| >= 5 && !Blank(addr.city) &&
              !Blank(addr.postalCode) && !PostalMismatch(addr) &&
              !(addr.line1.Some? && |addr.line1.value| > 200) && !(addr.city.Some? && |addr.city.value| > 100)
  {
    var a, b, c, d := Line1Errors(addr), CityErrors(addr), PostalErrors(addr), LengthErrors(addr);
    if a + b + c + d == [] {
      assert |a| + |b| + |c| + |d| == 0;
    }
  }

  /** One error is reported when one of the four checks reports it. */
  lemma InAllErrors(addr: Address, e: AddressError)
    ensures e in AllErrors(addr) <==>
              e in Line1Errors(addr) || e in CityErrors(addr) || e in PostalErrors(addr) || e in LengthErrors(addr)
  {
  }

  /** Each line-1 error is reported exactly when its condition holds. */
  lemma Line1Reported(addr: Address)
    ensures Line1Required in AllErrors(addr) <==> Blank(addr.line1)
    ensures Line1TooShort in AllErrors(addr) <==> !Blank(addr.line1) && |Trim(addr.line1.value)| < 5
  {
    InAllErrors(addr, Line1Required);
    InAllErrors(addr, Line1TooShort);
  }

  /** The city and the postal code are reported missing exactly when blank. */
  lemma RequiredErrors(addr: Address)
    ensures CityRequired in AllErrors(addr) <==> Blank(addr.city)
    ensures PostalRequired in AllErrors(addr) <==> Blank(addr.postalCode)
  {
    InAllErrors(addr, CityRequired);
    InAllErrors(addr, PostalRequired);
  }

  lemma PostalAndLengthErrors(addr: Address)
    ensures PostalMismatch(addr) ==> PostalInvalid(Rule(Country(addr)).value.caption) in AllErrors(addr)
    ensures forall e :: e in AllErrors(addr) && e.PostalInvalid? ==>
              PostalMismatch(addr) && e == PostalInvalid(Rule(Country(addr)).value.caption)
    ensures Line1TooLong in AllErrors(addr) <==> addr.line1.Some? && |addr.line1.value| > 200
    ensures CityTooLong in AllErrors(addr) <==> addr.city.Some? && |addr.city.value| > 100
  {
    forall e {
      InAllErrors(addr, e);
    }
  }

  /** The required-field and postal-code checks, pushed in order; None
      when the postal lookup throws. */
  method PushFieldErrors(addr: Address) returns (r: Option<seq<AddressError>>)
    ensures r.None? <==> PostalLookupThrows(addr)
    ensures r.Some? ==> r.value == Line1Errors(addr) + CityErrors(addr) + PostalErrors(addr)
  {
    var errors := [];
    if Blank(addr.line1) {
      errors := errors + [Line1Required];
    } else if |Trim(addr.line1.value)| < 5 {
      errors := errors + [Line1TooShort];
    }
    assert errors == Line1Errors(addr);
    if Blank(addr.city) {
      errors := errors + [CityRequired];
    }
    assert errors == Line1Errors(addr) + CityErrors(addr);
    if Blank(addr.postalCode) {
      errors := errors + [PostalRequired];
    } else {
      var cp := Trim(addr.postalCode.value);
      if InheritedKey(Country(addr)) {
        return None;
      }
      var rule := Rule(Country(addr));
      if rule.Some? && !Matches(rule.value.pattern, cp) {
        errors := errors + [PostalInvalid(rule.value.caption)];
      }
    }
    r := Some(errors);
  }

  /** The two warnings: no country (Spain is assumed) and no state. */
  method PushWarnings(addr: Address) returns (warnings: seq<AddressWarning>)
    ensures NoCountry in warnings <==> Blank(addr.country)
    ensures NoState in warnings <==> Blank(addr.state)
    ensures |warnings| <= 2
    // the country warning comes first
    ensures |warnings| == 2 ==> warnings == [NoCountry, NoState]
  {
    warnings := [];
    if Blank(addr.country) {
      warnings := warnings + [NoCountry];
    }
    if Blank(addr.state) {
      warnings := warnings + [NoState];
    }
  }

  /** The maximum-length checks, pushed after the others. */
  method PushLengthErrors(addr: Address, before: seq<AddressError>) returns (errors: seq<AddressError>)
    ensures errors == before + LengthErrors(addr)
  {
    errors := before;
    if addr.line1.Some? && addr.line1.value != "" && |addr.line1.value| > 200 {
      errors := errors + [Line1TooLong];
    }
    if addr.city.Some? && addr.city.value != "" && |addr.city.value| > 100 {
      errors := errors + [CityTooLong];
    }
  }

  /** `validateAddressLocally`: valid exactly when no check pushed an
      error. */
  method ValidateAddressLocally(addr: Address) returns (r: Option<ValidationResult>)
    // None: the postal lookup under an inherited key throws
    ensures r.None? <==> PostalLookupThrows(addr)
    ensures r.Some? ==> r.value.errors == AllErrors(addr)
    ensures r.Some? ==> (r.value.isValid <==> |r.value.errors| == 0)
    ensures r.Some? ==> (NoCountry in r.value.warnings <==> Blank(addr.country))
    ensures r.Some? ==> (NoState in r.value.warnings <==> Blank(addr.state))
    ensures r.Some? ==> |r.value.warnings| <= 2
  {
    var fields := PushFieldErrors(addr);
    if fields.None? {
      return None;
    }
    var warnings := PushWarnings(addr);
    var errors := PushLengthErrors(addr, fields.value);
    r := Some(ValidationResult(|errors| == 0, errors, warnings));
  }

  lemma MadridFields()
    ensures Trim("Madrid") == "Madrid"
  {
    TrimNoop("Madrid");
  }

  lemma MadridPostcode()
    ensures Trim("28001") == "28001"
    ensures Rule("ES").Some? && Matches(Rule("ES").value.pattern, "28001")
  {
    TrimNoop("28001");
  }

  /** A complete Madrid address with a street of 5 to 200 characters
      passes. */
  lemma CompleteSpanishAddress(street: string)
    requires 5 <= |street| <= 200 && !IsSpace(street[0]) && !IsSpace(street[|street| - 1])
    ensures AllErrors(Address(Some(street), None, Some("Madrid"), None, Some("28001"), Some("ES"))) == []
  {
    var addr := Address(Some(street), None, Some("Madrid"), None, Some("28001"), Some("ES"));
    TrimNoop(street);
    MadridFields();
    MadridPostcode();
    assert !PostalMismatch(addr);
    ValidIff(addr);
  }

  /** What the local check or the service concluded, and whether the
      service answered. */
  datatype Reply = Reply(status: int, result: ValidationResult, fromGoogle: bool)

  /** The body of the 500 answer: no verdict at all. */
  const NO_RESULT: ValidationResult := ValidationResult(false, [], [])

  /** `POST`: a Bearer token that does not resolve is a 401; without a
      token the validation still runs. A body that is not JSON throws into the
      500 answer. Google's answer (None when it fails or has no verdict)
      replaces the local result, always with 200. */
  method ValidateAddressRoute(id: Identity, header: Option<string>, bodyOk: bool, addr: Address, apiKey: bool,
                              google: Option<ValidationResult>) returns (r: Option<Reply>)
    ensures r.None? <==> Authenticate(id, header, RequirePrefix).InvalidToken?
    ensures r.Some? && !bodyOk ==> r.value == Reply(500, NO_RESULT, false)
    // a postal code checked under an inherited key throws into the 500 answer
    ensures r.Some? && bodyOk && PostalLookupThrows(addr) ==> r.value == Reply(500, NO_RESULT, false)
    ensures r.Some? && bodyOk && r.value.fromGoogle ==>
              apiKey && google.Some? && AllErrors(addr) == [] && r.value == Reply(200, google.value, true)
    ensures r.Some? && bodyOk && !PostalLookupThrows(addr) && !r.value.fromGoogle ==>
              r.value.result.errors == AllErrors(addr) &&
              (r.value.status == 200 <==> AllErrors(addr) == []) &&
              (r.value.status != 200 ==> r.value.status == 422) &&
              (AllErrors(addr) == [] ==> !apiKey || google.None?)
  {
    if Authenticate(id, header, RequirePrefix).InvalidToken? {
      return None;
    }
    if !bodyOk {
      return Some(Reply(500, NO_RESULT, false));
    }
    var checked := ValidateAddressLocally(addr);
    if checked.None? {
      return Some(Reply(500, NO_RESULT, false));
    }
    var local := checked.value;
    if local.isValid && apiKey && google.Some? {
      return Some(Reply(200, google.value, true));
    }
    r := Some(Reply(if local.isValid then 200 else 422, local, false));
  }
}
