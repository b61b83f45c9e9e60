/** Bearer-token authentication and the admin role check that the API
    routes repeat at their head. The identity service is abstract: a map from
    access tokens to the users they authenticate, and the `users` table's
    role column. */
module Auth {
  import opened Common

  datatype AuthUser = AuthUser(id: string, email: Option<string>)

  datatype Identity = Identity(sessions: map<string, AuthUser>, roles: map<string, string>)

  const BEARER: string := "Bearer "

  /** `authHeader.replace('Bearer ', '')`: the first occurrence of the prefix
      is removed, wherever it is. */
  function BearerToken(header: string): string {
    ReplaceFirst(header, BEARER, "")
  }

  /** Where the header does start with the prefix, `replace` and `slice(7)`
      (the form used by the return-processing route) agree. */
  lemma BearerTokenOfPrefixed(header: string)
    requires StartsWith(header, BEARER)
    ensures BearerToken(header) == header[7..]
  {
    assert header == BEARER + header[7..];
    ReplaceFirstOfPrefixed(BEARER, header[7..]);
  }

  /** The two spellings of the header guard: some routes demand the
      `Bearer ` prefix (`authHeader?.startsWith('Bearer ')`), the others
      only a non-empty header (`!authHeader`). */
  datatype HeaderGuard = RequirePrefix | RequirePresent

  predicate HeaderPasses(header: Option<string>, guard: HeaderGuard) {
    header.Some? &&
    match guard
    case RequirePrefix => StartsWith(header.value, BEARER)
    case RequirePresent => header.value != ""
  }

  datatype AuthResult = NoCredentials | InvalidToken | Authenticated(user: AuthUser)

  /** Resolve the caller from the Authorization header. */
  function Authenticate(id: Identity, header: Option<string>, guard: HeaderGuard): (r: AuthResult)
    ensures r.NoCredentials? <==> !HeaderPasses(header, guard)
    ensures r.Authenticated? <==>
              HeaderPasses(header, guard) && BearerToken(header.value) in id.sessions
    ensures r.Authenticated? ==> r.user == id.sessions[BearerToken(header.value)]
  {
    if !HeaderPasses(header, guard) then NoCredentials
    else
      var token := BearerToken(header.value);
      if token in id.sessions then Authenticated(id.sessions[token]) else InvalidToken
  }

  predicate IsAdmin(id: Identity, userId: string) {
    userId in id.roles && id.roles[userId] == "admin"
  }

  datatype AdminResult = AdminNoCredentials | AdminInvalidToken | NotAdmin | Admin(user: AuthUser)

  /** The admin guard: authenticate, then read the caller's role. */
  function AuthenticateAdmin(id: Identity, header: Option<string>, guard: HeaderGuard): (r: AdminResult)
    ensures r.Admin? <==> (Authenticate(id, header, guard).Authenticated? &&
                           IsAdmin(id, Authenticate(id, header, guard).user.id))
    ensures r.Admin? ==> IsAdmin(id, r.user.id) && r.user == Authenticate(id, header, guard).user
    ensures r.NotAdmin? ==> Authenticate(id, header, guard).Authenticated?
    ensures r.AdminNoCredentials? <==> !HeaderPasses(header, guard)
  {
    match Authenticate(id, header, guard)
    case NoCredentials => AdminNoCredentials
    case InvalidToken => AdminInvalidToken
    case Authenticated(u) => if IsAdmin(id, u.id) then Admin(u) else NotAdmin
  }

  /** HTTP status of a failed admin guard: 401 when nobody is authenticated,
      403 for an authenticated non-admin. */
  function AdminFailureStatus(r: AdminResult): (status: int)
    requires !r.Admin?
    ensures status == 401 || status == 403
    ensures status == 403 <==> r.NotAdmin?
  {
    if r.NotAdmin? then 403 else 401
  }

  /** The coarser guard of the promo-code and settings routes
      (`verifyAdmin`), where every failure is a plain `false`. */
  function VerifyAdmin(id: Identity, header: Option<string>): (ok: bool)
    ensures ok <==> AuthenticateAdmin(id, header, RequirePresent).Admin?
  {
    AuthenticateAdmin(id, header, RequirePresent).Admin?
  }
}
