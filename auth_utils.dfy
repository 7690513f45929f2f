/** The request guards of the API routes (src/lib/authUtils.ts): the
    bearer token of the `Authorization` header, the identity it carries,
    the admin test and the role threshold. The signature check and decoding
    of `authService.verifyToken` are a parameter that yields the payload or
    fails. */
module AuthUtils {
  import opened Wrappers
  import opened Text
  import opened Enums

  /** The claims of an access token. */
  datatype Payload = Payload(sub: string, role: string, login: string, name: string)

  /** What `getUserFromToken` returns: `role` is `UserRole[roleName]`,
      absent for a name that is not a role; `id` is `parseInt(sub, 10)`,
      absent for `NaN`. */
  datatype TokenUser = TokenUser(id: Option<int>, role: Option<int>, roleName: string, login: string, name: string)

  const UNAUTHORIZED: string := "Unauthorized"
  const INVALID_TOKEN: string := "Invalid token"
  const FORBIDDEN: string := "Forbidden"
  const ADMIN_NAME: string := "Admin"

  /** `headers.get("authorization")?.split(" ")[1]`, where a missing header,
      a missing second piece and an empty second piece all count as no
      token. */
  function BearerToken(header: Option<string>): (r: Option<string>)
    ensures r.Some? <==> header.Some? && |Split(header.value, ' ')| >= 2 && Split(header.value, ' ')[1] != ""
    ensures r.Some? ==> r.value == Split(header.value, ' ')[1] && ' ' !in r.value
  {
    if header.None? then None
    else
      var parts := Split(header.value, ' ');
      if |parts| < 2 || parts[1] == "" then None else Some(parts[1])
  }

  /** A header written as `<scheme> <token>` yields the token, whatever the
      scheme word is. */
  lemma BearerTokenOfHeader(scheme: string, token: string)
    requires ' ' !in scheme && ' ' !in token && token != ""
    ensures BearerToken(Some(scheme + " " + token)) == Some(token)
  {
    var parts := [scheme, token];
    SplitJoin(parts, ' ');
    assert Join(parts, " ") == scheme + " " + token by {
      assert Join(parts[1..], " ") == token;
    }
  }

  /** `getUserFromToken`: "Unauthorized" without a token, "Invalid token"
      when verification fails, otherwise the identity in the payload. */
  function GetUserFromToken(header: Option<string>, verify: string -> Option<Payload>): (r: Result<TokenUser>)
    ensures BearerToken(header).None? <==> r == Err(UNAUTHORIZED)
    ensures r == Err(INVALID_TOKEN) <==> BearerToken(header).Some? && verify(BearerToken(header).value).None?
    ensures r.Ok? <==> BearerToken(header).Some? && verify(BearerToken(header).value).Some?
    ensures r.Ok? ==> var p := verify(BearerToken(header).value).value;
      && r.value.roleName == p.role && r.value.login == p.login && r.value.name == p.name
      && r.value.role == RoleOfName(p.role) && r.value.id == ParseInt(p.sub)
  {
    match BearerToken(header)
    case None => Err(UNAUTHORIZED)
    case Some(token) =>
      match verify(token)
      case None => Err(INVALID_TOKEN)
      case Some(payload) =>
        Ok(TokenUser(ParseInt(payload.sub), RoleOfName(payload.role), payload.role, payload.login, payload.name))
  }

  /** `getUserIdFromToken`: the identifier, or the same failure. */
  function GetUserIdFromToken(header: Option<string>, verify: string -> Option<Payload>): (r: Result<Option<int>>)
    ensures r.Err? <==> GetUserFromToken(header, verify).Err?
    ensures r.Err? ==> r.error == GetUserFromToken(header, verify).error
    ensures r.Ok? ==> r.value == GetUserFromToken(header, verify).value.id
  {
    match GetUserFromToken(header, verify)
    case Err(e) => Err(e)
    case Ok(user) => Ok(user.id)
  }

  /** A token whose subject is a printed identifier gives that identifier
      back. */
  lemma SubjectIdRoundTrip(header: Option<string>, verify: string -> Option<Payload>, id: int)
    requires BearerToken(header).Some? && verify(BearerToken(header).value).Some?
    requires verify(BearerToken(header).value).value.sub == IntToString(id)
    ensures GetUserIdFromToken(header, verify) == Ok(Some(id))
  {
    ParseIntToString(id);
  }

  /** `isAdmin`: the role name is exactly "Admin"; any failure of the token
      handling answers no. */
  function IsAdmin(header: Option<string>, verify: string -> Option<Payload>): (r: bool)
    ensures r <==> GetUserFromToken(header, verify).Ok? && GetUserFromToken(header, verify).value.roleName == ADMIN_NAME
    ensures BearerToken(header).None? ==> !r
  {
    match GetUserFromToken(header, verify)
    case Err(_) => false
    case Ok(user) => user.roleName == ADMIN_NAME
  }

  /** An admin token also carries the numeric Admin role. */
  lemma AdminHasAdminRole(header: Option<string>, verify: string -> Option<Payload>)
    requires IsAdmin(header, verify)
    ensures GetUserFromToken(header, verify).value.role == Some(ROLE_ADMIN)
  {
    assert RoleName(ROLE_ADMIN) == Some(ADMIN_NAME);
  }

  /** `requireRole`: "Forbidden" exactly when the role is below the one
      required. */
  function RequireRole(userRole: int, requiredRole: int): (r: Result<()>)
    ensures r.Err? <==> userRole < requiredRole
    ensures r.Err? ==> r.error == FORBIDDEN
  {
    if userRole < requiredRole then Err(FORBIDDEN) else Ok(())
  }

  /** Passing a threshold means passing every lower one, and a higher role
      passes wherever a lower one does. */
  lemma RequireRoleMonotone(userRole: int, requiredRole: int, lower: int, higherRole: int)
    requires RequireRole(userRole, requiredRole).Ok?
    requires lower <= requiredRole && userRole <= higherRole
    ensures RequireRole(userRole, lower).Ok?
    ensures RequireRole(higherRole, requiredRole).Ok?
  {
  }

  /** Admin passes every threshold up to Admin, and User passes only the
      lowest. */
  lemma RequireRoleExtremes(requiredRole: int)
    requires ROLE_USER <= requiredRole <= ROLE_ADMIN
    ensures RequireRole(ROLE_ADMIN, requiredRole).Ok?
    ensures RequireRole(ROLE_USER, requiredRole).Ok? <==> requiredRole == ROLE_USER
  {
  }
}
