/** backend/app/utils/dependencies.py: the authentication dependencies every endpoint runs before
    its body. Each is a decision over the user table and the password and token helpers of
    backend/app/utils/security.py, which this model takes as uninterpreted functions. */
module Dependencies {
  import opened Common
  import opened Models

  /** The claims of a verified token; `sub` is absent when the token carries no subject. */
  datatype TokenPayload = TokenPayload(sub: Option<string>)

  /** The helpers of `utils/security`: password hashing and checking, JWT issue and verification,
      and decoding of a Basic `Authorization` value. `verifyToken` gives `None` for a token that
      does not verify. */
  datatype Security = Security(
    verifyPassword: (string, string) -> bool,
    hashPassword: string -> string,
    createToken: string -> string,
    verifyToken: string -> Option<TokenPayload>,
    decodeBasicAuth: string -> Option<(string, string)>)

  /** The user name and password of an HTTP Basic `Authorization` header (RFC 7617). */
  datatype BasicCredentials = BasicCredentials(username: string, password: string)

  const InvalidCredentials := HttpError(401, "Invalid credentials")
  const InactiveUser := HttpError(400, "Inactive user")
  const InvalidAuthHeaders := HttpError(401, "Invalid authentication headers")
  const CouldNotValidate := HttpError(401, "Could not validate credentials")
  const UserNotFound := HttpError(401, "User not found")
  const InvalidAuthCredentials := HttpError(401, "Invalid authentication credentials")
  const NotEnoughPermissions := HttpError(403, "Not enough permissions")

  /** The user a password check accepts: the first row with that user name, when the password
      matches its hash. */
  predicate PasswordAccepted(users: seq<User>, sec: Security, username: string, password: string) {
    var u := UserByUsername(users, username);
    u.Some? && sec.verifyPassword(password, u.value.passwordHash)
  }

  /** The checks `get_current_user_basic` makes inside its `try`, before the blanket handler:
      401 for an unknown user or a wrong password, then 400 for an inactive user. */
  function BasicChecks(users: seq<User>, sec: Security, creds: BasicCredentials): (r: Result<User>)
    ensures r.Err? && r.error == InvalidCredentials <==> !PasswordAccepted(users, sec, creds.username, creds.password)
    ensures r.Err? && r.error == InactiveUser <==>
      PasswordAccepted(users, sec, creds.username, creds.password) && !UserByUsername(users, creds.username).value.isActive
    ensures r.Ok? ==> (r.value in users && r.value.username == creds.username && r.value.isActive
      && sec.verifyPassword(creds.password, r.value.passwordHash))
  {
    var u := UserByUsername(users, creds.username);
    if u.None? || !sec.verifyPassword(creds.password, u.value.passwordHash) then Err(InvalidCredentials)
    else if !u.value.isActive then Err(InactiveUser)
    else Ok(u.value)
  }

  /** `get_current_user_basic`: the blanket `except Exception` also catches the HTTP errors raised
      inside it, so every failure, an inactive user's included, becomes the same 401. */
  function GetCurrentUserBasic(users: seq<User>, sec: Security, creds: BasicCredentials): (r: Result<User>)
    ensures r.Err? ==> r.error == InvalidAuthHeaders
    ensures r.Ok? <==> (PasswordAccepted(users, sec, creds.username, creds.password)
      && UserByUsername(users, creds.username).value.isActive)
    ensures r.Ok? ==> r.value == UserByUsername(users, creds.username).value
  {
    match BasicChecks(users, sec, creds)
    case Ok(u) => Ok(u)
    case Err(_) => Err(InvalidAuthHeaders)
  }

  /** The user a token names: the first row whose user name is the subject of the verified token. */
  function TokenSubject(users: seq<User>, sec: Security, token: string): (r: Option<User>)
    ensures r.Some? <==> (sec.verifyToken(token).Some? && sec.verifyToken(token).value.sub.Some?
      && exists u :: u in users && u.username == sec.verifyToken(token).value.sub.value)
    ensures r.Some? ==> r.value in users && sec.verifyToken(token) == Some(TokenPayload(Some(r.value.username)))
  {
    var payload := sec.verifyToken(token);
    if payload.None? || payload.value.sub.None? then None
    else UserByUsername(users, payload.value.sub.value)
  }

  /** The checks `get_current_user_token` makes inside its `try`, before the blanket handler: 401
      when the token does not verify or has no subject, 401 when no user has that name, then 400
      for an inactive user. */
  function TokenChecks(users: seq<User>, sec: Security, token: string): (r: Result<User>)
    ensures r.Err? && r.error == CouldNotValidate <==>
      sec.verifyToken(token).None? || sec.verifyToken(token).value.sub.None?
    ensures r.Err? && r.error == UserNotFound <==>
      sec.verifyToken(token).Some? && sec.verifyToken(token).value.sub.Some? && TokenSubject(users, sec, token).None?
    ensures r.Err? && r.error == InactiveUser <==>
      TokenSubject(users, sec, token).Some? && !TokenSubject(users, sec, token).value.isActive
    ensures r.Ok? ==> (r.value in users && r.value.isActive
      && sec.verifyToken(token) == Some(TokenPayload(Some(r.value.username))))
  {
    var payload := sec.verifyToken(token);
    if payload.None? then Err(CouldNotValidate)
    else if payload.value.sub.None? then Err(CouldNotValidate)
    else
      var u := UserByUsername(users, payload.value.sub.value);
      if u.None? then Err(UserNotFound)
      else if !u.value.isActive then Err(InactiveUser)
      else Ok(u.value)
  }

  /** `get_current_user_token`: as with Basic, the blanket handler turns every failure, the
      missing user and the inactive user included, into one 401. */
  function GetCurrentUserToken(users: seq<User>, sec: Security, token: string): (r: Result<User>)
    ensures r.Err? ==> r.error == CouldNotValidate
    ensures r.Ok? <==> TokenSubject(users, sec, token).Some? && TokenSubject(users, sec, token).value.isActive
    ensures r.Ok? ==> r.value == TokenSubject(users, sec, token).value
  {
    match TokenChecks(users, sec, token)
    case Ok(u) => Ok(u)
    case Err(_) => Err(CouldNotValidate)
  }

  /** The user the token path of `get_current_user` accepts: a non-empty token that verifies, with
      a non-empty subject naming an existing, active user. */
  function TokenUser(users: seq<User>, sec: Security, token: string): (r: Option<User>)
    ensures r.Some? ==> (r.value in users && r.value.isActive
      && sec.verifyToken(token) == Some(TokenPayload(Some(r.value.username))))
  {
    if token == "" then None
    else
      var payload := sec.verifyToken(token);
      if payload.None? || payload.value.sub.None? || payload.value.sub.value == "" then None
      else
        var u := UserByUsername(users, payload.value.sub.value);
        if u.Some? && u.value.isActive then u else None
  }

  /** The user the Basic path of `get_current_user` accepts: a non-empty header value that decodes
      to a name and password, the name of an existing, active user whose password matches. */
  function BasicUser(users: seq<User>, sec: Security, basicAuth: string): (r: Option<User>)
    ensures r.Some? ==> (r.value in users && r.value.isActive
      && sec.decodeBasicAuth(basicAuth).Some?
      && sec.decodeBasicAuth(basicAuth).value.0 == r.value.username
      && sec.verifyPassword(sec.decodeBasicAuth(basicAuth).value.1, r.value.passwordHash))
    ensures basicAuth != "" && sec.decodeBasicAuth(basicAuth).Some? ==>
      var named := UserByUsername(users, sec.decodeBasicAuth(basicAuth).value.0);
      (r.Some? <==> named.Some? && named.value.isActive
                    && sec.verifyPassword(sec.decodeBasicAuth(basicAuth).value.1, named.value.passwordHash))
      && (r.Some? ==> r == named)
  {
    if basicAuth == "" then None
    else
      var decoded := sec.decodeBasicAuth(basicAuth);
      if decoded.None? then None
      else
        var u := UserByUsername(users, decoded.value.0);
        if u.Some? && u.value.isActive && sec.verifyPassword(decoded.value.1, u.value.passwordHash) then u
        else None
  }

  /** `get_current_user`: the token is tried first and Basic only when the token path gave no
      user; when neither does, 401. */
  function GetCurrentUser(users: seq<User>, sec: Security, token: Option<string>, basicAuth: Option<string>)
    : (r: Result<User>)
    ensures r.Err? <==> ((token.None? || TokenUser(users, sec, token.value).None?)
      && (basicAuth.None? || BasicUser(users, sec, basicAuth.value).None?))
    ensures r.Err? ==> r.error == InvalidAuthCredentials
    ensures token.Some? && TokenUser(users, sec, token.value).Some? ==> r == Ok(TokenUser(users, sec, token.value).value)
    ensures ((token.None? || TokenUser(users, sec, token.value).None?)
             && basicAuth.Some? && BasicUser(users, sec, basicAuth.value).Some?) ==>
      r == Ok(BasicUser(users, sec, basicAuth.value).value)
    ensures r.Ok? ==> r.value in users && r.value.isActive
  {
    if token.Some? && TokenUser(users, sec, token.value).Some? then Ok(TokenUser(users, sec, token.value).value)
    else if basicAuth.Some? && BasicUser(users, sec, basicAuth.value).Some? then Ok(BasicUser(users, sec, basicAuth.value).value)
    else Err(InvalidAuthCredentials)
  }

  /** `get_admin_user`: 403 unless the resolved user is an administrator. */
  function GetAdminUser(caller: User): (r: Result<User>)
    ensures r.Ok? <==> caller.role == RoleAdmin
    ensures r.Ok? ==> r.value == caller
    ensures r.Err? ==> r.error == NotEnoughPermissions
  {
    if caller.role != RoleAdmin then Err(NotEnoughPermissions) else Ok(caller)
  }

  /** `get_admin_user` over its own dependency, `get_current_user_basic`: a failed Basic check is
      reported first, then the role; an authenticated administrator gets through as that user and
      anyone else authenticated gets the 403. */
  function AdminFromBasic(users: seq<User>, sec: Security, creds: BasicCredentials): (r: Result<User>)
    ensures r.Err? && r.error == InvalidAuthHeaders <==> GetCurrentUserBasic(users, sec, creds).Err?
    ensures r.Ok? <==>
      GetCurrentUserBasic(users, sec, creds).Ok? && GetCurrentUserBasic(users, sec, creds).value.role == RoleAdmin
    ensures r.Err? && r.error == NotEnoughPermissions <==>
      GetCurrentUserBasic(users, sec, creds).Ok? && GetCurrentUserBasic(users, sec, creds).value.role != RoleAdmin
    ensures r.Ok? ==> r.value == GetCurrentUserBasic(users, sec, creds).value
    ensures r.Ok? ==> (r.value in users && r.value.isActive && r.value.role == RoleAdmin
      && r.value.username == creds.username)
  {
    match GetCurrentUserBasic(users, sec, creds)
    case Err(e) => Err(e)
    case Ok(u) => GetAdminUser(u)
  }

  /** `get_authenticated_user`: the same checks as the Basic dependency without the blanket
      handler, so an inactive user gets the 400. */
  function GetAuthenticatedUser(users: seq<User>, sec: Security, creds: BasicCredentials): (r: Result<User>)
    ensures r.Err? && r.error == InvalidCredentials <==> !PasswordAccepted(users, sec, creds.username, creds.password)
    ensures r.Err? && r.error == InactiveUser <==>
      PasswordAccepted(users, sec, creds.username, creds.password) && !UserByUsername(users, creds.username).value.isActive
    ensures r.Ok? ==> r.value in users && r.value.isActive && r.value.username == creds.username
  {
    var u := UserByUsername(users, creds.username);
    if u.None? || !sec.verifyPassword(creds.password, u.value.passwordHash) then Err(InvalidCredentials)
    else if !u.value.isActive then Err(InactiveUser)
    else Ok(u.value)
  }

  /** The Basic dependency and the generic one accept the same users; they differ only in how a
      failure is reported, and an inactive user with the right password gets 401 from the first
      and 400 from the second. */
  lemma BasicMasksInactive(users: seq<User>, sec: Security, creds: BasicCredentials)
    ensures GetCurrentUserBasic(users, sec, creds).Ok? <==> GetAuthenticatedUser(users, sec, creds).Ok?
    ensures GetCurrentUserBasic(users, sec, creds).Ok? ==>
      GetCurrentUserBasic(users, sec, creds) == GetAuthenticatedUser(users, sec, creds)
    ensures GetAuthenticatedUser(users, sec, creds) == Err(InactiveUser) ==>
      GetCurrentUserBasic(users, sec, creds) == Err(InvalidAuthHeaders)
  {
  }

  /** A token the token dependency accepts is accepted by `get_current_user` as well, whatever the
      Basic header says, as long as it carries a non-empty subject. */
  lemma TokenPathAgrees(users: seq<User>, sec: Security, token: string, basicAuth: Option<string>)
    requires token != ""
    requires sec.verifyToken(token).Some? ==> sec.verifyToken(token).value.sub != Some("")
    ensures GetCurrentUserToken(users, sec, token).Ok? ==>
      GetCurrentUser(users, sec, Some(token), basicAuth) == GetCurrentUserToken(users, sec, token)
  {
  }
}
