/** backend/app/api/auth.py: creating the first administrator and logging in. Neither endpoint
    runs an authentication dependency. */
module AuthApi {
  import opened Common
  import opened Models
  import opened Dependencies
  import opened UsersApi

  const AdminExists := HttpError(400, "Admin user already exists")
  const FieldsRequired := HttpError(400, "Username, email, and password are required")

  /** A user as the bootstrap and login responses show it: the role as its `.value`. */
  datatype Profile = Profile(id: int, username: string, email: string, fullName: Option<string>, role: string)

  function ProfileOf(u: User): (p: Profile)
    ensures p.id == u.id && p.username == u.username && p.email == u.email && p.fullName == u.fullName
    ensures p.role == "admin" <==> u.role == RoleAdmin
  {
    Profile(u.id, u.username, u.email, u.fullName, RoleValue(u.role))
  }

  datatype Bootstrapped = Bootstrapped(message: string, user: Profile)

  /** `POST /bootstrap`: 400 when any user exists, then 400 when the user name, the address or the
      password is empty; nothing is stored on either error. Otherwise the table holds exactly one
      user: an active administrator with the request's name, address and full name. The request's
      role and activity are ignored. */
  method BootstrapAdmin(db: Database, sec: Security, data: UserCreate) returns (r: Result<Bootstrapped>)
    modifies db`users, db`nextUserId
    ensures r.Err? && r.error == AdminExists <==> old(db.users) != []
    ensures r.Err? && r.error == FieldsRequired <==>
      old(db.users) == [] && (data.username == "" || data.email == "" || data.password == "")
    ensures r.Ok? <==> old(db.users) == [] && data.username != "" && data.email != "" && data.password != ""
    ensures r.Err? ==> db.users == old(db.users) && db.nextUserId == old(db.nextUserId)
    ensures r.Ok? ==>
      var u := User(old(db.nextUserId), data.username, data.email, data.fullName,
                    sec.hashPassword(data.password), RoleAdmin, true);
      && db.users == [u]
      && db.nextUserId == old(db.nextUserId) + 1
      && r.value == Bootstrapped("Admin user created successfully", ProfileOf(u))
  {
    if db.users != [] {
      return Err(AdminExists);
    }
    if data.username == "" || data.email == "" || data.password == "" {
      return Err(FieldsRequired);
    }
    var u := User(db.nextUserId, data.username, data.email, data.fullName,
                  sec.hashPassword(data.password), RoleAdmin, true);
    db.users := db.users + [u];
    db.nextUserId := db.nextUserId + 1;
    return Ok(Bootstrapped("Admin user created successfully", ProfileOf(u)));
  }

  /** The request body of `POST /login`. */
  datatype UserLogin = UserLogin(username: string, password: string)

  datatype LoginResponse = LoginResponse(accessToken: string, tokenType: string, user: Profile)

  /** `POST /login`: 401 for an unknown user name or a wrong password, and only then 400 for an
      inactive user; otherwise a bearer token whose subject is the user name. */
  function Login(users: seq<User>, sec: Security, data: UserLogin): (r: Result<LoginResponse>)
    ensures r.Err? && r.error == InvalidCredentials <==> !PasswordAccepted(users, sec, data.username, data.password)
    ensures r.Err? && r.error == InactiveUser <==>
      PasswordAccepted(users, sec, data.username, data.password) && !UserByUsername(users, data.username).value.isActive
    ensures r.Ok? ==>
      && r.value.accessToken == sec.createToken(data.username)
      && r.value.tokenType == "bearer"
      && r.value.user == ProfileOf(UserByUsername(users, data.username).value)
  {
    var u := UserByUsername(users, data.username);
    if u.None? || !sec.verifyPassword(data.password, u.value.passwordHash) then Err(InvalidCredentials)
    else if !u.value.isActive then Err(InactiveUser)
    else Ok(LoginResponse(sec.createToken(u.value.username), "bearer", ProfileOf(u.value)))
  }

  /** Login decides exactly as the generic Basic dependency does: the same users get in and the
      same errors come back. */
  lemma LoginAgreesWithAuthenticated(users: seq<User>, sec: Security, data: UserLogin)
    ensures Login(users, sec, data).Ok? <==> GetAuthenticatedUser(users, sec, BasicCredentials(data.username, data.password)).Ok?
    ensures Login(users, sec, data).Err? ==>
      Login(users, sec, data).error == GetAuthenticatedUser(users, sec, BasicCredentials(data.username, data.password)).error
  {
  }

  /** When token verification gives back the subject a token was issued for, the token a login
      returns is accepted by the token dependency, for the user who logged in. */
  lemma LoginTokenAuthenticates(users: seq<User>, sec: Security, data: UserLogin)
    requires sec.verifyToken(sec.createToken(data.username)) == Some(TokenPayload(Some(data.username)))
    requires Login(users, sec, data).Ok?
    ensures GetCurrentUserToken(users, sec, Login(users, sec, data).value.accessToken) ==
      Ok(UserByUsername(users, data.username).value)
    ensures Login(users, sec, data).value.user.id == UserByUsername(users, data.username).value.id
  {
  }
}
