/** backend/app/api/users.py: the administrators' user management. Every endpoint first runs
    `get_admin_user` over the Basic credentials of the request (`AdminFromBasic`), and its error,
    if any, is the response. */
module UsersApi {
  import opened Common
  import opened Models
  import opened Dependencies

  /** The request body of `POST /`; a role or activity left out of the body is `None`. */
  datatype UserCreate = UserCreate(
    username: string,
    email: string,
    fullName: Option<string>,
    password: string,
    role: Option<UserRole>,
    isActive: Option<bool>)

  /** The schema's defaults: a new user is a plain, active user unless the body says otherwise. */
  const DefaultRole := RoleUser
  const DefaultActive := true

  const UsernameTaken := HttpError(400, "Username already exists")
  const EmailTaken := HttpError(400, "Email already exists")
  const UnknownUser := HttpError(404, "User not found")

  /** A user as the create and list endpoints show it: the role as its `.value`, no password hash. */
  datatype UserSummary = UserSummary(
    id: int,
    username: string,
    email: string,
    fullName: Option<string>,
    role: string,
    isActive: bool)

  function SummaryOf(u: User): (s: UserSummary)
    ensures s.id == u.id && s.username == u.username && s.email == u.email && s.isActive == u.isActive
    ensures s.role == "admin" <==> u.role == RoleAdmin
  {
    UserSummary(u.id, u.username, u.email, u.fullName, RoleValue(u.role), u.isActive)
  }

  datatype UserCreated = UserCreated(message: string, user: UserSummary)

  /** No two users share a user name or an e-mail address. */
  predicate UniqueAccounts(users: seq<User>) {
    forall i, j :: 0 <= i < j < |users| ==> users[i].username != users[j].username && users[i].email != users[j].email
  }

  /** A user whose name and address are both new keeps the table free of duplicates. */
  lemma AddKeepsUnique(users: seq<User>, u: User)
    requires UniqueAccounts(users)
    requires forall v :: v in users ==> v.username != u.username && v.email != u.email
    ensures UniqueAccounts(users + [u])
  {
    var s := users + [u];
    forall i, j | 0 <= i < j < |s|
      ensures s[i].username != s[j].username && s[i].email != s[j].email
    {
      assert s[i] == users[i];
      if j == |users| {
        assert s[j] == u && users[i] in users;
      } else {
        assert s[j] == users[j];
      }
    }
  }

  /** `POST /`: the admin check, then 400 for a taken user name, checked before the address, then
      400 for a taken address; nothing is stored on any error. Otherwise exactly one user, with
      the request's fields, the password's hash, and the role and activity given or else a
      plain active user, is appended. */
  method CreateUser(db: Database, sec: Security, creds: BasicCredentials, data: UserCreate)
    returns (r: Result<UserCreated>)
    modifies db`users, db`nextUserId
    ensures AdminFromBasic(old(db.users), sec, creds).Err? ==> r == Err(AdminFromBasic(old(db.users), sec, creds).error)
    ensures r.Err? && r.error == UsernameTaken <==>
      (AdminFromBasic(old(db.users), sec, creds).Ok? && exists u :: u in old(db.users) && u.username == data.username)
    ensures r.Err? && r.error == EmailTaken <==>
      (&& AdminFromBasic(old(db.users), sec, creds).Ok?
       && (forall u :: u in old(db.users) ==> u.username != data.username)
       && exists u :: u in old(db.users) && u.email == data.email)
    ensures r.Ok? <==>
      (&& AdminFromBasic(old(db.users), sec, creds).Ok?
       && forall u :: u in old(db.users) ==> u.username != data.username && u.email != data.email)
    ensures r.Err? ==> db.users == old(db.users) && db.nextUserId == old(db.nextUserId)
    ensures r.Ok? ==>
      var u := User(old(db.nextUserId), data.username, data.email, data.fullName, sec.hashPassword(data.password),
                    OrDefault(data.role, DefaultRole), OrDefault(data.isActive, DefaultActive));
      && db.users == old(db.users) + [u]
      && db.nextUserId == old(db.nextUserId) + 1
      && r.value == UserCreated("User created successfully", SummaryOf(u))
    ensures r.Ok? && data.role.None? ==> r.value.user.role == "user"
    ensures r.Ok? && data.isActive.None? ==> r.value.user.isActive
    ensures UniqueAccounts(old(db.users)) ==> UniqueAccounts(db.users)
  {
    var admin := AdminFromBasic(db.users, sec, creds);
    if admin.Err? {
      return Err(admin.error);
    }
    if FindFirst(db.users, HasUsername(data.username)).Some? {
      return Err(UsernameTaken);
    }
    if FindFirst(db.users, HasEmail(data.email)).Some? {
      return Err(EmailTaken);
    }
    var u := User(db.nextUserId, data.username, data.email, data.fullName, sec.hashPassword(data.password),
                  OrDefault(data.role, DefaultRole), OrDefault(data.isActive, DefaultActive));
    if UniqueAccounts(db.users) {
      AddKeepsUnique(db.users, u);
    }
    db.users := db.users + [u];
    db.nextUserId := db.nextUserId + 1;
    return Ok(UserCreated("User created successfully", SummaryOf(u)));
  }

  datatype UserListing = UserListing(users: seq<UserSummary>, total: int)

  /** `GET /`: after the admin check, every user in table order, with `total` their number. */
  function ListUsers(users: seq<User>, sec: Security, creds: BasicCredentials): (r: Result<UserListing>)
    ensures r.Err? <==> AdminFromBasic(users, sec, creds).Err?
    ensures r.Err? ==> r.error == AdminFromBasic(users, sec, creds).error
    ensures r.Ok? ==> r.value.total == |r.value.users| == |users|
    ensures r.Ok? ==> forall k :: 0 <= k < |users| ==> r.value.users[k] == SummaryOf(users[k])
  {
    match AdminFromBasic(users, sec, creds)
    case Err(e) => Err(e)
    case Ok(_) =>
      var listed := seq(|users|, k requires 0 <= k < |users| => SummaryOf(users[k]));
      Ok(UserListing(listed, |listed|))
  }

  /** `GET /{id}`: after the admin check, the user with that id, or 404 when there is none. */
  function GetUser(users: seq<User>, sec: Security, creds: BasicCredentials, userId: int): (r: Result<User>)
    ensures AdminFromBasic(users, sec, creds).Err? ==> r == Err(AdminFromBasic(users, sec, creds).error)
    ensures r.Err? && r.error == UnknownUser <==>
      AdminFromBasic(users, sec, creds).Ok? && forall u :: u in users ==> u.id != userId
    ensures r.Ok? ==> r.value in users && r.value.id == userId
  {
    match AdminFromBasic(users, sec, creds)
    case Err(e) => Err(e)
    case Ok(_) => if UserById(users, userId).None? then Err(UnknownUser) else Ok(UserById(users, userId).value)
  }
}
