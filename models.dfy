/** The backend's records and enumerations (the files under backend/app/models and backend/app/schemas)
    and the database they live in. Every table is a sequence in insertion order, which is also
    the order of its `created_at` column; each table hands out increasing ids. */
module Models {
  import opened Common

  datatype DriftStatus = Open | InProgress | Resolved | Closed

  /** The enumeration's `.value`. */
  function StatusValue(s: DriftStatus): string {
    match s
    case Open => "open"
    case InProgress => "in_progress"
    case Resolved => "resolved"
    case Closed => "closed"
  }

  /** Python's `str()` of the enumeration member. */
  function StatusName(s: DriftStatus): string {
    match s
    case Open => "DriftStatus.OPEN"
    case InProgress => "DriftStatus.IN_PROGRESS"
    case Resolved => "DriftStatus.RESOLVED"
    case Closed => "DriftStatus.CLOSED"
  }

  datatype DriftPriority = Low | Medium | High | Critical

  function PriorityValue(p: DriftPriority): string {
    match p
    case Low => "low"
    case Medium => "medium"
    case High => "high"
    case Critical => "critical"
  }

  function PriorityName(p: DriftPriority): string {
    match p
    case Low => "DriftPriority.LOW"
    case Medium => "DriftPriority.MEDIUM"
    case High => "DriftPriority.HIGH"
    case Critical => "DriftPriority.CRITICAL"
  }

  datatype UserRole = RoleAdmin | RoleUser

  function RoleValue(r: UserRole): string {
    match r
    case RoleAdmin => "admin"
    case RoleUser => "user"
  }

  datatype EventType = Created | Updated | StatusChanged | Assigned | Unassigned | CommentAdded

  datatype User = User(
    id: int,
    username: string,
    email: string,
    fullName: Option<string>,
    passwordHash: string,
    role: UserRole,
    isActive: bool)

  /** A ticket. `status` starts OPEN; `resolved_at`, `closed_at` and the timestamps are not kept. */
  datatype Drift = Drift(
    id: int,
    title: string,
    description: Option<string>,
    status: DriftStatus,
    priority: DriftPriority,
    createdById: int,
    assignedToId: Option<int>)

  datatype Comment = Comment(id: int, driftId: int, authorId: int, content: string)

  /** `readAt` is a timestamp in seconds. */
  datatype Notification = Notification(
    id: int,
    userId: int,
    driftId: int,
    title: string,
    message: string,
    isRead: bool,
    readAt: Option<int>)

  /** A Python value stored in a drift column or an audit payload; enumeration members keep
      their identity (they differ from their `.value` strings under `!=`). */
  datatype Value =
    | VNone
    | VInt(i: int)
    | VStr(s: string)
    | VStatus(status: DriftStatus)
    | VPriority(priority: DriftPriority)

  /** `json.dumps` of an audit payload (a dictionary), kept as an opaque encoding. */
  datatype Encoded = Json(payload: seq<(string, Value)>)

  datatype Event = Event(
    id: int,
    driftId: int,
    userId: int,
    eventType: EventType,
    description: string,
    oldValue: Option<Encoded>,
    newValue: Option<Encoded>)

  /** Python truthiness of an optional integer column: set and non-zero. */
  predicate IsSetId(v: Option<int>) {
    v.Some? && v.value != 0
  }

  function HasId(id: int): User -> bool {
    (u: User) => u.id == id
  }

  function HasUsername(name: string): User -> bool {
    (u: User) => u.username == name
  }

  function HasEmail(email: string): User -> bool {
    (u: User) => u.email == email
  }

  function DriftHasId(id: int): Drift -> bool {
    (d: Drift) => d.id == id
  }

  function CommentHasId(id: int): Comment -> bool {
    (c: Comment) => c.id == id
  }

  /** `db.query(User).filter(User.username == name).first()` */
  function UserByUsername(users: seq<User>, name: string): (r: Option<User>)
    ensures r.Some? ==> r.value in users && r.value.username == name
    ensures r.None? <==> forall u :: u in users ==> u.username != name
  {
    match FindFirst(users, HasUsername(name))
    case None => None
    case Some(i) => Some(users[i])
  }

  /** `db.query(User).filter(User.id == id).first()` */
  function UserById(users: seq<User>, id: int): (r: Option<User>)
    ensures r.Some? ==> r.value in users && r.value.id == id
    ensures r.None? <==> forall u :: u in users ==> u.id != id
  {
    match FindFirst(users, HasId(id))
    case None => None
    case Some(i) => Some(users[i])
  }

  /** The database session: one sequence per table and the next id each table hands out. */
  class Database {
    var users: seq<User>
    var drifts: seq<Drift>
    var comments: seq<Comment>
    var events: seq<Event>
    var notifications: seq<Notification>
    var nextUserId: int
    var nextDriftId: int
    var nextCommentId: int
    var nextEventId: int
    var nextNotificationId: int

    constructor ()
      ensures users == [] && drifts == [] && comments == [] && events == [] && notifications == []
      ensures nextUserId == 1 && nextDriftId == 1 && nextCommentId == 1
      ensures nextEventId == 1 && nextNotificationId == 1
    {
      users, drifts, comments, events, notifications := [], [], [], [], [];
      nextUserId, nextDriftId, nextCommentId, nextEventId, nextNotificationId := 1, 1, 1, 1, 1;
    }
  }
}
