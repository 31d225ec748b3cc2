/** backend/app/api/notifications.py: the caller's notification inbox. Every endpoint runs for
    the user the authentication dependency resolved (`caller`); `now` is the request's clock. */
module NotificationsApi {
  import opened Common
  import opened Models
  import NotificationService

  /** The body of the listing: one page, the filtered total and the caller's unread count. */
  datatype NotificationList = NotificationList(notifications: seq<Notification>, total: nat, unreadCount: nat)

  /** `limit` when the query leaves it out. */
  const DefaultLimit := 20

  /** The listing's query: the caller's rows, only unread ones when `unreadOnly`. */
  function Listed(uid: int, unreadOnly: bool): Notification -> bool {
    (n: Notification) => n.userId == uid && (!unreadOnly || !n.isRead)
  }

  /** `list_notifications`: 422 unless `1 <= limit <= 100` and `offset >= 0`; otherwise the page
      of the caller's (unread, if asked) rows, newest first, with `total` counted before
      pagination and `unread_count` over all of the caller's rows. A query parameter left out
      (`None`) takes its default: all rows, the first `DefaultLimit` of them. */
  function ListNotifications(rows: seq<Notification>, caller: User, unreadOnly: Option<bool>,
                             limit: Option<int>, offset: Option<int>)
    : (r: Result<NotificationList>)
    ensures r.Err? <==> !(1 <= OrDefault(limit, DefaultLimit) <= 100 && OrDefault(offset, 0) >= 0)
    ensures r.Err? ==> r.error == Unprocessable
    ensures r.Ok? ==>
      var u, l, o := OrDefault(unreadOnly, false), OrDefault(limit, DefaultLimit), OrDefault(offset, 0);
      && (forall n :: n in r.value.notifications ==> n in rows && n.userId == caller.id && (u ==> !n.isRead))
      && |r.value.notifications| <= l
      && r.value.total == |Filter(rows, Listed(caller.id, u))|
      && r.value.unreadCount == |Filter(rows, NotificationService.UnreadOf(caller.id))|
      && r.value.notifications == NewestFirst(Filter(rows, Listed(caller.id, u)), o, l)
    ensures unreadOnly.None? && limit.None? && offset.None? ==>
      var mine := Filter(rows, Listed(caller.id, false));
      && r.Ok?
      && r.value.total == |mine|
      && |r.value.notifications| == Min(DefaultLimit, |mine|)
      && forall k :: 0 <= k < |r.value.notifications| ==> r.value.notifications[k] == mine[|mine| - 1 - k]
  {
    var u, l, o := OrDefault(unreadOnly, false), OrDefault(limit, DefaultLimit), OrDefault(offset, 0);
    if !(1 <= l <= 100 && o >= 0) then Err(Unprocessable)
    else
      var mine := Filter(rows, Listed(caller.id, u));
      Ok(NotificationList(
        NewestFirst(mine, o, l),
        |mine|,
        NotificationService.GetUnreadNotificationCount(rows, caller.id)))
  }

  /** With `unread_only` the total equals the unread count; without it the unread count never
      exceeds the total. */
  lemma ListCounts(rows: seq<Notification>, caller: User, unreadOnly: Option<bool>, limit: Option<int>, offset: Option<int>)
    requires 1 <= OrDefault(limit, DefaultLimit) <= 100 && OrDefault(offset, 0) >= 0
    ensures var r := ListNotifications(rows, caller, unreadOnly, limit, offset);
      && r.Ok?
      && (OrDefault(unreadOnly, false) ==> r.value.total == r.value.unreadCount)
      && r.value.unreadCount <= r.value.total
  {
    if OrDefault(unreadOnly, false) {
      FilterCongruent(rows, Listed(caller.id, true), NotificationService.UnreadOf(caller.id));
    } else {
      FilterMonotone(rows, NotificationService.UnreadOf(caller.id), Listed(caller.id, false));
    }
  }

  /** What the mark-read endpoint answers with. */
  datatype ReadReceipt = ReadReceipt(id: int, isRead: bool, readAt: Option<int>)

  const NotFound := HttpError(404, "Notification not found")

  /** `POST /read/{id}`: 404 and no change unless the caller owns a row with that id; otherwise
      that row becomes read with `read_at = now` and nothing else changes. */
  method MarkNotificationRead(db: Database, caller: User, nid: int, now: int) returns (r: Result<ReadReceipt>)
    modifies db`notifications
    ensures r.Err? <==> forall n :: n in old(db.notifications) ==> !NotificationService.Owned(nid, caller.id)(n)
    ensures r.Err? ==> r.error == NotFound && db.notifications == old(db.notifications)
    ensures r.Ok? ==>
      var i := FindFirst(old(db.notifications), NotificationService.Owned(nid, caller.id)).value;
      && db.notifications == old(db.notifications)[i := old(db.notifications)[i].(isRead := true, readAt := Some(now))]
      && r.value == ReadReceipt(nid, true, Some(now))
  {
    var found := FindFirst(db.notifications, NotificationService.Owned(nid, caller.id));
    if found.None? {
      return Err(NotFound);
    }
    var i := found.value;
    var n := db.notifications[i].(isRead := true, readAt := Some(now));
    db.notifications := db.notifications[i := n];
    return Ok(ReadReceipt(n.id, n.isRead, n.readAt));
  }

  /** `POST /read-all`: the caller's unread rows become read at `now`; see
      `NotificationService.MarkAllForEffect` for what that leaves of everybody's counts. */
  method MarkAllNotificationsRead(db: Database, caller: User, now: int) returns (message: string)
    modifies db`notifications
    ensures db.notifications == NotificationService.MarkAllFor(old(db.notifications), caller.id, Some(now))
    ensures NotificationService.GetUnreadNotificationCount(db.notifications, caller.id) == 0
    ensures forall v :: v != caller.id ==>
      NotificationService.GetUnreadNotificationCount(db.notifications, v)
        == NotificationService.GetUnreadNotificationCount(old(db.notifications), v)
    ensures message == "All notifications marked as read"
  {
    NotificationService.MarkAllForEffect(db.notifications, caller.id, Some(now));
    db.notifications := NotificationService.MarkAllFor(db.notifications, caller.id, Some(now));
    message := "All notifications marked as read";
  }

  /** `DELETE /{id}`: 404 and no change unless the caller owns a row with that id; otherwise
      exactly that row is removed (the response is 204, `None` here). */
  method DeleteNotification(db: Database, caller: User, nid: int) returns (err: Option<HttpError>)
    modifies db`notifications
    ensures err.Some? <==> forall n :: n in old(db.notifications) ==> !NotificationService.Owned(nid, caller.id)(n)
    ensures err.Some? ==> err.value == NotFound && db.notifications == old(db.notifications)
    ensures err.None? ==>
      var i := FindFirst(old(db.notifications), NotificationService.Owned(nid, caller.id)).value;
      && old(db.notifications)[i].id == nid && old(db.notifications)[i].userId == caller.id
      && db.notifications == RemoveAt(old(db.notifications), i)
  {
    var found := FindFirst(db.notifications, NotificationService.Owned(nid, caller.id));
    if found.None? {
      return Some(NotFound);
    }
    db.notifications := RemoveAt(db.notifications, found.value);
    return None;
  }

  /** `GET /unread-count`: the number of the caller's unread rows. */
  function GetUnreadCount(rows: seq<Notification>, caller: User): (count: nat)
    ensures count == |Filter(rows, NotificationService.UnreadOf(caller.id))|
    ensures count <= |rows|
  {
    NotificationService.GetUnreadNotificationCount(rows, caller.id)
  }
}
