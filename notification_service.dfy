/** backend/app/services/notification.py: who is notified of a status change or a comment,
    and the read-state bookkeeping on the notification table. */
module NotificationService {
  import opened Common
  import opened Models

  /** What `create_notification` is asked to store. */
  datatype Draft = Draft(userId: int, driftId: int, title: string, message: string)

  function DraftOf(n: Notification): Draft {
    Draft(n.userId, n.driftId, n.title, n.message)
  }

  function DraftsOf(ns: seq<Notification>): (r: seq<Draft>)
    ensures |r| == |ns| && forall k :: 0 <= k < |ns| ==> r[k] == DraftOf(ns[k])
  {
    seq(|ns|, k requires 0 <= k < |ns| => DraftOf(ns[k]))
  }

  /** `create_notification`: adds one unread row carrying the given user, drift, title and
      message. */
  method CreateNotification(db: Database, userId: int, driftId: int, title: string, message: string)
    returns (n: Notification)
    modifies db`notifications, db`nextNotificationId
    ensures DraftOf(n) == Draft(userId, driftId, title, message)
    ensures !n.isRead && n.readAt == None
    ensures n.id == old(db.nextNotificationId)
    ensures db.notifications == old(db.notifications) + [n]
    ensures db.nextNotificationId == old(db.nextNotificationId) + 1
  {
    n := Notification(db.nextNotificationId, userId, driftId, title, message, false, None);
    db.notifications := db.notifications + [n];
    db.nextNotificationId := db.nextNotificationId + 1;
  }

  // ---------------------------------------------------------------------------
  // Status changes

  predicate IsResolvedOrClosed(newStatus: string) {
    newStatus == "resolved" || newStatus == "closed"
  }

  function StatusTitle(newStatus: string): string {
    "Drift " + TitleCase(newStatus)
  }

  function AssigneeStatusDraft(d: Drift, newStatus: string): Draft
    requires d.assignedToId.Some?
  {
    Draft(d.assignedToId.value, d.id, StatusTitle(newStatus),
          "Drift #" + IntToString(d.id) + " has been " + newStatus + ": " + d.title)
  }

  function CreatorStatusDraft(d: Drift, newStatus: string): Draft {
    Draft(d.createdById, d.id, StatusTitle(newStatus),
          "Your drift #" + IntToString(d.id) + " has been " + newStatus + ": " + d.title)
  }

  /** The notifications a status change produces: none unless the drift becomes resolved or
      closed; then the assignee (when one is set) first, and the creator when the creator is
      not the assignee. */
  function StatusChangeDrafts(d: Drift, newStatus: string): (r: seq<Draft>)
    ensures |r| <= 2
    ensures !IsResolvedOrClosed(newStatus) ==> r == []
    ensures d.assignedToId.Some? ==>
      (AssigneeStatusDraft(d, newStatus) in r <==> IsResolvedOrClosed(newStatus) && IsSetId(d.assignedToId))
    ensures CreatorStatusDraft(d, newStatus) in r <==>
      IsResolvedOrClosed(newStatus) && Some(d.createdById) != d.assignedToId
    ensures IsResolvedOrClosed(newStatus) && IsSetId(d.assignedToId) ==>
      r[0] == AssigneeStatusDraft(d, newStatus)
    ensures forall k :: 0 <= k < |r| ==>
      r[k] == CreatorStatusDraft(d, newStatus) ||
      (IsSetId(d.assignedToId) && r[k] == AssigneeStatusDraft(d, newStatus))
    ensures |r| == 2 ==> r[0].userId != r[1].userId
  {
    var toAssignee :=
      if IsResolvedOrClosed(newStatus) && IsSetId(d.assignedToId) then [AssigneeStatusDraft(d, newStatus)] else [];
    var toCreator :=
      if IsResolvedOrClosed(newStatus) && Some(d.createdById) != d.assignedToId then [CreatorStatusDraft(d, newStatus)] else [];
    assert d.assignedToId.Some? ==> AssigneeStatusDraft(d, newStatus).message[0] == 'D';
    assert CreatorStatusDraft(d, newStatus).message[0] == 'Y';
    toAssignee + toCreator
  }

  /** `create_status_change_notification`: appends the notifications of `StatusChangeDrafts`,
      in that order. */
  method CreateStatusChangeNotification(db: Database, d: Drift, oldStatus: string, newStatus: string)
    returns (ns: seq<Notification>)
    modifies db`notifications, db`nextNotificationId
    ensures DraftsOf(ns) == StatusChangeDrafts(d, newStatus)
    ensures forall k :: 0 <= k < |ns| ==> !ns[k].isRead
    ensures db.notifications == old(db.notifications) + ns
  {
    ns := [];
    if IsResolvedOrClosed(newStatus) && IsSetId(d.assignedToId) {
      var n := CreateNotification(db, d.assignedToId.value, d.id, StatusTitle(newStatus),
                                  "Drift #" + IntToString(d.id) + " has been " + newStatus + ": " + d.title);
      ns := ns + [n];
    }
    if IsResolvedOrClosed(newStatus) && Some(d.createdById) != d.assignedToId {
      var n := CreateNotification(db, d.createdById, d.id, StatusTitle(newStatus),
                                  "Your drift #" + IntToString(d.id) + " has been " + newStatus + ": " + d.title);
      ns := ns + [n];
    }
  }

  // ---------------------------------------------------------------------------
  // Comments

  /** `full_name or username` */
  function DisplayName(u: User): string {
    if u.fullName.Some? && u.fullName.value != "" then u.fullName.value else u.username
  }

  /** The notification a comment produces: the assignee when one is set and is not the author
      (and then nobody else); otherwise the creator when the creator is neither the author nor
      the assignee; otherwise nobody. The author is never notified. */
  function CommentDraft(d: Drift, author: User): (r: Option<Draft>)
    ensures r.Some? ==> r.value.userId != author.id && r.value.driftId == d.id
    ensures IsSetId(d.assignedToId) && d.assignedToId.value != author.id ==>
      r.Some? && r.value.userId == d.assignedToId.value && r.value.title == "New comment on assigned drift"
    ensures !(IsSetId(d.assignedToId) && d.assignedToId.value != author.id) ==>
      (r.Some? <==> d.createdById != author.id && Some(d.createdById) != d.assignedToId) &&
      (r.Some? ==> r.value.userId == d.createdById && r.value.title == "New comment on your drift")
  {
    if IsSetId(d.assignedToId) && d.assignedToId.value != author.id then
      Some(Draft(d.assignedToId.value, d.id, "New comment on assigned drift",
                 DisplayName(author) + " commented on drift #" + IntToString(d.id) + ": " + d.title))
    else if d.createdById != author.id && Some(d.createdById) != d.assignedToId then
      Some(Draft(d.createdById, d.id, "New comment on your drift",
                 DisplayName(author) + " commented on your drift #" + IntToString(d.id) + ": " + d.title))
    else
      None
  }

  /** `create_comment_notification`, with its early return. */
  method CreateCommentNotification(db: Database, d: Drift, author: User) returns (n: Option<Notification>)
    modifies db`notifications, db`nextNotificationId
    ensures n.None? <==> CommentDraft(d, author).None?
    ensures n.Some? ==> DraftOf(n.value) == CommentDraft(d, author).value && !n.value.isRead
    ensures db.notifications == old(db.notifications) + (if n.Some? then [n.value] else [])
  {
    if IsSetId(d.assignedToId) && d.assignedToId.value != author.id {
      var created := CreateNotification(db, d.assignedToId.value, d.id, "New comment on assigned drift",
                                        DisplayName(author) + " commented on drift #" + IntToString(d.id) + ": " + d.title);
      return Some(created);
    }
    if d.createdById != author.id && Some(d.createdById) != d.assignedToId {
      var created := CreateNotification(db, d.createdById, d.id, "New comment on your drift",
                                        DisplayName(author) + " commented on your drift #" + IntToString(d.id) + ": " + d.title);
      return Some(created);
    }
    return None;
  }

  // ---------------------------------------------------------------------------
  // Read state

  function Owned(nid: int, uid: int): Notification -> bool {
    (n: Notification) => n.id == nid && n.userId == uid
  }

  function UnreadOf(uid: int): Notification -> bool {
    (n: Notification) => n.userId == uid && !n.isRead
  }

  /** `mark_notification_read`: true, and that row read, exactly when a row with this id belongs
      to this user; otherwise false and the table unchanged. */
  method MarkNotificationRead(db: Database, nid: int, uid: int) returns (ok: bool)
    modifies db`notifications
    ensures ok <==> exists i :: 0 <= i < |old(db.notifications)| && Owned(nid, uid)(old(db.notifications)[i])
    ensures !ok ==> db.notifications == old(db.notifications)
    ensures ok ==>
      var i := FindFirst(old(db.notifications), Owned(nid, uid)).value;
      db.notifications == old(db.notifications)[i := old(db.notifications)[i].(isRead := true)]
  {
    var found := FindFirst(db.notifications, Owned(nid, uid));
    if found.Some? {
      var i := found.value;
      db.notifications := db.notifications[i := db.notifications[i].(isRead := true)];
      return true;
    }
    return false;
  }

  /** A row marked read by a bulk update; `stamp` is the `read_at` written, if any. */
  function MarkedRead(n: Notification, stamp: Option<int>): Notification {
    n.(isRead := true, readAt := if stamp.Some? then stamp else n.readAt)
  }

  /** The table after `UPDATE … SET is_read = true WHERE user_id = uid AND is_read = false`. */
  function MarkAllFor(rows: seq<Notification>, uid: int, stamp: Option<int>): (r: seq<Notification>)
    ensures |r| == |rows|
  {
    if rows == [] then []
    else [if UnreadOf(uid)(rows[0]) then MarkedRead(rows[0], stamp) else rows[0]]
         + MarkAllFor(rows[1..], uid, stamp)
  }

  /** The bulk update touches exactly the user's unread rows, leaves every row in place, makes
      the user's unread count zero and keeps every other user's unread count. */
  lemma {:induction false} MarkAllForEffect(rows: seq<Notification>, uid: int, stamp: Option<int>)
    ensures var r := MarkAllFor(rows, uid, stamp);
      && (forall i :: 0 <= i < |rows| && UnreadOf(uid)(rows[i]) ==> r[i] == MarkedRead(rows[i], stamp))
      && (forall i :: 0 <= i < |rows| && !UnreadOf(uid)(rows[i]) ==> r[i] == rows[i])
      && GetUnreadNotificationCount(r, uid) == 0
      && (forall v :: v != uid ==> GetUnreadNotificationCount(r, v) == GetUnreadNotificationCount(rows, v))
  {
    if rows != [] {
      MarkAllForEffect(rows[1..], uid, stamp);
      var r := MarkAllFor(rows, uid, stamp);
      assert r[1..] == MarkAllFor(rows[1..], uid, stamp);
      forall i | 0 < i < |rows|
        ensures r[i] == (if UnreadOf(uid)(rows[i]) then MarkedRead(rows[i], stamp) else rows[i])
      {
        assert r[i] == r[1..][i - 1];
        assert rows[i] == rows[1..][i - 1];
      }
    }
  }

  /** `mark_all_notifications_read`: every unread row of the user becomes read; the count
      returned is how many there were. */
  method MarkAllNotificationsRead(db: Database, uid: int) returns (count: nat)
    modifies db`notifications
    ensures count == GetUnreadNotificationCount(old(db.notifications), uid)
    ensures db.notifications == MarkAllFor(old(db.notifications), uid, None)
  {
    count := GetUnreadNotificationCount(db.notifications, uid);
    db.notifications := MarkAllFor(db.notifications, uid, None);
  }

  /** `get_unread_notification_count`: how many of the user's rows are unread. */
  function GetUnreadNotificationCount(rows: seq<Notification>, uid: int): (n: nat)
    ensures n == |Filter(rows, UnreadOf(uid))|
    ensures n <= |rows|
  {
    if rows == [] then 0
    else (if UnreadOf(uid)(rows[0]) then 1 else 0) + GetUnreadNotificationCount(rows[1..], uid)
  }

  // ---------------------------------------------------------------------------
  // Cleanup

  function IsStale(cutoff: int): Notification -> bool {
    (n: Notification) => n.isRead && n.readAt.Some? && n.readAt.value < cutoff
  }

  function IsKept(cutoff: int): Notification -> bool {
    (n: Notification) => !(n.isRead && n.readAt.Some? && n.readAt.value < cutoff)
  }

  const SecondsPerDay: int := 86400

  /** `cleanup_old_notifications`: deletes exactly the read rows whose `read_at` is before
      `now - daysOld` days and returns how many were deleted. A row read without a `read_at`
      stamp is never deleted. */
  method CleanupOldNotifications(db: Database, now: int, daysOld: int) returns (count: nat)
    modifies db`notifications
    ensures var cutoff := now - daysOld * SecondsPerDay;
      && db.notifications == Filter(old(db.notifications), IsKept(cutoff))
      && count == |Filter(old(db.notifications), IsStale(cutoff))|
      && count == |old(db.notifications)| - |db.notifications|
  {
    var cutoff := now - daysOld * SecondsPerDay;
    count := |Filter(db.notifications, IsStale(cutoff))|;
    FilterPartition(db.notifications, IsStale(cutoff), IsKept(cutoff));
    db.notifications := Filter(db.notifications, IsKept(cutoff));
  }
}
