/** frontend/src/hooks/useNotifications.js: the client's copy of the signed-in user's
    notifications and unread count, and the four callbacks that refresh and update them. Each
    awaited API call is a parameter: the value it resolved with, or the error it threw. */
module UseNotifications {
  import opened Common
  import opened ApiClient

  /** A notification as the list endpoint sends it: the `id` and `is_read` the hook looks at, and
      every other property, which the hook only carries along. */
  datatype ClientNotification = ClientNotification(id: int, isRead: bool, rest: map<string, JsValue>)

  /** The answer of the list endpoint; a property the body lacks is `None`. */
  datatype ListAnswer = ListAnswer(notifications: Option<seq<ClientNotification>>, unreadCount: Option<int>)

  const FetchFailed := "Failed to fetch notifications"
  const MarkFailed := "Failed to mark notification as read"
  const MarkAllFailed := "Failed to mark all notifications as read"

  /** The list after a successful mark-read of `id`: that id's entries flagged read, all else as
      it was. */
  function MarkRead(s: seq<ClientNotification>, id: int): (r: seq<ClientNotification>)
    ensures |r| == |s|
    ensures forall k :: 0 <= k < |s| ==> r[k].id == s[k].id && r[k].rest == s[k].rest
    ensures forall k :: 0 <= k < |s| ==> r[k].isRead == (s[k].isRead || s[k].id == id)
  {
    if s == [] then []
    else [if s[0].id == id then s[0].(isRead := true) else s[0]] + MarkRead(s[1..], id)
  }

  /** The list after a successful mark-all: every entry flagged read, all else as it was. */
  function MarkAll(s: seq<ClientNotification>): (r: seq<ClientNotification>)
    ensures |r| == |s|
    ensures forall k :: 0 <= k < |s| ==> r[k] == s[k].(isRead := true)
  {
    if s == [] then [] else [s[0].(isRead := true)] + MarkAll(s[1..])
  }

  /** The number of unread entries the list actually holds. */
  function CountUnread(s: seq<ClientNotification>): (n: nat)
    ensures n <= |s|
  {
    if s == [] then 0 else (if s[0].isRead then 0 else 1) + CountUnread(s[1..])
  }

  predicate DistinctIds(s: seq<ClientNotification>) {
    forall i, j :: 0 <= i < j < |s| ==> s[i].id != s[j].id
  }

  /** Marking an id that no unread entry has leaves the list as it was. */
  lemma {:induction false} MarkReadNoUnread(s: seq<ClientNotification>, id: int)
    requires forall k :: 0 <= k < |s| && s[k].id == id ==> s[k].isRead
    ensures MarkRead(s, id) == s
  {
    if s != [] {
      MarkReadNoUnread(s[1..], id);
    }
  }

  /** With distinct ids, a mark-read removes exactly one unread entry when the id is there unread,
      and none otherwise; the hook's count drops by one in both cases, floored at zero, so it
      drifts from the list whenever the entry was absent or already read. */
  lemma {:induction false} MarkReadCount(s: seq<ClientNotification>, id: int)
    requires DistinctIds(s)
    ensures (exists k :: 0 <= k < |s| && s[k].id == id && !s[k].isRead) ==>
      CountUnread(MarkRead(s, id)) == CountUnread(s) - 1
    ensures (forall k :: 0 <= k < |s| && s[k].id == id ==> s[k].isRead) ==>
      CountUnread(MarkRead(s, id)) == CountUnread(s)
  {
    if s != [] {
      assert DistinctIds(s[1..]) by {
        forall i, j | 0 <= i < j < |s[1..]| ensures s[1..][i].id != s[1..][j].id {
          assert s[1..][i] == s[i + 1] && s[1..][j] == s[j + 1];
        }
      }
      MarkReadCount(s[1..], id);
      if s[0].id == id {
        assert forall k :: 0 <= k < |s[1..]| ==> s[1..][k].id != id by {
          forall k | 0 <= k < |s[1..]| ensures s[1..][k].id != id {
            assert s[1..][k] == s[k + 1];
          }
        }
        MarkReadNoUnread(s[1..], id);
      } else {
        if exists k :: 0 <= k < |s| && s[k].id == id && !s[k].isRead {
          var k :| 0 <= k < |s| && s[k].id == id && !s[k].isRead;
          assert s[1..][k - 1] == s[k];
        }
        if forall k :: 0 <= k < |s| && s[k].id == id ==> s[k].isRead {
          assert forall k :: 0 <= k < |s[1..]| && s[1..][k].id == id ==> s[1..][k].isRead by {
            forall k | 0 <= k < |s[1..]| && s[1..][k].id == id ensures s[1..][k].isRead {
              assert s[1..][k] == s[k + 1];
            }
          }
        }
      }
    }
  }

  /** After a mark-all the list holds no unread entry, and a second mark-all changes nothing. */
  lemma {:induction false} MarkAllSettles(s: seq<ClientNotification>)
    ensures CountUnread(MarkAll(s)) == 0
    ensures MarkAll(MarkAll(s)) == MarkAll(s)
  {
    if s != [] {
      MarkAllSettles(s[1..]);
      assert MarkAll(s)[1..] == MarkAll(s[1..]);
    }
  }

  /** Marking the same id twice is the same as marking it once. */
  lemma MarkReadIdempotent(s: seq<ClientNotification>, id: int)
    ensures MarkRead(MarkRead(s, id), id) == MarkRead(s, id)
  {
    var once := MarkRead(s, id);
    MarkReadNoUnread(once, id);
  }

  /** The hook's state cells. */
  class NotificationsState {
    var notifications: seq<ClientNotification>
    var unreadCount: int
    var loading: bool
    var error: JsValue

    /** The initial state: no notifications, a zero count, not loading, no error. */
    constructor()
      ensures notifications == [] && unreadCount == 0 && !loading && error == Null
    {
      notifications := [];
      unreadCount := 0;
      loading := false;
      error := Null;
    }

    /** `fetchNotifications`: the answer's list and count replace the state, a missing list or
        count reading as empty or zero; a failure keeps both and records the message. Loading
        is over either way. */
    method FetchNotifications(outcome: Settled<ListAnswer>)
      modifies this
      ensures !loading
      ensures outcome.Resolved? ==>
        && notifications == (if outcome.value.notifications.Some? then outcome.value.notifications.value else [])
        && unreadCount == (if outcome.value.unreadCount.Some? then outcome.value.unreadCount.value else 0)
        && error == Null
      ensures outcome.Rejected? ==>
        && notifications == old(notifications) && unreadCount == old(unreadCount)
        && error == Or(outcome.reason.message, Str(FetchFailed))
    {
      loading := true;
      error := Null;
      match outcome {
        case Resolved(answer) =>
          notifications := if answer.notifications.Some? then answer.notifications.value else [];
          unreadCount := if answer.unreadCount.Some? then answer.unreadCount.value else 0;
        case Rejected(err) =>
          error := Or(err.message, Str(FetchFailed));
      }
      loading := false;
    }

    /** `fetchUnreadCount`: the answer's count, or zero when it has none; a failure is only logged,
        so nothing changes. */
    method FetchUnreadCount(outcome: Settled<Option<int>>)
      modifies this`unreadCount
      ensures outcome.Resolved? ==> unreadCount == (if outcome.value.Some? then outcome.value.value else 0)
      ensures outcome.Rejected? ==> unreadCount == old(unreadCount)
    {
      if outcome.Resolved? {
        unreadCount := if outcome.value.Some? then outcome.value.value else 0;
      }
    }

    /** `markAsRead(id)`: on success the entries with that id are flagged read and the count goes
        down by one, never below zero, whatever the list held; on failure only the error changes. */
    method MarkAsRead(id: int, outcome: Settled<JsValue>)
      modifies this`notifications, this`unreadCount, this`error
      ensures outcome.Resolved? ==>
        && notifications == MarkRead(old(notifications), id)
        && unreadCount == (if old(unreadCount) - 1 > 0 then old(unreadCount) - 1 else 0)
        && error == old(error)
      ensures outcome.Resolved? ==> unreadCount >= 0 && unreadCount <= if old(unreadCount) > 0 then old(unreadCount) else 0
      ensures outcome.Rejected? ==>
        && notifications == old(notifications) && unreadCount == old(unreadCount)
        && error == Or(outcome.reason.message, Str(MarkFailed))
    {
      match outcome
      case Resolved(_) =>
        notifications := MarkRead(notifications, id);
        unreadCount := if unreadCount - 1 > 0 then unreadCount - 1 else 0;
      case Rejected(err) =>
        error := Or(err.message, Str(MarkFailed));
    }

    /** `markAllAsRead`: on success every entry is flagged read and the count is zero; on failure
        only the error changes. */
    method MarkAllAsRead(outcome: Settled<JsValue>)
      modifies this`notifications, this`unreadCount, this`error
      ensures outcome.Resolved? ==>
        notifications == MarkAll(old(notifications)) && unreadCount == 0 && error == old(error)
      ensures outcome.Resolved? ==> CountUnread(notifications) == 0
      ensures outcome.Rejected? ==>
        && notifications == old(notifications) && unreadCount == old(unreadCount)
        && error == Or(outcome.reason.message, Str(MarkAllFailed))
    {
      match outcome
      case Resolved(_) =>
        notifications := MarkAll(notifications);
        unreadCount := 0;
        MarkAllSettles(old(notifications));
      case Rejected(err) =>
        error := Or(err.message, Str(MarkAllFailed));
    }
  }

  /** Every message a failed callback records is truthy, so the error is visible. */
  lemma FailureMessagesShow(err: ApiError)
    ensures Truthy(Or(err.message, Str(FetchFailed)))
    ensures Truthy(Or(err.message, Str(MarkFailed)))
    ensures Truthy(Or(err.message, Str(MarkAllFailed)))
  {
  }
}
