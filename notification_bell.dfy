/** frontend/src/components/Notifications/NotificationBell.jsx: the bell in the header, its
    unread badge, the relative times of the dropdown's entries, which mark-read controls it
    offers, and whether the dropdown is open. The clock and the browser's date formatting are
    parameters. */
module NotificationBell {
  import opened Common
  import opened ApiClient
  import opened UseNotifications

  const Overflow := "99+"
  const JustNow := "Just now"

  /** Milliseconds in a minute, an hour and a day. */
  const Minute := 60000
  const Hour := 3600000
  const Day := 86400000

  /** The badge on the bell: none unless the count is positive, the count itself up to 99 and
      "99+" above. */
  function Badge(unreadCount: int): (r: Option<string>)
    ensures r.Some? <==> unreadCount > 0
    ensures unreadCount > 99 ==> r == Some(Overflow)
    ensures 0 < unreadCount <= 99 ==> r == Some(NatToString(unreadCount))
  {
    if unreadCount <= 0 then None
    else if unreadCount > 99 then Some(Overflow)
    else Some(NatToString(unreadCount))
  }

  /** A number below a hundred is written with at most two digits. */
  lemma TwoDigits(n: nat)
    requires n < 100
    ensures |NatToString(n)| <= 2
  {
    if n >= 10 {
      assert NatToString(n) == NatToString(n / 10) + [DigitChar(n % 10)];
    }
  }

  /** The badge never holds more than three characters, and it is shown exactly when the
      dropdown offers "Mark all as read". */
  lemma BadgeFits(unreadCount: int)
    ensures Badge(unreadCount).Some? ==> 1 <= |Badge(unreadCount).value| <= 3
    ensures Badge(unreadCount).Some? <==> ShowsMarkAll(unreadCount)
  {
    if 0 < unreadCount <= 99 {
      TwoDigits(unreadCount);
    }
  }

  /** `formatDate`, given `diff = now - date` in milliseconds: "Just now" under a minute (a date
      in the future included), whole minutes under an hour, whole hours under a day, and the
      browser's date text, `localeDate`, otherwise. */
  function FormatDate(diff: int, localeDate: string): (r: string)
    ensures diff < Minute ==> r == JustNow
    ensures Minute <= diff < Hour ==>
      |r| >= 6 && r[|r| - 5..] == "m ago" && forall i :: 0 <= i < |r| - 5 ==> '0' <= r[i] <= '9'
    ensures Hour <= diff < Day ==>
      |r| >= 6 && r[|r| - 5..] == "h ago" && forall i :: 0 <= i < |r| - 5 ==> '0' <= r[i] <= '9'
    ensures Day <= diff ==> r == localeDate
  {
    if diff < Minute then JustNow
    else if diff < Hour then NatToString(diff / Minute) + "m ago"
    else if diff < Day then NatToString(diff / Hour) + "h ago"
    else localeDate
  }

  /** The buckets of `formatDate`: a minute count is between 1 and 59 and is the number of whole
      minutes elapsed, an hour count between 1 and 23 and the number of whole hours. */
  lemma FormatDateBuckets(diff: int, localeDate: string)
    ensures diff < Minute ==> FormatDate(diff, localeDate) == JustNow
    ensures Minute <= diff < Hour ==>
      exists m :: 1 <= m <= 59 && m * Minute <= diff < (m + 1) * Minute
        && FormatDate(diff, localeDate) == NatToString(m) + "m ago"
    ensures Hour <= diff < Day ==>
      exists h :: 1 <= h <= 23 && h * Hour <= diff < (h + 1) * Hour
        && FormatDate(diff, localeDate) == NatToString(h) + "h ago"
    ensures Day <= diff ==> FormatDate(diff, localeDate) == localeDate
  {
    if Minute <= diff < Hour {
      var m := diff / Minute;
      assert m * Minute <= diff < (m + 1) * Minute;
      assert 1 <= m <= 59;
      assert FormatDate(diff, localeDate) == NatToString(m) + "m ago";
    }
    if Hour <= diff < Day {
      var h := diff / Hour;
      assert h * Hour <= diff < (h + 1) * Hour;
      assert 1 <= h <= 23;
      assert FormatDate(diff, localeDate) == NatToString(h) + "h ago";
    }
  }

  /** The dropdown's "Mark all as read" control. */
  predicate ShowsMarkAll(unreadCount: int) {
    unreadCount > 0
  }

  /** An entry's "Mark as read" control. */
  predicate ShowsMarkRead(n: ClientNotification) {
    !n.isRead
  }

  /** After a successful mark-all no entry of the bell's list offers its "Mark as read". */
  lemma MarkAllHidesControls(s: seq<ClientNotification>)
    ensures forall k :: 0 <= k < |MarkAll(s)| ==> !ShowsMarkRead(MarkAll(s)[k])
  {
  }

  /** After a successful mark-read of `id` no entry with that id offers the control, and every
      other entry offers it as before. */
  lemma MarkReadHidesControl(s: seq<ClientNotification>, id: int)
    ensures forall k :: 0 <= k < |s| ==>
      ShowsMarkRead(MarkRead(s, id)[k]) == (ShowsMarkRead(s[k]) && s[k].id != id)
  {
  }

  /** `handleMarkAllAsRead` as the program wires it. The bell calls the mark-all of its own
      instance of the notifications hook, while its badge and "Mark all as read" read the count
      the header passes down, which comes from a second instance of the hook. A success settles
      the bell's list, but the header's count, and so the badge and that control, stay as they
      were until the header's next poll. */
  method HandleMarkAllAsRead(bell: NotificationsState, header: NotificationsState, outcome: Settled<JsValue>)
    requires bell != header
    modifies bell`notifications, bell`unreadCount, bell`error
    ensures outcome.Resolved? ==> CountUnread(bell.notifications) == 0 && bell.unreadCount == 0
    ensures header.unreadCount == old(header.unreadCount)
    ensures Badge(header.unreadCount) == Badge(old(header.unreadCount))
    ensures ShowsMarkAll(header.unreadCount) == ShowsMarkAll(old(header.unreadCount))
  {
    bell.MarkAllAsRead(outcome);
  }

  /** `handleMarkAsRead` as the program wires it: the entry is marked read in the bell's own
      instance of the hook, and the header's count behind the badge does not go down. */
  method HandleMarkAsRead(bell: NotificationsState, header: NotificationsState, id: int, outcome: Settled<JsValue>)
    requires bell != header
    modifies bell`notifications, bell`unreadCount, bell`error
    ensures outcome.Resolved? ==> bell.notifications == MarkRead(old(bell.notifications), id)
    ensures header.unreadCount == old(header.unreadCount)
    ensures Badge(header.unreadCount) == Badge(old(header.unreadCount))
  {
    bell.MarkAsRead(id, outcome);
  }

  /** A header that has polled a count of 5 and a bell listing one unread entry: after a
      successful mark-all from the bell no entry is unread, yet the badge still reads "5" and
      "Mark all as read" is still offered. */
  method StaleBadgeAfterMarkAll() returns (badge: Option<string>, offered: bool, unreadLeft: nat)
    ensures badge == Some("5") && offered && unreadLeft == 0
  {
    var header := new NotificationsState();
    var bell := new NotificationsState();
    header.FetchUnreadCount(Resolved(Some(5)));
    bell.FetchNotifications(Resolved(ListAnswer(Some([ClientNotification(1, false, map[])]), Some(1))));
    HandleMarkAllAsRead(bell, header, Resolved(Null));
    badge := Badge(header.unreadCount);
    offered := ShowsMarkAll(header.unreadCount);
    unreadLeft := CountUnread(bell.notifications);
    assert NatToString(5) == "5";
  }

  /** The evident intent: the badge and "Mark all as read" read the count of the same hook
      instance whose mark-all the bell calls. A success then leaves no badge and no mark-read
      control of either kind; a failure leaves the badge as it was. */
  method HandleMarkAllAsReadShared(hook: NotificationsState, outcome: Settled<JsValue>)
    modifies hook`notifications, hook`unreadCount, hook`error
    ensures outcome.Resolved? ==>
      && Badge(hook.unreadCount) == None && !ShowsMarkAll(hook.unreadCount)
      && forall k :: 0 <= k < |hook.notifications| ==> !ShowsMarkRead(hook.notifications[k])
    ensures outcome.Rejected? ==> Badge(hook.unreadCount) == Badge(old(hook.unreadCount))
  {
    hook.MarkAllAsRead(outcome);
    if outcome.Resolved? {
      MarkAllHidesControls(old(hook.notifications));
    }
  }

  /** The bell's own state cell. */
  class BellState {
    var isOpen: bool

    /** The dropdown starts closed. */
    constructor()
      ensures !isOpen
    {
      isOpen := false;
    }

    /** `handleToggle`: a click on the bell opens a closed dropdown and closes an open one. */
    method HandleToggle()
      modifies this
      ensures isOpen == !old(isOpen)
    {
      isOpen := !isOpen;
    }

    /** The outside-click listener: once the dropdown's element is mounted, a mousedown outside
        it closes the dropdown; any other mousedown changes nothing. */
    method HandleClickOutside(mounted: bool, insideDropdown: bool)
      modifies this
      ensures mounted && !insideDropdown ==> !isOpen
      ensures !(mounted && !insideDropdown) ==> isOpen == old(isOpen)
    {
      if mounted && !insideDropdown {
        isOpen := false;
      }
    }
  }
}
