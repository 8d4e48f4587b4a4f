/** The notification bell of the page header (src/components/layout/Header.js): which
    notifications the signed-in user sees, the unread badge, the dropdown, the relative-time
    labels and "Mark all as read". `currentUserId` is `user?.id`, absent when nobody is signed in;
    the age of a notification (`now - createdAt`, in milliseconds) is handed in. */
module Header {
  import opened Wrappers
  import opened Seqs
  import opened Text
  import opened Tasks

  // ---------------------------------------------------------------------------
  // Visible notifications and the badge

  /** `!notification.userId`: an absent or zero user id addresses everybody. */
  predicate IsBroadcast(n: Notification)
  {
    n.userId.None? || n.userId.value == 0
  }

  /** `!notification.userId || notification.userId === user?.id`. */
  function VisibleTo(currentUserId: Option<int>): Notification -> bool
  {
    (n: Notification) => IsBroadcast(n) || n.userId == currentUserId
  }

  function NotificationKey(n: Notification): int { n.id }

  /** `userNotifications`: the broadcasts and the notifications addressed to the user, in order. */
  function UserNotifications(ns: seq<Notification>, currentUserId: Option<int>): (r: seq<Notification>)
    ensures forall n :: n in r <==> n in ns && (IsBroadcast(n) || n.userId == currentUserId)
    ensures IsSubsequence(r, ns)
    ensures currentUserId.None? ==> forall n :: n in r ==> IsBroadcast(n)
  {
    FilterIsSubsequence(ns, VisibleTo(currentUserId));
    Filter(ns, VisibleTo(currentUserId))
  }

  /** `unreadCount`. */
  function UnreadCount(ns: seq<Notification>, currentUserId: Option<int>): (c: nat)
    ensures var visible := UserNotifications(ns, currentUserId);
      c == |set i | 0 <= i < |visible| && !visible[i].read|
    ensures c <= |UserNotifications(ns, currentUserId)|
    ensures c == 0 <==> forall n :: n in UserNotifications(ns, currentUserId) ==> n.read
  {
    var visible := UserNotifications(ns, currentUserId);
    var unread := Filter(visible, IsUnread);
    assert unread != [] ==> unread[0] in unread;
    FilterCountsPositions(visible, IsUnread);
    assert Positions(visible, IsUnread) == set i | 0 <= i < |visible| && !visible[i].read;
    |unread|
  }

  datatype Badge = NoBadge | BadgeText(text: string)

  /** `unreadCount > 0 && (unreadCount > 9 ? '9+' : unreadCount)`. */
  function BadgeFor(count: nat): (b: Badge)
    ensures b.NoBadge? <==> count == 0
    ensures count > 9 ==> b == BadgeText("9+")
    ensures 0 < count <= 9 ==> |b.text| == 1 && AllDigits(b.text) && DigitsValue(b.text) == count
  {
    DigitsValueOfNatToString(count);
    if count == 0 then NoBadge
    else if count > 9 then BadgeText("9+")
    else BadgeText(IntToString(count))
  }

  // ---------------------------------------------------------------------------
  // The dropdown

  datatype Dropdown = Dropdown(items: seq<Notification>, markAllShown: bool, viewAllShown: bool)

  /** The open dropdown: the first ten visible notifications, the "Mark all as read" button when
      there is any, and the "View all" link when some did not fit. */
  function DropdownFor(ns: seq<Notification>, currentUserId: Option<int>): (d: Dropdown)
    ensures |d.items| <= 10 && |d.items| <= |UserNotifications(ns, currentUserId)|
    ensures d.items == UserNotifications(ns, currentUserId)[..|d.items|]
    ensures |d.items| == 10 || d.items == UserNotifications(ns, currentUserId)
    ensures d.viewAllShown <==> |d.items| < |UserNotifications(ns, currentUserId)|
    ensures d.markAllShown <==> d.items != []
  {
    var visible := UserNotifications(ns, currentUserId);
    Dropdown(Take(visible, 10), |visible| > 0, |visible| > 10)
  }

  // ---------------------------------------------------------------------------
  // Relative time

  /** `${count} ${unit}${count > 1 ? 's' : ''} ago`. */
  function Phrase(count: int, unit: string): string
  {
    IntToString(count) + " " + unit + (if count > 1 then "s" else "") + " ago"
  }

  /** Flooring seconds, then minutes, then hours, is flooring the milliseconds once by the
      length of the unit. */
  lemma FloorChain(ms: int)
    ensures ms / 1000 / 60 == ms / 60000
    ensures ms / 1000 / 60 / 60 == ms / 3600000
    ensures ms / 1000 / 60 / 60 / 24 == ms / 86400000
  {
    var sec := ms / 1000;
    assert ms == 1000 * sec + ms % 1000;
    var min := sec / 60;
    assert sec == 60 * min + sec % 60;
    assert ms == 60000 * min + (1000 * (sec % 60) + ms % 1000);
    var hour := min / 60;
    assert min == 60 * hour + min % 60;
    assert ms == 3600000 * hour + (60000 * (min % 60) + 1000 * (sec % 60) + ms % 1000);
    var day := hour / 24;
    assert hour == 24 * day + hour % 24;
    assert ms == 86400000 * day + (3600000 * (hour % 24) + 60000 * (min % 60) + 1000 * (sec % 60) + ms % 1000);
  }

  /** `getRelativeTime` for a notification `ms` milliseconds old: the largest unit with a
      positive count, or "Just now" under a minute (also for a time in the future). */
  function RelativeTime(ms: int): (r: string)
    ensures r == "Just now" <==> ms < 60000
    ensures ms >= 86400000 ==> r == Phrase(ms / 86400000, "day")
    ensures 3600000 <= ms < 86400000 ==> r == Phrase(ms / 3600000, "hour")
    ensures 60000 <= ms < 3600000 ==> r == Phrase(ms / 60000, "minute")
  {
    FloorChain(ms);
    var diffSec := ms / 1000;
    var diffMin := diffSec / 60;
    var diffHour := diffMin / 60;
    var diffDay := diffHour / 24;
    var r := if diffDay > 0 then Phrase(diffDay, "day")
      else if diffHour > 0 then Phrase(diffHour, "hour")
      else if diffMin > 0 then Phrase(diffMin, "minute")
      else "Just now";
    assert diffMin > 0 ==> r[0] == NatToString(if diffDay > 0 then diffDay else if diffHour > 0 then diffHour else diffMin)[0];
    r
  }

  /** The unit takes an "s" only for counts above one. */
  lemma RelativeTimeMinutes()
    ensures RelativeTime(59999) == "Just now"
    ensures RelativeTime(60000) == "1 minute ago"
    ensures RelativeTime(150000) == "2 minutes ago"
  {
    assert IntToString(1) == "1" && IntToString(2) == "2";
  }

  lemma RelativeTimeHoursAndDays()
    ensures RelativeTime(3600000) == "1 hour ago"
    ensures RelativeTime(3 * 86400000) == "3 days ago"
  {
    assert IntToString(1) == "1" && IntToString(3) == "3";
  }

  // ---------------------------------------------------------------------------
  // Mark all as read

  /** The list once every visible notification is marked read. */
  function MarkVisible(ns: seq<Notification>, currentUserId: Option<int>): (r: seq<Notification>)
    ensures |r| == |ns|
    ensures forall i :: 0 <= i < |ns| ==> r[i] == if VisibleTo(currentUserId)(ns[i]) then MarkRead(ns[i]) else ns[i]
  {
    seq(|ns|, i requires 0 <= i < |ns| => if VisibleTo(currentUserId)(ns[i]) then MarkRead(ns[i]) else ns[i])
  }

  /** After "Mark all as read" nothing the user sees is unread. */
  lemma MarkVisibleClearsUnread(ns: seq<Notification>, currentUserId: Option<int>)
    ensures UnreadCount(MarkVisible(ns, currentUserId), currentUserId) == 0
  {
    var m := MarkVisible(ns, currentUserId);
    forall n | n in UserNotifications(m, currentUserId) ensures n.read {
      var i :| 0 <= i < |m| && m[i] == n;
    }
  }

  /** ... and it removes none of them. */
  lemma {:induction false} MarkVisibleKeepsVisible(ns: seq<Notification>, currentUserId: Option<int>)
    ensures |UserNotifications(MarkVisible(ns, currentUserId), currentUserId)| == |UserNotifications(ns, currentUserId)|
  {
    if ns != [] {
      var m := MarkVisible(ns, currentUserId);
      assert m[1..] == MarkVisible(ns[1..], currentUserId);
      assert m == [m[0]] + m[1..] && ns == [ns[0]] + ns[1..];
      FilterCons(m[0], m[1..], VisibleTo(currentUserId));
      FilterCons(ns[0], ns[1..], VisibleTo(currentUserId));
      MarkVisibleKeepsVisible(ns[1..], currentUserId);
    }
  }

  /** Only `read` flags differ between the two lists. */
  ghost predicate OnlyReadChanged(original: seq<Notification>, current: seq<Notification>)
  {
    |current| == |original| &&
    forall i :: 0 <= i < |original| ==> current[i] == original[i] || current[i] == MarkRead(original[i])
  }

  /** Exactly the notifications whose id is in `marked` are marked. */
  ghost predicate MarkedBy(original: seq<Notification>, current: seq<Notification>, marked: set<int>)
  {
    |current| == |original| &&
    forall i :: 0 <= i < |original| ==>
      current[i] == if original[i].id in marked then MarkRead(original[i]) else original[i]
  }

  /** The ids of a list. */
  ghost function IdsOf(vs: seq<Notification>): set<int>
  {
    set j | 0 <= j < |vs| :: vs[j].id
  }

  /** `markNotificationAsRead` only ever sets a `read` flag. */
  lemma OnlyReadStep(original: seq<Notification>, current: seq<Notification>, id: int)
    requires OnlyReadChanged(original, current)
    ensures OnlyReadChanged(original, UpdateFirst(current, NotificationHasId(id), MarkRead))
  {
  }

  /** One `markNotificationAsRead(id)` on a list with unique ids marks the notification with that
      id, so the ids marked so far grow by one. */
  lemma MarkStep(original: seq<Notification>, current: seq<Notification>, marked: set<int>, id: int)
    requires UniqueBy(original, NotificationKey) && MarkedBy(original, current, marked)
    ensures MarkedBy(original, UpdateFirst(current, NotificationHasId(id), MarkRead), marked + {id})
  {
    var f := FirstIndex(current, NotificationHasId(id));
    assert forall i :: 0 <= i < |original| ==> current[i].id == original[i].id;
    forall i | 0 <= i < |original|
      ensures UpdateFirst(current, NotificationHasId(id), MarkRead)[i] ==
        if original[i].id in marked + {id} then MarkRead(original[i]) else original[i]
    {
      if i != f && original[i].id == id {
        assert f != -1 && original[f].id == id;
      }
    }
  }

  /** With unique ids, a notification's id is among the visible ids exactly when it is visible. */
  lemma VisibleIdIff(original: seq<Notification>, currentUserId: Option<int>, i: int)
    requires UniqueBy(original, NotificationKey) && 0 <= i < |original|
    ensures original[i].id in IdsOf(UserNotifications(original, currentUserId)) <==> VisibleTo(currentUserId)(original[i])
  {
    var visible := UserNotifications(original, currentUserId);
    if VisibleTo(currentUserId)(original[i]) {
      assert original[i] in visible;
      var j :| 0 <= j < |visible| && visible[j] == original[i];
    }
    if original[i].id in IdsOf(visible) {
      var j :| 0 <= j < |visible| && visible[j].id == original[i].id;
      assert visible[j] in original;
      var i' :| 0 <= i' < |original| && original[i'] == visible[j];
    }
  }

  /** With unique ids, marking the ids of the visible notifications marks exactly those. */
  lemma MarkedVisibleIds(original: seq<Notification>, current: seq<Notification>, currentUserId: Option<int>)
    requires UniqueBy(original, NotificationKey)
    requires MarkedBy(original, current, IdsOf(UserNotifications(original, currentUserId)))
    ensures current == MarkVisible(original, currentUserId)
  {
    var m := MarkVisible(original, currentUserId);
    forall i | 0 <= i < |original| ensures current[i] == m[i] {
      VisibleIdIff(original, currentUserId, i);
    }
  }

  /** One turn of the loop in `handleClearAll` keeps both of its invariants. */
  lemma ClearStep(original: seq<Notification>, current: seq<Notification>, visible: seq<Notification>, k: int)
    requires 0 <= k < |visible|
    requires OnlyReadChanged(original, current)
    requires UniqueBy(original, NotificationKey) ==> MarkedBy(original, current, IdsOf(visible[..k]))
    ensures OnlyReadChanged(original, UpdateFirst(current, NotificationHasId(visible[k].id), MarkRead))
    ensures UniqueBy(original, NotificationKey) ==>
      MarkedBy(original, UpdateFirst(current, NotificationHasId(visible[k].id), MarkRead), IdsOf(visible[..k + 1]))
  {
    OnlyReadStep(original, current, visible[k].id);
    if UniqueBy(original, NotificationKey) {
      MarkStep(original, current, IdsOf(visible[..k]), visible[k].id);
      assert visible[..k + 1][..k] == visible[..k];
      assert IdsOf(visible[..k + 1]) == IdsOf(visible[..k]) + {visible[k].id} by {
        assert visible[..k + 1][k] == visible[k];
      }
    }
  }

  /** `handleClearAll`: dispatch `markNotificationAsRead` for each visible notification in turn.
      The store's reducer marks the first notification with the id, so the exact outcome is
      guaranteed when ids are unique (they come from the clock); in any case only `read` flags
      change. */
  method ClearAll(store: TasksStore, currentUserId: Option<int>)
    modifies store
    ensures OnlyReadChanged(old(store.notifications), store.notifications)
    ensures UniqueBy(old(store.notifications), NotificationKey) ==>
      store.notifications == MarkVisible(old(store.notifications), currentUserId)
    ensures store.tasks == old(store.tasks) && store.loading == old(store.loading)
    ensures store.error == old(store.error) && store.filters == old(store.filters)
  {
    var visible := UserNotifications(store.notifications, currentUserId);
    ghost var original := store.notifications;
    var k := 0;
    assert IdsOf(visible[..0]) == {};
    assert MarkedBy(original, store.notifications, {});
    while k < |visible|
      invariant 0 <= k <= |visible|
      invariant OnlyReadChanged(original, store.notifications)
      invariant UniqueBy(original, NotificationKey) ==> MarkedBy(original, store.notifications, IdsOf(visible[..k]))
      invariant store.tasks == old(store.tasks) && store.loading == old(store.loading)
      invariant store.error == old(store.error) && store.filters == old(store.filters)
    {
      ClearStep(original, store.notifications, visible, k);
      store.MarkNotificationAsRead(visible[k].id);
      k := k + 1;
    }
    assert visible[..k] == visible;
    if UniqueBy(original, NotificationKey) {
      MarkedVisibleIds(original, store.notifications, currentUserId);
    }
  }
}
