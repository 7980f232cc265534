/** The notification store (src/store/notificationStore.ts) and the toast that
    shows the newest unread notification for the logged-in user's role
    (src/components/ToastNotification.tsx). Ids and the clock are parameters;
    the 30-second auto-removal timer is the explicit operation `AutoRemove`. */
module Notifications {
  import opened Types
  import opened Seqs

  /** What a caller hands to `addNotification`: a notification without id, time or read flag. */
  datatype NotificationDraft = NotificationDraft(
    kind: NotificationType,
    title: string,
    message: string,
    orderId: Option<string>,
    targetRole: Option<UserRole>)

  /** The stored notification made from a draft: unread, with the given id and time. */
  function Fresh(d: NotificationDraft, id: string, now: int): (n: Notification)
    ensures n.id == id && n.createdAt == now && !n.read
    ensures n.kind == d.kind && n.title == d.title && n.message == d.message
    ensures n.orderId == d.orderId && n.targetRole == d.targetRole
  {
    Notification(id, d.kind, d.title, d.message, d.orderId, d.targetRole, false, now)
  }

  // Queries

  function UnreadTest(): Notification -> bool
  {
    (n: Notification) => !n.read
  }

  /** `getUnreadCount`. */
  function UnreadCount(ns: seq<Notification>): (c: nat)
    ensures c <= |ns|
  {
    |Filter(ns, UnreadTest())|
  }

  /** A notification concerns a role when it has no target or targets that role. */
  predicate ConcernsRole(n: Notification, role: UserRole)
  {
    n.targetRole.None? || n.targetRole.value == role
  }

  function ConcernsTest(role: UserRole): Notification -> bool
  {
    (n: Notification) => ConcernsRole(n, role)
  }

  /** `getNotificationsForRole`: the untargeted notifications and those for the role, in order. */
  function ForRole(ns: seq<Notification>, role: UserRole): (r: seq<Notification>)
    ensures |r| <= |ns|
    ensures forall n :: n in r <==> n in ns && (n.targetRole.None? || n.targetRole == Some(role))
  {
    Filter(ns, ConcernsTest(role))
  }

  // Updates

  /** `markAsRead`: the notifications with the id become read. */
  function MarkedRead(ns: seq<Notification>, id: string): (r: seq<Notification>)
    ensures |r| == |ns|
    ensures forall k :: 0 <= k < |r| && ns[k].id == id ==> r[k] == ns[k].(read := true)
    ensures forall k :: 0 <= k < |r| && ns[k].id != id ==> r[k] == ns[k]
  {
    seq(|ns|, k requires 0 <= k < |ns| => if ns[k].id == id then ns[k].(read := true) else ns[k])
  }

  /** `markAllAsRead`. */
  function AllRead(ns: seq<Notification>): (r: seq<Notification>)
    ensures |r| == |ns|
    ensures forall k :: 0 <= k < |r| ==> r[k] == ns[k].(read := true)
  {
    seq(|ns|, k requires 0 <= k < |ns| => ns[k].(read := true))
  }

  function OtherId(id: string): Notification -> bool
  {
    (n: Notification) => n.id != id
  }

  /** The timer's removal: every notification with the id is dropped, the rest keep their order. */
  function Without(ns: seq<Notification>, id: string): (r: seq<Notification>)
    ensures |r| <= |ns|
    ensures forall n :: n in r <==> n in ns && n.id != id
  {
    Filter(ns, OtherId(id))
  }

  class NotificationStore {
    var notifications: seq<Notification>

    constructor ()
      ensures notifications == []
    {
      notifications := [];
    }

    /** `addNotification`: the new notification goes first. */
    method Add(d: NotificationDraft, id: string, now: int)
      modifies this
      ensures notifications == [Fresh(d, id, now)] + old(notifications)
    {
      notifications := [Notification(id, d.kind, d.title, d.message, d.orderId, d.targetRole, false, now)] + notifications;
    }

    method AutoRemove(id: string)
      modifies this
      ensures notifications == Without(old(notifications), id)
    {
      notifications := Filter(notifications, OtherId(id));
    }

    method MarkAsRead(id: string)
      modifies this
      ensures notifications == MarkedRead(old(notifications), id)
    {
      notifications := MarkedRead(notifications, id);
    }

    method MarkAllAsRead()
      modifies this
      ensures notifications == AllRead(old(notifications))
    {
      notifications := AllRead(notifications);
    }

    method ClearNotifications()
      modifies this
      ensures notifications == []
    {
      notifications := [];
    }

    method GetUnreadCount() returns (c: nat)
      ensures c == UnreadCount(notifications)
    {
      c := |Filter(notifications, UnreadTest())|;
    }

    method GetNotificationsForRole(role: UserRole) returns (r: seq<Notification>)
      ensures r == ForRole(notifications, role)
    {
      r := Filter(notifications, ConcernsTest(role));
    }
  }

  // Properties of the store's operations

  /** Adding puts an unread notification in front: one more entry, one more unread. */
  lemma AddedIsNewestUnread(d: NotificationDraft, id: string, now: int, ns: seq<Notification>)
    ensures |[Fresh(d, id, now)] + ns| == |ns| + 1
    ensures UnreadCount([Fresh(d, id, now)] + ns) == UnreadCount(ns) + 1
  {
    FilterConcat([Fresh(d, id, now)], ns, UnreadTest());
    FilterSingleton(Fresh(d, id, now), UnreadTest());
  }

  /** The timer removes exactly what was added, when the id was new. */
  lemma AutoRemoveUndoesAdd(d: NotificationDraft, id: string, now: int, ns: seq<Notification>)
    requires forall k :: 0 <= k < |ns| ==> ns[k].id != id
    ensures Without([Fresh(d, id, now)] + ns, id) == ns
  {
    FilterConcat([Fresh(d, id, now)], ns, OtherId(id));
    FilterSingleton(Fresh(d, id, now), OtherId(id));
    FilterKeepsAll(ns, OtherId(id));
  }

  /** Marking twice is marking once. */
  lemma MarkedReadIdempotent(ns: seq<Notification>, id: string)
    ensures MarkedRead(MarkedRead(ns, id), id) == MarkedRead(ns, id)
  {
  }

  /** After marking all read nothing is unread, and nothing was added or dropped. */
  lemma AllReadLeavesNoneUnread(ns: seq<Notification>)
    ensures |AllRead(ns)| == |ns| && UnreadCount(AllRead(ns)) == 0
  {
    FilterKeepsNone(AllRead(ns), UnreadTest());
  }

  /** The unread count is the number of entries whose read flag is off. */
  lemma {:induction false} UnreadCountCounts(ns: seq<Notification>)
    ensures UnreadCount(ns) == Occurrences(ReadFlags(ns), false)
  {
    if ns != [] {
      UnreadCountCounts(ns[1..]);
      assert ReadFlags(ns) == [ns[0].read] + ReadFlags(ns[1..]);
      OccurrencesConcat([ns[0].read], ReadFlags(ns[1..]), false);
    }
  }

  function ReadFlags(ns: seq<Notification>): (r: seq<bool>)
    ensures |r| == |ns| && forall k :: 0 <= k < |ns| ==> r[k] == ns[k].read
  {
    seq(|ns|, k requires 0 <= k < |ns| => ns[k].read)
  }

  /** Marking an id read lowers the unread count by the number of unread entries
      with that id: by one at least when such an entry exists. */
  lemma {:induction false} MarkedReadLowersCount(ns: seq<Notification>, id: string)
    ensures UnreadCount(MarkedRead(ns, id)) <= UnreadCount(ns)
    ensures (exists k :: 0 <= k < |ns| && ns[k].id == id && !ns[k].read) ==>
      UnreadCount(MarkedRead(ns, id)) < UnreadCount(ns)
  {
    if ns != [] {
      var m := MarkedRead(ns, id);
      assert m[1..] == MarkedRead(ns[1..], id);
      MarkedReadLowersCount(ns[1..], id);
      if exists k :: 0 <= k < |ns| && ns[k].id == id && !ns[k].read {
        var k :| 0 <= k < |ns| && ns[k].id == id && !ns[k].read;
        if k > 0 {
          assert ns[1..][k - 1] == ns[k];
        }
      }
    }
  }

  /** Filtering by role keeps the newest-first order: it distributes over any split. */
  lemma ForRoleKeepsOrder(front: seq<Notification>, back: seq<Notification>, role: UserRole)
    ensures ForRole(front + back, role) == ForRole(front, role) + ForRole(back, role)
  {
    FilterConcat(front, back, ConcernsTest(role));
  }

  // The toast

  /** Position `k` holds the first unread entry. */
  predicate FirstUnreadAt(ns: seq<Notification>, k: int)
  {
    0 <= k < |ns| && !ns[k].read && forall i :: 0 <= i < k ==> ns[i].read
  }

  /** `find((n) => !n.read)`: the first unread entry, if any. */
  function FirstUnread(ns: seq<Notification>): (r: Option<Notification>)
    ensures r.None? <==> forall k :: 0 <= k < |ns| ==> ns[k].read
    ensures r.Some? ==> exists k :: FirstUnreadAt(ns, k) && ns[k] == r.value
  {
    if ns == [] then None
    else if !ns[0].read then (assert FirstUnreadAt(ns, 0); Some(ns[0]))
    else
      var r := FirstUnread(ns[1..]);
      if r.Some? then
        var k :| FirstUnreadAt(ns[1..], k) && ns[1..][k] == r.value;
        assert FirstUnreadAt(ns, k + 1);
        r
      else r
  }

  /** `userNotifications`: nothing without a logged-in user. */
  function UserNotifications(user: Option<User>, ns: seq<Notification>): (r: seq<Notification>)
    ensures user.None? ==> r == []
    ensures user.Some? ==> r == ForRole(ns, user.value.role)
  {
    if user.Some? then ForRole(ns, user.value.role) else []
  }

  /** `latestUnread`: the notification the toast shows, if any: nothing without
      a user; otherwise an unread notification that is untargeted or targeted at
      the user's role, and nothing exactly when every such notification is read. */
  function LatestUnread(user: Option<User>, ns: seq<Notification>): (r: Option<Notification>)
    ensures user.None? ==> r.None?
    ensures user.Some? ==>
      (r.None? <==> forall k :: 0 <= k < |ns| && ConcernsRole(ns[k], user.value.role) ==> ns[k].read)
    ensures r.Some? ==> user.Some? && r.value in ns && !r.value.read && ConcernsRole(r.value, user.value.role)
  {
    if user.Some? then
      ForRoleUnread(ns, user.value.role);
      FirstUnread(UserNotifications(user, ns))
    else
      FirstUnread(UserNotifications(user, ns))
  }

  /** An unread notification concerning the role is in the role's list. */
  lemma ForRoleUnread(ns: seq<Notification>, role: UserRole)
    ensures (forall k :: 0 <= k < |ForRole(ns, role)| ==> ForRole(ns, role)[k].read) ==>
      forall k :: 0 <= k < |ns| && ConcernsRole(ns[k], role) ==> ns[k].read
  {
    var mine := ForRole(ns, role);
    forall k | 0 <= k < |ns| && ConcernsRole(ns[k], role) && !ns[k].read
      ensures exists j :: 0 <= j < |mine| && !mine[j].read
    {
      assert ns[k] in mine;
    }
  }

  /** A notification just added for the user's role (or for everyone) is the one the toast shows. */
  lemma NewestIsShown(user: User, d: NotificationDraft, id: string, now: int, ns: seq<Notification>)
    requires d.targetRole.None? || d.targetRole == Some(user.role)
    ensures LatestUnread(Some(user), [Fresh(d, id, now)] + ns) == Some(Fresh(d, id, now))
  {
    var n := Fresh(d, id, now);
    ForRoleKeepsOrder([n], ns, user.role);
    FilterSingleton(n, ConcernsTest(user.role));
  }

  /** The toast's dismiss button: the shown notification is marked read. */
  function Dismissed(user: Option<User>, ns: seq<Notification>): (r: seq<Notification>)
    ensures LatestUnread(user, ns).None? ==> r == ns
    ensures LatestUnread(user, ns).Some? ==> r == MarkedRead(ns, LatestUnread(user, ns).value.id)
  {
    var shown := LatestUnread(user, ns);
    if shown.Some? then MarkedRead(ns, shown.value.id) else ns
  }

  /** Dismissing changes only entries with the shown id and leaves one unread fewer at least. */
  lemma DismissMarksShown(user: Option<User>, ns: seq<Notification>)
    requires LatestUnread(user, ns).Some?
    ensures UnreadCount(Dismissed(user, ns)) < UnreadCount(ns)
    ensures forall k :: 0 <= k < |ns| && ns[k].id != LatestUnread(user, ns).value.id ==>
      Dismissed(user, ns)[k] == ns[k]
  {
    var n := LatestUnread(user, ns).value;
    var k :| 0 <= k < |ns| && ns[k] == n;
    MarkedReadLowersCount(ns, n.id);
  }
}
