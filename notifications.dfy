/** The notification centre: the list, its read flags, deletion and the three filters. */
module Notifications {
  import opened Common
  import opened Seqs
  import opened Domain

  datatype Category = SystemCategory | ClientCategory | FilingCategory | PaymentCategory | AutomationCategory

  datatype Priority = Low | Medium | High | Urgent

  datatype Notification = Notification(
    id: string,
    userId: string,
    title: string,
    message: string,
    kind: NotificationType,
    category: Category,
    priority: Priority,
    read: bool,
    createdAt: Timestamp,
    actionUrl: Option<string>)

  /** The read drop-down: all, unread only, or read only. */
  datatype ReadFilter = AllNotifications | UnreadOnly | ReadOnly

  /** `notifications.map(n => n.id === id ? { ...n, read: true } : n)`. */
  function MarkedRead(ns: seq<Notification>, id: string): (r: seq<Notification>)
    ensures |r| == |ns|
    ensures forall i :: 0 <= i < |r| ==> r[i].read == (ns[i].read || ns[i].id == id)
    ensures forall i :: 0 <= i < |r| ==> r[i].(read := ns[i].read) == ns[i]
  {
    seq(|ns|, i requires 0 <= i < |ns| => if ns[i].id == id then ns[i].(read := true) else ns[i])
  }

  /** `notifications.map(n => n.id === id ? { ...n, read: false } : n)`. */
  function MarkedUnread(ns: seq<Notification>, id: string): (r: seq<Notification>)
    ensures |r| == |ns|
    ensures forall i :: 0 <= i < |r| ==> r[i].read == (ns[i].read && ns[i].id != id)
    ensures forall i :: 0 <= i < |r| ==> r[i].(read := ns[i].read) == ns[i]
  {
    seq(|ns|, i requires 0 <= i < |ns| => if ns[i].id == id then ns[i].(read := false) else ns[i])
  }

  /** `notifications.filter(n => n.id !== id)`. */
  function Deleted(ns: seq<Notification>, id: string): (r: seq<Notification>)
    ensures forall n :: n in r <==> n in ns && n.id != id
    ensures forall i :: 0 <= i < |ns| ==> multiset(r)[ns[i]] == if ns[i].id != id then multiset(ns)[ns[i]] else 0
    ensures IsSubsequence(r, ns)
  {
    Filter(ns, (n: Notification) => n.id != id)
  }

  /** `notifications.map(n => ({ ...n, read: true }))`. */
  function AllMarkedRead(ns: seq<Notification>): (r: seq<Notification>)
    ensures |r| == |ns|
    ensures forall i :: 0 <= i < |r| ==> r[i].read && r[i].(read := ns[i].read) == ns[i]
  {
    seq(|ns|, i requires 0 <= i < |ns| => ns[i].(read := true))
  }

  /** Whether one notification passes the three drop-downs. */
  predicate Passes(n: Notification, readFilter: ReadFilter, category: Selection<Category>, priority: Selection<Priority>)
  {
    && !(readFilter == ReadOnly && !n.read)
    && !(readFilter == UnreadOnly && n.read)
    && category.Admits(n.category)
    && priority.Admits(n.priority)
  }

  /** The notifications listed under the current drop-down values, in order. */
  function Filtered(ns: seq<Notification>, readFilter: ReadFilter, category: Selection<Category>,
                    priority: Selection<Priority>): (r: seq<Notification>)
    ensures forall n :: n in r <==> n in ns && Passes(n, readFilter, category, priority)
    ensures forall i :: 0 <= i < |ns| ==>
      multiset(r)[ns[i]] == if Passes(ns[i], readFilter, category, priority) then multiset(ns)[ns[i]] else 0
    ensures IsSubsequence(r, ns)
  {
    Filter(ns, (n: Notification) => Passes(n, readFilter, category, priority))
  }

  /** The unread badge: `notifications.filter(n => !n.read).length`. */
  function UnreadCount(ns: seq<Notification>): (c: nat)
    ensures c <= |ns|
    ensures c == 0 <==> forall i :: 0 <= i < |ns| ==> ns[i].read
  {
    |Filter(ns, (n: Notification) => !n.read)|
  }

  /** Marking as read twice is the same as marking once. */
  lemma MarkAsReadIdempotent(ns: seq<Notification>, id: string)
    ensures MarkedRead(MarkedRead(ns, id), id) == MarkedRead(ns, id)
  {
  }

  /** Marking an unread notification read and then unread gives back the list. */
  lemma ReadThenUnreadRestores(ns: seq<Notification>, id: string)
    requires forall i :: 0 <= i < |ns| && ns[i].id == id ==> !ns[i].read
    ensures MarkedUnread(MarkedRead(ns, id), id) == ns
  {
    var r := MarkedUnread(MarkedRead(ns, id), id);
    forall i | 0 <= i < |ns| ensures r[i] == ns[i] {
      assert r[i].read == ns[i].read;
    }
  }

  /** With every drop-down at 'all', the whole list is shown. */
  lemma NoFilterShowsAll(ns: seq<Notification>)
    ensures Filtered(ns, AllNotifications, All, All) == ns
  {
    FilterKeepsAll(ns, (n: Notification) => Passes(n, AllNotifications, All, All));
  }

  /** The unread badge equals the length of the 'unread only' list. */
  lemma UnreadCountIsUnreadList(ns: seq<Notification>)
    ensures UnreadCount(ns) == |Filtered(ns, UnreadOnly, All, All)|
  {
    FilterCongruent(ns, (n: Notification) => !n.read, (n: Notification) => Passes(n, UnreadOnly, All, All));
  }

  /** After 'Mark All Read' no notification is unread. */
  lemma MarkAllLeavesNoneUnread(ns: seq<Notification>)
    ensures UnreadCount(AllMarkedRead(ns)) == 0
  {
  }

  /** The notification list the page keeps in its state. */
  class NotificationCenter {
    var notifications: seq<Notification>

    constructor (initial: seq<Notification>)
      ensures notifications == initial
    {
      notifications := initial;
    }

    method MarkAsRead(id: string)
      modifies this
      ensures notifications == MarkedRead(old(notifications), id)
    {
      notifications := MarkedRead(notifications, id);
    }

    method MarkAsUnread(id: string)
      modifies this
      ensures notifications == MarkedUnread(old(notifications), id)
    {
      notifications := MarkedUnread(notifications, id);
    }

    method DeleteNotification(id: string)
      modifies this
      ensures notifications == Deleted(old(notifications), id)
    {
      notifications := Deleted(notifications, id);
    }

    method MarkAllAsRead()
      modifies this
      ensures notifications == AllMarkedRead(old(notifications))
      ensures UnreadCount(notifications) == 0
    {
      notifications := AllMarkedRead(notifications);
      MarkAllLeavesNoneUnread(old(notifications));
    }
  }
}
