/**
 * The notification store hook (front-end/src/hooks/useNotifications.js): one
 * state cell holding the list, replaced by each operation with a new list
 * built by `map` or `filter`, and the unread count derived from it.
 */
module Notifications {
  import opened Seqs

  /** A notification; `timestamp` is in milliseconds since the epoch. */
  datatype Notification = Notification(
    id: int,
    kind: string,
    title: string,
    message: string,
    timestamp: int,
    read: bool,
    icon: string)

  predicate Unread(n: Notification)
  {
    !n.read
  }

  /** `notifications.filter(n => !n.read).length`. */
  function UnreadCount(ns: seq<Notification>): (c: nat)
    ensures c <= |ns|
    ensures c == 0 <==> forall i :: 0 <= i < |ns| ==> ns[i].read
  {
    if forall i :: 0 <= i < |ns| ==> ns[i].read then
      FilterNone(ns, Unread);
      |Filter(ns, Unread)|
    else
      var k :| 0 <= k < |ns| && !ns[k].read;
      assert ns[k] in Filter(ns, Unread);
      |Filter(ns, Unread)|
  }

  /** The number of unread notifications whose id is `id`. */
  function UnreadWithId(ns: seq<Notification>, id: int): nat
  {
    |Filter(ns, (n: Notification) => !n.read && n.id == id)|
  }

  /** `markAsRead(id)`: every entry with that id becomes read; the rest, the order and the length stay. */
  function MarkAsRead(ns: seq<Notification>, id: int): (r: seq<Notification>)
    ensures |r| == |ns|
    ensures forall i :: 0 <= i < |ns| && ns[i].id != id ==> r[i] == ns[i]
    ensures forall i :: 0 <= i < |ns| && ns[i].id == id ==> r[i] == ns[i].(read := true)
  {
    seq(|ns|, i requires 0 <= i < |ns| => if ns[i].id == id then ns[i].(read := true) else ns[i])
  }

  /** Marking the same id twice is marking it once. */
  lemma MarkAsReadIdempotent(ns: seq<Notification>, id: int)
    ensures MarkAsRead(MarkAsRead(ns, id), id) == MarkAsRead(ns, id)
  {
  }

  /** Marking an id no entry has changes nothing. */
  lemma MarkAsReadAbsent(ns: seq<Notification>, id: int)
    requires forall i :: 0 <= i < |ns| ==> ns[i].id != id
    ensures MarkAsRead(ns, id) == ns
  {
  }

  /** Marking an id lowers the unread count by exactly the unread entries with that id. */
  lemma {:induction false} MarkAsReadCount(ns: seq<Notification>, id: int)
    ensures UnreadCount(MarkAsRead(ns, id)) + UnreadWithId(ns, id) == UnreadCount(ns)
  {
    if ns != [] {
      var r := MarkAsRead(ns, id);
      assert r[1..] == MarkAsRead(ns[1..], id);
      assert r == [r[0]] + r[1..];
      assert ns == [ns[0]] + ns[1..];
      MarkAsReadCount(ns[1..], id);
    }
  }

  /** `markAllAsRead()`: every entry becomes read and no other field changes. */
  function MarkAllAsRead(ns: seq<Notification>): (r: seq<Notification>)
    ensures |r| == |ns|
    ensures forall i :: 0 <= i < |ns| ==> r[i] == ns[i].(read := true)
    ensures UnreadCount(r) == 0
  {
    seq(|ns|, i requires 0 <= i < |ns| => ns[i].(read := true))
  }

  /** After marking all, marking any one id changes nothing more. */
  lemma MarkAllAbsorbs(ns: seq<Notification>, id: int)
    ensures MarkAsRead(MarkAllAsRead(ns), id) == MarkAllAsRead(ns)
  {
  }

  /** `deleteNotification(id)`. */
  function DeleteNotification(ns: seq<Notification>, id: int): (r: seq<Notification>)
    ensures |r| <= |ns|
    ensures forall i :: 0 <= i < |r| ==> r[i].id != id && r[i] in ns
    ensures forall i :: 0 <= i < |ns| && ns[i].id != id ==> ns[i] in r
  {
    Filter(ns, (n: Notification) => n.id != id)
  }

  /** Deleting keeps the other entries in their original order, and deleting an absent id changes nothing. */
  lemma DeleteKeepsOrder(ns: seq<Notification>, id: int)
    ensures IsSubseq(DeleteNotification(ns, id), ns)
    ensures (forall i :: 0 <= i < |ns| ==> ns[i].id != id) ==> DeleteNotification(ns, id) == ns
  {
    FilterIsSubseq(ns, (n: Notification) => n.id != id);
    if forall i :: 0 <= i < |ns| ==> ns[i].id != id {
      FilterAll(ns, (n: Notification) => n.id != id);
    }
  }

  /** The hook's initial mock list, dated relative to `now`. */
  function InitialNotifications(now: int): seq<Notification>
  {
    [ Notification(1, "deployment", "Deployment Successful",
        "Your site \"my-portfolio\" has been deployed successfully", now - 5 * 60000, false, "🚀"),
      Notification(2, "security", "New Login Detected",
        "A new login was detected from Chrome on Windows", now - 2 * 60 * 60000, false, "🔒"),
      Notification(3, "system", "System Maintenance",
        "Scheduled maintenance will occur tonight at 2 AM UTC", now - 6 * 60 * 60000, true, "⚙️"),
      Notification(4, "billing", "Payment Successful",
        "Your monthly subscription has been renewed", now - 24 * 60 * 60000, true, "💳"),
      Notification(5, "deployment", "Build Failed",
        "Build failed for \"blog-site\" - check your configuration", now - 2 * 24 * 60 * 60000, true, "❌") ]
  }

  /** The mock list starts with five notifications, two of them unread. */
  lemma InitialUnread(now: int)
    ensures |InitialNotifications(now)| == 5
    ensures UnreadCount(InitialNotifications(now)) == 2
  {
    var ns := InitialNotifications(now);
    assert |ns| == 5 && !ns[0].read && !ns[1].read && ns[2].read && ns[3].read && ns[4].read;
    TwoUnreadFirst(ns);
  }

  /** Five notifications of which only the first two are unread count two. */
  lemma TwoUnreadFirst(ns: seq<Notification>)
    requires |ns| == 5 && !ns[0].read && !ns[1].read && ns[2].read && ns[3].read && ns[4].read
    ensures UnreadCount(ns) == 2
  {
    var t := ns[2..];
    FilterNone(t, Unread);
    assert ns[1..][1..] == t;
    assert Filter(ns[1..], Unread) == [ns[1]] + Filter(t, Unread);
    assert Filter(ns, Unread) == [ns[0]] + Filter(ns[1..], Unread);
  }
}
