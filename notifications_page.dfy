/**
 * The notifications page (front-end/src/components/NotificationsPage.jsx):
 * the list filter chosen by the filter buttons, and the colour of each type.
 */
module NotificationsPage {
  import opened Seqs
  import opened Notifications

  /** The types that have a filter of their own. */
  const Kinds: set<string> := {"deployment", "security", "system", "billing"}

  /** The switch in `filteredNotifications`: 'unread', one of the four types, or anything else (all). */
  predicate Matches(filter: string, n: Notification)
  {
    if filter == "unread" then !n.read
    else if filter in Kinds then n.kind == filter
    else true
  }

  /** `notifications.filter(...)` for the selected filter. */
  function FilteredNotifications(ns: seq<Notification>, filter: string): (r: seq<Notification>)
    ensures forall i :: 0 <= i < |r| ==> r[i] in ns
  {
    Filter(ns, n => Matches(filter, n))
  }

  /**
   * 'unread' keeps exactly the unread notifications, a type filter exactly the
   * notifications of that type, and 'all' or an unknown filter everything; in
   * every case the result keeps the input's order.
   */
  lemma FilterSelects(ns: seq<Notification>, filter: string, n: Notification)
    ensures IsSubseq(FilteredNotifications(ns, filter), ns)
    ensures filter == "unread" ==> (n in FilteredNotifications(ns, filter) <==> n in ns && !n.read)
    ensures filter in Kinds ==> (n in FilteredNotifications(ns, filter) <==> n in ns && n.kind == filter)
    ensures filter != "unread" && filter !in Kinds ==> FilteredNotifications(ns, filter) == ns
  {
    var p := (x: Notification) => Matches(filter, x);
    FilterIsSubseq(ns, p);
    if n in ns {
      var k :| 0 <= k < |ns| && ns[k] == n;
    }
    var r := FilteredNotifications(ns, filter);
    if n in r {
      var k :| 0 <= k < |r| && r[k] == n;
    }
    if filter != "unread" && filter !in Kinds {
      FilterAll(ns, p);
    }
  }

  /** The 'unread' filter shows as many entries as the unread count says. */
  lemma UnreadFilterCount(ns: seq<Notification>)
    ensures |FilteredNotifications(ns, "unread")| == UnreadCount(ns)
  {
    FilterSame(ns, (x: Notification) => Matches("unread", x), Unread);
  }

  /** `getTypeColor(type)`: a colour per known type, grey for anything else. */
  function TypeColor(kind: string): (c: string)
    ensures kind !in Kinds <==> c == "text-gray-400"
    ensures kind == "deployment" ==> c == "text-blue-400"
    ensures kind == "security" ==> c == "text-red-400"
    ensures kind == "system" ==> c == "text-yellow-400"
    ensures kind == "billing" ==> c == "text-green-400"
  {
    match kind
    case "deployment" => "text-blue-400"
    case "security" => "text-red-400"
    case "system" => "text-yellow-400"
    case "billing" => "text-green-400"
    case _ => "text-gray-400"
  }
}
