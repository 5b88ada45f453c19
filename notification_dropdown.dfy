/**
 * The notification dropdown (front-end/src/components/NotificationDropdown.jsx):
 * the relative time of a notification, the five-entry preview and when the
 * 'View All' control shows. The current time is a parameter.
 */
module NotificationDropdown {
  import opened Wrappers
  import opened Text
  import opened Notifications

  const MinuteMs := 60000
  const HourMs := 3600000
  const DayMs := 86400000

  /**
   * `formatTimestamp(timestamp)` at time `now`: whole minutes under an hour,
   * whole hours under a day, whole days from then on (`Math.floor` rounds
   * down, so a timestamp in the future shows a negative number of minutes).
   */
  function FormatTimestamp(now: int, timestamp: int): (s: string)
    ensures var diff := now - timestamp;
      && (diff < HourMs ==> s == IntToString(diff / MinuteMs) + "m ago")
      && (HourMs <= diff < DayMs ==> s == IntToString(diff / HourMs) + "h ago")
      && (DayMs <= diff ==> s == IntToString(diff / DayMs) + "d ago")
  {
    var diff := now - timestamp;
    var minutes := diff / MinuteMs;
    var hours := diff / HourMs;
    var days := diff / DayMs;
    assert minutes < 60 <==> diff < HourMs;
    assert hours < 24 <==> diff < DayMs;
    if minutes < 60 then IntToString(minutes) + "m ago"
    else if hours < 24 then IntToString(hours) + "h ago"
    else IntToString(days) + "d ago"
  }

  /**
   * The number shown reads back with `parseInt`, and it is in range for its
   * unit: under 60 minutes, 1 to 23 hours, at least one day.
   */
  lemma TimestampReadsBack(now: int, timestamp: int)
    ensures var diff := now - timestamp;
      var n := ParseInt(FormatTimestamp(now, timestamp));
      && n.Some?
      && (diff < HourMs ==> n.value == diff / MinuteMs && n.value < 60)
      && (HourMs <= diff < DayMs ==> n.value == diff / HourMs && 1 <= n.value < 24)
      && (DayMs <= diff ==> n.value == diff / DayMs && n.value >= 1)
  {
    var diff := now - timestamp;
    var s := FormatTimestamp(now, timestamp);
    if diff < HourMs {
      ShownNumber(diff / MinuteMs, "m ago", s);
    } else if diff < DayMs {
      ShownNumber(diff / HourMs, "h ago", s);
    } else {
      ShownNumber(diff / DayMs, "d ago", s);
    }
  }

  lemma ShownNumber(n: int, unit: string, s: string)
    requires s == IntToString(n) + unit
    requires unit != [] && !IsDigit(unit[0])
    ensures ParseInt(s) == Some(n)
  {
    ParseIntOfIntToString(n, unit);
  }

  /** `notifications.slice(0, 5)`: the first five, or all of them when there are fewer. */
  function RecentNotifications(ns: seq<Notification>): (r: seq<Notification>)
    ensures |r| == (if |ns| < 5 then |ns| else 5)
    ensures r == ns[..|r|]
  {
    if |ns| < 5 then ns else ns[..5]
  }

  /** `notifications.length > 5`. */
  predicate ShowViewAll(ns: seq<Notification>)
  {
    |ns| > 5
  }

  /** `recentNotifications.length === 0`: the "No notifications" line. */
  predicate ShowEmpty(ns: seq<Notification>)
  {
    |RecentNotifications(ns)| == 0
  }

  /**
   * 'View All' shows exactly when the preview leaves some notification out,
   * and "No notifications" exactly when there is none.
   */
  lemma PreviewControls(ns: seq<Notification>)
    ensures ShowViewAll(ns) <==> |RecentNotifications(ns)| < |ns|
    ensures ShowEmpty(ns) <==> ns == []
    ensures !ShowViewAll(ns) ==> RecentNotifications(ns) == ns
  {
  }
}
