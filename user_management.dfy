/**
 * The admin user table (front-end/src/components/admin/UserManagement.jsx):
 * the six filter predicates combined in `filteredUsers`, and the active and
 * deleted counts shown in the header.
 */
module UserManagement {
  import opened Wrappers
  import opened Seqs
  import opened Text

  /**
   * A row of the table. `joined` is the join date as milliseconds since the
   * epoch (what `new Date(user.joinedDate)` yields); `deletedAt` is `null`
   * for a user who has not been soft-deleted.
   */
  datatype AdminUser = AdminUser(
    id: int,
    name: string,
    email: string,
    plan: string,
    status: string,
    subdomains: int,
    joined: int,
    totalRevenue: string,
    deletedAt: Option<string>)

  /** The filter controls: the search box, the four selectors and the 'show deleted' toggle. */
  datatype Filters = Filters(
    searchTerm: string,
    status: string,
    plan: string,
    dateRange: string,
    revenue: string,
    showDeleted: bool)

  /** The controls as the page opens. */
  const InitialFilters := Filters("", "all", "all", "all", "all", false)

  const DayMs := 1000 * 60 * 60 * 24

  /** `includes` on the lowercased name or email. */
  predicate MatchesSearch(u: AdminUser, term: string)
  {
    Contains(ToLower(u.name), ToLower(term)) || Contains(ToLower(u.email), ToLower(term))
  }

  predicate MatchesStatus(u: AdminUser, status: string)
  {
    status == "all" || u.status == status
  }

  predicate MatchesPlan(u: AdminUser, plan: string)
  {
    plan == "all" || u.plan == plan
  }

  /** The deleted users when the toggle is on, the others when it is off. */
  predicate MatchesDeleted(u: AdminUser, showDeleted: bool)
  {
    if showDeleted then u.deletedAt.Some? else u.deletedAt.None?
  }

  /** `Math.floor((now - joinedDate) / (1000 * 60 * 60 * 24))`: whole days since joining, rounded down. */
  function DaysSince(now: int, joined: int): (d: int)
    ensures d * DayMs <= now - joined < (d + 1) * DayMs
  {
    (now - joined) / DayMs
  }

  /** The date-range switch: an unknown range leaves the flag at its initial `true`. */
  predicate MatchesDateRange(u: AdminUser, range: string, now: int)
  {
    if range == "all" then true
    else
      var days := DaysSince(now, u.joined);
      match range
      case "week" => days <= 7
      case "month" => days <= 30
      case "quarter" => days <= 90
      case "year" => days <= 365
      case _ => true
  }

  /** The index of the first `c` in `s`, or `|s|` when there is none. */
  function IndexOf(s: string, c: char): (k: nat)
    ensures k <= |s|
    ensures forall j :: 0 <= j < k ==> s[j] != c
    ensures k < |s| ==> s[k] == c
  {
    if s == [] then 0
    else if s[0] == c then 0
    else 1 + IndexOf(s[1..], c)
  }

  /** `s.replace(c, '')` with a one-character pattern: only the first occurrence goes. */
  function RemoveFirst(s: string, c: char): (r: string)
    ensures c !in s ==> r == s
    ensures c in s ==> exists i :: 0 <= i < |s| && s[i] == c && c !in s[..i] && r == s[..i] + s[i + 1..]
  {
    var k := IndexOf(s, c);
    if k < |s| then
      assert c !in s[..k];
      s[..k] + s[k + 1..]
    else
      s
  }

  /** `parseInt(user.totalRevenue.replace('$', ''))`, with no radix; `None` stands for NaN. */
  function Revenue(u: AdminUser): Option<int>
  {
    ParseIntAuto(RemoveFirst(u.totalRevenue, '$'))
  }

  /** The revenue buckets of the selector, apart from 'all'. */
  const RevenueBuckets: set<string> := {"free", "low", "medium", "high"}

  /** The comparison of one bucket; every comparison with NaN is false. */
  predicate InBucket(revenue: Option<int>, bucket: string)
  {
    match bucket
    case "free" => revenue == Some(0)
    case "low" => revenue.Some? && revenue.value > 0 && revenue.value < 50
    case "medium" => revenue.Some? && revenue.value >= 50 && revenue.value < 200
    case "high" => revenue.Some? && revenue.value >= 200
    case _ => false
  }

  /** The revenue switch on an already parsed revenue: an unknown bucket leaves the flag at its initial `true`. */
  predicate RevenueMatches(revenue: Option<int>, bucket: string)
  {
    if bucket == "all" then true
    else if bucket in RevenueBuckets then InBucket(revenue, bucket)
    else true
  }

  predicate MatchesRevenue(u: AdminUser, bucket: string)
  {
    RevenueMatches(Revenue(u), bucket)
  }

  /** The predicate passed to `users.filter`. */
  predicate Shown(u: AdminUser, f: Filters, now: int)
  {
    && MatchesSearch(u, f.searchTerm)
    && MatchesStatus(u, f.status)
    && MatchesPlan(u, f.plan)
    && MatchesDeleted(u, f.showDeleted)
    && MatchesDateRange(u, f.dateRange, now)
    && MatchesRevenue(u, f.revenue)
  }

  /**
   * `filteredUsers`: a user is listed iff all six predicates hold, and the
   * listed users keep the table's order.
   */
  function FilteredUsers(users: seq<AdminUser>, f: Filters, now: int): (r: seq<AdminUser>)
    ensures forall u :: u in r <==> u in users && Shown(u, f, now)
    ensures IsSubseq(r, users)
  {
    var p := (u: AdminUser) => Shown(u, f, now);
    FilterIsSubseq(users, p);
    var r := Filter(users, p);
    assert forall u :: u in users ==> exists i :: 0 <= i < |users| && users[i] == u;
    assert forall u :: u in r ==> exists i :: 0 <= i < |r| && r[i] == u;
    r
  }

  /** An empty search term matches every user, and so does a term found in the name alone. */
  lemma EmptySearchMatchesAll(u: AdminUser, term: string)
    ensures term == "" ==> MatchesSearch(u, term)
    ensures Contains(ToLower(u.name), ToLower(term)) ==> MatchesSearch(u, term)
  {
    if term == "" {
      assert ToLower(term) == "";
      ContainsEmpty(ToLower(u.name));
    }
  }

  /** With the controls as the page opens, every user who is not deleted is listed, in order. */
  lemma InitialFiltersShowActive(users: seq<AdminUser>, now: int)
    ensures FilteredUsers(users, InitialFilters, now) == Filter(users, (u: AdminUser) => u.deletedAt.None?)
  {
    forall u: AdminUser
      ensures Shown(u, InitialFilters, now) == u.deletedAt.None?
    {
      EmptySearchMatchesAll(u, "");
    }
    FilterSame(users, (u: AdminUser) => Shown(u, InitialFilters, now), (u: AdminUser) => u.deletedAt.None?);
  }

  /** The date ranges are nested: week within month within quarter within year, and 'all' within none. */
  lemma DateRangesNested(u: AdminUser, now: int, range: string)
    ensures MatchesDateRange(u, "week", now) ==> MatchesDateRange(u, "month", now)
    ensures MatchesDateRange(u, "month", now) ==> MatchesDateRange(u, "quarter", now)
    ensures MatchesDateRange(u, "quarter", now) ==> MatchesDateRange(u, "year", now)
    ensures range !in {"week", "month", "quarter", "year"} ==> MatchesDateRange(u, range, now)
  {
  }

  /** A bucket is a range: every known bucket picks out revenues by the source's comparisons and no other. */
  lemma {:induction false} BucketsPartition(revenue: int)
    ensures revenue >= 0 ==> exists b :: b in RevenueBuckets && InBucket(Some(revenue), b)
    ensures forall b1, b2 :: InBucket(Some(revenue), b1) && InBucket(Some(revenue), b2) ==> b1 == b2
    ensures forall b :: InBucket(Some(revenue), b) ==> b in RevenueBuckets
  {
    if revenue >= 0 {
      var b := if revenue == 0 then "free" else if revenue < 50 then "low" else if revenue < 200 then "medium" else "high";
      assert b in RevenueBuckets && InBucket(Some(revenue), b);
    }
  }

  /** A revenue that is not a number (NaN) falls in no bucket, so only 'all' or an unknown bucket shows it. */
  lemma NaNInNoBucket(revenue: Option<int>, bucket: string)
    requires revenue.None?
    ensures RevenueMatches(revenue, bucket) <==> bucket !in RevenueBuckets
  {
  }

  /** A revenue written `$<n>` reads back as `n`. */
  lemma RevenueReadsBack(u: AdminUser, n: nat)
    requires u.totalRevenue == "$" + IntToString(n)
    ensures Revenue(u) == Some(n)
  {
    assert u.totalRevenue[0] == '$';
    assert IndexOf(u.totalRevenue, '$') == 0;
    assert RemoveFirst(u.totalRevenue, '$') == IntToString(n);
    ParseIntAutoOfIntToString(n, "");
    assert IntToString(n) + "" == IntToString(n);
  }

  /** The radix-less `parseInt` reads `$0x1F` as 31, so that user is listed under 'low' and not under 'free'. */
  lemma HexRevenueIsLow(u: AdminUser)
    requires u.totalRevenue == "$0x1F"
    ensures Revenue(u) == Some(31)
    ensures MatchesRevenue(u, "low") && !MatchesRevenue(u, "free")
  {
    assert u.totalRevenue[0] == '$';
    assert IndexOf(u.totalRevenue, '$') == 0;
    assert RemoveFirst(u.totalRevenue, '$') == "0x1F";
    ParseIntAutoHex();
  }

  /** `users.filter(user => user.deletedAt === null).length`. */
  function ActiveUsersCount(users: seq<AdminUser>): nat
  {
    |Filter(users, (u: AdminUser) => u.deletedAt.None?)|
  }

  /** `users.filter(user => user.deletedAt !== null).length`. */
  function DeletedUsersCount(users: seq<AdminUser>): nat
  {
    |Filter(users, (u: AdminUser) => u.deletedAt.Some?)|
  }

  /**
   * The toggle splits the table: the deleted and not-deleted views are the two
   * counts, and those add up to the number of users.
   */
  lemma CountsPartition(users: seq<AdminUser>, now: int)
    ensures ActiveUsersCount(users) + DeletedUsersCount(users) == |users|
    ensures |FilteredUsers(users, InitialFilters, now)| == ActiveUsersCount(users)
  {
    CountSplit(users, (u: AdminUser) => u.deletedAt.None?, (u: AdminUser) => u.deletedAt.Some?);
    InitialFiltersShowActive(users, now);
  }
}
