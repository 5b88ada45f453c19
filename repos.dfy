/**
 * The repository list page (front-end/src/pages/Repos.jsx): the filter over
 * the archive partition, the search and the connection filter, the sort by
 * stars, and the counts shown in the statistics cards.
 */
module Repos {
  import opened Wrappers
  import opened Seqs
  import opened Text

  /**
   * A connected repository, with the fields the page's logic reads;
   * `deployedUrl` and `archivedAt` are `null` when absent.
   */
  datatype Repo = Repo(
    id: string,
    name: string,
    description: string,
    status: string,
    isPrivate: bool,
    stars: int,
    deployedUrl: Option<string>,
    archivedAt: Option<string>)

  /** The page's controls that the filter reads. */
  datatype Controls = Controls(searchTerm: string, filterBy: string, showArchived: bool)

  predicate Archived(r: Repo)
  {
    r.archivedAt.Some?
  }

  predicate Active(r: Repo)
  {
    r.archivedAt.None?
  }

  /** `showArchived ? isArchived : !isArchived`. */
  predicate InView(r: Repo, showArchived: bool)
  {
    if showArchived then Archived(r) else Active(r)
  }

  /** The case-insensitive search on name or description. */
  predicate MatchesSearch(r: Repo, term: string)
  {
    Contains(ToLower(r.name), ToLower(term)) || Contains(ToLower(r.description), ToLower(term))
  }

  /** `matchesFilter`: a disjunction of the four known options, so an unknown option matches nothing. */
  predicate MatchesFilter(r: Repo, filterBy: string)
  {
    || filterBy == "all"
    || (filterBy == "connected" && r.status == "connected")
    || (filterBy == "private" && r.isPrivate)
    || (filterBy == "public" && !r.isPrivate)
  }

  /** The predicate passed to `repos.filter`. */
  predicate Listed(r: Repo, c: Controls)
  {
    InView(r, c.showArchived) && MatchesSearch(r, c.searchTerm) && MatchesFilter(r, c.filterBy)
  }

  /** The filtered list before it is sorted: exactly the repositories the three tests let through, in order. */
  function FilteredRepos(repos: seq<Repo>, c: Controls): (r: seq<Repo>)
    ensures forall x :: x in r <==> x in repos && Listed(x, c)
    ensures IsSubseq(r, repos)
  {
    var p := (x: Repo) => Listed(x, c);
    FilterIsSubseq(repos, p);
    var r := Filter(repos, p);
    assert forall x :: x in repos ==> exists i :: 0 <= i < |repos| && repos[i] == x;
    assert forall x :: x in r ==> exists i :: 0 <= i < |r| && r[i] == x;
    r
  }

  /**
   * The filter options keep what their names say, and an option the switch
   * does not know keeps nothing.
   */
  lemma FilterOptions(repos: seq<Repo>, c: Controls, x: Repo)
    requires x in repos && InView(x, c.showArchived) && MatchesSearch(x, c.searchTerm)
    ensures c.filterBy == "all" ==> x in FilteredRepos(repos, c)
    ensures c.filterBy == "connected" ==> (x in FilteredRepos(repos, c) <==> x.status == "connected")
    ensures c.filterBy == "private" ==> (x in FilteredRepos(repos, c) <==> x.isPrivate)
    ensures c.filterBy == "public" ==> (x in FilteredRepos(repos, c) <==> !x.isPrivate)
  {
  }

  /** An unrecognised `filterBy` empties the list. */
  lemma UnknownFilterMatchesNothing(repos: seq<Repo>, c: Controls)
    requires c.filterBy !in {"all", "connected", "private", "public"}
    ensures FilteredRepos(repos, c) == []
  {
    FilterNone(repos, (x: Repo) => Listed(x, c));
  }

  /** The filtered list is drawn, in order, from the partition `showArchived` selects. */
  lemma FilteredWithinPartition(repos: seq<Repo>, c: Controls)
    ensures IsSubseq(FilteredRepos(repos, c), Filter(repos, (x: Repo) => InView(x, c.showArchived)))
    ensures |FilteredRepos(repos, c)| <= |Filter(repos, (x: Repo) => InView(x, c.showArchived))|
  {
    var p := (x: Repo) => Listed(x, c);
    var q := (x: Repo) => InView(x, c.showArchived);
    FilterWeaker(repos, p, q);
    FilterIsSubseq(Filter(repos, q), p);
  }

  /** Stars in non-increasing order. */
  predicate ByStars(s: seq<Repo>)
  {
    forall i, j :: 0 <= i < j < |s| ==> s[i].stars >= s[j].stars
  }

  /**
   * Places `x` in a list sorted by stars, ahead of the first entry with no more
   * stars than it: what a stable sort with comparator `b.stars - a.stars` does
   * with an entry that came first.
   */
  function InsertByStars(x: Repo, s: seq<Repo>): (r: seq<Repo>)
    requires ByStars(s)
    ensures ByStars(r)
    ensures multiset(r) == multiset(s) + multiset{x}
    ensures |r| == |s| + 1
  {
    if s == [] || x.stars >= s[0].stars then
      HeadBoundsSorted(x, s);
      [x] + s
    else
      var rest := InsertByStars(x, s[1..]);
      assert s == [s[0]] + s[1..];
      StarsBoundCarries(s[0], s[1..], x, rest);
      ConsByStars(s[0], rest);
      [s[0]] + rest
  }

  /** An entry with at least the stars of the head of a sorted list can go in front of it. */
  lemma HeadBoundsSorted(x: Repo, s: seq<Repo>)
    requires ByStars(s) && (s == [] || x.stars >= s[0].stars)
    ensures ByStars([x] + s)
  {
    if s != [] {
      assert forall k :: 0 <= k < |s| ==> s[0].stars >= s[k].stars;
      ConsByStars(x, s);
    }
  }

  /** An entry with at least the stars of every entry of a sorted list can go in front of it. */
  lemma ConsByStars(y: Repo, r: seq<Repo>)
    requires ByStars(r) && forall k :: 0 <= k < |r| ==> y.stars >= r[k].stars
    ensures ByStars([y] + r)
  {
    var t := [y] + r;
    forall i, j | 0 <= i < j < |t|
      ensures t[i].stars >= t[j].stars
    {
      assert t[j] == r[j - 1];
      if i > 0 { assert t[i] == r[i - 1]; }
    }
  }

  /** An entry with at least the stars of every entry of `s` and of `x` has at least the stars of every entry of a permutation of both. */
  lemma StarsBoundCarries(y: Repo, s: seq<Repo>, x: Repo, r: seq<Repo>)
    requires multiset(r) == multiset(s) + multiset{x}
    requires y.stars >= x.stars && forall k :: 0 <= k < |s| ==> y.stars >= s[k].stars
    ensures forall k :: 0 <= k < |r| ==> y.stars >= r[k].stars
  {
    forall k | 0 <= k < |r|
      ensures y.stars >= r[k].stars
    {
      assert r[k] in multiset(r);
      if r[k] != x {
        assert r[k] in multiset(s);
        var m :| 0 <= m < |s| && s[m] == r[k];
      }
    }
  }

  /** `sort((a, b) => b.stars - a.stars)`: the same repositories, most stars first. */
  function SortByStars(s: seq<Repo>): (r: seq<Repo>)
    ensures ByStars(r)
    ensures multiset(r) == multiset(s)
    ensures |r| == |s|
  {
    if s == [] then []
    else
      assert s == [s[0]] + s[1..];
      InsertByStars(s[0], SortByStars(s[1..]))
  }

  /** A list that is already in star order is left as it is. */
  lemma {:induction false} SortByStarsKeepsSorted(s: seq<Repo>)
    requires ByStars(s)
    ensures SortByStars(s) == s
  {
    if s != [] {
      assert ByStars(s[1..]);
      SortByStarsKeepsSorted(s[1..]);
    }
  }

  /** `repos.filter(r => r.archivedAt === null)`. */
  function ActiveRepos(repos: seq<Repo>): seq<Repo>
  {
    Filter(repos, Active)
  }

  /** `repos.filter(r => r.archivedAt !== null)`. */
  function ArchivedRepos(repos: seq<Repo>): seq<Repo>
  {
    Filter(repos, Archived)
  }

  /** The number of active repositories with the given status. */
  function StatusCount(repos: seq<Repo>, status: string): nat
  {
    |Filter(ActiveRepos(repos), (r: Repo) => r.status == status)|
  }

  /** A truthy `deployedUrl`: present and not the empty string. */
  predicate Live(r: Repo)
  {
    r.deployedUrl.Some? && r.deployedUrl.value != ""
  }

  /** `activeRepos.filter(r => r.deployedUrl).length`. */
  function LiveCount(repos: seq<Repo>): nat
  {
    |Filter(ActiveRepos(repos), Live)|
  }

  /**
   * The statistics cards add up: active and archived repositories together
   * are all of them, the three status counts together are at most the active
   * ones, and so is the live count, which counts only active repositories.
   */
  lemma CountsAddUp(repos: seq<Repo>)
    ensures |ActiveRepos(repos)| + |ArchivedRepos(repos)| == |repos|
    ensures StatusCount(repos, "connected") + StatusCount(repos, "syncing") + StatusCount(repos, "error") <= |ActiveRepos(repos)|
    ensures LiveCount(repos) <= |ActiveRepos(repos)|
    ensures LiveCount(repos) == |Filter(repos, (r: Repo) => Active(r) && Live(r))|
  {
    CountSplit(repos, Active, Archived);
    var active := ActiveRepos(repos);
    var all := (r: Repo) => true;
    CountThreeDisjoint(active, (r: Repo) => r.status == "connected", (r: Repo) => r.status == "syncing",
      (r: Repo) => r.status == "error", all);
    FilterAll(active, all);
    FilterWeaker(repos, (r: Repo) => Active(r) && Live(r), Active);
    FilterSame(active, (r: Repo) => Active(r) && Live(r), Live);
  }
}
