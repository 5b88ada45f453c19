/**
 * The subdomain dashboard (front-end/src/components/Dashboard.jsx): the view
 * that shows either the active or the soft-deleted subdomains, the counts in
 * the statistics cards, and the toggles and selected id the page keeps.
 */
module Dashboard {
  import opened Wrappers
  import opened Seqs

  /** A hosted subdomain; `deletedAt` is `null` unless it has been soft-deleted. */
  datatype Subdomain = Subdomain(id: string, name: string, url: string, status: string, deletedAt: Option<string>)

  /** The page's state cells. */
  datatype Page = Page(
    sidebarCollapsed: bool,
    createModalOpen: bool,
    buildLogsOpen: bool,
    selectedSubdomainId: Option<string>,
    showDeleted: bool)

  /** The state as the page mounts: everything closed, nothing selected, the active view. */
  const InitialPage := Page(false, false, false, None, false)

  predicate Active(s: Subdomain)
  {
    s.deletedAt.None?
  }

  predicate Deleted(s: Subdomain)
  {
    s.deletedAt.Some?
  }

  /** The predicate of `filteredSubdomains`. */
  predicate InView(s: Subdomain, showDeleted: bool)
  {
    if showDeleted then Deleted(s) else Active(s)
  }

  /** `filteredSubdomains`: exactly the deleted subdomains or exactly the active ones, in order. */
  function FilteredSubdomains(subdomains: seq<Subdomain>, showDeleted: bool): (r: seq<Subdomain>)
    ensures forall s :: s in r <==> s in subdomains && (if showDeleted then Deleted(s) else Active(s))
    ensures IsSubseq(r, subdomains)
  {
    var p := (s: Subdomain) => InView(s, showDeleted);
    FilterIsSubseq(subdomains, p);
    var r := Filter(subdomains, p);
    assert forall s :: s in subdomains ==> exists i :: 0 <= i < |subdomains| && subdomains[i] == s;
    assert forall s :: s in r ==> exists i :: 0 <= i < |r| && r[i] == s;
    r
  }

  function ActiveCount(subdomains: seq<Subdomain>): nat
  {
    |Filter(subdomains, Active)|
  }

  function DeletedCount(subdomains: seq<Subdomain>): nat
  {
    |Filter(subdomains, Deleted)|
  }

  /** The number of subdomains with that status that are not deleted (`liveCount`, `buildingCount`, `errorCount`). */
  function StatusCount(subdomains: seq<Subdomain>, status: string): nat
  {
    |Filter(subdomains, (s: Subdomain) => s.status == status && Active(s))|
  }

  /**
   * The two views split the subdomains: each view holds as many as its card
   * says, and together they hold all of them.
   */
  lemma ViewsPartition(subdomains: seq<Subdomain>)
    ensures ActiveCount(subdomains) + DeletedCount(subdomains) == |subdomains|
    ensures |FilteredSubdomains(subdomains, false)| == ActiveCount(subdomains)
    ensures |FilteredSubdomains(subdomains, true)| == DeletedCount(subdomains)
  {
    CountSplit(subdomains, Active, Deleted);
    FilterSame(subdomains, (s: Subdomain) => InView(s, false), Active);
    FilterSame(subdomains, (s: Subdomain) => InView(s, true), Deleted);
  }

  /** The live, building and error cards count only active subdomains, so together they are at most the active count. */
  lemma StatusCountsBounded(subdomains: seq<Subdomain>)
    ensures StatusCount(subdomains, "live") + StatusCount(subdomains, "building") + StatusCount(subdomains, "error")
      <= ActiveCount(subdomains)
  {
    CountThreeDisjoint(subdomains,
      (s: Subdomain) => s.status == "live" && Active(s),
      (s: Subdomain) => s.status == "building" && Active(s),
      (s: Subdomain) => s.status == "error" && Active(s),
      Active);
  }

  /** The 'Show Archived' / 'Show Active' button. */
  function ToggleShowDeleted(p: Page): (q: Page)
    ensures q.showDeleted == !p.showDeleted
    ensures q.(showDeleted := p.showDeleted) == p
  {
    p.(showDeleted := !p.showDeleted)
  }

  /** Pressing the toggle twice restores the page and so the view. */
  lemma ToggleTwice(p: Page, subdomains: seq<Subdomain>)
    ensures ToggleShowDeleted(ToggleShowDeleted(p)) == p
    ensures FilteredSubdomains(subdomains, ToggleShowDeleted(ToggleShowDeleted(p)).showDeleted)
      == FilteredSubdomains(subdomains, p.showDeleted)
  {
  }

  /** `handleViewLogs(id)`: records the id and opens the log panel; nothing else changes. */
  function ViewLogs(p: Page, id: string): (q: Page)
    ensures q.selectedSubdomainId == Some(id) && q.buildLogsOpen
    ensures q.showDeleted == p.showDeleted && q.sidebarCollapsed == p.sidebarCollapsed
      && q.createModalOpen == p.createModalOpen
  {
    p.(selectedSubdomainId := Some(id), buildLogsOpen := true)
  }

  /** Opening the logs of the same subdomain twice is opening them once, and it never changes the view. */
  lemma ViewLogsIdempotent(p: Page, id: string, subdomains: seq<Subdomain>)
    ensures ViewLogs(ViewLogs(p, id), id) == ViewLogs(p, id)
    ensures FilteredSubdomains(subdomains, ViewLogs(p, id).showDeleted) == FilteredSubdomains(subdomains, p.showDeleted)
  {
  }
}
