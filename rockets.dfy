/**
 * The rockets list page: the fetched rockets filtered by a case-insensitive
 * search over name and organization plus two equality selects, split into
 * client-side pages of nine, with the page reset to 1 whenever a filter
 * changes.
 */
module Rockets {

  import opened Text
  import opened Seqs
  import opened Ints
  import opened Records

  datatype Rocket = Rocket(
    id: int,
    name: string,
    description: string,
    mass: real,
    height: real,
    diameter: real,
    payloadCapacity: real,
    stages: int,
    status: string,
    launchCount: int,
    successRate: real,
    organization: OrgRef)

  /** The search box and the two selects; an empty select means "All". */
  datatype RocketFilters = RocketFilters(searchTerm: string, organization: string, status: string)

  const ItemsPerPage: nat := 9

  // ---------------------------------------------------------------- filtering

  predicate MatchesSearch(r: Rocket, term: string)
  {
    Includes(Lower(r.name), Lower(term)) || Includes(Lower(r.organization.name), Lower(term))
  }

  predicate Matches(r: Rocket, f: RocketFilters)
  {
    && MatchesSearch(r, f.searchTerm)
    && (f.organization == "" || r.organization.name == f.organization)
    && (f.status == "" || r.status == f.status)
  }

  function Keep(f: RocketFilters): Rocket -> bool
  {
    (r: Rocket) => Matches(r, f)
  }

  /**
   * `filteredRockets`: the rockets, in their order, whose lower-cased name
   * or organization name contains the lower-cased term and whose
   * organization and status equal the non-empty selects.
   */
  function FilteredRockets(rockets: seq<Rocket>, f: RocketFilters): (r: seq<Rocket>)
    ensures IsSubsequence(r, rockets)
    ensures forall x :: x in r ==>
      && (Includes(Lower(x.name), Lower(f.searchTerm)) ||
          Includes(Lower(x.organization.name), Lower(f.searchTerm)))
      && (f.organization != "" ==> x.organization.name == f.organization)
      && (f.status != "" ==> x.status == f.status)
    ensures forall x :: x in rockets && Matches(x, f) ==> x in r
    ensures forall x :: x in rockets ==> multiset(r)[x] == if Matches(x, f) then multiset(rockets)[x] else 0
  {
    FilterMultiplicity(rockets, Keep(f));
    Filter(rockets, Keep(f))
  }

  /** With the search box and both selects empty every rocket is listed. */
  lemma NoFiltersKeepAll(rockets: seq<Rocket>)
    ensures FilteredRockets(rockets, RocketFilters("", "", "")) == rockets
  {
    forall x | x in rockets ensures Keep(RocketFilters("", "", ""))(x) {
      IncludesEmpty(Lower(x.name));
    }
    FilterAll(rockets, Keep(RocketFilters("", "", "")));
  }

  /** Filtering the filtered list again changes nothing. */
  lemma FilterRocketsIdempotent(rockets: seq<Rocket>, f: RocketFilters)
    ensures FilteredRockets(FilteredRockets(rockets, f), f) == FilteredRockets(rockets, f)
  {
    FilterIdempotent(rockets, Keep(f));
  }

  // ---------------------------------------------------------------- pagination

  /** `Math.ceil(n / itemsPerPage)`. */
  function TotalPages(n: nat): (t: nat)
    ensures n <= t * ItemsPerPage
    ensures n == 0 ==> t == 0
    ensures n > 0 ==> (t - 1) * ItemsPerPage < n
  {
    (n + ItemsPerPage - 1) / ItemsPerPage
  }

  function StartIndex(page: int): int
  {
    (page - 1) * ItemsPerPage
  }

  function EndIndex(page: int): int
  {
    StartIndex(page) + ItemsPerPage
  }

  /** `currentRockets`: `filteredRockets.slice(startIndex, endIndex)`. */
  function CurrentPage<T>(filtered: seq<T>, page: int): seq<T>
  {
    JsSlice(filtered, StartIndex(page), EndIndex(page))
  }

  /**
   * A page `p >= 1` is the stretch from `(p-1)*9` up to `min(p*9, n)`: at
   * most nine items, exactly nine before the last page and none past it.
   */
  lemma {:induction false} CurrentPageIsSlice<T>(filtered: seq<T>, page: int)
    requires page >= 1
    ensures var n := |filtered|;
      var from := Min(StartIndex(page), n);
      CurrentPage(filtered, page) == filtered[from..Min(EndIndex(page), n)]
    ensures |CurrentPage(filtered, page)| <= ItemsPerPage
    ensures page < TotalPages(|filtered|) ==> |CurrentPage(filtered, page)| == ItemsPerPage
    ensures 1 <= page <= TotalPages(|filtered|) ==> |CurrentPage(filtered, page)| > 0
    ensures page > TotalPages(|filtered|) ==> CurrentPage(filtered, page) == []
  {
    var n := |filtered|;
    if page < TotalPages(n) {
      assert page * ItemsPerPage <= (TotalPages(n) - 1) * ItemsPerPage;
    }
    if page > TotalPages(n) {
      assert (page - 1) * ItemsPerPage >= TotalPages(n) * ItemsPerPage;
    }
  }

  /** Pages `p..last` laid end to end. */
  function PagesFrom<T>(filtered: seq<T>, page: int, last: int): seq<T>
    decreases last - page
  {
    if page > last then [] else CurrentPage(filtered, page) + PagesFrom(filtered, page + 1, last)
  }

  lemma {:induction false} PagesFromIsSuffix<T>(filtered: seq<T>, page: int)
    requires 1 <= page <= TotalPages(|filtered|) + 1
    ensures PagesFrom(filtered, page, TotalPages(|filtered|)) ==
      filtered[Min(StartIndex(page), |filtered|)..]
    decreases TotalPages(|filtered|) - page
  {
    var n, last := |filtered|, TotalPages(|filtered|);
    if page > last {
      assert (page - 1) * ItemsPerPage >= last * ItemsPerPage;
    } else {
      CurrentPageIsSlice(filtered, page);
      PagesFromIsSuffix(filtered, page + 1);
      var a, b := Min(StartIndex(page), n), Min(EndIndex(page), n);
      assert StartIndex(page + 1) == EndIndex(page);
      assert filtered[a..b] + filtered[b..] == filtered[a..];
    }
  }

  /** Pages 1 to `totalPages` in order give back the filtered list: nothing repeated, nothing lost. */
  lemma PagesPartition<T>(filtered: seq<T>)
    ensures PagesFrom(filtered, 1, TotalPages(|filtered|)) == filtered
  {
    PagesFromIsSuffix(filtered, 1);
  }

  /**
   * "Showing a-b of n": `a = startIndex + 1`, `b = min(endIndex, n)`. On a
   * page that exists the range covers exactly the items shown; with no
   * match at all it reads "1-0 of 0".
   */
  function ShowingRange(page: int, n: nat): (range: (int, int))
    ensures range.1 <= n
    ensures 1 <= page <= TotalPages(n) ==>
      1 <= range.0 <= range.1 && range.1 - range.0 + 1 <= ItemsPerPage
    ensures 1 <= page <= TotalPages(n) ==>
      range.0 == (page - 1) * ItemsPerPage + 1 && range.1 == Min(page * ItemsPerPage, n)
    ensures page == 1 && n == 0 ==> range == (1, 0)
  {
    assert 1 <= page <= TotalPages(n) ==> (page - 1) * ItemsPerPage < n;
    (StartIndex(page) + 1, Min(EndIndex(page), n))
  }

  /**
   * The range printed above the grid names exactly the positions, counted
   * from 1, of the rockets on the page.
   */
  lemma ShowingRangeCountsPage<T>(filtered: seq<T>, page: int)
    requires 1 <= page <= TotalPages(|filtered|)
    ensures var range := ShowingRange(page, |filtered|);
      range.1 - range.0 + 1 == |CurrentPage(filtered, page)|
    ensures var range := ShowingRange(page, |filtered|);
      && 0 <= range.0 - 1 <= range.1 <= |filtered|
      && CurrentPage(filtered, page) == filtered[range.0 - 1 .. range.1]
  {
    CurrentPageIsSlice(filtered, page);
    assert (page - 1) * ItemsPerPage < |filtered|;
  }

  // ---------------------------------------------------------------- option lists

  function OrganizationName(x: Rocket): string
  {
    x.organization.name
  }

  /** `organizations`: each organization name that occurs, once, in first-occurrence order. */
  function OrganizationOptions(rockets: seq<Rocket>): (r: seq<string>)
    ensures NoDuplicates(r)
    ensures forall o :: o in r ==> exists x :: x in rockets && x.organization.name == o
    ensures forall x :: x in rockets ==> x.organization.name in r
    ensures InFirstOccurrenceOrder(r, Map(rockets, OrganizationName))
  {
    DistinctValues(rockets, OrganizationName)
  }

  function StatusOf(x: Rocket): string
  {
    x.status
  }

  /** `statuses`: each status that occurs, once, in first-occurrence order. */
  function StatusOptions(rockets: seq<Rocket>): (r: seq<string>)
    ensures NoDuplicates(r)
    ensures forall s :: s in r ==> exists x :: x in rockets && x.status == s
    ensures forall x :: x in rockets ==> x.status in r
    ensures InFirstOccurrenceOrder(r, Map(rockets, StatusOf))
  {
    DistinctValues(rockets, StatusOf)
  }

  // ---------------------------------------------------------------- page state

  /** The page component's state: the fetched rockets, the three filters and `currentPage`. */
  class RocketsPage {
    var rockets: seq<Rocket>
    var searchTerm: string
    var selectedOrganization: string
    var selectedStatus: string
    var currentPage: int

    constructor ()
      ensures rockets == [] && searchTerm == "" && selectedOrganization == "" && selectedStatus == ""
      ensures currentPage == 1
    {
      rockets, searchTerm, selectedOrganization, selectedStatus := [], "", "", "";
      currentPage := 1;
    }

    function Filters(): RocketFilters
      reads this
    {
      RocketFilters(searchTerm, selectedOrganization, selectedStatus)
    }

    function Filtered(): seq<Rocket>
      reads this
    {
      FilteredRockets(rockets, Filters())
    }

    function Shown(): seq<Rocket>
      reads this
    {
      CurrentPage(Filtered(), currentPage)
    }

    /** The fetch resolved: `setRockets(data.rockets || [])`. */
    method Load(fetched: seq<Rocket>)
      modifies this`rockets
      ensures rockets == fetched
    {
      rockets := fetched;
    }

    /**
     * Typing into the search box. The reset effect runs only when the value
     * actually changed; it then puts the list back on page 1.
     */
    method SetSearchTerm(term: string)
      modifies this`searchTerm, this`currentPage
      ensures searchTerm == term
      ensures currentPage == if term != old(searchTerm) then 1 else old(currentPage)
    {
      if term != searchTerm {
        currentPage := 1;
      }
      searchTerm := term;
    }

    method SetOrganization(organization: string)
      modifies this`selectedOrganization, this`currentPage
      ensures selectedOrganization == organization
      ensures currentPage == if organization != old(selectedOrganization) then 1 else old(currentPage)
    {
      if organization != selectedOrganization {
        currentPage := 1;
      }
      selectedOrganization := organization;
    }

    method SetStatus(status: string)
      modifies this`selectedStatus, this`currentPage
      ensures selectedStatus == status
      ensures currentPage == if status != old(selectedStatus) then 1 else old(currentPage)
    {
      if status != selectedStatus {
        currentPage := 1;
      }
      selectedStatus := status;
    }

    /** The pagination control's `onPageChange`, which stores whatever page it is given. */
    method SetPage(page: int)
      modifies this`currentPage
      ensures currentPage == page
    {
      currentPage := page;
    }
  }

  /**
   * After any filter change (search term, organization or status) the first
   * page is shown, whatever page was open before.
   */
  method ChangeFilterShowsFirstPage(p: RocketsPage, term: string, organization: string, status: string)
    requires term != p.searchTerm || organization != p.selectedOrganization || status != p.selectedStatus
    modifies p
    ensures p.Filters() == RocketFilters(term, organization, status)
    ensures p.currentPage == 1
    ensures p.Shown() == p.Filtered()[..Min(ItemsPerPage, |p.Filtered()|)]
  {
    p.SetSearchTerm(term);
    p.SetOrganization(organization);
    p.SetStatus(status);
    CurrentPageIsSlice(p.Filtered(), 1);
  }
}
