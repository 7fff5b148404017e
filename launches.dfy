/**
 * The launches list page. Paging is done by the server: the page asks for
 * one page of twelve with optional search, status and type parameters and
 * renders the Prev/Next controls from the pagination metadata it gets back.
 */
module Launches {

  import opened Wrappers
  import opened Text
  import opened Seqs
  import opened Ints
  import opened Records
  import opened Countdown

  datatype LaunchRocket = LaunchRocket(id: int, name: string, organization: OrgRef)

  datatype SatelliteRef = SatelliteRef(id: int, name: string, purpose: string)

  datatype Launch = Launch(
    id: int,
    name: string,
    launchDate: string,
    launchSite: string,
    status: string,
    outcome: string,
    missionObjective: string,
    countdownSeconds: int,
    daysUntilLaunch: int,
    isUpcoming: bool,
    isPast: bool,
    rocket: LaunchRocket,
    satellites: seq<SatelliteRef>)

  datatype PaginationInfo = PaginationInfo(currentPage: int, totalPages: int, totalCount: int, perPage: int)

  datatype LaunchesData = LaunchesData(launches: seq<Launch>, pagination: PaginationInfo)

  const PerPage: string := "12"

  // ---------------------------------------------------------------- query parameters

  type Param = (string, string)

  function Keys(params: seq<Param>): seq<string>
  {
    Map(params, (p: Param) => p.0)
  }

  /** `params.get(key)`: the value of the first parameter with that name. */
  function Get(params: seq<Param>, key: string): Option<string>
  {
    if params == [] then None
    else if params[0].0 == key then Some(params[0].1)
    else Get(params[1..], key)
  }

  /** A name missing from the front part is looked up in the back part. */
  lemma {:induction false} GetConcat(a: seq<Param>, b: seq<Param>, key: string)
    ensures Get(a + b, key) == if Get(a, key).Some? then Get(a, key) else Get(b, key)
  {
    if a == [] {
      assert a + b == b;
    } else {
      assert (a + b)[1..] == a[1..] + b;
      GetConcat(a[1..], b, key);
    }
  }

  /** Lookup in a list of at most one parameter. */
  lemma GetSmall(params: seq<Param>, key: string)
    requires |params| <= 1
    ensures Get(params, key) == if params != [] && params[0].0 == key then Some(params[0].1) else None
  {
    if params != [] { assert params[1..] == []; }
  }

  /** Lookup in five consecutive parts of at most one parameter each: the first part with the name wins. */
  lemma GetFive(a: seq<Param>, b: seq<Param>, c: seq<Param>, d: seq<Param>, e: seq<Param>, key: string)
    requires |a| <= 1 && |b| <= 1 && |c| <= 1 && |d| <= 1 && |e| <= 1
    ensures Get(a + b + c + d + e, key) ==
      if a != [] && a[0].0 == key then Some(a[0].1)
      else if b != [] && b[0].0 == key then Some(b[0].1)
      else if c != [] && c[0].0 == key then Some(c[0].1)
      else if d != [] && d[0].0 == key then Some(d[0].1)
      else if e != [] && e[0].0 == key then Some(e[0].1)
      else None
  {
    GetConcat(a + b + c + d, e, key);
    GetConcat(a + b + c, d, key);
    GetConcat(a + b, c, key);
    GetConcat(a, b, key);
    GetSmall(a, key);
    GetSmall(b, key);
    GetSmall(c, key);
    GetSmall(d, key);
    GetSmall(e, key);
  }

  /** The names of five consecutive parts are the names of each part in turn. */
  lemma KeysOfFive(a: seq<Param>, b: seq<Param>, c: seq<Param>, d: seq<Param>, e: seq<Param>)
    ensures Keys(a + b + c + d + e) == Keys(a) + Keys(b) + Keys(c) + Keys(d) + Keys(e)
  {
  }

  /** The fixed names followed by optional ones, in this order, never repeat. */
  lemma DistinctNames(names: seq<string>, search: seq<string>, status: seq<string>, kind: seq<string>)
    requires search == [] || search == ["search"]
    requires status == [] || status == ["status"]
    requires kind == [] || kind == ["type"]
    requires names == ["page"] + ["per_page"] + search + status + kind
    ensures NoDuplicates(names)
    ensures forall k :: k in names ==> k in ["page", "per_page", "search", "status", "type"]
  {
  }

  /**
   * The query sent for a page and the current filters. It always carries
   * `page` and `per_page=12`; `search` only for a non-empty term, `status`
   * only for a status other than `all`, and `type` only for `upcoming` or
   * `past`. No name occurs twice, and no other name occurs.
   */
  function LaunchQuery(page: int, searchTerm: string, statusFilter: string, typeFilter: string)
    : (params: seq<Param>)
    ensures |params| >= 2 && params[0] == ("page", IntToString(page)) && params[1] == ("per_page", "12")
    ensures Get(params, "page") == Some(IntToString(page))
    ensures Get(params, "per_page") == Some("12")
    ensures Get(params, "search") == if searchTerm != "" then Some(searchTerm) else None
    ensures Get(params, "status") == if statusFilter != "all" then Some(statusFilter) else None
    ensures Get(params, "type") ==
      if typeFilter == "upcoming" || typeFilter == "past" then Some(typeFilter) else None
    ensures NoDuplicates(Keys(params))
    ensures forall k :: k in Keys(params) ==> k in ["page", "per_page", "search", "status", "type"]
  {
    var first: seq<Param> := [("page", IntToString(page))];
    var second: seq<Param> := [("per_page", PerPage)];
    var search: seq<Param> := if searchTerm != "" then [("search", searchTerm)] else [];
    var status: seq<Param> := if statusFilter != "all" then [("status", statusFilter)] else [];
    var kind: seq<Param> :=
      if typeFilter == "upcoming" then [("type", "upcoming")]
      else if typeFilter == "past" then [("type", "past")]
      else [];
    GetFive(first, second, search, status, kind, "page");
    GetFive(first, second, search, status, kind, "per_page");
    GetFive(first, second, search, status, kind, "search");
    GetFive(first, second, search, status, kind, "status");
    GetFive(first, second, search, status, kind, "type");
    KeysOfFive(first, second, search, status, kind);
    var names := Keys(first) + Keys(second) + Keys(search) + Keys(status) + Keys(kind);
    assert Keys(first) == ["page"] && Keys(second) == ["per_page"];
    assert Keys(search) == if search == [] then [] else ["search"];
    assert Keys(status) == if status == [] then [] else ["status"];
    assert Keys(kind) == if kind == [] then [] else ["type"];
    DistinctNames(names, Keys(search), Keys(status), Keys(kind));
    first + second + search + status + kind
  }

  // ---------------------------------------------------------------- derived values

  /** `getStatusColor`: compares the lower-cased status against the four known ones. */
  function StatusColor(status: string): (color: string)
    ensures Lower(status) == "scheduled" ==> color == "text-blue-400"
    ensures Lower(status) == "completed" ==> color == "text-green-400"
    ensures Lower(status) == "failed" ==> color == "text-red-400"
    ensures Lower(status) == "delayed" ==> color == "text-yellow-400"
    ensures Lower(status) !in ["scheduled", "completed", "failed", "delayed"] ==> color == "text-gray-400"
  {
    match Lower(status)
    case "scheduled" => "text-blue-400"
    case "completed" => "text-green-400"
    case "failed" => "text-red-400"
    case "delayed" => "text-yellow-400"
    case _ => "text-gray-400"
  }

  /** The colour depends on the status only through its lower-cased form. */
  lemma StatusColorIgnoresCase(a: string, b: string)
    requires Lower(a) == Lower(b)
    ensures StatusColor(a) == StatusColor(b)
  {
  }

  /** A capitalised status gets the colour of its lower-case form. */
  lemma StatusColorExamples()
    ensures StatusColor("Scheduled") == "text-blue-400"
  {
    var s := "Scheduled";
    assert Lower(s)[0] == 's';
    assert forall i :: 1 <= i < |s| ==> Lower(s)[i] == s[i];
    assert Lower(s) == "scheduled";
  }

  /**
   * Gray is the colour of exactly the statuses outside the four known ones,
   * "unknown" among them.
   */
  lemma UnknownStatusIsGray(s: string)
    ensures StatusColor(s) == "text-gray-400" <==> Lower(s) !in ["scheduled", "completed", "failed", "delayed"]
    ensures StatusColor("unknown") == "text-gray-400"
  {
    assert Lower("unknown")[0] == 'u';
  }

  /** What a launch card shows beneath its header. */
  datatype Panel =
    | CountdownPanel(countdown: Countdown)
    | OutcomePanel(caption: string, success: bool)

  /**
   * Upcoming launches show the countdown of their `countdown_seconds`; every
   * other launch shows its outcome, `Unknown` when the outcome is empty,
   * coloured as a success only for the outcome `success`.
   */
  function LaunchPanel(l: Launch): (p: Panel)
    ensures p.CountdownPanel? <==> l.isUpcoming
    ensures p.CountdownPanel? ==> p.countdown == FormatCountdown(l.countdownSeconds)
    ensures p.OutcomePanel? ==> p.caption != "" && (l.outcome != "" ==> p.caption == l.outcome)
    ensures p.OutcomePanel? && l.outcome == "" ==> p.caption == "Unknown"
    ensures p.OutcomePanel? ==> (p.success <==> l.outcome == "success")
  {
    if l.isUpcoming then CountdownPanel(FormatCountdown(l.countdownSeconds))
    else OutcomePanel(if l.outcome == "" then "Unknown" else l.outcome, l.outcome == "success")
  }

  /**
   * The branch follows `is_upcoming` alone: an upcoming launch whose
   * countdown has already run out still gets a countdown, with negative fields.
   */
  lemma NegativeCountdownStillShown(l: Launch)
    requires l.isUpcoming && l.countdownSeconds < 0
    ensures LaunchPanel(l).CountdownPanel? && LaunchPanel(l).countdown.days < 0
    ensures l.countdownSeconds == -1 ==> LaunchPanel(l) == CountdownPanel(Countdown(-1, -1, -1))
  {
    CountdownOfNegative();
  }

  /** The payload list: the first two satellites and a "+n more" line for the rest. */
  function PayloadPreview(satellites: seq<SatelliteRef>): (r: (seq<SatelliteRef>, Option<nat>))
    ensures |r.0| <= 2 && |r.0| <= |satellites| && r.0 == satellites[..|r.0|]
    ensures |satellites| <= 2 ==> r == (satellites, None)
    ensures |satellites| > 2 ==> |r.0| == 2 && r.1 == Some(|satellites| - 2)
  {
    Preview(satellites, 2)
  }

  // ---------------------------------------------------------------- paging controls

  /** The page the Previous button asks for: `Math.max(1, currentPage - 1)`. */
  function PreviousPage(page: int): (p: int)
    ensures p >= 1
    ensures page > 1 ==> p == page - 1
    ensures page <= 1 ==> p == 1
  {
    Max(1, page - 1)
  }

  /** The page the Next button asks for: `Math.min(total_pages, currentPage + 1)`. */
  function NextPage(page: int, totalPages: int): (p: int)
    ensures p <= totalPages
    ensures page < totalPages ==> p == page + 1
    ensures page >= totalPages ==> p == totalPages
  {
    Min(totalPages, page + 1)
  }

  predicate PreviousDisabled(page: int)
  {
    page == 1
  }

  predicate NextDisabled(page: int, totalPages: int)
  {
    page == totalPages
  }

  /** Both buttons keep a page inside `[1, total_pages]`. */
  lemma PagingStaysInRange(page: int, totalPages: int)
    requires 1 <= page <= totalPages
    ensures 1 <= PreviousPage(page) <= totalPages
    ensures 1 <= NextPage(page, totalPages) <= totalPages
  {
  }

  /** A button is disabled exactly when pressing it would not move the page. */
  lemma DisabledExactlyAtTheEnds(page: int, totalPages: int)
    requires 1 <= page <= totalPages
    ensures PreviousDisabled(page) <==> PreviousPage(page) == page
    ensures NextDisabled(page, totalPages) <==> NextPage(page, totalPages) == page
  {
  }

  // ---------------------------------------------------------------- page state

  /**
   * The component's state. `requests` lists the query of every fetch the
   * page has started, oldest first; responses are applied by `Receive`.
   */
  class LaunchesPage {
    var data: Option<LaunchesData>
    var searchTerm: string
    var statusFilter: string
    var typeFilter: string
    var currentPage: int
    var requests: seq<seq<Param>>

    ghost predicate Valid()
      reads this
    {
      currentPage >= 1
    }

    /** Mounting runs the fetch effect once, for page 1 with no filters. */
    constructor ()
      ensures Valid()
      ensures data == None && searchTerm == "" && statusFilter == "all" && typeFilter == "all"
      ensures currentPage == 1
      ensures requests == [LaunchQuery(1, "", "all", "all")]
    {
      data, searchTerm, statusFilter, typeFilter := None, "", "all", "all";
      currentPage := 1;
      requests := [];
      new;
      FetchLaunches();
    }

    /** `fetchLaunches`: builds the parameters with successive `append`s and starts the request. */
    method FetchLaunches()
      modifies this`requests
      ensures requests == old(requests) + [LaunchQuery(currentPage, searchTerm, statusFilter, typeFilter)]
    {
      var params: seq<Param> := [("page", IntToString(currentPage)), ("per_page", PerPage)];
      ghost var built := params;
      assert built == [("page", IntToString(currentPage))] + [("per_page", PerPage)];
      if searchTerm != "" {
        params := params + [("search", searchTerm)];
      }
      assert params == built + (if searchTerm != "" then [("search", searchTerm)] else []);
      built := params;
      if statusFilter != "all" {
        params := params + [("status", statusFilter)];
      }
      assert params == built + (if statusFilter != "all" then [("status", statusFilter)] else []);
      built := params;
      if typeFilter == "upcoming" {
        params := params + [("type", "upcoming")];
      }
      if typeFilter == "past" {
        params := params + [("type", "past")];
      }
      assert params == built + (if typeFilter == "upcoming" then [("type", "upcoming")]
        else if typeFilter == "past" then [("type", "past")] else []);
      requests := requests + [params];
    }

    /** A response arrived: `setData(result)`. */
    method Receive(result: LaunchesData)
      modifies this`data
      ensures data == Some(result)
    {
      data := Some(result);
    }

    /** Typing changes the term but starts no request: `searchTerm` is not a dependency of the effect. */
    method SetSearchTerm(term: string)
      modifies this`searchTerm
      ensures searchTerm == term
    {
      searchTerm := term;
    }

    /** A new status starts a request for the same page; the page is not reset. */
    method SetStatusFilter(status: string)
      requires Valid()
      modifies this`statusFilter, this`requests
      ensures Valid()
      ensures statusFilter == status
      ensures requests == old(requests) +
        (if status != old(statusFilter) then [LaunchQuery(currentPage, searchTerm, status, typeFilter)] else [])
    {
      if status != statusFilter {
        statusFilter := status;
        FetchLaunches();
      }
    }

    /** A new type starts a request for the same page; the page is not reset. */
    method SetTypeFilter(kind: string)
      requires Valid()
      modifies this`typeFilter, this`requests
      ensures Valid()
      ensures typeFilter == kind
      ensures requests == old(requests) +
        (if kind != old(typeFilter) then [LaunchQuery(currentPage, searchTerm, statusFilter, kind)] else [])
    {
      if kind != typeFilter {
        typeFilter := kind;
        FetchLaunches();
      }
    }

    /**
     * `handleSearch`: `setCurrentPage(1)` then `fetchLaunches()`. The direct
     * call still sees the page that was open, so it asks for that page; if
     * the page was not 1, the effect then asks again for page 1.
     */
    method HandleSearch()
      requires Valid()
      modifies this`currentPage, this`requests
      ensures Valid()
      ensures currentPage == 1
      ensures requests == old(requests) + [LaunchQuery(old(currentPage), searchTerm, statusFilter, typeFilter)] +
        (if old(currentPage) != 1 then [LaunchQuery(1, searchTerm, statusFilter, typeFilter)] else [])
    {
      FetchLaunches();
      if currentPage != 1 {
        currentPage := 1;
        FetchLaunches();
      }
    }

    /** The Previous button; the controls are rendered only when there is more than one page. */
    method Previous()
      requires Valid() && data.Some? && data.value.pagination.totalPages > 1
      modifies this`currentPage, this`requests
      ensures Valid()
      ensures currentPage == PreviousPage(old(currentPage))
      ensures old(currentPage) <= data.value.pagination.totalPages ==>
        currentPage <= data.value.pagination.totalPages
      ensures requests == old(requests) +
        (if currentPage != old(currentPage) then [LaunchQuery(currentPage, searchTerm, statusFilter, typeFilter)] else [])
    {
      if !PreviousDisabled(currentPage) {
        var page := PreviousPage(currentPage);
        if page != currentPage {
          currentPage := page;
          FetchLaunches();
        }
      }
    }

    /** The Next button; the controls are rendered only when there is more than one page. */
    method Next()
      requires Valid() && data.Some? && data.value.pagination.totalPages > 1
      modifies this`currentPage, this`requests
      ensures Valid()
      ensures currentPage == if old(currentPage) == data.value.pagination.totalPages then old(currentPage)
        else NextPage(old(currentPage), data.value.pagination.totalPages)
      ensures currentPage <= data.value.pagination.totalPages || currentPage == old(currentPage)
      ensures requests == old(requests) +
        (if currentPage != old(currentPage) then [LaunchQuery(currentPage, searchTerm, statusFilter, typeFilter)] else [])
    {
      var total := data.value.pagination.totalPages;
      if !NextDisabled(currentPage, total) {
        var page := NextPage(currentPage, total);
        if page != currentPage {
          currentPage := page;
          FetchLaunches();
        }
      }
    }
  }
}
