/**
 * The satellites page: satellites filtered by a case-insensitive search over
 * name, organization name and purpose plus organization, orbit-type and
 * status selects, and the three select option lists.
 */
module Satellites {

  import opened Text
  import opened Seqs
  import opened Records

  datatype Satellite = Satellite(
    id: int,
    name: string,
    purpose: string,
    mass: real,
    height: real,
    width: real,
    depth: real,
    orbitType: string,
    status: string,
    launchDate: string,
    ageInDays: int,
    organization: OrgRef)

  datatype SatelliteFilters = SatelliteFilters(
    searchTerm: string,
    organization: string,
    orbitType: string,
    status: string)

  predicate MatchesSearch(s: Satellite, term: string)
  {
    || Includes(Lower(s.name), Lower(term))
    || Includes(Lower(s.organization.name), Lower(term))
    || Includes(Lower(s.purpose), Lower(term))
  }

  predicate Matches(s: Satellite, f: SatelliteFilters)
  {
    && MatchesSearch(s, f.searchTerm)
    && (f.organization == "" || s.organization.name == f.organization)
    && (f.orbitType == "" || s.orbitType == f.orbitType)
    && (f.status == "" || s.status == f.status)
  }

  function Keep(f: SatelliteFilters): Satellite -> bool
  {
    (s: Satellite) => Matches(s, f)
  }

  /**
   * `filteredSatellites`: the satellites, in order, that match the search
   * and every select that is set.
   */
  function FilteredSatellites(satellites: seq<Satellite>, f: SatelliteFilters): (r: seq<Satellite>)
    ensures IsSubsequence(r, satellites)
    ensures forall s :: s in r ==>
      && MatchesSearch(s, f.searchTerm)
      && (f.organization != "" ==> s.organization.name == f.organization)
      && (f.orbitType != "" ==> s.orbitType == f.orbitType)
      && (f.status != "" ==> s.status == f.status)
    ensures forall s :: s in satellites && Matches(s, f) ==> s in r
    ensures forall s :: s in satellites ==>
      multiset(r)[s] == if Matches(s, f) then multiset(satellites)[s] else 0
  {
    FilterMultiplicity(satellites, Keep(f));
    Filter(satellites, Keep(f))
  }

  /** With no search term and every select on "All" every satellite is listed. */
  lemma NoFiltersKeepAll(satellites: seq<Satellite>)
    ensures FilteredSatellites(satellites, SatelliteFilters("", "", "", "")) == satellites
  {
    forall s | s in satellites ensures Keep(SatelliteFilters("", "", "", ""))(s) {
      IncludesEmpty(Lower(s.name));
    }
    FilterAll(satellites, Keep(SatelliteFilters("", "", "", "")));
  }

  /**
   * Choosing an orbit type when none was chosen only narrows the list: the
   * new list is the old one with the other orbit types dropped.
   */
  lemma ChoosingOrbitTypeNarrows(satellites: seq<Satellite>, f: SatelliteFilters, orbit: string)
    requires f.orbitType == "" && orbit != ""
    ensures var g := f.(orbitType := orbit);
      && FilteredSatellites(satellites, g)
         == Filter(FilteredSatellites(satellites, f), (s: Satellite) => s.orbitType == orbit)
      && IsSubsequence(FilteredSatellites(satellites, g), FilteredSatellites(satellites, f))
  {
    var g := f.(orbitType := orbit);
    FilterStronger(satellites, Keep(f), Keep(g));
    var narrowed := Filter(satellites, Keep(f));
    forall s | s in narrowed ensures Keep(g)(s) == (s.orbitType == orbit) {
    }
    FilterExtensional(narrowed, Keep(g), (s: Satellite) => s.orbitType == orbit);
  }

  /** Filtering the filtered list again changes nothing. */
  lemma FilterSatellitesIdempotent(satellites: seq<Satellite>, f: SatelliteFilters)
    ensures FilteredSatellites(FilteredSatellites(satellites, f), f) == FilteredSatellites(satellites, f)
  {
    FilterIdempotent(satellites, Keep(f));
  }

  function OrganizationName(s: Satellite): string
  {
    s.organization.name
  }

  /** `organizations`: each organization name that occurs, once, in first-occurrence order. */
  function OrganizationOptions(satellites: seq<Satellite>): (r: seq<string>)
    ensures NoDuplicates(r)
    ensures forall o :: o in r ==> exists s :: s in satellites && s.organization.name == o
    ensures forall s :: s in satellites ==> s.organization.name in r
    ensures InFirstOccurrenceOrder(r, Map(satellites, OrganizationName))
  {
    DistinctValues(satellites, OrganizationName)
  }

  function OrbitTypeOf(s: Satellite): string
  {
    s.orbitType
  }

  /** `orbitTypes`: each orbit type that occurs, once, in first-occurrence order. */
  function OrbitTypeOptions(satellites: seq<Satellite>): (r: seq<string>)
    ensures NoDuplicates(r)
    ensures forall o :: o in r ==> exists s :: s in satellites && s.orbitType == o
    ensures forall s :: s in satellites ==> s.orbitType in r
    ensures InFirstOccurrenceOrder(r, Map(satellites, OrbitTypeOf))
  {
    DistinctValues(satellites, OrbitTypeOf)
  }

  function StatusOf(s: Satellite): string
  {
    s.status
  }

  /** `statuses`: each status that occurs, once, in first-occurrence order. */
  function StatusOptions(satellites: seq<Satellite>): (r: seq<string>)
    ensures NoDuplicates(r)
    ensures forall o :: o in r ==> exists s :: s in satellites && s.status == o
    ensures forall s :: s in satellites ==> s.status in r
    ensures InFirstOccurrenceOrder(r, Map(satellites, StatusOf))
  {
    DistinctValues(satellites, StatusOf)
  }
}
