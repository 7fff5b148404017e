/**
 * The organizations page: organizations filtered by a case-insensitive
 * search over name and country plus country and type selects.
 */
module Organizations {

  import opened Text
  import opened Seqs

  /** `type` is the organization's kind (government or private); `type` is reserved in Dafny. */
  datatype Organization = Organization(
    id: int,
    name: string,
    country: string,
    kind: string,
    description: string,
    foundedYear: int,
    rocketCount: int,
    satelliteCount: int,
    launchCount: int)

  datatype OrganizationFilters = OrganizationFilters(searchTerm: string, country: string, kind: string)

  predicate MatchesSearch(o: Organization, term: string)
  {
    Includes(Lower(o.name), Lower(term)) || Includes(Lower(o.country), Lower(term))
  }

  predicate Matches(o: Organization, f: OrganizationFilters)
  {
    && MatchesSearch(o, f.searchTerm)
    && (f.country == "" || o.country == f.country)
    && (f.kind == "" || o.kind == f.kind)
  }

  function Keep(f: OrganizationFilters): Organization -> bool
  {
    (o: Organization) => Matches(o, f)
  }

  /** `filteredOrganizations`: the organizations, in order, that match the search and the set selects. */
  function FilteredOrganizations(orgs: seq<Organization>, f: OrganizationFilters): (r: seq<Organization>)
    ensures IsSubsequence(r, orgs)
    ensures forall o :: o in r ==>
      && (Includes(Lower(o.name), Lower(f.searchTerm)) || Includes(Lower(o.country), Lower(f.searchTerm)))
      && (f.country != "" ==> o.country == f.country)
      && (f.kind != "" ==> o.kind == f.kind)
    ensures forall o :: o in orgs && Matches(o, f) ==> o in r
    ensures forall o :: o in orgs ==> multiset(r)[o] == if Matches(o, f) then multiset(orgs)[o] else 0
  {
    FilterMultiplicity(orgs, Keep(f));
    Filter(orgs, Keep(f))
  }

  /** With no search term and both selects on "All" every organization is listed. */
  lemma NoFiltersKeepAll(orgs: seq<Organization>)
    ensures FilteredOrganizations(orgs, OrganizationFilters("", "", "")) == orgs
  {
    forall o | o in orgs ensures Keep(OrganizationFilters("", "", ""))(o) {
      IncludesEmpty(Lower(o.name));
    }
    FilterAll(orgs, Keep(OrganizationFilters("", "", "")));
  }

  /** Filtering the filtered list again changes nothing. */
  lemma FilterOrganizationsIdempotent(orgs: seq<Organization>, f: OrganizationFilters)
    ensures FilteredOrganizations(FilteredOrganizations(orgs, f), f) == FilteredOrganizations(orgs, f)
  {
    FilterIdempotent(orgs, Keep(f));
  }

  /**
   * The search ignores case: a term and its lower-case form list the same
   * organizations.
   */
  lemma SearchIgnoresCase(orgs: seq<Organization>, f: OrganizationFilters)
    ensures FilteredOrganizations(orgs, f.(searchTerm := Lower(f.searchTerm))) == FilteredOrganizations(orgs, f)
  {
    LowerIdempotent(f.searchTerm);
    FilterExtensional(orgs, Keep(f.(searchTerm := Lower(f.searchTerm))), Keep(f));
  }

  function CountryOf(o: Organization): string
  {
    o.country
  }

  /** `countries`: each country that occurs, once, in first-occurrence order. */
  function CountryOptions(orgs: seq<Organization>): (r: seq<string>)
    ensures NoDuplicates(r)
    ensures forall c :: c in r ==> exists o :: o in orgs && o.country == c
    ensures forall o :: o in orgs ==> o.country in r
    ensures InFirstOccurrenceOrder(r, Map(orgs, CountryOf))
  {
    DistinctValues(orgs, CountryOf)
  }

  function KindOf(o: Organization): string
  {
    o.kind
  }

  /** `types`: each kind that occurs, once, in first-occurrence order. */
  function KindOptions(orgs: seq<Organization>): (r: seq<string>)
    ensures NoDuplicates(r)
    ensures forall k :: k in r ==> exists o :: o in orgs && o.kind == k
    ensures forall o :: o in orgs ==> o.kind in r
    ensures InFirstOccurrenceOrder(r, Map(orgs, KindOf))
  {
    DistinctValues(orgs, KindOf)
  }
}
