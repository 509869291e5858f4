/**
 * The grounds listing page: a free-text search on name and city, an exact city
 * filter and an exact sport filter, applied in turn, and the option lists of the
 * two drop-downs.
 */
module GroundsPage {
  import opened Strings
  import opened Seqs
  import opened Domain

  /** The three criteria; the empty string means "all". */
  datatype Criteria = Criteria(searchTerm: string, selectedCity: string, selectedSport: string)

  /** The search box matches a ground whose lower-cased name or city contains the lower-cased term. */
  predicate SearchHit(g: Ground, term: string) {
    Contains(Lower(g.name), Lower(term)) || Contains(Lower(g.city), Lower(term))
  }

  /** A ground satisfies every active criterion. */
  predicate Matches(g: Ground, c: Criteria) {
    && (c.searchTerm == "" || SearchHit(g, c.searchTerm))
    && (c.selectedCity == "" || g.city == c.selectedCity)
    && (c.selectedSport == "" || g.sport == c.selectedSport)
  }

  function Matcher(c: Criteria): Ground -> bool {
    g => Matches(g, c)
  }

  /**
   * `filterGrounds`: the search, city and sport filters applied in turn, each only
   * when its criterion is non-empty. The chain equals one filter by all criteria.
   */
  function FilterGrounds(grounds: seq<Ground>, c: Criteria): (r: seq<Ground>)
    ensures r == Filter(grounds, Matcher(c))
  {
    var search := (g: Ground) => SearchHit(g, c.searchTerm);
    var city := (g: Ground) => g.city == c.selectedCity;
    var sport := (g: Ground) => g.sport == c.selectedSport;
    var afterSearch := (g: Ground) => c.searchTerm == "" || SearchHit(g, c.searchTerm);
    var afterCity := (g: Ground) => afterSearch(g) && (c.selectedCity == "" || g.city == c.selectedCity);
    FilterIfIsFilter(c.searchTerm != "", grounds, search, afterSearch);
    FilterIfAfterFilter(c.selectedCity != "", grounds, afterSearch, city, afterCity);
    FilterIfAfterFilter(c.selectedSport != "", grounds, afterCity, sport, Matcher(c));
    var bySearch := FilterIf(c.searchTerm != "", grounds, search);
    var byCity := FilterIf(c.selectedCity != "", bySearch, city);
    FilterIf(c.selectedSport != "", byCity, sport)
  }

  /** The filtered list keeps the page's order, and holds exactly the grounds meeting every active criterion. */
  lemma FilterGroundsSound(grounds: seq<Ground>, c: Criteria)
    ensures IsSubseq(FilterGrounds(grounds, c), grounds)
    ensures forall i :: 0 <= i < |FilterGrounds(grounds, c)| ==> Matches(FilterGrounds(grounds, c)[i], c)
    ensures forall i :: 0 <= i < |grounds| && Matches(grounds[i], c) ==> grounds[i] in FilterGrounds(grounds, c)
  {
    var r := FilterGrounds(grounds, c);
    assert forall i :: 0 <= i < |r| ==> Matcher(c)(r[i]);
  }

  /** Each result named by a search term carries it in its name or city, ignoring case. */
  lemma SearchResultsContainTerm(grounds: seq<Ground>, c: Criteria, i: nat)
    requires c.searchTerm != "" && i < |FilterGrounds(grounds, c)|
    ensures var g := FilterGrounds(grounds, c)[i];
      Contains(Lower(g.name), Lower(c.searchTerm)) || Contains(Lower(g.city), Lower(c.searchTerm))
  {
    FilterGroundsSound(grounds, c);
  }

  /** "Clear filters": all three criteria become empty. */
  function ClearFilters(): (c: Criteria)
    ensures c.searchTerm == "" && c.selectedCity == "" && c.selectedSport == ""
  {
    Criteria("", "", "")
  }

  /** With the criteria cleared every ground is listed again, in order. */
  lemma ClearedShowsAll(grounds: seq<Ground>)
    ensures FilterGrounds(grounds, ClearFilters()) == grounds
  {
    FilterKeepsAll(grounds, Matcher(ClearFilters()));
  }

  /** `grounds.map(g => g.city)`. */
  function CityColumn(grounds: seq<Ground>): (r: seq<string>)
    ensures |r| == |grounds| && forall i :: 0 <= i < |grounds| ==> r[i] == grounds[i].city
  {
    seq(|grounds|, i requires 0 <= i < |grounds| => grounds[i].city)
  }

  /** `grounds.map(g => g.sport)`. */
  function SportColumn(grounds: seq<Ground>): (r: seq<string>)
    ensures |r| == |grounds| && forall i :: 0 <= i < |grounds| ==> r[i] == grounds[i].sport
  {
    seq(|grounds|, i requires 0 <= i < |grounds| => grounds[i].sport)
  }

  /**
   * `[...new Set(grounds.map(g => g.city))]`: the cities of the drop-down, each once,
   * in the order in which they first occur.
   */
  function Cities(grounds: seq<Ground>): (r: seq<string>)
    ensures NoDuplicates(r)
    ensures forall i :: 0 <= i < |r| ==> exists k :: 0 <= k < |grounds| && grounds[k].city == r[i]
    ensures forall k :: 0 <= k < |grounds| ==> grounds[k].city in r
    ensures forall i, j :: 0 <= i < j < |r| ==> FirstIndex(CityColumn(grounds), r[i]) < FirstIndex(CityColumn(grounds), r[j])
  {
    var r := Distinct(CityColumn(grounds));
    assert forall i :: 0 <= i < |r| ==> r[i] in CityColumn(grounds);
    r
  }

  /** `[...new Set(grounds.map(g => g.sport))]`: the sports of the drop-down, likewise. */
  function Sports(grounds: seq<Ground>): (r: seq<string>)
    ensures NoDuplicates(r)
    ensures forall i :: 0 <= i < |r| ==> exists k :: 0 <= k < |grounds| && grounds[k].sport == r[i]
    ensures forall k :: 0 <= k < |grounds| ==> grounds[k].sport in r
    ensures forall i, j :: 0 <= i < j < |r| ==> FirstIndex(SportColumn(grounds), r[i]) < FirstIndex(SportColumn(grounds), r[j])
  {
    var r := Distinct(SportColumn(grounds));
    assert forall i :: 0 <= i < |r| ==> r[i] in SportColumn(grounds);
    r
  }
}
