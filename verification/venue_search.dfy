/** The venue listing page (client/src/pages/Venue.jsx): a fixed list of venues and a filter over
    it driven by five criteria. */
module VenueSearch {
  import opened Common
  import opened Seqs
  import opened Text

  datatype Venue = Venue(
    id: int,
    name: string,
    capacity: string,
    venueType: string,
    space: string,
    location: string,
    rating: int,
    price: int)

  /** The `venues` constant. */
  const Venues: seq<Venue> := [
    Venue(1, "Balaji Banquet", "500 people", "Party Palace", "Indoor", "Kathmandu", 4, 1500),
    Venue(2, "Moonlight Cafe & Banquet", "500 people", "Cafe", "Indoor", "Lalitpur", 5, 1700),
    Venue(3, "Sky Restro & Banquet", "1200 people", "Restro", "Indoor, Outdoor", "Kathmandu", 3, 2000)
  ]

  /** The filter state: the search box, the location select, the chosen star (0 for none) and
      the two price boxes, which hold text. */
  datatype Criteria = Criteria(searchTerm: string, location: string, rating: int, minPrice: string, maxPrice: string)

  /** The initial state of the five criteria. */
  const NoCriteria := Criteria("", "", 0, "", "")

  /** A price bound as `v.price >= parseInt(min)` compares it: an empty box always holds, and a
      box that does not parse (`NaN`) never does. */
  predicate AtLeast(price: int, bound: string)
  {
    bound == "" || (ParseInt(bound).Some? && price >= ParseInt(bound).value)
  }

  predicate AtMost(price: int, bound: string)
  {
    bound == "" || (ParseInt(bound).Some? && price <= ParseInt(bound).value)
  }

  /** The predicate `applyFilters` keeps a venue by. */
  predicate Matches(c: Criteria, v: Venue)
  {
    && (c.searchTerm == "" || Contains(ToLower(v.name), ToLower(c.searchTerm)))
    && (c.location == "" || v.location == c.location)
    && (c.rating == 0 || v.rating >= c.rating)
    && AtLeast(v.price, c.minPrice)
    && AtMost(v.price, c.maxPrice)
  }

  function Matcher(c: Criteria): Venue -> bool
  {
    v => Matches(c, v)
  }

  /** `applyFilters`: the venues the criteria match, in their original order. */
  function ApplyFilters(venues: seq<Venue>, c: Criteria): (r: seq<Venue>)
    ensures forall v :: v in r <==> v in venues && Matches(c, v)
    ensures SubsequenceOf(r, venues)
  {
    Filter(venues, Matcher(c))
  }

  /** With no criteria set every venue is listed. */
  lemma NoCriteriaKeepsAll(venues: seq<Venue>)
    ensures ApplyFilters(venues, NoCriteria) == venues
  {
    FilterKeepsAll(venues, Matcher(NoCriteria));
  }

  /** The name search ignores case: two search terms with the same lower-case form select the
      same venues. */
  lemma SearchIgnoresCase(venues: seq<Venue>, c: Criteria, term: string)
    requires ToLower(term) == ToLower(c.searchTerm)
    ensures ApplyFilters(venues, c.(searchTerm := term)) == ApplyFilters(venues, c)
  {
    assert |term| == |c.searchTerm|;
    FilterCongruent(venues, Matcher(c.(searchTerm := term)), Matcher(c));
  }

  /** The price bounds are inclusive: a bound written as the venue's own price keeps it. */
  lemma PriceBoundsInclusive(v: Venue)
    requires v.price >= 0
    ensures AtLeast(v.price, Decimal(v.price)) && AtMost(v.price, Decimal(v.price))
  {
    ParseIntDecimal(v.price);
  }

  /** The rating filter keeps exactly the venues rated at least the chosen star. */
  lemma RatingAtLeast(c: Criteria, v: Venue)
    requires c.searchTerm == "" && c.location == "" && c.minPrice == "" && c.maxPrice == "" && c.rating != 0
    ensures Matches(c, v) <==> v.rating >= c.rating
  {
  }

  /** A minimum price that does not parse keeps nothing. */
  lemma UnparsableMinPriceKeepsNothing(venues: seq<Venue>, c: Criteria)
    requires c.minPrice != "" && ParseInt(c.minPrice).None?
    ensures ApplyFilters(venues, c) == []
  {
    FilterDropsAll(venues, Matcher(c));
  }

  /** The page: the criteria as typed, and the list on screen. */
  datatype Page = Page(criteria: Criteria, filtered: seq<Venue>)

  const InitialPage := Page(NoCriteria, Venues)

  /** What the user does: typing in the search or price boxes only changes the criteria;
      choosing a location or a star re-runs the filter through the effect on those two, but only
      when the value changes (setting a state to the value it already holds re-renders nothing,
      so the effect does not run); pressing search re-runs it. */
  datatype Event =
    | TypeSearch(term: string)
    | SelectLocation(location: string)
    | ChooseRating(star: int)
    | TypeMinPrice(minPrice: string)
    | TypeMaxPrice(maxPrice: string)
    | Search

  function Step(p: Page, e: Event): (q: Page)
    ensures e.SelectLocation? && e.location != p.criteria.location ==>
              q == Page(p.criteria.(location := e.location), ApplyFilters(Venues, q.criteria))
    ensures e.ChooseRating? && e.star != p.criteria.rating ==>
              q == Page(p.criteria.(rating := e.star), ApplyFilters(Venues, q.criteria))
    ensures e.Search? ==> q == Page(p.criteria, ApplyFilters(Venues, p.criteria))
    ensures ((e.SelectLocation? && e.location == p.criteria.location)
             || (e.ChooseRating? && e.star == p.criteria.rating)) ==> q == p
    ensures e.TypeSearch? ==> q == Page(p.criteria.(searchTerm := e.term), p.filtered)
    ensures e.TypeMinPrice? ==> q == Page(p.criteria.(minPrice := e.minPrice), p.filtered)
    ensures e.TypeMaxPrice? ==> q == Page(p.criteria.(maxPrice := e.maxPrice), p.filtered)
  {
    match e
    case TypeSearch(t) => p.(criteria := p.criteria.(searchTerm := t))
    case SelectLocation(l) =>
      if l == p.criteria.location then p
      else
        var c := p.criteria.(location := l);
        Page(c, ApplyFilters(Venues, c))
    case ChooseRating(s) =>
      if s == p.criteria.rating then p
      else
        var c := p.criteria.(rating := s);
        Page(c, ApplyFilters(Venues, c))
    case TypeMinPrice(m) => p.(criteria := p.criteria.(minPrice := m))
    case TypeMaxPrice(m) => p.(criteria := p.criteria.(maxPrice := m))
    case Search => p.(filtered := ApplyFilters(Venues, p.criteria))
  }

  /** Choosing the star already chosen, after typing a search term, leaves the list as it was:
      the typed term takes effect only with the next real change or search. */
  lemma SameStarKeepsList(p: Page, term: string)
    requires p.criteria.rating != 0
    ensures var q := Step(Step(p, TypeSearch(term)), ChooseRating(p.criteria.rating));
            q.filtered == p.filtered && q.criteria == p.criteria.(searchTerm := term)
  {
  }

  /** With the three venues: after choosing 3 stars, typing the name of the second venue and
      choosing 3 stars again, the list still shows every venue, although the first no longer
      matches the criteria. */
  lemma StaleListAfterSameStar()
    ensures var p3 := Step(Step(Step(InitialPage, ChooseRating(3)), TypeSearch("Moonlight Cafe & Banquet")), ChooseRating(3));
            p3.filtered == Venues && Venues[0] !in ApplyFilters(Venues, p3.criteria)
  {
    var c1 := NoCriteria.(rating := 3);
    FilterKeepsAll(Venues, Matcher(c1));
    assert Step(InitialPage, ChooseRating(3)) == Page(c1, Venues);
    assert |ToLower(Venues[0].name)| < |ToLower("Moonlight Cafe & Banquet")|;
    assert !Matches(c1.(searchTerm := "Moonlight Cafe & Banquet"), Venues[0]);
  }

  /** Each filter run starts from the full list, so what is shown after it depends only on the
      criteria at that moment, not on what was shown before. */
  lemma FilterForgetsHistory(p1: Page, p2: Page)
    requires p1.criteria == p2.criteria
    ensures Step(p1, Search) == Step(p2, Search)
  {
  }

  /** The first page shows every venue, as the filter with no criteria does. */
  lemma InitialPageConsistent()
    ensures InitialPage.filtered == ApplyFilters(Venues, InitialPage.criteria)
  {
    NoCriteriaKeepsAll(Venues);
  }
}
