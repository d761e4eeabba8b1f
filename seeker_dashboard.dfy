/**
 * The seeker dashboard: four filter criteria, the listing filter the page
 * re-runs over a fresh copy of the fixed dataset whenever a criterion
 * changes, and the small updates the filter panel makes to the criteria.
 */
module SeekerDashboard {
  import opened Wrappers
  import opened Text
  import opened Seqs
  import opened PgTypes
  import opened MockData

  /** The filter inputs: search text, `[min, max]` price, an optional room type, selected facility ids. */
  datatype Criteria = Criteria(
    searchQuery: string,
    priceRange: (int, int),
    selectedRoomType: Option<string>,
    selectedFacilities: seq<string>)

  const MaxPrice: int := 30000

  /** The criteria on first render and after "Reset". */
  const InitialCriteria: Criteria := Criteria("", (0, MaxPrice), None, [])

  /** The lower-cased query occurs in the lower-cased name or location. */
  predicate TextMatch(query: string, pg: PgListing)
  {
    Contains(Lower(pg.name), query) || Contains(Lower(pg.location), query)
  }

  predicate InPriceRange(range: (int, int), pg: PgListing)
  {
    range.0 <= pg.price <= range.1
  }

  /** `if (selectedRoomType)`: a room type filters only when present and non-empty. */
  predicate RoomTypeActive(t: Option<string>)
  {
    t.Some? && t.value != ""
  }

  predicate HasAllFacilities(selected: seq<string>, pg: PgListing)
  {
    forall f | f in selected :: f in pg.facilities
  }

  /**
   * The filtering effect as written: start from the whole dataset and apply
   * one `.filter` pass per active criterion, in the page's order.
   */
  function FilterListings(data: seq<PgListing>, c: Criteria): seq<PgListing>
  {
    var byQuery :=
      if c.searchQuery != "" then
        var query := Lower(c.searchQuery);
        Keep(data, (pg: PgListing) => TextMatch(query, pg))
      else data;
    var byPrice := Keep(byQuery, (pg: PgListing) => InPriceRange(c.priceRange, pg));
    var byRoom :=
      if RoomTypeActive(c.selectedRoomType) then
        var t := GetOr(c.selectedRoomType, "");
        Keep(byPrice, (pg: PgListing) => t in pg.roomTypes)
      else byPrice;
    if |c.selectedFacilities| > 0 then Keep(byRoom, (pg: PgListing) => HasAllFacilities(c.selectedFacilities, pg))
    else byRoom
  }

  /** The single condition a listing must meet to be shown: the conjunction of the four criteria. */
  predicate Matches(c: Criteria, pg: PgListing)
  {
    && (c.searchQuery == "" || TextMatch(Lower(c.searchQuery), pg))
    && InPriceRange(c.priceRange, pg)
    && (!RoomTypeActive(c.selectedRoomType) || c.selectedRoomType.value in pg.roomTypes)
    && HasAllFacilities(c.selectedFacilities, pg)
  }

  /** The chain of passes equals one pass with the conjunction. */
  lemma FilterIsConjunction(data: seq<PgListing>, c: Criteria)
    ensures FilterListings(data, c) == Keep(data, (pg: PgListing) => Matches(c, pg))
  {
    var query := Lower(c.searchQuery);
    var t := GetOr(c.selectedRoomType, "");
    var p1 := (pg: PgListing) => c.searchQuery == "" || TextMatch(query, pg);
    var p2 := (pg: PgListing) => InPriceRange(c.priceRange, pg);
    var p3 := (pg: PgListing) => !RoomTypeActive(c.selectedRoomType) || t in pg.roomTypes;
    var p4 := (pg: PgListing) => HasAllFacilities(c.selectedFacilities, pg);
    var p12 := (pg: PgListing) => p1(pg) && p2(pg);
    var p123 := (pg: PgListing) => p12(pg) && p3(pg);
    var all := (pg: PgListing) => p123(pg) && p4(pg);

    var byQuery := if c.searchQuery != "" then Keep(data, (pg: PgListing) => TextMatch(query, pg)) else data;
    if c.searchQuery != "" {
      KeepExt(data, (pg: PgListing) => TextMatch(query, pg), p1);
    } else {
      KeepAll(data, p1);
    }
    assert byQuery == Keep(data, p1);
    var byPrice := Keep(byQuery, p2);
    KeepKeep(data, p1, p2, p12);
    var byRoom := if RoomTypeActive(c.selectedRoomType) then Keep(byPrice, (pg: PgListing) => t in pg.roomTypes) else byPrice;
    if RoomTypeActive(c.selectedRoomType) {
      KeepExt(byPrice, (pg: PgListing) => t in pg.roomTypes, p3);
    } else {
      KeepAll(byPrice, p3);
    }
    KeepKeep(data, p12, p3, p123);
    assert byRoom == Keep(data, p123);
    if |c.selectedFacilities| > 0 {
      KeepExt(byRoom, (pg: PgListing) => HasAllFacilities(c.selectedFacilities, pg), p4);
    } else {
      KeepAll(byRoom, p4);
    }
    KeepKeep(data, p123, p4, all);
    KeepExt(data, all, (pg: PgListing) => Matches(c, pg));
  }

  /** Shown listings are exactly the dataset's listings that meet every criterion. */
  lemma FilterKeepsExactlyMatches(data: seq<PgListing>, c: Criteria, pg: PgListing)
    ensures pg in FilterListings(data, c) <==> pg in data && Matches(c, pg)
  {
    FilterIsConjunction(data, c);
    KeepMember(data, (pg: PgListing) => Matches(c, pg), pg);
  }

  /** The result is a subsequence of the dataset: nothing invented or duplicated, the order kept. */
  lemma FilterIsSubsequence(data: seq<PgListing>, c: Criteria)
    ensures IsSubseq(FilterListings(data, c), data)
    ensures multiset(FilterListings(data, c)) <= multiset(data)
  {
    FilterIsConjunction(data, c);
    KeepIsSubseq(data, (pg: PgListing) => Matches(c, pg));
    SubseqMultiset(FilterListings(data, c), data);
  }

  /** With the initial criteria every listing priced within `[0, 30000]` is shown, in order. */
  lemma InitialCriteriaShowAll(data: seq<PgListing>)
    requires forall pg | pg in data :: 0 <= pg.price <= MaxPrice
    ensures FilterListings(data, InitialCriteria) == data
  {
    FilterIsConjunction(data, InitialCriteria);
    KeepAll(data, (pg: PgListing) => Matches(InitialCriteria, pg));
  }

  /** On first render the dashboard lists the whole fixture. */
  lemma InitialShowsWholeFixture()
    ensures FilterListings(MockPgListings, InitialCriteria) == MockPgListings
  {
    InitialCriteriaShowAll(MockPgListings);
  }

  /** `c` asks at least as much of a listing as `wider` does, criterion by criterion. */
  predicate Narrower(c: Criteria, wider: Criteria)
  {
    && (c.searchQuery == wider.searchQuery)
    && wider.priceRange.0 <= c.priceRange.0 && c.priceRange.1 <= wider.priceRange.1
    && (RoomTypeActive(wider.selectedRoomType) ==> c.selectedRoomType == wider.selectedRoomType)
    && (forall f | f in wider.selectedFacilities :: f in c.selectedFacilities)
  }

  /** Narrower criteria show a subsequence of what wider ones show, so never more listings. */
  lemma NarrowingShrinks(data: seq<PgListing>, c: Criteria, wider: Criteria)
    requires Narrower(c, wider)
    ensures IsSubseq(FilterListings(data, c), FilterListings(data, wider))
    ensures |FilterListings(data, c)| <= |FilterListings(data, wider)|
  {
    FilterIsConjunction(data, c);
    FilterIsConjunction(data, wider);
    KeepMonotone(data, (pg: PgListing) => Matches(wider, pg), (pg: PgListing) => Matches(c, pg));
    SubseqMultiset(FilterListings(data, c), FilterListings(data, wider));
  }

  /** The same query in another letter case shows the same listings. */
  lemma QueryCaseInsensitive(data: seq<PgListing>, c: Criteria, query: string)
    requires Lower(query) == Lower(c.searchQuery)
    ensures FilterListings(data, c.(searchQuery := query)) == FilterListings(data, c)
  {
    var c' := c.(searchQuery := query);
    assert |query| == |c.searchQuery|;
    FilterIsConjunction(data, c);
    FilterIsConjunction(data, c');
    KeepExt(data, (pg: PgListing) => Matches(c', pg), (pg: PgListing) => Matches(c, pg));
  }

  /** `toggleFacility`: drop every copy of a selected facility, or append an unselected one. */
  function Toggled(selected: seq<string>, facility: string): (r: seq<string>)
    ensures facility in r <==> facility !in selected
    ensures forall f | f != facility :: f in r <==> f in selected
  {
    if facility in selected then
      var r := Keep(selected, f => f != facility);
      assert forall f :: f in r <==> f in selected && f != facility by {
        forall f { KeepMember(selected, g => g != facility, f); }
      }
      r
    else selected + [facility]
  }

  /** Toggling never creates a duplicate. */
  lemma ToggledNoDup(selected: seq<string>, facility: string)
    requires NoDup(selected)
    ensures NoDup(Toggled(selected, facility))
  {
    if facility in selected {
      KeepNoDup(selected, f => f != facility);
    }
  }

  /** Selecting an unselected facility appends it at the end and keeps the others in order. */
  lemma ToggleOnAppends(selected: seq<string>, facility: string)
    requires facility !in selected
    ensures Toggled(selected, facility) == selected + [facility]
  {
  }

  /** Toggling an unselected facility twice restores the selection exactly. */
  lemma ToggleTwiceRestores(selected: seq<string>, facility: string)
    requires facility !in selected
    ensures Toggled(Toggled(selected, facility), facility) == selected
  {
    var p := f => f != facility;
    KeepConcat(selected, [facility], p);
    KeepAll(selected, p);
    assert Keep([facility], p) == [];
  }

  /** A room-type button: clicking the selected type clears it, any other type becomes the selection. */
  function ClickRoomType(current: Option<string>, t: string): (r: Option<string>)
    ensures r.None? <==> current == Some(t)
    ensures r.Some? ==> r.value == t
  {
    if current == Some(t) then None else Some(t)
  }

  /** Selecting a facility never shows more listings. */
  lemma SelectingFacilityShrinks(data: seq<PgListing>, c: Criteria, facility: string)
    requires facility !in c.selectedFacilities
    ensures IsSubseq(FilterListings(data, c.(selectedFacilities := Toggled(c.selectedFacilities, facility))),
                     FilterListings(data, c))
  {
    NarrowingShrinks(data, c.(selectedFacilities := Toggled(c.selectedFacilities, facility)), c);
  }

  /** Lowering the upper price bound never shows more listings. */
  lemma LoweringMaxShrinks(data: seq<PgListing>, c: Criteria, max: int)
    requires max <= c.priceRange.1
    ensures IsSubseq(FilterListings(data, c.(priceRange := (c.priceRange.0, max))), FilterListings(data, c))
  {
    NarrowingShrinks(data, c.(priceRange := (c.priceRange.0, max)), c);
  }

  /** Choosing a room type when none is chosen never shows more listings. */
  lemma ChoosingRoomTypeShrinks(data: seq<PgListing>, c: Criteria, t: string)
    requires c.selectedRoomType.None?
    ensures IsSubseq(FilterListings(data, c.(selectedRoomType := ClickRoomType(None, t))), FilterListings(data, c))
  {
    NarrowingShrinks(data, c.(selectedRoomType := ClickRoomType(None, t)), c);
  }

  /** On the fixture, an upper bound of 13000 leaves pg-2, pg-4 and pg-6, in that order. */
  lemma ScenarioMaxPrice13000()
    ensures FilterListings(MockPgListings, InitialCriteria.(priceRange := (0, 13000))) == [Pg2, Pg4, Pg6]
  {
    var c := InitialCriteria.(priceRange := (0, 13000));
    FilterIsConjunction(MockPgListings, c);
    var p := (pg: PgListing) => Matches(c, pg);
    assert !p(Pg1) && p(Pg2) && !p(Pg3) && p(Pg4) && !p(Pg5) && p(Pg6);
    KeepAlternating(Pg1, Pg2, Pg3, Pg4, Pg5, Pg6, p, false);
  }

  /** On the fixture, requiring wifi and AC leaves pg-1, pg-3 and pg-5, in that order. */
  lemma ScenarioWifiAndAc()
    ensures FilterListings(MockPgListings, InitialCriteria.(selectedFacilities := ["wifi", "ac"])) == [Pg1, Pg3, Pg5]
  {
    var c := InitialCriteria.(selectedFacilities := ["wifi", "ac"]);
    FilterIsConjunction(MockPgListings, c);
    WifiAndAcVerdicts(c);
    KeepAlternating(Pg1, Pg2, Pg3, Pg4, Pg5, Pg6, (pg: PgListing) => Matches(c, pg), true);
  }

  /** Which fixture listings offer both wifi and AC. */
  lemma WifiAndAcVerdicts(c: Criteria)
    requires c == InitialCriteria.(selectedFacilities := ["wifi", "ac"])
    ensures Matches(c, Pg1) && Matches(c, Pg3) && Matches(c, Pg5)
    ensures !Matches(c, Pg2) && !Matches(c, Pg4) && !Matches(c, Pg6)
  {
    assert "ac" !in Pg2.facilities && "ac" !in Pg4.facilities && "ac" !in Pg6.facilities;
  }

  /** Six listings that alternately fail and pass (or pass and fail) filter to every other one, in order. */
  lemma KeepAlternating(a: PgListing, b: PgListing, c: PgListing, d: PgListing, e: PgListing, f: PgListing,
                        p: PgListing -> bool, firstKept: bool)
    requires p(a) == firstKept && p(c) == firstKept && p(e) == firstKept
    requires p(b) != firstKept && p(d) != firstKept && p(f) != firstKept
    ensures Keep([a, b, c, d, e, f], p) == if firstKept then [a, c, e] else [b, d, f]
  {
    KeepCons(a, [b, c, d, e, f], p);
    KeepCons(b, [c, d, e, f], p);
    KeepCons(c, [d, e, f], p);
    KeepCons(d, [e, f], p);
    KeepCons(e, [f], p);
    KeepCons(f, [], p);
    assert [a] + [b, c, d, e, f] == [a, b, c, d, e, f];
    assert [b] + [c, d, e, f] == [b, c, d, e, f];
    assert [c] + [d, e, f] == [c, d, e, f];
    assert [d] + [e, f] == [d, e, f];
    assert [e] + [f] == [e, f];
    assert [f] + [] == [f];
  }

  /**
   * The page component: its criteria state and the listings it shows. Every
   * setter re-runs the filter over the fixed dataset, never over the
   * previous result, so what is shown depends on the current criteria only.
   */
  class Dashboard {
    /** The dataset every filter run starts from. */
    const data: seq<PgListing>
    var searchQuery: string
    var priceRange: (int, int)
    var selectedRoomType: Option<string>
    var selectedFacilities: seq<string>
    var pgListings: seq<PgListing>

    /** The four criteria fields taken together. */
    function CurrentCriteria(): Criteria
      reads this
    {
      Criteria(searchQuery, priceRange, selectedRoomType, selectedFacilities)
    }

    /**
     * The lower price bound is never touched, every listing is priced within
     * the slider's range, and the shown listings match the criteria.
     */
    ghost predicate Valid()
      reads this
    {
      && priceRange.0 == 0
      && (forall pg | pg in data :: 0 <= pg.price <= MaxPrice)
      && pgListings == FilterListings(data, CurrentCriteria())
    }

    constructor ()
      ensures data == MockPgListings && Valid()
      ensures CurrentCriteria() == InitialCriteria
      ensures pgListings == MockPgListings
    {
      data := MockPgListings;
      searchQuery := "";
      priceRange := (0, MaxPrice);
      selectedRoomType := None;
      selectedFacilities := [];
      pgListings := MockPgListings;
      InitialShowsWholeFixture();
    }

    /** Re-run the filter on the current criteria. */
    method Refresh()
      modifies this`pgListings
      ensures pgListings == FilterListings(data, CurrentCriteria())
    {
      pgListings := FilterListings(data, CurrentCriteria());
    }

    /** Typing in the search box. */
    method SetSearchQuery(query: string)
      requires Valid()
      modifies this
      ensures Valid()
      ensures CurrentCriteria() == old(CurrentCriteria()).(searchQuery := query)
    {
      searchQuery := query;
      Refresh();
    }

    /** Clicking a facility button. */
    method ToggleFacility(facility: string)
      requires Valid()
      modifies this
      ensures Valid()
      ensures CurrentCriteria() == old(CurrentCriteria()).(selectedFacilities := Toggled(old(selectedFacilities), facility))
    {
      selectedFacilities := Toggled(selectedFacilities, facility);
      Refresh();
    }

    /** Clicking a room-type button. */
    method SelectRoomType(t: string)
      requires Valid()
      modifies this
      ensures Valid()
      ensures CurrentCriteria() == old(CurrentCriteria()).(selectedRoomType := ClickRoomType(old(selectedRoomType), t))
    {
      selectedRoomType := ClickRoomType(selectedRoomType, t);
      Refresh();
    }

    /** Moving the price slider: only the upper bound changes. */
    method SetMaxPrice(max: int)
      requires Valid()
      modifies this
      ensures Valid()
      ensures priceRange == (0, max)
      ensures CurrentCriteria() == old(CurrentCriteria()).(priceRange := (old(priceRange).0, max))
    {
      priceRange := (priceRange.0, max);
      Refresh();
    }

    /** "Reset" and "Reset Filters": back to the initial criteria and the whole fixture. */
    method ResetFilters()
      requires Valid()
      modifies this
      ensures Valid()
      ensures CurrentCriteria() == InitialCriteria
      ensures pgListings == data
    {
      searchQuery := "";
      priceRange := (0, MaxPrice);
      selectedRoomType := None;
      selectedFacilities := [];
      Refresh();
      InitialCriteriaShowAll(data);
    }
  }
}
