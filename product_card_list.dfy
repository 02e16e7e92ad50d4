/**
 * The product list page: it accumulates the pages of results the service
 * publishes, offers distance sorts only while a location is set, shows the
 * selected filters without the seller filter, and keeps the list of
 * category buckets still offered in step with the category filters.
 */
module ProductCardList {
  import opened Collections
  import opened SearchRequests
  import opened FilterTrees
  import opened SelectedFilters
  import opened QueryDispatch
  import opened FilterService
  import opened BucketOrder

  datatype SortOption = SortOption(value: seq<string>, name: string)

  const NEAR_TO_FAR: string := "Near to Far"
  const FAR_TO_NEAR: string := "Far to Near"
  const PRICE_LOW_TO_HIGH: SortOption := SortOption(["numberSort.Price,ASC"], "Price: Low to High")
  const PRICE_HIGH_TO_LOW: SortOption := SortOption(["numberSort.Price,DESC"], "Price: High to Low")
  const NEAR_FIRST: SortOption := SortOption(["geo,ASC", "numberSort.Price,ASC"], NEAR_TO_FAR)
  const FAR_FIRST: SortOption := SortOption(["geo,DESC", "numberSort.Price,DESC"], FAR_TO_NEAR)

  predicate IsDistanceSort(name: string) {
    name == NEAR_TO_FAR || name == FAR_TO_NEAR
  }

  /** The sort options offered: the two price sorts, and with a location the two distance sorts after them. */
  function SortOptionsFor(geo: Option<GeoRequest>): (r: seq<SortOption>)
    ensures |r| >= 2 && r[0] == PRICE_LOW_TO_HIGH && r[1] == PRICE_HIGH_TO_LOW
    ensures geo.Some? ==> |r| == 4 && r[2] == NEAR_FIRST && r[3] == FAR_FIRST
    ensures geo.Some? ==> r[2].name == NEAR_TO_FAR && r[3].name == FAR_TO_NEAR
    ensures geo.None? ==> |r| == 2
    ensures forall i :: 0 <= i < |r| && IsDistanceSort(r[i].name) ==> geo.Some?
  {
    if geo.Some? then [PRICE_LOW_TO_HIGH, PRICE_HIGH_TO_LOW, NEAR_FIRST, FAR_FIRST]
    else [PRICE_LOW_TO_HIGH, PRICE_HIGH_TO_LOW]
  }

  /** The selected sort after a response: a distance sort is dropped when the response has no location. */
  function KeptSort(selected: Option<SortOption>, geo: Option<GeoRequest>): (r: Option<SortOption>)
    ensures geo.Some? ==> r == selected
    ensures geo.None? && selected.Some? && IsDistanceSort(selected.value.name) ==> r.None?
    ensures r.Some? ==> r == selected
    ensures selected.Some? && !IsDistanceSort(selected.value.name) ==> r == selected
  {
    if geo.None? && selected.Some? && IsDistanceSort(selected.value.name) then None else selected
  }

  /** A distance sort stays selected only together with the distance options it came from. */
  lemma KeptSortIsOffered(selected: Option<SortOption>, geo: Option<GeoRequest>)
    requires selected.Some? && selected.value in [PRICE_LOW_TO_HIGH, PRICE_HIGH_TO_LOW, NEAR_FIRST, FAR_FIRST]
    ensures KeptSort(selected, geo).Some? ==> KeptSort(selected, geo).value in SortOptionsFor(geo)
  {
  }

  /** `searchResponse.total || 0`. */
  function TotalOf(res: SearchResponse): (t: int)
    ensures res.total.Some? ==> t == res.total.value
    ensures res.total.None? ==> t == 0
  {
    if res.total.Some? && res.total.value != 0 then res.total.value else 0
  }

  /** A response of a page after the first extends the list; any other response replaces it. */
  function Accumulated(products: seq<Item>, res: SearchResponse): (r: seq<Item>)
    ensures res.page.Some? && res.page.value > 0 ==> r == products + res.items
    ensures !(res.page.Some? && res.page.value > 0) ==> r == res.items
  {
    if res.page.Some? && res.page.value > 0 then products + res.items else res.items
  }

  /** The list after a run of responses, in arrival order. */
  function AfterResponses(products: seq<Item>, rs: seq<SearchResponse>): seq<Item>
    decreases |rs|
  {
    if |rs| == 0 then products else AfterResponses(Accumulated(products, rs[0]), rs[1..])
  }

  /** The items of a run of responses, concatenated. */
  function AllItems(rs: seq<SearchResponse>): seq<Item>
    decreases |rs|
  {
    if |rs| == 0 then [] else rs[0].items + AllItems(rs[1..])
  }

  predicate LaterPage(res: SearchResponse) {
    res.page.Some? && res.page.value > 0
  }

  /** Later pages append their items in order to what is shown. */
  lemma {:induction false} LaterPagesAppend(products: seq<Item>, rs: seq<SearchResponse>)
    requires forall i :: 0 <= i < |rs| ==> LaterPage(rs[i])
    ensures AfterResponses(products, rs) == products + AllItems(rs)
    decreases |rs|
  {
    if |rs| > 0 {
      LaterPagesAppend(products + rs[0].items, rs[1..]);
      assert products + rs[0].items + AllItems(rs[1..]) == products + (rs[0].items + AllItems(rs[1..]));
    }
  }

  /** A first page followed by later pages shows exactly the items of all of them, whatever was shown before. */
  lemma FirstPageThenScrolling(products: seq<Item>, rs: seq<SearchResponse>)
    requires |rs| > 0 && !LaterPage(rs[0])
    requires forall i :: 1 <= i < |rs| ==> LaterPage(rs[i])
    ensures AfterResponses(products, rs) == AllItems(rs)
  {
    LaterPagesAppend(rs[0].items, rs[1..]);
  }

  predicate IsSellerFilter(e: FilterSelection) {
    e.filterType == NestedFacet && e.path == SELLER_ID
  }

  /** The selected filters shown: the service's list without its first nested seller entry. */
  function ShownFilters(l: seq<FilterSelection>): (r: seq<FilterSelection>)
    ensures (forall i :: 0 <= i < |l| ==> !IsSellerFilter(l[i])) ==> r == l
    ensures forall k :: 0 <= k < |l| && IsSellerFilter(l[k]) && (forall j :: 0 <= j < k ==> !IsSellerFilter(l[j])) ==>
      r == l[..k] + l[k + 1..]
  {
    RemoveFirst(l, IsSellerFilter)
  }

  /** Only one seller entry is hidden: a second one stays in the shown list. */
  lemma SecondSellerEntryShown(l: seq<FilterSelection>, j: int, k: int)
    requires 0 <= j < k < |l| && IsSellerFilter(l[j]) && IsSellerFilter(l[k])
    ensures l[k] in ShownFilters(l)
  {
    var f := FindIndex(l, IsSellerFilter);
    assert 0 <= f <= j;
    var r := l[..f] + l[f + 1..];
    assert r[k - 1] == l[k];
  }

  /** The test `onCategorySelection` filters the offered categories with: a bucket of another name. */
  function NameOtherThan(name: string): Bucket -> bool {
    (b: Bucket) => b.name != name
  }

  class ProductCardListComponent {
    var products: seq<Item>
    var total: int
    var loading: bool
    var sortOptions: seq<SortOption>
    var selectedSort: Option<SortOption>
    /** The category buckets still offered, and all category buckets. */
    var shownCategories: seq<Bucket>
    var allCategories: seq<Bucket>
    var selectedFilters: seq<FilterSelection>
    const service: ProductFilterService

    constructor (service: ProductFilterService, shown: seq<Bucket>, all: seq<Bucket>)
      ensures this.service == service
      ensures products == [] && total == 0 && !loading && sortOptions == [] && selectedSort.None?
      ensures shownCategories == shown && allCategories == all && selectedFilters == []
    {
      this.service := service;
      products, total, loading := [], 0, false;
      sortOptions, selectedSort := [], None;
      shownCategories, allCategories := shown, all;
      selectedFilters := [];
    }

    /** `reloadSortOptions`. */
    method ReloadSortOptions(geo: Option<GeoRequest>)
      modifies this
      ensures sortOptions == SortOptionsFor(geo)
      ensures selectedSort == KeptSort(old(selectedSort), geo)
      ensures products == old(products) && total == old(total) && loading == old(loading)
      ensures shownCategories == old(shownCategories) && selectedFilters == old(selectedFilters)
    {
      if geo.Some? {
        sortOptions := [PRICE_LOW_TO_HIGH, PRICE_HIGH_TO_LOW, NEAR_FIRST, FAR_FIRST];
      } else {
        sortOptions := [PRICE_LOW_TO_HIGH, PRICE_HIGH_TO_LOW];
        if selectedSort.Some? && (selectedSort.value.name == NEAR_TO_FAR || selectedSort.value.name == FAR_TO_NEAR) {
          selectedSort := None;
        }
      }
    }

    /** The search-results subscription: loading ends, the total and the list are updated, the sort options follow the location. */
    method OnSearchResponse(res: SearchResponse)
      modifies this
      ensures !loading
      ensures total == TotalOf(res)
      ensures products == Accumulated(old(products), res)
      ensures sortOptions == SortOptionsFor(res.geo)
      ensures selectedSort == KeptSort(old(selectedSort), res.geo)
      ensures shownCategories == old(shownCategories) && selectedFilters == old(selectedFilters)
    {
      loading := false;
      total := if res.total.Some? && res.total.value != 0 then res.total.value else 0;
      products := if res.page.Some? && res.page.value > 0 then products + res.items else res.items;
      ReloadSortOptions(res.geo);
    }

    /** The error handler of the subscription: loading ends, nothing else changes. */
    method OnSearchError()
      modifies this
      ensures !loading
      ensures products == old(products) && total == old(total) && selectedSort == old(selectedSort)
    {
      loading := false;
    }

    /** `onScroll`: the next page is requested exactly when fewer products are shown than were found. */
    method OnScroll() returns (d: Option<Dispatch>)
      requires service.Valid()
      modifies service
      ensures service.Valid()
      ensures d.Some? <==> total != |products|
      ensures d.Some? ==> service.Request() == old(service.Request()).(page := old(service.page) + 1)
      ensures d.Some? ==> d.value == Dispatch(service.Request(), PAGE_CHANGE, None)
      ensures d.None? ==> service.Request() == old(service.Request())
      ensures service.selectedFilters == old(service.selectedFilters)
    {
      if total != |products| {
        var r := service.LoadNextPage();
        d := Some(r);
      } else {
        d := None;
      }
    }

    /** The selected-filters subscription: the copy shown hides the first seller filter. */
    method OnSelectedFilters(l: seq<FilterSelection>)
      modifies this
      ensures selectedFilters == ShownFilters(l)
      ensures products == old(products) && shownCategories == old(shownCategories)
    {
      var shown := l;
      var foundIndex := FindIndex(shown, IsSellerFilter);
      if foundIndex > -1 {
        shown := RemoveAt(shown, foundIndex);
      }
      selectedFilters := shown;
    }

    /** `onCategorySelection`: the category is added as a filter and no longer offered. */
    method OnCategorySelection(sel: FilterSelection) returns (d: Dispatch)
      requires service.Valid() && sel.value.Some?
      modifies this, service
      ensures service.Valid()
      ensures service.filters == AddToTree(old(service.filters), sel.filterType, sel.path, sel.value.value.name)
      ensures service.selectedFilters == ReloadedFilters(old(service.selectedFilters), sel)
      ensures d == Dispatch(service.Request(), ADD, Some(sel))
      ensures shownCategories == Filter(old(shownCategories), NameOtherThan(sel.value.value.name))
      ensures forall b :: b in shownCategories <==> b in old(shownCategories) && b.name != sel.value.value.name
      ensures allCategories == old(allCategories) && products == old(products)
    {
      d := service.AddFilter(sel);
      shownCategories := Filter(shownCategories, NameOtherThan(sel.value.value.name));
    }

    /**
     * `onFilterRemove`: the filter is removed as a REMOVE; a removed Category
     * filter whose bucket is among all categories is offered again, and the
     * offered list is put in name order.
     */
    method OnFilterRemove(sel: FilterSelection) returns (d: Dispatch)
      requires service.Valid() && sel.value.Some?
      modifies this, service
      ensures service.Valid()
      ensures var removed := sel.(actionType := Some(REMOVE));
        && service.filters == RemoveFromTree(old(service.filters), sel.filterType, sel.path, sel.value.value.name)
        && service.selectedFilters == ReloadedFilters(old(service.selectedFilters), removed)
        && d == Dispatch(service.Request(), REMOVE, Some(removed))
      ensures var k := FindIndex(allCategories, (b: Bucket) => b.name == sel.value.value.name);
        if sel.path == CATEGORY && k >= 0 then
          && SortedByName(shownCategories)
          && multiset(shownCategories) == multiset(old(shownCategories)) + multiset{allCategories[k]}
        else shownCategories == old(shownCategories)
      ensures allCategories == old(allCategories) && products == old(products)
    {
      var removed := sel.(actionType := Some(REMOVE));
      if removed.path == CATEGORY {
        var found := FindIndex(allCategories, (b: Bucket) => b.name == removed.value.value.name);
        if found >= 0 {
          shownCategories := SortByName(shownCategories + [allCategories[found]]);
        }
      }
      d := service.RemoveFilter(removed);
    }

    /** `onSortClick`: the option is selected and the service sorts by its keys. */
    method OnSortClick(option: SortOption) returns (d: Dispatch)
      requires service.Valid()
      modifies this, service
      ensures service.Valid()
      ensures selectedSort == Some(option)
      ensures service.Request() == old(service.Request()).(page := 0, pageSize := DEFAULT_PAGE_SIZE, sort := option.value)
      ensures d == Dispatch(service.Request(), SORT_CHANGE, None)
    {
      selectedSort := Some(option);
      d := service.SortBy(option.value);
    }

    /** `onSearchInput`: the text goes to the service's full-text search. */
    method OnSearchInput(text: Option<string>) returns (d: Dispatch)
      requires service.Valid()
      modifies service
      ensures service.Valid()
      ensures service.searchBox == (if text.Some? && |text.value| > 0 then text else None)
      ensures d.actionType == SEARCH
    {
      d := service.SearchByText(text);
    }

    /** `onClickClearFilters`: every filter, the location and the text are cleared. */
    method OnClickClearFilters() returns (d: Dispatch)
      requires service.Valid()
      modifies service
      ensures service.Valid()
      ensures service.filters == map[] && service.selectedFilters == [] && service.geo.None? && service.searchBox.None?
      ensures d.actionType == CLEAR_ALL
    {
      d := service.ClearAllFilters();
    }
  }
}
