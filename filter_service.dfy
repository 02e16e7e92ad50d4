/**
 * `ProductFilterService`: the one mutable search state of a session and the
 * published list of selected filters. Each user gesture updates both in
 * place and ends in a call to `search`; here each operation returns that
 * call as a `Dispatch` value (what `search` then publishes is
 * `QueryDispatch.Search`).
 */
module FilterService {
  import opened Collections
  import opened SearchRequests
  import opened FilterTrees
  import opened SelectedFilters
  import opened QueryDispatch

  const DEFAULT_PAGE_SIZE: int := 20
  const PRICE_ASC: string := "numberSort.Price,ASC"
  const GEO_ASC: string := "geo,ASC"
  const DEFAULT_SORT: seq<string> := [PRICE_ASC]
  const GEO_SORT: seq<string> := [GEO_ASC, PRICE_ASC]

  predicate StartsWith(s: string, prefix: string) {
    |prefix| <= |s| && s[..|prefix|] == prefix
  }

  /** Some sort key already sorts by distance (`sort.find(v => v.startsWith('geo'))`). */
  predicate HasGeoSort(sort: seq<string>)
    ensures HasGeoSort(sort) <==> exists i :: 0 <= i < |sort| && StartsWith(sort[i], "geo")
  {
    FindIndex(sort, (key: string) => StartsWith(key, "geo")) >= 0
  }

  /**
   * The tree edits of `removeFilter`, step by step: the value is filtered
   * out of its path, an emptied path is deleted, then an emptied facet.
   */
  method DeleteValue(t: FilterTree, facetType: FacetType, filterPath: string, name: string) returns (tree: FilterTree)
    ensures tree == RemoveFromTree(t, facetType, filterPath, name)
  {
    tree := t;
    if HasFilter(tree, facetType, filterPath) {
      var foundFilters := tree[facetType][filterPath];
      var kept := Filter(foundFilters, Differs(name));
      tree := tree[facetType := tree[facetType][filterPath := kept]];
      if |tree[facetType][filterPath]| == 0 {
        tree := tree[facetType := tree[facetType] - {filterPath}];
        assert tree[facetType] == t[facetType] - {filterPath};
        if |tree[facetType]| == 0 {
          tree := tree - {facetType};
          assert tree == t - {facetType};
        } else {
          assert tree == t[facetType := t[facetType] - {filterPath}];
        }
      }
    }
  }

  /**
   * The tree edits of `addFilter`, step by step: an existing number path is
   * overwritten, an existing path of another facet has the value pushed, a
   * missing path is spread into its facet, and an empty tree is replaced.
   */
  method InsertValue(t: FilterTree, facetType: FacetType, filterPath: string, bucketName: string) returns (tree: FilterTree)
    ensures tree == AddToTree(t, facetType, filterPath, bucketName)
  {
    if HasFilters(t) {
      if HasFilter(t, facetType, filterPath) {
        var foundFilters := t[facetType][filterPath];
        if facetType == NumberFacet {
          tree := t[facetType := t[facetType][filterPath := [bucketName]]];
        } else {
          tree := t[facetType := t[facetType][filterPath := foundFilters + [bucketName]]];
        }
      } else {
        tree := t[facetType := PathsOf(t, facetType)[filterPath := [bucketName]]];
      }
    } else {
      tree := map[facetType := map[filterPath := [bucketName]]];
    }
  }

  /** The tree edits of `clearFilter`: the path is deleted, then its facet when emptied. */
  method DeletePathOf(t: FilterTree, facetType: FacetType, path: string) returns (tree: FilterTree)
    ensures tree == ClearFromTree(t, facetType, path)
  {
    tree := t;
    if HasFilter(tree, facetType, path) {
      tree := tree[facetType := tree[facetType] - {path}];
      if |tree[facetType]| == 0 {
        tree := tree - {facetType};
        assert tree == t - {facetType};
      }
    }
  }

  class ProductFilterService {
    var page: int
    var pageSize: int
    var sort: seq<string>
    var searchBox: Option<string>
    var geo: Option<GeoRequest>
    var excluded: Option<seq<string>>
    var filters: FilterTree
    /** The value of the selected-filters subject. */
    var selectedFilters: seq<FilterSelection>

    /** The filter tree never holds an empty facet, an empty path or a multi-valued number path; every selected entry has a value. */
    ghost predicate Valid()
      reads this
    {
      WellFormed(filters) && HasValues(selectedFilters)
    }

    /** The search request the state stands for (the state never carries `include`). */
    function Request(): SearchRequest
      reads this
    {
      SearchRequest(page, pageSize, sort, searchBox, geo, None, excluded, filters)
    }

    /** The initial default request: first page of 20, cheapest first, no filters, empty exclusions. */
    constructor ()
      ensures Valid()
      ensures Request() == SearchRequest(0, DEFAULT_PAGE_SIZE, DEFAULT_SORT, None, None, None, Some([]), map[])
      ensures selectedFilters == []
    {
      page, pageSize, sort := 0, DEFAULT_PAGE_SIZE, DEFAULT_SORT;
      searchBox, geo, excluded := None, None, Some([]);
      filters := map[];
      selectedFilters := [];
    }

    /**
     * `initializeRequest`, which the constructor runs: the filters are
     * emptied and the state is sent as it is; its answer is published as
     * `QueryDispatch.Renamed`, and the selected list stays empty.
     */
    method InitializeRequest() returns (request: SearchRequest)
      requires Valid()
      modifies this
      ensures Valid()
      ensures Request() == old(Request()).(filters := map[])
      ensures selectedFilters == old(selectedFilters)
      ensures request == Request()
    {
      filters := map[];
      request := Request();
    }

    /** `resetPagination`: back to the first page of 20. */
    method ResetPagination()
      modifies this
      ensures Request() == old(Request()).(page := 0, pageSize := DEFAULT_PAGE_SIZE)
      ensures selectedFilters == old(selectedFilters)
    {
      page := 0;
      pageSize := DEFAULT_PAGE_SIZE;
    }

    /** `resetSort`: the default price-ascending sort. */
    method ResetSort()
      modifies this
      ensures Request() == old(Request()).(sort := DEFAULT_SORT)
      ensures selectedFilters == old(selectedFilters)
    {
      sort := DEFAULT_SORT;
    }

    /** `resetGeoSearch`: drop the location and go back to the default sort. */
    method ResetGeoSearch()
      modifies this
      ensures Request() == old(Request()).(geo := None, sort := DEFAULT_SORT)
      ensures selectedFilters == old(selectedFilters)
    {
      geo := None;
      ResetSort();
    }

    /** `searchByText`: a non-empty text is stored, an absent or empty one deletes the stored text. */
    method SearchByText(searchValue: Option<string>) returns (d: Dispatch)
      requires Valid()
      modifies this
      ensures Valid()
      ensures Request() == old(Request()).(
        searchBox := if searchValue.Some? && |searchValue.value| > 0 then searchValue else None,
        page := 0, pageSize := DEFAULT_PAGE_SIZE)
      ensures selectedFilters == old(selectedFilters)
      ensures d == Dispatch(Request(), SEARCH, None)
    {
      if searchValue.Some? && |searchValue.value| > 0 {
        searchBox := searchValue;
      } else {
        searchBox := None;
      }
      ResetPagination();
      d := Dispatch(Request(), SEARCH, None);
    }

    /**
     * `searchByLocation`: a location is stored and, unless some sort key
     * already starts with "geo", the sort becomes distance then price; no
     * location resets the geo search.
     */
    method SearchByLocation(location: Option<GeoRequest>) returns (d: Dispatch)
      requires Valid()
      modifies this
      ensures Valid()
      ensures location.Some? ==> Request() == old(Request()).(
        geo := location,
        sort := if HasGeoSort(old(sort)) then old(sort) else GEO_SORT,
        page := 0, pageSize := DEFAULT_PAGE_SIZE)
      ensures location.None? ==> Request() == old(Request()).(
        geo := None, sort := DEFAULT_SORT, page := 0, pageSize := DEFAULT_PAGE_SIZE)
      ensures selectedFilters == old(selectedFilters)
      ensures d == Dispatch(Request(), LOCATION_CHANGE, None)
    {
      if location.Some? {
        geo := location;
        if |sort| == 0 || !HasGeoSort(sort) {
          sort := GEO_SORT;
        }
      } else {
        ResetGeoSearch();
      }
      ResetPagination();
      d := Dispatch(Request(), LOCATION_CHANGE, None);
    }

    /** `reloadFilters`: the selected list is updated according to the selection's action. */
    method ReloadFilters(sel: FilterSelection)
      requires HasValues(selectedFilters) && sel.value.Some?
      modifies this
      ensures Request() == old(Request())
      ensures selectedFilters == ReloadedFilters(old(selectedFilters), sel)
      ensures HasValues(selectedFilters)
    {
      var current := selectedFilters;
      match sel.actionType {
        case Some(ADD) =>
          current := current + [sel];
          selectedFilters := current;
        case Some(REMOVE) =>
          var found := FindIndex(current, (e: FilterSelection) => RemoveMatches(e, sel));
          if found > -1 {
            current := RemoveAt(current, found);
          }
          selectedFilters := current;
        case Some(SLIDER_CHANGE) =>
          var found := FindIndex(current, (e: FilterSelection) => e.path == sel.path);
          if found > -1 {
            current := RemoveAt(current, found);
          }
          current := current + [sel];
          selectedFilters := current;
        case Some(CLEAR_ALL) =>
          selectedFilters := [];
        case _ =>
      }
    }

    /**
     * `addFilter`: the selected list is reloaded, and in the tree an existing
     * number path is replaced by the value, an existing path of another facet
     * gets the value appended, and a missing path is created with it.
     */
    method AddFilter(sel: FilterSelection) returns (d: Dispatch)
      requires Valid() && sel.value.Some?
      modifies this
      ensures Valid()
      ensures filters == AddToTree(old(filters), sel.filterType, sel.path, sel.value.value.name)
      ensures selectedFilters == ReloadedFilters(old(selectedFilters), sel)
      ensures Request() == old(Request()).(page := 0, pageSize := DEFAULT_PAGE_SIZE, filters := filters)
      ensures d == Dispatch(Request(), ADD, Some(sel))
    {
      ReloadFilters(sel);
      var facetType := sel.filterType;
      var filterPath := sel.path;
      var bucketName := sel.value.value.name;
      ResetPagination();
      ghost var before := filters;
      filters := InsertValue(filters, facetType, filterPath, bucketName);
      AddKeepsWellFormed(before, facetType, filterPath, bucketName);
      d := Dispatch(Request(), ADD, Some(sel));
    }

    /**
     * `removeFilter`: the selected list is reloaded, and every occurrence of
     * the value is dropped from its path, deleting an emptied path and then
     * an emptied facet. An absent facet or path leaves the tree unchanged.
     */
    method RemoveFilter(sel: FilterSelection) returns (d: Dispatch)
      requires Valid() && sel.value.Some?
      modifies this
      ensures Valid()
      ensures filters == RemoveFromTree(old(filters), sel.filterType, sel.path, sel.value.value.name)
      ensures selectedFilters == ReloadedFilters(old(selectedFilters), sel)
      ensures Request() == old(Request()).(page := 0, pageSize := DEFAULT_PAGE_SIZE, filters := filters)
      ensures d == Dispatch(Request(), REMOVE, Some(sel))
    {
      ReloadFilters(sel);
      var filterPath := sel.path;
      var facetType := sel.filterType;
      var name := sel.value.value.name;
      ghost var before := filters;
      filters := DeleteValue(filters, facetType, filterPath, name);
      RemoveKeepsWellFormed(before, facetType, filterPath, sel.value.value.name);
      ResetPagination();
      d := Dispatch(Request(), REMOVE, Some(sel));
    }

    /**
     * `clearFilter`: the path is deleted from the tree (and its facet when
     * emptied), and every selected entry with exactly that type and path is
     * dropped, the others kept in order.
     */
    method ClearFilter(facetType: FacetType, path: string) returns (d: Dispatch)
      requires Valid()
      modifies this
      ensures Valid()
      ensures filters == ClearFromTree(old(filters), facetType, path)
      ensures selectedFilters == ClearSelected(old(selectedFilters), facetType, path)
      ensures Request() == old(Request()).(page := 0, pageSize := DEFAULT_PAGE_SIZE, filters := filters)
      ensures d == Dispatch(Request(), CLEAR_FILTER, None)
    {
      ghost var before := filters;
      filters := DeletePathOf(filters, facetType, path);
      ClearKeepsWellFormed(before, facetType, path);
      selectedFilters := ClearSelected(selectedFilters, facetType, path);
      ResetPagination();
      d := Dispatch(Request(), CLEAR_FILTER, None);
    }

    /** `clearAllFilters`: no filters, no location, no text, default sort, nothing selected. */
    method ClearAllFilters() returns (d: Dispatch)
      requires Valid()
      modifies this
      ensures Valid()
      ensures Request() == old(Request()).(
        page := 0, pageSize := DEFAULT_PAGE_SIZE, filters := map[],
        geo := None, searchBox := None, sort := DEFAULT_SORT)
      ensures selectedFilters == []
      ensures d == Dispatch(Request(), CLEAR_ALL, None)
    {
      ResetPagination();
      filters := map[];
      geo := None;
      searchBox := None;
      ResetSort();
      selectedFilters := [];
      d := Dispatch(Request(), CLEAR_ALL, None);
    }

    /** `sortBy`: the given sort, from the first page. */
    method SortBy(newSort: seq<string>) returns (d: Dispatch)
      requires Valid()
      modifies this
      ensures Valid()
      ensures Request() == old(Request()).(page := 0, pageSize := DEFAULT_PAGE_SIZE, sort := newSort)
      ensures selectedFilters == old(selectedFilters)
      ensures d == Dispatch(Request(), SORT_CHANGE, None)
    {
      ResetPagination();
      sort := newSort;
      d := Dispatch(Request(), SORT_CHANGE, None);
    }

    /** `loadNextPage`: the only operation that keeps pagination, advancing one page. */
    method LoadNextPage() returns (d: Dispatch)
      requires Valid()
      modifies this
      ensures Valid()
      ensures Request() == old(Request()).(page := old(page) + 1)
      ensures selectedFilters == old(selectedFilters)
      ensures d == Dispatch(Request(), PAGE_CHANGE, None)
    {
      page := page + 1;
      d := Dispatch(Request(), PAGE_CHANGE, None);
    }

    /** `getSelectedCategoryTypes`: exactly the values selected under the nested category-type path. */
    function GetSelectedCategoryTypes(): (r: seq<string>)
      reads this
      ensures forall n :: n in r <==> InTree(filters, FilterValue(NestedFacet, CATEGORY_TYPE, n))
    {
      if NestedFacet in filters && CATEGORY_TYPE in filters[NestedFacet] then filters[NestedFacet][CATEGORY_TYPE] else []
    }
  }
}
