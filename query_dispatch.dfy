/**
 * What the service sends and what it publishes. Every state change ends in
 * a call `search(state, action, selection)`; here that call is a value
 * (`Dispatch`), the backend's answers are inputs, and the published
 * response is a function of both. A selection on Brand or Category issues a
 * second request without that facet's own filter, and the facet lists of
 * its answer replace the primary answer's list for that path, so that the
 * facet keeps showing the values the user could still pick.
 */
module QueryDispatch {
  import opened Collections
  import opened SearchRequests
  import opened FilterTrees

  /** One call of `search`: the request as it stood, the action, and the selection if any. */
  datatype Dispatch = Dispatch(request: SearchRequest, actionType: ActionType, selection: Option<FilterSelection>)

  /** The paths whose selection triggers a second request. */
  const SPECIAL_FILTER_PATHS: seq<string> := [BRAND, CATEGORY]

  /** Two requests are issued exactly when a selection is given and its path is Brand or Category. */
  predicate NeedsSecondRequest(selection: Option<FilterSelection>)
    ensures NeedsSecondRequest(selection) <==>
      selection.Some? && (selection.value.path == BRAND || selection.value.path == CATEGORY)
  {
    selection.Some? && selection.value.path in SPECIAL_FILTER_PATHS
  }

  /** An entry of the static table of paths and their backend `include` hints. */
  datatype PathInclude = PathInclude(filterPath: string, includeValue: string)

  /** `getPathsWithInclude`. */
  function PathsWithInclude(): (r: seq<PathInclude>)
    ensures |r| == 3
    ensures forall i, j :: 0 <= i < j < |r| ==> r[i].filterPath != r[j].filterPath
  {
    [PathInclude(BRAND, "Brand"), PathInclude(CATEGORY_TYPE, "categoryType"), PathInclude(CATEGORY, "Category")]
  }

  /** The `include` hints for a path: those table entries whose path equals it. */
  function IncludeValues(path: string): (r: seq<string>)
    ensures path == BRAND ==> r == ["Brand"]
    ensures path == CATEGORY ==> r == ["Category"]
    ensures path == CATEGORY_TYPE ==> r == ["categoryType"]
    ensures path != BRAND && path != CATEGORY && path != CATEGORY_TYPE ==> r == []
  {
    var table := PathsWithInclude();
    var matching := Filter(table, (e: PathInclude) => e.filterPath == path);
    if path == BRAND then
      assert matching == [table[0]];
      Map(matching, (e: PathInclude) => e.includeValue)
    else if path == CATEGORY then
      assert matching == [table[2]];
      Map(matching, (e: PathInclude) => e.includeValue)
    else if path == CATEGORY_TYPE then
      assert matching == [table[1]];
      Map(matching, (e: PathInclude) => e.includeValue)
    else
      assert matching == [];
      Map(matching, (e: PathInclude) => e.includeValue)
  }

  /** The facet and path whose filter the second request drops for a trigger path, if any. */
  function DroppedFacet(path: string): Option<FacetType> {
    if path == CATEGORY then Some(NestedFacet)
    else if path == BRAND then Some(StringFacet)
    else None
  }

  /**
   * `getSecondRequest`: a copy of the request without `exclude`, with
   * `include` set from the table, and, when filters are present, without
   * `nestedFacet['Category']` (for Category) or `stringFacet['Brand']` (for
   * Brand). An emptied facet is kept, not pruned. Being a value, the
   * original request is left as it was.
   */
  function SecondRequest(req: SearchRequest, actionType: ActionType, sel: FilterSelection): (r: SearchRequest)
    ensures r.excluded.None?
    ensures r.included == Some(IncludeValues(sel.path))
    ensures r == req.(included := r.included, excluded := None, filters := r.filters)
    ensures r.filters.Keys == req.filters.Keys
    ensures forall f, p :: f in req.filters && p in req.filters[f] ==>
      (p in r.filters[f] <==> !(DroppedFacet(sel.path) == Some(f) && p == sel.path))
    ensures forall f, p :: f in r.filters && p in r.filters[f] ==> p in req.filters[f] && r.filters[f][p] == req.filters[f][p]
  {
    var filters := req.filters;
    var filters' :=
      if HasFilters(filters) then
        if sel.path == CATEGORY then
          if NestedFacet in filters then filters[NestedFacet := filters[NestedFacet] - {CATEGORY}] else filters
        else if sel.path == BRAND then
          if StringFacet in filters then filters[StringFacet := filters[StringFacet] - {BRAND}] else filters
        else filters
      else filters;
    req.(included := Some(IncludeValues(sel.path)), excluded := None, filters := filters')
  }

  /** A response as the service publishes it: `geo` and `actionType` stamped from the request, every facet's `path` set to its `name`. */
  function Stamped(res: SearchResponse, req: SearchRequest, actionType: ActionType): (r: SearchResponse)
    ensures r.geo == req.geo && r.actionType == Some(actionType)
    ensures r.items == res.items && r.page == res.page && r.pageSize == res.pageSize && r.total == res.total
    ensures |r.filters| == |res.filters|
    ensures forall i :: 0 <= i < |r.filters| ==>
      r.filters[i] == res.filters[i].(path := res.filters[i].name)
  {
    res.(geo := req.geo, actionType := Some(actionType),
         filters := Map(res.filters, (fr: FilterResponse) => fr.(path := fr.name)))
  }

  /** A response as the constructor's first request publishes it: every facet's `path` set to its `name`, nothing stamped. */
  function Renamed(res: SearchResponse): (r: SearchResponse)
    ensures r.geo == res.geo && r.actionType == res.actionType
    ensures r.items == res.items && r.page == res.page && r.pageSize == res.pageSize && r.total == res.total
    ensures |r.filters| == |res.filters|
    ensures forall i :: 0 <= i < |r.filters| ==> r.filters[i] == res.filters[i].(path := res.filters[i].name)
  {
    res.(filters := Map(res.filters, (fr: FilterResponse) => fr.(path := fr.name)))
  }

  /** A later publication differs from the first one only by the request's `geo` and the action. */
  lemma StampedIsRenamedPlusStamps(res: SearchResponse, req: SearchRequest, actionType: ActionType)
    ensures Stamped(res, req, actionType) == Renamed(res).(geo := req.geo, actionType := Some(actionType))
  {
    var a := Stamped(res, req, actionType).filters;
    var b := Renamed(res).filters;
    assert |a| == |b|;
    assert forall i :: 0 <= i < |a| ==> a[i] == b[i];
  }

  /** The paths to override: Category alone when every given path is Category (also when none is given), else the given paths. */
  function OverriddenPaths(filterPaths: seq<string>): (r: seq<string>)
    ensures (forall i :: 0 <= i < |filterPaths| ==> filterPaths[i] == CATEGORY) ==> r == [CATEGORY]
    ensures (exists i :: 0 <= i < |filterPaths| && filterPaths[i] != CATEGORY) ==> r == filterPaths
  {
    var isCategory := forall i :: 0 <= i < |filterPaths| ==> filterPaths[i] in [CATEGORY];
    if isCategory then [CATEGORY] else filterPaths
  }

  /**
   * `overrideResults`: when the primary response has facets, those whose
   * path is overridden are dropped (the others keep their order) and every
   * facet of the secondary response is appended; otherwise the primary
   * response is returned as it was.
   */
  function OverrideResults(cloned: SearchResponse, results: SearchResponse, filterPaths: seq<string>): (r: SearchResponse)
    ensures |results.filters| == 0 ==> r == results
    ensures |results.filters| > 0 ==>
      var toOverride := OverriddenPaths(filterPaths);
      && r == results.(filters := r.filters)
      && r.filters == Filter(results.filters, (fr: FilterResponse) => fr.path !in toOverride) + cloned.filters
  {
    var toOverride := OverriddenPaths(filterPaths);
    if |results.filters| > 0 then
      results.(filters := Filter(results.filters, (fr: FilterResponse) => fr.path !in toOverride) + cloned.filters)
    else results
  }

  /** `filterSelection?.path ? [filterSelection.path] : specialFilterPaths`. */
  function OverridePathsFor(sel: FilterSelection): seq<string> {
    if |sel.path| > 0 then [sel.path] else SPECIAL_FILTER_PATHS
  }

  /** The requests a dispatch sends to the backend: the request itself, then the second request when needed. */
  function Requests(d: Dispatch): (r: seq<SearchRequest>)
    ensures 1 <= |r| <= 2 && r[0] == d.request
    ensures |r| == 2 <==> NeedsSecondRequest(d.selection)
    ensures |r| == 2 ==> r[1] == SecondRequest(d.request, d.actionType, d.selection.value)
  {
    if NeedsSecondRequest(d.selection) then
      [d.request, SecondRequest(d.request, d.actionType, d.selection.value)]
    else [d.request]
  }

  /**
   * `search`, once its requests are answered: `primary` answers the first
   * request and `secondary`, when present, the second. A dispatch that needs
   * two answers publishes nothing until both are there; then the stamped
   * primary response is merged with the secondary one. Otherwise the stamped
   * primary response is published as it is.
   */
  function Search(d: Dispatch, primary: SearchResponse, secondary: Option<SearchResponse>): (r: Option<SearchResponse>)
    ensures r.Some? <==> !NeedsSecondRequest(d.selection) || secondary.Some?
    ensures !NeedsSecondRequest(d.selection) ==> r == Some(Stamped(primary, d.request, d.actionType))
    ensures r.Some? ==>
      && r.value.geo == d.request.geo && r.value.actionType == Some(d.actionType)
      && r.value.items == primary.items && r.value.page == primary.page && r.value.total == primary.total
  {
    var published := Stamped(primary, d.request, d.actionType);
    if NeedsSecondRequest(d.selection) then
      if secondary.Some? then
        Some(OverrideResults(secondary.value, published, OverridePathsFor(d.selection.value)))
      else None
    else Some(published)
  }

  /**
   * On a Brand or Category selection with both answers in and a primary
   * answer with facets, the published facets are the primary ones (renamed
   * path := name) whose path is not the trigger path, in order, followed by
   * all the secondary ones unchanged.
   */
  lemma DualSearchFacets(d: Dispatch, primary: SearchResponse, secondary: SearchResponse)
    requires NeedsSecondRequest(d.selection) && |primary.filters| > 0
    ensures var r := Search(d, primary, Some(secondary));
      && r.Some?
      && r.value.filters ==
           Filter(Stamped(primary, d.request, d.actionType).filters,
                  (fr: FilterResponse) => fr.path != d.selection.value.path)
           + secondary.filters
  {
    var sel := d.selection.value;
    var published := Stamped(primary, d.request, d.actionType);
    assert OverridePathsFor(sel) == [sel.path];
    assert OverriddenPaths([sel.path]) == [sel.path];
    var p1 := (fr: FilterResponse) => fr.path !in [sel.path];
    var p2 := (fr: FilterResponse) => fr.path != sel.path;
    FilterSamePredicate(published.filters, p1, p2);
  }

  /**
   * On a Brand or Category selection whose primary answer has no facets, the
   * stamped primary answer is published as it is and the second answer is
   * discarded.
   */
  lemma DualSearchWithoutFacets(d: Dispatch, primary: SearchResponse, secondary: SearchResponse)
    requires NeedsSecondRequest(d.selection) && |primary.filters| == 0
    ensures Search(d, primary, Some(secondary)) == Some(Stamped(primary, d.request, d.actionType))
  {
  }

  /** Two predicates that agree everywhere filter alike. */
  lemma {:induction false} FilterSamePredicate(s: seq<FilterResponse>, p1: FilterResponse -> bool, p2: FilterResponse -> bool)
    requires forall x :: p1(x) == p2(x)
    ensures Filter(s, p1) == Filter(s, p2)
  {
    if |s| > 0 {
      FilterSamePredicate(s[1..], p1, p2);
    }
  }

  /**
   * A Category selection whose primary answer lists only "Laptops" for
   * Category, while the second answer lists "Laptops", "Desktops" and
   * "Tablets", publishes the three, and keeps the primary's other facets.
   */
  lemma CategoryReconciliationExample(req: SearchRequest, actionType: ActionType, brandFacet: FilterResponse)
    requires brandFacet.name == BRAND
    ensures
      var sel := FilterSelection(NestedFacet, CATEGORY, Some(Bucket("Laptops", None)), Some(ADD));
      var d := Dispatch(req, actionType, Some(sel));
      var primaryCategory := FilterResponse(CATEGORY, NestedFacet, CATEGORY, [Bucket("Laptops", Some(3))], 0, 0, 3);
      var secondaryCategory := FilterResponse(CATEGORY, NestedFacet, CATEGORY,
        [Bucket("Laptops", Some(3)), Bucket("Desktops", Some(5)), Bucket("Tablets", Some(2))], 0, 0, 10);
      var primary := SearchResponse(["p1", "p2", "p3"], Some(0), Some(20), Some(3), None, None, [brandFacet, primaryCategory]);
      var secondary := SearchResponse([], Some(0), Some(20), Some(10), None, None, [secondaryCategory]);
      Search(d, primary, Some(secondary)) ==
        Some(Stamped(primary, req, actionType).(filters := [brandFacet.(path := BRAND), secondaryCategory]))
  {
    var sel := FilterSelection(NestedFacet, CATEGORY, Some(Bucket("Laptops", None)), Some(ADD));
    var d := Dispatch(req, actionType, Some(sel));
    var primaryCategory := FilterResponse(CATEGORY, NestedFacet, CATEGORY, [Bucket("Laptops", Some(3))], 0, 0, 3);
    var secondaryCategory := FilterResponse(CATEGORY, NestedFacet, CATEGORY,
      [Bucket("Laptops", Some(3)), Bucket("Desktops", Some(5)), Bucket("Tablets", Some(2))], 0, 0, 10);
    var primary := SearchResponse(["p1", "p2", "p3"], Some(0), Some(20), Some(3), None, None, [brandFacet, primaryCategory]);
    var secondary := SearchResponse([], Some(0), Some(20), Some(10), None, None, [secondaryCategory]);
    var published := Stamped(primary, req, actionType);
    assert published.filters == [brandFacet.(path := BRAND), primaryCategory];
    assert BRAND != CATEGORY;
    var keep := (fr: FilterResponse) => fr.path !in [CATEGORY];
    assert Filter(published.filters, keep) == [brandFacet.(path := BRAND)] by {
      assert published.filters[1..] == [primaryCategory];
      assert Filter([primaryCategory], keep) == [];
    }
    assert OverridePathsFor(sel) == [CATEGORY];
    assert OverriddenPaths([CATEGORY]) == [CATEGORY];
    var merged := OverrideResults(secondary, published, [CATEGORY]);
    assert merged.filters == [brandFacet.(path := BRAND), secondaryCategory];
    assert Search(d, primary, Some(secondary)) == Some(merged);
  }

  /** The second request for a Category selection drops only the nested Category filter and overrides nothing but Category. */
  lemma CategorySecondRequest(req: SearchRequest, actionType: ActionType, sel: FilterSelection)
    requires sel.path == CATEGORY && HasFilter(req.filters, NestedFacet, CATEGORY)
    ensures var r := SecondRequest(req, actionType, sel);
      && NestedFacet in r.filters && CATEGORY !in r.filters[NestedFacet]
      && r.filters[NestedFacet] == req.filters[NestedFacet] - {CATEGORY}
      && r.included == Some(["Category"])
      && OverriddenPaths(OverridePathsFor(sel)) == [CATEGORY]
  {
  }
}
