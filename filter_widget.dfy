/**
 * The filter sidebar: it holds a copy of the response facets and of the
 * selected list, and hands every selection its dropdowns and sliders emit to
 * the filter service.
 */
module FilterWidget {
  import opened Collections
  import opened SearchRequests
  import opened FilterTrees
  import opened SelectedFilters
  import opened QueryDispatch
  import opened FilterService
  import opened Slider
  import opened DropDown

  /** The service operation a selection is routed to. */
  datatype ServiceCall =
    | CallAddFilter
    | CallRemoveFilter
    | CallClearFilter(facet: FacetType, path: string)
    | NoCall

  /**
   * `onFilterSelection`: string and nested facets are routed by action (a
   * CLEAR_ALL clears only that path, other actions call nothing); a number
   * facet is always added.
   */
  function Route(sel: FilterSelection): (c: ServiceCall)
    ensures sel.filterType == NumberFacet ==> c == CallAddFilter
    ensures sel.filterType != NumberFacet ==>
      && (c == CallAddFilter <==> sel.actionType == Some(ADD))
      && (c == CallRemoveFilter <==> sel.actionType == Some(REMOVE))
      && (c.CallClearFilter? <==> sel.actionType == Some(CLEAR_ALL))
      && (c == NoCall <==> sel.actionType.None? || sel.actionType.value !in [ADD, REMOVE, CLEAR_ALL])
    ensures c.CallClearFilter? ==> c == CallClearFilter(sel.filterType, sel.path)
  {
    match sel.filterType
    case NumberFacet => CallAddFilter
    case _ =>
      match sel.actionType
      case Some(ADD) => CallAddFilter
      case Some(REMOVE) => CallRemoveFilter
      case Some(CLEAR_ALL) => CallClearFilter(sel.filterType, sel.path)
      case _ => NoCall
  }

  /** A dropdown's "clear" clears its own path and never every filter. */
  lemma DropDownClearRoutesToClearFilter(facet: FacetType, path: string)
    requires facet != NumberFacet
    ensures Route(FilterSelection(facet, path, None, Some(CLEAR_ALL))) == CallClearFilter(facet, path)
  {
  }

  /** A dropdown's check adds, its uncheck removes. */
  lemma DropDownEventsRoute(facet: FacetType, path: string, b: Bucket)
    requires facet != NumberFacet
    ensures Route(FilterSelection(facet, path, Some(b), Some(ADD))) == CallAddFilter
    ensures Route(FilterSelection(facet, path, Some(b), Some(REMOVE))) == CallRemoveFilter
  {
  }

  /** A slider change on a number facet reaches `addFilter`, which replaces the path's single value. */
  lemma SliderRoutesToReplace(t: FilterTree, l: seq<FilterSelection>, sel: FilterSelection)
    requires sel.filterType == NumberFacet && sel.actionType == Some(SLIDER_CHANGE) && sel.value.Some?
    ensures Route(sel) == CallAddFilter
    ensures AddToTree(t, NumberFacet, sel.path, sel.value.value.name)[NumberFacet][sel.path] == [sel.value.value.name]
    ensures ReloadedFilters(l, sel)[|ReloadedFilters(l, sel)| - 1] == sel
  {
    AddNumberReplaces(t, sel.path, sel.value.value.name);
  }

  class FilterWidgetComponent {
    /** A deep copy of the facets of the last response. */
    var filters: seq<FilterResponse>
    /** A deep copy of the service's selected list. */
    var selectedFilters: seq<FilterSelection>
    const service: ProductFilterService

    constructor (service: ProductFilterService)
      requires service.Valid()
      ensures this.service == service
      ensures filters == [] && selectedFilters == service.selectedFilters
    {
      this.service := service;
      filters := [];
      selectedFilters := service.selectedFilters;
    }

    /** The `fields` setter: the facets of a published response. */
    method SetFields(response: SearchResponse)
      modifies this
      ensures filters == response.filters
      ensures selectedFilters == old(selectedFilters)
    {
      filters := response.filters;
    }

    /** The subscription to the service's selected list. */
    method OnSelectedFilters(l: seq<FilterSelection>)
      modifies this
      ensures selectedFilters == l
      ensures filters == old(filters)
    {
      selectedFilters := l;
    }

    /** `onFilterSelection`: the selection is handed to the service operation `Route` names. */
    method OnFilterSelection(sel: FilterSelection) returns (d: Option<Dispatch>)
      requires service.Valid()
      requires Route(sel) == CallAddFilter || Route(sel) == CallRemoveFilter ==> sel.value.Some?
      modifies service
      ensures service.Valid()
      ensures d.Some? <==> Route(sel) != NoCall
      ensures Route(sel) == CallAddFilter ==>
        && service.filters == AddToTree(old(service.filters), sel.filterType, sel.path, sel.value.value.name)
        && service.selectedFilters == ReloadedFilters(old(service.selectedFilters), sel)
      ensures Route(sel) == CallRemoveFilter ==>
        && service.filters == RemoveFromTree(old(service.filters), sel.filterType, sel.path, sel.value.value.name)
        && service.selectedFilters == ReloadedFilters(old(service.selectedFilters), sel)
      ensures Route(sel) == CallClearFilter(sel.filterType, sel.path) ==>
        && service.filters == ClearFromTree(old(service.filters), sel.filterType, sel.path)
        && service.selectedFilters == ClearSelected(old(service.selectedFilters), sel.filterType, sel.path)
      ensures Route(sel) == NoCall ==> service.Request() == old(service.Request()) && service.selectedFilters == old(service.selectedFilters)
      ensures d.Some? ==> d.value.request == service.Request()
    {
      match Route(sel)
      case CallAddFilter =>
        var r := service.AddFilter(sel);
        d := Some(r);
      case CallRemoveFilter =>
        var r := service.RemoveFilter(sel);
        d := Some(r);
      case CallClearFilter(facet, path) =>
        var r := service.ClearFilter(facet, path);
        d := Some(r);
      case NoCall =>
        d := None;
    }
  }
}
