/**
 * The multi-select dropdown of a string facet: which of its buckets are
 * selected, and the selection each checkbox event emits (here: returns).
 */
module DropDown {
  import opened Collections
  import opened SearchRequests
  import opened SelectedFilters
  import opened BucketOrder

  /** `e` selects the value `n` under this facet type and path. */
  predicate Selects(e: FilterSelection, facet: FacetType, path: string, n: string) {
    e.filterType == facet && e.path == path && e.value.Some? && e.value.value.name == n
  }

  /** The value names selected under one facet type and path, in list order. */
  function SelectedValuesOf(l: seq<FilterSelection>, facet: FacetType, path: string): (r: seq<string>)
    requires HasValues(l)
    ensures forall n :: n in r <==> exists i :: 0 <= i < |l| && Selects(l[i], facet, path, n)
    ensures (forall i :: 0 <= i < |l| ==> l[i].filterType != facet) ==> r == []
  {
    if |l| == 0 then []
    else
      var rest := SelectedValuesOf(l[1..], facet, path);
      forall n
        ensures (exists i :: 0 <= i < |l| && Selects(l[i], facet, path, n)) <==>
          Selects(l[0], facet, path, n) || exists i :: 0 <= i < |l| - 1 && Selects(l[1..][i], facet, path, n)
      {
        if exists i :: 0 <= i < |l| && Selects(l[i], facet, path, n) {
          var i :| 0 <= i < |l| && Selects(l[i], facet, path, n);
          if i > 0 {
            assert l[1..][i - 1] == l[i];
          }
        }
      }
      if l[0].filterType == facet && l[0].path == path then [l[0].value.value.name] + rest else rest
  }

  function OfType(facet: FacetType): FilterSelection -> bool {
    (e: FilterSelection) => e.filterType == facet
  }

  function OnPath(path: string): FilterSelection -> bool {
    (e: FilterSelection) => e.path == path
  }

  /** The value name of an entry; every entry of the published list has a value. */
  function NameOf(e: FilterSelection): string {
    if e.value.Some? then e.value.value.name else ""
  }

  /** Filtering by type, then by path, then taking names gives the selected value names. */
  lemma {:induction false} FilterMapIsSelectedValues(l: seq<FilterSelection>, facet: FacetType, path: string)
    requires HasValues(l)
    ensures Map(Filter(Filter(l, OfType(facet)), OnPath(path)), NameOf) == SelectedValuesOf(l, facet, path)
  {
    if |l| > 0 {
      FilterMapIsSelectedValues(l[1..], facet, path);
      var byType := Filter(l, OfType(facet));
      if OfType(facet)(l[0]) {
        assert byType == [l[0]] + Filter(l[1..], OfType(facet));
        assert byType[1..] == Filter(l[1..], OfType(facet));
      }
    }
  }

  class DropDownComponent {
    var filterResponse: FilterResponse
    var selectedValues: seq<string>
    var isExpanded: bool
    /** The selected-filters list last handed to the setter. */
    ghost var selectedList: seq<FilterSelection>

    /** The selected names are those the last list selects on this facet. */
    ghost predicate Valid()
      reads this
    {
      HasValues(selectedList) &&
      selectedValues == SelectedValuesOf(selectedList, filterResponse.facetType, filterResponse.path)
    }

    constructor (response: FilterResponse)
      ensures Valid()
      ensures filterResponse == response && selectedValues == [] && selectedList == [] && isExpanded
    {
      filterResponse := response;
      selectedValues := [];
      selectedList := [];
      isExpanded := true;
    }

    /** `ngOnInit`: the facet's buckets are put in name order. */
    method NgOnInit()
      requires Valid()
      modifies this
      ensures Valid()
      ensures filterResponse == old(filterResponse).(buckets := filterResponse.buckets)
      ensures SortedByName(filterResponse.buckets)
      ensures multiset(filterResponse.buckets) == multiset(old(filterResponse.buckets))
      ensures selectedValues == old(selectedValues) && selectedList == old(selectedList)
      ensures isExpanded == old(isExpanded)
    {
      filterResponse := filterResponse.(buckets := SortByName(filterResponse.buckets));
    }

    /**
     * The `selectedFilters` setter: the names of the entries of this
     * facet's type, then of its path; none when no entry has the type.
     */
    method SetSelectedFilters(l: seq<FilterSelection>)
      requires HasValues(l)
      modifies this
      ensures Valid() && selectedList == l
      ensures selectedValues == SelectedValuesOf(l, filterResponse.facetType, filterResponse.path)
      ensures filterResponse == old(filterResponse) && isExpanded == old(isExpanded)
    {
      selectedList := l;
      var selectedFilter := Filter(l, OfType(filterResponse.facetType));
      if |selectedFilter| > 0 {
        selectedValues := Map(Filter(selectedFilter, OnPath(filterResponse.path)), NameOf);
      } else {
        selectedValues := [];
      }
      FilterMapIsSelectedValues(l, filterResponse.facetType, filterResponse.path);
    }

    /** `onClear`: a CLEAR_ALL on this facet's type and path, without a value. */
    method OnClear() returns (sel: FilterSelection)
      ensures sel.filterType == filterResponse.facetType && sel.path == filterResponse.path
      ensures sel.value.None? && sel.actionType == Some(CLEAR_ALL)
    {
      sel := FilterSelection(filterResponse.facetType, filterResponse.path, None, Some(CLEAR_ALL));
    }

    /** `onRemove`: a REMOVE of the given bucket on this facet's type and path. */
    method OnRemove(bucket: Option<Bucket>) returns (sel: FilterSelection)
      ensures sel.filterType == filterResponse.facetType && sel.path == filterResponse.path
      ensures sel.value == bucket && sel.actionType == Some(REMOVE)
    {
      sel := FilterSelection(filterResponse.facetType, filterResponse.path, bucket, Some(REMOVE));
    }

    /**
     * `newMessage`: a bucket with no event or a checked event is an ADD of
     * that bucket; any other event is a REMOVE of the bucket (absent or
     * not); no bucket and no event is a CLEAR_ALL.
     */
    method NewMessage(bucket: Option<Bucket>, event: Option<bool>) returns (sel: FilterSelection)
      ensures sel.filterType == filterResponse.facetType && sel.path == filterResponse.path
      ensures sel.actionType == Some(ADD) <==> bucket.Some? && (event.None? || event.value)
      ensures sel.actionType == Some(REMOVE) <==> event.Some? && !(bucket.Some? && event.value)
      ensures sel.actionType == Some(CLEAR_ALL) <==> bucket.None? && event.None?
      ensures sel.actionType != Some(CLEAR_ALL) ==> sel.value == bucket
      ensures sel.actionType == Some(CLEAR_ALL) ==> sel.value.None?
    {
      var checked := if event.Some? then event.value else true;
      if bucket.Some? && checked {
        sel := FilterSelection(filterResponse.facetType, filterResponse.path, bucket, Some(ADD));
      } else {
        if event.Some? {
          sel := OnRemove(bucket);
        } else {
          sel := OnClear();
        }
      }
    }

    /** `isItemSelected`: the last selected-filters list has an entry for the bucket on this facet. */
    function IsItemSelected(item: Bucket): (r: bool)
      requires Valid()
      reads this
      ensures r <==> (exists i :: 0 <= i < |selectedList| &&
                        Selects(selectedList[i], filterResponse.facetType, filterResponse.path, item.name))
    {
      item.name in selectedValues
    }

    /** `onViewMore`: the bucket list is expanded or collapsed, the other way round. */
    method OnViewMore()
      requires Valid()
      modifies this
      ensures Valid()
      ensures isExpanded == !old(isExpanded)
      ensures filterResponse == old(filterResponse) && selectedValues == old(selectedValues)
      ensures selectedList == old(selectedList)
    {
      isExpanded := !isExpanded;
    }
  }

  /** After the setter, a bucket shows as selected exactly when the list has an entry for it on this facet. */
  method SelectedAfterSetter(d: DropDownComponent, l: seq<FilterSelection>, item: Bucket) returns (shown: bool)
    requires HasValues(l)
    modifies d
    ensures shown <==> exists i :: 0 <= i < |l| && Selects(l[i], d.filterResponse.facetType, d.filterResponse.path, item.name)
  {
    d.SetSelectedFilters(l);
    shown := d.IsItemSelected(item);
  }

  /** Two clicks on "view more" leave the list as it was. */
  method ViewMoreTwice(d: DropDownComponent)
    requires d.Valid()
    modifies d
    ensures d.Valid()
    ensures d.isExpanded == old(d.isExpanded)
  {
    d.OnViewMore();
    d.OnViewMore();
  }
}
