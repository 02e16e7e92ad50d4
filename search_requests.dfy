/**
 * The records exchanged between the filter UI, the filter service and the
 * search backend: the search request with its two-level filter tree, the
 * search response with its facet lists, and the closed enumerations
 * `FacetType`, `FilterPath` and `ActionType`.
 */
module SearchRequests {
  import opened Collections

  /** The three facet kinds; a filter request has at most one map per kind. */
  datatype FacetType = StringFacet | NestedFacet | NumberFacet {
    /** The property name the facet has in a JSON filter request. */
    function Key(): (k: string)
      ensures |k| > 0
    {
      match this
      case StringFacet => "stringFacet"
      case NestedFacet => "nestedFacet"
      case NumberFacet => "numberFacet"
    }
  }

  /** The paths the service and the components treat specially. */
  datatype FilterPath = CategoryType | Category | SellerId | Brand {
    function Value(): (v: string)
      ensures |v| > 0
    {
      match this
      case CategoryType => "sellers.categoryTypes.categoryType"
      case Category => "Category"
      case SellerId => "sellers.sellerId"
      case Brand => "Brand"
    }
  }

  const CATEGORY_TYPE: string := CategoryType.Value()
  const CATEGORY: string := Category.Value()
  const SELLER_ID: string := SellerId.Value()
  const BRAND: string := Brand.Value()

  /** The gesture that produced a filter selection or a search. */
  datatype ActionType =
    | ADD | REMOVE | CLEAR_ALL | CLEAR_FILTER | SLIDER_CHANGE
    | SEARCH | PAGE_CHANGE | LOCATION_CHANGE | SORT_CHANGE
  {
    /** The numeric value of the TypeScript enum member (declaration order from 0). */
    function Ordinal(): (n: nat)
      ensures n < 9
    {
      match this
      case ADD => 0
      case REMOVE => 1
      case CLEAR_ALL => 2
      case CLEAR_FILTER => 3
      case SLIDER_CHANGE => 4
      case SEARCH => 5
      case PAGE_CHANGE => 6
      case LOCATION_CHANGE => 7
      case SORT_CHANGE => 8
    }
  }

  /** Every action, in declaration order. */
  const AllActionTypes: seq<ActionType> :=
    [ADD, REMOVE, CLEAR_ALL, CLEAR_FILTER, SLIDER_CHANGE, SEARCH, PAGE_CHANGE, LOCATION_CHANGE, SORT_CHANGE]

  datatype DistanceUnit = KILOMETERS | MILES

  datatype GeoRequest = GeoRequest(latitude: real, longitude: real, radius: real, distanceUnit: DistanceUnit)

  /**
   * The filter tree: facet kind, then filter path, then the selected value
   * names. A missing key plays the part of an absent JSON property.
   */
  type FilterTree = map<FacetType, map<string, seq<string>>>

  /** What the service sends to the backend; `included` and `excluded` are the JSON `include` and `exclude` lists. */
  datatype SearchRequest = SearchRequest(
    page: int,
    pageSize: int,
    sort: seq<string>,
    searchBox: Option<string>,
    geo: Option<GeoRequest>,
    included: Option<seq<string>>,
    excluded: Option<seq<string>>,
    filters: FilterTree)

  datatype Bucket = Bucket(name: string, documentsFound: Option<int>)

  /** One facet of a response, with its buckets (or, for a number facet, its range). */
  datatype FilterResponse = FilterResponse(
    path: string,
    facetType: FacetType,
    name: string,
    buckets: seq<Bucket>,
    min: int,
    max: int,
    documentsFound: int)

  /** Product items are opaque to this core; they are carried by identifier. */
  type Item = string

  datatype SearchResponse = SearchResponse(
    items: seq<Item>,
    page: Option<int>,
    pageSize: Option<int>,
    total: Option<int>,
    geo: Option<GeoRequest>,
    actionType: Option<ActionType>,
    filters: seq<FilterResponse>)

  /** One user gesture on a facet. `value` is absent for a clear. */
  datatype FilterSelection = FilterSelection(
    filterType: FacetType,
    path: string,
    value: Option<Bucket>,
    actionType: Option<ActionType>)

  /** The facet keys of a JSON filter request are pairwise distinct. */
  lemma FacetKeysDistinct(a: FacetType, b: FacetType)
    ensures a.Key() == b.Key() <==> a == b
  {
    if a != b {
      assert a.Key()[0] != b.Key()[0] || a.Key()[1] != b.Key()[1];
    }
  }

  /** The filter path constants are pairwise distinct; Category and Brand have their plain names. */
  lemma FilterPathsDistinct(a: FilterPath, b: FilterPath)
    ensures a.Value() == b.Value() <==> a == b
    ensures CATEGORY == "Category" && BRAND == "Brand"
  {
    if a != b {
      assert |a.Value()| != |b.Value()|;
    }
  }

  /** There are exactly nine actions, numbered 0 to 8 without gaps or repeats. */
  lemma ActionTypesEnumerated(a: ActionType)
    ensures a in AllActionTypes
    ensures |AllActionTypes| == 9
    ensures forall i :: 0 <= i < 9 ==> AllActionTypes[i].Ordinal() == i
    ensures AllActionTypes[a.Ordinal()] == a
  {
  }
}
