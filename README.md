# Faceted product search: filter state, query dispatch and filter widgets

This project models, in Dafny, the filtering core of an Angular e-commerce
front end. Its central piece is `ProductFilterService`, which owns one
mutable search request per session. The request holds the page, the sort,
the free text, the location and a two-level filter tree: facet type
(`stringFacet`, `nestedFacet`, `numberFacet`), then filter path, then the
selected value names. Beside it the service publishes the list of selected
filters.

Every user gesture does three things:

- it edits the tree and the list;
- it resets pagination;
- it ends in `search`.

When the gesture's path is Brand or Category, `search` sends a second
request. That request leaves out the facet's own filter. The facet lists of
its answer replace that facet in the published response, so the user can
still see and pick sibling values.

Around the service the project models these components:

- the product list page, which accumulates pages, offers distance sorts only
  while a location is set, and hides the seller filter;
- the filter sidebar, which routes gestures to the service;
- the multi-select dropdown of a string facet;
- the range slider of a number facet, with its power-of-two scales for RAM
  and CPU.

It also models the request and response records and the two slider
ceilings.

Modules, in dependency order:

- `Collections`: `findIndex`, `filter`, `splice` and `map` on sequences, plus lemmas about them.
- `SearchRequests`: the request and response records and the `FacetType`, `FilterPath` and `ActionType` enumerations.
- `FilterTrees`: the filter tree as a value. It covers the presence tests, what add, remove and clear do to the tree, and the tree's invariant.
- `SelectedFilters`: the published selected list. It shows how `reloadFilters` and `clearFilter` change the list, and when the list stays in step with the tree.
- `QueryDispatch`: a call to `search` as a value. It covers the second request, the stamping and renaming of responses, and the merge of the two answers.
- `FilterService`: the service as a class whose methods update its fields in place.
- `Decimal`: the decimal text of integers, and reading a `low-high` range back.
- `Slider`, `BucketOrder`, `DropDown`, `FilterWidget`, `ProductCardList`: the components.

The state-changing operations are methods, and each method's `ensures`
ties the new state to a specification function of the old state:

- `AddToTree`, `RemoveFromTree` and `ClearFromTree` for the tree;
- `ReloadedFilters` and `ClearSelected` for the list;
- `Accumulated`, `SortOptionsFor` and `KeptSort` for the page.

The properties are lemmas about those functions, or invariants the methods
preserve (`Valid`).

A call to `search` is returned as a `Dispatch` value: the request, the
action and the selection. The HTTP answers are inputs of
`QueryDispatch.Search`, which gives the response that is published.

Points where the code behaves in a way a reader might not expect:

- The suppression of further page loads once all products are shown lives
  in the page's `onScroll`, not in `loadNextPage`. `loadNextPage` always
  advances.
- A response without a page number replaces the product list, just as page
  0 does, because `undefined > 0` is false.
- The first response, from `initializeRequest`, is published with only its
  facet paths renamed. It carries no stamped `geo` or action.
- `removeFilter` removes every equal value from the tree, but only the first
  matching entry from the selected list.

## Model

| member | source | states |
|---|---|---|
| SearchRequests.FacetKeysDistinct | src/app/product-filtering/search-filters-requests.ts:8-18 | two facet types have the same JSON key exactly when they are the same facet type |
| SearchRequests.FilterPathsDistinct | src/app/product-filtering/search-filters-requests.ts:78-83 | the four filter path constants are pairwise distinct, and Category and Brand are the plain names |
| SearchRequests.ActionTypesEnumerated | src/app/product-filtering/search-filters-requests.ts:85-95 | there are exactly nine actions, numbered 0 to 8 in declaration order with no gap or repeat |
| FilterTrees.HasFacet | src/app/product-filtering/product-filter.service.ts:337-340 | true exactly when the facet is a key of the tree |
| FilterTrees.HasFilter | src/app/product-filtering/product-filter.service.ts:348-351 | true exactly when the facet is present and has the path |
| FilterTrees.AddToTree | src/app/product-filtering/product-filter.service.ts:96-115 | the facet and path become present; an existing number path holds only the new value; an existing path of another facet gets it appended; a new path holds it alone; every other facet and path keeps its values, and every other facet is unchanged as a whole |
| FilterTrees.DeletePath | src/app/product-filtering/product-filter.service.ts:135-138 | exactly the one (facet, path) pair disappears, an emptied facet with it, and every other pair keeps its values |
| FilterTrees.RemoveFromTree | src/app/product-filtering/product-filter.service.ts:127-140 | an absent facet or path leaves the tree unchanged |
| FilterTrees.ClearFromTree | src/app/product-filtering/product-filter.service.ts:151-157 | a value remains exactly when it was there and is not under the cleared facet and path; an absent path leaves the tree unchanged |
| FilterTrees.AddNumberReplaces | src/app/product-filtering/product-filter.service.ts:100-101 | adding to a number path leaves exactly one value there, whatever was there before |
| FilterTrees.AddToTreeValues | src/app/product-filtering/product-filter.service.ts:96-115 | after an add the tree holds the old values plus the new one; on a number facet the old values of that path are gone |
| FilterTrees.RemoveFromTreeValues | src/app/product-filtering/product-filter.service.ts:127-140 | after a removal the tree holds exactly the old values except the removed (facet, path, name) |
| FilterTrees.AddKeepsWellFormed | src/app/product-filtering/product-filter.service.ts:96-115 | an add keeps the tree free of empty facets and empty paths, with one value per number path |
| FilterTrees.RemoveKeepsWellFormed | src/app/product-filtering/product-filter.service.ts:127-140 | a removal keeps that invariant: emptied paths and facets are deleted |
| FilterTrees.ClearKeepsWellFormed | src/app/product-filtering/product-filter.service.ts:151-157 | clearing a path keeps that invariant |
| FilterTrees.AddThenRemoveRestores | src/app/product-filtering/product-filter.service.ts:90-143 | on a well-formed tree, adding a string or nested value that is not yet there and then removing it gives back the same tree |
| SelectedFilters.RemoveFirst | src/app/product-filtering/product-filter.service.ts:365-372 | with no matching entry the list is unchanged; otherwise exactly the first match is dropped and the rest keep their order |
| SelectedFilters.ReloadedFilters | src/app/product-filtering/product-filter.service.ts:357-387 | ADD appends the selection; REMOVE drops the first entry with the same type, path and value name; SLIDER_CHANGE drops the first entry with the same path and appends; CLEAR_ALL empties the list; other actions leave it |
| SelectedFilters.ClearSelected | src/app/product-filtering/product-filter.service.ts:158 | the kept entries are exactly the old ones whose type or path differs from the cleared pair |
| SelectedFilters.ClearSelectedInOrder | src/app/product-filtering/product-filter.service.ts:158 | a single entry is dropped exactly when it has the cleared type and path, and clearing a concatenation clears each part in turn, so the kept entries keep their order and their number of occurrences |
| SelectedFilters.RemoveMatchesIsSameValue | src/app/product-filtering/product-filter.service.ts:365-369 | the REMOVE match holds exactly when the entry and the selection address the same tree value |
| SelectedFilters.AddKeepsSync | src/app/product-filtering/product-filter.service.ts:90-117 | an ADD of a string or nested value not yet selected keeps the list and the tree holding the same values, each once |
| SelectedFilters.RemoveKeepsSync | src/app/product-filtering/product-filter.service.ts:125-143 | a REMOVE keeps list and tree in step when they were in step |
| SelectedFilters.ClearKeepsSync | src/app/product-filtering/product-filter.service.ts:150-162 | `clearFilter` keeps list and tree in step |
| SelectedFilters.NumberPathUnique | src/app/product-filtering/product-filter.service.ts:375-382 | in a synced list, at most one entry uses a number path |
| SelectedFilters.DropNumberPath | src/app/product-filtering/product-filter.service.ts:376-379 | dropping the first entry with a number path drops every value with that path and no other value |
| SelectedFilters.SliderKeepsSync | src/app/product-filtering/product-filter.service.ts:375-382 | a SLIDER_CHANGE on a number path keeps list and tree in step, provided no entry of another type uses that path |
| SelectedFilters.DuplicateAddThenRemoveDesyncs | src/app/product-filtering/product-filter.service.ts:130-133 | adding the same brand twice and removing it once empties the tree but leaves one list entry |
| QueryDispatch.NeedsSecondRequest | src/app/product-filtering/product-filter.service.ts:197-199 | a second request is sent exactly when a selection is given and its path is Brand or Category |
| QueryDispatch.PathsWithInclude | src/app/product-filtering/product-filter.service.ts:392-398 | the include table has three entries with distinct paths |
| QueryDispatch.IncludeValues | src/app/product-filtering/product-filter.service.ts:271-272 | Brand, Category and the category-type path each get their own hint; any other path gets none |
| QueryDispatch.SecondRequest | src/app/product-filtering/product-filter.service.ts:267-287 | the copy has no `exclude` and has the path's `include` hints; for Category or Brand it loses only that path's entry in the nested or string facet; everything else equals the original |
| QueryDispatch.Stamped | src/app/product-filtering/product-filter.service.ts:200-212 | the published response carries the request's `geo` and the action, and each facet's path is replaced by its name; items, page and total are kept |
| QueryDispatch.Renamed | src/app/product-filtering/product-filter.service.ts:313-316 | the first response keeps everything but gets each facet's path replaced by its name |
| QueryDispatch.StampedIsRenamedPlusStamps | src/app/product-filtering/product-filter.service.ts:200-212 | a later publication differs from the first kind only in `geo` and the action |
| QueryDispatch.OverriddenPaths | src/app/product-filtering/product-filter.service.ts:296-298 | when every given path is Category (or none is given), only Category is overridden; otherwise the given paths are |
| QueryDispatch.OverrideResults | src/app/product-filtering/product-filter.service.ts:295-303 | a response without facets is returned as it was; otherwise the overridden facets are dropped, the rest keep their order, and the second answer's facets are appended |
| QueryDispatch.Requests | src/app/product-filtering/product-filter.service.ts:196-214 | one request is sent, or two exactly when a second request is needed; the first is the state's request |
| QueryDispatch.Search | src/app/product-filtering/product-filter.service.ts:196-216 | a two-request dispatch publishes only once both answers are in; a one-request dispatch publishes the stamped answer; a published response carries the request's `geo` and the action, and the primary items, page and total |
| QueryDispatch.DualSearchFacets | src/app/product-filtering/product-filter.service.ts:199-207 | on a Brand or Category selection, the published facets are the primary ones off the trigger path, in order, then all of the second answer's facets |
| QueryDispatch.DualSearchWithoutFacets | src/app/product-filtering/product-filter.service.ts:199-207 | on a Brand or Category selection whose primary answer has no facets, the stamped primary answer is published as it is and the second answer is discarded |
| QueryDispatch.CategoryReconciliationExample | src/app/product-filtering/product-filter.service.ts:199-207 | a Category answer listing only "Laptops", with a second answer listing three categories, publishes the three and keeps the primary Brand facet |
| QueryDispatch.CategorySecondRequest | src/app/product-filtering/product-filter.service.ts:267-287 | for Category the second request drops only the nested Category filter, includes "Category", and overrides only Category |
| FilterService.HasGeoSort | src/app/product-filtering/product-filter.service.ts:73 | true exactly when some sort key starts with "geo" |
| FilterService.DeleteValue | src/app/product-filtering/product-filter.service.ts:127-140 | the step-by-step tree edits of `removeFilter` give `RemoveFromTree` |
| FilterService.InsertValue | src/app/product-filtering/product-filter.service.ts:96-115 | the step-by-step tree edits of `addFilter` give `AddToTree` |
| FilterService.DeletePathOf | src/app/product-filtering/product-filter.service.ts:151-157 | the step-by-step tree edits of `clearFilter` give `ClearFromTree` |
| FilterService.ProductFilterService.constructor | src/app/product-filtering/product-filter.service.ts:28-47 | page 0 of 20, price-ascending sort, no text, no location, empty exclusions, no filters, empty selected list, invariant established |
| FilterService.ProductFilterService.InitializeRequest | src/app/product-filtering/product-filter.service.ts:310-321 | the filters are emptied, all else kept, and the request sent is the state |
| FilterService.ProductFilterService.ResetPagination | src/app/product-filtering/product-filter.service.ts:236-239 | page 0 and page size 20; nothing else changes |
| FilterService.ProductFilterService.ResetSort | src/app/product-filtering/product-filter.service.ts:244-246 | the default price-ascending sort; nothing else changes |
| FilterService.ProductFilterService.ResetGeoSearch | src/app/product-filtering/product-filter.service.ts:251-254 | no location and the default sort; nothing else changes |
| FilterService.ProductFilterService.SearchByText | src/app/product-filtering/product-filter.service.ts:54-62 | a non-empty text is stored, an absent or empty one is removed; pagination resets; a SEARCH is dispatched |
| FilterService.ProductFilterService.SearchByLocation | src/app/product-filtering/product-filter.service.ts:70-81 | a location is stored and the sort becomes distance then price unless a key already starts with "geo"; no location resets location and sort; a LOCATION_CHANGE is dispatched |
| FilterService.ProductFilterService.ReloadFilters | src/app/product-filtering/product-filter.service.ts:357-387 | the selected list becomes `ReloadedFilters` of the old list; the request is unchanged |
| FilterService.ProductFilterService.AddFilter | src/app/product-filtering/product-filter.service.ts:90-117 | tree becomes `AddToTree`, list becomes `ReloadedFilters`, pagination resets, invariant kept, an ADD with the selection is dispatched |
| FilterService.ProductFilterService.RemoveFilter | src/app/product-filtering/product-filter.service.ts:125-143 | tree becomes `RemoveFromTree`, list becomes `ReloadedFilters`, pagination resets, invariant kept, a REMOVE with the selection is dispatched |
| FilterService.ProductFilterService.ClearFilter | src/app/product-filtering/product-filter.service.ts:150-162 | tree becomes `ClearFromTree`, list becomes `ClearSelected`, pagination resets, invariant kept, a CLEAR_FILTER is dispatched |
| FilterService.ProductFilterService.ClearAllFilters | src/app/product-filtering/product-filter.service.ts:167-176 | no filters, no location, no text, default sort, first page, empty list; a CLEAR_ALL is dispatched |
| FilterService.ProductFilterService.SortBy | src/app/product-filtering/product-filter.service.ts:182-186 | the given sort from the first page; a SORT_CHANGE is dispatched |
| FilterService.ProductFilterService.LoadNextPage | src/app/product-filtering/product-filter.service.ts:191-194 | the page advances by one and nothing else changes; a PAGE_CHANGE is dispatched |
| FilterService.ProductFilterService.GetSelectedCategoryTypes | src/app/product-filtering/product-filter.service.ts:221-226 | exactly the values selected under the nested category-type path |
| Decimal.ParseIntToString | src/app/product-filtering/widget/slider.ts:108 | the decimal text of every integer, negative ones included, reads back as that integer |
| Decimal.ParseFormatRange | src/app/product-filtering/widget/slider.ts:108 | a `low-high` text reads back as the two bounds, whatever their signs |
| Slider.GenerateSteps | src/app/product-filtering/widget/slider.ts:156-163 | the steps are the powers of two below the ceiling, in order, then the ceiling plus one; strictly increasing |
| Slider.StepsIncreasing | src/app/product-filtering/widget/slider.ts:156-163 | any step scale is strictly increasing |
| Slider.StepsUnique | src/app/product-filtering/widget/slider.ts:156-163 | a ceiling has exactly one step scale |
| Slider.RamSteps | src/app/product-filtering/widget/slider.ts:156-171 | the RAM scale has 11 steps: 1 to 512, then 1025 |
| Slider.CoreSteps | src/app/product-filtering/widget/slider.ts:156-174 | the CPU scale has 7 steps: 1 to 32, then 65 |
| Slider.ClampHigh | src/app/product-filtering/widget/slider.ts:98-100 | the high end is lowered to the saved bound when above it, and kept otherwise |
| Slider.RaiseLow | src/app/product-filtering/widget/slider.ts:102-104 | the low end is raised to the saved bound when below it, and kept otherwise |
| Slider.SubmittedBounds | src/app/product-filtering/widget/slider.ts:97-106 | the clamped bounds, with a CPU high end of exactly 64 sent as 1024 |
| Slider.DisplayWithCeiling | src/app/product-filtering/widget/slider.ts:119-147 | a High label above the threshold reads `>` and the ceiling; Low and other High labels read the number; other labels are empty |
| Slider.DisplayRAM | src/app/product-filtering/widget/slider.ts:119-128 | above 1024 the high label reads `>1024`; otherwise the label reads the number |
| Slider.DisplayCores | src/app/product-filtering/widget/slider.ts:138-147 | above 65 the high label reads `>64`; otherwise the label reads the number |
| Slider.CoreMarkerUnreachable | src/app/product-filtering/widget/slider.ts:143 | no step of the CPU scale is labelled `>64`: the top step 65 is not above the threshold |
| Slider.Translate | src/app/product-filtering/widget/slider.ts:35-46 | RAM and CPU sliders use their ceiling labels; any other slider shows the number |
| Slider.SliderComponent.PushStepArray | src/app/product-filtering/widget/slider.ts:168-177 | RAM and CPU sliders get the step scale of their ceiling; other sliders keep theirs |
| Slider.SliderComponent.NgOnInit | src/app/product-filtering/widget/slider.ts:78-87 | the step scale and the saved copy are set; sliders other than CPU and RAM get the facet's min and max as floor and ceiling |
| Slider.SliderComponent.ComputeSubmitValue | src/app/product-filtering/widget/slider.ts:97-109 | the event is updated in place to `SubmittedBounds`, and the returned `low-high` text reads back as those bounds |
| Slider.SliderComponent.OnRangeSelected | src/app/product-filtering/widget/slider.ts:64-73 | a SLIDER_CHANGE on the facet's type and path, whose value is named by the submitted range |
| Slider.UnboundedSubmitIsVerbatim | src/app/product-filtering/widget/slider.ts:97-109 | with no saved bounds, a slider other than CPU submits exactly the positions it was released at |
| Slider.CpuCeilingSubmits1024 | src/app/product-filtering/widget/slider.ts:106 | a CPU slider released at 64 submits 1024 as its high end |
| BucketOrder.NameLeTotal | src/app/product-filtering/widget/dropdown.ts:96 | any two names are comparable |
| BucketOrder.NameLeTransitive | src/app/product-filtering/widget/dropdown.ts:96 | the name order is transitive |
| BucketOrder.SortByName | src/app/product-filtering/widget/dropdown.ts:96 | the result is in name order and is a permutation of the buckets |
| DropDown.SelectedValuesOf | src/app/product-filtering/widget/dropdown.ts:84-93 | a name is selected exactly when some entry of the facet's type and path has that value; with no entry of the type, nothing is selected |
| DropDown.FilterMapIsSelectedValues | src/app/product-filtering/widget/dropdown.ts:85-87 | filtering by type, then by path, then taking names gives `SelectedValuesOf` |
| DropDown.DropDownComponent.constructor | src/app/product-filtering/widget/dropdown.ts:68-77 | the facet is given, nothing is selected, the list is expanded, and the selected names agree with the (empty) list seen so far |
| DropDown.DropDownComponent.NgOnInit | src/app/product-filtering/widget/dropdown.ts:95-97 | the facet's buckets become a name-ordered permutation of themselves |
| DropDown.DropDownComponent.SetSelectedFilters | src/app/product-filtering/widget/dropdown.ts:84-93 | the selected names become `SelectedValuesOf` the list, which becomes the list the dropdown has seen |
| DropDown.DropDownComponent.NewMessage | src/app/product-filtering/widget/dropdown.ts:105-126 | a bucket with no event or a checked one is an ADD; an unchecked event is a REMOVE; no bucket and no event is a CLEAR_ALL without a value |
| DropDown.DropDownComponent.OnClear | src/app/product-filtering/widget/dropdown.ts:131-139 | a CLEAR_ALL on the facet's type and path, without a value |
| DropDown.DropDownComponent.OnRemove | src/app/product-filtering/widget/dropdown.ts:145-154 | a REMOVE of the bucket on the facet's type and path |
| DropDown.DropDownComponent.IsItemSelected | src/app/product-filtering/widget/dropdown.ts:160-162 | true exactly when the selected-filters list last handed to the dropdown has an entry for the bucket's name on this facet's type and path |
| DropDown.DropDownComponent.OnViewMore | src/app/product-filtering/widget/dropdown.ts:167-169 | the expansion flag flips and nothing else changes |
| DropDown.SelectedAfterSetter | src/app/product-filtering/widget/dropdown.ts:84-93 | after the setter, a bucket shows as selected exactly when the list has an entry for it on this facet |
| DropDown.ViewMoreTwice | src/app/product-filtering/widget/dropdown.ts:167-169 | two clicks on "view more" restore the expansion flag |
| FilterWidget.Route | src/app/product-filtering/filter-widget.component.ts:65-84 | number facets always go to `addFilter`; for other facets ADD adds, REMOVE removes, CLEAR_ALL clears only that path, and anything else calls nothing |
| FilterWidget.DropDownClearRoutesToClearFilter | src/app/product-filtering/filter-widget.component.ts:74-75 | a dropdown's clear clears its own path, never every filter |
| FilterWidget.DropDownEventsRoute | src/app/product-filtering/filter-widget.component.ts:68-73 | a dropdown's check adds and its uncheck removes |
| FilterWidget.SliderRoutesToReplace | src/app/product-filtering/filter-widget.component.ts:81-83 | a slider change reaches `addFilter`, which leaves only the new value on its path and puts the selection last in the list |
| FilterWidget.FilterWidgetComponent.constructor | src/app/product-filtering/filter-widget.component.ts:52-56 | no facets yet; the selected list is the service's |
| FilterWidget.FilterWidgetComponent.SetFields | src/app/product-filtering/filter-widget.component.ts:39-41 | the facets become those of the response |
| FilterWidget.FilterWidgetComponent.OnSelectedFilters | src/app/product-filtering/filter-widget.component.ts:53-55 | the selected list becomes the published one |
| FilterWidget.FilterWidgetComponent.OnFilterSelection | src/app/product-filtering/filter-widget.component.ts:65-84 | the service's tree and list change exactly as the routed operation specifies, and not at all when nothing is routed |
| ProductCardList.SortOptionsFor | src/app/product-card-list.component.ts:233-245 | the two price options first; the two distance options, with their geo-then-price sort keys, follow exactly when a location is present |
| ProductCardList.KeptSort | src/app/product-card-list.component.ts:246-248 | a distance sort is deselected when the response has no location; any other selection is kept |
| ProductCardList.KeptSortIsOffered | src/app/product-card-list.component.ts:233-250 | a sort that stays selected is among the offered options |
| ProductCardList.TotalOf | src/app/product-card-list.component.ts:224 | the response's total, or 0 when it has none |
| ProductCardList.Accumulated | src/app/product-card-list.component.ts:225 | a page after the first is appended; any other response replaces the list |
| ProductCardList.LaterPagesAppend | src/app/product-card-list.component.ts:225 | a run of later pages appends their items in arrival order |
| ProductCardList.FirstPageThenScrolling | src/app/product-card-list.component.ts:225 | a first page followed by later pages shows exactly all their items, whatever was shown before |
| ProductCardList.ShownFilters | src/app/product-card-list.component.ts:205-210 | the published list without its first nested seller entry; unchanged when there is none |
| ProductCardList.SecondSellerEntryShown | src/app/product-card-list.component.ts:206-210 | only one seller entry is hidden: a second one stays shown |
| ProductCardList.ProductCardListComponent.constructor | src/app/product-card-list.component.ts:47-97 | not loading, no sort options, nothing selected, no products, total 0, empty selected list |
| ProductCardList.ProductCardListComponent.ReloadSortOptions | src/app/product-card-list.component.ts:233-250 | the options become `SortOptionsFor` the location and the selection becomes `KeptSort` |
| ProductCardList.ProductCardListComponent.OnSearchResponse | src/app/product-card-list.component.ts:222-229 | loading ends; the total becomes `TotalOf`, the products `Accumulated`, and the sort options follow the location |
| ProductCardList.ProductCardListComponent.OnSearchError | src/app/product-card-list.component.ts:230 | loading ends and nothing else changes |
| ProductCardList.ProductCardListComponent.OnScroll | src/app/product-card-list.component.ts:131-135 | the next page is requested exactly when the shown count differs from the total |
| ProductCardList.ProductCardListComponent.OnSelectedFilters | src/app/product-card-list.component.ts:201-212 | the shown list becomes `ShownFilters` of the published one |
| ProductCardList.ProductCardListComponent.OnCategorySelection | src/app/product-card-list.component.ts:172-175 | the category is added as the service's `addFilter` specifies, and the offered categories lose exactly the buckets with its name, the rest keeping their order |
| ProductCardList.ProductCardListComponent.OnFilterRemove | src/app/product-card-list.component.ts:157-166 | the filter is removed as a REMOVE; a removed Category found among all categories is offered again, with the offered list a name-ordered permutation of the old one plus that bucket |
| ProductCardList.ProductCardListComponent.OnSortClick | src/app/product-card-list.component.ts:181-184 | the option is selected and the service sorts by its keys from the first page |
| ProductCardList.ProductCardListComponent.OnSearchInput | src/app/product-card-list.component.ts:190-192 | the service's text becomes the input when it is non-empty and is removed otherwise; a SEARCH is dispatched |
| ProductCardList.ProductCardListComponent.OnClickClearFilters | src/app/product-card-list.component.ts:147-150 | the service has no filters, no selected entries, no location and no text; a CLEAR_ALL is dispatched |

## Left out

- HTTP transport: the rest service's `search` call is not part of this model. Its answers are parameters of `QueryDispatch.Search`.
- Reactive plumbing: the subjects and subscriptions, `combineLatest`, `skipWhile`, the 500 ms debounce of the text input and unsubscription are not modelled. A publication is a function result, and a subscription callback is a method called with the published value. The latest-answer-wins race between concurrent requests is not modelled. Neither is the stamping of the location: `search` reads `geo` from the live request when the answer arrives (`product-filter.service.ts:201`, `:210`). `QueryDispatch.Stamped` instead uses the geo of the request that was dispatched. After a location change between dispatch and answer, the source labels the older answer with the newer location.
- Browser and framework effects: `window.scroll`, the focus of the search box, templates, the router (the partner id read from the route is never used by the core), the sidebar toggle `toggleFilterSidebar` and the `console` output.
- `product-filtering.component.ts` and `product-card.component.ts` are context and are not part of this model.
- Deep copies by JSON round trip: the model works on values, so a copy is the value itself. Aliasing between the service's list and the components' copies is not modelled.
- Real numbers: slider positions and bounds are integers. JavaScript's non-integral numbers and their text form are left out. `Math.log2` in `generateSteps` is expressed as `2^i < n`, which is the same test for positive integer ceilings.
- `localeCompare` is replaced by code-point lexicographic order. Locale collation is not modelled.
- The response fields the core does not read, such as sort, location and additional data, are not carried.
- QueryDispatch.Search: takes every response to carry `filters`, though `search-filters-requests.ts:37` declares the field optional. Without it, `search` throws at `product-filter.service.ts:203` or `:212` and nothing is published; that path is not modelled.
- ProductCardList.Accumulated: takes every response to carry `items`, though `search-filters-requests.ts:28` declares the field optional. Without it, `product-card-list.component.ts:225` sets the products to `undefined` on a first page, or appends one `undefined` element on a later page; neither is modelled.
- ProductCardList.ProductCardListComponent.OnSearchError: models the error callback attached to the search results at `product-card-list.component.ts:230`. The service only ever calls `next` on that subject (`product-filter.service.ts:206`, `:213`, `:316`), and HTTP failures end in the service's inner subscriptions, which have no error handler. So the callback is never reached as the source stands. The model keeps it as written.
- `ProductCardList.ProductCardListComponent.constructor` takes the shown and all category lists as inputs, because the source reads them but never assigns them within the modelled files.
- `Slider.SliderComponent.NgOnInit` takes the `value` and `highValue` of the copied facet as parameters, because a response of the declared shape does not carry them.
- The widget internals of the slider library (step snapping, label layout) are not modelled. `Translate` only models what the label callback returns.
- FilterService.ProductFilterService.AddFilter: requires the selection to carry a value. The source reads `value.name` unconditionally at `product-filter.service.ts:94` and throws on a selection without one.
- FilterService.ProductFilterService.RemoveFilter: requires the selection to carry a value. The source reads the selection's `value.name` in only two places. One is the `findIndex` callback of `reloadFilters`, and only for a listed entry of the same facet type (`product-filter.service.ts:365-369`). The other is the tree's `.filter` callback, and only when `hasFilter` holds (`:130-133`). So a REMOVE without a value runs without error when no listed entry has its facet type and its path is not in the tree. List and tree then stay unchanged, pagination resets and a REMOVE search is dispatched. That no-op case is not modelled.
- FilterService.ProductFilterService.ReloadFilters: requires the selection to carry a value and every listed entry to carry one. The source reads an entry's `value.name` only in the REMOVE callback, and only for entries of the selection's facet type (`product-filter.service.ts:366-368`). Lists with other entries lacking a value are not modelled. Every list the service publishes carries values.
- FilterWidget.FilterWidgetComponent.OnFilterSelection: requires a value on selections routed to add or remove. A routed add throws without one, as `AddFilter` says. A routed remove without a value throws only in the cases `RemoveFilter` names, and its no-op case is not modelled.
- DropDown.DropDownComponent.SetSelectedFilters: requires every entry to carry a value. The source maps `value.name` only over the entries of its own facet type and path (`dropdown.ts:85-87`), so it does not throw on entries of other facets that lack a value. Such lists are not modelled. Every list the service publishes carries values.
- DropDown.SelectedValuesOf: requires every entry to carry a value, for the same reason and with the same unmodelled case.
- ProductCardList.ProductCardListComponent.OnCategorySelection: requires the selection to carry a value, because the source first calls `addFilter` (`product-card-list.component.ts:173`), which reads `value.name` unconditionally, and then reads it again in its own `.filter` (`:174`).
- ProductCardList.ProductCardListComponent.OnFilterRemove: requires the selection to carry a value. The source reads the selection's `value.name` there only for a Category selection, and only inside the `find` callback over a non-empty `allCategories.buckets` (`product-card-list.component.ts:159-160`). Otherwise it reaches `removeFilter`, which throws only in the cases `RemoveFilter` names. The no-op case without a value is not modelled.
- ProductCardList.ProductCardListComponent.OnSearchInput: states the stored text and the action, not the whole request. The full request is given by `SearchByText`, which it calls.
- ProductCardList.ProductCardListComponent.OnClickClearFilters: states the cleared fields and the action. The full request is given by `ClearAllFilters`, which it calls. Clearing the input box's own text is a DOM effect and is left out.
- FilterTrees.RemoveFromTree: its own contract covers only the absent-path case. Which values remain is stated by `RemoveFromTreeValues` and the invariant by `RemoveKeepsWellFormed`.
- SelectedFilters.AddKeepsSync: states agreement only for ADD on string and nested facets and for values not yet selected. A duplicate ADD makes list and tree drift apart, as `DuplicateAddThenRemoveDesyncs` shows.
