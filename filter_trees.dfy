/**
 * The filter tree of the search state, as values: the presence tests
 * `hasFilters`/`hasFacet`/`hasFilter` and what `addFilter`, `removeFilter`
 * and `clearFilter` do to the tree, with the invariants the service keeps
 * (no empty facet, no empty path, one value per number path).
 */
module FilterTrees {
  import opened Collections
  import opened SearchRequests

  /** One selected value, addressed the way the tree addresses it. */
  datatype FilterValue = FilterValue(facet: FacetType, path: string, name: string)

  /** `x` is one of the values stored in the tree. */
  predicate InTree(t: FilterTree, x: FilterValue) {
    x.facet in t && x.path in t[x.facet] && x.name in t[x.facet][x.path]
  }

  /** `hasFilters`: the filter object has at least one facet key. */
  predicate HasFilters(t: FilterTree) {
    |t| > 0
  }

  /** `hasFacet`: filters are present and the facet is one of them. */
  predicate HasFacet(t: FilterTree, f: FacetType)
    ensures HasFacet(t, f) <==> f in t
  {
    HasFilters(t) && f in t
  }

  /** `hasFilter`: the facet is present and has the path. */
  predicate HasFilter(t: FilterTree, f: FacetType, p: string)
    ensures HasFilter(t, f, p) <==> f in t && p in t[f]
  {
    HasFacet(t, f) && p in t[f]
  }

  /** The paths of one facet, empty when the facet is absent (the `...filters[facetType]` spread). */
  function PathsOf(t: FilterTree, f: FacetType): map<string, seq<string>> {
    if f in t then t[f] else map[]
  }

  /** No facet without paths and no path without values. */
  ghost predicate Pruned(t: FilterTree) {
    && (forall f :: f in t ==> |t[f]| > 0)
    && (forall f, p :: f in t && p in t[f] ==> |t[f][p]| > 0)
  }

  /** Every number path holds exactly one value (the `[string]` tuple of the request type). */
  ghost predicate NumberSingletons(t: FilterTree) {
    NumberFacet in t ==> forall p :: p in t[NumberFacet] ==> |t[NumberFacet][p]| == 1
  }

  /** The invariant of the service's tree. */
  ghost predicate WellFormed(t: FilterTree) {
    Pruned(t) && NumberSingletons(t)
  }

  /**
   * The tree after `addFilter`: a number path is replaced by the new value,
   * a path of another facet gets the value appended, a missing path is
   * created with the value alone. No other facet or path changes.
   */
  function AddToTree(t: FilterTree, f: FacetType, p: string, name: string): (r: FilterTree)
    ensures r.Keys == t.Keys + {f}
    ensures r[f].Keys == PathsOf(t, f).Keys + {p}
    ensures HasFilter(t, f, p) && f != NumberFacet ==> r[f][p] == t[f][p] + [name]
    ensures !HasFilter(t, f, p) || f == NumberFacet ==> r[f][p] == [name]
    ensures forall g, q :: g in t && q in t[g] && (g != f || q != p) ==> g in r && q in r[g] && r[g][q] == t[g][q]
    ensures forall g :: g in t && g != f ==> r[g] == t[g]
  {
    var values := if f != NumberFacet && HasFilter(t, f, p) then t[f][p] + [name] else [name];
    t[f := PathsOf(t, f)[p := values]]
  }

  /** `delete filters[f][p]`, then `delete filters[f]` when that left the facet without paths. */
  function DeletePath(t: FilterTree, f: FacetType, p: string): (r: FilterTree)
    requires f in t
    ensures forall g, q :: g in r && q in r[g] <==> g in t && q in t[g] && (g != f || q != p)
    ensures forall g, q :: g in r && q in r[g] ==> r[g][q] == t[g][q]
    ensures forall g :: g != f ==> (g in r <==> g in t)
  {
    var paths := t[f] - {p};
    if |paths| == 0 then t - {f} else t[f := paths]
  }

  /** The `value !== name` test of `removeFilter`. */
  function Differs(name: string): string -> bool {
    (v: string) => v != name
  }

  /**
   * The tree after `removeFilter`: every occurrence of `name` is dropped
   * from the path's values, and an emptied path (then an emptied facet) is
   * deleted. An absent facet or path leaves the tree as it was.
   */
  function RemoveFromTree(t: FilterTree, f: FacetType, p: string, name: string): (r: FilterTree)
    ensures !HasFilter(t, f, p) ==> r == t
  {
    if HasFilter(t, f, p) then
      var kept := Filter(t[f][p], Differs(name));
      if |kept| == 0 then DeletePath(t, f, p) else t[f := t[f][p := kept]]
    else t
  }

  /** The tree after `clearFilter(f, p)`: that path is deleted, and its facet when emptied. */
  function ClearFromTree(t: FilterTree, f: FacetType, p: string): (r: FilterTree)
    ensures !HasFilter(t, f, p) ==> r == t
    ensures forall x :: InTree(r, x) <==> InTree(t, x) && (x.facet != f || x.path != p)
  {
    if HasFilter(t, f, p) then DeletePath(t, f, p) else t
  }

  /** Adding to a number path leaves exactly one value there, whatever was there before. */
  lemma AddNumberReplaces(t: FilterTree, p: string, name: string)
    ensures AddToTree(t, NumberFacet, p, name)[NumberFacet][p] == [name]
  {
  }

  /** Which values are in the tree after an add. */
  lemma AddToTreeValues(t: FilterTree, f: FacetType, p: string, name: string, x: FilterValue)
    ensures f != NumberFacet ==>
      (InTree(AddToTree(t, f, p, name), x) <==> InTree(t, x) || x == FilterValue(f, p, name))
    ensures f == NumberFacet ==>
      (InTree(AddToTree(t, f, p, name), x) <==>
        (InTree(t, x) && (x.facet != f || x.path != p)) || x == FilterValue(f, p, name))
  {
    var r := AddToTree(t, f, p, name);
    if x.facet == f && x.path == p {
      if f != NumberFacet && HasFilter(t, f, p) {
        assert x.name in r[f][p] <==> x.name in t[f][p] || x.name == name;
      }
    }
  }

  /** Which values are in the tree after a removal: exactly the old ones except `name` at that path. */
  lemma RemoveFromTreeValues(t: FilterTree, f: FacetType, p: string, name: string, x: FilterValue)
    ensures InTree(RemoveFromTree(t, f, p, name), x) <==> InTree(t, x) && x != FilterValue(f, p, name)
  {
    if HasFilter(t, f, p) {
      var kept := Filter(t[f][p], Differs(name));
      if x.facet == f && x.path == p {
        assert x.name in kept <==> x.name in t[f][p] && x.name != name;
      }
    }
  }

  /** Setting one path to a non-empty value list (a single value on a number path) keeps the tree well formed. */
  lemma SetPathKeepsWellFormed(t: FilterTree, f: FacetType, p: string, v: seq<string>)
    requires WellFormed(t) && |v| > 0 && (f == NumberFacet ==> |v| == 1)
    ensures WellFormed(t[f := PathsOf(t, f)[p := v]])
  {
    var r := t[f := PathsOf(t, f)[p := v]];
    forall g, q | g in r && q in r[g]
      ensures |r[g][q]| > 0
      ensures g == NumberFacet ==> |r[g][q]| == 1
    {
      if g != f || q != p {
        assert r[g][q] == t[g][q];
      }
    }
  }

  /** An add keeps the tree well formed. */
  lemma AddKeepsWellFormed(t: FilterTree, f: FacetType, p: string, name: string)
    requires WellFormed(t)
    ensures WellFormed(AddToTree(t, f, p, name))
  {
    var values := if f != NumberFacet && HasFilter(t, f, p) then t[f][p] + [name] else [name];
    SetPathKeepsWellFormed(t, f, p, values);
  }

  /** A removal keeps the tree well formed: it never leaves an empty path or facet behind. */
  lemma RemoveKeepsWellFormed(t: FilterTree, f: FacetType, p: string, name: string)
    requires WellFormed(t)
    ensures WellFormed(RemoveFromTree(t, f, p, name))
  {
    if HasFilter(t, f, p) {
      var kept := Filter(t[f][p], Differs(name));
      if |kept| > 0 {
        assert PathsOf(t, f) == t[f];
        SetPathKeepsWellFormed(t, f, p, kept);
      } else {
        ClearKeepsWellFormed(t, f, p);
      }
    }
  }

  /** Clearing a path keeps the tree well formed. */
  lemma ClearKeepsWellFormed(t: FilterTree, f: FacetType, p: string)
    requires WellFormed(t)
    ensures WellFormed(ClearFromTree(t, f, p))
  {
    if HasFilter(t, f, p) {
      var paths := t[f] - {p};
      if |paths| > 0 {
        DeleteKeepsWellFormed(t, f, paths);
      }
    }
  }

  /** Replacing a facet's paths by a non-empty subset of them keeps the tree well formed. */
  lemma DeleteKeepsWellFormed(t: FilterTree, f: FacetType, paths: map<string, seq<string>>)
    requires WellFormed(t) && f in t
    requires |paths| > 0 && forall q :: q in paths ==> q in t[f] && paths[q] == t[f][q]
    ensures WellFormed(t[f := paths])
  {
    var r := t[f := paths];
    forall g, q | g in r && q in r[g]
      ensures |r[g][q]| > 0
      ensures g == NumberFacet ==> |r[g][q]| == 1
    {
      assert r[g][q] == t[g][q];
    }
  }

  /** Removing a value appended to values that do not hold it leaves those values. */
  lemma RemoveAppended(a: FilterTree, f: FacetType, p: string, values: seq<string>, name: string)
    requires f in a && p in a[f] && a[f][p] == values + [name]
    requires |values| > 0 && name !in values
    ensures RemoveFromTree(a, f, p, name) == a[f := a[f][p := values]]
  {
    FilterAppend(values, [name], Differs(name));
    FilterAll(values, Differs(name));
    assert Filter([name], Differs(name)) == [];
    assert Filter(a[f][p], Differs(name)) == values;
  }

  /** Writing a path's old values back over a new one gives the tree back. */
  lemma RestorePath(t: FilterTree, f: FacetType, p: string, v: seq<string>)
    requires f in t && p in t[f]
    ensures var a := t[f := t[f][p := v]]; a[f := a[f][p := t[f][p]]] == t
  {
    MapUpdateOverwrite(t[f], p, v, t[f][p]);
    MapUpdateSame(t[f], p);
    MapUpdateOverwrite(t, f, t[f][p := v], t[f]);
    MapUpdateSame(t, f);
  }

  /** Adding a value to a path that already exists and then removing it restores the path's values. */
  lemma AddThenRemoveExistingPath(t: FilterTree, f: FacetType, p: string, name: string)
    requires WellFormed(t) && f != NumberFacet && HasFilter(t, f, p) && name !in t[f][p]
    ensures RemoveFromTree(AddToTree(t, f, p, name), f, p, name) == t
  {
    var values := t[f][p];
    assert |values| > 0;
    var a := t[f := t[f][p := values + [name]]];
    assert PathsOf(t, f) == t[f];
    assert AddToTree(t, f, p, name) == a;
    RemoveAppended(a, f, p, values, name);
    RestorePath(t, f, p, values + [name]);
  }

  /** Removing the only value of a path deletes the path. */
  lemma RemoveSoleValue(a: FilterTree, f: FacetType, p: string, name: string)
    requires f in a && p in a[f] && a[f][p] == [name]
    ensures RemoveFromTree(a, f, p, name) == DeletePath(a, f, p)
  {
    assert Filter([name], Differs(name)) == [];
  }

  /** Deleting a path that was just created under `f` gives the tree back. */
  lemma DeleteNewPath(t: FilterTree, f: FacetType, p: string, v: seq<string>)
    requires f in t ==> |t[f]| > 0 && p !in t[f]
    ensures DeletePath(t[f := PathsOf(t, f)[p := v]], f, p) == t
  {
    var paths := PathsOf(t, f);
    MapUpdateThenRemove(paths, p, v);
    if f in t {
      MapUpdateOverwrite(t, f, paths[p := v], t[f]);
      MapUpdateSame(t, f);
    } else {
      MapUpdateThenRemove(t, f, paths[p := v]);
    }
  }

  /** Adding a value under a new path and then removing it deletes the path (and a new facet) again. */
  lemma AddThenRemoveNewPath(t: FilterTree, f: FacetType, p: string, name: string)
    requires WellFormed(t) && !HasFilter(t, f, p)
    ensures RemoveFromTree(AddToTree(t, f, p, name), f, p, name) == t
  {
    var a := t[f := PathsOf(t, f)[p := [name]]];
    assert AddToTree(t, f, p, name) == a;
    RemoveSoleValue(a, f, p, name);
    DeleteNewPath(t, f, p, [name]);
  }

  /**
   * Checking a string or nested value that is not in the tree and then
   * unchecking it gives the tree back as it was.
   */
  lemma AddThenRemoveRestores(t: FilterTree, f: FacetType, p: string, name: string)
    requires WellFormed(t) && f != NumberFacet && !InTree(t, FilterValue(f, p, name))
    ensures RemoveFromTree(AddToTree(t, f, p, name), f, p, name) == t
  {
    if HasFilter(t, f, p) {
      AddThenRemoveExistingPath(t, f, p, name);
    } else {
      AddThenRemoveNewPath(t, f, p, name);
    }
  }
}
