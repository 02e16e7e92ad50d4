/**
 * The "selected filters" list the service publishes beside its filter tree:
 * how `reloadFilters` and `clearFilter` update it, and under which
 * conditions it stays in step with the tree. The two are kept in step by
 * hand, not recomputed, and `removeFilter` treats them differently (the
 * tree loses every equal value, the list only its first match), so the
 * agreement holds only for lists without duplicates and for gestures whose
 * action fits their facet.
 */
module SelectedFilters {
  import opened Collections
  import opened SearchRequests
  import opened FilterTrees

  /** Every entry carries a value (entries come from ADD and SLIDER_CHANGE gestures). */
  ghost predicate HasValues(l: seq<FilterSelection>) {
    forall i :: 0 <= i < |l| ==> l[i].value.Some?
  }

  /** The `findIndex` test of a REMOVE: same facet type, same value name, same path. */
  predicate RemoveMatches(e: FilterSelection, sel: FilterSelection) {
    && e.filterType == sel.filterType
    && e.value.Some? && sel.value.Some? && e.value.value.name == sel.value.value.name
    && e.path == sel.path
  }

  /** `findIndex` followed by `splice(index, 1)` when found: the first entry satisfying `p` is dropped. */
  function RemoveFirst(l: seq<FilterSelection>, p: FilterSelection -> bool): (r: seq<FilterSelection>)
    ensures (forall i :: 0 <= i < |l| ==> !p(l[i])) ==> r == l
    ensures forall k :: 0 <= k < |l| && p(l[k]) && (forall j :: 0 <= j < k ==> !p(l[j])) ==>
      r == l[..k] + l[k + 1..]
  {
    var k := FindIndex(l, p);
    if k >= 0 then RemoveAt(l, k) else l
  }

  /**
   * The list after `reloadFilters`: ADD appends the selection; REMOVE drops the first entry
   * with the same type, value name and path; SLIDER_CHANGE drops the first
   * entry with the same path (of any type) and appends; CLEAR_ALL empties the
   * list; any other action leaves it as it was.
   */
  function ReloadedFilters(l: seq<FilterSelection>, sel: FilterSelection): (r: seq<FilterSelection>)
    ensures sel.actionType == Some(ADD) ==> r == l + [sel]
    ensures sel.actionType == Some(REMOVE) ==> r == RemoveFirst(l, (e: FilterSelection) => RemoveMatches(e, sel))
    ensures sel.actionType == Some(SLIDER_CHANGE) ==> r == RemoveFirst(l, (e: FilterSelection) => e.path == sel.path) + [sel]
    ensures sel.actionType == Some(CLEAR_ALL) ==> r == []
    ensures sel.actionType.None? || sel.actionType.value !in {ADD, REMOVE, SLIDER_CHANGE, CLEAR_ALL} ==> r == l
    ensures HasValues(l) && sel.value.Some? ==> HasValues(r)
  {
    match sel.actionType
    case Some(ADD) => l + [sel]
    case Some(REMOVE) => RemoveFirst(l, (e: FilterSelection) => RemoveMatches(e, sel))
    case Some(SLIDER_CHANGE) => RemoveFirst(l, (e: FilterSelection) => e.path == sel.path) + [sel]
    case Some(CLEAR_ALL) => []
    case _ => l
  }

  /** The `clearFilter` filter: keep the entries whose type differs, or whose type matches but whose path differs. */
  function ClearSelected(l: seq<FilterSelection>, f: FacetType, p: string): (r: seq<FilterSelection>)
    ensures forall i :: 0 <= i < |r| ==> r[i] in l && !(r[i].filterType == f && r[i].path == p)
    ensures forall i :: 0 <= i < |l| && !(l[i].filterType == f && l[i].path == p) ==> l[i] in r
    ensures HasValues(l) ==> HasValues(r)
  {
    Filter(l, ClearKeeps(f, p))
  }

  /** The test of the `clearFilter` filter. */
  function ClearKeeps(f: FacetType, p: string): FilterSelection -> bool {
    (e: FilterSelection) => e.filterType != f || (e.filterType == f && e.path != p)
  }

  /**
   * `clearFilter` works entry by entry: a single entry is dropped exactly when
   * it has the cleared type and path, and clearing a concatenation clears each
   * part, so the kept entries keep their order and their number of occurrences.
   */
  lemma ClearSelectedInOrder(a: seq<FilterSelection>, b: seq<FilterSelection>, e: FilterSelection, f: FacetType, p: string)
    ensures ClearSelected([e], f, p) == if e.filterType == f && e.path == p then [] else [e]
    ensures ClearSelected(a + b, f, p) == ClearSelected(a, f, p) + ClearSelected(b, f, p)
  {
    FilterAppend(a, b, ClearKeeps(f, p));
  }

  /** The tree address of a selection. */
  function ValueOf(e: FilterSelection): FilterValue
    requires e.value.Some?
  {
    FilterValue(e.filterType, e.path, e.value.value.name)
  }

  /** The tree addresses of a list, entry by entry. */
  function ValuesOf(l: seq<FilterSelection>): (r: seq<FilterValue>)
    requires HasValues(l)
    ensures |r| == |l|
    ensures forall i :: 0 <= i < |l| ==> r[i] == ValueOf(l[i])
  {
    if |l| == 0 then [] else [ValueOf(l[0])] + ValuesOf(l[1..])
  }

  /** The list holds each tree value exactly once and nothing else. */
  ghost predicate Synced(t: FilterTree, l: seq<FilterSelection>) {
    && HasValues(l)
    && NoDup(ValuesOf(l))
    && forall x :: InTree(t, x) <==> x in ValuesOf(l)
  }

  /** The REMOVE test is equality of tree addresses. */
  lemma RemoveMatchesIsSameValue(e: FilterSelection, sel: FilterSelection)
    requires e.value.Some? && sel.value.Some?
    ensures RemoveMatches(e, sel) <==> ValueOf(e) == ValueOf(sel)
  {
  }

  /** Removing entry `k` removes value `k`. */
  lemma ValuesOfRemoveAt(l: seq<FilterSelection>, k: nat)
    requires HasValues(l) && k < |l|
    ensures HasValues(RemoveAt(l, k))
    ensures ValuesOf(RemoveAt(l, k)) == RemoveAt(ValuesOf(l), k)
  {
    var r := RemoveAt(l, k);
    assert HasValues(r) by {
      forall i | 0 <= i < |r| ensures r[i].value.Some? {
        if i < k { assert r[i] == l[i]; } else { assert r[i] == l[i + 1]; }
      }
    }
    var vr, vl := ValuesOf(r), RemoveAt(ValuesOf(l), k);
    assert |vr| == |vl|;
    forall i | 0 <= i < |vr| ensures vr[i] == vl[i] {
      if i < k { assert r[i] == l[i]; } else { assert r[i] == l[i + 1]; }
    }
  }

  /** Appending an entry appends its value. */
  lemma ValuesOfAppend(l: seq<FilterSelection>, e: FilterSelection)
    requires HasValues(l) && e.value.Some?
    ensures HasValues(l + [e]) && ValuesOf(l + [e]) == ValuesOf(l) + [ValueOf(e)]
  {
    var r := l + [e];
    assert HasValues(r) by {
      forall i | 0 <= i < |r| ensures r[i].value.Some? {
        if i < |l| { assert r[i] == l[i]; }
      }
    }
    forall i | 0 <= i < |l| ensures ValuesOf(r)[i] == ValuesOf(l)[i] {
      assert r[i] == l[i];
    }
  }

  /** Clearing entries clears their values. */
  lemma {:induction false} ValuesOfClearSelected(l: seq<FilterSelection>, f: FacetType, p: string)
    requires HasValues(l)
    ensures ValuesOf(ClearSelected(l, f, p)) == Filter(ValuesOf(l), (x: FilterValue) => x.facet != f || x.path != p)
  {
    if |l| > 0 {
      assert HasValues(l[1..]);
      ValuesOfClearSelected(l[1..], f, p);
      assert ValuesOf(l)[1..] == ValuesOf(l[1..]);
    }
  }

  /** An ADD of a value not yet selected, on a string or nested facet, keeps list and tree in step. */
  lemma AddKeepsSync(t: FilterTree, l: seq<FilterSelection>, sel: FilterSelection)
    requires Synced(t, l)
    requires sel.value.Some? && sel.actionType == Some(ADD) && sel.filterType != NumberFacet
    requires !InTree(t, ValueOf(sel))
    ensures Synced(AddToTree(t, sel.filterType, sel.path, sel.value.value.name), ReloadedFilters(l, sel))
  {
    var t' := AddToTree(t, sel.filterType, sel.path, sel.value.value.name);
    var l' := ReloadedFilters(l, sel);
    assert ValuesOf(l') == ValuesOf(l) + [ValueOf(sel)];
    forall x ensures InTree(t', x) <==> x in ValuesOf(l') {
      AddToTreeValues(t, sel.filterType, sel.path, sel.value.value.name, x);
    }
  }

  /** A REMOVE keeps list and tree in step, provided they were in step (in particular, without duplicates). */
  lemma RemoveKeepsSync(t: FilterTree, l: seq<FilterSelection>, sel: FilterSelection)
    requires Synced(t, l)
    requires sel.value.Some? && sel.actionType == Some(REMOVE)
    ensures Synced(RemoveFromTree(t, sel.filterType, sel.path, sel.value.value.name), ReloadedFilters(l, sel))
  {
    var v := ValueOf(sel);
    var t' := RemoveFromTree(t, sel.filterType, sel.path, sel.value.value.name);
    var l' := ReloadedFilters(l, sel);
    var s := ValuesOf(l);
    var k := FindIndex(l, (e: FilterSelection) => RemoveMatches(e, sel));
    if k < 0 {
      forall i | 0 <= i < |l| ensures s[i] != v {
        RemoveMatchesIsSameValue(l[i], sel);
      }
      assert l' == l;
      forall x ensures InTree(t', x) <==> x in ValuesOf(l') {
        RemoveFromTreeValues(t, sel.filterType, sel.path, sel.value.value.name, x);
      }
    } else {
      RemoveMatchesIsSameValue(l[k], sel);
      assert l' == RemoveAt(l, k);
      ValuesOfRemoveAt(l, k);
      forall x ensures InTree(t', x) <==> x in ValuesOf(l') {
        RemoveFromTreeValues(t, sel.filterType, sel.path, sel.value.value.name, x);
        RemoveAtNoDup(s, k, x);
      }
      RemoveAtNoDup(s, k, v);
    }
  }

  /** `clearFilter` keeps list and tree in step. */
  lemma ClearKeepsSync(t: FilterTree, l: seq<FilterSelection>, f: FacetType, p: string)
    requires Synced(t, l)
    ensures Synced(ClearFromTree(t, f, p), ClearSelected(l, f, p))
  {
    ValuesOfClearSelected(l, f, p);
    FilterNoDup(ValuesOf(l), (x: FilterValue) => x.facet != f || x.path != p);
  }

  /** In a synced list, at most one entry uses a number path when only number entries use it. */
  lemma NumberPathUnique(t: FilterTree, l: seq<FilterSelection>, p: string, i: nat, k: nat)
    requires Synced(t, l) && NumberSingletons(t)
    requires forall j :: 0 <= j < |l| && l[j].path == p ==> l[j].filterType == NumberFacet
    requires i < |l| && k < |l| && l[i].path == p && l[k].path == p
    ensures i == k
  {
    var s := ValuesOf(l);
    assert InTree(t, s[i]) && InTree(t, s[k]);
    assert |t[NumberFacet][p]| == 1;
    assert s[i].name == t[NumberFacet][p][0] == s[k].name;
    assert s[i] == s[k];
  }

  /** One value at a time: after dropping entry `k`, the only entry with path `p`, a value remains exactly when its path differs. */
  lemma DropNumberPathValue(t: FilterTree, l: seq<FilterSelection>, p: string, k: nat, x: FilterValue)
    requires Synced(t, l) && NumberSingletons(t)
    requires forall j :: 0 <= j < |l| && l[j].path == p ==> l[j].filterType == NumberFacet
    requires k < |l| && l[k].path == p
    ensures x in RemoveAt(ValuesOf(l), k) <==> x in ValuesOf(l) && x.path != p
  {
    var s := ValuesOf(l);
    RemoveAtNoDup(s, k, x);
    forall i | 0 <= i < |s| && s[i].path == p ensures i == k {
      NumberPathUnique(t, l, p, i, k);
    }
  }

  /** Dropping the first entry with a number path drops every value with that path. */
  lemma DropNumberPath(t: FilterTree, l: seq<FilterSelection>, p: string)
    requires Synced(t, l) && NumberSingletons(t)
    requires forall j :: 0 <= j < |l| && l[j].path == p ==> l[j].filterType == NumberFacet
    ensures HasValues(RemoveFirst(l, (e: FilterSelection) => e.path == p))
    ensures NoDup(ValuesOf(RemoveFirst(l, (e: FilterSelection) => e.path == p)))
    ensures forall x :: x in ValuesOf(RemoveFirst(l, (e: FilterSelection) => e.path == p)) <==>
      x in ValuesOf(l) && x.path != p
  {
    var s := ValuesOf(l);
    var k := FindIndex(l, (e: FilterSelection) => e.path == p);
    var m := RemoveFirst(l, (e: FilterSelection) => e.path == p);
    if k >= 0 {
      assert m == RemoveAt(l, k);
      ValuesOfRemoveAt(l, k);
      RemoveAtNoDup(s, k, s[k]);
      forall x ensures x in ValuesOf(m) <==> x in s && x.path != p {
        DropNumberPathValue(t, l, p, k, x);
      }
    }
  }

  /**
   * A SLIDER_CHANGE on a number path keeps list and tree in step, provided
   * no entry of another facet type uses that path (the list update removes
   * the first entry with the path whatever its type).
   */
  lemma SliderKeepsSync(t: FilterTree, l: seq<FilterSelection>, sel: FilterSelection)
    requires Synced(t, l) && NumberSingletons(t)
    requires sel.value.Some? && sel.actionType == Some(SLIDER_CHANGE) && sel.filterType == NumberFacet
    requires forall i :: 0 <= i < |l| && l[i].path == sel.path ==> l[i].filterType == NumberFacet
    ensures Synced(AddToTree(t, NumberFacet, sel.path, sel.value.value.name), ReloadedFilters(l, sel))
  {
    var p := sel.path;
    var w := ValueOf(sel);
    var t' := AddToTree(t, NumberFacet, p, sel.value.value.name);
    var m := RemoveFirst(l, (e: FilterSelection) => e.path == p);
    DropNumberPath(t, l, p);
    var s, sm := ValuesOf(l), ValuesOf(m);
    assert ReloadedFilters(l, sel) == m + [sel];
    ValuesOfAppend(m, sel);
    NoDupAppend(sm, w);
    forall x | x in s && x.path == p ensures x.facet == NumberFacet {
      var i :| 0 <= i < |s| && s[i] == x;
      assert l[i].path == p;
    }
    forall x ensures InTree(t', x) <==> x in sm + [w] {
      AddToTreeValues(t, NumberFacet, p, sel.value.value.name, x);
    }
  }

  /**
   * Without the no-duplicate condition the two drift apart: adding the same
   * brand twice and removing it once empties the tree but leaves one entry.
   */
  lemma DuplicateAddThenRemoveDesyncs(brand: string)
    ensures var sel := FilterSelection(StringFacet, BRAND, Some(Bucket(brand, None)), Some(ADD));
      var rem := sel.(actionType := Some(REMOVE));
      var t := AddToTree(AddToTree(map[], StringFacet, BRAND, brand), StringFacet, BRAND, brand);
      var l := ReloadedFilters(ReloadedFilters([], sel), sel);
      && ValuesOf(ReloadedFilters(l, rem)) == [ValueOf(sel)]
      && RemoveFromTree(t, StringFacet, BRAND, brand) == map[]
  {
    var sel := FilterSelection(StringFacet, BRAND, Some(Bucket(brand, None)), Some(ADD));
    var rem := sel.(actionType := Some(REMOVE));
    var t1 := AddToTree(map[], StringFacet, BRAND, brand);
    assert t1[StringFacet][BRAND] == [brand];
    var t := AddToTree(t1, StringFacet, BRAND, brand);
    assert t[StringFacet][BRAND] == [brand, brand];
    assert Filter([brand, brand], (v: string) => v != brand) == [];
    assert t.Keys == {StringFacet} && t[StringFacet].Keys == {BRAND};
    var l := ReloadedFilters(ReloadedFilters([], sel), sel);
    assert l == [sel, sel];
    assert RemoveMatches(sel, rem);
    assert ReloadedFilters(l, rem) == [sel];
  }
}
