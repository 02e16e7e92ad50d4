/**
 * Generic list helpers that the TypeScript code gets from `Array.prototype`:
 * `findIndex`, `filter`, `splice(i, 1)` and `map`, plus an Option type for
 * the optional (`?`) fields of the request and response records.
 */
module Collections {

  datatype Option<+T> = None | Some(value: T)

  /** `s.findIndex(p)`: the index of the first element satisfying `p`, or -1. */
  function FindIndex<T>(s: seq<T>, p: T -> bool): (r: int)
    ensures -1 <= r < |s|
    ensures r >= 0 ==> p(s[r])
    ensures forall j :: 0 <= j < |s| && (r < 0 || j < r) ==> !p(s[j])
  {
    if |s| == 0 then -1
    else if p(s[0]) then 0
    else
      var k := FindIndex(s[1..], p);
      if k < 0 then -1 else k + 1
  }

  /** `s.filter(p)`: the elements satisfying `p`, in their original order. */
  function Filter<T>(s: seq<T>, p: T -> bool): (r: seq<T>)
    ensures |r| <= |s|
    ensures forall i :: 0 <= i < |r| ==> r[i] in s && p(r[i])
    ensures forall i :: 0 <= i < |s| && p(s[i]) ==> s[i] in r
    ensures |s| == 1 ==> r == (if p(s[0]) then s else [])
  {
    if |s| == 0 then []
    else if p(s[0]) then [s[0]] + Filter(s[1..], p)
    else Filter(s[1..], p)
  }

  /** Filtering distributes over concatenation, so the kept elements keep their relative order. */
  lemma {:induction false} FilterAppend<T>(a: seq<T>, b: seq<T>, p: T -> bool)
    ensures Filter(a + b, p) == Filter(a, p) + Filter(b, p)
  {
    if |a| == 0 {
      assert a + b == b;
    } else {
      assert (a + b)[1..] == a[1..] + b;
      FilterAppend(a[1..], b, p);
    }
  }

  /** A filter whose predicate holds of every element keeps the whole sequence. */
  lemma {:induction false} FilterAll<T>(s: seq<T>, p: T -> bool)
    requires forall i :: 0 <= i < |s| ==> p(s[i])
    ensures Filter(s, p) == s
  {
    if |s| > 0 {
      FilterAll(s[1..], p);
    }
  }

  /** `s.splice(i, 1)`: the sequence without its element at index `i`. */
  function RemoveAt<T>(s: seq<T>, i: nat): (r: seq<T>)
    requires i < |s|
    ensures |r| == |s| - 1
    ensures forall j :: 0 <= j < i ==> r[j] == s[j]
    ensures forall j :: i <= j < |r| ==> r[j] == s[j + 1]
    ensures multiset(r) + multiset{s[i]} == multiset(s)
  {
    assert s == s[..i] + [s[i]] + s[i + 1..];
    s[..i] + s[i + 1..]
  }

  /** `s.map(f)`. */
  function Map<T, U>(s: seq<T>, f: T -> U): (r: seq<U>)
    ensures |r| == |s|
    ensures forall i :: 0 <= i < |s| ==> r[i] == f(s[i])
  {
    if |s| == 0 then [] else [f(s[0])] + Map(s[1..], f)
  }

  /** No element occurs twice. */
  ghost predicate NoDup<T>(s: seq<T>) {
    forall i, j :: 0 <= i < j < |s| ==> s[i] != s[j]
  }

  /** Removing one element of a duplicate-free sequence removes exactly that value and keeps it duplicate-free. */
  lemma RemoveAtNoDup<T>(s: seq<T>, k: nat, x: T)
    requires k < |s| && NoDup(s)
    ensures NoDup(RemoveAt(s, k))
    ensures x in RemoveAt(s, k) <==> x in s && x != s[k]
  {
    var r := RemoveAt(s, k);
    if x in s && x != s[k] {
      var i :| 0 <= i < |s| && s[i] == x;
      assert i != k;
      if i < k { assert r[i] == x; } else { assert r[i - 1] == x; }
    }
  }

  /** Filtering keeps a sequence duplicate-free. */
  lemma {:induction false} FilterNoDup<T>(s: seq<T>, p: T -> bool)
    requires NoDup(s)
    ensures NoDup(Filter(s, p))
  {
    if |s| > 0 {
      assert NoDup(s[1..]);
      FilterNoDup(s[1..], p);
      if p(s[0]) {
        assert s[0] !in s[1..];
        assert s[0] !in Filter(s[1..], p);
      }
    }
  }

  /** Appending a new element keeps a sequence duplicate-free. */
  lemma NoDupAppend<T>(s: seq<T>, x: T)
    requires NoDup(s) && x !in s
    ensures NoDup(s + [x])
  {
  }

  /** A second update of the same key overrides the first. */
  lemma MapUpdateOverwrite<K, V>(m: map<K, V>, k: K, v: V, w: V)
    ensures m[k := v][k := w] == m[k := w]
  {
  }

  /** Writing back a key's own value changes nothing. */
  lemma MapUpdateSame<K, V>(m: map<K, V>, k: K)
    requires k in m
    ensures m[k := m[k]] == m
  {
  }

  /** Adding a new key and deleting it again changes nothing. */
  lemma MapUpdateThenRemove<K, V>(m: map<K, V>, k: K, v: V)
    requires k !in m
    ensures m[k := v] - {k} == m
  {
  }
}
