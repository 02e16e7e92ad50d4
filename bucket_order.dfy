/**
 * Sorting buckets by name, as `buckets.sort((a, b) => a.name.localeCompare(b.name))`
 * does. The locale's collation is replaced by code-point lexicographic order.
 */
module BucketOrder {
  import opened SearchRequests

  /** `a` is not after `b` in lexicographic order of characters. */
  predicate NameLe(a: string, b: string)
    decreases |a|
  {
    |a| == 0 || (|b| > 0 && (a[0] < b[0] || (a[0] == b[0] && NameLe(a[1..], b[1..]))))
  }

  lemma {:induction false} NameLeTotal(a: string, b: string)
    ensures NameLe(a, b) || NameLe(b, a)
    decreases |a|
  {
    if |a| > 0 && |b| > 0 && a[0] == b[0] {
      NameLeTotal(a[1..], b[1..]);
    }
  }

  lemma {:induction false} NameLeTransitive(a: string, b: string, c: string)
    requires NameLe(a, b) && NameLe(b, c)
    ensures NameLe(a, c)
    decreases |a|
  {
    if |a| > 0 && a[0] == b[0] && b[0] == c[0] {
      NameLeTransitive(a[1..], b[1..], c[1..]);
    }
  }

  ghost predicate SortedByName(s: seq<Bucket>) {
    forall i, j :: 0 <= i < j < |s| ==> NameLe(s[i].name, s[j].name)
  }

  /** `x` placed into a list before the first bucket whose name is after its own. */
  function Insert(s: seq<Bucket>, x: Bucket): seq<Bucket> {
    if |s| == 0 then [x]
    else if !NameLe(s[0].name, x.name) then [x] + s
    else [s[0]] + Insert(s[1..], x)
  }

  lemma {:induction false} InsertPermutes(s: seq<Bucket>, x: Bucket)
    ensures multiset(Insert(s, x)) == multiset(s) + multiset{x}
  {
    if |s| > 0 && NameLe(s[0].name, x.name) {
      InsertPermutes(s[1..], x);
      assert s == [s[0]] + s[1..];
    }
  }

  /** A sorted list with `y` before all its elements stays sorted with `y` in front. */
  lemma ConsSorted(y: Bucket, r: seq<Bucket>)
    requires SortedByName(r)
    requires forall j :: 0 <= j < |r| ==> NameLe(y.name, r[j].name)
    ensures SortedByName([y] + r)
  {
    var c := [y] + r;
    forall i, j | 0 <= i < j < |c| ensures NameLe(c[i].name, c[j].name) {
      if i > 0 {
        assert c[i] == r[i - 1] && c[j] == r[j - 1];
      } else {
        assert c[j] == r[j - 1];
      }
    }
  }

  lemma {:induction false} InsertSorted(s: seq<Bucket>, x: Bucket)
    requires SortedByName(s)
    ensures SortedByName(Insert(s, x))
  {
    if |s| == 0 {
    } else if !NameLe(s[0].name, x.name) {
      NameLeTotal(s[0].name, x.name);
      forall j | 0 <= j < |s| ensures NameLe(x.name, s[j].name) {
        if j > 0 { NameLeTransitive(x.name, s[0].name, s[j].name); }
      }
      ConsSorted(x, s);
    } else {
      var tail := s[1..];
      assert SortedByName(tail);
      InsertSorted(tail, x);
      var rest := Insert(tail, x);
      InsertPermutes(tail, x);
      forall j | 0 <= j < |rest| ensures NameLe(s[0].name, rest[j].name) {
        assert rest[j] in multiset(rest);
        if rest[j] != x {
          assert rest[j] in multiset(tail);
          var i :| 0 <= i < |tail| && tail[i] == rest[j];
          assert s[i + 1] == rest[j];
        }
      }
      ConsSorted(s[0], rest);
    }
  }

  /** The buckets ordered by name: a sorted permutation of the input. */
  function SortByName(s: seq<Bucket>): (r: seq<Bucket>)
    ensures SortedByName(r)
    ensures multiset(r) == multiset(s)
  {
    if |s| == 0 then []
    else
      var sorted := SortByName(s[..|s| - 1]);
      InsertSorted(sorted, s[|s| - 1]);
      InsertPermutes(sorted, s[|s| - 1]);
      assert s == s[..|s| - 1] + [s[|s| - 1]];
      Insert(sorted, s[|s| - 1])
  }
}
