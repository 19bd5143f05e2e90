/**
 * The few JavaScript array operations the extension relies on: `filter`, `flat`
 * (one level) and `find`, each stated by what it keeps and in which order.
 */
module JsArray {
  import opened Wrappers

  /** `a` is obtained from `b` by deleting elements: same relative order. */
  ghost predicate Subsequence<T>(a: seq<T>, b: seq<T>)
    decreases |b|
  {
    if a == [] then true
    else if b == [] then false
    else (a[0] == b[0] && Subsequence(a[1..], b[1..])) || Subsequence(a, b[1..])
  }

  /** `s.filter((x) => key(x) === value)`. */
  function Filter<T, K(==)>(s: seq<T>, key: T -> K, value: K): (r: seq<T>)
    ensures |r| <= |s|
  {
    if s == [] then []
    else (if key(s[0]) == value then [s[0]] else []) + Filter(s[1..], key, value)
  }

  /**
   * What `filter` keeps: exactly the elements whose key matches, each as
   * often as in the input, in their original order.
   */
  lemma FilterSpec<T(!new), K>(s: seq<T>, key: T -> K, value: K)
    ensures var r := Filter(s, key, value);
            && (forall x :: x in r <==> x in s && key(x) == value)
            && (forall x :: multiset(r)[x] == if key(x) == value then multiset(s)[x] else 0)
            && Subsequence(r, s)
  {
    FilterCounts(s, key, value);
    FilterOrder(s, key, value);
    var r := Filter(s, key, value);
    forall x
      ensures x in r <==> x in s && key(x) == value
    {
      assert x in r <==> multiset(r)[x] > 0;
      assert x in s <==> multiset(s)[x] > 0;
    }
  }

  lemma {:induction false} FilterCounts<T, K>(s: seq<T>, key: T -> K, value: K)
    ensures forall x :: multiset(Filter(s, key, value))[x] == if key(x) == value then multiset(s)[x] else 0
    decreases |s|
  {
    if s != [] {
      FilterCounts(s[1..], key, value);
      assert s == [s[0]] + s[1..];
      assert multiset(s) == multiset{s[0]} + multiset(s[1..]);
    }
  }

  lemma {:induction false} FilterOrder<T, K>(s: seq<T>, key: T -> K, value: K)
    ensures Subsequence(Filter(s, key, value), s)
    decreases |s|
  {
    if s != [] {
      FilterOrder(s[1..], key, value);
      var rest := Filter(s[1..], key, value);
      if key(s[0]) == value {
        assert Filter(s, key, value) == [s[0]] + rest;
        assert ([s[0]] + rest)[1..] == rest;
      } else {
        assert Filter(s, key, value) == rest;
      }
    }
  }

  /** One step of `filter`: the head is kept exactly when its key matches. */
  lemma FilterCons<T, K>(x: T, s: seq<T>, key: T -> K, value: K)
    ensures Filter([x] + s, key, value) == (if key(x) == value then [x] else []) + Filter(s, key, value)
  {
    assert ([x] + s)[0] == x && ([x] + s)[1..] == s;
  }

  /** Sum of the lengths of the lists. */
  function SumLengths<T>(lists: seq<seq<T>>): nat
  {
    if lists == [] then 0 else |lists[0]| + SumLengths(lists[1..])
  }

  /** `lists.flat()`: the lists one after another. */
  function Flatten<T>(lists: seq<seq<T>>): (r: seq<T>)
    ensures |r| == SumLengths(lists)
  {
    if lists == [] then [] else lists[0] + Flatten(lists[1..])
  }

  /** Flattening turns concatenation of lists into concatenation of contents. */
  lemma {:induction false} FlattenAppend<T>(a: seq<seq<T>>, b: seq<seq<T>>)
    ensures Flatten(a + b) == Flatten(a) + Flatten(b)
    decreases |a|
  {
    if a == [] {
      assert a + b == b;
    } else {
      assert (a + b)[1..] == a[1..] + b;
      FlattenAppend(a[1..], b);
    }
  }

  /** An element is in the flattened list exactly when it is in one of the lists. */
  lemma {:induction false} FlattenMembership<T>(lists: seq<seq<T>>, x: T)
    ensures x in Flatten(lists) <==> exists i :: 0 <= i < |lists| && x in lists[i]
    decreases |lists|
  {
    if lists != [] {
      FlattenMembership(lists[1..], x);
      if exists i :: 0 <= i < |lists| && x in lists[i] {
        var i :| 0 <= i < |lists| && x in lists[i];
        if i > 0 {
          assert x in lists[1..][i - 1];
        }
      }
      if exists i :: 0 <= i < |lists[1..]| && x in lists[1..][i] {
        var i :| 0 <= i < |lists[1..]| && x in lists[1..][i];
        assert x in lists[i + 1];
      }
    }
  }

  /** `s.findIndex(p)`: the first index whose element satisfies `p`, or -1. */
  function FindIndex<T>(s: seq<T>, p: T -> bool): (r: int)
    ensures -1 <= r < |s|
    ensures r >= 0 ==> p(s[r])
    ensures forall j :: 0 <= j < |s| && (r < 0 || j < r) ==> !p(s[j])
  {
    if s == [] then -1
    else if p(s[0]) then 0
    else
      var k := FindIndex(s[1..], p);
      if k < 0 then -1 else k + 1
  }

  /** `s.find(p)`: the first element that satisfies `p`, or `undefined`. */
  function Find<T>(s: seq<T>, p: T -> bool): (r: Option<T>)
    ensures r.None? <==> forall j :: 0 <= j < |s| ==> !p(s[j])
    ensures r.Some? ==> exists i :: 0 <= i < |s| && s[i] == r.value && p(s[i]) &&
                                    forall j :: 0 <= j < i ==> !p(s[j])
  {
    var k := FindIndex(s, p);
    if k < 0 then None else Some(s[k])
  }
}
