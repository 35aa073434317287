/**
 * Filtering and descending sort by a numeric key. Used for `ORDER BY ... DESC`
 * (ties keep table order) and for Python's stable `sort(key=..., reverse=True)`.
 */
module Sorting {
  import opened Seqs

  function Filter<T>(s: seq<T>, p: T -> bool): (r: seq<T>)
    ensures |r| <= |s|
    ensures forall i :: 0 <= i < |r| ==> r[i] in s && p(r[i])
    ensures forall i :: 0 <= i < |s| && p(s[i]) ==> s[i] in r
  {
    if s == [] then []
    else if p(s[0]) then [s[0]] + Filter(s[1..], p)
    else Filter(s[1..], p)
  }

  predicate SortedDesc<T>(s: seq<T>, key: T -> real)
  {
    forall i, j :: 0 <= i < j < |s| ==> key(s[i]) >= key(s[j])
  }

  /** Insert `x` before the first entry whose key is not greater, so earlier equals stay first. */
  function InsertDesc<T>(x: T, s: seq<T>, key: T -> real): seq<T>
  {
    if s == [] || key(s[0]) <= key(x) then [x] + s
    else [s[0]] + InsertDesc(x, s[1..], key)
  }

  function SortDesc<T>(s: seq<T>, key: T -> real): seq<T>
  {
    if s == [] then [] else InsertDesc(s[0], SortDesc(s[1..], key), key)
  }

  lemma {:induction false} InsertDescCount<T>(x: T, s: seq<T>, key: T -> real)
    ensures multiset(InsertDesc(x, s, key)) == multiset(s) + multiset{x}
    ensures |InsertDesc(x, s, key)| == |s| + 1
  {
    if s != [] && key(s[0]) > key(x) {
      InsertDescCount(x, s[1..], key);
      assert s == [s[0]] + s[1..];
    }
  }

  lemma {:induction false} InsertDescMembers<T>(x: T, s: seq<T>, key: T -> real)
    ensures forall i :: 0 <= i < |InsertDesc(x, s, key)| ==>
      InsertDesc(x, s, key)[i] == x || InsertDesc(x, s, key)[i] in s
  {
    if s != [] && key(s[0]) > key(x) {
      InsertDescMembers(x, s[1..], key);
    }
  }

  lemma {:induction false} InsertDescProps<T>(x: T, s: seq<T>, key: T -> real)
    requires SortedDesc(s, key)
    ensures SortedDesc(InsertDesc(x, s, key), key)
    ensures multiset(InsertDesc(x, s, key)) == multiset(s) + multiset{x}
    ensures |InsertDesc(x, s, key)| == |s| + 1
  {
    InsertDescCount(x, s, key);
    if s != [] && key(s[0]) > key(x) {
      InsertDescProps(x, s[1..], key);
      var t := InsertDesc(x, s[1..], key);
      InsertDescMembers(x, s[1..], key);
      assert forall j :: 0 <= j < |t| ==> key(s[0]) >= key(t[j]);
      assert InsertDesc(x, s, key) == [s[0]] + t;
    }
  }

  /** The sort returns a descending permutation of its input. */
  lemma {:induction false} SortDescProps<T>(s: seq<T>, key: T -> real)
    ensures SortedDesc(SortDesc(s, key), key)
    ensures multiset(SortDesc(s, key)) == multiset(s)
    ensures |SortDesc(s, key)| == |s|
  {
    if s != [] {
      SortDescProps(s[1..], key);
      InsertDescProps(s[0], SortDesc(s[1..], key), key);
      MultisetCons(s);
    }
  }

  lemma MultisetCons<T>(s: seq<T>)
    requires s != []
    ensures multiset(s) == multiset(s[1..]) + multiset{s[0]}
  {
    assert s == [s[0]] + s[1..];
  }

  lemma SortDescMembers<T>(s: seq<T>, key: T -> real)
    ensures forall x :: x in SortDesc(s, key) <==> x in s
  {
    SortDescProps(s, key);
    forall x
      ensures x in SortDesc(s, key) <==> x in s
    {
      assert x in SortDesc(s, key) <==> x in multiset(SortDesc(s, key));
    }
  }

  /**
   * The first `n` of the stable descending sort: sorted, drawn from `s`, and no
   * entry of `s` left out has a greater key than a kept one.
   */
  lemma TopN<T>(s: seq<T>, key: T -> real, n: nat)
    ensures |Take(SortDesc(s, key), n)| <= n
    ensures SortedDesc(Take(SortDesc(s, key), n), key)
    ensures forall i :: 0 <= i < |Take(SortDesc(s, key), n)| ==> Take(SortDesc(s, key), n)[i] in s
    ensures forall x :: x in s && x !in Take(SortDesc(s, key), n) ==>
      forall i :: 0 <= i < |Take(SortDesc(s, key), n)| ==> key(Take(SortDesc(s, key), n)[i]) >= key(x)
  {
    var sorted := SortDesc(s, key);
    SortDescProps(s, key);
    SortDescMembers(s, key);
    var res := Take(sorted, n);
    assert forall i :: 0 <= i < |res| ==> res[i] == sorted[i];
    assert forall i :: 0 <= i < |res| ==> sorted[i] in sorted;
    forall x | x in s && x !in res
      ensures forall i :: 0 <= i < |res| ==> key(res[i]) >= key(x)
    {
      var j :| 0 <= j < |sorted| && sorted[j] == x;
      if j < |res| {
        assert res[j] == x;
      }
    }
  }

  /** The first `n` of the sort: as many as asked for when there are enough, each taken from `s` no more often than it occurs there. */
  lemma TopNCount<T>(s: seq<T>, key: T -> real, n: nat)
    ensures |Take(SortDesc(s, key), n)| == if n < |s| then n else |s|
    ensures multiset(Take(SortDesc(s, key), n)) <= multiset(s)
  {
    var sorted := SortDesc(s, key);
    SortDescProps(s, key);
    var res := Take(sorted, n);
    assert sorted == res + sorted[|res|..];
    assert multiset(sorted) == multiset(res) + multiset(sorted[|res|..]);
  }
}
