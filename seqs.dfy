/** Small sequence helpers mirroring Python list idioms (slicing, `in`, de-duplication). */
module Seqs {
  /** Python's `s[:n]`. */
  function Take<T>(s: seq<T>, n: nat): (r: seq<T>)
    ensures |r| == if n < |s| then n else |s|
    ensures r <= s
  {
    if n < |s| then s[..n] else s
  }

  /** Python's `s[-n:]` for n > 0, that is the newest n entries. */
  function LastN<T>(s: seq<T>, n: nat): (r: seq<T>)
    ensures |r| == if |s| > n then n else |s|
    ensures forall i :: 0 <= i < |r| ==> r[i] == s[|s| - |r| + i]
  {
    if |s| > n then s[|s| - n..] else s
  }

  /** Keeping the last `n > 0` entries keeps the one just appended, last. */
  lemma LastOfLastN<T>(s: seq<T>, x: T, n: nat)
    requires n > 0
    ensures |LastN(s + [x], n)| > 0 && LastN(s + [x], n)[|LastN(s + [x], n)| - 1] == x
  {
  }

  /** Number of occurrences of `x` in `s`. */
  function Count<T(==)>(s: seq<T>, x: T): nat
  {
    if s == [] then 0 else (if s[0] == x then 1 else 0) + Count(s[1..], x)
  }

  lemma CountAppend<T>(a: seq<T>, b: seq<T>, x: T)
    ensures Count(a + b, x) == Count(a, x) + Count(b, x)
  {
    if a == [] {
      assert a + b == b;
    } else {
      assert (a + b)[1..] == a[1..] + b;
      CountAppend(a[1..], b, x);
    }
  }

  lemma CountPositive<T>(s: seq<T>, x: T)
    ensures Count(s, x) > 0 <==> x in s
  {
    if s != [] {
      CountPositive(s[1..], x);
      assert x in s <==> s[0] == x || x in s[1..];
    }
  }

  /** Order-preserving removal of repeated entries, keeping the first occurrence. */
  function Dedupe<T(==)>(s: seq<T>): seq<T>
  {
    DedupeFrom(s, {})
  }

  function DedupeFrom<T(==)>(s: seq<T>, seen: set<T>): seq<T>
  {
    if s == [] then []
    else if s[0] in seen then DedupeFrom(s[1..], seen)
    else [s[0]] + DedupeFrom(s[1..], seen + {s[0]})
  }

  predicate NoDuplicates<T(==)>(s: seq<T>)
  {
    forall i, j :: 0 <= i < j < |s| ==> s[i] != s[j]
  }

  /** In a sequence without repeats every value occurs at most once. */
  lemma CountNoDuplicates<T>(s: seq<T>, x: T)
    requires NoDuplicates(s)
    ensures Count(s, x) == if x in s then 1 else 0
  {
    if s != [] {
      assert NoDuplicates(s[1..]) by {
        forall i, j | 0 <= i < j < |s| - 1
          ensures s[1..][i] != s[1..][j]
        {
          assert s[1..][i] == s[i + 1] && s[1..][j] == s[j + 1];
        }
      }
      CountNoDuplicates(s[1..], x);
    }
  }

  lemma {:induction false} DedupeFromProps<T>(s: seq<T>, seen: set<T>)
    ensures NoDuplicates(DedupeFrom(s, seen))
    ensures forall x :: x in DedupeFrom(s, seen) <==> x in s && x !in seen
  {
    if s != [] {
      if s[0] in seen {
        DedupeFromProps(s[1..], seen);
      } else {
        DedupeFromProps(s[1..], seen + {s[0]});
        var r := DedupeFrom(s[1..], seen + {s[0]});
        assert DedupeFrom(s, seen) == [s[0]] + r;
        forall x
          ensures x in DedupeFrom(s, seen) <==> x in s && x !in seen
        {
          assert x in s <==> x == s[0] || x in s[1..];
        }
      }
    }
  }

  /** De-duplication keeps exactly the distinct entries, once each. */
  lemma DedupeProps<T>(s: seq<T>)
    ensures NoDuplicates(Dedupe(s))
    ensures forall x :: x in Dedupe(s) <==> x in s
  {
    DedupeFromProps(s, {});
  }

  /** A list that already has no repeats is left unchanged. */
  lemma {:induction false} DedupeFromIdentity<T>(s: seq<T>, seen: set<T>)
    requires NoDuplicates(s)
    requires forall x :: x in s ==> x !in seen
    ensures DedupeFrom(s, seen) == s
  {
    if s != [] {
      assert forall x :: x in s[1..] ==> x !in seen + {s[0]} by {
        forall x | x in s[1..]
          ensures x !in seen + {s[0]}
        {
          var k :| 0 <= k < |s[1..]| && s[1..][k] == x;
          assert s[k + 1] == x;
        }
      }
      DedupeFromIdentity(s[1..], seen + {s[0]});
    }
  }

  lemma {:induction false} DedupeFromSnoc<T>(s: seq<T>, x: T, seen: set<T>)
    ensures DedupeFrom(s + [x], seen) == DedupeFrom(s, seen) + (if x in seen || x in s then [] else [x])
  {
    if s == [] {
      assert [] + [x] == [x];
    } else {
      assert (s + [x])[1..] == s[1..] + [x];
      assert x in s <==> x == s[0] || x in s[1..];
      if s[0] in seen {
        DedupeFromSnoc(s[1..], x, seen);
      } else {
        DedupeFromSnoc(s[1..], x, seen + {s[0]});
      }
    }
  }

  /** Appending an entry extends the de-duplicated list only when the entry is new. */
  lemma DedupeSnoc<T>(s: seq<T>, x: T)
    ensures Dedupe(s + [x]) == Dedupe(s) + (if x in s then [] else [x])
  {
    DedupeFromSnoc(s, x, {});
  }

  /** How a prefix's deduplication and counts grow by one element. */
  lemma PrefixStep<T>(s: seq<T>, i: nat)
    requires i < |s|
    ensures Dedupe(s[..i + 1]) == Dedupe(s[..i]) + (if s[i] in s[..i] then [] else [s[i]])
    ensures s[i] in Dedupe(s[..i]) <==> s[i] in s[..i]
    ensures forall d :: Count(s[..i + 1], d) == Count(s[..i], d) + (if d == s[i] then 1 else 0)
    ensures Count(s[..i], s[i]) > 0 <==> s[i] in s[..i]
  {
    assert s[..i + 1] == s[..i] + [s[i]];
    DedupeSnoc(s[..i], s[i]);
    DedupeProps(s[..i]);
    CountPositive(s[..i], s[i]);
    forall d
      ensures Count(s[..i + 1], d) == Count(s[..i], d) + (if d == s[i] then 1 else 0)
    {
      CountAppend(s[..i], [s[i]], d);
      assert [s[i]][1..] == [];
    }
  }

  /** `list(s)`: the elements of the set once each, in an order the model leaves open. */
  method ListOf<T(==)>(s: set<T>) returns (xs: seq<T>)
    ensures NoDuplicates(xs)
    ensures forall x :: x in xs <==> x in s
  {
    xs := [];
    var rest := s;
    while rest != {}
      invariant rest <= s
      invariant NoDuplicates(xs)
      invariant forall x :: x in xs <==> x in s && x !in rest
      decreases |rest|
    {
      var x :| x in rest;
      xs := xs + [x];
      rest := rest - {x};
    }
  }

  /** `r` is `s` with some elements dropped, order kept. */
  predicate IsSubsequence<T(==)>(r: seq<T>, s: seq<T>)
    decreases |s|
  {
    if r == [] then true
    else if s == [] then false
    else if r[0] == s[0] then IsSubsequence(r[1..], s[1..])
    else IsSubsequence(r, s[1..])
  }

  lemma SubsequenceDropHead<T>(r: seq<T>, s: seq<T>)
    requires r != [] && IsSubsequence(r, s)
    ensures IsSubsequence(r[1..], s)
    decreases |s|, 0
  {
    if r[0] == s[0] {
      SubsequenceExtend(r[1..], s[1..], s[0]);
      assert [s[0]] + s[1..] == s;
    } else {
      SubsequenceDropHead(r, s[1..]);
      SubsequenceExtend(r[1..], s[1..], s[0]);
      assert [s[0]] + s[1..] == s;
    }
  }

  /** A subsequence stays one when the sequence grows at the front. */
  lemma SubsequenceExtend<T>(r: seq<T>, s: seq<T>, x: T)
    requires IsSubsequence(r, s)
    ensures IsSubsequence(r, [x] + s)
    decreases |s|, 1
  {
    assert ([x] + s)[1..] == s;
    if r != [] && r[0] == x {
      SubsequenceDropHead(r, s);
    }
  }

  /** A subsequence stays one when any sequence is put in front. */
  lemma {:induction false} SubsequencePrepend<T>(r: seq<T>, b: seq<T>, s: seq<T>)
    requires IsSubsequence(r, s)
    ensures IsSubsequence(r, b + s)
    decreases |b|
  {
    if b != [] {
      SubsequencePrepend(r, b[1..], s);
      SubsequenceExtend(r, b[1..] + s, b[0]);
      assert [b[0]] + (b[1..] + s) == b + s;
    } else {
      assert b + s == s;
    }
  }

  /** Subsequences of two sequences concatenate to a subsequence of their concatenation. */
  lemma {:induction false} SubsequenceConcat<T>(a: seq<T>, b: seq<T>, c: seq<T>, d: seq<T>)
    requires IsSubsequence(a, b) && IsSubsequence(c, d)
    ensures IsSubsequence(a + c, b + d)
    decreases |b|
  {
    if a == [] {
      assert a + c == c;
      SubsequencePrepend(c, b, d);
    } else {
      assert (b + d)[1..] == b[1..] + d;
      if a[0] == b[0] {
        SubsequenceConcat(a[1..], b[1..], c, d);
        assert (a + c)[1..] == a[1..] + c;
      } else {
        SubsequenceConcat(a, b[1..], c, d);
      }
    }
  }

  /** Every element of a subsequence is an element of the sequence. */
  lemma {:induction false} SubsequenceMember<T>(r: seq<T>, s: seq<T>, x: T)
    requires IsSubsequence(r, s) && x in r
    ensures x in s
    decreases |s|
  {
    if r[0] == s[0] {
      if x != r[0] {
        assert x in r[1..];
        SubsequenceMember(r[1..], s[1..], x);
      }
    } else {
      SubsequenceMember(r, s[1..], x);
    }
  }

  /** Dropping elements cannot introduce a repeat. */
  lemma {:induction false} SubsequenceNoDuplicates<T>(r: seq<T>, s: seq<T>)
    requires IsSubsequence(r, s) && NoDuplicates(s)
    ensures NoDuplicates(r)
    decreases |s|
  {
    if r != [] {
      assert NoDuplicates(s[1..]);
      if r[0] == s[0] {
        SubsequenceNoDuplicates(r[1..], s[1..]);
        forall j | 0 < j < |r|
          ensures r[0] != r[j]
        {
          assert r[j] in r[1..];
          SubsequenceMember(r[1..], s[1..], r[j]);
        }
        forall i, j | 0 <= i < j < |r|
          ensures r[i] != r[j]
        {
          if i > 0 {
            assert r[i] == r[1..][i - 1] && r[j] == r[1..][j - 1];
          }
        }
      } else {
        SubsequenceNoDuplicates(r, s[1..]);
      }
    }
  }

  /** The keys of the elements. */
  function KeySet<T(==), K(==)>(s: seq<T>, key: T -> K): set<K>
  {
    set x | x in s :: key(x)
  }

  lemma KeySetConcat<T, K>(a: seq<T>, b: seq<T>, key: T -> K)
    ensures KeySet(a + b, key) == KeySet(a, key) + KeySet(b, key)
  {
  }

  /** In order, each element whose key is neither in `seen` nor the key of an earlier kept element. */
  function FirstPerKey<T(==), K(==)>(s: seq<T>, seen: set<K>, key: T -> K): seq<T>
  {
    if s == [] then []
    else if key(s[0]) in seen then FirstPerKey(s[1..], seen, key)
    else [s[0]] + FirstPerKey(s[1..], seen + {key(s[0])}, key)
  }

  lemma {:induction false} FirstPerKeyConcat<T, K>(a: seq<T>, b: seq<T>, seen: set<K>, key: T -> K)
    ensures FirstPerKey(a + b, seen, key) == FirstPerKey(a, seen, key) + FirstPerKey(b, seen + KeySet(a, key), key)
    decreases |a|
  {
    if a == [] {
      assert a + b == b;
      assert KeySet(a, key) == {};
      assert seen + KeySet(a, key) == seen;
    } else {
      assert (a + b)[0] == a[0] && (a + b)[1..] == a[1..] + b;
      var seen' := if key(a[0]) in seen then seen else seen + {key(a[0])};
      FirstPerKeyConcat(a[1..], b, seen', key);
      assert a == [a[0]] + a[1..];
      KeySetConcat([a[0]], a[1..], key);
      assert seen' + KeySet(a[1..], key) == seen + KeySet(a, key);
    }
  }

  lemma FirstPerKeySingle<T, K>(x: T, seen: set<K>, key: T -> K)
    ensures FirstPerKey([x], seen, key) == if key(x) in seen then [] else [x]
    ensures KeySet([x], key) == {key(x)}
  {
    assert [x][1..] == [];
  }

  /** Keeping over one batch and then the next is keeping over both. */
  lemma FirstPerKeyChain<T, K>(f0: seq<T>, here: seq<T>, rest: seq<T>, seen: set<K>, kept1: seq<T>, seen1: set<K>, key: T -> K)
    requires kept1 == f0 + FirstPerKey(here, seen, key) && seen1 == seen + KeySet(here, key)
    ensures kept1 + FirstPerKey(rest, seen1, key) == f0 + FirstPerKey(here + rest, seen, key)
    ensures seen1 + KeySet(rest, key) == seen + KeySet(here + rest, key)
  {
    var a := FirstPerKey(here, seen, key);
    var b := FirstPerKey(rest, seen1, key);
    FirstPerKeyConcat(here, rest, seen, key);
    assert kept1 + b == f0 + (a + b);
    KeySetConcat(here, rest, key);
  }

  /** `s[i]` is the first element of `s` with its key, and that key is not in `seen`. */
  predicate FirstNew<T, K(==)>(s: seq<T>, seen: set<K>, key: T -> K, i: int)
  {
    0 <= i < |s| && key(s[i]) !in seen && forall j :: 0 <= j < i ==> key(s[j]) != key(s[i])
  }

  /**
   * `FirstPerKey` keeps, in order, the first element of every key not yet seen and
   * nothing else: each kept element has a new key, the kept keys are exactly the new
   * keys of `s`, and the first element with a new key is kept.
   */
  lemma {:induction false} FirstPerKeyProps<T, K>(s: seq<T>, seen: set<K>, key: T -> K)
    ensures IsSubsequence(FirstPerKey(s, seen, key), s)
    ensures forall x :: x in FirstPerKey(s, seen, key) ==> key(x) !in seen
    ensures KeySet(FirstPerKey(s, seen, key), key) == KeySet(s, key) - seen
    ensures forall i :: FirstNew(s, seen, key, i) ==> s[i] in FirstPerKey(s, seen, key)
    decreases |s|
  {
    if s != [] {
      var x := s[0];
      var tail := s[1..];
      assert s == [x] + tail;
      KeySetConcat([x], tail, key);
      if key(x) in seen {
        FirstPerKeyProps(tail, seen, key);
        FirstNewShift(s, seen, seen, key);
      } else {
        var seen' := seen + {key(x)};
        FirstPerKeyProps(tail, seen', key);
        assert FirstPerKey(s, seen, key) == [x] + FirstPerKey(tail, seen', key);
        KeySetConcat([x], FirstPerKey(tail, seen', key), key);
        FirstNewShift(s, seen, seen', key);
      }
    }
  }

  /** The first-of-its-key clause carries over from the tail. */
  lemma FirstNewShift<T, K>(s: seq<T>, seen: set<K>, seen': set<K>, key: T -> K)
    requires s != []
    requires seen' == if key(s[0]) in seen then seen else seen + {key(s[0])}
    requires FirstPerKey(s, seen, key) == (if key(s[0]) in seen then [] else [s[0]]) + FirstPerKey(s[1..], seen', key)
    requires forall i :: FirstNew(s[1..], seen', key, i) ==> s[1..][i] in FirstPerKey(s[1..], seen', key)
    ensures forall i :: FirstNew(s, seen, key, i) ==> s[i] in FirstPerKey(s, seen, key)
  {
    forall i | FirstNew(s, seen, key, i)
      ensures s[i] in FirstPerKey(s, seen, key)
    {
      if i > 0 {
        assert s[1..][i - 1] == s[i];
        forall j | 0 <= j < i - 1
          ensures key(s[1..][j]) != key(s[1..][i - 1])
        {
          assert s[1..][j] == s[j + 1];
        }
        assert key(s[i]) != key(s[0]);
        assert FirstNew(s[1..], seen', key, i - 1);
      }
    }
  }
}
