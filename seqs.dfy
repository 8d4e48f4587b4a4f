/** The array operations the application leans on (`filter`, `some`, `slice`, `map`, `find`,
    `findIndex` followed by an update of the element found, `Math.max(0, ...)` for a fresh id, a
    stable `sort` on a numeric key), written once over sequences, with the uniqueness of keys that
    the tables keep. */
module Seqs {
  import opened Wrappers

  /** `s.filter(p)`: the elements of `s` that satisfy `p`, in their original order. */
  function Filter<T(!new)>(s: seq<T>, p: T -> bool): (r: seq<T>)
    ensures |r| <= |s|
    ensures forall x :: x in r <==> x in s && p(x)
  {
    if s == [] then []
    else
      assert s == [s[0]] + s[1..];
      if p(s[0]) then [s[0]] + Filter(s[1..], p) else Filter(s[1..], p)
  }

  /** `s.some(p)`. */
  predicate Any<T(!new)>(s: seq<T>, p: T -> bool)
    ensures Any(s, p) <==> exists x :: x in s && p(x)
  {
    if s == [] then false
    else
      assert s == [s[0]] + s[1..];
      p(s[0]) || Any(s[1..], p)
  }

  /** `s.slice(0, n)`. */
  function Take<T>(s: seq<T>, n: nat): (r: seq<T>)
    ensures |r| == if |s| <= n then |s| else n
    ensures r == s[..|r|]
  {
    if |s| <= n then s else s[..n]
  }

  /** `s.map(f)`. */
  function Map<T, U>(s: seq<T>, f: T -> U): (r: seq<U>)
    ensures |r| == |s|
    ensures forall i :: 0 <= i < |s| ==> r[i] == f(s[i])
  {
    seq(|s|, i requires 0 <= i < |s| => f(s[i]))
  }

  /** `Math.max(0, ...xs)`. */
  function MaxOrZero(xs: seq<int>): (m: int)
    ensures m >= 0
    ensures forall x :: x in xs ==> x <= m
    ensures m == 0 || m in xs
  {
    if xs == [] then 0
    else
      assert xs == [xs[0]] + xs[1..];
      var rest := MaxOrZero(xs[1..]);
      if xs[0] > rest then xs[0] else rest
  }

  /** `Math.max(0, ...xs) + 1` is larger than every element, so it is not among them. */
  lemma NextIsFresh(xs: seq<int>)
    ensures MaxOrZero(xs) + 1 !in xs
    ensures forall x :: x in xs ==> x < MaxOrZero(xs) + 1
  {
  }

  /** Filtering twice is filtering once by the conjunction. */
  lemma {:induction false} FilterFuse<T(!new)>(s: seq<T>, p: T -> bool, q: T -> bool, both: T -> bool)
    requires forall x :: both(x) == (p(x) && q(x))
    ensures Filter(Filter(s, p), q) == Filter(s, both)
  {
    if s != [] {
      FilterFuse(s[1..], p, q, both);
    }
  }

  /** Filters with predicates that agree everywhere give the same result. */
  lemma {:induction false} FilterCongruent<T(!new)>(s: seq<T>, p: T -> bool, q: T -> bool)
    requires forall x :: p(x) == q(x)
    ensures Filter(s, p) == Filter(s, q)
  {
    if s != [] {
      FilterCongruent(s[1..], p, q);
    }
  }

  /** A filter that every element passes keeps the sequence. */
  lemma {:induction false} FilterAll<T(!new)>(s: seq<T>, p: T -> bool)
    requires forall x :: x in s ==> p(x)
    ensures Filter(s, p) == s
  {
    if s != [] {
      assert s == [s[0]] + s[1..];
      FilterAll(s[1..], p);
    }
  }

  /** A filter that no element passes is empty. */
  lemma FilterNone<T(!new)>(s: seq<T>, p: T -> bool)
    requires forall x :: x in s ==> !p(x)
    ensures Filter(s, p) == []
  {
    if Filter(s, p) != [] {
      assert Filter(s, p)[0] in Filter(s, p);
    }
  }

  /** The sizes of the parts picked out by two disjoint filters add up to the size of the
      part picked out by their disjunction. */
  lemma {:induction false} FilterSplitCount<T(!new)>(s: seq<T>, p: T -> bool, q: T -> bool, either: T -> bool)
    requires forall x :: !(p(x) && q(x))
    requires forall x :: either(x) == (p(x) || q(x))
    ensures |Filter(s, p)| + |Filter(s, q)| == |Filter(s, either)|
  {
    if s != [] {
      FilterSplitCount(s[1..], p, q, either);
    }
  }

  /** The positions of `s` whose elements satisfy `p`. */
  function Positions<T>(s: seq<T>, p: T -> bool): set<int>
  {
    set i | 0 <= i < |s| && p(s[i])
  }

  /** Appending one element adds its position exactly when it passes. */
  lemma PositionsSnoc<T>(init: seq<T>, x: T, p: T -> bool)
    ensures Positions(init + [x], p) == Positions(init, p) + (if p(x) then {|init|} else {})
    ensures |init| !in Positions(init, p)
  {
    var s := init + [x];
    assert forall i :: 0 <= i < |init| ==> s[i] == init[i];
    assert s[|init|] == x;
  }

  /** `filter` keeps one element per position that passes, so its length counts those positions. */
  lemma {:induction false} FilterCountsPositions<T(!new)>(s: seq<T>, p: T -> bool)
    ensures |Filter(s, p)| == |Positions(s, p)|
    decreases |s|
  {
    if s != [] {
      var init, x := s[..|s| - 1], s[|s| - 1];
      assert s == init + [x];
      FilterAppend(init, [x], p);
      FilterCons(x, [], p);
      assert [x] + [] == [x];
      FilterCountsPositions(init, p);
      PositionsSnoc(init, x, p);
    }
  }

  /** One step of `filter`. */
  lemma FilterCons<T(!new)>(x: T, s: seq<T>, p: T -> bool)
    ensures Filter([x] + s, p) == if p(x) then [x] + Filter(s, p) else Filter(s, p)
  {
    assert ([x] + s)[1..] == s;
  }

  /** Filtering distributes over concatenation. */
  lemma {:induction false} FilterAppend<T(!new)>(a: seq<T>, b: seq<T>, p: T -> bool)
    ensures Filter(a + b, p) == Filter(a, p) + Filter(b, p)
  {
    if a == [] {
      assert a + b == b;
    } else {
      var ab := a + b;
      assert ab != [] && ab[0] == a[0] && ab[1..] == a[1..] + b;
      FilterAppend(a[1..], b, p);
      if p(a[0]) {
        calc {
          Filter(ab, p);
          [a[0]] + Filter(a[1..] + b, p);
          [a[0]] + (Filter(a[1..], p) + Filter(b, p));
          ([a[0]] + Filter(a[1..], p)) + Filter(b, p);
          Filter(a, p) + Filter(b, p);
        }
      } else {
        calc {
          Filter(ab, p);
          Filter(a[1..] + b, p);
          Filter(a[1..], p) + Filter(b, p);
          Filter(a, p) + Filter(b, p);
        }
      }
    }
  }

  // ---------------------------------------------------------------------------
  // Order-preserving subsequences

  /** `a` can be obtained from `b` by deleting elements (greedy matching decides it). */
  predicate IsSubsequence<T(==)>(a: seq<T>, b: seq<T>)
    decreases |b|
  {
    a == [] ||
    (b != [] && if a[0] == b[0] then IsSubsequence(a[1..], b[1..]) else IsSubsequence(a, b[1..]))
  }

  lemma {:induction false} SubsequenceCons<T>(a: seq<T>, b: seq<T>, x: T)
    requires IsSubsequence(a, b)
    ensures IsSubsequence(a, [x] + b)
    decreases |b|, 1
  {
    if a != [] && a[0] == x {
      assert ([x] + b)[1..] == b;
      assert b != [];
      if a[0] == b[0] {
        SubsequenceCons(a[1..], b[1..], b[0]);
        assert [b[0]] + b[1..] == b;
      } else {
        SubsequenceDropHead(a, b[1..]);
        SubsequenceCons(a[1..], b[1..], b[0]);
        assert [b[0]] + b[1..] == b;
      }
    } else if a != [] {
      assert ([x] + b)[1..] == b;
    }
  }

  lemma {:induction false} SubsequenceDropHead<T>(a: seq<T>, c: seq<T>)
    requires a != [] && IsSubsequence(a, c)
    ensures IsSubsequence(a[1..], c)
    decreases |c|, 0
  {
    assert c != [];
    if a[0] == c[0] {
      SubsequenceCons(a[1..], c[1..], c[0]);
      assert [c[0]] + c[1..] == c;
    } else {
      SubsequenceDropHead(a, c[1..]);
      SubsequenceCons(a[1..], c[1..], c[0]);
      assert [c[0]] + c[1..] == c;
    }
  }

  /** What `filter` returns is an order-preserving subsequence of its input. */
  lemma {:induction false} FilterIsSubsequence<T(!new)>(s: seq<T>, p: T -> bool)
    ensures IsSubsequence(Filter(s, p), s)
  {
    if s != [] {
      FilterIsSubsequence(s[1..], p);
      if p(s[0]) {
        assert ([s[0]] + Filter(s[1..], p))[1..] == Filter(s[1..], p);
      } else {
        SubsequenceCons(Filter(s[1..], p), s[1..], s[0]);
        assert [s[0]] + s[1..] == s;
      }
    }
  }

  /** Mapping after `filter` keeps the order of mapping the whole input. */
  lemma {:induction false} MapFilterIsSubsequence<T(!new), U>(s: seq<T>, p: T -> bool, f: T -> U)
    ensures IsSubsequence(Map(Filter(s, p), f), Map(s, f))
  {
    if s != [] {
      MapFilterIsSubsequence(s[1..], p, f);
      var rest := Map(Filter(s[1..], p), f);
      assert Map(s, f)[1..] == Map(s[1..], f);
      assert [f(s[0])] + Map(s[1..], f) == Map(s, f);
      FilterCons(s[0], s[1..], p);
      assert [s[0]] + s[1..] == s;
      if p(s[0]) {
        var m := Map(Filter(s, p), f);
        assert m[0] == f(s[0]) && m[1..] == rest;
      } else {
        SubsequenceCons(rest, Map(s[1..], f), f(s[0]));
      }
    }
  }

  // ---------------------------------------------------------------------------
  // A stable sort on an integer key, ascending or descending

  predicate InOrder(a: int, b: int, descending: bool)
  {
    if descending then a >= b else a <= b
  }

  predicate SortedByKey<T>(s: seq<T>, key: T -> int, descending: bool)
  {
    forall i, j :: 0 <= i < j < |s| ==> InOrder(key(s[i]), key(s[j]), descending)
  }

  /** Inserts `x` in front of the first element it may precede; since `x` came before all of
      `s` in the input, placing it ahead of equal keys keeps the sort stable. */
  function InsertByKey<T>(x: T, s: seq<T>, key: T -> int, descending: bool): seq<T>
  {
    if s == [] || InOrder(key(x), key(s[0]), descending) then [x] + s
    else [s[0]] + InsertByKey(x, s[1..], key, descending)
  }

  /** `s.sort((a, b) => key(a) - key(b))`, or `key(b) - key(a)` when descending. */
  function SortByKey<T>(s: seq<T>, key: T -> int, descending: bool): seq<T>
  {
    if s == [] then [] else InsertByKey(s[0], SortByKey(s[1..], key, descending), key, descending)
  }

  /** Putting in front of a sorted sequence an element that may precede each of its elements
      keeps it sorted. */
  lemma ConsSorted<T>(h: T, u: seq<T>, key: T -> int, descending: bool)
    requires SortedByKey(u, key, descending)
    requires forall y :: y in u ==> InOrder(key(h), key(y), descending)
    ensures SortedByKey([h] + u, key, descending)
  {
    var r := [h] + u;
    forall i, j | 0 <= i < j < |r| ensures InOrder(key(r[i]), key(r[j]), descending) {
      assert r[j] == u[j - 1];
      if i > 0 {
        assert r[i] == u[i - 1];
      } else {
        assert u[j - 1] in u;
      }
    }
  }

  /** The tail of a sorted sequence is sorted. */
  lemma TailSorted<T>(s: seq<T>, key: T -> int, descending: bool)
    requires s != [] && SortedByKey(s, key, descending)
    ensures SortedByKey(s[1..], key, descending)
  {
    var t := s[1..];
    forall i, j | 0 <= i < j < |t| ensures InOrder(key(t[i]), key(t[j]), descending) {
      assert t[i] == s[i + 1] && t[j] == s[j + 1];
    }
  }

  lemma {:induction false} InsertByKeyCorrect<T>(x: T, s: seq<T>, key: T -> int, descending: bool)
    requires SortedByKey(s, key, descending)
    ensures multiset(InsertByKey(x, s, key, descending)) == multiset(s) + multiset{x}
    ensures SortedByKey(InsertByKey(x, s, key, descending), key, descending)
  {
    if s == [] || InOrder(key(x), key(s[0]), descending) {
      forall y | y in s ensures InOrder(key(x), key(y), descending) {
        var k :| 0 <= k < |s| && s[k] == y;
        if k > 0 {
          assert InOrder(key(s[0]), key(s[k]), descending);
        }
      }
      ConsSorted(x, s, key, descending);
    } else {
      var t := s[1..];
      TailSorted(s, key, descending);
      InsertByKeyCorrect(x, t, key, descending);
      var u := InsertByKey(x, t, key, descending);
      assert s == [s[0]] + t;
      forall y | y in u ensures InOrder(key(s[0]), key(y), descending) {
        assert y in multiset(u);
        assert y == x || y in multiset(t);
        if y != x {
          var k :| 0 <= k < |t| && t[k] == y;
          assert InOrder(key(s[0]), key(s[k + 1]), descending);
        }
      }
      ConsSorted(s[0], u, key, descending);
    }
  }

  /** The sort yields a permutation of its input in key order. */
  lemma {:induction false} SortByKeyCorrect<T>(s: seq<T>, key: T -> int, descending: bool)
    ensures multiset(SortByKey(s, key, descending)) == multiset(s)
    ensures SortedByKey(SortByKey(s, key, descending), key, descending)
  {
    if s != [] {
      SortByKeyCorrect(s[1..], key, descending);
      InsertByKeyCorrect(s[0], SortByKey(s[1..], key, descending), key, descending);
      assert s == [s[0]] + s[1..];
    }
  }

  /** A stable sort on a key that is the same for every element keeps the input order. */
  lemma {:induction false} SortByConstantKey<T>(s: seq<T>, key: T -> int, c: int, descending: bool)
    requires forall x :: key(x) == c
    ensures SortByKey(s, key, descending) == s
  {
    if s != [] {
      SortByConstantKey(s[1..], key, c, descending);
      assert s == [s[0]] + s[1..];
    }
  }

  // ---------------------------------------------------------------------------
  // Lookup by predicate (`findIndex`, `find`) and identity keys

  /** `s.findIndex(p)`: the first position whose element satisfies `p`, or -1. */
  function FirstIndex<T>(s: seq<T>, p: T -> bool): (k: int)
    ensures -1 <= k < |s|
    ensures k == -1 <==> forall j :: 0 <= j < |s| ==> !p(s[j])
    ensures 0 <= k ==> p(s[k]) && forall j :: 0 <= j < k ==> !p(s[j])
  {
    if s == [] then -1
    else if p(s[0]) then 0
    else
      var k := FirstIndex(s[1..], p);
      if k == -1 then -1 else k + 1
  }

  /** `s.find(p)`. */
  function Find<T>(s: seq<T>, p: T -> bool): (r: Option<T>)
    ensures r.None? <==> forall j :: 0 <= j < |s| ==> !p(s[j])
    ensures r.Some? ==> r.value == s[FirstIndex(s, p)]
  {
    var k := FirstIndex(s, p);
    if k == -1 then None else Some(s[k])
  }

  /** No two elements share a key. */
  predicate UniqueBy<T>(s: seq<T>, key: T -> int)
  {
    forall i, j :: 0 <= i < j < |s| ==> key(s[i]) != key(s[j])
  }

  /** `Math.max(0, ...s.map(key)) + 1`: the id the reducers give a new element. */
  function NextKey<T>(s: seq<T>, key: T -> int): (n: int)
    ensures n >= 1
    ensures forall i :: 0 <= i < |s| ==> key(s[i]) < n
  {
    var ks := Map(s, key);
    assert forall i :: 0 <= i < |s| ==> ks[i] in ks;
    MaxOrZero(ks) + 1
  }

  /** Appending an element whose key is fresh keeps the keys unique. */
  lemma UniqueByAppendFresh<T>(s: seq<T>, key: T -> int, x: T)
    requires UniqueBy(s, key)
    requires forall i :: 0 <= i < |s| ==> key(s[i]) != key(x)
    ensures UniqueBy(s + [x], key)
  {
    var t := s + [x];
    forall i, j | 0 <= i < j < |t| ensures key(t[i]) != key(t[j]) {
      if j < |s| { assert t[i] == s[i] && t[j] == s[j]; } else { assert t[i] == s[i] && t[j] == x; }
    }
  }

  /** Filtering keeps the keys unique. */
  lemma {:induction false} UniqueByFilter<T(!new)>(s: seq<T>, key: T -> int, p: T -> bool)
    requires UniqueBy(s, key)
    ensures UniqueBy(Filter(s, p), key)
  {
    if s != [] {
      var t := s[1..];
      assert UniqueBy(t, key) by {
        forall i, j | 0 <= i < j < |t| ensures key(t[i]) != key(t[j]) {
          assert t[i] == s[i + 1] && t[j] == s[j + 1];
        }
      }
      UniqueByFilter(t, key, p);
      if p(s[0]) {
        var f := Filter(t, p);
        var r := [s[0]] + f;
        forall i, j | 0 <= i < j < |r| ensures key(r[i]) != key(r[j]) {
          if i == 0 {
            assert r[j] == f[j - 1] && f[j - 1] in f;
            var k :| 0 <= k < |t| && t[k] == f[j - 1];
            assert s[k + 1] == t[k];
          } else {
            assert r[i] == f[i - 1] && r[j] == f[j - 1];
          }
        }
      }
    }
  }

  /** Replacing elements by ones with the same keys keeps the keys unique. */
  lemma UniqueBySameKeys<T>(s: seq<T>, t: seq<T>, key: T -> int)
    requires UniqueBy(s, key)
    requires |t| == |s| && forall i :: 0 <= i < |s| ==> key(t[i]) == key(s[i])
    ensures UniqueBy(t, key)
  {
  }

  /** `const i = s.findIndex(p); if (i !== -1) s[i] = f(s[i])`: only the first match changes. */
  function UpdateFirst<T>(s: seq<T>, p: T -> bool, f: T -> T): (r: seq<T>)
    ensures |r| == |s|
    ensures FirstIndex(s, p) == -1 ==> r == s
    ensures forall j :: 0 <= j < |s| ==> r[j] == if j == FirstIndex(s, p) then f(s[j]) else s[j]
  {
    var k := FirstIndex(s, p);
    if k == -1 then s else s[k := f(s[k])]
  }

  /** Updating twice is updating once when `f` is idempotent and keeps the element matching. */
  lemma UpdateFirstIdempotent<T>(s: seq<T>, p: T -> bool, f: T -> T)
    requires forall j :: 0 <= j < |s| && p(s[j]) ==> p(f(s[j])) && f(f(s[j])) == f(s[j])
    ensures UpdateFirst(UpdateFirst(s, p, f), p, f) == UpdateFirst(s, p, f)
  {
    var k := FirstIndex(s, p);
    var t := UpdateFirst(s, p, f);
    if k != -1 {
      assert t[k] == f(s[k]) && p(t[k]);
      assert forall j :: 0 <= j < k ==> t[j] == s[j];
      assert FirstIndex(t, p) == k;
    } else {
      assert t == s;
    }
  }

  /** Updating twice undoes the update when `f` is an involution that keeps the element matching. */
  lemma UpdateFirstInvolution<T>(s: seq<T>, p: T -> bool, f: T -> T)
    requires forall j :: 0 <= j < |s| && p(s[j]) ==> p(f(s[j])) && f(f(s[j])) == s[j]
    ensures UpdateFirst(UpdateFirst(s, p, f), p, f) == s
  {
    var k := FirstIndex(s, p);
    var t := UpdateFirst(s, p, f);
    if k != -1 {
      assert t[k] == f(s[k]) && p(t[k]);
      assert forall j :: 0 <= j < k ==> t[j] == s[j];
      assert FirstIndex(t, p) == k;
      assert UpdateFirst(t, p, f) == t[k := f(t[k])];
    } else {
      assert t == s;
    }
  }

  /** No two elements at different positions stand in relation `rel`. */
  predicate PairwiseFree<T>(s: seq<T>, rel: (T, T) -> bool)
  {
    forall i, j :: 0 <= i < |s| && 0 <= j < |s| && i != j ==> !rel(s[i], s[j])
  }

  /** Replacing one element by one unrelated to all the others keeps the sequence free. */
  lemma PairwiseFreeUpdate<T>(s: seq<T>, rel: (T, T) -> bool, k: int, v: T)
    requires PairwiseFree(s, rel) && 0 <= k < |s|
    requires forall j :: 0 <= j < |s| && j != k ==> !rel(v, s[j]) && !rel(s[j], v)
    ensures PairwiseFree(s[k := v], rel)
  {
  }

  /** Appending an element unrelated to all the others keeps the sequence free. */
  lemma PairwiseFreeAppend<T>(s: seq<T>, rel: (T, T) -> bool, x: T)
    requires PairwiseFree(s, rel)
    requires forall j :: 0 <= j < |s| ==> !rel(x, s[j]) && !rel(s[j], x)
    ensures PairwiseFree(s + [x], rel)
  {
    var t := s + [x];
    forall i, j | 0 <= i < |t| && 0 <= j < |t| && i != j ensures !rel(t[i], t[j]) {
      if i < |s| && j < |s| { assert t[i] == s[i] && t[j] == s[j]; }
      else if i < |s| { assert t[i] == s[i] && t[j] == x; }
      else { assert t[i] == x && t[j] == s[j]; }
    }
  }

  /** Filtering keeps the sequence free. */
  lemma {:induction false} PairwiseFreeFilter<T(!new)>(s: seq<T>, rel: (T, T) -> bool, p: T -> bool)
    requires PairwiseFree(s, rel)
    ensures PairwiseFree(Filter(s, p), rel)
  {
    if s != [] {
      var t := s[1..];
      assert PairwiseFree(t, rel) by {
        forall i, j | 0 <= i < |t| && 0 <= j < |t| && i != j ensures !rel(t[i], t[j]) {
          assert t[i] == s[i + 1] && t[j] == s[j + 1];
        }
      }
      PairwiseFreeFilter(t, rel, p);
      if p(s[0]) {
        var f := Filter(t, p);
        var r := [s[0]] + f;
        forall m | 0 <= m < |f| ensures !rel(s[0], f[m]) && !rel(f[m], s[0]) {
          assert f[m] in f;
          var k :| 0 <= k < |t| && t[k] == f[m];
          assert s[k + 1] == t[k];
        }
        forall i, j | 0 <= i < |r| && 0 <= j < |r| && i != j ensures !rel(r[i], r[j]) {
          if i == 0 { assert r[j] == f[j - 1]; }
          else if j == 0 { assert r[i] == f[i - 1]; }
          else { assert r[i] == f[i - 1] && r[j] == f[j - 1]; }
        }
      }
    }
  }
}
