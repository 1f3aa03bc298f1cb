/** Small sequence combinators shared by the model: the `filter`, `map`,
    `find`, `limit` and `orderBy` steps that the routes apply to table rows. */
module Seqs {
  import opened Wrappers

  /** Keeps the elements satisfying `p`, in their original order. */
  function Filter<T(!new)>(s: seq<T>, p: T -> bool): (r: seq<T>)
    ensures |r| <= |s|
    ensures forall x :: x in r <==> x in s && p(x)
    ensures multiset(r) <= multiset(s)
  {
    if s == [] then []
    else
      var init, last := s[..|s| - 1], s[|s| - 1];
      assert s == init + [last];
      if p(last) then Filter(init, p) + [last] else Filter(init, p)
  }

  /** Filtering distributes over concatenation: the filtered elements keep their order. */
  lemma {:induction false} FilterConcat<T(!new)>(a: seq<T>, b: seq<T>, p: T -> bool)
    ensures Filter(a + b, p) == Filter(a, p) + Filter(b, p)
    decreases |b|
  {
    if b == [] {
      assert a + b == a;
    } else {
      var b', last := b[..|b| - 1], b[|b| - 1];
      assert (a + b)[..|a + b| - 1] == a + b';
      assert (a + b)[|a + b| - 1] == last;
      FilterConcat(a, b', p);
    }
  }

  /** Filtering by a predicate that holds nowhere leaves nothing. */
  lemma FilterNone<T(!new)>(s: seq<T>, p: T -> bool)
    requires forall x :: x in s ==> !p(x)
    ensures Filter(s, p) == []
  {
  }

  /** Filtering by a predicate that holds everywhere changes nothing. */
  lemma {:induction false} FilterAll<T(!new)>(s: seq<T>, p: T -> bool)
    requires forall x :: x in s ==> p(x)
    ensures Filter(s, p) == s
  {
    if s != [] {
      var init, last := s[..|s| - 1], s[|s| - 1];
      assert last in s;
      forall x | x in init ensures p(x) { assert x in s; }
      FilterAll(init, p);
      assert Filter(s, p) == Filter(init, p) + [last];
      assert s == init + [last];
    }
  }

  /** A filter that keeps a single element. */
  lemma {:induction false} FilterSingleton<T(!new)>(x: T, p: T -> bool)
    ensures Filter([x], p) == if p(x) then [x] else []
  {
    assert [x][..0] == [];
  }

  /** Filters by predicates that agree on the elements give the same result. */
  lemma {:induction false} FilterExt<T(!new)>(s: seq<T>, p: T -> bool, q: T -> bool)
    requires forall x :: x in s ==> p(x) == q(x)
    ensures Filter(s, p) == Filter(s, q)
  {
    if s != [] {
      var init := s[..|s| - 1];
      assert s[|s| - 1] in s;
      forall x | x in init ensures p(x) == q(x) { assert x in s; }
      FilterExt(init, p, q);
    }
  }

  /** Filtering an appended element. */
  lemma FilterSnoc<T(!new)>(s: seq<T>, x: T, p: T -> bool)
    ensures Filter(s + [x], p) == if p(x) then Filter(s, p) + [x] else Filter(s, p)
  {
    assert (s + [x])[..|s|] == s;
  }

  /** Two disjoint filters that both imply a third select no more than the third does. */
  lemma {:induction false} DisjointFiltersBounded<T(!new)>(s: seq<T>, p: T -> bool, q: T -> bool, r: T -> bool)
    requires forall x :: x in s ==> !(p(x) && q(x))
    requires forall x :: x in s && (p(x) || q(x)) ==> r(x)
    ensures |Filter(s, p)| + |Filter(s, q)| <= |Filter(s, r)|
  {
    if s != [] {
      var init := s[..|s| - 1];
      assert s[|s| - 1] in s;
      forall x | x in init ensures !(p(x) && q(x)) && ((p(x) || q(x)) ==> r(x)) { assert x in s; }
      DisjointFiltersBounded(init, p, q, r);
    }
  }

  /** Applies `f` to every element (`Array.prototype.map`). */
  function Map<T, U>(s: seq<T>, f: T -> U): (r: seq<U>)
    ensures |r| == |s|
    ensures forall i :: 0 <= i < |s| ==> r[i] == f(s[i])
  {
    seq(|s|, i requires 0 <= i < |s| => f(s[i]))
  }

  /** The first element satisfying `p` (a query's `.get()`). */
  function FindFirst<T(!new)>(s: seq<T>, p: T -> bool): (r: Option<T>)
    ensures r.Some? ==> r.value in s && p(r.value)
    ensures r.None? <==> forall x :: x in s ==> !p(x)
  {
    if s == [] then None
    else if p(s[0]) then Some(s[0])
    else
      var r := FindFirst(s[1..], p);
      assert forall x :: x in s ==> x == s[0] || x in s[1..];
      r
  }

  /** At most `n` leading elements (a query's `.limit(n)`). */
  function Take<T>(s: seq<T>, n: nat): (r: seq<T>)
    ensures |r| <= n && |r| <= |s|
    ensures |s| <= n ==> r == s
    ensures r == s[..|r|]
  {
    if |s| <= n then s else s[..n]
  }

  /** `le` is total and transitive, so it can order any sequence. */
  ghost predicate TotalPreorder<T(!new)>(le: (T, T) -> bool)
  {
    && (forall a, b :: le(a, b) || le(b, a))
    && (forall a, b, c :: le(a, b) && le(b, c) ==> le(a, c))
  }

  ghost predicate Sorted<T>(s: seq<T>, le: (T, T) -> bool)
  {
    forall i, j :: 0 <= i < j < |s| ==> le(s[i], s[j])
  }

  function Insert<T(!new)>(x: T, s: seq<T>, le: (T, T) -> bool): (r: seq<T>)
    requires TotalPreorder(le) && Sorted(s, le)
    ensures multiset(r) == multiset(s) + multiset{x}
    ensures forall y :: y in r <==> y == x || y in s
    ensures Sorted(r, le)
  {
    if s == [] then [x]
    else if le(x, s[0]) then
      ConsSorted(x, s, le);
      [x] + s
    else
      var rest := Insert(x, s[1..], le);
      assert s == [s[0]] + s[1..];
      ConsSorted(s[0], rest, le);
      [s[0]] + rest
  }

  /** A sorted sequence stays sorted under a head that precedes all of it. */
  lemma ConsSorted<T(!new)>(a: T, s: seq<T>, le: (T, T) -> bool)
    requires TotalPreorder(le) && Sorted(s, le)
    requires |s| > 0 ==> le(a, s[0])
    ensures Sorted([a] + s, le)
  {
    if |s| > 0 {
      forall j | 0 <= j < |s| ensures le(a, s[j]) {
        assert le(s[0], s[j]) || j == 0;
      }
    }
  }

  /** Insertion sort: a sorted permutation of `s` (a query's `.orderBy(...)`). */
  function Sort<T(!new)>(s: seq<T>, le: (T, T) -> bool): (r: seq<T>)
    requires TotalPreorder(le)
    ensures multiset(r) == multiset(s) && |r| == |s|
    ensures Sorted(r, le)
  {
    if s == [] then []
    else
      assert s == [s[0]] + s[1..];
      Insert(s[0], Sort(s[1..], le), le)
  }

  /** The first `n` elements in `le` order (a query's `.orderBy(...).limit(n)`). */
  function Top<T(!new)>(s: seq<T>, le: (T, T) -> bool, n: nat): (r: seq<T>)
    requires TotalPreorder(le)
    ensures |r| == if |s| <= n then |s| else n
    ensures Sorted(r, le)
    ensures forall x :: x in r ==> x in s
    ensures multiset(r) <= multiset(s)
  {
    var sorted := Sort(s, le);
    var r := Take(sorted, n);
    assert sorted == r + sorted[|r|..];
    assert multiset(sorted) == multiset(r) + multiset(sorted[|r|..]);
    assert forall x :: x in r ==> x in multiset(sorted);
    r
  }

  /** The limit is the only loss: every element left out comes after every
      element kept, and below the limit nothing is left out. */
  lemma TopKeepsFirst<T(!new)>(s: seq<T>, le: (T, T) -> bool, n: nat)
    requires TotalPreorder(le)
    ensures forall x, y :: x in Top(s, le, n) && y in s && y !in Top(s, le, n) ==> le(x, y)
    ensures |s| <= n ==> multiset(Top(s, le, n)) == multiset(s)
  {
    var sorted := Sort(s, le);
    var r := Top(s, le, n);
    assert r == sorted[..|r|];
    forall x, y | x in r && y in s && y !in r ensures le(x, y) {
      assert y in multiset(sorted);
      var j :| 0 <= j < |sorted| && sorted[j] == y;
      var i :| 0 <= i < |r| && r[i] == x;
      assert sorted[i] == x;
    }
  }

  /** An element is left out only when all `n` places are taken. */
  lemma TopFullWhenLeftOut<T(!new)>(s: seq<T>, le: (T, T) -> bool, n: nat, y: T)
    requires TotalPreorder(le) && y in s && y !in Top(s, le, n)
    ensures |Top(s, le, n)| == n
  {
    TopKeepsFirst(s, le, n);
    assert y in multiset(s) && y !in multiset(Top(s, le, n));
  }

  /** Sorting an already sorted sequence leaves it as it is. */
  lemma {:induction false} SortOfSorted<T(!new)>(s: seq<T>, le: (T, T) -> bool)
    requires TotalPreorder(le) && Sorted(s, le)
    ensures Sort(s, le) == s
  {
    if s != [] {
      assert Sorted(s[1..], le);
      SortOfSorted(s[1..], le);
      assert s == [s[0]] + s[1..];
      if |s| > 1 {
        assert le(s[0], s[1..][0]);
      }
    }
  }

  /** A filtered sorted sequence is still sorted. */
  lemma {:induction false} FilterSorted<T(!new)>(s: seq<T>, le: (T, T) -> bool, p: T -> bool)
    requires Sorted(s, le)
    ensures Sorted(Filter(s, p), le)
  {
    if s != [] {
      var init, last := s[..|s| - 1], s[|s| - 1];
      FilterSorted(init, le, p);
      var f := Filter(init, p);
      forall k | 0 <= k < |f| ensures le(f[k], last) {
        assert f[k] in init;
        var i :| 0 <= i < |init| && init[i] == f[k];
      }
    }
  }

  /** Every prefix of a sorted sequence is sorted. */
  lemma SortedPrefix<T>(s: seq<T>, n: nat, le: (T, T) -> bool)
    requires Sorted(s, le) && n <= |s|
    ensures Sorted(s[..n], le)
  {
  }
}
