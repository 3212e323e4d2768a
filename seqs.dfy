/** Sequence operations the handlers are built from: the database's
    `.filter(...).collect()` (a `Filter` over a table in its stored order),
    `Array.prototype.map`, and `Array.prototype.sort` with a comparator of
    the form `(a, b) => key(b) - key(a)`, which sorts by `key` from largest
    to smallest and, since ECMAScript 2019, is stable. */
module Seqs {

  /** The elements of `s` that satisfy `keep`, in their order in `s`. */
  function Filter<T>(s: seq<T>, keep: T -> bool): (r: seq<T>)
    ensures |r| <= |s|
    ensures forall x :: x in r ==> x in s && keep(x)
  {
    if s == [] then []
    else
      var init, last := s[..|s| - 1], s[|s| - 1];
      assert s == init + [last];
      Filter(init, keep) + (if keep(last) then [last] else [])
  }

  /** The indices of `s` whose element satisfies `keep`: an independent
      count of the matches. */
  function Positions<T>(s: seq<T>, keep: T -> bool): set<int>
  {
    set i | 0 <= i < |s| && keep(s[i])
  }

  /** Some member of a non-empty set. */
  lemma Pick<T>(p: set<T>) returns (x: T)
    requires p != {}
    ensures x in p
  {
    x :| x in p;
  }

  /** A set of indices has two or more members exactly when it holds two
      different ones. */
  lemma AtLeastTwo(p: set<int>)
    ensures |p| >= 2 <==> exists i, j :: i in p && j in p && i < j
  {
    if |p| >= 2 {
      var a := Pick(p);
      assert |p - {a}| == |p| - 1;
      var b := Pick(p - {a});
      if a < b {
        assert a in p && b in p && a < b;
      } else {
        assert b in p && a in p && b < a;
      }
    }
    if exists i, j :: i in p && j in p && i < j {
      var i, j :| i in p && j in p && i < j;
      assert |p - {i}| == |p| - 1;
      assert j in p - {i};
    }
  }

  /** `f` applied to every element, in order (`Array.prototype.map`). */
  function Map<A, B>(s: seq<A>, f: A -> B): (r: seq<B>)
    ensures |r| == |s|
    ensures forall i :: 0 <= i < |s| ==> r[i] == f(s[i])
  {
    seq(|s|, i requires 0 <= i < |s| => f(s[i]))
  }

  /** Largest key first. */
  predicate SortedDesc<T>(s: seq<T>, key: T -> int)
  {
    forall i, j :: 0 <= i < j < |s| ==> key(s[i]) >= key(s[j])
  }

  /** The selector for elements whose key is `k`. */
  function HasKey<T>(key: T -> int, k: int): T -> bool
  {
    x => key(x) == k
  }

  /** Inserts `x` in front of the first element whose key is not larger. */
  function InsertDesc<T>(x: T, s: seq<T>, key: T -> int): (r: seq<T>)
    ensures multiset(r) == multiset(s) + multiset{x}
    ensures |r| == |s| + 1 && (r[0] == x || (s != [] && r[0] == s[0]))
  {
    if s == [] || key(x) >= key(s[0]) then [x] + s
    else
      assert s == [s[0]] + s[1..];
      [s[0]] + InsertDesc(x, s[1..], key)
  }

  /** Inserting into a sorted sequence keeps it sorted. */
  lemma {:induction false} InsertDescSorted<T>(x: T, s: seq<T>, key: T -> int)
    requires SortedDesc(s, key)
    ensures SortedDesc(InsertDesc(x, s, key), key)
  {
    if s != [] && key(x) < key(s[0]) {
      var tail := InsertDesc(x, s[1..], key);
      InsertDescSorted(x, s[1..], key);
      assert key(tail[0]) <= key(s[0]);
      assert forall i :: 0 < i < |tail| ==> key(tail[i]) <= key(tail[0]);
    }
  }

  /** Stable sort by `key`, largest first. */
  function SortDesc<T>(s: seq<T>, key: T -> int): (r: seq<T>)
    ensures multiset(r) == multiset(s)
    ensures SortedDesc(r, key)
  {
    if s == [] then []
    else
      assert s == [s[0]] + s[1..];
      InsertDescSorted(s[0], SortDesc(s[1..], key), key);
      InsertDesc(s[0], SortDesc(s[1..], key), key)
  }

  /** Filtering keeps every selected element with its multiplicity and
      drops every other one. */
  lemma {:induction false} FilterMultiset<T(!new)>(s: seq<T>, keep: T -> bool)
    ensures forall x :: multiset(Filter(s, keep))[x] == if keep(x) then multiset(s)[x] else 0
  {
    if s != [] {
      var init, last := s[..|s| - 1], s[|s| - 1];
      assert s == init + [last];
      FilterMultiset(init, keep);
    }
  }

  lemma {:induction false} FilterAppend<T>(a: seq<T>, b: seq<T>, keep: T -> bool)
    ensures Filter(a + b, keep) == Filter(a, keep) + Filter(b, keep)
  {
    if b == [] {
      assert a + b == a;
    } else {
      var init, last := b[..|b| - 1], b[|b| - 1];
      assert (a + b)[..|a + b| - 1] == a + init;
      assert (a + b)[|a + b| - 1] == last;
      FilterAppend(a, init, keep);
    }
  }

  /** The filtered sequence is as long as the set of matching indices. */
  lemma {:induction false} FilterLength<T>(s: seq<T>, keep: T -> bool)
    ensures |Filter(s, keep)| == |Positions(s, keep)|
  {
    if s != [] {
      var init, last := s[..|s| - 1], s[|s| - 1];
      FilterLength(init, keep);
      var before, after := Positions(init, keep), Positions(s, keep);
      assert forall i :: 0 <= i < |init| ==> init[i] == s[i];
      assert after - {|s| - 1} == before;
      if keep(last) {
        assert after == before + {|s| - 1};
      } else {
        assert after == before;
      }
    }
  }

  /** Two selectors that agree on every element of `s` filter it alike. */
  lemma {:induction false} FilterCongruent<T>(s: seq<T>, p: T -> bool, q: T -> bool)
    requires forall x :: x in s ==> p(x) == q(x)
    ensures Filter(s, p) == Filter(s, q)
  {
    if s != [] {
      var init := s[..|s| - 1];
      assert forall x :: x in init ==> x in s;
      FilterCongruent(init, p, q);
    }
  }

  lemma MapAppend<A, B>(a: seq<A>, b: seq<A>, f: A -> B)
    ensures Map(a + b, f) == Map(a, f) + Map(b, f)
  {
  }

  lemma MapFirst<A, B>(a: seq<A>, f: A -> B)
    requires a != []
    ensures Map(a, f) == [f(a[0])] + Map(a[1..], f)
  {
  }

  /** Mapping a sequence maps the element at `i` and the sequence without it. */
  lemma MapRemove<A, B>(b: seq<A>, i: nat, f: A -> B)
    requires i < |b|
    ensures multiset(Map(b, f)) == multiset(Map(b[..i] + b[i + 1..], f)) + multiset{f(b[i])}
  {
    var front, back := b[..i], b[i + 1..];
    assert b == front + [b[i]] + back;
    MapAppend(front + [b[i]], back, f);
    MapAppend(front, [b[i]], f);
    MapAppend(front, back, f);
  }

  lemma IndexOf<A>(b: seq<A>, x: A) returns (i: nat)
    requires x in multiset(b)
    ensures i < |b| && b[i] == x
  {
    i :| 0 <= i < |b| && b[i] == x;
  }

  /** Removing the same element from two permutations of each other leaves
      permutations of each other. */
  lemma RemoveMatching<A>(a: seq<A>, b: seq<A>, i: nat)
    requires multiset(a) == multiset(b)
    requires a != [] && i < |b| && b[i] == a[0]
    ensures multiset(a[1..]) == multiset(b[..i] + b[i + 1..])
  {
    assert a == [a[0]] + a[1..];
    assert b == b[..i] + [b[i]] + b[i + 1..];
    assert multiset(a[1..]) == multiset(a) - multiset{a[0]};
    assert multiset(b[..i] + b[i + 1..]) == multiset(b) - multiset{b[i]};
  }

  /** Applying `f` to two permutations of each other gives permutations of
      each other. */
  lemma {:induction false} MapPreservesMultiset<A, B>(a: seq<A>, b: seq<A>, f: A -> B)
    requires multiset(a) == multiset(b)
    ensures multiset(Map(a, f)) == multiset(Map(b, f))
  {
    if a == [] {
      assert |b| == |multiset(b)| == 0;
    } else {
      var i := IndexOf(b, a[0]);
      RemoveMatching(a, b, i);
      MapPreservesMultiset(a[1..], b[..i] + b[i + 1..], f);
      MapFirst(a, f);
      MapRemove(b, i, f);
    }
  }

  lemma SwapAroundEmpty<T>(a: seq<T>, b: seq<T>, c: seq<T>)
    requires a == [] || b == []
    ensures b + (a + c) == a + (b + c)
  {
  }

  lemma FilterSingleton<T>(x: T, keep: T -> bool)
    ensures Filter([x], keep) == if keep(x) then [x] else []
  {
    assert [x][..0] == [];
  }

  lemma {:induction false} InsertDescStable<T>(x: T, s: seq<T>, key: T -> int, k: int)
    ensures Filter(InsertDesc(x, s, key), HasKey(key, k))
         == Filter([x], HasKey(key, k)) + Filter(s, HasKey(key, k))
  {
    var keep := HasKey(key, k);
    if s == [] || key(x) >= key(s[0]) {
      FilterAppend([x], s, keep);
    } else {
      var head, rest := s[0], s[1..];
      var tail := InsertDesc(x, rest, key);
      assert InsertDesc(x, s, key) == [head] + tail;
      assert s == [head] + rest;
      FilterAppend([head], tail, keep);
      InsertDescStable(x, rest, key, k);
      FilterAppend([head], rest, keep);
      FilterSingleton(x, keep);
      FilterSingleton(head, keep);
      SwapAroundEmpty(Filter([x], keep), Filter([head], keep), Filter(rest, keep));
    }
  }

  /** Stability: among elements with equal keys, the sort keeps their order
      in the input. */
  lemma {:induction false} SortDescStable<T>(s: seq<T>, key: T -> int, k: int)
    ensures Filter(SortDesc(s, key), HasKey(key, k)) == Filter(s, HasKey(key, k))
  {
    if s != [] {
      SortDescStable(s[1..], key, k);
      InsertDescStable(s[0], SortDesc(s[1..], key), key, k);
      assert s == [s[0]] + s[1..];
      FilterAppend([s[0]], s[1..], HasKey(key, k));
    }
  }
}
