/** Query filters and aggregates over ordered tables, modelled as sequences. */
module Seqs {

  /** `queryset.filter(p)`: the rows satisfying `p`, in the original order. */
  function Filter<T>(s: seq<T>, p: T -> bool): (r: seq<T>)
    ensures |r| <= |s|
    ensures forall i :: 0 <= i < |r| ==> r[i] in s && p(r[i])
    ensures forall i :: 0 <= i < |s| ==> (s[i] in r <==> p(s[i]))
  {
    if s == [] then []
    else if p(s[0]) then [s[0]] + Filter(s[1..], p)
    else Filter(s[1..], p)
  }

  /** `queryset.filter(p).count()`. */
  function Count<T>(s: seq<T>, p: T -> bool): nat
  {
    |Filter(s, p)|
  }

  /** The sum of `f` over the rows, 0 for no rows. */
  function Sum<T>(s: seq<T>, f: T -> real): real
  {
    if s == [] then 0.0 else f(s[0]) + Sum(s[1..], f)
  }

  /** Rows ordered by a key, largest first (`order_by('-key')`). */
  ghost predicate Descending<T>(s: seq<T>, key: T -> int)
  {
    forall i, j :: 0 <= i < j < |s| ==> key(s[i]) >= key(s[j])
  }

  lemma {:induction false} FilterAppend<T>(s: seq<T>, x: T, p: T -> bool)
    ensures Filter(s + [x], p) == Filter(s, p) + (if p(x) then [x] else [])
  {
    if s == [] {
      assert s + [x] == [x];
    } else {
      assert (s + [x])[1..] == s[1..] + [x];
      FilterAppend(s[1..], x, p);
    }
  }

  lemma {:induction false} SumAppend<T>(s: seq<T>, x: T, f: T -> real)
    ensures Sum(s + [x], f) == Sum(s, f) + f(x)
  {
    if s == [] {
      assert s + [x] == [x];
    } else {
      assert (s + [x])[1..] == s[1..] + [x];
      SumAppend(s[1..], x, f);
    }
  }

  /** Filtering keeps the order of an ordered table. */
  lemma {:induction false} FilterKeepsDescending<T>(s: seq<T>, p: T -> bool, key: T -> int)
    requires Descending(s, key)
    ensures Descending(Filter(s, p), key)
  {
    if s != [] {
      var tail := s[1..];
      var rest := Filter(tail, p);
      assert Descending(tail, key) by {
        forall i, j | 0 <= i < j < |tail| ensures key(tail[i]) >= key(tail[j]) {
          assert tail[i] == s[i + 1] && tail[j] == s[j + 1];
        }
      }
      FilterKeepsDescending(tail, p, key);
      if p(s[0]) {
        var r := [s[0]] + rest;
        forall i, j | 0 <= i < j < |r| ensures key(r[i]) >= key(r[j]) {
          var y := rest[j - 1];
          assert r[j] == y;
          assert y in tail;
          var k :| 0 <= k < |tail| && tail[k] == y;
          assert s[k + 1] == y;
          if i > 0 {
            assert r[i] == rest[i - 1];
          }
        }
        assert Filter(s, p) == r;
      } else {
        assert Filter(s, p) == rest;
      }
    }
  }

  /** A filter that accepts every row returns the table unchanged. */
  lemma {:induction false} FilterAll<T>(s: seq<T>, p: T -> bool)
    requires forall x :: x in s ==> p(x)
    ensures Filter(s, p) == s
  {
    if s != [] {
      FilterAll(s[1..], p);
    }
  }

  /** Two filters in a row select what their conjunction selects. */
  lemma {:induction false} FilterFilter<T>(s: seq<T>, p: T -> bool, q: T -> bool)
    ensures Filter(Filter(s, p), q) == Filter(s, x => p(x) && q(x))
  {
    if s != [] {
      FilterFilter(s[1..], p, q);
    }
  }

  /** Sums of two row functions that agree on every row are equal. */
  lemma {:induction false} SumCongruent<T>(s: seq<T>, f: T -> real, g: T -> real)
    requires forall i :: 0 <= i < |s| ==> f(s[i]) == g(s[i])
    ensures Sum(s, f) == Sum(s, g)
  {
    if s != [] {
      SumCongruent(s[1..], f, g);
    }
  }

  /** Puts `x` into a table ordered by `key`, largest first, ahead of the
      rows with an equal key. */
  function InsertDescending<T>(x: T, s: seq<T>, key: T -> int): (r: seq<T>)
    ensures |r| == |s| + 1
    ensures multiset(r) == multiset(s) + multiset{x}
    ensures forall y :: y in r ==> y == x || y in s
    ensures Descending(s, key) ==> Descending(r, key)
  {
    if s == [] || key(x) >= key(s[0]) then [x] + s
    else
      var rest := InsertDescending(x, s[1..], key);
      assert s == [s[0]] + s[1..];
      InsertDescendingStep(x, s, rest, key);
      [s[0]] + rest
  }

  /** Putting the first row back in front of the rest, with `x` inserted into
      it, keeps the order when `x` goes after the first row. */
  lemma InsertDescendingStep<T>(x: T, s: seq<T>, rest: seq<T>, key: T -> int)
    requires s != [] && key(x) < key(s[0])
    requires forall y :: y in rest ==> y == x || y in s[1..]
    requires Descending(s[1..], key) ==> Descending(rest, key)
    ensures Descending(s, key) ==> Descending([s[0]] + rest, key)
  {
    if Descending(s, key) {
      forall j | 0 <= j < |rest| ensures key(s[0]) >= key(rest[j]) {
        assert rest[j] in rest;
        if rest[j] != x {
          var k :| 0 <= k < |s[1..]| && s[1..][k] == rest[j];
          assert s[k + 1] == rest[j];
        }
      }
      assert Descending(s[1..], key);
    }
  }

  /** The table ordered by `key`, largest first (`order_by('-key')`). */
  function SortDescending<T>(s: seq<T>, key: T -> int): (r: seq<T>)
    ensures |r| == |s|
    ensures Descending(r, key)
    ensures multiset(r) == multiset(s)
  {
    if s == [] then []
    else
      assert s == [s[0]] + s[1..];
      InsertDescending(s[0], SortDescending(s[1..], key), key)
  }

  /** The first `n` rows of the sorted table are rows of the table, in order,
      and every row left out ranks no higher than any of them. */
  lemma SortedPrefixIsTop<T>(s: seq<T>, key: T -> int, n: nat)
    requires n <= |s|
    ensures |SortDescending(s, key)[..n]| == n
    ensures Descending(SortDescending(s, key)[..n], key)
    ensures forall i :: 0 <= i < n ==> SortDescending(s, key)[..n][i] in s
    ensures forall t :: t in s ==>
              t in SortDescending(s, key)[..n] || forall i :: 0 <= i < n ==> key(SortDescending(s, key)[..n][i]) >= key(t)
  {
    var sorted := SortDescending(s, key);
    var r := sorted[..n];
    forall i | 0 <= i < n ensures r[i] in s {
      assert r[i] == sorted[i];
      assert sorted[i] in multiset(sorted);
    }
    forall t | t in s ensures t in r || forall i :: 0 <= i < n ==> key(r[i]) >= key(t) {
      assert t in multiset(sorted);
      var j :| 0 <= j < |sorted| && sorted[j] == t;
      if j < n {
        assert r[j] == t;
      } else {
        forall i | 0 <= i < n ensures key(r[i]) >= key(t) {
          assert r[i] == sorted[i];
        }
      }
    }
  }

  /** The first `n` rows of the sorted table hold no row more often than
      the table. */
  lemma SortedPrefixFromTable<T>(s: seq<T>, key: T -> int, n: nat)
    requires n <= |s|
    ensures multiset(SortDescending(s, key)[..n]) <= multiset(s)
  {
    PrefixSubMultiset(SortDescending(s, key), n);
  }

  /** A prefix holds no row more often than the whole table. */
  lemma PrefixSubMultiset<T>(s: seq<T>, n: nat)
    requires n <= |s|
    ensures multiset(s[..n]) <= multiset(s)
  {
    assert s == s[..n] + s[n..];
  }

  /** The filter keeps every accepted row as often as the table holds it,
      and no other row. */
  lemma {:induction false} FilterMultiset<T>(s: seq<T>, p: T -> bool)
    ensures forall x :: multiset(Filter(s, p))[x] == if p(x) then multiset(s)[x] else 0
  {
    if s != [] {
      FilterMultiset(s[1..], p);
      assert s == [s[0]] + s[1..];
    }
  }

  /** A row the filter accepts is kept. */
  lemma FilterKeepsRow<T>(s: seq<T>, p: T -> bool, x: T)
    requires x in s && p(x)
    ensures x in Filter(s, p)
  {
    var i :| 0 <= i < |s| && s[i] == x;
  }

  /** `f` applied to every row, in order (a list comprehension). */
  function MapRows<A, B>(s: seq<A>, f: A -> B): (r: seq<B>)
    ensures |r| == |s|
    ensures forall i :: 0 <= i < |s| ==> r[i] == f(s[i])
  {
    if s == [] then [] else [f(s[0])] + MapRows(s[1..], f)
  }

  /** The lists `f` gives for the rows, joined in order. */
  function FlatMap<A, B>(s: seq<A>, f: A -> seq<B>): seq<B>
  {
    if s == [] then [] else FlatMap(s[..|s| - 1], f) + f(s[|s| - 1])
  }

  /** When every row gives exactly one item, the result holds those items,
      one per row, in order. */
  lemma {:induction false} FlatMapSingletons<A, B>(s: seq<A>, f: A -> seq<B>, g: A -> B)
    requires forall k :: 0 <= k < |s| ==> f(s[k]) == [g(s[k])]
    ensures |FlatMap(s, f)| == |s|
    ensures forall k :: 0 <= k < |s| ==> FlatMap(s, f)[k] == g(s[k])
  {
    if s != [] {
      var init := s[..|s| - 1];
      assert forall k :: 0 <= k < |init| ==> init[k] == s[k];
      FlatMapSingletons(init, f, g);
    }
  }

  /** Filters that agree on every row select the same rows. */
  lemma {:induction false} FilterSame<T>(s: seq<T>, p: T -> bool, q: T -> bool)
    requires forall i :: 0 <= i < |s| ==> p(s[i]) == q(s[i])
    ensures Filter(s, p) == Filter(s, q)
  {
    if s != [] {
      FilterSame(s[1..], p, q);
    }
  }
}
