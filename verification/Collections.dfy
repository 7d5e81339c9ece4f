/** Small facts about sequences and sets that several modules share. */
module Collections {

  datatype Option<+T> = None | Some(value: T)

  ghost predicate NoDup<T(!new)>(s: seq<T>) {
    forall i, j :: 0 <= i < j < |s| ==> s[i] != s[j]
  }

  /** A duplicate-free sequence drawn from a finite set is no longer than the set. */
  lemma {:induction false} NoDupLength<T(!new)>(s: seq<T>, xs: set<T>)
    requires NoDup(s)
    requires forall x :: x in s ==> x in xs
    ensures |s| <= |xs|
  {
    if s != [] {
      var last := s[|s| - 1];
      var front := s[..|s| - 1];
      forall x | x in front ensures x in xs - {last} {
        var i :| 0 <= i < |front| && front[i] == x;
        assert s[i] == x;
      }
      NoDupLength(front, xs - {last});
    }
  }

  lemma {:induction false} SubsetSize<T>(a: set<T>, b: set<T>)
    requires a <= b
    ensures |a| <= |b|
  {
    assert |b| == |b - a| + |a| by { assert b == (b - a) + a; }
  }

  lemma {:induction false} AboveAll(ids: set<nat>) returns (id: nat)
    ensures forall i :: i in ids ==> i < id
    decreases ids
  {
    id := 0;
    if ids != {} {
      var i :| i in ids;
      var rest := AboveAll(ids - {i});
      id := i + rest + 1;
      forall j | j in ids ensures j < id {
        assert j == i || j in ids - {i};
      }
    }
  }

  // ---------------------------------------------------------------- flat maps and reordering

  function FlatMap<A, B>(f: A -> seq<B>, s: seq<A>): seq<B> {
    if s == [] then [] else FlatMap(f, s[..|s| - 1]) + f(s[|s| - 1])
  }

  lemma {:induction false} FlatMapConcat<A, B>(f: A -> seq<B>, a: seq<A>, b: seq<A>)
    ensures FlatMap(f, a + b) == FlatMap(f, a) + FlatMap(f, b)
  {
    if b == [] {
      assert a + b == a;
    } else {
      assert (a + b)[..|a + b| - 1] == a + b[..|b| - 1];
      FlatMapConcat(f, a, b[..|b| - 1]);
    }
  }

  lemma FlatMapOfOne<A, B>(f: A -> seq<B>, x: A)
    ensures FlatMap(f, [x]) == f(x)
  {
    assert [x][..0] == [];
  }

  lemma FlatMapAround<A, B>(f: A -> seq<B>, s: seq<A>, i: nat)
    requires i < |s|
    ensures FlatMap(f, s) == FlatMap(f, s[..i]) + f(s[i]) + FlatMap(f, s[i + 1..])
  {
    assert s == s[..i + 1] + s[i + 1..] && s[..i + 1][..i] == s[..i];
    FlatMapConcat(f, s[..i + 1], s[i + 1..]);
  }

  /** An element of b equal to the last one of a can be taken out of b. */
  lemma TakeOut<A>(a: seq<A>, b: seq<A>) returns (l: seq<A>, r: seq<A>)
    requires multiset(a) == multiset(b) && a != []
    ensures b == l + [a[|a| - 1]] + r
    ensures multiset(a[..|a| - 1]) == multiset(l + r)
  {
    var x, front := a[|a| - 1], a[..|a| - 1];
    assert a == front + [x];
    assert x in multiset(b);
    var i :| 0 <= i < |b| && b[i] == x;
    l, r := b[..i], b[i + 1..];
    assert b == l + [x] + r;
    assert multiset(b) == multiset(l + r) + multiset{x};
    assert multiset(a) == multiset(front) + multiset{x};
    assert multiset(front) == multiset(a) - multiset{x};
    assert multiset(l + r) == multiset(b) - multiset{x};
  }

  lemma FlatMapInsert<A, B>(f: A -> seq<B>, l: seq<A>, x: A, r: seq<A>)
    ensures multiset(FlatMap(f, l + [x] + r)) == multiset(FlatMap(f, l + r)) + multiset(f(x))
  {
    FlatMapConcat(f, l + [x], r);
    FlatMapConcat(f, l, r);
    assert (l + [x])[..|l|] == l;
  }

  lemma {:induction false} FlatMapReordered<A, B>(f: A -> seq<B>, a: seq<A>, b: seq<A>)
    requires multiset(a) == multiset(b)
    ensures multiset(FlatMap(f, a)) == multiset(FlatMap(f, b))
    decreases |a|
  {
    if a == [] {
      assert |multiset(a)| == 0 == |multiset(b)|;
    } else {
      var l, r := TakeOut(a, b);
      FlatMapReordered(f, a[..|a| - 1], l + r);
      FlatMapInsert(f, l, a[|a| - 1], r);
    }
  }

  // ---------------------------------------------------------------- sums over finite maps

  ghost function SumOf<K>(m: map<K, nat>): nat {
    if m == map[] then 0
    else
      var k :| k in m;
      m[k] + SumOf(m - {k})
  }

  /** Any key may be taken out first. */
  lemma {:induction false} SumSplit<K>(m: map<K, nat>, k: K)
    requires k in m
    ensures SumOf(m) == m[k] + SumOf(m - {k})
    decreases |m|
  {
    var j :| j in m && SumOf(m) == m[j] + SumOf(m - {j});
    if j != k {
      var a, b := m - {j}, m - {k};
      assert a - {k} == b - {j};
      SumSplit(a, k);
      SumSplit(b, j);
    }
  }

  lemma {:induction false} SumUpdate<K>(m: map<K, nat>, k: K, v: nat)
    ensures SumOf(m[k := v]) == v + SumOf(m) - (if k in m then m[k] else 0)
  {
    SumSplit(m[k := v], k);
    assert m[k := v] - {k} == m - {k};
    if k in m {
      SumSplit(m, k);
    } else {
      assert m - {k} == m;
    }
  }

  lemma {:induction false} SumBound<K>(m: map<K, nat>, bound: nat)
    requires forall k :: k in m ==> m[k] <= bound
    ensures SumOf(m) <= |m| * bound
    decreases |m|
  {
    if m != map[] {
      var k :| k in m && SumOf(m) == m[k] + SumOf(m - {k});
      DropKey(m, k);
      SumBound(m - {k}, bound);
      OneMore(|m - {k}|, bound);
    }
  }

  lemma DropKey<K, V>(m: map<K, V>, k: K)
    requires k in m
    ensures |m| == |m - {k}| + 1
  {
    assert (m - {k}).Keys == m.Keys - {k};
  }

  lemma OneMore(n: nat, bound: nat)
    ensures (n + 1) * bound == n * bound + bound
  {
  }
}
