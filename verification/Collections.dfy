/** Finite-collection facts shared by the rest of the project. */
module Collections {

  datatype Option<+T> = None | Some(value: T)

  lemma SubsetSize<T>(small: set<T>, large: set<T>)
    requires small <= large
    ensures |small| <= |large|
  {
    assert large == small + (large - small);
  }

  lemma SubsetSizeStrict<T>(small: set<T>, large: set<T>)
    requires small < large
    ensures |small| < |large|
  {
    var x :| x in large && x !in small;
    SubsetSize(small, large - {x});
  }

  lemma PutSize<K, V>(m: map<K, V>, k: K, v: V)
    ensures |m[k := v]| == |m| + if k in m then 0 else 1
  {
    assert m[k := v].Keys == m.Keys + {k};
  }

  lemma DropSize<K, V>(m: map<K, V>, k: K)
    ensures |m - {k}| == |m| - if k in m then 1 else 0
  {
    assert (m - {k}).Keys == m.Keys - {k};
  }

  /** The keys a map takes to a value. */
  function Having<K, V(==)>(m: map<K, V>, v: V): set<K>
  {
    set k | k in m && m[k] == v
  }

  /** Moving one key between values moves one between their numbers. */
  lemma HavingPut<K, V>(m: map<K, V>, k: K, next: V, v: V)
    ensures |Having(m[k := next], v)| == |Having(m, v)|
            - (if k in m && m[k] == v then 1 else 0) + (if next == v then 1 else 0)
  {
    var before, after := Having(m, v), Having(m[k := next], v);
    if k in m && m[k] == v {
      assert k in before;
    }
    if next == v {
      assert after == (before - {k}) + {k};
    } else {
      assert after == before - {k};
    }
  }

  /** The sum of the values of a finite map. */
  ghost function Total<K(!new)>(m: map<K, nat>): nat
  {
    if m == map[] then 0 else
      var k :| k in m;
      m[k] + Total(m - {k})
  }

  lemma {:induction false} TotalWithout<K(!new)>(m: map<K, nat>, k: K)
    requires k in m
    ensures Total(m) == m[k] + Total(m - {k})
    decreases |m|
  {
    var j :| j in m && Total(m) == m[j] + Total(m - {j});
    if j != k {
      TotalWithout(m - {j}, k);
      TotalWithout(m - {k}, j);
      assert m - {j} - {k} == m - {k} - {j};
    }
  }

  lemma TotalPut<K(!new)>(m: map<K, nat>, k: K, v: nat)
    ensures Total(m[k := v]) == Total(m) - (if k in m then m[k] else 0) + v
  {
    TotalWithout(m[k := v], k);
    if k in m {
      TotalWithout(m, k);
      assert m[k := v] - {k} == m - {k};
    } else {
      assert m[k := v] - {k} == m;
    }
  }

  lemma {:induction false} TotalBound<K(!new)>(m: map<K, nat>, bound: nat)
    requires forall k :: k in m ==> m[k] <= bound
    ensures Total(m) <= |m| * bound
    decreases |m|
  {
    if m != map[] {
      var k :| k in m;
      var rest := m - {k};
      TotalWithout(m, k);
      assert rest.Keys == m.Keys - {k};
      assert |rest| == |m| - 1;
      TotalBound(rest, bound);
      Distribute(|m|, bound);
    }
  }

  lemma {:induction false} TotalAtLeast<K(!new)>(m: map<K, nat>, bound: nat)
    requires forall k :: k in m ==> m[k] >= bound
    ensures Total(m) >= |m| * bound
    decreases |m|
  {
    if m != map[] {
      var k :| k in m;
      var rest := m - {k};
      TotalWithout(m, k);
      assert rest.Keys == m.Keys - {k};
      assert |rest| == |m| - 1;
      TotalAtLeast(rest, bound);
      Distribute(|m|, bound);
    }
  }

  lemma Distribute(n: int, bound: int)
    ensures n * bound == (n - 1) * bound + bound
  {
  }

  ghost function Pick<T>(s: set<T>): (member: T)
    requires s != {}
    ensures member in s
  {
    var x :| x in s;
    x
  }

  ghost function MinOf(times: set<int>): (least: int)
    requires times != {}
    ensures least in times && forall t :: t in times ==> least <= t
    decreases |times|
  {
    var x := Pick(times);
    if times == {x} then x else
      var rest := MinOf(times - {x});
      assert forall t :: t in times ==> t == x || t in times - {x};
      if x < rest then x else rest
  }

  ghost function MaxOf(times: set<int>): (greatest: int)
    requires times != {}
    ensures greatest in times && forall t :: t in times ==> t <= greatest
    decreases |times|
  {
    var x := Pick(times);
    if times == {x} then x else
      var rest := MaxOf(times - {x});
      assert forall t :: t in times ==> t == x || t in times - {x};
      if x > rest then x else rest
  }
}
