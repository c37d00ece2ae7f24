/** Small sequence and map vocabulary shared by every component: optional and failing values,
    insertion-ordered maps (JavaScript's `Map`) and the stable sort of `Array.prototype.sort`. */
module Collections {

  datatype Option<+T> = None | Some(value: T)

  datatype Result<+T, +E> = Ok(value: T) | Err(error: E)

  // ---------------------------------------------------------------- sequences

  function Last<T>(s: seq<T>): T
    requires s != []
  {
    s[|s| - 1]
  }

  function Init<T>(s: seq<T>): seq<T>
    requires s != []
  {
    s[..|s| - 1]
  }

  /** A position as `slice` takes it: negative ones count from the end, all are clipped. */
  function Position(i: int, length: nat): (p: nat)
    ensures p <= length
    ensures 0 <= i <= length ==> p == i
  {
    if i > length then length else if i >= 0 then i else if length + i >= 0 then length + i else 0
  }

  /** `s.slice(from, to)`. */
  function Slice<T>(s: seq<T>, from: int, to: int): seq<T> {
    var lo, hi := Position(from, |s|), Position(to, |s|);
    if lo < hi then s[lo..hi] else []
  }

  ghost predicate Distinct<T>(s: seq<T>) {
    forall i, j :: 0 <= i < j < |s| ==> s[i] != s[j]
  }

  /** The test `x => x !== k`. */
  function Not<T(==)>(k: T): T -> bool {
    x => x != k
  }

  function Filter<T>(s: seq<T>, p: T -> bool): seq<T> {
    if s == [] then [] else Filter(Init(s), p) + (if p(Last(s)) then [Last(s)] else [])
  }

  lemma {:induction false} FilterMembers<T>(s: seq<T>, p: T -> bool)
    ensures forall x :: x in Filter(s, p) ==> x in s && p(x)
    ensures forall x :: x in s && p(x) ==> x in Filter(s, p)
  {
    if s != [] {
      FilterMembers(Init(s), p);
    }
  }

  lemma FilterSnoc<T>(s: seq<T>, x: T, p: T -> bool)
    ensures Filter(s + [x], p) == if p(x) then Filter(s, p) + [x] else Filter(s, p)
  {
    assert Init(s + [x]) == s;
    assert Filter(s, p) + [] == Filter(s, p);
  }

  lemma {:induction false} FilterConcat<T>(a: seq<T>, b: seq<T>, p: T -> bool)
    ensures Filter(a + b, p) == Filter(a, p) + Filter(b, p)
  {
    if b == [] {
      assert a + b == a;
    } else {
      assert Init(a + b) == a + Init(b);
      FilterConcat(a, Init(b), p);
    }
  }

  lemma {:induction false} FilterAll<T>(s: seq<T>, p: T -> bool)
    requires forall x :: x in s ==> p(x)
    ensures Filter(s, p) == s
  {
    if s != [] {
      FilterAll(Init(s), p);
    }
  }

  lemma {:induction false} FilterNone<T>(s: seq<T>, p: T -> bool)
    requires forall x :: x in s ==> !p(x)
    ensures Filter(s, p) == []
  {
    if s != [] {
      FilterNone(Init(s), p);
    }
  }

  /** Filtering twice is filtering by the conjunction, in either order. */
  lemma {:induction false} FilterFilter<T>(s: seq<T>, p: T -> bool, q: T -> bool)
    ensures Filter(Filter(s, p), q) == Filter(Filter(s, q), p)
  {
    if s != [] {
      FilterFilter(Init(s), p, q);
      var x := Last(s);
      FilterConcat(Filter(Init(s), p), if p(x) then [x] else [], q);
      FilterConcat(Filter(Init(s), q), if q(x) then [x] else [], p);
      assert Init([x]) == [];
    }
  }

  lemma {:induction false} FilterShrinks<T>(s: seq<T>, p: T -> bool)
    ensures |Filter(s, p)| <= |s|
  {
    if s != [] {
      FilterShrinks(Init(s), p);
    }
  }

  lemma SubsetCount<T>(a: set<T>, b: set<T>)
    requires a <= b
    ensures |a| <= |b|
  {
    assert b == a + (b - a);
  }

  /** A sequence without repetition has as many members as places. */
  lemma {:induction false} DistinctCount<T>(s: seq<T>)
    requires Distinct(s)
    ensures |set x | x in s| == |s|
  {
    if s != [] {
      var h, l := Init(s), Last(s);
      assert s == h + [l];
      assert Distinct(h) by {
        assert forall i :: 0 <= i < |h| ==> h[i] == s[i];
      }
      DistinctCount(h);
      assert l !in h;
      assert (set x | x in s) == (set x | x in h) + {l};
    }
  }

  // ---------------------------------------------------------------- insertion-ordered maps

  /** A JavaScript `Map`: `at` is the association, `keys` the iteration order. */
  datatype OrderedMap<!K(==), V> = OrderedMap(keys: seq<K>, at: map<K, V>) {

    ghost predicate Valid() {
      && Distinct(keys)
      && (forall k :: k in keys ==> k in at)
      && (forall k :: k in at ==> k in keys)
    }

    /** `map.set(k, v)`: an existing key keeps its place, a new key goes last. */
    function Put(k: K, v: V): OrderedMap<K, V> {
      OrderedMap(if k in at then keys else keys + [k], at[k := v])
    }

    /** `map.delete(k)`. */
    function Remove(k: K): OrderedMap<K, V> {
      OrderedMap(Filter(keys, Not(k)), at - {k})
    }

    /** `[...map.values()]`. */
    function Values(): seq<V> {
      Lookups(keys, at)
    }
  }

  function Lookups<K(==), V>(keys: seq<K>, at: map<K, V>): (r: seq<V>)
    ensures forall v :: v in r ==> exists k :: k in keys && k in at && at[k] == v
    ensures forall k :: k in keys && k in at ==> at[k] in r
  {
    if keys == [] then [] else
      var k := Last(keys);
      assert forall x :: x in keys ==> x in Init(keys) || x == k;
      Lookups(Init(keys), at) + (if k in at then [at[k]] else [])
  }

  function EmptyMap<K(==), V>(): OrderedMap<K, V> {
    OrderedMap([], map[])
  }

  lemma {:induction false} FilterDistinct<T>(s: seq<T>, p: T -> bool)
    requires Distinct(s)
    ensures Distinct(Filter(s, p))
  {
    if s != [] {
      FilterDistinct(Init(s), p);
      FilterMembers(Init(s), p);
      var r := Filter(Init(s), p);
      forall i | 0 <= i < |r| ensures r[i] != Last(s) {
        assert r[i] in r;
      }
      assert Filter(s, p) == r + (if p(Last(s)) then [Last(s)] else []);
    }
  }

  lemma PutValid<K, V>(m: OrderedMap<K, V>, k: K, v: V)
    requires m.Valid()
    ensures m.Put(k, v).Valid()
  {
    var m' := m.Put(k, v);
    forall i, j | 0 <= i < j < |m'.keys| ensures m'.keys[i] != m'.keys[j] {
      if k !in m.at {
        assert m'.keys[i] in m.keys;
      }
    }
  }

  lemma RemoveValid<K, V>(m: OrderedMap<K, V>, k: K)
    requires m.Valid()
    ensures m.Remove(k).Valid()
  {
    FilterMembers(m.keys, Not(k));
    FilterDistinct(m.keys, Not(k));
  }

  // ---------------------------------------------------------------- stable sort

  ghost predicate TotalPreorder<T(!new)>(le: (T, T) -> bool) {
    && (forall a, b :: le(a, b) || le(b, a))
    && (forall a, b, c :: le(a, b) && le(b, c) ==> le(a, c))
  }

  ghost predicate SortedBy<T>(s: seq<T>, le: (T, T) -> bool) {
    forall i, j :: 0 <= i < j < |s| ==> le(s[i], s[j])
  }

  /** Place `x` behind every element of a sorted sequence that does not come after it. */
  function Insert<T>(x: T, s: seq<T>, le: (T, T) -> bool): seq<T>
  {
    if s == [] then [x]
    else if le(Last(s), x) then s + [x]
    else Insert(x, Init(s), le) + [Last(s)]
  }

  /** `[...s].sort(cmp)`, where `le(a, b)` is `cmp(a, b) <= 0`. */
  function StableSort<T>(s: seq<T>, le: (T, T) -> bool): seq<T> {
    if s == [] then [] else Insert(Last(s), StableSort(Init(s), le), le)
  }

  lemma {:induction false} InsertMultiset<T>(x: T, s: seq<T>, le: (T, T) -> bool)
    ensures multiset(Insert(x, s, le)) == multiset(s) + multiset{x}
  {
    if s != [] && !le(Last(s), x) {
      InsertMultiset(x, Init(s), le);
      assert s == Init(s) + [Last(s)];
    }
  }

  lemma SameBag<T>(h: seq<T>, x: T, sorted: seq<T>, r: seq<T>)
    requires multiset(sorted) == multiset(h) && multiset(r) == multiset(sorted) + multiset{x}
    ensures multiset(r) == multiset(h + [x])
  {
  }

  lemma SortSnoc<T>(s: seq<T>, x: T, le: (T, T) -> bool)
    ensures StableSort(s + [x], le) == Insert(x, StableSort(s, le), le)
  {
    assert Init(s + [x]) == s;
  }

  lemma SortSnocBag<T>(h: seq<T>, x: T, le: (T, T) -> bool)
    requires multiset(StableSort(h, le)) == multiset(h)
    ensures multiset(StableSort(h + [x], le)) == multiset(h + [x])
  {
    SortSnoc(h, x, le);
    InsertMultiset(x, StableSort(h, le), le);
    SameBag(h, x, StableSort(h, le), Insert(x, StableSort(h, le), le));
  }

  /** The result is a rearrangement of the input. */
  lemma {:induction false} SortMultiset<T>(s: seq<T>, le: (T, T) -> bool)
    ensures multiset(StableSort(s, le)) == multiset(s)
  {
    if s != [] {
      assert s == Init(s) + [Last(s)];
      SortMultiset(Init(s), le);
      SortSnocBag(Init(s), Last(s), le);
    }
  }

  lemma SortMembers<T>(s: seq<T>, le: (T, T) -> bool)
    ensures |StableSort(s, le)| == |s|
    ensures forall x :: x in StableSort(s, le) ==> x in s
    ensures forall x :: x in s ==> x in StableSort(s, le)
  {
    SortMultiset(s, le);
    var r := StableSort(s, le);
    assert |r| == |multiset(r)| == |multiset(s)| == |s|;
    forall x | x in r ensures x in s {
      assert x in multiset(r);
    }
    forall x | x in s ensures x in r {
      assert x in multiset(s);
    }
  }

  lemma SortedBelow<T(!new)>(s: seq<T>, x: T, le: (T, T) -> bool)
    requires TotalPreorder(le) && SortedBy(s, le)
    requires s != [] && le(Last(s), x)
    ensures forall y :: y in s ==> le(y, x)
  {
    forall i | 0 <= i < |s| ensures le(s[i], x) {
      assert i == |s| - 1 || le(s[i], Last(s));
    }
  }

  lemma {:induction false} InsertSorted<T(!new)>(x: T, s: seq<T>, le: (T, T) -> bool)
    requires TotalPreorder(le) && SortedBy(s, le)
    ensures SortedBy(Insert(x, s, le), le)
  {
    if s != [] {
      if le(Last(s), x) {
        SortedBelow(s, x, le);
      } else {
        InsertSorted(x, Init(s), le);
        var r := Insert(x, Init(s), le);
        InsertMultiset(x, Init(s), le);
        forall i | 0 <= i < |r| ensures le(r[i], Last(s)) {
          assert r[i] in multiset(r);
          if r[i] != x {
            assert r[i] in Init(s);
          }
        }
      }
    }
  }

  /** The result is sorted. */
  lemma {:induction false} SortSorted<T(!new)>(s: seq<T>, le: (T, T) -> bool)
    requires TotalPreorder(le)
    ensures SortedBy(StableSort(s, le), le)
  {
    if s != [] {
      SortSorted(Init(s), le);
      InsertSorted(Last(s), StableSort(Init(s), le), le);
    }
  }

  lemma {:induction false} InsertFilter<T(!new)>(x: T, s: seq<T>, le: (T, T) -> bool, p: T -> bool)
    requires TotalPreorder(le) && SortedBy(s, le)
    ensures Filter(Insert(x, s, le), p) == if p(x) then Insert(x, Filter(s, p), le) else Filter(s, p)
  {
    if s == [] {
      FilterSnoc(s, x, p);
      assert s + [x] == [x];
    } else if le(Last(s), x) {
      SortedBelow(s, x, le);
      FilterSnoc(s, x, p);
      FilterMembers(s, p);
      var f := Filter(s, p);
      assert f != [] ==> Last(f) in f;
    } else {
      var h, l := Init(s), Last(s);
      assert s == h + [l];
      InsertFilter(x, h, le, p);
      FilterSnoc(h, l, p);
      FilterSnoc(Insert(x, h, le), l, p);
      assert Init(Filter(h, p) + [l]) == Filter(h, p);
    }
  }

  lemma {:induction false} InsertDistinct<T>(x: T, s: seq<T>, le: (T, T) -> bool)
    requires Distinct(s) && x !in s
    ensures Distinct(Insert(x, s, le))
  {
    if s != [] && !le(Last(s), x) {
      var h, l := Init(s), Last(s);
      InsertDistinct(x, h, le);
      InsertMultiset(x, h, le);
      var r := Insert(x, h, le);
      forall i | 0 <= i < |r| ensures r[i] != l {
        assert r[i] in multiset(r);
        assert r[i] == x || r[i] in h;
      }
    }
  }

  lemma {:induction false} SortDistinct<T>(s: seq<T>, le: (T, T) -> bool)
    requires Distinct(s)
    ensures Distinct(StableSort(s, le))
  {
    if s != [] {
      SortDistinct(Init(s), le);
      SortMembers(Init(s), le);
      InsertDistinct(Last(s), StableSort(Init(s), le), le);
    }
  }

  lemma {:induction false} LookupsDistinct<K, V>(keys: seq<K>, at: map<K, V>)
    requires Distinct(keys)
    requires forall j, k :: j in at && k in at && j != k ==> at[j] != at[k]
    ensures Distinct(Lookups(keys, at))
  {
    if keys != [] {
      var h, k := Init(keys), Last(keys);
      LookupsDistinct(h, at);
      var r := Lookups(h, at);
      forall i | 0 <= i < |r| && k in at ensures r[i] != at[k] {
        assert r[i] in r;
        var j :| j in h && j in at && at[j] == r[i];
      }
    }
  }

  /** Stability: sorting and then selecting is selecting and then sorting. With `p` selecting the
      elements that compare equal to a given one, they keep their input order. */
  lemma {:induction false} SortFilter<T(!new)>(s: seq<T>, le: (T, T) -> bool, p: T -> bool)
    requires TotalPreorder(le)
    ensures Filter(StableSort(s, le), p) == StableSort(Filter(s, p), le)
  {
    if s != [] {
      var h, x := Init(s), Last(s);
      assert s == h + [x];
      FilterSnoc(h, x, p);
      SortFilter(h, le, p);
      SortSorted(h, le);
      InsertFilter(x, StableSort(h, le), le, p);
      if p(x) {
        SortSnoc(Filter(h, p), x, le);
      }
    }
  }

  /** An element that nothing in `s` comes after stays last. */
  lemma SortAppend<T>(s: seq<T>, x: T, le: (T, T) -> bool)
    requires forall y :: y in s ==> le(y, x)
    ensures StableSort(s + [x], le) == StableSort(s, le) + [x]
  {
    assert Init(s + [x]) == s;
    SortMembers(s, le);
    var r := StableSort(s, le);
    if r != [] {
      assert Last(r) in r;
    }
  }

  /** A sorted sequence is left alone. */
  lemma {:induction false} SortOfSorted<T>(s: seq<T>, le: (T, T) -> bool)
    requires SortedBy(s, le)
    ensures StableSort(s, le) == s
  {
    if s != [] {
      SortOfSorted(Init(s), le);
      assert s == Init(s) + [Last(s)];
    }
  }
}
