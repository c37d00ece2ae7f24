/** A list of queue items with distinct ids seen as a map from id to what matters about the item.
    Each list edit the snapshot makes is one map operation. */
module ItemIndex {
  import opened Collections
  import opened QueueTypes
  import opened Snapshot

  ghost predicate DistinctIds(list: seq<ItemSummary>) {
    forall i, j :: 0 <= i < j < |list| ==> list[i].id != list[j].id
  }

  function Index<V>(list: seq<ItemSummary>, f: ItemSummary -> V): map<string, V> {
    if list == [] then map[] else Index(Init(list), f)[Last(list).id := f(Last(list))]
  }

  /** `list` holds each key of `m` once, with the value `m` gives it. */
  ghost predicate Lists<V>(list: seq<ItemSummary>, f: ItemSummary -> V, m: map<string, V>) {
    DistinctIds(list) && Index(list, f) == m
  }

  lemma {:induction false} IndexKeys<V>(list: seq<ItemSummary>, f: ItemSummary -> V)
    ensures forall i :: 0 <= i < |list| ==> list[i].id in Index(list, f)
    ensures forall id :: id in Index(list, f) ==> exists i :: 0 <= i < |list| && list[i].id == id
  {
    if list != [] {
      var h := Init(list);
      IndexKeys(h, f);
      forall id | id in Index(list, f) ensures exists i :: 0 <= i < |list| && list[i].id == id {
        if id == Last(list).id {
          assert list[|list| - 1].id == id;
        } else {
          assert id in Index(h, f);
          var i :| 0 <= i < |h| && h[i].id == id;
          assert list[i].id == id;
        }
      }
    }
  }

  lemma {:induction false} IndexAt<V>(list: seq<ItemSummary>, f: ItemSummary -> V, k: nat)
    requires DistinctIds(list) && k < |list|
    ensures list[k].id in Index(list, f) && Index(list, f)[list[k].id] == f(list[k])
  {
    if k < |list| - 1 {
      IndexAt(Init(list), f, k);
      assert Init(list)[k] == list[k];
    }
  }

  /** Searching a list finds exactly the ids of its index. */
  lemma FindInIndex<V>(list: seq<ItemSummary>, f: ItemSummary -> V, id: string)
    requires DistinctIds(list)
    ensures var k := FindIndex(list, id);
      && (k >= 0 <==> id in Index(list, f))
      && (k >= 0 ==> Index(list, f)[id] == f(list[k]))
  {
    IndexKeys(list, f);
    var k := FindIndex(list, id);
    if k >= 0 {
      IndexAt(list, f, k);
    }
  }

  lemma ListsAppend<V>(list: seq<ItemSummary>, f: ItemSummary -> V, m: map<string, V>, x: ItemSummary)
    requires Lists(list, f, m) && x.id !in m
    ensures Lists(list + [x], f, m[x.id := f(x)])
  {
    IndexKeys(list, f);
    assert Init(list + [x]) == list;
  }

  lemma {:induction false} IndexConcatAbsent<V>(a: seq<ItemSummary>, x: ItemSummary, b: seq<ItemSummary>,
                                                f: ItemSummary -> V)
    requires DistinctIds(a + [x] + b)
    ensures Index(a + b, f) == Index(a + [x] + b, f) - {x.id}
  {
    if b == [] {
      assert a + b == a && a + [x] + b == a + [x] && Init(a + [x]) == a;
      IndexKeys(a, f);
      assert forall i :: 0 <= i < |a| ==> (a + [x] + b)[i] == a[i];
      assert (a + [x] + b)[|a|] == x;
      assert x.id !in Index(a, f);
    } else {
      var h, l := Init(b), Last(b);
      assert a + [x] + b == (a + [x] + h) + [l] && a + b == (a + h) + [l];
      assert Init(a + [x] + b) == a + [x] + h && Init(a + b) == a + h;
      IndexConcatAbsent(a, x, h, f);
      assert (a + [x] + b)[|a|] == x && (a + [x] + b)[|a| + |b|] == l;
    }
  }

  lemma ListsRemoveAt<V>(list: seq<ItemSummary>, f: ItemSummary -> V, m: map<string, V>, k: nat)
    requires Lists(list, f, m) && k < |list|
    ensures Lists(RemoveAt(list, k), f, m - {list[k].id})
  {
    assert list == list[..k] + [list[k]] + list[k + 1..];
    IndexConcatAbsent(list[..k], list[k], list[k + 1..], f);
  }

  lemma {:induction false} IndexUpdate<V>(list: seq<ItemSummary>, f: ItemSummary -> V, k: nat, y: ItemSummary)
    requires DistinctIds(list) && k < |list| && y.id == list[k].id
    ensures Index(list[k := y], f) == Index(list, f)[y.id := f(y)]
  {
    var h, l := Init(list), Last(list);
    if k == |list| - 1 {
      assert Init(list[k := y]) == h;
    } else {
      assert Init(list[k := y]) == h[k := y];
      assert h[k] == list[k];
      IndexUpdate(h, f, k, y);
      assert list[k].id != l.id;
    }
  }

  lemma ListsUpdate<V>(list: seq<ItemSummary>, f: ItemSummary -> V, m: map<string, V>, k: nat, y: ItemSummary)
    requires Lists(list, f, m) && k < |list| && y.id == list[k].id
    ensures Lists(list[k := y], f, m[y.id := f(y)])
  {
    IndexUpdate(list, f, k, y);
  }

  lemma RemoveIdSnoc(h: seq<ItemSummary>, l: ItemSummary, id: string)
    ensures RemoveId(h + [l], id) == if l.id != id then RemoveId(h, id) + [l] else RemoveId(h, id)
  {
    FilterSnoc(h, l, (i: ItemSummary) => i.id != id);
  }

  lemma IndexSnoc<V>(h: seq<ItemSummary>, l: ItemSummary, f: ItemSummary -> V)
    ensures Index(h + [l], f) == Index(h, f)[l.id := f(l)]
  {
    assert Init(h + [l]) == h;
  }

  lemma PutRemove<V>(m: map<string, V>, k: string, v: V, id: string)
    ensures m[k := v] - {id} == if k == id then m - {id} else (m - {id})[k := v]
  {
  }

  lemma {:induction false} IndexRemoveId<V>(list: seq<ItemSummary>, f: ItemSummary -> V, id: string)
    ensures Index(RemoveId(list, id), f) == Index(list, f) - {id}
  {
    if list != [] {
      var h, l := Init(list), Last(list);
      assert list == h + [l];
      IndexRemoveId(h, f, id);
      RemoveIdSnoc(h, l, id);
      IndexSnoc(h, l, f);
      IndexSnoc(RemoveId(h, id), l, f);
      PutRemove(Index(h, f), l.id, f(l), id);
    }
  }

  lemma {:induction false} DistinctRemoveId(list: seq<ItemSummary>, id: string)
    requires DistinctIds(list)
    ensures DistinctIds(RemoveId(list, id))
  {
    if list != [] {
      var h, l := Init(list), Last(list);
      assert list == h + [l];
      DistinctRemoveId(h, id);
      RemoveIdSnoc(h, l, id);
      var r := RemoveId(h, id);
      FilterMembers(h, (i: ItemSummary) => i.id != id);
      forall i | 0 <= i < |r| ensures r[i].id != l.id {
        assert r[i] in r;
        var j :| 0 <= j < |h| && h[j] == r[i];
        assert list[j] == h[j];
      }
    }
  }

  lemma ListsRemoveId<V>(list: seq<ItemSummary>, f: ItemSummary -> V, m: map<string, V>, id: string)
    requires Lists(list, f, m)
    ensures Lists(RemoveId(list, id), f, m - {id})
  {
    IndexRemoveId(list, f, id);
    DistinctRemoveId(list, id);
  }

  // ---------------------------------------------------------------- selections of the store

  /** The rows that pass `keep`, each under its key as `f` shows it. */
  function Select<V>(items: map<string, Row>, keep: Row -> bool, f: Row -> V): map<string, V> {
    map id | id in items && keep(items[id]) :: f(items[id])
  }

  /** Showing rows by another function that differs for one of them only. */
  lemma SelectEdit<V>(items: map<string, Row>, keep: Row -> bool, f: Row -> V, g: Row -> V, id: string)
    requires forall k :: k in items && k != id ==> g(items[k]) == f(items[k])
    ensures var v := Select(items, keep, f);
      Select(items, keep, g) == if id in v then v[id := g(items[id])] else v
  {
  }

  lemma SelectPut<V>(items: map<string, Row>, keep: Row -> bool, f: Row -> V, id: string, r: Row)
    ensures Select(items[id := r], keep, f) ==
      if keep(r) then Select(items, keep, f)[id := f(r)] else Select(items, keep, f) - {id}
  {
    var v, v' := Select(items, keep, f), Select(items[id := r], keep, f);
    if keep(r) {
      assert v'.Keys == v.Keys + {id};
    } else {
      assert v'.Keys == v.Keys - {id};
    }
  }

  lemma SelectRemove<V>(items: map<string, Row>, keep: Row -> bool, f: Row -> V, id: string)
    ensures Select(items - {id}, keep, f) == Select(items, keep, f) - {id}
  {
  }
}
