/** Rebuilding a room's lists from the stores when the first subscriber arrives. */
module Hydration {
  import opened Collections
  import opened QueueTypes
  import opened Snapshot
  import opened ItemIndex
  import opened Claims
  import opened LiveSession
  import opened Agreement

  ghost predicate DistinctRowIds(rows: seq<Row>) {
    forall i, j :: 0 <= i < j < |rows| ==> rows[i].id != rows[j].id
  }

  /** Reading a session's rows gives each of them once. */
  lemma SessionRowsOk(items: OrderedMap<string, Row>, issued: set<string>, sid: string)
    requires ItemsOk(items, issued)
    ensures var rows := SessionRows(items, sid);
      && DistinctRowIds(rows)
      && (forall r :: r in rows ==> r.id in items.at && items.at[r.id] == r && r.sessionId == sid)
      && (forall id :: id in items.at && items.at[id].sessionId == sid ==> items.at[id] in rows)
  {
    var rows, mine := SessionRows(items, sid), Filter(items.Values(), OfSession(sid));
    FilterMembers(items.Values(), OfSession(sid));
    SortMembers(mine, RowOrder);
    LookupsDistinct(items.keys, items.at);
    FilterDistinct(items.Values(), OfSession(sid));
    SortDistinct(mine, RowOrder);
    forall i, j | 0 <= i < j < |rows| ensures rows[i].id != rows[j].id {
      assert rows[i] in rows && rows[j] in rows;
    }
  }

  /** The entries hydration adds to one side. */
  function Added(rows: seq<Row>, seen: set<string>, claims: seq<Claim>, pending: bool): map<string, ItemSummary> {
    if rows == [] then map[] else
      var m, r := Added(Init(rows), seen, claims, pending), Last(rows);
      if r.id in seen || !Side(pending, r.status) then m else m[r.id := RowCore(r, claims)]
  }

  lemma InitRows(rows: seq<Row>)
    requires rows != [] && DistinctRowIds(rows)
    ensures DistinctRowIds(Init(rows))
    ensures forall r :: r in rows <==> r in Init(rows) || r == Last(rows)
    ensures forall r :: r in Init(rows) ==> r.id != Last(rows).id
  {
    var h, l := Init(rows), Last(rows);
    assert rows == h + [l];
    forall r | r in h ensures r.id != l.id {
      var i :| 0 <= i < |h| && h[i] == r;
      assert rows[i] == r && rows[|rows| - 1] == l;
    }
  }

  lemma {:induction false} AddedEntries(rows: seq<Row>, seen: set<string>, claims: seq<Claim>, pending: bool)
    requires DistinctRowIds(rows)
    ensures var m := Added(rows, seen, claims, pending);
      && (forall r :: r in rows && r.id !in seen && Side(pending, r.status) ==>
          r.id in m && m[r.id] == RowCore(r, claims))
      && (forall id :: id in m ==> id !in seen && exists r :: r in rows && r.id == id && Side(pending, r.status))
  {
    if rows != [] {
      var h, l := Init(rows), Last(rows);
      InitRows(rows);
      AddedEntries(h, seen, claims, pending);
      var m, m' := Added(h, seen, claims, pending), Added(rows, seen, claims, pending);
      assert m' == if l.id in seen || !Side(pending, l.status) then m else m[l.id := RowCore(l, claims)];
      forall r | r in rows && r.id !in seen && Side(pending, r.status)
        ensures r.id in m' && m'[r.id] == RowCore(r, claims)
      {
        assert r == l || (r in h && r.id != l.id);
      }
      forall id | id in m' ensures id !in seen && exists r :: r in rows && r.id == id && Side(pending, r.status) {
        if id in m {
          var r :| r in h && r.id == id && Side(pending, r.status);
          assert r in rows;
        } else {
          assert l in rows && l.id == id;
        }
      }
    }
  }

  /** The loop adds exactly those entries to the two lists. */
  lemma {:induction false} HydrateListsShow(rows: seq<Row>, seen: set<string>, claims: seq<Claim>, sid: string,
                                            s: Snapshot,
                                            p: map<string, ItemSummary>, q: map<string, ItemSummary>)
    requires DistinctRowIds(rows) && Shows(s, p, q) && p.Keys <= seen && q.Keys <= seen
    requires forall r, c :: r in rows && c in claims && c.queueItemId == r.id ==> c.sessionId == sid
    ensures var (pending, queue) := HydrateLists(rows, seen, SessionClaims(claims, sid), s.pending, s.queue);
      && Lists(pending, CoreOf, p + Added(rows, seen, claims, true))
      && Lists(queue, CoreOf, q + Added(rows, seen, claims, false))
  {
    if rows == [] {
      assert p + map[] == p && q + map[] == q;
    } else {
      var h, r := Init(rows), Last(rows);
      HydrateListsShow(h, seen, claims, sid, s, p, q);
      var (pending, queue) := HydrateLists(h, seen, SessionClaims(claims, sid), s.pending, s.queue);
      if r.id !in seen {
        GroupingMatches(claims, sid, r.id);
        NewEntry(h, r, seen, claims, true);
        NewEntry(h, r, seen, claims, false);
        var item := ToSummary(r, Singers(claims, r.id));
        if Side(true, r.status) {
          ListsAppend(pending, CoreOf, p + Added(h, seen, claims, true), item);
          AddPut(p, Added(h, seen, claims, true), r.id, RowCore(r, claims));
        } else if Side(false, r.status) {
          ListsAppend(queue, CoreOf, q + Added(h, seen, claims, false), item);
          AddPut(q, Added(h, seen, claims, false), r.id, RowCore(r, claims));
        }
      }
    }
  }

  lemma AddPut<V>(m: map<string, V>, n: map<string, V>, k: string, v: V)
    ensures (m + n)[k := v] == m + n[k := v]
  {
  }

  lemma NewEntry(h: seq<Row>, r: Row, seen: set<string>, claims: seq<Claim>, pending: bool)
    requires DistinctRowIds(h + [r])
    ensures r.id !in Added(h, seen, claims, pending)
  {
    forall i | 0 <= i < |h| ensures h[i].id != r.id {
      assert (h + [r])[i] == h[i] && (h + [r])[|h|] == r;
    }
    forall i, j | 0 <= i < j < |h| ensures h[i].id != h[j].id {
      assert (h + [r])[i] == h[i] && (h + [r])[j] == h[j];
    }
    AddedEntries(h, seen, claims, pending);
  }

  /** What the room already shows is right, as far as it goes. */
  ghost predicate PresentAgrees(w: World) {
    && DistinctIds(w.snap.pending) && DistinctIds(w.snap.queue)
    && Within(Index(w.snap.pending, CoreOf), View(w.items.at, w.claims, w.sid, true))
    && Within(Index(w.snap.queue, CoreOf), View(w.items.at, w.claims, w.sid, false))
  }

  ghost predicate Within<V>(m: map<string, V>, v: map<string, V>) {
    forall id :: id in m ==> id in v && v[id] == m[id]
  }

  lemma SeenAreShown(s: Snapshot)
    requires DistinctIds(s.pending) && DistinctIds(s.queue)
    ensures SeenIds(s) == Index(s.pending, CoreOf).Keys + Index(s.queue, CoreOf).Keys
  {
    IndexKeys(s.pending, CoreOf);
    IndexKeys(s.queue, CoreOf);
  }

  lemma TwoPartsAreAll<V>(m: map<string, V>, n: map<string, V>, v: map<string, V>)
    requires Within(m, v) && Within(n, v) && v.Keys <= m.Keys + n.Keys
    ensures m + n == v
  {
  }

  /** An added entry is a row of that side, shown as the view shows it. */
  lemma AddedWithinView(items: OrderedMap<string, Row>, issued: set<string>, claims: seq<Claim>, sid: string,
                        seen: set<string>, pending: bool)
    requires ItemsOk(items, issued)
    ensures Within(Added(SessionRows(items, sid), seen, claims, pending), View(items.at, claims, sid, pending))
  {
    var rows := SessionRows(items, sid);
    SessionRowsOk(items, issued, sid);
    AddedEntries(rows, seen, claims, pending);
    var added, v := Added(rows, seen, claims, pending), View(items.at, claims, sid, pending);
    forall id | id in added ensures id in v && v[id] == added[id] {
      var r :| r in rows && r.id == id && Side(pending, r.status);
      assert OnSide(sid, pending)(r);
      assert v[id] == ShownWith(claims)(r);
    }
  }

  /** An entry of the view that was not seen is added. */
  lemma UnseenAreAdded(items: OrderedMap<string, Row>, issued: set<string>, claims: seq<Claim>, sid: string,
                       seen: set<string>, pending: bool)
    requires ItemsOk(items, issued)
    ensures View(items.at, claims, sid, pending).Keys <=
      seen + Added(SessionRows(items, sid), seen, claims, pending).Keys
  {
    var rows := SessionRows(items, sid);
    SessionRowsOk(items, issued, sid);
    AddedEntries(rows, seen, claims, pending);
    forall id | id in View(items.at, claims, sid, pending) && id !in seen
      ensures id in Added(rows, seen, claims, pending)
    {
      assert OnSide(sid, pending)(items.at[id]) && items.at[id] in rows;
    }
  }

  /** Present entries together with the added ones are the whole view. */
  lemma AddedCompletesView(w: World, pending: bool, m: map<string, ItemSummary>, other: map<string, ItemSummary>)
    requires StoreOk(w)
    requires Within(m, View(w.items.at, w.claims, w.sid, pending))
    requires Within(other, View(w.items.at, w.claims, w.sid, !pending))
    ensures m + Added(SessionRows(w.items, w.sid), m.Keys + other.Keys, w.claims, pending) ==
      View(w.items.at, w.claims, w.sid, pending)
  {
    var seen := m.Keys + other.Keys;
    AddedWithinView(w.items, w.issued, w.claims, w.sid, seen, pending);
    UnseenAreAdded(w.items, w.issued, w.claims, w.sid, seen, pending);
    SidesAreDisjoint(w.items.at, w.claims, w.sid);
    var v, v' := View(w.items.at, w.claims, w.sid, pending), View(w.items.at, w.claims, w.sid, !pending);
    assert other.Keys <= v'.Keys && v.Keys !! v'.Keys;
    TwoPartsAreAll(m, Added(SessionRows(w.items, w.sid), seen, w.claims, pending), v);
  }

  /** Hydrating a room whose present items already agree makes the agreement complete. */
  lemma HydrateEstablishes(w: World)
    requires StoreOk(w) && PresentAgrees(w)
    ensures Agrees(Hydrate(w))
  {
    var rows, seen := SessionRows(w.items, w.sid), SeenIds(w.snap);
    var p, q := Index(w.snap.pending, CoreOf), Index(w.snap.queue, CoreOf);
    SessionRowsOk(w.items, w.issued, w.sid);
    SeenAreShown(w.snap);
    HydrateListsShow(rows, seen, w.claims, w.sid, w.snap, p, q);
    AddedCompletesView(w, true, p, q);
    AddedCompletesView(w, false, q, p);
    assert q.Keys + p.Keys == seen;
  }

  lemma AgreementIsPresent(w: World)
    requires Agrees(w)
    ensures PresentAgrees(w)
  {
  }

  lemma {:induction false} HydrateListsGrow(rows: seq<Row>, seen: set<string>, sc: seq<Claim>, p0: seq<ItemSummary>,
                                            q0: seq<ItemSummary>)
    ensures var (p, q) := HydrateLists(rows, seen, sc, p0, q0);
      && (forall i :: i in p0 ==> i in p) && (forall i :: i in q0 ==> i in q)
      && (forall r :: r in rows && IsActive(r.status) && r.id !in seen ==>
            (exists i :: i in p && i.id == r.id) || (exists i :: i in q && i.id == r.id))
  {
    if rows != [] {
      var h, l := Init(rows), Last(rows);
      HydrateListsGrow(h, seen, sc, p0, q0);
      var (p', q') := HydrateLists(rows, seen, sc, p0, q0);
      var item := ToSummary(l, GroupedSingers(sc, l.id));
      assert l.id !in seen && IsActive(l.status) ==> (item in p' || item in q') && item.id == l.id;
    }
  }

  lemma {:induction false} HydrateListsIdle(rows: seq<Row>, seen: set<string>, sc: seq<Claim>, p0: seq<ItemSummary>,
                                            q0: seq<ItemSummary>)
    requires forall r :: r in rows && IsActive(r.status) ==> r.id in seen
    ensures HydrateLists(rows, seen, sc, p0, q0) == (p0, q0)
  {
    if rows != [] {
      HydrateListsIdle(Init(rows), seen, sc, p0, q0);
    }
  }

  /** Hydrating twice is hydrating once, whatever the room showed before. */
  lemma HydrateIdempotent(w: World)
    ensures Hydrate(Hydrate(w)) == Hydrate(w)
  {
    var rows, sc, w1 := SessionRows(w.items, w.sid), SessionClaims(w.claims, w.sid), Hydrate(w);
    HydrateListsGrow(rows, SeenIds(w.snap), sc, w.snap.pending, w.snap.queue);
    forall r | r in rows && IsActive(r.status) ensures r.id in SeenIds(w1.snap) {
      if r.id in SeenIds(w.snap) {
        var i :| (i in w.snap.pending || i in w.snap.queue) && i.id == r.id;
        assert i in w1.snap.pending || i in w1.snap.queue;
      }
    }
    HydrateListsIdle(rows, SeenIds(w1.snap), sc, w1.snap.pending, w1.snap.queue);
  }
}
