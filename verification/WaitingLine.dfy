/** The consecutive cap over runs of the live session: what every step does to the line of waiting
    requests, and exactly which steps keep everybody in it within the cap. */
module WaitingLine {
  import opened Collections
  import opened QueueTypes
  import opened LiveSession
  import opened Agreement
  import opened Hydration
  import opened LiveTheorems
  import opened Limits
  import opened Rights
  import opened Admission
  import Reconcile

  // ---------------------------------------------------------------- the line

  /** The session's waiting requests in request order. */
  function Line(w: World): seq<Row> {
    WaitingList(SessionRows(w.items, w.sid))
  }

  predicate WaitsIn(r: Row, sid: string) {
    r.sessionId == sid && IsWaiting(r.status)
  }

  predicate Waits(items: map<string, Row>, sid: string, id: string) {
    id in items && WaitsIn(items[id], sid)
  }

  predicate Precedes(a: Row, b: Row) {
    a.id != b.id && RequestOrder(a, b)
  }

  ghost predicate InOrder(rows: seq<Row>) {
    forall i, j :: 0 <= i < j < |rows| ==> Precedes(rows[i], rows[j])
  }

  /** `rows` are the waiting rows of the session, each once, in request order. */
  ghost predicate LineOf(rows: seq<Row>, items: map<string, Row>, sid: string) {
    && InOrder(rows)
    && (forall r :: r in rows ==> Waits(items, sid, r.id) && items[r.id] == r)
    && (forall id :: Waits(items, sid, id) ==> items[id] in rows)
  }

  lemma {:induction false} StringLeAntisymmetric(a: string, b: string)
    requires StringLe(a, b) && StringLe(b, a)
    ensures a == b
  {
    if a != [] {
      StringLeAntisymmetric(a[1..], b[1..]);
      assert a == [a[0]] + a[1..] && b == [b[0]] + b[1..];
    }
  }

  lemma OneWay(a: Row, b: Row)
    ensures !(Precedes(a, b) && Precedes(b, a))
  {
    if Precedes(a, b) && Precedes(b, a) {
      StringLeAntisymmetric(a.id, b.id);
      assert false;
    }
  }

  /** One way or the other. */
  lemma PrecedesTotal(a: Row, b: Row)
    requires a.id != b.id
    ensures Precedes(a, b) || Precedes(b, a)
  {
    RequestOrderIsTotalPreorder();
  }

  lemma PrecedesTransitive(a: Row, b: Row, c: Row)
    requires Precedes(a, b) && Precedes(b, c) && a.id != c.id
    ensures Precedes(a, c)
  {
    RequestOrderIsTotalPreorder();
  }

  lemma HasFirst(rows: seq<Row>)
    requires rows != []
    ensures rows[0] in rows
  {
  }

  /** The lines of two equal sets of rows are equal. */
  lemma {:induction false} LineUnique(a: seq<Row>, b: seq<Row>)
    requires InOrder(a) && InOrder(b) && (forall r :: r in a ==> r in b) && (forall r :: r in b ==> r in a)
    ensures a == b
    decreases |a|
  {
    if a == [] {
      if b != [] {
        HasFirst(b);
      }
    } else {
      assert Last(a) in b;
      SameLast(a, b);
      ShorterLine(a, b);
      ShorterLine(b, a);
      LineUnique(Init(a), Init(b));
      assert a == Init(a) + [Last(a)] && b == Init(b) + [Last(b)];
    }
  }

  lemma SameLast(a: seq<Row>, b: seq<Row>)
    requires a != [] && b != [] && InOrder(a) && InOrder(b) && Last(a) in b && Last(b) in a
    ensures Last(a) == Last(b)
  {
    var i :| 0 <= i < |b| && b[i] == Last(a);
    var j :| 0 <= j < |a| && a[j] == Last(b);
    if i < |b| - 1 && j < |a| - 1 {
      assert Precedes(b[i], b[|b| - 1]) && Precedes(a[j], a[|a| - 1]);
      OneWay(Last(a), Last(b));
    }
  }

  lemma ShorterLine(a: seq<Row>, b: seq<Row>)
    requires a != [] && b != [] && InOrder(a) && (forall r :: r in a ==> r in b) && Last(a) == Last(b)
    ensures InOrder(Init(a)) && forall r :: r in Init(a) ==> r in Init(b)
  {
    var h, g := Init(a), Init(b);
    assert b == g + [Last(b)];
    forall r | r in h ensures r in g {
      var i :| 0 <= i < |h| && h[i] == r;
      assert Precedes(a[i], a[|a| - 1]);
      assert a[i] in a && r != Last(b);
    }
  }

  /** Reading the waiting rows and sorting them gives the line. */
  lemma LineIsLine(w: World)
    requires ItemsOk(w.items, w.issued)
    ensures LineOf(Line(w), w.items.at, w.sid)
  {
    var rows := SessionRows(w.items, w.sid);
    SessionRowsOk(w.items, w.issued, w.sid);
    WaitingMembers(rows);
    DistinctRows(rows);
    SortedRows(rows, w.items.at);
    forall id | Waits(w.items.at, w.sid, id) ensures w.items.at[id] in Line(w) {
      assert w.items.at[id] in rows;
    }
  }

  lemma WaitingMembers(rows: seq<Row>)
    ensures forall r :: r in WaitingList(rows) <==> r in rows && WaitingRow(r)
  {
    FilterMembers(rows, WaitingRow);
    SortMembers(Filter(rows, WaitingRow), RequestOrder);
  }

  lemma SortedRows(rows: seq<Row>, items: map<string, Row>)
    requires Distinct(rows) && forall r :: r in rows ==> r.id in items && items[r.id] == r
    ensures InOrder(WaitingList(rows))
  {
    var waiting, line := Filter(rows, WaitingRow), WaitingList(rows);
    RequestOrderIsTotalPreorder();
    SortSorted(waiting, RequestOrder);
    FilterDistinct(rows, WaitingRow);
    SortDistinct(waiting, RequestOrder);
    FilterMembers(rows, WaitingRow);
    SortMembers(waiting, RequestOrder);
    forall i, j | 0 <= i < j < |line| ensures Precedes(line[i], line[j]) {
      assert line[i] in line && line[j] in line;
      assert RequestOrder(line[i], line[j]);
    }
  }

  lemma DistinctRows(rows: seq<Row>)
    requires DistinctRowIds(rows)
    ensures Distinct(rows)
  {
  }

  // ---------------------------------------------------------------- a row enters

  /** How many leading rows of the line come before `r`. */
  function Place(line: seq<Row>, r: Row): (n: nat)
    ensures n <= |line|
    ensures forall i :: 0 <= i < n ==> Precedes(line[i], r)
    ensures n < |line| ==> !Precedes(line[n], r)
  {
    if line == [] || !Precedes(line[0], r) then 0 else
      var n := Place(line[1..], r);
      assert forall i :: 0 < i <= n ==> line[i] == line[1..][i - 1];
      1 + n
  }

  function Entered(line: seq<Row>, r: Row): seq<Row> {
    line[..Place(line, r)] + [r] + line[Place(line, r)..]
  }

  lemma EnteredInOrder(line: seq<Row>, r: Row)
    requires InOrder(line) && forall x :: x in line ==> x.id != r.id
    ensures InOrder(Entered(line, r))
  {
    var n := Place(line, r);
    forall i | n <= i < |line| ensures Precedes(r, line[i]) {
      assert line[i] in line && line[n] in line;
      PrecedesTotal(line[n], r);
      if i > n {
        PrecedesTransitive(r, line[n], line[i]);
      }
    }
  }

  /** A row that comes to wait takes its place by creation time. */
  lemma LineAfterEntry(line: seq<Row>, line': seq<Row>, items: map<string, Row>, items': map<string, Row>, sid: string,
                       r: Row)
    requires LineOf(line, items, sid) && LineOf(line', items', sid)
    requires !Waits(items, sid, r.id) && WaitsIn(r, sid) && r.id in items' && items'[r.id] == r
    requires forall id :: id != r.id ==> Waits(items', sid, id) == Waits(items, sid, id)
    requires forall id :: id != r.id && Waits(items, sid, id) ==> items'[id] == items[id]
    ensures line' == Entered(line, r)
  {
    var n, entered := Place(line, r), Entered(line, r);
    EnteredInOrder(line, r);
    assert line == line[..n] + line[n..];
    assert forall x :: x in entered <==> x in line || x == r;
    forall x | x in line' ensures x in entered {
      assert Waits(items', sid, x.id);
    }
    forall x | x in entered ensures x in line' {
      assert Waits(items', sid, x.id) && items'[x.id] == x;
    }
    LineUnique(line', entered);
  }

  /** A row of `guestId` fits between `a` and `b`: the two runs it joins and itself are within the cap. */
  predicate FitsBetween(a: seq<Row>, b: seq<Row>, guestId: string, cap: int) {
    TrailingRun(a, guestId) + 1 + LeadingRun(b, guestId) <= cap
  }

  lemma EntryExact(a: seq<Row>, r: Row, b: seq<Row>, cap: int)
    requires RunsWithin(a + b, cap)
    ensures RunsWithin(a + [r] + b, cap) <==> FitsBetween(a, b, r.guestId, cap)
  {
    var w, k, g := a + [r] + b, |a|, r.guestId;
    var left, right := TrailingRun(a, g), LeadingRun(b, g);
    TrailingRunIsMaximal(a, g);
    LeadingRunIsMaximal(b, g);
    if left + 1 + right > cap {
      JoinedRun(a, r, b);
      assert SameGuest(w, k - left, k + 1 + right);
    } else {
      forall lo, hi | 0 <= lo < hi <= |w| && SameGuest(w, lo, hi) ensures hi - lo <= cap {
        if lo <= k < hi {
          RunThroughEntry(a, r, b, lo, hi);
        } else {
          RunBesideEntry(a, r, b, cap, lo, hi);
        }
      }
    }
  }

  lemma JoinedRun(a: seq<Row>, r: Row, b: seq<Row>)
    ensures var left, right := TrailingRun(a, r.guestId), LeadingRun(b, r.guestId);
      SameGuest(a + [r] + b, |a| - left, |a| + 1 + right)
  {
    var w, g := a + [r] + b, r.guestId;
    TrailingRunIsMaximal(a, g);
    LeadingRunIsMaximal(b, g);
    forall i | |a| - TrailingRun(a, g) <= i < |a| + 1 + LeadingRun(b, g) ensures w[i].guestId == g {
      if i < |a| {
        assert w[i] == a[i];
      } else if i > |a| {
        assert w[i] == b[i - |a| - 1];
      }
    }
  }

  lemma RunThroughEntry(a: seq<Row>, r: Row, b: seq<Row>, lo: nat, hi: nat)
    requires lo <= |a| < hi <= |a| + 1 + |b| && SameGuest(a + [r] + b, lo, hi)
    ensures hi - lo <= TrailingRun(a, r.guestId) + 1 + LeadingRun(b, r.guestId)
  {
    var w := a + [r] + b;
    RunReachesLeft(a, r, w, lo, hi);
    RunReachesRight(r, b, w, |a|, lo, hi);
  }

  lemma RunReachesLeft(a: seq<Row>, r: Row, w: seq<Row>, lo: nat, hi: nat)
    requires lo <= |a| < hi <= |w| && a <= w && w[|a|] == r && SameGuest(w, lo, hi)
    ensures lo >= |a| - TrailingRun(a, r.guestId)
  {
    var k, left := |a|, TrailingRun(a, r.guestId);
    TrailingRunIsMaximal(a, r.guestId);
    if left < k {
      assert w[k - left - 1] == a[k - left - 1];
      RunDoesNotMix(w, lo, hi, k - left - 1, k);
    }
  }

  lemma RunReachesRight(r: Row, b: seq<Row>, w: seq<Row>, k: nat, lo: nat, hi: nat)
    requires lo <= k < hi <= |w| && |w| == k + 1 + |b| && w[k + 1..] == b && w[k] == r && SameGuest(w, lo, hi)
    ensures hi <= k + 1 + LeadingRun(b, r.guestId)
  {
    var right := LeadingRun(b, r.guestId);
    LeadingRunIsMaximal(b, r.guestId);
    if right < |b| {
      assert w[k + 1 + right] == b[right];
      RunDoesNotMix(w, lo, hi, k + 1 + right, k);
    }
  }

  lemma RunBesideEntry(a: seq<Row>, r: Row, b: seq<Row>, cap: int, lo: nat, hi: nat)
    requires RunsWithin(a + b, cap) && lo < hi <= |a| + 1 + |b| && SameGuest(a + [r] + b, lo, hi)
    requires hi <= |a| || |a| < lo
    ensures hi - lo <= cap
  {
    var w, w' := a + b, a + [r] + b;
    if hi <= |a| {
      assert forall i :: lo <= i < hi ==> w[i] == w'[i];
      assert SameGuest(w, lo, hi);
    } else {
      assert forall i :: lo - 1 <= i < hi - 1 ==> w[i] == w'[i + 1];
      assert SameGuest(w, lo - 1, hi - 1);
    }
  }

  // ---------------------------------------------------------------- rows leave

  predicate SamePlace(a: Row, b: Row) {
    a.id == b.id && a.createdAt == b.createdAt && a.guestId == b.guestId
  }

  ghost predicate SameGuests(a: seq<Row>, b: seq<Row>) {
    |a| == |b| && forall i :: 0 <= i < |a| ==> a[i].guestId == b[i].guestId
  }

  lemma {:induction false} FilterInOrder(line: seq<Row>, p: Row -> bool)
    requires InOrder(line)
    ensures InOrder(Filter(line, p))
  {
    if line != [] {
      var h, l := Init(line), Last(line);
      FilterInOrder(h, p);
      FilterMembers(h, p);
      var f := Filter(h, p);
      forall i | 0 <= i < |f| ensures Precedes(f[i], l) {
        assert f[i] in h;
        var j :| 0 <= j < |h| && h[j] == f[i];
        assert line[j] == f[i] && Precedes(line[j], line[|line| - 1]);
      }
    }
  }

  /** The rows under the same ids in another store. */
  function Renewed(rows: seq<Row>, items: map<string, Row>): (now: seq<Row>)
    requires forall r :: r in rows ==> r.id in items
    ensures |now| == |rows| && forall i :: 0 <= i < |rows| ==> now[i] == items[rows[i].id]
  {
    seq(|rows|, i requires 0 <= i < |rows| => assert rows[i] in rows; items[rows[i].id])
  }

  lemma RenewedInOrder(rows: seq<Row>, items: map<string, Row>)
    requires InOrder(rows) && forall r :: r in rows ==> r.id in items && SamePlace(r, items[r.id])
    ensures InOrder(Renewed(rows, items)) && SameGuests(Renewed(rows, items), rows)
  {
    forall i | 0 <= i < |rows| ensures SamePlace(rows[i], items[rows[i].id]) {
      assert rows[i] in rows;
    }
    forall i, j | 0 <= i < j < |rows| ensures Precedes(items[rows[i].id], items[rows[j].id]) {
      assert Precedes(rows[i], rows[j]);
    }
  }

  lemma StayersWait(line: seq<Row>, items: map<string, Row>, items': map<string, Row>, sid: string, stays: Row -> bool)
    requires LineOf(line, items, sid)
    requires forall id :: Waits(items', sid, id) <==> Waits(items, sid, id) && stays(items[id])
    requires forall id :: Waits(items', sid, id) ==> SamePlace(items[id], items'[id])
    ensures var f := Filter(line, stays);
      && InOrder(f)
      && (forall r :: r in f ==> Waits(items', sid, r.id) && SamePlace(r, items'[r.id]))
      && (forall id :: Waits(items', sid, id) ==> items[id] in f)
  {
    FilterMembers(line, stays);
    FilterInOrder(line, stays);
  }

  /** When rows leave, and others change in what does not concern the order, the line is what stays. */
  lemma LineAfterLeaving(line: seq<Row>, line': seq<Row>, items: map<string, Row>, items': map<string, Row>,
                         sid: string, stays: Row -> bool)
    requires LineOf(line, items, sid) && LineOf(line', items', sid)
    requires forall id :: Waits(items', sid, id) <==> Waits(items, sid, id) && stays(items[id])
    requires forall id :: Waits(items', sid, id) ==> SamePlace(items[id], items'[id])
    ensures SameGuests(line', Filter(line, stays))
  {
    var f := Filter(line, stays);
    StayersWait(line, items, items', sid, stays);
    RenewedInOrder(f, items');
    var now := Renewed(f, items');
    forall r | r in line' ensures r in now {
      assert Waits(items', sid, r.id) && items[r.id] in f;
      var i :| 0 <= i < |f| && f[i] == items[r.id];
      assert now[i] == items'[f[i].id];
    }
    forall r | r in now ensures r in line' {
      var i :| 0 <= i < |now| && now[i] == r;
      assert f[i] in f && Waits(items', sid, f[i].id);
    }
    LineUnique(line', now);
  }

  lemma SameRuns(a: seq<Row>, b: seq<Row>, cap: int)
    requires SameGuests(a, b)
    ensures RunsWithin(a, cap) <==> RunsWithin(b, cap)
  {
    forall lo, hi | 0 <= lo < hi <= |b| ensures SameGuest(a, lo, hi) <==> SameGuest(b, lo, hi) {
    }
  }

  /** Whoever stays of the stretch is one guest's. */
  ghost predicate OneGuestStays(stretch: seq<Row>, stays: Row -> bool, guestId: string) {
    forall r :: r in stretch && stays(r) ==> r.guestId == guestId
  }

  /** In the line as it is: of every stretch where only one guest's rows stay, no more than the cap stay. */
  ghost predicate GapsFit(line: seq<Row>, stays: Row -> bool, cap: int) {
    forall lo, hi, guestId :: 0 <= lo < hi <= |line| && OneGuestStays(line[lo..hi], stays, guestId) ==>
      Filter(line[lo..hi], stays) == [] || |Filter(line[lo..hi], stays)| <= cap
  }

  /** Every prefix of what stays comes from a prefix of the line. */
  lemma {:induction false} PrefixOfFilter(line: seq<Row>, p: Row -> bool, n: nat) returns (k: nat)
    requires n <= |Filter(line, p)|
    ensures k <= |line| && Filter(line[..k], p) == Filter(line, p)[..n]
  {
    var f := Filter(line, p);
    if n == |f| {
      k := |line|;
      assert line[..k] == line && f[..n] == f;
    } else {
      var h := Init(line);
      assert Filter(h, p)[..n] == f[..n];
      k := PrefixOfFilter(h, p, n);
      assert h[..k] == line[..k];
    }
  }

  lemma StretchOfFilter(line: seq<Row>, p: Row -> bool, lo: nat, hi: nat)
    requires lo <= hi <= |line|
    ensures var f := Filter(line, p);
      var a, b := |Filter(line[..lo], p)|, |Filter(line[..hi], p)|;
      a <= b <= |f| && f[a..b] == Filter(line[lo..hi], p)
  {
    assert line[..hi] == line[..lo] + line[lo..hi] && line == line[..hi] + line[hi..];
    FilterConcat(line[..lo], line[lo..hi], p);
    FilterConcat(line[..hi], line[hi..], p);
  }

  lemma GapsDecide(line: seq<Row>, stays: Row -> bool, cap: int, lo: nat, hi: nat, guestId: string)
    requires RunsWithin(Filter(line, stays), cap) && lo < hi <= |line| && OneGuestStays(line[lo..hi], stays, guestId)
    ensures Filter(line[lo..hi], stays) == [] || |Filter(line[lo..hi], stays)| <= cap
  {
    var f, a, b := Filter(line, stays), |Filter(line[..lo], stays)|, |Filter(line[..hi], stays)|;
    StretchOfFilter(line, stays, lo, hi);
    FilterMembers(line[lo..hi], stays);
    if a < b {
      forall k | a <= k < b ensures f[k].guestId == guestId {
        assert f[a..b][k - a] == f[k] && f[k] in Filter(line[lo..hi], stays);
      }
      assert SameGuest(f, a, b);
    }
  }

  lemma RunHasGap(line: seq<Row>, stays: Row -> bool, cap: int, a: nat, b: nat)
    requires GapsFit(line, stays, cap) && a < b <= |Filter(line, stays)| && SameGuest(Filter(line, stays), a, b)
    ensures b - a <= cap
  {
    var f := Filter(line, stays);
    var lo, hi := StretchBehind(line, stays, a, b);
    OnlyRunStays(line[lo..hi], stays, f, a, b);
    FilterShrinks(line[lo..hi], stays);
    assert OneGuestStays(line[lo..hi], stays, f[a].guestId);
  }

  /** The stretch of the line that a stretch of what stays comes from. */
  lemma StretchBehind(line: seq<Row>, p: Row -> bool, a: nat, b: nat) returns (lo: nat, hi: nat)
    requires a <= b <= |Filter(line, p)|
    ensures lo <= hi <= |line| && Filter(line[lo..hi], p) == Filter(line, p)[a..b]
  {
    var f := Filter(line, p);
    hi := PrefixOfFilter(line, p, b);
    assert f[..b][..a] == f[..a];
    lo := PrefixOfFilter(line[..hi], p, a);
    assert line[..hi][..lo] == line[..lo];
    StretchOfFilter(line, p, lo, hi);
  }

  lemma OnlyRunStays(stretch: seq<Row>, stays: Row -> bool, f: seq<Row>, a: nat, b: nat)
    requires a < b <= |f| && SameGuest(f, a, b) && Filter(stretch, stays) == f[a..b]
    ensures OneGuestStays(stretch, stays, f[a].guestId)
  {
    FilterMembers(stretch, stays);
    forall r | r in stretch && stays(r) ensures r.guestId == f[a].guestId {
      assert r in f[a..b];
    }
  }

  /** What is left keeps everybody within the cap if and only if the gaps fit. */
  lemma DeparturesExact(line: seq<Row>, stays: Row -> bool, cap: int)
    ensures RunsWithin(Filter(line, stays), cap) <==> GapsFit(line, stays, cap)
  {
    if RunsWithin(Filter(line, stays), cap) {
      forall lo, hi, guestId | 0 <= lo < hi <= |line| && OneGuestStays(line[lo..hi], stays, guestId)
        ensures Filter(line[lo..hi], stays) == [] || |Filter(line[lo..hi], stays)| <= cap
      {
        GapsDecide(line, stays, cap, lo, hi, guestId);
      }
    }
    if GapsFit(line, stays, cap) {
      var f := Filter(line, stays);
      forall a, b | 0 <= a < b <= |f| && SameGuest(f, a, b) ensures b - a <= cap {
        RunHasGap(line, stays, cap, a, b);
      }
    }
  }

  // ---------------------------------------------------------------- the steps

  /** The row that comes to wait: that of a request that is admitted and not rolled back, and that of an
      item the host approves after it was rejected, played, or began to play. */
  function Enters(w: World, c: Command, now: int): Option<Row> {
    match c
    case CRequest(token, track, karaoke, env) =>
      (match AdmitRequest(w, token, track, karaoke, env.(now := now))
       case Err(_) => None
       case Ok((session, guestId, _)) =>
         if session.moderationEnabled || !env.push.PushRateLimited?
         then Some(NewRow(w.sid, session, guestId, track, env.(now := now))) else None)
    case CModerate(itemId, true, until) =>
      if itemId in w.items.at && w.items.at[itemId].sessionId == w.sid && !IsWaiting(w.items.at[itemId].status)
         && !ApprovalLimited(w, until)
      then Some(Decided(w.items.at[itemId], Approved, now)) else None
    case _ => None
  }

  function NotOverdue(v: Reconcile.View): Row -> bool {
    (r: Row) => !Overdue(r, v)
  }

  /** Does the waiting row stay where it is? It goes when it is rejected by the host or by votes, removed
      by its guest, or settled by a pass that finds it overdue. */
  function Stays(w: World, c: Command, now: int): Row -> bool {
    match c
    case CModerate(itemId, false, _) => (r: Row) => r.id != itemId
    case CRemoveOwn(itemId, token) => (r: Row) => !(r.id == itemId && SpeaksFor(w, token, r.guestId))
    case CVote(itemId, token) =>
      (r: Row) => !(r.id == itemId && AdmitVote(w, itemId, token).Ok? && w.dir.session.Some?
                    && AutoRejects(w.dir.session.value, r.skipVotes + 1))
    case CPoll(view, _) => NotOverdue(view.(now := now))
    case _ => (r: Row) => true
  }

  /** What the step does fits the line as it is before the step. */
  ghost predicate FitsInLine(w: World, c: Command, now: int, cap: int) {
    var line, r := Line(w), Enters(w, c, now);
    if r.Some? then FitsBetween(line[..Place(line, r.value)], line[Place(line, r.value)..], r.value.guestId, cap)
    else GapsFit(line, Stays(w, c, now), cap)
  }

  /** The rows after a step that brings nobody into the line. */
  ghost predicate OnlyLeaves(items: map<string, Row>, items': map<string, Row>, sid: string, stays: Row -> bool) {
    && (forall id :: Waits(items', sid, id) <==> Waits(items, sid, id) && stays(items[id]))
    && (forall id :: Waits(items', sid, id) ==> SamePlace(items[id], items'[id]))
  }

  /** The rows after a step that brings `r` into it. */
  ghost predicate OnlyEnters(items: map<string, Row>, items': map<string, Row>, sid: string, r: Row) {
    && !Waits(items, sid, r.id) && WaitsIn(r, sid) && r.id in items' && items'[r.id] == r
    && (forall id :: id != r.id ==> Waits(items', sid, id) == Waits(items, sid, id))
    && (forall id :: id != r.id && Waits(items, sid, id) ==> items'[id] == items[id])
  }

  lemma PutEnters(items: map<string, Row>, sid: string, r: Row)
    requires !Waits(items, sid, r.id) && WaitsIn(r, sid)
    ensures OnlyEnters(items, items[r.id := r], sid, r)
  {
  }

  lemma PutLeaves(items: map<string, Row>, sid: string, r: Row, stays: Row -> bool)
    requires r.id in items && SamePlace(items[r.id], r) && items[r.id].sessionId == r.sessionId
    requires WaitsIn(r, sid) <==> Waits(items, sid, r.id) && stays(items[r.id])
    requires forall id :: id != r.id && Waits(items, sid, id) ==> stays(items[id])
    ensures OnlyLeaves(items, items[r.id := r], sid, stays)
  {
  }

  lemma DeleteLeaves(items: map<string, Row>, sid: string, id: string, stays: Row -> bool)
    requires Waits(items, sid, id) ==> !stays(items[id])
    requires forall k :: k != id && Waits(items, sid, k) ==> stays(items[k])
    ensures OnlyLeaves(items, items - {id}, sid, stays)
  {
  }

  lemma NothingChanges(items: map<string, Row>, sid: string, stays: Row -> bool)
    requires forall id :: Waits(items, sid, id) ==> stays(items[id])
    ensures OnlyLeaves(items, items, sid, stays)
  {
  }

  lemma PlacedOutcome(w: World, row: Row, name: Option<string>, env: RequestEnv)
    ensures var r := PlaceRequest(w, row, name, env).1;
      if row.status.Pending? || !env.push.PushRateLimited? then r == Ok(row) else r.Err?
  {
  }

  lemma RequestOutcome(w: World, c: Command, now: int)
    requires c.CRequest?
    ensures var r := RequestTrack(w, c.token, c.track, c.karaoke, c.env.(now := now)).1;
      if Enters(w, c, now).Some? then r == Ok(Enters(w, c, now).value) else r.Err?
  {
    var env := c.env.(now := now);
    var admitted := AdmitRequest(w, c.token, c.track, c.karaoke, env);
    if admitted.Ok? {
      var (session, guestId, name) := admitted.value;
      PlacedOutcome(w, NewRow(w.sid, session, guestId, c.track, env), name, env);
    }
  }

  lemma RequestLine(w: World, c: Command, now: int)
    requires StoreOk(w) && Plausible(w, c, now) && c.CRequest?
    ensures var at, at', r := w.items.at, Step(w, c, now).items.at, Enters(w, c, now);
      if r.Some? then OnlyEnters(at, at', w.sid, r.value) else OnlyLeaves(at, at', w.sid, Stays(w, c, now))
  {
    var env, r := c.env.(now := now), Enters(w, c, now);
    assert Step(w, c, now).items == RequestTrack(w, c.token, c.track, c.karaoke, env).0.items;
    RequestAllOrNothing(w, c.token, c.track, c.karaoke, env);
    RequestOutcome(w, c, now);
    if r.Some? {
      PutEnters(w.items.at, w.sid, r.value);
    } else {
      NothingChanges(w.items.at, w.sid, Stays(w, c, now));
    }
  }

  lemma ModerateLine(w: World, itemId: string, approve: bool, until: Option<int>, now: int)
    requires StoreOk(w)
    ensures var c := CModerate(itemId, approve, until);
      var at, at', r := w.items.at, Step(w, c, now).items.at, Enters(w, c, now);
      if r.Some? then OnlyEnters(at, at', w.sid, r.value) else OnlyLeaves(at, at', w.sid, Stays(w, c, now))
  {
    var c, at, w' := CModerate(itemId, approve, until), w.items.at, Moderate(w, itemId, approve, now, until).0;
    assert Step(w, c, now).items == w'.items;
    if itemId in at && at[itemId].sessionId == w.sid && !(approve && ApprovalLimited(w, until)) {
      var row := Decided(at[itemId], if approve then Approved else Rejected, now);
      assert w'.items.at == at[row.id := row];
      if Enters(w, c, now).Some? {
        PutEnters(at, w.sid, row);
      } else {
        PutLeaves(at, w.sid, row, Stays(w, c, now));
      }
    } else {
      assert w'.items == w.items;
      NothingChanges(at, w.sid, Stays(w, c, now));
    }
  }

  lemma RemoveOwnLine(w: World, itemId: string, token: string, now: int)
    requires StoreOk(w)
    ensures var c := CRemoveOwn(itemId, token);
      OnlyLeaves(w.items.at, Step(w, c, now).items.at, w.sid, Stays(w, c, now))
  {
    var c, at, w' := CRemoveOwn(itemId, token), w.items.at, RemoveOwn(w, itemId, token, now).0;
    assert Step(w, c, now).items == w'.items;
    if itemId in at {
      RemoveOwnExactly(w, itemId, token, now, itemId);
    }
    if w'.items == w.items {
      NothingChanges(at, w.sid, Stays(w, c, now));
    } else {
      assert w' == DeleteRow(w, itemId, now);
      DeleteLeaves(at, w.sid, itemId, Stays(w, c, now));
    }
  }

  lemma VoteLine(w: World, itemId: string, token: string, now: int)
    requires StoreOk(w)
    ensures var c := CVote(itemId, token);
      OnlyLeaves(w.items.at, Step(w, c, now).items.at, w.sid, Stays(w, c, now))
  {
    var c, admitted := CVote(itemId, token), AdmitVote(w, itemId, token);
    assert Step(w, c, now).items == CastSkipVote(w, itemId, token, now).0.items;
    if admitted.Ok? {
      var (session, guestId, item) := admitted.value;
      VotedItems(w, session, guestId, item, now);
      var row := if AutoRejects(session, item.skipVotes + 1) then Decided(Voted(item), Rejected, now) else Voted(item);
      PutLeaves(w.items.at, w.sid, row, Stays(w, c, now));
    } else {
      NothingChanges(w.items.at, w.sid, Stays(w, c, now));
    }
  }

  lemma PassRowWaits(w: World, v: Reconcile.View, skipWorked: bool, id: string)
    requires StoreOk(w)
    ensures var at, at' := w.items.at, PassStore(w, v, skipWorked).at;
      && (Waits(at', w.sid, id) <==> Waits(at, w.sid, id) && !Overdue(at[id], v))
      && (Waits(at', w.sid, id) ==> at'[id] == at[id])
  {
    if id in w.items.at {
      PassKeepsRow(w, v, skipWorked, id);
      if w.items.at[id].sessionId == w.sid && IsActive(w.items.at[id].status) {
        PassSettlesOverdue(w, v, skipWorked, id);
      }
    }
  }

  lemma LeavesById(items: map<string, Row>, items': map<string, Row>, sid: string, v: Reconcile.View)
    requires forall id :: Waits(items', sid, id) <==> Waits(items, sid, id) && !Overdue(items[id], v)
    requires forall id :: Waits(items', sid, id) ==> Waits(items, sid, id) && items'[id] == items[id]
    ensures OnlyLeaves(items, items', sid, NotOverdue(v))
  {
  }

  lemma PassLine(w: World, v: Reconcile.View, skipWorked: bool)
    requires StoreOk(w)
    ensures OnlyLeaves(w.items.at, PassStore(w, v, skipWorked).at, w.sid, NotOverdue(v))
  {
    var at, at' := w.items.at, PassStore(w, v, skipWorked).at;
    forall id
      ensures Waits(at', w.sid, id) <==> Waits(at, w.sid, id) && !Overdue(at[id], v)
      ensures Waits(at', w.sid, id) ==> at'[id] == at[id]
    {
      PassRowWaits(w, v, skipWorked, id);
    }
    LeavesById(at, at', w.sid, v);
  }

  lemma PollLine(w: World, v: Reconcile.View, skipWorked: bool, now: int)
    requires StoreOk(w)
    ensures var c := CPoll(v, skipWorked);
      OnlyLeaves(w.items.at, Step(w, c, now).items.at, w.sid, Stays(w, c, now))
  {
    var c, u := CPoll(v, skipWorked), v.(now := now);
    assert Step(w, c, now).items == PassStore(w, u, skipWorked) by {
      PollStep(w, v, skipWorked, now);
    }
    assert Stays(w, c, now) == NotOverdue(u);
    PassLine(w, u, skipWorked);
  }

  lemma StepChangesLine(w: World, c: Command, now: int)
    requires StoreOk(w) && Plausible(w, c, now)
    ensures var at, at', r := w.items.at, Step(w, c, now).items.at, Enters(w, c, now);
      if r.Some? then OnlyEnters(at, at', w.sid, r.value) else OnlyLeaves(at, at', w.sid, Stays(w, c, now))
  {
    match c
    case CRequest(_, _, _, _) => RequestLine(w, c, now);
    case CModerate(itemId, approve, until) => ModerateLine(w, itemId, approve, until, now);
    case CRemoveOwn(itemId, token) => RemoveOwnLine(w, itemId, token, now);
    case CVote(itemId, token) => VoteLine(w, itemId, token, now);
    case CPoll(view, skipWorked) => PollLine(w, view, skipWorked, now);
    case _ =>
      OtherStepItems(w, c, now);
      NothingChanges(w.items.at, w.sid, Stays(w, c, now));
  }

  lemma EntryAtPlace(line: seq<Row>, r: Row, cap: int)
    requires RunsWithin(line, cap)
    ensures var n := Place(line, r);
      RunsWithin(Entered(line, r), cap) <==> FitsBetween(line[..n], line[n..], r.guestId, cap)
  {
    var n := Place(line, r);
    var a, b := line[..n], line[n..];
    assert a + b == line;
    EntryExact(a, r, b, cap);
  }

  lemma EntryDecides(line: seq<Row>, line': seq<Row>, items: map<string, Row>, items': map<string, Row>, sid: string,
                     r: Row, cap: int)
    requires LineOf(line, items, sid) && LineOf(line', items', sid) && OnlyEnters(items, items', sid, r)
    requires RunsWithin(line, cap)
    ensures var n := Place(line, r);
      RunsWithin(line', cap) <==> FitsBetween(line[..n], line[n..], r.guestId, cap)
  {
    LineAfterEntry(line, line', items, items', sid, r);
    EntryAtPlace(line, r, cap);
  }

  lemma LeavingDecides(line: seq<Row>, line': seq<Row>, items: map<string, Row>, items': map<string, Row>, sid: string,
                       stays: Row -> bool, cap: int)
    requires LineOf(line, items, sid) && LineOf(line', items', sid) && OnlyLeaves(items, items', sid, stays)
    ensures RunsWithin(line', cap) <==> GapsFit(line, stays, cap)
  {
    LineAfterLeaving(line, line', items, items', sid, stays);
    SameRuns(line', Filter(line, stays), cap);
    DeparturesExact(line, stays, cap);
  }

  /** From a line within the cap a step keeps it so if and only if what it does fits: a row that enters,
      at its place by creation time, together with the guest's runs on both sides; rows that leave, by
      the gaps they leave behind. */
  lemma StepLineExact(w: World, c: Command, now: int, cap: int)
    requires StoreOk(w) && Plausible(w, c, now) && RunsWithin(Line(w), cap)
    ensures RunsWithin(Line(Step(w, c, now)), cap) <==> FitsInLine(w, c, now, cap)
  {
    var w', line, r := Step(w, c, now), Line(w), Enters(w, c, now);
    StepStore(w, c, now);
    StepKeepsDirectory(w, c, now);
    LineIsLine(w);
    LineIsLine(w');
    StepChangesLine(w, c, now);
    if r.Some? {
      EntryDecides(line, Line(w'), w.items.at, w'.items.at, w.sid, r.value, cap);
    } else {
      LeavingDecides(line, Line(w'), w.items.at, w'.items.at, w.sid, Stays(w, c, now), cap);
    }
  }

  // ---------------------------------------------------------------- steps that always fit

  /** No row is from the future. */
  ghost predicate RowsPast(w: World) {
    forall id :: id in w.items.at ==> w.items.at[id].createdAt <= w.clock
  }

  lemma PassKeepsCreation(w: World, v: Reconcile.View, skipWorked: bool, id: string)
    requires ItemsOk(w.items, w.issued) && id in w.items.at
    ensures PassStore(w, v, skipWorked).at[id].createdAt == w.items.at[id].createdAt
  {
    PassKeepsRow(w, v, skipWorked, id);
  }

  lemma RequestCreation(w: World, c: Command, now: int, id: string)
    requires StoreOk(w) && Plausible(w, c, now) && c.CRequest? && id in Step(w, c, now).items.at
    ensures var at, at' := w.items.at, Step(w, c, now).items.at;
      if id in at then at'[id] == at[id] else at'[id].createdAt == now
  {
    var env := c.env.(now := now);
    assert Step(w, c, now).items == RequestTrack(w, c.token, c.track, c.karaoke, env).0.items;
    RequestItems(w, c.token, c.track, c.karaoke, env);
  }

  lemma ModerateCreation(w: World, itemId: string, approve: bool, until: Option<int>, now: int, id: string)
    requires StoreOk(w) && id in Step(w, CModerate(itemId, approve, until), now).items.at
    ensures id in w.items.at
    ensures Step(w, CModerate(itemId, approve, until), now).items.at[id].createdAt == w.items.at[id].createdAt
  {
    assert Step(w, CModerate(itemId, approve, until), now).items == Moderate(w, itemId, approve, now, until).0.items;
  }

  lemma RowCreation(w: World, c: Command, now: int, id: string)
    requires StoreOk(w) && Plausible(w, c, now) && id in Step(w, c, now).items.at
    ensures var at, at' := w.items.at, Step(w, c, now).items.at;
      if id in at then at'[id].createdAt == at[id].createdAt else at'[id].createdAt == now
  {
    match c
    case CRequest(_, _, _, _) => RequestCreation(w, c, now, id);
    case CModerate(itemId, approve, until) => ModerateCreation(w, itemId, approve, until, now, id);
    case CRemoveOwn(itemId, token) =>
      assert Step(w, c, now).items == RemoveOwn(w, itemId, token, now).0.items;
    case CVote(itemId, token) => VoteCreation(w, itemId, token, now, id);
    case CPoll(view, skipWorked) =>
      PollStep(w, view, skipWorked, now);
      PassKeepsCreation(w, view.(now := now), skipWorked, id);
    case _ => OtherStepItems(w, c, now);
  }

  lemma VoteCreation(w: World, itemId: string, token: string, now: int, id: string)
    requires StoreOk(w) && id in Step(w, CVote(itemId, token), now).items.at
    ensures id in w.items.at && Step(w, CVote(itemId, token), now).items.at[id].createdAt == w.items.at[id].createdAt
  {
    var admitted := AdmitVote(w, itemId, token);
    assert Step(w, CVote(itemId, token), now).items == CastSkipVote(w, itemId, token, now).0.items;
    if admitted.Ok? {
      var (session, guestId, item) := admitted.value;
      VotedItems(w, session, guestId, item, now);
    }
  }

  lemma StepKeepsRowsPast(w: World, c: Command, now: int)
    requires StoreOk(w) && Plausible(w, c, now) && RowsPast(w)
    ensures RowsPast(Step(w, c, now))
  {
    var w' := Step(w, c, now);
    assert w'.clock == now;
    forall id | id in w'.items.at ensures w'.items.at[id].createdAt <= now {
      RowCreation(w, c, now, id);
    }
  }

  /** The host's rule, for as long as the session row can be read. */
  ghost predicate FixedRunRule(dir: Directory, cap: int) {
    dir.session.Some? ==> dir.session.value.maxConsecutivePerGuest == Some(cap)
  }

  lemma EntersBelowCap(w: World, c: Command, now: int, cap: int)
    requires StoreOk(w) && c.CRequest? && Enters(w, c, now).Some? && FixedRunRule(w.dir, cap)
    ensures TrailingRun(Line(w), Enters(w, c, now).value.guestId) < cap
  {
    AdmittedExactly(w, c.token, c.track, c.karaoke, c.env.(now := now));
  }

  lemma LastFits(line: seq<Row>, r: Row, cap: int)
    requires (forall i :: 0 <= i < |line| ==> Precedes(line[i], r)) && TrailingRun(line, r.guestId) < cap
    ensures FitsBetween(line[..Place(line, r)], line[Place(line, r)..], r.guestId, cap)
  {
    assert Place(line, r) == |line|;
    assert line[..|line|] == line && line[|line|..] == [];
  }

  /** A request later than every row stored fits: it was checked against the run at the end of the line. */
  lemma NewestRequestFits(w: World, c: Command, now: int, cap: int)
    requires StoreOk(w) && Plausible(w, c, now) && RunsWithin(Line(w), cap) && c.CRequest?
    requires RowsPast(w) && w.clock < now && FixedRunRule(w.dir, cap)
    ensures FitsInLine(w, c, now, cap)
  {
    var line, r := Line(w), Enters(w, c, now);
    if r.Some? {
      LineIsLine(w);
      EntersBelowCap(w, c, now, cap);
      forall i | 0 <= i < |line| ensures Precedes(line[i], r.value) {
        assert line[i] in line;
      }
      LastFits(line, r.value, cap);
    } else {
      AllStay(line, Stays(w, c, now), cap);
    }
  }

  lemma AllStay(line: seq<Row>, stays: Row -> bool, cap: int)
    requires RunsWithin(line, cap) && forall r :: r in line ==> stays(r)
    ensures GapsFit(line, stays, cap)
  {
    FilterAll(line, stays);
    DeparturesExact(line, stays, cap);
  }

  /** A single row leaves: the runs on its two sides decide, if they are one guest's. */
  lemma OneDepartureExact(line: seq<Row>, stays: Row -> bool, k: nat, cap: int)
    requires RunsWithin(line, cap) && k < |line| && !stays(line[k])
    requires forall i :: 0 <= i < |line| && i != k ==> stays(line[i])
    ensures GapsFit(line, stays, cap) <==>
      (k == 0 || k == |line| - 1 || line[k - 1].guestId != line[k + 1].guestId
       || TrailingRun(line[..k], line[k - 1].guestId) + LeadingRun(line[k + 1..], line[k - 1].guestId) <= cap)
  {
    var a, b := line[..k], line[k + 1..];
    assert line == a + [line[k]] + b;
    FilterConcat(a + [line[k]], b, stays);
    FilterSnoc(a, line[k], stays);
    FilterAll(a, stays);
    FilterAll(b, stays);
    DeparturesExact(line, stays, cap);
    DepartureExact(line, k, cap);
  }

  /** Rows that leave from the front of the line always leave a line that fits. */
  lemma FrontDeparturesFit(line: seq<Row>, stays: Row -> bool, n: nat, cap: int)
    requires RunsWithin(line, cap) && n <= |line|
    requires (forall r :: r in line[..n] ==> !stays(r)) && (forall r :: r in line[n..] ==> stays(r))
    ensures GapsFit(line, stays, cap)
  {
    assert line == line[..n] + line[n..];
    FilterConcat(line[..n], line[n..], stays);
    FilterNone(line[..n], stays);
    FilterAll(line[n..], stays);
    assert [] + line[n..] == line[n..];
    RestWithin(line, n, cap);
    DeparturesExact(line, stays, cap);
  }

  lemma RestWithin(line: seq<Row>, n: nat, cap: int)
    requires RunsWithin(line, cap) && n <= |line|
    ensures RunsWithin(line[n..], cap)
  {
    var rest := line[n..];
    forall lo, hi | 0 <= lo < hi <= |rest| && SameGuest(rest, lo, hi) ensures hi - lo <= cap {
      assert forall k :: lo <= k < hi ==> line[n + k] == rest[k];
      assert SameGuest(line, n + lo, n + hi);
    }
  }

  // ---------------------------------------------------------------- runs

  /** A request later than anything before needs nothing but the rule; any other step fits the line. */
  ghost predicate Harmless(w: World, c: Command, now: int, cap: int) {
    if c.CRequest? && w.clock < now then FixedRunRule(w.dir, cap) else FitsInLine(w, c, now, cap)
  }

  ghost predicate AllHarmless(w: World, run: seq<Timed>, cap: int) {
    run == [] ||
    (AllHarmless(w, Init(run), cap) && Harmless(RunFrom(w, Init(run)), Last(run).c, Last(run).now, cap))
  }

  /** What the runs keep. */
  ghost predicate LineOk(w: World, cap: int) {
    StoreOk(w) && RowsPast(w) && RunsWithin(Line(w), cap)
  }

  lemma HarmlessKeepsLine(w: World, c: Command, now: int, cap: int)
    requires LineOk(w, cap) && Plausible(w, c, now) && Harmless(w, c, now, cap)
    ensures LineOk(Step(w, c, now), cap)
  {
    StepStore(w, c, now);
    StepKeepsRowsPast(w, c, now);
    if c.CRequest? && w.clock < now {
      NewestRequestFits(w, c, now, cap);
    }
    StepLineExact(w, c, now, cap);
  }

  /** Over every run of the live session whose requests come one after the other under a fixed rule, and
      whose other steps fit the line they find, nobody ever has more than the cap in a row. */
  lemma {:induction false} LineStaysWithinCap(w: World, run: seq<Timed>, cap: int)
    requires LineOk(w, cap) && PlausibleRun(w, run) && AllHarmless(w, run, cap)
    ensures LineOk(RunFrom(w, run), cap)
  {
    if run != [] {
      LineStaysWithinCap(w, Init(run), cap);
      HarmlessKeepsLine(RunFrom(w, Init(run)), Last(run).c, Last(run).now, cap);
    }
  }

  lemma FreshSessionLine(sid: string, dir: Directory, now: int, cascades: bool, cap: int)
    ensures LineOk(FreshSession(sid, dir, now, cascades), cap) && Line(FreshSession(sid, dir, now, cascades)) == []
  {
  }
}
