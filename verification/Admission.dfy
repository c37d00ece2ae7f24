/** The pure gates in front of the queue: may a guest request another track, may a guest take a mic. */
module Admission {
  import opened Collections
  import opened QueueTypes

  // ---------------------------------------------------------------- request order

  /** JavaScript's `a <= b` on strings. */
  predicate StringLe(a: string, b: string) {
    a == [] || (b != [] && (a[0] < b[0] || (a[0] == b[0] && StringLe(a[1..], b[1..]))))
  }

  lemma {:induction false} StringLeTotal(a: string, b: string)
    ensures StringLe(a, b) || StringLe(b, a)
  {
    if a != [] && b != [] {
      StringLeTotal(a[1..], b[1..]);
    }
  }

  lemma {:induction false} StringLeTransitive(a: string, b: string, c: string)
    requires StringLe(a, b) && StringLe(b, c)
    ensures StringLe(a, c)
  {
    if a != [] && a[0] == b[0] == c[0] {
      StringLeTransitive(a[1..], b[1..], c[1..]);
    }
  }

  /** `compareByRequestOrder(a, b) <= 0`. */
  predicate RequestOrder(a: Row, b: Row) {
    a.createdAt < b.createdAt || (a.createdAt == b.createdAt && StringLe(a.id, b.id))
  }

  lemma RequestOrderIsTotalPreorder()
    ensures TotalPreorder(RequestOrder)
  {
    forall a, b ensures RequestOrder(a, b) || RequestOrder(b, a) {
      StringLeTotal(a.id, b.id);
    }
    forall a, b, c | RequestOrder(a, b) && RequestOrder(b, c) ensures RequestOrder(a, c) {
      if a.createdAt == b.createdAt == c.createdAt {
        StringLeTransitive(a.id, b.id, c.id);
      }
    }
  }

  // ---------------------------------------------------------------- consecutive cap

  predicate WaitingRow(r: Row) {
    IsWaiting(r.status)
  }

  /** The waiting list in request order. */
  function WaitingList(items: seq<Row>): seq<Row> {
    StableSort(Filter(items, WaitingRow), RequestOrder)
  }

  /** Would one more item for `guestId` exceed the cap? `None` is unlimited. */
  predicate EnforceConsecutiveCap(items: seq<Row>, guestId: string, cap: Option<int>) {
    if cap.None? then false else
      var waiting := WaitingList(items);
      if |waiting| < cap.value then false else
        var tail := if cap.value <= 0 then [] else waiting[|waiting| - cap.value..];
        forall item :: item in tail ==> item.guestId == guestId
  }

  /** How many items at the end of `w` belong to `guestId` without a break. */
  function TrailingRun(w: seq<Row>, guestId: string): (n: nat)
    ensures n <= |w|
  {
    if w == [] || Last(w).guestId != guestId then 0 else 1 + TrailingRun(Init(w), guestId)
  }

  lemma {:induction false} TrailingRunIsMaximal(w: seq<Row>, guestId: string)
    ensures var n := TrailingRun(w, guestId);
      && (forall k :: |w| - n <= k < |w| ==> w[k].guestId == guestId)
      && (n < |w| ==> w[|w| - n - 1].guestId != guestId)
  {
    if w != [] && Last(w).guestId == guestId {
      TrailingRunIsMaximal(Init(w), guestId);
    }
  }

  /** The slice-and-every test rejects exactly when the guest's trailing run has reached the cap,
      for every cap, including zero and negative ones. */
  lemma ConsecutiveCapExact(items: seq<Row>, guestId: string, cap: int)
    ensures EnforceConsecutiveCap(items, guestId, Some(cap)) <==> TrailingRun(WaitingList(items), guestId) >= cap
  {
    var w := WaitingList(items);
    TrailingRunIsMaximal(w, guestId);
    var n := TrailingRun(w, guestId);
    if 0 < cap <= |w| {
      var tail := w[|w| - cap..];
      if n >= cap {
        forall item | item in tail ensures item.guestId == guestId {
          var k :| 0 <= k < |tail| && tail[k] == item;
          assert item == w[|w| - cap + k];
        }
      } else {
        assert w[|w| - n - 1] == tail[cap - n - 1];
        assert w[|w| - n - 1] in tail;
      }
    }
  }

  /** No guest holds more than `cap` adjacent places in `w`. */
  ghost predicate RunsWithin(w: seq<Row>, cap: int) {
    forall lo, hi :: 0 <= lo < hi <= |w| && SameGuest(w, lo, hi) ==> hi - lo <= cap
  }

  ghost predicate SameGuest(w: seq<Row>, lo: int, hi: int)
    requires 0 <= lo < hi <= |w|
  {
    forall k :: lo <= k < hi ==> w[k].guestId == w[lo].guestId
  }

  lemma RunDoesNotMix(w: seq<Row>, lo: nat, hi: nat, p: nat, q: nat)
    requires lo < hi <= |w| && SameGuest(w, lo, hi)
    requires p < |w| && q < |w| && w[p].guestId != w[q].guestId
    ensures !(lo <= p < hi && lo <= q < hi)
  {
  }

  /** An accepted request keeps every run within the cap when it is the newest item. */
  lemma AcceptedRequestKeepsRuns(items: seq<Row>, row: Row, cap: int)
    requires RunsWithin(WaitingList(items), cap)
    requires !EnforceConsecutiveCap(items, row.guestId, Some(cap))
    requires IsWaiting(row.status)
    requires forall r :: r in items ==> r.createdAt < row.createdAt
    ensures WaitingList(items + [row]) == WaitingList(items) + [row]
    ensures RunsWithin(WaitingList(items + [row]), cap)
  {
    var f, w := Filter(items, WaitingRow), WaitingList(items);
    FilterSnoc(items, row, WaitingRow);
    FilterMembers(items, WaitingRow);
    SortAppend(f, row, RequestOrder);
    ConsecutiveCapExact(items, row.guestId, cap);
    AppendKeepsRuns(w, row, cap);
  }

  lemma AppendKeepsRuns(w: seq<Row>, row: Row, cap: int)
    requires RunsWithin(w, cap) && TrailingRun(w, row.guestId) < cap
    ensures RunsWithin(w + [row], cap)
  {
    TrailingRunIsMaximal(w, row.guestId);
    var w', n := w + [row], TrailingRun(w, row.guestId);
    forall lo, hi | 0 <= lo < hi <= |w'| && SameGuest(w', lo, hi) ensures hi - lo <= cap {
      if hi <= |w| {
        forall k | lo <= k < hi ensures w[k].guestId == w[lo].guestId {
          assert w[k] == w'[k];
        }
        assert SameGuest(w, lo, hi);
      } else if n < |w| {
        RunDoesNotMix(w', lo, hi, |w| - n - 1, |w|);
      }
    }
  }

  /** Taking out the item at `k` leaves every run within the cap exactly when the runs on its two
      sides, if they belong to one guest, are together within the cap. At the front the left run
      is empty, so departures from the front are always safe. */
  lemma DepartureExact(w: seq<Row>, k: nat, cap: int)
    requires k < |w| && RunsWithin(w, cap)
    ensures RunsWithin(w[..k] + w[k + 1..], cap) <==>
      (k == 0 || k == |w| - 1 || w[k - 1].guestId != w[k + 1].guestId
       || TrailingRun(w[..k], w[k - 1].guestId) + LeadingRun(w[k + 1..], w[k - 1].guestId) <= cap)
  {
    var w' := w[..k] + w[k + 1..];
    if 0 < k < |w| - 1 && w[k - 1].guestId == w[k + 1].guestId {
      var g := w[k - 1].guestId;
      var left, right := TrailingRun(w[..k], g), LeadingRun(w[k + 1..], g);
      TrailingRunIsMaximal(w[..k], g);
      LeadingRunIsMaximal(w[k + 1..], g);
      if left + right > cap {
        assert SameGuest(w', k - left, k + right);
      } else {
        forall lo, hi | 0 <= lo < hi <= |w'| && SameGuest(w', lo, hi) ensures hi - lo <= cap {
          if lo < k < hi {
            if left < k {
              RunDoesNotMix(w', lo, hi, k - left - 1, k - 1);
            }
            if k + right < |w'| {
              assert w'[k + right] == w[k + 1..][right];
              RunDoesNotMix(w', lo, hi, k + right, k - 1);
            }
          } else {
            OneSidedRun(w, k, cap, lo, hi);
          }
        }
      }
    } else {
      forall lo, hi | 0 <= lo < hi <= |w'| && SameGuest(w', lo, hi) ensures hi - lo <= cap {
        if 0 < k < |w'| {
          RunDoesNotMix(w', lo, hi, k - 1, k);
        }
        OneSidedRun(w, k, cap, lo, hi);
      }
    }
  }

  lemma OneSidedRun(w: seq<Row>, k: nat, cap: int, lo: nat, hi: nat)
    requires k < |w| && RunsWithin(w, cap)
    requires lo < hi <= |w| - 1 && (hi <= k || k <= lo)
    requires SameGuest(w[..k] + w[k + 1..], lo, hi)
    ensures hi - lo <= cap
  {
    var w' := w[..k] + w[k + 1..];
    if hi <= k {
      forall i | lo <= i < hi ensures w[i].guestId == w[lo].guestId {
        assert w'[i] == w[i];
      }
      assert SameGuest(w, lo, hi);
    } else {
      forall i | lo + 1 <= i < hi + 1 ensures w[i].guestId == w[lo + 1].guestId {
        assert w'[i - 1] == w[i];
      }
      assert SameGuest(w, lo + 1, hi + 1);
    }
  }

  function LeadingRun(w: seq<Row>, guestId: string): (n: nat)
    ensures n <= |w|
  {
    if w == [] || w[0].guestId != guestId then 0 else 1 + LeadingRun(w[1..], guestId)
  }

  lemma {:induction false} LeadingRunIsMaximal(w: seq<Row>, guestId: string)
    ensures var n := LeadingRun(w, guestId);
      && (forall k :: 0 <= k < n ==> w[k].guestId == guestId)
      && (n < |w| ==> w[n].guestId != guestId)
  {
    if w != [] && w[0].guestId == guestId {
      LeadingRunIsMaximal(w[1..], guestId);
    }
  }

  /** One change of the stored items: a gated request by a guest, or the front of the waiting list
      leaving it (it starts playing, is rejected, is removed). */
  datatype WaitingStep = Request(row: Row) | FrontLeaves(after: seq<Row>)

  /** A step the run allows: request times strictly increase, departures come from the front. */
  ghost predicate WaitingStepAllowed(items: seq<Row>, step: WaitingStep) {
    match step
    case Request(row) => IsWaiting(row.status) && forall r :: r in items ==> r.createdAt < row.createdAt
    case FrontLeaves(after) =>
      && WaitingList(items) != []
      && WaitingList(after) == WaitingList(items)[1..]
  }

  function ApplyWaitingStep(items: seq<Row>, step: WaitingStep, cap: int): seq<Row> {
    match step
    case Request(row) => if EnforceConsecutiveCap(items, row.guestId, Some(cap)) then items else items + [row]
    case FrontLeaves(after) => after
  }

  ghost predicate WaitingRunAllowed(items: seq<Row>, steps: seq<WaitingStep>, cap: int)
    decreases steps
  {
    steps == [] ||
    (WaitingStepAllowed(items, steps[0]) && WaitingRunAllowed(ApplyWaitingStep(items, steps[0], cap), steps[1..], cap))
  }

  function WaitingRun(items: seq<Row>, steps: seq<WaitingStep>, cap: int): seq<Row>
    decreases steps
  {
    if steps == [] then items else WaitingRun(ApplyWaitingStep(items, steps[0], cap), steps[1..], cap)
  }

  lemma WaitingStepKeepsRuns(items: seq<Row>, step: WaitingStep, cap: int)
    requires RunsWithin(WaitingList(items), cap) && WaitingStepAllowed(items, step)
    ensures RunsWithin(WaitingList(ApplyWaitingStep(items, step, cap)), cap)
  {
    match step {
      case Request(row) =>
        if !EnforceConsecutiveCap(items, row.guestId, Some(cap)) {
          AcceptedRequestKeepsRuns(items, row, cap);
        }
      case FrontLeaves(after) =>
        var w := WaitingList(items);
        DepartureExact(w, 0, cap);
        assert w[..0] + w[1..] == w[1..];
    }
  }

  /** Over every such run no guest ever holds more than `cap` adjacent waiting items. */
  lemma {:induction false} RunsStayWithinCap(items: seq<Row>, steps: seq<WaitingStep>, cap: int)
    requires RunsWithin(WaitingList(items), cap)
    requires WaitingRunAllowed(items, steps, cap)
    ensures RunsWithin(WaitingList(WaitingRun(items, steps, cap)), cap)
    decreases steps
  {
    if steps != [] {
      WaitingStepKeepsRuns(items, steps[0], cap);
      RunsStayWithinCap(ApplyWaitingStep(items, steps[0], cap), steps[1..], cap);
    }
  }

  // ---------------------------------------------------------------- per-guest cap

  predicate ActiveFor(r: Row, guestId: string) {
    r.guestId == guestId && IsActive(r.status)
  }

  function CountActive(items: seq<Row>, guestId: string): nat {
    |set i | 0 <= i < |items| && ActiveFor(items[i], guestId)|
  }

  /** The counting loop. */
  method CountActiveItemsForGuest(items: seq<Row>, guestId: string) returns (count: nat)
    ensures count == CountActive(items, guestId)
  {
    count := 0;
    ghost var hits: set<int> := {};
    for i := 0 to |items|
      invariant hits == set k | 0 <= k < i && ActiveFor(items[k], guestId)
      invariant count == |hits|
    {
      if items[i].guestId == guestId && IsActive(items[i].status) {
        count := count + 1;
        hits := hits + {i};
      }
    }
  }

  predicate EnforcePerGuestCap(items: seq<Row>, guestId: string, cap: int) {
    cap <= 0 || CountActive(items, guestId) >= cap
  }

  // ---------------------------------------------------------------- canEnqueue

  datatype EnqueueRefusal =
    | SessionEnded | GuestSessionMismatch | CapReached | ConsecutiveCapReached | DuplicateRequest

  /** `None` when the guest may enqueue. The tests run in this order, so the first that fails names
      the reason. */
  function CanEnqueue(session: Session, guestId: string, guestSessionId: string, items: seq<Row>,
                      now: int, trackUri: string): Option<EnqueueRefusal>
  {
    if session.endedAt.Some? && session.endedAt.value <= now then Some(SessionEnded)
    else if guestSessionId != session.id then Some(GuestSessionMismatch)
    else if EnforcePerGuestCap(items, guestId, session.songsPerGuestCap) then Some(CapReached)
    else if EnforceConsecutiveCap(items, guestId, session.maxConsecutivePerGuest) then Some(ConsecutiveCapReached)
    else if !session.allowDuplicates && exists i | 0 <= i < |items| ::
      items[i].trackUri == trackUri && IsActive(items[i].status)
      then Some(DuplicateRequest)
    else None
  }

  /** Below the cap, the trailing run below the consecutive cap, no active item for the track where
      duplicates are off. */
  predicate RoomFor(session: Session, guestId: string, items: seq<Row>, trackUri: string) {
    && CountActive(items, guestId) < session.songsPerGuestCap
    && (session.maxConsecutivePerGuest.Some? ==>
        TrailingRun(WaitingList(items), guestId) < session.maxConsecutivePerGuest.value)
    && (session.allowDuplicates || !exists i | 0 <= i < |items| ::
        items[i].trackUri == trackUri && IsActive(items[i].status))
  }

  lemma CanEnqueueExact(session: Session, guestId: string, guestSessionId: string, items: seq<Row>, now: int,
                        trackUri: string)
    ensures CanEnqueue(session, guestId, guestSessionId, items, now, trackUri).None? <==>
      && !(session.endedAt.Some? && session.endedAt.value <= now) && guestSessionId == session.id
      && RoomFor(session, guestId, items, trackUri)
  {
    if session.maxConsecutivePerGuest.Some? {
      ConsecutiveCapExact(items, guestId, session.maxConsecutivePerGuest.value);
    }
  }

  // ---------------------------------------------------------------- mics

  datatype MicRefusal = KaraokeIsOff | ItemNotClaimable | AlreadyClaimed | MicsFull

  function CanClaimMic(session: Session, item: Row, claims: seq<Claim>, guestId: string): Option<MicRefusal> {
    if session.karaokeMode.KaraokeOff? then Some(KaraokeIsOff)
    else if !IsActive(item.status) then Some(ItemNotClaimable)
    else
      var onItem := Filter(claims, (c: Claim) => c.queueItemId == item.id);
      if exists c :: c in onItem && c.guestId == guestId then Some(AlreadyClaimed)
      else if |onItem| >= session.karaokeMicCount then Some(MicsFull)
      else None
  }

  datatype RemoveRefusal = NotClaimOwner | ItemNotWaiting

  function CanRemoveClaim(item: Row, claim: Claim, guestId: string): Option<RemoveRefusal> {
    if claim.guestId != guestId then Some(NotClaimOwner)
    else if !IsWaiting(item.status) then Some(ItemNotWaiting)
    else None
  }
}
