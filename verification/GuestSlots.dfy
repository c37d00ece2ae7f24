/** Guest slots: who is admitted at once, who waits at which position, and what a returning browser
    gets. The stored fingerprint hash is an opaque key. */
module GuestSlots {
  import opened Collections

  datatype SlotStatus = Active | Queued | PriorityQueued

  datatype Slot = Slot(
    id: string, sessionId: string, fingerprintHash: string, slotToken: string,
    status: SlotStatus, queuePosition: Option<nat>, lastHeartbeat: int, createdAt: int)

  datatype Guest = Guest(id: string, sessionId: string, fingerprint: string)

  datatype Plan = Oss | Free | Paid

  datatype SessionRow = SessionRow(id: string, accountId: string, guestCapOverride: Option<int>, endedAt: Option<int>)

  /** Sessions by slug and account plans; what an issue reads and never writes. */
  datatype Venue = Venue(sessions: map<string, SessionRow>, plans: map<string, Plan>)

  datatype Registry = Registry(slots: seq<Slot>, guests: seq<Guest>, priority: map<(string, string), int>)

  datatype Refusal = SessionNotFound | SessionEnded

  datatype Issued = Issued(slotToken: string, status: SlotStatus, queuePosition: Option<nat>, guestId: string,
                           sessionId: string)

  /** What the generators hand out. */
  datatype Fresh = Fresh(slotId: string, slotToken: string, guestId: string)

  const HOSTED_FREE_TIER_GUEST_CAP := 12

  /** `None` is no cap at all. */
  function EffectiveGuestCap(plan: Plan, session: SessionRow): Option<int> {
    if session.guestCapOverride.Some? then session.guestCapOverride
    else if plan.Free? then Some(HOSTED_FREE_TIER_GUEST_CAP)
    else None
  }

  // ---------------------------------------------------------------- rows

  predicate Keyed(s: Slot, sessionId: string, fingerprintHash: string) {
    s.sessionId == sessionId && s.fingerprintHash == fingerprintHash
  }

  function FindSlot(slots: seq<Slot>, sessionId: string, fingerprintHash: string): (r: Option<Slot>)
    ensures r.Some? ==> r.value in slots && Keyed(r.value, sessionId, fingerprintHash)
    ensures r.None? ==> forall s :: s in slots ==> !Keyed(s, sessionId, fingerprintHash)
  {
    if slots == [] then None
    else if Keyed(slots[0], sessionId, fingerprintHash) then Some(slots[0])
    else FindSlot(slots[1..], sessionId, fingerprintHash)
  }

  function FindGuest(guests: seq<Guest>, sessionId: string, fingerprint: string): (r: Option<Guest>)
    ensures r.Some? ==> r.value in guests && r.value.sessionId == sessionId && r.value.fingerprint == fingerprint
    ensures r.None? ==> forall g :: g in guests ==> !(g.sessionId == sessionId && g.fingerprint == fingerprint)
  {
    if guests == [] then None
    else if guests[0].sessionId == sessionId && guests[0].fingerprint == fingerprint then Some(guests[0])
    else FindGuest(guests[1..], sessionId, fingerprint)
  }

  function WithStatus(sessionId: string, status: SlotStatus): Slot -> bool {
    (s: Slot) => s.sessionId == sessionId && s.status == status
  }

  function Count(slots: seq<Slot>, sessionId: string, status: SlotStatus): nat {
    |Filter(slots, WithStatus(sessionId, status))|
  }

  /** Rewrite the row with the id. */
  function Rewrite(slots: seq<Slot>, id: string, f: Slot -> Slot): (r: seq<Slot>)
    ensures |r| == |slots|
    ensures forall i :: 0 <= i < |slots| ==> r[i] == if slots[i].id == id then f(slots[i]) else slots[i]
  {
    seq(|slots|, i requires 0 <= i < |slots| => if slots[i].id == id then f(slots[i]) else slots[i])
  }

  function Touched(now: int): Slot -> Slot {
    (s: Slot) => s.(lastHeartbeat := now)
  }

  // ---------------------------------------------------------------- issuing

  predicate HasPriority(reg: Registry, sessionId: string, fp: string, now: int) {
    (sessionId, fp) in reg.priority && reg.priority[(sessionId, fp)] > now
  }

  function WithGuest(reg: Registry, sessionId: string, fp: string, guestId: string): (Registry, string) {
    match FindGuest(reg.guests, sessionId, fp)
    case Some(g) => (reg, g.id)
    case None => (reg.(guests := reg.guests + [Guest(guestId, sessionId, fp)]), guestId)
  }

  /** The row a newcomer gets: active while there is room, otherwise at the end of the line. */
  function NewSlot(reg: Registry, sessionId: string, cap: Option<int>, fp: string, now: int, ids: Fresh): Slot {
    if cap.None? || Count(reg.slots, sessionId, Active) < cap.value
      then Slot(ids.slotId, sessionId, fp, ids.slotToken, Active, None, now, now)
    else Slot(ids.slotId, sessionId, fp, ids.slotToken,
              if HasPriority(reg, sessionId, fp, now) then PriorityQueued else Queued,
              Some(Count(reg.slots, sessionId, Queued) + Count(reg.slots, sessionId, PriorityQueued) + 1), now, now)
  }

  function Admit(reg: Registry, sessionId: string, cap: Option<int>, fp: string, now: int, ids: Fresh)
    : (Registry, Slot)
  {
    match FindSlot(reg.slots, sessionId, fp)
    case Some(slot) => (reg.(slots := Rewrite(reg.slots, slot.id, Touched(now))), slot)
    case None =>
      var slot := NewSlot(reg, sessionId, cap, fp, now, ids);
      (reg.(slots := reg.slots + [slot],
            priority := if slot.status.Active? && HasPriority(reg, sessionId, fp, now)
                        then reg.priority - {(sessionId, fp)} else reg.priority),
       slot)
  }

  function Issue(reg: Registry, venue: Venue, slug: string, fp: string, now: int, ids: Fresh)
    : (Registry, Result<Issued, Refusal>)
  {
    if slug !in venue.sessions then (reg, Err(SessionNotFound)) else
      var session := venue.sessions[slug];
      if session.endedAt.Some? && session.endedAt.value <= now then (reg, Err(SessionEnded))
      else if session.accountId !in venue.plans then (reg, Err(SessionNotFound)) else
        var cap := EffectiveGuestCap(venue.plans[session.accountId], session);
        var (reg1, slot) := Admit(reg, session.id, cap, fp, now, ids);
        var (reg2, guestId) := WithGuest(reg1, session.id, fp, ids.guestId);
        (reg2, Ok(Issued(slot.slotToken, slot.status, slot.queuePosition, guestId, session.id)))
  }

  // ---------------------------------------------------------------- the invariant

  predicate IsWaiting(s: Slot) {
    s.status.Queued? || s.status.PriorityQueued?
  }

  function WaitingIn(sessionId: string): Slot -> bool {
    (s: Slot) => s.sessionId == sessionId && IsWaiting(s)
  }

  /** The line of a session, in order of arrival. */
  function Line(slots: seq<Slot>, sessionId: string): seq<Slot> {
    Filter(slots, WaitingIn(sessionId))
  }

  ghost predicate KeysUnique(slots: seq<Slot>) {
    forall i, j :: 0 <= i < j < |slots| ==>
      slots[i].id != slots[j].id && !Keyed(slots[i], slots[j].sessionId, slots[j].fingerprintHash)
  }

  ghost predicate GuestsFollow(reg: Registry) {
    forall s :: s in reg.slots ==> FindGuest(reg.guests, s.sessionId, s.fingerprintHash).Some?
  }

  /** The line holds the positions from one on, in order. */
  ghost predicate Numbered(line: seq<Slot>) {
    forall i :: 0 <= i < |line| ==> line[i].queuePosition == Some(i + 1)
  }

  ghost predicate ActiveUnnumbered(slots: seq<Slot>) {
    forall s :: s in slots && s.status.Active? ==> s.queuePosition.None?
  }

  ghost predicate RegistryOk(reg: Registry) {
    && KeysUnique(reg.slots) && GuestsFollow(reg) && ActiveUnnumbered(reg.slots)
    && forall sid :: Numbered(Line(reg.slots, sid))
  }

  /** No more active slots than the cap, and nobody waits while there is room. */
  ghost predicate CapHolds(slots: seq<Slot>, sid: string, cap: Option<int>) {
    && (cap.Some? ==> Count(slots, sid, Active) <= if cap.value < 0 then 0 else cap.value)
    && (Line(slots, sid) != [] ==> cap.Some? && Count(slots, sid, Active) >= cap.value)
  }

  /** Slugs name different sessions. */
  ghost predicate VenueOk(venue: Venue) {
    forall a, b :: a in venue.sessions && b in venue.sessions && a != b ==> venue.sessions[a].id != venue.sessions[b].id
  }

  /** Every session whose account is known keeps its cap. */
  ghost predicate CapsHold(reg: Registry, venue: Venue) {
    forall slug :: slug in venue.sessions && venue.sessions[slug].accountId in venue.plans ==>
      CapHolds(reg.slots, venue.sessions[slug].id,
               EffectiveGuestCap(venue.plans[venue.sessions[slug].accountId], venue.sessions[slug]))
  }

  // ---------------------------------------------------------------- touching a row

  /** A test that does not look at heartbeats sees a touched list as the touched result. */
  lemma {:induction false} TouchFilter(slots: seq<Slot>, id: string, now: int, p: Slot -> bool)
    requires forall s: Slot :: p(Touched(now)(s)) == p(s)
    ensures Filter(Rewrite(slots, id, Touched(now)), p) == Rewrite(Filter(slots, p), id, Touched(now))
  {
    if slots != [] {
      var h, t := Init(slots), Rewrite(slots, id, Touched(now));
      TouchFilter(h, id, now, p);
      assert Init(t) == Rewrite(h, id, Touched(now));
      assert Last(t) == if Last(slots).id == id then Touched(now)(Last(slots)) else Last(slots);
    }
  }

  lemma TouchKeeps(reg: Registry, id: string, now: int)
    requires RegistryOk(reg)
    ensures var slots := Rewrite(reg.slots, id, Touched(now));
      && RegistryOk(reg.(slots := slots))
      && (forall sid, status :: Count(slots, sid, status) == Count(reg.slots, sid, status))
      && (forall sid :: |Line(slots, sid)| == |Line(reg.slots, sid)|)
  {
    var slots := Rewrite(reg.slots, id, Touched(now));
    forall sid, status ensures Count(slots, sid, status) == Count(reg.slots, sid, status) {
      TouchFilter(reg.slots, id, now, WithStatus(sid, status));
    }
    forall sid ensures |Line(slots, sid)| == |Line(reg.slots, sid)| && Numbered(Line(slots, sid)) {
      TouchFilter(reg.slots, id, now, WaitingIn(sid));
      assert Numbered(Line(reg.slots, sid));
    }
    forall s | s in slots
      ensures FindGuest(reg.guests, s.sessionId, s.fingerprintHash).Some?
        && (s.status.Active? ==> s.queuePosition.None?)
    {
      var i :| 0 <= i < |slots| && slots[i] == s;
      assert reg.slots[i] in reg.slots;
    }
  }

  // ---------------------------------------------------------------- adding a row

  /** The line is the queued and the priority-queued rows together. */
  lemma {:induction false} LineCount(slots: seq<Slot>, sid: string)
    ensures |Line(slots, sid)| == Count(slots, sid, Queued) + Count(slots, sid, PriorityQueued)
  {
    if slots != [] {
      LineCount(Init(slots), sid);
    }
  }

  lemma LineSnoc(slots: seq<Slot>, slot: Slot, sid: string)
    ensures Line(slots + [slot], sid) == if slot.sessionId == sid && IsWaiting(slot) then Line(slots, sid) + [slot]
      else Line(slots, sid)
    ensures Count(slots + [slot], sid, Active) ==
      Count(slots, sid, Active) + if slot.sessionId == sid && slot.status.Active? then 1 else 0
  {
    FilterSnoc(slots, slot, WaitingIn(sid));
    FilterSnoc(slots, slot, WithStatus(sid, Active));
  }

  lemma NumberedSnoc(line: seq<Slot>, slot: Slot)
    requires Numbered(line) && slot.queuePosition == Some(|line| + 1)
    ensures Numbered(line + [slot])
  {
  }

  lemma NewcomerKeepsLines(slots: seq<Slot>, slot: Slot, other: string)
    requires Numbered(Line(slots, other))
    requires slot.sessionId == other && IsWaiting(slot) ==> slot.queuePosition == Some(|Line(slots, other)| + 1)
    ensures Numbered(Line(slots + [slot], other))
  {
    LineSnoc(slots, slot, other);
    if slot.sessionId == other && IsWaiting(slot) {
      NumberedSnoc(Line(slots, other), slot);
    }
  }

  lemma NewcomerKeepsCap(reg: Registry, sid: string, cap: Option<int>, fp: string, now: int, ids: Fresh, other: string,
                         otherCap: Option<int>)
    requires CapHolds(reg.slots, other, otherCap) && (other == sid ==> otherCap == cap)
    ensures CapHolds(reg.slots + [NewSlot(reg, sid, cap, fp, now, ids)], other, otherCap)
  {
    LineSnoc(reg.slots, NewSlot(reg, sid, cap, fp, now, ids), other);
  }

  lemma NewcomerUnique(slots: seq<Slot>, slot: Slot)
    requires KeysUnique(slots)
    requires forall s :: s in slots ==> s.id != slot.id && !Keyed(s, slot.sessionId, slot.fingerprintHash)
    ensures KeysUnique(slots + [slot])
  {
  }

  // ---------------------------------------------------------------- one issue

  /** The generator has not handed the id out before. */
  ghost predicate NewId(reg: Registry, id: string) {
    forall s :: s in reg.slots ==> s.id != id
  }

  /** Admitting someone keeps every line and key in order; only the guest row may still be missing. */
  lemma AdmitKeeps(reg: Registry, sid: string, cap: Option<int>, fp: string, now: int, ids: Fresh)
    requires RegistryOk(reg) && NewId(reg, ids.slotId)
    ensures var reg' := Admit(reg, sid, cap, fp, now, ids).0;
      && KeysUnique(reg'.slots) && ActiveUnnumbered(reg'.slots) && reg'.guests == reg.guests
      && (forall other :: Numbered(Line(reg'.slots, other)))
      && (forall s :: s in reg'.slots ==>
          Keyed(s, sid, fp) || FindGuest(reg.guests, s.sessionId, s.fingerprintHash).Some?)
  {
    match FindSlot(reg.slots, sid, fp)
    case Some(slot) => TouchKeeps(reg, slot.id, now);
    case None =>
      var slot := NewSlot(reg, sid, cap, fp, now, ids);
      NewcomerUnique(reg.slots, slot);
      LineCount(reg.slots, sid);
      forall other ensures Numbered(Line(reg.slots + [slot], other)) {
        assert Numbered(Line(reg.slots, other));
        NewcomerKeepsLines(reg.slots, slot, other);
      }
  }

  lemma AdmitKeepsCap(reg: Registry, sid: string, cap: Option<int>, fp: string, now: int, ids: Fresh, other: string,
                      otherCap: Option<int>)
    requires RegistryOk(reg) && CapHolds(reg.slots, other, otherCap) && (other == sid ==> otherCap == cap)
    ensures CapHolds(Admit(reg, sid, cap, fp, now, ids).0.slots, other, otherCap)
  {
    match FindSlot(reg.slots, sid, fp)
    case Some(slot) => TouchKeeps(reg, slot.id, now);
    case None => NewcomerKeepsCap(reg, sid, cap, fp, now, ids, other, otherCap);
  }

  lemma {:induction false} FindGuestSnoc(guests: seq<Guest>, g: Guest, sid: string, fp: string)
    ensures FindGuest(guests, sid, fp).Some? ==> FindGuest(guests + [g], sid, fp) == FindGuest(guests, sid, fp)
    ensures g.sessionId == sid && g.fingerprint == fp ==> FindGuest(guests + [g], sid, fp).Some?
  {
    if guests == [] {
      assert guests + [g] == [g];
    } else {
      assert (guests + [g])[1..] == guests[1..] + [g];
      FindGuestSnoc(guests[1..], g, sid, fp);
    }
  }

  lemma WithGuestFollows(reg: Registry, sid: string, fp: string, guestId: string)
    requires forall s :: s in reg.slots ==>
      Keyed(s, sid, fp) || FindGuest(reg.guests, s.sessionId, s.fingerprintHash).Some?
    ensures GuestsFollow(WithGuest(reg, sid, fp, guestId).0)
    ensures WithGuest(reg, sid, fp, guestId).0.slots == reg.slots
  {
    var g := Guest(guestId, sid, fp);
    forall s | s in reg.slots
      ensures FindGuest(WithGuest(reg, sid, fp, guestId).0.guests, s.sessionId, s.fingerprintHash).Some?
    {
      FindGuestSnoc(reg.guests, g, s.sessionId, s.fingerprintHash);
    }
  }

  lemma IssueKeepsInv(reg: Registry, venue: Venue, slug: string, fp: string, now: int, ids: Fresh)
    requires RegistryOk(reg) && VenueOk(venue) && CapsHold(reg, venue) && NewId(reg, ids.slotId)
    ensures var reg' := Issue(reg, venue, slug, fp, now, ids).0;
      RegistryOk(reg') && CapsHold(reg', venue)
  {
    if Issue(reg, venue, slug, fp, now, ids).1.Ok? {
      var session := venue.sessions[slug];
      var cap := EffectiveGuestCap(venue.plans[session.accountId], session);
      var reg1 := Admit(reg, session.id, cap, fp, now, ids).0;
      AdmitKeeps(reg, session.id, cap, fp, now, ids);
      WithGuestFollows(reg1, session.id, fp, ids.guestId);
      forall other | other in venue.sessions && venue.sessions[other].accountId in venue.plans
        ensures CapHolds(reg1.slots, venue.sessions[other].id,
                         EffectiveGuestCap(venue.plans[venue.sessions[other].accountId], venue.sessions[other]))
      {
        AdmitKeepsCap(reg, session.id, cap, fp, now, ids, venue.sessions[other].id,
                      EffectiveGuestCap(venue.plans[venue.sessions[other].accountId], venue.sessions[other]));
      }
    }
  }

  // ---------------------------------------------------------------- runs

  datatype Call =
    | IssueCall(slug: string, fp: string, now: int, ids: Fresh)
    | GrantPriority(sessionId: string, fp: string, expiresAt: int)   // a released guest may come back first

  function AfterCall(reg: Registry, venue: Venue, c: Call): Registry {
    match c
    case IssueCall(slug, fp, now, ids) => Issue(reg, venue, slug, fp, now, ids).0
    case GrantPriority(sid, fp, expiresAt) => reg.(priority := reg.priority[(sid, fp) := expiresAt])
  }

  function RegistryAfter(venue: Venue, run: seq<Call>): Registry {
    if run == [] then Registry([], [], map[]) else AfterCall(RegistryAfter(venue, Init(run)), venue, Last(run))
  }

  /** Every call gets an id that was not handed out before. */
  ghost predicate FreshRun(venue: Venue, run: seq<Call>) {
    run == [] ||
    (FreshRun(venue, Init(run))
     && (Last(run).IssueCall? ==> NewId(RegistryAfter(venue, Init(run)), Last(run).ids.slotId)))
  }

  /** Over every run with fixed caps: one slot per session and fingerprint, no session with more active
      slots than its cap, nobody waiting while there is room, the line numbered from one without gaps
      in order of arrival, and active slots without a position. */
  lemma {:induction false} SlotsAlwaysInOrder(venue: Venue, run: seq<Call>)
    requires VenueOk(venue) && FreshRun(venue, run)
    ensures RegistryOk(RegistryAfter(venue, run)) && CapsHold(RegistryAfter(venue, run), venue)
  {
    if run != [] {
      var c := Last(run);
      SlotsAlwaysInOrder(venue, Init(run));
      if c.IssueCall? {
        IssueKeepsInv(RegistryAfter(venue, Init(run)), venue, c.slug, c.fp, c.now, c.ids);
      }
    }
  }

  lemma FoundIsTheOne(slots: seq<Slot>, slot: Slot)
    requires KeysUnique(slots) && slot in slots
    ensures FindSlot(slots, slot.sessionId, slot.fingerprintHash) == Some(slot)
  {
    var found := FindSlot(slots, slot.sessionId, slot.fingerprintHash).value;
    var i :| 0 <= i < |slots| && slots[i] == slot;
    var j :| 0 <= j < |slots| && slots[j] == found;
  }

  /** Issuing again for a fingerprint that has a slot returns that slot's token, status and position, and
      changes nothing but its heartbeat. */
  lemma ReissueTouchesOnly(reg: Registry, venue: Venue, slug: string, slot: Slot, now: int, ids: Fresh)
    requires RegistryOk(reg) && slot in reg.slots
    requires slug in venue.sessions && venue.sessions[slug].id == slot.sessionId
    requires Issue(reg, venue, slug, slot.fingerprintHash, now, ids).1.Ok?
    ensures var (reg', r) := Issue(reg, venue, slug, slot.fingerprintHash, now, ids);
      && reg' == reg.(slots := reg'.slots) && |reg'.slots| == |reg.slots|
      && (forall i :: 0 <= i < |reg.slots| ==>
            reg'.slots[i] == if reg.slots[i] == slot then slot.(lastHeartbeat := now) else reg.slots[i])
      && r.value.slotToken == slot.slotToken && r.value.status == slot.status
      && r.value.queuePosition == slot.queuePosition
  {
    FoundIsTheOne(reg.slots, slot);
    var k :| 0 <= k < |reg.slots| && reg.slots[k] == slot;
    assert forall i :: 0 <= i < |reg.slots| ==> (reg.slots[i].id == slot.id <==> i == k);
    assert forall i :: 0 <= i < |reg.slots| ==> (reg.slots[i] == slot <==> i == k);
    var found := FindGuest(reg.guests, slot.sessionId, slot.fingerprintHash);
    assert found.Some?;
  }

  // ---------------------------------------------------------------- the object

  class GuestIdentityService {
    const venue: Venue
    var slots: seq<Slot>
    var guests: seq<Guest>
    var priority: map<(string, string), int>

    constructor (venue: Venue)
      ensures this.venue == venue && Model() == RegistryAfter(venue, [])
    {
      this.venue := venue;
      slots := [];
      guests := [];
      priority := map[];
    }

    function Model(): Registry
      reads this
    {
      Registry(slots, guests, priority)
    }

    method FindBySessionAndFingerprint(sessionId: string, fp: string) returns (r: Option<Slot>)
      ensures r == FindSlot(slots, sessionId, fp)
    {
      var i := 0;
      while i < |slots|
        invariant 0 <= i <= |slots|
        invariant FindSlot(slots[i..], sessionId, fp) == FindSlot(slots, sessionId, fp)
      {
        if slots[i].sessionId == sessionId && slots[i].fingerprintHash == fp {
          return Some(slots[i]);
        }
        assert slots[i..][1..] == slots[i + 1..];
        i := i + 1;
      }
      r := None;
    }

    method CountByStatus(sessionId: string, status: SlotStatus) returns (count: nat)
      ensures count == Count(slots, sessionId, status)
    {
      count := 0;
      for i := 0 to |slots|
        invariant count == Count(slots[..i], sessionId, status)
      {
        FilterSnoc(slots[..i], slots[i], WithStatus(sessionId, status));
        assert slots[..i + 1] == slots[..i] + [slots[i]];
        if slots[i].sessionId == sessionId && slots[i].status == status {
          count := count + 1;
        }
      }
      assert slots[..|slots|] == slots;
    }

    method TouchHeartbeat(id: string, now: int)
      modifies this`slots
      ensures slots == Rewrite(old(slots), id, Touched(now))
    {
      slots := Rewrite(slots, id, Touched(now));
    }

    /** With room: straight to active; a priority fingerprint passes through its queued status and is
        spent on the way. */
    method CreateActive(sessionId: string, fp: string, hasPriority: bool, now: int, ids: Fresh) returns (created: Slot)
      requires NewId(Model(), ids.slotId)
      modifies this`slots, this`priority
      ensures created == Slot(ids.slotId, sessionId, fp, ids.slotToken, Active, None, now, now)
      ensures slots == old(slots) + [created]
      ensures priority == if hasPriority then old(priority) - {(sessionId, fp)} else old(priority)
    {
      var status := if hasPriority then PriorityQueued else Active;
      created := Slot(ids.slotId, sessionId, fp, ids.slotToken, status, None, now, now);
      slots := slots + [created];
      if hasPriority {
        slots := Rewrite(slots, created.id, (s: Slot) => s.(status := Active));
        priority := priority - {(sessionId, fp)};
        created := created.(status := Active);
      }
      assert slots == old(slots) + [created];
    }

    method FindOrCreateGuest(sessionId: string, fp: string, guestId: string) returns (id: string)
      modifies this`guests
      ensures (Model(), id) == WithGuest(old(Model()), sessionId, fp, guestId)
    {
      var existing := FindGuest(guests, sessionId, fp);
      if existing.Some? {
        return existing.value.id;
      }
      guests := guests + [Guest(guestId, sessionId, fp)];
      id := guestId;
    }

    method AdmitGuest(sessionId: string, cap: Option<int>, fp: string, now: int, ids: Fresh) returns (slot: Slot)
      requires NewId(Model(), ids.slotId)
      modifies this`slots, this`priority
      ensures (Model(), slot) == Admit(old(Model()), sessionId, cap, fp, now, ids)
    {
      var existing := FindBySessionAndFingerprint(sessionId, fp);
      if existing.Some? {
        TouchHeartbeat(existing.value.id, now);
        return existing.value;
      }
      var wantsPriority := (sessionId, fp) in priority && priority[(sessionId, fp)] > now;
      var activeCount := CountByStatus(sessionId, Active);
      if cap.None? || activeCount < cap.value {
        slot := CreateActive(sessionId, fp, wantsPriority, now, ids);
        return;
      }
      var queuedCount := CountByStatus(sessionId, Queued);
      var priorityCount := CountByStatus(sessionId, PriorityQueued);
      slot := Slot(ids.slotId, sessionId, fp, ids.slotToken, if wantsPriority then PriorityQueued else Queued,
                   Some(queuedCount + priorityCount + 1), now, now);
      slots := slots + [slot];
    }

    method IssueIdentity(slug: string, fp: string, now: int, ids: Fresh) returns (r: Result<Issued, Refusal>)
      requires NewId(Model(), ids.slotId)
      modifies this
      ensures (Model(), r) == Issue(old(Model()), venue, slug, fp, now, ids)
    {
      if slug !in venue.sessions {
        return Err(SessionNotFound);
      }
      var session := venue.sessions[slug];
      if session.endedAt.Some? && session.endedAt.value <= now {
        return Err(SessionEnded);
      }
      if session.accountId !in venue.plans {
        return Err(SessionNotFound);
      }
      var cap := EffectiveGuestCap(venue.plans[session.accountId], session);
      var slot := AdmitGuest(session.id, cap, fp, now, ids);
      var guestId := FindOrCreateGuest(session.id, fp, ids.guestId);
      r := Ok(Issued(slot.slotToken, slot.status, slot.queuePosition, guestId, session.id));
    }
  }
}
