/** Every step of the scheduler keeps its invariant, whatever the interleaving. */
module SchedulerSteps {
  import opened Collections
  import opened Scheduler

  /** Entries of different sessions are different records. */
  ghost predicate Apart(p: Poller) {
    forall a, b :: a in p.tracked && b in p.tracked && a != b ==> p.tracked[a] != p.tracked[b]
  }

  /** `p'` differs from `p` only in what belongs to `s`: its tracking, its record, its timeouts. */
  ghost predicate OnlyAbout(p: Poller, p': Poller, s: string) {
    && p.nextTimer <= p'.nextTimer && |p.entries| <= |p'.entries|
    && (forall r :: r in p'.tracked && r != s ==> r in p.tracked)
    && (forall r :: r in p.tracked && r != s ==>
          && r in p'.tracked && p'.tracked[r] == p.tracked[r]
          && p.tracked[r] < |p.entries| && p'.entries[p.tracked[r]] == p.entries[p.tracked[r]])
    && (forall id :: id in p.timeouts && p.timeouts[id].sessionId != s ==>
        id in p'.timeouts && p'.timeouts[id] == p.timeouts[id])
    && (forall id :: id in p'.timeouts && p'.timeouts[id].sessionId != s ==>
        id in p.timeouts && p'.timeouts[id] == p.timeouts[id])
  }

  /** The part of the slot invariant that concerns `s`. */
  ghost predicate OwnSlots(p: Poller, s: string) {
    && (s in p.tracked ==> SlotsLive(p, s))
    && (forall id :: id in p.timeouts && p.timeouts[id].sessionId == s ==> InItsSlot(p, id))
  }

  lemma SlotsByParts(p: Poller, p': Poller, s: string)
    requires SlotsExact(p) && OnlyAbout(p, p', s) && OwnSlots(p', s)
    ensures SlotsExact(p')
  {
    forall r | r in p'.tracked ensures SlotsLive(p', r) {
      if r != s {
        assert SlotsLive(p, r);
      }
    }
    forall id | id in p'.timeouts ensures InItsSlot(p', id) {
      if p'.timeouts[id].sessionId != s {
        assert InItsSlot(p, id);
      }
    }
  }

  lemma NextIsNew(p: Poller)
    requires SlotsExact(p)
    ensures p.nextTimer !in p.timeouts
  {
    assert forall id :: id in p.timeouts ==> InItsSlot(p, id);
  }

  // ---------------------------------------------------------------- timeouts and slots

  lemma TrackSlots(p: Poller, s: string)
    requires SlotsExact(p)
    ensures var p' := Track(p, s);
      && SlotsExact(p') && OnlyAbout(p, p', s) && s in p'.tracked
      && EntryOf(p', s) == if s in p.tracked then EntryOf(p, s) else FRESH_ENTRY
  {
    var p' := Track(p, s);
    forall id | id in p.timeouts ensures InItsSlot(p, id) && InItsSlot(p', id) {
    }
    forall r | r in p.tracked ensures SlotsLive(p, r) && p'.entries[p.tracked[r]] == p.entries[p.tracked[r]] {
    }
    assert OnlyAbout(p, p', s);
    SlotsByParts(p, p', s);
  }

  lemma CancelIdleSlots(p: Poller, s: string)
    requires SlotsExact(p) && Apart(p) && s in p.tracked
    ensures SlotsExact(CancelIdle(p, s)) && OnlyAbout(p, CancelIdle(p, s), s) && CancelIdle(p, s).tracked == p.tracked
    ensures EntryOf(CancelIdle(p, s), s) == EntryOf(p, s).(idleTimer := None)
  {
    var p' := CancelIdle(p, s);
    assert OnlyAbout(p, p', s) by {
      assert SlotsLive(p, s);
      assert forall id :: id in p.timeouts ==> InItsSlot(p, id);
    }
    CancelIdleOwnSlots(p, s);
    SlotsByParts(p, p', s);
  }

  lemma CancelIdleOwnSlots(p: Poller, s: string)
    requires SlotsExact(p) && s in p.tracked
    ensures OwnSlots(CancelIdle(p, s), s)
  {
    var p' := CancelIdle(p, s);
    assert SlotsLive(p, s);
    forall id | id in p'.timeouts && p'.timeouts[id].sessionId == s ensures InItsSlot(p', id) {
      assert InItsSlot(p, id);
    }
  }

  lemma ScheduleSlots(p: Poller, s: string, delayMs: int, now: int)
    requires SlotsExact(p) && Apart(p) && s in p.tracked
    ensures SlotsExact(ScheduleNext(p, s, delayMs, now)) && OnlyAbout(p, ScheduleNext(p, s, delayMs, now), s)
    ensures ScheduleNext(p, s, delayMs, now).tracked == p.tracked
    ensures EntryOf(ScheduleNext(p, s, delayMs, now), s) == EntryOf(p, s).(timer := Some(p.nextTimer))
  {
    var p' := ScheduleNext(p, s, delayMs, now);
    assert forall id :: id in p.timeouts ==> InItsSlot(p, id);
    NextIsNew(p);
    assert OnlyAbout(p, p', s) by {
      assert SlotsLive(p, s);
    }
    ScheduleOwnSlots(p, s, delayMs, now);
    SlotsByParts(p, p', s);
  }

  lemma ScheduleOwnSlots(p: Poller, s: string, delayMs: int, now: int)
    requires SlotsExact(p) && s in p.tracked
    ensures OwnSlots(ScheduleNext(p, s, delayMs, now), s)
  {
    assert SlotsLive(p, s);
    NextIsNew(p);
    var p' := ScheduleNext(p, s, delayMs, now);
    forall id | id in p'.timeouts && p'.timeouts[id].sessionId == s ensures InItsSlot(p', id) {
      assert id == p.nextTimer || InItsSlot(p, id);
    }
  }

  lemma StopSlots(p: Poller, s: string, now: int)
    requires SlotsExact(p) && Apart(p)
    ensures SlotsExact(Stop(p, s, now)) && OnlyAbout(p, Stop(p, s, now), s)
  {
    var p' := Stop(p, s, now);
    if p' != p {
      NextIsNew(p);
      assert SlotsLive(p, s);
      assert forall id :: id in p.timeouts ==> InItsSlot(p, id);
      assert OnlyAbout(p, p', s);
      assert OwnSlots(p', s);
      SlotsByParts(p, p', s);
    }
  }

  lemma TearDownSlots(p: Poller, s: string)
    requires SlotsExact(p) && Apart(p)
    ensures SlotsExact(TearDown(p, s)) && OnlyAbout(p, TearDown(p, s), s) && s !in TearDown(p, s).tracked
  {
    if s in p.tracked {
      TearDownScope(p, s);
      SlotsByParts(p, TearDown(p, s), s);
    }
  }

  lemma TearDownScope(p: Poller, s: string)
    requires SlotsExact(p) && Apart(p) && s in p.tracked
    ensures var p' := TearDown(p, s);
      OnlyAbout(p, p', s) && forall id :: id in p'.timeouts ==> p'.timeouts[id].sessionId != s
  {
    var p' := TearDown(p, s);
    assert SlotsLive(p, s);
    forall id | id in p.timeouts ensures InItsSlot(p, id) && (id in p'.timeouts <==> p.timeouts[id].sessionId != s) {
    }
  }

  lemma FireTickSlots(p: Poller, id: nat)
    requires SlotsExact(p) && Apart(p) && id in p.timeouts && p.timeouts[id].TickDue?
    ensures InItsSlot(p, id)
    ensures var s := p.timeouts[id].sessionId;
      var p' := TickBegin(Fired(p, id), s);
      SlotsExact(p') && OnlyAbout(p, p', s)
  {
    var s := p.timeouts[id].sessionId;
    assert InItsSlot(p, id) && SlotsLive(p, s);
    var p' := TickBegin(Fired(p, id), s);
    assert forall k :: k in p.timeouts ==> InItsSlot(p, k);
    assert OnlyAbout(p, p', s);
    assert OwnSlots(p', s);
    SlotsByParts(p, p', s);
  }

  lemma FireIdleSlots(p: Poller, id: nat)
    requires SlotsExact(p) && id in p.timeouts && p.timeouts[id].IdleDue?
    ensures InItsSlot(p, id)
    ensures TearDown(Fired(p, id), p.timeouts[id].sessionId) == TearDown(p, p.timeouts[id].sessionId)
  {
    assert InItsSlot(p, id);
    var s := p.timeouts[id].sessionId;
    assert SlotsLive(p, s);
    var cleared := Cleared(p.timeouts, EntryOf(p, s).timer);
    assert Cleared(p.timeouts - {id}, EntryOf(p, s).timer) - {id} == cleared - {id};
  }

  /** Bookkeeping outside the two slots. */
  lemma FlagSlots(p: Poller, ref: nat, e: Entry)
    requires SlotsExact(p) && ref < |p.entries|
    requires e.timer == p.entries[ref].timer && e.idleTimer == p.entries[ref].idleTimer
    ensures SlotsExact(SetEntry(p, ref, e))
  {
    var p' := SetEntry(p, ref, e);
    forall id | id in p.timeouts ensures InItsSlot(p', id) {
      assert InItsSlot(p, id);
    }
    forall s | s in p.tracked ensures SlotsLive(p', s) {
      assert SlotsLive(p, s);
    }
  }

  // ---------------------------------------------------------------- one session at a time

  /** Steps act on one session: its record is the one it had, or one nobody has seen. */
  ghost predicate SameOrNewRecord(p: Poller, p': Poller, s: string) {
    s in p'.tracked ==>
      && p'.tracked[s] < |p'.entries|
      && ((s in p.tracked && p'.tracked[s] == p.tracked[s]) || p'.tracked[s] >= |p.entries|)
  }

  /** Ticks come and go for `s` only, and a new one holds the record tracked now. */
  ghost predicate TicksAbout(w: World, w': World, s: string) {
    && (forall t :: t in w.inFlight && w.inFlight[t].sessionId != s ==>
        t in w'.inFlight && w'.inFlight[t] == w.inFlight[t])
    && (forall t :: t in w'.inFlight ==> t < w'.nextTick)
    && (forall t :: t in w'.inFlight ==>
          || (t in w.inFlight && w'.inFlight[t] == w.inFlight[t])
          || (s in w'.poller.tracked && w'.inFlight[t] == Tick(s, w'.poller.tracked[s])))
  }

  /** The flag and wake-up parts of the invariant for `s`. */
  ghost predicate OwnRest(w: World, s: string) {
    s in w.poller.tracked && w.poller.tracked[s] < |w.poller.entries| ==>
      && (EntryOf(w.poller, s).ticking ==> exists t :: t in w.inFlight && w.inFlight[t].ref == w.poller.tracked[s])
      && (Subscribed(w, s) ==> EntryOf(w.poller, s).idleTimer.None?)
      && (Subscribed(w, s) ==> EntryOf(w.poller, s).timer.Some? || EntryOf(w.poller, s).ticking)
  }

  lemma OwnersKept(w: World, w': World, s: string)
    requires Grounded(w.poller) && OwnersOk(w.poller, w.inFlight)
    requires OnlyAbout(w.poller, w'.poller, s) && SameOrNewRecord(w.poller, w'.poller, s) && TicksAbout(w, w', s)
    ensures OwnersOk(w'.poller, w'.inFlight)
  {
  }

  lemma FlagsKept(w: World, w': World, s: string)
    requires Grounded(w.poller) && OwnersOk(w.poller, w.inFlight) && FlagsOk(w.poller, w.inFlight)
    requires OnlyAbout(w.poller, w'.poller, s) && TicksAbout(w, w', s) && OwnRest(w', s)
    ensures FlagsOk(w'.poller, w'.inFlight)
  {
    var p, p' := w.poller, w'.poller;
    forall r | r in p'.tracked && p'.tracked[r] < |p'.entries| && EntryOf(p', r).ticking
      ensures exists t :: t in w'.inFlight && w'.inFlight[t].ref == p'.tracked[r]
    {
      if r != s {
        assert EntryOf(p, r).ticking;
        var t :| t in w.inFlight && w.inFlight[t].ref == p.tracked[r];
        assert w.inFlight[t].sessionId == r;
        assert t in w'.inFlight;
      }
    }
  }

  lemma StepByParts(w: World, w': World, s: string)
    requires Inv(w) && SlotsExact(w'.poller)
    requires OnlyAbout(w.poller, w'.poller, s) && SameOrNewRecord(w.poller, w'.poller, s) && TicksAbout(w, w', s)
    requires OwnRest(w', s) && w'.subscribers <= w'.clients && w'.clients <= w.clients && w.rooms <= w'.rooms
    requires forall r :: r != s && Subscribed(w', r) ==> Subscribed(w, r)
    ensures Inv(w')
  {
    OwnersKept(w, w', s);
    FlagsKept(w, w', s);
  }

  // ---------------------------------------------------------------- the steps

  lemma StartSlots(p: Poller, s: string, now: int)
    requires SlotsExact(p) && Apart(p)
    ensures var p' := Start(p, s, now);
      && SlotsExact(p') && OnlyAbout(p, p', s) && SameOrNewRecord(p, p', s) && s in p'.tracked
      && EntryOf(p', s).idleTimer.None? && (EntryOf(p', s).timer.Some? || EntryOf(p', s).ticking)
      && (EntryOf(p', s).ticking <==> s in p.tracked && EntryOf(p, s).ticking)
      && (s in p.tracked ==> p'.tracked == p.tracked)
  {
    var p0 := Track(p, s);
    TrackSlots(p, s);
    TrackApart(p, s);
    var p1 := CancelIdle(p0, s);
    CancelIdleSlots(p0, s);
    OnlyAboutTrans(p, p0, p1, s);
    var p2 := ScheduleNext(p1, s, 0, now);
    ScheduleSlots(p1, s, 0, now);
    OnlyAboutTrans(p, p1, p2, s);
    assert Start(p, s, now) == if EntryOf(p1, s).timer.Some? || EntryOf(p1, s).ticking then p1 else p2;
  }

  lemma TrackApart(p: Poller, s: string)
    requires Grounded(p) && Apart(p)
    ensures Apart(Track(p, s)) && SameOrNewRecord(p, Track(p, s), s)
  {
  }

  lemma OnlyAboutTrans(a: Poller, b: Poller, c: Poller, s: string)
    requires OnlyAbout(a, b, s) && OnlyAbout(b, c, s)
    ensures OnlyAbout(a, c, s)
  {
  }

  lemma StartKeepsInv(w: World, s: string, c: string)
    requires Inv(w) && (s, c) in w.clients
    ensures Inv(After(w, SubscribeAndStart(s, c)))
  {
    var w' := After(w, SubscribeAndStart(s, c));
    StartSlots(w.poller, s, w.now);
    StepByParts(w, w', s);
  }

  lemma CloseKeepsInv(w: World, s: string)
    requires Inv(w)
    ensures Inv(After(w, CloseCheck(s)))
  {
    if !Subscribed(w, s) {
      StopSlots(w.poller, s, w.now);
      StepByParts(w, After(w, CloseCheck(s)), s);
    }
  }

  lemma FireTickRest(w: World, id: nat)
    requires Inv(w) && Enabled(w, TickFires(id))
    ensures var w', s := After(w, TickFires(id)), w.poller.timeouts[id].sessionId;
      OwnRest(w', s) && SameOrNewRecord(w.poller, w'.poller, s) && TicksAbout(w, w', s)
  {
    var w', s := After(w, TickFires(id)), w.poller.timeouts[id].sessionId;
    assert InItsSlot(w.poller, id) && SlotsLive(w.poller, s);
    assert w.nextTick in w'.inFlight && w'.inFlight[w.nextTick] == Tick(s, w.poller.tracked[s]);
    assert Subscribed(w', s) ==> Subscribed(w, s);
  }

  lemma FireTickKeepsInv(w: World, id: nat)
    requires Inv(w) && Enabled(w, TickFires(id))
    ensures Inv(After(w, TickFires(id)))
  {
    FireTickSlots(w.poller, id);
    FireTickRest(w, id);
    StepByParts(w, After(w, TickFires(id)), w.poller.timeouts[id].sessionId);
  }

  lemma IdleFiresKeepsInv(w: World, id: nat)
    requires Inv(w) && Enabled(w, IdleFires(id))
    ensures Inv(After(w, IdleFires(id)))
  {
    var s := w.poller.timeouts[id].sessionId;
    FireIdleSlots(w.poller, id);
    TearDownSlots(w.poller, s);
    StepByParts(w, After(w, IdleFires(id)), s);
  }

  /** The tail of a tick, in two parts: the flag and the backoff of the record it holds, then either
      a tear-down or a re-arming of whatever record is tracked by then. */
  function Unflagged(w: World, t: nat, outcome: Outcome): Poller
    requires t in w.inFlight && w.inFlight[t].ref < |w.poller.entries|
  {
    var p, ref := w.poller, w.inFlight[t].ref;
    SetEntry(p, ref,
             p.entries[ref].(backoffMs := BackoffAfter(p.options, p.entries[ref].backoffMs, outcome), ticking := false))
  }

  lemma UnflaggedSlots(w: World, t: nat, outcome: Outcome)
    requires Inv(w) && t in w.inFlight
    ensures var p', s := Unflagged(w, t, outcome), w.inFlight[t].sessionId;
      && SlotsExact(p') && Apart(p') && OnlyAbout(w.poller, p', s) && p'.tracked == w.poller.tracked
      && (s in p'.tracked ==>
            && EntryOf(p', s).timer == EntryOf(w.poller, s).timer
            && EntryOf(p', s).idleTimer == EntryOf(w.poller, s).idleTimer
            && EntryOf(p', s).ticking == (EntryOf(w.poller, s).ticking && w.poller.tracked[s] != w.inFlight[t].ref))
  {
    var p, ref := w.poller, w.inFlight[t].ref;
    FlagSlots(p, ref,
              p.entries[ref].(backoffMs := BackoffAfter(p.options, p.entries[ref].backoffMs, outcome),
                              ticking := false));
  }

  /** The tail of a tick acts on its own session only. */
  lemma EndTickScope(w: World, t: nat, outcome: Outcome)
    requires Inv(w) && t in w.inFlight
    ensures var p' := After(w, TickEnds(t, outcome)).poller;
      SlotsExact(p') && OnlyAbout(w.poller, p', w.inFlight[t].sessionId)
  {
    var s, ref, p1 := w.inFlight[t].sessionId, w.inFlight[t].ref, Unflagged(w, t, outcome);
    UnflaggedSlots(w, t, outcome);
    TearDownSlots(p1, s);
    if s in p1.tracked {
      ScheduleSlots(p1, s, NextDelay(w.poller.options, w.poller.entries[ref].backoffMs, outcome), w.now);
    }
    OnlyAboutTrans(w.poller, p1, After(w, TickEnds(t, outcome)).poller, s);
  }

  lemma EndTickKeepsInv(w: World, t: nat, outcome: Outcome)
    requires Inv(w) && t in w.inFlight
    ensures Inv(After(w, TickEnds(t, outcome)))
  {
    EndTickScope(w, t, outcome);
    EndTickRest(w, t, outcome);
    StepByParts(w, After(w, TickEnds(t, outcome)), w.inFlight[t].sessionId);
  }

  lemma EndTickRest(w: World, t: nat, outcome: Outcome)
    requires Inv(w) && t in w.inFlight
    ensures var w', s := After(w, TickEnds(t, outcome)), w.inFlight[t].sessionId;
      OwnRest(w', s) && SameOrNewRecord(w.poller, w'.poller, s) && TicksAbout(w, w', s)
  {
    var s, p1 := w.inFlight[t].sessionId, Unflagged(w, t, outcome);
    var w' := After(w, TickEnds(t, outcome));
    UnflaggedSlots(w, t, outcome);
    if s in w'.poller.tracked && EntryOf(w'.poller, s).ticking {
      var t' :| t' in w.inFlight && w.inFlight[t'].ref == w.poller.tracked[s];
      assert t' in w'.inFlight;
    }
  }

  /** Every step, in every state the invariant allows, keeps the invariant: outstanding timeouts are
      exactly what the slots hold, and no tracked session with a subscriber is left asleep. */
  lemma StepKeepsInv(w: World, step: Step)
    requires Inv(w)
    ensures Inv(After(w, step))
  {
    if Enabled(w, step) {
      match step
      case Connect(_, _) =>
      case SubscribeAndStart(s, c) => StartKeepsInv(w, s, c);
      case Disconnect(s, c) => DisconnectKeepsInv(w, s, c);
      case CloseCheck(s) => CloseKeepsInv(w, s);
      case TickFires(id) => FireTickKeepsInv(w, id);
      case TickEnds(t, outcome) => EndTickKeepsInv(w, t, outcome);
      case IdleFires(id) => IdleFiresKeepsInv(w, id);
      case TimePasses(_) =>
    }
  }

  lemma DisconnectKeepsInv(w: World, s: string, c: string)
    requires Inv(w)
    ensures Inv(After(w, Disconnect(s, c)))
  {
    var w' := After(w, Disconnect(s, c));
    assert forall r :: Subscribed(w', r) ==> Subscribed(w, r);
  }
}
