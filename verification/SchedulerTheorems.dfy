/** What holds over every run of the scheduler, and exactly when two tick chains can overlap. */
module SchedulerTheorems {
  import opened Collections
  import opened Scheduler
  import opened SchedulerSteps

  /** The state after the steps of `run`, oldest first. A step that is not enabled does nothing. */
  function RunFrom(w: World, run: seq<Step>): (w': World)
    requires Inv(w)
    ensures Inv(w')
    decreases |run|
  {
    if run == [] then w else
      StepKeepsInv(RunFrom(w, Init(run)), Last(run));
      After(RunFrom(w, Init(run)), Last(run))
  }

  function Boot(o: Options, now: int): (w: World)
    ensures Inv(w) && SingleChain(w)
  {
    World(Poller(o, [], map[], map[], 0), map[], 0, {}, {}, {}, now)
  }

  // ---------------------------------------------------------------- no orphan, no lost wake-up

  function TickTimeouts(p: Poller): set<nat> {
    set id | id in p.timeouts && p.timeouts[id].TickDue?
  }

  function IdleTimeouts(p: Poller): set<nat> {
    set id | id in p.timeouts && p.timeouts[id].IdleDue?
  }

  function TickSlots(p: Poller): set<nat>
    requires Grounded(p)
  {
    set s | s in p.tracked && EntryOf(p, s).timer.Some? :: EntryOf(p, s).timer.value
  }

  function IdleSlots(p: Poller): set<nat>
    requires Grounded(p)
  {
    set s | s in p.tracked && EntryOf(p, s).idleTimer.Some? :: EntryOf(p, s).idleTimer.value
  }

  lemma SlotsAreTimeouts(p: Poller)
    requires SlotsExact(p)
    ensures TickTimeouts(p) == TickSlots(p) && IdleTimeouts(p) == IdleSlots(p)
  {
    assert forall id :: id in p.timeouts ==> InItsSlot(p, id);
    assert forall s :: s in p.tracked ==> SlotsLive(p, s);
  }

  /** Over every interleaving of opens, closes, tick ends and timeouts: the outstanding tick and idle
      timeouts are exactly those the tracked records hold, and a tracked session with a subscriber has
      no tear-down pending and is either armed or has a tick in flight that holds its record. */
  lemma NoOrphanAndNoLostWakeUp(o: Options, now: int, run: seq<Step>)
    ensures var w := RunFrom(Boot(o, now), run);
      && TickTimeouts(w.poller) == TickSlots(w.poller) && IdleTimeouts(w.poller) == IdleSlots(w.poller)
      && forall s :: s in w.poller.tracked && Subscribed(w, s) ==>
           && EntryOf(w.poller, s).idleTimer.None?
           && (EntryOf(w.poller, s).timer.Some? || exists t ::
               t in w.inFlight && w.inFlight[t] == Tick(s, w.poller.tracked[s]))
  {
    var w := RunFrom(Boot(o, now), run);
    SlotsAreTimeouts(w.poller);
    forall s | s in w.poller.tracked && Subscribed(w, s) && EntryOf(w.poller, s).timer.None?
      ensures exists t :: t in w.inFlight && w.inFlight[t] == Tick(s, w.poller.tracked[s])
    {
      var t :| t in w.inFlight && w.inFlight[t].ref == w.poller.tracked[s];
      assert w.inFlight[t] == Tick(s, w.poller.tracked[s]);
    }
  }

  // ---------------------------------------------------------------- one chain per session

  function InFlightOf(w: World, s: string): set<nat> {
    set t | t in w.inFlight && w.inFlight[t].sessionId == s
  }

  /** The ticks that are, or will be, working for the session. */
  function Chains(w: World, s: string): nat
    requires Grounded(w.poller)
  {
    |InFlightOf(w, s)| + if s in w.poller.tracked && EntryOf(w.poller, s).timer.Some? then 1 else 0
  }

  /** A tick in flight holds its session's tracked record, is flagged there, is alone, and nothing is
      armed behind it. */
  ghost predicate SingleChain(w: World) {
    && (forall t :: t in w.inFlight ==> HoldsTracked(w, t))
    && (forall t, u :: t in w.inFlight && u in w.inFlight && w.inFlight[t].sessionId == w.inFlight[u].sessionId ==>
        t == u)
  }

  predicate HoldsTracked(w: World, t: nat)
    requires t in w.inFlight
  {
    var tick, p := w.inFlight[t], w.poller;
    && tick.sessionId in p.tracked && p.tracked[tick.sessionId] == tick.ref && tick.ref < |p.entries|
    && p.entries[tick.ref].ticking && p.entries[tick.ref].timer.None?
  }

  lemma SingleMeansOne(w: World, s: string)
    requires Inv(w) && SingleChain(w)
    ensures Chains(w, s) <= 1
  {
    var ts := InFlightOf(w, s);
    if ts != {} {
      var t :| t in ts;
      assert ts == {t};
      assert HoldsTracked(w, t);
    }
  }

  /** An idle tear-down while a tick of the same session is in flight. */
  predicate TearsDownMidTick(w: World, step: Step) {
    && step.IdleFires? && Enabled(w, step)
    && InFlightOf(w, w.poller.timeouts[step.id].sessionId) != {}
  }

  /** Ticks of other sessions do not notice a step on `s`. */
  lemma OthersHold(w: World, w': World, s: string, t: nat)
    requires Inv(w) && OnlyAbout(w.poller, w'.poller, s)
    requires t in w.inFlight && t in w'.inFlight && w'.inFlight[t] == w.inFlight[t]
    requires w.inFlight[t].sessionId != s && HoldsTracked(w, t)
    ensures HoldsTracked(w', t)
  {
  }

  lemma FireTickSingle(w: World, id: nat)
    requires Inv(w) && SingleChain(w) && Enabled(w, TickFires(id))
    ensures SingleChain(After(w, TickFires(id)))
  {
    var w', s := After(w, TickFires(id)), w.poller.timeouts[id].sessionId;
    FireTickSlots(w.poller, id);
    assert w'.inFlight == w.inFlight[w.nextTick := Tick(s, w.poller.tracked[s])];
    ArmedIsAlone(w, id);
    forall t | t in w'.inFlight ensures HoldsTracked(w', t) {
      if t != w.nextTick {
        assert HoldsTracked(w, t);
        OthersHold(w, w', s, t);
      }
    }
  }

  /** Behind an armed tick nothing is in flight. */
  lemma ArmedIsAlone(w: World, id: nat)
    requires Inv(w) && SingleChain(w) && id in w.poller.timeouts && w.poller.timeouts[id].TickDue?
    ensures forall t :: t in w.inFlight ==> w.inFlight[t].sessionId != w.poller.timeouts[id].sessionId
  {
    forall t | t in w.inFlight ensures w.inFlight[t].sessionId != w.poller.timeouts[id].sessionId {
      assert HoldsTracked(w, t) && InItsSlot(w.poller, id);
    }
  }

  /** When the ticks of `s` go away, what remains is single. */
  lemma RemainingSingle(w: World, w': World, s: string)
    requires Inv(w) && SingleChain(w) && OnlyAbout(w.poller, w'.poller, s)
    requires forall t :: t in w'.inFlight ==>
      t in w.inFlight && w'.inFlight[t] == w.inFlight[t] && w.inFlight[t].sessionId != s
    ensures SingleChain(w')
  {
    forall t | t in w'.inFlight ensures HoldsTracked(w', t) {
      assert HoldsTracked(w, t);
      OthersHold(w, w', s, t);
    }
  }

  lemma EndTickSingle(w: World, t: nat, outcome: Outcome)
    requires Inv(w) && SingleChain(w) && t in w.inFlight
    ensures SingleChain(After(w, TickEnds(t, outcome)))
  {
    EndTickScope(w, t, outcome);
    RemainingSingle(w, After(w, TickEnds(t, outcome)), w.inFlight[t].sessionId);
  }

  lemma StartSingle(w: World, s: string, c: string)
    requires Inv(w) && SingleChain(w)
    ensures SingleChain(After(w, SubscribeAndStart(s, c)))
  {
    var w' := After(w, SubscribeAndStart(s, c));
    StartSlots(w.poller, s, w.now);
    forall t | t in w'.inFlight ensures HoldsTracked(w', t) {
      assert HoldsTracked(w, t);
    }
  }

  lemma CloseSingle(w: World, s: string)
    requires Inv(w) && SingleChain(w)
    ensures SingleChain(After(w, CloseCheck(s)))
  {
    var w' := After(w, CloseCheck(s));
    StopSlots(w.poller, s, w.now);
    forall t | t in w'.inFlight ensures HoldsTracked(w', t) {
      assert HoldsTracked(w, t);
    }
  }

  lemma IdleFiresSingle(w: World, id: nat)
    requires Inv(w) && SingleChain(w) && Enabled(w, IdleFires(id)) && !TearsDownMidTick(w, IdleFires(id))
    ensures SingleChain(After(w, IdleFires(id)))
  {
    var w', s := After(w, IdleFires(id)), w.poller.timeouts[id].sessionId;
    FireIdleSlots(w.poller, id);
    TearDownSlots(w.poller, s);
    forall t | t in w.inFlight ensures w.inFlight[t].sessionId != s {
      assert t !in InFlightOf(w, s);
    }
    RemainingSingle(w, w', s);
  }

  lemma StepKeepsSingle(w: World, step: Step)
    requires Inv(w) && SingleChain(w) && !TearsDownMidTick(w, step)
    ensures SingleChain(After(w, step))
  {
    if Enabled(w, step) {
      match step
      case SubscribeAndStart(s, c) => StartSingle(w, s, c);
      case CloseCheck(s) => CloseSingle(w, s);
      case TickFires(id) => FireTickSingle(w, id);
      case TickEnds(t, outcome) => EndTickSingle(w, t, outcome);
      case IdleFires(id) => IdleFiresSingle(w, id);
      case _ => assert forall t :: t in w.inFlight ==> HoldsTracked(w, t);
    }
  }

  ghost predicate NeverMidTick(w: World, run: seq<Step>)
    requires Inv(w)
    decreases |run|
  {
    run == [] || (NeverMidTick(w, Init(run)) && !TearsDownMidTick(RunFrom(w, Init(run)), Last(run)))
  }

  /** As long as no idle tear-down lands in the middle of a tick, a session never has a second chain:
      at most one tick in flight, and never one in flight with another armed. */
  lemma {:induction false} OneChainPerSession(w: World, run: seq<Step>)
    requires Inv(w) && SingleChain(w) && NeverMidTick(w, run)
    ensures SingleChain(RunFrom(w, run)) && forall s :: Chains(RunFrom(w, run), s) <= 1
    decreases |run|
  {
    if run != [] {
      OneChainPerSession(w, Init(run));
      StepKeepsSingle(RunFrom(w, Init(run)), Last(run));
    }
    forall s ensures Chains(RunFrom(w, run), s) <= 1 {
      SingleMeansOne(RunFrom(w, run), s);
    }
  }

  /** Some continuation without a further mid-tick tear-down runs two ticks of the session at once. */
  ghost predicate CanOverlap(w: World, s: string)
    requires Inv(w)
  {
    exists run :: NeverMidTick(w, run) && |InFlightOf(RunFrom(w, run), s)| >= 2
  }

  lemma RunSnoc(w: World, run: seq<Step>, step: Step)
    requires Inv(w)
    ensures RunFrom(w, run + [step]) == After(RunFrom(w, run), step)
    ensures NeverMidTick(w, run) && !TearsDownMidTick(RunFrom(w, run), step) ==> NeverMidTick(w, run + [step])
  {
    assert Init(run + [step]) == run && Last(run + [step]) == step;
  }

  lemma RunOfThree(w: World, a: Step, b: Step, c: Step)
    requires Inv(w) && Inv(After(w, a)) && Inv(After(After(w, a), b))
    requires !a.IdleFires? && !b.IdleFires? && !c.IdleFires?
    ensures var run := [] + [a] + [b] + [c];
      RunFrom(w, run) == After(After(After(w, a), b), c) && NeverMidTick(w, run)
  {
    RunSnoc(w, [], a);
    RunSnoc(w, [] + [a], b);
    RunSnoc(w, [] + [a] + [b], c);
  }

  /** Reopening a session whose old tick is still in flight runs a second one beside it. */
  lemma ReopeningOverlaps(w: World, s: string, t: nat)
    requires Inv(w) && s !in w.poller.tracked && t in InFlightOf(w, s)
    ensures CanOverlap(w, s)
  {
    var connect, subscribe, fire := Connect(s, ""), SubscribeAndStart(s, ""), TickFires(w.poller.nextTimer);
    ReopenedState(w, s);
    FiringOverlaps(After(After(w, connect), subscribe), s, t, w.poller.nextTimer);
    RunOfThree(w, connect, subscribe, fire);
    var run := [] + [connect] + [subscribe] + [fire];
    assert NeverMidTick(w, run) && |InFlightOf(RunFrom(w, run), s)| >= 2;
  }

  lemma ReopenedState(w: World, s: string)
    requires Inv(w) && s !in w.poller.tracked
    ensures Inv(After(w, Connect(s, ""))) && Inv(After(After(w, Connect(s, "")), SubscribeAndStart(s, "")))
    ensures var w2, id := After(After(w, Connect(s, "")), SubscribeAndStart(s, "")), w.poller.nextTimer;
      && w2.inFlight == w.inFlight && Enabled(w2, TickFires(id)) && w2.poller.timeouts[id].sessionId == s
  {
    var w1 := After(w, Connect(s, ""));
    StepKeepsInv(w, Connect(s, ""));
    StepKeepsInv(w1, SubscribeAndStart(s, ""));
    FreshStart(w1.poller, s, w1.now);
  }

  lemma FiringOverlaps(w: World, s: string, t: nat, id: nat)
    requires Inv(w) && t in InFlightOf(w, s) && Enabled(w, TickFires(id)) && w.poller.timeouts[id].sessionId == s
    ensures |InFlightOf(After(w, TickFires(id)), s)| >= 2
  {
    assert InItsSlot(w.poller, id);
    CardinalityAtLeast(InFlightOf(After(w, TickFires(id)), s), t, w.nextTick);
  }

  lemma CardinalityAtLeast<T>(s: set<T>, a: T, b: T)
    requires a in s && b in s && a != b
    ensures |s| >= 2
  {
    assert s == {a, b} + (s - {a, b});
  }

  /** Starting an untracked session arms a tick that is due at once. */
  lemma FreshStart(p: Poller, s: string, now: int)
    requires SlotsExact(p) && s !in p.tracked
    ensures var p' := Start(p, s, now);
      p.nextTimer in p'.timeouts && p'.timeouts[p.nextTimer] == TickDue(s, now)
  {
    var p1 := CancelIdle(Track(p, s), s);
    assert EntryOf(p1, s) == FRESH_ENTRY;
  }

  /** From a state with single chains, an idle tear-down opens the way to overlapping ticks exactly
      when it lands in the middle of a tick. */
  lemma OverlapExact(w: World, id: nat)
    requires Inv(w) && SingleChain(w) && Enabled(w, IdleFires(id))
    ensures Inv(After(w, IdleFires(id)))
    ensures CanOverlap(After(w, IdleFires(id)), w.poller.timeouts[id].sessionId) <==> TearsDownMidTick(w, IdleFires(id))
  {
    var s, w' := w.poller.timeouts[id].sessionId, After(w, IdleFires(id));
    StepKeepsInv(w, IdleFires(id));
    if TearsDownMidTick(w, IdleFires(id)) {
      var t :| t in InFlightOf(w, s);
      FireIdleSlots(w.poller, id);
      TearDownSlots(w.poller, s);
      assert t in InFlightOf(w', s);
      ReopeningOverlaps(w', s, t);
    } else {
      StepKeepsSingle(w, IdleFires(id));
      forall run | NeverMidTick(w', run) ensures |InFlightOf(RunFrom(w', run), s)| < 2 {
        OneChainPerSession(w', run);
        assert Chains(RunFrom(w', run), s) <= 1;
      }
    }
  }

  // ---------------------------------------------------------------- an armed tick keeps its due time

  /** With single chains, an armed tick is taken away only by firing, never early, or by the idle
      tear-down of its session. */
  lemma ArmedStays(w: World, step: Step, s: string, id: nat)
    requires Inv(w) && SingleChain(w) && HoldsTick(w.poller, s, id)
    ensures var w' := After(w, step);
      || (id in w'.poller.timeouts && w'.poller.timeouts[id] == w.poller.timeouts[id])
      || (step == TickFires(id) && w.poller.timeouts[id].due <= w.now)
      || (step.IdleFires? && Enabled(w, step) && w.poller.timeouts[step.id].sessionId == s)
  {
    if Enabled(w, step) {
      assert InItsSlot(w.poller, id);
      match step
      case SubscribeAndStart(r, c) => StartKeepsArmed(w.poller, r, w.now, s, id);
      case CloseCheck(r) => StopKeepsArmed(w.poller, r, w.now, id);
      case TickFires(k) =>
        if k != id {
          FireKeepsOthers(w, k, id);
        }
      case TickEnds(t, outcome) => EndTickKeepsArmed(w, t, outcome, s, id);
      case IdleFires(k) =>
        FireIdleSlots(w.poller, k);
        TearDownSlots(w.poller, w.poller.timeouts[k].sessionId);
      case _ =>
    }
  }

  lemma StopKeepsArmed(p: Poller, r: string, now: int, id: nat)
    requires SlotsExact(p) && id in p.timeouts
    ensures id in Stop(p, r, now).timeouts && Stop(p, r, now).timeouts[id] == p.timeouts[id]
  {
    NextIsNew(p);
  }

  lemma FireKeepsOthers(w: World, k: nat, id: nat)
    requires Inv(w) && Enabled(w, TickFires(k)) && id in w.poller.timeouts && id != k
    ensures var timeouts := After(w, TickFires(k)).poller.timeouts;
      id in timeouts && timeouts[id] == w.poller.timeouts[id]
  {
  }

  lemma StartKeepsArmed(p: Poller, r: string, now: int, s: string, id: nat)
    requires SlotsExact(p) && Apart(p) && HoldsTick(p, s, id)
    ensures id in Start(p, r, now).timeouts && Start(p, r, now).timeouts[id] == p.timeouts[id]
  {
    assert InItsSlot(p, id);
    StartSlots(p, r, now);
    if r == s {
      assert SlotsLive(p, s);
    }
  }

  lemma EndTickKeepsArmed(w: World, t: nat, outcome: Outcome, s: string, id: nat)
    requires Inv(w) && SingleChain(w) && HoldsTick(w.poller, s, id) && t in w.inFlight
    ensures var w' := After(w, TickEnds(t, outcome));
      id in w'.poller.timeouts && w'.poller.timeouts[id] == w.poller.timeouts[id]
  {
    assert HoldsTracked(w, t) && InItsSlot(w.poller, id);
    EndTickScope(w, t, outcome);
  }

  predicate StillArmed(w: World, id: nat, t: Timeout) {
    id in w.poller.timeouts && w.poller.timeouts[id] == t
  }

  /** The step fires the timeout at or after `due`, or tears its session down. */
  predicate LetGo(v: World, step: Step, s: string, id: nat, due: int) {
    || (step == TickFires(id) && due <= v.now)
    || (step.IdleFires? && Enabled(v, step) && v.poller.timeouts[step.id].sessionId == s)
  }

  lemma ArmedStep(v: World, step: Step, s: string, id: nat, t: Timeout)
    requires Inv(v) && SingleChain(v) && StillArmed(v, id, t) && t.TickDue? && t.sessionId == s
    ensures StillArmed(After(v, step), id, t) || LetGo(v, step, s, id, t.due)
  {
    ArmedStays(v, step, s, id);
  }

  /** Some step of the run let the timeout go. */
  ghost predicate LetGoDuring(w: World, run: seq<Step>, s: string, id: nat, due: int)
    requires Inv(w)
  {
    exists k :: 0 <= k < |run| && LetGo(RunFrom(w, run[..k]), run[k], s, id, due)
  }

  lemma LetGoBefore(w: World, run: seq<Step>, h: seq<Step>, s: string, id: nat, due: int)
    requires Inv(w) && h <= run && LetGoDuring(w, h, s, id, due)
    ensures LetGoDuring(w, run, s, id, due)
  {
    var k: nat :| k < |h| && LetGo(RunFrom(w, h[..k]), h[k], s, id, due);
    assert h[..k] == run[..k];
    LetGoAt(w, run, k, RunFrom(w, h[..k]), s, id, due);
  }

  lemma LetGoAt(w: World, run: seq<Step>, k: nat, v: World, s: string, id: nat, due: int)
    requires Inv(w) && k < |run| && v == RunFrom(w, run[..k]) && LetGo(v, run[k], s, id, due)
    ensures LetGoDuring(w, run, s, id, due)
  {
  }

  lemma LetGoNow(w: World, h: seq<Step>, step: Step, v: World, s: string, id: nat, due: int)
    requires Inv(w) && v == RunFrom(w, h)
    ensures LetGo(v, step, s, id, due) ==> LetGoDuring(w, h + [step], s, id, due)
  {
    var run := h + [step];
    assert run[..|h|] == h && run[|h|] == step;
    if LetGo(v, step, s, id, due) {
      LetGoAt(w, run, |h|, v, s, id, due);
    }
  }

  /** The disjunction that is kept through a run. */
  ghost predicate ArmedOrLetGo(w: World, run: seq<Step>, v: World, s: string, id: nat, t: Timeout)
    requires Inv(w)
  {
    StillArmed(v, id, t) || LetGoDuring(w, run, s, id, t.due)
  }

  lemma ArmedNext(w: World, h: seq<Step>, step: Step, v: World, s: string, id: nat, t: Timeout)
    requires Inv(w) && Inv(v) && SingleChain(v) && v == RunFrom(w, h)
    requires t.TickDue? && t.sessionId == s && ArmedOrLetGo(w, h, v, s, id, t)
    ensures ArmedOrLetGo(w, h + [step], After(v, step), s, id, t)
  {
    if StillArmed(v, id, t) {
      ArmedStep(v, step, s, id, t);
      LetGoNow(w, h, step, v, s, id, t.due);
    } else {
      LetGoBefore(w, h + [step], h, s, id, t.due);
    }
  }

  lemma RunStaysSingle(w: World, h: seq<Step>)
    requires Inv(w) && SingleChain(w) && NeverMidTick(w, h)
    ensures SingleChain(RunFrom(w, h))
  {
    OneChainPerSession(w, h);
  }

  lemma ArmedRun(w: World, run: seq<Step>, h: seq<Step>, step: Step, s: string, id: nat, t: Timeout)
    requires Inv(w) && SingleChain(w) && NeverMidTick(w, h) && t.TickDue? && t.sessionId == s
    requires run == h + [step] && ArmedOrLetGo(w, h, RunFrom(w, h), s, id, t)
    ensures ArmedOrLetGo(w, run, RunFrom(w, run), s, id, t)
  {
    var v := RunFrom(w, h);
    RunStaysSingle(w, h);
    ArmedNext(w, h, step, v, s, id, t);
    RunSnoc(w, h, step);
  }

  /** Over any run without mid-tick tear-downs an armed tick stays armed for its due time until it
      fires then or later, or its session is torn down for idleness. */
  lemma {:induction false} ArmedUntilDue(w: World, run: seq<Step>, s: string, id: nat)
    requires Inv(w) && SingleChain(w) && HoldsTick(w.poller, s, id) && NeverMidTick(w, run)
    ensures ArmedOrLetGo(w, run, RunFrom(w, run), s, id, w.poller.timeouts[id])
    decreases |run|
  {
    var t := w.poller.timeouts[id];
    if run == [] {
      assert StillArmed(RunFrom(w, run), id, t);
    } else {
      var h, step := Init(run), Last(run);
      assert run == h + [step];
      assert NeverMidTick(w, h);
      ArmedUntilDue(w, h, s, id);
      ArmedRun(w, run, h, step, s, id, t);
    }
  }

  // ---------------------------------------------------------------- the idle grace

  /** The latest instant of the run at which the session had a subscriber. */
  function LastBusy(w: World, run: seq<Step>, s: string): Option<int>
    requires Inv(w)
    decreases |run|
  {
    var v := RunFrom(w, run);
    if Subscribed(v, s) then Some(v.now)
    else if run == [] then None
    else LastBusy(w, Init(run), s)
  }

  lemma OptionsStay(w: World, step: Step)
    requires Inv(w)
    ensures After(w, step).poller.options == w.poller.options && w.now <= After(w, step).now
  {
  }

  lemma {:induction false} BusyBeforeNow(w: World, run: seq<Step>, s: string)
    requires Inv(w)
    ensures LastBusy(w, run, s).Some? ==> LastBusy(w, run, s).value <= RunFrom(w, run).now
    ensures RunFrom(w, run).poller.options == w.poller.options
    decreases |run|
  {
    if run != [] {
      BusyBeforeNow(w, Init(run), s);
      OptionsStay(RunFrom(w, Init(run)), Last(run));
    }
  }

  /** The tear-down pending for `s` in `p'` was pending in `p`. */
  ghost predicate IdleWas(p: Poller, p': Poller, s: string)
    requires Grounded(p')
  {
    s in p'.tracked && EntryOf(p', s).idleTimer.Some? ==>
      var id := EntryOf(p', s).idleTimer.value;
      HoldsIdle(p, s, id) && id in p'.timeouts && p'.timeouts[id] == p.timeouts[id]
  }

  lemma OthersIdleWas(p: Poller, p': Poller, r: string, s: string)
    requires SlotsExact(p) && SlotsExact(p') && OnlyAbout(p, p', r) && s != r
    ensures IdleWas(p, p', s)
  {
    if s in p'.tracked {
      assert SlotsLive(p, s) && SlotsLive(p', s);
    }
  }

  lemma RearmKeepsIdle(p: Poller, s: string, delayMs: int, room: Room, now: int)
    requires Grounded(p) && s in Rearm(p, s, delayMs, room, now).tracked
    ensures var p' := Rearm(p, s, delayMs, room, now);
      && s in p.tracked && p'.tracked[s] < |p'.entries| && EntryOf(p', s).idleTimer == EntryOf(p, s).idleTimer
      && (EntryOf(p, s).idleTimer.Some? ==> p' == p)
  {
  }

  /** A pending tear-down of a session that stays tracked is left as it is. */
  lemma EndTickKeepsIdle(w: World, t: nat, outcome: Outcome)
    requires Inv(w) && t in w.inFlight
    requires w.inFlight[t].sessionId in After(w, TickEnds(t, outcome)).poller.tracked
    ensures var s, p, p' := w.inFlight[t].sessionId, w.poller, After(w, TickEnds(t, outcome)).poller;
      && s in p.tracked && p'.tracked[s] < |p'.entries| && EntryOf(p', s).idleTimer == EntryOf(p, s).idleTimer
      && (EntryOf(p, s).idleTimer.Some? ==> p'.timeouts == p.timeouts)
  {
    var s, p1 := w.inFlight[t].sessionId, Unflagged(w, t, outcome);
    var p2 := if outcome.Dropped? then TearDown(p1, s) else p1;
    var delayMs := NextDelay(w.poller.options, w.poller.entries[w.inFlight[t].ref].backoffMs, outcome);
    UnflaggedSlots(w, t, outcome);
    assert After(w, TickEnds(t, outcome)).poller == Rearm(p2, s, delayMs, RoomOf(w, s), w.now);
    RearmKeepsIdle(p2, s, delayMs, RoomOf(w, s), w.now);
  }

  lemma EndTickIdleWas(w: World, t: nat, outcome: Outcome)
    requires Inv(w) && t in w.inFlight
    ensures Grounded(After(w, TickEnds(t, outcome)).poller)
    ensures IdleWas(w.poller, After(w, TickEnds(t, outcome)).poller, w.inFlight[t].sessionId)
  {
    var s, p, p' := w.inFlight[t].sessionId, w.poller, After(w, TickEnds(t, outcome)).poller;
    EndTickScope(w, t, outcome);
    if s in p'.tracked {
      EndTickKeepsIdle(w, t, outcome);
      assert SlotsLive(p, s) && SlotsLive(p', s);
    }
  }

  lemma FireTickIdleWas(p: Poller, id: nat)
    requires SlotsExact(p) && Apart(p) && id in p.timeouts && p.timeouts[id].TickDue?
    ensures InItsSlot(p, id)
    ensures var p' := TickBegin(Fired(p, id), p.timeouts[id].sessionId);
      SlotsExact(p') && IdleWas(p, p', p.timeouts[id].sessionId)
  {
    FireTickSlots(p, id);
    assert SlotsLive(p, p.timeouts[id].sessionId);
  }

  /** A tear-down pending for `s` was pending before the step, or the step queued it with nobody
      subscribed. */
  lemma IdleCause(w: World, step: Step, s: string)
    requires Inv(w)
    ensures Inv(After(w, step))
    ensures var w' := After(w, step);
      || IdleWas(w.poller, w'.poller, s)
      || (step == CloseCheck(s) && !Subscribed(w, s) && IdleQueued(w, w', s))
  {
    StepKeepsInv(w, step);
    if Enabled(w, step) {
      match step
      case SubscribeAndStart(r, c) =>
        StartSlots(w.poller, r, w.now);
        SelfOrOther(w, step, r, s);
      case CloseCheck(r) =>
        StopSlots(w.poller, r, w.now);
        SelfOrOther(w, step, r, s);
        StopQueues(w, s);
      case TickFires(id) =>
        FireTickIdleWas(w.poller, id);
        FireTickSlots(w.poller, id);
        SelfOrOther(w, step, w.poller.timeouts[id].sessionId, s);
      case TickEnds(t, outcome) =>
        EndTickIdleWas(w, t, outcome);
        EndTickScope(w, t, outcome);
        SelfOrOther(w, step, w.inFlight[t].sessionId, s);
      case IdleFires(id) =>
        FireIdleSlots(w.poller, id);
        TearDownSlots(w.poller, w.poller.timeouts[id].sessionId);
        SelfOrOther(w, step, w.poller.timeouts[id].sessionId, s);
      case _ => SameIdleWas(w.poller, s);
    } else {
      SameIdleWas(w.poller, s);
    }
  }

  lemma SameIdleWas(p: Poller, s: string)
    requires SlotsExact(p)
    ensures IdleWas(p, p, s)
  {
    if s in p.tracked {
      assert SlotsLive(p, s);
    }
  }

  lemma SelfOrOther(w: World, step: Step, r: string, s: string)
    requires Inv(w) && Inv(After(w, step))
      && (OnlyAbout(w.poller, After(w, step).poller, r) || w.poller == After(w, step).poller)
    ensures s != r ==> IdleWas(w.poller, After(w, step).poller, s)
  {
    if s != r {
      if w.poller == After(w, step).poller {
        SameIdleWas(w.poller, s);
      } else {
        OthersIdleWas(w.poller, After(w, step).poller, r, s);
      }
    }
  }

  ghost predicate IdleQueued(w: World, w': World, s: string)
    requires Grounded(w'.poller)
  {
    s in w'.poller.tracked && EntryOf(w'.poller, s).idleTimer.Some? ==>
      var id := EntryOf(w'.poller, s).idleTimer.value;
      id in w'.poller.timeouts && w'.poller.timeouts[id].due == w.now + w.poller.options.idleGraceMs
  }

  lemma StopQueues(w: World, s: string)
    requires Inv(w)
    ensures Inv(After(w, CloseCheck(s)))
    ensures var w' := After(w, CloseCheck(s));
      IdleWas(w.poller, w'.poller, s) || (!Subscribed(w, s) && IdleQueued(w, w', s))
  {
    StepKeepsInv(w, CloseCheck(s));
    if Subscribed(w, s) || s !in w.poller.tracked || EntryOf(w.poller, s).idleTimer.Some? {
      SameIdleWas(w.poller, s);
    }
  }

  /** A pending tear-down is due a full grace after the session's last subscriber. */
  ghost predicate IdleIsLate(w: World, busy: Option<int>, s: string)
    requires Grounded(w.poller)
  {
    s in w.poller.tracked ==>
      && busy.Some?
      && (EntryOf(w.poller, s).idleTimer.Some? ==>
            var id := EntryOf(w.poller, s).idleTimer.value;
            id in w.poller.timeouts && w.poller.timeouts[id].due >= busy.value + w.poller.options.idleGraceMs)
  }

  /** Only a subscriber makes the poller track a session. */
  lemma TrackCause(w: World, step: Step, s: string)
    requires Inv(w) && s in After(w, step).poller.tracked
    ensures s in w.poller.tracked || Subscribed(After(w, step), s)
  {
    if Enabled(w, step) {
      match step
      case SubscribeAndStart(r, c) =>
        StartSlots(w.poller, r, w.now);
        assert (r, c) in After(w, step).subscribers;
      case TickEnds(t, outcome) => EndTickScope(w, t, outcome);
      case _ =>
    }
  }

  lemma {:induction false} IdleAlwaysLate(o: Options, now: int, run: seq<Step>, s: string)
    ensures IdleIsLate(RunFrom(Boot(o, now), run), LastBusy(Boot(o, now), run, s), s)
    decreases |run|
  {
    if run != [] {
      var w, step := RunFrom(Boot(o, now), Init(run)), Last(run);
      var w' := After(w, step);
      IdleAlwaysLate(o, now, Init(run), s);
      BusyBeforeNow(Boot(o, now), Init(run), s);
      OptionsStay(w, step);
      IdleCause(w, step, s);
      if s in w'.poller.tracked && !Subscribed(w', s) {
        TrackCause(w, step, s);
        assert SlotsLive(w'.poller, s);
      }
    }
  }

  /** Over every run, an idle tear-down fires only for a session without subscribers, and not before a
      full grace period has passed since it last had one. */
  lemma IdleTearDownIsLate(o: Options, now: int, run: seq<Step>, id: nat)
    requires Enabled(RunFrom(Boot(o, now), run), IdleFires(id))
    ensures var w := RunFrom(Boot(o, now), run);
      var s := w.poller.timeouts[id].sessionId;
      var busy := LastBusy(Boot(o, now), run, s);
      !Subscribed(w, s) && busy.Some? && w.now >= busy.value + o.idleGraceMs
  {
    var w := RunFrom(Boot(o, now), run);
    var s := w.poller.timeouts[id].sessionId;
    assert InItsSlot(w.poller, id);
    IdleAlwaysLate(o, now, run, s);
    BusyBeforeNow(Boot(o, now), run, s);
  }
}
