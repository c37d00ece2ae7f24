/** The poller under a provider cooldown: a refused tick waits out the window that refused it. */
module Backoff {
  import opened Collections
  import opened Scheduler
  import opened SchedulerSteps
  import opened SchedulerTheorems
  import C = Cooldowns
  import L = LiveSession

  /** How a tick ends that was refused at `refusedAt` because of a window ending at `until`. */
  function Refused(until: int, refusedAt: int): Outcome {
    RateLimited(Some(L.RetryAfterSec(until, refusedAt)))
  }

  /** Whatever the backoff has grown to, the delay after a refusal reaches a second past the window. */
  lemma RefusalDelayReachesPastWindow(o: Options, backoff: Option<int>, until: int, refusedAt: int, endedAt: int)
    requires until > refusedAt && refusedAt <= endedAt
    ensures endedAt + NextDelay(o, backoff, Refused(until, refusedAt)) >= until + 1000
  {
    C.RetryAfterIsLeast(until, refusedAt, L.RetryAfterSec(until, refusedAt));
  }

  /** A refused tick of a session that is still watched arms the next one at least a second after the
      window's end. */
  lemma RefusedTickWaits(w: World, t: nat, until: int, refusedAt: int)
    requires Inv(w) && t in w.inFlight && until > refusedAt && refusedAt <= w.now
    requires w.inFlight[t].sessionId in w.poller.tracked && Subscribed(w, w.inFlight[t].sessionId)
    ensures var s, w' := w.inFlight[t].sessionId, After(w, TickEnds(t, Refused(until, refusedAt)));
      && Inv(w') && s in w'.poller.tracked && EntryOf(w'.poller, s).timer == Some(w.poller.nextTimer)
      && HoldsTick(w'.poller, s, w.poller.nextTimer) && w'.poller.timeouts[w.poller.nextTimer].due >= until + 1000
  {
    var s, p1 := w.inFlight[t].sessionId, Unflagged(w, t, Refused(until, refusedAt));
    StepKeepsInv(w, TickEnds(t, Refused(until, refusedAt)));
    UnflaggedSlots(w, t, Refused(until, refusedAt));
    RefusalDelayReachesPastWindow(w.poller.options, w.poller.entries[w.inFlight[t].ref].backoffMs, until, refusedAt,
                                  w.now);
  }

  /** The armed tick keeps that due time: over any run without mid-tick tear-downs it is still armed, or
      it fired at least a second after the window's end, or its session was torn down for idleness. */
  lemma ArmedPastWindow(w: World, t: nat, until: int, refusedAt: int, run: seq<Step>)
    requires Inv(w) && SingleChain(w) && t in w.inFlight && until > refusedAt && refusedAt <= w.now
    requires w.inFlight[t].sessionId in w.poller.tracked && Subscribed(w, w.inFlight[t].sessionId)
    requires Inv(After(w, TickEnds(t, Refused(until, refusedAt))))
    requires NeverMidTick(After(w, TickEnds(t, Refused(until, refusedAt))), run)
    ensures var w' := After(w, TickEnds(t, Refused(until, refusedAt)));
      var s, id := w.inFlight[t].sessionId, w.poller.nextTimer;
      HoldsTick(RunFrom(w', run).poller, s, id) || LetGoDuring(w', run, s, id, until + 1000)
  {
    var s, id, w' := w.inFlight[t].sessionId, w.poller.nextTimer, After(w, TickEnds(t, Refused(until, refusedAt)));
    RefusedTickWaits(w, t, until, refusedAt);
    StepKeepsSingle(w, TickEnds(t, Refused(until, refusedAt)));
    ArmedUntilDue(w', run, s, id);
    var due := w'.poller.timeouts[id].due;
    if LetGoDuring(w', run, s, id, due) {
      var k :| 0 <= k < |run| && LetGo(RunFrom(w', run[..k]), run[k], s, id, due);
      assert LetGo(RunFrom(w', run[..k]), run[k], s, id, until + 1000);
    }
  }

  /** A call made past the end of every recorded window goes out. */
  lemma LateCallGoesOut(history: seq<C.Timed>, key: string, until: int, now: int)
    requires C.MonotoneUpTo(history, now) && now >= until + 1000
    requires forall end :: end in C.Ends(history, key) ==> end <= until
    ensures C.Forwards(C.GuardAfter(history), key, now)
  {
    C.ForwardsOutsideWindows(history, key, now);
  }

  // ---------------------------------------------------------------- the next call of a refused chain

  /** `p'` has no timeout under an old number that `p` did not have. */
  predicate OldAsBefore(p: Poller, p': Poller, id: nat) {
    p.nextTimer <= p'.nextTimer
      && (id < p.nextTimer && id in p'.timeouts ==> id in p.timeouts && p'.timeouts[id] == p.timeouts[id])
  }

  lemma StartKeepsTimeout(p: Poller, s: string, now: int, id: nat)
    requires Grounded(p)
    ensures OldAsBefore(p, Start(p, s, now), id)
  {
    var p1 := CancelIdle(Track(p, s), s);
    assert OldAsBefore(p, p1, id) && p1.nextTimer == p.nextTimer;
    assert Start(p, s, now) == p1 || Start(p, s, now) == ScheduleNext(p1, s, 0, now);
  }

  lemma EndKeepsTimeout(w: World, t: nat, outcome: Outcome, id: nat)
    requires Inv(w) && t in w.inFlight
    ensures OldAsBefore(w.poller, After(w, TickEnds(t, outcome)).poller, id)
  {
    var s, p1 := w.inFlight[t].sessionId, Unflagged(w, t, outcome);
    var p2, p' := if outcome.Dropped? then TearDown(p1, s) else p1, After(w, TickEnds(t, outcome)).poller;
    var delayMs := NextDelay(w.poller.options, w.poller.entries[w.inFlight[t].ref].backoffMs, outcome);
    assert p' == p2 || p' == ScheduleNext(p2, s, delayMs, w.now) || p' == TearDown(p2, s);
  }

  /** A timeout never changes, and a number is never given out again. */
  lemma StepKeepsTimeout(w: World, step: Step, id: nat)
    requires Inv(w)
    ensures OldAsBefore(w.poller, After(w, step).poller, id)
  {
    if Enabled(w, step) {
      match step
      case SubscribeAndStart(s, _) => StartKeepsTimeout(w.poller, s, w.now, id);
      case TickEnds(t, outcome) => EndKeepsTimeout(w, t, outcome, id);
      case _ =>
    }
  }

  lemma {:induction false} RunKeepsTimeout(w: World, run: seq<Step>, id: nat)
    requires Inv(w)
    ensures OldAsBefore(w.poller, RunFrom(w, run).poller, id)
    decreases |run|
  {
    if run != [] {
      RunKeepsTimeout(w, Init(run), id);
      StepKeepsTimeout(RunFrom(w, Init(run)), Last(run), id);
    }
  }

  lemma {:induction false} EndsGrow(h0: seq<C.Timed>, h1: seq<C.Timed>, key: string)
    ensures C.Ends(h0, key) <= C.Ends(h0 + h1, key)
  {
    if h1 == [] {
      assert h0 + h1 == h0;
    } else {
      EndsGrow(h0, Init(h1), key);
      assert Init(h0 + h1) == h0 + Init(h1);
    }
  }

  /** The window ends recorded for the key since `h0`. */
  function EndsSince(h0: seq<C.Timed>, h1: seq<C.Timed>, key: string): seq<int> {
    EndsGrow(h0, h1, key);
    C.Ends(h0 + h1, key)[|C.Ends(h0, key)|..]
  }

  /** Of the ends on record only those since `h0` count against a call past everything recorded before. */
  lemma OnlyNewEndsRefuse(h0: seq<C.Timed>, h1: seq<C.Timed>, key: string, until: int, now: int)
    requires C.MonotoneUpTo(h0 + h1, now) && until <= now
    requires forall end :: end in C.Ends(h0, key) ==> end <= until
    ensures C.Forwards(C.GuardAfter(h0 + h1), key, now) <==> forall end :: end in EndsSince(h0, h1, key) ==> end <= now
  {
    EndsGrow(h0, h1, key);
    C.ForwardsOutsideWindows(h0 + h1, key, now);
    var known, since, all := C.Ends(h0, key), EndsSince(h0, h1, key), C.Ends(h0 + h1, key);
    assert all == known + since;
    forall end ensures end in all <==> end in known || end in since {
    }
  }

  /** A tick whose call was refused arms one whose call, whenever that one fires, is refused only by a
      window recorded in between: no window refuses one chain of ticks twice. */
  lemma NotRefusedTwice(h0: seq<C.Timed>, h1: seq<C.Timed>, key: string, w: World, t: nat, refusedAt: int,
                        run: seq<Step>, callAt: int)
    requires C.MonotoneUpTo(h0, refusedAt) && !C.Forwards(C.GuardAfter(h0), key, refusedAt)
    requires Inv(w) && t in w.inFlight && refusedAt <= w.now
    requires w.inFlight[t].sessionId in w.poller.tracked && Subscribed(w, w.inFlight[t].sessionId)
    requires var until := C.Query(C.GuardAfter(h0).until, key, refusedAt).1.value;
      var w' := After(w, TickEnds(t, Refused(until, refusedAt)));
      Inv(w') && Enabled(RunFrom(w', run), TickFires(w.poller.nextTimer)) && RunFrom(w', run).now <= callAt
    requires C.MonotoneUpTo(h0 + h1, callAt)
    ensures C.Forwards(C.GuardAfter(h0 + h1), key, callAt) <==>
      forall end :: end in EndsSince(h0, h1, key) ==> end <= callAt
  {
    var until := C.Query(C.GuardAfter(h0).until, key, refusedAt).1.value;
    var w' := After(w, TickEnds(t, Refused(until, refusedAt)));
    C.UntilIsLargestEnd(h0, key, refusedAt);
    RefusedTickWaits(w, t, until, refusedAt);
    RunKeepsTimeout(w', run, w.poller.nextTimer);
    assert InItsSlot(w'.poller, w.poller.nextTimer);
    OnlyNewEndsRefuse(h0, h1, key, until, callAt);
  }
}
