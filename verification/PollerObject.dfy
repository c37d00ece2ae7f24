/** The poller's scheduling half as the object it is: records on the heap, shared between the poller's
    map and the ticks that captured them. Each method is the scheduler's operation of that name. */
module PollerObject {
  import opened Collections
  import S = Scheduler

  /** The timers of the host process. */
  class EventLoop {
    var outstanding: map<nat, S.Timeout>
    var nextTimer: nat

    constructor ()
      ensures outstanding == map[] && nextTimer == 0
    {
      outstanding := map[];
      nextTimer := 0;
    }

    method SetTimeout(t: S.Timeout) returns (id: nat)
      modifies this
      ensures id == old(nextTimer) && nextTimer == id + 1
      ensures outstanding == old(outstanding)[id := t]
    {
      id := nextTimer;
      outstanding := outstanding[id := t];
      nextTimer := nextTimer + 1;
    }

    method ClearTimeout(slot: Option<nat>)
      modifies this`outstanding
      ensures outstanding == S.Cleared(old(outstanding), slot)
    {
      if slot.Some? {
        outstanding := outstanding - {slot.value};
      }
    }
  }

  class PerSession {
    ghost const ref: nat
    var timer: Option<nat>
    var ticking: bool
    var idleTimer: Option<nat>
    var backoffMs: Option<int>
    var lastSkipAtMs: int
    var lastPushedAt: map<string, int>

    constructor (ghost ref: nat)
      ensures this.ref == ref && View() == S.FRESH_ENTRY
      ensures lastSkipAtMs == 0 && lastPushedAt == map[]
    {
      this.ref := ref;
      timer := None;
      ticking := false;
      idleTimer := None;
      backoffMs := None;
      lastSkipAtMs := 0;
      lastPushedAt := map[];
    }

    ghost function View(): S.Entry
      reads this
    {
      S.Entry(timer, ticking, idleTimer, backoffMs)
    }
  }

  class NowPlayingPoller {
    const options: S.Options
    const loop: EventLoop
    var state: map<string, PerSession>
    ghost var known: seq<PerSession>   // every record ever made

    constructor (options: S.Options, loop: EventLoop)
      ensures this.options == options && this.loop == loop && Valid() && fresh(Repr() - {loop})
      ensures state == map[] && known == []
    {
      this.options := options;
      this.loop := loop;
      state := map[];
      known := [];
    }

    ghost function Records(): set<PerSession>
      reads this`known
    {
      set e | e in known
    }

    ghost function Repr(): set<object>
      reads this
    {
      {this, loop} + Records()
    }

    ghost predicate Valid()
      reads this, Repr()
    {
      && (forall i :: 0 <= i < |known| ==> known[i].ref == i)
      && (forall s :: s in state ==> state[s].ref < |known| && known[state[s].ref] == state[s])
    }

    ghost function Entries(): (es: seq<S.Entry>)
      reads this, Repr()
      ensures |es| == |known| && forall i :: 0 <= i < |known| ==> es[i] == known[i].View()
    {
      seq(|known|, i requires 0 <= i < |known| reads this, Repr() => known[i].View())
    }

    ghost function Model(): (p: S.Poller)
      requires Valid()
      reads this, Repr()
      ensures S.Grounded(p)
    {
      S.Poller(options, Entries(), map s | s in state :: state[s].ref, loop.outstanding, loop.nextTimer)
    }

    method ScheduleNext(s: string, delayMs: int, now: int)
      requires Valid()
      modifies loop, Records()
      ensures Valid() && Model() == S.ScheduleNext(old(Model()), s, delayMs, now)
    {
      if s !in state {
        return;
      }
      var entry := state[s];
      loop.ClearTimeout(entry.timer);
      var id := loop.SetTimeout(S.TickDue(s, now + delayMs));
      entry.timer := Some(id);
      assert Entries() == old(Entries())[entry.ref := entry.View()];
    }

    /** Look the record up, making one for a session that has none. */
    method Ensure(s: string) returns (entry: PerSession)
      requires Valid()
      modifies this
      ensures Valid() && Model() == S.Track(old(Model()), s) && s in state && state[s] == entry
      ensures forall e :: e in old(known) ==> e in known
      ensures forall e :: e in known && e !in old(known) ==> fresh(e)
    {
      if s in state {
        return state[s];
      }
      entry := new PerSession(|known|);
      known := known + [entry];
      state := state[s := entry];
      assert Entries() == old(Entries()) + [S.FRESH_ENTRY];
      assert (map r | r in state :: state[r].ref) == old(map r | r in state :: state[r].ref)[s := entry.ref];
    }

    /** A pending tear-down is cancelled. */
    method CancelIdle(s: string)
      requires Valid() && s in state
      modifies loop, Records()
      ensures Valid() && Model() == S.CancelIdle(old(Model()), s)
    {
      var entry := state[s];
      if entry.idleTimer.Some? {
        loop.ClearTimeout(entry.idleTimer);
        entry.idleTimer := None;
      }
      assert Entries() == old(Entries())[entry.ref := entry.View()];
    }

    method Start(s: string, now: int)
      requires Valid()
      modifies Repr()
      ensures Valid() && fresh(Repr() - old(Repr()))
      ensures Model() == S.Start(old(Model()), s, now)
    {
      var entry := Ensure(s);
      CancelIdle(s);
      assert entry.View() == S.EntryOf(Model(), s);
      if entry.timer.Some? || entry.ticking {
        return;
      }
      ScheduleNext(s, 0, now);
    }

    method Stop(s: string, now: int)
      requires Valid()
      modifies loop, Records()
      ensures Valid() && Model() == S.Stop(old(Model()), s, now)
    {
      if s !in state {
        return;
      }
      var entry := state[s];
      if entry.idleTimer.Some? {
        return;
      }
      var id := loop.SetTimeout(S.IdleDue(s, now + options.idleGraceMs));
      entry.idleTimer := Some(id);
      assert Entries() == old(Entries())[entry.ref := entry.View()];
    }

    method ClearSlots(entry: PerSession)
      requires Valid()
      modifies loop, entry`lastPushedAt
      ensures Valid() && entry.lastPushedAt == map[]
      ensures Model() ==
        old(Model()).(timeouts := S.Cleared(S.Cleared(old(Model()).timeouts, entry.timer), entry.idleTimer))
    {
      loop.ClearTimeout(entry.timer);
      loop.ClearTimeout(entry.idleTimer);
      entry.lastPushedAt := map[];
      assert Entries() == old(Entries());
    }

    method TearDown(s: string)
      requires Valid()
      modifies this`state, loop, Records()`lastPushedAt
      ensures Valid() && Model() == S.TearDown(old(Model()), s)
      ensures s in old(state) ==> old(state)[s].lastPushedAt == map[]
    {
      if s !in state {
        return;
      }
      ghost var p := Model();
      assert state[s].View() == S.EntryOf(p, s);
      ClearSlots(state[s]);
      Forget(s);
      assert Model() == S.TearDown(p, s);
    }

    method Forget(s: string)
      requires Valid()
      modifies this`state
      ensures Valid() && state == old(state) - {s}
      ensures Model() == old(Model()).(tracked := old(Model()).tracked - {s})
    {
      ghost var refs := map r | r in state :: state[r].ref;
      state := state - {s};
      assert Entries() == old(Entries());
      assert (map r | r in state :: state[r].ref) == refs - {s};
    }

    /** The head of a tick; the caller goes on holding the record across its awaits. */
    method TickBegin(s: string) returns (entry: Option<PerSession>)
      requires Valid()
      modifies Records()
      ensures Valid() && (entry.Some? <==> s in state) && (entry.Some? ==> entry.value == state[s])
      ensures Model() == if s in state then S.TickBegin(old(Model()), s) else old(Model())
    {
      if s !in state {
        return None;
      }
      var e := state[s];
      e.timer := None;
      e.ticking := true;
      assert Entries() == old(Entries())[e.ref := e.View()];
      entry := Some(e);
    }

    /** The bookkeeping every tick ends with. */
    method Settle(entry: PerSession, backoffMs: Option<int>)
      requires Valid() && entry in known
      modifies entry
      ensures Valid() && entry.ref < |known| && entry.lastPushedAt == old(entry.lastPushedAt)
      ensures Model() ==
        S.SetEntry(old(Model()), entry.ref, old(entry.View()).(backoffMs := backoffMs, ticking := false))
    {
      entry.backoffMs := backoffMs;
      entry.ticking := false;
      assert Entries() == old(Entries())[entry.ref := entry.View()];
    }

    /** The delay until the next tick, and the backoff to remember. */
    method PlanNext(backoffMs: Option<int>, outcome: S.Outcome) returns (nextDelayMs: int, backoff: Option<int>)
      ensures nextDelayMs == S.NextDelay(options, backoffMs, outcome)
        && backoff == S.BackoffAfter(options, backoffMs, outcome)
    {
      nextDelayMs := options.intervalMs;
      backoff := backoffMs;
      match outcome {
        case Dropped =>
        case NothingConnected =>
        case Failed =>
        case Played(skipDispatched, playing, karaokeHold) =>
          if skipDispatched {
            nextDelayMs := S.SKIP_FOLLOW_UP_MS;
          } else if !playing && !karaokeHold {
            nextDelayMs := options.idleIntervalMs;
          }
          backoff := None;
        case RateLimited(retryAfterSec) =>
          var current := if backoffMs.Some? then backoffMs.value else options.intervalMs;
          var nextBackoff := S.Min(options.maxBackoffMs, current * 2);
          backoff := Some(nextBackoff);
          nextDelayMs := S.Max(nextBackoff, S.RetryAfterMs(retryAfterSec));
      }
    }

    /** Re-arm the session if it is still tracked, watched and not about to be torn down; forget it if its
        room is gone. */
    method Reschedule(s: string, delayMs: int, room: S.Room, now: int)
      requires Valid()
      modifies this`state, loop, Records()
      ensures Valid() && Model() == S.Rearm(old(Model()), s, delayMs, room, now)
    {
      if s in state && state[s].idleTimer.None? {
        if room.Watched? {
          ScheduleNext(s, delayMs, now);
        } else if room.NoRoom? {
          TearDown(s);
        }
      }
    }

    /** The tail of a tick that began with `entry`, which may no longer be the tracked record. Flag and
        backoff are set and a failed session is dropped in one synchronous stretch. */
    method TickEnd(s: string, entry: PerSession, outcome: S.Outcome, room: S.Room, now: int)
      requires Valid() && entry in known
      modifies this`state, loop, Records()
      ensures Valid()
      ensures entry.ref < |old(known)| && Model() == S.TickEnd(old(Model()), s, entry.ref, outcome, room, now)
    {
      ghost var p, ref := Model(), entry.ref;
      assert entry == known[ref] && p.entries[ref] == entry.View();
      var nextDelayMs, backoff := PlanNext(entry.backoffMs, outcome);
      Settle(entry, backoff);
      ghost var p1 := Model();
      DropIfFailed(s, outcome);
      ghost var p2 := Model();
      Reschedule(s, nextDelayMs, room, now);
      TickEndInSteps(p, p1, p2, Model(), s, ref, outcome, room, now);
    }

    lemma TickEndInSteps(p: S.Poller, p1: S.Poller, p2: S.Poller, p3: S.Poller, s: string, ref: nat,
                         outcome: S.Outcome, room: S.Room, now: int)
      requires S.Grounded(p) && ref < |p.entries|
      requires p1 == S.SetEntry(p, ref, p.entries[ref].(
        backoffMs := S.BackoffAfter(p.options, p.entries[ref].backoffMs, outcome), ticking := false))
      requires p2 == if outcome.Dropped? then S.TearDown(p1, s) else p1
      requires S.Grounded(p2)
        && p3 == S.Rearm(p2, s, S.NextDelay(p.options, p.entries[ref].backoffMs, outcome), room, now)
      ensures p3 == S.TickEnd(p, s, ref, outcome, room, now)
    {
    }

    method DropIfFailed(s: string, outcome: S.Outcome)
      requires Valid()
      modifies this`state, loop, Records()`lastPushedAt
      ensures Valid() && Model() == if outcome.Dropped? then S.TearDown(old(Model()), s) else old(Model())
    {
      if outcome.Dropped? {
        TearDown(s);
      }
    }
  }
}
