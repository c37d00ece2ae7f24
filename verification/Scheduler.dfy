/** The now-playing poller as a timed scheduler: which timeouts are outstanding, which ticks are in
    flight, and what start, stop, tear-down and the two ends of a tick do to them. Entries are kept
    by reference, since a tick goes on holding the entry it began with after the poller forgot it. */
module Scheduler {
  import opened Collections

  datatype Options = Options(intervalMs: int, idleIntervalMs: int, idleGraceMs: int, maxBackoffMs: int)

  const DEFAULT_OPTIONS := Options(5000, 15_000, 30_000, 60_000)

  /** The follow-up delay after a dispatched skip. */
  const SKIP_FOLLOW_UP_MS := 750

  /** The scheduling fields of a session's record. */
  datatype Entry = Entry(timer: Option<nat>, ticking: bool, idleTimer: Option<nat>, backoffMs: Option<int>)

  const FRESH_ENTRY := Entry(None, false, None, None)

  datatype Timeout = TickDue(sessionId: string, due: int) | IdleDue(sessionId: string, due: int)

  /** `entries` holds every record ever made; a reference is an index into it. */
  datatype Poller = Poller(
    options: Options, entries: seq<Entry>, tracked: map<string, nat>, timeouts: map<nat, Timeout>, nextTimer: nat)

  // ---------------------------------------------------------------- delays

  /** How a tick ends. */
  datatype Outcome =
    | Dropped                  // ended session, bad credentials, not a now-playing source, no room, or a 401
    | NothingConnected
    | Played(skipDispatched: bool, playing: bool, karaokeHold: bool)
    | RateLimited(retryAfterSec: Option<int>)
    | Failed

  function Min(a: int, b: int): int {
    if a <= b then a else b
  }

  function Max(a: int, b: int): int {
    if a >= b then a else b
  }

  function NextBackoff(o: Options, backoff: Option<int>): int {
    Min(o.maxBackoffMs, 2 * if backoff.Some? then backoff.value else o.intervalMs)
  }

  /** A positive Retry-After, in milliseconds and with a second of slack. */
  function RetryAfterMs(sec: Option<int>): int {
    if sec.Some? && sec.value > 0 then sec.value * 1000 + 1000 else 0
  }

  function NextDelay(o: Options, backoff: Option<int>, outcome: Outcome): int {
    match outcome
    case Played(true, _, _) => SKIP_FOLLOW_UP_MS
    case Played(false, playing, hold) => if !playing && !hold then o.idleIntervalMs else o.intervalMs
    case RateLimited(sec) => Max(NextBackoff(o, backoff), RetryAfterMs(sec))
    case _ => o.intervalMs
  }

  function BackoffAfter(o: Options, backoff: Option<int>, outcome: Outcome): Option<int> {
    match outcome
    case Played(_, _, _) => None
    case RateLimited(_) => Some(NextBackoff(o, backoff))
    case _ => backoff
  }

  function Pow2(n: nat): (p: int)
    ensures p >= 1
  {
    if n == 0 then 1 else 2 * Pow2(n - 1)
  }

  /** The backoff after `n` rate limits in a row, starting from none. */
  function BackoffRun(o: Options, n: nat): Option<int> {
    if n == 0 then None else Some(NextBackoff(o, BackoffRun(o, n - 1)))
  }

  /** The n-th rate limit in a row backs off by the base interval doubled n times, up to the cap. */
  lemma {:induction false} BackoffDoubles(o: Options, n: nat)
    requires n >= 1 && o.maxBackoffMs >= 0 && o.intervalMs >= 0
    ensures BackoffRun(o, n) == Some(Min(o.maxBackoffMs, o.intervalMs * Pow2(n)))
  {
    if n == 1 {
      assert Pow2(1) == 2 * Pow2(0) == 2;
    } else {
      BackoffDoubles(o, n - 1);
      assert o.intervalMs * Pow2(n) == 2 * (o.intervalMs * Pow2(n - 1));
    }
  }

  // ---------------------------------------------------------------- the poller's operations

  function EntryOf(p: Poller, s: string): Entry
    requires s in p.tracked && p.tracked[s] < |p.entries|
  {
    p.entries[p.tracked[s]]
  }

  /** The tracked references point at records. */
  ghost predicate Grounded(p: Poller) {
    forall s :: s in p.tracked ==> p.tracked[s] < |p.entries|
  }

  /** `clearTimeout` on a slot; an empty slot or a fired timeout is left alone. */
  function Cleared(timeouts: map<nat, Timeout>, slot: Option<nat>): map<nat, Timeout> {
    if slot.Some? then timeouts - {slot.value} else timeouts
  }

  function SetEntry(p: Poller, ref: nat, e: Entry): Poller
    requires ref < |p.entries|
  {
    p.(entries := p.entries[ref := e])
  }

  function Track(p: Poller, s: string): Poller {
    if s in p.tracked then p
    else p.(entries := p.entries + [FRESH_ENTRY], tracked := p.tracked[s := |p.entries|])
  }

  function CancelIdle(p: Poller, s: string): Poller
    requires Grounded(p) && s in p.tracked
  {
    SetEntry(p.(timeouts := Cleared(p.timeouts, EntryOf(p, s).idleTimer)), p.tracked[s],
             EntryOf(p, s).(idleTimer := None))
  }

  /** `setTimeout` into the tick slot, first clearing what the slot held. */
  function ScheduleNext(p: Poller, s: string, delayMs: int, now: int): Poller
    requires Grounded(p)
  {
    if s !in p.tracked then p else
      SetEntry(p.(timeouts := Cleared(p.timeouts, EntryOf(p, s).timer)[p.nextTimer := TickDue(s, now + delayMs)],
                  nextTimer := p.nextTimer + 1),
               p.tracked[s], EntryOf(p, s).(timer := Some(p.nextTimer)))
  }

  function Start(p: Poller, s: string, now: int): Poller
    requires Grounded(p)
  {
    var p1 := CancelIdle(Track(p, s), s);
    if EntryOf(p1, s).timer.Some? || EntryOf(p1, s).ticking then p1 else ScheduleNext(p1, s, 0, now)
  }

  function Stop(p: Poller, s: string, now: int): Poller
    requires Grounded(p)
  {
    if s !in p.tracked || EntryOf(p, s).idleTimer.Some? then p else
      SetEntry(p.(timeouts := p.timeouts[p.nextTimer := IdleDue(s, now + p.options.idleGraceMs)],
                  nextTimer := p.nextTimer + 1),
               p.tracked[s], EntryOf(p, s).(idleTimer := Some(p.nextTimer)))
  }

  function TearDown(p: Poller, s: string): Poller
    requires Grounded(p)
  {
    if s !in p.tracked then p else
      p.(timeouts := Cleared(Cleared(p.timeouts, EntryOf(p, s).timer), EntryOf(p, s).idleTimer),
         tracked := p.tracked - {s})
  }

  function Fired(p: Poller, id: nat): Poller {
    p.(timeouts := p.timeouts - {id})
  }

  /** The synchronous head of a tick. */
  function TickBegin(p: Poller, s: string): Poller
    requires Grounded(p) && s in p.tracked
  {
    SetEntry(p, p.tracked[s], EntryOf(p, s).(timer := None, ticking := true))
  }

  /** What a tick finds when it ends: no room of its session, one nobody subscribes to, or one with
      subscribers. */
  datatype Room = NoRoom | Unwatched | Watched

  /** A session still tracked, with no tear-down pending, is armed again if watched, and forgotten if it
      has no room. */
  function Rearm(p: Poller, s: string, delayMs: int, room: Room, now: int): Poller
    requires Grounded(p)
  {
    if s !in p.tracked || EntryOf(p, s).idleTimer.Some? then p else
      match room
      case Watched => ScheduleNext(p, s, delayMs, now)
      case NoRoom => TearDown(p, s)
      case Unwatched => p
  }

  /** The tail of a tick that began with the record `ref`: what the outcome does, then `finally`. */
  function TickEnd(p: Poller, s: string, ref: nat, outcome: Outcome, room: Room, now: int): Poller
    requires Grounded(p) && ref < |p.entries|
  {
    var e := p.entries[ref];
    var p1 := SetEntry(p, ref, e.(backoffMs := BackoffAfter(p.options, e.backoffMs, outcome), ticking := false));
    var p2 := if outcome.Dropped? then TearDown(p1, s) else p1;
    Rearm(p2, s, NextDelay(p.options, e.backoffMs, outcome), room, now)
  }

  // ---------------------------------------------------------------- the process around it

  /** A tick between its two ends: its session, and the record it began with. */
  datatype Tick = Tick(sessionId: string, ref: nat)

  datatype World = World(
    poller: Poller,
    inFlight: map<nat, Tick>, nextTick: nat,
    rooms: set<string>,                   // sessions with a room; rooms are never taken away
    clients: set<(string, string)>,       // (session, client) connected to the session's room
    subscribers: set<(string, string)>,   // those with a transport
    now: int)

  predicate Subscribed(w: World, s: string) {
    exists x :: x in w.subscribers && x.0 == s
  }

  function RoomOf(w: World, s: string): Room {
    if s !in w.rooms then NoRoom else if Subscribed(w, s) then Watched else Unwatched
  }

  datatype Step =
    | Connect(sessionId: string, clientId: string)             // makes the room if there is none
    | SubscribeAndStart(sessionId: string, clientId: string)   // one synchronous stretch of onOpen
    | Disconnect(sessionId: string, clientId: string)
    | CloseCheck(sessionId: string)                            // the rest of onClose, after its await
    | TickFires(id: nat)
    | TickEnds(tick: nat, outcome: Outcome)
    | IdleFires(id: nat)
    | TimePasses(ms: nat)

  /** A timeout fires once, not before it is due; a tick ends once; subscribing needs a connection. */
  predicate Enabled(w: World, step: Step) {
    match step
    case SubscribeAndStart(s, c) => (s, c) in w.clients
    case TickFires(id) => id in w.poller.timeouts && w.poller.timeouts[id].TickDue?
      && w.poller.timeouts[id].due <= w.now
    case IdleFires(id) => id in w.poller.timeouts && w.poller.timeouts[id].IdleDue?
      && w.poller.timeouts[id].due <= w.now
    case TickEnds(t, _) => t in w.inFlight
    case _ => true
  }

  function FireTick(w: World, id: nat): World
    requires Grounded(w.poller) && id in w.poller.timeouts
  {
    var s, p := w.poller.timeouts[id].sessionId, Fired(w.poller, id);
    if s !in p.tracked then w.(poller := p) else
      w.(poller := TickBegin(p, s), inFlight := w.inFlight[w.nextTick := Tick(s, p.tracked[s])],
         nextTick := w.nextTick + 1)
  }

  function EndTick(w: World, t: nat, outcome: Outcome): World
    requires Grounded(w.poller) && t in w.inFlight && w.inFlight[t].ref < |w.poller.entries|
  {
    var tick := w.inFlight[t];
    w.(poller := TickEnd(w.poller, tick.sessionId, tick.ref, outcome, RoomOf(w, tick.sessionId), w.now),
       inFlight := w.inFlight - {t})
  }

  function After(w: World, step: Step): World
    requires Inv(w)
  {
    if !Enabled(w, step) then w else
      match step
      case Connect(s, c) => w.(rooms := w.rooms + {s}, clients := w.clients + {(s, c)})
      case SubscribeAndStart(s, c) =>
        w.(subscribers := w.subscribers + {(s, c)}, poller := Start(w.poller, s, w.now))
      case Disconnect(s, c) => w.(clients := w.clients - {(s, c)}, subscribers := w.subscribers - {(s, c)})
      case CloseCheck(s) => if Subscribed(w, s) then w else w.(poller := Stop(w.poller, s, w.now))
      case TickFires(id) => FireTick(w, id)
      case TickEnds(t, outcome) => EndTick(w, t, outcome)
      case IdleFires(id) => w.(poller := TearDown(Fired(w.poller, id), w.poller.timeouts[id].sessionId))
      case TimePasses(ms) => w.(now := w.now + ms)
  }

  // ---------------------------------------------------------------- the invariant

  /** Outstanding timeouts and the slots of the tracked records are each other's inverse. */
  ghost predicate SlotsExact(p: Poller) {
    && Grounded(p)
    && (forall id :: id in p.timeouts ==> InItsSlot(p, id))
    && (forall s :: s in p.tracked ==> SlotsLive(p, s))
  }

  /** The timeout sits in the slot of its kind, of its session's tracked record. */
  predicate InItsSlot(p: Poller, id: nat)
    requires id in p.timeouts
  {
    var s := p.timeouts[id].sessionId;
    && id < p.nextTimer && s in p.tracked && p.tracked[s] < |p.entries|
    && (if p.timeouts[id].TickDue? then EntryOf(p, s).timer == Some(id) else EntryOf(p, s).idleTimer == Some(id))
  }

  /** What the session's slots hold is outstanding, of the slot's kind, and the session's own. */
  predicate SlotsLive(p: Poller, s: string)
    requires s in p.tracked
  {
    && p.tracked[s] < |p.entries|
    && (EntryOf(p, s).timer.Some? ==> HoldsTick(p, s, EntryOf(p, s).timer.value))
    && (EntryOf(p, s).idleTimer.Some? ==> HoldsIdle(p, s, EntryOf(p, s).idleTimer.value))
  }

  predicate HoldsTick(p: Poller, s: string, id: nat) {
    id in p.timeouts && p.timeouts[id].TickDue? && p.timeouts[id].sessionId == s
  }

  predicate HoldsIdle(p: Poller, s: string, id: nat) {
    id in p.timeouts && p.timeouts[id].IdleDue? && p.timeouts[id].sessionId == s
  }

  /** A record belongs to one session, for the poller and for the ticks that hold it. */
  ghost predicate OwnersOk(p: Poller, inFlight: map<nat, Tick>) {
    && (forall a, b :: a in p.tracked && b in p.tracked && a != b ==> p.tracked[a] != p.tracked[b])
    && (forall t :: t in inFlight ==> inFlight[t].ref < |p.entries|)
    && (forall t, s :: t in inFlight && s in p.tracked && inFlight[t].ref == p.tracked[s] ==>
        inFlight[t].sessionId == s)
  }

  /** A record flagged as ticking is held by a tick in flight. */
  ghost predicate FlagsOk(p: Poller, inFlight: map<nat, Tick>) {
    forall s :: s in p.tracked && p.tracked[s] < |p.entries| && EntryOf(p, s).ticking ==>
      exists t :: t in inFlight && inFlight[t].ref == p.tracked[s]
  }

  /** No lost wake-up: a tracked session with a subscriber has no tear-down pending, and is armed or
      ticking. */
  ghost predicate Awake(w: World) {
    forall s :: s in w.poller.tracked && w.poller.tracked[s] < |w.poller.entries| && Subscribed(w, s) ==>
      && EntryOf(w.poller, s).idleTimer.None?
      && (EntryOf(w.poller, s).timer.Some? || EntryOf(w.poller, s).ticking)
  }

  ghost predicate Inv(w: World) {
    && SlotsExact(w.poller)
    && OwnersOk(w.poller, w.inFlight)
    && FlagsOk(w.poller, w.inFlight)
    && Awake(w)
    && (w.subscribers <= w.clients)
    && (forall x :: x in w.clients ==> x.0 in w.rooms)
    && (forall t :: t in w.inFlight ==> t < w.nextTick)
  }
}
