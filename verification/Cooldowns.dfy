/** Per-account provider cooldowns: the lazily deleted map of window ends against the whole history of
    recorded windows, and the fetch guard that reads and feeds it. */
module Cooldowns {
  import opened Collections
  import L = LiveSession

  /** The window, in seconds, of a 429 without a usable Retry-After. */
  const DEFAULT_RETRY_AFTER_SEC := 30

  const NUL := '\0'

  function CooldownKey(accountId: string, providerId: string): string {
    accountId + [NUL] + providerId
  }

  /** Where the separator stands. */
  function Separator(key: string): (k: nat)
    ensures k <= |key|
  {
    if key == [] || key[0] == NUL then 0 else 1 + Separator(key[1..])
  }

  lemma {:induction false} SeparatorBehindAccount(accountId: string, providerId: string)
    requires NUL !in accountId
    ensures Separator(CooldownKey(accountId, providerId)) == |accountId|
  {
    if accountId != [] {
      assert CooldownKey(accountId, providerId)[1..] == CooldownKey(accountId[1..], providerId);
      SeparatorBehindAccount(accountId[1..], providerId);
    }
  }

  /** Accounts without the separator never share a key. */
  lemma KeysAreApart(a: string, p: string, b: string, q: string)
    requires NUL !in a && NUL !in b && CooldownKey(a, p) == CooldownKey(b, q)
    ensures a == b && p == q
  {
    SeparatorBehindAccount(a, p);
    SeparatorBehindAccount(b, q);
    var k, l := CooldownKey(a, p), CooldownKey(b, q);
    assert k[..|a|] == a && l[..|b|] == b && k[|a| + 1..] == p && l[|b| + 1..] == q;
  }

  // ---------------------------------------------------------------- the map

  /** The end of the open window; a closed one is forgotten on the way. */
  function Query(until: map<string, int>, key: string, now: int): (map<string, int>, Option<int>) {
    if key !in until then (until, None)
    else if until[key] <= now then (until - {key}, None)
    else (until, Some(until[key]))
  }

  function WindowEnd(retryAfterSec: Option<int>, now: int): (end: int)
    ensures end > now
  {
    now + 1000 * if retryAfterSec.Some? && retryAfterSec.value > 0 then retryAfterSec.value else DEFAULT_RETRY_AFTER_SEC
  }

  /** Open or extend a window. The second part is the effective end, the third whether listeners hear
      of it. */
  function Record(until: map<string, int>, key: string, retryAfterSec: Option<int>, now: int)
    : (map<string, int>, int, bool)
  {
    var (open, existing) := Query(until, key, now);
    var candidate := WindowEnd(retryAfterSec, now);
    if existing.Some? && existing.value >= candidate then (open, existing.value, false)
    else (open[key := candidate], candidate, true)
  }

  // ---------------------------------------------------------------- the guard

  /** The registry with the calls that have been forwarded and not answered. */
  datatype Guard = Guard(until: map<string, int>, inFlight: map<nat, string>, nextCall: nat)

  const IDLE_GUARD := Guard(map[], map[], 0)

  datatype Op =
    | Ask(key: string)                                              // somebody reads the window
    | Call(key: string)                                             // a request: forwarded or refused
    | Answer(call: nat, limited: bool, retryAfterSec: Option<int>)  // the response to a forwarded call

  datatype Timed = Timed(op: Op, now: int)

  predicate Forwards(g: Guard, key: string, now: int) {
    Query(g.until, key, now).1.None?
  }

  /** Does this answer open or extend a window? */
  predicate Limits(g: Guard, op: Op) {
    op.Answer? && op.call in g.inFlight && op.limited
  }

  function After(g: Guard, op: Op, now: int): Guard {
    match op
    case Ask(key) => g.(until := Query(g.until, key, now).0)
    case Call(key) =>
      var g1 := g.(until := Query(g.until, key, now).0);
      if Forwards(g, key, now) then g1.(inFlight := g.inFlight[g.nextCall := key], nextCall := g.nextCall + 1) else g1
    case Answer(call, _, sec) =>
      if call !in g.inFlight then g else
        var g1 := g.(inFlight := g.inFlight - {call});
        if Limits(g, op) then g1.(until := Record(g.until, g.inFlight[call], sec, now).0) else g1
  }

  function GuardAfter(run: seq<Timed>): Guard {
    if run == [] then IDLE_GUARD else After(GuardAfter(Init(run)), Last(run).op, Last(run).now)
  }

  // ---------------------------------------------------------------- the history

  /** The window ends recorded for the key, in order. */
  function Ends(run: seq<Timed>, key: string): seq<int> {
    if run == [] then [] else
      var g, l := GuardAfter(Init(run)), Last(run);
      if Limits(g, l.op) && g.inFlight[l.op.call] == key
      then Ends(Init(run), key) + [WindowEnd(l.op.retryAfterSec, l.now)]
      else Ends(Init(run), key)
  }

  /** The window ends listeners hear of, in order. */
  function Announced(run: seq<Timed>, key: string): seq<int> {
    if run == [] then [] else
      var g, l := GuardAfter(Init(run)), Last(run);
      if Limits(g, l.op) && g.inFlight[l.op.call] == key && Record(g.until, key, l.op.retryAfterSec, l.now).2
      then Announced(Init(run), key) + [Record(g.until, key, l.op.retryAfterSec, l.now).1]
      else Announced(Init(run), key)
  }

  function Maximum(s: seq<int>): (m: int)
    requires s != []
    ensures m in s && forall x :: x in s ==> x <= m
  {
    if |s| == 1 then s[0] else
      var m := Maximum(Init(s));
      assert s == Init(s) + [Last(s)];
      if Last(s) > m then Last(s) else m
  }

  /** The elements that are larger than everything before them. */
  function NewMaxima(s: seq<int>): seq<int> {
    if s == [] then []
    else if |s| == 1 || Last(s) > Maximum(Init(s)) then NewMaxima(Init(s)) + [Last(s)]
    else NewMaxima(Init(s))
  }

  /** The instant of the last operation. */
  ghost predicate MonotoneUpTo(run: seq<Timed>, now: int) {
    run == [] || (Last(run).now <= now && MonotoneUpTo(Init(run), Last(run).now))
  }

  /** What the map remembers of the history: the largest end, unless it has passed. */
  ghost predicate Remembers(until: map<string, int>, ends: seq<int>, key: string, now: int) {
    if key in until then ends != [] && until[key] == Maximum(ends)
    else ends == [] || Maximum(ends) <= now
  }

  lemma QueryRemembers(until: map<string, int>, ends: seq<int>, key: string, asked: string, now: int)
    requires Remembers(until, ends, key, now)
    ensures Remembers(Query(until, asked, now).0, ends, key, now)
    ensures Query(until, key, now).1 == if ends != [] && Maximum(ends) > now then Some(Maximum(ends)) else None
  {
  }

  lemma RecordRemembers(until: map<string, int>, ends: seq<int>, key: string, sec: Option<int>, now: int)
    requires Remembers(until, ends, key, now)
    ensures var (until', end, announced) := Record(until, key, sec, now);
      var ends' := ends + [WindowEnd(sec, now)];
      && Remembers(until', ends', key, now) && end == Maximum(ends')
      && (announced <==> ends == [] || WindowEnd(sec, now) > Maximum(ends))
      && (announced ==> end == WindowEnd(sec, now))
  {
    var candidate := WindowEnd(sec, now);
    assert Init(ends + [candidate]) == ends;
    QueryRemembers(until, ends, key, key, now);
  }

  lemma RecordElsewhere(until: map<string, int>, ends: seq<int>, key: string, other: string, sec: Option<int>, now: int)
    requires Remembers(until, ends, key, now) && other != key
    ensures Remembers(Record(until, other, sec, now).0, ends, key, now)
  {
  }

  lemma LaterRemembers(until: map<string, int>, ends: seq<int>, key: string, before: int, now: int)
    requires Remembers(until, ends, key, before) && before <= now
    ensures Remembers(until, ends, key, now)
  {
  }

  lemma {:induction false} HistoryRemembered(run: seq<Timed>, key: string, now: int)
    requires MonotoneUpTo(run, now)
    ensures Remembers(GuardAfter(run).until, Ends(run, key), key, now)
  {
    if run != [] {
      var g, l := GuardAfter(Init(run)), Last(run);
      HistoryRemembered(Init(run), key, l.now);
      StepRemembers(g, l.op, l.now, Ends(Init(run), key), key);
      LaterRemembers(GuardAfter(run).until, Ends(run, key), key, l.now, now);
    }
  }

  lemma StepRemembers(g: Guard, op: Op, now: int, ends: seq<int>, key: string)
    requires Remembers(g.until, ends, key, now)
    ensures var ends' := if Limits(g, op) && g.inFlight[op.call] == key then ends + [WindowEnd(op.retryAfterSec, now)]
      else ends;
      Remembers(After(g, op, now).until, ends', key, now)
  {
    match op
    case Ask(asked) => QueryRemembers(g.until, ends, key, asked, now);
    case Call(asked) => QueryRemembers(g.until, ends, key, asked, now);
    case Answer(call, _, sec) =>
      if Limits(g, op) {
        if g.inFlight[call] == key {
          RecordRemembers(g.until, ends, key, sec, now);
        } else {
          RecordElsewhere(g.until, ends, key, g.inFlight[call], sec, now);
        }
      }
  }

  /** However often anybody asked, the map answers with the largest end ever recorded for the key when
      that is in the future, and otherwise with none. */
  lemma UntilIsLargestEnd(run: seq<Timed>, key: string, now: int)
    requires MonotoneUpTo(run, now)
    ensures var ends := Ends(run, key);
      Query(GuardAfter(run).until, key, now).1 == if ends != [] && Maximum(ends) > now then Some(Maximum(ends))
        else None
  {
    HistoryRemembered(run, key, now);
    QueryRemembers(GuardAfter(run).until, Ends(run, key), key, key, now);
  }

  /** A request goes out exactly when no window recorded for its key, by any caller and at any time
      before, still covers the present. */
  lemma ForwardsOutsideWindows(run: seq<Timed>, key: string, now: int)
    requires MonotoneUpTo(run, now)
    ensures Forwards(GuardAfter(run), key, now) <==> forall end :: end in Ends(run, key) ==> end <= now
  {
    UntilIsLargestEnd(run, key, now);
  }

  /** Listeners hear exactly the ends that are later than every end before them. */
  lemma {:induction false} AnnouncesNewMaxima(run: seq<Timed>, key: string, now: int)
    requires MonotoneUpTo(run, now)
    ensures Announced(run, key) == NewMaxima(Ends(run, key))
  {
    if run != [] {
      var g, l, ends := GuardAfter(Init(run)), Last(run), Ends(Init(run), key);
      AnnouncesNewMaxima(Init(run), key, l.now);
      if Limits(g, l.op) && g.inFlight[l.op.call] == key {
        HistoryRemembered(Init(run), key, l.now);
        RecordRemembers(g.until, ends, key, l.op.retryAfterSec, l.now);
        var ends' := ends + [WindowEnd(l.op.retryAfterSec, l.now)];
        assert Init(ends') == ends && Last(ends') == WindowEnd(l.op.retryAfterSec, l.now);
      }
    }
  }

  lemma {:induction false} NewMaximaIncrease(s: seq<int>)
    ensures var m := NewMaxima(s);
      && (forall i, j :: 0 <= i < j < |m| ==> m[i] < m[j])
      && (s != [] ==> m != [] && Last(m) == Maximum(s))
  {
    if s != [] {
      NewMaximaIncrease(Init(s));
      var h := NewMaxima(Init(s));
      if |s| > 1 && h != [] {
        forall i | 0 <= i < |h| ensures h[i] <= Last(h) {
        }
      }
    }
  }

  /** Announced ends strictly increase, and the last one announced is the largest ever recorded. */
  lemma AnnouncedIncrease(run: seq<Timed>, key: string, now: int)
    requires MonotoneUpTo(run, now)
    ensures var a := Announced(run, key);
      && (forall i, j :: 0 <= i < j < |a| ==> a[i] < a[j])
      && (Ends(run, key) != [] ==> a != [] && Last(a) == Maximum(Ends(run, key)))
  {
    AnnouncesNewMaxima(run, key, now);
    NewMaximaIncrease(Ends(run, key));
  }

  // ---------------------------------------------------------------- the refusal

  /** The seconds a refused caller is told to wait are the least whole number that reaches the end. */
  lemma RetryAfterIsLeast(until: int, now: int, k: int)
    requires until > now
    ensures now + 1000 * k >= until <==> k >= L.RetryAfterSec(until, now)
  {
    var c := L.CeilDiv(until - now, 1000);
  }

  // ---------------------------------------------------------------- the object

  datatype RateLimitedEvent = RateLimitedEvent(accountId: string, providerId: string, untilEpochMs: int)

  datatype RateLimitedError = RateLimitedError(providerId: string, untilEpochMs: int, retryAfterSec: int)

  class ProviderCooldowns {
    var until: map<string, int>
    var listeners: seq<seq<RateLimitedEvent>>   // what each listener has heard
    var inFlight: map<nat, string>
    var nextCall: nat

    constructor ()
      ensures Model() == IDLE_GUARD && listeners == []
    {
      until := map[];
      listeners := [];
      inFlight := map[];
      nextCall := 0;
    }

    function Model(): Guard
      reads this
    {
      Guard(until, inFlight, nextCall)
    }

    method UntilEpochMs(accountId: string, providerId: string, now: int) returns (r: Option<int>)
      modifies this`until
      ensures (until, r) == Query(old(until), CooldownKey(accountId, providerId), now)
    {
      var key := CooldownKey(accountId, providerId);
      if key !in until {
        return None;
      }
      if until[key] <= now {
        until := until - {key};
        return None;
      }
      r := Some(until[key]);
    }

    method RecordLimit(accountId: string, providerId: string, retryAfterSec: Option<int>, now: int) returns (end: int)
      modifies this`until, this`listeners
      ensures var (u, e, heard) := Record(old(until), CooldownKey(accountId, providerId), retryAfterSec, now);
        && until == u && end == e && |listeners| == |old(listeners)|
        && forall i :: 0 <= i < |listeners| ==>
             listeners[i] == old(listeners)[i] + if heard then [RateLimitedEvent(accountId, providerId, e)] else []
    {
      var seconds := if retryAfterSec.Some? && retryAfterSec.value > 0 then retryAfterSec.value
        else DEFAULT_RETRY_AFTER_SEC;
      var candidate := now + seconds * 1000;
      var existing := UntilEpochMs(accountId, providerId, now);
      if existing.Some? && existing.value >= candidate {
        return existing.value;
      }
      until := until[CooldownKey(accountId, providerId) := candidate];
      ghost var extended := until;
      var i := 0;
      while i < |listeners|
        invariant 0 <= i <= |listeners| == |old(listeners)| && until == extended
        invariant forall k :: 0 <= k < i ==>
          listeners[k] == old(listeners)[k] + [RateLimitedEvent(accountId, providerId, candidate)]
        invariant forall k :: i <= k < |listeners| ==> listeners[k] == old(listeners)[k]
      {
        listeners := listeners[i := listeners[i] + [RateLimitedEvent(accountId, providerId, candidate)]];
        i := i + 1;
      }
      end := candidate;
    }

    method OnRateLimited()
      modifies this`listeners
      ensures listeners == old(listeners) + [[]]
    {
      listeners := listeners + [[]];
    }

    /** The head of a guarded fetch: refuse, or forward and remember whom the answer is for. */
    method BeginFetch(accountId: string, providerId: string, now: int) returns (r: Result<nat, RateLimitedError>)
      modifies this`until, this`inFlight, this`nextCall
      ensures Model() == After(old(Model()), Call(CooldownKey(accountId, providerId)), now)
      ensures r.Ok? <==> Forwards(old(Model()), CooldownKey(accountId, providerId), now)
      ensures r.Ok? ==> r.value == old(nextCall)
      ensures r.Err? ==>
        var end := Query(old(until), CooldownKey(accountId, providerId), now).1.value;
        r.error == RateLimitedError(providerId, end, L.RetryAfterSec(end, now))
    {
      var open := UntilEpochMs(accountId, providerId, now);
      if open.Some? {
        return Err(RateLimitedError(providerId, open.value, L.RetryAfterSec(open.value, now)));
      }
      inFlight := inFlight[nextCall := CooldownKey(accountId, providerId)];
      r := Ok(nextCall);
      nextCall := nextCall + 1;
    }

    /** The tail of a guarded fetch: a 429 feeds the shared window. */
    method EndFetch(call: nat, accountId: string, providerId: string, limited: bool, retryAfterSec: Option<int>,
                    now: int)
      requires call in inFlight && inFlight[call] == CooldownKey(accountId, providerId)
      modifies this`until, this`inFlight, this`listeners
      ensures Model() == After(old(Model()), Answer(call, limited, retryAfterSec), now)
    {
      inFlight := inFlight - {call};
      if limited {
        var end := RecordLimit(accountId, providerId, retryAfterSec, now);
      }
    }
  }
}
