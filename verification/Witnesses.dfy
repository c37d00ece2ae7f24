/** Runs from the initial states that reach each of the failures whose exact conditions are proved
    elsewhere: none of those conditions is empty. */
module Witnesses {
  import opened Collections
  import opened QueueTypes
  import opened Snapshot
  import opened LiveSession
  import opened Agreement
  import opened LiveTheorems
  import opened FullAgreement
  import opened Limits
  import opened Rights
  import opened WaitingLine
  import Admission
  import Reconcile
  import S = Scheduler
  import SS = SchedulerSteps
  import ST = SchedulerTheorems

  // ---------------------------------------------------------------- a session with one guest

  /** One request a guest, one in a row, and no track twice. */
  function House(moderated: bool): Session {
    Session("s", "account", 1, Some(1), false, moderated, Fixed, 5, KaraokeOff, 1, PauseOff, 60, None)
  }

  /** One guest with an active slot. */
  function Door(moderated: bool): Directory {
    Directory(map["token" := Slot("s", true, "print")], map[("s", "print") := "guest"], Some(House(moderated)))
  }

  const SONG := Track("song", "Song", "Singer", None, 180_000.0)

  const REQUEST := CRequest("token", SONG, None, RequestEnv(0, "item", "claim", None, Pushed))

  function Opened(moderated: bool): World {
    FreshSession("s", Door(moderated), 0, false)
  }

  /** The room after the guest's first request. */
  function Requested(moderated: bool): World {
    Step(Opened(moderated), REQUEST, 0)
  }

  lemma OpenedAgrees(moderated: bool)
    ensures Inv(Opened(moderated)) && FullyAgrees(Opened(moderated))
  {
    FreshSessionInv("s", Door(moderated), 0, false);
  }

  lemma NobodyWaits(w: World)
    requires StoreOk(w) && forall id :: id in w.items.at ==> !IsActive(w.items.at[id].status)
    ensures Line(w) == []
  {
    LineIsLine(w);
    if Line(w) != [] {
      HasFirst(Line(w));
    }
  }

  /** With nothing active in it the session takes the guest's request. */
  lemma RequestAdmitted(w: World, moderated: bool, env: RequestEnv)
    requires StoreOk(w) && w.sid == "s" && w.dir == Door(moderated) && env.limitedUntil.None?
    requires forall id :: id in w.items.at ==> !IsActive(w.items.at[id].status)
    ensures AdmitRequest(w, "token", SONG, None, env) == Ok((House(moderated), "guest", None))
  {
    NobodyWaits(w);
    assert ActiveIds(w.items.at, w.sid, "guest") == {};
    assert HasRoomFor(w, House(moderated), "guest", SONG.uri);
    assert MayRequest(w, "token", "guest", SONG, None, env);
    AdmittedExactly(w, "token", SONG, None, env);
  }

  /** An admitted request leaves its row. */
  lemma RequestPlaced(w: World, token: string, track: Track, env: RequestEnv, session: Session, guestId: string)
    requires StoreOk(w) && env.itemId !in w.issued && env.push.Pushed?
    requires AdmitRequest(w, token, track, None, env) == Ok((session, guestId, None))
    ensures var w' := RequestTrack(w, token, track, None, env).0;
      && w'.sid == w.sid && w'.dir == w.dir && w'.votes == w.votes && w'.issued == w.issued + {env.itemId}
      && w'.items.at == w.items.at[env.itemId := NewRow(w.sid, session, guestId, track, env)]
  {
    RequestItems(w, token, track, None, env);
    RequestAllOrNothing(w, token, track, None, env);
    var row := NewRow(w.sid, session, guestId, track, env);
    assert PlaceRequest(w, row, None, env).1 == Ok(row);
  }

  /** What the session is after such a request. */
  lemma NextRequest(w: World, c: Command, session: Session, guestId: string)
    requires Inv(w) && c.CRequest? && c.karaoke.None? && c.env.push.Pushed? && Plausible(w, c, c.env.now)
    requires AdmitRequest(w, c.token, c.track, None, c.env) == Ok((session, guestId, None))
    ensures var w' := Step(w, c, c.env.now);
      && Inv(w') && w'.sid == w.sid && w'.dir == w.dir && w'.votes == w.votes
      && w'.clock == c.env.now && w'.issued == w.issued + {c.env.itemId}
      && w'.items.at == w.items.at[c.env.itemId := NewRow(w.sid, session, guestId, c.track, c.env)]
  {
    RequestPlaced(w, c.token, c.track, c.env, session, guestId);
    StepIsRequest(w, c);
    StepKeepsInv(w, c, c.env.now);
  }

  lemma RequestedRow(moderated: bool)
    ensures var w := Requested(moderated);
      && w.sid == "s" && w.dir == Door(moderated) && w.votes == {} && w.clock == 0 && w.issued == {"item"}
      && w.items.at == map["item" := NewRow("s", House(moderated), "guest", SONG, REQUEST.env)]
  {
    OpenedAgrees(moderated);
    RequestAdmitted(Opened(moderated), moderated, REQUEST.env);
    NextRequest(Opened(moderated), REQUEST, House(moderated), "guest");
  }

  lemma StepIsRequest(w: World, c: Command)
    requires c.CRequest?
    ensures Step(w, c, c.env.now) == RequestTrack(w, c.token, c.track, c.karaoke, c.env).0.(clock := c.env.now)
    ensures !Lost(w, c, c.env.now)
  {
  }

  lemma RequestedAgrees(moderated: bool)
    ensures Inv(Requested(moderated)) && FullyAgrees(Requested(moderated))
  {
    OpenedAgrees(moderated);
    StepIsRequest(Opened(moderated), REQUEST);
    assert Plausible(Opened(moderated), REQUEST, 0);
    StepFullyExact(Opened(moderated), REQUEST, 0);
  }

  // ---------------------------------------------------------------- missed steps

  const REJECT := CModerate("item", false, None)
  const APPROVE := CModerate("item", true, None)

  /** The row of the first request, as far as it matters here. */
  predicate FirstRow(r: Row) {
    r.sessionId == "s" && r.guestId == "guest" && r.trackUri == SONG.uri && r.createdAt == 0
  }

  /** The session once the host has rejected it. */
  ghost predicate FirstRejected(w: World) {
    && Inv(w) && w.sid == "s" && w.dir == Door(false) && w.clock == 1 && w.issued == {"item"}
    && w.items.at.Keys == {"item"} && FirstRow(w.items.at["item"]) && w.items.at["item"].status.Rejected?
  }

  lemma RejectionRow(w: World, itemId: string, now: int)
    requires Inv(w) && itemId in w.items.at && w.items.at[itemId].sessionId == w.sid && w.clock <= now
    ensures var c := CModerate(itemId, false, None);
      var w' := Step(w, c, now);
      && Inv(w') && w'.sid == w.sid && w'.dir == w.dir && w'.clock == now && w'.issued == w.issued
      && w'.items.at == w.items.at[itemId := Decided(w.items.at[itemId], Rejected, now)]
  {
    StepKeepsInv(w, CModerate(itemId, false, None), now);
    assert Step(w, CModerate(itemId, false, None), now) == Moderate(w, itemId, false, now, None).0.(clock := now);
  }

  lemma RejectedRow()
    ensures FirstRejected(Step(Requested(false), REJECT, 1))
  {
    RequestedAgrees(false);
    RequestedRow(false);
    RejectionRow(Requested(false), "item", 1);
  }

  /** A request, its rejection, and the host's change of mind: the room no longer shows what is stored. */
  lemma RevivalIsReached()
    ensures var w := Step(Requested(false), REJECT, 1);
      Inv(w) && Plausible(w, APPROVE, 2) && Missed(w, APPROVE, 2) && !Agrees(Step(w, APPROVE, 2))
  {
    RejectedRow();
    MissedBreaks(Step(Requested(false), REJECT, 1), APPROVE, 2);
  }

  /** A request that is never played: after the grace the first pass with nothing playing settles it behind
      the room's back. */
  lemma OverdueIsReached()
    ensures var w, poll := Requested(false), CPoll(Reconcile.View(0, None, {}, false, {}), false);
      var now := Reconcile.RECONCILE_GRACE_MS;
      Inv(w) && Plausible(w, poll, now) && Missed(w, poll, now) && !Agrees(Step(w, poll, now))
  {
    var w, v, now := Requested(false), Reconcile.View(0, None, {}, false, {}), Reconcile.RECONCILE_GRACE_MS;
    RequestedAgrees(false);
    RequestedRow(false);
    assert Overdue(w.items.at["item"], v.(now := now));
    assert FindsOverdue(w, v.(now := now));
    MissedBreaks(w, CPoll(v, false), now);
  }

  // ---------------------------------------------------------------- limits that no gate guards

  const AGAIN := CRequest("token", SONG, None, RequestEnv(2, "again", "another", None, Pushed))

  /** The guest asks for the rejected track again. */
  function AskedAgain(): World {
    Step(Step(Requested(false), REJECT, 1), AGAIN, 2)
  }

  predicate SecondRow(r: Row) {
    r.sessionId == "s" && r.guestId == "guest" && r.trackUri == SONG.uri && r.createdAt == 2 && r.status.Approved?
  }

  ghost predicate SecondAsked(w: World) {
    && Inv(w) && w.sid == "s" && w.dir == Door(false) && w.clock == 2 && w.items.at.Keys == {"item", "again"}
    && FirstRow(w.items.at["item"]) && w.items.at["item"].status.Rejected?
    && SecondRow(w.items.at["again"])
  }

  lemma AsksAgain(w: World)
    requires FirstRejected(w)
    ensures SecondAsked(Step(w, AGAIN, 2))
  {
    RequestAdmitted(w, false, AGAIN.env);
    NextRequest(w, AGAIN, House(false), "guest");
  }

  lemma AskedAgainRows()
    ensures SecondAsked(AskedAgain())
  {
    RejectedRow();
    AsksAgain(Step(Requested(false), REJECT, 1));
  }

  lemma SecondApproved(w: World)
    requires SecondAsked(w)
    ensures StoreOk(w) && Plausible(w, APPROVE, 3) && LimitsHold(w, 1, false)
    ensures RevivalGoesThrough(w, APPROVE) && !RevivalFits(w, APPROVE, 1, false)
    ensures var after := Step(w, APPROVE, 3);
      !LimitsHold(after, 1, false) && !WithinCap(after.items.at, "s", 1) && !NoDuplicates(after.items.at, "s")
  {
    OnlyTheSecondCounts(w);
    StepLimitsExact(w, APPROVE, 3, 1, false);
    BothCount(w);
  }

  /** A request, its rejection, the same request again, and the approval of the first: the guest is over
      the cap, with one track twice. */
  lemma BrokenLimitsAreReached()
    ensures var w := AskedAgain();
      && StoreOk(w) && Plausible(w, APPROVE, 3) && LimitsHold(w, 1, false)
      && RevivalGoesThrough(w, APPROVE) && !RevivalFits(w, APPROVE, 1, false)
      && var after := Step(w, APPROVE, 3);
        !LimitsHold(after, 1, false) && !WithinCap(after.items.at, "s", 1) && !NoDuplicates(after.items.at, "s")
  {
    AskedAgainRows();
    SecondApproved(AskedAgain());
  }

  lemma OnlyTheSecondCounts(w: World)
    requires w.sid == "s" && w.dir == Door(false) && w.items.at.Keys == {"item", "again"}
    requires !IsActive(w.items.at["item"].status) && ActiveIn(w.items.at["again"], "s")
    requires w.items.at["again"].guestId == "guest" && w.items.at["again"].trackUri == "song"
    ensures LimitsHold(w, 1, false) && ActiveIds(w.items.at, "s", "guest") == {"again"}
  {
    forall guestId ensures |ActiveIds(w.items.at, "s", guestId)| <= 1 {
      SubsetCount(ActiveIds(w.items.at, "s", guestId), {"again"});
    }
  }

  lemma BothCount(w: World)
    requires StoreOk(w) && w.sid == "s" && w.items.at.Keys == {"item", "again"}
    requires w.items.at["item"].status.Rejected? && ActiveIn(w.items.at["again"], "s")
    requires w.items.at["item"].sessionId == "s" && w.items.at["item"].guestId == w.items.at["again"].guestId == "guest"
    requires w.items.at["item"].trackUri == w.items.at["again"].trackUri
    ensures var after := Step(w, APPROVE, 3).items.at;
      !WithinCap(after, "s", 1) && !NoDuplicates(after, "s")
  {
    var row := Decided(w.items.at["item"], Approved, 3);
    var after := w.items.at["item" := row];
    assert Step(w, APPROVE, 3).items == Moderate(w, "item", true, 3, None).0.items;
    assert Step(w, APPROVE, 3).items.at == after;
    assert {"item", "again"} <= ActiveIds(after, "s", "guest");
    SubsetCount({"item", "again"}, ActiveIds(after, "s", "guest"));
    assert after["item"].trackUri == after["again"].trackUri;
  }

  /** An older row of the guest comes back in front of the only one that waits. */
  lemma ReentryDoubles(w: World, itemId: string, row: Row, now: int)
    requires Line(w) == [row] && itemId in w.items.at && w.items.at[itemId].sessionId == w.sid
    requires var item := w.items.at[itemId];
      !IsWaiting(item.status) && item.createdAt < row.createdAt && item.guestId == row.guestId
    ensures !FitsInLine(w, CModerate(itemId, true, None), now, 1)
  {
    var r := Enters(w, CModerate(itemId, true, None), now).value;
    assert Place([row], r) == 0;
    assert [row][..0] == [] && [row][0..] == [row];
    assert Admission.LeadingRun([row], r.guestId) == 1 + Admission.LeadingRun([row][1..], r.guestId);
  }

  lemma BothPast(w: World)
    requires w.items.at.Keys == {"item", "again"} && w.clock == 2
    requires w.items.at["item"].createdAt <= 2 && w.items.at["again"].createdAt <= 2
    ensures RowsPast(w)
  {
    forall id | id in w.items.at ensures w.items.at[id].createdAt <= w.clock {
      assert id in w.items.at.Keys;
    }
  }

  lemma DoublingBreaks(w: World, itemId: string, row: Row, now: int)
    requires StoreOk(w) && w.clock <= now && Line(w) == [row] && Admission.RunsWithin(Line(w), 1)
    requires itemId in w.items.at && w.items.at[itemId].sessionId == w.sid
    requires var item := w.items.at[itemId];
      !IsWaiting(item.status) && item.createdAt < row.createdAt && item.guestId == row.guestId
    ensures var c := CModerate(itemId, true, None);
      !FitsInLine(w, c, now, 1) && !Admission.RunsWithin(Line(Step(w, c, now)), 1)
  {
    ReentryDoubles(w, itemId, row, now);
    StepLineExact(w, CModerate(itemId, true, None), now, 1);
  }

  lemma SecondAlone(w: World)
    requires StoreOk(w) && w.sid == "s" && w.items.at.Keys == {"item", "again"}
    requires !IsActive(w.items.at["item"].status) && WaitsIn(w.items.at["again"], "s")
    ensures Line(w) == [w.items.at["again"]] && Admission.RunsWithin(Line(w), 1)
  {
    LineIsLine(w);
    LineUnique(Line(w), [w.items.at["again"]]);
  }

  lemma SecondDoubled(w: World)
    requires SecondAsked(w)
    ensures LineOk(w, 1) && Plausible(w, APPROVE, 3)
    ensures !FitsInLine(w, APPROVE, 3, 1) && !Admission.RunsWithin(Line(Step(w, APPROVE, 3)), 1)
  {
    var row := w.items.at["again"];
    assert Line(w) == [row] && Admission.RunsWithin(Line(w), 1) by {
      SecondAlone(w);
    }
    BothPast(w);
    DoublingBreaks(w, "item", row, 3);
  }

  /** ... and with two in a row where one is allowed. */
  lemma BrokenLineIsReached()
    ensures var w := AskedAgain();
      && LineOk(w, 1) && Plausible(w, APPROVE, 3)
      && !FitsInLine(w, APPROVE, 3, 1) && !Admission.RunsWithin(Line(Step(w, APPROVE, 3)), 1)
  {
    AskedAgainRows();
    SecondDoubled(AskedAgain());
  }

  // ---------------------------------------------------------------- counts and times left behind

  /** A vote on a waiting request: the room goes on showing the old count. */
  lemma LostCountIsReached()
    ensures var w, vote := Requested(true), CVote("item", "token");
      && Inv(w) && FullyAgrees(w) && Plausible(w, vote, 1) && !Missed(w, vote, 1)
      && CountLost(w, vote) && !CountsAgree(Step(w, vote, 1))
  {
    var w, vote := Requested(true), CVote("item", "token");
    RequestedAgrees(true);
    RequestedRow(true);
    FullyAgreesExact(w);
    CountsExact(w, vote, 1);
  }

  lemma ApprovalLosesTime(w: World, itemId: string, now: int)
    requires Inv(w) && FullyAgrees(w) && w.clock <= now
    requires itemId in w.items.at && w.items.at[itemId].sessionId == w.sid
    requires w.items.at[itemId].status.Pending? && w.items.at[itemId].decidedAt.None?
    ensures var c := CModerate(itemId, true, None);
      Plausible(w, c, now) && !Missed(w, c, now) && TimeLost(w, c, now) && !TimesAgree(Step(w, c, now))
  {
    FullyAgreesExact(w);
    TimesExact(w, CModerate(itemId, true, None), now);
  }

  /** Approving a waiting request: the room goes on showing no decision time. */
  lemma LostTimeIsReached()
    ensures var w := Requested(true);
      && Inv(w) && FullyAgrees(w) && Plausible(w, APPROVE, 1) && !Missed(w, APPROVE, 1)
      && TimeLost(w, APPROVE, 1) && !TimesAgree(Step(w, APPROVE, 1))
  {
    RequestedAgrees(true);
    RequestedRow(true);
    ApprovalLosesTime(Requested(true), "item", 1);
  }

  // ---------------------------------------------------------------- overlapping ticks

  /** Somebody looks in and leaves while the first tick still waits for the provider, for longer than the
      idle grace. */
  function Visit(o: S.Options): seq<S.Step>
    requires o.idleGraceMs >= 0
  {
    [S.Connect("s", "c"), S.SubscribeAndStart("s", "c"), S.TickFires(0), S.Disconnect("s", "c"), S.CloseCheck("s"),
     S.TimePasses(o.idleGraceMs)]
  }

  const HERE := {("s", "c")}

  function OneEntry(o: S.Options, e: S.Entry, timeouts: map<nat, S.Timeout>, nextTimer: nat): S.Poller {
    S.Poller(o, [e], map["s" := 0], timeouts, nextTimer)
  }

  /** The poller's world after the first `k` steps of the visit. */
  function Visited(o: S.Options, now: int, k: nat): S.World {
    var armed, idle := map[0 := S.TickDue("s", now)], map[1 := S.IdleDue("s", now + o.idleGraceMs)];
    var inFlight := map[0 := S.Tick("s", 0)];
    match k
    case 0 => ST.Boot(o, now)
    case 1 => S.World(S.Poller(o, [], map[], map[], 0), map[], 0, {"s"}, HERE, {}, now)
    case 2 => S.World(OneEntry(o, S.Entry(Some(0), false, None, None), armed, 1), map[], 0, {"s"}, HERE, HERE, now)
    case 3 => S.World(OneEntry(o, S.Entry(None, true, None, None), map[], 1), inFlight, 1, {"s"}, HERE, HERE, now)
    case 4 => S.World(OneEntry(o, S.Entry(None, true, None, None), map[], 1), inFlight, 1, {"s"}, {}, {}, now)
    case 5 => S.World(OneEntry(o, S.Entry(None, true, Some(1), None), idle, 2), inFlight, 1, {"s"}, {}, {}, now)
    case _ => S.World(OneEntry(o, S.Entry(None, true, Some(1), None), idle, 2), inFlight, 1, {"s"}, {}, {},
                      now + o.idleGraceMs)
  }

  lemma VisitStarts(o: S.Options, now: int)
    requires S.Inv(Visited(o, now, 1))
    ensures S.After(Visited(o, now, 1), S.SubscribeAndStart("s", "c")) == Visited(o, now, 2)
  {
    var p := Visited(o, now, 1).poller;
    var p1 := S.CancelIdle(S.Track(p, "s"), "s");
    assert p1 == OneEntry(o, S.FRESH_ENTRY, map[], 0);
    assert S.Start(p, "s", now) == S.ScheduleNext(p1, "s", 0, now);
    assert {} + {("s", "c")} == HERE;
  }

  lemma VisitTicks(o: S.Options, now: int)
    requires S.Inv(Visited(o, now, 2))
    ensures S.After(Visited(o, now, 2), S.TickFires(0)) == Visited(o, now, 3)
  {
    var w := Visited(o, now, 2);
    assert S.Fired(w.poller, 0) == w.poller.(timeouts := map[]);
    assert S.TickBegin(S.Fired(w.poller, 0), "s") == Visited(o, now, 3).poller;
  }

  lemma VisitLeaves(o: S.Options, now: int)
    requires S.Inv(Visited(o, now, 3))
    ensures S.After(Visited(o, now, 3), S.Disconnect("s", "c")) == Visited(o, now, 4)
  {
    assert HERE - {("s", "c")} == {};
  }

  lemma VisitCloses(o: S.Options, now: int)
    requires S.Inv(Visited(o, now, 4))
    ensures S.After(Visited(o, now, 4), S.CloseCheck("s")) == Visited(o, now, 5)
  {
    assert S.Stop(Visited(o, now, 4).poller, "s", now) == Visited(o, now, 5).poller;
  }

  lemma VisitStep(o: S.Options, now: int, k: nat)
    requires o.idleGraceMs >= 0 && k < 6 && S.Inv(Visited(o, now, k))
    ensures S.After(Visited(o, now, k), Visit(o)[k]) == Visited(o, now, k + 1)
  {
    match k
    case 0 => assert {} + {"s"} == {"s"} && {} + {("s", "c")} == HERE;
    case 1 => VisitStarts(o, now);
    case 2 => VisitTicks(o, now);
    case 3 => VisitLeaves(o, now);
    case 4 => VisitCloses(o, now);
    case _ =>
  }

  lemma NextStep(w: S.World, steps: seq<S.Step>, k: nat)
    requires S.Inv(w) && 0 < k <= |steps| && !steps[k - 1].IdleFires? && ST.NeverMidTick(w, steps[..k - 1])
    ensures ST.RunFrom(w, steps[..k]) == S.After(ST.RunFrom(w, steps[..k - 1]), steps[k - 1])
    ensures ST.NeverMidTick(w, steps[..k])
  {
    assert steps[..k] == steps[..k - 1] + [steps[k - 1]];
    ST.RunSnoc(w, steps[..k - 1], steps[k - 1]);
  }

  lemma {:induction false} VisitRun(o: S.Options, now: int, k: nat)
    requires o.idleGraceMs >= 0 && k <= 6
    ensures ST.RunFrom(ST.Boot(o, now), Visit(o)[..k]) == Visited(o, now, k)
    ensures ST.NeverMidTick(ST.Boot(o, now), Visit(o)[..k])
  {
    if k > 0 {
      VisitRun(o, now, k - 1);
      VisitStep(o, now, k - 1);
      NextStep(ST.Boot(o, now), Visit(o), k);
    }
  }

  /** The tear-down after the visit lands in the middle of the tick, and a second tick can join it. */
  lemma MidTickTearDownIsReached(o: S.Options, now: int)
    requires o.idleGraceMs >= 0
    ensures var w := ST.RunFrom(ST.Boot(o, now), Visit(o));
      && ST.TearsDownMidTick(w, S.IdleFires(1)) && S.Inv(S.After(w, S.IdleFires(1)))
      && ST.CanOverlap(S.After(w, S.IdleFires(1)), "s")
  {
    var w := ST.RunFrom(ST.Boot(o, now), Visit(o));
    assert Visit(o)[..6] == Visit(o);
    VisitRun(o, now, 6);
    ST.OneChainPerSession(ST.Boot(o, now), Visit(o));
    LateVisit(o, now);
    ST.OverlapExact(w, 1);
  }

  lemma LateVisit(o: S.Options, now: int)
    requires o.idleGraceMs >= 0
    ensures ST.TearsDownMidTick(Visited(o, now, 6), S.IdleFires(1))
      && Visited(o, now, 6).poller.timeouts[1].sessionId == "s"
  {
    assert 0 in ST.InFlightOf(Visited(o, now, 6), "s");
  }

  // ---------------------------------------------------------------- the consecutive cap

  /** With a cap of one, taking the request between two of another guest leaves those two together. */
  lemma MiddleDepartureBreaks(a: Row, b: Row, c: Row)
    requires a.guestId == c.guestId && a.guestId != b.guestId
    ensures var w := [a, b, c];
      Admission.RunsWithin(w, 1) && !Admission.RunsWithin(w[..1] + w[2..], 1)
  {
    var w := [a, b, c];
    forall lo, hi | 0 <= lo < hi <= |w| && Admission.SameGuest(w, lo, hi) ensures hi - lo <= 1 {
      if hi - lo > 1 {
        assert w[lo + 1].guestId == w[lo].guestId;
      }
    }
    Admission.DepartureExact(w, 1, 1);
    assert w[..1] == [a] && w[2..] == [c];
    assert Admission.SameGuest([a, c], 0, 2);
    assert w[..1] + w[2..] == [a, c];
  }

  /** Items requested one after the other wait in that order. */
  lemma WaitInOrder(items: seq<Row>)
    requires forall i :: 0 <= i < |items| ==> IsWaiting(items[i].status)
    requires forall i, j :: 0 <= i < j < |items| ==> items[i].createdAt < items[j].createdAt
    ensures Admission.WaitingList(items) == items
  {
    FilterAll(items, Admission.WaitingRow);
    SortOfSorted(items, Admission.RequestOrder);
  }

  lemma NextInTurn(items: seq<Row>, row: Row)
    requires forall i :: 0 <= i < |items| ==> IsWaiting(items[i].status)
    requires forall i, j :: 0 <= i < j < |items| ==> items[i].createdAt < items[j].createdAt
    requires items != [] ==> Last(items).guestId != row.guestId
    ensures Admission.ApplyWaitingStep(items, Admission.Request(row), 1) == items + [row]
  {
    WaitInOrder(items);
    Admission.ConsecutiveCapExact(items, row.guestId, 1);
  }

  lemma RunOfThree(items: seq<Row>, x: Admission.WaitingStep, y: Admission.WaitingStep, z: Admission.WaitingStep,
                   cap: int)
    ensures Admission.WaitingRun(items, [x, y, z], cap) ==
      Admission.ApplyWaitingStep(Admission.ApplyWaitingStep(Admission.ApplyWaitingStep(items, x, cap), y, cap), z, cap)
  {
    assert [x, y, z][1..] == [y, z] && [y, z][1..] == [z] && [z][1..] == [];
    var one := Admission.ApplyWaitingStep(items, x, cap);
    var two := Admission.ApplyWaitingStep(one, y, cap);
    assert Admission.WaitingRun(items, [x, y, z], cap) == Admission.WaitingRun(one, [y, z], cap);
    assert Admission.WaitingRun(one, [y, z], cap) == Admission.WaitingRun(two, [z], cap);
  }

  lemma NextOfTwo(a: Row, b: Row, c: Row)
    requires IsWaiting(a.status) && IsWaiting(b.status) && a.createdAt < b.createdAt && b.guestId != c.guestId
    ensures Admission.ApplyWaitingStep([a] + [b], Admission.Request(c), 1) == [a] + [b] + [c]
  {
    NextInTurn([a] + [b], c);
  }

  lemma FirstTwo(a: Row, b: Row)
    requires IsWaiting(a.status) && a.guestId != b.guestId
    ensures Admission.ApplyWaitingStep([], Admission.Request(a), 1) == [a]
    ensures Admission.ApplyWaitingStep([a], Admission.Request(b), 1) == [a] + [b]
  {
    NextInTurn([], a);
    assert [] + [a] == [a];
    NextInTurn([a], b);
  }

  lemma ThreeInTurn(a: Row, b: Row, c: Row)
    requires a.guestId == c.guestId && a.guestId != b.guestId && a.createdAt < b.createdAt < c.createdAt
    requires IsWaiting(a.status) && IsWaiting(b.status) && IsWaiting(c.status)
    ensures Admission.WaitingRun([], [Admission.Request(a), Admission.Request(b), Admission.Request(c)], 1) ==
      [a] + [b] + [c]
  {
    RunOfThree([], Admission.Request(a), Admission.Request(b), Admission.Request(c), 1);
    FirstTwo(a, b);
    NextOfTwo(a, b, c);
  }

  /** A rejected request no longer waits between the two others. */
  lemma RejectedMiddle(a: Row, b: Row, c: Row)
    requires IsWaiting(a.status) && b.status.Rejected? && IsWaiting(c.status) && a.createdAt < c.createdAt
    ensures Admission.WaitingList([a, b, c]) == [a, c]
  {
    FilterSnoc([a, b], c, Admission.WaitingRow);
    FilterSnoc([a], b, Admission.WaitingRow);
    FilterSnoc([a], c, Admission.WaitingRow);
    assert [a, b] + [c] == [a, b, c] && [a] + [b] == [a, b] && [a] + [c] == [a, c];
    WaitInOrder([a, c]);
  }

  lemma RunsTogether(a: Row, b: Row, c: Row)
    requires a.guestId == c.guestId && a.guestId != b.guestId
    ensures Admission.RunsWithin([a, b, c], 1) && !Admission.RunsWithin([a, c], 1)
  {
    MiddleDepartureBreaks(a, b, c);
    assert [a, b, c][..1] + [a, b, c][2..] == [a, c];
  }

  /** Two guests request in turn under a cap of one; the host rejects the request in the middle. */
  lemma BrokenCapIsReached(a: Row, b: Row, c: Row)
    requires a.guestId == c.guestId && a.guestId != b.guestId && a.createdAt < b.createdAt < c.createdAt
    requires IsWaiting(a.status) && IsWaiting(b.status) && IsWaiting(c.status)
    ensures var steps := [Admission.Request(a), Admission.Request(b), Admission.Request(c)];
      var items := Admission.WaitingRun([], steps, 1);
      && items == [a, b, c] && Admission.RunsWithin(Admission.WaitingList(items), 1)
      && !Admission.RunsWithin(Admission.WaitingList([a, b.(status := Rejected), c]), 1)
  {
    ThreeInTurn(a, b, c);
    assert [a] + [b] + [c] == [a, b, c];
    WaitInOrder([a, b, c]);
    RejectedMiddle(a, b.(status := Rejected), c);
    RunsTogether(a, b, c);
  }
}
