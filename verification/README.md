# A verified model of a live listening session

Guests request songs into a shared queue, vote, and claim karaoke mics; a host moderates; a poller follows
what the streaming provider plays; every browser shows a snapshot that the server folds from events. This
project models that machinery and proves what keeps it consistent.

- **Session and replicas** (`LiveSession`, `Services`, `Stores`, `Snapshot`, `Agreement`, `AgreementSteps`,
  `Hydration`, `LiveTheorems`, `FullAgreement`, `RoomOrder`, `Limits`, `Rights`): the services as steps on stores, karaoke state and room, and the room's
  snapshot as a cache of the stores. `LiveSession` holds each command as a function of the session; `Services` and
  `Stores` hold the same commands as methods on mutable objects, proved to go exactly where the functions go.
- **Poller** (`Scheduler`, `SchedulerSteps`, `SchedulerTheorems`, `PollerObject`, `Reconcile`, `QueuePoll`,
  `Backoff`): timers, ticks in flight, idle tear-down, backoff, and the pass over the queue. The two ends of a tick
  are separate steps, interleaved freely with opens, closes and timeouts.
- **Provider limits** (`Cooldowns`, `SearchCache`): rate-limit windows and the shared search cache, against their
  whole histories.
- **Lyrics** (`Lrc`, `LrcTheorems`, `Clock`, `ActiveLine`, `DisplayEngine`, `DisplayHistory`, `LyricsTheorems`): the
  LRC parser against its grammar, three routes to the active line, the progress through its words, and where the
  displayed lyrics come from. The methods of `DisplayEngine.LyricsEngine` are proved to do to the object what its
  functions do to the fields; `DisplayHistory` says what that amounts to over everything the engine is fed.
- **Admission** (`Admission`, `WaitingLine`, `GuestSlots`): the caps a request is tested against, the line of waiting
  requests over runs of the session, and slots with a line of their own.

`Collections`, `ItemIndex`, `Claims`, `Text`, `QueueTypes` and `SyncTypes` are shared vocabulary.

Six results are about where the code does not meet the plain statement, each with the exact condition, which can be
checked before the step, and a run from the initial state that meets it (`Witnesses`, and for the last one
`DisplayHistory.LateLoadIsLost`):

- The room misses two kinds of step and no other (`LiveTheorems.StepExact`): an approval of a row that was rejected or
  played, unless the provider's rate limit turns it away, since the approval event finds nothing to move; and a poller
  pass that finds an overdue row, since the pass writes rows and publishes nothing about them.
- What the room shows of votes and decisions falls behind in two more (`FullAgreement.StepFullyExact`): an admitted vote
  on a pending item that it does not reject at once, since the vote event looks through the queue list only; and an
  approval of a shown item, since the approval event carries no time.
- An idle tear-down opens the way to two ticks of one session running at once exactly when it lands while a tick is in
  flight (`SchedulerTheorems.OverlapExact`).
- The host's approval of a rejected or played row passes no gate: it keeps the cap on requests and the rule against
  duplicates exactly when the guest is below the cap and, with duplicates off, no active row has the track
  (`Limits.StepLimitsExact`; `Witnesses.BrokenLimitsAreReached` breaks both).
- The consecutive cap is tested where a request joins the line of waiting requests, and nowhere else. A row that leaves
  from the middle keeps everybody within it exactly when the runs that meet in the gap, if one guest's, fit together;
  one that an approval brings back, at its place by creation time, exactly when it fits with its guest's runs on both
  sides (`Admission.DepartureExact`, `WaitingLine.StepLineExact`).
- Lyrics on display are the last that came for the track exactly when those were not turned away because another track
  was being sampled at the time (`DisplayHistory.LastOfferShownExact`).

Over every run, missed steps included, the stores stay in order, the room lists no id twice, and its karaoke slice is the
service's state (`RoomOrder.RunKeepsOrder`).

To verify the project, run `dafny verify --resource-limit 2000000 --verification-time-limit 0 dfyconfig.toml`.

## Model

| member | source | states |
|---|---|---|
| LiveTheorems.StepKeepsInv | packages/backend/src/queue/QueueService.ts:147-567 | Every command of a session (request with roll-back, moderation, removal, vote, mic claims, spotlight, pause, poller pass, hydration) except a missed one keeps: rows and claims in order, pending and queue lists equal to the stored rows by id, status, fields and singers, and the karaoke state equal to the folded slice; vote counts and decision times are settled by `FullAgreement.StepFullyExact` |
| LiveTheorems.StepExact | packages/realtime/src/applyEvent.ts:44-82 | From an agreeing session a step keeps snapshot and stores in agreement if and only if it is neither an approval of a rejected or played row that no rate limit turns away, nor a poller pass that finds an approved or playing row past the grace that now plays for the first time, or is neither playing nor in the provider's queue |
| LiveTheorems.RunKeepsInv | packages/realtime/src/applyEvent.ts:42-252 | The whole invariant over every run without a missed step |
| LiveTheorems.HydratedRunAgrees | packages/backend/src/routes/realtime.ts:115-157 | A room whose present items agree agrees completely after hydration, and goes on agreeing over every further run without a missed step |
| LiveTheorems.FreshSessionInv | packages/realtime/src/types/snapshot.ts:118-137 | A new session with empty stores and the empty snapshot satisfies the invariant |
| RoomOrder.RunKeepsOrder | packages/realtime/src/applyEvent.ts:42-252 | Over every run, steps the room misses included, no id is listed twice or in both lists, every listed id was given out by the session, rows and claims are in order, and the karaoke state is the room's slice |
| RoomOrder.StepKeepsTidy | packages/realtime/src/applyEvent.ts:44-82 | Every step, missed or not, keeps the two lists without repetition, apart from each other and among known ids |
| RoomOrder.HydrateTidy | packages/backend/src/routes/realtime.ts:115-157 | Hydration adds stored rows that are not listed, each once and to one list, whatever was missed before |
| RoomOrder.FreshSessionTidy | packages/realtime/src/types/snapshot.ts:118-137 | A new session starts in that order |
| LiveTheorems.PollerPassExact | packages/backend/src/realtime/NowPlayingPoller.ts:836-893 | A poller pass keeps the agreement if and only if no row of the session is overdue: approved or playing, past the grace, and started to play or gone from the provider |
| LiveTheorems.PassSettlesOverdue | packages/backend/src/realtime/NowPlayingPoller.ts:790-893 | Whatever is skipped in it, a pass changes an active row of the session if and only if the row is overdue |
| FullAgreement.StepFullyExact | packages/realtime/src/applyEvent.ts:44-128 | From a room whose every entry is its row's summary, counts and times included, a step keeps it so if and only if it is no missed one, no admitted vote on a pending item short of rejecting it, and no approval of a shown item at a new instant |
| FullAgreement.CountsExact | packages/realtime/src/applyEvent.ts:122-128 | Of the steps that are not missed, the admitted vote on a pending item that does not reject it at once is the one that makes a shown vote count wrong |
| FullAgreement.TimesExact | packages/realtime/src/applyEvent.ts:51-66 | Of the steps that are not missed, the approval of a shown item at a new instant is the one that makes a shown decision time wrong |
| FullAgreement.RunFullyAgrees | packages/realtime/src/applyEvent.ts:42-252 | Over every run without such steps each entry of the room is its row's summary |
| FullAgreement.HydrateStands | packages/backend/src/routes/realtime.ts:115-157 | Hydrating a room that agrees leaves it alone |
| Witnesses.RevivalIsReached | packages/backend/src/queue/QueueService.ts:286-318 | A first request, rejected and then approved, leaves the room out of agreement |
| Witnesses.OverdueIsReached | packages/backend/src/realtime/NowPlayingPoller.ts:836-893 | A first request and a pass thirty seconds later with nothing playing leave the room out of agreement |
| Witnesses.LostCountIsReached | packages/realtime/src/applyEvent.ts:122-128 | A first request that waits for the host, and a vote on it, leave a wrong count on show |
| Witnesses.LostTimeIsReached | packages/realtime/src/applyEvent.ts:51-66 | A first request that waits for the host, and its approval, leave the decision time out of the room |
| Witnesses.MidTickTearDownIsReached | packages/backend/src/realtime/NowPlayingPoller.ts:333-340 | A client that leaves during the first tick, and a grace that ends before the tick does, bring about the tear-down after which two ticks can overlap |
| Witnesses.BrokenCapIsReached | packages/core/src/queue/enforceConsecutiveCap.ts:14-40 | With a cap of one, three accepted requests of two guests in turn and a rejection of the middle one leave two of one guest in a row |
| Witnesses.BrokenLimitsAreReached | packages/backend/src/queue/QueueService.ts:286-318 | A request, its rejection, the same request again and the approval of the first leave a guest with two active rows under a cap of one, and one track twice with duplicates off |
| Witnesses.BrokenLineIsReached | packages/backend/src/queue/QueueService.ts:286-318 | The same run leaves two of the guest in a row where one is allowed |
| LiveTheorems.HoldLastsExactly | packages/backend/src/karaoke/KaraokeService.ts:278-434 | Through every run without a new hold a hold lasts if and only if no step observes playback, passes the deadline strictly, is a claimer's ready, or moves or clears the spotlight; its deadline stands meanwhile |
| LiveTheorems.DeadlineEndsHold | packages/backend/src/karaoke/KaraokeService.ts:353-371 | Unless somebody holds again, playback is free at the end of every run with a poll strictly past the deadline |
| LiveTheorems.SpotlightIsEarliestClaimed | packages/backend/src/karaoke/KaraokeService.ts:278-342 | The spotlight goes to the earliest created active row of the playing track that somebody sings, and to none if there is none |
| AgreementSteps.RequestKeepsInv | packages/backend/src/queue/QueueService.ts:147-283 | A request, moderated or not, with or without a bundled mic, pushed or rolled back, keeps the invariant |
| AgreementSteps.ModerateExact | packages/backend/src/queue/QueueService.ts:286-318 | A decision keeps the agreement if and only if it does not approve a rejected or played row of the session, or a known session with a rate-limited provider turns the approval away |
| AgreementSteps.RemoveOwnKeepsInv | packages/backend/src/queue/QueueService.ts:390-431 | Removing an own item, whatever the checks answer, keeps the invariant |
| AgreementSteps.VoteKeepsInv | packages/backend/src/queue/QueueService.ts:440-567 | A vote, with or without the automatic rejection, keeps the invariant |
| AgreementSteps.ClaimKeepsInv | packages/backend/src/karaoke/KaraokeService.ts:120-176 | A mic claim shows up in the item's singers as the store orders them, and keeps the invariant |
| AgreementSteps.TrackChangeKeepsInv | packages/backend/src/karaoke/KaraokeService.ts:278-342 | Moving the spotlight, refreshing its singers and holding playback keeps karaoke state and snapshot equal |
| AgreementSteps.AdmittedClaim | packages/core/src/queue/canClaimMic.ts:37-59 | An accepted claim is on an active item of the session, with a mic free, by a guest without a claim on it |
| Claims.CreateIsEdit | packages/realtime/src/applyEvent.ts:157-167 | Storing a claim and reading the item's claims back is the event's edit of the shown singers, and no other item changes |
| Claims.DeleteIsEdit | packages/realtime/src/applyEvent.ts:168-172 | Deleting a claim and reading back is dropping the guest from the shown singers, and no other item changes |
| Claims.GroupingMatches | packages/backend/src/karaoke/claimSummaries.ts:19-29 | Grouping a session's claims by item gives each item the singers its own query gives |
| Hydration.SessionRowsOk | packages/backend/src/repositories/in-memory/index.ts:893-900 | Reading a session's rows gives each of them once and nothing else |
| Hydration.HydrateEstablishes | packages/backend/src/routes/realtime.ts:115-157 | Hydrating a room whose present items agree makes the lists agree completely |
| Hydration.HydrateIdempotent | packages/backend/src/routes/realtime.ts:115-157 | Hydrating twice is hydrating once, whatever the room showed |
| Snapshot.RecentlyPlayedRefinesHistory | packages/realtime/src/applyEvent.ts:84-111 | For every event sequence the recently played list is the first ten of all departed tracks, newest first, with neighbours of one URI collapsed |
| Snapshot.CollapseHasNoRepeats | packages/realtime/src/applyEvent.ts:84-111 | The collapsed history has no two neighbours with one URI |
| Snapshot.KaraokeAlwaysWellFormed | packages/realtime/src/applyEvent.ts:174-211 | Over every event sequence from the empty snapshot, paused holds exactly when a deadline is set, and implies a spotlight |
| Limits.MicsNeverExceeded | packages/core/src/queue/canClaimMic.ts:37-59 | With a fixed mic count, over every run no item has more claims than mics or two claims by one guest |
| Limits.StepLimitsExact | packages/core/src/queue/canEnqueue.ts:33-60 | With fixed rules a step keeps the cap and the duplicate rule if and only if it is no revival, or one that goes to a guest below the cap and, with duplicates off, for a track without an active row |
| Limits.LimitsNeverExceeded | packages/core/src/queue/canEnqueue.ts:33-60 | With fixed rules, over every run whose revivals fit in that sense, no guest has more active requests than the cap and, with duplicates off, no two active rows share a track |
| Limits.LimitsFromTheStart | packages/core/src/queue/canEnqueue.ts:33-60 | A new session is within every limit, so over every run from its start, with fixed rules and revivals that fit, request cap, duplicate rule, mic count and vote counts hold |
| Limits.FreshSessionLimits | packages/core/src/queue/canEnqueue.ts:33-60 | A new session satisfies the request cap, the duplicate rule, the mic count and the vote counts |
| Limits.PassFreesExactly | packages/backend/src/realtime/NowPlayingPoller.ts:836-893 | A poller pass takes exactly those rows off a guest's active count that are past the grace and neither playing nor queued at the provider |
| Limits.CountIsStoreCount | packages/core/src/queue/countActiveItemsForGuest.ts:7-15 | The count over the rows read back is the number of the guest's active rows in the store |
| Limits.VotesAlwaysCounted | packages/backend/src/repositories/in-memory/index.ts:955-981 | Over every run a row's vote count is the number of different guests who voted on it |
| Limits.StepStore | packages/backend/src/repositories/in-memory/index.ts:885-1043 | Every step, missed ones included, keeps rows under their own ids and claims unique per item and guest, about known items and not from the future |
| Rights.RowLeavesExactly | packages/backend/src/queue/QueueService.ts:390-431 | Whatever the step, a stored row leaves the store if and only if its own guest removes it before it plays |
| Rights.RequestAllOrNothing | packages/backend/src/queue/QueueService.ts:248-264 | A refused request, rolled back or turned away at a check, leaves the rows exactly as they were, order included; an accepted one adds its row at the end |
| Rights.RollBackRestoresView | packages/backend/src/queue/QueueService.ts:253-263 | After a roll-back the room lists exactly the rows it listed before |
| Rights.VoteRejectsExactly | packages/backend/src/queue/QueueService.ts:440-567 | A vote rejects its item if and only if the mode is automatic and the number of different voters reaches the threshold |
| Rights.ClaimLeavesExactly | packages/core/src/queue/canRemoveClaim.ts:22-34 | Whatever the step, a stored claim goes if and only if the host removes it, its own guest does while the item waits, or the store cascades and the item's guest removes the item |
| Rights.AdmittedExactly | packages/backend/src/queue/QueueService.ts:147-210 | A request passes the checks if and only if its token is an active slot of the session standing for one of its guests, the session is live, the guest has fewer active rows in the store than the cap and a shorter run at the end of the waiting list than the consecutive cap, no active row has the track where duplicates are off, the mic claim fits the mode and has a usable name, and the host moderates or no rate limit is on; it is admitted as that guest's |
| Services.QueueService.RequestTrack | packages/backend/src/queue/QueueService.ts:147-283 | A refused request changes nothing; an accepted one is announced once in stores and room alike; a rate-limited push leaves no row behind and returns the retry time. State and answer are those of the command that `RequestKeepsInv` is about |
| Services.QueueService.PlaceRequest | packages/backend/src/queue/QueueService.ts:211-264 | Row and bundled claim are written before they are announced, approval follows unless the host moderates, and a roll-back deletes the row and announces it |
| Services.QueueService.Moderate | packages/backend/src/queue/QueueService.ts:286-318 | An unknown or foreign item or a rate-limited approval changes nothing; otherwise row status, decision time and room move together. State and answer are those of the command that `ModerateExact` is about |
| Services.QueueService.RemoveOwn | packages/backend/src/queue/QueueService.ts:390-431 | Only the owner removes an item, and not while it plays; row and room lose it together |
| Services.QueueService.CastSkipVote | packages/backend/src/queue/QueueService.ts:440-567 | One vote per guest and item; the announced count is the stored one; the threshold rejects the row in the automatic modes only. State and answer are those of the command that `VotesAlwaysCounted` is about |
| Services.KaraokeService.Claim | packages/backend/src/karaoke/KaraokeService.ts:120-176 | A refused claim changes nothing; an accepted one is in the store and in the room's singers. State and answer are those of the command that `MicsNeverExceeded` is about |
| Services.KaraokeService.RemoveClaim | packages/backend/src/karaoke/KaraokeService.ts:181-218 | A guest gives up only an own claim on a waiting item; store and singers lose it together |
| Services.KaraokeService.HostRemoveClaim | packages/backend/src/karaoke/KaraokeService.ts:224-260 | The host removes anybody's claim at any time; store and singers lose it together |
| Services.KaraokeService.FindSpotlight | packages/backend/src/karaoke/KaraokeService.ts:300-316 | The candidate search returns the first claimed row of the track, with its singers |
| Services.KaraokeService.HandleTrackChange | packages/backend/src/karaoke/KaraokeService.ts:278-342 | State and room move to the same spotlight, with the stored singers, at most once per change, dropping a hold and setting one in automatic mode |
| Services.KaraokeService.ReconcilePlayback | packages/backend/src/karaoke/KaraokeService.ts:353-371 | A hold is cleared in state and room exactly on observed playback or a strictly passed deadline |
| Services.KaraokeService.Pause | packages/backend/src/karaoke/KaraokeService.ts:378-409 | Only a claimer of the spotlight holds playback, in manual mode only; state and room carry the same deadline |
| Services.KaraokeService.Ready | packages/backend/src/karaoke/KaraokeService.ts:415-434 | Only a claimer of the spotlight releases a hold, and only when there is one |
| Services.RealtimeRoute.HydrateOnce | packages/backend/src/routes/realtime.ts:115-157 | The first call folds every stored row the room does not list into the list of its status, with its singers, oldest first; later calls change nothing |
| Stores.NodeSessionRoom.Publish | packages/realtime/src/NodeSessionRoom.ts:84-94 | The snapshot is the folded and restamped one, and every transport is handed the event once |
| Stores.ReplicaFollowsRoom | packages/realtime/src/NodeSessionRoom.ts:84-94 | A client that folds the published events onto the snapshot it was sent shows what the room shows, assembly time aside |
| Stores.NodeSessionRoom.Subscribe | packages/realtime/src/NodeSessionRoom.ts:109-114 | Only a connected client gets a transport, and it starts with no events |
| Stores.NodeSessionRoom.Disconnect | packages/realtime/src/NodeSessionRoom.ts:59-62 | The client and its transport go together, nobody else's |
| Stores.InMemoryQueueItemRepository.FindAllForSession | packages/backend/src/repositories/in-memory/index.ts:893-900 | The scan returns the session's rows, oldest first, ties in insertion order |
| Stores.InMemoryQueueItemRepository.SetStatus | packages/backend/src/repositories/in-memory/index.ts:931-941 | Only the row's status changes, and its decision time if one is given; an unknown id changes nothing |
| Stores.InMemoryQueueSkipVoteRepository.RecordVote | packages/backend/src/repositories/in-memory/index.ts:963-976 | A first vote enters the ledger and raises the count by one; a repeated one changes nothing |
| Stores.InMemoryKaraokeClaimRepository.Create | packages/backend/src/repositories/in-memory/index.ts:1017-1038 | A claim is added unless the guest already has one on the item |
| Admission.ConsecutiveCapExact | packages/core/src/queue/enforceConsecutiveCap.ts:28-40 | The slice test rejects if and only if the guest's trailing run in the waiting list has reached the cap, for every cap |
| Admission.RequestOrderIsTotalPreorder | packages/core/src/queue/enforceConsecutiveCap.ts:14-18 | The comparator by time and then id is a total preorder, so sorting by it is well defined |
| Admission.AcceptedRequestKeepsRuns | packages/core/src/queue/canEnqueue.ts:48-52 | A newest request that passes goes to the end of the waiting list and leaves no guest with more than the cap in a row |
| Admission.DepartureExact | packages/core/src/queue/enforceConsecutiveCap.ts:14-40 | A departure keeps all runs within the cap if and only if the runs it joins fit the cap together |
| Admission.RunsStayWithinCap | packages/core/src/queue/enforceConsecutiveCap.ts:14-40 | Over every run of accepted requests with increasing times and departures from the front, nobody ever holds more than the cap in a row |
| WaitingLine.StepLineExact | packages/core/src/queue/enforceConsecutiveCap.ts:14-40 | Whatever the step, from a line of waiting requests within the consecutive cap it keeps it so if and only if what it does fits the line beforehand: a row that enters, by a request or by an approval that brings it back, at its place by creation time with its guest's runs on both sides; rows that leave by rejection, removal, votes or a poller pass, by the gaps they leave |
| WaitingLine.LineStaysWithinCap | packages/core/src/queue/enforceConsecutiveCap.ts:14-40 | Over every run of the live session whose requests come one after the other under a fixed rule and whose other steps fit, nobody has more than the cap in a row |
| WaitingLine.NewestRequestFits | packages/core/src/queue/canEnqueue.ts:48-52 | A request later than every stored row always fits |
| WaitingLine.OneDepartureExact | packages/core/src/queue/enforceConsecutiveCap.ts:14-40 | A single row that leaves fits if and only if the runs on its two sides, if one guest's, are together within the cap |
| WaitingLine.FrontDeparturesFit | packages/core/src/queue/enforceConsecutiveCap.ts:14-40 | Rows that leave from the front of the line always fit |
| WaitingLine.FreshSessionLine | packages/core/src/queue/enforceConsecutiveCap.ts:14-40 | A new session has nobody in line |
| Admission.CountActiveItemsForGuest | packages/core/src/queue/countActiveItemsForGuest.ts:7-15 | The loop counts exactly the places of the guest's active items |
| SchedulerTheorems.NoOrphanAndNoLostWakeUp | packages/backend/src/realtime/NowPlayingPoller.ts:262-351 | Over every interleaving, outstanding tick and idle timeouts are exactly those the tracked records hold, and a tracked session with a subscriber has no tear-down pending and is armed or has a tick in flight on its record |
| SchedulerTheorems.OneChainPerSession | packages/backend/src/realtime/NowPlayingPoller.ts:353-650 | While no idle tear-down lands mid-tick, a session has at most one tick in flight, and none behind an armed one |
| SchedulerTheorems.OverlapExact | packages/backend/src/realtime/NowPlayingPoller.ts:333-340 | From single chains, after an idle tear-down some run overlaps two ticks of the session if and only if a tick was in flight |
| SchedulerTheorems.ArmedUntilDue | packages/backend/src/realtime/NowPlayingPoller.ts:342-351 | An armed tick keeps its due time until it fires then or later, or its session is torn down for idleness |
| SchedulerTheorems.IdleTearDownIsLate | packages/backend/src/realtime/NowPlayingPoller.ts:296-301 | An idle tear-down fires only without subscribers, and not before the full grace has passed since the last one |
| SchedulerSteps.StepKeepsInv | packages/backend/src/realtime/NowPlayingPoller.ts:262-351 | Each step of opens, closes, tick ends, timeouts and time keeps slots and timeouts each other's inverse, records owned by one session, flags backed by a tick in flight, and watched sessions awake |
| Scheduler.BackoffDoubles | packages/backend/src/realtime/NowPlayingPoller.ts:599-612 | The n-th rate limit in a row backs off by the base interval doubled n times, up to the cap |
| PollerObject.NowPlayingPoller.Start | packages/backend/src/realtime/NowPlayingPoller.ts:262-289 | A pending tear-down is cancelled, a missing record made, and a tick armed at once unless one is armed or in flight: the scheduler's start on heap records |
| PollerObject.NowPlayingPoller.Stop | packages/backend/src/realtime/NowPlayingPoller.ts:296-301 | A tear-down is queued for the grace period unless one is pending, whose deadline does not move |
| PollerObject.NowPlayingPoller.TearDown | packages/backend/src/realtime/NowPlayingPoller.ts:333-340 | Both slots are cleared, the push memory emptied, the session forgotten |
| PollerObject.NowPlayingPoller.ScheduleNext | packages/backend/src/realtime/NowPlayingPoller.ts:342-351 | A pending tick is cleared before the new one is armed in its slot |
| PollerObject.NowPlayingPoller.TickBegin | packages/backend/src/realtime/NowPlayingPoller.ts:353-357 | The slot is emptied, the flag raised, and the tick keeps the record |
| PollerObject.NowPlayingPoller.TickEnd | packages/backend/src/realtime/NowPlayingPoller.ts:575-650 | Whatever record the tick holds and whichever is tracked by now: the held record loses its flag, a failed session is torn down, and a session still tracked without a pending tear-down is re-armed with the outcome's delay if its room is watched, torn down if it has no room, and left alone if nobody subscribes |
| Reconcile.WritesRaiseRank | packages/backend/src/realtime/NowPlayingPoller.ts:790-893 | Every status a pass writes strictly raises the row's rank, and nothing but status and decision time changes |
| Reconcile.WritesBoundedByRank | packages/backend/src/realtime/NowPlayingPoller.ts:790-893 | Over every poller-only run a row is written at most twice, at most once if it began playing or rejected |
| Reconcile.AtMostTwoPushes | packages/backend/src/realtime/NowPlayingPoller.ts:836-882 | In one entry's lifetime an item is re-pushed at most twice, twelve seconds after creation and apart, before it is thirty seconds old |
| Reconcile.TwoPushesHappen | packages/backend/src/realtime/NowPlayingPoller.ts:836-882 | The bound of two is reached |
| Reconcile.SkipsAreSpaced | packages/backend/src/realtime/NowPlayingPoller.ts:507-834 | Any two recorded auto-skips, from either path, are at least the settle time apart |
| QueuePoll.QueueReconciler.SkipVoteRejected | packages/backend/src/realtime/NowPlayingPoller.ts:507-534 | The early path skips the playing track exactly if it is vote-rejected, the last skip has settled and the provider skips; the rejection is then used up and the skip time recorded, and no other rejection changes |
| QueuePoll.QueueReconciler.TickSkips | packages/backend/src/realtime/NowPlayingPoller.ts:507-574 | Over every sequence of ticks on one record, both skip paths together record skips at least the settle time apart, and a tick reports a skip exactly if one was recorded; rows and push memory go where the pass takes them |
| QueuePoll.ProviderRejections.ConsumeProviderRejection | packages/backend/src/queue/QueueService.ts:807-813 | Exactly that rejection of that session goes, and a session without rejections is dropped |
| Reconcile.NoPushWithoutRead | packages/backend/src/realtime/NowPlayingPoller.ts:671-686 | A tick that skips reading the provider's queue never re-pushes |
| QueuePoll.QueueReconciler.ReconcileQueue | packages/backend/src/realtime/NowPlayingPoller.ts:729-895 | Rewriting rows one by one, pushing and skipping as it goes, ends in the store, push memory and skip time that the pass lemmas are about, and reports whether it skipped |
| QueuePoll.AllDone | packages/backend/src/realtime/NowPlayingPoller.ts:836-893 | Rewriting the rows read one by one reaches the store of the whole pass and no row of another session |
| Cooldowns.UntilIsLargestEnd | packages/backend/src/providers/streaming/ProviderCooldowns.ts:70-79 | However often anybody asked, the map answers with the largest end ever recorded for the key when that is in the future, else with none |
| Cooldowns.AnnouncesNewMaxima | packages/backend/src/providers/streaming/ProviderCooldowns.ts:86-101 | Listeners hear exactly the ends later than every end recorded before |
| Cooldowns.AnnouncedIncrease | packages/backend/src/providers/streaming/ProviderCooldowns.ts:86-101 | Announced ends strictly increase, and the last is the largest ever recorded |
| Cooldowns.RecordRemembers | packages/backend/src/providers/streaming/ProviderCooldowns.ts:86-101 | Recording returns the largest end so far and never shortens a window |
| Cooldowns.ForwardsOutsideWindows | packages/backend/src/providers/streaming/ProviderCooldowns.ts:112-122 | A request goes out if and only if no window recorded for its key by any caller covers the present |
| Cooldowns.RetryAfterIsLeast | packages/backend/src/providers/streaming/ProviderCooldowns.ts:40-46 | A whole number of seconds reaches the window's end if and only if it is at least what the refused caller is told |
| Cooldowns.KeysAreApart | packages/backend/src/providers/streaming/ProviderCooldowns.ts:125-127 | Accounts without the separator never share a key |
| Cooldowns.ProviderCooldowns.UntilEpochMs | packages/backend/src/providers/streaming/ProviderCooldowns.ts:70-79 | An open window's end, or none; a closed window is forgotten and nothing else changes |
| Cooldowns.ProviderCooldowns.RecordLimit | packages/backend/src/providers/streaming/ProviderCooldowns.ts:86-101 | The window is opened or extended, never shortened; every listener hears of a new end once and of nothing else |
| Cooldowns.ProviderCooldowns.BeginFetch | packages/backend/src/providers/streaming/ProviderCooldowns.ts:112-118 | A call inside a window is refused with its end and the seconds left; any other is forwarded |
| Cooldowns.ProviderCooldowns.EndFetch | packages/backend/src/providers/streaming/ProviderCooldowns.ts:117-121 | Only a 429 feeds the shared window |
| Backoff.RefusalDelayReachesPastWindow | packages/backend/src/realtime/NowPlayingPoller.ts:599-612 | Whatever the backoff, the delay after a refusal reaches at least a second past the window that caused it |
| Backoff.RefusedTickWaits | packages/backend/src/realtime/NowPlayingPoller.ts:599-641 | A refused tick of a watched session arms the next one at least a second after the window's end |
| Backoff.ArmedPastWindow | packages/backend/src/realtime/NowPlayingPoller.ts:599-641 | Over every run without mid-tick tear-downs that tick stays armed until it fires, a second past the window or later, or its session is torn down |
| Backoff.NotRefusedTwice | packages/backend/src/providers/streaming/ProviderCooldowns.ts:112-118 | Over every run and every later history of the account's calls, the call of the tick armed by a refused one goes out if and only if no window recorded since the refusal covers it |
| Backoff.LateCallGoesOut | packages/backend/src/providers/streaming/ProviderCooldowns.ts:112-118 | A call a second past the end of every recorded window is forwarded |
| SearchCache.BoundedAndOrdered | packages/backend/src/routes/search.ts:82-100 | Over every run of lookups and failures the cache holds at most 500 entries, ordered by expiry |
| SearchCache.ResultIsFresh | packages/backend/src/routes/search.ts:82-100 | A caller gets a search of its own key, started less than a minute ago, that has not failed so far |
| SearchCache.RepeatedOnlyForReason | packages/backend/src/routes/search.ts:82-100 | Two searches of one key start less than a minute apart only if the first had failed, or searches for at least 500 other keys started in between |
| SearchCache.SearchRoute.CachedSearch | packages/backend/src/routes/search.ts:82-100 | A live entry is shared; otherwise a new search goes to the end of the cache and the eviction loop drops from the front until 500 remain |
| SearchCache.SearchRoute.OnRejected | packages/backend/src/routes/search.ts:91-93 | The rejected search leaves the cache only if it is still the one cached for its key, and no other entry goes or changes |
| LrcTheorems.ParseRecoversLayout | packages/lyrics/src/lrc-parser.ts:3-18 | Any file in the documented grammar is recovered: each tag of each line becomes a timed line with its text, by start, ties in file order, numbered, each ending where the next starts; blank, metadata and untimed lines leave no trace |
| LrcTheorems.RoundTrip | packages/lyrics/src/lrc-parser.ts:47-85 | Laying out any start-sorted list of timed lines and parsing it gives the list back |
| LrcTheorems.ParsedInOrder | packages/lyrics/src/lrc-parser.ts:69-84 | For every raw text the lines are sorted, numbered, chained end to start, and a rearrangement of the rows of its lines |
| LrcTheorems.IdsDistinct | packages/lyrics/src/lrc-parser.ts:71-73 | No two lines of a document share an id |
| Lrc.MatchTagExact | packages/lyrics/src/lrc-parser.ts:20 | The tag matcher accepts a text with given groups if and only if the text begins with that tag of the grammar |
| LrcTheorems.ScanPrinted | packages/lyrics/src/lrc-parser.ts:54-63 | Scanning tags followed by a tagless text yields each tag's time in order and the text |
| Lrc.ScanStamps | packages/lyrics/src/lrc-parser.ts:54-61 | The exec loop collects exactly the stamps of the line, and where the last one ends |
| Lrc.ParseLrc | packages/lyrics/src/lrc-parser.ts:47-85 | The line loop, tag loop, in-place sort and numbering loop together produce the lines the grammar lemmas are about |
| Clock.PredictionOnTrack | packages/sync/src/clock.ts:86-104 | The predicted position stays on the track, played and remaining make up its length, a paused track stands still, confidence never exceeds the sample's |
| Clock.PredictionAdvances | packages/sync/src/clock.ts:86-104 | As the wall clock advances the position never moves back nor gains on the clock, and confidence only falls |
| Clock.CreatePlaybackClockSample | packages/sync/src/clock.ts:52-72 | A sample's position lies on the track |
| Clock.NormalizeProgress | packages/sync/src/normalize.ts:21-25 | The result is in the unit interval and, on the track, gives the progress back when multiplied by the duration |
| ActiveLine.LyricsDocumentToSyncCues | packages/lyrics/src/sync-cues.ts:9-26 | One cue per timed line of a synced document, in order |
| ActiveLine.FindActiveCues | packages/sync/src/cues.ts:20-28 | Exactly the cues that have started and not ended, in input order |
| ActiveLine.LastStarted | packages/lyrics/src/sync-cues.ts:51-60 | The loop finds the last line of the started prefix, or none |
| ActiveLine.GetActiveLyricWindow | packages/lyrics/src/sync-cues.ts:38-70 | The lines around the last started one, clipped to the document, for all counts |
| ActiveLine.ComputeWordProgress | packages/frontend/src/lyrics/LyricsEngine.ts:52-84 | The cursor walk finds the word and fraction of the closed form that shares the window out by characters |
| DisplayHistory.HeldExact | packages/frontend/src/lyrics/LyricsEngine.ts:107-143 | After every sequence of events, snapshots and offsets the engine holds certain lyrics if and only if an input brought them, it was a snapshot or came without a clock or with the clock on its track, and no accepted lyrics, stop, or switch to yet another track came since |
| DisplayHistory.StaleLyricsExact | packages/frontend/src/lyrics/LyricsEngine.ts:114-126 | After a sample that switches from another track the engine holds no lyrics or that track's; lyrics of another track survive a sample if and only if it is no switch |
| DisplayHistory.LoadingExact | packages/frontend/src/lyrics/LyricsEngine.ts:145-165 | After every such sequence the page is past loading if and only if an input gave the lyrics of the track last sampled |
| DisplayHistory.LastOfferShownExact | packages/frontend/src/lyrics/LyricsEngine.ts:128-134 | Lyrics on show for the sampled track are the last that came for it if and only if those were accepted when they came |
| DisplayHistory.LateLoadIsLost | packages/frontend/src/lyrics/LyricsEngine.ts:128-134 | Lyrics reloaded while another track is sampled are lost: back on the first track the older document shows |
| DisplayHistory.ShowsWhatWasGiven | packages/frontend/src/lyrics/LyricsEngine.ts:145-214 | What is shown depends on the history only through the given lyrics, the last sample and the last offset |
| DisplayEngine.LyricsEngine.ComputeState | packages/frontend/src/lyrics/LyricsEngine.ts:145-214 | At any instant mode, lines, text and word progress are those of the state the display lemmas are about |
| LyricsTheorems.CuesAgreeWithWindow | packages/lyrics/src/sync-cues.ts:38-70 | For every raw text and position the active cues carry exactly the lines of the window without context |
| LyricsTheorems.EngineShowsWindow | packages/frontend/src/lyrics/LyricsEngine.ts:187-197 | For every offset and non-negative counts, previous, active and next lines together are the window at the shifted position |
| LyricsTheorems.EngineShowsWindowUnshifted | packages/frontend/src/lyrics/LyricsEngine.ts:187-197 | Without an offset that is the window at the predicted position |
| LyricsTheorems.ThreeRoutesAgree | packages/sync/src/cues.ts:20-28 | Engine, window and cues pick the same active line for every raw text and instant |
| LyricsTheorems.WordsFollowClock | packages/frontend/src/lyrics/LyricsEngine.ts:52-84 | Characters before the active word plus the fraction times its length are all characters times the clamped progress through the line |
| LyricsTheorems.WordsAdvance | packages/frontend/src/lyrics/LyricsEngine.ts:52-84 | Within a line, of any window, word and fraction never go back |
| LyricsTheorems.DisplayNeverGoesBack | packages/frontend/src/lyrics/LyricsEngine.ts:145-214 | Of the states computed at two instants for the same sample, lyrics and offset, the later has the same mode, track and text, a progress bar no further back, an active line no further back, and on the same line words no further back |
| LyricsTheorems.ParsedDisplayNeverGoesBack | packages/frontend/src/lyrics/LyricsEngine.ts:187-204 | With lyrics parsed from any LRC text a reached line is never left for none, its start never decreases, and while the same line shows its words never go back |
| GuestSlots.SlotsAlwaysInOrder | packages/backend/src/guest/GuestIdentityService.ts:105-197 | Over every run with fixed caps: one slot per session and fingerprint, no more active slots than the cap, nobody waiting while there is room, the line numbered from one in order of arrival, active slots without position |
| GuestSlots.ReissueTouchesOnly | packages/backend/src/guest/GuestIdentityService.ts:125-130 | Issuing again for a known fingerprint gives the same token, status and position and changes only its heartbeat |
| GuestSlots.GuestIdentityService.IssueIdentity | packages/backend/src/guest/GuestIdentityService.ts:105-197 | A known fingerprint is touched, a newcomer is admitted or queued with the next position, a missing guest row is made; refusals change nothing |
| GuestSlots.GuestIdentityService.CreateActive | packages/backend/src/guest/GuestIdentityService.ts:169-183 | A priority guest passes through the queued status to active and spends the priority row |
| GuestSlots.GuestIdentityService.CountByStatus | packages/backend/src/repositories/in-memory/index.ts:776-782 | The scan counts the session's slots of the status |

## Left out

- Interleaving inside a service call and inside the poller's pass: each call of the queue, karaoke and slot services, and the pass over the rows from reading them to the last write, is one atomic step; only the poller's ticks, guarded fetches and cached promises are split. In the source a decision can fall between the pass's read and its write, so that a row rejected meanwhile is written as playing.
- Agreement.Agrees: compares no decision time and no vote count, because the events do not refresh either in every case; `FullAgreement` settles exactly when they agree as well.
- Reconcile.SkipsAreSpaced: takes from the single-chain result that one attempt ends before the next begins; with overlapping ticks two attempts may read the same record.
- QueuePoll.QueueReconciler.TickSkips: leaves out what a tick publishes between the two skip paths and the queue read; both paths write the one record, as on a single chain.
- LyricsTheorems.DisplayNeverGoesBack: asks for a non-negative track duration; with a negative one the clamp has crossed bounds.
- LyricsTheorems.EngineShowsWindow: asks for non-negative counts, as negative ones are read by `slice` from the end.
- Admission.RunsStayWithinCap: departures are from the front; `WaitingLine.StepLineExact` covers every step of the session and says exactly which are harmless.
- Votes of a deleted item: they stay in the ledger, as in the in-memory store, also where claims cascade; ids are never reused, so they count for nothing.
- SQL repositories, schema and migrations; the in-memory repositories give the store semantics.
- Routing, authentication, cookies, hashing and configuration; the stored fingerprint is a key, generated ids are new.
- Provider calls are parameters: a push, skip or queue read works, fails or is rate limited as the environment decides. The host's immediate skip of a rejected playing track is such a call.
- Votes on the now-playing track and on provider-queue tracks, beyond the events they publish and the rejections the poller uses up.
- Audit records, logging, lyrics lookup and feedback storage.
- `stopAll`, used at shutdown only, and removing rooms, which nothing in production calls.
- Deciding whether a now-playing sample is worth publishing, and publishing the provider status.
- Characters are Unicode scalars; word and name lengths of text outside the basic plane differ from UTF-16 units.
- Times are exact integers or reals on one monotone clock; floating-point rounding and clock jumps are not modelled.
- Older snapshots without the newer optional fields.
