# Verified model of the radio backend's stateful core

The backend runs synchronised listening rooms in one process: a hub per room fans messages out to
WebSocket clients, a clock advances tracks, tips fill a room's neon tube, refresh tokens rotate,
and a few small services (migrations, rate limits, caches) keep their own state. This project
models those parts and proves what they keep over whole runs.

Objects whose methods update fields are classes (`Client`, `Hub`, `HubManager`, `NeonStore`,
`TokenStore`, `SyncService`, `Tracks`, `AutoplayRoom`, `RoomPlayback`, `IdleMonitor`,
`RateLimiter`, `PGStore`, `KeyCache`, `Cache`). Every method states its outcome on the fields it
changes, with the program's own numbers, and ties it to a specification function; the lemmas are
about those same functions.

Where goroutines or requests interleave there is a state machine over them, one action per
critical section, channel operation or database statement, and any enabled action may come next:

- `HubProtocol`: the Run loop, and for each connection RegisterClient, onRegister, unregister and
  onUnregister, with program counters, `countMu`, `stopOnce`, `quit` and the broadcast channel
  (internal/ws/hub.go:154-211, 279-524, 1213-1232; internal/ws/client.go:95-196). Panics in the
  two goroutines and a close that races with a send are included. Its steps use the functions of
  `RoomState` that also specify the methods of `HubObjects`.
- `RotationProtocol`: look-up, reuse check, family revoke, conditional revoke, insert, failure at
  any point, logins, bulk revocations and clean-up (internal/handlers/auth.go:387-447,
  internal/store/users.go:168-224).
- `PayloadFlights`: overlapping getOrBuild calls with the single-flight group
  (internal/handlers/roomscache.go:46-103).
- `Migrations.Boots`: server starts of any version, each with any faults, serialised by the
  advisory lock (internal/store/postgres.go:113-229).

Clocks, random tokens, new identifiers, the digest, bcrypt, the SQL of a migration file and the
outcome of I/O are parameters. Times are integers, in the unit each file names.

Some expected properties do not hold as one would first state them. For those the project gives
the exact condition and a concrete case. An armed timer is swallowed exactly when its track does
not end 10 s after the latest pass (`ArmedTimerPassesIff`; `OvertakenTimerIsSwallowed` is a case),
which for an advance of its own comes down to tracks under 10 s (`PromptTimerPassesIff`,
`ImmediateAdvanceSwallowedIff`, `SwallowedAdvance`). A bulk revocation ends every session exactly
when no refresh is in flight (`RevokeAllIsFinalIffNoWinner`, `WinnerOutlivesTheWipe`). An edit
between the two statements of an advance leaves the index in range exactly when the chosen row
still exists (`SplitAdvanceInRangeIff`, `SplitAdvanceCanOverrun`). The key cache agrees with
bcrypt exactly when no hash in use extends another by the separator (`CacheNeverChangesTheAnswer`,
`NotApartCanBeWrong`). A caller of the payload cache can get a payload that expired before it came
exactly when it meets a finished flight that holds one (`ServedExpiredIff`,
`FollowerMayGetExpired`).

The comment above UpdateLiveTracks (internal/handlers/admin.go:673-676) says the index becomes
(match + 1) mod length; the code (line 723) sets it to the match, and the model follows the code.

`dafny verify dfyconfig.toml` checks the whole project.

## Model

| member | source | states |
|---|---|---|
| HubObjects.Client.constructor | internal/ws/client.go:67-77 | a new client has an empty buffer and open `done` and `registered` |
| HubObjects.Client.SendFrame | internal/ws/client.go:92-107 | never blocks: appends the frame and answers true exactly when the client is not done and has room below 256, otherwise changes nothing |
| HubObjects.Client.Close | internal/ws/client.go:86-90 | marks the client done; the buffer stays |
| HubObjects.Client.Take | internal/ws/client.go:165-179 | the pump takes frames oldest first |
| HubObjects.Hub.constructor | internal/ws/hub.go:137-151 | a new hub is empty, live and has no mic owner |
| HubObjects.Hub.ClaimSlot | internal/ws/hub.go:492-504 | refused exactly when stopping; otherwise one more pending registration |
| HubObjects.Hub.GiveUpSlot | internal/ws/hub.go:508-513 | returns the slot and touches nothing else |
| HubObjects.Hub.Receive | internal/ws/hub.go:161-178 | a stopping hub gives the slot back, releases the barrier and closes the client without adding it; otherwise the client is added and the slot consumed |
| HubObjects.Hub.Drop | internal/ws/hub.go:187-193 | removes the client, and closes it only if it was a member |
| HubObjects.Hub.Fanout | internal/ws/hub.go:279-305 | every member with room gets the frame last in its buffer, every other member is closed and removed, nobody is skipped |
| HubObjects.Hub.SendToAll | internal/ws/hub.go:285-293 | offers the frame to every member without blocking and collects exactly those that refused it |
| HubObjects.Hub.EvictAll | internal/ws/hub.go:295-304 | closes and removes exactly those still members |
| HubObjects.Hub.SetMicState | internal/ws/hub.go:1093-1109 | sets active, pause and owner together, and nothing for a connection no longer in Clients |
| HubObjects.Hub.ReleaseMic | internal/ws/hub.go:387-396 | only the owner's leaving clears the mic, and reports whether it was on |
| HubObjects.Hub.DecideIdle | internal/ws/hub.go:443-448 | sets stopping exactly when there are no clients and no pending registrations |
| HubObjects.Hub.Stop | internal/ws/hub.go:466-481 | after any call the hub is stopped and OnShutdown ran once |
| HubObjects.Hub.Enqueue | internal/ws/hub.go:1213-1221 | never blocks: queues in order, or drops when full or closed |
| HubControl.StepControl | internal/ws/hub.go:154-211 | every step keeps which program counters of Run, the join side, the leave side, countMu and stopOnce can hold together |
| HubSafety.RunInv | internal/ws/hub.go:154-524 | all hub invariants together hold in every state of every run |
| HubSafety.PendingIsExact | internal/ws/hub.go:159-514 | under every interleaving pendingRegs counts exactly the clients past the check and unresolved; OnShutdown runs at most once; each `registered` is closed at most once |
| HubSafety.StoppingNeverGrows | internal/ws/hub.go:466-514 | once stopping is set it stays, Clients never grows, and a connection that had not been accepted can only be refused |
| HubSafety.IdleShutdownIsSafe | internal/ws/hub.go:443-452 | after a successful idle re-check Clients stays empty and pendingRegs 0 forever, and whoever had not called RegisterClient is refused |
| HubSafety.ClosedExactlyWhenDropped | internal/ws/hub.go:161-195 | while the hub runs, a client's `done` is closed if and only if it was rejected, or admitted and is no longer in Clients |
| HubSafety.NoGap | internal/ws/hub.go:279-305 | the broadcasts a client took or still buffers are an unbroken stretch of the fanned-out log from its admission, reaching the latest one for a member; direct sends never punch a hole |
| HubSafety.CountsNeverRunBackwards | internal/ws/hub.go:1227-1238 | listener counts, as offered and as queued to any client, come in mutation order, each being the set size right after its mutation, or 0 when presence was cleared between the two |
| HubSafety.NoGhostListeners | internal/ws/hub.go:318-368 | presence holds only sessions of connections that joined and have not left; when all that joined have left it is empty, shared sessions included |
| HubSafety.AddPrecedesRemove | internal/ws/hub.go:309-368 | when a connection is about to add itself it has neither added nor removed before, and its barrier is still closed to its removal |
| HubSafety.MicHasALiveOwner | internal/ws/hub.go:1093-1109 | in every state the mic is on exactly when owned and the owner is a DJ that has not run its leave step; no connection that ran it ever owns the mic again |
| HubSafety.QueuedIsFlushed | internal/ws/hub.go:199-211 | whatever was in the channel before Run exits is fanned out, in order, before it exits |
| HubSafety.AfterExit | internal/ws/hub.go:199-211 | after Run exits nothing is fanned out |
| HubFanout.FanoutMatches | internal/ws/hub.go:279-305 | from any state with a broadcast queued the fan-out steps can run to exactly what Hub.Fanout promises |
| HubFanout.LeftOutIffDeaf | internal/ws/client.go:95-107 | one send of a broadcast, in any state: the client is left out if and only if it was closed, unless the close came too late to be seen, or held 256 frames; otherwise the frame is the newest in its buffer |
| HubProgress.SomethingMoves | internal/ws/hub.go:154-524 | while a connection is unfinished some step that is no panic is possible and strictly reduces what is left for it, or for the lock, loop or once it waits for |
| HubProgress.NobodyIsStuck | internal/ws/hub.go:154-524 | from every reachable state of a hub, alive, stopping or dead, each connection has a run without panics in which it is refused, or leaves with both its goroutines finished |
| HubService.NewcomerCanJoin | internal/ws/hub.go:161-185 | from every reachable state of a hub that is not stopping, a connection that has not called RegisterClient can call it and become a member |
| HubService.LiveRoomKeepsItsHub | internal/ws/hub.go:416-452 | over every run in which the room is never seen offline and no DJ leaves it as never live, the hub never stops and turns nobody away |
| HubService.LastOutStopsTheHub | internal/ws/hub.go:382-452 | with nobody in the room or on the way in, and the room seen offline, the connection that leaves last commits the hub to stopping |
| HubService.MicStaysWithItsOwner | internal/ws/hub.go:382-396 | the mic stays on and with its owner over every run without a mic action and without the owner's own leaving: no other tab, listener or eviction takes it |
| HubService.DeadHubFlushesAndExits | internal/ws/hub.go:199-211 | from every reachable state of a dead hub its Run can fan out all that is queued, in order, and exit |
| HubDepartures.NoSectionIsSkipped | internal/ws/hub.go:309-403 | in every state of every run without panics, a connection through onRegister was added to presence, one through onUnregister was removed from it and gave up the mic, and one that left a dead hub is closed |
| HubEffects.LoopEffects | internal/ws/hub.go:161-195 | Run admits whoever it received unless stopping, closes whoever it turns away, and drops exactly the client that asked |
| HubEffects.JoinEffects | internal/ws/hub.go:492-514 | a slot is claimed unless the hub is stopping; only a member's mic action sets the mic; frames leave the buffer at the front and enter at the end below 256 |
| HubEffects.LeaveEffects | internal/ws/hub.go:382-452 | only the owner's leaving clears the mic; only a DJ leaving a never-live room, or a re-check that finds no client and no pending registration after the room was seen offline and empty, leads to a stop |
| HubEffects.SharedEffects | internal/ws/hub.go:196-211 | a broadcast leaves the channel at the front and goes to every member; counts and events enter at the end while the channel holds fewer than 256 |
| HubRegistry.HubManager.GetOrCreate | internal/ws/hub.go:1332-1350 | returns the room's hub if there is one, otherwise registers the new one |
| HubRegistry.HubManager.Remove | internal/ws/hub.go:1359-1363 | forgets the room, nothing else |
| HubRegistry.OneHubPerRoom | internal/ws/hub.go:1332-1363 | per room at most one hub is not yet removed, and the Remove a hub issues deletes that very hub |
| HubRegistry.CallsServe | internal/ws/hub.go:1332-1363 | a room with a hub is served that one, a room without gets the new one, and a removal frees the room |
| NeonTube.Resolve | internal/store/monetization.go:217-230 | the settlement loop terminates, returns the settled tube with fill below target, and reports whether it levelled up |
| NeonTube.SettleAccounts | internal/store/monetization.go:217-230 | settling keeps total = laps + levels below + fill and the total itself, for any level table |
| NeonTube.HistoryAccounts | internal/store/monetization.go:157-230 | the account holds after any interleaving of tips and settlements |
| NeonTube.TipIsAllOrNothing | internal/store/monetization.go:157-165 | a tip is added to fill and total alike, or, where a column would overflow, to neither |
| NeonTube.SettledIsUnique | internal/store/monetization.go:217-230 | two settled tubes with the same total are equal |
| NeonTube.SplitDoesNotMatter | internal/store/monetization.go:157-230 | the settled level and fill depend only on the lifetime total, not on how it was split into tips or where settlements fell |
| NeonTube.TubeReadsTotal | internal/models/models.go:413-423 | with the program's table total = 3850·laps + targets below + fill at every moment, and a settled tube reads off the total modulo 3850 |
| NeonLedger.NeonStore.CreditNeon | internal/store/monetization.go:111-130 | balance and purchase move together or not at all; unknown users and overflow roll back |
| NeonLedger.NeonStore.SpendNeon | internal/store/monetization.go:132-171 | all of deduction, gift record and tube, exactly when the balance suffices and the room exists; otherwise nothing |
| NeonLedger.NeonStore.ResolveTubeOverflow | internal/store/monetization.go:198-244 | settles the room's tube under its lock; a missing tube reads as the default one |
| NeonLedger.NeonStore.SendNeon | internal/handlers/monetization.go:294-340 | sends exactly for amounts 1 to 10000 into an existing room of somebody else with enough balance; a failed send changes nothing; a sent one leaves the tube settled, or, when only the settlement fails, the gift standing and the tube as it is |
| NeonLedger.NeonIsConserved | internal/store/monetization.go:111-244 | after any sequence of transactions no balance is negative, each balance is bought minus given, each tube's total is what was given to the room, and balances plus tubes equal all Neon issued |
| NeonLedger.OnlyPurchasesIssue | internal/store/monetization.go:111-244 | from any books and over any history, what users hold and rooms have received grows by exactly the purchases of known users that fit their balance column |
| NeonLedger.OpeningBalanced | internal/store/monetization.go:109-171 | the books balance at the start |
| CreatorPool.ComputeCreatorPool | internal/store/monetization.go:263-359 | pool within revenue; shares by capped minutes; earnings never exceed the pool and miss it by fewer cents than there are creators |
| CreatorPool.CapMinutes | internal/store/monetization.go:304-317 | keeps every row, with minutes capped at 14400, and sums the capped minutes |
| CreatorPool.Allocate | internal/store/monetization.go:336-359 | one allocation per creator in row order with its floor share |
| CreatorPool.SharesFillPool | internal/store/monetization.go:337-343 | shares of one pool never exceed it and miss it by fewer cents than there are creators |
| CreatorPool.SumOfShares | internal/store/monetization.go:337-343 | floor division loses less than one cent per creator, for any pool, total and rows |
| CreatorPool.MoreMinutesNeverEarnLess | internal/store/monetization.go:306-343 | more minutes, after the cap, never earn less |
| CreatorPool.FloatShareIsExact | internal/store/monetization.go:342 | truncating the correctly rounded float64 quotient is exact floor division while pool times minutes is below 2^53 |
| CreatorPool.ShareAlwaysFits | internal/store/monetization.go:306-343 | with minutes capped at 14400 and an INT pool the product always is |
| RefreshTokens.TokenStore.CreateRefreshToken | internal/store/users.go:168-175 | inserts one row; a clash changes nothing |
| RefreshTokens.TokenStore.GetRefreshTokenByHash | internal/store/users.go:177-187 | the stored row or none |
| RefreshTokens.TokenStore.RevokeRefreshTokenIfActive | internal/store/users.go:198-205 | wins exactly on an active row and marks only that row |
| RefreshTokens.TokenStore.RevokeAllUserRefreshTokens | internal/store/users.go:212-215 | deletes exactly the user's rows |
| RefreshTokens.TokenStore.CleanupExpiredTokens | internal/store/users.go:218-220 | deletes exactly the rows past their expiry |
| RefreshTokens.TokenStore.RefreshToken | internal/handlers/auth.go:387-447 | unknown, expired and freshly consumed tokens change nothing; a stale replay leaves the user no rows and others untouched; a usable token is consumed and replaced by one of the same user |
| RotationSafety.RunInv | internal/handlers/auth.go:387-447 | lineage, single winners and one live token per login hold in every state of every run |
| RotationSafety.OneSuccessor | internal/handlers/auth.go:416-447 | however requests interleave no token has two successors and no login two live descendants |
| RotationSafety.TokensNeverMultiply | internal/handlers/auth.go:387-447 | a user's active tokens plus refreshes between revoke and insert never exceed the tokens issued by signup, login and password change |
| RotationSafety.WipeIsEarned | internal/handlers/auth.go:400-407 | the family revoke happens only over a token rotation consumed more than 15 s before, and leaves the user no rows |
| RotationSafety.ReplayInGraceIsHarmless | internal/handlers/auth.go:400-410 | a consumed token replayed within 15 s of its consumption changes no row and is refused; later it leads to the family revoke |
| RotationSafety.UnconsumedIsUsableIffUnexpired | internal/handlers/auth.go:411-414 | an unconsumed token goes on to the conditional revoke if and only if it has not expired |
| RotationSafety.LiveTokenIsLetThrough | internal/handlers/auth.go:387-416 | in any state a request presenting an active token gets to the conditional revoke exactly while it has not expired, and is refused after |
| RotationSafety.LetThroughRotates | internal/handlers/auth.go:416-447 | in any reachable state a request let through that finds its token still active consumes it and leaves the user a new one for 30 days |
| RotationSafety.StatementEffects | internal/store/users.go:168-224 | each statement changes exactly the rows it is for: look-ups, lost revokes and abandoned requests none, a bulk revocation the user's, a clean-up the expired ones |
| RotationSafety.NothingBlocks | internal/handlers/auth.go:387-447 | logins, revocations and time can always go on, and an unanswered request can make its next step whatever the others did |
| RotationSafety.RevokeAllStrands | internal/store/users.go:207-215 | a request of the user that looked its token up before a bulk revocation is left holding a token that is gone |
| RotationSafety.StaleLookupIssuesNothing | internal/handlers/auth.go:416-424 | such a request never issues anything, whatever happens in between |
| RotationSafety.RevokeAllLeavesWinners | internal/store/users.go:207-215 | after a bulk revocation exactly the user's refreshes in flight are still live |
| RotationSafety.DeadStaysDead | internal/handlers/auth.go:457-463 | a user without live tokens stays without until the next login |
| RotationSafety.RevokeAllIsFinalIffNoWinner | internal/handlers/auth.go:404-447 | a bulk revocation ends every session if and only if no refresh of the user is between its revoke and its insert |
| RotationSafety.WinnerOutlivesTheWipe | internal/handlers/auth.go:420-447 | such a refresh, finished after the revocation, leaves the user an active token |
| AdvanceClock.SyncService.ScheduleAdvance | internal/playback/sync.go:89-133 | replaces the room's timer by the one for the planned end plus 500 ms, or by none, or asks for an advance at once |
| AdvanceClock.SyncService.CancelAdvance | internal/playback/sync.go:136-144 | removes the room's timer only |
| AdvanceClock.SyncService.PassGate | internal/playback/sync.go:146-160 | passes exactly when no pass of the room lies less than 10 s back, and then records it and drops the timer |
| AdvanceClock.AdvancesAreSpaced | internal/playback/sync.go:146-160 | any two passes of a room are at least 10 s apart, whoever called |
| AdvanceClock.PassesIff | internal/playback/sync.go:148-154 | a call passes if and only if the room's latest pass lies at least 10 s back or there was none |
| AdvanceClock.UnknownLengthPlan | internal/playback/sync.go:103-130 | a track of unknown length arms an autoplay room's timer 600.5 s after its start, or advances at once when 600 s are over, and gives a DJ room no timer |
| AdvanceClock.TimerClearsItsOwnDebounce | internal/playback/sync.go:117-130 | the timer armed by an advance onto a track of at least 10 s always finds the gate open |
| AdvanceClock.ArmedTimerPassesIff | internal/playback/sync.go:89-160 | in whatever state a timer is armed and whatever calls follow: still armed and firing on time it finds the gate open if and only if its track's end, with the 500 ms, lies 10 s or more after the pass that was the room's latest when it was armed |
| AdvanceClock.LongTrackEndsClear | internal/playback/sync.go:117-125 | that holds for every track of at least 10 s stamped after the room's latest pass, and in a room that never passed |
| AdvanceClock.ArmedTimersAlwaysPass | internal/playback/sync.go:89-160 | over any run of advance calls, schedules and cancellations in which every armed track ends clear in that sense, first schedules of a room included, a timer still armed is never swallowed however late it fires |
| AdvanceClock.OvertakenTimerIsSwallowed | internal/playback/sync.go:89-160 | the other case exists: in an autoplay room a slow advance overtaken by one a listener asked for leaves a timer that is swallowed |
| AdvanceClock.OwnTimerPassesIff | internal/playback/sync.go:117-152 | for any times of gate, stamp and schedule, the timer of an advance nothing overtakes passes if and only if what the track lacks of 10 s, less 500 ms, went by between gate and stamp |
| AdvanceClock.PromptTimerPassesIff | internal/playback/sync.go:117-152 | stamped within half a second of the gate it passes if and only if the planned length is at least 10 s |
| AdvanceClock.ImmediateAdvanceSwallowedIff | internal/playback/sync.go:118-122 | for tracks of at least 10 s the timerless advance can be swallowed if and only if the length is exactly 10 s and its start, cut to the millisecond, precedes the gate |
| AdvanceClock.SwallowedAdvance | internal/playback/sync.go:118-122 | that case exists |
| TrackDurations.Tracks.UpsertTrack | internal/store/postgres.go:431-439 | inserts a new track, leaves an existing one alone |
| TrackDurations.Tracks.UpsertAutoplayTrack | internal/store/autoplay.go:171-186 | a positive playlist duration replaces, zero keeps what was learned; returns the effective duration |
| TrackDurations.Tracks.UpdateTrackDuration | internal/store/postgres.go:481-488 | writes exactly when the row still has duration 0, and says so |
| TrackDurations.Tracks.HandleDurationReport | internal/playback/sync.go:295-338 | only a report within 60 to 10800 s for the track playing now in an autoplay room and still unknown is written, and only the winner reschedules |
| TrackDurations.Tracks.HandleClientEndReport | internal/playback/sync.go:52-86 | advances exactly when a playing autoplay room is within 5 s of the known end, or past 60 s when unknown |
| TrackDurations.StaysSound | internal/store/autoplay.go:171-186 | over any run learned values stay in 60 to 10800, a positive duration never returns to 0, wins only accumulate |
| TrackDurations.LearnOnce | internal/store/postgres.go:478-488 | once a report wins for a track no later one does, whatever is written in between |
| TrackDurations.NoEarlyAdvance | internal/playback/sync.go:69-83 | unless the playlist gave the length, no listener report ends a track before 55 s |
| AutoplayRotation.AutoplayRoom.SaveStaged | internal/handlers/admin.go:582-589 | replaces the staged playlist only |
| AutoplayRotation.AutoplayRoom.ActivateStagedPlaylist | internal/store/autoplay.go:87-117 | the staged playlist becomes the live one before its first row; without one the live one is gone |
| AutoplayRotation.AutoplayRoom.GetNextAutoplayTrack | internal/store/autoplay.go:145-160 | moves the index to the next row and returns that row; nothing without a live playlist |
| AutoplayRotation.AutoplayRoom.UpdateLiveTracks | internal/handlers/admin.go:695-741 | replaces the tracks; the index becomes the first row with the playing url, else the old index clamped |
| AutoplayRotation.NextRow | internal/store/autoplay.go:132-140 | the row after the playing one plays next, the first after the last and before any has played |
| AutoplayRotation.PlaysCyclically | internal/store/autoplay.go:132-140 | the i-th advance from index k plays row (k + 1 + i) modulo the length |
| AutoplayRotation.RotationFromActivation | internal/store/autoplay.go:104-140 | from activation the n-th advance plays row (n - 1) modulo the length |
| AutoplayRotation.EveryRowEquallyOften | internal/store/autoplay.go:132-160 | k laps of advances play every row exactly k times |
| AutoplayRotation.IndexStaysInRange | internal/handlers/admin.go:706-741 | activation, advances and live edits keep the index in [-1, length) |
| AutoplayRotation.EditKeepsThePlace | internal/handlers/admin.go:712-725 | after an edit that keeps the playing url the next advance plays the cyclic successor of its first row |
| AutoplayRotation.SplitAdvanceInRangeIff | internal/store/autoplay.go:146-157 | with an edit between read and write the index stays in range if and only if the chosen row still exists |
| AutoplayRotation.SplitAdvanceCanOverrun | internal/store/autoplay.go:146-157 | a shortening edit breaks the range, and the following advance repairs it |
| PauseResume.RoomPlayback.constructor | internal/models/models.go:261-267 | a track that has just started is playing from position 0 |
| PauseResume.RoomPlayback.DjPause | internal/ws/hub.go:894-899 | a playing state stores the elapsed whole seconds, truncated; a paused one is unchanged |
| PauseResume.RoomPlayback.DjResume | internal/ws/hub.go:908-913 | a paused state restarts as if it had begun pausePosition seconds ago; a playing one is unchanged |
| PauseResume.DriftIsBounded | internal/ws/hub.go:889-915 | for any presses in time order the derived position never exceeds the time played and lags it by at most 999 ms per pause |
| PauseResume.OnePauseCanCostAlmostASecond | internal/ws/hub.go:896-898 | the bound is attained |
| IdleRooms.IdleMonitor.Check | internal/playback/idle_monitor.go:95-163 | a failed tick changes nothing; a completed one closes exactly the silent rooms tracked for 15 minutes and tracks exactly the other silent live ones |
| IdleRooms.CheckAnswers | internal/playback/idle_monitor.go:121-163 | in terms of the rows: closed are the live rooms without playback and approved queue tracked for 15 minutes, tracked the others like that, and nothing else |
| IdleRooms.TrackedMeansSilent | internal/playback/idle_monitor.go:121-163 | a tracked room was seen live and silent by every completed tick since tracking began |
| IdleRooms.ClosedOnlyAfterLongSilence | internal/playback/idle_monitor.go:134-156 | whenever a tick closes a room a completed tick at least 15 minutes earlier and every completed one since saw it live, without playback and without queue |
| IdleRooms.LongSilenceCloses | internal/playback/idle_monitor.go:140-156 | a room seen silent by every completed tick of a stretch of 15 minutes, failed ticks in between or not, is closed at its end |
| RateWindow.RateLimiter.CheckRateWindow | internal/antispam/ratelimit.go:157-173 | counts in the key's window, opening one only when there is none; allows up to max; fails open |
| RateWindow.RateLimiter.AllowEmailSend | internal/antispam/ratelimit.go:96-103 | a refused burst check leaves the hourly counter untouched; both must allow; fails open at either check |
| RateWindow.TraceWindowed | internal/antispam/ratelimit.go:151-173 | on any trace the requests fall into disjoint windows of the full length with ascending ranks, allowed exactly up to max |
| RateWindow.MaxPerWindow | internal/antispam/ratelimit.go:151-173 | on any trace at most max requests are allowed per window |
| RateWindow.FirstMaxAreAllowed | internal/antispam/ratelimit.go:151-173 | on any trace exactly the first max requests of every window are allowed: all of them when there are no more, and none after a denied one |
| RateWindow.TwiceMaxPerInterval | internal/antispam/ratelimit.go:151-173 | on any trace at most 2·max are allowed in any interval of one window's length, ends included |
| RateWindow.OneAtATime | internal/antispam/ratelimit.go:97-101 | with max 1 any two allowed requests are at least a window apart |
| RateWindow.HammeringDoesNotExtend | internal/antispam/ratelimit.go:151-156 | a request inside the window, denied or not, leaves its end where it is; the first after it opens a new one and is allowed |
| FileOrder.ListUpMigrations | internal/store/postgres.go:233-246 | the sorted arrangement of exactly the non-directory entries ending in .up.sql |
| FileOrder.ListedIff | internal/store/postgres.go:238-243 | a name is listed if and only if it is that of a plain file and some stem followed by .up.sql |
| FileOrder.SortedIsUnique | internal/store/postgres.go:244 | there is only one such arrangement |
| FileOrder.LexLeqIff | internal/store/postgres.go:244 | the order puts a string before another if and only if it starts it or is smaller at the first character they differ in |
| FileOrder.ListingIsDistinct | internal/store/postgres.go:233-246 | a listing names no file twice |
| Migrations.PGStore.ApplyMigration | internal/store/postgres.go:200-229 | SQL and record commit together; only a duplicate error of a file below "013" is recorded without effect; everything else leaves the database as it was |
| Migrations.PGStore.RunMigrations | internal/store/postgres.go:113-192 | applies the sorted unrecorded files in order and stops at the first failure |
| Migrations.FaultIsAllOrNothing | internal/store/postgres.go:200-229 | a fault either stops a file before anything happened or hides that all of it did |
| Migrations.RecordedIsAlwaysAPrefix | internal/store/postgres.go:113-229 | from a recorded prefix, under any faults, retries and replicas whose versions each ship the first so many files of one sorted list, recorded files stay a prefix of it, each new file's SQL committed at most once and in order, and only names below "013" are recorded without it |
| Migrations.RunRecordsInOrder | internal/store/postgres.go:174-191 | for any listing and any faults one run records an initial part of it and nothing else, all of it when it completes |
| Migrations.EachFileCommitsOnce | internal/store/postgres.go:113-229 | whatever files the versions ship and whatever fails, no file's SQL commits twice and none that was recorded runs again |
| Migrations.SchemaIsTheLogReplayed | internal/store/postgres.go:200-229 | after any starts of any versions with any faults, the schema is the starting one with the SQL of exactly the logged files run on it, in that order, each successfully |
| Migrations.CleanRunAppliesAll | internal/store/postgres.go:174-191 | a clean run over unrecorded files whose SQL succeeds succeeds, and the SQL of every file has run in the listed order |
| Migrations.CleanRetryMatchesUninterrupted | internal/store/postgres.go:113-229 | after any such history a clean retry succeeds if and only if one uninterrupted run from the start would, and then leaves the same database |
| Migrations.CompletedMatchesUninterrupted | internal/store/postgres.go:113-192 | any completed run leaves what one uninterrupted run would have, with every file recorded |
| Migrations.AgainIsANoOp | internal/store/postgres.go:175-178 | once all files are recorded a run changes nothing and succeeds |
| BoundedCache.MakeRoom | internal/middleware/djauth.go:86-97 | when full, drops exactly the expired entries, and everything if that was not enough |
| BoundedCache.MadeRoomKeeps | internal/handlers/roomscache.go:60-71 | keeps only unchanged old entries, loses a live one only when all go, and leaves space for one more |
| DJKeyCache.KeyCache.VerifyDJKey | internal/middleware/djauth.go:66-101 | empty inputs are refused; otherwise true from memory or by comparison; only a successful comparison is remembered |
| DJKeyCache.CacheIsBounded | internal/middleware/djauth.go:86-98 | after any history at most 4096 entries |
| DJKeyCache.CacheNeverChangesTheAnswer | internal/middleware/djauth.go:52-101 | with an injective digest, and hashes none of which extends another by the separator, the answer after any history is the non-empty bcrypt comparison |
| DJKeyCache.NotApartCanBeWrong | internal/middleware/djauth.go:52-60 | with hashes that are not so, one remembered success can make the answer wrong |
| DJKeyCache.NulFreeHashesAreApart | internal/middleware/djauth.go:55 | hashes without the separator, such as bcrypt's, are safe |
| DJKeyCache.RecallIsRecent | internal/middleware/djauth.go:74-79 | an answer from memory rests on a comparison less than 15 minutes old |
| PayloadCache.Cache.Get | internal/handlers/roomscache.go:46-54 | the stored payload exactly while it has not expired |
| PayloadCache.Cache.Set | internal/handlers/roomscache.go:56-73 | stores for one TTL after making room |
| PayloadCache.Cache.GetOrBuild | internal/handlers/roomscache.go:79-103 | builds exactly for a long key or without a live entry; stores only successful builds of short keys |
| PayloadFlights.RunInv | internal/handlers/roomscache.go:46-103 | the invariants of overlapping calls hold over every run |
| PayloadFlights.ReturnedWasFresh | internal/handlers/roomscache.go:79-103 | whatever the interleaving, a cached payload returned was built for that key and stored at most a TTL before the call, or the one it shares a flight with, saw it |
| PayloadFlights.LoneCall | internal/handlers/roomscache.go:79-103 | a call that nothing overlaps does what GetOrBuild promises: live payloads are returned, others built, stored for a TTL and returned, failures stored nowhere, long keys built past the cache |
| PayloadFlights.OneBuildAtATime | internal/handlers/roomscache.go:86-98 | at most one call per key builds at a time, and never while a live payload for it is cached |
| PayloadFlights.CacheIsBounded | internal/handlers/roomscache.go:60-82 | never more than 256 entries, never a key longer than 64 |
| PayloadFlights.ServedExpiredIff | internal/handlers/roomscache.go:83-102 | from every reachable state a call can be handed a payload that had expired before the call arrived if and only if, at its arrival, the key's flight has finished with such a payload and has not been removed |
| PayloadFlights.StaysProtected | internal/handlers/roomscache.go:83-102 | without such a flight at arrival, in every later state what the call returns was live at its arrival or after |
| PayloadFlights.FollowerMayGetExpired | internal/handlers/roomscache.go:86-102 | for every TTL such a flight is reachable |

## Left out

- HubObjects.Hub.Stop: stopOnce is represented by `quit`; its three steps (mark, close, OnShutdown) are separate actions in HubProtocol.
- HubObjects.Hub.Enqueue: marshalling and logging; a select with both cases ready is the choice `preferQuit`.
- Message contents in HubProtocol: display names, listen events, the snapshot replay and mic announcements are plain frames or events without content; notifyDJs is a send to single clients; the refusal's close of `registered` and `done` is one action; an event dropped because the channel is full or closed is an event that never enters.
- Presence failures: the presence store of HubProtocol is reliable. When a store call fails the real code broadcasts a count of 0.
- Room ending elsewhere: ClearListeners from other handlers is a step that may come at any time; which sessions it removed is not tracked.
- HubSafety.MicHasALiveOwner: says nothing about the order of mic broadcasts, which are sent after the lock is released.
- HubSafety.NoGhostListeners: with two connections on one session the first to leave removes the session for both, so presence is not compared with the sessions in Clients; the claim is the one-sided and the quiescent form.
- WebSocket reads, writes, pings, compression and inbound decoding; ReadPump may unregister once, WritePump takes frames in order.
- inboundLoop and persistLoop beyond the mic, pause and resume actions.
- CreatorPool.ComputeCreatorPool: starts from the rows of the listening query; the SQL that aggregates minutes, drops self-listening and caps each pair at 3000 minutes, the stored percentage and the allocation inserts are not modelled. float64 arithmetic is read as an exact quotient, which CreatorPool.FloatShareIsExact justifies for one correctly rounded operation on an exact product.
- Economy: administrative changes of balances are not transactions of the model; purchases carry only user and amount. Deleting an account (internal/store/users.go:327-339) removes its balance, gifts and purchases but not what rooms received, so the sums of NeonLedger.NeonIsConserved are about histories without it.
- RefreshTokens.TokenStore.RefreshToken: one token number stands for both the row id and the hash; access tokens and user rows are the parameter `allowed`.
- Clocks: in RotationProtocol the process clock and the database clock are one clock.
- AdvanceClock.SyncService.PassGate: the body of advanceTrack after the gate (queue pop, now playing, broadcasts) appears only as the instants of its stamp and its schedule; a stopped timer whose function already runs is just another call.
- Pause and dj_skip leave the advance timer alone in the code and are absent from AdvanceClock; skipToNext does not pass the gate.
- TrackDurations.Tracks.HandleClientEndReport: the reads of room, playback state and track are one step; a playback state with an empty track id counts as none.
- AutoplayRotation.AutoplayRoom.UpdateLiveTracks: reading and saving the playlist are one step; metadata broadcasts are not modelled. Deleting a playlist and editing its snippets are not modelled.
- Playback state: in PauseResume read and write of the playback state are one step, and skipping a track is a new session.
- IdleRooms.IdleMonitor.Check: closing a room is membership in the returned set; its store effects and the ghost-room clean-up are not modelled, and nothing else writes idleSince.
- RateWindow.RateLimiter.CheckRateWindow: INCR and EXPIRE NX of one request are one step; a pipeline cut between the two would leave a counter without expiry until the next request. The other limiters are instances with different keys and limits.
- Migrations.RecordedIsAlwaysAPrefix: a version that adds a file sorting before one already recorded is outside it, since the recorded files are then no prefix of the new list; Migrations.RunRecordsInOrder and Migrations.EachFileCommitsOnce cover such versions.
- HubProgress.NobodyIsStuck: says that a run to the end exists, not that a scheduler takes it; store answers on the way are chosen.
- Migrations.PGStore.RunMigrations: what a file does is a function of its name and the schema it finds, so changes by other traffic during a migration are not modelled; the schema_migrations table exists; reading the directory does not fail, and a database that cannot be reached before the first file is a run that never starts.
- PayloadCache.Cache.GetOrBuild: one call at a time with its outcome given; overlapping calls are in PayloadFlights. A panic in build is not modelled.
- DJKeyCache.KeyCache.VerifyDJKey: look-up and store lock separately in the code; the lemmas are about every order and timing of stores.
- HTTP routing, cookies, CORS, JSON, configuration, e-mail, CAPTCHA, geolocation, YouTube and LiveKit.
- Profanity and URL checks, password rules, direct messages, DJ profiles, administration metrics: single-function checks or plain queries.
- Queue positions: approving moves an entry from any status and adding reads the maximum first, so uniqueness would need assumptions the code does not enforce.
