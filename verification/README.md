# Alerts, incident rooms and agent connections

A Dafny model of the coordination state of the OpenGate server: the store that folds machine alerts into
incident rooms, and the per-connection state the agent API keeps beside it.

- **The alert store.** `Tables.dfy` holds one tenant's alerts and rooms as maps, a room carrying its own history
  lines. `StoreSteps.dfy` states each transaction as one function of the tables: recording an alert (budget, identity,
  fold), the lifecycle moves, the stale sweep, device erasure and each batch of a retention pass. `Store.dfy` is the store as it
  runs, a class whose methods issue the statements one by one and are proved equal to those functions. Everything
  else is about runs, that is arbitrary sequences of those steps from empty tables:
  `StoreSoundness.dfy` (one open room per key, references, histories), `StoreTallies.dfy` and `StoreRuns.dfy` (counts,
  spans, gaps, corroboration), `StoreBudget.dfy` (the hourly ceiling and where offers end),
  `StoreTransparency.dfy` (sweep against fold), `StoreOutcomes.dfy` (where an alert goes, undoing and repeating),
  `Retention.dfy`, `Queue.dfy` and `QueueRuns.dfy`. `StoreExamples.dfy` holds the small runs the counterexamples share,
  and `Notes.dfy` how a comment is trimmed and weighed.
- **Connections.** `StatusGate.dfy` is the ref-counted lock table as interleaved goroutine steps and `ConnRegistry.dfy`
  registration and release over it. `BackfillScheduler.dfy`, `RuleCoverage.dfy` and `ConnAccounting.dfy` are the
  admission scheduler, the coverage store and the telemetry and alert books of one connection.

Times are integer microseconds and ids natural numbers. The devices table (sites, maintenance flags), the clock, fresh
room ids and the headroom signal are inputs of each step, so they may change freely between steps; properties that
need a clock that never goes back say so.

Five promises hold only under a condition. Each has the exact condition and a run that breaks it:

- Following the queue's cursors reaches every matching room just when none was last seen past the sentinel instant
  (`Queue.ReachesAllExactly`, `QueueRuns.TheSentinelHidesARoom`). Admission bounds an agent's stamps to five minutes
  ahead, so only a direct record gets there.
- The rows kept for a machine equal what it last reported just when that report names every leftover of an earlier
  connection (`RuleCoverage.RowsAreExactIff`, `RuleCoverage.ADisconnectCanStrandARow`).
- The retention pass restates no room, so exact counts stay exact just when each expired filed alert's room goes with
  everything it holds (`Retention.SweepKeepsCountsExactly`, `Retention.ASweepCanLeaveACountBehind`).
- The scheduler is documented to hold its grants to the ingest budget, but the floor rate is applied after the division.
  The sum stays within the budget just when the floor rate does on every slot that can be filled
  (`BackfillScheduler.WithinBudgetExactly`, `BackfillScheduler.TheFloorCanExceedTheBudget`); in every case it stays
  within the budget or the floor on every slot (`BackfillScheduler.WithinBudgetOrFloor`).
- Sweeping a lapsed room before its next alert is invisible just when the sweep spares it or uses the grouping window
  (`StoreTransparency.SweepIsTransparentExactly`, `StoreTransparency.AnotherHoldShows`).

## Model

| member | source | states |
|---|---|---|
| `Incidents.CheckAccepts` | server/internal/alerts/incident.go:69-147 | a move is accepted iff it leaves an open room for a different known status and names a known cause when, and only when, it resolves |
| `Incidents.CheckAnswers` | server/internal/alerts/incident.go:120-147 | which refusal a move gets: an unrecognised status, then cause, then an illegal move, then a missing or unwanted cause |
| `Incidents.LegalHistoryBalances` | server/internal/alerts/incident.go:158-179 | a legal history has one more resolution than reopenings exactly when it ends resolved, and only then a resolution time or a cause |
| `StoreSoundness.StepIsSound` | server/internal/alerts/postgres_fold.go:13-20 | every one of the eight steps, a retention batch among them, keeps references, identity uniqueness, one open room per key, and histories that replay to the room's columns |
| `StoreSoundness.EveryRunIsSound` | server/internal/alerts/postgres_fold.go:13-45 | the same after any run from any tables that had it, the empty ones included |
| `StoreSoundness.RemovedIsSound` | server/internal/alerts/postgres_retention.go:28-37 | deleting any part of a stage leaves no alert pointing at a missing room, whatever ran in between |
| `StoreRuns.RoomsTellTheirOwnStory` | server/internal/alerts/postgres_lifecycle.go:23-39 | replaying a room's history in append order gives its status, resolved_at, cause and assignee; resolutions minus reopenings is 1 or 0; no second open room shares its key |
| `StoreRuns.InsertNeverConflicts` | server/internal/alerts/postgres_fold.go:36-45 | wherever a fold reaches the insert it opens the fresh room, so the conflict clause never runs |
| `StoreRuns.AResolutionStands` | server/internal/alerts/postgres_lifecycle.go:82-107 | a resolved room keeps its status, instant and cause through any run that neither reopens nor retires it, and can then be reopened iff every room of its key is resolved |
| `StoreRuns.TransitionExactly` | server/internal/alerts/postgres_lifecycle.go:64-80 | an accepted move changes one room only: status, instant and cause of a resolution or neither, and one line with actor, instant and earlier status; a refused one changes nothing |
| `StoreRuns.ReopenExactly` | server/internal/alerts/postgres_lifecycle.go:82-107 | a room reopens iff it and every room of its key is resolved; it then stands investigating without instant or cause, with one line by the actor |
| `StoreRuns.ReopenAnswers` | server/internal/alerts/postgres_lifecycle.go:82-107 | which refusal a reopening gets: no room, not resolved, or another room of the key open |
| `StoreRuns.RoomsCountTheirAlerts` | server/internal/alerts/postgres_fold.go:75-92 | with erasures but no retention batch, occurrences and device_count are those of the filed alerts |
| `StoreRuns.FiledAlertsLieInTheSpan` | server/internal/alerts/postgres_fold.go:75-92 | after any run, erasures and retention batches included, a filed alert was observed between first_seen and last_seen of its room |
| `StoreRuns.RoomsSpanTheirAlerts` | server/internal/alerts/postgres_fold.go:75-92 | in a run without deletions first_seen, last_seen and severity are attained by filed alerts and none is outside or worse |
| `StoreRuns.GapsAreBounded` | server/internal/alerts/incident.go:98-108 | in a run without deletions, whatever the arrival order, a room's alerts sorted by observation have no gap wider than its rule's window, or its widest one if that changed |
| `StoreTallies.ChainJoin` | server/internal/alerts/incident.go:98-102 | the two-sided window test keeps gaps bounded wherever the new instant falls |
| `StoreTallies.ChainBurst` | server/internal/alerts/postgres_fold.go:218-237 | observations gathered around one instant have bounded gaps |
| `StoreRuns.InfoRoomsAreCorroborated` | server/internal/alerts/postgres_fold.go:199-216 | in a run without deletions an info room holds two machines' alerts and is not of device scope |
| `StoreRuns.EraseCounted` | server/internal/alerts/postgres.go:65-74 | recounting before the delete leaves every room counted exactly if it was so before |
| `StoreBudget.NoHourExceedsTheBudget` | server/internal/alerts/postgres.go:19-33 | while the clock never goes back and the budget never exceeds a limit, no rolling hour holds more of the customer's rows than that limit |
| `StoreBudget.SuppressedExactlyWhenTheHourIsFull` | server/internal/alerts/postgres.go:133-154 | with no row received later than now, a new identity is suppressed iff the hour ending now already holds the budget |
| `StoreBudget.NothingIsLostUncounted` | server/internal/alerts/postgres.go:42-52 | without retention sweeps a customer's storm rooms count exactly the suppressed offers; without any deletion its rows are exactly the stored ones |
| `StoreBudget.ReplayChangesNothing` | server/internal/alerts/postgres.go:35-40 | after any run without deletions, re-offering a stored identity is a duplicate and writes nothing, budget spent or not |
| `StoreTransparency.SweepIsTransparentExactly` | server/internal/alerts/postgres_lifecycle.go:41-62 | sweeping a lapsed room before its next alert changes nothing iff the sweep spares the room or its hold is the window |
| `StoreTransparency.AnotherHoldShows` | server/internal/alerts/postgres_lifecycle.go:41-62 | two runs from empty tables with the same two warnings: a sweep between them with another hold closes the room at another instant |
| `StoreTransparency.SweepCommutes` | server/internal/alerts/postgres_fold.go:125-141 | sweeping any rooms before a lapsing alert leaves the same tables as sweeping all but the alert's own afterwards, if the sweep closes that one as the alert would |
| `StoreOutcomes.EveryAlertHasOnePlace` | server/internal/alerts/postgres_fold.go:114-142 | after any run every stored alert belongs in exactly one of four places, told from the tables before it (joins, comes too early, opens, waits), and lands there: the row, the room, the outlived room and every other room are as that place says |
| `StoreOutcomes.SameKeyExactly` | server/internal/alerts/postgres_fold.go:144-170 | under one rule scope and devices table two alerts group together iff customer and rule agree and the scope is the customer, or the machines stand at one site, or the machine is the same |
| `StoreOutcomes.KeyNamesItsSubject` | server/internal/alerts/postgres_fold.go:144-170 | a room is about the customer, the site or the machine, the machine when site scope finds no site |
| `StoreOutcomes.NeighboursShareARoom` | server/internal/alerts/postgres_fold.go:114-170 | after any run, once an alert is filed into a room, the next alert of the same rule from a machine it groups with, within that room's window, is filed there too |
| `StoreOutcomes.DuplicateExactly` | server/internal/alerts/postgres.go:35-40 | an offer is a duplicate iff a stored row has its machine, rule, version and window start |
| `StoreOutcomes.SuppressedIsCounted` | server/internal/alerts/postgres.go:200-206 | a suppressed alert is one more in its customer's open storm room, last seen now, or opens it; nothing else changes |
| `StoreOutcomes.RecordFailsExactly` | server/internal/alerts/postgres.go:112-160 | when a record fails, with which error, and that it then writes nothing |
| `StoreOutcomes.OpensExactlyWhen` | server/internal/alerts/postgres_fold.go:199-216 | on a key with no live room a room opens iff the alert is more than info, or its scope is wider than a device and another machine's unfiled info observation is in the window |
| `StoreOutcomes.OpensARoomOfWitnesses` | server/internal/alerts/postgres_fold.go:218-233 | an opened room is new and holds the alert and exactly the unfiled info observations of its key in the window |
| `StoreOutcomes.ABackfillIsOneRoom` | server/internal/alerts/postgres_fold.go:114-142 | a scan replayed newest-first from an instant an open room covers, each within the window of the one before, is filed whole into that room |
| `StoreOutcomes.AResolutionCanBeWithdrawn` | server/internal/alerts/postgres_lifecycle.go:64-107 | reopening straight after a resolution always succeeds and restores all but status and history |
| `StoreOutcomes.SweepingTwiceIsSweepingOnce` | server/internal/alerts/postgres_lifecycle.go:156-180 | a second sweep at the same instant closes nothing |
| `StoreOutcomes.SweepClosesExactly` | server/internal/alerts/postgres_lifecycle.go:41-62 | from a room's columns: the sweep changes it iff it is open, its rule has a positive window or is the storm's with an hour, that hold after last_seen is past, and it is not the room of one machine in maintenance; it then resolves at the end of the hold with one line |
| `StoreOutcomes.EraseExactly` | server/internal/alerts/postgres.go:65-98 | on any tables, erasure removes exactly the machine's alerts and resolves exactly the open rooms that held nothing else, with one line and no cause |
| `StoreOutcomes.ErasingTwiceIsErasingOnce` | server/internal/alerts/postgres.go:236-253 | a resumed purge changes nothing more |
| `AlertStore.Aggregate` | server/internal/alerts/postgres_fold.go:83-90 | the loop's first, last and severity are the minimum, maximum and worst of the filed alerts |
| `AlertStore.HoldArrays` | server/internal/alerts/postgres_lifecycle.go:182-194 | the two arrays list each rule with a positive window once with its window, and the storm once with its own hour |
| `AlertStore.SweepReportsWhatItCloses` | server/internal/alerts/postgres_lifecycle.go:158-180 | the rooms counted are exactly those the sweep turns from open to resolved |
| `AlertStore.Store.LockOpenRoom` | server/internal/alerts/postgres_fold.go:172-188 | finds the key's one open room, or none |
| `AlertStore.Store.OpenOrJoin` | server/internal/alerts/postgres_fold.go:36-45 | leaves the room it returns open for the key and no second one; with none open before it is the fresh room; every other room is untouched |
| `AlertStore.Store.Restate` | server/internal/alerts/postgres_fold.go:75-92 | restates a room from the alerts it holds, and leaves an empty one alone |
| `AlertStore.Store.OpenRoomFor` | server/internal/alerts/postgres_fold.go:218-233 | insert, gather, attach and restate together are the opening step |
| `AlertStore.Store.Fold` | server/internal/alerts/postgres_fold.go:114-142 | the switch over the open room computes the fold step and keeps the tables sound |
| `AlertStore.Store.FoldIntoStorm` | server/internal/alerts/postgres.go:200-206 | opens the customer's storm room or counts one more into it |
| `AlertStore.Store.Record` | server/internal/alerts/postgres.go:112-160 | answers stored, duplicate, suppressed or an error, and leaves the tables of that step, whose key, place and failures are characterised by the StoreOutcomes rows |
| `AlertStore.Store.Transition` | server/internal/alerts/postgres_lifecycle.go:64-80 | refuses with the specific error or moves the room with one history line |
| `AlertStore.Store.Reopen` | server/internal/alerts/postgres_lifecycle.go:82-107 | refuses a missing, open or superseded room, otherwise reopens it |
| `AlertStore.Store.Assign` | server/internal/alerts/room.go:321-346 | sets the assignee and appends one line with actor and assignee; the standing is untouched |
| `AlertStore.Store.Comment` | server/internal/alerts/room.go:348-380 | refuses a note that is all space or over 4096 UTF-8 bytes once trimmed, or a missing room; otherwise appends the trimmed note as one line |
| `Notes.TrimmedExactly` | server/internal/alerts/room.go:350-353 | trimming removes nothing but white space and leaves none at either end |
| `Notes.Utf8Widths` | server/internal/alerts/room.go:350-353 | a character weighs one to four bytes by the UTF-8 ranges |
| `AlertStore.Store.ResolveStale` | server/internal/alerts/postgres_lifecycle.go:156-180 | joining on the hold arrays closes the rooms the sweep step closes, and their number is returned |
| `AlertStore.Store.EraseDeviceAlerts` | server/internal/alerts/postgres.go:236-253 | recount, close emptied, delete: the erasure step |
| `AlertStore.Store.Drain` | server/internal/alerts/postgres_retention.go:67-90 | whichever rows each batch picks, an uncancelled drain ends and removes exactly the candidates, and the total is what was removed |
| `AlertStore.Store.SweepExpired` | server/internal/alerts/postgres_retention.go:39-65 | refuses a horizon of zero or less; a completed pass keeps an alert iff it was received within the horizon, filed or not, and deletes a room iff it ended before the horizon and so was received all it held; survivors are unchanged and the total is exact even when cancelled |
| `Retention.PickBatch` | server/internal/alerts/postgres_retention.go:19-37 | some batch of the bounded size, or everything left |
| `Retention.PassByAge` | server/internal/alerts/postgres_retention.go:39-65 | the same by age on the tables, for every now and horizon |
| `Retention.SweepKeepsCountsExactly` | server/internal/alerts/postgres_retention.go:39-65 | exact counts stay exact iff the room of every expired filed alert was resolved before the cutoff and holds only alerts received before it |
| `Retention.ASweepCanLeaveACountBehind` | server/internal/alerts/postgres_retention.go:39-65 | a run of one warning and a retention batch leaves an open room counting an alert that is gone |
| `Queue.Filter.Normalized` | server/internal/alerts/queue.go:99-110 | a limit in range is kept, none becomes 50 and more than 200 becomes 200; a zero cursor becomes the sentinel and any other is kept |
| `Queue.ReadPage` | server/internal/alerts/queue.go:119-154 | the newest matching rows after the cursor, descending, with a next cursor exactly when the page is full |
| `Queue.FollowCursors` | server/internal/alerts/queue.go:70-83 | following cursors ends and gives every remaining matching room once, by last_seen descending and then id descending |
| `Queue.OneArrangement` | server/internal/alerts/queue.go:49-50 | the order is total: two descending listings of the same rooms are equal |
| `Queue.ReachesAllExactly` | server/internal/alerts/queue.go:79-83 | from the zero cursor all matching rooms are reached iff none lies past the sentinel |
| `QueueRuns.TheQueueIsComplete` | server/internal/alerts/queue.go:70-83 | after any run whose stamps precede the sentinel, the pages from the zero cursor list every matching room once |
| `QueueRuns.TheSentinelHidesARoom` | server/internal/alerts/queue.go:79-83 | a run of one warning stamped past the sentinel: its room matches the open filter and is on no page |
| `Queue.CustomerSequenceIsTenantSequenceRestricted` | server/internal/alerts/queue.go:156-166 | the customer statement gives the tenant statement's sequence without other customers' rooms |
| `Queue.NothingNamedSelectsAll` | server/internal/alerts/queue.go:30-68 | with no filter named every room matches |
| `Queue.StatusesRestrict` | server/internal/alerts/queue.go:42-42 | naming statuses gives the unfiltered sequence restricted to rooms in one of them |
| `Queue.OpenAndResolvedPartition` | server/internal/alerts/queue.go:42-42 | the listings of the three open statuses and of resolved are disjoint and together the unfiltered listing |
| `Queue.SeveritiesRestrict` | server/internal/alerts/queue.go:43-43 | naming severities gives the unfiltered sequence restricted to rooms of one of them |
| `Queue.RuleRestricts` | server/internal/alerts/queue.go:44-44 | naming a rule gives the unfiltered sequence restricted to its rooms |
| `Queue.AssigneeRestricts` | server/internal/alerts/queue.go:45-45 | naming an assignee gives the unfiltered sequence restricted to rooms held by them |
| `Queue.DeviceRestricts` | server/internal/alerts/queue.go:46-48 | naming a machine gives the unfiltered sequence restricted to rooms some alert of it is filed into |
| `StatusGate.GateHolds` | server/internal/agentapi/server_connection.go:195-231 | in every interleaving at most one goroutine of a device is inside, all engaged share one lock, waiting is their number, and the entry exists exactly while there is one |
| `StatusGate.UnlockKeeps` | server/internal/agentapi/server_connection.go:222-223 | the mutex a leaving goroutine unlocks is one it holds |
| `StatusGate.SomeoneCanMove` | server/internal/agentapi/server_connection.go:207-231 | while a device has an entry one of its goroutines can take a step |
| `ConnRegistry.NewestConnectionWins` | server/internal/agentapi/server_connection.go:96-107 | the map holds a device's most recently registered connection, and nothing once that one is released |
| `ConnRegistry.OfflineWritesNeverOverwriteAReconnect` | server/internal/agentapi/server_connection.go:166-193 | an offline write happens only for the newest connection, released, with the device absent from the map |
| `ConnRegistry.NoSwapWhileClosing` | server/internal/agentapi/server_connection.go:98-104 | no registration can swap while a release of the device is between delete and write |
| `ConnRegistry.CountIsExactWhenNoGateIsHeld` | server/internal/agentapi/server_connection.go:99-104 | the counter equals the number of registered devices whenever no gate is held |
| `BackfillScheduler.GrantedExactlyWhen` | server/internal/agentapi/backfill_scheduler.go:106-121 | a slot is granted iff the agent's grant is live or both caps leave room among live grants |
| `BackfillScheduler.AGrantLastsItsTerm` | server/internal/agentapi/backfill_scheduler.go:98-140 | a granted slot is held for its full term whatever other agents do, and is gone after the first reap past it |
| `BackfillScheduler.LazyEqualsEager` | server/internal/agentapi/backfill_scheduler.go:123-140 | with a clock that never goes back, every decision and active count equals those of a scheduler that drops grants as they expire |
| `BackfillScheduler.CapsHold` | server/internal/agentapi/backfill_scheduler.go:98-121 | after any run neither the global nor a tenant's cap is exceeded, and every held grant's rate is at most a slot's share or the floor |
| `BackfillScheduler.WithinBudgetOrFloor` | server/internal/agentapi/backfill_scheduler.go:163-171 | for every configuration, headroom and run the rates of held grants sum to at most the base budget or the global cap times the floor rate |
| `BackfillScheduler.WithinBudgetExactly` | server/internal/agentapi/backfill_scheduler.go:163-171 | with a clock that never goes back the rates of held grants sum within the base budget in every run iff the floor rate does on every slot such a run can fill: all of them, one if the term is not positive, none if a cap is zero |
| `BackfillScheduler.TheFloorCanExceedTheBudget` | server/internal/agentapi/backfill_scheduler.go:163-171 | a configuration whose single grant carries five times the base budget |
| `BackfillScheduler.RateFollowsHeadroom` | server/internal/agentapi/backfill_scheduler.go:163-171 | the granted rate is the one integer that fits: the whole samples of a slot's share of budget times clamped headroom, between floor and ceiling; it never falls as headroom rises |
| `BackfillScheduler.DefaultsGrantAnEighth` | server/internal/agentapi/backfill_scheduler.go:67-77 | the shipped configuration grants 2500 at full headroom, 1250 at half and 500 at none |
| `BackfillScheduler.DecisionFits` | server/internal/agentapi/backfill_scheduler.go:142-161 | a grant names a fitting rate and the second its term ends in; a deferral names the rest of the backoff in whole seconds rounded up, at least one |
| `BackfillScheduler.WaitingShortensTheBackoff` | server/internal/agentapi/backfill_scheduler.go:151-161 | however many steps lie between two deferrals of an agent not granted or released meanwhile, the later one never tells it to wait longer, and never under a second |
| `BackfillScheduler.Scheduler.RequestSlot` | server/internal/agentapi/backfill_scheduler.go:98-121 | with its cached counter it decides as the scheduler that scans, the cache stays equal to the scan, and the reply fits |
| `BackfillScheduler.Scheduler.Reap` | server/internal/agentapi/backfill_scheduler.go:173-180 | drops exactly the grants that have run out |
| `BackfillScheduler.Scheduler.ReleaseGrant` | server/internal/agentapi/backfill_scheduler.go:182-193 | drops one grant and keeps the counter equal to the scan |
| `BackfillScheduler.Scheduler.Release` | server/internal/agentapi/backfill_scheduler.go:123-132 | frees the slot and the wait of one agent, and no other |
| `BackfillScheduler.Scheduler.ActiveCount` | server/internal/agentapi/backfill_scheduler.go:134-140 | the number of live grants |
| `RuleCoverage.TakeEntries` | server/internal/agentapi/conn_coverage.go:76-91 | later entries win, unusable ones are skipped, and the loop stops for good at 64 rules |
| `RuleCoverage.TakenExactly` | server/internal/agentapi/conn_coverage.go:76-91 | a report is read to its end or its sixty-fourth rule, and within what is read the last usable entry of a rule stands |
| `RuleCoverage.DiffCoverage` | server/internal/agentapi/conn_coverage.go:103-125 | the delta is the two differences of the unsupported sets, dropped rules included |
| `RuleCoverage.CoverageStore.Report` | server/internal/agentapi/conn_coverage.go:70-101 | replaces the memory and returns the delta, or changes nothing for a report that says nothing; memory and rows move as one step of the machine's life |
| `RuleCoverage.CoverageStore.Forget` | server/internal/agentapi/conn_coverage.go:127-135 | forgets one machine's report and no other, leaving its rows |
| `RuleCoverage.RowsOverALife` | server/internal/agentapi/conn_coverage.go:221-240 | over any reports and disconnects the rows are what the report in force names plus the leftovers, which it does not name |
| `RuleCoverage.LeftoverExactly` | server/internal/agentapi/conn_coverage.go:221-240 | a leftover is a rule with an unnamed row at the start, or named by the report in force at a disconnect, that no report has named unsupported since |
| `RuleCoverage.RowsOverAConnection` | server/internal/agentapi/conn_coverage.go:221-240 | over a connection the rows are the last report's unsupported rules plus leftovers it never named |
| `RuleCoverage.RowsAreExactIff` | server/internal/agentapi/conn_coverage.go:221-240 | over any life, disconnects included, the rows equal the last report iff that report names every leftover |
| `RuleCoverage.MatchingRowsStayMatching` | server/internal/agentapi/conn_coverage.go:96-101 | rows that match at the start match after every report |
| `RuleCoverage.RowsAlwaysCover` | server/internal/agentapi/conn_coverage.go:127-135 | across any disconnects the rows include everything the last report could not evaluate |
| `RuleCoverage.ADisconnectCanStrandARow` | server/internal/agentapi/conn_coverage.go:127-135 | a rule that became evaluable while the machine was away keeps its row |
| `ConnAccounting.EverythingIsAccountedFor` | server/internal/agentapi/conn_accounting.go:50-95 | at every moment booked messages are buffered, in flight, written or dropped, at most four writes fly, and samples reach writes in order |
| `ConnAccounting.EveryAlertMeetsOneFate` | server/internal/agentapi/conn_alerts.go:53-72 | once writes have returned, each size-admitted alert has exactly one fate on file, a stored row or a typed drop |
| `ConnAccounting.RefusedExactly` | server/internal/agentapi/conn_alerts.go:74-130 | each refusal means its own condition failed and every earlier one held; none means all held, with stamps at most seven days back, a year if backfilled, and five minutes ahead |
| `ConnAccounting.FatesAreTheAnswers` | server/internal/agentapi/conn_alerts.go:186-210 | over any run the stored rows and the store's three typed drops are exactly its answers, one for one |
| `ConnAccounting.WrittenIsDelivered` | server/internal/agentapi/conn_accounting.go:50-74 | over any run the written count is exactly the messages of writes that came back written |
| `ConnAccounting.PersistBalances` | server/internal/agentapi/conn_accounting.go:50-74 | a write that finds a slot, finds none or has no tenant is counted once |
| `ConnAccounting.AgentConn.BufferTelemetry` | server/internal/agentapi/conn_telemetry.go:156-167 | books one message, flushes at 512 samples and not before, and leaves the buffer below that |
| `ConnAccounting.AgentConn.FlushTelemetry` | server/internal/agentapi/conn_telemetry.go:169-182 | hands the whole buffer to one write and empties it |
| `ConnAccounting.AgentConn.PersistTelemetry` | server/internal/agentapi/conn_accounting.go:50-74 | with a tenant and one of four slots free the write takes a slot, otherwise every message it carries is dropped, and the books balance again |
| `ConnAccounting.AgentConn.HandleAgentAlert` | server/internal/agentapi/conn_alerts.go:53-130 | an admitted alert is refused with the first applicable reason or handed to a slot |
| `ConnAccounting.AgentConn.FinishWrite` | server/internal/agentapi/conn_alerts.go:132-152 | a returning write frees its slot in any order and files the fate its answer stands for, or counts its messages written or lost |

## Left out

- PostgreSQL: row-level security, isolation anomalies and other tenants' rows; each transaction is one atomic step over one tenant's tables.
- AlertStore.Store.SweepExpired: one call runs its batches with nothing between them; runs of steps interleave single batches with anything.
- The organization foreign key, check constraints and integer column widths; the device foreign key and the alert id key are modelled as errors of Record.
- Alert metric, value, window end, backfilled flag and evidence columns, and the body text of history lines.
- AlertStore.Store.Comment: a note is valid Unicode text; malformed UTF-8 is not modelled.
- The float rounding of holds in the sweep, and NaN headroom; headroom is a real number.
- StatusGate.GateHolds: about interleaved atomic steps over values rather than heap objects; lock objects are never collected.
- ConnRegistry.NewestConnectionWins: likewise over values; a registration or release is its gate steps and up to three atomic steps inside.
- BackfillScheduler.WithinBudgetExactly: the budget is the one at full headroom; a grant given at high headroom keeps its rate when headroom falls.
- Retiring the replaced connection, online and offline notifications, heartbeats writing the online status.
- EraseTenantInvestigations, Investigation, Evidence, OpenIncident and the limits table: reads and deletes that add only easy members.
- ConnAccounting.EverythingIsAccountedFor: covers the messages booked into the buffer, not the filters of each message kind that run before booking.
- The fleet aggregate of rule coverage, and the sanitizing of rule ids and sorting of deltas; rule ids arrive sanitized and deltas are sets.
- Failed coverage writes: every mark and clear succeeds.
- The 32-bit conversion of an out-of-range rate share or retry, which Go leaves to the platform; the scheduler's configuration is required to fit.
- Certificates, handshakes, QUIC, HTTP handlers, the web client, deployment and load tooling.
