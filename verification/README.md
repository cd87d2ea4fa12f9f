# SuperMonitor ledgers and protocols

This project models the persistent ledgers of SuperMonitor and the concurrent
protocols around them, and proves what they keep. The database is a set of
finite maps with the keys and cascades of its migrations. Store calls may fail
one by one, accounts may be deleted between any two of them, and goroutines
interleave freely.

* `Prelude`, `Schema`, `UsageCounters`: shared types, the tables and their references, counter arithmetic.
* `AccountStore`: saving and deleting an account with everything that belongs to it.
* `NotificationProtocol`, `NotificationRuns`: the store steps of the alert evaluation, the rule of each, and what follows for every run.
* `NotificationStore`, `Notifications`: the store calls under interference and the evaluation itself. Every call of the evaluation is proved to follow its rule, so the theorems about runs are theorems about it.
* `UsageLedger`: cumulative snapshots and absolute days, proved against the history of accepted writes.
* `CodexImport`, `CodexLog`: the source-scoped view of Codex usage, and the log parser that feeds it.
* `TokenRhythmHistory`, `TokenRhythmSync`: paging, aggregation, readings and the daily writes.
* `RefreshPool`, `AccountBarrier`, `SyncScheduler`: the concurrent protocols as steps that interleave.
* `LoginLimiter`, `Checkin`, `CredentialSearch`: the login limiter, the check-in exchange and the credential search.

## Where the code does less than it seems to promise

* Alert tables and deleted accounts rely on account identifiers not being used again. A credential import saves an account that it looked up earlier without holding the account lock (internal/service/accounts.go:94-98), so it can undo a deletion in between. `AccountBarrier.UnlockedSaveIsSafe` gives the exact condition for deletions, and `NotificationRuns.AlertIsSafeUnlessDeleted` the exact condition for alerts when identifiers are used again. The runs of `NotificationProtocol` and `AccountBarrier` leave this one save out.
* Five failures end a login window, but eight may fall into one interval of the same length: `LoginLimiter.AtMostEightPerWindow` and `LoginLimiter.EightIsReached`.
* A manual refresh is meant to keep the next scheduled one away (internal/service/account_sync.go:96-98). It does so once the scheduler has taken the reset (`SyncScheduler.NoticedManualRunsPostpone`); before that a timer that has already ticked may win the select at any distance (`SyncScheduler.ScheduledMayFollowManual`). Scheduled attempts among themselves are always spaced.
* Repeated folder imports never change the tables (`CodexImport.ReimportChangesNothing`), but they report every source as unchanged only when no source identifier occurs with two contents in one batch (`CodexImport.ReimportIsNoOp`).
* A Codex log counts exactly the growth of its totals only when the events that carry their own usage agree, in sum, with the growth of the totals at these events (`CodexLog.ConservedExactlyWhenOwnIsGrowth`, `CodexLog.MixedLogIsNotConserved`).
* The credential left behind by a check-in is the newest pair the provider has issued exactly when the answer that carried that pair arrived: `Checkin.Client.Checkin`.
* A new drop of a quota gets a new event unless an earlier event of the signal carries the very time of the evaluation, so always when evaluation times increase (`NotificationRuns.DropIsNewUnlessTimeRepeats`, `NotificationRuns.NewDropIsFresh`). Nothing else about alerts, deliveries and attempts depends on the clock running forward.

## Model

| member | source | states |
|---|---|---|
| AccountStore.AccountStore.SaveConnectedAccount | internal/store/sqlite/store.go:366-410 | A save either stores account, the given credential and all given windows together, keeping the provider of an existing account, or changes nothing, which happens only when a statement fails |
| AccountStore.AccountStore.DeleteConnectedAccount | internal/store/sqlite/store.go:479-513 | The statements in their order, with the cascades, remove exactly what belongs to the account; a missing account is reported, any failing statement rolls everything back, and a present account is deleted when none fails |
| AccountStore.EntriesCascade | internal/store/sqlite/migrations/005_codex_usage_imports.sql:13-27 | Dropping import entries through the key of their source drops exactly the entries of the deleted account |
| AccountStore.DeletionRemovesEverything | internal/store/sqlite/store.go:479-513 | After a deletion no row of any table, and no alert, belongs to the account |
| AccountStore.DeletionIsLocal | internal/store/sqlite/store.go:479-513 | A deletion leaves every other account's rows and alerts in every table as they were |
| AccountStore.DeletionKeepsReferences | internal/store/sqlite/store.go:479-513 | A deletion leaves no dangling foreign key and no alert without its event |
| AccountStore.SavingKeepsReferences | internal/store/sqlite/store.go:366-410 | A save keeps every foreign key |
| AccountStore.SavingIsLocal | internal/store/sqlite/store.go:366-410 | A save touches no other account and never moves an existing account to another provider |
| NotificationProtocol.StepKeepsInv | internal/service/notifications.go:219-471 | Every single store write of an evaluation, and every deletion, save or channel change that interleaves with it, keeps all foreign keys, row ownership and the rule that a quota alert is named by its state row |
| NotificationProtocol.SameWindow | internal/service/notifications.go:751-776 | Two readings are of one window if and only if kind, label, unit, source, total, length and, to the second, reset and expiry agree; what remains does not matter |
| NotificationRuns.RunKeepsInv | internal/service/notifications.go:219-471 | The invariant holds after every run of such steps, of any length |
| NotificationRuns.NoOrphanAtAnyMoment | internal/service/notifications.go:339-471 | At every intermediate moment of every run each low-quota or reset alert is named by the active value of a state row of the same live account |
| NotificationRuns.AlertIsSafeUnlessDeleted | internal/service/accounts.go:83-102 | Whatever other requests do between the state write and the alert write, also when they save an account under an identifier used before: the alert write leaves no orphan if and only if none of them deleted its account |
| NotificationRuns.ReusedIdentifierLeavesOrphan | internal/service/accounts.go:94-98 | For every store and alert: deleting the account and saving it again under its identifier, between state and alert, leaves an orphan |
| NotificationRuns.AtMostOneLowQuotaEvent | internal/service/notifications.go:339-383 | While every evaluation reads a window present and low, at most one low-quota event is created for it, whatever fails or is deleted in between |
| NotificationRuns.ExactlyOneLowQuotaEvent | internal/service/notifications.go:339-383 | Such a stretch that starts with no event standing creates exactly one as soon as one evaluation has left the signal settled |
| NotificationRuns.PassCreatesOne | internal/service/notifications.go:339-383 | One evaluation that reads the signal low and leaves it settled creates one event when none was standing before it, and none otherwise |
| NotificationRuns.DropIsNewUnlessTimeRepeats | internal/service/notifications.go:363-368 | At any evaluation times: a pass that finds the row inactive and leaves the signal standing creates an event if and only if no event of the signal carries the time of this pass yet |
| NotificationRuns.NewDropCreatesOne | internal/service/notifications.go:339-383 | From a moment at which the row names no alert, as after a recovery or a disappearance, the next low stretch creates exactly one event |
| NotificationRuns.NewDropIsFresh | internal/service/notifications.go:363-368 | With increasing evaluation times, a drop after a recovery or disappearance gets a key that no stored event has; only this family of results needs the times to increase |
| NotificationRuns.SendsAreBounded | internal/service/notifications.go:510-560 | For each event and channel the accepted sends equal stored plus failed receipt writes, and at most one receipt is ever stored |
| NotificationRuns.NoResendAfterReceipt | internal/service/notifications.go:528-537 | After a receipt was stored, the pair is sent again only once its account or channel has been deleted |
| NotificationRuns.BlockedPersists | internal/service/notifications.go:267-316 | A state row that rules out attempts up to some time keeps ruling them out under every later step, including failed state writes |
| NotificationRuns.AttemptsAreSpaced | internal/service/notifications.go:800-819 | Two automatic attempts at one activity of one day are more than 30 minutes minus one second apart in every run |
| NotificationRuns.FailureBacksOff | internal/service/notifications.go:800-819 | After a recorded failure the next attempt waits six hours from the whole second the failed one was stamped with |
| NotificationRuns.NoAttemptAfterCompletion | internal/service/notifications.go:800-819 | No automatic attempt ever follows a recorded completion of the same day |
| NotificationRuns.OutcomeWasGiven | internal/service/notifications.go:285-316 | In every run a completed row that was not there before was preceded by an attempt of its key, at the stamped time, to which the provider answered with success, and a failed row by one that it answered with an error |
| NotificationRuns.EventWasGiven | internal/service/notifications.go:291-323 | A completion event is stored only after an attempt of that activity and day succeeded, a failure event only after one failed |
| NotificationStore.NotificationStore.constructor | internal/store/sqlite/notifications.go:12-181 | Any store with intact references and no orphan alert, any choice of refused calls and any behaviour of others is a start from which all of this holds |
| NotificationStore.NotificationStore.Interfere | internal/service/notifications.go:219-337 | Between any two store calls accounts may be deleted, added and refreshed, channels changed and usage written, and the invariant survives |
| NotificationStore.NotificationStore.NotificationState | internal/store/sqlite/notifications.go:136-143 | Reads the value stored at that moment, or fails |
| NotificationStore.NotificationStore.NotificationStates | internal/store/sqlite/notifications.go:152-169 | Reads exactly the state rows of one account |
| NotificationStore.NotificationStore.SaveNotificationState | internal/store/sqlite/notifications.go:145-150 | Upserts one row, fails on its foreign key when the account is gone, and never breaks the rule of its row |
| NotificationStore.NotificationStore.DeleteNotificationState | internal/store/sqlite/notifications.go:171-174 | Removes one row, only after the alert it names is gone |
| NotificationStore.NotificationStore.DeleteAlert | internal/store/sqlite/notifications.go:176-179 | Removes exactly one alert |
| NotificationStore.NotificationStore.SaveNotificationEventAndAlert | internal/store/sqlite/notifications.go:97-127 | Event and alert appear together or not at all; an existing event is kept and reported as not created |
| NotificationStore.NotificationStore.NotificationDelivered | internal/store/sqlite/notifications.go:75-80 | Says whether the receipt of the pair is stored at that moment |
| NotificationStore.NotificationStore.NotificationChannel | internal/store/sqlite/notifications.go:47-62 | Finds a channel exactly while it exists, unless the call fails |
| NotificationStore.NotificationStore.SendChannel | internal/service/notifications.go:562-583 | A message goes out only for a pair without a receipt and with nothing else in flight |
| NotificationStore.NotificationStore.RunActivity | internal/service/accounts.go:654-689 | An attempt starts only in the state that its stored running row armed; what the provider answers is recorded in the run and returned |
| NotificationStore.NotificationStore.RecordNotificationDelivery | internal/store/sqlite/notifications.go:129-134 | Stores the receipt of a message in flight, or counts it as lost when the event or the channel is gone |
| NotificationStore.NotificationStore.NotificationChannels | internal/store/sqlite/notifications.go:24-45 | Lists exactly the channels enabled at a recorded moment, each once |
| NotificationStore.NotificationStore.ReadList | internal/store/sqlite/store.go:412-437 | Lists exactly the accounts of a recorded moment, each once |
| NotificationStore.NotificationStore.QuotaWindows | internal/store/sqlite/store.go:515-547 | Returns the windows that the table holds for the account at a recorded moment |
| NotificationStore.NotificationStore.ConnectedAccounts | internal/store/sqlite/store.go:412-450 | Returns all accounts of one moment, and for each the windows the table held at a later one; without failures or deletions no signal state is left unlisted |
| NotificationStore.NotificationStore.ListActivities | internal/service/accounts.go:593-652 | One activity for every account of the provider that has them, at a recorded moment |
| Notifications.OneAlertPerLowWindow | internal/service/notifications.go:339-383 | After a pass without failures or deletions every window at or below 15 percent has exactly one low-quota alert |
| Notifications.LowAlertsAreJustified | internal/service/notifications.go:339-383 | After such a pass every low-quota alert belongs to a window at or below 15 percent of its account |
| Notifications.RemindersAreExact | internal/service/notifications.go:385-443 | After such a pass the reset reminders are exactly those of windows of three days or more, or without a short name, that reset within (0, 24h] or (24h, 72h], under the key of that range |
| Notifications.Notifications.Deliver | internal/service/notifications.go:528-555 | One pair is sent at most once per pass and only without a receipt; without failures it was tried, had its receipt, or lost its channel |
| Notifications.Notifications.DeliverAll | internal/service/notifications.go:510-560 | Every channel of the list was told, tried or already had its receipt, and the returned count is that of stored receipts |
| Notifications.Notifications.Emit | internal/service/notifications.go:510-560 | Without failures the event, with its alert where there is one, is stored, no state changes, and every channel was told, tried or needed no message; the returned counts are the receipts, failed messages and alerts of the run |
| Notifications.Notifications.SendOnce | internal/service/notifications.go:544-554 | Sends once and tries to write exactly one receipt for an accepted send; delivered means the receipt is stored |
| Notifications.Notifications.EmitAndCount | internal/service/notifications.go:510-560 | Event, alert and deliveries are those of the run, and the counters of delivered and failed messages and of triggered alerts grow by exactly what the run adds, up to store calls that failed |
| Notifications.Notifications.Announce | internal/service/notifications.go:376-382 | The alert a state row names is stored with its event, the row stays, and the counters grow by what happened |
| Notifications.Notifications.RaiseSignal | internal/service/notifications.go:359-368 | On success the row names the new alert; no other signal changes |
| Notifications.Notifications.ClearSignal | internal/service/notifications.go:346-357 | Without failures the row is no longer active, its alert is gone, and no other signal changes |
| Notifications.Notifications.DropNamedAlert | internal/service/notifications.go:417-424 | On success the alert that the row names is gone, so the row may be overwritten |
| Notifications.Notifications.PointAt | internal/service/notifications.go:415-429 | On success the row names the given reminder, and the alert of another range is gone |
| Notifications.Notifications.ForgetSignal | internal/service/notifications.go:459-468 | Without failures the row and its alert are gone and every other row stays |
| Notifications.Notifications.EvaluateWindow | internal/service/notifications.go:246-256 | Both signals of one window are settled and announced, and those of other windows are untouched |
| Notifications.Notifications.ReadSignal | internal/service/notifications.go:340-344 | The row of that moment; an active one names an alert of its own signal |
| Notifications.Notifications.EvaluateLowQuota | internal/service/notifications.go:339-383 | Settles the low-quota state and alert of one window and leaves the state and alert of every other window alone |
| Notifications.Notifications.EvaluateResetReminder | internal/service/notifications.go:385-443 | Settles the reminder of one window, replacing the alert of an earlier range first |
| Notifications.Notifications.ReconcileSignalStates | internal/service/notifications.go:445-471 | Drops exactly the states and alerts of windows the account no longer has; a state whose alert could not be removed stays |
| Notifications.Notifications.EvaluateAccount | internal/service/notifications.go:244-260 | After one account all its windows are settled, whatever order they come in |
| Notifications.Notifications.EvaluateAccounts | internal/service/notifications.go:244-260 | Every account that was read is settled and announced, and no state of an unlisted account appears |
| Notifications.Notifications.ArmAttempt | internal/service/notifications.go:272-284 | Without failures the running row is stored if and only if no attempt is recorded or its backoff is over |
| Notifications.Notifications.RunArmed | internal/service/notifications.go:285-285 | The attempt starts from its stored running row, which still stands afterwards unless the account went away, and returns what the provider answered |
| Notifications.Notifications.EvaluateActivity | internal/service/notifications.go:267-308 | Without failures an attempt is made if and only if none is recorded or its backoff is over; then the row, the failure alert, the event and the counter are those of the answer the provider gave in this pass, otherwise nothing changes |
| Notifications.Notifications.RecordOutcome | internal/service/notifications.go:285-330 | Success, which the provider must have answered, is stored as completed and removes the failure alert, failure is stored as failed and raises it; the matching event is stored and announced, nothing else changes, and only successes are counted as completed |
| Notifications.Notifications.AttemptAll | internal/service/notifications.go:267-330 | One pass over a list of activities: without failures each available one whose row allows an attempt is attempted and ends with the row that the answer calls for, and every other row stays |
| Notifications.Notifications.EvaluateActivities | internal/service/notifications.go:262-331 | Without failures the activities are those listed at a recorded moment of this part, each available one that may be attempted gets the row of its provider answer, every other row stays, and the counter is the number of available ones |
| Notifications.DoneMayNotRepeat | internal/service/notifications.go:800-819 | An activity that a pass has done may not be attempted again at the same time, however it ended |
| Notifications.Notifications.ReadAll | internal/service/notifications.go:225-242 | The accounts with their windows and the enabled channels as the tables held them at recorded moments of this pass, then the time |
| Notifications.DoneMeans | internal/service/notifications.go:244-260 | A finished pass is settled, and every quota alert was sent to every listed channel that had no receipt for it, unless the channel has been deleted |
| Notifications.LowIsStanding | internal/service/notifications.go:339-383 | In a settled store a signal that was read low has a stored event that its row names; one that recovered or disappeared has an inactive row |
| Notifications.PassCounts | internal/service/notifications.go:339-383 | Per signal that was read low, a settled pass at a later time created one event when none was standing before it and none otherwise; at any time, from an inactive row, it created one unless an event of the signal carries this time already |
| Notifications.Notifications.Evaluate | internal/service/notifications.go:219-337 | A second evaluation is refused. What a pass works on was read during it: all accounts, their windows, the enabled channels, the activities. Without failed calls and deletions, over distinct identities, states and alerts are settled, stale ones gone, every pair without a receipt was tried, each low signal got the events that CountsLowEvents states, and each available activity that could be attempted was attempted in this pass and has the row that the answer recorded there calls for. A pass without error had no failed store call, and all counters equal those of its run, failed messages up to failed store calls |
| Notifications.Notifications.RunScheduler | internal/service/notifications.go:473-508 | No quota alert is orphaned at any moment of any sequence of evaluations, at any times and with anything in between |
| UsageLedger.UsageStore.RecordUsageSnapshot | internal/store/sqlite/usage.go:24-101 | A first reading counts nothing; one with a counter below the baseline counts nothing, leaves every daily row and moves the baseline; any other adds what was gained since the baseline to the row of its UTC day and nowhere else. Repeated readings change nothing, older or contradicting ones are refused, usable ones are accepted unless a statement fails, and the rows keep reflecting the history |
| UsageLedger.UsageStore.UpsertAbsoluteDailyUsage | internal/store/sqlite/usage.go:177-235 | The day holds exactly the readings, the baselines of the account are gone, every other row stays, and the rows keep reflecting the history; exactly duplicates, negative counters, missing accounts and foreign providers are refused, without effect, unless a statement fails |
| UsageLedger.UsageStore.Acceptable | internal/store/sqlite/usage.go:191-205 | Accepted exactly when no model repeats and no counter is negative |
| UsageLedger.UsageStore.InsertReadings | internal/store/sqlite/usage.go:225-233 | One row per reading of the day, and every other row stays |
| UsageLedger.ReflectsSnapshot | internal/store/sqlite/usage.go:24-101 | Updating the two tables for one snapshot equals reading the longer history back: latest absolute reading plus deltas of that UTC day since |
| UsageLedger.ReflectsAbsolute | internal/store/sqlite/usage.go:207-235 | Replacing one day and discarding the baselines equals reading the longer history back |
| UsageLedger.GrowthTelescopes | internal/store/sqlite/usage.go:48-101 | Over any stretch without a rollback the counted deltas equal last reading minus first reading |
| UsageLedger.UsageIsTheGainOfStretches | internal/store/sqlite/usage.go:48-101 | For any history: the counted usage of a series is the sum, over the stretches between rollbacks and absolute writes, of last minus first reading, and the part of a day is what the readings of that day added |
| UsageLedger.RowIsTheGainOfStretches | internal/store/sqlite/usage.go:407-419 | For any history each daily row is its last absolute reading plus what the readings of its day gained since, stretch by stretch |
| UsageLedger.GainOfOneDay | internal/store/sqlite/usage.go:407-419 | A stretch whose later readings fall on one day adds all of last minus first to that day |
| UsageLedger.StretchesNeverGoDown | internal/store/sqlite/usage.go:84-96 | No counter goes down inside a stretch, so no reading ever takes usage away |
| UsageLedger.OneDayHoldsTheGrowth | internal/store/sqlite/usage.go:407-419 | When the snapshots of a stretch fall on one UTC day, its row receives all of their growth |
| UsageLedger.DayAfterAbsolute | internal/store/sqlite/usage.go:177-235 | The first snapshot after an absolute write adds nothing; the day ends at the absolute reading plus last minus first snapshot |
| CodexImport.ValidateSource | internal/store/sqlite/usage.go:326-367 | Accepts exactly the sources whose identifiers, entries, counters and date/model keys are valid and distinct |
| CodexImport.CodexUsageStore.ReplaceCodexUsageSources | internal/store/sqlite/usage.go:241-324 | Refuses with the first invalid source or changes all tables at once; afterwards every source holds hash and entries, counter by counter, of the last occurrence in the batch that brought a new hash, or is as before when none did; the daily rows of the account are the grouped sums of its entries, other accounts keep theirs, the report counts the new sources with their entries and tokens, and an acceptable batch is refused only when a statement fails |
| CodexImport.BatchIsImported | internal/store/sqlite/usage.go:268-303 | The stored entries of a source are exactly those of its last new occurrence, each under its date and model with its own counters, and no source of another account changes |
| CodexImport.SummaryReports | internal/store/sqlite/usage.go:281-303 | The report is the number of new sources, of their entries, and of the input, output and cache tokens in them; the rest of the batch is reported as unchanged |
| CodexImport.ViewAddsUp | internal/store/sqlite/usage.go:305-319 | The daily rows of an account add up, counter by counter, to all its stored entries |
| CodexImport.ImportAddsUp | internal/store/sqlite/usage.go:241-324 | A batch with distinct identifiers imported into an account without sources leaves daily rows that add up, counter by counter, to the entries of the batch |
| CodexImport.CodexUsageStore.ValidateSources | internal/store/sqlite/usage.go:249-253 | Names the first invalid source, or none exactly when all are valid |
| CodexImport.CodexUsageStore.RebuildView | internal/store/sqlite/usage.go:305-319 | Only the Codex rows of the account change, and they become the grouped sums of its entries |
| CodexImport.CodexUsageStore.InsertSources | internal/store/sqlite/usage.go:268-303 | The import loop ends in the tables and the report that the batch defines source by source |
| CodexImport.CodexUsageStore.InsertEntries | internal/store/sqlite/usage.go:289-301 | The entries of one source are exchanged for the new ones and counted |
| CodexImport.CodexUsageStore.GroupByDayAndModel | internal/store/sqlite/usage.go:305-319 | The selected rows are exactly the non-empty groups by day and model, each with the sum of its entries |
| CodexImport.RebuiltIsUnique | internal/store/sqlite/usage.go:305-319 | A rebuilt view is determined by the stored entries |
| CodexImport.SkippingIsSound | internal/store/sqlite/usage.go:305-306 | When every source is unchanged, skipping the rebuild leaves what a rebuild would produce |
| CodexImport.ImportSplits | internal/store/sqlite/usage.go:268-303 | Importing xs followed by ys stores what importing the joined batch stores, and the unchanged counts add up |
| CodexImport.ImportsCompose | internal/store/sqlite/usage.go:241-324 | The same holds for two whole imports with their rebuilds |
| CodexImport.SourcesCommute | internal/store/sqlite/usage.go:268-303 | Sources with different identifiers may be imported in either order |
| CodexImport.NeighboursCommute | internal/store/sqlite/usage.go:268-303 | In any batch two neighbouring sources with different identifiers may be swapped |
| CodexImport.StoredHash | internal/store/sqlite/usage.go:281-288 | After an import the stored hash of each imported identifier is that of its last occurrence in the batch, and other hashes stay |
| CodexImport.ReimportChangesNothing | internal/store/sqlite/usage.go:237-240 | Importing any batch a second time leaves all tables as they were, also a batch that gives one identifier two contents |
| CodexImport.ReimportKeepsView | internal/store/sqlite/usage.go:237-240 | With the rebuild of both imports included, the second one changes nothing at all |
| CodexImport.ReimportIsNoOp | internal/store/sqlite/usage.go:281-288 | The second import of a batch reports every source unchanged if and only if no identifier carries two different hashes in it |
| CodexImport.OtherViewsStay | internal/store/sqlite/usage.go:241-324 | An import for one account keeps the view of every other account consistent |
| TokenRhythmHistory.FetchUsageHistory | internal/integration/tokenrhythm/client.go:259-355 | Success means the pages up to the first final one were read and the panels describe exactly their counted requests; each error names the page and the reason that stopped the reading |
| TokenRhythmHistory.CountedOnce | internal/integration/tokenrhythm/client.go:280-288 | Each identifier counts once; no identifier that occurs is lost and nothing is invented |
| TokenRhythmHistory.FirstOnesCount | internal/integration/tokenrhythm/client.go:280-288 | Of several requests with one identifier the first one counts |
| TokenRhythmHistory.UnnamedOnesCount | internal/integration/tokenrhythm/client.go:280-288 | Requests without an identifier all count, as often as they are listed |
| TokenRhythmHistory.CountedGrows | internal/integration/tokenrhythm/client.go:280-288 | Later pages never take back what was counted |
| TokenRhythmHistory.RepeatsDoNotCount | internal/integration/tokenrhythm/client.go:280-288 | Requests that are listed again on a later page change nothing |
| TokenRhythmHistory.CountItem | internal/integration/tokenrhythm/client.go:279-325 | One more request counts for its day unless its identifier was seen, and is refused exactly when it would count but has no date |
| TokenRhythmHistory.AddItems | internal/integration/tokenrhythm/client.go:279-325 | The fold over one page keeps the table of days equal to the sums of the counted requests, and stops exactly when one of them has no date |
| TokenRhythmHistory.AddItem | internal/integration/tokenrhythm/client.go:289-324 | One more counted request keeps a day and its models equal to their sums; one without a model counts for the day only |
| TokenRhythmHistory.PanelsOf | internal/integration/tokenrhythm/client.go:335-354 | One panel per day with a counted request, in calendar order, with each named model once |
| TokenRhythmHistory.DaySplitsByModel | internal/integration/tokenrhythm/client.go:308-324 | The named models and the requests without a model make up the day |
| TokenRhythmHistory.PanelIsConserved | internal/integration/tokenrhythm/client.go:296-324 | The models of a panel and its unnamed requests add up to the panel |
| TokenRhythmHistory.HistoryIsConserved | internal/integration/tokenrhythm/client.go:335-354 | All panels together hold every counted request exactly once |
| TokenRhythmSync.TokenRhythmUsageReadings | internal/service/accounts.go:1015-1043 | One reading per model with its input, output, cache read plus write, and calls; what is left over goes under the empty name; together they are, number by number, the larger of the panel and its models |
| TokenRhythmSync.ReadingsAddUp | internal/service/accounts.go:1015-1050 | For any panel the readings add up, in input, output, cache and requests, to the larger of the total of the panel and the sum of its models |
| TokenRhythmSync.ReadingsAreDistinct | internal/service/accounts.go:1015-1043 | The readings name no model twice if and only if the panel does not |
| TokenRhythmSync.FetchedPanelIsConserved | internal/service/accounts.go:1015-1043 | For a fetched panel the readings add up exactly to the input, output, cached tokens and number of the counted requests of the day, each number truncated toward zero and not below it; they are distinct and not negative, so the ledger accepts them |
| TokenRhythmSync.RowHoldsItsModel | internal/service/tokenrhythm_usage_sync.go:17-55 | The stored row of a model and day holds the numbers of exactly the counted requests of the day that name the model, or carry its identifier and name none |
| TokenRhythmSync.DayHoldsItsLastWrite | internal/store/sqlite/usage.go:177-235 | The stored rows of a day add up to the readings last written for it |
| TokenRhythmSync.SaveDays | internal/service/tokenrhythm_usage_sync.go:32-40 | Days are written in order up to the first failure; a day that the ledger has no reason to refuse is written unless a statement fails |
| TokenRhythmSync.SyncTokenRhythmUsageSnapshots | internal/service/tokenrhythm_usage_sync.go:22-55 | The history is written before today, each part fails on its own and only for a reason, and the errors say which write failed |
| TokenRhythmSync.SyncedDays | internal/service/tokenrhythm_usage_sync.go:17-55 | After a sync each saved day, and each of its models, holds the input, output, cached tokens and number of exactly its counted requests; today holds the larger of its own panel and the models of that |
| CodexLog.ParseCodexUsageText | web/src/lib/codexUsageImport.ts:52-110 | There is a source exactly when something was counted; its entries are the sums of the log by day and model and add up to what was counted, and its hash is that of the table of these sums |
| CodexLog.SameTable | web/src/lib/codexUsageImport.ts:101-108 | Two logs have the same table, and so the same content hash, if and only if their sums agree on every day for every model |
| CodexLog.EventMeans | web/src/lib/codexUsageImport.ts:72-92 | What an event reports in numbers: its own usage, cached tokens taken out of the input, when it has any; otherwise what its total exceeds the previous one by, number by number |
| CodexLog.LatestModel | web/src/lib/codexUsageImport.ts:71-72 | The model of an event is that of the last line that names one |
| CodexLog.LatestSession | web/src/lib/codexUsageImport.ts:70-70 | The session is that of the last line that carries one |
| CodexLog.LatestTotal | web/src/lib/codexUsageImport.ts:84-84 | The total to compare with is that of the last event that carries one |
| CodexLog.ReadEvent | web/src/lib/codexUsageImport.ts:75-86 | The usage of an event is its own when it has any, otherwise the growth of the total; an empty total restarts from zero |
| CodexLog.CountEvent | web/src/lib/codexUsageImport.ts:80-98 | A token event is added to its day and model, or skipped when it has usage but no model or date, or reports nothing |
| CodexLog.Aggregate | web/src/lib/codexUsageImport.ts:53-99 | The fold equals the sums defined line by line, with the last session and the number of skipped events |
| CodexLog.EntryList | web/src/lib/codexUsageImport.ts:101-109 | The entries are exactly the non-empty sums, one per day and model |
| CodexLog.CumulativeLogIsConserved | web/src/lib/codexUsageImport.ts:76-92 | For a log of totals only, counted plus skipped usage equals the positive increments of the totals from zero |
| CodexLog.IncrementsReachTheTotal | web/src/lib/codexUsageImport.ts:119-126 | Positive increments are at least the last total and equal to it if and only if no total decreases |
| CodexLog.CumulativeLogReachesItsTotal | web/src/lib/codexUsageImport.ts:52-132 | Counted plus skipped usage is at least the final total, and equal to it if and only if no total decreases |
| CodexLog.LogBalances | web/src/lib/codexUsageImport.ts:72-92 | For any log, counted plus skipped usage and the growth hidden behind events with their own usage equal the growth of the totals plus that own usage |
| CodexLog.ConservedExactlyWhenOwnIsGrowth | web/src/lib/codexUsageImport.ts:72-92 | A log counts exactly the growth of its totals if and only if its events report themselves, in sum, the growth they hide |
| CodexLog.MixedLogIsNotConserved | web/src/lib/codexUsageImport.ts:72-92 | After any log of totals, one event with its own usage and no total is counted beyond the growth of the totals |
| CodexLog.EntriesAddUp | web/src/lib/codexUsageImport.ts:91-98 | However the events fall on days and models, the entries add up to what was counted |
| CodexLog.EntriesAreValid | internal/store/sqlite/usage.go:326-367 | The entries of a parsed log pass the validation of the store exactly up to its size limits |
| RefreshPool.RefreshAccountIds | internal/service/account_refresh.go:80-148 | Whatever the schedule, failures come strictly increasing by position, each account is either refreshed or among them, and only accounts whose given outcome is success are refreshed; when the wave may not be cancelled the failures are exactly those of the given outcomes |
| RefreshPool.Sort | internal/service/account_refresh.go:146-146 | The same reports, strictly increasing by position |
| RefreshPool.StepKeepsInv | internal/service/account_refresh.go:113-137 | Every step of a worker keeps each index in exactly one place: queue, one worker, reports or successes |
| RefreshPool.RunKeepsInv | internal/service/account_refresh.go:113-137 | Every interleaving of the workers with each other and with cancellation keeps each index in exactly one place |
| RefreshPool.PushNeverBlocks | internal/service/account_refresh.go:106-134 | The buffer of the results channel is never full when a worker pushes |
| RefreshPool.NoDeadlock | internal/service/account_refresh.go:113-137 | Every worker that is not done can take a step of its own |
| RefreshPool.RunsAreBounded | internal/service/account_refresh.go:113-137 | n accounts and c workers allow at most 5n + c + 1 steps, so every schedule ends |
| RefreshPool.RefreshesAreBounded | internal/service/account_refresh.go:93-130 | At most c refreshes are in flight and no account is refreshed twice |
| RefreshPool.CancellationStopsTheWave | internal/service/account_refresh.go:118-129 | After cancellation nothing starts and nothing counts as refreshed, even a refresh that returned without error |
| RefreshPool.EveryAccountIsHandled | internal/service/account_refresh.go:113-147 | At the end every account is refreshed or reported once, never both, and one that never started was reported as cancelled |
| RefreshPool.ScheduleDoesNotMatter | internal/service/account_refresh.go:77-79 | With given outcomes and no cancellation the sorted failures are those of the outcomes, for all schedules and worker counts |
| RefreshPool.Concurrency | internal/service/account_refresh.go:93-98 | The number asked for, but at least one worker and at most one per account |
| AccountBarrier.StepKeepsInv | internal/service/accounts.go:475-689 | Every interleaved step of refresh, activity, listing, import and deletion keeps the lock discipline, keeps what an operation has read present, and keeps deleted accounts gone |
| AccountBarrier.RunKeepsInv | internal/service/accounts.go:475-689 | Every run of such steps, however long, keeps the same invariant |
| AccountBarrier.DeletionIsFinal | internal/service/accounts.go:576-591 | Once a deletion has succeeded no table ever holds a row of the account again, whatever was already running |
| AccountBarrier.RemoveDeletes | internal/service/accounts.go:579-591 | A deletion succeeds exactly when the account is there, and leaves everybody else's rows alone |
| AccountBarrier.DeletedIsMissing | internal/service/accounts.go:475-482 | Every later operation finds the account missing and changes nothing, and none is left that still wants to save it |
| AccountBarrier.ListedAccountsStay | internal/service/accounts.go:593-617 | An account that was listed is there when its credential is read |
| AccountBarrier.UnlockedSaveIsSafe | internal/service/accounts.go:83-102 | A save of an earlier found account without the lock, as a credential import does, keeps deleted accounts gone if and only if the account was not deleted in between |
| SyncScheduler.RunsNeverOverlap | internal/service/account_sync.go:99-165 | At most one caller is inside a run, and the status says running only while that caller holds the lock |
| SyncScheduler.ScheduledAttemptsAreSpaced | internal/service/account_sync.go:193-239 | Every scheduled attempt starts at least one interval after the previous one ended, in every run |
| SyncScheduler.BusyAttemptChangesNothing | internal/service/account_sync.go:99-102 | A scheduled attempt that meets a running one leaves lock and status alone and waits a full interval again |
| SyncScheduler.TimerOnlyMovesLater | internal/service/account_sync.go:209-239 | Resets and runs never bring the next scheduled time forward, as long as the startup delay is within one interval |
| SyncScheduler.NoticedManualRunsPostpone | internal/service/account_sync.go:96-98 | In every reachable state with no reset waiting and no manual run between completing and asking for one, a scheduled attempt can start only an interval or more after the last manual run completed |
| SyncScheduler.ScheduledMayFollowManual | internal/service/account_sync.go:96-98 | Otherwise nothing is guaranteed: with a reset waiting, or not yet asked for, a scheduled attempt starts at any given distance from the completion of a manual run in some reachable run, also at the same moment |
| LoginLimiter.AdminAuth.LoginAllowed | internal/api/auth.go:351-366 | Denied exactly while blocked, and then blocked at a later time if and only if that comes before the returned delay has passed; an outdated or served window is forgotten |
| LoginLimiter.AdminAuth.RecordLoginFailure | internal/api/auth.go:368-383 | Adds the failure to the current or a new window, blocks from the fifth on, and evicts only as the bound requires |
| LoginLimiter.AdminAuth.LimitLoginFailureEntries | internal/api/auth.go:391-411 | Terminates with at most 4096 sources; evicts nothing when there are few, otherwise expired ones and then those that failed longest ago |
| LoginLimiter.AdminAuth.Oldest | internal/api/auth.go:402-408 | Whatever the iteration order, some tracked source is chosen, the one that failed longest ago unless the empty name is tracked |
| LoginLimiter.RunMatches | internal/api/auth.go:351-383 | The stored state of a source is what its recorded failures say: window, count, last failure and lockout |
| LoginLimiter.NineFailuresTakeAWindow | internal/api/auth.go:351-383 | For one source used serially nine recorded failures span at least five minutes |
| LoginLimiter.AtMostEightPerWindow | internal/api/auth.go:351-383 | Any half-open interval of five minutes holds at most eight recorded failures |
| LoginLimiter.EightIsReached | internal/api/auth.go:368-383 | A run in which eight are reached, so the bound is exact although a window ends at five |
| LoginLimiter.FullWindowLocksOut | internal/api/auth.go:351-383 | A source is blocked exactly from the fifth failure of a window until five minutes after it |
| LoginLimiter.AdminAuth.CreateSession | internal/api/auth.go:311-326 | The session is open until its expiry; pruning forgets only expired ones |
| LoginLimiter.AdminAuth.ValidSession | internal/api/auth.go:145-162 | Accepted only while created, not logged out and not expired; always accepted before its expiry unless the clock ran backwards |
| LoginLimiter.AdminAuth.Logout | internal/api/auth.go:328-341 | The session is closed from then on |
| Checkin.Server.RefreshToken | internal/integration/workbuddy/client.go:178-208 | The assumption on the server: it may issue a pair whose answer is lost or spoiled on the way, but no answer claims a pair that was not issued |
| Checkin.Client.Refresh | internal/integration/workbuddy/client.go:178-208 | Succeeds only with the newest pair, delivered; on an error nothing was issued or the issued pair was lost |
| Checkin.Client.FetchCheckinStatusOnce | internal/integration/workbuddy/client.go:254-277 | Reports checked in only when the server is; against a cooperating server the answer is its exact state, or that the credential is not accepted |
| Checkin.Client.FetchCheckinStatus | internal/integration/workbuddy/client.go:234-252 | At most one renewal, stored in place; the credential stays the newest issued pair if and only if that pair was delivered; a credential that the server accepts or would renew always gets its true status |
| Checkin.Client.CheckinOnce | internal/integration/workbuddy/client.go:303-334 | Submits exactly once and succeeds only if the server is checked in, however vague its answer was; against a cooperating server it says whether that was already so |
| Checkin.Client.Checkin | internal/integration/workbuddy/client.go:279-301 | No error only if the server is checked in; at most one pair is issued and at most two submissions are made, the second only after a renewal; the credential is the newest pair the server has issued if and only if the answer that carried it arrived; a cooperating server that accepts or would renew the credential always leads to success, reported as already done exactly when nothing was submitted |
| Checkin.Client.FetchCredits | internal/integration/workbuddy/client.go:210-232 | At most one successful renewal, before or after the request but never both; the credential is the newest pair the server has issued if and only if the answer that carried it arrived |
| CredentialSearch.FirstStringIsFirst | internal/integration/codex/client.go:568-577 | The nearest object with any of the keys decides, and the result is empty only when none has a text |
| CredentialSearch.CredentialComesFrom | internal/integration/codex/client.go:523-537 | Every field comes from the object, one of its ancestors, or an account, profile or user object directly under an ancestor |
| CredentialSearch.NearestFieldsAreUsed | internal/integration/codex/client.go:472-486 | Each of the six fields is empty if and only if no object around has a text under its keys, and otherwise the first text of the nearest one: the object, then its ancestors inside out, each followed by its account, profile and user; likewise the expiry |
| CredentialSearch.OwnTokenIsUsed | internal/integration/codex/client.go:519-521 | A token of the object itself is never replaced by one from its surroundings |
| CredentialSearch.ScoresRank | internal/integration/codex/client.go:539-558 | The scores order candidates exactly by provider, then access token, then one that can be decoded, then refresh token, then known account: no sum of lesser merits makes up for a greater one |
| CredentialSearch.CodexIsNamedNearby | internal/integration/codex/client.go:539-544 | A candidate counts as a Codex record exactly when the nearest provider name, metadata left aside, is codex or contains openai |
| CredentialSearch.VisitedIsNested | internal/integration/codex/client.go:466-505 | The ancestors of a visited object are the objects around it, each holding the next, never a sibling |
| CredentialSearch.Search.Walk | internal/integration/codex/client.go:466-505 | Whatever the order of fields, exactly the visited objects with a token become candidates; the depth bound ends the walk |
| CredentialSearch.Search.WalkObject | internal/integration/codex/client.go:472-489 | The object itself, if it has a token, and the candidates of all its fields, each with the object as nearest ancestor |
| CredentialSearch.Search.WalkList | internal/integration/codex/client.go:490-493 | The candidates of all items, with unchanged ancestors |
| CredentialSearch.SelectCredential | internal/integration/codex/client.go:462-517 | The first candidate with the highest score among all visited objects with a token, and none exactly when there is no such object; all six of its fields and its expiry are those of the nearest objects that have them |
| CredentialSearch.OrderDoesNotChangeTheScore | internal/integration/codex/client.go:494-497 | Two selections from one document, visited in different orders, have the same score, provider rank and access-token rank |
| CredentialSearch.SelectionIsLocal | internal/integration/codex/client.go:462-558 | A Codex record wins if there is one, the selection has a token, and its fields come from around it, never from a sibling record |

## Left out

- Alert titles, severities and messages, message formatting, SMTP and Feishu: a send is accepted or not.
- What the provider answers to an attempt at an activity, which store calls are refused and what other requests do meanwhile are parameters of the store, fixed beforehand in any way; an event without an account identifier is not modelled.
- SQL text and the SQLite engine: transactions are atomic and any statement may fail.
- SHA-256 and `alertID` are injective, so an alert is identified by its event key; keys joined with ":" are tuples.
- Encryption of credentials, decoding of JSON web tokens, random session values.
- JSON decoding, trimming of texts, and parsing of dates, times and time zones: the model starts from decoded values. Lower-casing covers ASCII letters, and lengths count characters rather than bytes.
- Overflow of 64-bit and JavaScript numbers, and floating-point rounding: integers are unbounded and quantities are reals.
- The deletion of an account also ends its usage history; the ledger theorems are about one period between deletions.
- Usage backfill markers are part of the tables and of deletion; the two functions that read and write them are not modelled.
- The aggregate views for display (daily usage, model usage, totals) and the dashboard.
- The order of models within a day: entries and panels list each model once, in an arbitrary order. The content hash of a parsed log is a parameter that depends on the table of entries.
- RefreshPool.RefreshAccountIds: accounts are positions in the list; a missing refresh function, the default timeout and the error text are not modelled.
- SyncScheduler.RunsNeverOverlap: the fields of the status about errors, results and past run times are not modelled, only running, trigger and next time.
- AccountBarrier.StepKeepsInv: the mutex that serialises activities among themselves is not modelled; the steps allow more interleavings than the code.
- Checkin.Client.FetchCredits: tokens are opaque numbers and the server hands out unused ones; the balance requests are one step; merging, deduplicating and summing of credit packages are not modelled.
- CredentialSearch.SelectCredential: completing the selection from token claims and parsing its expiry are not modelled.
- Provider adapters that only map response fields, OAuth logins, the HTTP router, the event hub, the log writer and the user interface.
