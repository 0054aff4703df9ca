# BlueMQ, modelled and proved

BlueMQ is a multi-tenant notification service. This project models the parts of it that carry protocol, ledger,
codec, calendar or search logic, and proves what those parts are for. `dafny verify dfyconfig.toml` checks all of it.

| modules | what they model |
|---|---|
| QuotaLedger, QuotaSerial | the two quota tables, every statement of every quota transaction, and what a transaction run alone keeps |
| QuotaInterleaving, QuotaBlindReads, QuotaLocks, QuotaDeadlock | the same statements interleaved under row locks: safety and its exact condition, serial order, settlement, deadlock |
| QuotaStore, QuotaProperties | the quota functions themselves as methods of a class, batch against singles, the stale sweep |
| WebhookDelivery, WebhookOutcomes, WebhookLease, WebhookFaults, WebhookWorker | the lease protocol of webhook deliveries with a clock, its exact conditions, and one tick of the worker |
| AudienceCsv, AudienceImport | the CSV parser and printer of audience lists, import and export |
| Calendar, NextRun | day numbers, and the next run of daily, weekly and monthly schedules |
| SchedulePoller, PollerRuns | the poller's loops, and any number of pollers at once |
| JobLifecycle | one channel job from first to last attempt, and a notification's status over whole runs |
| WhatsAppSession | the search for the session an entity sends through |
| Jsonb, TemplateSync, TemplateSyncProperties | the cache of Meta's templates and its sync |
| TemplateLookup | batch queries against sequential ones, for templates and aliases |
| TemplateVariables | placeholders, button slots, normalization and the parameters sent |
| Text | the JavaScript string functions used by the others |

Code that works on rows and variables step by step is modelled by classes and methods with loops, each proved against
a function of its inputs; the theorems are then about those functions, or about state machines whose steps are those
functions. The database is reduced to row locks, unique keys, guarded updates and atomic commit.

Where the code does not meet a property, the project proves exactly when it does, or gives the runs that break it:

- A batch that reads a usage row that does not exist locks nothing, and can overfill any limit. For batches over a set
  of keys, the cap and conservation hold in every interleaving if and only if each of those keys that has any limit at
  all has its row at the start (`QuotaBlindReads.SafeIffRowsPresent`).
- A sweep and a reservation can wait for each other (`QuotaDeadlock.SweepAndReserveCanDeadlock`); without sweeps no
  transactions do, if the notifications reserved for are new (`QuotaLocks.OnlySweepsDeadlock`).
- Reserving the same (notification, channel) twice moves the counter for nothing
  (`QuotaSerial.ReservingConservesIffNew`).
- The lease of a webhook batch excludes other processes if and only if a full batch of the slowest rows fits into the
  hour (`WebhookLease.ExclusionIffBatchFits`). A dashboard retry is harmless if and only if nobody holds the row or the
  unique index refuses it (`WebhookFaults.RetryIsHarmlessIff`). A committed write whose reply is lost is harmless if and
  only if it was neither a success nor the fifth failure, and the row cannot fall due before the error path is over
  (`WebhookFaults.LostReplyIsHarmlessIff`); otherwise a final row goes back to pending, or two processes hold one row.
- A member without any field does not survive export and import (`AudienceImport.RoundTripIsIdentityIff`).
- Weekly schedules fire a day late in zones from UTC+12 on (`NextRun.WeeklyIsNextIff`).
- Repeating a template sync writes nothing only if every object of every template has its keys in the order a JSONB
  column gives back (`TemplateSyncProperties.SecondSyncIsQuietIff`), and a fetch that breaks off on an error other than
  429 after its first page marks templates DELETED that Meta still lists (`TemplateSyncProperties.MarkedIffNotTruncated`).
- A template whose only placeholders are `{{0}}` is reported complete and sent with a blank parameter, and so is one
  where an all-digit key overrides a used index with a blank; nothing else is (`TemplateVariables.SendIsSoundIff`).
- A statement that fails in one schedule of a poller's tick rolls the tick back, but the jobs collected before it are
  enqueued, now and again at the next tick. With statements free to fail, no job is ever enqueued twice if and only if
  at most one schedule is active (`PollerRuns.AtMostOnceIffOneActive`). Which schedules are due is decided by the
  database's clock and the next run by the process's: a run moves past its occurrence if and only if the process's clock
  is not behind it (`PollerRuns.BehindIffOnTime`).
- A pruning UPDATE that fails throws through a template sync and leaves some rows unmarked; one full sync with the same
  fetch makes up for it (`TemplateSyncProperties.SyncMakesUp`).

## Model

| member | source | states |
|---|---|---|
| QuotaInterleaving.InterleavingsAreSafe | src/utils/quota.js:179-244 | however any number of single reserves, batches, recordings, settles, sweeps and rollbacks interleave, if each batch finds the rows it selects FOR UPDATE, or asks for a key without any limit, then in every state each counter is within its limit and says what the rows say, and the ledger is that of the committed transactions run one after another |
| QuotaInterleaving.CommitIsSerial | src/utils/quota.js:254-306 | at its commit a transaction has done to the committed ledger exactly what it would have done alone |
| QuotaBlindReads.SafeIffRowsPresent | src/utils/quota.js:361-382 | from any ledger that keeps conservation and the cap, every run whose batches ask for keys of a set keeps them, if and only if each key of the set with any limit at all has its usage row at the start |
| QuotaBlindReads.BlindReadBreaksTheCap | src/utils/quota.js:361-382 | from every such ledger, for every key without a row and with any limit, and every batch size, there is a run in which a batch reads no row and the counter ends above the limit |
| QuotaSerial.TxnKeepsGood | src/utils/quota.js:192-233 | run alone, every transaction keeps conservation of both counters, the cap, and recorded within granted |
| QuotaSerial.ReservingConservesIffNew | src/utils/quota.js:227-233 | an admitted reservation conserves its key if and only if its row is new |
| QuotaSerial.ReservedRowIsCounted | src/utils/quota.js:463-480 | a reserved row's units are within the counter, so GREATEST(0, ...) never changes a value |
| QuotaSerial.GrantKeepsGood | src/utils/quota.js:369-382 | granting what is left of a limit keeps conservation and the cap |
| QuotaSerial.RecordKeepsGood | src/utils/quota.js:420-429 | recording a granted unit keeps conservation |
| QuotaSerial.FinishKeepsGood | src/utils/quota.js:600-612 | settling any list of claimed rows keeps conservation and the cap |
| QuotaLocks.FirstOutcomeWins | src/utils/quota.js:449-481 | between any two moments of any run no reservation is lost, and one consumed or released keeps that outcome |
| QuotaLocks.ReserversNeverDeadlock | src/utils/quota.js:279-294 | in no state of any run do reserving transactions, single or batch, wait for each other in a circle |
| QuotaLocks.OnlySweepsDeadlock | src/utils/quota.js:449-481 | nor do reserving, recording and settling transactions, whatever they settle, in runs without sweeps whose requests are each for a notification that has no rows at the start and that no other transaction adds rows for |
| QuotaDeadlock.SweepAndReserveCanDeadlock | src/utils/quota.js:567-612 | from every ledger with two reserved rows of different channels and a unit left for the first, a run after which a sweep and a request wait for each other |
| QuotaStore.Store.ReserveOnClient | src/utils/quota.js:179-244 | the ledger gains the reservation if it is admitted and is unchanged otherwise; the answer says which, and reports the counter afterwards and what remains of the limit |
| QuotaStore.Store.ReserveForChannels | src/utils/quota.js:254-306 | runs the transaction of the limited channels in alphabetical order; each is answered: blocked as the ledger at the start decides, with the counter at the end and what remains |
| QuotaStore.RequestIsOk | src/utils/quota.js:258-294 | what a request becomes satisfies the hypotheses of the transaction proofs: positive units, one key a channel, ascending |
| QuotaStore.Store.GrantOnClient | src/utils/quota.js:360-392 | a batch's channel is granted what is left of its limit; granted and blocked make up the request |
| QuotaStore.Store.ReserveForBatch | src/utils/quota.js:323-411 | runs the batch transaction; every channel is answered, unlimited ones in full |
| QuotaStore.Store.RecordBatchReservation | src/utils/quota.js:420-429 | runs the recording transaction, or nothing when there was no limit |
| QuotaStore.Store.SettleOnClient | src/utils/quota.js:449-481 | runs the settling transaction: once, and nothing for a row already settled |
| QuotaStore.Store.ReleaseStaleReservations | src/utils/quota.js:556-638 | runs the sweep over the rows its two queries answer with, and fails the notifications of the orphans |
| QuotaStore.GrantResult | src/utils/quota.js:370-392 | accepted and blocked add up to the units requested, what is accepted fits the limit, and something is blocked only when the limit is then reached |
| QuotaProperties.BatchRefinesSingles | src/utils/quota.js:353-393 | a batch transaction of n units accepts as many as n one-unit reserves, and once the recording transaction has run for each accepted unit it has left the same counters and rows; blocked units mean the key is at or over its limit |
| QuotaProperties.SweepReleasesSelected | src/utils/quota.js:567-612 | a sweep releases exactly the stale rows its queries answer with and touches no other row |
| QuotaProperties.StaleRowsAllGo | src/utils/quota.js:567-596 | n stale rows are all released after ceil(n / 200) sweeps |
| WebhookLease.ExclusionIffBatchFits | src/workers/webhook-delivery.worker.js:100-143 | over all careful runs of any number of processes, crashes and failed writes included, no row is ever in flight twice if and only if 20 slots of call, write and recovery fit the one-hour lease |
| WebhookDelivery.RunKeepsInv | src/workers/webhook-delivery.worker.js:129-135 | every row a tick has still to handle is pending under its lease, with the attempts the tick counts on |
| WebhookDelivery.ClaimTakesFreeRows | src/workers/webhook-delivery.worker.js:104-118 | a claim never takes a row another process still holds |
| WebhookOutcomes.TerminalRowsStay | src/workers/webhook-delivery.worker.js:150-168 | a delivered or failed row never changes again unless the dashboard retries it |
| WebhookOutcomes.RetriesAreBounded | src/workers/webhook-delivery.worker.js:161-179 | with no crash and no thrown error: at most five deliveries, retry k no sooner than 30, 300, 1800, 7200 s after the failure before it, failed only after five failures and 9330 s, delivered by the last delivery |
| WebhookOutcomes.EventsAreDeliveredOnce | src/workers/webhook-delivery.worker.js:251-284 | what the unique index is for: in every careful run, besides a delivered row of an event no other row of it is pending or delivered |
| WebhookFaults.RetryIsHarmlessIff | src/api/routes/webhook-config.js:223-232 | after a dashboard retry no careful run ever puts a row in flight twice, if and only if the row was not in flight or the unique index refuses the retry |
| WebhookFaults.LostReplyIsHarmlessIff | src/workers/webhook-delivery.worker.js:185-195 | after a committed write whose reply is lost no careful run puts a row in flight twice or changes the row once final, if and only if the write was neither a success nor the fifth failure and its backoff outlasts the error path |
| WebhookFaults.LostReplyRevives | src/workers/webhook-delivery.worker.js:185-195 | after any lost reply the error path can take the row back to pending, and the row was final exactly if the write was a success or the fifth failure |
| WebhookWorker.Worker.Tick | src/workers/webhook-delivery.worker.js:90-221 | a tick leaves the table its claim and its writes make; a second one while it runs changes nothing |
| WebhookWorker.Worker.Claim | src/workers/webhook-delivery.worker.js:129-135 | rows outside the batch stay as they are; one in it has one more attempt, the same status, event and history, and is due exactly from an hour on |
| WebhookWorker.Worker.Deliver | src/workers/webhook-delivery.worker.js:146-200 | the loop over the claimed rows writes each row's outcome in turn |
| WebhookWorker.TickIsARun | src/workers/webhook-delivery.worker.js:90-200 | a tick that keeps to the time bounds is a run of the protocol with the same table |
| AudienceCsv.ParseCsv | src/utils/audience-member.js:50-85 | the loop computes Parse |
| AudienceCsv.ReadLines | src/utils/audience-member.js:118-129 | printed rows are read back cell by cell whatever quotes, commas, LFs and CRs they hold, but for a CR at the end of a row and a last row of empty cells |
| AudienceImport.ParseDocument | src/utils/audience-member.js:50-85 | a plain header line and quoted rows come back as header and rows |
| AudienceImport.NormalizeNormalizes | src/utils/audience-member.js:24-38 | normalized fields and the user id, given or drawn, are trimmed and not empty, and normalizing again changes nothing |
| AudienceImport.NamesAreFields | src/utils/audience-member.js:98-108 | the printed header selects the five fields in order |
| AudienceImport.ExportImportRoundTrip | src/utils/audience-member.js:87-129 | importing what was exported and cleaning it gives the same members' five fields in the same order, without the members that have none |
| AudienceImport.RoundTripIsIdentityIff | src/utils/audience-member.js:87-129 | the round trip is the identity if and only if every member has a field |
| Calendar.DateOf | src/utils/compute-next-run.util.js:114-137 | every day number has a valid date, whose day number it is (section 21.4.1 of ECMA-262) |
| Calendar.DateOfDayNumber | src/utils/compute-next-run.util.js:96-108 | every valid date is the date of its day number |
| Calendar.MonthsAscend | src/utils/compute-next-run.util.js:230-246 | a later month starts after every day of an earlier one, across years |
| NextRun.CreateDateIs | src/utils/compute-next-run.util.js:65-109 | createDateInTimezone gives the instant at which the zone shows the given fields |
| NextRun.DailyIsNext | src/utils/compute-next-run.util.js:139-168 | the daily result is the first instant after now at that local time |
| NextRun.WeeklyIsNextIff | src/utils/compute-next-run.util.js:170-211 | the weekly result is the first matching instant after now if and only if the offset is in [-12 h, +12 h) |
| NextRun.MonthlyIsNext | src/utils/compute-next-run.util.js:213-249 | the monthly result is the first instant after now on that day of the month (capped at 28) at that local time, year ends included |
| NextRun.NextRunIsNextIff | src/utils/compute-next-run.util.js:31-39 | the three together |
| NextRun.NextRunIsAhead | src/utils/compute-next-run.util.js:31-39 | in every zone the result of each of the three is after now |
| SchedulePoller.ProcessItems | src/workers/scheduled-notification.worker.js:347-351 | successes and failures add up to the items, each success makes one job, and the log status says which of all, none or some succeeded |
| SchedulePoller.PickBest | src/workers/scheduled-notification.worker.js:61-79 | the first template of the highest score, or none if none matches |
| SchedulePoller.Poller.Tick | src/workers/scheduled-notification.worker.js:721-804 | a tick applies its updates if no statement failed, none otherwise, and enqueues the jobs it collected either way |
| PollerRuns.AtMostOnceIffOneActive | src/workers/scheduled-notification.worker.js:728-794 | with any number of pollers, crashes and failed statements: no job is enqueued twice in any run in which no process's clock is behind an occurrence it handles, if and only if at most one schedule is active |
| PollerRuns.EnqueuedAtMostOnce | src/workers/scheduled-notification.worker.js:728-794 | for any number of schedules: no job of a due occurrence is enqueued twice, and an enqueued occurrence is not due any more, in runs where no statement fails after its tick has collected a job and no process's clock is behind an occurrence it handles |
| PollerRuns.TickIsARun | src/workers/scheduled-notification.worker.js:721-804 | a tick that has the schedules to itself is a run of the machine with the same rows and jobs |
| PollerRuns.AdvancedIsBehind | src/workers/scheduled-notification.worker.js:680-704 | a successful run completes the schedule or moves it strictly past the occurrence, in every zone, when the process's clock is not behind the occurrence |
| PollerRuns.BehindIffOnTime | src/workers/scheduled-notification.worker.js:680-704 | for a one-time schedule always, and for a recurring one on an occurrence of its own in a zone whose next runs are right: if and only if the process's clock is not behind the occurrence |
| PollerRuns.FailedStatementRepeats | src/workers/scheduled-notification.worker.js:745-794 | from any state at rest with two due schedules there is a run of two ticks over all due schedules, a statement of the second failing in each, that enqueues an occurrence of the first twice |
| JobLifecycle.StatusOverRuns | src/workers/base.worker.js:116-126 | over every sequence of successes, terminal failures and sweeps: pending iff empty, delivered iff the first is a success, else partial or failed as the last report says |
| JobLifecycle.SweepIsOrphan | src/utils/quota.js:614-628 | a sweep moves exactly the pending notifications of its orphans to failed |
| JobLifecycle.ChannelWorker.Finish | src/workers/base.worker.js:102-138 | log, status and reservation change together |
| JobLifecycle.ChannelWorker.Handle | src/workers/base.worker.js:102-211 | an attempt settles and reports if it is final, and otherwise throws and leaves status and ledger alone |
| JobLifecycle.ChannelWorker.RunJob | src/workers/base.worker.js:228-290 | at most retries + 1 attempts, none after a final one; the ledger is untouched before each; logs, status and ledger afterwards |
| JobLifecycle.ChannelWorker.RunReservedJob | src/workers/base.worker.js:199-290 | the reservation is reserved before every attempt and afterwards consumed iff the last attempt was sent, else released |
| WhatsAppSession.Search | src/utils/whatsapp-session.js:74-101 | ends on every parent graph, cycles included, with the nearest active ancestor of the two roots, or none if no ancestor is active |
| WhatsAppSession.ResolveWhatsAppSession | src/utils/whatsapp-session.js:70-122 | the app fallback only if no active session is reachable, else an active one of least depth, the requested chain winning ties; inherited iff the entity itself is not active |
| WhatsAppSession.NearestIsUnique | src/utils/whatsapp-session.js:74-101 | the graph decides the answer |
| WhatsAppSession.DirectIffActive | src/utils/whatsapp-session.js:87-96 | the session is the requested entity's own exactly when that is active |
| TemplateSync.FetchAll | src/utils/whatsapp-template.js:801-847 | everything up to the first response that ends the fetch; truncated exactly on a 429, failed on any error |
| TemplateSync.TemplateCache.Sync | src/utils/whatsapp-template.js:1418-1493 | the table after a sync, and its counts; nothing changes when an error left nothing fetched; it throws exactly if a pruning UPDATE it comes to fails, and then leaves what was written and some of the rows to be marked unmarked |
| TemplateSync.TemplateCache.Prune | src/utils/whatsapp-template.js:1466-1481 | exactly the rows not seen and not DELETED yet are marked, in whatever order, or it throws, with only such rows marked |
| Jsonb.CanonIsOrdered | src/db/schema.sql:562-575 | what a JSONB column gives back has every object's keys in its order |
| Jsonb.CanonIsSameIffOrdered | src/utils/whatsapp-template.js:610-612 | a column gives back the very JSON stored if and only if its keys were in order |
| TemplateSyncProperties.SyncConverges | src/utils/whatsapp-template.js:1418-1493 | after a complete fetch and successful writes the cache agrees with Meta on status and components, its update time is not behind (without one the category agrees too), and every other row is DELETED |
| TemplateSyncProperties.SecondSyncIsQuietIff | src/utils/whatsapp-template.js:952-978 | the same sync again writes nothing if and only if every template's components are in the column's order |
| TemplateSyncProperties.QuietIffNoWrites | src/utils/whatsapp-template.js:1453-1463 | nothing is written exactly when the sync counts no creation, update or pruning |
| TemplateSyncProperties.SyncMakesUp | src/utils/whatsapp-template.js:1418-1493 | whatever writes of a sync failed, and wherever its pruning was cut short, one full sync with the same fetch leaves the status and components it would have left alone |
| TemplateSyncProperties.SecondSyncChangesNothing | src/utils/whatsapp-template.js:906-950 | written again or not, status and components of every row stay |
| TemplateSyncProperties.TruncatedSyncMarksNothing | src/utils/whatsapp-template.js:1466-1467 | a sync cut short by a 429, whichever writes fail, makes no row DELETED that Meta does not report so |
| TemplateSyncProperties.MarkedIffNotTruncated | src/utils/whatsapp-template.js:822-830 | a row not fetched is marked if and only if no 429 cut the fetch short, broken fetches included |
| TemplateSyncProperties.SyncKeepsColumns | src/utils/whatsapp-template.js:906-945 | the cache always holds what a JSONB column gives back |
| TemplateLookup.QueryAnswers | src/utils/whatsapp-template.js:1273-1296 | the batch query answers with the row earliest by candidate, then language |
| TemplateLookup.FindSequential | src/utils/whatsapp-template.js:1352-1388 | the first candidate with rows decides: its first sendable row, else its first row |
| TemplateLookup.LookupsAgreeIff | src/utils/whatsapp-template.js:1269-1394 | the batch form finds an approved row whenever a candidate has one; the forms agree if and only if the first candidate with rows chooses an approved row, or no candidate has one and it chooses its first |
| TemplateLookup.PlainFormsAgreeIff | src/utils/whatsapp-template.js:1269-1394 | with statuses in upper case, that is: the first candidate with rows has an approved one, or no candidate has |
| TemplateLookup.ResolveSequential | src/utils/template-alias.js:259-287 | the first scope with a target that is not blank, or none |
| TemplateLookup.AliasesAgreeIff | src/utils/template-alias.js:207-287 | the two alias forms agree unless a blank target hides a later one; without blank targets always |
| TemplateVariables.MaxTextIndex | src/utils/whatsapp-template.js:30-40 | the highest placeholder of header and body, 0 if there is none |
| TemplateVariables.DynamicButtonSlots | src/utils/whatsapp-template.js:48-71 | the dynamic buttons, in order, take exactly the indexes after the highest placeholder |
| TemplateVariables.SlotsAreFresh | src/utils/whatsapp-template.js:42-71 | no slot shares its index with a header or body placeholder or another slot |
| TemplateVariables.NormalizeIsIdempotent | src/utils/whatsapp-template.js:446-513 | normalizing twice equals normalizing once, whatever named values come with the second |
| TemplateVariables.SentValueIs | src/utils/whatsapp-template.js:474-482 | what is sent for an index no digit key overrides is the caller's value in that position, or else the named one |
| TemplateVariables.MissingIsExact | src/utils/whatsapp-template.js:484-489 | an index no digit key overrides is reported missing exactly when the template uses it and its value would be blank when sent |
| TemplateVariables.BuildSend | src/utils/whatsapp-template.js:529-578 | the parts sent: one for each text with placeholders, then one for each slot |
| TemplateVariables.SendIsSoundIff | src/utils/whatsapp-template.js:446-578 | for all variables: when nothing is reported missing, no parameter sent is blank if and only if no digit key gives a sent index a blank, and each sent index is given by a digit key or there was something to number |
| TemplateVariables.SendIsSoundWithoutDigitsIff | src/utils/whatsapp-template.js:446-578 | without digit keys: nothing missing means no blank parameter is sent, if and only if the template is not one of {{0}} alone in a text sent with no value given |

## Left out

- InterleavingsAreSafe: assumes what its steps carry: a fixed limit for each key, each (notification, channel) reserved once, and a batch caller that records no more units than it was granted.
- FirstOutcomeWins: the channel reserved and the channel settled are the same name; a caller that reserves under a public channel name and settles under the internal one settles nothing.
- ReserversNeverDeadlock: is about reserveForChannels and reserveForBatch; the poller reserves channels in the order of the request, and its transactions are not among those modelled here.
- Store.ReserveForChannels: limits and period starts are parameters; resolveLimit, getPeriodStart, threshold events and the integer width of the counters are not modelled.
- Store.ReleaseStaleReservations: the rows the two queries answer with are parameters that satisfy the queries; the timeout setting is the parameter `cutoff`.
- ExclusionIffBatchFits: database and processes share one clock, and a claim's transaction commits at the instant it starts.
- RetriesAreBounded: the error path ignores the maximum, so with thrown errors or crashes there can be more than five deliveries.
- Worker.Tick: the claiming query's answer is a parameter that satisfies the query; which due rows it prefers, and the join with the app's one active webhook, only narrow that choice; the subscription check before an insert decides only whether there is one. A claim that fails changes nothing and is not modelled.
- ParseDocument: text is a sequence of UTF-16 code units without lone surrogates; casing outside ASCII matters only where it can produce ASCII letters.
- ExportImportRoundTrip: the JSON branch of the import and member fields other than the five are not modelled.
- CreateDate: years run without bound; the code's date string is a valid one only for years of four digits. Zones have a constant offset of whole minutes; daylight saving and custom_cron are not modelled, and seconds of time_of_day are ignored as in the code.
- BehindIffOnTime: is about zones in which next runs are right; where weekly runs are a day late, only the half that AdvancedIsBehind states is claimed.
- EnqueuedAtMostOnce: schedules are not edited while pollers run; custom_cron schedules are left out; a row whose processing throws without a failed statement is only counted as a retry.
- NextRunIsNextIff: custom_cron, the fourth branch of the switch, is a library call and is not modelled; NextRunIsAhead leaves it out too.
- ProcessItems: whether an item succeeds is a parameter; rendering, quota and inserts of an item are not modelled here.
- PickBest: condition keys, values and variables are taken as already normalized.
- RunJob: provider calls are arbitrary outcomes; notification.final and the queue's stalled-job recovery are not modelled.
- ResolveWhatsAppSession: the app's fallback row is a parameter.
- TemplateCache.Sync: names and languages hold no colon, which keeps the joined keys apart; session resolution and the other writers of the cache are not modelled.
- CanonIsSameIffOrdered: object keys are ASCII and not array indexes, and atoms come back unchanged.
- NormalizeIsIdempotent: what the named values give an index is an arbitrary function; the matching of names and the per-template mapper, which repeats the same code, are not modelled.
- Provider clients, HTTP routes, authentication, telemetry, the queue library, HMAC signing and the frontend: plumbing around the modelled logic.
