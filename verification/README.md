# Depot backend: verified model

A Dafny model of the stateful core of a depot-charging backend, with proofs of what that core is meant
to guarantee. To verify the project, run `dafny verify dfyconfig.toml` in this directory.

| part | files |
|---|---|
| shared notions | `Common.dfy` |
| calendar and report cadences | `Calendar.dfy`, `ReportTiming.dfy` |
| scheduled-report engine: workers, crashes, takeovers, approvals | `ReportEngine.dfy`, `ReportSlots.dfy`, `ReportDue.dfy`, `ReportModes.dfy`, `ReportApproval.dfy`, `ReportRelease.dfy`, `ReportDelivery.dfy`, `ReportLedger.dfy`, `ReportMail.dfy`, `ReportResume.dfy`, `ReportExclusive.dfy`, `ReportOutcome.dfy`, `ReportOverlap.dfy`, `ReportDrafts.dfy` |
| delivery ledger | `RecipientLoop.dfy`, `DeliveryWebhook.dfy` |
| hourly prices: forward fill, read-through, LRU | `PriceFill.dfy`, `PriceCache.dfy` |
| cost backfill driver | `SessionBackfill.dfy` |
| alerts and their dispatcher | `AlertLifecycle.dfy`, `AlertDispatcher.dfy` |
| charger-log imports | `ChargerLogImport.dfy` |
| bounded buffers | `LivenessHub.dfy`, `LogRing.dfy` |
| energy report and freshest SoC | `EnergyReport.dfy`, `VehicleSoc.dfy` |

## How it is modelled

**Time.** Instants are integer microseconds. A time zone is a pair of offset functions, one by wall clock
(fold=0 as in PEP 495) and one by UTC instant; `ValidZone` only says that both stay strictly within a
day. Two further hypotheses are named. `KeepsDates` says that a wall-clock value has the same date after
a trip to UTC and back; `PassesDates` says that a value on an earlier date is already over. Together they
are `DateCoherent`. Fixed-offset zones and zones whose clocks go back satisfy it; zones whose clocks go
forward satisfy it exactly when the skipped stretch and the equally long one after it lie on one date.

**The engine.** One step is one database statement (or one transaction) or one e-mail hand-over. Any
number of workers and approvers interleave, a process may crash between any two steps, and a step that
is not possible leaves the state alone, so every sequence of actions is a run. Statements that the
source runs as objects changed in place by one task (the delivery pass, the ledger, the LRU, the price
store, the alert table, the hub, the log ring) are classes with `modifies` clauses; the protocols whose
point is interleaving are step functions on table states, because their theorems quantify over runs.

**Tables.** A unique index is an insert guard. Money, energy and SoC are reals. Clocks, provider answers,
generated reports, parser results and query inputs are parameters or choices of the run.

## Where the code does less than its documentation says

Each item has an input that shows the failure and the exact condition for the property.

- The docstring of `claim_run` says that an unfinished run is never executed twice; `_tick` does take over
  a run that is unfinished after an hour. Slot safety survives the overlap that this allows
  (`ReportSlots`), and mail stays bounded by the executions started (`ReportMail`), but the outcome of a run
  does not: `ReportOverlap.OverlapOverwritesApproval` is a run in which an approved report ends as
  `skipped`. The conditions are `ReportOutcome.OutcomeIsFinalExactly` and
  `ReportOutcome.WaitingIsResolvedExactly`.
- A webhook reads the latest row and inserts in two statements without a transaction, so a late
  `delivered` can hide a bounce: `DeliveryWebhook.RaceHidesBounce`. The condition, over every run of
  interleaved callbacks, is `DeliveryWebhook.AlwaysHonestExactly`. Callbacks handled one at a time are
  order-independent.
- `run_post_upload_pipeline` is documented as safe to call again. Two calls that both read `received`
  store the log twice: `ChargerLogImport.OverlapStoresTwice`, with the condition in
  `ChargerLogImport.StoredOnceExactly`. This is about repeated calls: the upload endpoint starts one
  pipeline per accepted upload, and for that caller `ChargerLogImport.UploadsStoreOnce` holds.
- The price cache assumes that stored prices do not change, yet a lookup may pull and store rows. A lookup that
  reads through is answered from the new table, but a pulled row can make the entry of another hour wrong,
  and a later request whose hours are all cached returns it: a quarter-hour row inside the request
  (`PriceCache.QuarterHourDisturbs`) or an hourly row outside it, since the ENTSO-E answer is not cut to the
  request (`PriceCache.RowOutsideDisturbs`). `PriceCache.LruPriceLookup.Lookup` states, for any cache, exactly
  which requests are answered like the uncached ones; `PriceCache.LruPriceLookup.WrongExactly` and
  `PriceCache.HourlyDisturbsExactly` state exactly which entries are wrong.
- The telemetry join is meant to report the freshest SoC; a latest charger row without a SoC hides an
  older known one: `VehicleSoc.BlankHidesCharge`, with the condition in `VehicleSoc.JoinAgreesExactly`.
- `compute_next_run_at` finds the least firing after `now` exactly in the zones that pass dates:
  `ReportTiming.NextRunIsLeastExactly`. Report periods tile the calendar exactly when all firings of the
  schedule miss their dates by the same: `ReportTiming.PeriodsTileExactly`. In a zone that skips the last
  hour of a day a weekly schedule loses one day and reports another twice:
  `ReportTiming.SkippedHourLosesDay`.
- `most_recent_error` stops at the first old record, and the timestamp is taken outside the lock:
  `LogRing.OldRecordBreaks`, with the condition in `LogRing.ScanBack`. Readers take the time outside the lock
  too, so another thread can prune a record that the window still contains: `LogRing.LateReaderMisses`, with
  the condition in `LogRing.RingBuffer.GetRecords`.

## Model

| member | source | states |
|---|---|---|
| Calendar.MonthStartIsOrdinal | src/api/report_schedule_timing.py:142-145 | the day number of `datetime(year, month, 1)` in closed form equals counting month lengths one by one, leap years included, for every month |
| Calendar.FindMonth | src/api/report_schedule_timing.py:213-214 | the (year, month) of a local date is the unique month whose day range holds it |
| Calendar.DayNumberInverse | src/api/report_schedule_timing.py:142-145 | building a date from month and day and taking its month and day again gives them back |
| ReportTiming.FixedZonesAreCoherent | src/api/report_schedule_timing.py:134-145 | every fixed-offset zone is date-coherent |
| ReportTiming.ShiftBackIsCoherent | src/api/report_schedule_timing.py:142-145 | a zone whose clocks go back once is date-coherent under fold=0 |
| ReportTiming.ShiftForwardIsCoherent | src/api/report_schedule_timing.py:142-145 | a zone whose clocks go forward is date-coherent if and only if the gap and its image lie on one date |
| ReportTiming.LocalizeToUtc | src/api/report_schedule_timing.py:142-145 | the UTC instant of a wall-clock value on a calendar day, or an error for an impossible day |
| ReportTiming.NextByMonth | src/api/report_schedule_timing.py:200-225 | the year/month loop with its December roll-over is the month scan over consecutive month numbers |
| ReportTiming.ComputeNextRun | src/api/report_schedule_timing.py:153-197 | dispatch over frequency, after the naive-clock and unknown-timezone errors, with the missing-day and unknown-frequency errors |
| ReportTiming.MonthlyFires | src/api/report_schedule_timing.py:200-225 | for days 1..28 the 60-step guard is never reached; the scan stops at the first allowed month whose firing is after `now` |
| ReportTiming.NextRunIsLater | src/api/report_schedule_timing.py:142-225 | for every valid cadence and every zone with offsets within a day the result exists, is strictly after `now` and falls on a firing day |
| ReportTiming.FiresOnMeans | src/api/report_schedule_timing.py:148-150 | a weekly cadence fires on the days whose number leaves its Sunday-based weekday modulo 7, a monthly one on its day of the month, a quarterly one in months that start a quarter |
| ReportTiming.NextRunOnCalendar | src/api/report_schedule_timing.py:142-225 | the result in plain numbers: after `now`, at the wall-clock time of the schedule, on its weekday or its day of an allowed month |
| ReportTiming.NextRunIsLeast | src/api/report_schedule_timing.py:142-225 | in a zone that passes dates no firing after `now` precedes the result |
| ReportTiming.NextRunIsLeastExactly | src/api/report_schedule_timing.py:142-225 | the least firing is found for all cadences and instants if and only if the zone passes dates |
| ReportTiming.PreviousMonthIsWhole | src/api/report_schedule_timing.py:52-66 | the monthly period is exactly the calendar month before |
| ReportTiming.PreviousQuarterIsWhole | src/api/report_schedule_timing.py:68-101 | the quarterly period is exactly the three months before the current quarter, across year ends |
| ReportTiming.AdvanceRises | src/api/report_schedules.py:1236-1273 | advancing from a handled slot always moves to a later one |
| ReportTiming.ChainRises | src/api/report_schedules.py:1236-1273 | the chain of slots is strictly increasing, so a slot names its place |
| ReportTiming.SlotStep | src/api/report_schedules.py:1236-1273 | in every zone each advance moves by exactly one week, month or quarter of the wall calendar |
| ReportTiming.PeriodFollows | src/api/report_schedule_timing.py:76-101 | the period of the next firing date starts the day after this one ends |
| ReportTiming.AdjacentExactly | src/api/report_schedule_timing.py:76-101 | two dates report adjacent, non-empty periods if and only if they lie one week, month or quarter apart |
| ReportTiming.PeriodsTile | src/api/report_schedules.py:861-873 | in a zone that keeps dates the periods of successive slots tile the calendar |
| ReportTiming.PeriodsTileExactly | src/api/report_schedules.py:861-873 | in every zone the periods of a schedule tile the calendar if and only if all its firings miss their dates by the same number of days, months or quarters |
| ReportTiming.SkippedHourLosesDay | src/api/report_schedules.py:861-873 | for every date, in a zone that skips its last hour, a weekly schedule at work that reports the day a week before in no slot and the date itself in two |
| ReportTiming.DayIsReportedOnce | src/api/report_schedules.py:861-873 | every day from the first reported one on is covered by exactly one slot |
| ReportEngine.FindRun | src/api/report_schedules.py:1171-1184 | finds the row of a (schedule, slot) pair exactly when there is one |
| ReportSlots.RunKeeps | src/api/report_schedules.py:1105-1273 | the slot invariant holds after every run of workers, approvers, crashes, takeovers and callbacks |
| ReportSlots.SlotIsClaimedOnce | src/api/report_schedules.py:382-403 | in every run a (schedule, slot) pair has at most one run row |
| ReportSlots.NoSlotIsDropped | src/api/report_schedules.py:1105-1273 | `next_run_at` is always a slot of the chain and every slot before it has a completed run, with overlap and unconditional advances included |
| ReportDue.ClaimsWereDue | src/api/report_schedules.py:1115-1125 | no slot is claimed before it is due: every run row was listed by a tick whose clock had reached its slot |
| ReportDue.NeverStuck | src/api/report_schedules.py:1105-1273 | from every reachable state, whatever crashed, some continuation handles the next slot of a schedule and moves it to the slot after |
| ReportDue.AdvanceMoves | src/api/report_schedules.py:1253-1262 | a worker that executed a slot puts the schedule to the slot after it, wherever it stood |
| ReportDue.AdvanceWaits | src/api/report_schedules.py:1263-1273 | a worker that only found the slot finished leaves a schedule alone that has moved on |
| ReportSlots.ClaimsArePrefix | src/api/report_schedules.py:1105-1273 | claimed slots form a prefix of the chain, and all before a claimed one are completed |
| ReportSlots.OneOpenRun | src/api/report_schedules.py:1138-1231 | a schedule never has two unfinished runs |
| ReportSlots.CalendarRises | src/api/report_schedules.py:1236-1244 | the theorems' rising-slots hypothesis holds for every plan made by the calendar functions |
| ReportApproval.WaitingHasDraft | src/api/report_schedules.py:903-934 | a run is `pending_approval` only while a proposed draft with its run id exists under its own key |
| ReportApproval.DraftsAreUnique | src/api/report_schedules.py:562-611 | no two drafts share a (schedule, period start) |
| ReportApproval.WaitsOnce | src/api/report_schedules.py:983-1045 | a run leaves `pending_approval` at most once and never returns, overlap included, and has left it exactly when it was proposed and does not wait |
| ReportApproval.ApprovalIsDelivered | src/api/report_schedules.py:1003-1032 | the approving statement is reached only when every recipient read has a `sent` row |
| ReportRelease.ApprovalCanSucceed | src/api/report_schedules.py:983-1032 | from every reachable state a waiting run can be approved: for any recipients, if the mail is accepted it ends `succeeded` with its report |
| ReportRelease.UndeliveredWaits | src/api/report_schedules.py:1003-1032 | an approval without a report, or whose mail was not all accepted, leaves the run waiting |
| ReportRelease.ProposalWaitsExactly | src/api/report_schedules.py:903-934 | a proposal waits if and only if no draft holds its (schedule, period) key, and is skipped otherwise |
| ReportRelease.NotifyLeavesDraft | src/api/report_schedules.py:947-980 | after its deliveries an `auto_notify` run leaves a draft under its key and succeeds |
| ReportModes.MailIsReleased | src/api/report_schedules.py:838-980 | in every run mail goes out only for a run that some execution read as automatic or a user opened for approval |
| ReportModes.OutcomeHasCause | src/api/report_schedules.py:838-980 | in every run each outcome has its cause: succeeded an automatic mode or an approval, waiting a proposal, skipped a shadow or proposed mode, failed a failure; succeeded and waiting runs have a report |
| ReportModes.DraftHasCause | src/api/report_schedules.py:903-967 | pending drafts come from proposals, executed ones from runs that notify; silent runs leave none |
| ReportModes.ShadowIsSkipped | src/api/report_schedules.py:863-871 | an execution that reads `shadow` ends its row skipped without a report and touches neither mail nor ledger nor drafts |
| ReportModes.CausesAreReal | src/api/report_schedules.py:838-1045 | what is counted as a mode, an approval or a failure happened in the run |
| ReportDelivery.ApprovedMeansDelivered | src/api/report_schedules.py:983-1032 | without overlap a waiting run becomes `succeeded` only by that statement, with every recipient read sent |
| ReportDelivery.MailedOnce | src/api/report_schedules.py:742-814 | without overlap, accepted mail per run and recipient is at most one plus interrupted executions plus lost acknowledgements, across worker and approval retries |
| ReportLedger.SentMeansAccepted | src/api/report_schedules.py:790-813 | in every run a `sent` row stands for mail that the provider accepted |
| ReportLedger.PassIsComplete | src/api/report_schedules.py:776-813 | in every run a pass with nobody left to send to has a row for every recipient it read |
| ReportLedger.LossesWereAccepted | src/api/report_schedules.py:776-813 | interrupted mail and lost acknowledgements are accepted mail, each counted once |
| ReportResume.GeneratedOnce | src/api/report_schedules.py:876-901 | without overlap nobody generates a report for a run that has one |
| ReportResume.ReportIsKept | src/api/report_schedules.py:452-464 | without overlap the saved report of an open run stays until the run ends, and is dropped only with a failed or skipped run |
| ReportExclusive.NeverOverlapsExactly | src/api/report_schedules.py:1165-1202 | the hypothesis of the no-overlap theorems holds of a run if and only if no takeover succeeds and no approval starts on a run that some process is executing |
| ReportExclusive.StartIsFresh | src/api/report_schedules.py:1171-1184 | a claim or takeover stamps the run, so that for an hour no worker whose clock is not ahead can take it over |
| ReportExclusive.StartsAreCounted | src/api/report_schedules.py:1134-1202 | executions started are exactly the successful claims, takeovers and approvals |
| ReportMail.MailWithinStarts | src/api/report_schedules.py:742-814 | in every run, overlap included, accepted mail per run and recipient never exceeds the claims, takeovers and approvals of that run |
| ReportDelivery.OutcomeIsFinal | src/api/report_schedules.py:1138-1231 | without overlap a completed row never changes except by approving or rejecting a waiting run |
| ReportOutcome.OutcomeIsFinalExactly | src/api/report_schedules.py:431-449 | in every reachable state the row of an ended run stays as it is in every continuation if and only if no worker executes the run, or the run failed and every such worker is about to fail it again |
| ReportOutcome.WaitingIsResolvedExactly | src/api/report_schedules.py:983-1045 | in every reachable state a waiting run leaves `pending_approval` only by approval or rejection in every continuation if and only if no worker executes it |
| ReportOverlap.OverlapOverwritesApproval | src/api/report_schedules.py:1171-1215 | for every plan, a run in which a worker that stalls for an hour overwrites an approved run with `skipped` |
| ReportDrafts.CalendarPeriodsDiffer | src/api/report_schedules.py:861-873 | in a zone that keeps dates different slots of a schedule have different draft keys |
| ReportDrafts.CalendarWorldDiffers | src/api/report_schedules.py:861-873 | schedules with valid cadences in zones that keep dates meet that hypothesis |
| ReportDrafts.DraftIsOwn | src/api/report_schedules.py:562-611 | in every run of schedules whose slots have different periods, a draft found under a run's key was written for that very run |
| RecipientLoop.DeliveryLedger.DeliverToRecipients | src/api/report_schedules.py:742-814 | a pass appends one row per recipient without a `sent` row, in order; a recipient is recorded as sent exactly if it was or its mail is accepted, rows keep a provider id exactly when sent, and the flag is true exactly when every recipient was sent or accepted |
| RecipientLoop.PassAppend | src/api/report_schedules.py:776-813 | one more recipient adds one attempt if it was unsent and none otherwise |
| RecipientLoop.PassAttempts | src/api/report_schedules.py:776-813 | a pass holds a row exactly for the recipients not sent before, `sent` with a provider id if accepted and failed without one otherwise |
| DeliveryWebhook.Ledger.AppendFromWebhook | src/api/report_schedules.py:1051-1099 | a callback appends a copy of the message's latest row under the mapped status, drops good news after bad, and reports whether the message is known |
| DeliveryWebhook.Polarity | src/api/report_schedules.py:1051-1099 | after any callbacks the latest status is negative exactly when it was at first or some callback of the message was |
| DeliveryWebhook.WordsMean | src/api/report_schedule_timing.py:38-45 | which ledger status each word of the provider means, unknown words included |
| DeliveryWebhook.PolarityOfWords | src/api/report_schedules.py:1051-1099 | the latest status of a sent message is negative exactly when some callback said anything else than `sent` or `delivered` |
| DeliveryWebhook.CallbackMeans | src/api/report_schedules.py:1070-1099 | a callback leaves the latest row of its message under the new status, or as it was if that is good news after bad; other messages and older rows are untouched |
| DeliveryWebhook.OrderDoesNotMatter | src/api/report_schedules.py:1060-1069 | every permutation of the callbacks ends with the same polarity |
| DeliveryWebhook.UninterruptedIsAppend | src/api/report_schedules.py:1070-1099 | a read followed directly by its insert does to the ledger what the whole callback does |
| DeliveryWebhook.StepHidesExactly | src/api/report_schedules.py:1070-1099 | one statement makes an honest ledger dishonest if and only if it inserts good news, read before a bounce was written, over that bounce |
| DeliveryWebhook.AlwaysHonestExactly | src/api/main.py:15130-15147 | for every honest ledger and every interleaving of callbacks, the latest status shows every bounce at every moment if and only if no insert does that |
| DeliveryWebhook.RaceHidesBounce | src/api/main.py:15130-15147 | for every sent row, two interleaved callbacks after which the latest status is `sent` with a bounce in the ledger |
| PriceFill.LatestIsLatest | src/db/queries.py:519-529 | the fill of an hour is the price of the latest priced row in its window over the whole table |
| PriceFill.LatestNeedsPrice | src/db/queries.py:519-529 | an hour without a priced row in its window has no fill |
| PriceFill.QueryHoldsFill | src/db/queries.py:484-499 | the truncated fetch range loses no row that a requested hour's fill needs |
| PriceFill.BreakIsSafe | src/db/queries.py:522-526 | stopping at the first later row does not change the candidate |
| PriceFill.Candidate | src/db/queries.py:521-526 | the inner loop yields the last known price within the window |
| PriceFill.FetchPricesByZone | src/db/queries.py:422-531 | the result has exactly the hours of the window that have a fill, each with its whole-table fill |
| PriceFill.WindowMeans | src/db/queries.py:30-33 | the hours of a request are exactly the full hours that overlap it, the one that contains its start included |
| PriceFill.InstantHasBucket | src/db/queries.py:513-519 | every instant of a request has its hour in the window |
| PriceFill.RequestsAgree | src/db/queries.py:473-531 | two requests that share an hour give it the same value, whatever their start and end |
| PriceFill.InsertKeepsRows | src/db/queries.py:677-685 | write-back never changes or removes a stored (time, zone, market) row |
| PriceFill.InsertAddsAbsent | src/db/queries.py:661-685 | what is new is exactly the absent pulled rows, each with the first price pulled for it |
| PriceFill.PulledIsPrice | src/db/queries.py:661-685 | a price pulled for an hour without a row is the price of that hour, in the unit it was pulled in |
| PriceFill.AbsentIsEnough | src/db/queries.py:646-685 | filtering by the existence check first gives the same table as inserting everything |
| PriceFill.PullAddsAbsent | src/db/queries.py:646-685 | while other writers only add rows, the write-back adds exactly the absent pulled rows although it was checked on an older table |
| PriceFill.PullKeepsCoverage | src/db/queries.py:579-701 | an hour covered before a pull is covered after it, whatever rows other writers add in between |
| PriceFill.NewRowsMoveFill | src/db/queries.py:519-529 | added rows move the fill of an hour exactly when one lies after its source row, and then to the latest such row |
| PriceFill.PriceStore.FetchOrPull | src/db/queries.py:534-701 | pulls exactly when an hour is missing, a token is set and ENTSO-E answers with rows; with arbitrary other writers during the call, before and after the insert it adds exactly the rows absent at its check and returns the fill of the final table |
| PriceFill.PriceStore.StoreNew | src/db/queries.py:677-685 | the insert loop is insert-if-absent of each row in order |
| PriceFill.AnyMissing | src/db/queries.py:589-597 | true exactly when some hour of the window has no price |
| PriceCache.ExpectedAreWindow | src/core/billing/session_cost.py:630-637 | the expected buckets are exactly the hours of the window |
| PriceCache.ExpectedMeans | src/core/billing/session_cost.py:630-637 | the expected buckets are exactly the full hours that overlap the request |
| PriceCache.LruPriceLookup.Put | scripts/backfill_session_cost.py:227-233 | keeps the bound and every other surviving entry; the latest entries that fit stay cached |
| PriceCache.LruPriceLookup.Evict | scripts/backfill_session_cost.py:232-233 | drops exactly the least recently used entry |
| PriceCache.LruPriceLookup.Store | scripts/backfill_session_cost.py:219-221 | stored hours have their new price and all other entries their old one; a request that fits the bound is cached completely |
| PriceCache.LruPriceLookup.Hits | scripts/backfill_session_cost.py:209-215 | cached hours are answered and become the most recently used ones, in order |
| PriceCache.LruPriceLookup.Lookup | scripts/backfill_session_cost.py:186-225 | on any bounded cache, stale entries included: all hours cached gives the cached prices and leaves the table; otherwise the table is that of the uncached read-through and the requested entries are renewed; a request of at most `max_entries` hours is answered like the uncached one if and only if all its hours are cached at their price, or some is not and no cached one has lost its price |
| PriceCache.LruPriceLookup.WrongExactly | scripts/backfill_session_cost.py:186-233 | over any history of lookups, with other writers adding rows in between, an entry is wrong if and only if a row that arrived since it was stored decides its hour |
| PriceCache.LruPriceLookup.TracedAnswer | scripts/backfill_session_cost.py:186-225 | over any such history the table is that of the uncached lookup and a fitting answer is wrong exactly when every hour was cached and a row that arrived since decides one of them |
| PriceCache.TracedStays | scripts/backfill_session_cost.py:186-225 | rows added by other writers keep what the cache knows of its entries |
| PriceCache.EntryStaysExactly | scripts/backfill_session_cost.py:206-225 | when rows are added, a cached price stays right if and only if none of them decides its hour with another price |
| PriceCache.HourlyDisturbsExactly | scripts/backfill_session_cost.py:206-225 | with hourly rows everywhere, a pull makes the price of an hour wrong if and only if it is of the same zone, the table had no row for the hour and the first price pulled for it differs |
| PriceCache.QuarterHourDisturbs | scripts/backfill_session_cost.py:206-225 | a request that pulls a quarter-hour row in its own window and so makes the price of the next hour, outside the request, wrong |
| PriceCache.RowOutsideDisturbs | src/adapters/entsoe/prices.py:405-489 | a request whose answer holds an hourly row outside its window, which makes the price of that hour wrong |
| SessionBackfill.SelectChunk | scripts/backfill_session_cost.py:111-136 | the lowest candidates above the cursor, in order, up to the limit |
| SessionBackfill.Backfill | scripts/backfill_session_cost.py:361-472 | with candidates changing between chunks: each session at most once, `max_rows` and the batch size respected, every non-nil steady candidate processed by a run that does not use up its rows, termination |
| AlertLifecycle.AlertTable.UpsertAlert | src/notifications/alerts.py:305-354 | afterwards the key has exactly one open alert, the returned one, which counts every raise since it was opened; the table stays what its history leads to |
| AlertLifecycle.AlertTable.AcknowledgeAlert | src/notifications/alerts.py:277-302 | exactly an active alert is acknowledged, it stays the one open alert of its key with its count, and the table stays what its history leads to |
| AlertLifecycle.AlertTable.AcknowledgeAlertForOrg | src/notifications/alerts.py:522-578 | the same for an alert of the given organisation only |
| AlertLifecycle.AlertTable.ResolveAlert | src/notifications/alerts.py:357-385 | afterwards the key has no open alert and its counts are frozen; says whether there was one; the table stays what its history leads to |
| AlertLifecycle.AlertTable.ResolveAlertById | src/notifications/alerts.py:581-645 | exactly an open alert of the organisation is closed, so that its key has no open alert; the table stays what its history leads to |
| AlertLifecycle.OneOpenPerKey | src/notifications/alerts.py:305-385 | after any statements a (organisation, key) has at most one open alert |
| AlertLifecycle.OccurrencesCount | src/notifications/alerts.py:305-354 | `occurrence_count` is the number of upserts of the key from the row's opening to its resolution |
| AlertLifecycle.StatusFollows | src/notifications/alerts.py:277-385 | the history decides every status: opened active by a raise of its key, acknowledged exactly after an acknowledgement, resolved exactly by the first statement that closes it |
| AlertLifecycle.StatusOnlyAdvances | src/notifications/alerts.py:277-385 | one statement never changes a resolved row and never makes an acknowledged one active |
| AlertLifecycle.StatusOnlyAdvancesOver | src/notifications/alerts.py:522-645 | the same over every sequence of statements |
| AlertDispatcher.NotificationsAreSpaced | src/notifications/alerts.py:156-202 | over every run with crashes the notifications of an alert are more than the resend interval apart |
| AlertDispatcher.OnlyActiveIsNotified | src/notifications/alerts.py:156-181 | an alert is never notified more often than it was claimed while active |
| AlertDispatcher.DueAlertIsNotified | src/notifications/dispatcher.py:209-305 | an active alert whose interval has passed can be notified, and then every recipient gets exactly one e-mail and one ledger row for it |
| AlertDispatcher.MailWithinCount | src/notifications/dispatcher.py:209-305 | e-mails to one recipient about an alert never exceed `last_notified_count` |
| AlertDispatcher.LedgerNeverConflicts | src/notifications/alerts.py:393-425 | one row per (alert, recipient, count), and the unique key never has to refuse an insert |
| ChargerLogImport.StatusMoves | src/api/charger_logs.py:139-179 | every statement of every actor moves an import along the allowed edges only; terminal rows are untouched |
| ChargerLogImport.MovesRise | src/api/charger_logs.py:139-179 | the allowed moves only lead forward |
| ChargerLogImport.UploadMeans | src/api/charger_logs.py:110-179 | an upload is accepted exactly if its size, import, token and status allow it, and each refusal has its answer |
| ChargerLogImport.ChargerMeans | src/websocket_handler/charging_profile_manager.py:1535-1571 | acknowledgement, failure and expiry move an import exactly while it is requested or uploading, and never once it was received |
| ChargerLogImport.PayloadWasUploaded | src/api/charger_logs.py:164-179 | an import holds a payload only after exactly one accepted upload |
| ChargerLogImport.PipelineReconciles | src/api/charger_logs.py:405-425 | one pipeline on a received import of a session with a log that parses ends reconciled, with its entries and its result stored |
| ChargerLogImport.ParsingDecides | src/api/charger_logs.py:229-258 | a log that does not parse fails the import; without a parser it stays received |
| ChargerLogImport.ReconcilingFinishes | src/api/charger_logs.py:367-402 | reconciling writes a result for parsed and failed imports of a session and advances parsed ones only |
| ChargerLogImport.ThrowingFails | src/api/charger_logs.py:426-443 | a pipeline that throws fails its import unless that is terminal already |
| ChargerLogImport.TerminalStays | src/api/charger_logs.py:465-479 | over every run terminal imports stay as they are and past-received ones stay past received |
| ChargerLogImport.PayloadIsThere | src/api/charger_logs.py:205-231 | from `received` on the payload is present, so the NULL-payload branch is dead |
| ChargerLogImport.EntriesFollowParse | src/api/charger_logs.py:278-335 | log entries exist only for imports past `received` |
| ChargerLogImport.ReconciledHasResult | src/api/charger_logs.py:355-402 | an import is `reconciled` only after its reconciliation row was written |
| ChargerLogImport.StoredOnceExactly | src/api/charger_logs.py:205-325 | in every reachable state repeated pipelines store the entries of an import at most once in every continuation if and only if it can never be received, or is closed with at most one batch stored or about to be |
| ChargerLogImport.OverlapStoresTwice | src/api/charger_logs.py:205-325 | from every received state, two further calls of the pipeline that store every entry twice |
| ChargerLogImport.UploadsStoreOnce | src/api/main.py:10849-10875 | when pipelines are started by accepted uploads only, one each, the entries of an import are stored at most once in every run |
| LivenessHub.Queue.Offer | src/api/liveness_hub.py:259-268 | appends, giving up the oldest entry of a full queue |
| LivenessHub.Queue.Drain | src/api/liveness_hub.py:113-124 | takes the oldest entry; what has been taken stays an in-order subsequence of what was sent, after `stop` too |
| LivenessHub.OfferKeeps | src/api/liveness_hub.py:259-268 | a bounded queue that follows its events still follows them after one more, losing entries only when full |
| LivenessHub.Hub.Subscribe | src/api/liveness_hub.py:113-124 | a fresh empty queue registered under its organisation from this point of the history on |
| LivenessHub.Hub.Unsubscribe | src/api/liveness_hub.py:126-133 | removes exactly that queue; empty buckets disappear |
| LivenessHub.Hub.OnNotify | src/api/liveness_hub.py:215-270 | every registered queue stays a suffix of at most 50 of its own organisation's events since subscription; no other queue changes |
| LivenessHub.Hub.Drain | src/api/liveness_hub.py:113-124 | draining keeps the hub's invariant |
| LivenessHub.Hub.BeginStop | src/api/liveness_hub.py:87-97 | only a running hub goes on to close its queues |
| LivenessHub.Hub.FinishStop | src/api/liveness_hub.py:98-111 | whatever happened while `stop` waited, every queue registered by then gets the sentinel last and is forgotten |
| LivenessHub.Hub.Stop | src/api/liveness_hub.py:87-111 | a running hub puts the sentinel last into every registered queue and forgets them; a stopped one does nothing |
| LivenessHub.Hub.GetLastInteraction | src/api/liveness_hub.py:200-213 | the instant of the last notification that reports on the station, or nothing |
| LivenessHub.CacheFollows | src/api/liveness_hub.py:228-240 | updating the cache on a notification keeps it equal to the last report of every station |
| LogRing.RingBuffer.Emit | src/observability/log_buffer.py:137-155 | the ring stays a suffix of the history that lost only records beyond the count or the age cap |
| LogRing.RingBuffer.Prune | src/observability/log_buffer.py:157-164 | dropping old records from the front keeps that |
| LogRing.RingBuffer.GetRecords | src/observability/log_buffer.py:166-170 | the answer is the whole history cut to the last `max_records` and filtered by age if and only if no record of the window was pruned; a window no longer than the age cap, read no earlier than the last pruning, is such |
| LogRing.LateReaderMisses | src/observability/log_buffer.py:166-170 | a reader whose time was taken before another thread pruned, and the record it misses |
| LogRing.RingBuffer.MostRecentError | src/observability/log_buffer.py:172-187 | for such a window it returns the last error of the cut and filtered history if and only if no record after that error is older than the window; without a window the last error of the ring |
| LogRing.ScanBack | src/observability/log_buffer.py:180-187 | the backward scan with early exit finds the last error inside the cutoff if and only if every record after it is inside too |
| LogRing.RingBuffer.OrderedIsUnbroken | src/observability/log_buffer.py:137-155 | records emitted in the order of their timestamps meet that condition |
| LogRing.OldRecordBreaks | src/observability/log_buffer.py:180-187 | two records out of order on which the early exit misses the error |
| EnergyReport.AccumulateAdds | src/api/reports.py:143-156 | accumulating a session adds its own contribution to all seven fields |
| EnergyReport.TotalMeans | src/api/reports.py:143-156 | the seven accumulators are plain sums over the sessions: energy, energy of ended sessions, count, hours, costs, sessions without a cost and their energy |
| EnergyReport.GroupMeans | src/api/reports.py:41-76 | the group of a session column by column; a card goes by label, then tag, then id |
| EnergyReport.RowMeans | src/api/reports.py:222-235 | a session belongs to the row of its local month and group and to no other |
| EnergyReport.WindowsAddUp | src/api/reports.py:107-127 | reports over adjacent windows add up: closed at the start, open at the end |
| EnergyReport.AggregateRows | src/api/reports.py:222-235 | one row per (month, group) that occurs, holding exactly the sum of its sessions |
| EnergyReport.ComputeTotals | src/api/reports.py:253-273 | the sum of all sessions of the window |
| EnergyReport.RowsAddUp | src/api/reports.py:189-273 | all seven accumulators of the rows sum to the totals for every grouping |
| EnergyReport.CostsAddUp | src/api/reports.py:159-186 | unrounded costs sum exactly and the totals are estimated exactly when a row is |
| EnergyReport.CostMeans | src/api/reports.py:159-186 | a row costs what its sessions cost, each its own cost or its energy at the rate, and is estimated exactly when one has none |
| EnergyReport.Round6 | src/api/reports.py:175-186 | the nearest millionth, halves to the even one |
| EnergyReport.RoundedCostsDrift | src/api/reports.py:159-186 | rounded rows miss the rounded total by at most half a unit per row plus half a unit |
| VehicleSoc.UnionIsFreshest | src/db/queries.py:138-157 | the union statement reports the freshest known charge, charger winning ties, whenever there is one |
| VehicleSoc.JoinIsFreshest | src/db/queries.py:177-225 | the join reports the freshest known charge unless the latest charger row is blank, and then reports no SoC |
| VehicleSoc.PlugIsLatest | src/db/queries.py:177-225 | power and plug columns come from a latest charger row in the window, and are missing without one |
| VehicleSoc.JoinAgreesExactly | src/db/queries.py:177-225 | with (vehicle, time) unique per feed both statements agree on a vehicle if and only if its latest charger row in the window has a SoC or a newer telematics row exists |
| VehicleSoc.JoinAgrees | src/db/queries.py:138-225 | with no blank charger row in the window they agree on every vehicle |
| VehicleSoc.BlankHidesCharge | src/db/queries.py:177-225 | two charger rows on which the statements differ |

## Left out

- Python's `datetime` range (years 1 to 9999) and its overflow errors: days and years are unbounded.
- Schedule edits, deletion and deactivation, manual runs and payload validation: a schedule's cadence is fixed during a run.
- The `last_run_at` and `last_run_status` summary columns of a schedule.
- Deleting a recipient, which clears `recipient_id` in the ledger: recipients keep their ids.
- The depot in the draft key, because a schedule belongs to one depot.
- The report engine, the dispatcher and the import pipelines are step functions on table values, not objects updated in place: their theorems range over interleavings of several tasks.
- ReportDelivery.MailedOnce: counts a lost acknowledgement (mail accepted, error reported) separately, because the ledger cannot tell it from a refusal.
- ReportDelivery.OutcomeIsFinal: assumes that executions of one run never overlap; the exact conditions with overlap are in ReportOutcome.
- DeliveryWebhook.Polarity: takes ledger rows in order of `attempted_at` and handles one callback at a time; interleaved callbacks are in AlwaysHonestExactly.
- RecipientLoop.DeliveryLedger.DeliverToRecipients: runs one pass without interference; interference is part of the engine.
- PriceCache.LruPriceLookup.Lookup: other writers of the table are not at work during a lookup, and a negative bound is not modelled.
- SessionBackfill.Backfill: the candidate predicate is an arbitrary set per chunk; resolving sites and computing and writing a cost are not modelled, and a negative LIMIT reads as zero.
- AlertDispatcher: delivery status and rendering; the set of alerts in flight is the domain of the running tasks, and a count that outgrows its SMALLINT column makes the task fail.
- AlertLifecycle: alert text, severity and the probe for an optional column.
- ChargerLogImport: token signatures, file contents and reconciliation results; the parser's answer is a choice of the run.
- LivenessHub: reconnecting the LISTEN task and JSON decoding.
- LivenessHub.Hub.Stop: runs its two halves without interruption; what may happen while it waits is covered by BeginStop and FinishStop.
- EnergyReport.AggregateRows: leaves out the order and the rendering of rows, average power and the unsupported-grouping error; the local month of an instant is a function of the query.
- VehicleSoc.JoinAgreesExactly: assumes one row per vehicle and time in each feed, since the statements pick arbitrarily among ties.
- Floating-point rounding: sums are exact reals and only the final rounding to six places is modelled.
- Security, HTTP and e-mail clients, optimisation, PDF and CSV rendering: not part of this model.
