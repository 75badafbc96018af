# Anime tracking bot: verified state machines

The bot tells chat groups which anime air, which releases are out, and what a day brought. Around that sit a rate
limiter, a durable outbox with leases, a release pipeline, link discovery with a search budget, versioned group
policies, an operator job queue, polls, a broadcast calendar and a status monitor. This project models these parts in
Dafny and proves what they keep over every call, every run and every interleaving.

Conventions. Time is an integer number of microseconds; a time zone is a fixed offset. A database table is a map or a
sequence, and one transaction is one atomic step over it. Where the code updates rows, deques or dictionaries in place
there is a class whose methods do the same. Each is proved against a step function or relation on values (`Step` of the
outbox and of the operator jobs, `Advance` of the policies, `Decide` of the rate limiter, `Steps` of the polls) or
against predicates over the tables before and after; the theorems are about those, and about every sequence of steps.
What a query may answer (a listing in some order, any row that is not locked) is a parameter restrained by a
predicate, and calls that may raise are parameters too, so the theorems cover every answer and every interruption.

| file | models |
|---|---|
| `SendHistory.dfy`, `SendLimits.dfy`, `SendGovernor.dfy` | the rate limiter that forgets nothing and its theorems; what its answers mean limit by limit; the deques and dictionaries that refine it |
| `Outbox.dfy`, `Dispatcher.dfy` | the job table with leases; its single consumer, with every exception path |
| `MikanRules.dfy`, `MikanPipeline.dfy` | episode numbers, filters and shares; ingestion, batches, planning, backoff |
| `Discovery.dfy` | one discovery pass, its search budget and its cursor |
| `OperatorJobs.dfy`, `Policy.dfy` | owner-checked jobs; interleaved versioned policy updates |
| `ScheduleBoard.dfy`, `DailyDigest.dfy` | the calendar and the choice of a source; the digest clock and planner |
| `Sorting.dfy`, `Sequences.dfy`, `Identifiers.dfy`, `Durations.dfy`, `Options.dfy` | Python's sort, and what several parts share |
| `Polls.dfy`, `StatusTracker.dfy`, `GroupOrigin.dfy` | tallies; the status tracker and its bounded log; the origin register |

## Findings

These are properties one might expect that the code does not have. Each is stated exactly, by the members named.

- A job whose delivery was recorded as sent becomes pending again when a later bookkeeping call raises, because the
  catch-all in `_tick` completes it once more as a retry. Sent is final, and no lease has two attempt rows, exactly in
  the runs where this does not happen (`Dispatcher.SentIsFinalIffBooksKept`, `Dispatcher.OneRowPerLeaseIffBooksKept`);
  `Dispatcher.SentCanBeUndone` is such a run. In the same way a job that an administrator cancels while its bookkeeping
  runs comes back; cancelled is final exactly where that does not happen (`Dispatcher.CancelledIsFinalIffBooksKept`,
  `Dispatcher.CancelCanBeUndone`).
- A message that went out is not always recorded as sent. After every history its job is sent exactly if the completion
  was stored and the catch-all did not take that back, still leased exactly if neither completion could be stored, and
  otherwise pending, to be sent again after the retry delay (`Dispatcher.SentMessageIsRepeatedIff`,
  `Dispatcher.MessageCanGoOutTwice`). A job left leased is returned once its lease has expired
  (`Dispatcher.LostLeaseIsReturned`). Here "went out" means that the call that sends returned. A message that gets
  through although the call fails is not covered by this; if the call times out, the job is retried like any other
  (`Dispatcher.TimeoutIsRetried`).
- An administrator's policy change is validated against the policy of that moment, not against the version it names.
  A caller that names a version which does not exist yet can bring about a digest schedule that cannot be constructed
  (`Policy.AheadRunBreaks`); naming a version that exists is always safe, and nothing else is
  (`Policy.SafeIffReadEarlier`). Where the digest is enabled, every pass of the planner then raises there, and the groups
  after it are not planned (`DailyDigest.ContentPlanner.PlanDue`).
- An administrator's decision about a notification is read and written without a lock. Written over whatever the row
  has become since, it leaves the row consistent exactly when the job is not leased by then
  (`Outbox.LateDecisionFitsIff`, `Outbox.LeaseBeforeDecision`). A consistent row is not all: a late readmission makes a
  job that waits after a retry result due before its delay is over, exactly when it is written before that
  (`Outbox.LateRetryKeepsDelayIff`, `Outbox.DelayBeforeDecision`), so that then `Outbox.BackoffLasts` does not hold.
- A release is in the digests exactly if its day's digest was first planned no earlier than the release
  (`DailyDigest.ReleaseIsReportedIff`). Under every schedule a digest can be due, and planned, while a release of its
  period is still to come, and that release is then never reported (`DailyDigest.LateReleasesCanBeLost`).
- The digest clock compares whole minutes, so the first minute of each period is counted to the day before
  (`DailyDigest.FirstMinuteBelongsToTheDayBefore`).
- Periods fit together across a change of the cutoff exactly when the cutoff stays where it is
  (`DailyDigest.PeriodsFitIffCutoffStays`). Moved to an earlier minute, the periods overlap, and a release can be
  reported on two days (`DailyDigest.MovedCutoffOverlapsIff`, `DailyDigest.ReportedTwiceIff`). Moved to a later minute,
  some instants are in neither period, and releases there are never reported once the day's digest has been planned
  (`DailyDigest.MovedCutoffLeavesGapIff`, `DailyDigest.GapIsNeverReported`).
- A batch that an interrupted planning had already announced to every group ends up suppressed, not planned: planning
  tells somebody exactly when the batch has not been served (`MikanPipeline.TellsIffUnserved`,
  `MikanPipeline.PlanAgain`).
- A batch of an episode later than the newest aired one is given up on exactly when some aired episode is available,
  and announced otherwise (`MikanPipeline.AheadOfScheduleIsDroppedIff`).
- The discovery cursor starts over exactly when a pass has neither a priority row nor an eligible row beyond the cursor
  (`Discovery.StartsOverIff`). Passes that each find a priority row put that off for as long as they do, and a row
  behind the cursor is left out throughout (`Discovery.StartCanBePutOff`). Without priority rows a sweep ends, as long
  as the limit is enough for the titles of the row it has come to (`Discovery.FirstRowMovesOn`, `Discovery.SweepsEnd`);
  with a smaller limit a row for which nothing is found is put off in every pass (`Discovery.NothingFoundDecidedIff`).
- Of two group events at the same instant the later arrival wins, so only distinct timestamps make the stored origin
  independent of the order (`GroupOrigin.OrderDoesNotMatter`, `GroupOrigin.TiesDependOnOrder`).

## Model

| member | source | states |
|---|---|---|
| SendHistory.AllowedIffEveryQuotaHasRoom | src/anime_qqbot/notifications/governor.py:90-150 | a request passes exactly when, for every limit that concerns it, fewer grants than the quota lie within the last interval |
| SendHistory.AllowedIffNothingBlocks | src/anime_qqbot/notifications/governor.py:73-80 | a request passes exactly when no limit that concerns it still waits |
| SendHistory.BlocksIffQuotaUsed | src/anime_qqbot/notifications/governor.py:92-149 | a limit blocks exactly when its quota is used up in the interval that ends now |
| SendHistory.LongestIsFirstOfTheLongest | src/anime_qqbot/notifications/governor.py:77-77 | the reported reason is the first of those with the longest wait |
| SendHistory.GrantKeepsSpread | src/anime_qqbot/notifications/governor.py:90-161 | a grant keeps every hit of every limit one interval away from the hit one quota before it |
| SendHistory.QuotasHoldOverEveryRun | src/anime_qqbot/notifications/governor.py:73-161 | over every run of acquire and peek calls, any stretch of time as long as a limit's interval, wherever it starts, holds at most its quota of grants |
| SendHistory.EveryLimitHolds | src/anime_qqbot/notifications/governor.py:39-47 | the same for each configured limit by name: global burst, group, user, user per minute, proactive group, proactive per ten minutes |
| SendHistory.WaitIsExact | src/anime_qqbot/notifications/governor.py:75-79 | after a refusal with wait w and no grant in between, the same request is refused at every instant before now + w and allowed at every later one; the hint is w, or ten milliseconds if that is more |
| SendHistory.RefusalsLeaveNoTrace | src/anime_qqbot/notifications/governor.py:73-88 | dropping all peeks and all refused calls from a run changes neither the history nor any later answer |
| SendLimits.AllowedByName | src/anime_qqbot/notifications/governor.py:90-150 | a request passes exactly when, by name, there is room under the global burst and its group's interval, for a named user under both user limits, and for airing, release and content messages and no others under both proactive limits, counted in the grants alone |
| SendLimits.AllowedIffEveryLimitHasRoom | src/anime_qqbot/notifications/governor.py:73-80 | the same over all limits that concern the request |
| SendLimits.RefusalNamesItsLimit | src/anime_qqbot/notifications/governor.py:75-79 | a refusal names the limit that has room last, and of several such the one looked at first; that limit is full until exactly the wait is over, and all others have room by then; the hint is the wait, or ten milliseconds if that is more |
| SendLimits.RulesAreTheLimits | src/anime_qqbot/notifications/governor.py:90-149 | the limits looked at for a request are exactly those that concern it, in this order |
| SendGovernors.PrunedWindowAgrees | src/anime_qqbot/notifications/governor.py:123-127 | a pruned deque gives the same wait as the whole history, and a full one always gives a positive wait |
| SendGovernors.KeysNameBuckets | src/anime_qqbot/notifications/governor.py:152-161 | the dictionary keys a grant is recorded under are those of the limits it counts against, and no other |
| SendGovernors.SendGovernor.constructor | src/anime_qqbot/notifications/governor.py:58-71 | an empty governor stands for an empty history |
| SendGovernors.SendGovernor.Acquire | src/anime_qqbot/notifications/governor.py:73-80 | for every history, allowed, reason and hint are those of the governor that forgets nothing, as stated limit by limit in SendLimits, and a grant is added to the history exactly when it allows |
| SendGovernors.SendGovernor.Peek | src/anime_qqbot/notifications/governor.py:82-88 | the answer Acquire would give, with the history unchanged |
| SendGovernors.SendGovernor.WaitsFor | src/anime_qqbot/notifications/governor.py:90-150 | the positive waits are those of the unpruned history, in the same order, and if there is none every deque to be recorded in has room |
| SendGovernors.SendGovernor.SharedWaits | src/anime_qqbot/notifications/governor.py:91-111 | the part of the waits all requests share |
| SendGovernors.SendGovernor.UserWaits | src/anime_qqbot/notifications/governor.py:112-127 | the part of the waits for a named user, after those so far |
| SendGovernors.SendGovernor.ProactiveWaits | src/anime_qqbot/notifications/governor.py:128-149 | the part of the waits for proactive messages, after those so far |
| SendGovernors.SendGovernor.Record | src/anime_qqbot/notifications/governor.py:152-161 | all deques and last instants agree with the history that has one more grant |
| SendGovernors.SendGovernor.Prune | src/anime_qqbot/notifications/governor.py:163-166 | exactly a prefix of entries up to the cutoff is dropped, and what remains starts after the cutoff |
| Outbox.ReachableTablesAreConsistent | src/anime_qqbot/application/use_cases.py:874-997 | in every reachable table business keys are unique per group and kind, a job is leased exactly when both lease fields are set, and no job rests in status retry |
| Outbox.AttemptCountCountsClaims | src/anime_qqbot/application/use_cases.py:895-939 | a job's attempt counter is the number of leases taken on it, over every interleaving of all steps |
| Outbox.LeaseLasts | src/anime_qqbot/application/use_cases.py:942-997 | a lease stands until the job is completed or an expiry finds it older than its timeout |
| Outbox.ClaimsAreSeparated | src/anime_qqbot/application/use_cases.py:874-997 | between two leases of one job there is a completion of it, or an expiry more than the timeout after the first lease |
| Outbox.BackoffLasts | src/anime_qqbot/application/use_cases.py:951-973 | after a retry result the job keeps its new instant until it is completed again; neither expiry nor administrator moves it |
| Outbox.RetriesBackOff | src/anime_qqbot/application/use_cases.py:951-973 | a lease after a retry result, without another completion in between, is at least thirty seconds later |
| Outbox.AudienceIsFrozenOnceDue | src/anime_qqbot/notifications/outbox.py:138-185 | no step changes a job's group, kind or key; only its audience ever changes, it only grows, and only while the job is pending and not due |
| Outbox.EnqueuedIff | src/anime_qqbot/notifications/outbox.py:54-99 | a job is stored, pending and without a lease, exactly if its group has none of that kind and key |
| Outbox.LeasedOnlyInItsTime | src/anime_qqbot/application/use_cases.py:921-935 | a claim leases exactly a pending job whose time has come and is not over; an expired job is never leased |
| Outbox.CompletionMeans | src/anime_qqbot/application/use_cases.py:951-973 | sent, failed and unknown are stored as reported, a retry as pending for half a minute, in every case without a lease and with one attempt row |
| Outbox.ReturnedIff | src/anime_qqbot/application/use_cases.py:976-997 | a lease is returned exactly if it is older than the timeout |
| Outbox.ReadmittedIff | src/anime_qqbot/application/admin_service.py:1312-1320 | exactly failed jobs are readmitted, and unknown ones if that is confirmed, and are due at once |
| Outbox.CancelledIff | src/anime_qqbot/application/admin_service.py:1321-1324 | exactly jobs that are neither leased, nor sent, nor cancelled are cancelled |
| Outbox.LateSubscriberIsAdded | src/anime_qqbot/notifications/outbox.py:153-185 | a late subscriber of an airing job that is pending and not yet due is in its audience afterwards, with those before and nobody else |
| Outbox.LateDecisionFitsIff | src/anime_qqbot/application/admin_service.py:1308-1326 | a decision written over a row that has changed since it was read leaves the row consistent exactly when the job is not leased by then |
| Outbox.LeaseBeforeDecision | src/anime_qqbot/application/admin_service.py:1308-1326 | a run in which a lease comes between a cancellation's read and its write, which leaves a cancelled row with a lease |
| Outbox.LateRetryKeepsDelayIff | src/anime_qqbot/application/admin_service.py:1315-1320 | a retry decided late and written while the job waits after a retry result keeps the retry delay exactly when it is written after that |
| Outbox.DelayBeforeDecision | src/anime_qqbot/application/admin_service.py:1308-1326 | a run in which a job that had failed is readmitted, leased and completed as retry before a second readmission is written, which makes it due at once |
| Outbox.NotificationTable.Enqueue | src/anime_qqbot/notifications/outbox.py:38-99 | inserts exactly when the key is free, and answers with the one job that has the key |
| Outbox.NotificationTable.ClaimPendingJobs | src/anime_qqbot/application/use_cases.py:874-906 | leases all the rows the query picked and touches no other; fewer than the limit only if every other claimable row was locked |
| Outbox.NotificationTable.ClaimPendingJob | src/anime_qqbot/application/use_cases.py:909-939 | succeeds exactly for a pending job that is due, not expired and not locked by another transaction, and leases only that |
| Outbox.NotificationTable.CompleteJob | src/anime_qqbot/application/use_cases.py:942-973 | one attempt row with the current attempt number, the result's status, the lease given up, and the retry delay for a retry; a missing job changes nothing |
| Outbox.NotificationTable.ReleaseExpiredLeases | src/anime_qqbot/application/use_cases.py:976-997 | all leases older than the timeout are returned, no other row changes, and the answer is their number |
| Outbox.NotificationTable.UpdateNotification | src/anime_qqbot/application/admin_service.py:1298-1326 | exactly failed, confirmed unknown and retry jobs are readmitted, exactly pending, retry, failed and unknown ones cancelled; otherwise nothing changes |
| Outbox.NotificationTable.AddAiringAudience | src/anime_qqbot/notifications/outbox.py:138-185 | adds the user to the earliest airing job of the group and anime that is still pending and not due; answers whether anything changed |
| Outbox.NotificationTable.Act | src/anime_qqbot/application/use_cases.py:874-997 | any step, whoever takes it, on the stored table |
| Dispatcher.ReachableSystems | astrbot_plugin_anime_tracking/anime_tracking_plugin/dispatcher.py:103-149 | over every interleaving with other actors, a job being delivered is leased and has no row for its lease, a job in bookkeeping has its row, and no row is numbered beyond its job's counter |
| Dispatcher.LeasesOfTenMinutes | astrbot_plugin_anime_tracking/anime_tracking_plugin/dispatcher.py:123-124 | between deliveries exactly the leases older than ten minutes are returned |
| Dispatcher.OneRowPerLeaseIffBooksKept | astrbot_plugin_anime_tracking/anime_tracking_plugin/dispatcher.py:131-149 | over every run, the attempt numbers of each job strictly increase exactly when no bookkeeping call raised after a completion |
| Dispatcher.StepKeepsSent | astrbot_plugin_anime_tracking/anime_tracking_plugin/dispatcher.py:250-337 | in every run, a step takes a job out of sent exactly when it is the catch-all's after that very job was completed as sent |
| Dispatcher.ResentAfterSent | astrbot_plugin_anime_tracking/anime_tracking_plugin/dispatcher.py:140-149 | if a call raises after a sent completion, the job just sent is pending again, due after the retry delay |
| Dispatcher.SentIsFinalIffBooksKept | astrbot_plugin_anime_tracking/anime_tracking_plugin/dispatcher.py:131-149 | over every run, sent jobs stay sent exactly when no bookkeeping call raised after a sent completion |
| Dispatcher.SentCanBeUndone | astrbot_plugin_anime_tracking/anime_tracking_plugin/dispatcher.py:140-149 | a run in which a stored, leased and sent job ends up pending, with two attempt rows for its one lease |
| Dispatcher.StepKeepsCancelled | astrbot_plugin_anime_tracking/anime_tracking_plugin/dispatcher.py:140-149 | in every run, a step takes a job out of cancelled exactly when it is the catch-all's after that very job was completed |
| Dispatcher.CancelledIsFinalIffBooksKept | astrbot_plugin_anime_tracking/anime_tracking_plugin/dispatcher.py:140-149 | over every run, cancelled jobs stay cancelled exactly when no bookkeeping call raised after the completion of a job cancelled since |
| Dispatcher.CancelCanBeUndone | astrbot_plugin_anime_tracking/anime_tracking_plugin/dispatcher.py:140-149 | a run in which a failed job is cancelled during its bookkeeping and ends up pending |
| Dispatcher.DeliveryRaisesLateIff | astrbot_plugin_anime_tracking/anime_tracking_plugin/dispatcher.py:140-149 | a delivery completes its job twice exactly when its bookkeeping raises and the catch-all succeeds |
| Dispatcher.SentRowIffSentAndStored | astrbot_plugin_anime_tracking/anime_tracking_plugin/dispatcher.py:312-318 | an attempt row says sent exactly when the message went out and the completion could be stored |
| Dispatcher.DeliveredJobIsRight | astrbot_plugin_anime_tracking/anime_tracking_plugin/dispatcher.py:222-318 | after every history and whatever raises, the delivered job's row, case by case: pending for half a minute without an origin, after a temporary failure and after a rate limit; failed without quota, after a permanent failure and with the account offline; unknown after an unclear failure; sent otherwise |
| Dispatcher.JobsAreUnasked | astrbot_plugin_anime_tracking/anime_tracking_plugin/dispatcher.py:196-206 | every job is charged as a proactive message to its group, and to no member |
| Dispatcher.QueueOrder | astrbot_plugin_anime_tracking/anime_tracking_plugin/dispatcher.py:214-220 | airing reminders go before releases, those before daily digests, those before all else, and among jobs of one kind those due earlier and then those stored earlier |
| Dispatcher.SentMessageIsRepeatedIff | astrbot_plugin_anime_tracking/anime_tracking_plugin/dispatcher.py:140-149 | after every history, a job whose message went out is sent, still leased, or pending and due after the retry delay, with the exact condition of each |
| Dispatcher.MessageCanGoOutTwice | astrbot_plugin_anime_tracking/anime_tracking_plugin/dispatcher.py:140-149 | a run in which the message goes out, its completion cannot be stored, and the job is leased once more |
| Dispatcher.TimeoutIsRetried | astrbot_plugin_anime_tracking/anime_tracking_plugin/dispatcher.py:278-311 | after every history, a job whose send timed out is pending and due after the retry delay, unless neither completion could be stored |
| Dispatcher.LostLeaseIsReturned | src/anime_qqbot/application/use_cases.py:976-997 | a job left leased is made pending by an expiry exactly when its lease is older than the timeout |
| Dispatcher.TableAfterDelivery | astrbot_plugin_anime_tracking/anime_tracking_plugin/dispatcher.py:140-149 | for every history and whatever raises, the delivered job's row and the attempt rows added, and no other row changes |
| Dispatcher.OutboxDispatcher.ReserveNextCapacity | astrbot_plugin_anime_tracking/anime_tracking_plugin/dispatcher.py:151-211 | picks the first job in delivery order whose group is open and which the governor lets pass, and charges the governor for that job and no other; without the governor, the first job; a look-up that raises ends the search with nothing charged |
| Dispatcher.OutboxDispatcher.Deliver | astrbot_plugin_anime_tracking/anime_tracking_plugin/dispatcher.py:222-337 | raises exactly when one of the calls on its path does; an exception before the completion leaves the job untouched, one after it leaves the job recorded with its result, and a normal return has recorded one attempt with the right result |
| Dispatcher.OutboxDispatcher.Conclude | astrbot_plugin_anime_tracking/anime_tracking_plugin/dispatcher.py:312-337 | completion and bookkeeping, and what is stored when either raises |
| Dispatcher.OutboxDispatcher.DeliverOrRetry | astrbot_plugin_anime_tracking/anime_tracking_plugin/dispatcher.py:140-149 | whatever is raised, the dispatcher is idle afterwards, the job's row and the attempt rows are those the delivery and the catch-all could store, and no other row has changed; after a sent message the job's status is the stated one |
| Dispatcher.OutboxDispatcher.ClaimAndDeliver | astrbot_plugin_anime_tracking/anime_tracking_plugin/dispatcher.py:131-149 | the reserved job, if it may still be leased, is leased once and delivered once, and otherwise nothing changes |
| Dispatcher.OutboxDispatcher.Tick | astrbot_plugin_anime_tracking/anime_tracking_plugin/dispatcher.py:103-149 | every tick, wherever it is broken off and whatever others do between reservation and lease, is a run of the protocol: expiry, then for the first job in the queue that may be sent a lease and a delivery; the whole table afterwards is stated, and a job is completed twice exactly when its bookkeeping raises and the catch-all succeeds |
| Dispatcher.OutboxDispatcher.Interfere | astrbot_plugin_anime_tracking/anime_tracking_plugin/dispatcher.py:131-138 | the steps of others between two transactions of the dispatcher leave its phase as it was |
| MikanRules.HighestIsGreatestAvailable | src/anime_qqbot/resources/module.py:95-104 | the answer is the greatest episode number among the labels that is not beyond the newest aired one, or none if there is none |
| MikanRules.LatestIsGreatestAired | src/anime_qqbot/resources/module.py:77-89 | the upper bound is the greatest episode number among the occurrences that have aired, or none if there is none |
| MikanRules.AiredSince | src/anime_qqbot/resources/module.py:81-84 | an episode has aired from its exact time on, or without one from the start of its day |
| MikanRules.NumberedIff | src/anime_qqbot/resources/module.py:45-49 | a label has a number exactly if it is a row of digits, with blanks around it or not, which do not matter |
| MikanRules.LeadingZero | src/anime_qqbot/resources/module.py:45-49 | leading zeros do not matter |
| MikanRules.NumberOfDecimal | src/anime_qqbot/resources/module.py:45-49 | a label that is a number's decimal notation stands for that number |
| MikanRules.FreshForADay | src/anime_qqbot/resources/module.py:673-674 | a release is fresh from its publication on, for twenty-four hours |
| MikanRules.PassesIff | src/anime_qqbot/resources/batching.py:29-59 | a release passes exactly with the language asked for and one of the subtitle groups and one of the resolutions asked for, where any are |
| MikanRules.FilterForUser | src/anime_qqbot/resources/batching.py:29-59 | the loop keeps exactly the releases that pass the filter, in order |
| MikanRules.WhoIsMentioned | src/anime_qqbot/resources/module.py:584-602 | a member is mentioned in a group exactly when one of their subscriptions there passes one of the fresh releases |
| MikanRules.WhatIsAnnounced | src/anime_qqbot/resources/module.py:603-605 | a release is announced to a group exactly when it passes the filter of one of its subscribers |
| MikanRules.SharesAreWhole | src/anime_qqbot/resources/module.py:596-605 | a group has members to mention exactly when it has releases to announce |
| MikanRules.ShareOut | src/anime_qqbot/resources/module.py:584-605 | the loop gives every group its share, lists each group once, and lists exactly the groups with a share |
| Sorting.SortSorts | src/anime_qqbot/resources/module.py:621-624 | the sort gives a permutation in order, for every total order of keys |
| Sorting.SortIsStable | src/anime_qqbot/application/use_cases.py:390-402 | elements that tie keep the order in which they came |
| MikanRules.SortReleases | src/anime_qqbot/resources/module.py:621-624 | lists exactly the selected releases once each, by publication date and then id |
| MikanPipeline.FollowsIsTransitive | src/anime_qqbot/resources/module.py:338-506 | what one run keeps (stored releases and items never change, a batch that is no longer open takes in nothing), a whole sequence of runs keeps |
| MikanPipeline.ClosedBatchIsFinal | src/anime_qqbot/resources/module.py:500-506 | a batch that was no longer open at some point has exactly the same releases at every later point |
| MikanPipeline.ReleaseIsShelved | src/anime_qqbot/resources/module.py:381-389 | adding a release to its open batch, or to a new one where none had room, keeps two batches of one episode a window apart and every batched release in one batch of its anime and episode |
| MikanPipeline.OtherStepsKeepJobsOk | src/anime_qqbot/resources/module.py:107-130 | no other step of the outbox endangers that a group has one release notification per anime and episode number |
| MikanPipeline.OtherStepsExtend | src/anime_qqbot/resources/module.py:617-645 | no other step of the outbox changes what a stored notification says, or adds one |
| MikanPipeline.NewNotificationIsTheOnlyOne | src/anime_qqbot/resources/module.py:607-645 | enqueuing for a group that has not been told keeps one notification per group, anime and episode number, however the episode is spelled |
| MikanPipeline.GivenUpIff | src/anime_qqbot/resources/module.py:508-582 | the planner gives up on exactly the batches of a completed anime, without a fresh release, or with an episode number that is not the greatest available one |
| MikanPipeline.ToldIff | src/anime_qqbot/resources/module.py:107-130 | a group has been told of a numbered episode exactly by a release notification of that group, anime and number, whatever its key |
| MikanPipeline.NotificationSays | src/anime_qqbot/resources/module.py:621-644 | a notification mentions exactly the share's members, counts its releases, names the three that came out first, and expires a day after the oldest |
| MikanPipeline.StoredIs | src/anime_qqbot/resources/module.py:350-374 | a stored item keeps what it came with; without an episode it is unmatched, with one batched if it may open a batch and set aside if not |
| MikanPipeline.BackoffIs | src/anime_qqbot/resources/module.py:471-476 | the delay is twice, four, eight and then sixteen times the poll interval, and at most an hour |
| MikanPipeline.AheadOfScheduleIsDroppedIff | src/anime_qqbot/resources/module.py:528-546 | a batch ahead of the newest aired episode is given up on exactly when some aired episode is available |
| MikanPipeline.TellsIffUnserved | src/anime_qqbot/resources/module.py:607-650 | planning a batch with an episode number tells somebody exactly when not everyone concerned knows of it |
| MikanPipeline.PlanAgain | src/anime_qqbot/resources/module.py:647-650 | a planning that fails only in its last transaction, then repeated, ends with the announced batch suppressed |
| MikanPipeline.BackoffGrows | src/anime_qqbot/resources/module.py:471-476 | more failures never shorten the delay; it is at most an hour, and at least twice the poll interval or an hour, whichever is less |
| MikanPipeline.MikanReleasePipeline.constructor | src/anime_qqbot/resources/module.py:229-243 | empty tables satisfy every invariant |
| MikanPipeline.MikanReleasePipeline.OpenBatch | src/anime_qqbot/resources/module.py:392-422 | the one open batch of the episode younger than the window, or a new one exactly when there is none; there is never a choice |
| MikanPipeline.MikanReleasePipeline.IngestItem | src/anime_qqbot/resources/module.py:338-390 | an item is stored exactly when neither its guid nor its fingerprint is known, and shelved in a batch younger than the window exactly when it has an episode and may open one |
| MikanPipeline.MikanReleasePipeline.PlanBatch | src/anime_qqbot/resources/module.py:500-650 | a batch of a completed anime, without a fresh release, or whose episode is not the greatest available one is told to nobody and suppressed; otherwise new jobs are exactly what groups are owed and every group with a share knows of it unless something other than marking it raised; it counts as planned exactly when some group had not been told before; an exception leaves it as it was or ready, to be planned again, and a batch without an anime stays ready |
| MikanPipeline.MikanReleasePipeline.TellOrDrop | src/anime_qqbot/resources/module.py:508-645 | a batch that is to be given up is, with nothing enqueued; otherwise every group with a share that does not know of it yet is told |
| MikanPipeline.MikanReleasePipeline.MarkReady | src/anime_qqbot/resources/module.py:501-506 | the batch is ready and has a closing instant, the first one it was given |
| MikanPipeline.MikanReleasePipeline.MarkFinal | src/anime_qqbot/resources/module.py:647-650 | only the batch's status changes, and no release moves |
| MikanPipeline.MikanReleasePipeline.Announce | src/anime_qqbot/resources/module.py:584-645 | each enqueued job carries its group's share, and without interruption every group with a share knows of the batch |
| MikanPipeline.MikanReleasePipeline.TellGroups | src/anime_qqbot/resources/module.py:607-645 | wherever the loop is interrupted and whatever others do to the outbox between two enqueues, exactly the first groups have been dealt with: each of them knows of the batch, new notifications are for them only and at most one for each group, and never a second one for an episode number |
| MikanPipeline.MikanReleasePipeline.TellOne | src/anime_qqbot/resources/module.py:618-645 | others act and one more group is told: all that held of the groups before still holds |
| MikanPipeline.MikanReleasePipeline.LetOthersAct | src/anime_qqbot/resources/module.py:618-645 | whatever the dispatcher, the administrator and other planners do, the invariants hold and the stored notifications keep their content |
| MikanPipeline.MikanReleasePipeline.EnqueueNotification | src/anime_qqbot/resources/module.py:621-645 | the job mentions the share's members, counts its releases, names the first three by date, is due now, and expires a day after the oldest; at most one is added and nothing else changes |
| MikanPipeline.MikanReleasePipeline.CloseReadyBatches | src/anime_qqbot/resources/module.py:479-498 | every new job is owed for one of the batches; after a normal return all of them are served and no open or ready batch of an anime is older than the window; the invariants hold in any case |
| MikanPipeline.MikanReleasePipeline.PollTarget | src/anime_qqbot/resources/module.py:314-336 | a poll knows every item it has come to, adds only items of the feed and counts them, batched exactly if they are fresh, have an episode and the feed has been polled before; the first successful poll of a feed opens no batch; a failed poll leaves the feed's row alone; every new batch starts now |
| MikanPipeline.MikanReleasePipeline.IngestAll | src/anime_qqbot/resources/module.py:326-334 | every item before the one that raises is known afterwards, and every new row is one of the items, batched exactly if it is fresh and may be |
| MikanPipeline.MikanReleasePipeline.RecordFailure | src/anime_qqbot/resources/module.py:451-477 | one more failure, the next poll after the backoff delay, the last success kept, and no other feed touched |
| MikanPipeline.MikanReleasePipeline.RunOnce | src/anime_qqbot/resources/module.py:245-268 | every run, wherever it stops, keeps the invariants and all stored jobs and only moves the tables forward; a normal return leaves nothing stale to plan, has served every batch whose window was over, knows every item the polls have come to, and counts the failed ones |
| MikanPipeline.MikanReleasePipeline.PollAll | src/anime_qqbot/resources/module.py:250-262 | one failing feed does not keep the others from being polled; each feed's row is that of its last poll |
| Discovery.LinkDiscovery.DiscoverViaAniList | src/anime_qqbot/catalog/anilist_mapping.py:255-346 | never more calls than remain, each one counted; the first title that finds something settles the verdict, and without one the titles or the budget are used up; raises only where a call does |
| Discovery.LinkDiscovery.DiscoverViaAnimeSchedule | src/anime_qqbot/catalog/anilist_mapping.py:348-438 | the same with failed searches counted; every title is searched for, and the source is at fault exactly when all searches failed |
| Discovery.LinkDiscovery.Discover | src/anime_qqbot/catalog/anilist_mapping.py:199-253 | both services together stay within what remains, and calls are those reported; the bridge's verdict stands unless AniList confirms; without metadata nothing is spent |
| Discovery.AnswerIsDetermined | src/anime_qqbot/catalog/anilist_mapping.py:199-253 | what the services answer determines the verdict on a row and the searches it costs |
| Discovery.LinkDiscovery.RunOnce | src/anime_qqbot/catalog/anilist_mapping.py:95-170 | calls of a pass never exceed the limit and equal the reported number on a normal return, processed and deferred rows add up to the rows fetched, each row was decided with what the rows before it had left, no eligible row between the old and the new cursor was left out, the cursor moves on if the limit is enough for the first row, and a pass in which anything raises leaves the cursor alone |
| Discovery.LinkDiscovery.Assess | src/anime_qqbot/catalog/anilist_mapping.py:130-160 | the loop over the rows: what is spent, decided, assessed and put off, and where it is aborted |
| Discovery.TranscriptsAgree | src/anime_qqbot/catalog/anilist_mapping.py:137-160 | what the services answer determines all verdicts of a pass and their costs, as far as it gets |
| Discovery.NoVerdictNoBudget | src/anime_qqbot/catalog/anilist_mapping.py:148-150 | a row is put off only once the whole budget is spent |
| Discovery.EnoughBudgetDecides | src/anime_qqbot/catalog/anilist_mapping.py:199-253 | with a budget of as many searches as a row has titles there always is a verdict on it |
| Discovery.NothingFoundDecidedIff | src/anime_qqbot/catalog/anilist_mapping.py:255-346 | a row for which AniList finds nothing is decided exactly with that budget |
| Discovery.TooLittleIsAnAnswer | src/anime_qqbot/catalog/anilist_mapping.py:264-271 | with less, such a row is put off in every pass |
| Discovery.CursorSkipsNothing | src/anime_qqbot/catalog/anilist_mapping.py:126-164 | wherever a pass stops, every eligible row between the old and the new cursor has been assessed, as a priority or a background row |
| Discovery.MadePassesKeep | src/anime_qqbot/catalog/anilist_mapping.py:126-164 | what every pass keeps: no row passed over, and no start over before the end |
| Discovery.OverlookedIsAhead | src/anime_qqbot/catalog/anilist_mapping.py:541-594 | a row that all passes of a sweep so far left out lies beyond the cursor |
| Discovery.SweepsOverlookNothing | src/anime_qqbot/catalog/anilist_mapping.py:541-594 | from a fresh cursor to the pass that starts over, no row that is eligible throughout is left out, however small the budget |
| Discovery.StartsOverIff | src/anime_qqbot/catalog/anilist_mapping.py:126-128 | the cursor starts over exactly when there is neither a priority row nor an eligible row beyond it |
| Discovery.FirstRowMovesOn | src/anime_qqbot/catalog/anilist_mapping.py:126-164 | with no priority row and a limit that is enough for the first row, a pass moves the cursor forward to an eligible row |
| Discovery.SweepsEnd | src/anime_qqbot/catalog/anilist_mapping.py:126-164 | over a fixed set of rows no more passes in a row can move on than there are rows |
| Discovery.StartCanBePutOff | src/anime_qqbot/catalog/anilist_mapping.py:126-164 | for any number of passes, any limit and any row behind the cursor there are passes that never start over and leave that row out throughout |
| OperatorJobs.TerminalIsFinal | src/anime_qqbot/operations/repository.py:153-206 | a completed, failed or cancelled job never changes again, in any column, in any interleaving |
| OperatorJobs.FinishedOnce | src/anime_qqbot/operations/repository.py:189-206 | at most one finish per job is accepted |
| OperatorJobs.RunningIsClaimed | src/anime_qqbot/operations/repository.py:89-117 | a running job is held by the worker of its latest claim, since that claim |
| OperatorJobs.OnlyTheHolderFinishes | src/anime_qqbot/operations/repository.py:189-206 | an accepted finish comes from the worker of the latest claim |
| OperatorJobs.ClaimLasts | src/anime_qqbot/operations/repository.py:89-117 | from a claim until a finish or another claim the worker holds the job |
| OperatorJobs.ClaimsAreApart | src/anime_qqbot/operations/repository.py:96-103 | successive claims of one job are more than the later one's lease timeout apart |
| OperatorJobs.KeysStayUnique | src/anime_qqbot/operations/repository.py:57-87 | in every reachable table idempotency keys are unique |
| OperatorJobs.EnqueuedIff | src/anime_qqbot/operations/repository.py:57-87 | a job is stored, pending and due at once, exactly if its key is new |
| OperatorJobs.ClaimedIff | src/anime_qqbot/operations/repository.py:96-115 | a claim gives a worker exactly a job that is pending and due, or that has been held for longer than the timeout |
| OperatorJobs.FinishedIff | src/anime_qqbot/operations/repository.py:189-206 | a finish ends exactly the worker's running job, as completed if it succeeded and as failed if not |
| OperatorJobs.CancelledIff | src/anime_qqbot/operations/repository.py:153-164 | a cancellation ends exactly a pending job |
| OperatorJobs.OperatorJobQueue.Enqueue | src/anime_qqbot/operations/repository.py:47-87 | an unsupported type changes nothing; otherwise the answer is the one job with the key |
| OperatorJobs.OperatorJobQueue.Claim | src/anime_qqbot/operations/repository.py:89-117 | the row that has been available longest, of those pending and due or running past the timeout that nobody has locked, is held by this worker from now on; none exactly if there is none |
| OperatorJobs.OperatorJobQueue.Cancel | src/anime_qqbot/operations/repository.py:153-164 | succeeds exactly for a pending job |
| OperatorJobs.OperatorJobQueue.Finish | src/anime_qqbot/operations/repository.py:179-206 | succeeds exactly for the worker that holds the running job, and ends it |
| Policy.UpdatesLoseNothing | src/anime_qqbot/groups/settings.py:96-268 | in every interleaving each version is the version just before it with exactly what the next accepted change gives, the stored row is the last version, and at most one caller succeeds per expected version |
| Policy.ChangesAreApplied | src/anime_qqbot/groups/settings.py:121-237 | every setting a change gives has the value given and every other keeps its own; quiet hours are cleared, the given pair, or kept, and half a pair is refused; a pause and a resumption touch only the pause and its reason, cut to 256 characters |
| Policy.ChangeIsDetermined | src/anime_qqbot/groups/settings.py:121-237 | that says all that becomes of the policy |
| Policy.FitsIff | src/anime_qqbot/application/admin_service.py:871-892 | a change fits exactly if the digest minutes it gives are in range and the quiet time fits between anchor and cutoff |
| Policy.NeverConfigured | src/anime_qqbot/groups/settings.py:283-316 | a group that was never configured has version one and the default digest, without quiet hours or pause |
| Policy.VersionsAreFixed | src/anime_qqbot/groups/settings.py:239-268 | each version number has one content for good |
| Policy.ValidatedDigestIsValid | src/anime_qqbot/application/admin_service.py:884-892 | a change validated against the policy it is applied to gives a digest schedule that can be constructed |
| Policy.DigestsStayValid | src/anime_qqbot/content_operations/planning.py:25-29 | if every validated caller names a version that existed when it was validated, every reachable version has a schedule that can be constructed |
| Policy.AheadRunBreaks | src/anime_qqbot/application/admin_service.py:871-913 | for every version and every later one, a run in which a caller names the later one ends in a schedule that cannot be constructed |
| Policy.AheadRunIsOnlyAhead | src/anime_qqbot/application/admin_service.py:871-913 | naming that version is all that is unusual about that run |
| Policy.SafeIffReadEarlier | src/anime_qqbot/application/admin_service.py:884-914 | naming a version is safe in every interleaving exactly when that version existed at validation |
| Policy.FinishingSucceeds | src/anime_qqbot/groups/settings.py:96-208 | a caller admitted for the current version that nobody interrupts writes its change as the next version |
| Policy.GroupRuntimeSettings.GetPolicy | src/anime_qqbot/groups/settings.py:88-94 | a group without a row has the default policy in version one |
| Policy.GroupRuntimeSettings.AdmitValidated | src/anime_qqbot/application/admin_service.py:884-914 | admits exactly the changes that fit the policy of this moment, as one step of the interleaving |
| Policy.GroupRuntimeSettings.Admit | src/anime_qqbot/groups/settings.py:210-237 | an update that leaves the digest alone begins, as one step of the interleaving |
| Policy.GroupRuntimeSettings.ReadCurrent | src/anime_qqbot/groups/settings.py:88-94 | the caller's first transaction in the interleaving; it sees the current row |
| Policy.GroupRuntimeSettings.LookForRow | src/anime_qqbot/groups/settings.py:121-208 | the caller's second step in the interleaving; refuses exactly half quiet hours and a version other than the one read |
| Policy.GroupRuntimeSettings.CommitWrite | src/anime_qqbot/groups/settings.py:239-268 | is the caller's last transaction in the interleaving; writes exactly when the row is still as the caller saw it and has the expected version |
| Policy.GroupRuntimeSettings.UpdatePolicy | src/anime_qqbot/groups/settings.py:96-208 | is the caller's three transactions, uninterrupted; succeeds exactly when the expected version is current and the quiet hours are whole, with exactly what the change gives changed, and otherwise changes nothing |
| Policy.GroupRuntimeSettings.PauseGroup | src/anime_qqbot/groups/settings.py:210-223 | succeeds exactly for the current version, pauses the group, and touches nothing but the pause and its reason |
| Policy.GroupRuntimeSettings.ResumeGroup | src/anime_qqbot/groups/settings.py:225-237 | succeeds exactly for the current version, resumes the group, and touches nothing but the pause and its reason |
| ScheduleBoard.RangeIsLocal | src/anime_qqbot/application/use_cases.py:322-350 | a row the query lets through falls on a local day of the requested range |
| ScheduleBoard.WinnersGrow | src/anime_qqbot/application/use_cases.py:358-366 | replacing by preference keeps, for each episode, a row that none is preferred to |
| ScheduleBoard.OneEpisodeIff | src/anime_qqbot/application/use_cases.py:358-358 | rows are of one episode exactly if anime and label agree |
| ScheduleBoard.WinnersAreTrusted | src/anime_qqbot/application/use_cases.py:429-437 | a winner has an exact time if any row of its episode has, and of those as exact as it none is of a more trusted source: AnimeSchedule before AniList before Bangumi before all others |
| ScheduleBoard.SelectPerEpisode | src/anime_qqbot/application/use_cases.py:356-366 | the first fold keeps exactly one row per episode, and none of its rows is preferred to it, in whatever order the rows come |
| ScheduleBoard.CardsGrow | src/anime_qqbot/application/use_cases.py:384-389 | replacing by rank keeps, for each day and title, a row that none ranks above |
| ScheduleBoard.OneCardIff | src/anime_qqbot/application/use_cases.py:373-384 | rows are for one card exactly if local day and title agree, or day and anime without a title |
| ScheduleBoard.LocalDayIs | src/anime_qqbot/application/use_cases.py:373-377 | the local day contains the exact time, and is the stored day without one |
| ScheduleBoard.CardsAreNewest | src/anime_qqbot/application/use_cases.py:420-426 | a card shows the newest numbered episode, of equals one with an exact time, and of those the latest |
| ScheduleBoard.SelectPerTitle | src/anime_qqbot/application/use_cases.py:371-389 | the second fold keeps exactly one card per local day and title, of maximal rank among the winners |
| ScheduleBoard.BoardOrderIsTotal | src/anime_qqbot/application/use_cases.py:390-402 | the order by day, exactness, time and title compares any two cards, and transitively |
| ScheduleBoard.BoardIsInOrder | src/anime_qqbot/application/use_cases.py:390-402 | days are in order; within a day exact times come first and in order, and at one time titles are in order |
| ScheduleBoard.AiringRowsBetween | src/anime_qqbot/application/use_cases.py:315-417 | the board is sorted, has exactly one card per day and title that has a winner, every card is a winner of maximal rank, and every card's day is in the range |
| ScheduleBoard.ResolvePicksTheFirst | src/anime_qqbot/catalog/airing_resolver.py:43-50 | the resolver's choice comes before or ties with every candidate |
| ScheduleBoard.ResolverOrder | src/anime_qqbot/catalog/airing_resolver.py:43-50 | the resolver's sort key is a total order on rows |
| ScheduleBoard.ResolverTrusts | src/anime_qqbot/catalog/airing_resolver.py:10-50 | the resolver's choice is exact if any candidate is, of no less trusted a source than those as exact, and the earliest of its source |
| ScheduleBoard.CalendarAgreesWithResolver | src/anime_qqbot/application/use_cases.py:429-437 | on the candidates of one episode, calendar and resolver settle on the same exactness and source priority, whatever the orders in which they see them |
| DailyDigest.InstantsFitTheirPeriod | src/anime_qqbot/content_operations/planning.py:41-48 | every instant lies after the start of its period and less than a minute after its end |
| DailyDigest.PeriodsPartitionTime | src/anime_qqbot/content_operations/planning.py:47-48 | every instant is in exactly one period |
| DailyDigest.FirstMinuteBelongsToTheDayBefore | src/anime_qqbot/content_operations/planning.py:41-45 | an instant of a period is counted to its own day exactly when the period's first minute is over, and otherwise to the day before |
| DailyDigest.DueFromSendAtToTheEnd | src/anime_qqbot/content_operations/planning.py:58-67 | the instants at which a digest is due are exactly those from its send time to the end of the period, and only one exactly when the quiet time runs past the end |
| DailyDigest.ValidIff | src/anime_qqbot/content_operations/planning.py:25-29 | a schedule can be constructed exactly if the quiet time after the anchor is over by the cutoff |
| DailyDigest.DueIff | src/anime_qqbot/content_operations/planning.py:58-67 | a digest is due exactly from the anchor to the cutoff, once its newest release has been out for the quiet time, or at the cutoff itself |
| DailyDigest.SentWhenFirstDue | src/anime_qqbot/content_operations/planning.py:58-60 | it is sent at the first such instant |
| DailyDigest.LaterReleasesPostpone | src/anime_qqbot/content_operations/planning.py:58-60 | a later release never brings the digest forward |
| DailyDigest.MovedCutoffOverlapsIff | src/anime_qqbot/content_operations/planning.py:47-48 | when the cutoff moves between two days their periods overlap exactly if it moves to an earlier minute |
| DailyDigest.MovedCutoffLeavesGapIff | src/anime_qqbot/content_operations/planning.py:47-48 | when the cutoff moves between two days some instants fall between their periods exactly if it moves to a later minute |
| DailyDigest.GapIsLost | src/anime_qqbot/content_operations/planning.py:47-48 | such an instant is in no period of either schedule on its side of the move |
| DailyDigest.PeriodsFitIffCutoffStays | src/anime_qqbot/content_operations/planning.py:47-48 | across a change of schedule every instant is in exactly one period exactly when the cutoff stays |
| DailyDigest.ReportedInOneDigest | src/anime_qqbot/content_operations/planner.py:97-101 | with a fixed schedule, a release is reported by the digest of one day only |
| DailyDigest.ReportedIff | src/anime_qqbot/content_operations/planner.py:97-101 | a release of a day's period is reported exactly by what is planned for that day and not before the release |
| DailyDigest.ReleaseIsReportedIff | src/anime_qqbot/content_operations/planner.py:97-140 | over every sequence of plannings under one schedule, a listed release is in the stored digests exactly if its day's digest was first planned no earlier than the release |
| DailyDigest.LateReleasesCanBeLost | src/anime_qqbot/content_operations/planner.py:91-110 | under every schedule, every day, a digest can be due while a release of its period is still to come, which no digest planned by then, and none of another day, reports |
| DailyDigest.ReportedTwiceIff | src/anime_qqbot/content_operations/planner.py:91-110 | some release can be reported by the due digests of two days exactly when the cutoff was moved to an earlier minute between them |
| DailyDigest.GapIsNeverReported | src/anime_qqbot/content_operations/planner.py:97-101 | a release in the gap is reported by no digest up to that day under the old schedule and by none after it under the new one |
| DailyDigest.DueStaysDue | src/anime_qqbot/content_operations/planner.py:91-110 | a due digest stays due to the end of its period unless a newer release comes out |
| DailyDigest.OneDigestPerDay | src/anime_qqbot/content_operations/planner.py:127-140 | in every reachable outbox no two jobs have the digest key of one group and day |
| DailyDigest.Between | src/anime_qqbot/content_operations/planner.py:151-178 | exactly the releases after the start and up to the end |
| DailyDigest.Latest | src/anime_qqbot/content_operations/planner.py:102-102 | the greatest publication date, or none without releases |
| DailyDigest.CountIs | src/anime_qqbot/content_operations/planner.py:114-117 | an item is counted exactly for each release of its anime and its episode, or without an episode |
| DailyDigest.LinesGoByTitle | src/anime_qqbot/content_operations/planner.py:123-126 | the lines of a digest come in the order of their titles |
| DailyDigest.PlannedIff | src/anime_qqbot/content_operations/planner.py:84-110 | a digest is planned exactly if something has come out in the period, the anchor is reached, and the newest release has been out for the quiet time or the cutoff has come |
| DailyDigest.StoredForWhenFirstDue | src/anime_qqbot/content_operations/planner.py:138-139 | a stored digest may be sent from the first instant at which it was due until five minutes past the cutoff |
| DailyDigest.ContentPlanner.Tally | src/anime_qqbot/content_operations/planner.py:112-122 | every anime and episode among the releases once, with the number of its releases |
| DailyDigest.ContentPlanner.MakeLines | src/anime_qqbot/content_operations/planner.py:123-126 | one line for every item, with its count and title, in the order of titles |
| DailyDigest.ContentPlanner.DecideDigest | src/anime_qqbot/content_operations/planner.py:91-110 | the decision is due exactly when there is something to report and the newest of it has been quiet or the period ends |
| DailyDigest.ContentPlanner.PlanDaily | src/anime_qqbot/content_operations/planner.py:84-149 | raises exactly for a schedule that cannot be constructed or when the query or one of the two transactions raises; stores the digest exactly when it is due, the enqueue succeeds and its key is free, records it exactly if that succeeds too, and leaves every other job as it was |
| DailyDigest.ContentPlanner.PlanDue | src/anime_qqbot/content_operations/planner.py:34-43 | deals with exactly the policies before the first whose planning raises, counts the digests newly recorded, and leaves every stored job as it was |
| DailyDigest.ContentPlanner.PlanAll | src/anime_qqbot/content_operations/planner.py:84-149 | over every sequence of plannings, a digest counts as created at most once per group and day, exactly the first time it is recorded, and the stored digest is that of the first planning that stored one |
| DailyDigest.ContentPlanner.EnqueueDigest | src/anime_qqbot/content_operations/planner.py:127-140 | with a free key one job is added, which lists the period's items, mentions everybody if the policy says so, and may be sent from the send time to five minutes past the period; otherwise nothing changes |
| Polls.RunKeepsInvariants | src/anime_qqbot/content_operations/polls.py:95-146 | over every run a group has at most one open poll, and every vote is for one of its poll's candidates |
| Polls.LookupIsUnambiguous | src/anime_qqbot/content_operations/polls.py:229-250 | the lookup for a vote finds at most one poll |
| Polls.VotesAreLastActions | src/anime_qqbot/content_operations/polls.py:252-300 | the stored vote of a user is the position of their last accepted action, if that was a vote |
| Polls.CountsAreStandings | src/anime_qqbot/content_operations/polls.py:168-217 | a candidate's count is the number of users whose last accepted action was a vote for it |
| Polls.CountsAddUp | src/anime_qqbot/content_operations/polls.py:53-54 | the counts of the first candidates add up to the voters for them |
| Polls.EveryVoterIsCounted | src/anime_qqbot/content_operations/polls.py:53-54 | in every reachable store the counts of a poll add up to its voters |
| Polls.ClosedCountsAreFinal | src/anime_qqbot/content_operations/polls.py:238-244 | a closed poll never reopens and no count of it ever changes |
| Polls.Dedupe | src/anime_qqbot/content_operations/polls.py:86-86 | the same ids, each once |
| Polls.CandidatesKeepOrder | src/anime_qqbot/content_operations/polls.py:86-86 | candidates keep the order in which they were named first |
| Polls.AcceptedIff | src/anime_qqbot/content_operations/polls.py:227-251 | a vote goes to a poll exactly if that is open in the group, has begun, is not over, and has so many candidates |
| Polls.OpenMeans | src/anime_qqbot/content_operations/polls.py:84-146 | when a poll may be opened, and that nothing changes if it may not |
| Polls.PollService.OpenPoll | src/anime_qqbot/content_operations/polls.py:73-149 | opens exactly for a known theme and group, three to six distinct available candidates, a proper time window and key, and a group without an open poll or that key; otherwise nothing changes |
| Polls.PollService.CastVote | src/anime_qqbot/content_operations/polls.py:219-270 | accepted exactly if an open, running poll of the group has the position; then it replaces the user's vote there and nothing else |
| Polls.PollService.TakeVoteBack | src/anime_qqbot/content_operations/polls.py:272-300 | removes the user's vote on the running poll, and says whether there was one |
| Polls.PollService.ClosePoll | src/anime_qqbot/content_operations/polls.py:302-313 | succeeds exactly for an open poll |
| StatusTracker.StatusGrows | src/anime_qqbot/operations/napcat_status.py:73-98 | how the closed form of the status develops with one more probe |
| StatusTracker.OfflineSinceGrows | src/anime_qqbot/operations/napcat_status.py:75-92 | keeping or replacing the instant keeps it that of the first QQ-offline probe since the last online one |
| StatusTracker.ChangedAtGrows | src/anime_qqbot/operations/napcat_status.py:94-98 | keeping or replacing the instant keeps it that of the probe with which the current status began |
| StatusTracker.NapCatStatusTracker.Observe | src/anime_qqbot/operations/napcat_status.py:66-111 | after every history of probes the snapshot is its closed form: unreachable exactly after three failures in a row and otherwise the last report, with the three instants it implies |
| StatusTracker.ChainGrows | src/anime_qqbot/operations/runtime_status_repository.py:62-72 | an event about a change since the stored status continues the chain |
| StatusTracker.NewestGrows | src/anime_qqbot/operations/runtime_status_repository.py:109-125 | trimming after every append gives the newest twenty of the whole log |
| StatusTracker.NewestAreTwenty | src/anime_qqbot/operations/runtime_status_repository.py:109-125 | the stored log is the last twenty entries of the whole one |
| StatusTracker.RuntimeStatusRepository.Record | src/anime_qqbot/operations/runtime_status_repository.py:30-75 | stores the snapshot, logs one event exactly when the status differs from the stored one, and keeps the log the newest twenty entries of a chain of changes |
| StatusTracker.RuntimeStatusRepository.TrimEvents | src/anime_qqbot/operations/runtime_status_repository.py:109-125 | what is deleted occurred before everything that is kept, and twenty entries are kept |
| StatusTracker.LaterIsNewer | src/anime_qqbot/operations/napcat_status.py:94-108 | the snapshot of a longer history may always replace that of a shorter one, whatever was lost in between |
| StatusTracker.RestartIsNewer | src/anime_qqbot/operations/napcat_status.py:284-292 | so may one of a tracker that could not load the stored snapshot |
| StatusTracker.Monitor | src/anime_qqbot/operations/napcat_status.py:248-279 | over every session, whichever snapshots could not be stored and whether or not the stored one could be loaded, the stored row describes the probes up to the last stored one and the log stays a chain |
| GroupOrigin.ChatGroupRow.UpsertGroup | src/anime_qqbot/groups/repository_v2.py:78-116 | after every sequence of events the row holds the origin of the newest event that carries one, the latest arrival on ties |
| GroupOrigin.NewestGrows | src/anime_qqbot/groups/repository_v2.py:110-116 | replacing exactly when the event is no older keeps the origin that of the newest event |
| GroupOrigin.OrderDoesNotMatter | src/anime_qqbot/groups/repository_v2.py:111-115 | with distinct timestamps every order of the same events leaves the same origin |
| GroupOrigin.TiesDependOnOrder | src/anime_qqbot/groups/repository_v2.py:111-115 | two events at one instant leave either origin, depending on the order |

## Left out

- SendGovernors.SendGovernor.Acquire: the clock is assumed not to go back, the quotas to be at least one (the head of a full deque is read), and seconds are whole microseconds, not floating point.
- Outbox.NotificationTable.UpdateNotification: one atomic step, although the row is read without a lock; `Outbox.LateDecisionFitsIff` and `Outbox.LateRetryKeepsDelayIff` say what steps in between do.
- Outbox.NotificationTable.CompleteJob: one atomic step, although the row is read without a lock.
- Outbox.NotificationTable.Enqueue: the identifier is a parameter that is not in use yet, in place of a random UUID.
- OperatorJobs.OperatorJobQueue.Claim: parameters, summaries and their redaction are not part of this model.
- Dispatcher.OutboxDispatcher.Tick: others act between reservation and lease here; their steps during a delivery are covered by the theorems about `SystemStep`. The heartbeat row is left out.
- Dispatcher.OutboxDispatcher.Deliver: the path for a job row that has disappeared is left out, because no step removes rows; rendering, sending and the publication records are outcomes in a script, and so is what the platform reports of a call that failed.
- MikanRules.FilterForUser: languages, subtitle groups and resolutions are taken as already case-folded.
- MikanRules.SortReleases: releases with one date are ordered by number in place of the text of a UUID.
- MikanRules.EpisodeNumber: digits are the ten ASCII digits, and only ASCII blanks are stripped.
- MikanPipeline.MikanReleasePipeline.IngestItem: title parsing and fingerprints are not part of this model, and neither is the cut of guids to 128 characters.
- MikanPipeline.MikanReleasePipeline.PlanBatch: whether an anime is completed is a fact in a script.
- MikanPipeline.MikanReleasePipeline.PollTarget: which feeds are due, etags and error texts are left out.
- Discovery.LinkDiscovery.DiscoverViaAniList: how candidates are matched and links confirmed is a fact in a script; cooldowns only change which rows are eligible.
- Discovery.LinkDiscovery.RunOnce: `enrich_anime` is left out. It decides one row with a budget of two, and then reads the cursor and writes it back in another transaction, so that next to a pass it can restore a cursor the pass has just moved.
- Policy.GroupRuntimeSettings.UpdatePolicy: settings without a rule of their own are one map; the evaluation of quiet hours (`is_quiet_at`) and the audit entry are left out.
- ScheduleBoard.AiringRowsBetween: episode numbers and normalized titles are given with the row, since parsing and Unicode normalization are not part of this model.
- ScheduleBoard.ResolvePicksTheFirst: conflict detection between two exact sources is left out.
- DailyDigest.ContentPlanner.PlanDaily: titles are places in string order; the publication record is a group and a day, without its other columns.
- DailyDigest.ContentPlanner.PlanDue: weekly reports and poll results are left out.
- Polls.PollService.OpenPoll: the author and message texts are left out.
- Polls.PollService.CastVote: user names are not cut to 64 characters.
- StatusTracker.Monitor: the clock is strictly increasing from probe to probe, since the log is ordered by instant.
- GroupOrigin.ChatGroupRow.UpsertGroup: one row; two inserts of the same group at once fall through to the update path, which is the second event here.
- Time zones with daylight saving time: the offset is fixed.
- Columns that only record when a row was touched, deletion of rows and cascades.
- `OutboxRepository.claim` and `complete`, which the dispatcher does not use.
- Adapters, rendering, the admin pages, message texts and language-model replies.
