# Matreshka: verified models of the panel's core

Matreshka is a self-hosted panel that gives people access to two VPN engines, Hysteria and Xray. This project
models the parts of it that hold state over time or compile one form into another, and proves what they promise.
`dafny verify dfyconfig.toml` checks all of it.

The project has one form throughout. What the panel does step by step is a class whose methods update the same rows in
the same order; each method is proved equal to a step function over values, from states that satisfy the invariant to
states that satisfy it. The properties are then proved about those functions, over whole runs: any sequence of steps, in
any interleaving.

| file | what it models |
|---|---|
| `OutboxModel`, `DeviceSync` | the device outbox: invitations, redemption sessions, sync jobs, devices, credentials, engine calls, the recovery config the agent installs |
| `OutboxSafety`, `OutboxRuns`, `OutboxSteps` | what holds in every interleaving of it, and what single steps do |
| `OutboxRevoked` | what revocation promises, and exactly when it is for ever |
| `OutboxDrift`, `OutboxGuard`, `OutboxSerial`, `OutboxOverlap` | when the installed config agrees with the active devices: exactly when over all runs, what a claim could check beforehand, what holds without overlapping calls, and runs in which it does not |
| `Ledger`, `Traffic`, `Readings`, `LedgerTimes`, `LedgerRuns`, `LateReading` | the traffic table, its recording and compaction, where in time rows stand, and the ledger against the bytes really carried |
| `Calendar`, `Zone`, `Overview` | dates, the periods of an overview in a time zone given as an arbitrary function from instants to offsets, and the samples they count |
| `Presence`, `PresenceFacts` | presence per engine, device facts, a device's event log, and what a history of polls makes of them |
| `Incidents` | the debounced automata of service and threshold monitoring; telemetry failures use the first of them |
| `StableJson`, `JsonText`, `Operations` | the canonical text of a payload, how it reads, and the confirmations it protects |
| `Rules`, `Drafts`, `DraftFacts`, `Renumbering`, `Routes` | the route draft, its revisions, what each operation does to them, and the renumbering under a unique index |
| `Clients`, `Incy` | the compilation of routes to the two clients |
| `Domains` | the two validators of a domain name |
| `Paging`, `LineDiff` | the journal in pages, and the line diff of engine configurations |
| `Common`, `Text` | options, engines, splitting and joining text |

Modelling choices:

- Ids stand for UUIDs; a fresh id is a parameter with a precondition. A presented token is the id of the row its hash finds,
  and derived tokens are the ids they are derived from, which is what injective hashing and derivation amount to.
- Times are integers (milliseconds), and the clock is a parameter.
- A transaction is one step. An `await` on the engine cuts a job's life in two; between the halves anything may happen. The
  agent's call may fail for the panel before or after the agent installed the config, and may be carried out later still.
- Reading a traffic counter and recording it are two steps as well, with anything in between, and so are a collection's
  presence of each engine and its device facts.
- Tables are maps and sequences with the uniqueness constraints of the schema.
- What a client makes of its routes is fixed by the destinations a rule matches: a host, and arbitrary membership in address
  blocks, site lists and countries. A Mihomo line is read as `TYPE,payload,target` with optional parameters after it.
- `\p{L}` in the route value check is an arbitrary predicate on characters; where commas matter it is assumed not to contain one.

What the proofs brought to light:

- A revoked device stays revoked exactly when no activation call of it is under way at that moment, and nothing checks that:
  a second invitation can be redeemed while the revocation is awaited. `OutboxOverlap` gives a run in which the device is
  active again. Whatever happens, a revoked device has no live credential, session or redeemable invitation.
- Each engine call renders the users as it finds them and knows nothing of a call still under way, and the agent serves
  requests in parallel (`agent/cmd/matreshka-agent/main.go:55`). So overlapping calls can leave the installed config wrong, with
  no job left to repair it: two devices activated at the same time end active with only one let in, and a device revoked during
  an activation of its own stays let in. `OutboxDrift.InstalledIsActiveIff` says exactly when a run ends right, and
  `OutboxGuard.ClaimAgreesIff` when a claim can know that it will.
- A collection reads the counters and records them after an await, and the timer starts the next one regardless
  (`src/server/services/traffic.ts:28-31`, `src/server/index.ts:26`). A reading recorded after a newer one stands below the
  cursor and is taken for the first of a restarted counter, so that bytes are counted twice; `LateReading` gives the run.
  Recorded in order, a meter never shows more than was carried. `traffic_cursors.observed_at` holds the start of the
  collection, not the moment of the reading.
- `stableJson` sorts keys with `localeCompare`. A payload with two different keys the collation takes for equal has several
  texts, unless `Object.entries` fixes the order of the two, as it does for array indices. Equal texts still mean equal
  payloads, so a confirmation is never spent on another payload.
- Names of site lists and countries are not checked, so they may contain commas, which are separators in Mihomo's lines;
  `Clients.LineDecidesIff` says that exactly then a line decides some destination otherwise than its rule.
- INCY's groups carry no order, and its profile sends everything else through the proxy whatever the catch-all says;
  `Incy.IncyAgreesIff` says exactly when that is what the rules mean, and
  `Incy.DirectCatchAllDisagrees` gives a run after which it is not.
- `reorder` does not check its list for repetitions; `Renumbering.AcceptedRepeatBreaks` gives an accepted list for every draft
  with a user rule, and `Renumbering.ReorderListsIff` says what a repeated id does.
- The panel accepts names of three characters such as `a.b`; the agent asks for four. The agent takes `+1` for a byte.

## Model

| member | source | states |
|---|---|---|
| `OutboxSafety.RunKeeps` | `src/server/services/device-sync.ts:154-302` | every run of the outbox, whatever fails, crashes, retries or interleaves, keeps the joint invariant over the five tables and the engine calls in flight |
| `OutboxSafety.NextKeeps` | `src/server/services/device-sync.ts:193-226` | every single step of panel and agent keeps that invariant |
| `OutboxSafety.PrepareFindsFresh` | `src/server/services/device-sync.ts:169-186` | when redeeming finds no open activation, no session has the derived token yet |
| `OutboxRuns.ReachableInv` | `src/server/services/device-sync.ts:154-302` | the invariant holds in every state reachable from an empty panel |
| `OutboxRuns.OnePendingInvitation` | `src/server/services/people.ts:185-189` | a device never has two pending invitations |
| `OutboxRuns.PendingIsUnclaimed` | `src/server/services/device-sync.ts:173-184` | a pending or superseded invitation has no session and no activation job |
| `OutboxRuns.RedeemingIsServed` | `src/server/services/device-sync.ts:173-184` | a redeeming invitation has exactly one session and exactly one activation job, and that job is open |
| `OutboxRuns.OneActivationPerInvitation` | `src/server/services/device-sync.ts:169-186` | an invitation gets at most one activation job in its life |
| `OutboxRuns.RedeemingAgainCreatesNothing` | `src/server/services/device-sync.ts:154-191` | redeeming a link again, whatever became of its activation, changes no row |
| `OutboxRuns.DerivedTokenNeverCollides` | `src/server/services/device-sync.ts:167-178` | the insert of the derived redemption token never meets an existing one |
| `OutboxRuns.OneOpenJob` | `src/server/db/schema.ts:297-299` | at most one open job per device and kind, so the partial unique index is never violated |
| `OutboxRuns.OneFlightPerJob` | `src/server/services/device-sync.ts:193-226` | at most one engine call is in flight per job, and that job is running |
| `OutboxRuns.ActiveIsEarned` | `src/server/services/device-sync.ts:228-251` | a device is active only when one of its activations has completed |
| `OutboxRuns.SubscriptionOpensItsDevice` | `src/server/services/device-sync.ts:65-97` | the subscription handed out by a redemption opens exactly the device it was handed out for, through its own redeemed invitation |
| `OutboxRuns.IdleJobStays` | `src/server/services/device-sync.ts:193-226` | a job that is not running changes in no step but its own claim |
| `OutboxRuns.CompletedIsFinal` | `src/server/services/device-sync.ts:195-206` | a completed job never changes again, in any continuation of any run |
| `OutboxRuns.AttemptsAreClaims` | `src/server/services/device-sync.ts:197-205` | the attempts of a job are the number of its claims in the run |
| `OutboxRuns.BackoffGrows` | `src/server/services/device-sync.ts:319-322` | the wait after the n-th attempt never falls, lies between 5 s and 300 s, and is 5 * 2^(n-1) s until it reaches the cap |
| `OutboxRuns.DrainWaitsOutBackoff` | `src/server/services/device-sync.ts:125-146` | after a failure on the n-th claim, the drain's next claim comes no earlier than the n-th backoff |
| `OutboxRuns.DrainRetriesIff` | `src/server/services/device-sync.ts:125-146` | after a failure on the n-th claim, an unforced claim takes effect if and only if it comes no earlier than the n-th backoff |
| `OutboxSteps.RecoveryRestarts` | `src/server/services/device-sync.ts:47-53` | in every run: a start of the panel makes exactly the running jobs failed and due at once, none is running then, and all other jobs and tables are unchanged |
| `OutboxSteps.InterruptedJobIsTakenUp` | `src/server/services/device-sync.ts:47-53` | a job that a crash has interrupted is taken up again: after the start an unforced claim raises its attempts by one, and with live credentials the run goes on to complete it |
| `OutboxSteps.ClaimGoesOutIff` | `src/server/services/device-sync.ts:193-226` | a claim changes nothing unless the job is waiting or failed and forced or due; else it raises the attempts by one, and the call goes out if and only if the file can be written and the job's device and all others to be let in have live credentials; otherwise the job is failed and due after its backoff |
| `OutboxSteps.CallCanComplete` | `src/server/services/device-sync.ts:228-268` | a call under way can be carried out and confirmed; then its job is completed and its device active or revoked |
| `OutboxSteps.ConfirmationSays` | `src/server/services/device-sync.ts:228-268` | what a confirmed call leaves: exactly the rows of an activation, or of a revocation, have changed |
| `OutboxSteps.GivenUpMayInstall` | `src/server/services/device-sync.ts:207-226` | a call given up by a failure or a crash may still install at any time, whatever other calls end |
| `OutboxSteps.DeviceIsCreated` | `src/server/services/people.ts:107-138` | a new device is invited, without a subscription, and has two live credentials |
| `OutboxSteps.LinkIsCreated` | `src/server/services/people.ts:176-195` | a new link is pending until its own date, and exactly the older pending links of the device are superseded |
| `OutboxSteps.LinkIsRedeemedIff` | `src/server/services/device-sync.ts:154-191` | in every reachable state redeeming reserves the link, with a session and an activation due at once, if and only if the link is pending or redeeming, not expired, and its device has no open activation; else it changes nothing |
| `OutboxSteps.RevocationIsAsked` | `src/server/services/device-sync.ts:99-116` | an invited device is revoked on the spot, an active one gets a revocation due at once unless one is open |
| `OutboxSteps.OtherDevicesStay` | `src/server/services/device-sync.ts:99-302` | in every reachable state a step that does not concern a device leaves its device, credential, invitation, session and job rows as they are |
| `OutboxSteps.PollingAnswers` | `src/server/services/device-sync.ts:65-97` | in every reachable state polling a token answers missing without a session that is still good, installed exactly when the link has been redeemed and its device is active, and not yet otherwise |
| `OutboxRevoked.RevokedIsForeverIff` | `src/server/services/device-sync.ts:193-294` | main result on revocation, over every reachable state: a revoked device stays revoked in every continuation if and only if no activation call of it is under way |
| `OutboxRevoked.RevocationHoldsIff` | `src/server/services/device-sync.ts:253-294` | the guard a revocation could check when it commits: what it revokes stays revoked if and only if no activation call of the device is under way at that moment |
| `OutboxRevoked.RevokedIsBare` | `src/server/services/device-sync.ts:287-294` | in every interleaving a revoked device has no subscription, no live credential, no session, and no invitation that can be redeemed |
| `OutboxRevoked.UnprovisionedIsForever` | `src/server/services/device-sync.ts:99-108` | a device revoked before it was ever active stays revoked in every continuation |
| `OutboxRevoked.RevokedIsForever` | `src/server/services/device-sync.ts:193-226` | when calls on one device did not overlap up to its revocation, it stays revoked however calls overlap later |
| `OutboxDrift.InstalledIsActiveIff` | `src/server/services/device-sync.ts:193-268` | main result on the installed config, over all runs, under any overlap, failure, crash and retry: when no job is open, it lets in exactly the active devices if and only if the confirmations since the last claim that was sent net out: the last one on that claim's own device is of its kind, and every other device ends as the claim found it |
| `OutboxGuard.ClaimAgreesIff` | `src/server/services/device-sync.ts:193-212` | the guard a claim could check: however the calls settle that are under way once it is sent, the installed config lets in exactly the active devices, if and only if each call it finds under way is on another device and changes nothing |
| `OutboxGuard.OverlapAgreesIff` | `src/server/services/engine-runtime.ts:19-57` | of that, two calls that both settle: the config is right if and only if, for two devices, the first changes nothing, and for one device, the second is confirmed last |
| `OutboxSerial.InstalledIsActive` | `src/server/services/device-sync.ts:193-268` | with awaited engine calls never overlapping, under any failures, crashes and retries, and whenever calls given up are still carried out: while no job is open, the installed config lets in exactly the active devices |
| `OutboxOverlap.OverlapRevivesRevoked` | `src/server/services/device-sync.ts:99-123` | a run in which an activation redeemed during a revocation makes the revoked device active again |
| `OutboxOverlap.OverlapLeavesRevokedInstalled` | `src/server/services/device-sync.ts:154-191` | the same run with the calls ending the other way round: no open job, no active device, and a revoked user in the installed config |
| `OutboxOverlap.OverlapLeavesActiveOut` | `src/server/services/device-sync.ts:193-216` | a run without revocation or failure in which two devices are activated at the same time: both end active, no job is open, and the installed config lets in only one |
| `DeviceSync.RootAgent.Install` | `agent/cmd/matreshka-agent/main.go:132-144` | the agent installs what the shared runtime file holds when it gets to the request; one step of the runs, and the invariant stands |
| `DeviceSync.PeopleService.CreateDevice` | `src/server/services/people.ts:107-138` | an invited device and its two live credentials are added, nothing else changes; one step of the runs, and the invariant stands |
| `DeviceSync.PeopleService.CreateInvitation` | `src/server/services/people.ts:176-195` | older pending invitations of the device are superseded and one pending is added; 404 and 409 change nothing; one step of the runs, and the invariant stands |
| `DeviceSync.EngineRuntimeService.ActiveCredentials` | `src/server/services/engine-runtime.ts:50-57` | exactly the active devices with the one included or without the one excluded; refused when one of them has no live credential |
| `DeviceSync.EngineRuntimeService.Request` | `src/server/services/engine-runtime.ts:19-48` | a request reaches the agent exactly when every credential read is live and the file is written, and then the file holds that user set |
| `DeviceSync.DeviceSyncService.RecoverInterrupted` | `src/server/services/device-sync.ts:47-53` | exactly the running jobs become failed and due at once, all other jobs stay as they are; one step of the runs, and the invariant stands |
| `DeviceSync.DeviceSyncService.OpenJob` | `src/server/services/device-sync.ts:310-316` | finds an open job of the device and kind exactly when there is one |
| `DeviceSync.DeviceSyncService.PrepareActivation` | `src/server/services/device-sync.ts:154-191` | one step of the runs that keeps the invariant, with the refusals 404 and 410 in the code's order and no other: the insert of the derived token never fails; the job returned is an open activation of the link's device |
| `DeviceSync.DeviceSyncService.RequestRevocation` | `src/server/services/device-sync.ts:99-116` | one step of the runs that keeps the invariant: 409 while an activation is open, immediate revocation of an invited device, else the open or a new revocation job |
| `DeviceSync.DeviceSyncService.RevokeRowsOf` | `src/server/services/device-sync.ts:287-294` | the four statements together: device, credentials, invitations and sessions, of this device only |
| `DeviceSync.DeviceSyncService.Process` | `src/server/services/device-sync.ts:193-216` | `process` up to its await is the claim step of the runs, and the invariant stands |
| `DeviceSync.DeviceSyncService.Resume` | `src/server/services/device-sync.ts:207-226` | `process` after its await is the succeeding or the failing step, and the invariant stands; a call the agent confirmed always completes its job |
| `DeviceSync.DeviceSyncService.Complete` | `src/server/services/device-sync.ts:228-268` | both completions with their refusals; nothing is written when they throw |
| `DeviceSync.DeviceSyncService.Fail` | `src/server/services/device-sync.ts:217-224` | the job is failed and due after its backoff |
| `DeviceSync.DeviceSyncService.BeginDrain` | `src/server/services/device-sync.ts:125-134` | a drain takes due jobs only, each once, oldest first, at most the limit and the oldest of them, all when they fit, and none while another drain is under way |
| `DeviceSync.TakeOldest` | `src/server/services/device-sync.ts:130-134` | the first jobs in order of creation: none taken is younger than one left |
| `DeviceSync.FlightsCommit` | `src/server/services/device-sync.ts:228-268` | in every state with the invariant the completion of a call in flight goes through: neither 404 nor 409 is ever raised there |
| `DeviceSync.DeviceSyncService.Die` | `src/server/services/device-sync.ts:207-216` | a crash leaves the tables as they are and the calls with the agent |
| `Ledger.CompactionAbsorbs` | `src/server/services/traffic.ts:326-333` | for r1 <= r2, compacting at r1 and then at r2 leaves the same table as compacting at r2 alone; so compaction is idempotent |
| `Ledger.CompactionConservesDays` | `src/server/services/traffic.ts:326-373` | upload and download of every UTC day, device and engine survive a compaction |
| `Ledger.CompactionAndPeriods` | `src/server/services/traffic.ts:286-294` | a compaction takes from a period exactly the samples that moved into the one bucket containing its start; the whole history keeps its total |
| `Ledger.CompactionKeepsMidnightPeriods` | `src/server/services/traffic.ts:286-333` | a period from a UTC midnight keeps its total |
| `Ledger.RollThenDelete` | `src/server/services/traffic.ts:326-373` | rolling rows up and then deleting them is moving every row to its new bucket, colliding rows added up |
| `Ledger.PushSum` | `src/server/services/traffic.ts:355-373` | moving rows conserves the sum over every set of targets |
| `Traffic.TrafficService.RecordCumulative` | `src/server/services/traffic.ts:46-71` | cursor, delta, sample, reset and activity flags of one reading; an unknown device changes nothing |
| `Traffic.TrafficService.AddSample` | `src/server/services/traffic.ts:55-67` | the sample is written as `Recorded` has it, which `Traffic.RecordedRaises` places in time |
| `Traffic.RecordedRaises` | `src/server/services/traffic.ts:55-67` | a recording raises the sum of the meter's samples in the five minutes that contain its time by exactly the delta, and leaves every other sample as it was |
| `LedgerTimes.RecordingIsDated` | `src/server/services/traffic.ts:46-71` | the same in a run, with the growth since the cursor for the delta |
| `LedgerTimes.FiveMinutesAreGrowths` | `src/server/services/traffic.ts:46-71` | in every run without compaction, the samples of each five minutes sum up to the growths recorded within them |
| `LedgerTimes.CompactionMoves` | `src/server/services/traffic.ts:326-373` | after a compaction, by age alone: five-minute rows up to 48 hours and hour rows up to 90 days old stay, and day rows; older ones join the hour, or the day, they lie in, and every row holds the sum of all that went to it |
| `LedgerTimes.CompactionLeavesNoneOld` | `src/server/services/traffic.ts:326-333` | no row is left that is too fine for its age |
| `LedgerTimes.CountersSay` | `src/server/services/traffic.ts:46-54` | what runs take traffic, restarts and resets to do: counters are zeroed, the bytes carried stay |
| `LedgerTimes.ReadingSays` | `src/server/services/traffic.ts:25-37` | a reading has the counter's value and writes nothing until it is recorded; dropped, it never is |
| `Traffic.TrafficService.Rollup` | `src/server/services/traffic.ts:355-373` | the row-by-row upsert is the rollup statement on the whole table |
| `Traffic.TrafficService.Compact` | `src/server/services/traffic.ts:326-333` | the four statements in their order are one relabelling of the rows |
| `Traffic.TrafficService.Delete` | `src/server/services/traffic.ts:331-332` | exactly the old rows of the bucket go |
| `Traffic.StatementsCompact` | `src/server/services/traffic.ts:326-333` | deleting hour rows after both rollups loses none of the rows rolled up in between |
| `Traffic.FloorDate` | `src/server/services/traffic.ts:457-467` | for 5, 60 and 1440 minutes the UTC setters compute the arithmetic floor, before 1970 as well |
| `Readings.CountedIsPeaks` | `src/server/services/traffic.ts:52-54` | counting deltas gives the last reading plus every reading just before a drop |
| `Readings.CountedIsGreatestIff` | `src/server/services/traffic.ts:52-54` | counting deltas never gives less than the greatest reading, and gives exactly it if and only if whatever comes after a fall is zero |
| `LedgerRuns.CompactionsHappen` | `src/server/services/traffic.ts:355-373` | in every run each sample carries the person its device belongs to, so a compaction in a run always compacts |
| `LedgerRuns.RecordedFollowsReadings` | `src/server/services/traffic.ts:25-71` | in every run of traffic, engine restarts, resets of single meters, readings, recordings in any order and compactions, a meter's total is the last reading recorded plus every one recorded just before a drop |
| `LedgerRuns.MeterNeverExceeds` | `src/server/services/traffic.ts:25-71` | when no reading of the meter is recorded after a newer one, its total never exceeds the bytes carried by the newest of them, whatever was zeroed meanwhile, and is exactly that when this meter was never zeroed |
| `LedgerRuns.MeterShowsTruthIff` | `src/server/services/traffic.ts:25-71` | in every run, recorded in whatever order: a meter that was never zeroed shows at least the bytes carried by its newest reading recorded, and exactly those if and only if, in each direction, whatever is recorded after a fall is zero |
| `LedgerRuns.OneAtATimeIsInOrder` | `src/server/index.ts:26-29` | when a meter is not read again before its last reading has been recorded or dropped, its readings are recorded in the order they were taken; the timer does not see to that |
| `LateReading.LateReadingExceeds` | `src/server/services/traffic.ts:25-71` | a run in which a collection is overtaken between reading and recording: nothing was ever zeroed, `a` and then `b` were carried, and the meter and the overview show `a` twice |
| `LedgerRuns.OverviewNeverExceeds` | `src/server/services/traffic.ts:286-294` | the same for the overview of the whole history, when no meter it counts has a reading recorded after a newer one; exact when none of them was ever zeroed |
| `LedgerRuns.OverviewShowsTruthIff` | `src/server/services/traffic.ts:286-294` | when no meter was ever zeroed, the overview shows at least the bytes carried by their newest readings recorded, and exactly those if and only if every meter does |
| `LedgerRuns.CompactionKeepsMeters` | `src/server/services/traffic.ts:326-373` | a compaction keeps every meter's total |
| `Zone.ZonedDate` | `src/server/services/traffic.ts:525-534` | the loop makes exactly two corrections of the first guess |
| `Zone.PeriodStart` | `src/server/services/traffic.ts:494-513` | 24h, 7d, 30d and 365d start that many times 24 hours before the reference, "all" has no start, and the calendar periods start at the corrected midnight |
| `Overview.PeriodCounts` | `src/server/services/traffic.ts:284-294` | 24h, 7d, 30d and 365d count exactly the samples at most that old, "all" counts every sample |
| `Overview.TotalsAre` | `src/server/services/traffic.ts:284-294` | and the totals of the overview are the sum over exactly those |
| `Overview.CalendarCounts` | `src/server/services/traffic.ts:284-294` | the calendar periods count exactly the samples from their local midnight on |
| `Zone.TwoCorrectionsSuffice` | `src/server/services/traffic.ts:525-534` | with at most one offset change in the probed window, the result displays as wanted if and only if some instant does |
| `Zone.SkippedTimesMoveByTheChange` | `src/server/services/traffic.ts:525-534` | a wall-clock time that is skipped moves by exactly the size of the change |
| `Zone.CalendarPeriods` | `src/server/services/traffic.ts:496-513` | today, this week, this month and this year start at the local midnight of the day, of the Monday of its week, of the first of its month or of its year, whenever the clock shows that midnight |
| `Calendar.DateOfDayNumber` | `src/server/services/traffic.ts:500-509` | dates and day numbers are inverse to each other, so the first of a month or year, and Monday's date, name one day |
| `Calendar.NextDay` | `src/server/services/traffic.ts:500-509` | the day after is the next date of the calendar, by its lengths of months and its leap years |
| `Calendar.KnownDays` | `src/server/services/traffic.ts:500-509` | the count of days starts at 1 January 1970; 2000 had a leap day, 1900 had none |
| `Presence.LogIsWellShaped` | `src/server/services/traffic.ts:147-207` | over every run of polls the log is empty or first_seen (offline_long returned)* offline_long?; the absence mark is set exactly while it ends in offline_long; each offline_long is at least 24 h after last_seen_at |
| `Presence.HysteriaOfflineIff` | `src/server/services/traffic.ts:73-94` | Hysteria is offline exactly when its last poll succeeded and at least two successful empty polls followed the last connection |
| `Presence.XrayOnlineIff` | `src/server/services/traffic.ts:96-108` | after a successful poll Xray is online exactly when traffic grew within two minutes, else offline |
| `PresenceFacts.HysteriaOnlineIff` | `src/server/services/traffic.ts:73-94` | Hysteria is online exactly when its last reply brought connections, or was the first empty one right after one that did |
| `PresenceFacts.HysteriaRemembersConnection` | `src/server/services/traffic.ts:73-94` | the last activity of Hysteria is the last poll that brought connections |
| `PresenceFacts.XrayUnknownIff` | `src/server/services/traffic.ts:96-120` | Xray is unknown exactly when its last reply failed |
| `Presence.FactsSettle` | `src/server/services/traffic.ts:150-205` | by the status of the rows alone: an engine online sets last_seen to the latest activity of those online and ends an absence, the first time first_seen too; with every engine that answered offline and 24 hours gone a long absence begins; else nothing changes |
| `PresenceFacts.PollSays` | `src/server/services/traffic.ts:147-207` | the same of every poll of every history, with what it logs |
| `PresenceFacts.FirstSeenIsFirst` | `src/server/services/traffic.ts:159-183` | first_seen is logged exactly at the first poll with an engine online |
| `PresenceFacts.ReturnedEndsAbsence` | `src/server/services/traffic.ts:159-191` | returned is logged exactly at a poll with an engine online while the log ends in a long absence |
| `PresenceFacts.EachHasItsPolls` | `src/server/services/traffic.ts:73-207` | whatever the service does for all devices, in whatever order the collections get on, each active device has the rows, the facts and the log of its own polls; one that Hysteria does not mention has no connections |
| `PresenceFacts.InactiveStays` | `src/server/services/traffic.ts:147-207` | a device that is not active keeps its facts, and nothing is logged for it |
| `Presence.PresenceService.UpdateHysteria` | `src/server/services/traffic.ts:73-94` | every active device gets its row, no other row changes |
| `Presence.PresenceService.UpdateXray` | `src/server/services/traffic.ts:96-108` | every active device gets its row, no other row changes |
| `Presence.PresenceService.MarkUnknown` | `src/server/services/traffic.ts:110-120` | every active device becomes unknown and keeps its misses and last activity |
| `Presence.PresenceService.UpdateDeviceFacts` | `src/server/services/traffic.ts:147-207` | every active device gets its facts and exactly its own events, no other device anything |
| `Presence.PresenceService.UpdateFacts` | `src/server/services/traffic.ts:150-205` | one device: facts and event, and `Settle` says of them, by the status of its rows alone, what they are |
| `StableJson.TextDetermines` | `src/server/services/operations.ts:318-324` | under any collation, equal texts come from values equal up to object key order, at any depth and with every string escape |
| `StableJson.TextIsValue` | `src/server/services/operations.ts:318-324` | texts are equal if and only if the values are equal up to key order, for values whose keys the collation tells apart |
| `StableJson.OrderIndependentIffNoTies` | `src/server/services/operations.ts:321` | a value's text is independent of key order, among the orders `Object.entries` can give, exactly when no object in it has two keys the collation takes for equal that may change places |
| `StableJson.TiesShow` | `src/server/services/operations.ts:321` | any value with such a tie has another order of its keys, one that `Object.entries` can give, with another text |
| `StableJson.ValueDetermines` | `src/server/services/operations.ts:318-324` | without ties, values equal up to key order have one text |
| `JsonText.StringReadsBack` | `src/server/services/operations.ts:318-324` | a string in the text reads back as it was by the rules of section 7 of RFC 8259 |
| `JsonText.PlainPrints` | `src/server/services/operations.ts:318-324` | units that need no escape print as they are |
| `JsonText.SurrogatesPrint` | `src/server/services/operations.ts:318-324` | pairs of surrogates print as they are; halves, and controls without a letter, as four digits |
| `JsonText.LettersPrint` | `src/server/services/operations.ts:318-324` | quotes, backslashes and the controls with a letter print behind a backslash |
| `JsonText.WordsPrint` | `src/server/services/operations.ts:323` | null, true and false print as these words, numbers as they are printed |
| `JsonText.ArrayPrints` | `src/server/services/operations.ts:319` | an array prints its items in order |
| `JsonText.ObjectPrints` | `src/server/services/operations.ts:320-322` | an object prints its members in the order of the collation |
| `Operations.OperationService.Preview` | `src/server/services/operations.ts:79-93` | one confirmation row is added for the action and payload, or the checks refuse with their status and nothing changes |
| `Operations.OperationService.Confirm` | `src/server/services/operations.ts:95-125` | the confirmation is spent and one operation queued, or nothing changes: 409 for a confirmation that does not fit, then the status of the checks, in the code's order |
| `Operations.ConfirmationsSpentOnce` | `src/server/services/operations.ts:95-125` | in every run an operation starts only from a confirmation previewed for the same action and, up to key order, the same payload, within its lifetime, and is queued under that action; no confirmation starts two |
| `Operations.ConfirmationAcceptsItsPayload` | `src/server/services/operations.ts:79-125` | an unused confirmation in its lifetime accepts a payload if and only if it is the previewed one up to key order, when its keys do not tie |
| `Operations.PreviewSays` | `src/server/services/operations.ts:79-93` | a preview not refused leaves an unused confirmation of its action and payload, good for 0.17 hours; else nothing |
| `Operations.ConfirmSays` | `src/server/services/operations.ts:95-125` | in every run, when the keys do not tie: a confirmation that is unused, in time and for this action and payload starts its operation, queued, and is used up, unless the checks refuse; any other changes nothing |
| `Incidents.MonitoringService.ObserveService` | `src/server/services/monitoring.ts:93-123` | row and journal after one observation of a service |
| `Incidents.MonitoringService.ObserveThreshold` | `src/server/services/monitoring.ts:125-152` | row and journal after one observed level |
| `Incidents.MonitoringService.Save` | `src/server/services/monitoring.ts:158-179` | the row is replaced and keeps its date of change while the status stays |
| `Incidents.ServiceLogIsExact` | `src/server/services/monitoring.ts:93-123` | "unavailable" is logged exactly at the second failure of each maximal run of failures, "restored" exactly at the first success after such a run |
| `Incidents.ServiceStatusIs` | `src/server/services/monitoring.ts:93-123` | a service is unavailable from the second failure in a row on, at its baseline only after a first check that failed, else available |
| `Incidents.ChangedAtDatesStatus` | `src/server/services/monitoring.ts:166-167` | changed_at is the time of the first observation since which the status has been what it is |
| `Incidents.ThresholdLogIsExact` | `src/server/services/monitoring.ts:125-152` | a level is raised exactly when seen twice in a row and not already in force; recovery is logged exactly at a healthy level while an alarm is in force |
| `Incidents.ThresholdStatusIs` | `src/server/services/monitoring.ts:125-152` | a threshold has the status of the settled alarm, else healthy, or its baseline until a measure has been healthy or held |
| `Incidents.LastEventIsSettled` | `src/server/services/monitoring.ts:145-151` | the alarm in force is the one the last event of the log raised |
| `Incidents.JournalAlternates` | `src/server/services/monitoring.ts:125-152` | a threshold's log never repeats its last event and never starts with a recovery |
| `Incidents.HoldHolds` | `src/server/services/monitoring.ts:133-136` | "hold" changes neither status nor log nor the alarm in force |
| `Incidents.DiskAlarmHysteresis` | `src/server/services/monitoring.ts:59-65` | the disk alarm rises only on two readings, critical from 95% and a warning from 85% on, and ends only on one below 80% |
| `Incidents.TlsAlarms` | `src/server/services/monitoring.ts:66-74` | the certificate's alarm rises only on two readings, critical below 7 days and a warning below 30, and ends only from 30 days on |
| `Renumbering.ShiftSafeIff` | `src/server/services/routes.ts:138` | shifting the rows one by one, in any order, never breaks the unique position index, exactly when there are at most 10000 of them |
| `Renumbering.PlacingSafe` | `src/server/services/routes.ts:139-140` | placing the ids after the shift never breaks it, for up to 10000 ids |
| `Renumbering.PlacedLists` | `src/server/services/routes.ts:139-140` | when every row is placed once, the table is the list in the order of the ids |
| `Renumbering.ReorderListsIff` | `src/server/services/routes.ts:123-141` | of the id lists that pass the checks, exactly those without repetition leave positions 0..n-1 |
| `Renumbering.ReorderAcceptsRepeats` | `src/server/services/routes.ts:123-135` | naming the first rule again in the place of the fourth passes every check of `reorder`, in any draft with a user rule |
| `Renumbering.AcceptedRepeatBreaks` | `src/server/services/routes.ts:123-141` | and so every such draft has an accepted order that does not leave the positions 0..n-1 |
| `Renumbering.NamesAllIff` | `src/server/services/routes.ts:125-128` | a list of the right length and members names every rule exactly when it names none twice |
| `Routes.RouteService.constructor` | `src/server/db/database.ts:42-56` | the seeded draft |
| `Routes.RouteService.WriteRow` | `src/server/db/schema.ts:130` | one row write: refused exactly when another row has the position; the index holds before and after every write |
| `Routes.RouteService.ShiftAll` | `src/server/services/routes.ts:138` | phase one, with the index intact at every write; it cannot fail below 10000 |
| `Routes.RouteService.PlaceAll` | `src/server/services/routes.ts:139-140` | phase two, with the index intact at every write; it cannot fail after a shift of at most 10000 |
| `Routes.RouteService.Draft` | `src/server/services/routes.ts:36-38` | the rows in order of position |
| `Routes.RouteService.Park` | `src/server/services/routes.ts:70-73` | the new row goes in unless its position is taken |
| `Routes.RouteService.Insert` | `src/server/services/routes.ts:68-77` | shift, park, place: the new rule stands after the local networks, all others keep their order; it cannot fail below 10000 rules |
| `Routes.RouteService.Add` | `src/server/services/routes.ts:51-80` | the new draft is the specified one and well numbered, or refused exactly for an invalid value or a second catch-all; no other outcome below 10000 rules |
| `Routes.RouteService.Update` | `src/server/services/routes.ts:82-110` | the new draft is the specified one and well numbered; 404 for an unknown rule, 409 for a structural change of a locked one, 400 for an invalid value, 409 for a second catch-all, in this order, and no other refusal |
| `Routes.RouteService.UpdateLocal` | `src/server/services/routes.ts:230-246` | exactly the local networks get the action |
| `Routes.RouteService.Remove` | `src/server/services/routes.ts:112-121` | the draft without the rule, numbered again; refused exactly for unknown and locked rules |
| `Routes.RouteService.Reindex` | `src/server/services/routes.ts:266-271` | the remaining rules keep their order and get positions 0..n-1 |
| `Routes.RouteService.Reorder` | `src/server/services/routes.ts:123-144` | refused exactly by the code's checks; a list without repetition gives the draft in that order; a list with one leaves no well numbered draft |
| `Routes.RouteService.WriteDraft` | `src/server/services/routes.ts:254-264` | the draft becomes the given rules under the given ids, well numbered |
| `Routes.RouteService.AddRevision` | `src/server/services/routes.ts:155-164` | the revision gets the greatest version plus one and becomes the active one, older ones stay |
| `Routes.RouteService.Publish` | `src/server/services/routes.ts:146-182` | one revision more with the draft's rules; an empty draft is refused |
| `Routes.RouteService.Discard` | `src/server/services/routes.ts:184-192` | the draft becomes the active revision, ids included; refused when there is none |
| `Routes.RouteService.Rollback` | `src/server/services/routes.ts:194-204` | an old revision's rules become the newest revision, and under new ids the draft |
| `Routes.RouteService.Renumber` | `src/server/services/routes.ts:138-140` | both phases together; cannot fail for up to 10000 rules at positions below 10000 |
| `Routes.RouteService.Rearrange` | `src/server/services/routes.ts:137-141` | the transaction of `reorder`: well numbered in the given order exactly when no id repeats |
| `Routes.RouteService.Rows` | `src/server/services/routes.ts:36-38` | the well numbered draft in order |
| `Drafts.UpdateSets` | `src/server/services/routes.ts:82-110` | an accepted update sets exactly what it carries, on its rule alone; a local network's new action goes to all three |
| `Drafts.NextKeeps` | `src/server/services/routes.ts:51-271` | every operation keeps the shape of draft and revisions |
| `Drafts.RunKeeps` | `src/server/services/routes.ts:51-271` | over every run whose reorders repeat no id: positions 0..n-1, the three local networks first in order with one action, the only catch-all last and enabled, in the draft and in all revisions; versions 1..N with N active |
| `Drafts.DraftsStayTidy` | `src/server/services/routes.ts:51-271` | the same from a fresh installation |
| `Drafts.RevisionsStand` | `src/server/services/routes.ts:146-164` | a revision never changes once it exists |
| `Drafts.CleanAfterwards` | `src/server/services/routes.ts:24-34` | `dirty` is false right after publish, discard and rollback |
| `Drafts.RollbackRestores` | `src/server/services/routes.ts:194-204` | a rollback's new revision has exactly the target's rules, and the draft equals it up to ids |
| `Drafts.DiscardRestores` | `src/server/services/routes.ts:184-192` | discarding restores the active revision with its ids and adds none |
| `Drafts.RollbackUndoesChanges` | `src/server/services/routes.ts:194-204` | whatever was done since a revision was active, rolling back to it serves the same rules again |
| `Drafts.TidyFinds` | `src/server/services/routes.ts:129-133` | `find` gives the catch-all at the end and the three local networks at the front |
| `DraftFacts.AddPlaces` | `src/server/services/routes.ts:51-80` | an accepted rule stands right behind the three local networks, as asked, the others keep their order; refused exactly for an invalid value or a second catch-all |
| `DraftFacts.RemovePlaces` | `src/server/services/routes.ts:112-121` | exactly user rules can be removed, and the rules behind move up |
| `DraftFacts.UserRuleEdits` | `src/server/services/routes.ts:82-110` | a user rule takes any edit that leaves it valid and no second catch-all, and no other rule changes |
| `DraftFacts.LockedRuleEdits` | `src/server/services/routes.ts:82-110` | of a locked rule only the action can be edited: the catch-all's own, or that of all three local networks |
| `DraftFacts.ReorderPlaces` | `src/server/services/routes.ts:123-144` | accepted are exactly the lists that name the draft's rules with the local networks first and the catch-all last, and without repetition the rules then stand in that order |
| `DraftFacts.DirtyIff` | `src/server/services/routes.ts:24-34` | the draft is clean exactly when it has the rules of the active revision in their order, ids aside |
| `DraftFacts.PublishServes` | `src/server/services/routes.ts:146-182` | publishing makes the draft the next revision and serves it; older revisions stay |
| `DraftFacts.SeedSays` | `src/server/db/database.ts:42-56` | a fresh installation sends the three local networks direct and everything else through the proxy |
| `DraftFacts.CidrIff` | `src/server/services/routes.ts:281-284` | an accepted address block is address characters, a slash and one to three digits |
| `DraftFacts.DomainIff` | `src/server/services/routes.ts:285-288` | an accepted domain is two labels or more of letters, digits and hyphens with dots between them, perhaps after a leading dot |
| `Drafts.PublishedIsValid` | `src/server/services/routes.ts:281-289` | over every run, all values the clients are given have passed the value check |
| `Clients.LineReadsBackIff` | `src/server/adapters/clients.ts:198-210` | a rendered line reads back as its rule if and only if the value has no comma |
| `Clients.LineDecidesIff` | `src/server/adapters/clients.ts:198-210` | the line decides every destination as the rule does, if and only if the value has no comma |
| `Clients.LinesDecide` | `src/server/adapters/clients.ts:198-210` | for every destination the rendered list decides by first match as the ordered rules do, when no value has a comma |
| `Clients.EnabledDecideFirst` | `src/server/adapters/clients.ts:154-156` | leaving out the disabled rules leaves the first that matches to decide |
| `Clients.LinesLook` | `src/server/adapters/clients.ts:198-210` | the words of the lines: types, targets, a suffix without its leading dot, MATCH for the catch-all |
| `Clients.CheckedLacksComma` | `src/server/services/routes.ts:281-289` | values of DOMAIN, SUFFIX and IP_CIDR rules that passed the check have no comma |
| `Clients.MihomoFollowsPublished` | `src/server/adapters/clients.ts:77-130` | over every run of the draft: the list served decides every destination, with the action of the first published rule that is enabled and matches, when the names of site lists and countries have no comma |
| `Clients.CommaMisleads` | `src/server/adapters/clients.ts:198-210` | a GEOSITE name with a comma passes the check and its line means another rule |
| `Clients.NameWithCommaMisdecides` | `src/server/adapters/clients.ts:198-210` | a name of a site list or a country with a comma passes the check, and some destination is decided otherwise than the rule says |
| `Clients.AlwaysDecided` | `src/server/adapters/clients.ts:154-156` | some enabled rule decides every destination |
| `Incy.IncyRoutingProfile` | `src/server/adapters/clients.ts:162-196` | the loop over the rules builds the three groups in rule order, without the catch-all |
| `Incy.GroupJoins` | `src/server/adapters/clients.ts:162-176` | the entries of a group stand in the order of the rules |
| `Incy.GroupOfOne` | `src/server/adapters/clients.ts:162-176` | the entry of each kind of rule, in the group of its action alone, and none of the catch-all |
| `Incy.GroupMeans` | `src/server/adapters/clients.ts:168-176` | a group's entries match a destination exactly when one of the action's rules does |
| `Incy.IncyAgreesIff` | `src/server/adapters/clients.ts:162-196` | for rules that end in their only catch-all: whatever order the client consults the groups in, it decides as the first rule does that is enabled and matches, exactly when all such rules have one action and, if there is none but the catch-all, that is PROXY |
| `Incy.IncyFollowsPublishedIff` | `src/server/adapters/clients.ts:162-196` | the same over every run of the draft, for what is published |
| `Incy.DirectCatchAllDisagrees` | `src/server/adapters/clients.ts:162-196` | after editing the catch-all to DIRECT and publishing, the client sends any host no rule matches through the proxy where the rules send it directly |
| `Domains.ValidDomain` | `agent/internal/policy/policy.go:141-173` | the one-pass scan accepts exactly the names of 4 to 253 characters that the panel's split-and-match check accepts |
| `Domains.PassesIff` | `agent/internal/policy/policy.go:147-166` | from any point of the scan: its verdict is that of splitting at dots and matching every label |
| `Domains.Scan` | `agent/internal/policy/policy.go:145-172` | the loop computes that verdict and looks for a letter in the last label |
| `Domains.SuffixHasLetter` | `agent/internal/policy/policy.go:168-171` | the loop finds a letter exactly when there is one |
| `Domains.PanelIsScan` | `src/server/services/setup.ts:72-76` | the panel accepts exactly what the scan passes, the last label having a letter and the text not ending with a dot |
| `Domains.LabelsUpTo63` | `src/server/services/setup.ts:72-76` | a label of letters has 1 to 63 of them |
| `Domains.HyphensInside` | `src/server/services/setup.ts:72-76` | a hyphen stands inside a label, neither first nor last |
| `Domains.AgentValidIPv4` | `agent/internal/policy/policy.go:175-190` | four parts, each a byte as the agent's parser reads it |
| `Domains.AddressesAreNoDomains` | `src/server/services/setup.ts:72-76` | the panel's IPv4 exclusion is implied by the last-label rule |
| `Domains.AddressHasNoLetter` | `agent/internal/policy/policy.go:142` | so is the agent's |
| `Domains.BytesAgreeIff` | `src/server/services/setup.ts:78-81` | the two IPv4 checks agree on a part exactly when it has no sign |
| `Domains.SignedByte` | `agent/internal/policy/policy.go:180-187` | `+1` to `+9` are bytes of an address to the agent and not to the panel |
| `Domains.AgentRefusesShortest` | `agent/internal/policy/policy.go:142` | of the names up to 253 characters that the panel accepts, the agent refuses for their length exactly those of one letter or digit, a dot and one letter |
| `Domains.ThreeCharacters` | `src/server/services/setup.ts:72-76` | of three characters the panel accepts exactly one letter or digit, a dot and one letter |
| `Domains.ShortestName` | `src/server/services/setup.ts:72-76` | the panel accepts `a.b` |
| `Paging.FollowingVisitsOnce` | `src/server/services/journal.ts:177-212` | with events arriving between the calls wherever they land in the order: following `next` visits nothing twice and everything in order, and when there is no next, the events wanted at the first call have all been visited, in their order |
| `Paging.FollowingEnds` | `src/server/services/journal.ts:204-211` | there is no next as soon as the calls have room for the events from the head of the first list on |
| `Paging.NewerEventsDoNotShow` | `src/server/services/journal.ts:196-211` | when only events newer than all others arrive, what is visited is exactly what was wanted at the first call |
| `Paging.FollowVisits` | `src/server/services/journal.ts:204-211` | from any cursor: what is visited is in order, past the cursor and listed at the last call; all there was when it ends, and full pages until then |
| `Paging.PagesAreShort` | `src/server/services/journal.ts:206` | pages hold at most the limit, all but the last exactly the limit |
| `Paging.PageShows` | `src/server/services/journal.ts:177-212` | a page shows events of the log that the query asks for, scope by scope, newest first, and `total` is how many of them there are |
| `Paging.VisitedNewestFirst` | `src/server/services/journal.ts:197` | following `next` shows the events newest first |
| `Paging.Limit` | `src/server/services/journal.ts:179` | 50 when none is asked for; a limit below 1 becomes 1, one above 100 becomes 100, any other stands |
| `LineDiff.Trim` | `src/server/adapters/engines.ts:236-239` | the greedy prefix and suffix loops leave the least hunk of all |
| `LineDiff.Hunked` | `src/server/adapters/engines.ts:234-243` | for different texts, the marked lines of a least hunk, which is never empty |
| `LineDiff.MarkedReadsBack` | `src/server/adapters/engines.ts:240-243` | the marked lines can be read back from the text, and no such text says "unchanged" |
| `LineDiff.Diff` | `src/server/adapters/engines.ts:231-244` | "unchanged" exactly for equal texts; else the text reads as replacing the lines of a least hunk: those behind "- " stand in the old text, those behind "+ " in the new one in their place; all lines are added when there was no text |
| `LineDiff.OnlyEqualIsEmpty` | `src/server/adapters/engines.ts:240-243` | a hunk is empty only for equal texts |

## Left out

- HTTP routing, cookies, rendering of pages, QR codes, sockets, the command line and MCP clients: input and output only.
- SQLite, cryptography, randomness, YAML, JSON parsing, `Intl` and regular-expression engines: libraries.
- Demo mode, which bypasses the engines; WebAuthn, sessions and API tokens; journal titles, labels and `sanitize`.
- Parsing of inputs by schema (trimming, lengths, enumerations) before the services see them.
- Xray's own live user list behind the agent's add and revoke calls; the model follows the recovery config the agent installs.
- `EngineConfigService.apply`, another writer of the Xray config, and `OperationService.execute` with its progress messages.
- Archiving a person, and the profile and route fetch marks of a device: easy members beside the outbox.
- Timestamps of rows other than the `created_at` of jobs (`updated_at`, `activated_at`), actors, notes and audit records.
- DeviceSync.DeviceSyncService.OpenJob: does not model the choice of the newest open job, because there is never more than one.
- Traffic.FloorDate: does not model other widths than 5, 60 and 1440 minutes, because the code uses no others and the setters do not floor for them.
- Traffic.TrafficService.Compact: does not model a crash between its four statements, because they are not in one transaction and the claims are about completed calls.
- Presence: monotony of `last_seen_at` is not claimed; it can go back when one engine turns unknown.
- StableJson: a number is the text that is printed for it, so how numbers print is not modelled.
- Operations.OperationService.Confirm: does not model what `validate` checks; the status it throws, if any, is a parameter.
- Domains.ValidDomain: models texts by their characters; texts beyond ASCII are refused by both sides, whose length limits then count differently.
- Paging: rendering of events and the text searched by `q` are an arbitrary predicate on events.
- Renumbering.PlacingSafe: is stated for up to 10000 ids, the number the shift makes room for.
- Routes.RouteService.UpdateLocal: walks over all rules and updates the local ones, where the code filters first and then updates.
