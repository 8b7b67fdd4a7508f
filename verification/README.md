# OptionChain-Simulator: a verified model of the rolling-simulation engine

The service simulates option markets deterministically. A simulation is a list
of parameters; its output at a step is a function of them: a factor row (spot
and volatility), the option expirations alive at the simulated instant, and one
priced chain per expiration. Everything else the service does, it does so that
clients can neither notice the concurrency nor the caches. This project models
that machinery in Dafny and proves what it promises.

The modules, by the part of the system they model:

- **Rolling expiration planner** (`Gregorian`, `Zones`, `Timelines`,
  `ExpiryRules`, `Schedules`, `Periods`, `Planner`, `Inventory`, `Rolling`).
  A schedule of daily, weekly, monthly and yearly rules and one instant give
  the live expirations. Dates are proleptic Gregorian day numbers, instants are
  whole seconds, and a zone is a sorted list of (transition, offset) with
  offsets and changes under a day and transitions more than two days apart.
  The central result: each rule's projection is *exactly* its first `count`
  expirations strictly after the instant, the scan budgets (`8n + 32` days,
  `n + 2` periods) never run out first, and the merged inventory keeps that for
  every rule at once, over every run of instants.
- **v2 simulations** (`SimulationModel`, `SimulationProtocol`,
  `SimulationSafety`, `SimulationRuns`, `SimulationReach`,
  `SimulationRequests`). The manager is a
  transition system: any number of requests, one atomic action per lock, atomic
  or store call, over a compare-and-swap store, a single-flight build table and
  two caches that may lose any entry at any time; requests may be dropped at
  any await. Theorems are about every interleaving, of the whole service and of
  one request from its arrival to its answer.
- **Caches and queue** (`TapeCaching`, `SnapshotCaching`, `FilingQueue`). The
  two LRU caches in the imperative form of the source, tied to the cache steps
  of the transition system, and the bounded filing queue with its reservation
  counter as a second transition system.
- **Factor tape** (`Factors`). The expanding-window estimate and the guards in
  front of it; the decimal and pricing primitives are partial functions that
  may refuse anything.
- **Export** (`Snapshots`, `StoredSteps`, `Writing`, `Export`, `ExportedRows`,
  `Labels`, `PlannedLabels`). The prefetching reader, the one view of stored and
  replayed chains, the streaming writers, the producer, and which rows each
  dataset holds.
- **v1 sessions** (`SessionModel`, `WalkCache`, `SessionService`). The session
  lifecycle and the walk cache, proved invisible against the service that
  caches nothing.

`Results` and `Ordering` hold what the others share. `dafny verify
dfyconfig.toml` checks the whole project.

## Where code and documentation part

- The arm of the single-flight build that rebuilds when "the owner's task died
  without publishing" (`src/session/manager_v2.rs:528-530`) cannot be reached:
  the build table itself keeps the sender, so a channel whose owner was dropped
  never closes. `SimulationSafety.SenderIsHeld` proves the arm dead,
  `SimulationRuns.OrphansNeverSpeak` that the subscribers of such a channel
  wait for ever, and `SimulationRuns.DeliveryNeedsALiveOwner` that this is
  exactly when they do. `SimulationReach.OrphanIsReached` gives the run, a read
  dropped while it builds with a second read subscribed, for every simulation;
  `SimulationRuns.LateClaimersGetStuck` adds that every later request that
  misses the cache joins the silent channel. The build itself still files its
  tape, so reads that find the tape cached are served.
- The closing "could only project" refusal (`src/domain/expiry.rs:887-892`) is
  never the answer: `Inventory.ProjectRule` succeeds or fails with the refusal
  of the scan itself.
- A shorter historical horizon passes every guard the longer one passes, but
  its seeding chain is built at another volatility, its own last row's.
  `Factors.HorizonsAgree` states the result with that one condition, in both
  directions.

## Model

| member | source | states |
|---|---|---|
| `Gregorian.MonthLineUnique` | src/domain/expiry.rs:1071-1098 | every day number falls in exactly one calendar month of the 12*year+month line, the one the conversion from days to months answers |
| `Gregorian.MonthSteps` | src/domain/expiry.rs:1071-1098 | consecutive months tile the day line, 28 to 31 days each, leap years included |
| `Gregorian.YearUnique` | src/domain/expiry.rs:972-983 | every day number falls in exactly one proleptic Gregorian year |
| `Gregorian.YearLengths` | src/domain/expiry.rs:1071-1098 | day 0 is 1970-01-01, and a year has 366 days exactly if it is divisible by 400, or by 4 and not by 100 |
| `Gregorian.MonthLengths` | src/domain/expiry.rs:1071-1098 | every month has its calendar length, February 29 days exactly in the years of 366 |
| `Gregorian.WeekdaysFollow` | src/domain/expiry.rs:159-162 | 2000-01-01 is a Saturday and each weekday follows the one before, so every date has its weekday |
| `Zones.Zone.ClockReads` | src/domain/expiry.rs:854-856 | the local clock reads UTC plus the base offset before the first transition and plus the offset of the last one passed afterwards |
| `Zones.Zone.ResolveIsFirstReach` | src/domain/expiry.rs:1001-1025 | over every well-formed zone, every local reading resolves, and to the first instant at which the local clock has reached it: the earlier instant of a fold, the end of a gap |
| `Zones.Zone.ResolveIncreasing` | src/domain/expiry.rs:1001-1025 | a local reading a day or more later resolves to a strictly later instant, folds and gaps included |
| `Zones.Zone.ResolveAgainstToday` | src/domain/expiry.rs:854-856 | readings on dates before the local date of t resolve at or before t, readings two dates later resolve after t |
| `Planner.InstantIsFirstReach` | src/domain/expiry.rs:1001-1025 | the instant of a local expiration date is the first at which the local clock reaches the expiration time |
| `Planner.InstantsIncrease` | src/domain/expiry.rs:1001-1025 | expiration instants are strictly increasing in the local date, so two dates never share an instant |
| `Planner.TodaySplitsDates` | src/domain/expiry.rs:854-856 | no date before the local date of t still has its expiration ahead, so starting the scan there loses nothing |
| `Planner.DatesOnTheCalendar` | src/domain/expiry.rs:862-885 | counted from that Saturday: a daily rule has exactly the dates 2 to 6 days past a Saturday, a weekly rule the named ones of those, a monthly rule the dates on its weekday with another month a week later, a yearly rule those of its month |
| `Planner.DayBudgetSuffices` | src/domain/expiry.rs:918-943 | for every daily and weekly rule, zone, instant and count n, the first 8n+32 days from the local date of t hold at least n live expirations |
| `Planner.ScanDays` | src/domain/expiry.rs:902-943 | the day loop collects exactly the first count live expirations, with its budget never spent; it refuses only when the date increment leaves the representable dates, and then fewer than count were reachable |
| `Planner.PeriodStep` | src/domain/expiry.rs:951-987 | one period adds at most its one live expiration, in order, and no expiration lies between two periods' dates |
| `Planner.PeriodDateFinds` | src/domain/expiry.rs:862-885 | the date a monthly or yearly rule takes from its index-th period is the last weekday of that month, or a refusal exactly past the last representable month |
| `Planner.ScanPeriods` | src/domain/expiry.rs:951-987 | the period loop collects exactly the first count live expirations within n+2 periods, refusing only where a period's date is not representable and then exactly because fewer than count are reachable |
| `Planner.OnlyTheFirstPeriodIsPast` | src/domain/expiry.rs:945-987 | of the periods a scan walks only the first can have its expiration at or before t, folds at midnight included |
| `Planner.PeriodBudgetSuffices` | src/domain/expiry.rs:945-987 | so for every monthly and yearly rule n+1 periods hold n live expirations, one fewer than the scan allows itself |
| `Inventory.ProjectRule` | src/domain/expiry.rs:848-894 | for every valid rule, instant and zone the projection is exactly the count earliest expirations strictly after t; it succeeds if and only if that many are reachable, so the closing "could only project" refusal is never the answer and a refusal is the end of the calendar |
| `Inventory.NeverShort` | src/domain/expiry.rs:887-894 | at any instant far enough from the last representable date every valid rule is projected in full |
| `Inventory.ActiveAt` | src/domain/expiry.rs:815-837 | the merged inventory is strictly chronological, every entry carries a non-empty ascending set of labels of the rules that claim it, each label on exactly that rule's first count expirations; it fails exactly when some rule fails, naming the first |
| `Inventory.OtherRulesChangeNothing` | src/domain/expiry.rs:815-837 | a rule's labelled instants are the same in any two schedules that share it, so adding rules perturbs no other rule |
| `Inventory.RuleOrderChangesNothing` | src/domain/expiry.rs:815-837 | permuting the rules gives the same inventory entry by entry |
| `Inventory.InventorySize` | src/domain/expiry.rs:815-837 | deduplication only shrinks: the inventory holds at most the sum of the rules' counts |
| `Inventory.EntriesLieAhead` | src/domain/expiry.rs:754-777 | every entry of an inventory lies after the simulated instant and has positive days to expiration |
| `Inventory.DaysToExpiration` | src/domain/expiry.rs:754-777 | there is an answer exactly for an expiration still ahead, and times 86400 it is the seconds left |
| `Timelines.Timeline.FirstUnique` | src/domain/expiry.rs:848-894 | the first n live expirations of a timeline are one determined set |
| `Rolling.RollForward` | src/domain/expiry.rs:848-894 | between two instants an expiration leaves a rule's inventory exactly when its cutoff is reached, as many come in as go, and newcomers are later than everything that was there |
| `Rolling.RunsNeverGoBack` | src/domain/expiry.rs:815-894 | over any run of non-decreasing instants no step is short or holds an expired entry, and what left never comes back |
| `Rolling.ClockIncreases` | src/session/model_v2.rs:499-516 | a simulated clock that reaches a cursor reaches every earlier cursor, at strictly earlier instants |
| `Rolling.ClockTicks` | src/session/model_v2.rs:499-516 | cursor 0 is the start, each cursor is one interval after the one before, and a cursor is reached exactly when its instant is representable |
| `Rolling.ValidateSnapshotWork` | src/session/model_v2.rs:445-486 | accepts exactly the configurations whose strikes times summed counts are representable and at most the cap, and names what did not fit |
| `Rolling.EverySnapshotUnderCap` | src/session/model_v2.rs:445-516 | an accepted configuration prices at most the cap at every step of its clock, every priced expiration with time left |
| `Periods.AddMonthsMovesAlongTheLine` | src/domain/expiry.rs:1041-1054 | adding months moves exactly that far on the 12*year+month line and stays in 1..=12; it overflows exactly where the machine integers do |
| `Periods.AddMonthsComposes` | src/domain/expiry.rs:1041-1054 | two moves are one move of the sum wherever nothing overflows |
| `Periods.LastOnLineIsLast` | src/domain/expiry.rs:1071-1098 | for every month and weekday the date counted back from the month end lies in the month, has that weekday, and no later date in the month has |
| `Periods.LastWeekdayFound` | src/domain/expiry.rs:1071-1098 | the search succeeds for every month whose successor is representable, with that date |
| `Periods.LastWeekdayOutOfRange` | src/domain/expiry.rs:1071-1098 | and refuses past the last representable month |
| `ExpiryRules.NormaliseLists` | src/domain/expiry.rs:220-232 | normalised weekdays are the same set, ascending from Monday, each once |
| `ExpiryRules.NormaliseFixes` | src/domain/expiry.rs:220-232 | normalising a normal form changes nothing |
| `ExpiryRules.SameDaysSameRule` | src/domain/expiry.rs:220-232 | the same weekday set in any order or with repeats makes the same rule, or the same refusal |
| `ExpiryRules.FromPartsMeaning` | src/domain/expiry.rs:416-457 | the checked constructor accepts exactly the valid parts and then yields a valid rule with normalised days |
| `ExpiryRules.WireAccepted` | src/domain/expiry.rs:320-386 | a wire rule is accepted if and only if its kind has exactly the fields it needs, its count is in range and its parts are valid |
| `ExpiryRules.WireRefusals` | src/domain/expiry.rs:316-457 | a refused wire rule is refused for its id first, then for its kind and fields, its count, its days and its month, each refusal exactly in its case |
| `ExpiryRules.CountsStartAtOne` | src/domain/expiry.rs:392-411 | a count of zero, and no other, is refused as zero |
| `ExpiryRules.IdCharacters` | src/domain/expiry.rs:663-671 | an id may hold ASCII letters, digits, underscore and hyphen, and nothing else |
| `ExpiryRules.RuleWireRoundTrip` | src/domain/expiry.rs:296-386 | printing any valid rule to the wire and parsing it back is the identity |
| `ExpiryRules.WireNormalForm` | src/domain/expiry.rs:296-386 | parsing an accepted wire rule keeps its id, count, kind and days, an absent month becoming December, and printing it gives a normal form that parses to the same rule and prints to itself |
| `Schedules.Validate` | src/domain/expiry.rs:590-633 | accepts exactly the coherent rule lists; each refusal is given exactly for its flaw, and a repeated id is the first that repeats |
| `Schedules.NewSchedule` | src/domain/expiry.rs:534-549 | validating then sorting yields a valid schedule exactly for coherent lists of valid rules, and each refusal exactly for its flaw |
| `Schedules.Parse` | src/domain/expiry.rs:503-522 | a stored schedule parses exactly when every rule does and the list is coherent, and then to the valid schedule of its rules in id order; otherwise it refuses with the rules' own refusal or for the list's flaw |
| `Schedules.RulesFromWire` | src/domain/expiry.rs:503-522 | the rules parse exactly when each does, in their order, and otherwise the refusal is the first bad rule's |
| `Ordering.BeforeIsDictionaryOrder` | src/domain/expiry.rs:534-549 | ids stand in dictionary order: a prefix first, otherwise by the first character that differs |
| `Schedules.RuleOrderIrrelevant` | src/domain/expiry.rs:534-549 | two rule lists with the same rules in any order give one schedule, or are refused for one flaw |
| `Schedules.ScheduleRoundTrip` | src/domain/expiry.rs:503-549 | the wire rules of a valid schedule parse to its rules, which sorting leaves as they are |
| `Schedules.StoreAndLoad` | src/domain/expiry.rs:503-549 | printing a valid schedule and parsing it back is accepted and gives that schedule |
| `Schedules.SortedStaysCoherent` | src/domain/expiry.rs:534-549 | sorting by id keeps exactly the rules and their coherence |
| `SimulationModel.AdvanceIsLawful` | src/session/manager_v2.rs:267-287 | an advance is let through exactly before the horizon, keeps version equal to cursor and state in step with it, and neither checked addition can overflow |
| `SimulationModel.WalkReachesAcceptedStates` | src/session/model_v2.rs:741-879 | the documents reached by advancing are, cursor by cursor, one per step up to the horizon and none past it |
| `SimulationModel.AcceptedStatesAreWalked` | src/session/model_v2.rs:769-842 | validation accepts a document whose revision is its cursor if and only if advancing reaches it |
| `SimulationSafety.StepKeepsInv` | src/session/manager_v2.rs:237-670 | every atomic step of any request keeps the invariant of store, caches, flights, requests and filing |
| `SimulationSafety.FetchOutcome` | src/session/manager_v2.rs:261-271 | a read or advance is turned away exactly when its simulation is not stored or has served every step, and otherwise works on the stored document |
| `SimulationSafety.VerdictIs` | src/session/manager_v2.rs:261-291 | the document an advance saves is the fetched one a step on, and saving answers not found, conflict or that document as the store and the commits so far say |
| `SimulationSafety.CommitOutcome` | src/session/manager_v2.rs:261-291 | a compare-and-swap commits exactly when nobody committed since the read, conflicts exactly when somebody did, and is not found exactly when the document went |
| `SimulationSafety.SenderIsHeld` | src/session/manager_v2.rs:522-532 | while a request waits, its channel has spoken or its sender still exists: the arm that rebuilds after a lost owner is never reached |
| `SimulationSafety.ReceiveIsPure` | src/session/manager_v2.rs:522-530 | whoever waited receives what the owner's one build returned, tape or reason |
| `SimulationRuns.RunKeepsInv` | src/session/manager_v2.rs:237-670 | every state of every interleaving meets the invariant |
| `SimulationRuns.AdvancesServeEachStepOnce` | src/session/manager_v2.rs:261-303 | in every interleaving the committed advances of a simulation serve steps 0, 1, 2, ... once each, never past the horizon, each with the pure snapshot; the stored document has version = cursor = their number, the state that belongs to it, and is accepted by validation |
| `SimulationRuns.AnswersAreUncached` | src/session/manager_v2.rs:237-303 | every answer of a peek or advance is the snapshot an uncached read of that simulation's parameters at that step would build, late filings and evictions included; no request ever fails on an overflow, an invalid document or an error state |
| `SimulationRequests.PeeksOnlyLook` | src/session/manager_v2.rs:237-245 | in every continuation of a peek's arrival no committed step is its own, none of its steps changes a document, the log or what is filed, and its answer is a document still at the step shown with that step's own snapshot |
| `SimulationRequests.AdvancesTakeTheirStep` | src/session/manager_v2.rs:261-303 | in every continuation of an advance's arrival its answer is a document one past the step shown, completed exactly at the horizon, and the log has that step with that snapshot as this request's |
| `SimulationRequests.FetchedDocumentIsAnswered` | src/session/manager_v2.rs:237-303 | whatever happens after its fetch, a read ends on the document it fetched: with it as it was or one step on, or with the reason its build, its pricing, a concurrent commit or a removal gave |
| `SimulationRequests.RequestsEnd` | src/session/manager_v2.rs:237-381 | in every interleaving a read or delete takes at most sixteen steps of its own |
| `SimulationRequests.OnlySilenceBlocks` | src/session/manager_v2.rs:496-532 | and can take the next one unless it waits on a channel that has not spoken |
| `SimulationRequests.CommitsAreFiled` | src/session/manager_v2.rs:288-303 | a committed advance files the very step it served if the queue admits it, and evicts the caches exactly when it served the last |
| `SimulationRequests.CachesAreUsed` | src/session/manager_v2.rs:444-475 | a cached snapshot or tape is used, and one that was built is cached |
| `SimulationRequests.EvictionsTakeTheirList` | src/session/manager_v2.rs:654-670 | an eviction drops the tape and then exactly the snapshots of each simulation in turn |
| `SimulationRequests.DeletedStaysDeleted` | src/session/manager_v2.rs:372-401 | a delete or sweep takes exactly its simulations out of the store, they stay out in every continuation, and it answers the truth about what it found |
| `SimulationRequests.AbandonedBuildsStillFile` | src/session/manager_v2.rs:488-496 | a build whose request was dropped files its tape when it finishes |
| `SimulationRuns.AdvancesAnswerDistinctSteps` | src/session/manager_v2.rs:261-303 | no two advances of one simulation are answered with the same step |
| `SimulationRuns.FiledStepsWereServed` | src/session/manager_v2.rs:330-370 | only committed steps are filed, each at most once |
| `SimulationRuns.OneBuildPerSimulation` | src/session/manager_v2.rs:496-520 | at most one build per simulation runs at a time, counting the builds dropped requests leave running on their own, and the tape cache stays within its capacity |
| `SimulationRuns.SubscribersAreServed` | src/session/manager_v2.rs:534-556 | in every interleaving that does not drop the owner, three steps of the owner, however spread out, leave the one result on every subscriber's channel for good |
| `SimulationRuns.WaitersAreServed` | src/session/manager_v2.rs:522-556 | in a run that drops no request, whoever waits has the owner's result ready or a live owner at most three of its own steps from sending it |
| `SimulationRuns.OrphansNeverSpeak` | src/session/manager_v2.rs:505-556 | after an owner is dropped mid-build its channel stays silent in every continuation and its subscribers wait until dropped themselves |
| `SimulationRuns.ClaimersJoinTheOrphan` | src/session/manager_v2.rs:507-526 | a channel whose owner was dropped stays listed, so a request that comes to claim the build subscribes to it |
| `SimulationRuns.LateClaimersGetStuck` | src/session/manager_v2.rs:496-556 | in every continuation of such a drop, whoever comes to claim that simulation's build waits on the silent channel from then on, until dropped |
| `SimulationRuns.DeliveryNeedsALiveOwner` | src/session/manager_v2.rs:496-556 | a channel can still deliver if and only if its owner was not dropped before publishing |
| `SimulationReach.EveryCursorIsReached` | src/session/manager_v2.rs:197-303 | some run stores each cursor up to the horizon |
| `SimulationReach.StoredIffAccepted` | src/session/model_v2.rs:769-842 | a document is stored by some run if and only if validation accepts it at the revision its cursor says, when every step prices |
| `SimulationReach.ColdReadsCanBeOrphaned` | src/session/manager_v2.rs:496-556 | at any cursor before the horizon, a simulation that is neither cached nor being built can lose the owner of its next build with a second request left waiting for ever |
| `SimulationReach.OrphanIsReached` | src/session/manager_v2.rs:496-556 | for every id and accepted horizon some run from the empty service orphans the build and leaves a request stuck on it, with the simulation stored |
| `TapeCaching.TapeCache.CacheTape` | src/session/manager_v2.rs:611-651 | files the tape, keeps at most max entries, forgets none younger than one it keeps and no more than it must |
| `TapeCaching.TapeCache.CachedTape` | src/session/manager_v2.rs:588-596 | answers what is held and changes nothing but its recency |
| `TapeCaching.TapeCache.LeastRecentlyUsed` | src/session/manager_v2.rs:631-636 | the victim is an entry no other is older than |
| `TapeCaching.TapeCache.Evict` | src/session/manager_v2.rs:654-663 | drops one simulation's tape; every other is found as before |
| `TapeCaching.FilingIsAProtocolStep` | src/session/manager_v2.rs:611-651 | what a filing leaves readers is one of the cache steps the concurrent model takes |
| `FilingQueue.QueueIsConserved` | src/session/manager_v2.rs:130-165 | in every run the atomic counter is exactly the rows reserved by filers, in the channel and in the writer's hand, never negative; the channel keeps its depth; records leave in the order they entered, none lost or doubled |
| `FilingQueue.FiledExactlyWhenThereIsRoom` | src/session/manager_v2.rs:330-370 | a filing that meets no other is enqueued and counted exactly when the channel has a place and the rows fit under the cap, and otherwise leaves the queue as it was |
| `FilingQueue.NoUnderflow` | src/session/manager_v2.rs:330-370 | no undo and no release takes the counter below zero |
| `FilingQueue.OvershootIsBounded` | src/session/manager_v2.rs:330-370 | with at most k filers between check and reservation and at most M rows each, the counter exceeds the cap by at most (k-1)*M |
| `FilingQueue.OvershootIsReached` | src/session/manager_v2.rs:330-370 | and k filers that all read before any reserves do reach that bound |
| `FilingQueue.AloneNeverOvershoots` | src/session/manager_v2.rs:330-370 | without concurrency the cap is never passed |
| `SnapshotCaching.SnapshotCache.WithBounds` | src/domain/series.rs:348-355 | both bounds floor at one and the empty cache meets them |
| `SnapshotCaching.SnapshotCache.Get` | src/domain/series.rs:409-413 | answers what is held, refreshes it, and keeps the running total and both bounds |
| `SnapshotCaching.SnapshotCache.Insert` | src/domain/series.rs:420-466 | a snapshot heavier than the budget is not cached and only its old entry goes; any other is cached beside the longest most-recent part of the rest that fits both remaining bounds |
| `SnapshotCaching.SnapshotCache.LeastRecentlyUsed` | src/domain/series.rs:512-521 | the victim is the one entry with the least last access and, among those, the least key |
| `SnapshotCaching.OldestGoFirst` | src/domain/series.rs:512-531 | a part is most-recent exactly if whatever was dropped was accessed before whatever stayed, ties going by key |
| `SnapshotCaching.SnapshotCache.EvictTo` | src/domain/series.rs:524-531 | evicts the oldest entries and keeps every most-recent part that fits the count |
| `SnapshotCaching.SnapshotCache.EvictToContracts` | src/domain/series.rs:502-509 | evicts the oldest entries and keeps every most-recent part that fits the budget |
| `SnapshotCaching.SnapshotCache.EvictSimulation` | src/domain/series.rs:483-495 | drops exactly the entries whose key names the simulation and counts them |
| `SnapshotCaching.SnapshotCache.RemoveEntry` | src/domain/series.rs:472-476 | takes exactly the entry's weight off the running total, which stays the true sum |
| `SnapshotCaching.LongestFitIsUnique` | src/domain/series.rs:420-466 | what an insertion keeps is determined |
| `SnapshotCaching.NothingIsEvictedInVain` | src/domain/series.rs:420-466 | nothing is evicted if and only if everything fits |
| `SnapshotCaching.InsertOnlyForgets` | src/domain/series.rs:420-466 | for readers an insertion is the cache step the concurrent model takes |
| `Factors.LogReturns` | src/domain/factors.rs:649-689 | answers, for every two consecutive prices, the log of the later over the earlier, exactly when each pair has one, and otherwise names the first pair that has none |
| `Factors.ExpandingWindowVolatilities` | src/domain/factors.rs:572-626 | the loop answers one estimate per price, points 0 and 1 carrying the first, or the first refusal |
| `Factors.Build` | src/domain/factors.rs:153-263 | the guards in their order, the seeding chain, the walk, the volatilities and the rows, or the first refusal |
| `Factors.ReturnsOfPrefix` | src/domain/factors.rs:649-689 | the returns of a prefix are the prefix of the returns |
| `Factors.WindowSeesOnlyThePast` | src/domain/factors.rs:586-612 | the estimate at a point is the constant volatility of the prices seen by then |
| `Factors.ConstantIsVolatility` | src/domain/factors.rs:516-560 | a stretch of prices has the annualised dispersion of its log returns as its volatility |
| `Factors.ExpandingIsCausal` | src/domain/factors.rs:572-626 | the estimates exist exactly when every causal volatility does, and are those, aligned with the prices |
| `Factors.HistoricalTape` | src/domain/factors.rs:153-263 | a historical tape of three steps or more is accepted exactly under stated conditions on its first steps prices, and row i carries price i and the volatility of the prices up to it |
| `Factors.HistoricalRowsPriceThePast` | src/domain/factors.rs:153-263 | row i of a historical tape carries price i and the annualised dispersion of the log returns of the prices up to it, of the first three for the rows before the third |
| `Factors.GuardsInOrder` | src/domain/factors.rs:323-399 | the parameters, the method, the length of the series and its first zero are refused in that order, each exactly in its case |
| `Factors.SyntheticTape` | src/domain/factors.rs:153-263 | a synthetic tape is accepted exactly when its guards, seeding chain, path, volatilities and clock allow, and its rows are the path's prices with the path's own volatilities or the agreed constant |
| `Factors.TapeIsCausal` | src/domain/factors.rs:363-399 | series that agree on the walked window give the same tape or the same refusal, whatever follows |
| `Factors.HorizonsAgree` | src/domain/factors.rs:452-526 | if n steps build then for 3 <= m <= n the m-step tape is the first m rows, seeded at row m-1's volatility; it fails exactly when no seeding chain builds there |
| `Factors.ShorterIsAccepted` | src/domain/factors.rs:452-526 | an accepted series passes every guard at every shorter horizon |
| `Factors.ShortHorizonsAreRefused` | src/domain/factors.rs:441-446 | a historical horizon under three steps is always refused, for zero volatility where nothing refuses first |
| `Factors.FlatOpeningsAreRefused` | src/domain/factors.rs:766-806 | a series without dispersion in its first three prices is refused however it goes on |
| `Snapshots.StoredShowsTheSame` | src/api/rest/export.rs:312-436 | a record filed for a snapshot renders, expiration by expiration and quote by quote, exactly what replaying it renders |
| `Snapshots.CountsAgree` | src/session/snapshot_record.rs:43-99 | the rows counted before filing are the rows of the record filed |
| `Snapshots.RecordHoldsTheSnapshot` | src/session/snapshot_record.rs:53-99 | a record is of its simulation and step, at the snapshot's instant, spot and volatility, with every quote of every expiration figure by figure and in order |
| `StoredSteps.WindowFits` | src/api/rest/export.rs:447-455 | a window is never reversed, never passes the range, and is as wide as asked until the range ends |
| `StoredSteps.SixRefusalsReachOne` | src/api/rest/export.rs:550-553 | halving 64 takes six refusals to reach one |
| `StoredSteps.Reader.Try` | src/api/rest/export.rs:535-575 | one read either takes over the window, halves its width for another try, or degrades, the last only at a failure or at a refusal it cannot narrow |
| `StoredSteps.Reader.Load` | src/api/rest/export.rs:533-576 | fills the window that starts right after the last granted one and is as wide as the width left, up to the end of the range, halving on refusal and degrading on anything else |
| `StoredSteps.Reader.Take` | src/api/rest/export.rs:507-525 | until the reader degrades the answer is what the warehouse held of that step when its window was read, afterwards nothing; at most seven reads ever fail |
| `StoredSteps.TilesAreConsecutive` | src/api/rest/export.rs:533-576 | granted reads start at the first step and follow one another without gap or overlap |
| `Export.Resolve` | src/api/rest/export.rs:219-264 | accepts exactly the ranges inside the horizon, in order and within the row cap, an absent lower bound being step 0 and an absent upper one the last step |
| `Export.RangeRefusals` | src/api/rest/export.rs:219-264 | an empty horizon, a lower bound past the end, an upper one, and bounds out of order are each refused as such, in that order |
| `Export.StoredRowsAreReplayed` | src/api/rest/export.rs:746-775 | a stored record contributes the rows its replay would |
| `Export.Produce` | src/api/rest/export.rs:730-800 | for every range, store, pattern of refused or failed reads and moment the client leaves, what is sent is what the plain full replay sends |
| `Export.FullReplayIsTheDocument` | src/api/rest/export.rs:812-882 | the chunks of a full replay concatenate to the document its rows make when printed at once, JSON or CSV |
| `Export.FailedReplayIsCutShort` | src/api/rest/export.rs:730-800 | a replay that fails sends the opening and exactly the rows of the steps before the one that failed, and ends in that step's error |
| `ExportedRows.UnderlyingRows` | src/api/rest/export.rs:910-922 | the underlying export has one row a step, in order, of the tape's step and instant, with its spot as the price |
| `ExportedRows.VolatilityRows` | src/api/rest/export.rs:923-928 | the volatility export has one row a step, in order, of the tape's step and instant, with its base volatility |
| `ExportedRows.UnderlyingIgnoresVolatility` | src/api/rest/export.rs:910-922 | tapes with the same steps, instants and spots export the same underlying |
| `ExportedRows.ChainRows` | src/api/rest/export.rs:929-965 | the chain export has one row a quote, by step, expiration and strike in order, each with its expiration's instant and days, a label column that splits to its labels, and every figure of that quote |
| `Writing.StreamedIsOneArray` | src/api/rest/export.rs:812-882 | for every sequence of per-step row lists, empty ones included, prologue, chunks and epilogue are one array of all rows in order (section 5 of RFC 8259) |
| `Writing.ArraysJoin` | src/api/rest/export.rs:812-882 | one value is that value between brackets and two arrays join by a comma (section 5 of RFC 8259) |
| `Writing.Writer.Rows` | src/api/rest/export.rs:850-882 | a step's chunk extends the open document by exactly its rows, with a comma before every row but the very first |
| `Writing.Writer.Epilogue` | src/api/rest/export.rs:837-842 | closing leaves exactly the one-shot document of the rows written |
| `Labels.SplitUndoesJoin` | src/api/rest/export.rs:936-936 | splitting the joined label column gives the labels back |
| `Labels.JoinAdds` | src/api/rest/export.rs:936-936 | the column is the labels in order with a bar between any two |
| `PlannedLabels.AcceptedIdsDecode` | src/domain/expiry.rs:647-673 | for every non-empty list of accepted rule ids the column decodes |
| `PlannedLabels.JoinIsInjective` | src/api/rest/export.rs:995-995 | two label lists with one column are one list |
| `PlannedLabels.PlannedLabelsDecode` | src/domain/expiry.rs:815-837 | every label column the planner can produce decodes |
| `SessionModel.Session.AdvanceStep` | src/session/model.rs:384-401 | moves the cursor one on below the total, completing at it, and refuses at the end without a change |
| `SessionModel.Session.Reinitialize` | src/session/model.rs:451-457 | restarts on the new parameters with the total and cursor synced |
| `SessionModel.Session.BumpVersion` | src/session/model.rs:487-493 | the revision moves by one or refuses to wrap |
| `SessionModel.AdvanceState` | src/session/state_handler.rs:21-49 | takes every active session short of its total one step on, to in-progress or completed, and refuses the terminal states untouched |
| `WalkCache.ResolvingSettles` | src/domain/simulator.rs:407-458 | resolving a source is done once for all and leaves the walk as it was |
| `WalkCache.WalkIsOfTheRequestedData` | src/domain/simulator.rs:407-458 | parameters that lack nothing are walked as they are; a historical source without enough prices is loaded for its own symbol, timeframe, length and seed |
| `WalkCache.SymbolIsKept` | src/domain/simulator.rs:430-458 | a session that names its instrument keeps it, with its timeframe and everything but its source, when loads answer what they are asked |
| `WalkCache.OnlyTheRequestedDataMatters` | src/domain/simulator.rs:407-458 | databases that answer a session's one query alike give it one walk |
| `WalkCache.Simulator.CreateRandomWalk` | src/domain/simulator.rs:407-540 | builds exactly the walk of the resolved parameters and reports a resolution exactly when it fetched one |
| `WalkCache.Simulator.EnforceCapacity` | src/domain/simulator.rs:118-131 | evicts down to the bound, oldest first, and no further |
| `WalkCache.Simulator.SimulateNextStep` | src/domain/simulator.rs:189-311 | with a coherent cache the served chain is the uncached walk of the parameters at the cursor, and the session leaves with its source resolved whichever call built the walk |
| `WalkCache.Simulator.RemoveSession` | src/domain/simulator.rs:552-559 | removes exactly one walk and tells whether it was there |
| `SessionService.SessionManager.GetNextStep` | src/session/manager.rs:140-197 | answer and stored session are those of the service without a cache |
| `SessionService.SessionManager.PeekCurrentStep` | src/session/manager.rs:227-258 | answers as without a cache and stores nothing |
| `SessionService.SessionManager.RestartSession` | src/session/manager.rs:287-356 | PATCH and PUT store the restarted session, one revision on |
| `SessionService.SessionManager.DeleteSession` | src/session/manager.rs:375-384 | removes session and walk |
| `SessionService.SessionManager.ServeAll` | src/session/manager.rs:140-384 | every run of requests, with walks forgotten at will in between, is answered as without a cache, within the cache bound |
| `SessionService.RunsSettle` | src/session/manager.rs:140-384 | after any run every stored session has its state in step with its cursor, and resolved parameters once an advance has persisted |
| `SessionService.AdvanceServesTheCurrentWalk` | src/session/manager.rs:140-197 | after any run an advance serves the chain of the current walk at the cursor and stores parameters that differ in the source alone, keep its symbol, walk the same walk and need no resolving |
| `SessionService.AdvanceOutcome` | src/session/manager.rs:140-197 | an advance is refused for no such session, every step served, no walk or none at the cursor, or no revision left, in that order, and changes nothing then |
| `SessionService.PeekLooksAtTheNextChain` | src/session/manager.rs:227-258 | a peek serves the chain the next advance would and leaves every session as it was |
| `SessionService.RequestsDoWhatTheySay` | src/session/manager.rs:65-425 | creating, restarting, deleting and expiring leave the sessions they name as they say, answer with the truth, and touch no other |
| `SessionService.OtherDataChangesNoAnswer` | src/session/manager.rs:140-258 | what the database holds for other queries changes no answer |
| `SessionService.RestartServesFromTheStart` | src/session/manager.rs:287-356 | after a restart the next serve, peek or advance, is the first chain of the new walk, or the refusal that walk deserves; an advance may still refuse to wrap the revision |

## Left out

- HTTP routes, handlers, request parsing, metrics, logging and configuration: no hard claim of their own.
- Redis, MongoDB and ClickHouse: the store is an abstract map with compare-and-swap, the warehouse an abstract answer to each read; the Redis expiry of documents is the `Expire` action.
- Option pricing, Greeks, skew, smile and chain building: uninterpreted functions of parameters, spot, volatility and days; a chain is taken to have at most 2n+1 strikes.
- The stochastic walk kernels: a walk is an uninterpreted function of seed and parameters; the historical walk replays its series.
- Rendering of numbers and timestamps, CSV quoting, serde mechanics beyond the rule and schedule wire structs, and the text of error messages: a refusal is its kind and, where the code gives one, its index or rule id.
- Wall-clock values: recency is a logical counter, and idle expiry a nondeterministic action.
- UUID generation: ids are fresh and never reused.
- Sub-second instants and leap-second times: instants are whole seconds, as the service normalises them.
- Zone changes of 24 hours or more, and transitions less than two days apart: excluded by `Zones.Zone.WellFormed`.
- The byte length of a rule id: ids are measured in characters; the accepted character set is ASCII, where the two agree on every id that passes.
- `FactorTape::build` panicking inside its blocking task: building is a total function that may answer with an error.
- Poisoned mutexes: every lock recovers the data.
- Fairness of the scheduler: `SimulationRuns.SubscribersAreServed` counts the owner's own steps instead.
- FilingQueue.QueueIsConserved: claims first-in first-out order of what was enqueued, not that concurrent advances enqueue in step order.
- SessionService.SessionManager.ServeAll: takes each v1 request as one atomic step, so the walk build outside the lock and the `or_insert` race are not modelled; it covers seeded sessions only, since an unseeded walk is not a function of its parameters.
- WalkCache.ResolvingSettles: the database answers one seeded query always the same way; a database whose contents change between two fetches is not modelled.
- SimulationModel.AcceptedStatesAreWalked: of the parameters' own validation and the schema version only the range of `steps` is modelled; the rest is fixed when a simulation is created.
- Factors.Build: `wellFormed` stands for the parameter checks that do not look at the horizon.
- `Session::modify_parameters` and `SessionV2` accessors: no route uses the first, and the rest read one field.
- `src/domain/series.rs` chain lookup by date or rule id: linear searches without a hard claim.
