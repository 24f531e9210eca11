# Budget ledger, quota mirror, relay, price schedule and device grants

A Dafny model of the parts of an AI gateway that decide who is charged what, and proofs about them. `dafny verify dfyconfig.toml` checks everything.

Amounts are whole numbers of 10^-8 CNY, prices are 10^-8 CNY per million tokens, times are milliseconds. Both rounding modes are written out: estimates round up, charges round half up. Fingerprints, hashes and secrets are the values they identify.

| files | what they model |
|---|---|
| `Money.dfy`, `Sums.dfy` | estimates and charges; sums over tables |
| `LedgerSpec.dfy`, `LedgerCoherence.dfy`, `Ledger.dfy` | the durable budget ledger. The description has no period totals: they are sums over the requests. The class `GroupLedger` keeps the two columns by increments, as the database does, and is proved to agree with it |
| `LedgerOperations.dfy`, `LedgerMirror.dfy` | when each operation is accepted and what it writes, field by field; what an entry keeps for the mirror |
| `Recovery.dfy` | the search for expired leases and the sweep that recovers them |
| `LedgerSafety.dfy`, `LedgerReplay.dfy`, `LedgerRoutes.dfy` | what holds over every run: limits, dispatch and release, retries, agreement of entry, log and routes |
| `QuotaSpec.dfy`, `QuotaStore.dfy` | the quota scripts: markers, and the counters and slots that the scripts increment, proved equal to the sums over the markers |
| `QuotaOperations.dfy` | when each script is let through and what it moves |
| `QuotaClock.dfy` | the mirror in time: expiring slots, renewals, and what a slot counts |
| `TwoStores.dfy`, `SyncProgress.dfy` | synchronisation of ledger and mirror as interleaved steps, with crashes and repeats: safety over every interleaving, and exactly when an undisturbed synchronisation succeeds |
| `BudgetPreparation.dfy`, `Relay.dfy`, `RequestSafety.dfy`, `GroupRequest.dfy` | one budgeted request with fail-over, driving the real `GroupLedger` amid everybody else's calls, with lost calls and lost replies |
| `RequestCharge.dfy`, `BudgetedRelay.dfy` | what a request is charged, said of its answers; the whole request |
| `DispatchHistory.dfy` | what the ledger holds of a request when it is sent, and afterwards |
| `UnreportedAnswer.dfy` | a whole request that is charged more than it held |
| `CostSchedule.dfy`, `CostResolution.dfy`, `RuleTable.dfy` | weekly price rules: matching, grids, conflicts, resolution, and the maintained rule table |
| `NextTransition.dfy`, `LateBoundaries.dfy` | the search for the next change of price, and which boundaries mislead it |
| `StreamUsage.dfy` | usage collected from a stream, chunk by chunk |
| `DeviceGrantSpec.dfy`, `DeviceGrantSafety.dfy`, `DeviceGrantOperations.dfy`, `DeviceGrants.dfy` | device grants, their one-time links and the devices they bind: what every state keeps, who may do what, the service |

What the environment decides is a parameter: what others call before each call of a request, whether a call or its reply gets lost, what each fetch comes back with, when the client goes away, the results of authorization and membership lookups, the clock.

Six expectations do not hold of the code as it stands. Each has a concrete input that shows it, and the exact condition under which it is proved to hold:

- The search for the next price change has an early exit for rules that list seven days. A rule that lists one day seven times is valid and fools it (`RepeatedDaysFoolTheExit`). Where the exit is taken, its answer is right if and only if no enabled rule is valid, or the first valid one in order of precedence lists seven different days (`StaticExitExactly`).
- The search can miss a change when a validity boundary falls late into a scanned window (`LateBoundaryHidesAChange`). A window is blind when fewer than all the minutes of a week follow one of its boundaries and no other boundary comes up to the next whole minute. The search is right about every schedule with given boundaries if and only if none of its windows is blind (`SpacingExactly`). The window, named a week in the source, is eight days long; the eighth day is what leaves room for boundaries within the first.
- Settling over a held log without bringing routes leaves the old route costs in place (`SettlingWithoutRoutesLeavesStaleOnes`); `SettledRoutesAgreeExactly` says precisely when the records still agree. The relay always brings its routes (`CommitBringsRoutes`).
- A usage report beyond the prepared token bounds can cost more than was put on hold (`UnboundedUsageOverruns`). An amount covers all usage within given counts exactly as `CoversExactly` says, and a usage is covered whatever the prices if and only if it is within the prepared bounds (`CoveredExactlyWithin`).
- A good answer that reports no usage is charged for tokens guessed from its bytes, whatever output limit it was sent with: a request can be charged a hundred times its hold (`UnreportedAnswersOverrun`). The guess is covered whatever the prices if and only if the answer has at most four bytes for each prepared output token (`UnreportedCoveredExactly`, `UnreportedStreamCoveredExactly`).
- An attempt is marked as dispatched and then sent in two steps, and recovery may come in between: a request can be sent while its entry already waits for reconciliation (`RecoveredBeforeTheFetch`). At the fetch the entry is still reserved if and only if nobody put it in doubt or recovered it after its lease since the mark; it is dispatched and keeps its hold in either case (`FetchedAfterMark`).

A request's answers are covered when upstream reports are within the prepared bounds and unreported good answers have at most four bytes for each prepared output token. With covered answers no call of a request overruns its hold, whatever the fail-over (`RequestNeverOverruns`).

Conservation and limit safety are stated of all periods and all runs; every method of `GroupLedger` keeps its columns equal to the sums, so `Serve` and `Execute` carry it over any sequence of calls.

## Model

| member | source | states |
|---|---|---|
| Money.ActualWithinEstimate | packages/quota/src/group-budget.ts:80-85 | The charge for any usage inside the prepared token bounds at any listed price, rounded half up, is at most the estimate, rounded up |
| Money.EstimateMonotone | packages/quota/src/group-budget.ts:80-85 | Dropping prices never raises the estimate, and an estimate over fewer prices exists whenever the larger one does |
| Money.EstimateIsTight | packages/quota/src/group-budget.ts:80-85 | Some bounded usage at some listed price costs all of the estimate but at most one unit: the estimate is no looser than rounding makes it |
| Money.EstimateExactly | packages/quota/src/group-budget.ts:80-85 | The estimate is the least whole amount covering the worst case at every listed price; without a price there is none |
| Money.ChargeByKind | packages/gateway-core/src/cost.ts:40-50 | Every token is charged at the price of its kind, cached or not, reasoning or not, and the sum is rounded once |
| Money.CoversExactly | packages/quota/src/group-budget.ts:80-85 | An amount covers every usage within given token counts at a price if and only if it covers their worst case at that price, rounded half up |
| Money.UnboundedUsageOverruns | packages/gateway-core/src/cost.ts:40-50 | A concrete usage one token beyond the bounds that costs twice the estimate |
| Money.CoveredExactlyWithin | packages/quota/src/group-budget.ts:80-85 | A usage is covered by the estimate at every price list if and only if it stays within the prepared token bounds |
| Money.GuessCoveredExactly | packages/gateway-core/src/relay.ts:124-132 | Tokens guessed from the bytes of an answer are covered at every price list if and only if the answer has at most four bytes for each prepared output token |
| BudgetPreparation.PreparedBoundsHold | packages/quota/src/group-budget.ts:25-78 | A prepared body has no more bytes than its input bound, there is at least one token each way, and the two bounds fit the context |
| BudgetPreparation.PreparedExactly | packages/quota/src/group-budget.ts:25-78 | Prepared if and only if the content can be priced, the limits are agreeing token counts in the protocol's own fields and fit the context; with exactly these bounds and this one limit left |
| BudgetPreparation.BytesAre | packages/quota/src/group-budget.ts:72-73 | What each output limit adds to the length of the body |
| Money.HighestIsAMaximum | packages/quota/src/group-budget.ts:80-85 | The price set is represented by its dearest member: an upper bound over all prices that one of them attains |
| Money.ProcurementTotalIsTheCharge | packages/gateway-core/src/cost.ts:27-38 | The audited total is exactly what a request is charged, and the four separately rounded parts miss it by at most two units |
| Money.PartsAreCharges | packages/gateway-core/src/cost.ts:27-38 | Each audited part is what the tokens of its kind alone would be charged |
| QuotaSpec.SettledIsFinal | packages/quota/src/redis-quota.ts:79-107 | No script loses a marker; a settled marker keeps its actual amounts and never goes back to an older correction version |
| QuotaSpec.ScriptWritesOneMarker | packages/quota/src/redis-quota.ts:20-188 | A script touches the marker of its own reservation and no other |
| QuotaSpec.EvalKeepsWellFormed | packages/quota/src/redis-quota.ts:20-188 | Every script keeps markers under their own keys, uncorrected while reserved, and in generations that exist |
| QuotaSpec.DeliverOne | packages/quota/src/redis-quota.ts:172-188 | A correction issued to a request is never refused by its settled marker and leaves it at the newer of the two versions |
| QuotaSpec.DeliveriesConverge | packages/quota/src/redis-quota.ts:172-188 | Any duplicated, dropped or reordered delivery of issued corrections ends at the cost of the highest version delivered |
| QuotaSpec.RepeatedOperationSticks | packages/quota/src/redis-quota.ts:177-181 | Concrete deliveries that show operations must differ: one operation id under two versions leaves the older cost in force |
| QuotaSpec.HoldingIsACount | packages/quota/src/redis-quota.ts:56-63 | The number a concurrency slot must hold is the number of reserved, unreleased markers of its current generation |
| QuotaSpec.LateSettleSparesTheNewGeneration | packages/quota/src/redis-quota.ts:93-94 | Settling a request of an expired generation takes no place from the generation that replaced it |
| QuotaSpec.ConcurrencyLimitHolds | packages/quota/src/redis-quota.ts:45-63 | A new reservation admitted under a concurrency limit leaves its slot within that limit |
| QuotaSpec.RateLimitsHold | packages/quota/src/redis-quota.ts:45-46 | A new reservation admitted under the rate limits leaves the requests of its second and the tokens of its minute within them |
| QuotaOperations.ReservedExactly | packages/quota/src/redis-quota.ts:45-51 | A new reservation is let through if and only if each of its seven limits that is set has room, counted over the markers |
| QuotaOperations.RefusalNamesALimit | packages/quota/src/redis-quota.ts:45-51 | The error of a refusal names a limit that is set and has no room |
| QuotaOperations.ReserveAgainExactly | packages/quota/src/redis-quota.ts:22-29 | A marker that exists answers the same reservation while it is reserved and refuses any other; nothing is counted again |
| QuotaOperations.ReserveMoves | packages/quota/src/redis-quota.ts:52-66 | Every window moves by what the reservation brings to it, and its marker is written in the slot's generation |
| QuotaOperations.QuotasHold | packages/quota/src/redis-quota.ts:48-51 | An admitted reservation leaves its day's and month's tokens and costs within their limits |
| QuotaOperations.ReachedMeans | packages/quota/src/redis-quota.ts:40-44 | A percentage is reached when one of the four quotas that is set is filled that far |
| QuotaOperations.ExpiryMeans | packages/quota/src/redis-quota.ts:56-63 | A slot lives ten minutes from a new reservation in it and from a renewal out of its own generation |
| QuotaOperations.SettledExactly | packages/quota/src/redis-quota.ts:81-89 | Refused if and only if the marker is missing or settled at other amounts; a repetition repeats the verdict |
| QuotaOperations.SettleMoves | packages/quota/src/redis-quota.ts:90-105 | A first settlement moves every window by actual minus estimate and records the amounts |
| QuotaOperations.SettlementVerdict | packages/quota/src/redis-quota.ts:95-101 | The verdict of a first settlement, answered and recorded: one of the four quotas is set and exceeded by what is counted then |
| QuotaOperations.RenewedExactly | packages/quota/src/redis-quota.ts:160-170 | Renewed if and only if reserved, for two more minutes |
| QuotaOperations.ReleasedExactly | packages/quota/src/redis-quota.ts:151-158 | A reserved marker is released and any other is left alone |
| QuotaOperations.CorrectedExactly | packages/quota/src/redis-quota.ts:172-188 | Refused if and only if the marker is missing, not settled, or remembers another cost for a current operation |
| QuotaOperations.CorrectMoves | packages/quota/src/redis-quota.ts:172-188 | A correction that is news moves both cost windows from the cost in force to the corrected one; any other moves nothing |
| QuotaStore.Store.Reserve | packages/quota/src/redis-quota.ts:20-77 | The incremented counters, rates and slot still equal the sums over the markers; reply and markers are the specified ones, limits checked in order; the slot's expiry is put off; the alerts are, in order, exactly the thresholds some window reaches with this reservation that none had reached before |
| QuotaStore.Store.Settle | packages/quota/src/redis-quota.ts:79-107 | Settling by differences keeps every counter and slot equal to the sums, repeats are answered from the marker, and exceeding a hard limit is reported |
| QuotaStore.Store.ReleaseConcurrency | packages/quota/src/redis-quota.ts:151-158 | A slot is given up once, and only in its own generation |
| QuotaStore.Store.Renew | packages/quota/src/redis-quota.ts:160-170 | Only a reserved marker is renewed, and the slot's expiry is put off exactly when its generation is the marker's; counters and slots are untouched |
| QuotaStore.Store.CorrectCost | packages/quota/src/redis-quota.ts:172-188 | A versioned correction moves both cost counters by its difference; stale versions change nothing, an operation repeated with another cost is refused |
| QuotaStore.Store.ExpireSlot | packages/quota/src/redis-quota.ts:56-63 | When a slot expires its generation goes with it and its counter starts again from nothing |
| QuotaStore.Store.Eval | packages/quota/src/redis-quota.ts:20-188 | Any script at all keeps every counter and slot equal to what the markers say |
| QuotaClock.TickKeepsPlace | packages/quota/src/redis-quota.ts:160-170 | While a request is renewed before it is overdue by eight minutes, no passing of time, expiry or script takes its place from it |
| QuotaClock.InForceAreCounted | packages/quota/src/redis-quota.ts:56-63 | The slot counter never counts more than the requests running in the slot, and counts them all if and only if each is in the slot's present generation |
| QuotaClock.SlotCountsEveryRequest | packages/quota/src/redis-quota.ts:56-63 | In every run in which the requests running in a slot are renewed, ended or released in time, its counter is their number, whatever becomes of requests that gave up their place or hold another |
| QuotaClock.RefusedAtTheLimit | packages/quota/src/redis-quota.ts:47 | In such a run a reservation within its rates is refused for its concurrency if and only if as many requests as allowed are running in its slot |
| QuotaClock.GoneIsForever | packages/quota/src/redis-quota.ts:160-170 | A request whose slot has expired is never counted again, however often it is renewed afterwards |
| LedgerCoherence.StepKeepsCoherent | packages/quota/src/group-budget.service.ts:67-403 | Every operation keeps status, settled amount, usage log, hold, dispatch mark and correction of every request consistent with each other |
| LedgerCoherence.RunKeepsCoherent | packages/quota/src/group-budget.service.ts:67-403 | The same over every sequence of operations by anyone |
| LedgerCoherence.EntryMovesPeriod | packages/quota/src/group-budget.service.ts:235-287 | Rewriting one entry moves the sums of its own period by its differences and those of no other period |
| Ledger.GroupLedger.Reserve | packages/quota/src/group-budget.service.ts:215-244 | After the increment the period columns still equal the sums over its requests, and state and reply are the specified ones (replay, funds, fresh period) |
| Ledger.GroupLedger.Extend | packages/quota/src/group-budget.service.ts:246-263 | Conservation through an extension; a repeated attempt id is answered or refused by its fingerprint |
| Ledger.GroupLedger.Hold | packages/quota/src/group-budget.service.ts:303-317 | Conservation when the known cost is spent and the rest stays reserved; needs that an open entry never held has settled nothing |
| Ledger.GroupLedger.Settle | packages/quota/src/group-budget.service.ts:265-291 | Conservation through settlement, over a held log or without one; the recorded over-limit verdict is that of the updated period |
| Ledger.GroupLedger.Release | packages/quota/src/group-budget.service.ts:357-368 | An undispatched reservation gives its whole hold back to its period; a dispatched one is refused |
| Ledger.GroupLedger.MarkDispatched | packages/quota/src/group-budget.service.ts:370-378 | Only a reserved entry is marked, and no amount moves |
| Ledger.GroupLedger.MarkUncertain | packages/quota/src/group-budget.service.ts:380-385 | An open entry goes to reconciliation with its amounts as they are |
| Ledger.GroupLedger.RecoverExpired | packages/quota/src/group-budget.service.ts:387-403 | The sweep takes the hundred earliest expired leases, or all if there are fewer, recovers and counts each of them once, and leaves nothing expired if it had room |
| Ledger.GroupLedger.RecoverBatch | packages/quota/src/group-budget.service.ts:390-402 | For a batch found some time ago: the specified fold of single recoveries, each entry looked at again, with exact counts |
| Recovery.FindExpired | packages/quota/src/group-budget.service.ts:388 | The search returns distinct expired entries in the order of their leases, none of them later than an expired one left out, as many as there are or a sweep takes |
| Recovery.SweepClears | packages/quota/src/group-budget.service.ts:387-403 | After a sweep right on its search, the expired entries are exactly those it had no room for |
| Recovery.FindsWhatRecovers | packages/quota/src/group-budget.service.ts:388-392 | A sweep looks for exactly the entries that recovery acts on |
| Recovery.SweepIsARun | packages/quota/src/group-budget.service.ts:387-403 | A sweep is nothing but single recoveries one after the other, so it inherits whatever holds of runs |
| Ledger.GroupLedger.Reconcile | packages/quota/src/group-budget.service.ts:131-174 | Conservation through manual correction of settled and uncertain requests, with log, routes, correction version and operation record in one step |
| Ledger.GroupLedger.Adjust | packages/quota/src/group-budget.service.ts:67-103 | A limit below what the period uses is refused; spent and reserved are untouched by any adjustment |
| Ledger.GroupLedger.FinishSync | packages/quota/src/group-budget.service.ts:331-336 | The synchronisation mark is set only while the correction is the one that was read |
| Ledger.GroupLedger.Serve | packages/quota/src/group-budget.service.ts:67-403 | Conservation over any sequence of operations: the columns kept by increments equal the sums over the requests throughout |
| Ledger.TotalsNonNegative | packages/quota/src/group-budget.service.ts:235-287 | What a period has spent and reserved is never negative |
| LedgerOperations.ReservedExactly | packages/quota/src/group-budget.service.ts:215-244 | Accepted if and only if amount, group, authorization and the room left by spent and reserved allow it; the new row and the terms of a fresh period, field by field |
| LedgerOperations.ReserveAgainExactly | packages/quota/src/group-budget.service.ts:228-232 | A request that exists answers the same reservation while it is reserved; nothing is written |
| LedgerOperations.ExtendedExactly | packages/quota/src/group-budget.service.ts:246-263 | Accepted if and only if the request is open and the attempt is the one remembered or a new one there is room for; exactly the amount is added |
| LedgerOperations.HeldExactly | packages/quota/src/group-budget.service.ts:303-317 | When a hold is accepted, and the entry and log it leaves, field by field |
| LedgerOperations.SettledExactly | packages/quota/src/group-budget.service.ts:265-282 | When a settlement is accepted, for the first time or again |
| LedgerOperations.SettledRows | packages/quota/src/group-budget.service.ts:285-291 | The entry a first settlement leaves, with the amounts for its markers |
| LedgerOperations.SettledLogRow | packages/quota/src/group-budget.service.ts:279-284 | The usage log a first settlement leaves, with its routes |
| LedgerOperations.SettlementVerdict | packages/quota/src/group-budget.service.ts:287-291 | The verdict reported and recorded: the period is limited and has spent more than its limit |
| LedgerOperations.ReleasedExactly | packages/quota/src/group-budget.service.ts:357-368 | Given back if and only if reserved and never dispatched; a repetition changes nothing |
| LedgerOperations.DoubtedExactly | packages/quota/src/group-budget.service.ts:380-385 | An open entry goes to reconciliation, any other is left alone |
| LedgerOperations.MarkedExactly | packages/quota/src/group-budget.service.ts:370-378 | The mark and the lease are set if and only if the entry is reserved |
| LedgerOperations.RecoveredExactly | packages/quota/src/group-budget.service.ts:391-398 | Recovered if and only if reserved with a lease that has run out: released if it was never dispatched, left to reconciliation if it was |
| LedgerOperations.ReconciledExactly | packages/quota/src/group-budget.service.ts:131-163 | When a reconciliation is accepted, in terms of the stored rows and of the routes it brings |
| LedgerOperations.ReconciledRows | packages/quota/src/group-budget.service.ts:155-168 | The entry it leaves, with a correction that carries the corrected amount |
| LedgerOperations.ReconciledLogRow | packages/quota/src/group-budget.service.ts:147-154 | The log it leaves: the corrected cost, each route at what it was allocated, the tokens as they were |
| LedgerOperations.AdjustedExactly | packages/quota/src/group-budget.service.ts:67-88 | When an adjustment is accepted, in terms of the stored rows and of what the period uses |
| LedgerOperations.PeriodIsAdjusted | packages/quota/src/group-budget.service.ts:89-92 | An accepted adjustment of a period sets exactly the limit and the flag asked for and touches no other period and no group |
| LedgerOperations.DefaultsAreAdjusted | packages/quota/src/group-budget.service.ts:93-103 | An accepted adjustment of the defaults sets exactly those and moves no open period's terms |
| LedgerOperations.NextPeriodStartsWithDefaults | packages/quota/src/group-budget.service.ts:176-183 | The next period the group opens starts with exactly the defaults set |
| LedgerOperations.OperationAgainExactly | packages/quota/src/group-budget.service.ts:105-128 | An operation id used before is answered only for the very same call, and nothing is done again |
| LedgerOperations.SynchronisedExactly | packages/quota/src/group-budget.service.ts:331-336 | The mark is set if and only if the correction is still the one that was read, and nothing else changes |
| LedgerOperations.FundingRefusalMeans | packages/quota/src/group-budget.service.ts:215-263 | What the error of a refused reservation or extension tells about the rows found |
| LedgerOperations.ChargingRefusalMeans | packages/quota/src/group-budget.service.ts:265-317 | What the error of a refused hold or settlement tells |
| LedgerOperations.AdministrationRefusalMeans | packages/quota/src/group-budget.service.ts:67-174 | What the error of a refused reconciliation or adjustment tells |
| LedgerOperations.AlertMeans | packages/quota/src/group-budget.service.ts:191-201 | An alert mark only rises, to eight tenths and to all of the limit, exactly when that much is used |
| LedgerOperations.AlertsAreUp | packages/quota/src/group-budget.service.ts:191-201 | Over every run a period with a limit stays marked at eight tenths and at all of what is used of it |
| LedgerMirror.MirrorAmountsAreTheLedgers | packages/quota/src/group-budget.service.ts:166-168 | In every reachable state the correction, or without one the actual amounts, of a closed entry carry its settled amount, and the tokens of its usage log |
| LedgerSafety.RejectionChangesNothing | packages/quota/src/group-budget.service.ts:203-213 | A refused operation leaves no trace |
| LedgerSafety.OnlyTheTargetMoves | packages/quota/src/group-budget.service.ts:203-213 | An operation on one request leaves every other request and log alone and forgets none |
| LedgerSafety.StepStaysWithinLimit | packages/quota/src/group-budget.service.ts:185-189 | One operation takes a limited period beyond limit plus overruns so far by no more than its own overrun |
| LedgerSafety.LimitSafety | packages/quota/src/group-budget.service.ts:67-317 | In every run a limited period uses at most its limit plus what settlements, holds and reconciliations took beyond their holds, whatever the reserves, extensions, adjustments and unlimited spells |
| LedgerSafety.ChargeWithinTheHold | packages/quota/src/group-budget.service.ts:265-317 | A settlement or hold within what the entry claims is no overrun |
| LedgerSafety.DispatchedReleasesOnlyByReconcile | packages/quota/src/group-budget.service.ts:131-174 | A dispatched request is released only by an authorized manual release, never by release or recovery |
| LedgerSafety.ReleasedIsAbsorbing | packages/quota/src/group-budget.service.ts:131-403 | Once released, a request keeps status and amounts through every later run |
| LedgerSafety.ReleasedAfterDispatchWasManual | packages/quota/src/group-budget.service.ts:357-403 | In every reachable state a released request costs nothing, and if it was dispatched it was released by hand |
| LedgerReplay.ReplayChangesNothing | packages/quota/src/group-budget.service.ts:228-232 | After a reserve, extend, hold, settle, release, reconcile or adjust was accepted, making the same call again changes nothing, whatever happened in between |
| LedgerReplay.SecondTryChargesOnce | apps/gateway/src/group-request.ts:120-127 | Calling twice has the effect of calling once, whether or not the first call took effect |
| LedgerRoutes.AllocationAgrees | packages/quota/src/group-budget.service.ts:143-154 | An accepted allocation names every route once and leaves the routes adding up to the corrected cost |
| LedgerRoutes.RoutesAgreeExactly | packages/quota/src/group-budget.service.ts:139-315 | The routes of all logs add up all through a run if and only if every settlement and hold that takes effect brings routes that add up, or none where none can be left that do not |
| LedgerRoutes.CostRecordsAgree | packages/quota/src/group-budget.service.ts:139-315 | In such a run from the empty ledger every usage log carries its entry's settled amount, and its routes add up to it |
| LedgerRoutes.SettledRoutesAgreeExactly | packages/quota/src/group-budget.service.ts:278-284 | Exactly when a settlement leaves route costs adding up: routes are brought and add up, or none are and the log had none or the cost stays the held one |
| LedgerRoutes.SettlingWithoutRoutesLeavesStaleOnes | packages/quota/src/group-budget.service.ts:278-284 | From the empty ledger, a hold with its route and an accepted settlement without routes end in a log of cost 7 whose routes add up to 5 |
| TwoStores.NextKeepsInv | packages/quota/src/group-budget.service.ts:319-337 | Every step of every interleaving keeps ledger, mirror, running synchronisations and issued corrections consistent |
| TwoStores.CallIssues | packages/quota/src/group-budget.service.ts:164-168 | A ledger call leaves a request's corrections alone or issues exactly the next version under a new operation |
| TwoStores.CallToMirror | packages/quota/src/group-budget.service.ts:326-330 | One call to the mirror that is not refused has delivered the amounts, or the correction version, it brings |
| TwoStores.FinishIsSynced | packages/quota/src/group-budget.service.ts:331-336 | If the correction is still the one that was read, every marker has what the entry says |
| TwoStores.SynchronisedMeansConverged | packages/quota/src/group-budget.service.ts:319-337 | Under any interleaving of synchronisations, crashes, repeats, ledger calls and scripts, an entry marked as synchronised has every marker settled, counting the tokens of its usage log and costing exactly what the entry has settled |
| SyncProgress.UndisturbedSyncSucceedsExactly | packages/quota/src/group-budget.service.ts:319-337 | A synchronisation left alone marks its entry if and only if every marker is still there and none is settled at other amounts |
| Relay.PositionInSchedule | packages/gateway-core/src/relay.ts:51-52 | Whatever the position in the nested candidate and retry loops, the attempts so far are a prefix of one flat schedule |
| Relay.BillingMeans | packages/gateway-core/src/relay.ts:62-134 | Free of charge means refused with an unbilled status and no usage; confirmed means reported by the upstream and, on a refusal, fully priced; estimated means a good answer without a report, charged for a quarter of the bytes of the prepared body and of the answer; unknown is everything else |
| Relay.RetriesMeans | packages/gateway-core/src/relay.ts:98-142 | Another try follows no response, the statuses 408, 429 and 500 upwards, and a body that was needed and got lost, and nothing else |
| Relay.PlainUsageMeans | packages/gateway-core/src/relay.ts:114-132 | The usage of a good answer that is no stream: what was reported, nothing for Gemini, otherwise a quarter of the bytes |
| Relay.FinishedMeans | apps/gateway/src/group-request.ts:158-165 | A finished good response costs the charge for its final usage at its candidate's price: confirmed when reported, estimated when not, unknown when interrupted or partly unpriced |
| Relay.EachAsOften | packages/gateway-core/src/relay.ts:51-52 | Each candidate stands in the schedule once and as often again as its retries allow |
| Relay.InTheirOrder | packages/gateway-core/src/relay.ts:51-52 | Nobody is tried before a candidate further up has had all its tries |
| Relay.ChargeWithinEstimates | apps/gateway/src/group-request.ts:103-105 | Known plus unresolved cost is at most one estimate for each attempt that may be charged |
| Relay.AttemptWithinEstimate | packages/gateway-core/src/relay.ts:62-134 | Whatever an answer makes of an attempt, it is billed within the estimate when upstream reports are within the bounds and unreported good answers have at most four bytes per prepared output token |
| Relay.UnreportedCoveredExactly | packages/gateway-core/src/relay.ts:120-134 | An unreported good answer is charged within the estimate at every price list if and only if it has at most four bytes for each prepared output token |
| Relay.FinishedWithinEstimate | apps/gateway/src/group-request.ts:158-165 | So is an attempt finished with a usage within the bounds, or interrupted |
| Relay.NeededNext | apps/gateway/src/group-request.ts:138-142 | The next attempt needs one more estimate on hold exactly when the last one may be charged |
| Relay.OwnEstimateMeans | apps/gateway/src/group-request.ts:105 | What stays on hold for an undecided attempt is the estimate at its own price, enough for any usage within the bounds |
| RequestSafety.ForeignDrifts | packages/quota/src/group-budget.service.ts:370-403 | Heartbeats, recovery, doubt, reconciliation and synchronisation leave a request's hold, extensions and period alone and close it only for good |
| RequestSafety.ExtendSecures | packages/quota/src/group-budget.service.ts:246-263 | An accepted extension under a new attempt id adds exactly its amount to the hold; a refused one adds nothing |
| RequestSafety.CommitOnSecured | packages/quota/src/group-budget.service.ts:265-317 | A commit takes effect in full or not at all, and within the hold it overruns no period |
| RequestSafety.CommitOnCharged | packages/quota/src/group-budget.service.ts:270-308 | Once charged, the same commit changes nothing and overruns nothing |
| GroupRequest.CommitWithinHolds | apps/gateway/src/group-request.ts:100-120 | What is finally committed is at most one estimate for every hold the request took |
| GroupRequest.CoveredCommitWithinHolds | apps/gateway/src/group-request.ts:100-147 | For every prepared request, every way through the schedule and every end: covered answers commit at most the holds taken |
| GroupRequest.UnreportedStreamCoveredExactly | packages/gateway-core/src/stream-usage.ts:43-52 | A stream without a report is charged within the estimate at every price list if and only if it has at most four bytes for each prepared output token |
| GroupRequest.BudgetedRequest.CollectUsage | apps/gateway/src/group-request.ts:170-183 | Running the collector over the chunks gives the usage and completion the specification derives from the whole stream |
| GroupRequest.CommitBringsRoutes | apps/gateway/src/group-request.ts:109-119 | Every commit brings routes that add up to its known cost |
| RequestCharge.ChargedForItsAnswers | apps/gateway/src/group-request.ts:100-119 | Settled if and only if every attempt made is decided, for the sum of the charges for the usage each answer, stream or report stands for at its price; otherwise one estimate stays on hold for each undecided attempt; with the tokens and routes logged |
| RequestCharge.ServedAsPrepared | apps/gateway/src/group-request.ts:34-60 | A request is served with exactly what was prepared of it |
| RequestCharge.LastUsageOfAStream | apps/gateway/src/group-request.ts:170-183 | The final usage of a stream is an upstream's if and only if a complete event reports counts, and then the least counts no report exceeds; otherwise tokens guessed from its length |
| RequestCharge.LastUsageOfAnAnswer | packages/gateway-core/src/relay.ts:114-132 | The final usage of any other response is what its answer stands for |
| RequestCharge.InterruptedMeans | apps/gateway/src/group-request.ts:180 | Interrupted if and only if cut short, or streamed without a complete event that ends it |
| RequestCharge.EntryForItsAnswers | apps/gateway/src/group-request.ts:100-119 | A charged entry has settled what is due for its answers and holds what is undecided, unless an administrator decided otherwise |
| GroupRequest.ReplayIsARun | apps/gateway/src/group-request.ts:34-202 | The recorded history of a request is a run of the ledger |
| GroupRequest.BudgetedRequest.BeforeAttempt | apps/gateway/src/group-request.ts:138-147 | Going ahead means the hold covers the next attempt and the dispatch mark was just accepted; otherwise the hold is what it was, plus at most the one extension |
| GroupRequest.BudgetedRequest.Exchange | packages/gateway-core/src/relay.ts:58-142 | Status, billing state, cost and retry decision of one attempt for every answer, reported or not |
| GroupRequest.BudgetedRequest.Try | packages/gateway-core/src/relay.ts:53-142 | An attempt is made if and only if the client was there before and after the hook, the quotas were renewed and no call failed; it is fetched only after the hook and leaves the hold exactly what the attempts call for |
| GroupRequest.BudgetedRequest.Relay | packages/gateway-core/src/relay.ts:40-146 | The nested loops make the attempts of a prefix of the flat schedule: all but the last retried, the last returned, or the schedule exhausted; interrupted only when the client went away, a renewal failed or a call did |
| GroupRequest.BudgetedRequest.Persist | apps/gateway/src/group-request.ts:100-127 | One commit if it is delivered and accepted, a second try only if not, and doubt only after both failed; charged if either is accepted, and otherwise charged once or not at all |
| GroupRequest.BudgetedRequest.Finish | apps/gateway/src/group-request.ts:178-183 | Only the first closing event settles; the others change nothing |
| GroupRequest.BudgetedRequest.Fail | apps/gateway/src/group-request.ts:148-157 | A request gives its hold back if and only if it was never dispatched; any other is persisted, with an attempt of unknown cost if there is none |
| BudgetedRelay.RelayBudgetedRequest | apps/gateway/src/group-request.ts:34-202 | From the incoming request on, amid others' calls, lost calls and lost replies: the history is safe, a committed request has settled exactly what is due for its answers, stream reports and prices, one that was never sent is not charged, and with covered answers all overrun is others' |
| DispatchHistory.FetchedAfterMark | packages/gateway-core/src/relay.ts:51-95 | Every fetch follows an accepted dispatch mark of a reserved entry with only others' calls in between; at the fetch the entry is dispatched, holds what it held at the mark and is open unless an administrator has decided; and it is still reserved if and only if none of those calls lost its lease |
| DispatchHistory.ReservedUntilLeaseLost | packages/quota/src/group-budget.service.ts:370-403 | Under any calls of others a marked request stays reserved if and only if none of them puts it in doubt or recovers it after the lease it has by then |
| DispatchHistory.RecoveredBeforeTheFetch | packages/quota/src/group-budget.service.ts:387-403 | A history from the empty ledger: reserved, marked, recovered when the lease ran out, and only then sent |
| DispatchHistory.SentIsNeverSilentlyReleased | packages/quota/src/group-budget.service.ts:357-403 | Once anything was sent, no later run releases the request except by an administrator |
| GroupRequest.RequestNeverOverruns | apps/gateway/src/group-request.ts:100-147 | With covered answers, no call of the request ever takes more from any period than the request had on hold: all overrun during it is others' |
| GroupRequest.LimitHoldsThroughARequest | packages/quota/src/group-budget.service.ts:185-189 | A period that kept to its limit keeps to it through a request with covered answers, apart from others' overruns |
| UnreportedAnswer.UnreportedAnswersOverrun | packages/gateway-core/src/relay.ts:120-134 | A whole request with an output limit of one token, one unit on hold, and a good answer of 400 bytes without a report: a hundred units are charged and a limited period goes 99 beyond its limit |
| CostSchedule.MatchesIsCovered | packages/gateway-core/src/cost-schedule.ts:77-85 | Looking back to the day before and marking ahead to the day after agree at every minute, past midnight and from Sunday to Monday |
| CostSchedule.WeeklyMinutes | packages/gateway-core/src/cost-schedule.ts:204-219 | The grid of a rule is true at exactly the minutes the rule matches |
| CostSchedule.CostRulesOverlap | packages/gateway-core/src/cost-schedule.ts:221-229 | The grid comparison reports a conflict if and only if both rules are enabled, their validity windows meet and they share a minute of the week; invalid rules are an error |
| CostSchedule.NoOverlapNeverTogether | packages/gateway-core/src/cost-schedule.ts:221-229 | Rules without a conflict are never active at the same moment |
| CostSchedule.OverlapMeansTogether | packages/gateway-core/src/cost-schedule.ts:221-229 | For rules valid together for a week or more, a conflict is reported exactly when there is a moment at which both are active |
| CostSchedule.WeeklyPeriod | packages/gateway-core/src/cost-schedule.ts:43-58 | Local weekday and minute come back every week |
| CostSchedule.WeeklyCoverage | apps/api/src/procurement-costs.service.ts:40-63 | The first count is the number of minutes some rule matches, and the three counts make up the week |
| CostSchedule.RuleActiveMeansAlwaysMatched | apps/api/src/procurement-costs.service.ts:65-72 | An enabled model is shown as covered by rules if and only if at every moment some rule matches |
| CostResolution.SortRulesSorts | packages/gateway-core/src/cost-schedule.ts:93-96 | Sorting orders by precedence and permutes |
| CostResolution.FindActiveWins | packages/gateway-core/src/cost-schedule.ts:98-110 | The rule found is active and takes precedence over every other active rule; none is found only when none is active |
| CostResolution.ResolutionIgnoresOrder | packages/gateway-core/src/cost-schedule.ts:87-139 | Two listings of the same rules price every moment alike, given distinct ids or freedom from conflicts |
| CostResolution.PreferredPrices | packages/gateway-core/src/cost-schedule.ts:93-110 | A rule prices a moment if and only if it is active and preferred to every other active rule: by priority, later start, later creation, smaller id |
| CostResolution.ResolutionMeans | packages/gateway-core/src/cost-schedule.ts:112-139 | Invalid rules are an error; without an active rule the fallback prices, and without either nothing does |
| CostResolution.HighestPriorityPrices | packages/gateway-core/src/cost-schedule.ts:87-110 | Without conflicts a rule sets the price if and only if it is active and every other active rule is of lower priority |
| RuleTable.WriteKeepsNoConflicts | apps/api/src/channel-models.service.ts:222-228 | Writing a rule that is not live or conflicts with no rival keeps the table free of conflicts |
| RuleTable.PassesExactly | apps/api/src/channel-models.service.ts:210-228 | A rule may be written if and only if its times are proper and, if enabled, no other live rule of its priority is invalid or shares a moment of the week with it while both are valid |
| RuleTable.MergedMeans | apps/api/src/channel-models.service.ts:238-260 | A change sets what it gives and leaves the rest |
| RuleTable.NewRuleMeans | apps/api/src/channel-models.service.ts:229-236 | A new rule is what was given, enabled from the start |
| RuleTable.TablePricesByPriority | apps/api/src/channel-models.service.ts:210-312 | At any moment at most one listed rule of a priority is active, and the highest of those sets the price |
| RuleTable.RuleTable.FindConflicts | apps/api/src/channel-models.service.ts:223-224 | Exactly the live rules of the same priority that conflict; none of them may be invalid |
| RuleTable.RuleTable.CreateCostRule | apps/api/src/channel-models.service.ts:210-236 | Accepted if and only if parent, range, rule and rivals allow it; the table stays free of conflicts |
| RuleTable.RuleTable.UpdateCostRule | apps/api/src/channel-models.service.ts:238-288 | The merged rule replaces the old one if and only if it passes the same check; the table stays free of conflicts |
| RuleTable.RuleTable.ArchiveCostRule | apps/api/src/channel-models.service.ts:290-297 | Archiving disables, and twice is once |
| RuleTable.RuleTable.RestoreCostRule | apps/api/src/channel-models.service.ts:299-312 | A restored rule comes back disabled, so no restore can create a conflict |
| NextTransition.ConstantBetween | packages/gateway-core/src/cost-schedule.ts:148-156 | Between two minute ticks and validity boundaries the effective cost cannot change |
| NextTransition.WeekGoesOn | packages/gateway-core/src/cost-schedule.ts:158-193 | What held through all the minutes of a week without a boundary goes on for as long as there is none |
| NextTransition.TransitionCandidates | packages/gateway-core/src/cost-schedule.ts:148-156 | In ascending order exactly the minute ticks and boundaries of the window |
| NextTransition.Scan | packages/gateway-core/src/cost-schedule.ts:182-186 | A hit in a window is its first change of cost; no hit means the cost is constant over the window |
| NextTransition.StaticExactly | packages/gateway-core/src/cost-schedule.ts:171-173 | A rule the early exit takes for static matches every minute of the week if and only if its seven listed days are different ones |
| NextTransition.RepeatedDaysFoolTheExit | packages/gateway-core/src/cost-schedule.ts:171-173 | A concrete valid schedule, one rule with Monday listed seven times, on which the early exit answers never although the cost changes |
| NextTransition.StaticExitExactly | packages/gateway-core/src/cost-schedule.ts:171-173 | Where the early exit is taken, its answer is right if and only if no enabled rule is valid or the first valid one in order of precedence lists seven different days |
| NextTransition.NextCostTransition | packages/gateway-core/src/cost-schedule.ts:158-193 | The early exit answers never; any other answer is the first change in the first window that shows one, or never if none does. Every hit is a genuine change at that very millisecond; and with a right exit, or no blind window, a hit is the earliest change and never means forever |
| LateBoundaries.SpacingExactly | packages/gateway-core/src/cost-schedule.ts:182-192 | The search is right about every schedule with given coming boundaries and start if and only if none of its windows is blind |
| NextTransition.LateBoundaryHidesAChange | packages/gateway-core/src/cost-schedule.ts:187-191 | Concrete rules whose boundary falls late in the window, so that a later change of cost is never looked for |
| StreamUsage.LeftmostStays | packages/gateway-core/src/stream-usage.ts:13-15 | More text never opens an event separator further left than the one already found |
| StreamUsage.SeparatorsAre | packages/gateway-core/src/stream-usage.ts:13-15 | A separator is two line ends, each with or without a carriage return |
| StreamUsage.SplitContinues | packages/gateway-core/src/stream-usage.ts:13-15 | Splitting a longer text yields the events of the shorter one and then those of its remainder with the rest |
| StreamUsage.ChunksJoin | packages/gateway-core/src/stream-usage.ts:11-41 | Two chunks leave the collector as one chunk would |
| StreamUsage.StreamUsageCollector.Push | packages/gateway-core/src/stream-usage.ts:11-41 | Buffer, byte count, completion and collected usage after a chunk, for every chunk |
| StreamUsage.StreamUsageCollector.PushAll | packages/gateway-core/src/stream-usage.ts:11-41 | However a stream is cut into chunks, the collector ends as if it had come in one piece |
| StreamUsage.CollectedIsTheMaximum | packages/gateway-core/src/stream-usage.ts:31-38 | The collected usage is the least one above every report of a complete event, field by field |
| StreamUsage.StreamUsageCollector.Usage | packages/gateway-core/src/stream-usage.ts:43-52 | The collected usage once an upstream reported, otherwise a quarter of the bytes received rounded up, at least one |
| StreamUsage.StreamedUsageMeans | packages/gateway-core/src/stream-usage.ts:11-52 | The usage of a stream cut into any chunks: the maximum of the reports of its complete events, or tokens guessed from its length |
| StreamUsage.CompletedMeans | packages/gateway-core/src/stream-usage.ts:16-30 | A stream is complete if and only if one of its complete events says so |
| StreamUsage.CollectedWithin | packages/gateway-core/src/stream-usage.ts:31-38 | When every report of a stream is within the bounds, so is what is collected from it |
| DeviceGrantSafety.StepKeepsInv | apps/api/src/device-grants.service.ts:181-581 | Every operation keeps all invariants of grants, links, devices and group requirement |
| DeviceGrantSafety.RedeemKeepsInv | apps/api/src/device-grants.service.ts:318-394 | Redeeming keeps them: the one live link is used up, the device is the installation's only unrevoked one |
| DeviceGrantSafety.AssignKeepsInv | apps/api/src/device-grants.service.ts:195-227 | Assigning groups keeps them, whichever mapping fails |
| DeviceGrantSafety.StepContinues | apps/api/src/device-grants.service.ts:181-581 | A binding, a group, a deletion, a consumed or a revoked link is never taken back |
| DeviceGrantSafety.RedeemedIsBound | apps/api/src/device-grants.service.ts:318-394 | A successful redemption leaves the grant bound to the returned device of that installation and the link consumed; on a bound grant it changes nothing |
| DeviceGrantSafety.RedeemedOnce | apps/api/src/device-grants.service.ts:355-389 | A later successful redemption of the same grant comes from the same installation through the same link, gets the same device and changes nothing |
| DeviceGrantOperations.RedeemedExactly | apps/api/src/device-grants.service.ts:318-394 | Redeemed if and only if the account is eligible, the group in order, the grant in force, and either the link is good, the grant unbound and the installation free, or the consumed link comes back in time from the installation whose device it bound |
| DeviceGrantOperations.RefusalMeans | apps/api/src/device-grants.service.ts:318-394 | What the error of a refused redemption tells about link, grant, account and installation |
| DeviceGrantOperations.FirstRedemption | apps/api/src/device-grants.service.ts:375-392 | What a first redemption writes to device, grant and link |
| DeviceGrantOperations.LaterRedemption | apps/api/src/device-grants.service.ts:341-372 | A later one answers with the bound device and writes nothing |
| DeviceGrantOperations.CreatedExactly | apps/api/src/device-grants.service.ts:229-292 | When a grant is created, and grant and link field by field |
| DeviceGrantOperations.RegeneratedExactly | apps/api/src/device-grant-links.service.ts:118-160 | A new link if and only if the grant is in force and unbound; every other link still good is revoked |
| DeviceGrantOperations.ExpirationExactly | apps/api/src/device-grants.service.ts:479-483 | When an expiry is changed, and to what |
| DeviceGrantOperations.EnabledExactly | apps/api/src/device-grants.service.ts:500-503 | When a grant is enabled, and that nothing else changes |
| DeviceGrantOperations.DisabledExactly | apps/api/src/device-grants.service.ts:485-498 | What disabling writes: the grant, and every link still good |
| DeviceGrantOperations.DeletedExactly | apps/api/src/device-grants.service.ts:505-519 | What deleting writes: the grant, every link still good, and its device and no other |
| DeviceGrantOperations.CredentialRevokedExactly | apps/api/src/usage-groups.service.ts:404-420 | Losing a group revokes consumed links too |
| DeviceGrantOperations.RequirementExactly | apps/api/src/device-grants.service.ts:181-193 | Groups are required if and only if every ungrouped grant is out of force |
| DeviceGrantOperations.AssignedExactly | apps/api/src/device-grants.service.ts:195-227 | Assigned if and only if there are one to a thousand different grants, all of them fitting: then each gets its group, and otherwise none does |
| DeviceGrantSafety.OneLinkLeft | apps/api/src/device-grant-links.service.ts:118-160 | In every reachable state a grant has at most one live link, and none once it is bound, disabled or deleted |
| DeviceGrantSafety.OneDevicePerInstallation | apps/api/src/device-grants.service.ts:375-381 | In every reachable state an installation has at most one unrevoked device |
| DeviceGrantSafety.RequiredGroupsAreGiven | apps/api/src/device-grants.service.ts:168-193 | While groups are required every ungrouped grant is deleted, disabled or expired, in every reachable state and as time passes |
| DeviceGrants.DeviceGrantsService.Create | apps/api/src/device-grants.service.ts:229-292 | A new grant with its first link, or nothing |
| DeviceGrants.DeviceGrantsService.Regenerate | apps/api/src/device-grant-links.service.ts:118-160 | Only an available grant gets a new link, and its live one is revoked first |
| DeviceGrants.DeviceGrantsService.Redeem | apps/api/src/device-grants.service.ts:318-394 | First binding, retry by the bound device within its window, and every refusal in its order |
| DeviceGrants.DeviceGrantsService.UpdateExpiration | apps/api/src/device-grants.service.ts:479-483 | A future or unlimited expiry, and only with the group in order |
| DeviceGrants.DeviceGrantsService.Enable | apps/api/src/device-grants.service.ts:500-503 | Enabling only with the group in order |
| DeviceGrants.DeviceGrantsService.Disable | apps/api/src/device-grants.service.ts:485-498 | Disabling revokes the live link |
| DeviceGrants.DeviceGrantsService.Delete | apps/api/src/device-grants.service.ts:505-519 | Deleting revokes the live link and the bound device |
| DeviceGrants.DeviceGrantsService.SetGroupRequirement | apps/api/src/device-grants.service.ts:181-193 | Required only when no effective grant is ungrouped |
| DeviceGrants.DeviceGrantsService.AssignGroups | apps/api/src/device-grants.service.ts:195-227 | All mappings take effect or none does, checked in the order of their grants; a dry run answers the same and changes nothing |
| DeviceGrantSafety.AssignmentIgnoresOrder | apps/api/src/device-grants.service.ts:195-227 | How the mappings are listed makes no difference, neither to what is assigned nor to which failure is reported |

## Left out

- Decimal arithmetic beyond 20 significant digits: amounts are exact integers.
- Database range errors when a stored amount exceeds its column; an estimate or a charge that is no valid amount is refused, as in the source.
- The project budget service, which runs the same lifecycle for another owner but has no reconciliation.
- `configure` and changes of budget mode or timezone; a period is an abstract key.
- Budget applications decided together with an adjustment, audit records, reasons, dispatch intents and billing labels: no amount depends on them.
- Authorization, membership and credential checks: one boolean per call. Formats of operation ids and reasons.
- The hash a hold is remembered by covers the amounts as they were written; here it covers their values.
- The attempt details that go into an extension's fingerprint: one request never uses an attempt id twice.
- Expiry of the counters of days, months, minutes and seconds, which outlive what they count, and of settled markers; percentages of the quota alerts are exact fractions; reservations without a marker; the scan for expired reservations and its cursor.
- Reserving quota before the ledger reservation and giving it back when that fails; renewal and release of concurrency by a running request act on the mirror only, a failed renewal stops the request before its dispatch mark.
- `prepareBudgetRequest`: the checks of the content are one boolean, the bytes of the other fields a number; limits that are no integers, which are refused.
- The worker that deletes old usage logs (`enforceRetention`): `LedgerCoherence` ties settlements and holds to a log that is still there.
- Fetching, timers, aborting in mid-flight and stream pipes: each attempt has an answer, each look at the client a verdict. Protocol translation is not part of this model; a Gemini attempt differs in when its body is read and billed.
- What is sent upstream is the prepared body with the upstream's model name and, for chat streams, a usage option; the input bound is proved of the prepared body.
- Isolation of unhealthy channel keys after a request.
- Time zones with daylight saving and locale data: local time is a fixed offset in whole minutes.
- Rule names and prices in the rule table: a cost is told apart by source and id, as the search does.
- Which of several stored rules is reported when more than one of them is invalid.
- Boundaries that coincide are kept once in the search; the source keeps both and treats them alike.
- UTF-8 sequences split across chunks and JSON: a stream is a sequence of one-byte characters, and what an event says is given by a reader.
- Refresh tokens, access tokens, device names and platforms; previews and listings of grants.
- Grants are sorted by their ids as numbers, in the source by locale; groups are locked before anything else, here looked up all at once.
- Row locks, lock order and the retries they need: every operation of a service is one step.
- Weighted routing, channel health, in-memory quotas and lifecycle labels: easy by comparison.
