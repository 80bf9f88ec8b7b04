# Paymaster verification model

A Dafny model of the paymaster's backend, SDK and dashboard logic, with proofs. Verify with
`dafny verify dfyconfig.toml` from this directory.

**The sponsorship budget.** A request passes its policy's rules in cost order; quota rules reserve
worst-case cost on shared, windowed counters, a denial gives back what was reserved, a failed signature or
record gives back everything, and a reconciler later refunds the gap between worst case and actual cost.
`QuotaStores`, `RedisQuota`, `QuotaRules`, `Engine`, `SponsorService`, `Sponsorships` and
`SpendReconciler` model these as classes whose methods meet functions of the state. `QuotaLaws`, `Decisions` and
`TrueUps` say what those functions mean without naming them: which requests count together and fit, when a policy
allows, and what reconciling an event leaves. `Budget` is the same
protocol as a labelled transition system over counters, holds, requests, rows, landed operations and
pending refunds, one atomic store script or SQL statement per step, for any number of replicas.
`BudgetSafety` proves its invariant, `SpendCap` the spend cap over whole runs, `StrayRefunds` when the cap holds
as configured, `CleanRuns` exactness when no call is lost, `PlanCeilings` the plan bounds and `PlanCounters` whose
refunds can reach the plan's counters. `BudgetRuns`, `SponsorRuns` and the ghost runs of
`SpendReconciler` show that the classes only take steps of that system. `ScanProtocol` adds the block scan:
checkpoint, racing and crashing replicas; `ReconcilerRuns` shows that a tick of the reconciler is a run of it.
`MisstampedRun` is a concrete run, with a row stamped in the wrong window, that reaches the bound of the cap.

**The tenant ledger.** `LedgerHistory` is the chain's side: every movement, announced by an event or not.
`ChainEvents` signs and sorts the node's logs, and `LedgerReads` proves that what it returns for a block range is
what happened there. `TenantLedger` models fetching, folding, comparing and committing one window; `LedgerRuns`
proves telescoping and exact drift detection over all runs, with unreadable balances and crashes, and
`LedgerEntries` what the stored entries hold and add up to.

**Subscriptions.** `Subscriptions` and `SubscriptionStatus` model prepaid intervals, the cached status and
the notice predicate, `PlanTime` the plan under which prepaid time is served; `PaymentClaims` and `ClaimRuns` the
on-chain claims and what they conserve.

**Small machines.** `CircuitBreaker`, `LeaderLock`, `PolicySets`, `PolicyReload` and `IpThrottle`: a class
with the source's fields and, beside it, every interleaving of its steps.

**Bytes and text.** `Words`, `PaymasterCodec` and `UserOperations` model the byte layouts of
`paymasterAndData` and the packed words of EntryPoint v0.7 (ERC-4337), shared by backend and SDK.
`Exposition`, `MetricsText`, `MetricsLines` and `MetricsRoundTrip` model the metrics printer and parser (Prometheus text
exposition format 0.0.4); `MetricSeries` the counters and gauges behind it and `DashboardTotals` the way from an
increment to the dashboard; `Quantile` the histogram and its quantile, and `DashboardHistograms` the way from
observations to the quantile the dashboard shows.

## What the theorems assume

- A policy set and its limits stay fixed over a run of the budget protocol.
- A landed operation costs no more than the `maxCost` of the attestation it carries, and an operation, named by
  chain, sender and nonce, lands once.
- Recording a row has a known outcome and nothing throws after it succeeds.
- The theorems about limits hold for every run, but for the stray refunds that reach a counter their request did not
  charge; `SpendCap.FaithfulExactly` says when a refund does not stray: same window, and a defined API key where a
  per-key quota needs one. The plan's own counters ask that senders and generated key ids hold no slash, and that
  no spend cap of the default tenant is named `ns/platform:...` (`PlanCounters.SlashedNameReachesCeiling` shows why).
- Scans run with a checkpoint in place and reorganisations no deeper than the confirmations; a block range is
  at least one, as the environment schema demands.
- The Redis refinement holds for counters below 10^14, where the scripts' numbers print exactly, and for
  clock skew plus delay within the 60-second buffer.
- The node answers a block range with exactly its logs, in any order; a transaction lies in one block, and a block's
  events have rising log indexes.
- One ledger reconciler; subscription payments recorded one at a time, with a clock that does not go back.
- Plans meet their schema: a period of 86,400 to 63,072,000 seconds, and prices above zero.
- Tenant references are hashes and are taken as injective; a transaction hash fixes its transfer.
- Lease holders are unique, and one replica's lock commands do not overlap.
- Label values of counters and gauges hold no comma; `MetricSeries.CommaCollides` shows why.
- Metric help texts are non-empty, trimmed and on one line, metric names are distinct and valid, and printed
  numbers are read back by the parser's number conversion. Floats are reals in `Quantile`.


## Model

| member | source | states |
|---|---|---|
| Windows.SlotNameParses | backend/src/policy/quota/quotaStore.ts:72-83 | A counter name parses back to its window length and start, whatever its key holds |
| Windows.SlotNameInjective | backend/src/policy/quota/quotaStore.ts:81-83 | Distinct keys, window lengths or window starts have distinct counter names |
| Windows.WindowExactly | backend/src/policy/quota/quotaStore.ts:72-79 | Two instants are of one window exactly when the second lies between the window's start and its end |
| QuotaStores.InMemoryQuotaStore.TryConsume | backend/src/policy/quota/inMemoryQuotaStore.ts:26-41 | Granted exactly when the sum fits; charges that amount on that window only; reports the usage it leaves |
| QuotaStores.InMemoryQuotaStore.Release | backend/src/policy/quota/inMemoryQuotaStore.ts:43-54 | Gives back at most what the window counts, never going below zero; other counters unchanged |
| QuotaStores.InMemoryQuotaStore.EvictExpired | backend/src/policy/quota/inMemoryQuotaStore.ts:66-78 | Drops exactly the counters whose window has ended, and says how many |
| QuotaStores.EvictsExactly | backend/src/policy/quota/inMemoryQuotaStore.ts:66-78 | A counter survives an eviction if and only if its window has not ended |
| QuotaStores.EvictionChangesNoAnswer | backend/src/policy/quota/inMemoryQuotaStore.ts:66-78 | Evictions anywhere in a run change none of its answers; consumes and reads need a clock at or after the evictions before them, releases need none |
| QuotaStores.EvictionVisibleToEarlierClock | backend/src/policy/quota/inMemoryQuotaStore.ts:66-78 | A request stamped before the eviction can be granted twice: the bound on the clock is needed |
| RedisQuota.RedisQuotaStore.TryConsume | backend/src/policy/quota/redisQuotaStore.ts:26-39 | The consume script and its TTL, as a function of keys that carry a value and a deadline |
| RedisQuota.RedisRefinesCounters | backend/src/policy/quota/redisQuotaStore.ts:26-104 | Over any run within skew and delay of the 60 s buffer, Redis answers every call as the counter map does |
| RedisQuota.EveryKeyExpires | backend/src/policy/quota/redisQuotaStore.ts:26-57 | No run leaves a key without a time to live |
| RedisQuota.BufferIsExact | backend/src/policy/quota/redisQuotaStore.ts:59-66 | One second past the buffer a limit of one is granted twice in a window |
| QuotaRules.QuotaRule.Evaluate | backend/src/policy/rules/quotaRules.ts:113-142 | Allowed exactly when the subject is missing and missing is allowed, or the amount fits; the counters move accordingly, also when an answer is lost |
| QuotaLaws.KeyMissingExactly | backend/src/policy/rules/quotaRules.ts:189-213 | A request has no key exactly when a per-IP quota finds no IP, a per-API-key quota no key, or a per-target quota not one call |
| QuotaLaws.KeysAgreeExactly | backend/src/policy/rules/quotaRules.ts:189-213 | Two requests have one key if and only if they are of one subject: same chain and wallet, chain, IP, API key, or chain and target, letter case aside; always for a global quota |
| QuotaLaws.ChargedTogetherExactly | backend/src/policy/rules/quotaRules.ts:113-142 | Two requests are charged on one counter if and only if they are of one subject in one window |
| QuotaLaws.VerdictExactly | backend/src/policy/rules/quotaRules.ts:113-142 | Missing subject, lost call, room and refusal, each with its answer: the name and code of the rule |
| QuotaLaws.ChargedExactly | backend/src/policy/rules/quotaRules.ts:113-142 | What one request leaves on another's counter: its whole charge if they count together and it had room, else nothing |
| QuotaLaws.AllowedExactly | backend/src/policy/rules/quotaRules.ts:113-142 | In every sequence of requests each is allowed if and only if what was granted before it to the same subject in the same window leaves room for its charge, or it carries no subject and the quota skips those |
| QuotaRules.QuotaRule.Remaining | backend/src/policy/rules/quotaRules.ts:160-173 | The whole units that still fit beside what is used, to the last one |
| QuotaRules.QuotaRule.TrueUp | backend/src/policy/rules/quotaRules.ts:232-258 | Refunds the whole gwei between reserved and actual, on the counter the row names, and says how much |
| QuotaRules.RoundingIsSafe | backend/src/policy/rules/quotaRules.ts:101-110 | Charges rounded up that fit a limit rounded down never exceed the configured wei |
| Text.LowerIgnoresCase | backend/src/policy/rules/quotaRules.ts:189-213 | Two strings are alike in lower case if and only if they differ in the case of letters at most |
| QuotaRules.NamespacesIsolated | backend/src/policy/rules/quotaRules.ts:189-213 | Two different non-empty namespaces never produce the same counter key |
| QuotaRules.DefaultTenantIsolated | backend/src/policy/rules/quotaRules.ts:189-213 | A default-tenant key without a slash is no namespaced key |
| QuotaRules.DefaultTenantCollidesExactly | backend/src/policy/rules/quotaRules.ts:189-213 | A default-tenant key is also some tenant's key if and only if what follows `quota:` holds a slash and does not start with one |
| QuotaRules.SlashInDefaultNameCollides | backend/src/policy/rules/quotaRules.ts:189-213 | A default-tenant rule named `ns/name` shares every counter of `name` in `ns`: the slash condition is needed |
| Engine.OrderIsByTier | backend/src/policy/engine.ts:132-144 | Sorting puts pure checks first, then store checks and quotas, then network checks, each in written order |
| Engine.OrderKeepsRules | backend/src/policy/engine.ts:136-144 | Sorting neither loses nor repeats a rule |
| Engine.PolicyEngine.Evaluate | backend/src/policy/engine.ts:52-85 | Decision and counters are those of walking the sorted rules to the first denial and releasing what was reserved; the names are those of the rules walked |
| Engine.PolicyEngine.ReleaseEach | backend/src/policy/engine.ts:111-130 | Every reservation is tried once, whatever the others did |
| Decisions.DecidedExactly | backend/src/policy/engine.ts:52-109 | A policy allows if and only if every check allows and every quota finds its answer and room at its turn, beside what the rules before it charged; otherwise it answers as the first rule that does not pass, by its name and code |
| Decisions.AllowedIsCharged | backend/src/policy/engine.ts:52-85 | An allowed request is charged by every quota whose subject it carries, on each counter their sum |
| Compensation.EvaluationIsExact | backend/src/policy/engine.ts:52-130 | A denied evaluation nets to zero on every counter; an allowed one to exactly its reservations |
| Compensation.ReleaseAllUndoes | backend/src/policy/engine.ts:87-130 | A release never meets the clamp while its reservation stands |
| Compensation.FreeChecksComeFirst | backend/src/policy/engine.ts:52-85 | No quota is reserved before every pure rule has passed, wherever the policy lists it |
| Budget.HeldChange | backend/src/policy/quota/inMemoryQuotaStore.ts:26-54 | Changing one hold changes the total of its counter by the difference and no other total |
| BudgetSafety.GiveBackKeepsBooks | backend/src/policy/rules/quotaRules.ts:144-157 | Giving back part or all of a hold keeps its counter in step with its holds, and every other |
| BudgetSafety.RefundSettles | backend/src/policy/rules/quotaRules.ts:232-258 | A true-up leaves the smaller of reserved and actual held, whatever counter it reaches |
| BudgetSafety.TrueUpKeepsBooks | backend/src/policy/rules/quotaRules.ts:232-258 | What a true-up takes off a counter that its request did not charge is stray there, and what it gives back of a hold on another counter is missed there; nothing else comes between a counter and its holds |
| BudgetSafety.ClaimedRowStays | backend/src/db/postgresSpendReconciliationStore.ts:40-75 | A claimed row is never touched again by any step |
| BudgetSafety.StepKeepsTraced | backend/src/reconciliation/spendReconciler.ts:155-235 | However rows are stamped, every step of every replica keeps requests, rows, landings and claims in step |
| BudgetSafety.StepKeepsInv | backend/src/reconciliation/spendReconciler.ts:155-235 | Every step of every replica, however rows are stamped, keeps the invariant: every request has its holds, on the counters it charged, and claims say what landed |
| BudgetSafety.RunKeepsBooks | backend/src/reconciliation/spendReconciler.ts:155-235 | Over every run each counter equals its holds, and each quota's holds fit its limit, but for the stray and missed gwei of the run |
| SpendCap.SpendNeverPassesCap | backend/src/policy/rules/quotaRules.ts:97-258 | In every run, for every wei quota and window, the summed actual cost of landed operations attested in it exceeds the limit by at most the gwei that stray refunds took off its own counter |
| SpendCap.AttestationsNeverPassQuota | backend/src/policy/rules/quotaRules.ts:97-142 | In every run the attestations recorded in one window exceed an operations quota by at most what stray refunds took off its own counter |
| SpendCap.CountersAreHolds | backend/src/policy/quota/inMemoryQuotaStore.ts:34-54 | In every reachable state each counter is its holds, and each rule's own holds fit its own limit even on a shared counter, but for what stray refunds took off it or gave back elsewhere |
| StrayRefunds.SparingIsStrayFree | backend/src/db/postgresSpendReconciliationStore.ts:59-64 | Nothing strays to a counter that no row of the run is stamped to refund without having charged it, whatever rows do elsewhere |
| StrayRefunds.SparedCapHolds | backend/src/policy/rules/quotaRules.ts:97-258 | On such a counter the limit holds as configured, for spend and for operations |
| StrayRefunds.FaithfulStraysNowhere | backend/src/policy/rules/quotaRules.ts:215-243 | A row is faithful for a quota if and only if its refund strays to no counter |
| StrayRefunds.FaithfulCountersAreHolds | backend/src/policy/quota/inMemoryQuotaStore.ts:34-54 | In a run of faithful rows every counter is exactly its holds and every limit holds |
| SpendCap.LandedIsCovered | backend/src/policy/rules/quotaRules.ts:175-258 | A landed cost is covered by what its attestation still holds, claimed or not |
| SpendCap.FaithfulExactly | backend/src/policy/rules/quotaRules.ts:215-243 | A refund reaches the charged counter if and only if the row is stamped in the charged window and a per-key quota had a key |
| SpendCap.MisstampedRefundFreesAnotherWindow | backend/src/db/postgresSpendReconciliationStore.ts:59-64 | Stamped in another window, the refund lowers a counter the request never charged |
| MisstampedRun.CapIsPassed | backend/src/db/postgresSpendReconciliationStore.ts:59-64 | The bound is reached: a whole run with one row stamped a window late, in which one window costs its limit and the one stray gwei |
| SpendCap.UnlocatedCapsStayConservative | backend/src/policy/rules/quotaRules.ts:215-258 | Per-address, per-target and operation caps are never refunded |
| CleanRuns.CleanRunsAreExact | backend/src/reconciliation/spendReconciler.ts:199-235 | With no call lost, a refused request holds nothing and a refunded one exactly the smaller of reserved and spent |
| BudgetRuns.EvaluationIsRun | backend/src/policy/engine.ts:52-130 | The engine's evaluation is a run of the protocol with the same counters and outcome |
| SponsorService.SponsorService.Sponsor | backend/src/api/sponsor/sponsor.service.ts:151-333 | Issued if and only if the policy is loaded, the subscription allows, the balance is unknown or covers the cost, every rule passes at its turn, and signing and recording succeed; each refusal if and only if its own condition holds and none before it; the row recorded; a request that is not issued charges nothing when no call is lost |
| SponsorService.ReservingInWrittenOrder | backend/src/policy/engine.ts:87-89 | Releasing in written order releases what evaluation reserved in sorted order |
| SponsorService.FailureIsExact | backend/src/api/sponsor/sponsor.service.ts:323-332 | An approval whose signing or recording fails nets to zero on every counter |
| SponsorRuns.SponsorIsRun | backend/src/api/sponsor/sponsor.service.ts:223-333 | Answer, counters and rows of the service are a run of the protocol whatever the outcome, and a faithful one if an issued row is stamped faithfully |
| Sponsorships.SponsorshipTable.Claim | backend/src/db/postgresSpendReconciliationStore.ts:40-84 | Marks the newest unreconciled row of the operation, or none, and no other |
| Sponsorships.SponsorshipTable.SaveCheckpoint | backend/src/db/postgresSpendReconciliationStore.ts:27-38 | A checkpoint never goes back |
| SpendReconciler.SpendReconciler.Refund | backend/src/reconciliation/spendReconciler.ts:199-235 | Every quota of the claimed row's policy is trued up once, in written order, as steps of the protocol, and the wei they report are summed; an unloaded policy refunds nothing |
| SpendReconciler.SpendReconciler.ReconcileEvent | backend/src/reconciliation/spendReconciler.ts:171-188 | The newest unclaimed row of the operation is marked with the cost and its policy's quotas trued up, as a run of the protocol; an event whose operation has no such row changes nothing |
| SpendReconciler.SpendReconciler.ReconcileChain | backend/src/reconciliation/spendReconciler.ts:155-197 | A whole tick: exactly the events of the next window, each done after the other, the rows and wei reported being those reconciled and refunded, rows only marked, checkpoint at the window's end, all as a run of the protocol |
| SpendReconciler.TickIsScan | backend/src/reconciliation/spendReconciler.ts:155-197 | That tick is a run of the scan: begin the window, offer its events one by one, refund what is claimed, finish; same budget, same checkpoint |
| ReconcilerRuns.PartsAreOffers | backend/src/reconciliation/spendReconciler.ts:171-188 | Dealing with events one after the other is offering them one after the other, whoever else claimed their rows |
| SpendReconciler.TrueUpIgnoresCase | backend/src/policy/rules/quotaRules.ts:189-213 | A true-up depends on the sender only up to letter case |
| ScanWindow.WindowsAreContiguous | backend/src/reconciliation/spendReconciler.ts:155-166 | There is a window exactly when a confirmed block is not scanned; it starts after the checkpoint, or the look-back behind the confirmed head, and ends at that head or when it is as wide as the cap |
| ScanProtocol.ReconcilersMissNothing | backend/src/reconciliation/spendReconciler.ts:155-197 | Over racing and crashing replicas the checkpoint only advances and every operation it passed is reconciled |
| ScanProtocol.ClaimedAndRefundedOnce | backend/src/db/postgresSpendReconciliationStore.ts:40-75 | Each sponsorship is claimed at most once and each of its quotas refunded at most once |
| PlanCeilings.LoadedExactly | backend/src/policy/planCeilings.ts:48-103 | A reload appends one rule for each limit of the tenant's own plan while that is configured, of the default plan when it is not or none is named, and nothing when there is neither |
| PlanCeilings.CeilingInEveryPolicy | backend/src/policy/planCeilings.ts:48-103 | Every policy of the tenant evaluates each limit of the plan that binds it, whatever else it holds |
| PlanCeilings.PlanBoundsEveryDay | backend/src/policy/planCeilings.ts:48-103 | In every run, across all policies and keys of a tenant and whatever rules it writes, a day's attestations and spend exceed the plan that binds it, its own or else the default one, by at most what stray refunds took off the plan's own two counters |
| PlanCounters.AdmittedIsApart | backend/src/policy/policyFactory.ts:102-118 | No spend cap that the schema admits counts where a ceiling does, but one of the default tenant named `ns/platform:...` |
| PlanCounters.SlashedNameReachesCeiling | backend/src/policy/rules/quotaRules.ts:189-213 | A spend cap of the default tenant named like another tenant's operations ceiling, slash included, is refunded there, and strays if and only if its row is stamped on another day: the condition on names is needed |
| PlanCounters.ReachesCeiling | backend/src/policy/planCeilings.ts:71-103 | A true-up that reaches a ceiling's counter is the wei ceiling's own, for a row of its tenant stamped on that day |
| PlanCounters.OperationsStayWithinPlan | backend/src/policy/planCeilings.ts:48-103 | In every run, however rows are stamped and whatever rules the schema lets tenants write, a day's attestations stay within the plan, if no default-tenant spend cap is named `ns/platform:...` |
| PlanCounters.SpendStaysWithinPlan | backend/src/policy/planCeilings.ts:48-103 | In every run a tenant's spend of a day stays within the plan if no row of its own is stamped on that day that was charged on another |
| ChainEvents.SortedIsChainOrder | backend/src/chain/chainAdapter.ts:400-443 | Events come out by block and log index, none lost and none added |
| ChainEvents.LogOrderIsIrrelevant | backend/src/chain/chainAdapter.ts:400-443 | The order in which the node returns its logs does not matter |
| LedgerReads.EventsAreHistory | backend/src/chain/chainAdapter.ts:400-443 | For the logs of a block range in any order, the events returned are those of the announced movements of its blocks, signed, in chain order |
| LedgerHistory.BalanceSplits | backend/src/reconciliation/tenantLedgerReconciler.ts:66-76 | A balance moves by what events announce and what they do not |
| TenantLedger.LedgerStore.CommitWindow | backend/src/db/postgresTenantLedgerStore.ts:32-88 | Entries inserted once by transaction and log index, balances replaced unless newer, checkpoint never rewound: one step |
| TenantLedger.InsertedExactly | backend/src/db/postgresTenantLedgerStore.ts:42-60 | A new event is stored with its kind, delta, reported balance and place, its tenant and transaction in lower case |
| TenantLedger.StoredStays | backend/src/db/postgresTenantLedgerStore.ts:42-60 | What is stored already is never overwritten |
| TenantLedger.TenantLedgerReconciler.FoldEvents | backend/src/reconciliation/tenantLedgerReconciler.ts:143-149 | Per tenant the net delta and the last reported balance of the window, folded event by event |
| TenantLedger.FoldIsExact | backend/src/reconciliation/tenantLedgerReconciler.ts:143-149 | That fold is each tenant's announced movement and its balance at its last event |
| TenantLedger.TenantLedgerReconciler.ActualBalance | backend/src/reconciliation/tenantLedgerReconciler.ts:204-219 | The balance at the window's end, else at the last event, else none |
| TenantLedger.TenantLedgerReconciler.ReconcileWindow | backend/src/reconciliation/tenantLedgerReconciler.ts:151-190 | The balances, drifts and first sights of exactly the tenants to check, whatever order they are visited in |
| TenantLedger.TenantLedgerReconciler.ReconcileChain | backend/src/reconciliation/tenantLedgerReconciler.ts:128-202 | From the node's own logs, in any order, a tick leaves and reports what `Tick` says of the chain's history and the stored ledger |
| LedgerRuns.LedgerTelescopes | backend/src/reconciliation/tenantLedgerReconciler.ts:128-202 | In every run stored balances are the chain's at each tenant's point, no event lies between there and the checkpoint, baseline plus deltas plus reported drifts is the stored balance, and the entries are those of the scanned events |
| LedgerRuns.EachEventOnce | backend/src/db/postgresTenantLedgerStore.ts:42-60 | Those entries are one per event, each under its own transaction and log index |
| LedgerEntries.EntriesAreHistory | backend/src/db/postgresTenantLedgerStore.ts:42-60 | After any run each announced movement of the scanned blocks has its entry under its transaction and log index: its tenant, its kind, its signed amount, the balance it left, its block |
| LedgerEntries.EntryOf | backend/src/db/postgresTenantLedgerStore.ts:42-60 | And there is no other entry |
| LedgerEntries.EntriesAddUp | backend/src/reconciliation/tenantLedgerReconciler.ts:66-76 | After any run the deltas of a tenant's entries add up to what the scanned blocks announce of it |
| LedgerEntries.ScanBegins | backend/src/reconciliation/tenantLedgerReconciler.ts:128-140 | The scanned blocks begin the look-back behind the confirmed head of the first tick that has one |
| LedgerEntries.CheckedExactly | backend/src/reconciliation/tenantLedgerReconciler.ts:151-156 | A window checks exactly the tenants with an event in it and, once it reaches the confirmed head, every known one |
| LedgerEntries.TickCounts | backend/src/reconciliation/tenantLedgerReconciler.ts:128-202 | A tick reports its blocks, as many events as it adds entries, and as many seeds as it adds tenants |
| LedgerRuns.DriftsAreExact | backend/src/reconciliation/tenantLedgerReconciler.ts:158-190 | After any run a tick reports a drift if and only if a baselined, checked tenant moved without events since its point, and reports that movement |
| LedgerRuns.DriftIsSilent | backend/src/reconciliation/tenantLedgerReconciler.ts:170-178 | Expected and actual differ by exactly the silent movement, also from the last reported balance |
| LedgerRuns.CaughtUpFindsEveryDrift | backend/src/reconciliation/tenantLedgerReconciler.ts:137-152 | Once a window reaches the confirmed head, every known, readable tenant is checked there, so a silent movement is found even without further events |
| Subscriptions.SubscriptionRepository.RecordPayment | backend/src/db/subscriptionRepository.ts:81-148 | Payment row and new end commit together or not at all; duplicates and broken constraints change nothing |
| Subscriptions.IntervalsAreOrdered | backend/src/db/subscriptionRepository.ts:81-148 | In every serial run a tenant's intervals follow one another, the stored end is the last, and each transaction is recorded at most once |
| Subscriptions.TimeIsConserved | backend/src/db/subscriptionRepository.ts:98-100 | The intervals cover exactly the seconds that were bought |
| Subscriptions.ActiveExactlyWhenBought | backend/src/billing/subscription.ts:118-120 | A tenant is active at `t` if and only if `t` lies in an interval bought by then |
| PlanTime.PlanTimeIsConserved | backend/src/db/subscriptionRepository.ts:133-139 | Plan by plan, time served and time left is time bought at that plan's price, and what a change of plan relabelled to it, less what one relabelled from it |
| PlanTime.ServedBeyondBoughtExactly | backend/src/db/subscriptionRepository.ts:133-139 | A plan is at no time served for longer than was bought at its price if and only if it gained no more relabelled time than it lost |
| PlanTime.SwitchingAtExpiryIsFair | backend/src/db/subscriptionRepository.ts:133-139 | A tenant that changes plan only when its time is up is served each plan for no longer than it bought it |
| PlanTime.SecondPlanServesBoth | backend/src/db/subscriptionRepository.ts:133-139 | A period of one plan, then one of another at once: both are served under the second |
| SubscriptionStatus.NoticeAgreesWithBanner | backend/src/db/subscriptionRepository.ts:172-202 | The notice sweep warns exactly the active tenants whose dashboard banner shows, and of the same kind; a suspended tenant sees its banner and gets no notice |
| SubscriptionStatus.StatusIsWhatWasBought | backend/src/billing/subscription.ts:105-132 | Active exactly inside a bought interval, allowed exactly up to the grace window after one, due for renewal exactly while allowed with nothing bought beyond the notice, and no subscription exactly without a payment; it names the last end bought |
| SubscriptionStatus.SubscriptionService.StatusOf | backend/src/billing/subscription.ts:99-103 | Answers from the row cached within the TTL, else from the stored one, which it caches |
| SubscriptionStatus.CacheOverAllowsOnly | backend/src/billing/subscription.ts:134-147 | In every interleaving of payments, grace changes, loads and invalidations a cached row allows more than the stored one only after the grace window was lowered, and a cached absence only once what was bought since has lapsed |
| SubscriptionStatus.CacheOverAllowsExactly | backend/src/billing/subscription.ts:134-147 | A cached row allows too much at some instant if and only if grace was lowered by more than payments moved the end, or an absence is cached, allowed, and a row exists |
| SubscriptionStatus.CachedAbsenceOverAllows | backend/src/billing/subscription.ts:106-115 | That exception is real |
| SubscriptionStatus.LoweredGraceOverAllows | backend/src/db/subscriptionRepository.ts:222-228 | A row cached before its grace window is set to zero still allows the old grace |
| SubscriptionStatus.PaymentIsNeverForgotten | backend/src/billing/subscription.ts:134-147 | After a payment and its invalidation with no load in flight, no run ever serves a row that ends before what was bought |
| PaymentClaims.OnlyDepthIsWaitedFor | backend/src/billing/paymentVerifier.ts:81-131 | As the chain grows an acceptance stands, a refusal for want of confirmations ends exactly when the payment is deep enough, and any other refusal of a mined payment is final |
| PaymentClaims.Verify | backend/src/billing/paymentVerifier.ts:81-142 | Accepted if and only if the plan is sold there and the transfer is mined, successful, to the treasury, in the tenant's name, no less than the price and deep enough; each refusal if and only if its own condition fails first; accepted periods are paid |
| PaymentClaims.ClaimService.ClaimSubscriptionPayment | backend/src/api/admin/admin.service.ts:606-645 | Verified, then recorded under the lower-cased hash |
| PaymentClaims.ClaimIsBounded | backend/src/api/admin/admin.service.ts:621-636 | One claim extends by whole paid periods and by at most 63,072,000 s |
| PaymentClaims.ClaimIsMaximal | backend/src/api/admin/admin.service.ts:621-624 | One more period would be unpaid, over the cap, or beyond two years |
| ClaimRuns.EveryCreditWasEarned | backend/src/api/admin/admin.service.ts:606-645 | In every run each transaction is credited at most once, to the tenant it names, for no more than it paid |
| ClaimRuns.NeverAnotherTenants | backend/src/billing/paymentVerifier.ts:108-114 | No claim of a credited transaction is ever accepted again, for any tenant |
| ClaimRuns.ClaimsConserve | backend/src/billing/paymentVerifier.ts:132-141 | The price of a tenant's credited periods never exceeds its transfers to the treasury |
| ClaimRuns.ClaimedTwiceExactly | backend/src/db/subscriptionRepository.ts:124-131 | A verified claim is refused if and only if its lower-cased hash is recorded |
| ClaimRuns.OperatorEntryKeepsItsCase | backend/src/api/admin/admin.service.ts:630 | An operator's entry in upper case does not stop the claim of the same transaction |
| CircuitBreaker.CircuitBreaker.Begin | backend/src/security/circuitBreaker.ts:81-88 | Whether a call starts, and the state after, as a function of the state before and the clock |
| CircuitBreaker.CircuitBreaker.OnFailure | backend/src/security/circuitBreaker.ts:104-111 | A failure in a trial, or at the threshold, opens and restarts the cooldown |
| CircuitBreaker.ClosedExactly | backend/src/security/circuitBreaker.ts:99-118 | Closed if and only if the failures settled since the last success stay below the threshold |
| CircuitBreaker.StateIsExact | backend/src/security/circuitBreaker.ts:65-79 | The state read is closed below the threshold, open for `openMs` after the last failure, and half-open from then on |
| CircuitBreaker.StartsExactlyWhenAdmitted | backend/src/security/circuitBreaker.ts:65-97 | A call starts if and only if the history admits it: below the threshold, or cooled down with a trial left |
| CircuitBreaker.EpisodesAreBounded | backend/src/security/circuitBreaker.ts:83-88 | In every interleaving, with any clock, at most `halfOpenMaxCalls` calls start on a tripped breaker before one settles |
| LeaderLock.RedisLeaderLock.TryAcquire | backend/src/monitoring/leaderLock.ts:101-124 | While it believes it leads it leads on if and only if its own lease is live, otherwise if and only if no lease is; then the lease runs a whole term from now, else it is as it was; any failure steps down |
| LeaderLock.RedisLeaderLock.Release | backend/src/monitoring/leaderLock.ts:126-135 | Steps down, and deletes the lease only if it is its own |
| LeaderLock.AttemptIsRun | backend/src/monitoring/leaderLock.ts:101-124 | An attempt is a run of the cluster: command, then reply or its loss |
| LeaderLock.AtMostOneLeader | backend/src/monitoring/leaderLock.ts:63-135 | In every interleaving two replicas are never both leading within the term of their last grants |
| LeaderLock.RenewalKeepsLeading | backend/src/monitoring/leaderLock.ts:63-124 | A leader within its term that renews leads on for a whole term |
| LeaderLock.ReleaseFreesAtOnce | backend/src/monitoring/leaderLock.ts:63-135 | Once it has released, another replica that asks leads at once |
| LeaderLock.OthersLeaseUntouched | backend/src/monitoring/leaderLock.ts:63-76 | No replica deletes, extends or shortens another's live lease |
| LeaderLock.StalledLeaderStillBelieves | backend/src/monitoring/leaderLock.ts:18-22 | Outside its term a replica may still believe it leads |
| PolicySets.PolicySource.Reload | backend/src/policy/policySource.ts:57-78 | The whole loaded set is installed and indexed, or on a duplicate nothing changes and the first one is named |
| PolicySets.LookupIsIsolated | backend/src/policy/policySource.ts:25-27 | A tenant finds a loaded policy if and only if it is its own, by its own id |
| PolicyReload.PolicyReloader.ReloadNow | backend/src/policy/policyReloader.ts:69-74 | Starts a load exactly when none is running, and otherwise asks it to repeat; the object stays in step with the machine |
| PolicyReload.PolicyReloader.OnSettled | backend/src/policy/policyReloader.ts:75-82 | Repeats exactly when a load succeeded and a request came in meanwhile, as the machine does |
| PolicyReload.ReloadsNeverOverlap | backend/src/policy/policyReloader.ts:69-83 | At most one load is in flight |
| PolicyReload.InstalledNeverOlder | backend/src/policy/policyReloader.ts:60-68 | The installed version never goes back, over any stretch of any run |
| PolicyReload.IdleIsCurrent | backend/src/policy/policyReloader.ts:60-68 | Idle with no failure since, the active set includes every write made before the last request |
| PolicyReload.DroppedExactly | backend/src/policy/policyReloader.ts:69-83 | An idle reloader has dropped a request if and only if the database was written between the read of the last load that succeeded and the last request; the last load failed then |
| PolicyReload.FailureDropsCoalescedRequest | backend/src/policy/policyReloader.ts:75-82 | A request coalesced into a load that fails is dropped |
| IpThrottle.IpThrottle.Check | backend/src/security/ipThrottle.ts:73-91 | Blocked first, spending nothing; otherwise allowed exactly while a rate token is left |
| IpThrottle.IpThrottle.RecordAuthFailure | backend/src/security/ipThrottle.ts:98-119 | Counts the failure, and alerts exactly when the count becomes the threshold |
| IpThrottle.RetryAfterIsExact | backend/src/security/ipThrottle.ts:127-129 | A caller that waits as told comes back in the next window, and any sooner in the same one |
| IpThrottle.AlertsExactlyOnce | backend/src/security/ipThrottle.ts:93-119 | Over any interleaving an IP gets one alert in a window if and only if its failures reach the threshold; allowed checks stay within the rate |
| IpThrottle.AllowedExactly | backend/src/security/ipThrottle.ts:79-91 | Of the checks of a window that get past the block, the first `requestsPerWindow` are allowed and no other |
| IpThrottle.BlockedExactly | backend/src/security/ipThrottle.ts:73-77 | A check is refused as blocked if and only if the window's failures have reached the threshold |
| IpThrottle.OneAlertExactly | backend/src/security/ipThrottle.ts:52-54 | Every run raises one alert per window once its failures reach the threshold, and none before, if and only if the threshold lies in `1 .. ceiling - 1` |
| Words.PairRoundTrip | backend/src/domain/userOperation.ts:45-55 | A packed pair fits 32 bytes, high half first, and unpacks to itself |
| Words.WordIsPair | backend/src/domain/userOperation.ts:52-55 | Every 32-byte word is the pair it unpacks to |
| PaymasterCodec.EncodesExactly | backend/src/signature/paymasterAndData.ts:64-90 | Encoding succeeds if and only if every field is in range and the signature has 64 or 65 bytes; otherwise the error is that of the first check that fails |
| PaymasterCodec.FieldsStandAt | backend/src/signature/paymasterAndData.ts:27-90 | Each field is read back at the contracts' offsets: paymaster, two 16-byte gas limits, two 6-byte times, the tenant, the signature |
| PaymasterCodec.DecodeInvertsEncode | backend/src/signature/paymasterAndData.ts:64-133 | Decoding inverts encoding, for both layouts and both signature lengths |
| PaymasterCodec.EncodeInvertsDecode | backend/src/signature/paymasterAndData.ts:105-133 | Encoding inverts decoding: no two buffers decode alike |
| PaymasterCodec.LayoutsOverlap | backend/src/signature/paymasterAndData.ts:97-100 | A tenant attestation is also a verifying one with a longer tail |
| PaymasterCodec.GasLimitsAreOneWord | backend/src/signature/typedData.ts:66-76 | Bytes [20:52], packed from two halves, are the one 256-bit number there |
| PaymasterCodec.GasLimitsReadBack | backend/src/signature/typedData.ts:66-76 | The digest covers exactly the encoded gas limits, with or without the tail |
| PaymasterCodec.SdkRebuildsEngineBytes | sdk/src/userOpHash.ts:34-42 | What the SDK rebuilds from the answer is what the engine signed |
| UserOperations.PackingKeepsFields | backend/src/api/dto/sponsorRequest.ts:94-109 | Packing succeeds if and only if the four fields fit 128 bits, and every accessor reads its own field back |
| UserOperations.MaxCostIsPrefund | backend/src/chain/gas.ts:37-48 | The cost computed on the packed operation is the sum of the five gas limits times the maximum fee |
| UserOperations.SdkPacksAlike | sdk/src/userOpHash.ts:11-26 | The SDK computes the same words and init code from the same fields |
| MetricSeries.CounterMetric.Inc | backend/src/monitoring/metrics.ts:45-50 | The series of the label set grows by the amount, or appears last with it; no other changes |
| MetricSeries.GaugeMetric.Set | backend/src/monitoring/metrics.ts:66-68 | The series of the label set takes the value, keeping its place |
| MetricSeries.KeyIgnoresOrder | backend/src/monitoring/metrics.ts:26-32 | The series key does not depend on the order in which labels were written |
| MetricSeries.KeyIsInjective | backend/src/monitoring/metrics.ts:26-32 | Comma-free label sets share a series if and only if they are the same record |
| MetricSeries.CommaCollides | backend/src/monitoring/metrics.ts:26-32 | With a comma in a value two label sets share one series: the condition is needed |
| MetricSeries.CounterIsTotal | backend/src/monitoring/metrics.ts:38-57 | After any run of increments a series exists exactly for the label sets counted, and holds their total |
| MetricSeries.GaugeIsLatest | backend/src/monitoring/metrics.ts:59-75 | After any run of assignments a series holds the latest value of its label set |
| DashboardTotals.DashboardReadsTotals | frontend/src/lib/prometheus.ts:37-104 | End to end: the families parsed from a rendered counter hold, for every label set counted, its printed total |
| DashboardHistograms.PlainIsRead | backend/src/monitoring/metrics.ts:52-79 | A rendered counter or gauge is read as one sample a series, in order, with its labels and value, its type and its help |
| DashboardHistograms.HistogramIsRead | backend/src/monitoring/metrics.ts:99-111 | A rendered histogram is read series by series: each bucket under its bound, infinity under the count, then sum and count |
| DashboardHistograms.DashboardEstimates | frontend/src/lib/prometheus.ts:173-203 | End to end: the quantile estimated from the text of a histogram is that of its observations, interpolated in the first bucket whose count reaches the rank |
| Exposition.PassesEscapeEach | backend/src/monitoring/metrics.ts:17-24 | Three global replacements escape each character on its own |
| Exposition.SampleRoundTrip | frontend/src/lib/prometheus.ts:35-82 | A printed sample is read back: name, labels and value, whatever the label values hold on one line |
| Exposition.ReadBackExactly | frontend/src/lib/prometheus.ts:94-104 | A sample is read back if and only if no label value holds CR, U+2028 or U+2029 |
| MetricsText.ParsePrometheusText | frontend/src/lib/prometheus.ts:37-82 | The families are those of reading the lines one after the other |
| MetricsRoundTrip.MetricsRoundTrip | backend/src/monitoring/metrics.ts:52-136 | Parsing a rendered registry gives back every family, type, help and sample in order if and only if no counter or gauge prints samples under the name of an earlier histogram's series |
| MetricsRoundTrip.BorrowedNameIsMisfiled | frontend/src/lib/prometheus.ts:70-73 | A counter called like the count of an earlier histogram comes back without samples, and the histogram with them |
| Quantile.HistogramSeries.Observe | backend/src/monitoring/metrics.ts:85-97 | Each bucket counts exactly the observations at or below its bound; sum and count follow |
| Quantile.HistogramQuantile | frontend/src/lib/prometheus.ts:173-203 | The loop over the sorted buckets computes the estimate |
| Quantile.EstimateIsInterpolated | frontend/src/lib/prometheus.ts:186-203 | The estimate lies in the first bucket whose count is no less than `q * n`, as far into it as the rank is into its observations; at the bound of a bucket that adds none, and at the largest bound when none is reached |
| Quantile.EstimateBeyond | frontend/src/lib/prometheus.ts:183-203 | No estimate exactly without observations, and an infinite one for a quantile above one |
| Quantile.KthWithin | frontend/src/lib/prometheus.ts:186-199 | The k-th smallest observation is within a bound if and only if at least k observations are |
| Quantile.EstimateBracketsOrderStatistic | frontend/src/lib/prometheus.ts:173-203 | The estimate lies in the bucket of the ceil(q*n)-th smallest observation, or is the largest finite bound when that one exceeds it |
| Quantile.EstimateIsMonotone | frontend/src/lib/prometheus.ts:173-203 | A larger quantile is never estimated below a smaller one |
| Quantile.BucketOrderIsIrrelevant | frontend/src/lib/prometheus.ts:178-181 | The estimate does not depend on the order in which a series' buckets are read |

## Left out

- HTTP, dependency wiring, guards, request schemas, configuration parsing, user interface: no hard invariant.
- Hashing, EIP-712 digests, signature schemes, key management: signatures are opaque bytes, hashes injective.
- Access-list, balance, gas and contract-state rules: one check rule with an arbitrary verdict stands for each.
- Alert delivery, audit entries, metrics hooks, tracing and log lines of every component.
- `SKIP LOCKED` against a claim that later aborts: each statement is one atomic step.
- The first scan by several replicas without a checkpoint, and reorganisations below the confirmations.
- Rule-set changes during a run of the budget protocol.
- The solvency check of the ledger reconciler: one comparison of two numbers read from the contract.
- Concurrent ledger reconcilers and concurrent first payments of one tenant: the source reads outside the transaction that commits.
- The foreign key from subscription tables to tenants, and the database's own `recorded_at` and `updated_at` clocks.
- Sending notices, and the rows that record which were sent: only the predicate that selects them is modelled.
- Admin-triggered policy reloads, which bypass the reloader, and the broadcast's coalescing timer.
- Number printing and parsing, including numerals that are not plain decimal in an eviction scan.
- Reading a snapshot: sums, groupings and label lists of the dashboard.
- Hex text and address checksums: addresses, signatures and words are byte sequences, compared without case.
- Quantile.EstimateBracketsOrderStatistic: one series with rising, non-negative bounds; several label sets merged into one histogram are not modelled.
- SponsorRuns.SponsorIsRun: the row id is drawn when the request arrives, while the database draws it on insertion.
- TenantLedger.TenantLedgerReconciler.ReconcileChain: a failed read of blocks, events or stored balances is a tick that does not happen.
- MetricsRoundTrip.MetricsRoundTrip: two metrics of one name, which the registry accepts and the program never creates, are excluded: their families are one.
- PaymentClaims.Verify: a price of zero, which the plan schema refuses, is excluded rather than modelled as a division error.
