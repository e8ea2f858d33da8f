# A verified model of the GPU rental platform

This project models the accounting and protocol state of the platform and proves properties of it with
Dafny. Each SQL transaction of the control plane is one atomic step over tables held as maps; calls that
are single statements or explicit sequences of statements (outbox, workspace reconciler, inventory sync)
are separate steps that interleave. Every component has a specification as functions on a state datatype,
the transactions again as methods of a class that update its fields in place and are proved equal to the
specification, and lemmas about all runs of the specification. What a transaction does is also stated apart
from its specification: when it is accepted, and then the new rows field by field.

- `Quota.dfy`, `Workspaces.dfy`: quota limits, reservations and the quota workspaces take directly.
- `Snapshots.dfy`, `Reports.dfy`, `Catalog.dfy`, `CatalogRows.dfy`, `Ingestion.dfy`: an inventory report, its
  validation, and the rows and totals accumulated from all reports.
- `Fleet.dfy`, `FleetStore.dfy`: report ordering, the unchanged-content shortcut, capacity pools and
  placements.
- `Acceptance.dfy`, `InventorySync.dfy`: idempotent acceptance of mutations, and the inventory sync that
  retries a conflict under the same identity.
- `Outbox.dfy`, `Retry.dfy`: leases with a fencing generation, and the runner's bounded retries.
- `Reconciliation.dfy`: many workers reconciling one workspace while its desired state changes.
- `Billing.dfy`, `Ledger.dfy`: exact rating, and a ledger bounded by budgets.
- `Metering.dfy`: billable time and cost, computed in two ways, and exactly when the two agree.
- `DemoGateway.dfy`, `DemoCalls.dfy`, `DemoInvariants.dfy`, `DemoStore.dfy`: the browser demo's orders,
  instances and wallets.
- `AgentInventory.dfy`, `AgentNodes.dfy`, `AgentBuild.dfy`, `AgentContract.dfy`, `DnsLabels.dfy`,
  `Decoder.dfy`: the agent's snapshot, what it shows of each node, its canonical form, reading it back, and what
  the hub may rely on.
- `Migrations.dfy`, `LineEndings.dfy`: restartable schema migrations and checksum normalisation.
- `Basics.dfy`, `Text.dfy`, `Sorting.dfy`, `Sums.dfy`, `Assoc.dfy`: optional values and 64-bit bounds, byte
  strings, sorting, sums over tables, key-value lists.

`dafny verify dfyconfig.toml` checks the whole project.

## What is assumed

- Transactions are atomic, and the clock of one statement does not change during it. The database clock
  does not go back; application clocks may, except over the history of one meter (`Metering.dfy`).
- `FOR UPDATE SKIP LOCKED` is a parameter: the set of rows visible to the statement.
- Digests are functions. Where two inputs must not collide, the lemma says so for the inputs that occur.
- A drawn identifier that is already in use makes its insert fail, so the transaction does nothing.
- A report is taken after JSON parsing, a quantity after parsing it into a fraction.
- Amounts, durations and prices of the demo are whole numbers, of either sign.

## Where the code falls short of a natural claim

- An accepted replacement may move `last_heartbeat_at` back (`Fleet.HeartbeatRewindsIff` says exactly when,
  `Fleet.ReplacementRewinds` is a run).
- Completing a workspace marks every pending snapshot as taken, whether or not a manifest listed it
  (`Reconciliation.TakenWithoutApply` is a run; `Reconciliation.AloneTakesListedIff` and
  `Reconciliation.CompletionTakesListedIff` say when all of them were listed).
- An event may be claimed more often than the maximum (`Retry.LapsesExceedAnyMaximum`): exactly when the claim
  of that number lapses without a mark (`Retry.RetriesEndIff`).
- Rating refuses some amounts that would fit 64 bits (`Billing.CeilRatExact` says which,
  `Billing.FittingUsageRefused` is one), and the duration of an interval saturates, so that the parts of a
  very long one may cost twice the whole (`Billing.SpentExactIff`, `Billing.LongIntervalsSplitFreely`).
- The reported budget availability wraps around once credits are large enough, and still larger credits make the
  budget unreadable and block the project's usage (`Ledger.AvailableExactIff` and `Ledger.UsageAcceptedIff` say
  exactly when, `Ledger.AvailabilityWraps` and `Ledger.CreditsBlockUsage` are runs).
- Service and demo can bill differently once a lease has ended: the demo ends an instance at its next call, the
  service at its next sweep (`Metering.MetersAgreeIff` says exactly when they agree, `Metering.MetersDiffer` is
  a history after which they do not).
- The demo reads the clock twice in one call; starting an instance as its lease runs out can leave an active
  order with a terminated instance (`DemoInvariants.DoKeepsInvIff`, `DemoInvariants.LateStartReachable`).
  Wallets, charges and refunds stay right even then.
- The demo does not refuse negative amounts, durations and prices; a wallet can be overdrawn by a top-up
  (`DemoInvariants.NegativeTopUp`; `DemoInvariants.RunConsistentIff` says exactly which runs are sound).
- Line-ending normalisation loses a line break where a CR break meets an LF break
  (`LineEndings.NormalizeRenderIff`, `LineEndings.CrThenLfLosesALine`).

## Model

| member | source | states |
|---|---|---|
| `Quota.RunConserves` | apps/control-plane/internal/storage/postgres/tenancy.go:652-696 | Over any run of quota, reservation and workspace transactions, `reserved` stays the sum of pending reservations and `allocated` the sum of committed ones plus, for whole GPUs, the GPUs of workspaces desired running. |
| `Quota.ReachableWithinLimit` | apps/control-plane/internal/storage/postgres/tenancy.go:298-308 | In every reachable state 0 <= reserved, 0 <= allocated and reserved + allocated <= hard limit, with both counters equal to those sums. |
| `Quota.ClampNeverFires` | apps/control-plane/internal/storage/postgres/workspace.go:411-434 | When a workspace stops, its GPUs are still counted: the clamp at zero and the missing-row tolerance of the release are never needed. |
| `Quota.TransitionRetried` | apps/control-plane/internal/storage/postgres/tenancy.go:625-719 | A transition that succeeded takes effect once: repeated after any run it changes nothing, and succeeds exactly while the reservation is still in the target status. |
| `Quota.ReservationsFinal` | apps/control-plane/internal/storage/postgres/tenancy.go:652-696 | Over any run a reservation keeps its key and amount, released and expired are final, and a committed one can only be released. |
| `Quota.LimitSet` | apps/control-plane/internal/storage/postgres/tenancy.go:261-318 | A limit is accepted exactly for a valid class, a known project and no less than what is in use; it then is the limit of its row, the counters are as before or zero on a new row, and nothing else changes. |
| `Quota.LimitIsLastSet` | apps/control-plane/internal/storage/postgres/tenancy.go:298-308 | Over any run the hard limit of a row is the limit of the last accepted limit transaction for its key. |
| `Quota.ReservationMade` | apps/control-plane/internal/storage/postgres/tenancy.go:335-421 | A reservation is accepted exactly under a new ID, with an expiry ahead and up to limit - reserved - allocated; it then adds its amount to the reserved counter and a pending row, and nothing else. |
| `Quota.ReservableIff` | apps/control-plane/internal/storage/postgres/tenancy.go:368-395 | In every reachable state that room is the limit less the pending and committed reservations and the GPUs of running workspaces. |
| `Quota.TransitionMade` | apps/control-plane/internal/storage/postgres/tenancy.go:625-719 | Exactly pending reservations may go anywhere and committed ones be released; the counters of the row move by the difference of what the reservation holds in the two statuses. |
| `Quota.WorkspaceMade` | apps/control-plane/internal/storage/postgres/workspace.go:23-66 | A workspace is accepted exactly if project, profile and quota row are known, its ID is new and its GPUs are free; it then takes them and stands as a new running row. |
| `Quota.DesiredSet` | apps/control-plane/internal/storage/postgres/workspace.go:226-262 | A workspace may always stop, and run exactly if its GPUs are free; the allocated counter moves by what it uses after and before. |
| `Quota.QuotaAdjusted` | apps/control-plane/internal/storage/postgres/workspace.go:411-438 | On any table: taking needs room, giving back stops at zero or at a missing row, and a difference of nothing is no change. |
| `Quota.QuotaStore.SetQuota` | apps/control-plane/internal/storage/postgres/tenancy.go:261-318 | The upsert of a limit, in place: the new tables and the answer are those of the specified transaction (`LimitSet` says what they are). |
| `Quota.QuotaStore.ReserveQuota` | apps/control-plane/internal/storage/postgres/tenancy.go:335-421 | The reservation transaction equals its specification in every branch. |
| `Quota.QuotaStore.TransitionReservation` | apps/control-plane/internal/storage/postgres/tenancy.go:625-719 | Commit, release and expiry move exactly the reserved amount, or are refused. |
| `Quota.QuotaStore.AdjustWorkspaceQuota` | apps/control-plane/internal/storage/postgres/workspace.go:411-438 | Taking quota fails beyond the limit or without a row; giving back clamps at zero. |
| `Quota.QuotaStore.CreateWorkspace` | apps/control-plane/internal/storage/postgres/workspace.go:23-66 | A workspace takes its profile's GPUs directly and is inserted running at generation 1, or nothing changes. |
| `Quota.QuotaStore.SetWorkspaceDesiredState` | apps/control-plane/internal/storage/postgres/workspace.go:226-262 | A new desired state takes or returns the workspace's GPUs and opens a new generation, or nothing changes. |
| `Snapshots.ValidateDevices` | apps/control-plane/internal/catalog/validate.go:91-113 | One pass with a set of keys accepts exactly the device lists whose devices are well formed with distinct keys. |
| `Snapshots.ValidatePools` | apps/control-plane/internal/catalog/validate.go:65-116 | The hub's single pass over a report accepts exactly the reports with distinct DNS-label pools, globally distinct well-formed nodes and well-formed devices. |
| `Snapshots.DeviceKeysDistinct` | apps/control-plane/internal/catalog/validate.go:76-99 | In an accepted report the pair of node and device key identifies a device over the whole cluster, although device keys are only checked per node. |
| `Reports.PoolsOkIff` | apps/control-plane/internal/catalog/validate.go:65-175 | The hub accepts exactly the pools with distinct DNS labels for names whose nodes, devices and traits have their fields in range, no two nodes of the report sharing a key and no two devices of a node. |
| `Catalog.RewriteReflects` | apps/control-plane/internal/storage/postgres/catalog.go:180-241 | Whatever rows earlier snapshots left, one rewrite makes every device, node, pool and cluster total the direct count of eligible devices in the new snapshot alone. |
| `Catalog.TotalsAddUp` | apps/control-plane/internal/storage/postgres/catalog.go:587-650 | After a rewrite the total of each level is the sum of the totals of the level below. |
| `Catalog.RewriteAgainAlike` | apps/control-plane/internal/storage/postgres/catalog.go:177-241 | Rewriting the content the tables already hold leaves the same rows and totals up to generation stamps. |
| `Catalog.EligibleIsCounted` | apps/control-plane/internal/storage/postgres/catalog.go:587-625 | After upsert and stale marking a device row is eligible exactly when its item in the snapshot is; moved nodes count in their new pool. |
| `CatalogRows.PoolWritten` | apps/control-plane/internal/storage/postgres/catalog.go:181-197 | After a rewrite every pool of the snapshot has a row with its reported management state. |
| `CatalogRows.NodeWritten` | apps/control-plane/internal/storage/postgres/catalog.go:198-215 | Every node of the snapshot has a row in its pool, with what was reported of it. |
| `CatalogRows.DeviceWritten` | apps/control-plane/internal/storage/postgres/catalog.go:216-233 | Every device of the snapshot has a row under its node, with what was reported of it. |
| `CatalogRows.PoolForgotten` | apps/control-plane/internal/storage/postgres/catalog.go:568-585 | A pool the snapshot does not mention keeps its row, disabled, and none appears from elsewhere. |
| `CatalogRows.NodeForgotten` | apps/control-plane/internal/storage/postgres/catalog.go:568-585 | A node the snapshot does not mention keeps its row, unreachable and not schedulable. |
| `CatalogRows.DeviceForgotten` | apps/control-plane/internal/storage/postgres/catalog.go:568-585 | A device the snapshot does not mention keeps its row, unreachable and not allocatable. |
| `CatalogRows.UsageKept` | apps/control-plane/internal/storage/postgres/catalog.go:587-650 | Recounting any rows keeps what is in use of a device, node, pool or cluster, and its total is the count of eligible devices unless more is in use. |
| `Ingestion.ClusterCatalog.Upsert` | apps/control-plane/internal/storage/postgres/catalog.go:181-233 | The nested upsert loops write exactly the rows of the snapshot over the old tables. |
| `Ingestion.ClusterCatalog.MarkStale` | apps/control-plane/internal/storage/postgres/catalog.go:568-585 | A device stays eligible exactly if it was and this generation has seen the device, its node and its pool; rows this generation has seen are untouched. |
| `Ingestion.ClusterCatalog.Refresh` | apps/control-plane/internal/storage/postgres/catalog.go:587-650 | Counting row by row, on tables whose inventory rows carry no usage, leaves at every level the number of eligible device rows under it. |
| `Ingestion.ClusterCatalog.Replace` | apps/control-plane/internal/storage/postgres/catalog.go:180-235 | Upsert, stale marking and recomputation together leave tables that reflect the snapshot, with every level adding up. |
| `Fleet.RewriteStepReflects` | apps/control-plane/internal/storage/postgres/catalog.go:180-241 | After any run, an accepted report that takes the rewrite path leaves totals that are the counts of that report alone, at all levels. |
| `Fleet.TotalsFollowLastReport` | apps/control-plane/internal/storage/postgres/catalog.go:177-241 | If equal source generations mean equal content, the totals agree with the last accepted report in every reachable state, skipped rewrites included. |
| `Fleet.ShortcutRefinesRewrite` | apps/control-plane/internal/storage/postgres/catalog.go:177-179 | In every reachable state, skipping an unchanged report leaves the rows, totals, capacity pools and placements a full rewrite would leave, up to generation counters. |
| `Fleet.ReachableCapacity` | apps/control-plane/internal/storage/postgres/catalog.go:651-656 | In every reachable state a capacity pool's total is the larger of its pool inventory divided by the profile's GPU count and its usage, and its usage is the sum of its placements and never above the total. |
| `Fleet.CreateCapacityInv` | apps/control-plane/internal/storage/postgres/catalog.go:479-497 | A new capacity pool starts with the same derived total and no usage. |
| `Fleet.CapacityCreatedIff` | apps/control-plane/internal/storage/postgres/catalog.go:461-500 | A capacity pool is created exactly for a known node pool and profile under a new ID; it is enabled, unused, and its total is the number of whole profiles in the pool's inventory. |
| `Fleet.SelectPool` | apps/control-plane/internal/storage/postgres/placement.go:40-46 | Scanning the visible rows finds the fitting pool with the most free capacity, smallest ID first on ties, and finds none only if none fits. |
| `Fleet.BestUnique` | apps/control-plane/internal/storage/postgres/placement.go:40-46 | The order of the query leaves no choice: at most one row is first. |
| `FleetStore.PlacementChoice` | apps/control-plane/internal/storage/postgres/placement.go:40-57 | A placement is refused for capacity exactly when no visible pool fits, and otherwise lands on the best visible pool with its quantity. |
| `FleetStore.PlacementMade` | apps/control-plane/internal/storage/postgres/placement.go:32-57 | An accepted placement takes its quantity from one visible, enabled pool of the profile that had room, and changes nothing else. |
| `FleetStore.NewPoolPlaces` | apps/control-plane/internal/storage/postgres/catalog.go:479-497 | A placement of no more than a new visible pool's units is accepted right after the pool was created. |
| `Fleet.InventoryClockMonotone` | apps/control-plane/internal/storage/postgres/catalog.go:168-180 | Over any mix of heartbeats and replacements `last_inventory_at` never goes back and never exceeds `last_heartbeat_at`. |
| `Fleet.SequencesIncrease` | apps/control-plane/internal/storage/postgres/catalog.go:124-132 | Consecutive accepted reports of one agent epoch strictly increase in sequence. |
| `Fleet.GenerationCountsChanges` | apps/control-plane/internal/storage/postgres/catalog.go:246-292 | The inventory generation grows by exactly one per accepted change of content and by nothing else. |
| `Fleet.CompareAndSet` | apps/control-plane/internal/storage/postgres/catalog.go:165-179 | A replacement is accepted only at exactly the current generation; once it changed the content, none that expects that generation or an older one is ever accepted again. |
| `Fleet.HeartbeatAcceptedIff` | apps/control-plane/internal/storage/postgres/catalog.go:97-137 | A heartbeat is accepted exactly if its fields are in range, its cluster is known, its epoch is another one or its sequence larger, and it was not observed before the last heartbeat; it is then what was seen last, and nothing else changes. |
| `Fleet.ReplacementAcceptedIff` | apps/control-plane/internal/storage/postgres/catalog.go:139-243 | A replacement is accepted exactly if its fields, digest and pools are in order, the expected generation is the current one, its epoch is another one or its sequence larger, and it was not observed before the last inventory; it is then what was seen last, at the next generation if its content is new. |
| `Fleet.RestartHeard` | apps/control-plane/internal/storage/postgres/catalog.go:124-132 | A restarted agent is heard at once: a report of another epoch is accepted at any sequence. |
| `Fleet.HeartbeatRewindsIff` | apps/control-plane/internal/storage/postgres/catalog.go:124-180 | `last_heartbeat_at`, unlike the inventory time, can go back: exactly at an accepted replacement that was observed before the last heartbeat, and never behind the last inventory. |
| `Fleet.ReplacementRewinds` | apps/control-plane/internal/storage/postgres/catalog.go:272-292 | A reachable run: a heartbeat observed at 20, then an accepted first inventory observed at 10. |
| `FleetStore.ValidateReport` | apps/control-plane/internal/catalog/validate.go:36-116 | The report validator accepts exactly valid metadata (epoch, sequence, fencing token, observation time), a 64-digit lower-case hexadecimal source generation and valid pools. |
| `FleetStore.Store.ObserveHeartbeat` | apps/control-plane/internal/storage/postgres/catalog.go:97-137 | The heartbeat transaction in every branch: accepted exactly as `HeartbeatAcceptedIff` says; it keeps all invariants of clusters, capacity and placements. |
| `FleetStore.Store.ReplaceInventory` | apps/control-plane/internal/storage/postgres/catalog.go:139-243 | The replacement transaction in every branch: conflict and stale checks exactly as `ReplacementAcceptedIff` says, shortcut, rewrite and capacity refresh; it keeps all invariants. |
| `FleetStore.Store.CreateCapacityPool` | apps/control-plane/internal/storage/postgres/catalog.go:461-500 | The capacity-pool transaction in every branch; it keeps all invariants. |
| `FleetStore.Store.CreatePlacement` | apps/control-plane/internal/storage/postgres/placement.go:32-57 | The placement transaction reserves the quantity on the best visible pool or changes nothing; it keeps all invariants. |
| `Acceptance.RunEffective` | apps/control-plane/internal/storage/postgres/tenancy.go:441-555 | Any trace with repeated keys ends in the same store as the trace with replays, hash conflicts and failures removed. |
| `Acceptance.RowsOfTrace` | apps/control-plane/internal/storage/postgres/tenancy.go:470-555 | Each accepted mutation of a trace has exactly one operation and one idempotency record, kept as first written, and no other row is added to those tables. |
| `Acceptance.NewRowsOfTrace` | apps/control-plane/internal/storage/postgres/tenancy.go:750-781 | No two accepted mutations of a trace share an operation ID or a key, and none reuses an earlier one. |
| `Acceptance.LogsOfTrace` | apps/control-plane/internal/storage/postgres/tenancy.go:557-623 | Outbox and audit log are extended by exactly one queued event, one domain event and one audit row per accepted mutation, in order. |
| `Acceptance.DomainOfTrace` | apps/control-plane/internal/storage/postgres/tenancy.go:441-555 | The domain state is the result of applying the accepted changes once each, in order. |
| `Acceptance.ReplayReturnsFirst` | apps/control-plane/internal/storage/postgres/tenancy.go:721-748 | However much happens in between, the same key and hash returns the IDs of the first acceptance, the same key with another hash is a conflict, and neither changes anything. |
| `Acceptance.FailedThenRetried` | apps/control-plane/internal/storage/postgres/tenancy.go:721-748 | A failed change leaves no trace: after any other traffic the same request is accepted exactly if its change then applies, and fails again otherwise. |
| `Acceptance.FreshIff` | apps/control-plane/internal/storage/postgres/tenancy.go:441-555 | A request is newly accepted exactly if its fields are in range, its kind and principal have not used the key, its change applies and its operation ID is new; it then writes the change and one operation, two events, an audit row and a record, each with the request's values. A used key is a replay for the same hash, with the recorded IDs, and a conflict for another. |
| `Acceptance.ScopeInjective` | apps/control-plane/internal/storage/postgres/tenancy.go:454-460 | Kinds without a colon make the joined scope identify kind and principal. |
| `Acceptance.AcceptanceStore.Accept` | apps/control-plane/internal/storage/postgres/tenancy.go:441-555 | The acceptance transaction, with its queued event delivered at once for immediate completion, equals its specification. |
| `InventorySync.KeyIdentifiesReport` | apps/control-plane/internal/inventorysync/reconciler.go:85-92 | Two readings share an idempotency key exactly when they carry the same cluster, agent epoch and sequence, whatever generation they expect. |
| `InventorySync.MutationValid` | apps/control-plane/internal/inventorysync/reconciler.go:85-92 | The derived identity always passes the mutation validation. |
| `InventorySync.SyncOutcome` | apps/control-plane/internal/inventorysync/reconciler.go:38-75 | A sync changes the hub only by succeeding, and then by the replacement at the generation of that moment; success means the report is recorded or was stale. |
| `InventorySync.SyncAlone` | apps/control-plane/internal/inventorysync/reconciler.go:38-92 | A detailed report of a known cluster, synced undisturbed: a used key is a replay for the same bytes and a conflict for others; a new one is taken at the current generation, whatever generation was listed, with its operation, events, audit row and record, or left alone if it is stale. |
| `InventorySync.SyncElse` | apps/control-plane/internal/inventorysync/reconciler.go:38-84 | A legacy report of a known cluster is its heartbeat, and succeeds even if that is stale; an unknown cluster is a failure and nothing changes. |
| `InventorySync.SyncInvalid` | apps/control-plane/internal/inventorysync/reconciler.go:38-92 | A detailed report that the hub does not accept is a failure and changes nothing, whatever was recorded before. |
| `InventorySync.ResyncIsReplay` | apps/control-plane/internal/inventorysync/reconciler.go:60-75 | Reading the same report again at any later time, from any listed generation and with anything running meanwhile, succeeds and changes nothing. |
| `InventorySync.ResyncAfterTraffic` | apps/control-plane/internal/inventorysync/reconciler.go:60-75 | In particular after any requests the hub accepted, replayed or refused since. |
| `InventorySync.ResyncAtOnce` | apps/control-plane/internal/inventorysync/reconciler.go:38-75 | A second sync straight after a successful one changes nothing, for heartbeats and detailed reports alike. |
| `InventorySync.ConflictNeedsRace` | apps/control-plane/internal/inventorysync/reconciler.go:60-69 | A generation conflict survives the retry only if the cluster's generation moved between reload and retry. |
| `Outbox.LeasesDisjoint` | apps/control-plane/internal/storage/postgres/repository.go:182-228 | Under any interleaving of workers and clock ticks, an earlier lease on an event has ended when a later one starts, and generations increase. |
| `Outbox.AttemptsCountClaims` | apps/control-plane/internal/storage/postgres/repository.go:201-207 | `attempts` of a row is the number of times the event was ever claimed. |
| `Outbox.MarkTakesEffectIff` | apps/control-plane/internal/storage/postgres/repository.go:240-253 | A mark takes effect exactly while the lease of that generation is the worker's own, the latest one and still running; otherwise nothing changes. |
| `Outbox.EndedGenerationFenced` | apps/control-plane/internal/storage/postgres/repository.go:271-328 | A generation that was released or has expired never marks anything, even for the worker that holds the event again. |
| `Outbox.FinishedForever` | apps/control-plane/internal/storage/postgres/repository.go:188-193 | Delivered and dead-lettered rows never change again, over any run. |
| `Outbox.FinishedExclusive` | apps/control-plane/internal/storage/postgres/repository.go:306-328 | No event is both delivered and dead-lettered, and a finished event carries no lease. |
| `Outbox.ReachableInv` | apps/control-plane/internal/storage/postgres/repository.go:168-332 | Every reachable row is what its log of leases and releases says, and every log is well formed. |
| `Outbox.ClaimMade` | apps/control-plane/internal/storage/postgres/repository.go:168-229 | A valid claim leases exactly the visible, due, unleased and unfinished events of its type that have fewer than `limit` such events before them by due time, occurrence and ID, and counts one attempt; all other rows stay. |
| `Outbox.MarkMade` | apps/control-plane/internal/storage/postgres/repository.go:231-332 | A mark of the holder of a running lease writes its verdict (delivered now, dead now, or due again after the backoff) and gives the lease up; any other changes nothing. |
| `Outbox.InsertMade` | apps/control-plane/internal/storage/postgres/repository.go:133-141 | A new event can be claimed from its due time on, by claims of its type or of any, unless it is inserted as delivered; a used ID changes nothing. |
| `Outbox.WaitsIff` | apps/control-plane/internal/storage/postgres/repository.go:188-193 | In every reachable state an unfinished event can be claimed exactly if it is due and its last lease was released or has lapsed. |
| `Outbox.ChosenIsPrefix` | apps/control-plane/internal/storage/postgres/repository.go:195-198 | Taking candidates in order up to the limit takes exactly the candidates with fewer than the limit ahead of them. |
| `Outbox.Repository.Claim` | apps/control-plane/internal/storage/postgres/repository.go:168-229 | The claim leases exactly the first candidates among the visible rows, in query order, and leaves all other rows alone. |
| `Outbox.Repository.Mark` | apps/control-plane/internal/storage/postgres/repository.go:231-332 | The three guarded updates, in every branch, with the failure text cut to 4096 runes. |
| `Retry.RetriesEndIff` | apps/control-plane/internal/workspace/runner.go:84-101 | An event is claimed at most the maximum number of times exactly if its claim of that number did not lapse without a mark; claimed that often it is delivered or dead-lettered for good, or still held, and it is dead-lettered no sooner. |
| `Retry.BackoffSeparatesAttempts` | apps/control-plane/internal/workspace/runner.go:103-110 | With claims all marked in time, attempt n starts no sooner than its total backoff after attempt 1: 2^(n-1)-1 seconds for n <= 7, 63+32(n-7) beyond. |
| `Retry.MarkedByRule` | apps/control-plane/internal/workspace/runner.go:84-99 | A mark by the runner's rule, under a running lease, leaves the event delivered exactly on success and dead-lettered exactly on a failure of the last attempt; otherwise it is due again after the backoff. |
| `Retry.AttemptDecides` | apps/control-plane/internal/workspace/runner.go:84-99 | Over any run, an attempt that succeeded while its lease ran leaves the event delivered for good, and the last one that failed in time leaves it dead-lettered for good. |
| `Retry.BackoffDoubles` | apps/control-plane/internal/workspace/runner.go:101-110 | The backoff doubles from one second up to 32 seconds. |
| `Retry.LapsesExceedAnyMaximum` | apps/control-plane/internal/storage/postgres/repository.go:195-207 | The bound can fail: for every n there is a run in which an unfinished event was claimed n times. |
| `Retry.Process` | apps/control-plane/internal/workspace/runner.go:80-101 | Processing marks the event as the rule demands; under the worker's running lease success delivers it, the last failure dead-letters it, and an earlier one makes it due again after the backoff. |
| `Reconciliation.ReachableRow` | apps/control-plane/internal/storage/postgres/workspace.go:178-198 | Under any interleaving the observed generation never runs ahead, and a row that reports its current generation as succeeded is observed running, stopped or terminated exactly as desired, for which a manifest of that generation was applied. |
| `Reconciliation.SettledMeans` | apps/control-plane/internal/workspace/reconciler.go:55-57 | A row is settled exactly if it succeeded at its generation and is observed running, stopped or terminated as desired. |
| `Reconciliation.RequestsMade` | apps/control-plane/internal/storage/postgres/workspace.go:87-262 | A new desired state opens a new generation and leaves what was observed; a snapshot is added as pending exactly under a new ID on a workspace that is not to be terminated. |
| `Reconciliation.StaleStep` | apps/control-plane/internal/storage/postgres/workspace.go:162-224 | A worker that loaded an older generation never alters the workspace row and cannot begin an apply. |
| `Reconciliation.StaleForever` | apps/control-plane/internal/workspace/reconciler.go:41-74 | Once its generation is superseded, a worker stays stale until its reconcile ends. |
| `Reconciliation.SettledIsFixpoint` | apps/control-plane/internal/workspace/reconciler.go:55-57 | A settled row that no worker is applying for is left alone, and nothing is applied, by any number of workers handling any events other than new snapshots or desired states. |
| `Reconciliation.SettledForGood` | apps/control-plane/internal/workspace/reconciler.go:41-74 | With no other worker at it, a reconcile that settles the row settles it against all such events, in any number and interleaving. |
| `Reconciliation.StaysSettledIff` | apps/control-plane/internal/workspace/reconciler.go:55-74 | A settled row stays as it is under all later redeliveries, by any number of workers in any interleaving, exactly if no worker is on the apply path for its generation when they start. |
| `Reconciliation.AloneSettles` | apps/control-plane/internal/workspace/reconciler.go:41-74 | An undisturbed reconcile ends settled exactly if the row was settled (for events other than snapshots) or the apply succeeds. |
| `Reconciliation.AloneOutcome` | apps/control-plane/internal/workspace/reconciler.go:41-74 | The row, snapshots and applied manifests an undisturbed reconcile leaves behind, in every branch. |
| `Reconciliation.AloneLeaves` | apps/control-plane/internal/workspace/reconciler.go:41-74 | The same written out: a successful apply sends one manifest of the row's generation and leaves the row succeeded at it and observed as desired; a failed one leaves it unobserved, and failed only on the last attempt; the branch without a manifest only takes snapshots. |
| `Reconciliation.AloneTakesListedIff` | apps/control-plane/internal/storage/postgres/workspace.go:193-196 | An undisturbed reconcile takes only snapshots that some applied manifest listed, exactly if every pending one was listed before, or it applies a manifest and the workspace is not to be terminated, or its apply fails. |
| `Reconciliation.CompletionTakesListedIff` | apps/control-plane/internal/storage/postgres/workspace.go:193-196 | Under any interleaving a completion takes every pending snapshot, and all of them are listed exactly if those its own manifest could not list were listed by another worker: the ones created after its read, and all of them on the branch without a manifest or towards termination. |
| `Reconciliation.TakenWithoutApply` | apps/control-plane/internal/storage/postgres/workspace.go:193-196 | A run in which a snapshot is reported taken although no applied manifest ever listed it. |
| `Reconciliation.Repository.Reconcile` | apps/control-plane/internal/workspace/reconciler.go:41-74 | The sequential form equals the undisturbed run of steps and succeeds exactly when the row ends settled. |
| `Reconciliation.Repository.CompleteWorkspace` | apps/control-plane/internal/storage/postgres/workspace.go:178-198 | The guarded row update, which observes the row running, stopped or terminated as desired, and the unguarded snapshot update. |
| `Billing.CeilRatExact` | apps/control-plane/internal/billing/fixed.go:101-118 | Rounding succeeds exactly for non-negative integers within 64 bits and for other non-negative values whose lowest-terms numerator is below 2^62, and then returns the exact ceiling. |
| `Billing.FittingAmountRefused` | apps/control-plane/internal/billing/fixed.go:102-104 | An amount whose ceiling fits 64 bits and is refused by the bit-length test. |
| `Billing.FittingUsageRefused` | apps/control-plane/internal/billing/fixed.go:63-78 | A rate and a fact whose amount fits 64 bits and is refused: 2^62 + 1/2 units for one second at one minor unit. |
| `Billing.CommonDivisor` | apps/control-plane/internal/billing/fixed.go:102-107 | The divisor taken out is the greatest one, so the tested numerator is in lowest terms. |
| `Billing.RatedExactly` | apps/control-plane/internal/billing/fixed.go:67-78 | A rated amount is the least integer not below quantity x seconds x price, and fits 64 bits. |
| `Billing.RatedIff` | apps/control-plane/internal/billing/fixed.go:56-99 | A fact is rated exactly if its class has a rate, its fields are complete and quantity x time x price passes the rounding; the record names the fact and its rate, with the exact ceiling. An unknown class is its own error. |
| `Billing.RatingMonotone` | apps/control-plane/internal/billing/fixed.go:67-78 | More units for at least as long never cost less. |
| `Billing.SplittingBound` | apps/control-plane/internal/billing/fixed.go:67-78 | Billing an interval in n adjacent parts never costs less than the whole, and at most n-1 minor units more while its duration fits 64-bit nanoseconds. |
| `Billing.SpentExactIff` | apps/control-plane/internal/billing/fixed.go:71-72 | Several parts are billed for the time of the whole exactly if its duration fits 64-bit nanoseconds. |
| `Billing.LongIntervalsSplitFreely` | apps/control-plane/internal/billing/fixed.go:67-72 | Beyond that range the difference has no such bound: two saturated halves cost twice the whole. |
| `Ledger.BudgetsHold` | apps/control-plane/internal/storage/postgres/metering.go:84-105 | In every reachable state debits minus credits in a budget's currency are within its limit, across usage, credits and budget changes. |
| `Ledger.OneDebitPerFact` | apps/control-plane/internal/storage/postgres/metering.go:67-80 | Every usage fact has one rating and exactly one debit, of the same amount, currency and project. |
| `Ledger.ReachableBalanced` | apps/control-plane/internal/storage/postgres/budgets.go:38-44 | The ledger sum of a project and currency is the sum of its ratings less its credits. |
| `Ledger.UsageAcceptedIff` | apps/control-plane/internal/storage/postgres/metering.go:21-105 | In every reachable state a usage is accepted exactly if it can be rated, its project is known, its fact is new, its currency is a code, and the project's budget, if any, has that currency, can be read, and covers the amount less the net credit. |
| `Ledger.UsageRecorded` | apps/control-plane/internal/storage/postgres/metering.go:67-80 | An accepted usage records and debits exactly the rated amount in the rate's currency: the usage of its project grows by it in that currency, and no other row or sum changes. |
| `Ledger.UsageRefused` | apps/control-plane/internal/storage/postgres/metering.go:21-105 | What each refusal of a usage means; it is refused for the budget only if its amount on top of what is used exceeds the limit of its tenant's budget in that currency. A refusal changes nothing. |
| `Ledger.DebitsAreCosts` | apps/control-plane/internal/storage/postgres/metering.go:21-82 | In every reachable state each debit is the least whole amount not below quantity x seconds x price of its fact, at a price some usage of the run found for the fact's class. |
| `Ledger.BudgetSet` | apps/control-plane/internal/storage/postgres/budgets.go:16-47 | A budget is set exactly for a known project of the tenant, in a currency whose usage can be read and does not exceed it; it then is the project's budget, and nothing else changes. |
| `Ledger.CreditRecorded` | apps/control-plane/internal/storage/postgres/credits.go:16-51 | A credit is taken exactly for a known project of the tenant with fields in range, and lowers its usage in that currency by the amount. |
| `Ledger.AvailableExactIff` | apps/control-plane/internal/storage/postgres/budgets.go:49-63 | In every reachable state the reported availability is the limit less the net usage, and non-negative, exactly if the credits exceed the ratings by no more than 64 bits leave above the limit; past 2^63 the budget cannot be read. |
| `Ledger.BudgetViews` | apps/control-plane/internal/storage/postgres/budgets.go:49-65 | Exactly an unknown budget is reported as none and exactly a sum beyond 64 bits as unreadable; otherwise limit and usage are shown as they are. |
| `Ledger.AvailabilityWraps` | apps/control-plane/internal/storage/postgres/budgets.go:49-63 | A reachable run: the largest budget and a credit of one minor unit, reported as -2^63 available. |
| `Ledger.CreditsBlockUsage` | apps/control-plane/internal/storage/postgres/metering.go:84-105 | A reachable run: after two of the largest credits the budget cannot be read and no usage of the project is accepted. |
| `Ledger.Repository.GetBudget` | apps/control-plane/internal/storage/postgres/budgets.go:49-65 | Reading a budget with its usage and availability, in every branch. |
| `Ledger.Repository.CreateUsageFact` | apps/control-plane/internal/storage/postgres/metering.go:21-82 | Rating, budget check and the three inserts, in every branch; accepted, it records and debits exactly the rated amount (`UsageRecorded`). |
| `Ledger.Repository.SetBudget` | apps/control-plane/internal/storage/postgres/budgets.go:16-47 | The budget upsert, refused below current usage. |
| `Ledger.Repository.CreateCreditAdjustment` | apps/control-plane/internal/storage/postgres/credits.go:16-51 | The credit append and its refusals. |
| `Ledger.Repository.SumLedger` | apps/control-plane/internal/storage/postgres/metering.go:98-100 | The signed sum over a project's entries in one currency. |
| `Metering.MetersAgreeIff` | apps/web/src/data/demo-gateway.ts:1312-1346 | After any history of user calls, other demo calls and sweeps at the same instants, service and demo show the same seconds, and with them the same cost, exactly before the end of the lease, or if the meter stood still then, or both stopped it in the same second, or the lease was used up; and the same status exactly before the end or once the service has ended the instance. |
| `Metering.MetersAgree` | apps/web/src/data/demo-gateway.ts:1312-1346 | Before the lease ends both show the same status, billable seconds and cost at every reading. |
| `Metering.MetersDiffer` | apps/api/src/instances/instances.service.ts:186-199 | A history after which they differ: the demo ends the instance at the end of the lease, a sweep one minute later bills a minute more. |
| `Metering.ClampRedundant` | apps/api/src/instances/instances.service.ts:282-301 | When the maximum is price times hours, the cost is the plain ceiling and never reaches the clamp. |
| `Metering.DerivedPrice` | apps/web/src/data/demo-gateway.ts:1332-1339 | Maximum divided by lease hours gives back the hourly price. |
| `Metering.ServiceStep` | apps/api/src/instances/instances.service.ts:108-252 | Each call and sweep starts, stops or ends the service's meter exactly as its status and lease say; what it ran is added once, when it stops. |
| `Metering.DemoCallStep` | apps/web/src/data/demo-gateway.ts:781-856 | Each call starts, stops or ends the demo's meter exactly as its status and lease say; stopping keeps the reading and its cost. |
| `Metering.ReadingKept` | apps/web/src/data/demo-gateway.ts:1312-1346 | No event changes the reading of its own moment, in the service or in the demo: what ran before it is billed neither twice nor dropped. |
| `Metering.SecondsCover` | apps/web/src/data/demo-gateway.ts:1312-1330 | Billed seconds are the least whole number that covers the running time. |
| `Metering.Instance.AccumulateRunningTime` | apps/api/src/instances/instances.service.ts:244-252 | The uncapped accumulation of one running segment. |
| `Metering.Instance.Begin` | apps/api/src/instances/instances.service.ts:108-149 | Starting, with the lease check that terminates an expired instance and the check for an active order. |
| `Metering.Instance.Halt` | apps/api/src/instances/instances.service.ts:151-166 | Stopping a running instance. |
| `Metering.Instance.EndIfExpired` | apps/api/src/instances/instances.service.ts:186-199 | What the sweep does to one instance. |
| `Metering.Instance.Read` | apps/api/src/instances/instances.service.ts:282-301 | The capped reading shown to the user. |
| `DemoInvariants.ReachableRentals` | apps/web/src/data/demo-gateway.ts:652-719 | After any sound run: at most one active order per GPU, a rented GPU is online, and the instance of an ended order is terminated; with one clock reading per call, an order is active exactly while its instance is not terminated. |
| `DemoInvariants.ReachableBalance` | apps/web/src/data/demo-gateway.ts:1522-1546 | After any sound run, with two clock readings per call, every wallet balance is the signed sum of its entries and never negative. |
| `DemoInvariants.ReachableRefunds` | apps/web/src/data/demo-gateway.ts:1552-1586 | After any sound run, with two clock readings per call, every order is charged once and refunded at most once, in its customer's wallet only, and once terminated refund plus accrued cost equals the charge. |
| `DemoInvariants.DoKeepsInvIff` | apps/web/src/data/demo-gateway.ts:781-800 | A call keeps orders, instances, numbering and wallets consistent exactly unless it overdraws a wallet or books less than nothing; it also keeps the instance of every active order exactly unless it starts a stopped instance whose lease ended between the call's two clock readings. |
| `DemoInvariants.RunConsistentIff` | apps/web/src/data/demo-gateway.ts:1010-1019 | The document is consistent throughout a run exactly if the run is sound: no call in it overdraws a wallet or books less than nothing. |
| `DemoInvariants.NonNegativeSound` | apps/web/src/data/demo-gateway.ts:188-213 | Calls with no negative amount, duration or price make a sound run. |
| `DemoInvariants.NegativeTopUp` | apps/web/src/data/demo-gateway.ts:188-213 | A reachable negative top-up that leaves a negative balance. |
| `DemoInvariants.LateStartReachable` | apps/web/src/data/demo-gateway.ts:789-800 | Such a call is reachable: it leaves an active order with a terminated instance. |
| `DemoInvariants.ExpireInv` | apps/web/src/data/demo-gateway.ts:1466-1477 | The expiry pass ends every order that is due and no other, and keeps the document consistent. |
| `DemoInvariants.TerminateIsReturn` | apps/web/src/data/demo-gateway.ts:840-856 | Terminating an instance leaves the same document as returning its order. |
| `DemoInvariants.CloseRental` | apps/web/src/data/demo-gateway.ts:1356-1385 | Ending an active rental refunds exactly what its meter did not use. |
| `DemoInvariants.CreateOrderInv` | apps/web/src/data/demo-gateway.ts:652-719 | A booking keeps the document consistent, or is refused, exactly unless it is accepted with a negative duration or price. |
| `DemoInvariants.InitialInv` | apps/web/src/data/demo-gateway.ts:1036-1185 | The seeded document is consistent at every clock reading. |
| `DemoInvariants.CallStepsMeter` | apps/web/src/data/demo-gateway.ts:781-856 | A start, stop or termination, with the expiry it runs first, steps the meter of its instance as the meter of a single rental. |
| `DemoCalls.BookingAcceptedIff` | apps/web/src/data/demo-gateway.ts:652-690 | A booking is accepted exactly if template and project are known, the GPU is listed online and not rented, and the caller's wallet covers price x hours. |
| `DemoCalls.BookingRefused` | apps/web/src/data/demo-gateway.ts:652-690 | What each refusal of a booking means; a refusal changes nothing. |
| `DemoCalls.BookingMade` | apps/web/src/data/demo-gateway.ts:690-719 | An accepted booking costs the GPU's hourly price times the hours, charged at once, and runs from now for 3600 seconds an hour, with an instance that may cost that much and ends when the order does. |
| `DemoCalls.ReturnAcceptedIff` | apps/web/src/data/demo-gateway.ts:735-751 | A return is accepted exactly for the caller's own active or already returned order; an active one ends with its instance, and nothing else changes status. |
| `DemoCalls.CancelAcceptedIff` | apps/web/src/data/demo-gateway.ts:984-997 | A cancellation is accepted exactly for an active or already cancelled order; an active one ends with its instance. |
| `DemoCalls.InstanceCalls` | apps/web/src/data/demo-gateway.ts:781-856 | On one's own instance a start is accepted exactly if it runs or is stopped before the end of its lease, a stop unless it has ended, a termination always; an accepted start runs it from now, a stop keeps its reading, and no other instance changes. |
| `DemoCalls.ListingAcceptedIff` | apps/web/src/data/demo-gateway.ts:950-974 | Taking a GPU offline is accepted exactly while it is not rented; only its listing changes. |
| `DemoCalls.RegistrationAcceptedIff` | apps/web/src/data/demo-gateway.ts:143-170 | A registration is accepted exactly for a name no user has in any case of letters; the new customer is signed in with a wallet of the opening credit. |
| `DemoCalls.TopUpMade` | apps/web/src/data/demo-gateway.ts:188-213 | A top-up adds its amount to the caller's balance and to the signed sum of its entries, and touches no other wallet. |
| `DemoCalls.ResourceMade` | apps/web/src/data/demo-gateway.ts:895-933 | A GPU is created exactly under a name that no other has. |
| `DemoCalls.ResourceChanged` | apps/web/src/data/demo-gateway.ts:935-948 | A change of name or price changes that GPU alone, and no order. |
| `DemoCalls.CallerRights` | apps/web/src/data/demo-gateway.ts:1442-1457 | Due orders expire before any call; without a known session only login, logout, registration and reset act, and customers can neither cancel orders nor manage GPUs. |
| `DemoStore.Gateway.CreateOrder` | apps/web/src/data/demo-gateway.ts:652-719 | Booking, charging and creating the instance, in every branch; the document stays consistent exactly unless duration or price is negative. |
| `DemoStore.Gateway.CloseActive` | apps/web/src/data/demo-gateway.ts:735-751 | Returning an order, and with the administrator's variant at lines 984-997 cancelling it; the document stays consistent. |
| `DemoStore.Gateway.StartInstance` | apps/web/src/data/demo-gateway.ts:781-814 | Starting an instance, in every branch; the document stays consistent. |
| `DemoStore.Gateway.StopInstance` | apps/web/src/data/demo-gateway.ts:815-838 | Stopping an instance, with its meter read first; the document stays consistent. |
| `DemoStore.Gateway.TerminateInstance` | apps/web/src/data/demo-gateway.ts:840-856 | Terminating an instance and returning its active order; the document stays consistent. |
| `DemoStore.Gateway.ExpireDueOrders` | apps/web/src/data/demo-gateway.ts:1466-1477 | The loop that expires due orders; the document stays consistent. |
| `DemoStore.Gateway.RefundDemoOrder` | apps/web/src/data/demo-gateway.ts:1552-1586 | The refund, at most once per order. |
| `DemoStore.Gateway.SetListingStatus` | apps/web/src/data/demo-gateway.ts:950-974 | Listing changes, refused offline while rented; the document stays consistent. |
| `DemoStore.Gateway.TopUp` | apps/web/src/data/demo-gateway.ts:188-213 | A top-up, negative ones included, adds the amount to the user's balance and to the signed sum of its entries, and touches no other wallet; the document stays consistent exactly unless the balance falls below zero. |
| `AgentBuild.Build` | apps/gpu-platform-addon/internal/inventory/inventory.go:108-182 | For nodes with distinct keys, every iteration order of the maps gives a snapshot with the canonical contents and order. |
| `AgentInventory.SnapshotCanonical` | apps/gpu-platform-addon/internal/inventory/inventory.go:108-182 | Two snapshots of the same nodes, listed in any order, are equal; the content digest depends on the node set only. |
| `AgentInventory.NodeHealth` | apps/gpu-platform-addon/internal/inventory/inventory.go:213-237 | The condition loop: the last readiness decides, and pressure degrades a ready node. |
| `AgentInventory.DetailedNode` | apps/gpu-platform-addon/internal/inventory/inventory.go:188-211 | One device per allocatable GPU when product and memory are labelled, none otherwise. |
| `AgentNodes.HealthShown` | apps/gpu-platform-addon/internal/inventory/inventory.go:213-237 | A node is healthy exactly if its last Ready condition is true and no pressure condition is, degraded if one is; failed, unreachable or unknown exactly if that condition is false, unknown or missing. |
| `AgentNodes.NodeListed` | apps/gpu-platform-addon/internal/inventory/inventory.go:144-150 | Every node is listed in the pool its label names, if that is a DNS label, and otherwise in the default pool. |
| `AgentNodes.OnlyNodesListed` | apps/gpu-platform-addon/internal/inventory/inventory.go:144-150 | A pool lists only nodes of the cluster that belong to it. |
| `AgentNodes.DetailedDescribes` | apps/gpu-platform-addon/internal/inventory/inventory.go:188-211 | A listed node carries its keyed digest, health and schedulability, and one device per allocatable GPU, with model and memory from its labels, if both are labelled. |
| `AgentNodes.NodeTraitsShown` | apps/gpu-platform-addon/internal/inventory/inventory.go:239-249 | Each of the seven topology and runtime traits of a node is there exactly if its label is not blank, and carries the trimmed label. |
| `AgentNodes.GpuTraitsShown` | apps/gpu-platform-addon/internal/inventory/inventory.go:251-266 | A device carries model and memory, each version exactly if both its parts are labelled, and the MIG flag exactly if labelled. |
| `AgentNodes.PositiveReadsBack` | apps/gpu-platform-addon/internal/inventory/inventory.go:300-303 | A positive number is read back from its decimal form exactly if it fits 64 bits. |
| `AgentNodes.ResourcesShown` | apps/gpu-platform-addon/internal/inventory/inventory.go:128-142 | Listed are exactly the whole GPUs and MIG slices that some node has, with their sums over all nodes and over the healthy, schedulable ones. |
| `AgentContract.SizesAddUp` | apps/gpu-platform-addon/internal/inventory/inventory.go:153-182 | Pool sizes sum to the node count, and no resource has more schedulable than allocatable. |
| `AgentContract.HubAcceptsAgent` | apps/control-plane/internal/catalog/validate.go:65-116 | Every snapshot built from nodes with Kubernetes-length label values passes the hub's validation. |
| `AgentContract.HubAcceptsReport` | apps/gpu-platform-addon/internal/addonagent/agent.go:95-112 | The hub accepts a published report exactly if its sequence fits, its time is set, and its add-on UID is empty or neither blank nor over 255 bytes; epoch, digest and pools always pass. |
| `AgentContract.HubTotalBounded` | apps/control-plane/internal/storage/postgres/catalog.go:177-241 | After the hub accepted an agent's report in any reachable state, rewriting the catalog or skipping it, the stored cluster total is at most the schedulable GPUs the agent reported, with equality exactly when every schedulable GPU node has product and memory labels. |
| `AgentContract.PoolsPartition` | apps/gpu-platform-addon/internal/inventory/inventory.go:145-150 | Any sum over the nodes of the pools is the sum over the cluster's nodes. |
| `Decoder.DecodePools` | apps/control-plane/internal/inventorysync/decoder.go:139-157 | Reading pools from their published text is the inverse of publishing them: it yields exactly those pools, and is refused exactly for text no pools are published as. |
| `DnsLabels.PatternIsLabel` | apps/control-plane/internal/catalog/validate.go:173-175 | The hub's length bound with its regular expression accepts exactly the strings the agent's scan accepts. |
| `DnsLabels.ValidDnsLabel` | apps/gpu-platform-addon/internal/inventory/inventory.go:305-319 | The agent's scan accepts exactly what the hub's regular expression accepts. |
| `Migrations.RestartsKeepPrefix` | apps/control-plane/internal/platform/postgres/migrate.go:85-119 | Over any number of runs stopped by any error, lost commit replies included, the migrations that took effect are a prefix in version order, each once, and exactly those are recorded. |
| `Migrations.LaterRunAppliesSuffix` | apps/control-plane/internal/platform/postgres/migrate.go:85-127 | A later run that succeeds applied exactly the missing suffix, and one without faults succeeds. |
| `Migrations.ChecksumsGuard` | apps/control-plane/internal/platform/postgres/migrate.go:85-127 | On any database a run succeeds only with every file recorded under its own checksum and no checksum missing at all; no run rewrites a record, and no recorded version takes effect again. |
| `Migrations.BadRecordStops` | apps/control-plane/internal/platform/postgres/migrate.go:228-242 | A file whose recorded checksum is missing or differs stops every run: nothing from it on takes effect, and a run without faults reports exactly the first such file. |
| `Migrations.ChecksumOfStyle` | apps/control-plane/internal/platform/postgres/migrate.go:187-226 | A file checked out with LF, CRLF or CR line endings is loaded as its text, under its version and the digest of that text. |
| `Migrations.MigrationNames` | apps/control-plane/internal/platform/postgres/migrate.go:194-206 | The migrations are exactly the files named after a version with the suffix `.up.sql`, and carry that version. |
| `Migrations.DiscoverMigrations` | apps/control-plane/internal/platform/postgres/migrate.go:187-221 | Discovery finds exactly the migration files, normalised and in strict version order, or reports a nameless or missing one. |
| `Migrations.Database.ApplyMigrations` | apps/control-plane/internal/platform/postgres/migrate.go:85-127 | The loop over the ordered files, in every branch. |
| `LineEndings.NormalizeIdempotent` | apps/control-plane/internal/platform/postgres/migrate.go:223-226 | Normalising twice is normalising once. |
| `LineEndings.NormalizeRemovesCr` | apps/control-plane/internal/platform/postgres/migrate.go:223-226 | The result has no CR and is no longer than the input. |
| `LineEndings.NormalizeRenderIff` | apps/control-plane/internal/platform/postgres/migrate.go:223-226 | With line breaks in mixed styles, normalising recovers the text exactly when no CR break is followed at once by an LF break; otherwise line breaks are lost. |
| `LineEndings.CrThenLfLosesALine` | apps/control-plane/internal/platform/postgres/migrate.go:223-226 | Two line breaks written CR and LF come back as one. |

## Left out

- Other CHECK, UNIQUE and foreign-key constraints of the schema: a violated one rolls its transaction back, which is a step that changes nothing.
- Derived cluster health (status evaluation, conditions) and the stored fencing token and flags: the token is validated here, but the columns are written beside the modelled ones and read by none of them.
- READ COMMITTED anomalies inside multi-statement transactions, and differences between application and database clocks.
- 64-bit wrap-around of the agent's per-resource sums; durations beyond the 64-bit nanosecond range are modelled as saturating.
- Loading and validating the configured rates of the billing engine, and the encoded calculation beside each rating.
- Floating-point rounding of the TypeScript cost computations: arithmetic is exact here.
- Unicode spaces in trimming and Unicode case mapping: strings are bytes, and spaces are the ASCII ones.
- Mongo persistence, notifications and account resources around the instance service; the in-place methods start after the document was found. In the histories of `Metering.dfy` every start finds its order active.
- The demo's teams, booked project cost, volumes, keys, notifications' contents and password check; an unknown template or project is one flag of the booking.
- Storage size, names, regions, templates and access details of workspaces and instances.
- Manifests beyond their generation, desired state and snapshot list; whether the managed cluster holds the latest one.
- Reconciliation is modelled for one workspace at a time: every statement is keyed by a workspace.
- The inventory sync is modelled on values, as one function of the hub at each of its calls, so that other transactions can run between them; it is not a method over one store.
- The demo's registration, login, resource creation and resource update are part of the specification and of its runs, but have no in-place method.
- The JSON payload of an event (its workspace and operation identity) is taken as read.
- The inventory sync and the outbox runner as polling loops: their calls are modelled, the ticker is not.
- The size limit and JSON form of reports, identifier syntax checks, and HTTP, authentication and rendering around all components.
- Invoices, capacity pools sharing one node pool (each derives its own total), access tokens, sessions, teams, templates, audit archive.
