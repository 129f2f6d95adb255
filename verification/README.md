# ApnaERP: verified models of the limiter, the event publisher, the migrations, the log masker and the seeder

ApnaERP is a Python ERP back end. Most of it declares tables and forwards requests; five parts carry real
step-by-step logic, and this project models those five in Dafny and proves what they guarantee.

* **Rate limiter** (`SlidingWindow.dfy`, `ClockSafety.dfy`, `RateLimiter.dfy`). The middleware keeps a list of admission
  times per client, prunes it on every request, and rejects when the list is full. `RateLimitMiddleware` is a class whose
  two methods are `dispatch` before and after its `await`; a schedule of starts, finishes and failures models
  the interleaving. The main results hold over whole runs: pruning loses nothing, every window of the
  configured length is safe, and the greedy limiter admits at least as many requests as any window-safe rival.
  The 429 status is section 4 of RFC 6585 and `Retry-After` is section 10.2.3 of RFC 9110.
* **Event publisher** (`EventMachine.dfy`, `DirectDelivery.dfy`, `DeliveryTheorems.dfy`,
  `DomainEventPublisher.dfy`). Handlers are programs that subscribe, publish or raise. A small-step machine
  delivers synchronously over live lists; it agrees with a plain recursion over handlers and their programs, and
  the class `DomainEventPublisher`, with its loop over the live list and its swallowed exceptions, is proved to
  end exactly where the machine ends.
* **Migrations** (`SchemaModel.dfy`, `CreationScripts.dfy`, `BuiltSchemas.dfy`, `FinanceTables.dfy`,
  `FinanceMigrations.dfy`, `WarehouseTables.dfy`, `WarehouseMigrations.dfy`, `GuardedColumns.dfy`,
  `SchemaGrowth.dfy`, `ColumnAdditions.dfy`, `ColumnScripts.dfy`, `ColumnTraces.dfy`, `ColumnRoundTrips.dfy`,
  `GuardedMigrations.dfy`, `LedgerChain.dfy`, `FoundationMigration.dfy`, `FoundationRoundTrips.dfy`,
  `StoreStarts.dfy`, `ConcreteStarts.dfy`). An interpreter for schema operations that refuses a
  missing, duplicate or still-referenced object; the seven revisions are programs over it. Scripts of plain
  `create_table` and `create_index` calls are data that `Connection.Migrate` runs. The guarded revisions read
  the table and column lists once, as the scripts do, and swallow failures: `Faults` says how far each `try`
  block gets, and every theorem holds for every such choice.
* **Log masker** (`LogMasking.dfy`, `MaskingLimits.dfy`). `mask_dict` over arbitrarily nested dictionaries.
* **Seeder** (`RbacSeeder.dfy`, `SeedingTheorems.dfy`, `SeededDatabase.dfy`, `RbacSession.dfy`). `seed_rbac_data` with its
  get-or-create loops and role rules, over arbitrary default lists and any starting database, one commit at a
  time.

Each imperative method ties its result or new state to a specification function, and the lemmas are about those
functions. `dafny verify dfyconfig.toml` checks the whole project.

Some properties one might expect are false of the code. Each has an exact condition, proved in both directions,
and an input on which it fails:

* Window safety without a nondecreasing clock holds exactly for a limit of at most one or a window without length
  (`SafeOnEveryClockExactly`, `ClockStepBackBreaksSafety`); the limiter that never forgets is safe on every clock.
* A zero limit over an empty window is not optimal, and is the only exception (`GreedyIsOptimal`,
  `ZeroLimitEmptyWindowNotOptimal`).
* The reset header can name a time that is too early (`ResetTooEarlyExactly`, `ResetTooEarlyExample`).
* A sensitive entry stays readable exactly when it lies behind a list (`ReadableExactly`, `ListsAreNotSearched`).
* The stock-engine downgrade after its own upgrade needs an index that the upgrade does not make
  (`StockDowngradeRunsExactly`), and after the warehouse downgrade it never runs (`ChainCannotBeTakenBack`,
  `StoreStartRuns`).
* The tracking and ledger pairs strip, and restore, their start under conditions on names and nullability
  (`TrackingRoundTrip`, `TrackingRestoresExactly`, `TrackingCanLoseAnIndex`, `LedgerRoundTrip`,
  `LedgerRestoresExactly`, `LedgerComesBackLoosened`).
* Running the foundation upgrade, downgrade and upgrade again replaces older tables of the same name
  (`FoundationReUpgradeExactly`, `OlderTableIsReplaced`).

## Model

| member | source | states |
|---|---|---|
| SlidingWindow.PruneTwice | app/middleware/rate_limit_middleware.py:27 | pruning early never changes what a later pruning keeps |
| SlidingWindow.LiveIsSuffix | app/middleware/rate_limit_middleware.py:27 | on a sorted list pruning keeps exactly the suffix of entries younger than the window |
| SlidingWindow.LiveExactly | app/middleware/rate_limit_middleware.py:27 | on any list pruning keeps the entries younger than the window, each as often as it was there, and nothing else |
| SlidingWindow.StoredBounded | app/middleware/rate_limit_middleware.py:23-43 | the stored list never exceeds the limit, whatever the clock does |
| SlidingWindow.PruningLosesNothing | app/middleware/rate_limit_middleware.py:27-43 | under a nondecreasing clock the pruning limiter takes every decision that a limiter that never forgets takes, and both see the same live entries |
| SlidingWindow.StoredIsHistoryInWindow | app/middleware/rate_limit_middleware.py:27-43 | after every request the stored list is the earlier history filtered to the window plus the request if admitted; that is the whole history filtered to the window exactly when the window has a length or the request was refused |
| SlidingWindow.DecisionExactly | app/middleware/rate_limit_middleware.py:27-43 | a request is admitted exactly when fewer than `k` admissions ever happened or the `k`-th most recent is a full window old |
| SlidingWindow.AcceptedSpaced | app/middleware/rate_limit_middleware.py:21-43 | the admission `k` places after another is at least one window later |
| SlidingWindow.SpacedIffWindowSafe | app/middleware/rate_limit_middleware.py:21-43 | that spacing and the bound on every half-open window are the same property of a sorted history |
| SlidingWindow.AcceptedWindowSafe | app/middleware/rate_limit_middleware.py:21-43 | over a whole run no half-open interval of window length holds more than the limit, wherever it starts |
| ClockSafety.SafeOnEveryClockExactly | app/middleware/rate_limit_middleware.py:21-43 | every run is window-safe on every clock if and only if the limit is at most one or the window has no length |
| ClockSafety.ClockStepBackBreaksSafety | app/middleware/rate_limit_middleware.py:21-43 | for every other setting a run of the limit plus two requests with one step back puts one admission too many into a window, and the limiter that never forgets refuses it |
| ClockSafety.UnforgettingWindowSafe | app/middleware/rate_limit_middleware.py:27 | without pruning every window is safe on every clock, so pruning is the only cause |
| SlidingWindow.HorizonBound | app/middleware/rate_limit_middleware.py:27-43 | any interval of length T holds at most limit times the ceiling of T over the window |
| SlidingWindow.CountOverWindows | app/middleware/rate_limit_middleware.py:27-43 | `n` consecutive windows hold at most `n` times the limit |
| SlidingWindow.GreedyDominates | app/middleware/rate_limit_middleware.py:19-43 | the i-th admission of the limiter is never later than the i-th of any rival that keeps the spacing |
| SlidingWindow.RivalCannotOvertake | app/middleware/rate_limit_middleware.py:31-43 | exchange step: where the limiter refuses and a safe rival accepts, the rival was strictly behind |
| SlidingWindow.GreedyIsOptimal | app/middleware/rate_limit_middleware.py:19-43 | on every prefix of the arrivals the limiter admits at least as many requests as any window-safe choice, none of them later |
| SlidingWindow.ZeroLimitEmptyWindowNotOptimal | app/middleware/rate_limit_middleware.py:27-31 | the one configuration excluded from optimality does violate it |
| SlidingWindow.RejectionIsExact | app/middleware/rate_limit_middleware.py:27-41 | a rejection finds exactly `k` live entries, and the oldest plus the window is the earliest retry, within one window from now |
| SlidingWindow.RetryAfterIsSufficient | app/middleware/rate_limit_middleware.py:31-43 | with no admission in between, a retry is admitted exactly from that time on, in particular after `Retry-After` |
| SlidingWindow.ResetTooEarlyExactly | app/middleware/rate_limit_middleware.py:38 | the truncated reset value lies before the earliest retry exactly when the oldest live admission came after the whole second of the rejection |
| SlidingWindow.ResetTooEarlyExample | app/middleware/rate_limit_middleware.py:31-41 | a concrete rejection whose reset value is too early |
| RateLimiter.StoredPerClient | app/middleware/rate_limit_middleware.py:17-43 | the list stored for a client in an interleaved trace is the one its own arrivals produce |
| RateLimiter.ClientIsolation | app/middleware/rate_limit_middleware.py:17-43 | a client's decisions and stored list in any trace are those of its own requests alone |
| RateLimiter.AnswerByHistory | app/middleware/rate_limit_middleware.py:27-43 | the answer and the count it reports, in terms of the client's whole admission history |
| RateLimiter.RateLimitMiddleware.constructor | app/middleware/rate_limit_middleware.py:13-17 | the defaults 100 and 60, and no client yet |
| RateLimiter.RateLimitMiddleware.Begin | app/middleware/rate_limit_middleware.py:19-43 | `dispatch` up to the await: the host's own list is pruned and, on admission, ends with the request; every other list is unchanged; the answer is the suspended call with its place in the window or the complete 429, also in terms of the host's whole history |
| RateLimiter.RateLimitMiddleware.Finish | app/middleware/rate_limit_middleware.py:44-48 | `dispatch` from the await on: three headers are set, status and all other headers kept |
| RateLimiter.HostsKeptApart | app/middleware/rate_limit_middleware.py:20-24 | the requests that count together with a host are exactly its own; only a missing peer address shares a list, with a host named `unknown` |
| RateLimiter.FirstEventSettles | app/middleware/rate_limit_middleware.py:44-48 | a call waits until an event names it, and the first one that does settles it for good |
| RateLimiter.EveryScheduleExplained | app/middleware/rate_limit_middleware.py:19-48 | for every schedule the state of the run is the only one in which each list is the one left by the starts of its host alone and each started call stands where its answer and its first finish or failure put it: sent its 429, suspended, sent its decorated response, or dropped |
| RateLimiter.AdmissionsAreAccepted | app/middleware/rate_limit_middleware.py:19-48 | the calls that a run suspends for a host, whatever is finished or failed in between, are those that its starts alone admit |
| RateLimiter.InterleavedWindowSafety | app/middleware/rate_limit_middleware.py:19-48 | window safety of each host's admissions read off the run, and the bound on every list, for every schedule of starts, finishes and failures |
| RateLimiter.RemainingHeader | app/middleware/rate_limit_middleware.py:27-47 | every sent response was admitted, with the limit, its reset time and a Remaining header within 0 to limit - 1 that is the limit less the in-window count just after its own admission (one less for a window without length), or is the complete 429 with the window full |
| EventMachine.StepFaithful | app/core/domain_events.py:38-55 | every step keeps the trace properly nested, and every open delivery has called exactly the handlers before its index |
| EventMachine.DeliveriesAreBracketed | app/core/domain_events.py:43-55 | hence so does every reachable state of every publication, with handlers that subscribe, publish and raise |
| DeliveryTheorems.DeliveryCallsWholeList | app/core/domain_events.py:48-50 | a delivery that ends has called exactly the listeners that its event has at that moment, in order |
| DeliveryTheorems.LateSubscriberIsCalled | app/core/domain_events.py:38-55 | whoever is subscribed at any point before a delivery ends is called by that delivery, at its own place |
| DeliveryTheorems.FinishedTraceIsClosed | app/core/domain_events.py:43-55 | a finished publication leaves a completely bracketed trace |
| DeliveryTheorems.TerminatesIffGrowthBounded | app/core/domain_events.py:43-55 | when nested publications go down in rank, `publish` terminates if and only if the lists of its run grow by a bounded amount |
| DeliveryTheorems.DescendingHandlersTerminate | app/core/domain_events.py:43-55 | a condition on the handlers alone: when what they publish and subscribe to goes down in rank, every publication ends from every dictionary and leaves the lists of its own rank and above unchanged |
| DeliveryTheorems.DeliveryReturns | app/core/domain_events.py:43-55 | each delivery returns to the stack below it, by a lexicographic measure of rank and remaining list |
| DeliveryTheorems.SelfSubscriberNeverEnds | app/core/domain_events.py:38-55 | a family of handlers each of which subscribes a member again before it can raise exceeds every step bound, whatever else they and the others do |
| DeliveryTheorems.FreshCopiesNeverEnd | app/core/domain_events.py:38-55 | for instance handlers that subscribe a fresh copy of themselves on each call |
| DeliveryTheorems.PlainPublish | app/core/domain_events.py:43-55 | with non-reentrant handlers one publication calls each listener once, in order, and changes no list |
| DeliveryTheorems.PublisherRefinesLog | app/core/domain_events.py:35-55 | for every sequence of operations the dictionary is the subscription log filtered by name, and the trace is what that log predicts, with multiplicity |
| DeliveryTheorems.RaisingChangesNothing | app/core/domain_events.py:50-53 | handlers that do the same before they raise, or do not raise, run in the same order with the same lists at every step, re-entrant or not |
| DirectDelivery.DeliveryIsRecursion | app/core/domain_events.py:43-55 | the step machine ends a publication in some state if and only if running the live list's handlers one after the other, each program up to its first exception with its publications delivered inside it, ends with that dictionary and those calls |
| DomainEventPublisher.DomainEventPublisher.constructor | app/core/domain_events.py:35-36 | no handler yet |
| DomainEventPublisher.DomainEventPublisher.Subscribe | app/core/domain_events.py:38-41 | one list grows by the handler at its end, the others stay |
| DomainEventPublisher.DomainEventPublisher.Publish | app/core/domain_events.py:43-55 | the loop over the live list with re-entrant handlers ends in the dictionary and trace of the delivery machine, which are those of the plain recursion over handlers and their programs |
| DomainEventPublisher.DomainEventPublisher.Handle | app/core/domain_events.py:50-53 | one handler run on this very publisher ends where the machine ends, and reports an exception exactly when its program holds one |
| DirectDelivery.FinishesFirst | app/core/domain_events.py:48-53 | a nested delivery finishes on its own before anything below it moves |
| SchemaModel.ApplySound | alembic/versions/c1d2e3f4a5b6_phase_v110_finance_operations.py:21-457 | every schema operation, performed or refused, leaves no dangling foreign key or index |
| SchemaModel.ExecSound | alembic/versions/c1d2e3f4a5b6_phase_v110_finance_operations.py:21-457 | hence every intermediate schema of every migration is sound |
| SchemaModel.Connection.Migrate | alembic/versions/c1d2e3f4a5b6_phase_v110_finance_operations.py:21-457 | running operations one by one until one raises ends where the specification says, and keeps soundness |
| CreationScripts.CreateAllExactly | alembic/versions/b0c1d2e3f4a5_phase_v100_finance_core.py:19-302 | when a creation script runs through, seen from the start, and the schema it builds |
| BuiltSchemas.CreatedExactly | alembic/versions/b0c1d2e3f4a5_phase_v100_finance_core.py:19-302 | a script that runs through adds each of its tables as defined and each of its indexes by its name, and leaves every other table and index as it was |
| BuiltSchemas.DefineExactly | alembic/versions/c8a97096a1e6_phase_v061_implement_stock_ledger_engine.py:106-129 | the columns of a defined table and which of them accept NULL |
| CreationScripts.DropAllExactly | alembic/versions/b0c1d2e3f4a5_phase_v100_finance_core.py:305-320 | when dropping the tables newest first runs through, from any schema |
| CreationScripts.DropAllRestores | alembic/versions/b0c1d2e3f4a5_phase_v100_finance_core.py:305-320 | after the script it does, and restores any sound start exactly |
| CreationScripts.UndoAllRestores | alembic/versions/c8a97096a1e6_phase_v061_implement_stock_ledger_engine.py:140-170 | so does dropping every index by name and then its table |
| FinanceMigrations.DowngradesReverseUpgrades | alembic/versions/c1d2e3f4a5b6_phase_v110_finance_operations.py:432-457 | both finance downgrades drop the tables of their upgrades in exactly the reverse order |
| FinanceMigrations.UpgradesRunExactly | alembic/versions/c1d2e3f4a5b6_phase_v110_finance_operations.py:21-429 | from any schema both upgrades run through if and only if the seven external tables have their keys and no new name is taken |
| FinanceMigrations.FinanceRoundTrip | alembic/versions/c1d2e3f4a5b6_phase_v110_finance_operations.py:21-457 | both upgrades and both downgrades, newest first, succeed, restore the start, and dangle nothing in between |
| FinanceMigrations.CoreDowngradeExactly | alembic/versions/b0c1d2e3f4a5_phase_v100_finance_core.py:305-320 | from any schema the core downgrade runs exactly when the fifteen tables are there and every foreign key to one comes from itself or a core table created later |
| FinanceMigrations.CoreDowngradeRefused | alembic/versions/b0c1d2e3f4a5_phase_v100_finance_core.py:305-320 | so it is refused wherever a table outside the core points into it |
| FinanceMigrations.CoreFirstIsRefused | alembic/versions/b0c1d2e3f4a5_phase_v100_finance_core.py:305-320 | in particular right after both upgrades |
| WarehouseMigrations.StockDowngradeShape | alembic/versions/c8a97096a1e6_phase_v061_implement_stock_ledger_engine.py:140-170 | apart from its first step the stock downgrade undoes the upgrade step by step |
| WarehouseMigrations.StockRoundTripWithoutFirstStep | alembic/versions/c8a97096a1e6_phase_v061_implement_stock_ledger_engine.py:21-170 | without that step the pair is the identity on every sound schema from which the upgrade runs |
| WarehouseMigrations.StockDowngradeRunsExactly | alembic/versions/c8a97096a1e6_phase_v061_implement_stock_ledger_engine.py:140-170 | with it the downgrade after the upgrade runs exactly when the start had an index of that name, and then takes it away |
| WarehouseMigrations.WarehouseDowngradeShape | alembic/versions/b8b2e8a866c5_phase_v062_implement_warehouse_.py:158-206 | the warehouse downgrade drops the shared index, rebuilds `dummy_products`, and undoes its tables children first |
| WarehouseMigrations.WarehouseRoundTrip | alembic/versions/b8b2e8a866c5_phase_v062_implement_warehouse_.py:21-206 | whenever the upgrade runs from a sound schema the downgrade runs too, and restores everything but `dummy_products`, which comes back as the downgrade defines it |
| WarehouseMigrations.ChainCannotBeTakenBack | alembic/versions/b8b2e8a866c5_phase_v062_implement_warehouse_.py:158-161 | from no schema at all can the stock downgrade follow the warehouse downgrade |
| WarehouseMigrations.ChainStuckAfterBothUpgrades | alembic/versions/c8a97096a1e6_phase_v061_implement_stock_ledger_engine.py:140-143 | after both upgrades the first downgrade runs and the second is stuck |
| ColumnScripts.AddColumns | alembic/versions/a0b1c2d3e4f5_phase_v063_advanced_inventory_tracking.py:20-108 | guarded additions that look at lists read once decide as if they looked at the live schema, leave exactly the enlarged schema, and keep it sound |
| ColumnScripts.DropColumns | alembic/versions/a0b1c2d3e4f5_phase_v063_advanced_inventory_tracking.py:111-193 | the same for guarded removals, which take exactly the managed columns, or nothing without an inspection |
| GuardedColumns.AddAllExactly | alembic/versions/f1a2b3c4d5e6_phase_v060_inventory_foundation_enhancements.py:30-119 | when guarded additions get through, with or without an inspection, and the columns they leave whatever fails |
| GuardedColumns.RemoveAllExactly | alembic/versions/a0b1c2d3e4f5_phase_v063_advanced_inventory_tracking.py:111-193 | guarded removals always get through and take exactly the managed columns |
| ColumnTraces.RemoveIsDrop | alembic/versions/a0b1c2d3e4f5_phase_v063_advanced_inventory_tracking.py:182-188 | where the names are the step's own, the caught drops before a column drop change nothing about its result |
| SchemaGrowth.AddAllGrown | alembic/versions/a0b1c2d3e4f5_phase_v063_advanced_inventory_tracking.py:38-44 | guarded additions bring in only their own foreign keys and indexes, an index only after its constraint, and lose or change nothing |
| ColumnAdditions.AddAllIsEnlarged | alembic/versions/a0b1c2d3e4f5_phase_v063_advanced_inventory_tracking.py:38-44 | a script of guarded additions that gets through leaves one schema only: each missing column, accepting NULL exactly as its step says, its constraint exactly when the target has its key, the name is free and nothing failed, its index exactly when its name is free and the constraint before it was made, and all else as before |
| ColumnRoundTrips.RoundTripExactly | alembic/versions/a0b1c2d3e4f5_phase_v063_advanced_inventory_tracking.py:20-193 | for any guarded pair: every run leaves the start without the managed columns, their keys, indexes and nullability if and only if every name that the removals drop and reach goes with a managed column anyway |
| ColumnRoundTrips.IdentityExactly | alembic/versions/a0b1c2d3e4f5_phase_v063_advanced_inventory_tracking.py:20-193 | for any guarded pair: every run restores the start if and only if no managed column and no dropped name was there |
| GuardedMigrations.UpgradeTracking | alembic/versions/a0b1c2d3e4f5_phase_v063_advanced_inventory_tracking.py:20-108 | the tracking upgrade on a connection always gets through, and leaves exactly the enlarged schema, or the schema as it was when it cannot look at it |
| GuardedMigrations.DowngradeTracking | alembic/versions/a0b1c2d3e4f5_phase_v063_advanced_inventory_tracking.py:111-193 | the tracking downgrade on a connection, which takes the steps in reverse, gets through and takes exactly the managed columns, or nothing when it cannot look at the schema |
| GuardedMigrations.TrackingUpgradeColumns | alembic/versions/a0b1c2d3e4f5_phase_v063_advanced_inventory_tracking.py:20-108 | from every schema, whichever of the six tables are missing, the upgrade gets through and leaves every managed column in the tables it finds |
| GuardedMigrations.TrackingUpgradeExactly | alembic/versions/a0b1c2d3e4f5_phase_v063_advanced_inventory_tracking.py:20-108 | the schema that the upgrade ends in, with foreign keys, indexes and nullability |
| GuardedMigrations.BatchIsLinked | alembic/versions/a0b1c2d3e4f5_phase_v063_advanced_inventory_tracking.py:38-44 | a ledger found without `batch_id` gets it optional, with its foreign key and its index |
| GuardedMigrations.TrackingRemovalsListed | alembic/versions/a0b1c2d3e4f5_phase_v063_advanced_inventory_tracking.py:120-193 | reversing the additions gives the tables, columns and names that the downgrade lists, in its order |
| GuardedMigrations.TrackingUpgradeTwice | alembic/versions/a0b1c2d3e4f5_phase_v063_advanced_inventory_tracking.py:20-108 | the upgrade is idempotent on the whole schema |
| GuardedMigrations.TrackingRoundTripColumns | alembic/versions/a0b1c2d3e4f5_phase_v063_advanced_inventory_tracking.py:20-193 | from every schema, downgrade after upgrade leaves the start's columns without the managed ones, hence the same columns exactly when none was present |
| GuardedMigrations.TrackingRoundTrip | alembic/versions/a0b1c2d3e4f5_phase_v063_advanced_inventory_tracking.py:20-193 | the same for the whole schema, exactly when no name that the downgrade reaches belongs to something that stays |
| GuardedMigrations.TrackingRestoresExactly | alembic/versions/a0b1c2d3e4f5_phase_v063_advanced_inventory_tracking.py:20-193 | when every pair of runs restores a sound schema |
| GuardedMigrations.TrackingCanLoseAnIndex | alembic/versions/a0b1c2d3e4f5_phase_v063_advanced_inventory_tracking.py:184 | a concrete schema without managed columns that is not restored |
| GuardedMigrations.UpgradeLedger | alembic/versions/f9b0c1d2e3f5_phase_v061_enhance_stock_ledger_and_balances.py:20-64 | the ledger upgrade on a connection; where it gets through it leaves the enlarged ledger with the transaction type as the one older column that changes |
| GuardedMigrations.DowngradeLedger | alembic/versions/f9b0c1d2e3f5_phase_v061_enhance_stock_ledger_and_balances.py:67-99 | the ledger downgrade on a connection gets through and takes exactly the managed columns |
| GuardedMigrations.LedgerUpgradeExactly | alembic/versions/f9b0c1d2e3f5_phase_v061_enhance_stock_ledger_and_balances.py:20-64 | the upgrade needs `stock_ledgers`, and without an inspection also that every column is missing |
| GuardedMigrations.LedgerUpgradeMakes | alembic/versions/f9b0c1d2e3f5_phase_v061_enhance_stock_ledger_and_balances.py:31-64 | the schema it ends in: the enlarged one, with `transaction_type_id` made nullable if it is there and nothing fails |
| GuardedMigrations.LedgerReUpgradeColumns | alembic/versions/f9b0c1d2e3f5_phase_v061_enhance_stock_ledger_and_balances.py:20-99 | upgrade, downgrade, upgrade gives the tables and columns of one upgrade, and the downgrade removes the added columns |
| GuardedMigrations.LedgerRoundTrip | alembic/versions/f9b0c1d2e3f5_phase_v061_enhance_stock_ledger_and_balances.py:60-99 | the pair always leaves the start without the managed columns but with `transaction_type_id` nullable, exactly when no dropped index name belongs to an index that stays |
| GuardedMigrations.LedgerRestoresExactly | alembic/versions/f9b0c1d2e3f5_phase_v061_enhance_stock_ledger_and_balances.py:20-99 | the pair always restores a sound schema if and only if columns and dropped names were free and that column was already nullable or missing |
| GuardedMigrations.LedgerComesBackLoosened | alembic/versions/f9b0c1d2e3f5_phase_v061_enhance_stock_ledger_and_balances.py:60-99 | a ledger that requires the column comes back with it nullable |
| LedgerChain.LedgerNullability | alembic/versions/f9b0c1d2e3f5_phase_v061_enhance_stock_ledger_and_balances.py:31-64 | on a ledger without the seven columns, three of them come out required and four nullable |
| LedgerChain.LedgerAfterStock | alembic/versions/c8a97096a1e6_phase_v061_implement_stock_ledger_engine.py:106-129 | wherever the stock engine is in place its ledger requires the transaction type, the ledger revision runs, and these are all the columns and nullable columns it leaves |
| FoundationMigration.UpgradeFoundation | alembic/versions/f1a2b3c4d5e6_phase_v060_inventory_foundation_enhancements.py:20-170 | the foundation upgrade on a connection, with the list of tables read at the start; where it gets through it leaves the enlarged schema with the tables that were not seen |
| FoundationMigration.DowngradeFoundation | alembic/versions/f1a2b3c4d5e6_phase_v060_inventory_foundation_enhancements.py:173-176 | the foundation downgrade on a connection, policies first, so that nothing has happened when they cannot be dropped |
| FoundationMigration.FoundationUpgradeExactly | alembic/versions/f1a2b3c4d5e6_phase_v060_inventory_foundation_enhancements.py:20-170 | when the upgrade gets through, and that beyond its column steps the result is determined |
| FoundationMigration.FoundationUpgradeMakes | alembic/versions/f1a2b3c4d5e6_phase_v060_inventory_foundation_enhancements.py:30-170 | what the column steps leave, exactly, with nullability, foreign keys and indexes, and then the two tables |
| FoundationRoundTrips.FoundationDowngradeExactly | alembic/versions/f1a2b3c4d5e6_phase_v060_inventory_foundation_enhancements.py:173-176 | the downgrade runs exactly when both tables are there and no foreign key of another table holds them, and takes them away with their indexes |
| FoundationRoundTrips.FoundationReUpgrade | alembic/versions/f1a2b3c4d5e6_phase_v060_inventory_foundation_enhancements.py:20-176 | where neither table existed, the downgrade takes back the two tables only, and upgrading again gives the schema of the first upgrade |
| FoundationRoundTrips.FoundationReUpgradeExactly | alembic/versions/f1a2b3c4d5e6_phase_v060_inventory_foundation_enhancements.py:20-176 | decided from the start: when the downgrade runs, when the second upgrade runs, and that it restores the columns of the first exactly when older tables already had the scripted ones |
| ConcreteStarts.FinanceStart | alembic/versions/c1d2e3f4a5b6_phase_v110_finance_operations.py:21-429 | both finance upgrades run on the seven bare tables they point to |
| StoreStarts.StoreStartRuns | alembic/versions/b8b2e8a866c5_phase_v062_implement_warehouse_.py:21-206 | from one concrete start the stock downgrade is refused after its upgrade, both upgrades run, and the chain is stuck after the warehouse downgrade |
| ConcreteStarts.FoundationStart | alembic/versions/f1a2b3c4d5e6_phase_v060_inventory_foundation_enhancements.py:20-176 | on the four bare tables the foundation revision runs up, down and up again and ends where it first was |
| ConcreteStarts.OlderTableIsReplaced | alembic/versions/f1a2b3c4d5e6_phase_v060_inventory_foundation_enhancements.py:121-147 | an older `product_warehouses` with one more column loses it |
| LogMasking.MaskDict | app/middleware/structured_logging.py:13-23 | filling a new dictionary entry by entry keeps keys and order; a value becomes the mask exactly when some word is a piece of the folded key, wherever in it, and otherwise a dictionary is masked in turn and anything else is kept |
| LogMasking.MaskedExactly | app/middleware/structured_logging.py:16-22 | the same for the masked entries, by cutting the folded key into three pieces |
| LogMasking.SourceWordsAreMasked | app/middleware/structured_logging.py:11-17 | with the seven words of the source, as in `password_hash`, and with no others |
| LogMasking.MaskingKeepsVisible | app/middleware/structured_logging.py:13-23 | masking changes nothing that can be seen along non-sensitive keys: keys, their order, and values at every level |
| LogMasking.SameVisibleSameMask | app/middleware/structured_logging.py:13-23 | dictionaries that look the same along every path mask to the same result |
| LogMasking.MaskingKernel | app/middleware/structured_logging.py:13-23 | two dictionaries mask to the same entries in the same order if and only if they look the same along every path |
| MaskingLimits.EqualKernel | app/middleware/structured_logging.py:13-23 | with dictionaries compared without regard to order: the results are equal if and only if the key sets and the values along every path of non-sensitive keys are |
| LogMasking.MaskIdempotent | app/middleware/structured_logging.py:13-23 | masking twice is masking once |
| LogMasking.RedundantWord | app/middleware/structured_logging.py:11-17 | a lower-case word can be dropped without effect if and only if it contains another word of the set |
| LogMasking.AccessTokenIsRedundant | app/middleware/structured_logging.py:11-17 | `access_token` can be dropped |
| MaskingLimits.ReadableExactly | app/middleware/structured_logging.py:13-23 | after masking a sensitive key holds something other than the mask exactly where a list reached through non-sensitive keys holds such an entry |
| MaskingLimits.NothingReadableWithoutLists | app/middleware/structured_logging.py:13-23 | so nothing stays readable in nested dictionaries without lists |
| MaskingLimits.ListsAreNotSearched | app/middleware/structured_logging.py:19-22 | a password in a dictionary inside a list stays readable |
| RbacSession.Session.AssignPermissionToRole | app/repositories/rbac.py:146-156 | the grant is present afterwards; the answer says whether it is new |
| RbacSession.Session.CreatePermission | app/repositories/rbac.py:96-106 | inserts a row with a new identifier, or violates a unique column and changes nothing |
| RbacSession.EnsurePermission | app/db/seed_rbac.py:638-644 | get-or-create of one permission ends in the row that a lookup finds |
| RbacSession.EnsureRole | app/db/seed_rbac.py:648-654 | get-or-create of one role |
| RbacSession.EnsureAdmin | app/db/seed_rbac.py:806-824 | one commit: nothing if somebody has the admin's e-mail, a violation if only the user name is taken, and otherwise one new superuser with the given role |
| RbacSession.SeedRbacData | app/db/seed_rbac.py:630-825 | the five phases end exactly where the plan of commits ends, also when one of them raises; a run that gets through has seeded every table, one that does not has been cut off at a permission or at the admin, and whether it gets through can be told beforehand when no two defaults share a folded code or a name |
| SeedingTheorems.ExecSettles | app/db/seed_rbac.py:630-825 | after a run every planned row and grant is in place |
| SeedingTheorems.SeedingTwice | app/db/seed_rbac.py:630-825 | a second run changes nothing |
| SeedingTheorems.SeedingAfterInterruption | app/db/seed_rbac.py:630-825 | a run cut off after any number of commits, followed by a full run, ends where an uninterrupted run ends |
| SeedingTheorems.GrantsOfExactly | app/db/seed_rbac.py:680-798 | the grants tried for one permission are exactly those of the roles whose rule selects it |
| SeedingTheorems.SeededGrants | app/db/seed_rbac.py:665-798 | the final role/permission relation is the old one plus exactly the pairs of a default role and a default permission that its rule selects |
| SeedingTheorems.SeedingKeepsEverything | app/db/seed_rbac.py:630-825 | nothing is removed or changed, even by a run that raises, and every new permission is a default |
| SeedingTheorems.SeedingSucceedsExactly | app/db/seed_rbac.py:636-825 | a run succeeds if and only if no missing default has its name taken and the admin user name is free or its account exists |
| SeededDatabase.SeededExactly | app/db/seed_rbac.py:630-825 | table by table what a run that gets through leaves: old rows as they were, one new row for each default whose key was missing, the selected grants, and, if nobody had the admin's e-mail, one superuser who has the Super Admin role when that is a default |
| SeededDatabase.AbortedExactly | app/db/seed_rbac.py:630-825 | what a run leaves that a uniqueness violation has ended: the permissions before the clashing one and nothing else, or everything but the admin |
| SeededDatabase.PersonnelRules | app/db/seed_rbac.py:685-697 | the rule of the HR manager by the pieces of a code |
| SeededDatabase.StoreRules | app/db/seed_rbac.py:681-711 | the same for the super admin, inventory and procurement |
| SeededDatabase.CustomerRules | app/db/seed_rbac.py:712-752 | the same for sales and CRM |
| SeededDatabase.FinanceRules | app/db/seed_rbac.py:753-798 | the same for finance |
| SeededDatabase.ManagersCoverTheirStaff | app/db/seed_rbac.py:681-798 | whatever a viewer, the representative or the accountant is granted, a manager of the area is granted as well |
| SeededDatabase.LookupsExactly | app/repositories/rbac.py:29-86 | a lookup finds the lowest row whose folded key matches, and nothing exactly when there is none |

## Left out

Limits of individual contracts:

- DomainEventPublisher.DomainEventPublisher.Publish: covers publications that end; when they do is the subject of `DescendingHandlersTerminate`, `TerminatesIffGrowthBounded` and `SelfSubscriberNeverEnds`. Python's recursion limit is not modelled.
- DeliveryTheorems.TerminatesIffGrowthBounded: its condition is on the states of the run, not on the handlers; `DescendingHandlersTerminate` gives one on the handlers that is sufficient.
- DeliveryTheorems.PublisherRefinesLog: is for handlers that neither subscribe nor publish, as its statement says; re-entrant handlers are covered by the bracketing and late-subscriber results.
- RbacSession.SeedRbacData: demands distinct permission codes in the default list, which the repository's list has; with a repeated code the script would assign in dictionary order.
- SlidingWindow.AcceptedWindowSafe: assumes a nondecreasing clock, as the other whole-run results about admissions do; `SafeOnEveryClockExactly` says when it can be dropped.

In the limiter:

- Floating-point time: times are reals, so rounding of `now - t` and of `now + window_seconds` is not modelled.
- The request and response bodies, and how `str` renders numbers; header names are compared without case.
- A failing handler is an event of the schedule that sends no response of this middleware.

In the publisher:

- Event identifiers, timestamps, `to_dict` and log lines; the payload is an opaque value.
- A handler's program depends on the handler and the event, not on state that handlers share.

In the migrations:

- Column types, defaults, comments, unique constraints, data rows and primary-key names.
- What a database does to the transaction after a caught error: a caught failure leaves the operations before it in place.
- Constraint names made inside `create_table` are identified by their column; foreign keys arrive at `id` only.
- Index names are a table and a column, which two customer and supplier ledger tables shorten in the script; indexes and tables have separate namespaces, and dropping an index does not check the table it is given.
- A failed inspection in the ledger downgrade, which is not caught there and ends the script before any change.
- The other revisions, and Alembic's version table.

In the masker:

- Keys that are not strings, on which the code raises; the case folding of `str.lower` is an arbitrary function.
- `JsonFormatter.format`, which never calls the masker.

In the seeder:

- Generated identifiers are taken from a counter instead of being random; a lookup that matches several rows takes the lowest.
- Password hashing, full names, time stamps, module names beyond copying them, and the literal default lists.
- Other uniqueness than that of codes, names, the admin's email and user name; deletes and concurrent sessions.

Elsewhere in the repository:

- Journals, stock ledger, payroll, leave and approvals: the repository's models declare columns; the services that enforce their rules are not part of this model.
- Settings, sessions, cache, job queue, request dependencies, exception handlers and the front end: wrappers and plumbing.
