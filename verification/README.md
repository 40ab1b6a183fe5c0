# NervOS: durable state, verified

A Dafny model of the parts of NervOS whose correctness spans many transactions: the hosted package
catalog and its PL/pgSQL guards, the durable execution of a Run, the claim queue, capability grants,
the SQLite schema migrations of `runs`, the replication of a Run's timeline into the browser, unique
indexes over nullable columns, and the migration diff filter.

`dafny verify dfyconfig.toml` checks everything.

| file | what it models |
|---|---|
| `Sql.dfy` | NULL, Kleene logic, rows; a CHECK rejects only on False, a WHERE or IF acts only on True |
| `RunChecks.dfy` | the lifecycle CHECKs on `runs` in revisions 0002, 0004 and 0005, and the exact rows each admits |
| `Rebuild.dfy` | create-copy-drop-rename for any two schemas, and the algebra of there and back |
| `RunMigrations.dfy`, `StageD.dfy`, `PackageSnapshot.dfy` | migrations 0004 and 0005, 0007, 0013 |
| `Catalog.dfy` | projects, releases and artifacts under the guards of mp0001 to mp0003, as a state machine and as statements |
| `Timeline.dfy`, `Replication.dfy` | keyset pages, the merge, one drain, and every interleaving of drains |
| `Execution.dfy` | one Run: claims, leases, tokens, start, retry, reclamation, cancellation, tools, approvals |
| `Safety.dfy` | what that guarantees of a Run, and where recovery stops |
| `Budget.dfy` | how long the log of one Run can grow |
| `Fleet.dfy` | all Runs together: polls decided by the queue, and one reclaimer that takes the oldest expired claim |
| `Links.dfy` | what the protocol gives to the CHECKs on `runs` and to replication |
| `Queue.dfy` | the candidate query under the three caps, the marker table, fairness |
| `Grants.dfy` | grants, cutoffs and the call-time decision across revisions 0006 and 0007 |
| `Indexes.dfy` | tool-definition identity (0007) and occurrence identities (0008) |
| `DiffFilter.dfy` | the filter on autogenerated migration operations |

Conventions. A statement or a migration is atomic. Every `IsRun` is over all finite sequences of
steps, in any order, so a result about `IsRun` is about every reachable state. Text predicates
(patterns, trimming, length bounds, digests) are arbitrary functions, with only their behaviour on NULL
fixed. Clocks are parameters of each step and need not agree. Claim tokens are assumed fresh, a lease
ends after the instant that grants it, and the concurrency limits are positive. The cache
write of a drain, `setQueryData` with an updater and the library storing the value it returns, is one
step.

## What the code does that its documentation does not say

Each of these is stated and proved in the member named.

- After a retry, a claim lost before its start is requeued without looking at the Run. The Job is then
  `queued` under a `running` Run, which neither claimable source admits: the Run is stranded until its
  owner cancels it (`Safety.RequeueRecoversExactly`, `Safety.StrandedForever`, with a run that gets
  there in `Safety.StrandingHappens`).
- If the budget is spent as well, the reclaimer rolls back, although its documentation says a selected row
  is always actionable and the caller can never spin on one. It takes one claim per pass, the oldest of
  all Runs, so that claim stays at the head and no other Run's expired claim is reclaimed until its owner
  cancels (`Fleet.PassCommitsExactly`, `Fleet.JamLasts`, with two Runs that get there in
  `Fleet.JamHappens`). `Fleet.FinishesExactly` states which unfinished Runs Workers and reclaimers can
  still bring to an end, and that these two losses after a retry are the only obstacles.
- The page bound of a drain is described as no cap on coverage. By itself it is one: a server page
  continues whenever it is full, so a client with fifty full pages unread, 2500 events at the default
  page size it takes, throws on every drain and never gains another event (`Replication.GainsExactly`,
  `Replication.OverflowIsPermanent`, with a run in `Replication.OverflowHappens`). The comment is right
  because of budgets kept elsewhere: ten Attempts of sixteen tool calls bound a Run's log by 1004 events
  (`Budget.LogIsBounded`), so on the logs this engine writes every drain ends and the client can
  always catch up (`Links.DrainsEnd`, `Links.ClientCanCatchUp`).
- A terminal Run's log can still grow, by one decision for each approval left open, and a caught-up
  client does not fetch it. It keeps showing the whole log if and only if no approval was left open
  (`Links.TerminalLogIsAlmostFinal`, `Links.StaysWholeExactly`, with a run in
  `Links.LateDecisionHappens`).
- Removing the timeline cache at logout while a drain from a nonzero cursor is in flight leaves a gap
  (`Replication.RemovalExactly`, `Replication.RemovalCanLoseHistory`).
- `runs` has no error-pair CHECK, so 0004 and later store a failed Run that never started and has a NULL
  code (`RunChecks.UncodedFailureIsStored`). The protocol never writes it (`Links.OnlyTheSeven`).
- The comment on SOURCE_PAIRING says a `builtin` row with a source would escape both indexes. It is
  inside the builtin index; what escapes without the pairing is an `mcp` row with a NULL source
  (`Indexes.EscapeWithoutPairing`).
- Dropping and recreating `agent_tool_grants` restarts its ids. That is safe exactly because the preflight
  forces every surviving cutoff to 0 (`Grants.RestartIsSafeExactly`); it is also why upgrading after an
  unrefused 0007 downgrade restores everything but that counter (`StageD.UpgradeUndoesDowngrade`).
- The mp0003 guard's `<>` test lets a NULL `published_at` through; the timestamp CHECK closes it
  (`Catalog.ReplacementNeverWeakens`). A release reserved before storage versions existed can never be
  published (`Catalog.UnstoredReservationIsStuck`), and one published before may have none
  (`Catalog.PublicationNeedsStorage`).
- The diff filter keys its findings by the bare table name, so a table of the same name in another schema
  can have a real drift discarded (`DiffFilter.HidesDriftExactly`). The metadata uses no schemas.

## Model

| member | source | states |
|---|---|---|
| RunChecks.AdmittedExactly | apps/api/alembic/versions/0005_stage_c5_run_cancellation.py:57-137 | under three-valued logic with NULL accepted, the CHECKs of each generation admit exactly the rows having one of its shapes, and no row has two shapes |
| RunChecks.PairingLeavesTheSeven | apps/api/alembic/versions/0003_stage_c1_durable_execution.py:58-60 | with the code/message pairing that `jobs` has, the C5 CHECKs admit exactly the seven shapes; without it exactly one more, the uncoded failure |
| RunChecks.UncodedFailureIsStored | apps/api/alembic/versions/0004_stage_c3_worker_registry.py:69-100 | the extra row is concrete: C3 and C5 accept it, Stage B rejects it |
| Rebuild.WidenAfterNarrow | apps/api/alembic/versions/0007_stage_d1_tool_capability_audit.py:375-424 | for any schemas, narrowing and widening again restores a table if and only if every dropped cell held the value widening writes |
| Rebuild.NarrowAfterWiden | apps/api/alembic/versions/0007_stage_d1_tool_capability_audit.py:375-424 | widening and narrowing again restores every table |
| Rebuild.Table.RebuildAs | apps/api/alembic/versions/0005_stage_c5_run_cancellation.py:198-219 | the rebuild copies row by row and succeeds exactly when the copy satisfies the new constraints; otherwise the table is unchanged |
| RunMigrations.MoveIsExact | apps/api/alembic/versions/0005_stage_c5_run_cancellation.py:198-242 | each of the four moves copies value for value, and the copied rows fit the other generation if and only if no row is one the move blocks on, NULL codes included |
| RunMigrations.Upgrade0004 | apps/api/alembic/versions/0004_stage_c3_worker_registry.py:161-213 | the upgrade succeeds if and only if no failed Run carries the exhausted code, and changes no value |
| RunMigrations.Downgrade0004 | apps/api/alembic/versions/0004_stage_c3_worker_registry.py:216-231 | it refuses exactly when a Run closed before it started; otherwise it succeeds and changes no value |
| RunMigrations.Upgrade0005 | apps/api/alembic/versions/0005_stage_c5_run_cancellation.py:222-225 | the upgrade never fails and changes no value |
| RunMigrations.Downgrade0005 | apps/api/alembic/versions/0005_stage_c5_run_cancellation.py:227-242 | it refuses exactly when some Run is cancelled; otherwise it succeeds and changes no value |
| StageD.DowngradeUndoesUpgrade | apps/api/alembic/versions/0007_stage_d1_tool_capability_audit.py:832-850 | every 0006 database upgrades to a valid 0007 database that passes the preflight, and downgrading gives it back |
| StageD.UpgradeUndoesDowngrade | apps/api/alembic/versions/0007_stage_d1_tool_capability_audit.py:832-850 | whenever the preflight passes, downgrading and upgrading restores every row, the grant counter alone starting over |
| StageD.PreflightIsTheImage | apps/api/alembic/versions/0007_stage_d1_tool_capability_audit.py:230-265 | the preflight passes exactly on the databases the upgrade produces, the grant counter apart |
| StageD.Migration0007 | apps/api/alembic/versions/0007_stage_d1_tool_capability_audit.py:220-424 | the three general laws hold of the actual `runs`, `run_events` and `job_attempts` schemas and preflight predicates |
| StageD.Store.Upgrade | apps/api/alembic/versions/0007_stage_d1_tool_capability_audit.py:832-839 | the statements in order compute the upgraded database and cannot fail |
| StageD.Store.HasBlockers | apps/api/alembic/versions/0007_stage_d1_tool_capability_audit.py:811-829 | the counts find a blocker exactly when the preflight fails |
| StageD.Store.Downgrade | apps/api/alembic/versions/0007_stage_d1_tool_capability_audit.py:842-850 | it refuses exactly when the preflight fails, with nothing changed; otherwise it runs to the end |
| PackageSnapshot.BuiltinIsFill | apps/api/alembic/versions/0013_stage_g3_package_registry.py:63-84 | the snapshot CHECK forces every dropped column of a non-package Run to the refilled default |
| PackageSnapshot.Runs0012IsFine | apps/api/alembic/versions/0013_stage_g3_package_registry.py:77-84 | the table 0013 copies, with the columns of 0007, is one the round trip covers, whatever its CHECKs |
| PackageSnapshot.Migration0013 | apps/api/alembic/versions/0013_stage_g3_package_registry.py:379-423 | the upgrade of `runs` is undone by the downgrade; the downgrade is refused exactly on tables no upgrade produces; otherwise re-upgrading restores `runs` row for row |
| PackageSnapshot.Upgrade0013 | apps/api/alembic/versions/0013_stage_g3_package_registry.py:379-397 | the rebuild of `runs` cannot fail and fills in the built-in snapshot |
| PackageSnapshot.Downgrade0013 | apps/api/alembic/versions/0013_stage_g3_package_registry.py:400-423 | it refuses exactly when a package-backed Run exists, and otherwise leaves rows from which re-upgrading gives the old table |
| Catalog.PublishedForever | apps/marketplace/alembic/versions/mp0003_publication_workflow.py:75-102 | over every run of accepted statements a published coordinate keeps its release, evidence, publication instant and artifact row, and stands for nothing else |
| Catalog.PublicationNeedsStorage | apps/marketplace/alembic/versions/mp0003_publication_workflow.py:77-84 | every release published under the guard names a stored object version |
| Catalog.UnstoredReservationIsStuck | apps/marketplace/alembic/versions/mp0003_publication_workflow.py:77-88 | a ready release whose archive has no storage version stays unpublished in every later state |
| Catalog.RevisionStampsDistribution | apps/marketplace/alembic/versions/mp0003_publication_workflow.py:91-99 | between any two states the distribution state changed at most as often as the revision grew; equal revisions mean equal distribution; revoked is for good |
| Catalog.ReplacementNeverWeakens | apps/marketplace/alembic/versions/mp0002_publisher_identity.py:161-181 | on an attributed release, what the mp0003 guard and the timestamp CHECK accept the two older guards accept, and without the CHECK they differ exactly on a NULL `published_at` |
| Catalog.ReplacementIsStrict | apps/marketplace/alembic/versions/mp0001_catalog_foundation.py:133-152 | the newer guard rejects updates the older ones accept, and the NULL hole is real |
| Catalog.GuardMeansMove | apps/marketplace/alembic/versions/mp0003_publication_workflow.py:75-102 | with the CHECK, the trigger raises exactly when the update is outside a two-valued transition relation |
| Catalog.ResolutionIsUnique | apps/marketplace/alembic/versions/mp0001_catalog_foundation.py:28-108 | the two UNIQUE constraints together give a coordinate at most one meaning |
| Catalog.UpdateReleaseExactly | apps/marketplace/alembic/versions/mp0003_publication_workflow.py:86-90 | once the guard has frozen the evidence, the row's own CHECKs are all that can fail |
| Catalog.InsertReleaseExactly | apps/marketplace/alembic/versions/mp0001_catalog_foundation.py:66-108 | a new release keeps every constraint if and only if its own row passes and its archive, version and project are free and present |
| Catalog.UpdateProjectExactly | apps/marketplace/alembic/versions/mp0001_catalog_foundation.py:28-40 | an updated project keeps every constraint if and only if it is owned, its name is free and, if its id changes, no release refers to it |
| Catalog.InsertProjectExactly | apps/marketplace/alembic/versions/mp0001_catalog_foundation.py:28-40 | a new project keeps every constraint if and only if it is owned and its name is free |
| Catalog.Store.GuardReleaseUpdate | apps/marketplace/alembic/versions/mp0003_publication_workflow.py:85-100 | the trigger body, test by test, raises exactly when the guard predicate says |
| Catalog.Store.UpdateReleaseRow | apps/marketplace/alembic/versions/mp0003_publication_workflow.py:75-102 | the statement commits exactly when the state machine accepts it, and anything else changes nothing |
| Catalog.Store.InsertReleaseRow | apps/marketplace/alembic/versions/mp0003_publication_workflow.py:75-84 | the same for inserting a release |
| Catalog.Store.DeleteReleaseRow | apps/marketplace/alembic/versions/mp0003_publication_workflow.py:75-102 | no release row is ever deleted |
| Catalog.Store.UpdateProjectRow | apps/marketplace/alembic/versions/mp0001_catalog_foundation.py:157-170 | the same for updating a project under its guard |
| Catalog.Store.DeleteProjectRow | apps/marketplace/alembic/versions/mp0001_catalog_foundation.py:157-170 | the same for deleting a project |
| Catalog.Store.UpdateArtifactRow | apps/marketplace/alembic/versions/mp0001_catalog_foundation.py:171-180 | the only update of an artifact that passes changes nothing |
| Catalog.Store.DeleteArtifactRow | apps/marketplace/alembic/versions/mp0001_catalog_foundation.py:66-108 | an artifact goes only when no release refers to it |
| Catalog.Store.InsertProjectRow | apps/marketplace/alembic/versions/mp0001_catalog_foundation.py:28-40 | inserting a project commits exactly when the state machine accepts it |
| Catalog.Store.InsertArtifactRow | apps/marketplace/alembic/versions/mp0001_catalog_foundation.py:15-26 | the same for inserting an artifact |
| Timeline.MergeRunEvents | apps/web/src/api/queries.ts:82-94 | the loops and the sort compute the union keyed by sequence, incoming winning, in ascending order, and an empty delivery changes nothing |
| Timeline.MergeLaws | apps/web/src/api/queries.ts:73-81 | the merge is idempotent and associative, and commutative if and only if the two agree wherever both have an entry |
| Timeline.MergeExtendsPrefix | apps/web/src/api/queries.ts:124-130 | merging a stretch of a log into a prefix that reaches it gives the longer prefix |
| Timeline.Resume | packages/nervos-core/src/nervos_core/infrastructure/database/agents.py:209-233 | reading on from the cursor of the n-th unread entry leaves exactly the entries after it |
| Replication.DrainRunEvents | apps/web/src/api/queries.ts:103-122 | at most fifty requests; it gives up if and only if all fifty pages were full; otherwise it returns everything after its cursor that the server held at the last request |
| Replication.Entry.Drain | apps/web/src/api/queries.ts:103-132 | undisturbed, a drain leaves the whole log of its last request in the cache, or gives up and leaves the cache as it was |
| Replication.QuiescentDrain | apps/api/src/nervos_api/api/routes/runs.py:36-45 | against a log nobody appends to, it gives up if and only if fifty full pages are unread |
| Replication.CacheIsExact | apps/web/src/api/queries.ts:96-132 | under every interleaving of appends, drains, completions, aborts and safe removals the cache is strictly ascending and exactly the log up to its cursor |
| Replication.CursorNeverFalls | apps/web/src/api/queries.ts:73-81 | between removals the cursor never decreases and no cached entry is dropped or changed |
| Replication.CompletionCovers | apps/web/src/api/queries.ts:124-132 | a completed drain leaves in the cache everything the server had committed when its last page was read |
| Replication.TerminalCatchUp | apps/web/src/api/queries.ts:224-255 | once the hook has seen the Run terminal, nothing is in flight and its final fetch was not lost, the cache holds the log up to the terminal commit, and all of it if nothing was appended since |
| Replication.LateEventsAreMissed | apps/web/src/api/queries.ts:233-255 | until a new mount, a live status, a return of the network or a removal, a caught-up client fetches nothing, so it shows the whole log exactly as long as nothing is appended |
| Replication.OverflowIsPermanent | apps/web/src/api/queries.ts:32-36 | a client with fifty full pages unread and no finished drain never gains another event, whatever is appended, fetched or removed from then on |
| Replication.OverflowHappens | apps/web/src/api/queries.ts:112-117 | a run that reaches it, for every page size |
| Replication.GainsExactly | apps/web/src/api/queries.ts:103-132 | in every reachable state the client can gain an event by itself if and only if fewer than fifty full pages, and at least one event, are unread, or a finished drain brings something new |
| Replication.PrefixExactly | apps/web/src/api/queries.ts:82-94 | merging a stretch of a log into a prefix leaves a prefix if and only if the stretch is empty or the prefix reaches it |
| Replication.RemovalExactly | apps/web/src/api/queries.ts:176-193 | a finished drain applied after the cache was removed leaves no gap if and only if it started from cursor 0 or brought nothing |
| Replication.RemovalCanLoseHistory | apps/web/src/api/queries.ts:176-193 | a run from the empty cache that ends with the first event missing and the second shown |
| Execution.InvHolds | packages/nervos-core/src/nervos_core/infrastructure/database/jobs.py:880-1885 | in every reachable state Job, Run and newest Attempt are in lockstep, claims are counted, tokens differ, and every Attempt but the newest is closed and replayable |
| Safety.StaleClaimsAreFenced | packages/nervos-core/src/nervos_core/infrastructure/database/jobs.py:1246-1680 | at most one Attempt is active, it is the newest, and no Worker acting on any other commits anything, whatever its clock |
| Safety.NoBlindReplay | packages/nervos-core/src/nervos_core/infrastructure/database/jobs.py:1741-1885 | a started Attempt is followed by another only after a positively safe rate limit with no dispatched tool call, and all claims stay within the budget |
| Execution.StepKeeps | packages/nervos-core/src/nervos_core/infrastructure/database/jobs.py:1246-1885 | every committed step keeps the invariant |
| Safety.TerminalIsForever | packages/nervos-core/src/nervos_core/infrastructure/database/jobs.py:2756-2955 | once terminal, Run, Job and Attempts never change, and each open approval becomes at most one more event |
| Safety.TimelineTellsTheOutcome | packages/nervos-core/src/nervos_core/infrastructure/database/run_events.py:47-61 | sequences are 1, 2, 3 and so on; a closing event exists exactly when the Run is terminal, once, with its status, and only approval decisions follow it |
| Safety.TimelineIsAppendOnly | packages/nervos-core/src/nervos_core/infrastructure/database/run_events.py:96-140 | the log of a Run only grows |
| Budget.LogIsBounded | packages/nervos-core/src/nervos_core/application/tool_loop.py:225-228 | over every run the events and the open approvals together are at most four plus what the budgeted Attempts and tool calls can cause, and at most 1004 under the CHECKs on the budgets |
| Safety.RequeueRecoversExactly | packages/nervos-core/src/nervos_core/infrastructure/database/jobs.py:2384-2418 | a requeued Job can be claimed again if and only if its Run never started |
| Safety.StrandedForever | packages/nervos-core/src/nervos_core/infrastructure/database/jobs.py:147-154 | a queued Job of a started Run stays so until the owner cancels |
| Safety.StrandingHappens | packages/nervos-core/src/nervos_core/infrastructure/database/jobs.py:2384-2418 | a run of five steps that strands its Run |
| Fleet.PassCommitsExactly | packages/nervos-core/src/nervos_core/infrastructure/database/jobs.py:2286-2347 | a pass selects the least lease and id of all Runs, and commits if and only if that head is not a claim lost after a retry with the budget spent and the Job, Attempt and Run rows it writes pass their CHECKs at its clock; otherwise nothing at all changes |
| Fleet.SelectExpired | packages/nervos-core/src/nervos_core/infrastructure/database/jobs.py:2287-2325 | the query returns the due claim that is first by lease and id, and nothing if and only if none is due |
| Fleet.ReclaimUntilDrained | packages/nervos-core/src/nervos_core/application/lease_reclamation.py:162-171 | short of its limit the loop stops only when nothing is due or the head cannot be reclaimed, and with such a head it reclaims nothing |
| Fleet.JamLasts | packages/nervos-core/src/nervos_core/infrastructure/database/jobs.py:2420-2482 | an unreclaimable head stays the head and no pass changes anything, whatever happens to other Runs, until its owner cancels, once no clock is behind its lease |
| Fleet.JamHappens | packages/nervos-core/src/nervos_core/infrastructure/database/jobs.py:2420-2482 | a run of two Runs in which the first jams the reclaimer and the second, an ordinary lost first claim, is never reclaimed |
| Fleet.FinishesExactly | packages/nervos-core/src/nervos_core/infrastructure/database/jobs.py:2275-2347 | in every reachable state and from any instant on, Workers and reclaimers alone can bring an unfinished Run to its end if and only if by that instant it is neither stranded, nor holding the expired claim of a retry, nor holding an expired claim at or behind an unreclaimable one |
| Fleet.StepKeeps | packages/nervos-core/src/nervos_core/infrastructure/database/jobs.py:880-1885 | every step of the system keeps every Run's invariant |
| Fleet.RunIsQueueRun | packages/nervos-core/src/nervos_core/infrastructure/database/jobs.py:935-1077 | through the columns the claim query reads, every run of the system is a run of the queue, polls being its claims, so the fairness results hold of it |
| Links.OnlyTheSeven | packages/nervos-core/src/nervos_core/infrastructure/database/jobs.py:1420-1680 | every Run row the protocol writes has one of the seven shapes and passes every C5 CHECK |
| Links.ProtocolServesALog | packages/nervos-core/src/nervos_core/infrastructure/database/run_events.py:47-61 | what replication assumes of the server holds of the protocol: an ascending, positive, growing log |
| Links.TerminalLogIsAlmostFinal | packages/nervos-core/src/nervos_core/infrastructure/database/approvals.py:356-371 | a terminal Run's log holds its closing event, is final if no approval is open, and can still grow by one entry if one is |
| Links.StaysWholeExactly | packages/nervos-core/src/nervos_core/infrastructure/database/approvals.py:203-241 | a client caught up with a terminal Run keeps showing the whole log, in every continuation of the protocol and of its own undisturbed life, if and only if no approval was left open |
| Links.LateDecisionHappens | packages/nervos-core/src/nervos_core/infrastructure/database/approvals.py:286-308 | a Run cancelled with an approval open, and a client caught up with it |
| Links.DrainsEnd | apps/web/src/api/queries.ts:112-122 | on the logs the protocol writes, at any page size from 21 up, no drain gives up, whatever is appended while it reads |
| Links.ClientCanCatchUp | apps/web/src/api/agentInstances.ts:365-367 | a client of such a Run is never fifty pages behind, and can gain more by itself if and only if it does not show the whole log yet |
| Queue.CountLive | packages/nervos-core/src/nervos_core/infrastructure/database/jobs.py:898-919 | the dictionaries hold the number of live leases in total, per Agent and per provider |
| Queue.RankHeads | packages/nervos-core/src/nervos_core/infrastructure/database/jobs.py:935-967 | every partition with claimable work is mapped to its oldest due Job, the smaller id breaking ties |
| Queue.FirstByMarker | packages/nervos-core/src/nervos_core/infrastructure/database/jobs.py:980-1007 | the first partition in marker order, NULLs first and the Agent id breaking ties |
| Queue.Select | packages/nervos-core/src/nervos_core/infrastructure/database/jobs.py:906-1007 | nothing is chosen if and only if no partition is eligible; otherwise the head of the least recently served eligible partition |
| Queue.Store.ClaimOnce | packages/nervos-core/src/nervos_core/infrastructure/database/jobs.py:880-1097 | a poll claims that Job, adds its Attempt and stamps its partition, or changes nothing |
| Queue.ClaimKeepsCaps | packages/nervos-core/src/nervos_core/infrastructure/database/jobs.py:906-929 | right after a claim no more leases are live than any of the three caps allows |
| Queue.Backfill | apps/api/alembic/versions/0006_stage_c6_queue_partitions.py:55-61 | one row per partition with Jobs, holding its greatest Attempt id, or NULL |
| Queue.Store.Upgrade | apps/api/alembic/versions/0006_stage_c6_queue_partitions.py:64-84 | the upgrade fills the new table with the backfill and changes nothing else |
| Queue.MarkersAreDerived | apps/api/alembic/versions/0006_stage_c6_queue_partitions.py:25-40 | in every reachable state the maintained table says what the backfill would compute, an absent row meaning NULL |
| Queue.ReupgradeChoosesTheSame | apps/api/alembic/versions/0006_stage_c6_queue_partitions.py:87-91 | dropping the table and upgrading again leaves every marker and every choice of every poll as it was |
| Queue.OvertakesOnce | apps/api/alembic/versions/0006_stage_c6_queue_partitions.py:10-35 | while a partition goes unserved, no other wins two claims at which it was eligible for the claiming Worker |
| Queue.BoundedBypass | apps/api/alembic/versions/0006_stage_c6_queue_partitions.py:10-35 | those claims are at most as many as the other partitions, whatever Workers blind to it do |
| Queue.EligiblePartitionIsServed | apps/api/alembic/versions/0006_stage_c6_queue_partitions.py:11-13 | over any stretch in which every claim could have served it, a partition is served before the claims outnumber the other partitions |
| Grants.GrantsMean | packages/nervos-core/src/nervos_core/infrastructure/database/tools.py:120-366 | granting and reconfirming leave a grant of the current fingerprint and touch no other pair; a refusal writes nothing; granting is idempotent |
| Grants.AllowedExactly | packages/nervos-core/src/nervos_core/infrastructure/database/tools.py:481-581 | in every reachable state a call is allowed if and only if the Run has a tool budget, its Agent's grant is older than the Run and reviewed the definition as it is, and the source is usable |
| Grants.NeverGains | apps/api/alembic/versions/0007_stage_d1_tool_capability_audit.py:39-45 | a tool a submitted Run cannot reach it can never call, over any grants, revocations, downgrades and upgrades |
| Grants.CapabilitiesShrink | packages/nervos-core/src/nervos_core/infrastructure/database/jobs.py:606-624 | the tools within a Run's cutoff only become fewer |
| Grants.RestartIsSafeExactly | apps/api/alembic/versions/0007_stage_d1_tool_capability_audit.py:230-265 | over an emptied table, restarting the ids lets no first grant reach an older Run if and only if all cutoffs are 0 |
| Indexes.PartialIndexesAreNullSafe | apps/api/alembic/versions/0007_stage_d1_tool_capability_audit.py:576-593 | on every table the two partial indexes with the pairing CHECK are equivalent to NULL-safe uniqueness of the three columns |
| Indexes.EscapeWithoutPairing | apps/api/alembic/versions/0007_stage_d1_tool_capability_audit.py:131-137 | without the pairing, what escapes is exactly a repeated `mcp` row with a NULL source |
| Indexes.PlainUniqueIsBlind | apps/api/alembic/versions/0007_stage_d1_tool_capability_audit.py:576-579 | a plain UNIQUE admits n copies of a built-in for every n; the partial indexes at most one |
| Indexes.RowsAreExclusive | apps/api/alembic/versions/0008_stage_e1_trigger_scheduling.py:201-206 | an admitted occurrence names at most one identity, and either a Run or a skip |
| Indexes.ClashExactly | apps/api/alembic/versions/0008_stage_e1_trigger_scheduling.py:252-280 | the four indexes reject a row exactly when its Run, or its identity under its trigger, is already there |
| Indexes.InsertsDeduplicate | apps/api/alembic/versions/0008_stage_e1_trigger_scheduling.py:234-280 | over every sequence of inserts: one occurrence per instant, event or key of a trigger, one identity per occurrence, one occurrence per Run; a valid row is refused only when it is already settled |
| Indexes.ReplayIsIdempotent | apps/api/alembic/versions/0008_stage_e1_trigger_scheduling.py:234-280 | delivering everything again adds the anonymous skipped rows and no other |
| DiffFilter.CompareCollidingUniqueNames | apps/api/alembic/env.py:26-83 | it raises if and only if an existing table has colliding names and drifted signatures, with no operation touched; otherwise each table operation keeps what the filter keeps, however often it occurs |
| DiffFilter.Inspect | apps/api/alembic/env.py:45-63 | one table: its colliding names, and whether its signatures drifted |
| DiffFilter.FindColliding | apps/api/alembic/env.py:41-64 | every recorded entry comes from an existing, undrifted table and holds exactly its colliding names |
| DiffFilter.KeptExactly | apps/api/alembic/env.py:70-83 | the kept items are exactly those not removed, each as it was and in order |
| DiffFilter.RemovalIsSpurious | apps/api/alembic/env.py:62-83 | whenever an item is removed, a table of that name has equal declared and found signature multisets and shares that constraint name |
| DiffFilter.NoDriftIsHidden | apps/api/alembic/env.py:41-83 | with one table per name, an item is removed only from a table without any drift |
| DiffFilter.HidesDriftExactly | apps/api/alembic/env.py:64-69 | an item can be removed from a drifted table if and only if another table has its bare name and colliding constraints |
| DiffFilter.SchemasCanHideDrift | apps/api/alembic/env.py:64-69 | two tables that show it |

## Left out

- The marketplace's keys, publishers, listings, uploads and accounts: their guards freeze single rows and would only add easy members.
- Multi-row statements, TRUNCATE, row locks and concurrent transactions of PostgreSQL: each row change is one atomic statement.
- Tables 0009 to 0012 and 0014 to 0024, and the trigger definitions of 0008: shape CHECKs on single rows.
- The package tables that the 0013 downgrade drops: only the `runs` round trip is claimed, and the downgrade does not look at them.
- AUTOINCREMENT counters other than that of `agent_tool_grants`, and foreign keys from tables a rebuild does not touch.
- Crashes in mid-migration, PRAGMA handling and autocommit: a migration is atomic.
- Backoff arithmetic of retries, usage accounting, workflow steps committed with a success, and memory proposals: they ride on transactions modelled here and guard nothing in them.
- Recovery from an unobserved COMMIT (`_start_already_committed`, `_reconcile_claim`): a step here either committed or did not.
- The identity of tool invocations and approvals: an Attempt counts its calls by state and the Run its open approvals, and their own CHECKs and permission tests are not repeated there.
- Provider calls themselves: the model ends at the committed start boundary and says nothing of what a remote provider did.
- Pruning of Attempt rows: no code deletes them; the marker table would then differ from its backfill.
- Rendering, polling cadence, request cancellation and de-duplication inside react-query: a final fetch is a drain that starts after the terminal status was observed.
- The grouping of the live-lease count by Agent and provider: the model counts Job by Job, with the same totals.
- Catch-up after an unsafe removal of the cache: the exact damage of one is `Replication.RemovalExactly`, and the results over whole runs take removals to be safe.
- Liveness of Workers: the progress result says that a schedule exists, not that Workers will follow it; provider outcomes are theirs to report.
