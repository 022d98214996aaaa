# GPUardian in Dafny

A model of the parts of GPUardian whose correctness spans several operations, passes or processes,
and proofs of what they guarantee.

- **Store** (`storeops.dfy`, `storeruns.dfy`, `slices.dfy`, `storememory.dfy`): every operation as a
  function on the persisted state, invariants over whole runs, and the same operations in place on
  slices and arrays with the committed shadow, the state file and failing saves.
- **Enforcement** (`wildcard.dfy`, `scopes.dfy`, `evidence.dfy`, `planning.dfy`, `eviction.dfy`,
  `enforcement.dfy`, `enforcepass.dfy`, `staterules.dfy`): which process may use which GPU, who claims a
  free one, whose grant went stale, and who is killed.
- **Staged kills** (`terminations.dfy`): SIGTERM now, SIGKILL on a later pass, judged by an automaton over
  the log of a run.
- **Daemon** (`naming.dfy`, `retention.dfy`, `cleanup.dfy`, `rounds.dfy`, `signalling.dfy`, `daemonruns.dfy`,
  `daemon.dfy`): the monitor pass from eviction to pruning, the outage pass, client operations, and runs of
  all three.
- **Telemetry** (`outbox.dfy`, `collection.dfy`, `jobs.dfy`): the segmented log, the collector that follows
  it, and the job events it carries.
- **History** (`timeline.dfy`, `rollups.dfy`): the newest-rollups read and the minute buckets.
- **Sampling** (`flight.dfy`): the coalescing process sampler.

`model.dfy`, `text.dfy`, `sequences.dfy` and `options.dfy` hold the records and the shared vocabulary.
`dafny verify dfyconfig.toml` checks the whole project.

## Conventions

- Time is an integer, zero meaning "not set".  Every `time.Now()` is a parameter; where the order of
  readings matters it is a nondecreasing sequence of them.
- `/proc`, the container runtime, the user database, cgroup files, signal delivery and file writes are
  arbitrary functions that return a value or fail.  They are fixed within one pass where the code
  memoises them.
- Identifiers and hashes drawn at random are parameters; `Admissible` and `WellNamed` say what their
  randomness promises: each is new, and none is a secret of another.  That names stay unique and groups
  homogeneous over runs is proved.
- A section under a lock is one step.  Go map iteration is arbitrary order.
- Code that only computes is a function, code that updates in loops a method proved against one.

## Where the code falls short of its description

- A pass that allows a process spares it only if the context lets the escalation loop get to it
  (`Terminations.CutPassDoesNotSpare`); `Terminations.AllowedIsSparedIff` says exactly when it does.
- One pass can send both signals to one process: the grace period is two seconds, a pass may last five.
  `Signalling.PassSendsBothIff` says exactly when it does.
- The early exit of stale eviction does not imply an empty assessment
  (`Scopes.EarlyExitAssessmentCanBeNonempty`); `Scopes.EarlyExitAssessment` says exactly when it does.
  The unrecognised token mode this takes can only come from a persisted file, whose modes the store does
  not check on load.
- Eviction skips the rows of a PID that it already decided about, so another stale scope around the same
  process can be called clean (`Eviction.SecondGrantIsOverlooked`); `Eviction.OverlookedIff` says exactly
  when, and `Eviction.EndedEverywhereIsSeen` which scopes are safe from it.
- The minute splitter drops the rest of a window that begins in the last millisecond of a minute
  (`Rollups.LostMinute`); `Rollups.SplitExactIff` says exactly when it is exact.

## Model

| member | source | states |
|---|---|---|
| `StoreRuns.ReservationsNeverOverlap` | internal/store/store.go:359-461 | in every state reachable by registrations, syncs, revocations, releases and prunes, committed or not, no two live reservations on one GPU overlap |
| `StoreRuns.OneActiveReservationPerGPU` | internal/model/model.go:84-96 | two reservations active on one GPU at one instant are the same reservation |
| `StoreRuns.RegisterScheduledKeepsInv` | internal/store/store.go:448-456 | an admitted scheduled registration fits between all live windows and keeps the run invariant |
| `StoreRuns.RegisterManagedKeepsInv` | internal/store/store.go:529-545 | so does a managed registration, under the key that admitted it |
| `StoreRuns.SyncKeepsInv` | internal/store/store.go:152-178 | replacing all managed keys keeps windows disjoint and leaves no reservation longer-lived than its token |
| `StoreRuns.RevokeKeepsInv` | internal/store/store.go:894-1011 | after a revocation a revoked token has only revoked reservations |
| `StoreRuns.RevokeTokensKeepsHash` | internal/store/store.go:953-960 | the loop that follows the hash of the token it revokes never drifts to another token |
| `StoreRuns.RunKeepsInv` | internal/store/store.go:359-1011 | the invariant holds throughout every run |
| `StoreRuns.PruneKeepsLiveReservation` | internal/store/store.go:1677-1704 | pruning keeps every live, unexpired reservation, because no dead token still has one |
| `StoreRuns.SyncKeepsGrant` | internal/store/store.go:152-171 | a key sync re-dates and drops no reservation, even when the owner's key is missing; only group and token hash are rewritten |
| `StoreRuns.RunKeepsLiveReservation` | internal/store/store.go:1279-1331 | no run that neither revokes nor releases it removes or re-dates a live reservation before it expires |
| `Wildcard.WildcardMatch` | internal/enforce/enforce.go:1581-1614 | the greedy matcher answers exactly whether the value is the pattern's literal parts in order with arbitrary text for the stars |
| `Wildcard.PlaceParts` | internal/enforce/enforce.go:1593-1613 | leftmost placement of the inner parts and a suffix test for the last, without overlap, decides assembly |
| `Wildcard.FloatingLeftmost` | internal/enforce/enforce.go:1602-1610 | taking the leftmost occurrence of a part loses no match |
| `Wildcard.GlobIsAssembly` | internal/enforce/enforce.go:1581-1614 | splitting at stars and assembling the parts is the textbook meaning of a glob |
| `Scopes.NoStaleScopeWithoutPossibility` | internal/enforce/enforce.go:624-656 | when the cheap test fails, no authorization and no lease is stale on any GPU |
| `Scopes.EarlyExitAssessment` | internal/enforce/enforce.go:412-432 | on the early exit the assessment is empty if and only if no assessed authorization has an unrecognised token mode |
| `Scopes.EarlyExitAssessmentCanBeNonempty` | internal/enforce/enforce.go:427-432 | a state whose early exit returns a non-empty assessment, against the comment in the code |
| `Evidence.PruneKeepsAuthorizationStanding` | internal/store/store.go:1279-1331 | pruning without a GPU sample leaves (entitled, stale) of every authorization outside cgroups as it was, on every GPU |
| `Evidence.PruneKeepsLeaseStanding` | internal/store/store.go:1279-1331 | the same for leases |
| `Evidence.PruneKeepsAssessment` | internal/enforce/enforce.go:412-426 | the next sample therefore assesses the same scopes |
| `Planning.Plan.KillProcess` | internal/enforce/enforce.go:976-1009 | one decision per call; the kill is queued unless it is under way, dry or over the budget of eight, and queued kills keep distinct PIDs |
| `Planning.Plan.KillOnce` | internal/enforce/enforce.go:1125-1132 | a PID already targeted is skipped instead of killed again |
| `Eviction.ScanScopes` | internal/enforce/enforce.go:480-535 | a scan stops at the first failed lookup or entitled match and otherwise returns exactly the stale scopes around the process |
| `Eviction.JudgeRow` | internal/enforce/enforce.go:474-541 | a row is judged only when every consulted scope was resolved and none entitles it |
| `Eviction.EvictRow` | internal/enforce/enforce.go:442-577 | exactly what one row comes to: it fails if and only if a lookup fails before anything entitles its process; every stale scope around an unentitled process is marked unclean, also when the process is killed; and it is decided about if and only if it is to be evicted and its PID was not before |
| `Eviction.EvictRows` | internal/enforce/enforce.go:442-577 | the decisions are exactly the first row to be evicted of each PID, in order; the assessment is exactly that of the rows looked at; failure means a failed lookup or an ended context |
| `Eviction.NothingToEvict` | internal/enforce/enforce.go:412-432 | the early exit plans what the loop would plan: no decision for any row |
| `Eviction.EvictExpiredReservedProcesses` | internal/enforce/enforce.go:374-577 | the planner as a whole, early exit included, decides and assesses exactly as the loop over the sample |
| `Eviction.CleanIff` | internal/enforce/enforce.go:542-547 | an authorization is called clean if and only if it was to be assessed, nothing failed, and no row speaks against it that is not preceded by an evicted row of its PID |
| `Eviction.CleanLeaseIff` | internal/enforce/enforce.go:545-547 | the same for leases |
| `Eviction.DecidesMeans` | internal/enforce/enforce.go:442-577 | one eviction decision per PID, for exactly the PIDs of rows to be evicted |
| `Eviction.OverlookedIff` | internal/enforce/enforce.go:448-450 | a clean authorization has a straggler in the sample exactly when every row that speaks against it comes after one of the same PID that is to be evicted |
| `Eviction.OverlookedLeaseIff` | internal/enforce/enforce.go:448-450 | the same for leases |
| `Eviction.OverlookedOnOtherGPU` | internal/enforce/enforce.go:448-450 | then that earlier row is on a GPU where the authorization has not ended |
| `Eviction.EndedEverywhereIsSeen` | internal/enforce/enforce.go:448-450 | so an authorization that has ended on every sampled GPU is clean only if no row speaks against it |
| `Eviction.SecondGrantIsOverlooked` | internal/enforce/enforce.go:448-450 | a process on two GPUs with an ended grant for each: it is evicted for the first, and the authorization of the second is called clean |
| `Enforcement.MatchAny` | internal/enforce/enforce.go:1202-1240 | the first admissible scope around the process wins; a failed lookup matters only if none is found |
| `Enforcement.NarrowedMatch` | internal/enforce/enforce.go:1202-1240 | restricting the candidates keeps a match that stays admissible |
| `Enforcement.ClaimHasMatchingProcess` | internal/enforce/enforce.go:1134-1157 | the verdict on a claim is that of the first process that is its runtime and is authorized or unresolvable |
| `Enforcement.SplitClaimants` | internal/enforce/enforce.go:905-930 | the live views split into claimants and others exactly when no lookup fails |
| `Enforcement.EnforceGPU` | internal/enforce/enforce.go:304-326 | reservations win over leases and leases over claims; the GPU gets at most one new claim and one answer per live view, all of them unless a lookup failed |
| `Enforcement.EnforceSoft` | internal/enforce/enforce.go:844-903 | a held claim admits its token only, an abandoned one defers everybody |
| `Enforcement.EnforceUnclaimed` | internal/enforce/enforce.go:905-974 | a free GPU goes to its first claimant, whose token alone is then permitted |
| `Enforcement.AnswerViews` | internal/enforce/enforce.go:763-802 | each live view is answered by its ruling, in order; a view is killed only when its ruling denies it |
| `EnforcePass.SortRows` | internal/enforce/enforce.go:278-302 | rows without GPU use, without process information or bypassed are decided at once, each once; the others become views |
| `EnforcePass.EnforceGPUs` | internal/enforce/enforce.go:304-326 | in whatever order the GPUs come, the decisions cover the sample as a multiset unless a lookup failed |
| `EnforcePass.ReleaseClaims` | internal/enforce/enforce.go:328-350 | a claim is released if and only if no sampled process is its runtime |
| `EnforcePass.Enforce` | internal/enforce/enforce.go:272-354 | every sampled row gets exactly one process decision unless a lookup failed, every decision follows from its GPU's state, and at most eight kills wait on distinct PIDs |
| `StateRules.OneTokenPerGPU` | internal/enforce/enforce.go:763-974 | in any pass over a reachable state all grant-based permissions on one GPU carry one token hash |
| `StateRules.ReservedKillIsCertain` | internal/enforce/enforce.go:763-802 | a kill on a reserved GPU means every usable authorization of its reservations was resolved and did not match |
| `StateRules.NewClaimIdentity` | internal/enforce/enforce.go:1159-1200 | a new claim recognises its own process if and only if that process has a non-blank container, a matching cgroup or a positive PID |
| `StateRules.StoredClaimIsActive` | internal/store/store.go:834-857 | storing an opened claim appends it and makes it the one active claim of its GPU |
| `StateRules.EveryViewIsIdentifiable` | internal/proc/proc.go:72-81 | every sampled process has an identity that a claim can be bound to: it is found under its own positive PID, and a container id is 64 hexadecimal digits |
| `StateRules.ClaimKeptIffIdentifiable` | internal/enforce/enforce.go:844-974 | on the next pass an opened claim is abandoned if and only if its process has no such identity, whatever lookups fail and whenever it was stored |
| `StateRules.ClaimIsStable` | internal/enforce/enforce.go:844-974 | on the next pass an opened claim is released by no decision and no second claim opens; unless a lookup about the claimed runtime fails the claim holds the GPU; and unless a lookup of the pass fails, everyone on the GPU whom the opening pass permitted is allowed by a decision again |
| `StateRules.ViewIsAnswered` | internal/enforce/enforce.go:763-802 | a pass without a failed lookup carries out the ruling about every live view |
| `StateRules.HeldClaimIsNotReleased` | internal/enforce/enforce.go:328-350 | a claim that is not abandoned is released by no decision |
| `Terminations.KillIsLegitimate` | internal/enforce/terminations.go:127-191 | a SIGKILL comes at least the grace period after a SIGTERM to the same identity, with no allow that reached it, exit, bypass or other signal in between |
| `Terminations.OneKillPerTerm` | internal/enforce/terminations.go:156-190 | between two SIGKILLs to one identity lies another SIGTERM |
| `Terminations.NoSecondTermWhileTracked` | internal/enforce/enforce.go:987-993 | a second SIGTERM to one identity comes only after its tracking ended |
| `Terminations.AllowedIsSparedIff` | internal/enforce/terminations.go:140-149 | a tracked identity that a pass allows is let go if and only if fewer tracked identities precede it, by PID and start time, than the context lets the loop reach |
| `Terminations.CutPassDoesNotSpare` | internal/enforce/terminations.go:141-149 | a run of the killer in which a pass allows a process, is cut short before its entry, and the next pass sends SIGKILL |
| `Terminations.KilledAtOnceIff` | internal/enforce/terminations.go:170-190 | a reached, exposed, killable process with a fresh entry gets SIGKILL in this escalation if and only if its deadline has come |
| `Terminations.UnbrokenIsLegitimate` | internal/enforce/terminations.go:127-191 | a log that the automaton accepts has all three properties, for every identity |
| `Terminations.Tracker.Record` | internal/enforce/terminations.go:62-70 | a signalled request waits from its recording on |
| `Terminations.Tracker.MarkEscalated` | internal/enforce/terminations.go:93-99 | flags an entry that is still there |
| `Terminations.Tracker.Entries` | internal/enforce/terminations.go:72-86 | all tracked identities, ordered by PID and start time |
| `Terminations.Enforcer.ExecutePendingKills` | internal/enforce/enforce.go:1059-1123 | every delivered request is tracked, none was before, and the log stays legitimate |
| `Terminations.Enforcer.EscalateTerminations` | internal/enforce/terminations.go:127-191 | the entries reached are those with fewer than `cancelAt` predecessors; the tracker and the log afterwards are exactly their outcomes, in order, and an allowed one is let go if and only if it is reached |
| `Terminations.Enforcer.EscalateOne` | internal/enforce/terminations.go:146-190 | one entry: spared, confirmed gone, given up, killed or kept |
| `Naming.StepKeepsNamed` | internal/store/store.go:359-1011 | when names are drawn at random every operation keeps identifiers unique and every group under one owner and one token |
| `Naming.GroupsAreHomogeneous` | internal/store/store.go:906-933 | the rows of a group are under one token, hence all managed or none |
| `Naming.RunKeepsNamed` | internal/store/store.go:359-1011 | so does every run |
| `Retention.RevokeMarksToken` | internal/store/store.go:894-1011 | a revocation that marks the reservation of a reserved token marks the token |
| `Retention.ClientOpKeepsBacked` | internal/store/store.go:359-1011 | no client operation leaves an unexpired, unrevoked reserved token without its live reservation |
| `Retention.CleanupKeepsBacked` | internal/daemon/server.go:2014-2059 | releasing ended reservations leaves every unexpired reserved token its backing |
| `Retention.PruneRetains` | internal/store/store.go:1677-1722 | pruning no later than the cleanup that found nothing wrong with an authorization keeps it |
| `Retention.PruneRetainsLease` | internal/store/store.go:1677-1722 | the same for leases |
| `Cleanup.AuthorizationLeavesIff` | internal/daemon/server.go:1703-1712 | an active authorization outside cgroups leaves at the end of a pass if and only if its grant ended, three samples in a row were clean and the release was saved; otherwise it survives release and pruning unchanged |
| `Cleanup.LeaseLeavesIff` | internal/daemon/server.go:1703-1712 | the same for leases |
| `Cleanup.OnlyCleanScopesLeave` | internal/daemon/server.go:1790-1792 | hence what a cleanup takes away has been clean three times in a row |
| `Cleanup.CleanupKeepsHealthy` | internal/daemon/server.go:1703-1712 | whatever saves fail, cleanup keeps the store invariant, unique names and the backing of reserved tokens |
| `Cleanup.OutageKeepsOthers` | internal/daemon/server.go:1901-1942 | a pass without a GPU sample leaves every authorization and lease outside cgroups exactly as it is |
| `Cleanup.ClientOpKeepsHolds` | internal/daemon/server.go:1754-1758 | no client operation deactivates or drops an authorization or lease outside cgroups |
| `Rounds.CleanRunMeansClean` | internal/daemon/server.go:1760-1792 | a counter of n means the last n assessments all found the scope clean |
| `Rounds.CleanIffQuiet` | internal/enforce/enforce.go:436-577 | a pass calls a scope clean if and only if eviction did not fail, the scope was to be assessed, and no row of the sample speaks against it, except behind a row on which the same PID is evicted |
| `Signalling.PassSendsBothIff` | internal/daemon/server.go:1668-1691 | of both batches: a process that gets SIGTERM in a pass and is reached, exposed and killable gets SIGKILL in it as well if and only if its recording plus the grace period is no later than the escalation |
| `DaemonRuns.StepThatEnds` | internal/daemon/server.go:1649-1713 | only a pass over a sample ends an active scope outside cgroups, and only with three clean rounds |
| `DaemonRuns.ScopeEndsOnlyWhenQuiet` | internal/daemon/server.go:1649-1713 | over every run of sampled passes, outages and client requests such a scope is given up only at a sampled pass, when that pass and the two sampled ones before it worked, knew it to be stale and had nothing in their own samples that speaks against it, except behind a row on which the same PID is evicted |
| `DaemonRuns.RecordedBy` | internal/daemon/server.go:1760-1788 | every round that a run counts was recorded by one of its sampled passes, about the state it started from and its own sample |
| `DaemonRuns.SignalsAreLegitimate` | internal/enforce/terminations.go:127-191 | over every run the log of signals only grows, every SIGKILL follows its SIGTERM undisturbed by at least the grace period, with at most one SIGKILL per SIGTERM and no SIGTERM while one is tracked |
| `DaemonRuns.TermsAreOrdered` | internal/daemon/server.go:1668-1691 | every SIGTERM of a run carries out a kill decision of one of its sampled passes |
| `Daemon.Server.RecordEvictionAssessment` | internal/daemon/server.go:1760-1788 | the counters are the numbers of consecutive clean assessments |
| `Daemon.Server.Evict` | internal/daemon/server.go:1668-1669 | the recorded round and its assessment are exactly those of the snapshot, the host and the sample; the decisions are exactly the rows to be evicted; every decided kill is requested or under way; failure means failed planning or an undelivered SIGTERM |
| `Daemon.Server.Police` | internal/daemon/server.go:1687 | at most eight kills; decisions as each GPU's state demands, one per row unless a lookup failed, and every abandoned claim given up |
| `Daemon.Server.Signal` | internal/daemon/server.go:1668-1691 | no PID gets two SIGTERMs in one pass, each SIGTERM goes to the process of a kill decision, every kill decision is requested or under way, every row to be evicted is decided about and every other answered unless a lookup failed; both signals in one pass exactly from the deadline on |
| `Daemon.Server.Escalate` | internal/daemon/server.go:1691 | escalation settles exactly the reached entries, continues the log and sends no SIGTERM |
| `Daemon.Server.CleanupExpiredReservations` | internal/daemon/server.go:2014-2059 | releases exactly the active reservations that were revoked or have ended |
| `Daemon.Server.CleanupExpiredAuthorizations` | internal/daemon/server.go:1956-2004 | releases exactly the ended authorizations that are ready, and reports success exactly when none had to be put off and the save came through |
| `Daemon.Server.CleanupExpiredLeases` | internal/daemon/server.go:2117-2149 | the same for leases |
| `Daemon.Server.Cleanup` | internal/daemon/server.go:1703-1712 | the state afterwards is that of the releases in order and, if nothing failed or was put off, of pruning |
| `Daemon.Server.ApplyClaims` | internal/daemon/server.go:1696-1703 | claims are stored and given up in the order of the decisions |
| `Daemon.Server.RunPass` | internal/daemon/server.go:1649-1713 | a pass over a sample, with its decisions, signals, round and new state; an active scope outside cgroups is gone afterwards only if this round and the two before it found it clean |
| `Daemon.Server.RunOutagePass` | internal/daemon/server.go:1629-1637 | without a GPU sample nothing is recorded, no scope outside cgroups changes, and the log continues with exactly one escalation |
| `Daemon.Server.Serve` | internal/daemon/server.go:1754-1758 | a client operation changes the stored state only, and ends no scope outside cgroups |
| `Daemon.Run` | internal/daemon/server.go:1611-1647 | the daemon over any sequence of tasks: its trace is that of those tasks and their samples, so scopes are given up and signals sent only as the run theorems say |
| `Slices.Append` | internal/store/store.go:717-718 | appending writes into spare capacity or a new array and adds one element |
| `Slices.FilterInPlace` | internal/store/store.go:865-877 | the x[:0] loop leaves in the same array exactly the kept elements in order |
| `Slices.Clone` | internal/store/store.go:1765-1785 | equal contents in an array of its own |
| `StoreMemory.CloneState` | internal/store/store.go:1765-1785 | a clone shares no array with its original |
| `StoreMemory.Store.SaveLocked` | internal/store/store.go:1371-1406 | working state, shadow and file agree after every outcome; the file changes exactly when the rename happened, also if the directory sync then fails |
| `StoreMemory.Store.Prune` | internal/store/store.go:1677-1753 | six in-place filters amount to pruning, saved only if a row went |
| `StoreMemory.Store.ReleaseSoftClaim` | internal/store/store.go:859-879 | the in-place filter amounts to releasing the claim |
| `StoreMemory.Store.ReleaseScopes` | internal/store/store.go:790-832 | in-place deactivation, saved if and only if some named row was active |
| `StoreMemory.Store.Revoke` | internal/store/store.go:894-1011 | in-place revocation of a group or a grant; an unknown name changes nothing |
| `StoreMemory.Store.SyncManagedUserKeys` | internal/store/store.go:130-183 | in-place rebinding and key replacement, or nothing for a known snapshot |
| `StoreMemory.Store.RegisterScheduled` | internal/store/store.go:412-461 | appends token and reservations together or nothing |
| `StoreMemory.Store.RegisterManaged` | internal/store/store.go:463-550 | appends the reservations under the admitting key or nothing |
| `StoreMemory.Store.RegisterToken` | internal/store/store.go:570-594 | appends the token within the capacity limits |
| `StoreMemory.Store.AddAuthorization` | internal/store/store.go:704-718 | appends the authorization within the capacity limits |
| `StoreMemory.Store.ActivateAuthorization` | internal/store/store.go:742-769 | records the root PID in place of an authorization that is still pending |
| `StoreMemory.Store.ReleaseAuthorization` | internal/store/store.go:771-784 | deactivates the named authorization in place |
| `StoreMemory.Store.UpsertSoftClaim` | internal/store/store.go:834-857 | replaces the claim of the same GPU and token in place, keeping its id, or appends it |
| `StoreMemory.Store.AddBypass` | internal/store/store.go:881-892 | appends the rule within the limit |
| `StoreMemory.Store.PruneInactiveManagedScopes` | internal/store/store.go:1230-1273 | drops exactly the named inactive rows that refer to cgroups |
| `StoreMemory.Store.PruneUnreferenced` | internal/store/store.go:1279-1331 | drops invalid reservations and tokens that no scope outside cgroups refers to |
| `StoreMemory.Store.Execute` | internal/store/store.go:1371-1406 | after any operation, wherever its save failed, memory, shadow and file are equal: the new state if the rename happened, else the old one; an error is reported if and only if the operation was refused or its save did not come through |
| `Telemetry.DropFirst` | internal/telemetry/telemetry.go:519-538 | removing the first segment leaves a gapless chain that starts right after it |
| `Telemetry.Outbox.Prune` | internal/telemetry/telemetry.go:519-538 | removes only a front part of the log, exactly the events of the removed segments, until size and age are within bounds |
| `Telemetry.Outbox.AppendBatch` | internal/telemetry/telemetry.go:296-356 | what reached a file is numbered consecutively and kept even if a later write fails; only a front part may be pruned, and nothing after a failure |
| `Telemetry.Outbox.Search` | internal/telemetry/telemetry.go:415 | the binary search finds the first event after the position |
| `Telemetry.Outbox.Page` | internal/telemetry/telemetry.go:383-428 | a page holds the events right after the position, as many as fit, with the cursor behind them; gaps and invalid cursors are reported exactly when the position is not retained, not of this stream or in the future |
| `Telemetry.PageProgress` | internal/telemetry/telemetry.go:417-424 | a page makes progress if and only if there is a next event and it fits the byte budget |
| `Collection.AppliedOnceInOrder` | internal/history/ingest.go:46-69 | in every interleaving with appends, pruning, stream resets, failures and replays, events of a stream are applied in strictly increasing order, each at most once |
| `Collection.NoSilentLoss` | internal/web/history_collector.go:287-333 | every number passed over after first contact lies below the earliest number of a gap the collector was told about |
| `Collection.StepKeepsInv` | internal/web/history_collector.go:287-333 | every step keeps the invariant that cursors cover what was applied or told |
| `Collection.ReplayOnlyMovesCursor` | internal/history/ingest.go:46-69 | re-applying an applied page applies nothing again |
| `Collection.TellKeepsInv` | internal/telemetry/telemetry.go:547-555 | resuming behind a gap accounts for everything below the oldest retained event |
| `Collection.FirstContact` | internal/telemetry/telemetry.go:409-411 | a reader without a cursor starts at the oldest retained event |
| `Collection.PageIsFetch` | internal/telemetry/telemetry.go:383-428 | a page of the outbox is a fetch step with consecutive numbers |
| `Timeline.Read` | internal/history/query.go:896-977 | returns exactly the limit largest (minute, gpu) rollups of the session in ascending order |
| `Timeline.CutIsNewest` | internal/history/query.go:909-928 | the newest of the per-GPU newest are the newest of all |
| `Timeline.FloorsSelect` | internal/history/query.go:929-955 | reading each GPU from its oldest kept minute selects exactly the kept keys |
| `Timeline.Candidates` | internal/history/query.go:909-919 | collects the newest limit keys of every GPU |
| `Timeline.Floors` | internal/history/query.go:931-936 | the oldest kept minute of each GPU |
| `Rollups.SplitExactIff` | internal/history/ingest.go:540-573 | each minute gains exactly the whole milliseconds of its part of the window, if and only if the window does not begin in the last millisecond of a minute and outlive it by one |
| `Rollups.AlignedSplit` | internal/history/ingest.go:575-640 | for millisecond-aligned windows each minute gains exactly the length of the intersection |
| `Rollups.LostMinute` | internal/history/ingest.go:548-551 | a window whose whole second minute is lost |
| `Rollups.MinuteNeverOverfull` | internal/history/ingest.go:575-640 | disjoint windows, in any order, credit a minute with at most 60000 ms |
| `Rollups.RowsStayWithinTheMinute` | internal/history/ingest.go:575-640 | every row of disjoint readings keeps 0 <= busy <= observed <= 60000 |
| `Rollups.Tables.ApplyPiece` | internal/history/ingest.go:587-637 | rows and summaries are the sums, and maxima for the peak, of all contributions ever applied |
| `Rollups.Tables.ApplyGPUIntervals` | internal/history/ingest.go:575-640 | the loop applies exactly the pieces of the window |
| `Rollups.Tables.RowWithinTheMinute` | internal/history/ingest.go:575-640 | as long as the readings of a GPU do not overlap, its stored rows keep 0 <= busy <= observed <= 60000 |
| `Rollups.Tables.OpenSummary` | internal/history/ingest.go:255-260 | a summary row counts from its creation on |
| `Rollups.Tables.SummaryIsWhole` | internal/history/ingest.go:255-260 | a summary row made before the first entry of its GPU is the sum of all its entries |
| `Rollups.ClipIsIntersection` | internal/history/ingest.go:492-518 | clipping a sample to its session keeps exactly the instants inside both |
| `Rollups.ClippedApart` | internal/history/ingest.go:492-518 | disjoint samples stay disjoint and aligned samples aligned after clipping |
| `Flight.OneSampleAtATime` | internal/gpusmi/gpusmi.go:92-134 | at most one coalesced sample runs at a time |
| `Flight.FreshAfterOneWait` | internal/gpusmi/gpusmi.go:92-134 | a caller that asks for nothing younger than its arrival gets a finished sample started no earlier than asked, after waiting for at most one older sample |
| `Flight.StepKeepsInv` | internal/gpusmi/gpusmi.go:92-134 | every critical section, channel event and cancellation keeps the invariant |
| `Jobs.JobTracker.TrackDecisions` | internal/daemon/telemetry.go:327-375 | a monitor pass tracks and reports exactly what the sightings of its decisions call for |
| `Jobs.JobTracker.Track` | internal/daemon/telemetry.go:327-452 | each key's events keep the form (started updated* finished)*, a key is tracked exactly while its bracket is open, and exactly the events that are due are reported: a job ends if and only if two passes in a row missed it or it was seen without any of its reservation groups |
| `Jobs.StagesAreDue` | internal/daemon/telemetry.go:375-451 | starts, updates, ends and restarts of the three loops together are exactly those due by the jobs before the pass |
| `Jobs.AfterPassTracks` | internal/daemon/telemetry.go:437-451 | tracked afterwards are the keys seen and those tracked before and not missed twice in a row |
| `Jobs.ReportsAreDue` | internal/daemon/telemetry.go:375-410 | a sighting starts a job exactly when its key was not tracked and updates it exactly when it has news |
| `Jobs.JobTracker.SeeAll` | internal/daemon/telemetry.go:348-410 | sightings start or refresh jobs, reset their misses and report only news |
| `Jobs.JobTracker.EndLostGroups` | internal/daemon/telemetry.go:411-436 | exactly the jobs seen without any of their groups end and continue in a new bracket |
| `Jobs.JobTracker.EndGone` | internal/daemon/telemetry.go:437-451 | exactly the second miss in a row ends a job |
| `Jobs.JobTracker.CompletePendingRuntimeContexts` | internal/daemon/telemetry.go:484-536 | late metadata is reported exactly for the queued jobs that are still tracked and gained some |
| `Jobs.EveryEventIsInABracket` | internal/daemon/telemetry.go:327-452 | every update and end belongs to a start of its key with nothing but updates in between |
| `Jobs.MissedTwice` | internal/daemon/telemetry.go:437-451 | a run of two misses means the last two passes did not see the key |

## Left out

- Cancellation inside regular enforcement: the context is modelled for eviction rows, kill delivery and escalation only.
- Cgroup path normalisation and matching: an oracle on paths.
- Reason texts, audit events and messages: decisions carry a reason of an enumeration; "stale pid" for a process that exists but cannot be read is not told apart from "proc info unavailable".
- Root keys, token secrets, hashing, JSON encoding, length limits of persisted values and the 64 MB state file limit: a save may fail at any of these steps, without saying which.
- Store operations that the daemon does not use (AddReservation, UpdateAuthorization, AddLease, UpdateLease, ReleaseLease, ReleaseReservation) and the audit log.
- Case folding beyond ASCII, and bytes as opposed to characters of strings.
- Container reclaim, which releases authorizations of vanished containers outside a monitor pass.
- Busy checks before a reservation, cgroup stopping and bare runs: oracles of the cleanup.
- Concurrent delivery of the SIGTERMs of one batch: they are delivered one by one, to distinct identities.
- Outbox reload from disk, partial lines, corrupted segments and the `changed` channel: the outbox lives in one process and a lost stream identity is a stream reset.
- Several collectors for one node and expiry of de-duplication marks: one collector, whose marks are kept.
- Effects of telemetry events other than GPU samples, the node-level rollups (the same splitter), session status and search.
- Floating point: integrals are real numbers.
- Order of `gpuardian run` job events, and an authorization whose stored token mode is empty, which job tracking skips and the model treats as claimed.
- SQL, HTTP, TLS, the gateway, its registry, login and fleet cache, the SDK and the user interface.
- Liveness of pruning and escalation: only safety is stated.
