# gitops-dashboard: alert state machines and their neighbours

A Dafny 4.11 model of the parts of gitops-dashboard whose correctness depends on whole runs rather than
on single calls, with proofs of what those runs keep.

- **Alert outbox** (`AlertRows`, `RetryPolicy`, `OutboxSpec`, `OutboxLaws`, `OutboxSafety`, `OutboxRuns`,
  `AlertStore`): the tables `alert_events` and `alert_dispatches` as one value, each transaction as a function on it,
  what each promises column by column, the invariant every transaction keeps, whole runs with history counters, and a
  class whose methods do the work row by row and are proved equal to those functions.
- **Dedupe keys** (`DedupeKeys`, `DedupeOpen`, `DedupeGuards`): key file, stored fingerprint, reset marker and
  the steps of any number of opening, crashing, resetting and writing processes; what an undisturbed open decides, what
  late and failing ones do, and what a reset token is good for.
- **Route renames** (`RouteMoves`, `RouteCollision`, `RouteTurns`, `RoutePasses`, `RouteTangle`, `RouteKeys`,
  `RouteLaws`, `RouteAlerts`): the merge of colliding pending events, renames as sequences of turns, passes of turns
  without collisions, what becomes of keys and columns, and the class with the fixed-point loop over deferred edges.
- **All of these together** (`AlertRuns`, `AlertCalls`): runs that mix every transaction on the two tables, and the sink
  calls and completions along them.
- **Startup repair** (`DuplicateMerge`, `StartupRepair`): folding pending events with equal hashes into one, and
  giving up all work after a lost key.
- **Health debouncing** (`HealthDebounce`, `HealthProducer`): stable health defined on the whole history of
  observations, and the stored row that follows it one observation at a time.
- **Releases** (`ReleaseLock`, `ReleaseTool`, `ReleaseAlone`, `VersionText`, `VersionAllocator`): the remote lock
  protocol for any number of releasers, the release tool's loops as runs of that protocol, and version allocation.
- **Caching and concurrency** (`SummaryCache`, `SingleFlight`, `WorkerPool`).

Source that changes state in place is a class whose methods are proved against functions on the state they
change. Where several processes or goroutines interleave, the model is a state machine: `Next` makes one
step, a step that is not enabled changes nothing, and theorems hold for `Exec` of every sequence of actions
(in `OutboxRuns`, `AlertRuns` and `AlertCalls`, for every `Run`). `ReleaseTool` joins the two forms:
between any two commands of the method, arbitrary steps of other releasers happen, and the method is proved to
be a run of the machine.

Conventions: times are integers and a NULL time is 0 where the column allows it; row ids are never reused
(AUTOINCREMENT); SQLite write transactions are atomic steps; a dedupe hash is a constructor applied to
secret and text, so it is injective; random tokens are values not used before. In the release protocol a
remote command takes effect, if at all, before it returns, and the object of one releaser is never
installed by anybody else.

## Where the code differs from what is said about it

- The key lifecycle does not always keep pending events under the stored key. The fingerprint of a newly
  created key is written after a check, outside any transaction (`internal/storage/storage.go:295-301` and
  `:316-328`). `DedupeKeys.CoherentExactly` says exactly which runs keep the property.
- The reset flag is documented as one-shot (`README.md:185-186`). A reset that set out to complete a marked one, and
  under the lock finds that marker gone and a key in the file that is not the stored one, adopts that key without
  consulting the ledger of spent tokens (`internal/storage/storage.go:373-396`). `DedupeGuards.SpentTokenReused` is
  such a run, and `SpentExactly` says that nothing else marks
  a second reset with a spent token.
- The comment on the route merge says that both events stay byte-for-byte intact when it is deferred
  (`internal/storage/route_targets.go:435-438`). That holds for a blocking claim; a pending row that blocks
  later finds earlier rows already moved. `RouteCollision.DeferredAfterMoving` shows one such merge,
  and `IntactExactly` says exactly when nothing moves.
- The rename loop decides by statuses read before it starts (`internal/storage/route_targets.go:343-366`).
  `RouteTangle.TangledTurnsLoseWork` shows what that can do; `RouteTurns.TurnCoherentExactly` and
  `ReplayCoherentExactly` say exactly when it happens.
- Tags with impractically large components are meant not to block releases
  (`internal/ci/version.go:157-159`). `VersionAllocator.TopTagsBlockPatches` shows two that do;
  `NameTakenExactly` says, for every bump, when a new version's name is taken.
- The reset after a lost key gives every pending event the status `reset`, also where delivered or dead-lettered
  dispatches imply another one. `StartupRepair.ResetHidesDelivery` shows one, and `ResetStatusDerivedExactly` says
  which.
- The summary version is a 64-bit counter that wraps; `SummaryCache.CacheFreshExactly` and
  `StaleIsWrapped` say when a stale summary gets in, and `OvertakenReaderServesStale` shows one.

## Model

| member | source | states |
|---|---|---|
| OutboxRuns.SinkCallsBounded | internal/storage/alerts.go:394-493 | Over every run of any workers under one policy: a dispatch was claimed exactly attempts times, plus once if in flight; active dispatches are below MaxAttempts; its sink was never called more than MaxAttempts times, whatever leases expire and workers vanish |
| OutboxRuns.StatusAlwaysDerived | internal/storage/alerts.go:790-829 | In every state of every run an event is pending exactly while it has a pending or in-flight dispatch, its status is the one its dispatches imply, and a dedupe hash has at most one pending event |
| OutboxRuns.TerminalNeverReopens | internal/storage/alerts.go:149-243 | An event that is terminal anywhere in a run is, at every later point, gone or unchanged |
| OutboxRuns.ConflictUnreachable | internal/storage/alerts.go:219-228 | The "conflict without pending row" error of enqueue cannot occur in any run |
| OutboxRuns.PruneTakesNoWork | internal/storage/alerts.go:1173-1210 | No prune in any run removes a dispatch that is pending or in flight |
| OutboxRuns.ClaimCompletesOnce | internal/storage/alerts.go:536-728 | Over a whole run, record calls of one claim ID change the dispatch's status or attempts at most once |
| OutboxSafety.OnlyLiveHolderCompletes | internal/storage/alerts.go:632-728 | A record call changes a status or an attempt count only for the holder of an unexpired lease, only on its own row, by exactly one attempt; every other outcome leaves statuses, attempts and events as they were |
| OutboxRuns.ReplayAtAnyLaterTime | internal/storage/alerts.go:601-628 | Repeating a record call whose outcome was final, at any later point of the run, changes nothing and answers with the same row, also when pending was promoted to dead-lettered |
| OutboxRuns.SpentClaimChangesNothing | internal/storage/alerts.go:629-728 | A claim that has completed its dispatch once changes no status, attempt count or event by any further record call, also after requeueing and reclaiming |
| OutboxRuns.FinishedRowsFrozen | internal/storage/alerts.go:394-493 | A finished dispatch row is, at every later point of the run, gone or unchanged |
| OutboxSafety.EnqueueKeeps | internal/storage/alerts.go:149-243 | From any state satisfying the outbox invariant, enqueue keeps it and does not end in the conflict error |
| OutboxSafety.EnqueueAdds | internal/storage/alerts.go:273-339 | Enqueue rewrites no row; a stored request is one pending event of its hash with a row for every requested sink; a refused or suppressed one changes nothing |
| OutboxSafety.ClaimKeeps | internal/storage/alerts.go:355-493 | Dead-lettering expired leases and leasing the chosen rows keep the outbox invariant and never reopen an event |
| OutboxSafety.RecordKeeps | internal/storage/alerts.go:536-728 | Recording any result keeps the outbox invariant and never reopens an event |
| OutboxSafety.PruneKeeps | internal/storage/alerts.go:1173-1210 | Deleting terminal events keeps the invariant, and every dispatch deleted with them was finished |
| AlertStore.AlertStore.EnqueueEvent | internal/storage/alerts.go:149-243 | Which answer it gives and what it leaves, column by column: invalid exactly if a required field is missing, then locked, then the one pending event of the hash, then suppressed exactly while an earlier occurrence cools down, and otherwise a new pending event; a stored request has a fresh row, due at once, for each sink that had none, and nothing else changes; the conflict is never the answer; the tables are those of the specified transaction |
| AlertStore.AlertStore.ClaimPending | internal/storage/alerts.go:355-446 | The picked rows were waiting and due, or abandoned with an attempt left, as many as the limit allows and in the query's order; they are leased to the worker; abandoned rows on their last attempt are dead-lettered; live leases, rows not due and finished rows stay as they are; the tables are those of the specified transaction |
| AlertStore.AlertStore.RecordResult | internal/storage/alerts.go:536-728 | Which answer each call gets; a live holder's result is recorded as reported, except that a failure on the last attempt is a dead letter, with the delivery time exactly for a delivery and the policy's delay exactly for a retry; the tables are those of the specified transaction on every branch |
| AlertStore.AlertStore.PruneTerminal | internal/storage/alerts.go:1173-1210 | The batches together delete exactly the events that are not pending and were created before now minus the horizon, and exactly their dispatches, and return their number |
| OutboxLaws.EnqueueAnswers | internal/storage/alerts.go:149-271 | When enqueue gives which answer, in terms of the request and the columns: in both directions for each answer |
| OutboxLaws.EnqueueStores | internal/storage/alerts.go:197-293 | A stored request is one pending event of its subject, key, hash and time, and a fresh row for each sink that had none; every other answer stores nothing |
| OutboxLaws.ClaimTakesDue | internal/storage/alerts.go:408-416 | The ordered, limited choice made after dead-lettering, in terms of the rows before: only due rows, all of them below the limit, and none left behind that comes first |
| OutboxLaws.ClaimHandsOut | internal/storage/alerts.go:394-493 | What a claim writes into every row, and that live leases and finished or waiting rows are not touched |
| OutboxLaws.TextLessExactly | internal/storage/alerts.go:415-415 | Sinks are taken in the lexicographic order of their names |
| OutboxLaws.RecordAnswers | internal/storage/alerts.go:536-728 | Which answer every call gets, and which row a taken result becomes |
| OutboxLaws.RecordChanges | internal/storage/alerts.go:665-728 | A taken result replaces its own row and brings its event's status up to date; a late one only leaves its time; every other answer changes nothing |
| OutboxLaws.StatusOfOutcomes | internal/storage/alerts.go:790-829 | Each event status, as a condition on the set of outcomes of its dispatches, in both directions |
| OutboxLaws.DeliveryStartsCooldown | internal/storage/alerts.go:245-271 | Across the two transactions: a delivery that leaves its event nothing to do makes every request for the same key Suppressed until the cooldown is over |
| OutboxLaws.PrunedExactly | internal/storage/alerts.go:1173-1210 | Deleting the prunable events is the same as: exactly the events that wait for nothing and are older than the cutoff are gone, and exactly their rows |
| RetryPolicy.Backoff | internal/storage/alerts.go:1126-1145 | The doubling loop returns min(InitialInterval * 2^(attempts-1), MaxInterval) of the normalized policy, and no value it computes on the way exceeds MaxInterval |
| RetryPolicy.BackoffMonotone | internal/storage/alerts.go:1110-1145 | The delay grows with attempts and stays between InitialInterval and MaxInterval |
| DedupeKeys.CommitsUnderStoredKey | internal/storage/alerts.go:850-880 | Over every run with any crashes, resets and stale processes: whatever an enqueue or retarget commits is hashed under the key whose fingerprint is stored at that moment |
| DedupeKeys.HashesWereStoredKeys | internal/storage/alerts.go:850-880 | Every hash in the tables was written by such a commit: a process allowed to write, the event's own enqueue or retarget, under the key stored then |
| DedupeKeys.CoherentExactly | internal/storage/storage.go:232-472 | Over every run: pending events stay hashed under the stored key whenever no reset marker is set, if and only if no first fingerprint write overwrites another process's fingerprint while events are pending |
| DedupeKeys.SlowCreatorStrandsPending | internal/storage/storage.go:295-328 | A concrete run without crash or operator in which it fails: a slow creator of the key file stores its fingerprint after another process replaced the file, reset and enqueued |
| DedupeKeys.CoherentWithoutResets | internal/storage/storage.go:232-338 | If no process may reset, no crash, failed write or race separates pending events, stored fingerprint and key file |
| DedupeKeys.FingerprintFixedWithoutResets | internal/storage/storage.go:305-338 | If no process may reset, the stored fingerprint never changes once it is written |
| DedupeOpen.OpensAsDecided | internal/storage/storage.go:232-472 | From any key file, fingerprint, marker, ledger and rows that crashes may have left, an undisturbed open ends, key and tables included, exactly as one look at the starting world decides: complete a pending reset, use a matching or first key, create one, reset with leave and an unspent token, or stay latched |
| DedupeOpen.ResetRecovers | internal/storage/migrations.go:840-940 | After any run that left pending events coherent and the lock free, an undisturbed process that may reset with an unspent token ends open, with file, fingerprint and its own key equal, no marker, and pending events coherent |
| DedupeGuards.CatchesUp | internal/storage/storage.go:232-338 | An opener that others overtook - it saw no key, or a corrupt one, or lost the race to create it - ends open with the key that is there by then, and changes nothing |
| DedupeGuards.FailedCheckLatches | internal/storage/storage.go:341-472 | Every re-check of file or fingerprint that fails latches the process, gives the lock back and leaves file, fingerprint, marker, ledger and rows alone |
| DedupeGuards.WritesExactly | internal/storage/alerts.go:850-880 | A process that has just seen its key in the file writes an event exactly if no reset is under way and its key is the stored one |
| DedupeGuards.LooksFirst | internal/storage/alerts.go:850-862 | Before that it looks at the file, and latches if its key is not there |
| DedupeGuards.SpentExactly | internal/storage/storage.go:341-472 | Over every run, whatever crashes, races, resets and tokens there are: no spent reset token ever marks a reset again, if and only if no reset that rearmed - it came to complete a marked one, and finds under the lock no marker, another key in the file than the stored one, and its own token spent - gets to commit before it loses the lock |
| DedupeGuards.SpentTokenReused | internal/storage/storage.go:373-396 | A concrete run that uses a token twice: its reset is completed by another process while one that set out to complete it waits for the lock, and the key file is then restored from a backup |
| DedupeGuards.ResetsRows | internal/storage/migrations.go:840-940 | Once a process is to reset the alert rows it does that under the key in the file, also if another process has reset them in between |
| DedupeGuards.FindsRepaired | internal/storage/storage.go:360-372 | A reset that another one has made unnecessary opens with the key that is there, and changes nothing |
| DedupeGuards.FailureLatches | internal/storage/storage.go:494-550 | An error on the way latches the process, gives the lock back, and removes a key file that was not written whole |
| DedupeGuards.RearmedIsMarked | internal/storage/storage.go:373-396 | The condition is needed: a reset that came to complete a marked one, finds the marker gone and another key in the file, goes on to mark its token even if it is spent |
| RouteAlerts.RouteAlerts.ApplyDeferred | internal/storage/route_targets.go:275-334 | At most one pass more than there are edges; unless it settles no edge is deleted, if it settles exactly the edges stay that some pending or failed event still has to go along; the tables are those of the turns it ran, so claims keep everything but their event and a waiting row is moved or redundant; from coherent tables it ends coherent if and only if every turn was safe; if no turn of the run finds its new hash held by another pending event and the queue is acyclic, it settles, clears the queue, and leaves every event at a reachable target without outgoing edge, dispatches untouched; if no two pending events can meet in a hash, no turn does, whatever the order of the rows |
| RouteAlerts.RouteAlerts.PassLoop | internal/storage/route_targets.go:300-320 | The moved/settled loop runs turns of queued edges in at most one pass more than there are edges; if no turn meets a collision, the tables are those of as many passes as it made, it settles only when no edge leaves any event, and it does settle on an acyclic queue |
| RoutePasses.ApartIsClear | internal/storage/route_targets.go:275-334 | A condition on events and queue alone under which no collision occurs: no two renames that two pending events could go through, from where they are, give one the hash of the other |
| RoutePasses.ClearEdge | internal/storage/route_targets.go:342-393 | If no pending event has the hash another is about to get, neither now nor after its own move, the turns along the edge meet no collision in any order of the rows |
| RoutePasses.FreeEdge | internal/storage/route_targets.go:342-393 | Turns along one edge that meet no collision move exactly the mutable events at its source and none is postponed, also where a hash was held until its holder's own turn came |
| RouteMoves.PassesSettle | internal/storage/route_targets.go:275-334 | In an acyclic edge set as many passes as edges bring an event to a node with no outgoing edge, along a walk of queued edges |
| RouteMoves.WalkIsShort | internal/storage/route_targets.go:275-334 | No walk in an acyclic queue is longer than the queue |
| RouteAlerts.RouteAlerts.MigrateIdentity | internal/storage/route_targets.go:342-393 | One turn for every pending or failed event of the service at the old target, by the statuses and keys read before the loop, in the order of the rows; an event whose turn was not postponed ends with the new target, the key rewritten as `RouteKeys.Rekeyed` says, and its hash, and no other event changes but for a merged one's status; the tables are exactly what those turns make of them; from coherent tables it ends coherent if and only if each turn was safe; it reports whether any event was renamed and queues the edge again if any was postponed; if no turn meets a collision it moves exactly the mutable events at the source |
| RouteAlerts.RouteAlerts.MigrateOne | internal/storage/route_targets.go:367-391 | One turn gives its event the new target, its key with the old target replaced by the new one, and the hash of that, after merging the rival that holds this hash and resetting it, or changes no event if that merge clashed; the tables and answer are those of the specified turn; from coherent tables it ends coherent if and only if it was safe |
| RouteKeys.RenamesKey | internal/storage/route_targets.go:367-370 | The two replacements give exactly the key that is cut wherever the old target occurs and joined with the new one, or, if it does not occur, wherever the bare route does |
| RouteKeys.RekeyedOnce | internal/storage/route_targets.go:367-370 | That description leaves no choice: it determines the new key of every key |
| RouteKeys.TargetInKey | internal/storage/route_targets.go:367-370 | A key that holds the old target in one place keeps everything before and after it |
| RouteKeys.RouteInKey | internal/storage/route_targets.go:367-370 | So does a key that holds only the bare route, in one place |
| RouteKeys.NeitherInKey | internal/storage/route_targets.go:367-370 | A key that holds neither stays as it is |
| RouteKeys.KeysStayApart | internal/storage/route_targets.go:367-371 | Two keys that name the old target once and agree up to it, or after it, stay different |
| RouteLaws.TitlesStayApart | internal/storage/route_targets.go:342-393 | So two events whose keys differ after the old target never get one hash by a rename |
| RouteLaws.TurnsAs | internal/storage/route_targets.go:367-391 | A turn in terms of the columns: without a rival of the new key it renames its event and touches nothing else; a rival is merged and reset, or the turn is postponed |
| RouteLaws.MergesAs | internal/storage/route_targets.go:414-487 | A merge in terms of the columns: which rows clash, which are moved or given up, and when it is postponed |
| RouteLaws.EdgeMeans | internal/storage/route_targets.go:342-393 | An edge in terms of the columns: which events get a turn, and what becomes of target, key, hash and status of every event |
| RouteTurns.TurnCoherentExactly | internal/storage/route_targets.go:342-393 | A turn keeps pending events and work in step and pending hashes unique if and only if its event is still as pending as it was read, or nobody holds the new hash, or the merge would move no row to it; otherwise it strands work |
| RouteTurns.ReplayCoherentExactly | internal/storage/route_targets.go:342-393 | Any run of turns from coherent tables ends coherent if and only if each of them was safe: no later turn repairs stranded work |
| RouteTurns.UntangledIsSafe | internal/storage/route_targets.go:342-393 | If no event about to be renamed still holds a hash another one is about to get, every turn is safe in any order of the rows |
| RouteTurns.ReplayKeeps | internal/storage/route_targets.go:342-487 | Any run of turns keeps both uniqueness constraints, reopens no event, keeps everything of a claim but its event, and gives up a waiting row only if a row of another event has closed its sink |
| RouteTangle.TangledTurnsLoseWork | internal/storage/route_targets.go:342-393 | A concrete pair of events in coherent tables for which the statuses read at the start are stale: the second one, merged away by the first turn, then takes all active work as a reset event, which enqueue does not find and pruning deletes undelivered; the tables end incoherent |
| RouteTangle.TangledIsEnqueued | internal/storage/alerts.go:273-339 | Two enqueues from empty tables lead to exactly those events and rows |
| RouteAlerts.RouteAlerts.MergeRouteCollision | internal/storage/route_targets.go:414-487 | The two loops over the duplicate's rows compute the specified merge, deferral included |
| RouteCollision.ClaimsVerbatim | internal/storage/route_targets.go:435-449 | A claim in flight keeps its row, worker, token, lease and attempts; at most its event becomes the keeper |
| RouteCollision.NoSinkLost | internal/storage/route_targets.go:451-474 | Work active on either event before is afterwards still active on the same row, or the keeper has closed that sink |
| RouteCollision.DuplicateDrained | internal/storage/route_targets.go:475-487 | The duplicate has active dispatches left if and only if the merge was deferred |
| RouteCollision.IntactExactly | internal/storage/route_targets.go:435-474 | A merge leaves all rows as they were if and only if a claim blocks it or its first row does; a later blocking row finds earlier rows already moved |
| RouteCollision.DeferredAfterMoving | internal/storage/route_targets.go:451-474 | A concrete merge that is deferred by its second row after the first was moved to the keeper |
| RouteCollision.MergeKeepsSchema | internal/storage/route_targets.go:414-487 | (event, sink) stays unique through the merge |
| RouteCollision.MergeKeepsCoherence | internal/storage/route_targets.go:395-487 | The merge of two pending events keeps pending status and undelivered work in step and pending hashes unique |
| RouteCollision.RetargetStaysUnique | internal/storage/route_targets.go:372-388 | After an undeferred merge, giving the keeper the destination hash keeps pending hashes unique |
| StartupRepair.StartupStore.ReconcileDuplicates | internal/storage/migrations.go:1145-1221 | Afterwards pending hashes and (event, sink) are unique; it reports a change exactly when pending hashes were not; every duplicated hash's group is folded into its newest event, where per sink the row survives that `DuplicateMerge.GroupSurvivor` describes, and all other events and rows are untouched |
| StartupRepair.StartupStore.MergeDuplicateDispatches | internal/storage/migrations.go:1239-1318 | The row-by-row loop computes the specified merge of a pair whatever order the rows come in; per sink the preferred one of the two rows survives on the keeper as it was |
| StartupRepair.PartPairStep | internal/storage/migrations.go:1239-1318 | One iteration of that loop, from any part already merged, settles one sink as the finished merge does and nothing else |
| DuplicateMerge.GroupRepaired | internal/storage/migrations.go:1166-1210 | For each sink of a merged group: a delivered or skipped dispatch anywhere closes the keeper's and leaves no active one in the group; otherwise any active one survives as the keeper's only one |
| DuplicateMerge.GroupKeepsBest | internal/storage/migrations.go:1402-1431 | Where no row of a group is closed for a sink, the keeper ends with exactly one row for it: the row preferred to every other of the whole group, verbatim but for its event, whatever order the group is merged in |
| DuplicateMerge.GroupSurvivor | internal/storage/migrations.go:1239-1431 | The ranking in plain terms: if the group has a row for a sink, the keeper ends with exactly one, as it was but for its event; it is served if any of them was, else in flight if any was, else waiting, else dead-lettered, and of those the one written last, with the highest id |
| StartupRepair.StartupStore.ReconcileGroup | internal/storage/migrations.go:1198-1217 | Merging the group's events one by one into the newest is the specified fold; the duplicates end failed and the keeper with its derived status |
| DuplicateMerge.MergePairSink | internal/storage/migrations.go:1239-1318 | The same for one pair, both directions |
| DuplicateMerge.MergePairUnique | internal/storage/migrations.go:1239-1318 | (event, sink) stays unique through the merge of a pair |
| StartupRepair.ResetLeavesNothingPending | internal/storage/migrations.go:874-938 | The reset after a lost key leaves no pending event and no active dispatch, touches nothing finished, and keeps both uniqueness constraints |
| StartupRepair.ResetStatusDerivedExactly | internal/storage/migrations.go:874-938 | The status the reset writes into a pending event is the one its dispatches imply if and only if none of them was delivered, skipped or dead-lettered |
| StartupRepair.ResetHidesDelivery | internal/storage/migrations.go:874-938 | A concrete pending event, delivered to one sink and waiting for another, that the reset calls reset while its rows say delivered |
| AlertRuns.CoherentRunsExactly | internal/storage/alerts.go:149-829 | Over every run that mixes enqueue, claim, record and prune with resets and renames: events are pending exactly while they have undelivered work and pending hashes are unique in every state, if and only if no rename ran an unsafe turn |
| AlertCalls.SinkCallsBounded | internal/storage/alerts.go:149-829 | Over every run that mixes enqueue, claim, record, prune, reset, rename and sink calls, also with unsafe renames: no dispatch has its sink called more than maxAttempts times, every call was claimed, and for work still to do the claims are its attempts plus the one in flight |
| AlertCalls.ClaimCompletesOnce | internal/storage/alerts.go:149-829 | Over the same runs one claim completes one dispatch at most once |
| StartupRepair.StartupStore.ResetAlertState | internal/storage/migrations.go:874-938 | The two updates compute the specified reset and report whether any row changed |
| StartupRepair.RepairedUnique | internal/storage/migrations.go:1145-1221 | With all duplicated hashes handled, no two pending events share a hash |
| HealthProducer.Producer.Produce | internal/storage/status.go:698-833 | The row after each committed observation is the one that the whole history calls for; an event is handed to the outbox exactly when the history-defined stable health changes, under its key, from the stored stable health to the observed one; with increasing times a rollup that differs from the stored one and has lasted - enough different check results, and the debounce time since it began - is always reported and stored, unless the outbox refuses; a failed transaction changes nothing; with increasing times the "edge was not persisted" error cannot occur |
| HealthDebounce.EdgeEndsStableRun | internal/storage/status.go:777-797 | Every change of stable health ends an unbroken run of observations of one incarnation with that rollup, with at least StabilitySamples consecutive-distinct identities, begun at least Debounce earlier |
| HealthDebounce.LastingIsStable | internal/storage/status.go:777-797 | The converse: a rollup that was observed without a break since it began, with enough different check results and for the debounce time, is the stable health |
| HealthDebounce.EdgeExactly | internal/storage/status.go:777-797 | Within an incarnation the stable health changes if and only if the observed rollup differs from it and has lasted |
| HealthDebounce.StretchIsStable | internal/storage/status.go:790-792 | With increasing times, any unbroken stretch that is long and varied enough will do, wherever the run began |
| HealthDebounce.TransitionCarriesStart | internal/storage/status.go:815-822 | The key of any change but a recovery carries the time its run began |
| HealthDebounce.SamplesCount | internal/storage/status.go:777-785 | The sample count of a run is one plus its number of changed observation identities |
| HealthDebounce.TroubleIsFirst | internal/storage/status.go:745-788 | Unless the service is fully healthy, its failure start is a non-healthy observation, with nothing fully healthy since |
| HealthDebounce.RecoveryCarriesFirstFailure | internal/storage/status.go:799-819 | A recovery's key carries the time of the first non-healthy observation since the last fully healthy state of that incarnation |
| HealthDebounce.KeysDistinct | internal/storage/status.go:813-820 | With strictly increasing observation times no two emitted dedupe keys are equal |
| HealthProducer.RowTimes | internal/storage/status.go:745-833 | In the row that belongs after any history, failure start is empty exactly when stable and candidate health are both healthy, and the candidate has a start exactly when it differs from the stable health |
| HealthProducer.ReevaluationAddsNothing | internal/storage/status.go:777-785 | Evaluating unchanged check results again neither adds a sample nor restarts the candidate |
| HealthProducer.KeyOfRow | internal/storage/status.go:813-820 | Failure start and candidate start are present whenever a key is built, so the fallback occurrence is never used, and the key is the history's |
| HealthDebounce.AggregateTargetHealth | internal/storage/status.go:553-594 | The flag loop computes the rollup of the set of applicable healths: independent of order and repetition, and never "not applicable" |
| ReleaseLock.MutualExclusion | cmd/release/main.go:990-1027 | For any number of releasers, lost answers, failed probes and kills: no two are between a successful acquisition and their own delete at once, and the one inside owns the remote lock |
| ReleaseLock.NoForeignDelete | cmd/release/main.go:1049-1096 | If a releaser's lock was on the remote at one point of a run and is not at a later one, its own delete push took effect in between, and nothing removed or replaced the lock before |
| ReleaseLock.PublishingIsExclusive | cmd/release/main.go:901-985 | Listing, allocation, tagging and pushing happen only while the remote lock is the releaser's own, so at most one releaser is doing them |
| ReleaseLock.NoSilentStranding | cmd/release/main.go:990-1027 | A releaser that has ended without a cleanup error has no lock of its own on the remote, then or later |
| ReleaseLock.PublishedIsComplete | cmd/release/main.go:895-985 | A publish without error: the tag was seen on the remote at the released commit while the lock was held, as the very object it made if it made one; its lock was deleted by itself; no tag object of its making is left in its clone |
| ReleaseAlone.UndisturbedPublish | cmd/release/main.go:895-985 | Left alone, with the lock free and a tag unknown to remote and clone, publish ends without error: one new tag object at its commit on the remote, lock and clone as they were |
| ReleaseTool.Tool.Publish | cmd/release/main.go:895-985 | The method with its deferred cleanup is a run of the protocol under any interference, reports no error exactly when the protocol ends published and clean, and then has the properties above |
| ReleaseTool.Tool.AcquireLock | cmd/release/main.go:990-1027 | The three-attempt loop ends in the protocol's entry into publish or its failed end, with a cleanup error exactly when the lock may be stranded |
| ReleaseTool.Tool.ReleaseLock | cmd/release/main.go:1049-1096 | The probe, delete and verify loop ends in the protocol's release, with an error exactly when three rounds did not settle it |
| ReleaseTool.Tool.PushLoop | cmd/release/main.go:957-985 | Two pushes, each settled by a probe: success exactly when the probe found the releaser's own object at the tag |
| ReleaseAlone.AcquireRetries | cmd/release/main.go:990-1027 | Taking the free lock survives two rounds of lost commands and a push whose answer was lost; after a third lost round the releaser gives up and cleans up |
| ReleaseAlone.ReleaseRetries | cmd/release/main.go:1049-1096 | Giving it back survives two unanswered reads and a delete whose answer was lost; a third unanswered read is reported as stranding |
| ReleaseAlone.PushRetries | cmd/release/main.go:957-985 | A lost tag push is repeated once, one that arrived is recognised by its object, and a second lost one fails |
| VersionAllocator.Allocate | internal/ci/version.go:170-204 | The loop's result is the specified allocation of the set of tags, so tag order and repetition do not matter |
| VersionAllocator.ReuseMeans | internal/ci/version.go:170-232 | A version is reused if and only if the source already carries a release of this kind, and then it is the highest of them; only an unsupported bump is refused |
| VersionAllocator.NewMeans | internal/ci/version.go:170-261 | A new version is the highest one there is, or 0.0.0, with the counted component one higher and the lower ones zero, leaving out versions whose component has no room within 64 bits |
| VersionAllocator.NewIsAbove | internal/ci/version.go:234-261 | A new version fits 64 bits, has its bump's shape and is strictly above every incrementable tag |
| VersionAllocator.RetryReturnsSame | internal/ci/version.go:214-232 | Once attached to its source an allocated version is what the same request returns as reused, whatever tags of other commits or other shapes are added |
| VersionAllocator.NameTakenExactly | internal/ci/version.go:234-261 | For every bump: a new version's name exists already if and only if the highest incrementable version is one below the largest 64-bit component and another commit carries the version that follows it |
| VersionAllocator.AllocationUnique | internal/ci/version.go:170-200 | The specification leaves no choice: two allocations of the same set of tags, in any order or repetition, are equal |
| VersionAllocator.TopTagsBlockPatches | internal/ci/version.go:157-204 | Two foreign tags at the top of the range make every patch allocation return an existing tag, although such tags are meant not to block releases |
| VersionText.TagRoundTrip | internal/ci/version.go:263-293 | A tag parses to a version if and only if it is the version's canonical text and the components fit 64 bits |
| VersionAllocator.LessIsStrictTotal | internal/ci/version.go:282-290 | Version precedence is a strict total order, as section 11 of Semantic Versioning 2.0.0 requires |
| SummaryCache.CacheCoherent | internal/storage/summary_cache.go:19-71 | Once every commit has run its invalidation, whatever the cache would serve equals the current database in all its tables and holds no expired applicable status, unless a reader stored its summary after a whole number of times 2^64 invalidations |
| SummaryCache.CacheFreshExactly | internal/storage/summary_cache.go:19-71 | Over every run: with no invalidation outstanding the cached summary is the current database in every state, if and only if no reader stored under the current version what the database no longer holds |
| SummaryCache.StaleIsWrapped | internal/storage/summary_cache.go:44-63 | Such a store can only happen after a whole number of times 2^64 invalidations since the reader read the version |
| SummaryCache.OvertakenReaderServesStale | internal/storage/summary_cache.go:44-63 | A reader overtaken by exactly 2^64 invalidations has its stale summary served |
| SummaryCache.Store.CachedSummary | internal/storage/summary_cache.go:19-36 | A copy is served if and only if its version is current, it is younger than the TTL and no applicable status in it has expired |
| WorkerPool.StartsInWave | internal/monitor/http_routes.go:163-200 | In a greedy in-order pool with checks of at most T, check j starts by floor(j / workers) * T |
| WorkerPool.FinishesInWaves | internal/monitor/monitor.go:464-472 | With min(c, n) workers every check ends within timeoutWaves(n, c) * T |
| WorkerPool.RoutesMeetDeadline | internal/monitor/http_routes.go:207-225 | Every route check, two request timeouts at most, ends a full margin before the run's deadline, also when fewer checks are queued than were counted |
| WorkerPool.PingsMeetDeadline | internal/monitor/ping.go:336-401 | Every ping ends a full margin before the run's deadline |
| WorkerPool.DeadlinesExactly | internal/monitor/monitor.go:464-472 | The deadlines are no longer than that: exactly as many waves of eight or sixteen are counted as the checks fill, and two seconds on top |
| WorkerPool.RunPool | internal/monitor/http_routes.go:163-200 | Draining the queue by giving each job to a worker that is free first produces a greedy schedule with the specified start times |
| SingleFlight.CallerGetsItsRun | internal/scanner/repo_singleflight.go:27-89 | Every caller not ended by its own context got exactly the result of one finished run of its key: the run registered when it held the group lock, or the one it registered there; never a result before it was written |
| SingleFlight.OneRunPerKey | internal/scanner/repo_singleflight.go:27-89 | At most one run per key is under way, and it is the registered one |
| SingleFlight.CallKept | internal/scanner/repo_singleflight.go:45-51 | A run's key and, once written, its result never change |
| SingleFlight.RepoOperationGroup.Join | internal/scanner/repo_singleflight.go:27-43 | The first locked section joins the registered call or registers the given one, and says which |

## Left out

- SQL text, schema creation and repair, busy retries, PRAGMA inspection, JSON columns: tables are mathematical state.
- Redaction, trimming, and the `last_error`, `message` and `reason` texts: no decision in the modelled code reads them.
- Events with an empty dedupe hash, the backfill passes and `reconcileLegacyAlertEventStatuses`: they predate the invariants.
- DedupeOpen.OpensAsDecided: of an open that other processes do not disturb; under interference only the safety theorems of `DedupeKeys` are stated.
- Key file permissions, directory sync and the twenty short re-reads of a bad key file: a re-read is one step that sees the file as it is then.
- DedupeKeys.CoherentWithoutResets: a sufficient condition only; the exact condition for all runs is CoherentExactly.
- RouteAlerts.RouteAlerts.ApplyDeferred: that it settles and where events end is shown for runs in which no turn finds its new hash held, as promised; with collisions it may end settled with a postponed edge still queued, and then the pass bound, the queue and the tables are those of its turns.
- Other effects of a route replacement (overrides, status rows, history) and the SQL errors on the way.
- HealthProducer.Producer.Produce: the outbox is its answer (refused, stored, or an earlier event kept); the enqueue transaction itself is `OutboxSpec.Enqueue`. The branch for a not-applicable rollup is absent because no rollup is; the observation identity is the set of status rows, which the joined text stands for as long as targets contain no control characters.
- AlertRuns.CoherentRunsExactly: deliveries touch no row and are absent here (`AlertCalls` has them); startup repair changes nothing in coherent tables, as `StartupStore.ReconcileDuplicates` states.
- The health cleanup lock of the store, and deletion of health state rows with their services.
- ReleaseLock.MutualExclusion: an operator who deletes the lock ref by hand is not modelled, nor a push that takes effect after it returned.
- Tag objects: the model names one by its releaser. In the source two releasers that tag the same commit with the same name in the same second build the same object; then the probe of one would accept the push of the other, which is the same tag.
- GitHub workflow checks and dispatch around the release, and the rendering of Git commands.
- SummaryCache.CacheCoherent: covers writers of the same process; other processes have their own cache, which only its TTL bounds. A lookup is taken to happen at one instant, and cloning of slices is not modelled.
- WorkerPool.RunPool: channels and goroutines are modelled as the schedule they produce; context cancellation and the writing of results are not.
- A panic in an operation under single flight, which would leave its key registered.
- The alerter's sink clients and its logging: a delivery is one step, at most one per claimed dispatch.
- HTTP handlers, WebSocket plumbing, Docker, Kubernetes and Git clients, configuration, authentication and the web UI: I/O or branch-by-branch validation.
