# Runyard: a verified model of the coordinator and its actors

Runyard runs experiments on Docker workers or on Kubernetes. A coordinator keeps runs, attempts,
workers, GPU devices and GPU allocations in PostgreSQL; agents, a Kubernetes controller and one
runner per attempt act on what it decides. This project models that system in Dafny and proves
what its safety rests on.

`dafny verify dfyconfig.toml` checks everything.

## How the files fit together

| file | what it holds |
|---|---|
| `Base`, `Domain` | sums over maps, statuses, the transition table, retry policy and backoff, validation |
| `Tables`, `Transactions` | the tables as maps, and one function per transaction: what it commits and answers |
| `Invariants`, `Preservation`, `Steps`, `Reachability` | the invariant of every reachable state and the two-state relation `Evolves`; every transaction keeps both (`StepKeeps`) |
| `Decisions`, `Grants` | for every transaction, which answer it gives and which columns it writes, stated on the columns alone; the bodies in `Transactions` are proved to agree |
| `Lifecycle`, `Scheduling`, `Allocation`, `Recovery` | what follows over whole runs: agreement, fencing, the event history, request keys, capacity, devices, recovery progress |
| `Promises`, `Store` | what each answer tells its caller; class `PostgresStore`: the transactions as the program performs them, field by field and loop by loop, proved to commit exactly what `Transactions` says, to decide as `Decisions` and `Grants` say, to keep the invariant and to keep those promises |
| `Agent`, `Controller` | the Docker agent loops and the Kubernetes tick, interleaved with every other transaction |
| `Rounds`, `Ticks` | what one agent round and one tick achieve when nobody disturbs them |
| `Lease` | the runner's lease guard, supervisor loop and kill deadline, composed with the store |
| `Causes`, `Pacing` | which transaction closes an attempt, and how long its run then waits, exactly |
| `Exclusion`, `Overlap` | when two children of one run cannot be alive at once, and plays in which they are |
| `Reporter`, `Pipeline` | the bounded telemetry buffer as an object, and the buffer composed with the store over a lossy network |
| `MetricReader`, `LogSplit` | two incremental byte processors, proved against whole-string references |
| `Sweep`, `Codec` | grid expansion and the specification codec |
| `Witnesses` | concrete runs in which the obvious claim fails |

`Evolves` is what every transaction keeps between the state before and the state after it: moves
along the transition table recorded by one event each, write-once columns, fenced attempts frozen,
allocations, outputs, events and request keys only growing.

A run of the system is an arbitrary sequence of `Op` values: any transaction may be requested with
any arguments at any time, and time passes between them. What the program does in several
transactions is several steps here, so everything else may fall between them: a recovery pass scans
and then works through its candidates, `Poll` lists what to clean and then assigns, and a Kubernetes
tick works from a snapshot that grows stale.

## Assumptions

- Transactions are atomic, read the clock once, and the clock never runs backwards. A transaction
  that throws leaves no trace.
- There is one coordinator, one live agent process per worker id, and one ticking controller.
- SHA-256 is injective, so a fingerprint stands for the text it was computed from. A random
  identifier that is already taken makes the insert fail; nothing else is assumed of it, except that
  no other runner uses a runner's instance id.
- A container or Job call has taken effect when it returns. It may also fail at any point.
- The runner's clock and the database's advance at the same rate; their offset is arbitrary.
- Identifiers are opaque. An integer stands for an identifier's rank in the database's collation, 0
  for `@kubernetes`, positive numbers for admissible worker names and device uuids. In strings, one
  char is one byte.

## Where the obvious claim is false

Each of these has a concrete run, in `Witnesses` or `Overlap`, and an exact condition that holds for
all runs.

- Reservations need not fit a worker's current capacity, because a worker may register again with
  less (`ReservedAboveOffered`). They never exceed the largest capacity it ever registered
  (`NeverOversubscribed`), only a registration can break the bound (`WithinUntilRegistered`), and it
  does exactly when it offers less than is reserved (`RegistrationMayShrink`).
- An unacknowledged launch is not always replayed before new work: a GPU launch is passed over
  while the worker's inventory is stale (`NewWorkBeforeReplay`). `ReplayComesFirst` gives the exact
  condition.
- A completion is not confirmed again for ever (`CompletionRefusedAfterReplacement`), only until its
  attempt is replaced (`CompletionRepeats`, in both directions).
- A Kubernetes attempt carries a GPU count but holds no device rows (`KubernetesHoldsNoDevice`);
  `HoldsWhatItAskedFor` says for every attempt when it holds what it asked for.
- Two children of one run can be alive at once. The database may close an attempt, and the run start
  another, while the first child still has its termination grace. It happens with the default
  settings after a TIMEOUT and after a report that the Job is gone (`DefaultsOverlap`): recovery
  closes the attempt at its deadline although the runner has not even reacted (`TimeoutWhileAlive`),
  and a missing or finished Job closes it with lease and deadline still valid (`StoppedWhileAlive`).
  What does hold while a child lives, for every play of runner, network and other transactions:
  - As long as the attempt's deadline has not passed, and unless its end is reported before its child
    is gone, the run has launched nothing since, no other attempt of it executes, and this one does
    unless the user cancelled it (`ExclusiveUntilDeadline`).
  - After that only the retry delay keeps children apart. For a child started before its time limit
    it does, provided nobody finalizes or ends the attempt early, if and only if the shortest delay
    (the smaller of `RUNYARD_RETRY_BASE_SECONDS` and `RUNYARD_RETRY_MAX_SECONDS`) is at least
    `RUNYARD_TERMINATION_SECONDS` plus three rounds of supervisor lag (`DelaySeparates`). With the
    defaults it is 5 seconds against more than 10.
  - With no condition on launches, reports or completions it does if and only if the shortest delay
    is at least the lease less two seconds, plus three lags, to the microsecond (`LeaseSeparates`).

  A child is gone by the later of its launch and its deadline, plus the termination grace and three
  lags (`ChildIsBounded`); the deadline alone is no bound, because it is not looked at before the
  launch (`DeadlineAloneIsNoBound`).
- A worker that never named an engine may name one while attempts are unresolved
  (`EngineNamedUnderLoad`), so only a named engine is pinned by an attempt (`EngineIsPinned`, and
  `EngineChangesWhen` in both directions); a held device always implies a named engine
  (`HeldDevicePinsEngine`).

## Model

| member | source | states |
|---|---|---|
| Domain.BackoffDoublesToCap | src/domain/model.cpp:144-148 | the closed form is the schedule: base first, doubling per generation up to the cap, constant from generation 31 on |
| Domain.BackoffFits | src/domain/model.cpp:144-148 | for any 32-bit settings no 64-bit intermediate overflows and the delay is a positive 32-bit number |
| Reachability.StepKeeps | src/postgres/ownership.cpp:33-124 | every transaction, with any arguments, keeps the whole invariant and relates old and new state by `Evolves` (table moves only, write-once columns, fenced attempts frozen, allocations and outputs only grow) |
| Reachability.Reachable | src/postgres/recovery.cpp:5-60 | the invariant holds after every sequence of transactions from the empty database |
| Reachability.BatchExtendsPrefix | src/postgres/telemetry.cpp:15-27 | a batch adds exactly the sequences between the old and the new acknowledgement and touches no other row |
| Decisions.OwnerHolds | src/postgres/ownership.cpp:22-31 | the ownership check, which reads the run's pointer, generation and status, accepts exactly whoever claimed an executing attempt of that generation whose lease and deadline are ahead by its own row |
| Decisions.FailGivesUp | src/postgres/recovery.cpp:5-17 | closing an attempt as failed writes its row, the run's new status, the time of the next attempt and one event, and nothing else; the run waits exactly if the cause is worth it and an attempt is left |
| Decisions.StartDecides | src/postgres/ownership.cpp:33-70 | every answer of a claim and every column it writes: the first one before the launch deadline starts the attempt, a repeated one is confirmed, any other is refused with the source's code |
| Decisions.HeartbeatDecides | src/postgres/ownership.cpp:71-78 | an owner's lease becomes now plus the lease term and nothing else changes; who does not hold the attempt is refused |
| Decisions.FinalizeDecides | src/postgres/ownership.cpp:79-93 | the owner's first call sets status and deadline once, a later one changes nothing |
| Decisions.FinishDecides | src/postgres/ownership.cpp:94-124 | every answer of a completion and every column it writes, by the attempt's row, the exit code, the reason and the acknowledged sequence |
| Decisions.FailedExitRetries | src/postgres/ownership.cpp:117-121 | after an accepted completion with a nonzero code the run waits for another attempt if and only if the generation is below max_attempts and the reason is STOP_REQUESTED or LEASE_LOST, or TIMEOUT under retry_timeout, or any other under retry_exit; otherwise it has failed |
| Decisions.RecoverDecides | src/postgres/recovery.cpp:42-58 | a late attempt is closed with the reason of its own row, a deadline counting before the lease, and any other is left alone |
| Decisions.RecoveredRetries | src/postgres/recovery.cpp:5-17 | after a late attempt was recovered its run waits if and only if an attempt is left and, for a passed execution deadline, retry_timeout is set; otherwise it has failed |
| Decisions.JobEndDecides | src/postgres/kubernetes.cpp:49-65 | a lost Job closes the executing attempt, as TIMEOUT if its execution deadline has passed and as RUNTIME_STOPPED otherwise, and changes nothing else |
| Decisions.StoppedRetries | src/postgres/kubernetes.cpp:57-62 | after a Job was lost its run waits if and only if an attempt is left and, for a passed execution deadline, retry_timeout is set; otherwise it has failed |
| Decisions.RequeueDecides | src/postgres/recovery.cpp:18-27 | exactly the waiting runs whose pause is over are queued, with one event each |
| Decisions.CancelDecides | src/postgres/control.cpp:5-26 | cancelling writes the run, the one attempt that executes and one event; a finished run stays as it is |
| Decisions.RuntimeDecides | src/postgres/workers.cpp:105-125 | a runtime id is recorded; the end of a closed attempt marks it cleaned and releases all its devices and no other; every other report is refused with the source's code |
| Decisions.JobDecides | src/postgres/kubernetes.cpp:66-81 | the same for a Kubernetes attempt, which has no device rows |
| Decisions.CleanupDecides | src/postgres/workers.cpp:126-138 | the cleanup list is exactly the worker's attempts that are over and not yet cleaned |
| Decisions.StopDecides | src/postgres/workers.cpp:160-174 | an observed container is to stop unless its attempt executes |
| Decisions.PublishDecides | src/postgres/artifacts.cpp:18-45 | a finalizing owner is confirmed for what is stored already, conflicts with anything else under the path, and stores a new path exactly within 1 GiB and 1000 artifacts; whoever is told Done finds exactly this value under the path |
| Decisions.BatchIsStored | src/postgres/telemetry.cpp:15-27 | for records in any order and with repetitions: what lies before the first gap is stored, each new sequence with its first record, and the acknowledgement is the highest sequence among them |
| Decisions.ReportDecides | src/postgres/telemetry.cpp:5-30 | every answer of a report, and for its owner that batch stored and acknowledged up to the first gap |
| Pacing.FailurePauses | src/postgres/recovery.cpp:11-15 | whichever transaction closes an attempt of generation g as failed, its run is due exactly min(max(1, cap), max(1, base) * 2^(min(g, 31) - 1)) seconds later |
| Pacing.DelaysDouble | src/domain/model.cpp:144-148 | whatever happens between the failures of two successive generations of a run, the second makes it wait twice as long as the first, up to the cap |
| Grants.RegisterDecides | src/postgres/gpus.cpp:7-29 | every answer of a registration and the whole row it writes; only the drain flag survives |
| Grants.BeatDecides | src/postgres/workers.cpp:11-17 | the current session's heartbeat sets heartbeat_at and nothing else, any other session is refused |
| Grants.DrainDecides | src/postgres/workers.cpp:142-150 | draining sets the flag of a known worker and nothing else |
| Grants.UpsertedRefreshes | src/postgres/gpus.cpp:53-69 | after the loop over a snapshot the worker's devices in it are present with the reported name, memory and eligibility, its others are absent, and no other worker's row changed |
| Grants.InventoryDecides | src/postgres/gpus.cpp:31-75 | every answer of an inventory report and every column it writes; a failed discovery keeps the device table and the time of the last good one |
| Grants.PresentMeansReported | src/postgres/gpus.cpp:53-69 | after a recorded snapshot a device of the worker is present if and only if the snapshot lists it, and other workers' devices are unchanged |
| Grants.AssignDecides | src/postgres/workers.cpp:48-104 | every answer of a poll and every row it writes, on the columns: silence makes idle, an unanswered launch is repeated, otherwise the first due run that fits is launched, and idleness means that none fits |
| Grants.GrantedAreUsable | src/postgres/gpus.cpp:112-134 | every device of a new grant is the worker's own, present, eligible and held by nobody, and the worker is GPU capable and ready with a snapshot less than 30 seconds old |
| Grants.ReplayIsEarliest | src/postgres/workers.cpp:61-65 | the launch repeated is one that no other unanswered one precedes |
| Grants.AdmitDecides | src/postgres/kubernetes.cpp:7-37 | every answer of an admission and every row it writes: the first due run, exactly while fewer Kubernetes attempts are uncleaned than the limit |
| Grants.SubmitDecides | src/postgres/runs.cpp:53-80 | every answer of a submission and every row it writes |
| Grants.RerunDecides | src/postgres/sweeps.cpp:56-91 | every answer of a rerun and every row it writes |
| Grants.SweepDecides | src/postgres/sweeps.cpp:22-50 | a sweep is inserted with one run and one event per entry, or refused for its first bad entry without a trace |
| Lifecycle.RunsAndAttemptsAgree | src/postgres/ownership.cpp:6-124 | in every reachable state a run executes exactly when its active attempt does, with the same status and generation, and no other attempt of it executes |
| Lifecycle.GenerationsAreExact | src/postgres/workers.cpp:88-97 | a run's attempts carry the generations 1 to run.generation, once each, at most max_attempts |
| Lifecycle.StepsFollowTable | src/domain/model.cpp:30-49 | every committed status change is allowed by the table the store never calls, spends budget and is recorded by exactly one event |
| Lifecycle.EventsTellTheStatus | src/postgres/runs.cpp:41-51 | events are numbered 1..event_sequence without gaps, replaying them through the table gives the current status, a terminal event is the last, and there are at most 5 * max_attempts |
| Lifecycle.TerminalForever | src/domain/model.cpp:26-32 | a terminal run keeps its status, generation, attempt and event count whatever is requested later |
| Lifecycle.DeadForever | src/postgres/ownership.cpp:13-31 | an attempt replaced, closed or past a deadline stays so, and its telemetry, artifacts, instance and acknowledgement are frozen |
| Lifecycle.DeadIsRefused | src/postgres/ownership.cpp:22-58 | no owner request about such an attempt changes anything; only a repeated completion is answered |
| Lifecycle.FencedForever | src/postgres/ownership.cpp:99-105 | permanent fencing: refused and unchanged at every later moment of every run |
| Lifecycle.LiveIsAccepted | src/postgres/ownership.cpp:71-78 | a heartbeat is accepted exactly from the live owner with the right generation and instance |
| Lifecycle.CompletionRepeats | src/postgres/ownership.cpp:99-104 | a recorded completion is answered again exactly as long as the run still points at its attempt |
| Lifecycle.InstanceIsWriteOnce | src/postgres/ownership.cpp:50-64 | whoever claimed an attempt keeps it in every later state |
| Lifecycle.OwnershipIsBounded | src/postgres/ownership.cpp:57-93 | however often the lease is renewed, no owner acts later than created_at + launch + timeout + finalization |
| Lifecycle.KeyNamesOneRun | src/postgres/runs.cpp:58-75 | a request key names one existing run in every later state |
| Lifecycle.ReuseOfAKey | src/postgres/sweeps.cpp:56-70 | after a submission, the same key and fingerprint return the same run and any other fingerprint conflicts, both without a change, at every later moment |
| Lifecycle.ReuseOfARerunKey | src/postgres/sweeps.cpp:56-90 | after a rerun, the same key and source return the run it made and anything else conflicts, both without a change, at every later moment |
| Lifecycle.ReuseOfASweepKey | src/postgres/sweeps.cpp:22-36 | after a sweep, its key returns the same sweep to the same fingerprint and conflicts with any other, both without a change, at every later moment |
| Lifecycle.KeyMeansOneSpecification | src/http/api.cpp:229-233 | with the fingerprint of the encoded specification, a repeated key returns its run to the same specification and conflicts with any other |
| Scheduling.StepAccounted | src/postgres/workers.cpp:88-124 | for every transaction: only assign and admit insert attempts, only the owning worker's stop report or the controller's cleans one, a lease moves only to a full term from now or by cancellation, acknowledgements move only by an accepted report, and a worker's engine, CPU, memory and GPU capability only by its registration (heartbeats, drains and inventories write the rest of its row) |
| Scheduling.GrantFits | src/postgres/workers.cpp:75-85 | after an assignment the worker's reservations fit its current capacity |
| Scheduling.NeverOversubscribed | src/postgres/workers.cpp:75-97 | over every run, CPU and memory of a worker's PENDING attempts never exceed the largest capacity it ever registered |
| Scheduling.WithinUntilRegistered | src/postgres/gpus.cpp:22-27 | reservations within the current capacity stay within it through every transaction except that worker's registration |
| Scheduling.RegistrationMayShrink | src/postgres/gpus.cpp:22-27 | a registration leaves the reservations within capacity exactly when it offers at least what is reserved |
| Scheduling.GrantsFirst | src/postgres/workers.cpp:82-88 | the run granted precedes, by priority, age and id, every other run that is ready and fits |
| Scheduling.IdleMeansNothingFits | src/postgres/workers.cpp:82-87 | a live undrained worker with no launch to replay goes idle only when no ready run fits |
| Scheduling.ReplayComesFirst | src/postgres/workers.cpp:60-72 | a launch is replayed exactly when an unreported one exists whose devices need no fresh inventory, and then nothing changes |
| Scheduling.NextPollRepeats | src/postgres/workers.cpp:60-72 | the poll right after a grant returns that very attempt and no other, without a change |
| Allocation.GrantIsReplayed | src/postgres/workers.cpp:60-72 | whatever was committed after a grant: while its launch is unacknowledged a poll of the live worker replays and changes nothing, and the attempt still has the devices chosen for it |
| Allocation.AllocationIsFixed | src/postgres/gpus.cpp:124-134 | the devices of an attempt are those it was launched with, in every later state |
| Allocation.FreeUntilAssigned | src/postgres/gpus.cpp:112-123 | a free device stays free and the worker's own through every transaction that the worker's lock lets pass |
| Allocation.ClaimsNeverCollide | src/postgres/gpus.cpp:112-134 | with only the worker's lock held between query and insert, whatever else commits, every device claimed is still held by nobody and the insert keeps the unique index |
| Allocation.HoldsWhatItAskedFor | src/postgres/workers.cpp:114-121 | in every reachable state an attempt holds exactly gpu_count devices if and only if it is not a Kubernetes attempt or asked for none; they are its worker's, unreleased until it is cleaned, and a Kubernetes attempt holds none |
| Allocation.DevicesAreExclusive | migrations/006_gpus.sql:32 | in every reachable state two attempts that still pend hold disjoint devices |
| Allocation.DeviceOwnerForever | src/postgres/gpus.cpp:59-67 | a device keeps its worker in every later state |
| Allocation.EngineIsPinned | src/postgres/gpus.cpp:16-21 | no transaction changes a worker's engine, once named, while an attempt of it is unresolved |
| Allocation.EngineChangesWhen | src/postgres/gpus.cpp:16-21 | a registration with another engine is accepted exactly when none was named before or nothing is unresolved |
| Allocation.HeldDevicePinsEngine | src/postgres/gpus.cpp:9-21 | from any reachable state on, as long as a device is held its worker has a named engine, and that engine stays what it is |
| Recovery.OverdueMeansFenced | src/postgres/recovery.cpp:32-37 | the scan, which reads attempt rows only, finds exactly the executing attempts that are fenced off |
| Recovery.OverdueMeansFault | src/postgres/recovery.cpp:28-56 | what the scan finds by the attempt's status is exactly what the per-candidate check faults by the run's status |
| Recovery.RecoverFailsOverdue | src/postgres/recovery.cpp:42-58 | a candidate's transaction fails it, for the reason its row gives, exactly when it is still overdue, and otherwise changes nothing |
| Recovery.ExpiredExecutionIsTimeout | src/postgres/recovery.cpp:49-56 | an expired execution deadline is a TIMEOUT even when the lease lapsed as well |
| Recovery.OverdueUntilClosed | src/postgres/recovery.cpp:32-37 | an overdue attempt stays overdue until it is closed, and a closed one stays closed, over every run |
| Recovery.CandidateIsClosed | src/postgres/recovery.cpp:42-59 | wherever a candidate's transaction falls among others, the candidate ends up closed |
| Recovery.PassMakesProgress | src/postgres/recovery.cpp:28-59 | a pass interleaved with anything closes all it saw: at least min(100, n) of the n overdue attempts are gone |
| Promises.StartOwns | src/postgres/ownership.cpp:33-70 | whoever is told that the claim is theirs owns the attempt |
| Promises.HeartbeatRenews | src/postgres/ownership.cpp:71-78 | accepted exactly from the owner, who then has a lease of a full term |
| Promises.FinalizationOpens | src/postgres/ownership.cpp:79-93 | accepted exactly from the owner, who then owns a finalizing run |
| Promises.FinishRecords | src/postgres/ownership.cpp:94-124 | a completion is confirmed exactly when the database records that very outcome |
| Promises.CancelEnds | src/postgres/control.cpp:5-26 | a cancelled run is terminal and no attempt of it executes |
| Promises.RecoverSettles | src/postgres/recovery.cpp:42-58 | after its transaction a candidate is not overdue; if it was not before, nothing changed |
| Promises.CleanupIsComplete | src/postgres/workers.cpp:126-138 | the list has closed attempts only, and every closed attempt that still holds a device of the worker |
| Promises.StoppedIsClosed | src/postgres/kubernetes.cpp:49-65 | a stopped Job leaves no executing attempt behind |
| Store.PostgresStore.constructor | include/runyard/postgres/store.hpp:6-8 | a store starts empty and valid |
| Store.PostgresStore.Start | src/postgres/ownership.cpp:33-70 | keeps `Valid` and `Evolves`; answers and writes as `StartDecides` says; a claimant told "done" owns the attempt |
| Store.PostgresStore.Heartbeat | src/postgres/ownership.cpp:71-78 | keeps `Valid` and `Evolves`; as `HeartbeatDecides`; accepted exactly from the owner, whose lease then lasts a full term |
| Store.PostgresStore.BeginFinalization | src/postgres/ownership.cpp:79-93 | keeps `Valid` and `Evolves`; as `FinalizeDecides`; accepted exactly from the owner, whose run is then finalizing |
| Store.PostgresStore.Finish | src/postgres/ownership.cpp:94-124 | keeps `Valid` and `Evolves`; as `FinishDecides`, retry decision and pause included; confirmed exactly when that very outcome is recorded |
| Store.PostgresStore.Report | src/postgres/telemetry.cpp:5-30 | keeps `Valid` and `Evolves`; as `ReportDecides`; stores and acknowledges exactly the contiguous prefix |
| Store.PostgresStore.InsertRecords | src/postgres/telemetry.cpp:15-26 | the loop skips stored sequences, stops at the first gap and leaves the specified rows |
| Store.PostgresStore.PublishArtifact | src/postgres/artifacts.cpp:18-45 | keeps `Valid` and `Evolves`; as `PublishDecides`: an equal artifact is confirmed, a different one conflicts, a new one is stored exactly within the quota |
| Store.PostgresStore.Published | src/postgres/artifacts.cpp:34-35 | the summed sizes and the count of an attempt's artifacts |
| Store.PostgresStore.Cancel | src/postgres/control.cpp:5-26 | keeps `Valid` and `Evolves`; as `CancelDecides`; afterwards the run is terminal and no attempt of it executes |
| Store.PostgresStore.RequeueDue | src/postgres/recovery.cpp:19-27 | keeps `Valid` and `Evolves`; as `RequeueDecides`; every run whose delay elapsed is queued with its own event, no other row changes |
| Store.PostgresStore.ScanOverdue | src/postgres/recovery.cpp:28-41 | the candidates are distinct, overdue, oldest first and as many as the limit allows |
| Store.PostgresStore.RecoverOne | src/postgres/recovery.cpp:42-58 | keeps `Valid` and `Evolves`; as `RecoverDecides`, retry decision and pause included; afterwards the candidate is not overdue, and if it was not before, nothing changed |
| Store.PostgresStore.Recover | src/postgres/recovery.cpp:18-60 | an undisturbed pass equals requeueing followed by the transactions of its own scan, stays valid and closes every candidate |
| Store.PostgresStore.Submit | src/postgres/runs.cpp:53-80 | keeps `Valid` and `Evolves`; as `SubmitDecides`; the key names the run returned, with this fingerprint |
| Store.PostgresStore.Rerun | src/postgres/sweeps.cpp:56-91 | keeps `Valid` and `Evolves`; as `RerunDecides`; the key names the run returned, with its source |
| Store.PostgresStore.SubmitSweep | src/postgres/sweeps.cpp:22-50 | keeps `Valid` and `Evolves`; as `SweepDecides`: all runs of a sweep or none of them |
| Store.PostgresStore.AddEntries | src/postgres/sweeps.cpp:38-46 | the loop adds every run, or rolls back with the code of the first refusal |
| Store.PostgresStore.RegisterWorker | src/postgres/gpus.cpp:7-29 | keeps `Valid` and `Evolves`; as `RegisterDecides`; every other session is fenced and a drained worker stays drained |
| Store.PostgresStore.WorkerHeartbeat | src/postgres/workers.cpp:11-17 | keeps `Valid` and `Evolves`; as `BeatDecides`; accepted exactly from the current session, whose worker is then available |
| Store.PostgresStore.DrainWorker | src/postgres/workers.cpp:142-150 | keeps `Valid` and `Evolves`; as `DrainDecides`; a drained worker is granted nothing |
| Store.PostgresStore.ReportGpuInventory | src/postgres/gpus.cpp:31-75 | keeps `Valid` and `Evolves`; as `InventoryDecides`: after a newer good snapshot the worker's devices are present exactly if listed, as listed, and a failed discovery keeps the devices |
| Store.PostgresStore.Upsert | src/postgres/gpus.cpp:53-69 | afterwards the worker's listed devices are present as listed, its others are absent and no other worker's row changed, or the table is untouched when a device is another worker's |
| Store.PostgresStore.Assign | src/postgres/workers.cpp:48-104 | keeps `Valid` and `Evolves`; as `AssignDecides`: replay of the earliest unanswered launch, refusal, idleness, or a grant with its attempt, run, event and usable devices; names the attempt handed out |
| Store.PostgresStore.FindPending | src/postgres/workers.cpp:61-72 | the earliest unacknowledged launch, if there is one |
| Store.PostgresStore.ReservedBy | src/postgres/workers.cpp:75-80 | the sum over the worker's PENDING attempts |
| Store.PostgresStore.Feasible | src/postgres/workers.cpp:79-85 | exactly the ready runs that fit |
| Store.PostgresStore.SelectRun | src/postgres/workers.cpp:82-88 | the first candidate by priority, age and id |
| Store.PostgresStore.ReserveGpus | src/postgres/gpus.cpp:124-134 | the loop claims exactly the first devices in uuid order |
| Store.PostgresStore.RuntimeReport | src/postgres/workers.cpp:105-125 | keeps `Valid` and `Evolves`; as `RuntimeDecides`; once an end is confirmed the attempt is over, cleaned and holds no device |
| Store.PostgresStore.Cleanup | src/postgres/workers.cpp:126-138 | the list is exactly the worker's closed attempts that are not yet cleaned, and so has every closed attempt that keeps a device of it |
| Store.PostgresStore.Reconcile | src/postgres/workers.cpp:151-177 | exactly the observed containers whose attempt does not execute, and each refusal's exact condition |
| Store.PostgresStore.AdmitKubernetes | src/postgres/kubernetes.cpp:7-37 | keeps `Valid` and `Evolves`; as `AdmitDecides`: the first due run, below the limit |
| Store.PostgresStore.KubernetesStopped | src/postgres/kubernetes.cpp:49-65 | keeps `Valid` and `Evolves`; as `JobEndDecides`, retry decision and pause included; afterwards the attempt does not execute |
| Store.PostgresStore.KubernetesRuntime | src/postgres/kubernetes.cpp:66-81 | keeps `Valid` and `Evolves`; as `JobDecides`; a recorded removal frees exactly one place |
| Agent.StopsAreClosed | src/postgres/workers.cpp:160-174 | every observed container the store tells an agent to stop belongs to a closed attempt |
| Agent.StartingIsNew | src/grpc/services.cpp:127-129 | an attempt handed out by assign was neither in the cleanup list read before it nor ever reported as stopped |
| Agent.DeliverSpares | src/agent/agent.cpp:89-92 | a late or repeated stop report cleans nothing that is deployed or in hand |
| Agent.EnsureKeeps | src/agent/agent.cpp:93-103 | launching what is in hand keeps the deployment invariant |
| Agent.ActKeeps | src/agent/agent.cpp:72-112 | every step of every loop, transaction, crash, restart or late report keeps the invariant |
| Agent.RemovedIsClosed | src/agent/agent.cpp:82-92 | only a stop or a cleanup of the same worker removes a container, and then its attempt is closed |
| Agent.PhysicalExclusivity | src/agent/agent.cpp:72-112 | over every interleaving: a container exists or is in hand only while its attempt pends, no two containers share a GPU, and no step removes the container of an active attempt |
| Rounds.RoundWorks | src/agent/agent.cpp:72-112 | a round nobody disturbs leaves exactly the containers of executing attempts and of the work handed out, reports every closed attempt it had to clean, and commits that one assignment |
| Controller.InventoryKeeps | src/application/kubernetes.cpp:14-20 | despite the stale snapshot no existing Job is unknown, so the sweep of unknown Jobs removes nothing |
| Controller.AdmissionRow | src/postgres/kubernetes.cpp:13-33 | an admission happens below the limit and adds exactly one pending attempt |
| Controller.HandleKeeps | src/application/kubernetes.cpp:21-34 | acting on a stale row, whatever became of it, keeps the invariant |
| Controller.ActKeeps | src/application/kubernetes.cpp:13-41 | every step of a tick, a caught failure of one row, a deletion that completes later, an abandoned tick or another transaction keeps the invariant |
| Controller.RemovedIsClosed | src/application/kubernetes.cpp:18-26 | whatever a tick removes, at once or when a deletion completes, belongs to a closed attempt |
| Controller.ControllerSafety | src/application/kubernetes.cpp:7-41 | over every interleaving, ticks that go on past failing rows included: pending attempts and Jobs stay within the limit, a cleaned attempt has no Job and no step creates one, no tick removes an active attempt's Job |
| Ticks.SweepWorks | src/application/kubernetes.cpp:13-34 | an undisturbed tick removes the Job of every attempt that is over and owes the record of it, creates the Job of every one that has none, fails every one whose Job ended, and changes nothing else |
| Ticks.AdmissionWorks | src/application/kubernetes.cpp:35-40 | each admitted attempt gets its Job at once, and the first refusal or the fourth admission ends the tick |
| Lease.NearExpiryIsExact | src/runner/engine.cpp:44-46 | truncating to milliseconds loses nothing: the guard counts as near exactly when now plus grace reaches the guard |
| Lease.UntilIsConservative | src/runner/engine.cpp:23-24 | the guard ends two seconds before a lease granted when the request was sent |
| Lease.UntilIsTight | src/runner/engine.cpp:23-24 | the guard ends less than a millisecond before the moment two seconds ahead of that lease's end |
| Lease.LeaseGuard.constructor | src/runner/engine.cpp:23-42 | the initial guard counts from before the Start request |
| Lease.LeaseGuard.IsNearExpiry | src/runner/engine.cpp:44-46 | answers whether now plus grace reaches the guard |
| Lease.PosixProcess.constructor | src/runner/process.cpp:136-142 | no deadline, no status and no signal at first |
| Lease.PosixProcess.Stop | src/runner/process.cpp:136-142 | the kill deadline only comes closer, and SIGTERM is sent exactly when it moves |
| Lease.PosixProcess.Poll | src/runner/process.cpp:121-135 | the status is written once, SIGKILL is sent when the deadline is due and when the child is reaped, never after |
| Lease.StopsOnlyFor | src/runner/engine.cpp:96-104 | the supervisor stops its child exactly on request, after a revocation, when now plus grace reaches the guard, or at the time limit |
| Lease.ClaimLasts | src/postgres/ownership.cpp:59-64 | whoever claims an attempt after a moment has a lease of a full term from that moment, unless cancelled |
| Lease.SupervisorKeeps | src/runner/engine.cpp:97-113 | each stage of stopping reaches at most one more lag past the guard, and past the execution deadline |
| Lease.GuardIsConservative | src/runner/engine.cpp:21-52 | for any delays, losses and retries the guard ends two seconds before the server's lease, cancellation aside |
| Lease.KilledBeforeExpiry | src/runner/engine.cpp:97-113 | if three lags fit in two seconds, a child not yet killed still has a valid lease unless cancelled, and recovery cannot declare LEASE_EXPIRED |
| Lease.RecoveryNeedsDeadline | src/postgres/recovery.cpp:49-56 | recovery finds a fault with the attempt of a child that lives uncancelled if and only if a deadline kept by the database has passed |
| Lease.ChildIsBounded | src/runner/engine.cpp:96-113 | a child is gone by the later of its launch and its execution deadline, plus the termination grace and three lags |
| Causes.StepCauses | src/postgres/recovery.cpp:5-58 | for every transaction: an executing attempt is closed only by its owner's completion, its Job's end, a cancellation or a recovery with a fault; a closed one delays its run by at least the shortest retry delay, and no run starts before it is due |
| Exclusion.ExclusiveUntilDeadline | src/runner/engine.cpp:96-113 | over every play in which the attempt's end is not reported early, while a child lives before its deadline its attempt is the run's last, no other attempt executes, and its own does unless cancelled |
| Exclusion.CancelledPlay | src/postgres/control.cpp:5-26 | over every play a claimed attempt that was cancelled is the last of its run, which is over |
| Exclusion.ExclusiveByDelay | src/domain/model.cpp:144-148 | over every such play, past the deadline too, while a child that was launched in time lives its attempt is the run's last and no other executes, if the shortest retry delay covers grace and three lags |
| Exclusion.ExclusiveByLease | src/runner/engine.cpp:44-46 | over every play whatever, while a child lives its attempt is the run's last and no other executes, if the shortest retry delay covers the lease less the margin that three lags leave |
| Overlap.DelaySeparates | src/support/config.cpp:53-57 | the settings keep the children of every run apart in regular plays if and only if the shortest retry delay covers grace and three lags |
| Overlap.LeaseSeparates | src/support/config.cpp:50-57 | the settings keep them apart in all plays if and only if the shortest retry delay covers the lease less two seconds, plus three lags |
| Overlap.DefaultsOverlap | src/support/config.cpp:50-57 | with the default settings two plays reach two executing children of one run, after a timeout and after a lost Job |
| Overlap.StoppedWhileAlive | src/postgres/kubernetes.cpp:49-65 | a play in which the attempt of a living, uncancelled child with valid lease and deadline is closed because its Job is gone |
| Overlap.TimeoutWhileAlive | src/postgres/recovery.cpp:49-50 | a play in which recovery finds a TIMEOUT while the child is alive, uncancelled and validly leased |
| Overlap.DeadlineAloneIsNoBound | src/runner/engine.cpp:73-76 | a play in which a child launched late lives past its deadline, its grace and three lags |
| Witnesses.ReservedAboveOffered | src/postgres/gpus.cpp:22-27 | a run in which a worker's reservations exceed what it offers |
| Witnesses.EngineNamedUnderLoad | src/postgres/gpus.cpp:16-21 | a run in which an unnamed engine is named while an attempt is unresolved |
| Witnesses.NewWorkBeforeReplay | src/postgres/workers.cpp:61-65 | a run in which a worker is granted new work while an earlier launch is unacknowledged |
| Witnesses.CompletionRefusedAfterReplacement | src/postgres/ownership.cpp:99-105 | a run in which a confirmed completion is refused once its attempt was replaced |
| Witnesses.KubernetesHoldsNoDevice | src/postgres/kubernetes.cpp:26-31 | a run in which an executing attempt with gpu_count 1 holds no device |
| Reporting.NoticeReads | src/runner/telemetry.cpp:97-105 | the count in an overflow notice can be read back, the notice fits the room kept for it and passes validation |
| Reporting.EnqueueKeeps | src/runner/telemetry.cpp:36-49 | queueing or dropping keeps the books: byte count, bound, numbering, and every loss announced or counted |
| Reporting.AcknowledgeKeeps | src/runner/telemetry.cpp:91-107 | releasing and announcing keeps the books, so an empty queue has nothing unannounced |
| Reporting.AcknowledgeReads | src/runner/telemetry.cpp:91-108 | what stays queued, the byte count, the loss counter and the notice after an acknowledgement, on the fields |
| Reporting.ReleasesPrefix | src/runner/telemetry.cpp:93-96 | a record leaves the queue exactly when its sequence is acknowledged |
| Reporting.EmptyQueueTellsAll | src/runner/telemetry.cpp:127-134 | with an empty queue the counts in numbered notices sum to the number of dropped records |
| Reporting.Reporter.constructor | src/runner/telemetry.cpp:29-30 | an empty buffer whose first record will be number 1 |
| Reporting.Reporter.Enqueue | src/runner/telemetry.cpp:36-49 | numbers and queues the record, or counts it as dropped, or repeats the failure |
| Reporting.Reporter.TakeBatch | src/runner/telemetry.cpp:81-87 | the longest prefix within 128 records and 256 KiB, never empty while something is queued |
| Reporting.Reporter.Acknowledge | src/runner/telemetry.cpp:91-108 | pops what is acknowledged and announces losses when there is room |
| Reporting.Reporter.Flush | src/runner/telemetry.cpp:127-134 | succeeds exactly on an empty queue without failure, with the last number given and all losses announced |
| Pipeline.ServingCopies | src/postgres/telemetry.cpp:15-27 | whatever subset, order or repetition of genuine records arrives, the stored rows stay a copy of a prefix of the numbered records |
| Pipeline.UnclaimedHasNothing | src/postgres/telemetry.cpp:14-15 | over every run, an attempt nobody claimed has acknowledged nothing, so a runner's reports start at sequence 1 |
| Pipeline.ActKeeps | src/runner/telemetry.cpp:73-134 | every runner step, served batch, loss and other transaction keeps rows, queue and log linked |
| Pipeline.StoredPrefix | src/postgres/telemetry.cpp:14-29 | an attempt's rows are exactly the sequences 1..ack, and row n is the n-th record the reporter numbered |
| Pipeline.FlushIsExact | src/runner/telemetry.cpp:127-134 | a successful flush returns exactly the server's acknowledgement, then and later, and the stored notices count every dropped record |
| Pipeline.FinishAccepts | src/postgres/ownership.cpp:105-109 | with the flushed sequence an owner's completion cannot conflict over telemetry |
| Pipeline.BatchesAreValid | src/postgres/telemetry.cpp:8-11 | no batch of genuine records within the batch size is refused as malformed |
| Metrics.SplitIsExact | src/runner/telemetry.cpp:146-180 | the reference split loses and adds nothing and no piece contains a newline |
| Metrics.EndLine | src/runner/telemetry.cpp:148-171 | what ending a line adds to the outcomes, the limit notice included |
| Metrics.LimitIsFinal | src/runner/telemetry.cpp:136-137 | past line 100000 nothing more is said |
| Metrics.FedTracks | src/runner/telemetry.cpp:146-180 | one byte keeps the reader where splitting the consumed bytes puts it |
| Metrics.MetricReader.constructor | src/runner/telemetry.cpp:135-140 | a fresh reader has consumed nothing |
| Metrics.MetricReader.TakeChunk | src/runner/telemetry.cpp:143-180 | a chunk is consumed once, and the reader again stands where the split puts it |
| Metrics.MetricReader.Poll | src/runner/telemetry.cpp:135-184 | for any growth of the file and any chunking, outcomes equal those of splitting the consumed stream; each byte is consumed once and up to 64 KiB per poll |
| LogSplit.CutAtStart | src/runner/telemetry.cpp:54-55 | in well-formed text a byte that is no continuation is a character boundary |
| LogSplit.NearestStart | src/runner/telemetry.cpp:54-55 | at most three continuation bytes stand in a row, so the backward search ends |
| LogSplit.Readable | src/runner/telemetry.cpp:15-27 | the loop computes the cleaned text |
| LogSplit.CleanIsUtf8 | src/runner/telemetry.cpp:18-26 | replacing NUL keeps text well-formed |
| LogSplit.FindEnd | src/runner/telemetry.cpp:53-55 | the next cut is past the start, within 16000 bytes and at a boundary |
| LogSplit.Split | src/runner/telemetry.cpp:50-62 | the pieces concatenate to the cleaned text; each is nonempty, at most 16000 bytes and whole characters |
| LogSplit.ChunkIsAdmissible | src/domain/model.cpp:108-119 | whatever kind log() was called with, a record made of a piece passes validation and fits a batch; it is admissible exactly when it is no notice worded like the overflow notice |
| LogSplit.OwnNoticesAreAdmissible | src/runner/telemetry.cpp:158-169 | the notices the runner logs are neither changed nor split, pass validation and are not mistaken for the overflow notice |
| LogSplit.MetricIsAdmissible | src/runner/telemetry.cpp:63-72 | a metric that passed validation fits the buffer and a batch |
| Sweep.DivisionGuard | src/domain/model.cpp:156-157 | dividing the limit is exactly bounding the product |
| Sweep.CountRuns | src/domain/model.cpp:153-158 | the loop accepts exactly named nonempty dimensions with a product of at most 1000 |
| Sweep.EstimateBytes | src/domain/model.cpp:159-175 | with wrapping 64-bit additions the estimate modulo 2 to the 64, hence exact whenever the estimate is smaller |
| Sweep.EstimateCovers | src/domain/model.cpp:159-175 | no expanded specification is larger than the estimate made from the base and the grid alone |
| Sweep.ExpansionFits | src/domain/model.cpp:175-191 | unless the 64-bit estimate wrapped, all that an accepted sweep expands to fits in 16 MiB together |
| Sweep.EveryChoiceOccurs | src/domain/model.cpp:177-189 | any choice of one value per key is the combination at its index |
| Sweep.DigitsDetermine | src/domain/model.cpp:177-189 | no two indices have the same digits |
| Sweep.ExpandDimension | src/domain/model.cpp:180-187 | each specification once per value, values fastest, or an invalid one |
| Sweep.ExpandAll | src/domain/model.cpp:177-189 | succeeds exactly when every value and key may stand in a specification |
| Sweep.ExpandSweep | src/domain/model.cpp:150-191 | succeeds exactly on an acceptable grid; result i takes each key's value at the corresponding digit of i, the last key fastest, and otherwise is the base |
| Codec.RoundTrip | src/serialization/json.cpp:46-113 | decoding an encoded specification gives it back if it is valid and is refused otherwise |
| Codec.ReparsedRoundTrip | src/serialization/json.cpp:17-45 | so it is when nonnegative integers come back unsigned |
| Codec.EncodeIsInjective | src/serialization/json.cpp:46-71 | equal encodings mean equal specifications, valid or not |
| Codec.DecodeIsValid | src/serialization/json.cpp:72-113 | whatever is decoded is valid, and encoding it decodes to it again |
| Codec.DecodeIsExact | src/serialization/json.cpp:72-113 | a document is decoded to a specification if and only if it has known fields only, each field it has says that value, each one it omits has its default, and the specification is valid |
| Codec.RequestIsUnambiguous | src/serialization/json.cpp:72-113 | no document asks for two valid specifications |
| Codec.ZeroGpusMayBeOmitted | src/serialization/json.cpp:67-69 | an explicit GPU count of zero and an omitted one are the same request |

## Left out

- HTTP, gRPC, TLS, tokens and capabilities, storage backends, container and Job construction, NVML: foreign calls. A backend is the set of runtimes that exist.
- SQL text, connection pooling, leadership, migrations, locking order and deadlock freedom. Rows that FOR UPDATE SKIP LOCKED passes over are an arbitrary set.
- The columns updated_at, started_at and finished_at, event details and the descriptions of allocated devices: nothing reads them back into a decision.
- Read-only queries: paging, statistics, metrics export, capacity summaries, `telemetry`, `get_run`, `kubernetes_attempts`. They would add only easier members.
- Exceptions of the threads themselves: a failing `waitpid` and a reporter failure raised inside `MetricReader::poll`.
- The JSON parse of a metric line: a complete line is handed on as it is.
- Text that is not well-formed UTF-8: the JSON library's replacement of bad bytes happens before the modelled part of `log`.
- The text form of JSON. `Codec.ReparsedRoundTrip` covers what parsing changes in a value (unsigned integers, null for a float without a value), not number formatting.
- Overflow of the 64-bit record counter and of 64-bit row counters.
- Sweep.ExpansionFits: speaks of what the estimate counts; labels and the source fields, which the program does not count either, come on top.
- Rounds.RoundWorks: the report of the runtime id that follows a launch is a transaction of its own and not part of the round; `Decisions.RuntimeDecides` says what it writes. So it is with `Ticks`.
- Agent.ActKeeps: the agent and controller loops are state machines, not methods, because every remote call in them is a point where everything else may happen.
- Scheduling.GrantsFirst: ranks only the runs whose rows were not locked by another transaction.
- Exclusion.ExclusiveUntilDeadline: that the runner completes an attempt only after its child was reaped is a condition on the play, not derived from the rest of the runner's program.
- Lease.KilledBeforeExpiry: issuing SIGKILL is modelled, the kernel's delivery of it is not.
- Store.PostgresStore.Upsert: works through the devices in the order reported, the program in uuid order; uuids are distinct, so the result is the same.
- Store.PostgresStore.Recover: states the undisturbed pass; passes interleaved with other transactions are `Recovery.PassMakesProgress`.
