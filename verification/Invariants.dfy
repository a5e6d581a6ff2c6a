/**
 * What every reachable database state satisfies, split by the tables each part reads, and the
 * relation that every transaction keeps between the state before and the state after it.
 */
module Invariants {
  import opened Base
  import opened Domain
  import opened Tables
  import opened Transactions

  // ---- One-state invariants -------------------------------------------------------------------

  /** Foreign keys and the active pointer. */
  ghost predicate Links(runs: map<Id, Run>, attempts: map<Id, Attempt>) {
    && (forall r | r in runs ::
          runs[r].generation >= 0 && (runs[r].active.None? <==> runs[r].generation == 0))
    && (forall r | r in runs && runs[r].active.Some? ::
          && runs[r].active.value in attempts
          && attempts[runs[r].active.value].run == r
          && attempts[runs[r].active.value].generation == runs[r].generation)
    && (forall a | a in attempts ::
          attempts[a].run in runs && 1 <= attempts[a].generation <= runs[attempts[a].run].generation)
  }

  /** The UNIQUE(run_id, generation) constraint. */
  ghost predicate Distinct(attempts: map<Id, Attempt>) {
    forall a, b | a in attempts && b in attempts && attempts[a].run == attempts[b].run
                  && attempts[a].generation == attempts[b].generation :: a == b
  }

  /** The status the last attempt has once its run is no longer executing. */
  predicate Closed(run: RunStatus, attempt: RunStatus) {
    match run
    case Succeeded => attempt.Succeeded?
    case Cancelled => attempt.Cancelled? || attempt.Failed?
    case Failed => attempt.Failed?
    case RetryWait => attempt.Failed?
    case Queued => attempt.Failed?
    case _ => false
  }

  predicate Matches(run: RunStatus, attempt: RunStatus) {
    if Active(run) then attempt == run else Closed(run, attempt)
  }

  /** Run and attempt agree although no transaction checks that they do. */
  ghost predicate Agree(runs: map<Id, Run>, attempts: map<Id, Attempt>) {
    && (forall r | r in runs && Active(runs[r].status) :: runs[r].active.Some?)
    && (forall r | r in runs && runs[r].active.Some? ::
          && runs[r].active.value in attempts
          && Matches(runs[r].status, attempts[runs[r].active.value].status))
    && (forall a | a in attempts && Active(attempts[a].status) ::
          && attempts[a].run in runs
          && runs[attempts[a].run].active == Some(a)
          && runs[attempts[a].run].status == attempts[a].status)
    && (forall a | a in attempts :: !attempts[a].status.Queued? && !attempts[a].status.RetryWait?)
  }

  ghost predicate HasGeneration(attempts: map<Id, Attempt>, run: Id, generation: int) {
    exists a :: a in attempts && attempts[a].run == run && attempts[a].generation == generation
  }

  ghost predicate Dense(runs: map<Id, Run>, attempts: map<Id, Attempt>) {
    forall r, g | r in runs && 1 <= g <= runs[r].generation :: HasGeneration(attempts, r, g)
  }

  predicate Timed(a: Attempt, timeout: int, now: Time, t: Timing) {
    && a.createdAt <= now
    && a.launchDeadline == a.createdAt + Seconds(t.launch)
    && (a.status.Starting? ==>
          a.instance == "" && a.leaseUntil.None? && a.executionDeadline.None? && a.finalizationDeadline.None?)
    && (a.status.Running? || a.status.Finalizing? ==>
          a.instance != "" && a.leaseUntil.Some? && a.executionDeadline.Some?)
    && (a.status.Running? ==> a.finalizationDeadline.None?)
    && (a.status.Finalizing? ==> a.finalizationDeadline.Some?)
    && (a.executionDeadline.Some? ==>
          a.executionDeadline.value < a.launchDeadline + Seconds(timeout))
    && (a.finalizationDeadline.Some? ==>
          && a.executionDeadline.Some?
          && a.finalizationDeadline.value < a.executionDeadline.value + Seconds(t.finalization))
  }

  ghost predicate Clocked(runs: map<Id, Run>, attempts: map<Id, Attempt>, now: Time, t: Timing) {
    && (forall a | a in attempts ::
          && attempts[a].run in runs
          && Timed(attempts[a], runs[attempts[a].run].spec.timeoutSeconds, now, t))
  }

  /** The status an event leaves its run in. */
  function After(kind: EventKind): RunStatus {
    match kind
    case Submitted => Queued
    case Assigned => Starting
    case Started => Running
    case FinalizationBegun => Finalizing
    case Succeeding => Succeeded
    case RetryScheduled => RetryWait
    case GaveUp => Failed
    case Requeued => Queued
    case CancelRequested => Cancelled
  }

  predicate Consecutive(events: map<EventKey, EventKind>, run: Id, n: int) {
    && EventKey(run, n) in events && EventKey(run, n + 1) in events
    && TransitionAllowed(After(events[EventKey(run, n)]), After(events[EventKey(run, n + 1)]))
  }

  /** The events of one run are numbered 1..event_sequence and spell a path of the transition table. */
  ghost predicate RunHistory(r: Id, run: Run, events: map<EventKey, EventKind>) {
    && run.eventSequence >= 1
    && (forall n :: EventKey(r, n) in events <==> 1 <= n <= run.eventSequence)
    && events[EventKey(r, 1)] == Submitted
    && After(events[EventKey(r, run.eventSequence)]) == run.status
    && (forall n | 1 <= n < run.eventSequence :: Consecutive(events, r, n))
  }

  ghost predicate History(runs: map<Id, Run>, events: map<EventKey, EventKind>) {
    && (forall r | r in runs :: RunHistory(r, runs[r], events))
    && (forall k | k in events :: k.run in runs)
  }

  /** How many status changes a run can still make. */
  function Remaining(r: Run): int {
    var later := 5 * (r.spec.retry.maxAttempts - r.generation);
    match r.status
    case Queued => later - 1
    case Starting => later + 3
    case Running => later + 2
    case Finalizing => later + 1
    case RetryWait => later
    case _ => 0
  }

  predicate RunBudget(r: Run) {
    && 1 <= r.spec.retry.maxAttempts
    && 0 <= r.generation <= r.spec.retry.maxAttempts
    && (r.status.Queued? || r.status.RetryWait? ==> r.generation < r.spec.retry.maxAttempts)
    && r.eventSequence + Remaining(r) <= 5 * r.spec.retry.maxAttempts
    && 0 < r.spec.timeoutSeconds && 0 <= r.spec.resources.gpuCount
    && 0 < r.spec.resources.cpuMillis && 0 < r.spec.resources.memoryMib
  }

  ghost predicate Budget(runs: map<Id, Run>) { forall r | r in runs :: RunBudget(runs[r]) }

  /** Who holds which device. */
  ghost predicate Devices(workers: map<Id, Worker>, devices: map<Id, Device>) {
    && (forall w | w in workers :: w > 0)
    && (forall u | u in devices :: devices[u].worker in workers)
  }

  ghost predicate Placed(attempts: map<Id, Attempt>, workers: map<Id, Worker>) {
    forall a | a in attempts ::
      && (attempts[a].worker == KUBERNETES || attempts[a].worker in workers)
      && (Active(attempts[a].status) ==> !attempts[a].cleaned)
  }

  ghost predicate Exclusive(allocations: map<AllocationKey, bool>) {
    forall j, k | j in allocations && k in allocations && j.uuid == k.uuid
                  && !allocations[j] && !allocations[k] :: j == k
  }

  ghost predicate Backed(
    attempts: map<Id, Attempt>, devices: map<Id, Device>, allocations: map<AllocationKey, bool>)
  {
    && (forall k | k in allocations ::
          && k.attempt in attempts && k.uuid in devices
          && devices[k.uuid].worker == attempts[k.attempt].worker
          && allocations[k] == attempts[k.attempt].cleaned)
    && (forall a | a in attempts && attempts[a].worker != KUBERNETES ::
          |AllocatedTo(allocations, a)| == attempts[a].gpuCount)
  }

  /** The stored telemetry of an attempt is exactly the acknowledged prefix. */
  ghost predicate Prefixed(attempts: map<Id, Attempt>, telemetry: map<RecordKey, Record>) {
    && (forall a | a in attempts :: attempts[a].ack >= 0)
    && (forall k :: k in telemetry <==> k.attempt in attempts && 1 <= k.sequence <= attempts[k.attempt].ack)
    && (forall k | k in telemetry :: telemetry[k].sequence == k.sequence)
  }

  ghost predicate Quotas(attempts: map<Id, Attempt>, artifacts: map<ArtifactKey, Artifact>) {
    && (forall k | k in artifacts :: k.attempt in attempts)
    && (forall a | a in attempts ::
          PublishedBytes(artifacts, a) <= ARTIFACT_BYTES && |ArtifactsOf(artifacts, a)| <= ARTIFACT_COUNT)
  }

  ghost predicate Named(runs: map<Id, Run>, submissions: map<string, Submission>) {
    forall k | k in submissions :: submissions[k].target in runs
  }

  ghost predicate Core(s: State) {
    && ValidTiming(s.timing)
    && Links(s.runs, s.attempts)
    && Distinct(s.attempts)
    && Agree(s.runs, s.attempts)
    && Dense(s.runs, s.attempts)
    && Clocked(s.runs, s.attempts, s.now, s.timing)
    && Budget(s.runs)
  }

  ghost predicate Gpus(s: State) {
    && Devices(s.workers, s.devices)
    && Placed(s.attempts, s.workers)
    && Exclusive(s.allocations)
    && Backed(s.attempts, s.devices, s.allocations)
  }

  ghost predicate Outputs(s: State) {
    && Prefixed(s.attempts, s.telemetry)
    && Quotas(s.attempts, s.artifacts)
    && Named(s.runs, s.submissions)
  }

  ghost predicate Inv(s: State) {
    Core(s) && History(s.runs, s.events) && Gpus(s) && Outputs(s)
  }

  // ---- Two-state relations --------------------------------------------------------------------

  /** The attempt can no longer act for its run: replaced, closed, or past one of its deadlines. */
  predicate Dead(s: State, id: Id) {
    && Locks(s, id)
    && var a, r := s.attempts[id], s.runs[s.attempts[id].run];
    || r.active != Some(id)
    || !Active(r.status)
    || (r.status.Starting? && !LaunchValid(a, s.now))
    || (!r.status.Starting? && (!LeaseValid(a, s.now) || !DeadlineValid(a, s.now)))
  }

  predicate SameLifecycle(r: Run, r': Run) {
    r'.status == r.status && r'.generation == r.generation && r'.active == r.active
    && r'.eventSequence == r.eventSequence
  }

  /** At most one move along the transition table, recorded by exactly one event. */
  predicate RunEvolves(r: Run, r': Run, attempts: map<Id, Attempt>) {
    && r'.spec == r.spec && r'.createdAt == r.createdAt
    && (|| SameLifecycle(r, r')
        || (&& r'.eventSequence == r.eventSequence + 1
            && TransitionAllowed(r.status, r'.status)
            && if r'.status.Starting?
               then r'.generation == r.generation + 1 && r'.active.Some? && r'.active.value !in attempts
               else r'.generation == r.generation && r'.active == r.active))
  }

  predicate Fresh(r: Run) {
    r.status.Queued? && r.generation == 0 && r.active.None? && r.eventSequence == 1
  }

  ghost predicate RunsEvolve(runs: map<Id, Run>, runs': map<Id, Run>, attempts: map<Id, Attempt>) {
    && (forall r | r in runs :: r in runs' && RunEvolves(runs[r], runs'[r], attempts))
    && (forall r | r in runs' && r !in runs :: Fresh(runs'[r]))
  }

  predicate Kept(column: Option<Time>, column': Option<Time>) { column.Some? ==> column' == column }

  predicate AttemptEvolves(a: Attempt, a': Attempt) {
    && a'.run == a.run && a'.generation == a.generation && a'.worker == a.worker
    && a'.createdAt == a.createdAt && a'.launchDeadline == a.launchDeadline && a'.gpuCount == a.gpuCount
    && (a.instance != "" ==> a'.instance == a.instance && a'.node == a.node)
    && Kept(a.executionDeadline, a'.executionDeadline)
    && Kept(a.finalizationDeadline, a'.finalizationDeadline)
    && (a'.status == a.status || (Active(a.status) && !a'.status.Starting?))
    && (a.cleaned ==> a'.cleaned)
    && (a'.cleaned && !a.cleaned ==> !Active(a.status))
    && a.ack <= a'.ack
    && (Active(a.status) || a'.exitCode == a.exitCode)
  }

  ghost predicate AttemptsEvolve(attempts: map<Id, Attempt>, attempts': map<Id, Attempt>) {
    && (forall a | a in attempts :: a in attempts' && AttemptEvolves(attempts[a], attempts'[a]))
    && (forall a | a in attempts' && a !in attempts ::
          && attempts'[a].status.Starting? && attempts'[a].runtime.None? && !attempts'[a].cleaned
          && attempts'[a].ack == 0)
  }

  /** What a dead attempt keeps; only its closing status may still be written. */
  predicate Frozen(a: Attempt, a': Attempt) {
    && a'.instance == a.instance && a'.node == a.node && a'.ack == a.ack
    && a'.executionDeadline == a.executionDeadline && a'.finalizationDeadline == a.finalizationDeadline
    && (a'.leaseUntil == a.leaseUntil || a'.status.Cancelled?)
    && (a'.status == a.status || a'.status.Failed? || a'.status.Cancelled?)
  }

  ghost predicate Fenced(s: State, s': State) {
    && (forall a | a in s.attempts && Dead(s, a) :: a in s'.attempts && Frozen(s.attempts[a], s'.attempts[a]))
    && (forall k | k in s'.telemetry && k !in s.telemetry :: !Dead(s, k.attempt))
    && (forall k | k in s'.artifacts && k !in s.artifacts :: !Dead(s, k.attempt))
  }

  ghost predicate AllocationsEvolve(s: State, s': State) {
    && (forall k | k in s.allocations :: k in s'.allocations && (s.allocations[k] ==> s'.allocations[k]))
    && (forall k | k in s'.allocations && k !in s.allocations :: k.attempt !in s.attempts)
    && (forall u | u in s.devices :: u in s'.devices && s'.devices[u].worker == s.devices[u].worker)
  }

  ghost predicate Keeps(table: map<string, Submission>, table': map<string, Submission>) {
    forall k | k in table :: k in table' && table'[k] == table[k]
  }

  ghost predicate OutputsEvolve(s: State, s': State) {
    && (forall k | k in s.telemetry :: k in s'.telemetry && s'.telemetry[k] == s.telemetry[k])
    && (forall k | k in s.artifacts :: k in s'.artifacts && s'.artifacts[k] == s.artifacts[k])
    && Keeps(s.submissions, s'.submissions)
    && Keeps(s.sweeps, s'.sweeps)
    && (forall k | k in s.events :: k in s'.events && s'.events[k] == s.events[k])
  }

  ghost predicate Evolves(s: State, s': State) {
    && s'.timing == s.timing && s.now <= s'.now
    && RunsEvolve(s.runs, s'.runs, s.attempts)
    && AttemptsEvolve(s.attempts, s'.attempts)
    && Fenced(s, s')
    && AllocationsEvolve(s, s')
    && OutputsEvolve(s, s')
  }
}
