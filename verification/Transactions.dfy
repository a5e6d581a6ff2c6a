/**
 * One function per transaction of PostgresStore: the state it commits and what it answers.
 * A refused transaction rolls back, so its state is the one it started from. Each transaction
 * reads the clock once; `skipped` stands for the rows that FOR UPDATE SKIP LOCKED passes over.
 */
module Transactions {
  import opened Base
  import opened Domain
  import opened Tables

  datatype Reply =
    | Done
    | Refused(code: ErrorCode)
    | Idle
    | Replayed                  // an unacknowledged launch is handed out again
    | Granted(attempt: Id)
    | Acked(sequence: int)
    | RunIs(run: Id)

  datatype Tx = Tx(state: State, reply: Reply)

  // ---- Submission -----------------------------------------------------------------------------

  function AddRun(s: State, id: Id, spec: RunSpec, sweep: Option<Id>, parent: Option<Id>): State {
    Commit(s, id, NewRun(spec, s.now, sweep, parent), Submitted)
  }

  /** A request key: either it is new, or it answers with what it named before. */
  function Submit(s: State, spec: RunSpec, key: string, fingerprint: Fingerprint, id: Id): Tx {
    if !ValidSubmission(spec) then Tx(s, Refused(Invalid))
    else if key in s.submissions then
      if s.submissions[key].fingerprint != fingerprint then Tx(s, Refused(Conflict))
      else Tx(s, RunIs(s.submissions[key].target))
    else if id in s.runs then Tx(s, Refused(Unavailable))
    else
      Tx(AddRun(s, id, spec, None, None).(submissions := s.submissions[key := Submission(fingerprint, id)]),
         RunIs(id))
  }

  function Rerun(s: State, source: Id, key: string, id: Id): Tx {
    if key in s.submissions then
      if s.submissions[key].fingerprint != OfRerun(source) then Tx(s, Refused(Conflict))
      else Tx(s, RunIs(s.submissions[key].target))
    else if source !in s.runs then Tx(s, Refused(NotFound))
    else if !Terminal(s.runs[source].status) then Tx(s, Refused(Conflict))
    else if !ValidSubmission(s.runs[source].spec) then Tx(s, Refused(Invalid))
    else if id in s.runs then Tx(s, Refused(Unavailable))
    else
      Tx(AddRun(s, id, s.runs[source].spec, None, Some(source))
           .(submissions := s.submissions[key := Submission(OfRerun(source), id)]),
         RunIs(id))
  }

  datatype Entry = Entry(id: Id, spec: RunSpec)

  /** Insert the expanded runs in order; None when one is refused, which aborts the sweep. */
  function AddRuns(s: State, entries: seq<Entry>, sweep: Id): Option<State> {
    if entries == [] then Some(s)
    else
      var prefix := AddRuns(s, entries[..|entries| - 1], sweep);
      var e := entries[|entries| - 1];
      if prefix.None? || !ValidSubmission(e.spec) || e.id in prefix.value.runs then None
      else Some(AddRun(prefix.value, e.id, e.spec, Some(sweep), None))
  }

  /** The first refusal decides the error code: a bad specification or a clashing identifier. */
  function SweepError(s: State, entries: seq<Entry>, sweep: Id): ErrorCode
    requires AddRuns(s, entries, sweep).None?
  {
    var prefix := AddRuns(s, entries[..|entries| - 1], sweep);
    if prefix.None? then SweepError(s, entries[..|entries| - 1], sweep)
    else if !ValidSubmission(entries[|entries| - 1].spec) then Invalid
    else Unavailable
  }

  function SubmitSweep(s: State, entries: seq<Entry>, key: string, fingerprint: Fingerprint, id: Id): Tx {
    if key in s.sweeps then
      if s.sweeps[key].fingerprint != fingerprint then Tx(s, Refused(Conflict))
      else Tx(s, RunIs(s.sweeps[key].target))
    else if exists k :: k in s.sweeps && s.sweeps[k].target == id then Tx(s, Refused(Unavailable))
    else
      var added := AddRuns(s, entries, id);
      if added.None? then Tx(s, Refused(SweepError(s, entries, id)))
      else Tx(added.value.(sweeps := s.sweeps[key := Submission(fingerprint, id)]), RunIs(id))
  }

  // ---- Workers and devices --------------------------------------------------------------------

  predicate Session(s: State, worker: Id, session: string) {
    worker in s.workers && s.workers[worker].session == session
  }

  datatype Registration = Registration(session: string, cpuMillis: int, memoryMib: int, engine: string, capable: bool)

  predicate ValidRegistration(id: Id, r: Registration) {
    && id > 0
    && 0 < |r.session| <= 200
    && r.cpuMillis > 0 && r.memoryMib > 0
    && |r.engine| <= 200
    && (r.capable ==> r.engine != "")
  }

  ghost function Register(s: State, id: Id, r: Registration): Tx {
    if !ValidRegistration(id, r) then Tx(s, Refused(Invalid))
    else if id in s.workers && s.workers[id].engine != "" && s.workers[id].engine != r.engine
            && Pending(s.attempts, id) != {} then Tx(s, Refused(Conflict))
    else
      var drained := id in s.workers && s.workers[id].drained;
      var w := Worker(r.session, r.cpuMillis, r.memoryMib, drained, s.now, r.engine, r.capable, false, 0, None);
      Tx(s.(workers := s.workers[id := w]), Done)
  }

  function WorkerHeartbeat(s: State, id: Id, session: string): Tx {
    if !Session(s, id, session) then Tx(s, Refused(Stale))
    else Tx(s.(workers := s.workers[id := s.workers[id].(heartbeatAt := s.now)]), Done)
  }

  function Drain(s: State, id: Id, drained: bool): Tx {
    if id !in s.workers then Tx(s, Refused(NotFound))
    else Tx(s.(workers := s.workers[id := s.workers[id].(drained := drained)]), Done)
  }

  datatype Observed = Observed(uuid: Id, name: string, memoryMib: nat, eligible: bool, reason: string)

  /** A uuid above 0 stands for an admissible "GPU-..." identifier. */
  predicate ValidSnapshot(sequence: int, devices: seq<Observed>) {
    && sequence > 0 && |devices| <= 64
    && (forall i | 0 <= i < |devices| ::
          && devices[i].uuid > 0 && |devices[i].name| <= 200 && |devices[i].reason| <= 500
          && devices[i].memoryMib <= 1048576)
    && (forall i, j | 0 <= i < j < |devices| :: devices[i].uuid != devices[j].uuid)
  }

  predicate Foreign(s: State, worker: Id, uuid: Id) { uuid in s.devices && s.devices[uuid].worker != worker }

  /** The device table after the first n observations of a ready snapshot. */
  function Upserted(devices: map<Id, Device>, worker: Id, seen: seq<Observed>): map<Id, Device> {
    if seen == [] then
      map u | u in devices :: if devices[u].worker == worker then devices[u].(present := false) else devices[u]
    else
      var o := seen[|seen| - 1];
      Upserted(devices, worker, seen[..|seen| - 1])[o.uuid := Device(worker, o.name, o.memoryMib, o.eligible, true)]
  }

  function ReportInventory(
    s: State, worker: Id, session: string, sequence: int, ready: bool, devices: seq<Observed>): Tx
  {
    if !ValidSnapshot(sequence, devices) then Tx(s, Refused(Invalid))
    else if !Session(s, worker, session) then Tx(s, Refused(Stale))
    else if !s.workers[worker].gpuCapable then Tx(s, Refused(Conflict))
    else if sequence <= s.workers[worker].gpuSequence then Tx(s, Done)
    else if ready && exists i | 0 <= i < |devices| :: Foreign(s, worker, devices[i].uuid) then Tx(s, Refused(Conflict))
    else
      var w := s.workers[worker];
      var w' := w.(gpuSequence := sequence, gpuReady := ready,
                   gpuObservedAt := if ready then Some(s.now) else w.gpuObservedAt);
      Tx(s.(workers := s.workers[worker := w'],
            devices := if ready then Upserted(s.devices, worker, devices) else s.devices), Done)
  }

  // ---- Scheduling -----------------------------------------------------------------------------

  predicate Available(s: State, w: Worker) { w.heartbeatAt > s.now - Seconds(s.timing.worker) }

  predicate GpuAvailable(s: State, w: Worker) {
    w.gpuCapable && w.gpuReady && w.gpuObservedAt.Some? && w.gpuObservedAt.value > s.now - Seconds(30)
  }

  /** An assignment this worker was given and has not acknowledged with a runtime id. */
  predicate Unacknowledged(s: State, worker: Id, a: Id) {
    && worker in s.workers
    && Locks(s, a)
    && var x := s.attempts[a];
    && s.runs[x.run].active == Some(a) && x.worker == worker && x.status.Starting?
    && x.runtime.None? && LaunchValid(x, s.now)
    && (x.gpuCount == 0 || GpuAvailable(s, s.workers[worker]))
  }

  /** ORDER BY created_at LIMIT 1 leaves ties open. */
  ghost predicate Replayable(s: State, worker: Id, a: Id) {
    && Unacknowledged(s, worker, a)
    && forall b | Unacknowledged(s, worker, b) :: s.attempts[a].createdAt <= s.attempts[b].createdAt
  }

  ghost function UsableDevices(s: State, worker: Id): set<Id>
    requires worker in s.workers
  {
    if GpuAvailable(s, s.workers[worker]) then FreeDevices(s, worker) else {}
  }

  ghost predicate Fits(s: State, worker: Id, r: Run)
    requires worker in s.workers
  {
    && (forall kind :: Demand(r.spec, kind) <= Capacity(s.workers[worker], kind) - Reserved(s, worker, kind))
    && r.spec.resources.gpuCount <= |UsableDevices(s, worker)|
  }

  predicate Ready(s: State, r: Run) { r.status.Queued? && r.availableAt <= s.now }

  ghost function Candidates(s: State, worker: Id, skipped: set<Id>): set<Id>
    requires worker in s.workers
  {
    set r | r in s.runs && r !in skipped && Ready(s, s.runs[r]) && Fits(s, worker, s.runs[r])
  }

  function Reserve(allocations: map<AllocationKey, bool>, attempt: Id, uuids: set<Id>): map<AllocationKey, bool> {
    allocations + map u | u in uuids :: AllocationKey(attempt, u) := false
  }

  ghost function ChosenDevices(s: State, worker: Id, r: Run): set<Id>
    requires worker in s.workers
  {
    var n := r.spec.resources.gpuCount;
    if 0 <= n <= |UsableDevices(s, worker)| then FirstOf(UsableDevices(s, worker), n) else {}
  }

  ghost function Assign(s: State, worker: Id, session: string, id: Id, skipped: set<Id>): Tx {
    if !Session(s, worker, session) then Tx(s, Refused(Stale))
    else if !Available(s, s.workers[worker]) then Tx(s, Idle)
    else if exists a :: Unacknowledged(s, worker, a) then Tx(s, Replayed)
    else if s.workers[worker].drained then Tx(s, Idle)
    else if Candidates(s, worker, skipped) == {} then Tx(s, Idle)
    else if id in s.attempts then Tx(s, Refused(Unavailable))
    else
      var r := First(s.runs, Candidates(s, worker, skipped));
      Tx(Launch(s, r, id, worker)
           .(allocations := Reserve(s.allocations, id, ChosenDevices(s, worker, s.runs[r]))), Granted(id))
  }

  /** released_at is set on every unreleased allocation of the attempt. */
  function Release(allocations: map<AllocationKey, bool>, attempt: Id): map<AllocationKey, bool> {
    map k | k in allocations :: if k.attempt == attempt then true else allocations[k]
  }

  function RuntimeReport(s: State, worker: Id, session: string, id: Id, runtime: string, stopped: bool): Tx {
    if !Session(s, worker, session) then Tx(s, Refused(Stale))
    else if !Locks(s, id) then Tx(s, Refused(NotFound))
    else if s.attempts[id].worker != worker then Tx(s, Refused(Unauthorized))
    else if !stopped then Tx(SetAttempt(s, id, s.attempts[id].(runtime := Some(runtime))), Done)
    else if Active(s.attempts[id].status) then Tx(s, Refused(Conflict))
    else
      Tx(SetAttempt(s, id, s.attempts[id].(cleaned := true)).(allocations := Release(s.allocations, id)), Done)
  }

  /** The attempts a worker is told to remove. */
  ghost function CleanupList(s: State, worker: Id): set<Id> {
    set a | a in Pending(s.attempts, worker) && !Active(s.attempts[a].status)
  }

  /** The observed containers a worker is told to stop. */
  predicate ShouldStop(s: State, a: Id) {
    !Locks(s, a) || s.runs[s.attempts[a].run].active != Some(a) || !Active(s.attempts[a].status)
  }

  // ---- Ownership ------------------------------------------------------------------------------

  predicate NodeChar(c: char) { 'a' <= c <= 'z' || Digit(c) || c == '.' || c == '-' }

  function Start(s: State, id: Id, generation: int, instance: string, node: string): Tx {
    if |node| > 253 || exists i | 0 <= i < |node| :: !NodeChar(node[i]) then Tx(s, Refused(Invalid))
    else if instance == "" || |instance| > 200 then Tx(s, Refused(Invalid))
    else if !Locks(s, id) then Tx(s, Refused(NotFound))
    else
      var a, r := s.attempts[id], s.runs[s.attempts[id].run];
      if r.active != Some(id) || r.generation != generation || !Active(r.status) then Tx(s, Refused(Stale))
      else if node != "" && a.worker != KUBERNETES then Tx(s, Refused(Invalid))
      else if a.instance != "" then
        if a.instance != instance || a.node != node || !LeaseValid(a, s.now) || !DeadlineValid(a, s.now)
        then Tx(s, Refused(Stale))
        else Tx(s, Done)
      else if !r.status.Starting? || !LaunchValid(a, s.now) then Tx(s, Refused(Stale))
      else
        Tx(Move(s, id, StartedRow(s, a, r, instance, node), r.(status := Running), Started), Done)
  }

  function Heartbeat(s: State, id: Id, generation: int, instance: string): Tx {
    if !Locks(s, id) then Tx(s, Refused(NotFound))
    else if !Owned(s, id, generation, instance) then Tx(s, Refused(Stale))
    else Tx(SetAttempt(s, id, RenewedRow(s, s.attempts[id])), Done)
  }

  function BeginFinalization(s: State, id: Id, generation: int, instance: string): Tx {
    if !Locks(s, id) then Tx(s, Refused(NotFound))
    else if !Owned(s, id, generation, instance) then Tx(s, Refused(Stale))
    else
      var a, r := s.attempts[id], s.runs[s.attempts[id].run];
      if !r.status.Running? then Tx(s, Done)
      else
        Tx(Move(s, id, FinalizingRow(s, a), r.(status := Finalizing), FinalizationBegun), Done)
  }

  function FailureOf(reason: string): Failure {
    if reason == "TIMEOUT" then Timeout
    else if reason == "STOP_REQUESTED" || reason == "LEASE_LOST" then Infrastructure
    else ExitError
  }

  /** A completion that repeats the recorded outcome. */
  predicate Completed(s: State, id: Id, generation: int, instance: string, exitCode: int) {
    && Locks(s, id)
    && var a := s.attempts[id];
    && s.runs[a.run].active == Some(id) && a.instance == instance && a.generation == generation
    && a.exitCode == Some(exitCode) && (a.status.Succeeded? || a.status.Failed?)
  }

  function Finish(
    s: State, id: Id, generation: int, instance: string, exitCode: int, reason: string, finalSequence: int): Tx
  {
    if !Locks(s, id) then Tx(s, Refused(NotFound))
    else if Completed(s, id, generation, instance, exitCode) then Tx(s, Done)
    else if !Owned(s, id, generation, instance) then Tx(s, Refused(Stale))
    else
      var a, r := s.attempts[id], s.runs[s.attempts[id].run];
      if a.ack != finalSequence then Tx(s, Refused(Conflict))
      else if exitCode == 0 && !r.status.Finalizing? then Tx(s, Refused(Conflict))
      else if exitCode == 0 then
        Tx(Move(s, id, SucceededRow(a, reason), r.(status := Succeeded), Succeeding), Done)
      else
        Tx(Fail(s, id, FailureOf(reason), if reason == "" then "EXIT_ERROR" else reason, Some(exitCode)), Done)
  }

  // ---- Outputs --------------------------------------------------------------------------------

  /** The acknowledged sequence after a batch: skip old records, stop at the first gap. */
  function Absorbed(ack: int, records: seq<Record>): int
    decreases |records|
  {
    if records == [] then ack
    else if records[0].sequence <= ack then Absorbed(ack, records[1..])
    else if records[0].sequence != ack + 1 then ack
    else Absorbed(ack + 1, records[1..])
  }

  /** The telemetry rows after the same batch. */
  function Inserted(rows: map<RecordKey, Record>, id: Id, ack: int, records: seq<Record>): map<RecordKey, Record>
    decreases |records|
  {
    if records == [] then rows
    else if records[0].sequence <= ack then Inserted(rows, id, ack, records[1..])
    else if records[0].sequence != ack + 1 then rows
    else Inserted(rows[RecordKey(id, ack + 1) := records[0]], id, ack + 1, records[1..])
  }

  function Report(s: State, id: Id, generation: int, instance: string, records: seq<Record>): Tx {
    if |records| > 256 || exists i | 0 <= i < |records| :: !ValidRecord(records[i]) then Tx(s, Refused(Invalid))
    else if !Locks(s, id) then Tx(s, Refused(NotFound))
    else if !Owned(s, id, generation, instance) then Tx(s, Refused(Stale))
    else
      var a := s.attempts[id];
      var ack := Absorbed(a.ack, records);
      Tx(SetAttempt(s, id, a.(ack := ack)).(telemetry := Inserted(s.telemetry, id, a.ack, records)), Acked(ack))
  }

  ghost function ArtifactsOf(artifacts: map<ArtifactKey, Artifact>, id: Id): map<ArtifactKey, int> {
    map k | k in artifacts && k.attempt == id :: artifacts[k].size as int
  }

  ghost function PublishedBytes(artifacts: map<ArtifactKey, Artifact>, id: Id): int {
    Total(ArtifactsOf(artifacts, id))
  }

  const ARTIFACT_BYTES: int := 1024 * 1024 * 1024
  const ARTIFACT_COUNT: int := 1000

  ghost function Publish(s: State, id: Id, generation: int, instance: string, path: string, value: Artifact): Tx {
    if !Locks(s, id) then Tx(s, Refused(NotFound))
    else if !Owned(s, id, generation, instance) then Tx(s, Refused(Stale))
    else if !s.runs[s.attempts[id].run].status.Finalizing? then Tx(s, Refused(Conflict))
    else
      var key := ArtifactKey(id, path);
      if key in s.artifacts then
        if s.artifacts[key] != value then Tx(s, Refused(Conflict)) else Tx(s, Done)
      else
        if PublishedBytes(s.artifacts, id) + value.size > ARTIFACT_BYTES
           || |ArtifactsOf(s.artifacts, id)| >= ARTIFACT_COUNT then Tx(s, Refused(Exhausted))
        else Tx(s.(artifacts := s.artifacts[key := value]), Done)
  }

  // ---- Cancellation and recovery --------------------------------------------------------------

  /** Every executing attempt of the run is closed, whichever the run points at. */
  function CancelAttempts(attempts: map<Id, Attempt>, run: Id, now: Time): map<Id, Attempt> {
    map a | a in attempts ::
      if attempts[a].run == run && Active(attempts[a].status) then CancelledRow(attempts[a], now) else attempts[a]
  }

  function Cancel(s: State, run: Id): Tx {
    if run !in s.runs then Tx(s, Refused(NotFound))
    else if Terminal(s.runs[run].status) then Tx(s, RunIs(run))
    else
      Tx(Commit(s.(attempts := CancelAttempts(s.attempts, run, s.now)), run,
                s.runs[run].(status := Cancelled), CancelRequested), RunIs(run))
  }

  predicate RetryDue(s: State, r: Run) { r.status.RetryWait? && r.availableAt <= s.now }

  function RequeueEvents(s: State): map<EventKey, EventKind> {
    map r | r in s.runs && RetryDue(s, s.runs[r]) :: EventKey(r, s.runs[r].eventSequence + 1) := Requeued
  }

  /** Phase one of recover(): every run whose retry delay has elapsed returns to the queue. */
  function Requeue(s: State): Tx {
    Tx(s.(runs := map r | r in s.runs ::
            if RetryDue(s, s.runs[r])
            then s.runs[r].(status := Queued, eventSequence := s.runs[r].eventSequence + 1)
            else s.runs[r],
          events := s.events + RequeueEvents(s)), Done)
  }

  /** The scan's WHERE clause: it reads the attempt's own status and deadlines. */
  predicate Overdue(a: Attempt, now: Time) {
    || (a.status.Starting? && a.launchDeadline <= now)
    || ((a.status.Running? || a.status.Finalizing?) && a.leaseUntil.Some? && a.leaseUntil.value <= now)
    || (a.status.Running? && a.executionDeadline.Some? && a.executionDeadline.value <= now)
    || (a.status.Finalizing? && a.finalizationDeadline.Some? && a.finalizationDeadline.value <= now)
  }

  datatype Verdict = Verdict(failure: Failure, reason: string)

  /** How recovery classifies an attempt, from the run's status and the attempt's deadlines. */
  function Diagnose(r: Run, a: Attempt, now: Time): Option<Verdict> {
    if r.status.Starting? && !LaunchValid(a, now) then Some(Verdict(Infrastructure, "LAUNCH_TIMEOUT"))
    else if r.status.Running? && !DeadlineValid(a, now) then Some(Verdict(Timeout, "TIMEOUT"))
    else if r.status.Finalizing? && !DeadlineValid(a, now) then
      Some(Verdict(Infrastructure, "FINALIZATION_TIMEOUT"))
    else if (r.status.Running? || r.status.Finalizing?) && !LeaseValid(a, now) then
      Some(Verdict(Infrastructure, "LEASE_EXPIRED"))
    else None
  }

  /** Phase three of recover(): one transaction per candidate, on whatever the rows say by then. */
  function RecoverOne(s: State, id: Id): Tx {
    if !Locks(s, id) then Tx(s, Refused(NotFound))
    else
      var a, r := s.attempts[id], s.runs[s.attempts[id].run];
      if r.active != Some(id) || Terminal(r.status) || a.status.Failed? then Tx(s, Done)
      else
        var v := Diagnose(r, a, s.now);
        if v.None? then Tx(s, Done) else Tx(Fail(s, id, v.value.failure, v.value.reason, None), Done)
  }

  // ---- Kubernetes -----------------------------------------------------------------------------

  ghost function ReadyRuns(s: State, skipped: set<Id>): set<Id> {
    set r | r in s.runs && r !in skipped && Ready(s, s.runs[r])
  }

  ghost function Admit(s: State, limit: int, id: Id, skipped: set<Id>): Tx {
    if limit < 1 || limit > 100 then Tx(s, Refused(Invalid))
    else if |Pending(s.attempts, KUBERNETES)| >= limit then Tx(s, Idle)
    else if ReadyRuns(s, skipped) == {} then Tx(s, Idle)
    else if id in s.attempts then Tx(s, Refused(Unavailable))
    else Tx(Launch(s, First(s.runs, ReadyRuns(s, skipped)), id, KUBERNETES), Granted(id))
  }

  function KubernetesStopped(s: State, id: Id): Tx {
    if !Locks(s, id) then Tx(s, Refused(NotFound))
    else
      var a, r := s.attempts[id], s.runs[s.attempts[id].run];
      if a.worker != KUBERNETES then Tx(s, Refused(Invalid))
      else if r.active == Some(id) && Active(a.status) then
        if r.status.Running? && !DeadlineValid(a, s.now)
        then Tx(Fail(s, id, Timeout, "TIMEOUT", None), Done)
        else Tx(Fail(s, id, Infrastructure, "RUNTIME_STOPPED", None), Done)
      else Tx(s, Done)
  }

  function KubernetesRuntime(s: State, id: Id, runtime: string, removed: bool): Tx {
    if !Locks(s, id) then Tx(s, Refused(NotFound))
    else
      var a := s.attempts[id];
      if a.worker != KUBERNETES then Tx(s, Refused(Invalid))
      else if !removed then Tx(SetAttempt(s, id, a.(runtime := Some(runtime))), Done)
      else if Active(a.status) then Tx(s, Refused(Conflict))
      else Tx(SetAttempt(s, id, a.(cleaned := true)), Done)
  }

  // ---- Runs of the system ---------------------------------------------------------------------

  datatype Op =
    | TickOp(now: Time)
    | SubmitOp(spec: RunSpec, key: string, fingerprint: Fingerprint, id: Id)
    | RerunOp(source: Id, key: string, id: Id)
    | SweepOp(entries: seq<Entry>, key: string, fingerprint: Fingerprint, id: Id)
    | RegisterOp(worker: Id, registration: Registration)
    | WorkerHeartbeatOp(worker: Id, session: string)
    | DrainOp(worker: Id, drained: bool)
    | InventoryOp(worker: Id, session: string, sequence: int, ready: bool, devices: seq<Observed>)
    | AssignOp(worker: Id, session: string, id: Id, skipped: set<Id>)
    | RuntimeOp(worker: Id, session: string, attempt: Id, runtime: string, stopped: bool)
    | StartOp(attempt: Id, generation: int, instance: string, node: string)
    | HeartbeatOp(attempt: Id, generation: int, instance: string)
    | FinalizeOp(attempt: Id, generation: int, instance: string)
    | FinishOp(attempt: Id, generation: int, instance: string, exitCode: int, reason: string, finalSequence: int)
    | ReportOp(attempt: Id, generation: int, instance: string, records: seq<Record>)
    | PublishOp(attempt: Id, generation: int, instance: string, path: string, artifact: Artifact)
    | CancelOp(run: Id)
    | RequeueOp
    | RecoverOp(attempt: Id)
    | AdmitOp(limit: int, id: Id, skipped: set<Id>)
    | KubernetesStoppedOp(attempt: Id)
    | KubernetesRuntimeOp(attempt: Id, runtime: string, stopped: bool)

  /** The clock never runs backwards. */
  function Tick(s: State, now: Time): Tx { if s.now <= now then Tx(s.(now := now), Done) else Tx(s, Idle) }

  predicate RunnerOp(op: Op) {
    op.StartOp? || op.HeartbeatOp? || op.FinalizeOp? || op.FinishOp? || op.ReportOp? || op.PublishOp?
  }

  predicate WorkerOp(op: Op) {
    op.RegisterOp? || op.WorkerHeartbeatOp? || op.DrainOp? || op.InventoryOp? || op.AssignOp? || op.RuntimeOp?
  }

  predicate SubmissionOp(op: Op) { op.SubmitOp? || op.RerunOp? || op.SweepOp? }

  predicate KubernetesOp(op: Op) { op.AdmitOp? || op.KubernetesStoppedOp? || op.KubernetesRuntimeOp? }

  predicate ControlOp(op: Op) { op.TickOp? || op.CancelOp? || op.RequeueOp? || op.RecoverOp? }

  ghost function RunnerTx(s: State, op: Op): Tx
    requires RunnerOp(op)
  {
    match op
    case StartOp(a, g, i, node) => Start(s, a, g, i, node)
    case HeartbeatOp(a, g, i) => Heartbeat(s, a, g, i)
    case FinalizeOp(a, g, i) => BeginFinalization(s, a, g, i)
    case FinishOp(a, g, i, code, reason, n) => Finish(s, a, g, i, code, reason, n)
    case ReportOp(a, g, i, records) => Report(s, a, g, i, records)
    case PublishOp(a, g, i, path, value) => Publish(s, a, g, i, path, value)
  }

  ghost function WorkerTx(s: State, op: Op): Tx
    requires WorkerOp(op)
  {
    match op
    case RegisterOp(w, r) => Register(s, w, r)
    case WorkerHeartbeatOp(w, session) => WorkerHeartbeat(s, w, session)
    case DrainOp(w, d) => Drain(s, w, d)
    case InventoryOp(w, session, n, ready, devices) => ReportInventory(s, w, session, n, ready, devices)
    case AssignOp(w, session, id, skipped) => Assign(s, w, session, id, skipped)
    case RuntimeOp(w, session, a, runtime, stopped) => RuntimeReport(s, w, session, a, runtime, stopped)
  }

  function SubmissionTx(s: State, op: Op): Tx
    requires SubmissionOp(op)
  {
    match op
    case SubmitOp(spec, key, fp, id) => Submit(s, spec, key, fp, id)
    case RerunOp(source, key, id) => Rerun(s, source, key, id)
    case SweepOp(entries, key, fp, id) => SubmitSweep(s, entries, key, fp, id)
  }

  ghost function KubernetesTx(s: State, op: Op): Tx
    requires KubernetesOp(op)
  {
    match op
    case AdmitOp(limit, id, skipped) => Admit(s, limit, id, skipped)
    case KubernetesStoppedOp(a) => KubernetesStopped(s, a)
    case KubernetesRuntimeOp(a, runtime, stopped) => KubernetesRuntime(s, a, runtime, stopped)
  }

  function ControlTx(s: State, op: Op): Tx
    requires ControlOp(op)
  {
    match op
    case TickOp(now) => Tick(s, now)
    case CancelOp(run) => Cancel(s, run)
    case RequeueOp => Requeue(s)
    case RecoverOp(a) => RecoverOne(s, a)
  }

  /** Any transaction may be requested with any arguments, at any time. */
  ghost function Perform(s: State, op: Op): Tx {
    if RunnerOp(op) then RunnerTx(s, op)
    else if WorkerOp(op) then WorkerTx(s, op)
    else if SubmissionOp(op) then SubmissionTx(s, op)
    else if KubernetesOp(op) then KubernetesTx(s, op)
    else ControlTx(s, op)
  }

  ghost function Step(s: State, op: Op): State { Perform(s, op).state }

  ghost function Exec(s: State, ops: seq<Op>): State {
    if ops == [] then s else Step(Exec(s, ops[..|ops| - 1]), ops[|ops| - 1])
  }
}
