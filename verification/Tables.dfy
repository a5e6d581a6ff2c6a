/**
 * The coordinator's tables (migrations/001_runs.sql to 006_gpus.sql) as maps from primary keys
 * to rows, and the row updates that the transactions share.
 *
 * Row identifiers are opaque to the protocol. An integer stands for an identifier's rank in the
 * database's collation, so that ORDER BY id is <. Worker names above 0 are the admissible ones,
 * KUBERNETES is the reserved name "@kubernetes", and every other name is inadmissible.
 */
module Tables {
  import opened Base
  import opened Domain
  import opened Codec

  type Id = int
  type Time = int

  /** Timestamps have microsecond resolution. */
  function Seconds(n: int): Time { n * 1000000 }

  const KUBERNETES: Id := 0

  /** Coordinator settings, in seconds; the loader accepts only positive ones. */
  datatype Timing = Timing(
    lease: int32, worker: int32, launch: int32, finalization: int32, retryBase: int32, retryMax: int32)

  predicate ValidTiming(t: Timing) {
    t.lease > 0 && t.worker > 0 && t.launch > 0 && t.finalization > 0 && t.retryBase > 0 && t.retryMax > 0
  }

  datatype Run = Run(
    spec: RunSpec,
    status: RunStatus,
    generation: int,
    active: Option<Id>,
    eventSequence: int,
    availableAt: Time,
    createdAt: Time,
    sweep: Option<Id>,
    parent: Option<Id>)

  datatype Attempt = Attempt(
    run: Id,
    generation: int,
    worker: Id,
    instance: string,              // "" stands for NULL
    status: RunStatus,
    reason: string,
    exitCode: Option<int>,
    runtime: Option<string>,
    cleaned: bool,                 // cleanup_status = 'DONE'
    ack: int,
    launchDeadline: Time,
    leaseUntil: Option<Time>,
    executionDeadline: Option<Time>,
    finalizationDeadline: Option<Time>,
    createdAt: Time,
    gpuCount: int,
    node: string)

  datatype EventKind =
    | Submitted | Assigned | Started | FinalizationBegun | Succeeding
    | RetryScheduled | GaveUp | Requeued | CancelRequested

  datatype EventKey = EventKey(run: Id, sequence: int)

  datatype Worker = Worker(
    session: string,
    cpuMillis: int,
    memoryMib: int,
    drained: bool,
    heartbeatAt: Time,
    engine: string,
    gpuCapable: bool,
    gpuReady: bool,
    gpuSequence: int,
    gpuObservedAt: Option<Time>)

  datatype Device = Device(worker: Id, name: string, memoryMib: int, eligible: bool, present: bool)

  datatype AllocationKey = AllocationKey(attempt: Id, uuid: Id)

  datatype RecordKey = RecordKey(attempt: Id, sequence: int)

  datatype ArtifactKey = ArtifactKey(attempt: Id, path: string)

  datatype Artifact = Artifact(sha256: string, size: nat)

  /**
   * What a request key was first used for. SHA-256 is taken as injective, so a digest is named by
   * the text it was computed from: "rerun:" followed by a run id, or a JSON payload, which stands
   * for the value that its text parses to.
   */
  datatype Fingerprint = OfPayload(payload: Json) | OfRerun(source: Id)

  /** What the API hands to submit() with a specification. */
  function FingerprintOf(spec: RunSpec): Fingerprint { OfPayload(Reparsed(Encode(spec))) }

  /** Different valid specifications have different fingerprints. */
  lemma FingerprintIsInjective(s: RunSpec, t: RunSpec)
    requires ValidSpec(s) && ValidSpec(t) && FingerprintOf(s) == FingerprintOf(t)
    ensures s == t
  {
    ReparsedRoundTrip(s);
    ReparsedRoundTrip(t);
  }

  datatype Submission = Submission(fingerprint: Fingerprint, target: Id)

  datatype State = State(
    timing: Timing,
    now: Time,
    runs: map<Id, Run>,
    attempts: map<Id, Attempt>,
    events: map<EventKey, EventKind>,
    workers: map<Id, Worker>,
    devices: map<Id, Device>,
    allocations: map<AllocationKey, bool>,   // true once released_at is set
    telemetry: map<RecordKey, Record>,
    artifacts: map<ArtifactKey, Artifact>,
    submissions: map<string, Submission>,
    sweeps: map<string, Submission>)

  function Empty(timing: Timing, now: Time): State {
    State(timing, now, map[], map[], map[], map[], map[], map[], map[], map[], map[], map[])
  }

  /** What a runner identifies itself with. */
  datatype Owner = Owner(attempt: Id, generation: int, instance: string)

  // ---- Row predicates evaluated by lock_attempt -----------------------------------------------

  predicate Locks(s: State, id: Id) { id in s.attempts && s.attempts[id].run in s.runs }

  predicate LeaseValid(a: Attempt, now: Time) { a.leaseUntil.Some? && a.leaseUntil.value > now }

  predicate LaunchValid(a: Attempt, now: Time) { a.launchDeadline > now }

  /** A deadline that was never set compares as NULL and counts as valid. */
  predicate DeadlineValid(a: Attempt, now: Time) {
    var deadline := if a.status.Finalizing? then a.finalizationDeadline else a.executionDeadline;
    deadline.None? || deadline.value > now
  }

  /** The ownership check in front of every runner write; it never reads the attempt's status. */
  predicate Owned(s: State, id: Id, generation: int, instance: string) {
    && Locks(s, id)
    && var a, r := s.attempts[id], s.runs[s.attempts[id].run];
    && r.active == Some(id) && r.generation == generation
    && a.instance == instance && instance != ""
    && LeaseValid(a, s.now) && DeadlineValid(a, s.now)
    && (r.status.Running? || r.status.Finalizing?)
  }

  // ---- Row updates ----------------------------------------------------------------------------

  /** Write a run row and append the event that explains it. */
  function Commit(s: State, id: Id, run: Run, kind: EventKind): State {
    s.(runs := s.runs[id := run.(eventSequence := run.eventSequence + 1)],
       events := s.events[EventKey(id, run.eventSequence + 1) := kind])
  }

  function SetAttempt(s: State, id: Id, a: Attempt): State { s.(attempts := s.attempts[id := a]) }

  function NewRun(spec: RunSpec, now: Time, sweep: Option<Id>, parent: Option<Id>): Run {
    Run(spec, Queued, 0, None, 0, now, now, sweep, parent)
  }

  function NewAttempt(s: State, run: Id, worker: Id): Attempt
    requires run in s.runs
  {
    var r := s.runs[run];
    Attempt(run, r.generation + 1, worker, "", Starting, "", None, None, false, 0,
            s.now + Seconds(s.timing.launch), None, None, None, s.now, r.spec.resources.gpuCount, "")
  }

  /** Insert an attempt for a queued run and point the run at it. */
  function Launch(s: State, run: Id, id: Id, worker: Id): State
    requires run in s.runs
  {
    var r := s.runs[run];
    Commit(SetAttempt(s, id, NewAttempt(s, run, worker)), run,
           r.(status := Starting, active := Some(id), generation := r.generation + 1), Assigned)
  }

  /** Replace a locked attempt's row and move its run with it. */
  function Move(s: State, id: Id, a: Attempt, run: Run, kind: EventKind): State {
    Commit(SetAttempt(s, id, a), a.run, run, kind)
  }

  function FailedRow(a: Attempt, reason: string, exitCode: Option<int>): Attempt {
    a.(status := Failed, reason := reason, exitCode := exitCode)
  }

  function RetriedRow(s: State, a: Attempt, r: Run, failure: Failure): Run {
    var delay := RetryDelay(a.generation, s.timing.retryBase, s.timing.retryMax);
    r.(status := if ShouldRetry(r.spec.retry, a.generation, failure) then RetryWait else Failed,
       availableAt := s.now + Seconds(delay))
  }

  /** Close an attempt as failed and either schedule a retry or give the run up. */
  function Fail(s: State, id: Id, failure: Failure, reason: string, exitCode: Option<int>): State
    requires Locks(s, id)
  {
    var a, r := s.attempts[id], s.runs[s.attempts[id].run];
    var r' := RetriedRow(s, a, r, failure);
    Move(s, id, FailedRow(a, reason, exitCode), r', if r'.status.RetryWait? then RetryScheduled else GaveUp)
  }

  function StartedRow(s: State, a: Attempt, r: Run, instance: string, node: string): Attempt {
    a.(node := node, instance := instance, status := Running,
       leaseUntil := Some(s.now + Seconds(s.timing.lease)),
       executionDeadline := Some(s.now + Seconds(r.spec.timeoutSeconds)))
  }

  function RenewedRow(s: State, a: Attempt): Attempt { a.(leaseUntil := Some(s.now + Seconds(s.timing.lease))) }

  function FinalizingRow(s: State, a: Attempt): Attempt {
    a.(status := Finalizing, finalizationDeadline := Some(s.now + Seconds(s.timing.finalization)))
  }

  function SucceededRow(a: Attempt, reason: string): Attempt {
    a.(status := Succeeded, exitCode := Some(0), reason := reason)
  }

  function CancelledRow(a: Attempt, now: Time): Attempt {
    a.(status := Cancelled, reason := "USER_CANCELLED", leaseUntil := Some(now))
  }

  // ---- Queries --------------------------------------------------------------------------------

  /** Attempts that still hold resources on a worker (cleanup_status = 'PENDING'). */
  ghost function Pending(attempts: map<Id, Attempt>, worker: Id): set<Id> {
    set a | a in attempts && attempts[a].worker == worker && !attempts[a].cleaned
  }

  /** The two divisible resources a worker offers. */
  datatype Resource = Cpu | Memory

  function Demand(spec: RunSpec, kind: Resource): int {
    match kind case Cpu => spec.resources.cpuMillis case Memory => spec.resources.memoryMib
  }

  function Capacity(w: Worker, kind: Resource): int {
    match kind case Cpu => w.cpuMillis case Memory => w.memoryMib
  }

  ghost function Demands(s: State, worker: Id, kind: Resource): map<Id, int> {
    map a | a in Pending(s.attempts, worker) && s.attempts[a].run in s.runs
      :: Demand(s.runs[s.attempts[a].run].spec, kind)
  }

  /** What the worker's pending attempts hold of a resource. */
  ghost function Reserved(s: State, worker: Id, kind: Resource): int { Total(Demands(s, worker, kind)) }

  ghost predicate Held(allocations: map<AllocationKey, bool>, uuid: Id) {
    exists k :: k in allocations && k.uuid == uuid && !allocations[k]
  }

  ghost function FreeDevices(s: State, worker: Id): set<Id> {
    set u | u in s.devices && s.devices[u].worker == worker && s.devices[u].present
            && s.devices[u].eligible && !Held(s.allocations, u)
  }

  ghost function AllocatedTo(allocations: map<AllocationKey, bool>, attempt: Id): set<Id> {
    set k | k in allocations && k.attempt == attempt :: k.uuid
  }

  /** ORDER BY priority DESC, created_at, id. */
  predicate Before(runs: map<Id, Run>, a: Id, b: Id)
    requires a in runs && b in runs
  {
    var x, y := runs[a], runs[b];
    || x.spec.priority > y.spec.priority
    || (x.spec.priority == y.spec.priority && x.createdAt < y.createdAt)
    || (x.spec.priority == y.spec.priority && x.createdAt == y.createdAt && a < b)
  }

  ghost predicate IsFirst(runs: map<Id, Run>, candidates: set<Id>, r: Id)
    requires candidates <= runs.Keys
  {
    r in candidates && forall o | o in candidates && o != r :: Before(runs, r, o)
  }

  lemma {:induction false} FirstExists(runs: map<Id, Run>, candidates: set<Id>)
    requires candidates <= runs.Keys && candidates != {}
    ensures exists r :: IsFirst(runs, candidates, r)
    decreases |candidates|
  {
    var c := Pick(candidates);
    var rest := candidates - {c};
    assert forall o | o in candidates :: o == c || o in rest;
    if rest == {} {
      assert IsFirst(runs, candidates, c);
    } else {
      FirstExists(runs, rest);
      var n :| IsFirst(runs, rest, n);
      assert IsFirst(runs, candidates, if Before(runs, c, n) then c else n);
    }
  }

  ghost function First(runs: map<Id, Run>, candidates: set<Id>): (r: Id)
    requires candidates <= runs.Keys && candidates != {}
    ensures IsFirst(runs, candidates, r)
  {
    FirstExists(runs, candidates);
    var r :| IsFirst(runs, candidates, r);
    r
  }
}
