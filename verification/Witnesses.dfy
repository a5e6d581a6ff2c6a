/** Concrete runs of the system in which the obvious claim fails. */
module Witnesses {
  import opened Base
  import opened Domain
  import opened Tables
  import opened Transactions
  import opened Invariants
  import opened Steps
  import opened Reachability
  import opened Lifecycle
  import opened Scheduling
  import opened Causes

  /** The settings the loader falls back to. */
  const DEFAULTS: Timing := Timing(30, 15, 300, 300, 5, 60)

  function Image(): string { "a@sha256:" + seq(64, i requires 0 <= i < 64 => '0') }

  /** A small job: one second, some GPUs, retried after an exit error or a timeout. */
  function Job(cpu: int32, gpus: int32): RunSpec {
    RunSpec(1, "job", Image(), ["run"], map[], map[], map[], Resources(cpu, 32, gpus),
            RetryPolicy(2, true, true), 1, 0, "", "")
  }

  lemma ImageIsPinned()
    ensures PinnedImage(Image()) && |Image()| == 73
  {
    var image := Image();
    assert image[|image| - 72..|image| - 64] == "@sha256:";
  }

  lemma JobIsValid(cpu: int32, gpus: int32)
    requires 0 < cpu <= 1000 && 0 <= gpus <= 64
    ensures ValidSubmission(Job(cpu, gpus))
  {
    ImageIsPinned();
    var s := Job(cpu, gpus);
    assert |s.command| == 1 && s.command[0] == "run";
  }

  // ---- Single steps ---------------------------------------------------------------------------

  function Key(run: Id): string { seq(if run >= 0 then run + 1 else 0, i => 'k') }

  function Row(s: State, spec: RunSpec): Run { Run(spec, Queued, 0, None, 1, s.now, s.now, None, None) }

  /** Submitting run r under a key of its own. */
  function AfterSubmit(s: State, spec: RunSpec, r: Id): State {
    Submit(s, spec, Key(r), FingerprintOf(spec), r).state
  }

  lemma AfterSubmitIs(s: State, spec: RunSpec, r: Id)
    requires ValidSubmission(spec) && Key(r) !in s.submissions && r !in s.runs
    ensures
      var s' := AfterSubmit(s, spec, r);
      && s'.runs == s.runs[r := Row(s, spec)] && s'.attempts == s.attempts && s'.workers == s.workers
      && s'.devices == s.devices && s'.allocations == s.allocations && s'.now == s.now && s'.timing == s.timing
      && s'.submissions.Keys == s.submissions.Keys + {Key(r)}
  {
  }

  lemma AdmitsOnly(s: State, limit: int, id: Id, r: Id)
    requires 1 <= limit <= 100 && |Pending(s.attempts, KUBERNETES)| < limit && id !in s.attempts
    requires r in s.runs && Ready(s, s.runs[r]) && forall o | o in s.runs && Ready(s, s.runs[o]) :: o == r
    ensures Admit(s, limit, id, {}) == Tx(Launch(s, r, id, KUBERNETES), Granted(id))
  {
    forall o
      ensures o in ReadyRuns(s, {}) <==> o in {r}
    {
    }
    assert ReadyRuns(s, {}) == {r};
  }

  lemma LaunchIs(s: State, r: Id, id: Id, worker: Id)
    requires r in s.runs
    ensures
      var s' := Launch(s, r, id, worker);
      var row := s.runs[r].(status := Starting, active := Some(id), generation := s.runs[r].generation + 1,
                            eventSequence := s.runs[r].eventSequence + 1);
      && s'.runs == s.runs[r := row] && s'.attempts == s.attempts[id := NewAttempt(s, r, worker)]
      && s'.allocations == s.allocations && s'.devices == s.devices && s'.workers == s.workers
      && s'.now == s.now && s'.timing == s.timing && s'.submissions == s.submissions
  {
  }

  /** Reaching a state by a sequence of transactions from the empty database. */
  ghost predicate Reaches(ops: seq<Op>, s: State, t: Timing := DEFAULTS) { Exec(Empty(t, 0), ops) == s }

  lemma Begin(t: Timing := DEFAULTS)
    ensures Reaches([], Empty(t, 0), t)
  {
  }

  lemma Then(ops: seq<Op>, s: State, op: Op, s': State, t: Timing := DEFAULTS)
    requires Reaches(ops, s, t) && Step(s, op) == s'
    ensures Reaches(ops + [op], s', t)
  {
    assert (ops + [op])[..|ops|] == ops;
  }

  function SubmitRun(spec: RunSpec, r: Id): Op { SubmitOp(spec, Key(r), FingerprintOf(spec), r) }

  lemma ThenSubmit(ops: seq<Op>, s: State, spec: RunSpec, r: Id, t: Timing := DEFAULTS)
    requires Reaches(ops, s, t)
    ensures Reaches(ops + [SubmitRun(spec, r)], AfterSubmit(s, spec, r), t)
  {
    SubmissionDispatch(s, SubmitRun(spec, r));
    Then(ops, s, SubmitRun(spec, r), AfterSubmit(s, spec, r), t);
  }

  lemma ThenAdmit(ops: seq<Op>, s: State, id: Id, t: Timing := DEFAULTS)
    requires Reaches(ops, s, t)
    ensures Reaches(ops + [AdmitOp(100, id, {})], Admit(s, 100, id, {}).state, t)
  {
    KubernetesDispatch(s, AdmitOp(100, id, {}));
    Then(ops, s, AdmitOp(100, id, {}), Admit(s, 100, id, {}).state, t);
  }

  // ---- A Kubernetes attempt with GPUs and no devices ------------------------------------------

  ghost function OneAdmitted(spec: RunSpec, t: Timing := DEFAULTS): State {
    Admit(AfterSubmit(Empty(t, 0), spec, 1), 100, 7, {}).state
  }

  function FirstAttempt(spec: RunSpec, t: Timing := DEFAULTS): Attempt {
    Attempt(1, 1, KUBERNETES, "", Starting, "", None, None, false, 0, Seconds(t.launch), None, None, None, 0,
            spec.resources.gpuCount, "")
  }

  function FirstRun(spec: RunSpec): Run { Run(spec, Queued, 0, None, 1, 0, 0, None, None) }

  predicate JustSubmitted(s: State, spec: RunSpec, t: Timing := DEFAULTS) {
    && s.runs == map[1 := FirstRun(spec)] && s.attempts == map[] && s.allocations == map[]
    && s.workers == map[] && s.devices == map[] && s.submissions.Keys == {Key(1)}
    && s.now == 0 && s.timing == t
  }

  predicate JustAdmitted(s: State, spec: RunSpec, t: Timing := DEFAULTS) {
    && s.runs == map[1 := Run(spec, Starting, 1, Some(7), 2, 0, 0, None, None)]
    && s.attempts == map[7 := FirstAttempt(spec, t)] && s.allocations == map[]
    && s.now == 0 && s.timing == t
  }

  lemma FirstSubmitted(spec: RunSpec, t: Timing := DEFAULTS)
    requires ValidSubmission(spec)
    ensures JustSubmitted(AfterSubmit(Empty(t, 0), spec, 1), spec, t)
  {
    AfterSubmitIs(Empty(t, 0), spec, 1);
  }

  lemma FirstLaunched(s: State, spec: RunSpec, t: Timing := DEFAULTS)
    requires JustSubmitted(s, spec, t)
    ensures JustAdmitted(Launch(s, 1, 7, KUBERNETES), spec, t)
  {
    LaunchIs(s, 1, 7, KUBERNETES);
    assert NewAttempt(s, 1, KUBERNETES) == FirstAttempt(spec, t);
    assert FirstRun(spec).(status := Starting, active := Some(7), generation := 1, eventSequence := 2)
        == Run(spec, Starting, 1, Some(7), 2, 0, 0, None, None);
  }

  lemma OneIsAdmitted(s: State, spec: RunSpec, t: Timing := DEFAULTS)
    requires JustSubmitted(s, spec, t)
    ensures Admit(s, 100, 7, {}) == Tx(Launch(s, 1, 7, KUBERNETES), Granted(7))
  {
    assert Pending(s.attempts, KUBERNETES) == {};
    AdmitsOnly(s, 100, 7, 1);
  }

  lemma OneAdmittedIs(spec: RunSpec, t: Timing := DEFAULTS)
    requires ValidSubmission(spec)
    ensures JustAdmitted(OneAdmitted(spec, t), spec, t)
  {
    var s := AfterSubmit(Empty(t, 0), spec, 1);
    FirstSubmitted(spec, t);
    OneIsAdmitted(s, spec, t);
    FirstLaunched(s, spec, t);
  }

  function AdmittedOps(spec: RunSpec): seq<Op> { [] + [SubmitRun(spec, 1)] + [AdmitOp(100, 7, {})] }

  lemma OneAdmittedReached(spec: RunSpec, t: Timing := DEFAULTS)
    ensures Reaches(AdmittedOps(spec), OneAdmitted(spec, t), t)
  {
    Begin(t);
    ThenSubmit([], Empty(t, 0), spec, 1, t);
    ThenAdmit([] + [SubmitRun(spec, 1)], AfterSubmit(Empty(t, 0), spec, 1), 7, t);
  }

  /** The attempt's gpu_count is one, and no device is allocated to it. */
  lemma KubernetesHoldsNoDevice()
    ensures
      var s := Exec(Empty(DEFAULTS, 0), AdmittedOps(Job(1, 1)));
      && 7 in s.attempts && s.attempts[7].gpuCount == 1 && Active(s.attempts[7].status)
      && AllocatedTo(s.allocations, 7) == {}
  {
    JobIsValid(1, 1);
    OneAdmittedReached(Job(1, 1));
    OneAdmittedIs(Job(1, 1));
  }

  // ---- A completion refused after its attempt was replaced ------------------------------------

  /** The attempt as its runner claimed it, at time zero. */
  function ClaimedAttempt(spec: RunSpec, t: Timing := DEFAULTS): Attempt {
    FirstAttempt(spec, t).(instance := "i", status := Running, leaseUntil := Some(Seconds(t.lease)),
                           executionDeadline := Some(Seconds(spec.timeoutSeconds)))
  }

  predicate JustClaimed(s: State, spec: RunSpec, t: Timing := DEFAULTS) {
    && s.runs == map[1 := Run(spec, Running, 1, Some(7), 3, 0, 0, None, None)]
    && s.attempts == map[7 := ClaimedAttempt(spec, t)]
    && s.now == 0 && s.timing == t
  }

  lemma ClaimSucceeds(s: State, spec: RunSpec, t: Timing := DEFAULTS)
    requires JustAdmitted(s, spec, t) && t.launch > 0
    ensures Start(s, 7, 1, "i", "").reply.Done? && JustClaimed(Start(s, 7, 1, "i", "").state, spec, t)
  {
    var a, r := s.attempts[7], s.runs[1];
    var s' := Move(s, 7, StartedRow(s, a, r, "i", ""), r.(status := Running), Started);
    assert Start(s, 7, 1, "i", "") == Tx(s', Done);
    assert StartedRow(s, a, r, "i", "") == ClaimedAttempt(spec, t);
    assert r.(status := Running).(eventSequence := 3) == Run(spec, Running, 1, Some(7), 3, 0, 0, None, None);
  }

  function FailedAttempt(spec: RunSpec): Attempt {
    ClaimedAttempt(spec).(status := Failed, reason := "EXIT_ERROR", exitCode := Some(1))
  }

  predicate JustFailed(s: State, spec: RunSpec) {
    && s.runs == map[1 := Run(spec, RetryWait, 1, Some(7), 4, Seconds(5), 0, None, None)]
    && s.attempts == map[7 := FailedAttempt(spec)]
    && s.now == 0 && s.timing == DEFAULTS
  }

  lemma FirstDelay()
    ensures RetryDelay(1, 5, 60) == 5
  {
    BackoffDoublesToCap(1, 5, 60);
  }

  lemma FinishFails(s: State, spec: RunSpec)
    requires JustClaimed(s, spec) && spec.retry.maxAttempts >= 2 && spec.retry.retryExit && spec.timeoutSeconds > 0
    ensures Finish(s, 7, 1, "i", 1, "", 0).reply.Done?
    ensures JustFailed(Finish(s, 7, 1, "i", 1, "", 0).state, spec)
  {
    FirstDelay();
    var a, r := s.attempts[7], s.runs[1];
    assert Owned(s, 7, 1, "i");
    var s' := Fail(s, 7, ExitError, "EXIT_ERROR", Some(1));
    assert Finish(s, 7, 1, "i", 1, "", 0) == Tx(s', Done);
    assert RetriedRow(s, a, r, ExitError).(eventSequence := 4)
        == Run(spec, RetryWait, 1, Some(7), 4, Seconds(5), 0, None, None);
    assert FailedRow(a, "EXIT_ERROR", Some(1)) == FailedAttempt(spec);
  }

  predicate JustRequeued(s: State, spec: RunSpec) {
    && s.runs == map[1 := Run(spec, Queued, 1, Some(7), 5, Seconds(5), 0, None, None)]
    && s.attempts == map[7 := FailedAttempt(spec)]
    && s.now == Seconds(5) && s.timing == DEFAULTS
  }

  lemma RequeueReturns(s: State, spec: RunSpec)
    requires JustFailed(s, spec)
    ensures JustRequeued(Requeue(Tick(s, Seconds(5)).state).state, spec)
  {
    var t := Tick(s, Seconds(5)).state;
    assert RetryDue(t, t.runs[1]);
    assert Requeue(t).state.runs[1] == Run(spec, Queued, 1, Some(7), 5, Seconds(5), 0, None, None);
  }

  predicate JustReplaced(s: State, spec: RunSpec) {
    && s.runs.Keys == {1} && s.runs[1].active == Some(8) && s.runs[1].status.Starting? && s.runs[1].generation == 2
    && 7 in s.attempts && s.attempts[7] == FailedAttempt(spec)
  }

  lemma ReplacementLaunched(s: State, spec: RunSpec)
    requires JustRequeued(s, spec)
    ensures JustReplaced(Admit(s, 100, 8, {}).state, spec)
  {
    assert Pending(s.attempts, KUBERNETES) == {7};
    AdmitsOnly(s, 100, 8, 1);
    LaunchIs(s, 1, 8, KUBERNETES);
  }

  lemma ReplacedRefuses(s: State, spec: RunSpec)
    requires JustReplaced(s, spec)
    ensures Finish(s, 7, 1, "i", 1, "", 0) == Tx(s, Refused(Stale))
  {
  }

  lemma ThenRunner(ops: seq<Op>, s: State, op: Op)
    requires Reaches(ops, s) && RunnerOp(op)
    ensures Reaches(ops + [op], RunnerTx(s, op).state)
  {
    RunnerDispatch(s, op);
    Then(ops, s, op, RunnerTx(s, op).state);
  }

  lemma ThenControl(ops: seq<Op>, s: State, op: Op)
    requires Reaches(ops, s) && ControlOp(op)
    ensures Reaches(ops + [op], ControlTx(s, op).state)
  {
    ControlDispatch(s, op);
    Then(ops, s, op, ControlTx(s, op).state);
  }

  function FailedOps(spec: RunSpec): seq<Op> {
    AdmittedOps(spec) + [StartOp(7, 1, "i", "")] + [FinishOp(7, 1, "i", 1, "", 0)]
  }

  function ReplacedOps(spec: RunSpec): seq<Op> {
    FailedOps(spec) + [TickOp(Seconds(5))] + [RequeueOp] + [AdmitOp(100, 8, {})]
  }

  ghost function FailedState(spec: RunSpec): State {
    Finish(Start(OneAdmitted(spec), 7, 1, "i", "").state, 7, 1, "i", 1, "", 0).state
  }

  lemma FailedReached(spec: RunSpec)
    ensures Reaches(FailedOps(spec), FailedState(spec))
  {
    OneAdmittedReached(spec);
    ThenRunner(AdmittedOps(spec), OneAdmitted(spec), StartOp(7, 1, "i", ""));
    ThenRunner(AdmittedOps(spec) + [StartOp(7, 1, "i", "")], Start(OneAdmitted(spec), 7, 1, "i", "").state,
               FinishOp(7, 1, "i", 1, "", 0));
  }

  ghost function ReplacedState(spec: RunSpec): State {
    Admit(Requeue(Tick(FailedState(spec), Seconds(5)).state).state, 100, 8, {}).state
  }

  lemma ReplacedReached(spec: RunSpec)
    ensures Reaches(ReplacedOps(spec), ReplacedState(spec))
  {
    var s := FailedState(spec);
    FailedReached(spec);
    ThenControl(FailedOps(spec), s, TickOp(Seconds(5)));
    ThenControl(FailedOps(spec) + [TickOp(Seconds(5))], Tick(s, Seconds(5)).state, RequeueOp);
    ThenAdmit(FailedOps(spec) + [TickOp(Seconds(5))] + [RequeueOp],
              Requeue(Tick(s, Seconds(5)).state).state, 8);
  }

  lemma ReplacedIs(spec: RunSpec)
    requires ValidSubmission(spec) && spec.retry.maxAttempts >= 2 && spec.retry.retryExit
    ensures JustFailed(FailedState(spec), spec) && JustReplaced(ReplacedState(spec), spec)
  {
    var started := Start(OneAdmitted(spec), 7, 1, "i", "").state;
    OneAdmittedIs(spec);
    ClaimSucceeds(OneAdmitted(spec), spec);
    FinishFails(started, spec);
    RequeueReturns(FailedState(spec), spec);
    ReplacementLaunched(Requeue(Tick(FailedState(spec), Seconds(5)).state).state, spec);
  }

  /** The same completion that was confirmed is refused once the run has a new attempt. */
  lemma CompletionRefusedAfterReplacement()
    ensures Completed(Exec(Empty(DEFAULTS, 0), FailedOps(Job(1, 0))), 7, 1, "i", 1)
    ensures
      var s := Exec(Empty(DEFAULTS, 0), ReplacedOps(Job(1, 0)));
      Finish(s, 7, 1, "i", 1, "", 0) == Tx(s, Refused(Stale))
  {
    JobIsValid(1, 0);
    FailedReached(Job(1, 0));
    ReplacedReached(Job(1, 0));
    ReplacedIs(Job(1, 0));
    ReplacedRefuses(ReplacedState(Job(1, 0)), Job(1, 0));
  }

  // ---- Reservations above the current capacity ------------------------------------------------

  lemma AssignsOnly(s: State, worker: Id, session: string, id: Id, r: Id)
    requires Session(s, worker, session) && Available(s, s.workers[worker]) && !s.workers[worker].drained
    requires (forall a :: !Unacknowledged(s, worker, a)) && id !in s.attempts
    requires r in s.runs && Ready(s, s.runs[r]) && Fits(s, worker, s.runs[r])
    requires forall o | o in s.runs && Ready(s, s.runs[o]) :: o == r
    ensures
      Assign(s, worker, session, id, {})
      == Tx(Launch(s, r, id, worker)
              .(allocations := Reserve(s.allocations, id, ChosenDevices(s, worker, s.runs[r]))), Granted(id))
  {
    forall o
      ensures o in Candidates(s, worker, {}) <==> o in {r}
    {
    }
    assert Candidates(s, worker, {}) == {r};
  }

  lemma NothingReserved(s: State, worker: Id, kind: Resource)
    requires s.attempts == map[]
    ensures Reserved(s, worker, kind) == 0
  {
    assert Pending(s.attempts, worker) == {};
    assert Demands(s, worker, kind) == map[];
  }

  lemma OneReserved(s: State, worker: Id, kind: Resource, a: Id)
    requires Pending(s.attempts, worker) == {a} && s.attempts[a].run in s.runs
    ensures Reserved(s, worker, kind) == Demand(s.runs[s.attempts[a].run].spec, kind)
  {
    var v := Demand(s.runs[s.attempts[a].run].spec, kind);
    assert Demands(s, worker, kind) == map[][a := v];
    TotalInsert(map[], a, v);
  }

  function Offer(session: string, cpu: int): Registration { Registration(session, cpu, 64, "", false) }

  predicate Staffed(s: State, spec: RunSpec, cpu: int) {
    && s.runs == map[1 := FirstRun(spec)] && s.attempts == map[] && s.allocations == map[]
    && 1 in s.workers && s.workers[1] == Worker("s", cpu, 64, false, 0, "", false, false, 0, None)
    && s.now == 0 && s.timing == DEFAULTS
  }

  lemma RegisterStaffs(s: State, spec: RunSpec, cpu: int)
    requires JustSubmitted(s, spec) && cpu > 0
    ensures Staffed(Register(s, 1, Offer("s", cpu)).state, spec, cpu)
  {
    assert Pending(s.attempts, 1) == {};
  }

  predicate Loaded(s: State, spec: RunSpec) {
    && s.runs.Keys == {1} && s.runs[1].spec == spec && 1 in s.workers && s.workers[1].engine == ""
    && s.attempts.Keys == {7} && s.attempts[7].worker == 1 && s.attempts[7].run == 1 && !s.attempts[7].cleaned
  }

  lemma AssignLoads(s: State, spec: RunSpec, cpu: int)
    requires Staffed(s, spec, cpu)
    requires spec.resources.cpuMillis <= cpu && spec.resources.memoryMib <= 64 && spec.resources.gpuCount == 0
    ensures Loaded(Assign(s, 1, "s", 7, {}).state, spec)
  {
    NothingReserved(s, 1, Cpu);
    NothingReserved(s, 1, Memory);
    FitsWhen(s, 1, s.runs[1]);
    AssignsOnly(s, 1, "s", 7, 1);
    LaunchIs(s, 1, 7, 1);
  }

  lemma ShrinkOverloads(s: State, spec: RunSpec)
    requires Loaded(s, spec) && spec.resources.cpuMillis > 1
    ensures !Within(Register(s, 1, Offer("t", 1)).state, 1, Cpu)
  {
    var s' := Register(s, 1, Offer("t", 1)).state;
    RegisterOutcome(s, 1, Offer("t", 1));
    assert Pending(s'.attempts, 1) == {7};
    OneReserved(s', 1, Cpu, 7);
  }

  /** Submit, register and assign. */
  function LoadedOps(spec: RunSpec, cpu: int): seq<Op> {
    [] + [SubmitRun(spec, 1)] + [RegisterOp(1, Offer("s", cpu))] + [AssignOp(1, "s", 7, {})]
  }

  /** And register again. */
  function AgainOps(spec: RunSpec, cpu: int, again: Registration): seq<Op> {
    LoadedOps(spec, cpu) + [RegisterOp(1, again)]
  }

  function OverloadedOps(spec: RunSpec, cpu: int): seq<Op> { AgainOps(spec, cpu, Offer("t", 1)) }

  lemma ThenWorker(ops: seq<Op>, s: State, op: Op)
    requires Reaches(ops, s) && WorkerOp(op)
    ensures Reaches(ops + [op], WorkerTx(s, op).state)
  {
    WorkerDispatch(s, op);
    Then(ops, s, op, WorkerTx(s, op).state);
  }

  lemma AgainReached(spec: RunSpec, cpu: int, again: Registration)
    ensures
      var s := Register(AfterSubmit(Empty(DEFAULTS, 0), spec, 1), 1, Offer("s", cpu)).state;
      && Reaches(LoadedOps(spec, cpu), Assign(s, 1, "s", 7, {}).state)
      && Reaches(AgainOps(spec, cpu, again), Register(Assign(s, 1, "s", 7, {}).state, 1, again).state)
  {
    var submitted := AfterSubmit(Empty(DEFAULTS, 0), spec, 1);
    var s := Register(submitted, 1, Offer("s", cpu)).state;
    var ops := [] + [SubmitRun(spec, 1)];
    Begin();
    ThenSubmit([], Empty(DEFAULTS, 0), spec, 1);
    ThenWorker(ops, submitted, RegisterOp(1, Offer("s", cpu)));
    ThenWorker(ops + [RegisterOp(1, Offer("s", cpu))], s, AssignOp(1, "s", 7, {}));
    ThenWorker(LoadedOps(spec, cpu), Assign(s, 1, "s", 7, {}).state, RegisterOp(1, again));
  }

  /** A worker that registers again with less: its reservations exceed what it offers. */
  lemma ReservedAboveOffered()
    ensures !Within(Exec(Empty(DEFAULTS, 0), OverloadedOps(Job(2, 0), 2)), 1, Cpu)
  {
    var spec := Job(2, 0);
    var s := Register(AfterSubmit(Empty(DEFAULTS, 0), spec, 1), 1, Offer("s", 2)).state;
    JobIsValid(2, 0);
    FirstSubmitted(spec);
    RegisterStaffs(AfterSubmit(Empty(DEFAULTS, 0), spec, 1), spec, 2);
    AssignLoads(s, spec, 2);
    ShrinkOverloads(Assign(s, 1, "s", 7, {}).state, spec);
    AgainReached(spec, 2, Offer("t", 1));
  }

  // ---- An engine named while an attempt is unresolved -----------------------------------------

  const NAMED: Registration := Registration("t", 2, 64, "e", false)

  lemma NamingSucceeds(s: State, spec: RunSpec)
    requires Loaded(s, spec)
    ensures
      var s' := Register(s, 1, NAMED).state;
      1 in s'.workers && s'.workers[1].engine == "e" && 7 in Pending(s.attempts, 1) && s'.attempts == s.attempts
  {
    assert 7 in Pending(s.attempts, 1);
  }

  /** The worker's engine goes from unnamed to "e" while attempt 7 is unresolved. */
  lemma EngineNamedUnderLoad()
    ensures
      var s := Exec(Empty(DEFAULTS, 0), LoadedOps(Job(2, 0), 2));
      1 in s.workers && s.workers[1].engine == "" && 7 in Pending(s.attempts, 1)
    ensures
      var s := Exec(Empty(DEFAULTS, 0), AgainOps(Job(2, 0), 2, NAMED));
      1 in s.workers && s.workers[1].engine == "e" && 7 in Pending(s.attempts, 1)
  {
    var spec := Job(2, 0);
    var s := Register(AfterSubmit(Empty(DEFAULTS, 0), spec, 1), 1, Offer("s", 2)).state;
    JobIsValid(2, 0);
    FirstSubmitted(spec);
    RegisterStaffs(AfterSubmit(Empty(DEFAULTS, 0), spec, 1), spec, 2);
    AssignLoads(s, spec, 2);
    NamingSucceeds(Assign(s, 1, "s", 7, {}).state, spec);
    AgainReached(spec, 2, NAMED);
  }

  // ---- New work while a launch is unacknowledged ----------------------------------------------

  const CAPABLE: Registration := Registration("s", 2, 64, "e", true)
  const SEEN: seq<Observed> := [Observed(5, "g", 1, true, "")]

  predicate Equipped(s: State, spec: RunSpec) {
    && s.runs == map[1 := FirstRun(spec)] && s.attempts == map[] && s.allocations == map[]
    && s.submissions.Keys == {Key(1)}
    && 1 in s.workers && s.workers[1] == Worker("s", 2, 64, false, 0, "e", true, true, 1, Some(0))
    && s.devices == map[5 := Device(1, "g", 1, true, true)]
    && s.now == 0 && s.timing == DEFAULTS
  }

  lemma CapableRegisters(s: State, spec: RunSpec)
    requires JustSubmitted(s, spec)
    ensures
      Register(s, 1, CAPABLE)
      == Tx(s.(workers := s.workers[1 := Worker("s", 2, 64, false, 0, "e", true, false, 0, None)]), Done)
  {
    assert Pending(s.attempts, 1) == {};
  }

  lemma InventoryEquips(s: State, spec: RunSpec)
    requires JustSubmitted(s, spec)
    ensures Equipped(ReportInventory(Register(s, 1, CAPABLE).state, 1, "s", 1, true, SEEN).state, spec)
  {
    CapableRegisters(s, spec);
    var t := Register(s, 1, CAPABLE).state;
    assert SEEN[..0] == [];
    assert Upserted(t.devices, 1, []) == map[];
    assert Upserted(t.devices, 1, SEEN) == map[5 := Device(1, "g", 1, true, true)];
    assert ValidSnapshot(1, SEEN);
  }

  predicate Launched(s: State, spec: RunSpec) {
    && s.runs == map[1 := Run(spec, Starting, 1, Some(7), 2, 0, 0, None, None)]
    && s.attempts.Keys == {7} && s.attempts[7] == FirstAttempt(spec).(worker := 1)
    && s.submissions.Keys == {Key(1)}
    && 1 in s.workers && s.workers[1] == Worker("s", 2, 64, false, 0, "e", true, true, 1, Some(0))
    && s.now == 0 && s.timing == DEFAULTS
  }

  lemma OneDeviceFree(s: State, spec: RunSpec)
    requires Equipped(s, spec)
    ensures UsableDevices(s, 1) == {5}
  {
    forall u
      ensures u in FreeDevices(s, 1) <==> u in {5}
    {
    }
    assert FreeDevices(s, 1) == {5};
  }

  lemma GpuLaunched(s: State, spec: RunSpec)
    requires Equipped(s, spec) && spec.resources == Resources(1, 32, 1)
    ensures Launched(Assign(s, 1, "s", 7, {}).state, spec)
  {
    NothingReserved(s, 1, Cpu);
    NothingReserved(s, 1, Memory);
    OneDeviceFree(s, spec);
    FitsWhen(s, 1, s.runs[1]);
    AssignsOnly(s, 1, "s", 7, 1);
    GpuRows(s, spec, Reserve(s.allocations, 7, ChosenDevices(s, 1, s.runs[1])));
  }

  lemma GpuRows(s: State, spec: RunSpec, allocations: map<AllocationKey, bool>)
    requires Equipped(s, spec)
    ensures Launched(Launch(s, 1, 7, 1).(allocations := allocations), spec)
  {
    LaunchIs(s, 1, 7, 1);
    assert NewAttempt(s, 1, 1) == FirstAttempt(spec).(worker := 1);
    assert FirstRun(spec).(status := Starting, active := Some(7), generation := 1, eventSequence := 2)
        == Run(spec, Starting, 1, Some(7), 2, 0, 0, None, None);
  }

  /** Half a minute later the inventory is stale, the worker alive, and a job without GPUs is queued. */
  predicate Stalled(s: State, spec: RunSpec, second: RunSpec) {
    && s.runs == map[1 := Run(spec, Starting, 1, Some(7), 2, 0, 0, None, None), 2 := FirstRun(second)]
    && s.attempts.Keys == {7} && s.attempts[7] == FirstAttempt(spec).(worker := 1)
    && 1 in s.workers && s.workers[1] == Worker("s", 2, 64, false, Seconds(31), "e", true, true, 1, Some(0))
    && s.now == Seconds(31) && s.timing == DEFAULTS
  }

  lemma SecondSubmitted(s: State, spec: RunSpec, second: RunSpec)
    requires Launched(s, spec) && ValidSubmission(second)
    ensures Stalled(
      WorkerHeartbeat(Tick(AfterSubmit(s, second, 2), Seconds(31)).state, 1, "s").state, spec, second)
  {
    assert |Key(1)| == 2 && |Key(2)| == 3;
    AfterSubmitIs(s, second, 2);
    assert Row(s, second) == FirstRun(second);
  }

  lemma StalledGrants(s: State, spec: RunSpec, second: RunSpec)
    requires Stalled(s, spec, second)
    requires spec.resources == Resources(1, 32, 1) && second.resources == Resources(1, 32, 0)
    ensures Assign(s, 1, "s", 8, {}).reply == Granted(8)
    ensures Unreported(Assign(s, 1, "s", 8, {}).state, 1, 7)
  {
    assert !GpuAvailable(s, s.workers[1]);
    assert Pending(s.attempts, 1) == {7};
    OneReserved(s, 1, Cpu, 7);
    OneReserved(s, 1, Memory, 7);
    FitsWhen(s, 1, s.runs[2]);
    AssignsOnly(s, 1, "s", 8, 2);
    LaunchIs(s, 2, 8, 1);
  }

  function StalledOps(spec: RunSpec, second: RunSpec): seq<Op> {
    [] + [SubmitRun(spec, 1)] + [RegisterOp(1, CAPABLE)] + [InventoryOp(1, "s", 1, true, SEEN)]
      + [AssignOp(1, "s", 7, {})] + [SubmitRun(second, 2)] + [TickOp(Seconds(31))] + [WorkerHeartbeatOp(1, "s")]
  }

  ghost function LaunchedState(spec: RunSpec): State {
    var s := Register(AfterSubmit(Empty(DEFAULTS, 0), spec, 1), 1, CAPABLE).state;
    Assign(ReportInventory(s, 1, "s", 1, true, SEEN).state, 1, "s", 7, {}).state
  }

  function LaunchedOps(spec: RunSpec): seq<Op> {
    [] + [SubmitRun(spec, 1)] + [RegisterOp(1, CAPABLE)] + [InventoryOp(1, "s", 1, true, SEEN)]
      + [AssignOp(1, "s", 7, {})]
  }

  lemma LaunchedReached(spec: RunSpec)
    ensures Reaches(LaunchedOps(spec), LaunchedState(spec))
  {
    var a := [] + [SubmitRun(spec, 1)];
    var b := a + [RegisterOp(1, CAPABLE)];
    var c := b + [InventoryOp(1, "s", 1, true, SEEN)];
    var submitted := AfterSubmit(Empty(DEFAULTS, 0), spec, 1);
    var registered := Register(submitted, 1, CAPABLE).state;
    Begin();
    ThenSubmit([], Empty(DEFAULTS, 0), spec, 1);
    ThenWorker(a, submitted, RegisterOp(1, CAPABLE));
    ThenWorker(b, registered, InventoryOp(1, "s", 1, true, SEEN));
    ThenWorker(c, ReportInventory(registered, 1, "s", 1, true, SEEN).state, AssignOp(1, "s", 7, {}));
  }

  ghost function StalledState(spec: RunSpec, second: RunSpec): State {
    WorkerHeartbeat(Tick(AfterSubmit(LaunchedState(spec), second, 2), Seconds(31)).state, 1, "s").state
  }

  lemma StalledReached(spec: RunSpec, second: RunSpec)
    ensures Reaches(StalledOps(spec, second), StalledState(spec, second))
  {
    var d := LaunchedOps(spec) + [SubmitRun(second, 2)];
    var s := AfterSubmit(LaunchedState(spec), second, 2);
    LaunchedReached(spec);
    ThenSubmit(LaunchedOps(spec), LaunchedState(spec), second, 2);
    ThenControl(d, s, TickOp(Seconds(31)));
    ThenWorker(d + [TickOp(Seconds(31))], Tick(s, Seconds(31)).state, WorkerHeartbeatOp(1, "s"));
  }

  lemma LaunchedIs(spec: RunSpec)
    requires ValidSubmission(spec) && spec.resources == Resources(1, 32, 1)
    ensures Launched(LaunchedState(spec), spec)
  {
    var s := AfterSubmit(Empty(DEFAULTS, 0), spec, 1);
    FirstSubmitted(spec);
    InventoryEquips(s, spec);
    GpuLaunched(ReportInventory(Register(s, 1, CAPABLE).state, 1, "s", 1, true, SEEN).state, spec);
  }

  lemma StalledIs(spec: RunSpec, second: RunSpec)
    requires ValidSubmission(spec) && spec.resources == Resources(1, 32, 1) && ValidSubmission(second)
    ensures Stalled(StalledState(spec, second), spec, second)
  {
    LaunchedIs(spec);
    SecondSubmitted(LaunchedState(spec), spec, second);
  }

  lemma StalledIsUnreported(s: State, spec: RunSpec, second: RunSpec)
    requires Stalled(s, spec, second)
    ensures Unreported(s, 1, 7)
  {
  }

  /** The worker is granted attempt 8 while attempt 7, launched before, was never acknowledged. */
  lemma NewWorkBeforeReplay()
    ensures
      var s := Exec(Empty(DEFAULTS, 0), StalledOps(Job(1, 1), Job(1, 0)));
      && Unreported(s, 1, 7)
      && Assign(s, 1, "s", 8, {}).reply == Granted(8)
      && Unreported(Assign(s, 1, "s", 8, {}).state, 1, 7)
  {
    var spec, second := Job(1, 1), Job(1, 0);
    JobIsValid(1, 1);
    JobIsValid(1, 0);
    StalledIs(spec, second);
    StalledIsUnreported(StalledState(spec, second), spec, second);
    StalledGrants(StalledState(spec, second), spec, second);
    StalledReached(spec, second);
  }
}
