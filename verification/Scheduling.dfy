/** Capacity, ranking, launch replay and device claims. */
module Scheduling {
  import opened Base
  import opened Domain
  import opened Tables
  import opened Transactions
  import opened Invariants
  import opened Preservation
  import opened Steps
  import opened Reachability

  // ---- Who creates and who cleans attempts ----------------------------------------------------

  lemma {:induction false} AddRunsKeepsAttempts(s: State, entries: seq<Entry>, sweep: Id)
    requires AddRuns(s, entries, sweep).Some?
    ensures AddRuns(s, entries, sweep).value.attempts == s.attempts
    ensures AddRuns(s, entries, sweep).value.workers == s.workers
  {
    if entries != [] {
      AddRunsKeepsAttempts(s, entries[..|entries| - 1], sweep);
    }
  }

  /** Nothing is inserted or cleaned, and only the reporter's acknowledged sequence may move. */
  ghost predicate SameCleanup(s: State, s': State, reporter: Option<Id> := None) {
    && s'.workers == s.workers
    && (forall a | a in s'.attempts ::
          && a in s.attempts && s'.attempts[a].cleaned == s.attempts[a].cleaned
          && LeaseKept(s, s.attempts[a], s'.attempts[a])
          && (s'.attempts[a].ack == s.attempts[a].ack || reporter == Some(a)))
  }

  /** The attempt a transaction may store telemetry for: an accepted report's own. */
  function ReportedBy(s: State, op: Op): Option<Id> {
    if op.ReportOp? && Owned(s, op.attempt, op.generation, op.instance) then Some(op.attempt) else None
  }

  /** A lease moves only to a full term from now, unless cancelled; a claim comes with one. */
  predicate LeaseKept(s: State, a: Attempt, a': Attempt) {
    var renewed := Some(s.now + Seconds(s.timing.lease));
    && (a'.leaseUntil == a.leaseUntil || a'.leaseUntil == renewed || a'.status.Cancelled?)
    && (a'.instance == a.instance || a'.leaseUntil == renewed)
  }

  lemma FailCleanup(s: State, id: Id, failure: Failure, reason: string, exitCode: Option<int>)
    requires Locks(s, id)
    ensures SameCleanup(s, Fail(s, id, failure, reason, exitCode))
  {
  }

  lemma StartCleanup(s: State, id: Id, g: int, i: string, node: string)
    ensures SameCleanup(s, Start(s, id, g, i, node).state)
  {
    var tx := Start(s, id, g, i, node);
    if tx.reply.Done? && s.attempts[id].instance == "" {
      assert tx.state.attempts == s.attempts[id := StartedRow(s, s.attempts[id], s.runs[s.attempts[id].run], i, node)];
    } else {
      assert tx.state == s;
    }
  }

  lemma HeartbeatCleanup(s: State, id: Id, g: int, i: string)
    ensures SameCleanup(s, Heartbeat(s, id, g, i).state)
  {
    var tx := Heartbeat(s, id, g, i);
    if tx.reply.Done? {
      assert tx.state.attempts == s.attempts[id := RenewedRow(s, s.attempts[id])];
    } else {
      assert tx.state == s;
    }
  }

  lemma FinalizeCleanup(s: State, id: Id, g: int, i: string)
    ensures SameCleanup(s, BeginFinalization(s, id, g, i).state)
  {
    var tx := BeginFinalization(s, id, g, i);
    if tx.reply.Done? && s.runs[s.attempts[id].run].status.Running? {
      assert tx.state.workers == s.workers;
      assert tx.state.attempts == s.attempts[id := FinalizingRow(s, s.attempts[id])];
    } else {
      assert tx.state == s;
    }
  }

  lemma ReportCleanup(s: State, id: Id, g: int, i: string, records: seq<Record>)
    ensures SameCleanup(s, Report(s, id, g, i, records).state, ReportedBy(s, ReportOp(id, g, i, records)))
  {
    var tx := Report(s, id, g, i, records);
    if tx.reply.Acked? {
      assert tx.state.attempts == s.attempts[id := s.attempts[id].(ack := tx.reply.sequence)];
    } else {
      assert tx.state == s;
    }
  }

  lemma FinishCleanup(s: State, id: Id, g: int, i: string, code: int, reason: string, n: int)
    ensures SameCleanup(s, Finish(s, id, g, i, code, reason, n).state)
  {
    var tx := Finish(s, id, g, i, code, reason, n);
    if !tx.reply.Done? || Completed(s, id, g, i, code) {
      assert tx.state == s;
    } else if code == 0 {
      assert tx.state.attempts == s.attempts[id := SucceededRow(s.attempts[id], reason)];
    } else {
      FailCleanup(s, id, FailureOf(reason), if reason == "" then "EXIT_ERROR" else reason, Some(code));
    }
  }

  lemma PublishCleanup(s: State, id: Id, g: int, i: string, path: string, value: Artifact)
    ensures SameCleanup(s, Publish(s, id, g, i, path, value).state)
  {
    PublishOutcome(s, id, g, i, path, value);
  }

  lemma RunnerCleanup(s: State, op: Op)
    requires RunnerOp(op)
    ensures SameCleanup(s, RunnerTx(s, op).state, ReportedBy(s, op))
  {
    match op
    case StartOp(a, g, i, node) => StartCleanup(s, a, g, i, node);
    case HeartbeatOp(a, g, i) => HeartbeatCleanup(s, a, g, i);
    case FinalizeOp(a, g, i) => FinalizeCleanup(s, a, g, i);
    case FinishOp(a, g, i, code, reason, n) => FinishCleanup(s, a, g, i, code, reason, n);
    case ReportOp(a, g, i, records) => ReportCleanup(s, a, g, i, records);
    case PublishOp(a, g, i, path, value) => PublishCleanup(s, a, g, i, path, value);
  }

  lemma SubmissionCleanup(s: State, op: Op)
    requires SubmissionOp(op)
    ensures SameCleanup(s, SubmissionTx(s, op).state)
  {
    match op
    case SubmitOp(spec, key, fp, id) => SubmitCleanup(s, spec, key, fp, id);
    case RerunOp(source, key, id) => RerunCleanup(s, source, key, id);
    case SweepOp(entries, key, fp, id) => SweepCleanup(s, entries, key, fp, id);
  }

  lemma AddCleanup(s: State, id: Id, spec: RunSpec, parent: Option<Id>, submissions: map<string, Submission>)
    ensures SameCleanup(s, AddRun(s, id, spec, None, parent).(submissions := submissions))
  {
  }

  lemma SubmitCleanup(s: State, spec: RunSpec, key: string, fingerprint: Fingerprint, id: Id)
    ensures SameCleanup(s, Submit(s, spec, key, fingerprint, id).state)
  {
    if Submit(s, spec, key, fingerprint, id).reply.Refused? || key in s.submissions {
      assert Submit(s, spec, key, fingerprint, id).state == s;
    } else {
      AddCleanup(s, id, spec, None, s.submissions[key := Submission(fingerprint, id)]);
    }
  }

  lemma RerunCleanup(s: State, source: Id, key: string, id: Id)
    ensures SameCleanup(s, Rerun(s, source, key, id).state)
  {
    if Rerun(s, source, key, id).reply.Refused? || key in s.submissions {
      assert Rerun(s, source, key, id).state == s;
    } else {
      AddCleanup(s, id, s.runs[source].spec, Some(source), s.submissions[key := Submission(OfRerun(source), id)]);
    }
  }

  lemma SweepCleanup(s: State, entries: seq<Entry>, key: string, fingerprint: Fingerprint, id: Id)
    ensures SameCleanup(s, SubmitSweep(s, entries, key, fingerprint, id).state)
  {
    if AddRuns(s, entries, id).Some? {
      AddRunsKeepsAttempts(s, entries, id);
    }
  }

  lemma CancelCleanup(s: State, run: Id)
    ensures SameCleanup(s, Cancel(s, run).state)
  {
    if run in s.runs && !Terminal(s.runs[run].status) {
      assert Cancel(s, run).state.workers == s.workers;
      assert Cancel(s, run).state.attempts == CancelAttempts(s.attempts, run, s.now);
    } else {
      assert Cancel(s, run).state == s;
    }
  }

  lemma RequeueCleanup(s: State)
    ensures SameCleanup(s, Requeue(s).state)
  {
  }

  lemma RecoverCleanup(s: State, id: Id)
    ensures SameCleanup(s, RecoverOne(s, id).state)
  {
    if Locks(s, id) {
      var v := Diagnose(s.runs[s.attempts[id].run], s.attempts[id], s.now);
      if v.Some? {
        FailCleanup(s, id, v.value.failure, v.value.reason, None);
      }
    }
  }

  lemma StoppedCleanup(s: State, id: Id)
    ensures SameCleanup(s, KubernetesStopped(s, id).state)
  {
    if Locks(s, id) {
      FailCleanup(s, id, Timeout, "TIMEOUT", None);
      FailCleanup(s, id, Infrastructure, "RUNTIME_STOPPED", None);
    }
  }

  lemma TickCleanup(s: State, now: Time)
    ensures SameCleanup(s, Tick(s, now).state)
  {
    assert Tick(s, now).state.attempts == s.attempts;
  }

  lemma ControlCleanup(s: State, op: Op)
    requires ControlOp(op)
    ensures SameCleanup(s, ControlTx(s, op).state)
  {
    match op
    case TickOp(now) => TickCleanup(s, now);
    case CancelOp(run) => CancelCleanup(s, run);
    case RequeueOp => RequeueCleanup(s);
    case RecoverOp(a) => RecoverCleanup(s, a);
  }

  /** An attempt is inserted by Assign or Admit only, for the worker that asked. */
  predicate Inserts(s: State, op: Op, id: Id, worker: Id) {
    && id !in s.attempts
    && ((op.AssignOp? && op.id == id && op.worker == worker) || (op.AdmitOp? && op.id == id && worker == KUBERNETES))
  }

  /** An attempt is cleaned only by the report of its own worker, or of the controller. */
  predicate Cleans(s: State, op: Op, id: Id) {
    && id in s.attempts
    && (|| (op.RuntimeOp? && op.attempt == id && op.stopped && Session(s, op.worker, op.session)
            && s.attempts[id].worker == op.worker)
        || (op.KubernetesRuntimeOp? && op.attempt == id && op.stopped && s.attempts[id].worker == KUBERNETES))
  }

  ghost predicate Accounted(s: State, op: Op, s': State) {
    && (forall a | a in s'.attempts && a !in s.attempts :: Inserts(s, op, a, s'.attempts[a].worker))
    && (forall a | a in s'.attempts && a in s.attempts && s'.attempts[a].cleaned != s.attempts[a].cleaned ::
          Cleans(s, op, a))
    && (forall a | a in s'.attempts && a in s.attempts ::
          && LeaseKept(s, s.attempts[a], s'.attempts[a])
          && (s'.attempts[a].ack == s.attempts[a].ack || ReportedBy(s, op) == Some(a)))
    && (forall w | w in s.workers :: w in s'.workers && EngineKept(s, op, s', w))
    && (forall w | w in s'.workers && w !in s.workers :: op.RegisterOp? && op.worker == w)
  }

  /** A worker's row changes shape only when it registers again, its engine only with nothing unresolved. */
  ghost predicate EngineKept(s: State, op: Op, s': State, w: Id)
    requires w in s.workers && w in s'.workers
  {
    var registers := op.RegisterOp? && op.worker == w;
    && (|| s'.workers[w].engine == s.workers[w].engine
        || (registers && (s.workers[w].engine == "" || Pending(s.attempts, w) == {})))
    && (|| registers
        || (&& s'.workers[w].cpuMillis == s.workers[w].cpuMillis
            && s'.workers[w].memoryMib == s.workers[w].memoryMib
            && s'.workers[w].gpuCapable == s.workers[w].gpuCapable))
  }

  lemma RegisterAccounted(s: State, w: Id, r: Registration)
    ensures Accounted(s, RegisterOp(w, r), Register(s, w, r).state)
  {
    var tx := Register(s, w, r);
    if tx.reply.Done? {
      assert tx.state.attempts == s.attempts;
      assert tx.state.workers == s.workers[w := tx.state.workers[w]];
    } else {
      assert tx.state == s;
    }
  }

  lemma InventoryAccounted(s: State, w: Id, session: string, n: int, ready: bool, devices: seq<Observed>)
    ensures Accounted(s, InventoryOp(w, session, n, ready, devices),
                      ReportInventory(s, w, session, n, ready, devices).state)
  {
    var tx := ReportInventory(s, w, session, n, ready, devices);
    assert tx.state.attempts == s.attempts;
    if tx.state != s {
      assert tx.state.workers == s.workers[w := tx.state.workers[w]];
    }
  }

  lemma RowAccounted(s: State, op: Op, w: Id, row: Worker)
    requires w in s.workers && row.engine == s.workers[w].engine
    requires row.cpuMillis == s.workers[w].cpuMillis && row.memoryMib == s.workers[w].memoryMib
    requires row.gpuCapable == s.workers[w].gpuCapable
    ensures Accounted(s, op, s.(workers := s.workers[w := row]))
  {
  }

  lemma FleetAccounted(s: State, op: Op)
    requires WorkerOp(op) && !op.AssignOp? && !op.RuntimeOp?
    ensures Accounted(s, op, WorkerTx(s, op).state)
  {
    match op
    case RegisterOp(w, r) => RegisterAccounted(s, w, r);
    case WorkerHeartbeatOp(w, session) =>
      if Session(s, w, session) {
        RowAccounted(s, op, w, s.workers[w].(heartbeatAt := s.now));
      }
    case DrainOp(w, d) =>
      if w in s.workers {
        RowAccounted(s, op, w, s.workers[w].(drained := d));
      }
    case InventoryOp(w, session, n, ready, devices) => InventoryAccounted(s, w, session, n, ready, devices);
  }

  lemma AssignAccounted(s: State, worker: Id, session: string, id: Id, skipped: set<Id>)
    ensures Accounted(s, AssignOp(worker, session, id, skipped), Assign(s, worker, session, id, skipped).state)
  {
    var tx := Assign(s, worker, session, id, skipped);
    if tx.reply.Granted? {
      var r := First(s.runs, Candidates(s, worker, skipped));
      assert tx.state.attempts == s.attempts[id := NewAttempt(s, r, worker)];
    } else {
      assert tx.state == s;
    }
  }

  lemma AdmitAccounted(s: State, limit: int, id: Id, skipped: set<Id>)
    ensures Accounted(s, AdmitOp(limit, id, skipped), Admit(s, limit, id, skipped).state)
  {
    var tx := Admit(s, limit, id, skipped);
    if tx.reply.Granted? {
      var r := First(s.runs, ReadyRuns(s, skipped));
      assert tx.state.attempts == s.attempts[id := NewAttempt(s, r, KUBERNETES)];
    } else {
      assert tx.state == s;
    }
  }

  lemma RuntimeAccounted(s: State, w: Id, session: string, a: Id, runtime: string, stopped: bool)
    ensures Accounted(s, RuntimeOp(w, session, a, runtime, stopped),
                      RuntimeReport(s, w, session, a, runtime, stopped).state)
  {
    var tx := RuntimeReport(s, w, session, a, runtime, stopped);
    if tx.reply.Done? && stopped {
      assert tx.state.attempts == s.attempts[a := s.attempts[a].(cleaned := true)];
    } else if tx.reply.Done? {
      assert tx.state.attempts == s.attempts[a := s.attempts[a].(runtime := Some(runtime))];
    } else {
      assert tx.state == s;
    }
  }

  lemma KubernetesRuntimeAccounted(s: State, a: Id, runtime: string, stopped: bool)
    ensures Accounted(s, KubernetesRuntimeOp(a, runtime, stopped), KubernetesRuntime(s, a, runtime, stopped).state)
  {
    var tx := KubernetesRuntime(s, a, runtime, stopped);
    if tx.reply.Done? && stopped {
      assert tx.state.attempts == s.attempts[a := s.attempts[a].(cleaned := true)];
    } else if tx.reply.Done? {
      assert tx.state.attempts == s.attempts[a := s.attempts[a].(runtime := Some(runtime))];
    } else {
      assert tx.state == s;
    }
  }

  lemma WorkerAccounted(s: State, op: Op)
    requires WorkerOp(op)
    ensures Accounted(s, op, WorkerTx(s, op).state)
  {
    match op
    case AssignOp(w, session, id, skipped) => AssignAccounted(s, w, session, id, skipped);
    case RuntimeOp(w, session, a, runtime, stopped) => RuntimeAccounted(s, w, session, a, runtime, stopped);
    case _ => FleetAccounted(s, op);
  }

  lemma KubernetesAccounted(s: State, op: Op)
    requires KubernetesOp(op)
    ensures Accounted(s, op, KubernetesTx(s, op).state)
  {
    match op
    case AdmitOp(limit, id, skipped) => AdmitAccounted(s, limit, id, skipped);
    case KubernetesStoppedOp(a) => StoppedCleanup(s, a);
    case KubernetesRuntimeOp(a, runtime, stopped) => KubernetesRuntimeAccounted(s, a, runtime, stopped);
  }

  lemma CleanupAccounted(s: State, op: Op, s': State)
    requires SameCleanup(s, s', ReportedBy(s, op))
    ensures Accounted(s, op, s')
  {
  }

  lemma RowsAccounted(s: State, op: Op)
    requires !WorkerOp(op) && !KubernetesOp(op)
    ensures SameCleanup(s, Step(s, op), ReportedBy(s, op))
  {
    if RunnerOp(op) {
      RunnerCleanup(s, op);
    } else if SubmissionOp(op) {
      SubmissionCleanup(s, op);
    } else {
      ControlCleanup(s, op);
    }
  }

  lemma FleetDispatch(s: State, op: Op)
    ensures WorkerOp(op) ==> Step(s, op) == WorkerTx(s, op).state
    ensures KubernetesOp(op) ==> Step(s, op) == KubernetesTx(s, op).state
  {
  }

  /** Whatever the transaction: who may insert, clean, renew or re-register. */
  lemma StepAccounted(s: State, op: Op)
    ensures Accounted(s, op, Step(s, op))
  {
    FleetDispatch(s, op);
    if WorkerOp(op) {
      WorkerAccounted(s, op);
    } else if KubernetesOp(op) {
      KubernetesAccounted(s, op);
    } else {
      RowsAccounted(s, op);
      CleanupAccounted(s, op, Step(s, op));
    }
  }

  /** What every committed transaction tells the actors around the store. */
  ghost predicate DbStep(s: State, op: Op, s': State) { Evolves(s, s') && Accounted(s, op, s') }

  // ---- No oversubscription --------------------------------------------------------------------

  /** What no longer pends frees what it held; specifications never change. */
  lemma ReservedShrinks(s: State, s': State, worker: Id, kind: Resource)
    requires Links(s.runs, s.attempts) && Budget(s.runs)
    requires RunsEvolve(s.runs, s'.runs, s.attempts) && AttemptsEvolve(s.attempts, s'.attempts)
    requires forall a | a in s'.attempts && a !in s.attempts :: s'.attempts[a].worker != worker
    ensures Reserved(s', worker, kind) <= Reserved(s, worker, kind)
  {
    var small, large := Demands(s', worker, kind), Demands(s, worker, kind);
    forall a | a in small
      ensures a in large && small[a] == large[a]
    {
      assert AttemptEvolves(s.attempts[a], s'.attempts[a]);
      assert RunEvolves(s.runs[s.attempts[a].run], s'.runs[s.attempts[a].run], s.attempts);
    }
    forall a | a in large
      ensures large[a] >= 0
    {
      assert RunBudget(s.runs[s.attempts[a].run]);
    }
    TotalSubset(small, large);
  }

  /** A launch adds exactly what its run asks for. */
  lemma LaunchReserves(s: State, run: Id, id: Id, worker: Id, kind: Resource)
    requires CanLaunch(s, run, id) && Links(s.runs, s.attempts)
    ensures Reserved(Launch(s, run, id, worker), worker, kind)
            == Reserved(s, worker, kind) + Demand(s.runs[run].spec, kind)
  {
    LaunchDemands(s, run, id, worker, kind);
    TotalInsert(Demands(s, worker, kind), id, Demand(s.runs[run].spec, kind));
  }

  lemma LaunchDemands(s: State, run: Id, id: Id, worker: Id, kind: Resource)
    requires CanLaunch(s, run, id) && Links(s.runs, s.attempts)
    ensures Demands(Launch(s, run, id, worker), worker, kind)
            == Demands(s, worker, kind)[id := Demand(s.runs[run].spec, kind)]
  {
    var s' := Launch(s, run, id, worker);
    assert Pending(s'.attempts, worker) == Pending(s.attempts, worker) + {id};
  }

  lemma SameReserved(s: State, s': State, worker: Id, kind: Resource)
    requires s'.runs == s.runs && s'.attempts == s.attempts
    ensures Reserved(s', worker, kind) == Reserved(s, worker, kind)
  {
  }

  function Offered(s: State, worker: Id, kind: Resource): int {
    if worker in s.workers then Capacity(s.workers[worker], kind) else 0
  }

  /** Every new assignment fits what its worker offers at that moment. */
  lemma GrantFits(s: State, worker: Id, session: string, id: Id, skipped: set<Id>, kind: Resource)
    requires Links(s.runs, s.attempts) && Assign(s, worker, session, id, skipped).reply.Granted?
    ensures
      var s' := Assign(s, worker, session, id, skipped).state;
      Reserved(s', worker, kind) <= Offered(s, worker, kind) == Offered(s', worker, kind)
  {
    var r := First(s.runs, Candidates(s, worker, skipped));
    LaunchReserves(s, r, id, worker, kind);
    SameReserved(Launch(s, r, id, worker), Assign(s, worker, session, id, skipped).state, worker, kind);
  }

  /** The largest capacity the worker ever registered. */
  ghost function Peak(s: State, ops: seq<Op>, worker: Id, kind: Resource): int {
    if ops == [] then Max(0, Offered(s, worker, kind))
    else Max(Peak(s, ops[..|ops| - 1], worker, kind), Offered(Exec(s, ops), worker, kind))
  }

  lemma ReservedStep(s: State, op: Op, worker: Id, kind: Resource)
    requires Inv(s) && worker != KUBERNETES
    ensures
      || Reserved(Step(s, op), worker, kind) <= Reserved(s, worker, kind)
      || Reserved(Step(s, op), worker, kind) <= Offered(Step(s, op), worker, kind)
  {
    if op.AssignOp? && op.worker == worker && Assign(s, worker, op.session, op.id, op.skipped).reply.Granted? {
      GrantStep(s, op, worker, kind);
    } else {
      StepKeeps(s, op);
      StepAccounted(s, op);
      OthersReserved(s, op, worker, kind);
    }
  }

  lemma GrantStep(s: State, op: Op, worker: Id, kind: Resource)
    requires Links(s.runs, s.attempts) && op.AssignOp? && op.worker == worker
    requires Assign(s, worker, op.session, op.id, op.skipped).reply.Granted?
    ensures Reserved(Step(s, op), worker, kind) <= Offered(Step(s, op), worker, kind)
  {
    GrantFits(s, worker, op.session, op.id, op.skipped, kind);
    AssignDispatch(s, op);
  }

  lemma AssignDispatch(s: State, op: Op)
    requires op.AssignOp?
    ensures Step(s, op) == Assign(s, op.worker, op.session, op.id, op.skipped).state
  {
  }

  lemma OthersReserved(s: State, op: Op, worker: Id, kind: Resource)
    requires Core(s) && Evolves(s, Step(s, op)) && Accounted(s, op, Step(s, op)) && worker != KUBERNETES
    requires !(op.AssignOp? && op.worker == worker && Assign(s, worker, op.session, op.id, op.skipped).reply.Granted?)
    ensures Reserved(Step(s, op), worker, kind) <= Reserved(s, worker, kind)
  {
    ReservedShrinks(s, Step(s, op), worker, kind);
  }

  /** Pending attempts never hold more of a worker than the largest capacity it ever registered. */
  lemma {:induction false} NeverOversubscribed(timing: Timing, now: Time, ops: seq<Op>, worker: Id, kind: Resource)
    requires ValidTiming(timing) && worker != KUBERNETES
    ensures Reserved(Exec(Empty(timing, now), ops), worker, kind) <= Peak(Empty(timing, now), ops, worker, kind)
  {
    var s := Empty(timing, now);
    if ops == [] {
      assert Demands(s, worker, kind) == map[];
    } else {
      NeverOversubscribed(timing, now, ops[..|ops| - 1], worker, kind);
      Reachable(timing, now, ops[..|ops| - 1]);
      ReservedStep(Exec(s, ops[..|ops| - 1]), ops[|ops| - 1], worker, kind);
    }
  }

  ghost predicate Within(s: State, worker: Id, kind: Resource) {
    Reserved(s, worker, kind) <= Offered(s, worker, kind)
  }

  /** Only a registration can take a worker's reservations past its current capacity. */
  lemma WithinUntilRegistered(s: State, op: Op, worker: Id, kind: Resource)
    requires Inv(s) && worker in s.workers && Within(s, worker, kind) && !(op.RegisterOp? && op.worker == worker)
    ensures Within(Step(s, op), worker, kind)
  {
    StepAccounted(s, op);
    ReservedStep(s, op, worker, kind);
    SameOffer(s, op, Step(s, op), worker, kind);
  }

  lemma SameOffer(s: State, op: Op, s': State, worker: Id, kind: Resource)
    requires Accounted(s, op, s') && worker in s.workers && !(op.RegisterOp? && op.worker == worker)
    ensures Offered(s', worker, kind) == Offered(s, worker, kind)
  {
  }

  /** And it does exactly when the new capacity is below what is reserved: capacity may shrink under load. */
  lemma RegistrationMayShrink(s: State, worker: Id, r: Registration, kind: Resource)
    requires Register(s, worker, r).reply.Done?
    ensures Within(Register(s, worker, r).state, worker, kind) <==>
      Reserved(s, worker, kind) <= (match kind case Cpu => r.cpuMillis case Memory => r.memoryMib)
  {
    SameReserved(s, Register(s, worker, r).state, worker, kind);
  }

  // ---- The choice -----------------------------------------------------------------------------

  /** A run fits when its CPU, its memory and its GPUs do. */
  lemma FitsWhen(s: State, worker: Id, r: Run)
    requires worker in s.workers && r.spec.resources.gpuCount <= |UsableDevices(s, worker)|
    requires Reserved(s, worker, Cpu) + r.spec.resources.cpuMillis <= s.workers[worker].cpuMillis
    requires Reserved(s, worker, Memory) + r.spec.resources.memoryMib <= s.workers[worker].memoryMib
    ensures Fits(s, worker, r)
  {
    forall kind
      ensures Demand(r.spec, kind) <= Capacity(s.workers[worker], kind) - Reserved(s, worker, kind)
    {
      match kind
      case Cpu =>
      case Memory =>
    }
  }

  /** The run granted is the first, by priority, age and id, of all that are ready and fit. */
  lemma GrantsFirst(s: State, worker: Id, session: string, id: Id, skipped: set<Id>)
    requires Links(s.runs, s.attempts) && Assign(s, worker, session, id, skipped).reply.Granted?
    ensures
      var s' := Assign(s, worker, session, id, skipped).state;
      && id in s'.attempts && s'.attempts[id].run in s.runs
      && var chosen := s'.attempts[id].run;
      && Ready(s, s.runs[chosen]) && Fits(s, worker, s.runs[chosen])
      && (forall r | r in s.runs && r !in skipped && r != chosen && Ready(s, s.runs[r]) && Fits(s, worker, s.runs[r]) ::
            Before(s.runs, chosen, r))
  {
  }

  /** Nothing is withheld: a live worker with no launch to replay goes idle only when nothing fits. */
  lemma IdleMeansNothingFits(s: State, worker: Id, session: string, id: Id, skipped: set<Id>)
    requires Session(s, worker, session) && Available(s, s.workers[worker]) && !s.workers[worker].drained
    requires forall a :: !Unacknowledged(s, worker, a)
    ensures
      Assign(s, worker, session, id, skipped).reply.Idle? <==>
      forall r | r in s.runs && r !in skipped && Ready(s, s.runs[r]) :: !Fits(s, worker, s.runs[r])
  {
    var c := Candidates(s, worker, skipped);
    if forall r | r in s.runs && r !in skipped && Ready(s, s.runs[r]) :: !Fits(s, worker, s.runs[r]) {
      assert c == {};
    } else {
      var r :| r in s.runs && r !in skipped && Ready(s, s.runs[r]) && Fits(s, worker, s.runs[r]);
      assert r in c;
    }
  }

  // ---- Launch replay --------------------------------------------------------------------------

  /** The starting attempts a worker has not acknowledged, fresh inventory or not. */
  predicate Unreported(s: State, worker: Id, a: Id) {
    && Locks(s, a)
    && s.runs[s.attempts[a].run].active == Some(a) && s.attempts[a].worker == worker
    && s.attempts[a].status.Starting? && s.attempts[a].runtime.None? && LaunchValid(s.attempts[a], s.now)
  }

  /**
   * A worker is handed new work while an earlier launch is unacknowledged exactly when that
   * launch holds devices and the worker's inventory is stale.
   */
  lemma ReplayComesFirst(s: State, worker: Id, session: string, id: Id, skipped: set<Id>)
    requires Session(s, worker, session) && Available(s, s.workers[worker])
    ensures
      Assign(s, worker, session, id, skipped).reply.Replayed? <==>
      exists a :: Unreported(s, worker, a)
                  && (s.attempts[a].gpuCount == 0 || GpuAvailable(s, s.workers[worker]))
    ensures Assign(s, worker, session, id, skipped).reply.Replayed? ==>
      Assign(s, worker, session, id, skipped).state == s
  {
    assert forall a :: Unacknowledged(s, worker, a) <==>
      Unreported(s, worker, a) && (s.attempts[a].gpuCount == 0 || GpuAvailable(s, s.workers[worker]));
  }

  /** The poll right after a grant returns that very attempt and no other. */
  lemma NextPollRepeats(s: State, worker: Id, session: string, id: Id, skipped: set<Id>, id': Id, skipped': set<Id>)
    requires Inv(s) && Assign(s, worker, session, id, skipped).reply.Granted?
    ensures
      var s' := Assign(s, worker, session, id, skipped).state;
      && Assign(s', worker, session, id', skipped') == Tx(s', Replayed)
      && Replayable(s', worker, id)
      && (forall a | Replayable(s', worker, a) :: a == id)
  {
    var s' := Assign(s, worker, session, id, skipped).state;
    GrantedIsUnacknowledged(s, worker, session, id, skipped);
    forall a | Unacknowledged(s', worker, a)
      ensures a == id
    {
      assert a != id ==> Unacknowledged(s, worker, a);
    }
  }

  lemma GrantedIsUnacknowledged(s: State, worker: Id, session: string, id: Id, skipped: set<Id>)
    requires ValidTiming(s.timing) && Budget(s.runs) && Assign(s, worker, session, id, skipped).reply.Granted?
    ensures Unacknowledged(Assign(s, worker, session, id, skipped).state, worker, id)
  {
  }
}
