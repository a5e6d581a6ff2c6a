/** Every transaction keeps the invariant and relates the states around it by Evolves. */
module Steps {
  import opened Base
  import opened Domain
  import opened Tables
  import opened Transactions
  import opened Invariants
  import opened Preservation

  lemma EvolvesSelf(s: State)
    ensures Evolves(s, s)
  {
  }

  // ---- Parts that a transaction leaves alone --------------------------------------------------

  lemma SameCore(s: State, s': State)
    requires Core(s) && s'.timing == s.timing && s'.now == s.now && s'.runs == s.runs && s'.attempts == s.attempts
    ensures Core(s')
  {
  }

  lemma SameOutputs(s: State, s': State)
    requires Outputs(s) && s'.attempts == s.attempts && s'.telemetry == s.telemetry
    requires s'.artifacts == s.artifacts && s'.runs == s.runs && s'.submissions == s.submissions
    ensures Outputs(s')
  {
  }

  lemma SameGpus(s: State, s': State)
    requires Gpus(s) && s'.attempts == s.attempts && s'.workers == s.workers
    requires s'.devices == s.devices && s'.allocations == s.allocations
    ensures Gpus(s')
  {
  }

  // ---- The shared updates ---------------------------------------------------------------------

  lemma MoveOutputs(s: State, id: Id, a: Attempt, r: Run, kind: EventKind)
    requires CanMove(s, id, a, r, kind) && Outputs(s)
    ensures Outputs(Move(s, id, a, r, kind))
  {
  }

  lemma MoveRows(s: State, id: Id, a: Attempt, r: Run, kind: EventKind)
    requires CanMove(s, id, a, r, kind)
    ensures var s' := Move(s, id, a, r, kind);
      RunsEvolve(s.runs, s'.runs, s.attempts) && AttemptsEvolve(s.attempts, s'.attempts)
  {
  }

  lemma MoveFenced(s: State, id: Id, a: Attempt, r: Run, kind: EventKind)
    requires CanMove(s, id, a, r, kind)
    requires Dead(s, id) ==> Frozen(s.attempts[id], a)
    ensures Fenced(s, Move(s, id, a, r, kind))
  {
  }

  lemma MoveEvolves(s: State, id: Id, a: Attempt, r: Run, kind: EventKind)
    requires CanMove(s, id, a, r, kind)
    requires EventKey(a.run, r.eventSequence + 1) !in s.events
    requires Dead(s, id) ==> Frozen(s.attempts[id], a)
    ensures Evolves(s, Move(s, id, a, r, kind))
  {
    MoveRows(s, id, a, r, kind);
    MoveFenced(s, id, a, r, kind);
  }

  lemma NextEventFree(s: State, run: Id)
    requires run in s.runs && History(s.runs, s.events)
    ensures EventKey(run, s.runs[run].eventSequence + 1) !in s.events
  {
  }

  lemma MoveStep(s: State, id: Id, a: Attempt, r: Run, kind: EventKind)
    requires CanMove(s, id, a, r, kind) && Inv(s)
    requires Dead(s, id) ==> Frozen(s.attempts[id], a)
    ensures Inv(Move(s, id, a, r, kind)) && Evolves(s, Move(s, id, a, r, kind))
  {
    MoveCore(s, id, a, r, kind);
    CommitHistory(s, a.run, r, kind);
    MoveGpus(s, id, a, r, kind);
    MoveOutputs(s, id, a, r, kind);
    NextEventFree(s, a.run);
    MoveEvolves(s, id, a, r, kind);
  }

  lemma TouchEvolves(s: State, id: Id, a: Attempt)
    requires CanTouch(s, id, a)
    requires Dead(s, id) ==> Frozen(s.attempts[id], a)
    ensures Evolves(s, SetAttempt(s, id, a))
  {
  }

  lemma TouchOutputs(s: State, id: Id, a: Attempt)
    requires id in s.attempts && a.ack == s.attempts[id].ack && Outputs(s)
    ensures Outputs(SetAttempt(s, id, a))
  {
  }

  lemma TouchStep(s: State, id: Id, a: Attempt)
    requires CanTouch(s, id, a) && Inv(s)
    requires a.cleaned == s.attempts[id].cleaned && a.ack == s.attempts[id].ack
    requires Dead(s, id) ==> Frozen(s.attempts[id], a)
    ensures Inv(SetAttempt(s, id, a)) && Evolves(s, SetAttempt(s, id, a))
  {
    TouchCore(s, id, a);
    TouchGpus(s, id, a);
    TouchOutputs(s, id, a);
    TouchEvolves(s, id, a);
  }

  lemma LaunchQuotas(s: State, id: Id, a: Attempt)
    requires Quotas(s.attempts, s.artifacts) && id !in s.attempts
    ensures Quotas(s.attempts[id := a], s.artifacts)
  {
    assert ArtifactsOf(s.artifacts, id) == map[];
  }

  lemma LaunchOutputs(s: State, run: Id, id: Id, worker: Id)
    requires CanLaunch(s, run, id) && Outputs(s)
    ensures Outputs(Launch(s, run, id, worker))
  {
    LaunchQuotas(s, id, NewAttempt(s, run, worker));
  }

  lemma LaunchRows(s: State, run: Id, id: Id, worker: Id)
    requires CanLaunch(s, run, id)
    ensures var s' := Launch(s, run, id, worker);
      && RunsEvolve(s.runs, s'.runs, s.attempts) && AttemptsEvolve(s.attempts, s'.attempts) && Fenced(s, s')
  {
  }

  lemma ReserveEvolves(s: State, s': State, id: Id, uuids: set<Id>)
    requires id !in s.attempts && s'.devices == s.devices
    requires s'.allocations == Reserve(s.allocations, id, uuids)
    requires forall k | k in s.allocations :: k.attempt in s.attempts
    ensures AllocationsEvolve(s, s')
  {
  }

  lemma LaunchEvolves(s: State, run: Id, id: Id, worker: Id, uuids: set<Id>)
    requires CanLaunch(s, run, id)
    requires EventKey(run, s.runs[run].eventSequence + 1) !in s.events
    requires forall k | k in s.allocations :: k.attempt in s.attempts
    ensures Evolves(s, Launch(s, run, id, worker).(allocations := Reserve(s.allocations, id, uuids)))
  {
    var s' := Launch(s, run, id, worker).(allocations := Reserve(s.allocations, id, uuids));
    LaunchRows(s, run, id, worker);
    ReserveEvolves(s, s', id, uuids);
    assert Fenced(s, s');
  }

  lemma LaunchHistory(s: State, run: Id, id: Id, worker: Id)
    requires CanLaunch(s, run, id) && History(s.runs, s.events)
    ensures var s' := Launch(s, run, id, worker); History(s'.runs, s'.events)
  {
    var r := s.runs[run];
    CommitHistory(s, run, r.(status := Starting, active := Some(id), generation := r.generation + 1), Assigned);
  }

  lemma LaunchInv(s: State, run: Id, id: Id, worker: Id, uuids: set<Id>)
    requires CanLaunch(s, run, id) && Inv(s)
    requires Gpus(Launch(s, run, id, worker).(allocations := Reserve(s.allocations, id, uuids)))
    ensures Inv(Launch(s, run, id, worker).(allocations := Reserve(s.allocations, id, uuids)))
  {
    var l := Launch(s, run, id, worker);
    var s' := l.(allocations := Reserve(s.allocations, id, uuids));
    LaunchCore(s, run, id, worker);
    SameCore(l, s');
    LaunchOutputs(s, run, id, worker);
    SameOutputs(l, s');
    LaunchHistory(s, run, id, worker);
  }

  lemma LaunchStep(s: State, run: Id, id: Id, worker: Id, uuids: set<Id>)
    requires CanLaunch(s, run, id) && Inv(s)
    requires worker == KUBERNETES || worker in s.workers
    requires uuids <= FreeDevices(s, worker)
    requires worker != KUBERNETES ==> |uuids| == s.runs[run].spec.resources.gpuCount
    ensures var s' := Launch(s, run, id, worker).(allocations := Reserve(s.allocations, id, uuids));
      Inv(s') && Evolves(s, s')
  {
    LaunchGpus(s, run, id, worker, uuids);
    LaunchInv(s, run, id, worker, uuids);
    NextEventFree(s, run);
    LaunchEvolves(s, run, id, worker, uuids);
  }

  lemma SubmissionBudget(spec: RunSpec, now: Time, sweep: Option<Id>, parent: Option<Id>)
    requires ValidSubmission(spec)
    ensures RunBudget(NewRun(spec, now, sweep, parent).(eventSequence := 1))
  {
  }

  predicate CanAdd(s: State, id: Id, spec: RunSpec) {
    id !in s.runs && RunBudget(NewRun(spec, s.now, None, None).(eventSequence := 1))
  }

  lemma AddRunCore(s: State, id: Id, spec: RunSpec, sweep: Option<Id>, parent: Option<Id>)
    requires Core(s) && CanAdd(s, id, spec)
    ensures Core(AddRun(s, id, spec, sweep, parent))
  {
  }

  lemma AddRunEvolves(s: State, id: Id, spec: RunSpec, sweep: Option<Id>, parent: Option<Id>)
    requires id !in s.runs && EventKey(id, 1) !in s.events
    ensures Evolves(s, AddRun(s, id, spec, sweep, parent))
  {
  }

  lemma AddRunStep(s: State, id: Id, spec: RunSpec, sweep: Option<Id>, parent: Option<Id>)
    requires Inv(s) && CanAdd(s, id, spec)
    ensures Inv(AddRun(s, id, spec, sweep, parent)) && Evolves(s, AddRun(s, id, spec, sweep, parent))
  {
    AddRunHistory(s, id, spec, sweep, parent);
    AddRunCore(s, id, spec, sweep, parent);
    AddRunEvolves(s, id, spec, sweep, parent);
  }

  // ---- Ownership ------------------------------------------------------------------------------

  ghost predicate Stepped(s: State, s': State) { Inv(s') && Evolves(s, s') }

  predicate Executing(s: State, id: Id) {
    && Locks(s, id)
    && s.runs[s.attempts[id].run].active == Some(id) && Active(s.runs[s.attempts[id].run].status)
  }

  lemma FailMoves(s: State, id: Id, failure: Failure, reason: string, exitCode: Option<int>)
    requires Core(s) && Executing(s, id)
    ensures
      var a, r := s.attempts[id], s.runs[s.attempts[id].run];
      var r' := RetriedRow(s, a, r, failure);
      && CanMove(s, id, FailedRow(a, reason, exitCode), r', if r'.status.RetryWait? then RetryScheduled else GaveUp)
      && Frozen(a, FailedRow(a, reason, exitCode))
  {
  }

  lemma FailStep(s: State, id: Id, failure: Failure, reason: string, exitCode: Option<int>)
    requires Inv(s) && Executing(s, id)
    ensures Inv(Fail(s, id, failure, reason, exitCode)) && Evolves(s, Fail(s, id, failure, reason, exitCode))
  {
    FailMoves(s, id, failure, reason, exitCode);
    var a, r := s.attempts[id], s.runs[s.attempts[id].run];
    var r' := RetriedRow(s, a, r, failure);
    MoveStep(s, id, FailedRow(a, reason, exitCode), r', if r'.status.RetryWait? then RetryScheduled else GaveUp);
  }

  /** Start proceeds only for the executing attempt inside its launch window. */
  lemma StartMoves(s: State, id: Id, instance: string, node: string)
    requires Core(s) && Executing(s, id) && instance != ""
    requires s.runs[s.attempts[id].run].status.Starting? && LaunchValid(s.attempts[id], s.now)
    ensures
      var a, r := s.attempts[id], s.runs[s.attempts[id].run];
      CanMove(s, id, StartedRow(s, a, r, instance, node), r.(status := Running), Started) && !Dead(s, id)
  {
  }

  lemma StartStep(s: State, id: Id, generation: int, instance: string, node: string)
    requires Inv(s)
    ensures Stepped(s, Start(s, id, generation, instance, node).state)
  {
    if Start(s, id, generation, instance, node).reply.Done? && s.attempts[id].instance == "" {
      StartMoves(s, id, instance, node);
      var a, r := s.attempts[id], s.runs[s.attempts[id].run];
      MoveStep(s, id, StartedRow(s, a, r, instance, node), r.(status := Running), Started);
    } else {
      EvolvesSelf(s);
    }
  }

  /** The ownership check implies that the attempt is alive and agrees with its run. */
  lemma OwnedIsLive(s: State, id: Id, generation: int, instance: string)
    requires Core(s) && Owned(s, id, generation, instance)
    ensures Executing(s, id) && !Dead(s, id) && s.attempts[id].status == s.runs[s.attempts[id].run].status
  {
  }

  lemma HeartbeatTouches(s: State, id: Id, generation: int, instance: string)
    requires Core(s) && Owned(s, id, generation, instance)
    ensures CanTouch(s, id, RenewedRow(s, s.attempts[id]))
  {
  }

  lemma HeartbeatStep(s: State, id: Id, generation: int, instance: string)
    requires Inv(s)
    ensures Stepped(s, Heartbeat(s, id, generation, instance).state)
  {
    if Owned(s, id, generation, instance) {
      HeartbeatTouches(s, id, generation, instance);
      OwnedIsLive(s, id, generation, instance);
      TouchStep(s, id, RenewedRow(s, s.attempts[id]));
    } else {
      EvolvesSelf(s);
    }
  }

  lemma FinalizeMoves(s: State, id: Id, generation: int, instance: string)
    requires Core(s) && Owned(s, id, generation, instance) && s.runs[s.attempts[id].run].status.Running?
    ensures
      var a, r := s.attempts[id], s.runs[s.attempts[id].run];
      CanMove(s, id, FinalizingRow(s, a), r.(status := Finalizing), FinalizationBegun)
  {
  }

  lemma FinalizeStep(s: State, id: Id, generation: int, instance: string)
    requires Inv(s)
    ensures Stepped(s, BeginFinalization(s, id, generation, instance).state)
  {
    if Owned(s, id, generation, instance) && s.runs[s.attempts[id].run].status.Running? {
      FinalizeMoves(s, id, generation, instance);
      OwnedIsLive(s, id, generation, instance);
      var a, r := s.attempts[id], s.runs[s.attempts[id].run];
      MoveStep(s, id, FinalizingRow(s, a), r.(status := Finalizing), FinalizationBegun);
    } else {
      EvolvesSelf(s);
    }
  }

  lemma SucceedMoves(s: State, id: Id, generation: int, instance: string, reason: string)
    requires Core(s) && Owned(s, id, generation, instance) && s.runs[s.attempts[id].run].status.Finalizing?
    ensures
      var a, r := s.attempts[id], s.runs[s.attempts[id].run];
      CanMove(s, id, SucceededRow(a, reason), r.(status := Succeeded), Succeeding)
  {
  }

  lemma SucceedStep(s: State, id: Id, generation: int, instance: string, reason: string)
    requires Inv(s) && Owned(s, id, generation, instance) && s.runs[s.attempts[id].run].status.Finalizing?
    ensures
      var s' := Move(s, id, SucceededRow(s.attempts[id], reason),
                     s.runs[s.attempts[id].run].(status := Succeeded), Succeeding);
      Inv(s') && Evolves(s, s')
  {
    OwnedIsLive(s, id, generation, instance);
    SucceedMoves(s, id, generation, instance, reason);
    var a, r := s.attempts[id], s.runs[s.attempts[id].run];
    MoveStep(s, id, SucceededRow(a, reason), r.(status := Succeeded), Succeeding);
  }

  lemma FinishStep(
    s: State, id: Id, generation: int, instance: string, exitCode: int, reason: string, finalSequence: int)
    requires Inv(s)
    ensures Stepped(s, Finish(s, id, generation, instance, exitCode, reason, finalSequence).state)
  {
    if !Owned(s, id, generation, instance) || Completed(s, id, generation, instance, exitCode)
       || s.attempts[id].ack != finalSequence {
      EvolvesSelf(s);
    } else if exitCode != 0 {
      OwnedIsLive(s, id, generation, instance);
      FailStep(s, id, FailureOf(reason), if reason == "" then "EXIT_ERROR" else reason, Some(exitCode));
    } else if s.runs[s.attempts[id].run].status.Finalizing? {
      SucceedStep(s, id, generation, instance, reason);
    } else {
      EvolvesSelf(s);
    }
  }

  lemma ActiveIsExecuting(s: State, id: Id)
    requires Agree(s.runs, s.attempts) && id in s.attempts && Active(s.attempts[id].status)
    ensures Executing(s, id) && s.attempts[id].status == s.runs[s.attempts[id].run].status
  {
  }

  ghost function Fault(s: State, id: Id): Option<Verdict> {
    if Executing(s, id) then Diagnose(s.runs[s.attempts[id].run], s.attempts[id], s.now) else None
  }

  /** Recovery acts exactly on an executing attempt that has a fault. */
  lemma RecoverActs(s: State, id: Id)
    requires Agree(s.runs, s.attempts)
    ensures
      if Fault(s, id).Some?
      then RecoverOne(s, id).state == Fail(s, id, Fault(s, id).value.failure, Fault(s, id).value.reason, None)
      else RecoverOne(s, id).state == s
  {
  }

  lemma RecoverStep(s: State, id: Id)
    requires Inv(s)
    ensures Stepped(s, RecoverOne(s, id).state)
  {
    RecoverActs(s, id);
    if Fault(s, id).Some? {
      FailStep(s, id, Fault(s, id).value.failure, Fault(s, id).value.reason, None);
    } else {
      EvolvesSelf(s);
    }
  }

  lemma KubernetesStoppedStep(s: State, id: Id)
    requires Inv(s)
    ensures Stepped(s, KubernetesStopped(s, id).state)
  {
    if id in s.attempts && s.attempts[id].worker == KUBERNETES && Active(s.attempts[id].status) {
      ActiveIsExecuting(s, id);
      var late := s.runs[s.attempts[id].run].status.Running? && !DeadlineValid(s.attempts[id], s.now);
      FailStep(s, id, if late then Timeout else Infrastructure, if late then "TIMEOUT" else "RUNTIME_STOPPED", None);
    } else {
      EvolvesSelf(s);
    }
  }
}
