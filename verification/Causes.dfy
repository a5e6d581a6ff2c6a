/** Which transaction moves an attempt on or closes it, and when a run may start again. */
module Causes {
  import opened Base
  import opened Domain
  import opened Tables
  import opened Transactions
  import opened Invariants
  import opened Steps
  import opened Reachability

  /** The shortest delay before a retry, in seconds. */
  function ShortestDelay(t: Timing): int { Min(Max(1, t.retryMax), Max(1, t.retryBase)) }

  lemma RetryDelayIsLonger(generation: int, t: Timing)
    ensures RetryDelay(generation, t.retryBase, t.retryMax) >= ShortestDelay(t)
  {
    var b, p := Max(1, t.retryBase), Pow2(Clamp(generation, 1, 31) - 1);
    assert b * p >= b;
  }

  /** What a transaction may do to an executing attempt besides claiming, renewing or cancelling it. */
  datatype Cause = Nothing | Finalizes(attempt: Id) | Closes(attempt: Id)

  ghost function CauseOf(s: State, op: Op): Cause {
    match op
    case FinalizeOp(a, g, i) => if Owned(s, a, g, i) then Finalizes(a) else Nothing
    case FinishOp(a, g, i, _, _, _) => if Owned(s, a, g, i) then Closes(a) else Nothing
    case KubernetesStoppedOp(a) => Closes(a)
    case RecoverOp(a) => if Fault(s, a).Some? then Closes(a) else Nothing
    case _ => Nothing
  }

  /** Nothing else moves an attempt's status; a claim makes it run and starts its execution deadline. */
  predicate AttemptMoves(s: State, id: Id, x: Attempt, x': Attempt, cause: Cause) {
    && (|| x'.status == x.status || x'.status.Cancelled?
        || (cause == Closes(id) && !Active(x'.status))
        || (x.status.Starting? && x'.status.Running?)
        || (x.status.Running? && x'.status.Finalizing? && cause == Finalizes(id)))
    && (x'.instance == x.instance || x.run !in s.runs
        || (x'.status.Running? && x'.executionDeadline == Some(s.now + Seconds(s.runs[x.run].spec.timeoutSeconds))))
  }

  /** A failure delays its run, and no run starts before it is due. */
  predicate RunMoves(s: State, r: Run, r': Run) {
    && (|| r'.availableAt == r.availableAt
        || (Active(r.status) && r'.availableAt >= s.now + Seconds(ShortestDelay(s.timing))))
    && (Active(r.status) && r'.status.RetryWait? ==> r'.availableAt >= s.now + Seconds(ShortestDelay(s.timing)))
    && (r'.status.Starting? && !r.status.Starting? ==> r.availableAt <= s.now)
  }

  ghost predicate Moves(s: State, s': State, cause: Cause) {
    && (forall a | a in s.attempts && a in s'.attempts ::
          AttemptMoves(s, a, s.attempts[a], s'.attempts[a], cause))
    && (forall r | r in s.runs && r in s'.runs :: RunMoves(s, s.runs[r], s'.runs[r]))
  }

  lemma SameMoves(s: State, s': State, cause: Cause)
    requires s'.runs == s.runs && s'.attempts == s.attempts
    ensures Moves(s, s', cause)
  {
  }

  lemma SetMoves(s: State, s': State, id: Id, x: Attempt)
    requires id in s.attempts && s'.attempts == s.attempts[id := x] && s'.runs == s.runs
    requires AttemptMoves(s, id, s.attempts[id], x, Nothing)
    ensures Moves(s, s', Nothing)
  {
  }

  lemma BothMove(s: State, id: Id, x: Attempt, r: Run, kind: EventKind, cause: Cause)
    requires Locks(s, id) && x.run == s.attempts[id].run
    requires AttemptMoves(s, id, s.attempts[id], x, cause) && RunMoves(s, s.runs[x.run], r)
    ensures Moves(s, Move(s, id, x, r, kind), cause)
  {
  }

  lemma FailMovesOn(s: State, id: Id, failure: Failure, reason: string, exitCode: Option<int>)
    requires Locks(s, id) && Active(s.runs[s.attempts[id].run].status)
    ensures Moves(s, Fail(s, id, failure, reason, exitCode), Closes(id))
  {
    var a, r := s.attempts[id], s.runs[s.attempts[id].run];
    RetryDelayIsLonger(a.generation, s.timing);
    var r' := RetriedRow(s, a, r, failure);
    var kind := if r'.status.RetryWait? then RetryScheduled else GaveUp;
    BothMove(s, id, FailedRow(a, reason, exitCode), r', kind, Closes(id));
  }

  // ---- Runners --------------------------------------------------------------------------------

  lemma StartCauses(s: State, id: Id, g: int, i: string, node: string)
    requires Agree(s.runs, s.attempts)
    ensures Moves(s, Start(s, id, g, i, node).state, Nothing)
  {
    var tx := Start(s, id, g, i, node);
    if tx.reply.Done? && s.attempts[id].instance == "" {
      var a, r := s.attempts[id], s.runs[s.attempts[id].run];
      BothMove(s, id, StartedRow(s, a, r, i, node), r.(status := Running), Started, Nothing);
    } else {
      assert tx.state == s;
      SameMoves(s, s, Nothing);
    }
  }

  lemma HeartbeatCauses(s: State, id: Id, g: int, i: string)
    ensures Moves(s, Heartbeat(s, id, g, i).state, Nothing)
  {
    var tx := Heartbeat(s, id, g, i);
    if tx.reply.Done? {
      SetMoves(s, tx.state, id, RenewedRow(s, s.attempts[id]));
    } else {
      assert tx.state == s;
      SameMoves(s, s, Nothing);
    }
  }

  lemma FinalizeCauses(s: State, id: Id, g: int, i: string)
    requires Agree(s.runs, s.attempts)
    ensures Moves(s, BeginFinalization(s, id, g, i).state, CauseOf(s, FinalizeOp(id, g, i)))
  {
    var tx := BeginFinalization(s, id, g, i);
    if tx.reply.Done? && s.runs[s.attempts[id].run].status.Running? {
      var a, r := s.attempts[id], s.runs[s.attempts[id].run];
      BothMove(s, id, FinalizingRow(s, a), r.(status := Finalizing), FinalizationBegun, Finalizes(id));
    } else {
      assert tx.state == s;
      SameMoves(s, s, CauseOf(s, FinalizeOp(id, g, i)));
    }
  }

  lemma FinishCauses(s: State, id: Id, g: int, i: string, code: int, reason: string, n: int)
    ensures Moves(s, Finish(s, id, g, i, code, reason, n).state, CauseOf(s, FinishOp(id, g, i, code, reason, n)))
  {
    var tx := Finish(s, id, g, i, code, reason, n);
    var cause := CauseOf(s, FinishOp(id, g, i, code, reason, n));
    if !tx.reply.Done? || Completed(s, id, g, i, code) {
      assert tx.state == s;
      SameMoves(s, s, cause);
    } else if code == 0 {
      var a, r := s.attempts[id], s.runs[s.attempts[id].run];
      BothMove(s, id, SucceededRow(a, reason), r.(status := Succeeded), Succeeding, Closes(id));
    } else {
      FailMovesOn(s, id, FailureOf(reason), if reason == "" then "EXIT_ERROR" else reason, Some(code));
    }
  }

  lemma ReportCauses(s: State, id: Id, g: int, i: string, records: seq<Record>)
    ensures Moves(s, Report(s, id, g, i, records).state, Nothing)
  {
    var tx := Report(s, id, g, i, records);
    if tx.reply.Acked? {
      SetMoves(s, tx.state, id, s.attempts[id].(ack := tx.reply.sequence));
    } else {
      assert tx.state == s;
      SameMoves(s, s, Nothing);
    }
  }

  lemma PublishCauses(s: State, id: Id, g: int, i: string, path: string, value: Artifact)
    ensures Moves(s, Publish(s, id, g, i, path, value).state, Nothing)
  {
    PublishOutcome(s, id, g, i, path, value);
    SameMoves(s, Publish(s, id, g, i, path, value).state, Nothing);
  }

  lemma RunnerCauses(s: State, op: Op)
    requires Agree(s.runs, s.attempts) && RunnerOp(op)
    ensures Moves(s, RunnerTx(s, op).state, CauseOf(s, op))
  {
    match op
    case StartOp(a, g, i, node) => StartCauses(s, a, g, i, node);
    case HeartbeatOp(a, g, i) => HeartbeatCauses(s, a, g, i);
    case FinalizeOp(a, g, i) => FinalizeCauses(s, a, g, i);
    case FinishOp(a, g, i, code, reason, n) => FinishCauses(s, a, g, i, code, reason, n);
    case ReportOp(a, g, i, records) => ReportCauses(s, a, g, i, records);
    case PublishOp(a, g, i, path, value) => PublishCauses(s, a, g, i, path, value);
  }

  // ---- Launches -------------------------------------------------------------------------------

  lemma LaunchCauses(s: State, s': State, run: Id, id: Id, worker: Id)
    requires run in s.runs && id !in s.attempts && s.runs[run].availableAt <= s.now
    requires s'.runs == Launch(s, run, id, worker).runs && s'.attempts == Launch(s, run, id, worker).attempts
    ensures Moves(s, s', Nothing)
  {
  }

  lemma AssignCauses(s: State, worker: Id, session: string, id: Id, skipped: set<Id>)
    ensures Moves(s, Assign(s, worker, session, id, skipped).state, Nothing)
  {
    var tx := Assign(s, worker, session, id, skipped);
    if tx.reply.Granted? {
      LaunchCauses(s, tx.state, First(s.runs, Candidates(s, worker, skipped)), id, worker);
    } else {
      assert tx.state == s;
      SameMoves(s, s, Nothing);
    }
  }

  lemma AdmitCauses(s: State, limit: int, id: Id, skipped: set<Id>)
    ensures Moves(s, Admit(s, limit, id, skipped).state, Nothing)
  {
    var tx := Admit(s, limit, id, skipped);
    if tx.reply.Granted? {
      LaunchCauses(s, tx.state, First(s.runs, ReadyRuns(s, skipped)), id, KUBERNETES);
    } else {
      assert tx.state == s;
      SameMoves(s, s, Nothing);
    }
  }

  lemma RuntimeCauses(s: State, w: Id, session: string, id: Id, runtime: string, stopped: bool)
    ensures Moves(s, RuntimeReport(s, w, session, id, runtime, stopped).state, Nothing)
  {
    var tx := RuntimeReport(s, w, session, id, runtime, stopped);
    RuntimeOutcome(s, w, session, id, runtime, stopped);
    if tx.reply.Done? {
      SetMoves(s, tx.state, id,
               if stopped then s.attempts[id].(cleaned := true) else s.attempts[id].(runtime := Some(runtime)));
    } else {
      SameMoves(s, s, Nothing);
    }
  }

  lemma RegisterCauses(s: State, w: Id, r: Registration)
    ensures Moves(s, Register(s, w, r).state, Nothing)
  {
    RegisterOutcome(s, w, r);
    SameMoves(s, Register(s, w, r).state, Nothing);
  }

  lemma InventoryCauses(s: State, w: Id, session: string, n: int, ready: bool, devices: seq<Observed>)
    ensures Moves(s, ReportInventory(s, w, session, n, ready, devices).state, Nothing)
  {
    SameMoves(s, ReportInventory(s, w, session, n, ready, devices).state, Nothing);
  }

  lemma BeatCauses(s: State, w: Id, session: string)
    ensures Moves(s, WorkerHeartbeat(s, w, session).state, Nothing)
  {
    SameMoves(s, WorkerHeartbeat(s, w, session).state, Nothing);
  }

  lemma DrainCauses(s: State, w: Id, drained: bool)
    ensures Moves(s, Drain(s, w, drained).state, Nothing)
  {
    SameMoves(s, Drain(s, w, drained).state, Nothing);
  }

  lemma WorkerCauses(s: State, op: Op)
    requires WorkerOp(op)
    ensures Moves(s, WorkerTx(s, op).state, Nothing)
  {
    match op
    case RegisterOp(w, r) => RegisterCauses(s, w, r);
    case WorkerHeartbeatOp(w, session) => BeatCauses(s, w, session);
    case DrainOp(w, d) => DrainCauses(s, w, d);
    case InventoryOp(w, session, n, ready, devices) => InventoryCauses(s, w, session, n, ready, devices);
    case AssignOp(w, session, id, skipped) => AssignCauses(s, w, session, id, skipped);
    case RuntimeOp(w, session, a, runtime, stopped) => RuntimeCauses(s, w, session, a, runtime, stopped);
  }

  // ---- Submissions ----------------------------------------------------------------------------

  /** Runs are only added; those that exist, and all attempts, stay as they are. */
  ghost predicate OnlyAdds(s: State, s': State) {
    s'.attempts == s.attempts && forall r | r in s.runs :: r in s'.runs && s'.runs[r] == s.runs[r]
  }

  lemma AddsMoves(s: State, s': State)
    requires OnlyAdds(s, s')
    ensures Moves(s, s', Nothing)
  {
  }

  lemma {:induction false} AddRunsOnlyAdds(s: State, entries: seq<Entry>, sweep: Id)
    requires AddRuns(s, entries, sweep).Some?
    ensures OnlyAdds(s, AddRuns(s, entries, sweep).value)
  {
    if entries != [] {
      AddRunsOnlyAdds(s, entries[..|entries| - 1], sweep);
    }
  }

  lemma SubmitCauses(s: State, spec: RunSpec, key: string, fingerprint: Fingerprint, id: Id)
    ensures OnlyAdds(s, Submit(s, spec, key, fingerprint, id).state)
  {
    if Submit(s, spec, key, fingerprint, id).reply.Refused? || key in s.submissions {
      assert Submit(s, spec, key, fingerprint, id).state == s;
    }
  }

  lemma RerunCauses(s: State, source: Id, key: string, id: Id)
    ensures OnlyAdds(s, Rerun(s, source, key, id).state)
  {
    if Rerun(s, source, key, id).reply.Refused? || key in s.submissions {
      assert Rerun(s, source, key, id).state == s;
    }
  }

  lemma SweepCauses(s: State, entries: seq<Entry>, key: string, fingerprint: Fingerprint, id: Id)
    ensures OnlyAdds(s, SubmitSweep(s, entries, key, fingerprint, id).state)
  {
    SweepOutcome(s, entries, key, fingerprint, id);
    if AddRuns(s, entries, id).Some? {
      AddRunsOnlyAdds(s, entries, id);
    }
  }

  lemma SubmissionCauses(s: State, op: Op)
    requires SubmissionOp(op)
    ensures Moves(s, SubmissionTx(s, op).state, Nothing)
  {
    match op
    case SubmitOp(spec, key, fp, id) => SubmitCauses(s, spec, key, fp, id);
    case RerunOp(source, key, id) => RerunCauses(s, source, key, id);
    case SweepOp(entries, key, fp, id) => SweepCauses(s, entries, key, fp, id);
    AddsMoves(s, SubmissionTx(s, op).state);
  }

  // ---- Kubernetes and control -----------------------------------------------------------------

  lemma StoppedCauses(s: State, id: Id)
    requires Agree(s.runs, s.attempts)
    ensures Moves(s, KubernetesStopped(s, id).state, Closes(id))
  {
    var tx := KubernetesStopped(s, id);
    if id in s.attempts && s.attempts[id].worker == KUBERNETES && Active(s.attempts[id].status) {
      ActiveIsExecuting(s, id);
      FailMovesOn(s, id, Timeout, "TIMEOUT", None);
      FailMovesOn(s, id, Infrastructure, "RUNTIME_STOPPED", None);
    } else {
      assert tx.state == s;
      SameMoves(s, s, Closes(id));
    }
  }

  lemma KubernetesRuntimeCauses(s: State, id: Id, runtime: string, removed: bool)
    ensures Moves(s, KubernetesRuntime(s, id, runtime, removed).state, Nothing)
  {
    var tx := KubernetesRuntime(s, id, runtime, removed);
    if tx.reply.Done? && removed {
      SetMoves(s, tx.state, id, s.attempts[id].(cleaned := true));
    } else if tx.reply.Done? {
      SetMoves(s, tx.state, id, s.attempts[id].(runtime := Some(runtime)));
    } else {
      assert tx.state == s;
      SameMoves(s, s, Nothing);
    }
  }

  lemma KubernetesCauses(s: State, op: Op)
    requires Agree(s.runs, s.attempts) && KubernetesOp(op)
    ensures Moves(s, KubernetesTx(s, op).state, CauseOf(s, op))
  {
    match op
    case AdmitOp(limit, id, skipped) => AdmitCauses(s, limit, id, skipped);
    case KubernetesStoppedOp(a) => StoppedCauses(s, a);
    case KubernetesRuntimeOp(a, runtime, stopped) => KubernetesRuntimeCauses(s, a, runtime, stopped);
  }

  lemma CancelCauses(s: State, run: Id)
    ensures Moves(s, Cancel(s, run).state, Nothing)
  {
    if run in s.runs && !Terminal(s.runs[run].status) {
      assert Cancel(s, run).state.attempts == CancelAttempts(s.attempts, run, s.now);
    } else {
      assert Cancel(s, run).state == s;
      SameMoves(s, s, Nothing);
    }
  }

  lemma RequeueCauses(s: State)
    ensures Moves(s, Requeue(s).state, Nothing)
  {
    assert Requeue(s).state.attempts == s.attempts;
  }

  lemma RecoverCauses(s: State, id: Id)
    requires Agree(s.runs, s.attempts)
    ensures Moves(s, RecoverOne(s, id).state, CauseOf(s, RecoverOp(id)))
  {
    RecoverActs(s, id);
    if Fault(s, id).Some? {
      FailMovesOn(s, id, Fault(s, id).value.failure, Fault(s, id).value.reason, None);
    } else {
      SameMoves(s, s, Nothing);
    }
  }

  lemma TickCauses(s: State, now: Time)
    ensures Moves(s, Tick(s, now).state, Nothing)
  {
    SameMoves(s, Tick(s, now).state, Nothing);
  }

  lemma ControlCauses(s: State, op: Op)
    requires Agree(s.runs, s.attempts) && ControlOp(op)
    ensures Moves(s, ControlTx(s, op).state, CauseOf(s, op))
  {
    match op
    case TickOp(now) => TickCauses(s, now);
    case CancelOp(run) => CancelCauses(s, run);
    case RequeueOp => RequeueCauses(s);
    case RecoverOp(a) => RecoverCauses(s, a);
  }

  lemma RunnerDispatch(s: State, op: Op)
    requires RunnerOp(op)
    ensures Step(s, op) == RunnerTx(s, op).state
  {
  }

  lemma WorkerDispatch(s: State, op: Op)
    requires WorkerOp(op)
    ensures Step(s, op) == WorkerTx(s, op).state
  {
  }

  lemma SubmissionDispatch(s: State, op: Op)
    requires SubmissionOp(op)
    ensures Step(s, op) == SubmissionTx(s, op).state
  {
  }

  lemma KubernetesDispatch(s: State, op: Op)
    requires KubernetesOp(op)
    ensures Step(s, op) == KubernetesTx(s, op).state
  {
  }

  lemma ControlDispatch(s: State, op: Op)
    requires ControlOp(op)
    ensures Step(s, op) == ControlTx(s, op).state
  {
  }

  /**
   * Whatever the transaction: an executing attempt is finalized, finished or failed only by its
   * owner, by the report that its Job stopped, or by a recovery that finds a fault; a failed run
   * waits at least the shortest retry delay, and no run starts before it is due.
   */
  lemma StepCauses(s: State, op: Op)
    requires Agree(s.runs, s.attempts)
    ensures Moves(s, Step(s, op), CauseOf(s, op))
  {
    if RunnerOp(op) {
      RunnerDispatch(s, op);
      RunnerCauses(s, op);
    } else if WorkerOp(op) {
      WorkerDispatch(s, op);
      WorkerCauses(s, op);
    } else if SubmissionOp(op) {
      SubmissionDispatch(s, op);
      SubmissionCauses(s, op);
    } else if KubernetesOp(op) {
      KubernetesDispatch(s, op);
      KubernetesCauses(s, op);
    } else {
      ControlDispatch(s, op);
      ControlCauses(s, op);
    }
  }
}
