/** What the answer of each transaction tells its caller about the database it leaves behind. */
module Promises {
  import opened Base
  import opened Domain
  import opened Tables
  import opened Transactions
  import opened Invariants
  import opened Recovery
  import opened Lifecycle

  // ---- Owners ---------------------------------------------------------------------------------

  /** Whoever is told that the claim is theirs owns the attempt. */
  lemma StartOwns(s: State, id: Id, generation: int, instance: string, node: string)
    requires Core(s) && Start(s, id, generation, instance, node).reply.Done?
    ensures Owned(Start(s, id, generation, instance, node).state, id, generation, instance)
  {
    var r := s.runs[s.attempts[id].run];
    assert RunBudget(r);
    assert Timed(s.attempts[id], r.spec.timeoutSeconds, s.now, s.timing);
  }

  /** An accepted heartbeat leaves the owner with a lease of a full term. */
  lemma HeartbeatRenews(s: State, id: Id, generation: int, instance: string)
    requires Core(s)
    ensures Heartbeat(s, id, generation, instance).reply.Done? <==> Owned(s, id, generation, instance)
    ensures Owned(s, id, generation, instance) ==>
      Renewed(Heartbeat(s, id, generation, instance).state, id, generation, instance)
  {
  }

  /** An owner whose lease lasts a full term from now. */
  predicate Renewed(s: State, id: Id, generation: int, instance: string) {
    && Owned(s, id, generation, instance)
    && s.attempts[id].leaseUntil == Some(s.now + Seconds(s.timing.lease))
  }

  /** The owner who began finalization, now or before, may publish. */
  lemma FinalizationOpens(s: State, id: Id, generation: int, instance: string)
    requires Core(s)
    ensures BeginFinalization(s, id, generation, instance).reply.Done? <==> Owned(s, id, generation, instance)
    ensures Owned(s, id, generation, instance) ==>
      var s' := BeginFinalization(s, id, generation, instance).state;
      Owned(s', id, generation, instance) && s'.runs[s'.attempts[id].run].status.Finalizing?
  {
    var tx := BeginFinalization(s, id, generation, instance);
    if Owned(s, id, generation, instance) {
      var a, r := s.attempts[id], s.runs[s.attempts[id].run];
      if r.status.Running? {
        MovedRows(s, id, FinalizingRow(s, a), r.(status := Finalizing), FinalizationBegun);
      } else {
        assert tx.state == s;
      }
    } else {
      assert tx.reply.Refused?;
    }
  }

  lemma MovedRows(s: State, id: Id, a: Attempt, r: Run, kind: EventKind)
    ensures
      var s' := Move(s, id, a, r, kind);
      && s'.attempts == s.attempts[id := a] && s'.now == s.now && s'.timing == s.timing
      && s'.runs == s.runs[a.run := r.(eventSequence := r.eventSequence + 1)]
  {
  }

  lemma FailRecords(s: State, id: Id, failure: Failure, reason: string, exitCode: Option<int>)
    requires Locks(s, id)
    ensures
      var s' := Fail(s, id, failure, reason, exitCode);
      && Locks(s', id) && s'.attempts[id] == FailedRow(s.attempts[id], reason, exitCode)
      && s'.runs[s.attempts[id].run].active == s.runs[s.attempts[id].run].active
  {
  }

  /** A completion is confirmed exactly when the database records that very outcome. */
  lemma FinishRecords(s: State, id: Id, generation: int, instance: string, exitCode: int, reason: string, n: int)
    requires Core(s)
    ensures
      var tx := Finish(s, id, generation, instance, exitCode, reason, n);
      tx.reply.Done? <==> Completed(tx.state, id, generation, instance, exitCode)
  {
    var tx := Finish(s, id, generation, instance, exitCode, reason, n);
    if !tx.reply.Done? || Completed(s, id, generation, instance, exitCode) {
      assert tx.state == s;
    } else {
      var a, r := s.attempts[id], s.runs[s.attempts[id].run];
      if exitCode == 0 {
        MovedRows(s, id, SucceededRow(a, reason), r.(status := Succeeded), Succeeding);
      } else {
        FailRecords(s, id, FailureOf(reason), if reason == "" then "EXIT_ERROR" else reason, Some(exitCode));
      }
    }
  }

  /** An acknowledgement names what is stored. */
  lemma ReportConfirms(s: State, id: Id, generation: int, instance: string, records: seq<Record>)
    requires Core(s)
    ensures
      var tx := Report(s, id, generation, instance, records);
      tx.reply.Acked? ==> Stores(tx.state, id, tx.reply.sequence)
  {
  }

  predicate Stores(s: State, id: Id, sequence: int) { id in s.attempts && s.attempts[id].ack == sequence }

  // ---- Requests about runs --------------------------------------------------------------------

  ghost predicate NothingExecutes(s: State, run: Id) {
    && run in s.runs && Terminal(s.runs[run].status)
    && (forall a | a in s.attempts && s.attempts[a].run == run :: !Active(s.attempts[a].status))
  }

  /** A cancelled run is over, and so is every attempt of it. */
  lemma CancelEnds(s: State, run: Id)
    requires Core(s)
    ensures Cancel(s, run).reply.RunIs? <==> run in s.runs
    ensures run in s.runs ==> NothingExecutes(Cancel(s, run).state, run)
  {
    if run !in s.runs {
    } else if Terminal(s.runs[run].status) {
      assert Cancel(s, run).state == s;
    } else {
      CancelCloses(s.attempts, run, s.now);
      assert Cancel(s, run).state.attempts == CancelAttempts(s.attempts, run, s.now);
    }
  }

  lemma CancelCloses(attempts: map<Id, Attempt>, run: Id, now: Time)
    ensures
      var attempts' := CancelAttempts(attempts, run, now);
      forall a | a in attempts' && attempts'[a].run == run :: !Active(attempts'[a].status)
  {
  }

  /** The run returned is the one the key names from now on. */
  lemma SubmitIsNamed(s: State, spec: RunSpec, key: string, fingerprint: Fingerprint, id: Id)
    requires Named(s.runs, s.submissions)
    ensures
      var tx := Submit(s, spec, key, fingerprint, id);
      tx.reply.RunIs? ==> Names(tx.state, key, Submission(fingerprint, tx.reply.run))
  {
  }

  lemma RerunIsNamed(s: State, source: Id, key: string, id: Id)
    requires Named(s.runs, s.submissions)
    ensures
      var tx := Rerun(s, source, key, id);
      tx.reply.RunIs? ==> Names(tx.state, key, Submission(OfRerun(source), tx.reply.run))
  {
  }

  /** After its transaction a candidate is not overdue, and if it was not before, nothing changed. */
  lemma RecoverSettles(s: State, id: Id)
    requires Inv(s)
    ensures !OverdueIn(RecoverOne(s, id).state, id)
    ensures !OverdueIn(s, id) ==> RecoverOne(s, id).state == s
  {
    RecoverFailsOverdue(s, id);
  }

  // ---- Workers --------------------------------------------------------------------------------

  /** A registration fences every other session of the worker. */
  lemma RegisterFences(s: State, id: Id, r: Registration)
    requires Register(s, id, r).reply.Done?
    ensures Fences(s, Register(s, id, r).state, id, r.session)
  {
  }

  /** Only this session may act for the worker from now on, and a drained worker stays drained. */
  ghost predicate Fences(s: State, s': State, id: Id, session: string) {
    && id in s'.workers
    && (forall other :: Session(s', id, other) <==> other == session)
    && (id in s.workers && s.workers[id].drained ==> s'.workers[id].drained)
  }

  /** The current session, and no other, keeps its worker available. */
  lemma HeartbeatKeepsAvailable(s: State, id: Id, session: string)
    requires ValidTiming(s.timing)
    ensures
      var tx := WorkerHeartbeat(s, id, session);
      && (tx.reply.Done? <==> Session(s, id, session))
      && (tx.reply.Done? ==> Served(tx.state, id, session))
  {
  }

  /** A worker that the scheduler may serve, under this session. */
  predicate Served(s: State, id: Id, session: string) {
    Session(s, id, session) && Available(s, s.workers[id])
  }

  /** A drained worker is granted nothing, whoever asks. */
  lemma DrainedGetsNothing(s: State, id: Id)
    requires id in s.workers
    ensures GrantedNothing(Drain(s, id, true).state, id)
  {
  }

  ghost predicate GrantedNothing(s: State, id: Id) {
    forall session, attempt, skipped :: !Assign(s, id, session, attempt, skipped).reply.Granted?
  }

  ghost predicate HoldsNothing(s: State, id: Id) {
    && ClosedIn(s, id) && s.attempts[id].cleaned
    && (forall k | k in s.allocations && k.attempt == id :: s.allocations[k])
  }

  /** Once its end is confirmed an attempt is over, cleaned and holds no device. */
  lemma StopReleases(s: State, worker: Id, session: string, id: Id, runtime: string)
    requires RuntimeReport(s, worker, session, id, runtime, true).reply.Done?
    ensures HoldsNothing(RuntimeReport(s, worker, session, id, runtime, true).state, id)
  {
  }

  /** The cleanup list is safe and complete: closed attempts only, and every one that keeps a device. */
  lemma CleanupIsComplete(s: State, worker: Id)
    requires Gpus(s)
    ensures forall a | a in CleanupList(s, worker) :: ClosedIn(s, a) && s.attempts[a].worker == worker
    ensures forall k | k in s.allocations && !s.allocations[k] && s.devices[k.uuid].worker == worker ::
      Active(s.attempts[k.attempt].status) || k.attempt in CleanupList(s, worker)
  {
  }

  // ---- Kubernetes -----------------------------------------------------------------------------

  /** A Job reported as stopped leaves no executing attempt behind. */
  lemma StoppedIsClosed(s: State, id: Id)
    requires Agree(s.runs, s.attempts) && KubernetesStopped(s, id).reply.Done?
    ensures ClosedIn(KubernetesStopped(s, id).state, id)
  {
    if Active(s.attempts[id].status) {
      FailRecords(s, id, Timeout, "TIMEOUT", None);
      FailRecords(s, id, Infrastructure, "RUNTIME_STOPPED", None);
    } else {
      assert KubernetesStopped(s, id).state == s;
    }
  }

  /** A recorded removal frees one place for admission. */
  lemma RemovalFrees(s: State, id: Id, runtime: string)
    requires KubernetesRuntime(s, id, runtime, true).reply.Done?
    ensures
      var s' := KubernetesRuntime(s, id, runtime, true).state;
      ClosedIn(s', id) && Pending(s'.attempts, KUBERNETES) == Pending(s.attempts, KUBERNETES) - {id}
  {
  }
}
