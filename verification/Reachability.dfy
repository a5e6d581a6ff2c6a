/** The remaining transactions, and the theorems over every run of the store. */
module Reachability {
  import opened Base
  import opened Domain
  import opened Tables
  import opened Transactions
  import opened Invariants
  import opened Preservation
  import opened Steps

  // ---- Outputs --------------------------------------------------------------------------------

  /** A batch extends the rows by exactly the sequences it acknowledges, and changes no other row. */
  lemma {:induction false} BatchExtendsPrefix(rows: map<RecordKey, Record>, id: Id, ack: int, records: seq<Record>)
    requires forall n | n > ack :: RecordKey(id, n) !in rows
    ensures Absorbed(ack, records) >= ack
    ensures Extended(rows, Inserted(rows, id, ack, records), id, ack, Absorbed(ack, records))
    decreases |records|
  {
    if records != [] {
      if records[0].sequence <= ack {
        BatchExtendsPrefix(rows, id, ack, records[1..]);
      } else if records[0].sequence == ack + 1 {
        var next := rows[RecordKey(id, ack + 1) := records[0]];
        BatchExtendsPrefix(next, id, ack + 1, records[1..]);
      }
    }
  }

  /** The rows of one attempt grow from 1..ack to 1..last. */
  ghost predicate Extended(
    rows: map<RecordKey, Record>, rows': map<RecordKey, Record>, id: Id, ack: int, last: int)
  {
    && (forall k | k in rows :: k in rows' && rows'[k] == rows[k])
    && (forall k :: k in rows' <==> k in rows || (k.attempt == id && ack < k.sequence <= last))
    && (forall k | k in rows' && k !in rows :: rows'[k].sequence == k.sequence)
  }

  lemma ExtendPrefixed(s: State, id: Id, last: int, rows: map<RecordKey, Record>)
    requires Prefixed(s.attempts, s.telemetry) && id in s.attempts && s.attempts[id].ack <= last
    requires Extended(s.telemetry, rows, id, s.attempts[id].ack, last)
    ensures Prefixed(s.attempts[id := s.attempts[id].(ack := last)], rows)
  {
  }

  lemma ExtendEvolves(s: State, id: Id, last: int, rows: map<RecordKey, Record>)
    requires id in s.attempts && !Dead(s, id) && s.attempts[id].ack <= last
    requires Extended(s.telemetry, rows, id, s.attempts[id].ack, last)
    ensures Evolves(s, SetAttempt(s, id, s.attempts[id].(ack := last)).(telemetry := rows))
  {
  }

  lemma ReportTouches(s: State, id: Id, last: int)
    requires Core(s) && id in s.attempts && s.attempts[id].ack <= last
    ensures CanTouch(s, id, s.attempts[id].(ack := last))
  {
  }

  lemma ExtendKeeps(s: State, id: Id, last: int, rows: map<RecordKey, Record>)
    requires Inv(s) && id in s.attempts && s.attempts[id].ack <= last
    requires Prefixed(s.attempts[id := s.attempts[id].(ack := last)], rows)
    ensures Inv(SetAttempt(s, id, s.attempts[id].(ack := last)).(telemetry := rows))
  {
    var a := s.attempts[id].(ack := last);
    var t := SetAttempt(s, id, a);
    ReportTouches(s, id, last);
    TouchCore(s, id, a);
    SameCore(t, t.(telemetry := rows));
    TouchGpus(s, id, a);
    SameGpus(t, t.(telemetry := rows));
    TouchQuotas(s, id, a);
  }

  lemma TouchQuotas(s: State, id: Id, a: Attempt)
    requires Quotas(s.attempts, s.artifacts) && id in s.attempts
    ensures Quotas(s.attempts[id := a], s.artifacts)
  {
  }

  lemma ReportStep(s: State, id: Id, generation: int, instance: string, records: seq<Record>)
    requires Inv(s)
    ensures Stepped(s, Report(s, id, generation, instance, records).state)
  {
    if Report(s, id, generation, instance, records).reply.Acked? {
      OwnedIsLive(s, id, generation, instance);
      var ack := s.attempts[id].ack;
      BatchExtendsPrefix(s.telemetry, id, ack, records);
      var last, rows := Absorbed(ack, records), Inserted(s.telemetry, id, ack, records);
      ExtendPrefixed(s, id, last, rows);
      ExtendKeeps(s, id, last, rows);
      ExtendEvolves(s, id, last, rows);
    } else {
      EvolvesSelf(s);
    }
  }

  lemma PublishedRows(artifacts: map<ArtifactKey, Artifact>, key: ArtifactKey, value: Artifact, a: Id)
    requires key !in artifacts
    ensures
      var mine := ArtifactsOf(artifacts, a);
      ArtifactsOf(artifacts[key := value], a) == if a == key.attempt then mine[key := value.size as int] else mine
  {
  }

  lemma PublishQuotas(s: State, key: ArtifactKey, value: Artifact)
    requires Quotas(s.attempts, s.artifacts) && key !in s.artifacts && key.attempt in s.attempts
    requires PublishedBytes(s.artifacts, key.attempt) + value.size <= ARTIFACT_BYTES
    requires |ArtifactsOf(s.artifacts, key.attempt)| < ARTIFACT_COUNT
    ensures Quotas(s.attempts, s.artifacts[key := value])
  {
    var after := s.artifacts[key := value];
    forall a | a in s.attempts
      ensures PublishedBytes(after, a) <= ARTIFACT_BYTES && |ArtifactsOf(after, a)| <= ARTIFACT_COUNT
    {
      PublishedRows(s.artifacts, key, value, a);
      if a == key.attempt {
        TotalInsert(ArtifactsOf(s.artifacts, a), key, value.size);
      }
    }
  }

  lemma PublishEvolves(s: State, key: ArtifactKey, value: Artifact)
    requires key !in s.artifacts && !Dead(s, key.attempt)
    ensures Evolves(s, s.(artifacts := s.artifacts[key := value]))
  {
  }

  lemma PublishKeeps(s: State, key: ArtifactKey, value: Artifact)
    requires Inv(s) && Quotas(s.attempts, s.artifacts[key := value])
    ensures Inv(s.(artifacts := s.artifacts[key := value]))
  {
  }

  lemma PublishOne(s: State, key: ArtifactKey, value: Artifact)
    requires Inv(s) && key !in s.artifacts && key.attempt in s.attempts && !Dead(s, key.attempt)
    requires PublishedBytes(s.artifacts, key.attempt) + value.size <= ARTIFACT_BYTES
    requires |ArtifactsOf(s.artifacts, key.attempt)| < ARTIFACT_COUNT
    ensures Stepped(s, s.(artifacts := s.artifacts[key := value]))
  {
    PublishQuotas(s, key, value);
    PublishKeeps(s, key, value);
    PublishEvolves(s, key, value);
  }

  lemma PublishStep(s: State, id: Id, generation: int, instance: string, path: string, value: Artifact)
    requires Inv(s)
    ensures Stepped(s, Publish(s, id, generation, instance, path, value).state)
  {
    var key := ArtifactKey(id, path);
    var tx := Publish(s, id, generation, instance, path, value);
    PublishOutcome(s, id, generation, instance, path, value);
    if tx.reply.Done? && key !in s.artifacts {
      OwnedIsLive(s, id, generation, instance);
      PublishOne(s, key, value);
    } else {
      EvolvesSelf(s);
    }
  }

  lemma PublishOutcome(s: State, id: Id, generation: int, instance: string, path: string, value: Artifact)
    ensures
      var key := ArtifactKey(id, path);
      var tx := Publish(s, id, generation, instance, path, value);
      if tx.reply.Done? && key !in s.artifacts
      then Owned(s, id, generation, instance)
           && PublishedBytes(s.artifacts, id) + value.size <= ARTIFACT_BYTES
           && |ArtifactsOf(s.artifacts, id)| < ARTIFACT_COUNT
           && tx.state == s.(artifacts := s.artifacts[key := value])
      else tx.state == s
  {
  }

  // ---- Cancellation and requeue ---------------------------------------------------------------

  /** Under agreement the bulk update closes the one executing attempt, or nothing. */
  lemma CancelOne(s: State, run: Id)
    requires Links(s.runs, s.attempts) && Agree(s.runs, s.attempts) && run in s.runs
    ensures
      CancelAttempts(s.attempts, run, s.now) ==
      if Active(s.runs[run].status)
      then s.attempts[s.runs[run].active.value := CancelledRow(s.attempts[s.runs[run].active.value], s.now)]
      else s.attempts
  {
    forall a | a in s.attempts
      ensures s.attempts[a].run == run && Active(s.attempts[a].status)
              <==> Active(s.runs[run].status) && s.runs[run].active == Some(a)
    {
    }
  }

  lemma CancelMoves(s: State, run: Id)
    requires Core(s) && run in s.runs && Active(s.runs[run].status)
    ensures
      var id := s.runs[run].active.value;
      && id in s.attempts && s.attempts[id].run == run
      && CanMove(s, id, CancelledRow(s.attempts[id], s.now), s.runs[run].(status := Cancelled), CancelRequested)
      && Frozen(s.attempts[id], CancelledRow(s.attempts[id], s.now))
  {
  }

  /** A run that is not executing changes alone. */
  predicate CanShift(s: State, id: Id, r: Run) {
    && id in s.runs
    && r == s.runs[id].(status := r.status, eventSequence := r.eventSequence)
    && r.eventSequence == s.runs[id].eventSequence + 1
    && !Active(s.runs[id].status) && !Active(r.status)
    && TransitionAllowed(s.runs[id].status, r.status)
  }

  ghost predicate Shifted(s: State, runs: map<Id, Run>) {
    && runs.Keys == s.runs.Keys
    && forall r | r in s.runs :: runs[r] == s.runs[r] || CanShift(s, r, runs[r])
  }

  lemma ShiftAgree(s: State, runs: map<Id, Run>)
    requires Links(s.runs, s.attempts) && Agree(s.runs, s.attempts) && Shifted(s, runs)
    ensures Agree(runs, s.attempts)
  {
  }

  lemma ShiftLinks(s: State, runs: map<Id, Run>)
    requires Links(s.runs, s.attempts) && Shifted(s, runs)
    ensures Links(runs, s.attempts)
  {
  }

  lemma ShiftRest(s: State, runs: map<Id, Run>)
    requires Core(s) && Shifted(s, runs)
    ensures Dense(runs, s.attempts) && Clocked(runs, s.attempts, s.now, s.timing) && Budget(runs)
  {
  }

  lemma ShiftCore(s: State, s': State)
    requires Core(s) && Shifted(s, s'.runs)
    requires s'.attempts == s.attempts && s'.now == s.now && s'.timing == s.timing
    ensures Core(s')
  {
    ShiftAgree(s, s'.runs);
    ShiftLinks(s, s'.runs);
    ShiftRest(s, s'.runs);
  }

  /** Everything but the run rows and the events. */
  ghost predicate SameRest(s: State, s': State) {
    && s'.timing == s.timing && s'.now == s.now && s'.attempts == s.attempts && s'.workers == s.workers
    && s'.devices == s.devices && s'.allocations == s.allocations && s'.telemetry == s.telemetry
    && s'.artifacts == s.artifacts && s'.submissions == s.submissions && s'.sweeps == s.sweeps
    && forall k | k in s.events :: k in s'.events && s'.events[k] == s.events[k]
  }

  lemma ShiftEvolves(s: State, s': State)
    requires Shifted(s, s'.runs) && SameRest(s, s')
    ensures Evolves(s, s')
  {
  }

  lemma ShiftOutputs(s: State, s': State)
    requires Outputs(s) && Shifted(s, s'.runs) && SameRest(s, s')
    ensures Outputs(s')
  {
  }

  lemma ShiftStep(s: State, s': State)
    requires Inv(s) && Shifted(s, s'.runs) && SameRest(s, s')
    requires History(s'.runs, s'.events)
    ensures Inv(s') && Evolves(s, s')
  {
    ShiftCore(s, s');
    SameGpus(s, s');
    ShiftOutputs(s, s');
    ShiftEvolves(s, s');
  }

  lemma CommitShifts(s: State, run: Id, kind: EventKind)
    requires run in s.runs && !Terminal(s.runs[run].status) && !Active(s.runs[run].status)
    requires EventKey(run, s.runs[run].eventSequence + 1) !in s.events
    ensures
      var s' := Commit(s, run, s.runs[run].(status := Cancelled), kind);
      Shifted(s, s'.runs) && SameRest(s, s')
  {
  }

  lemma CancelIdle(s: State, run: Id)
    requires Inv(s) && run in s.runs && !Terminal(s.runs[run].status) && !Active(s.runs[run].status)
    ensures
      var s' := Commit(s, run, s.runs[run].(status := Cancelled), CancelRequested);
      Inv(s') && Evolves(s, s')
  {
    var s' := Commit(s, run, s.runs[run].(status := Cancelled), CancelRequested);
    CommitHistory(s, run, s.runs[run].(status := Cancelled), CancelRequested);
    NextEventFree(s, run);
    CommitShifts(s, run, CancelRequested);
    ShiftStep(s, s');
  }

  lemma CancelStep(s: State, run: Id)
    requires Inv(s)
    ensures Stepped(s, Cancel(s, run).state)
  {
    if run !in s.runs || Terminal(s.runs[run].status) {
      EvolvesSelf(s);
    } else if Active(s.runs[run].status) {
      CancelOne(s, run);
      CancelMoves(s, run);
      var id := s.runs[run].active.value;
      MoveStep(s, id, CancelledRow(s.attempts[id], s.now), s.runs[run].(status := Cancelled), CancelRequested);
    } else {
      CancelOne(s, run);
      CancelIdle(s, run);
    }
  }

  lemma RequeueRuns(s: State)
    ensures Shifted(s, Requeue(s).state.runs)
  {
  }

  lemma RequeueTouches(s: State)
    requires forall r | r in s.runs :: EventKey(r, s.runs[r].eventSequence + 1) !in s.events
    ensures SameRest(s, Requeue(s).state)
  {
  }

  lemma RequeueStep(s: State)
    requires Inv(s)
    ensures Stepped(s, Requeue(s).state)
  {
    RequeueHistory(s);
    RequeueRuns(s);
    forall r | r in s.runs
      ensures EventKey(r, s.runs[r].eventSequence + 1) !in s.events
    {
      NextEventFree(s, r);
    }
    RequeueTouches(s);
    ShiftStep(s, Requeue(s).state);
  }

  // ---- Workers and scheduling -----------------------------------------------------------------

  /** Only worker and device rows differ; none disappears and no device changes hands. */
  ghost predicate FleetChange(s: State, s': State) {
    && s'.timing == s.timing && s'.now == s.now && s'.runs == s.runs && s'.attempts == s.attempts
    && s'.events == s.events && s'.allocations == s.allocations && s'.telemetry == s.telemetry
    && s'.artifacts == s.artifacts && s'.submissions == s.submissions && s'.sweeps == s.sweeps
    && s.workers.Keys <= s'.workers.Keys
    && (forall w | w in s'.workers && w !in s.workers :: w > 0)
    && (forall u | u in s.devices :: u in s'.devices && s'.devices[u].worker == s.devices[u].worker)
    && (forall u | u in s'.devices && u !in s.devices :: s'.devices[u].worker in s.workers)
  }

  lemma FleetGpus(s: State, s': State)
    requires Gpus(s) && FleetChange(s, s')
    ensures Gpus(s')
  {
  }

  lemma FleetEvolves(s: State, s': State)
    requires FleetChange(s, s')
    ensures Evolves(s, s')
  {
  }

  lemma FleetStep(s: State, s': State)
    requires Inv(s) && FleetChange(s, s')
    ensures Stepped(s, s')
  {
    FleetGpus(s, s');
    FleetEvolves(s, s');
    SameCore(s, s');
    SameOutputs(s, s');
  }

  lemma WorkerChange(s: State, id: Id, w: Worker)
    requires Inv(s) && id > 0
    ensures Stepped(s, s.(workers := s.workers[id := w]))
  {
    FleetStep(s, s.(workers := s.workers[id := w]));
  }

  lemma InventoryStep(s: State, worker: Id, session: string, sequence: int, ready: bool, devices: seq<Observed>)
    requires Inv(s)
    ensures Stepped(s, ReportInventory(s, worker, session, sequence, ready, devices).state)
  {
    var tx := ReportInventory(s, worker, session, sequence, ready, devices);
    if tx.reply.Done? && sequence > s.workers[worker].gpuSequence {
      if ready {
        assert forall i | 0 <= i < |devices| :: !Foreign(s, worker, devices[i].uuid);
        UpsertedDevices(s.devices, worker, devices);
      }
      FleetStep(s, tx.state);
    } else {
      EvolvesSelf(s);
    }
  }

  lemma AssignStep(s: State, worker: Id, session: string, id: Id, skipped: set<Id>)
    requires Inv(s)
    ensures Stepped(s, Assign(s, worker, session, id, skipped).state)
  {
    if Assign(s, worker, session, id, skipped).reply.Granted? {
      var r := First(s.runs, Candidates(s, worker, skipped));
      AssignClaims(s, worker, s.runs[r]);
      LaunchStep(s, r, id, worker, ChosenDevices(s, worker, s.runs[r]));
    } else {
      EvolvesSelf(s);
    }
  }

  /** The devices claimed for a run that fits are free, and as many as it asked for. */
  lemma AssignClaims(s: State, worker: Id, r: Run)
    requires worker in s.workers && Fits(s, worker, r) && r.spec.resources.gpuCount >= 0
    ensures ChosenDevices(s, worker, r) <= FreeDevices(s, worker)
    ensures |ChosenDevices(s, worker, r)| == r.spec.resources.gpuCount
  {
  }

  lemma ReserveNothing(s: State, run: Id, id: Id)
    requires run in s.runs
    ensures
      var l := Launch(s, run, id, KUBERNETES);
      l.(allocations := Reserve(s.allocations, id, {})) == l
  {
  }

  lemma AdmitLaunch(s: State, run: Id, id: Id)
    requires CanLaunch(s, run, id) && Inv(s)
    ensures Stepped(s, Launch(s, run, id, KUBERNETES))
  {
    ReserveNothing(s, run, id);
    LaunchStep(s, run, id, KUBERNETES, {});
  }

  lemma AdmitStep(s: State, limit: int, id: Id, skipped: set<Id>)
    requires Inv(s)
    ensures Stepped(s, Admit(s, limit, id, skipped).state)
  {
    var tx := Admit(s, limit, id, skipped);
    if tx.reply.Granted? {
      AdmitLaunch(s, First(s.runs, ReadyRuns(s, skipped)), id);
    } else {
      EvolvesSelf(s);
    }
  }

  lemma RuntimeTouches(s: State, id: Id, runtime: string)
    requires Core(s) && id in s.attempts
    ensures CanTouch(s, id, s.attempts[id].(runtime := Some(runtime)))
  {
  }

  lemma RuntimeKnown(s: State, id: Id, runtime: string)
    requires Inv(s) && id in s.attempts
    ensures Stepped(s, SetAttempt(s, id, s.attempts[id].(runtime := Some(runtime))))
  {
    RuntimeTouches(s, id, runtime);
    TouchStep(s, id, s.attempts[id].(runtime := Some(runtime)));
  }

  lemma CleanTouches(s: State, id: Id)
    requires Core(s) && id in s.attempts && !Active(s.attempts[id].status)
    ensures CanTouch(s, id, s.attempts[id].(cleaned := true))
  {
  }

  lemma CleanKeeps(s: State, id: Id, allocations: map<AllocationKey, bool>)
    requires Inv(s) && id in s.attempts && !Active(s.attempts[id].status)
    requires Gpus(SetAttempt(s, id, s.attempts[id].(cleaned := true)).(allocations := allocations))
    ensures Inv(SetAttempt(s, id, s.attempts[id].(cleaned := true)).(allocations := allocations))
  {
    var a := s.attempts[id].(cleaned := true);
    var t := SetAttempt(s, id, a);
    var s' := t.(allocations := allocations);
    CleanTouches(s, id);
    TouchCore(s, id, a);
    SameCore(t, s');
    TouchOutputs(s, id, a);
    SameOutputs(t, s');
  }

  lemma CleanEvolves(s: State, id: Id, allocations: map<AllocationKey, bool>)
    requires id in s.attempts && !Active(s.attempts[id].status)
    requires allocations == s.allocations || allocations == Release(s.allocations, id)
    ensures Evolves(s, SetAttempt(s, id, s.attempts[id].(cleaned := true)).(allocations := allocations))
  {
    var s' := SetAttempt(s, id, s.attempts[id].(cleaned := true)).(allocations := allocations);
    assert AttemptsEvolve(s.attempts, s'.attempts);
    assert AllocationsEvolve(s, s');
    assert Fenced(s, s');
  }

  lemma RuntimeStep(s: State, worker: Id, session: string, id: Id, runtime: string, stopped: bool)
    requires Inv(s)
    ensures Stepped(s, RuntimeReport(s, worker, session, id, runtime, stopped).state)
  {
    var tx := RuntimeReport(s, worker, session, id, runtime, stopped);
    RuntimeOutcome(s, worker, session, id, runtime, stopped);
    if !tx.reply.Done? {
      EvolvesSelf(s);
    } else if stopped {
      ReleaseGpus(s, id);
      CleanKeeps(s, id, Release(s.allocations, id));
      CleanEvolves(s, id, Release(s.allocations, id));
    } else {
      RuntimeKnown(s, id, runtime);
    }
  }

  lemma RuntimeOutcome(s: State, worker: Id, session: string, id: Id, runtime: string, stopped: bool)
    ensures
      var tx := RuntimeReport(s, worker, session, id, runtime, stopped);
      && (tx.reply.Done? ==> Locks(s, id) && s.attempts[id].worker == worker && worker in s.workers)
      && (if !tx.reply.Done? then tx.state == s
          else if stopped
          then !Active(s.attempts[id].status)
               && tx.state == SetAttempt(s, id, s.attempts[id].(cleaned := true))
                                .(allocations := Release(s.allocations, id))
          else tx.state == SetAttempt(s, id, s.attempts[id].(runtime := Some(runtime))))
  {
  }

  lemma KubernetesRuntimeStep(s: State, id: Id, runtime: string, removed: bool)
    requires Inv(s)
    ensures Stepped(s, KubernetesRuntime(s, id, runtime, removed).state)
  {
    var tx := KubernetesRuntime(s, id, runtime, removed);
    if !tx.reply.Done? {
      EvolvesSelf(s);
    } else if removed {
      CleanKubernetes(s, id);
      CleanKeeps(s, id, s.allocations);
      CleanEvolves(s, id, s.allocations);
    } else {
      RuntimeKnown(s, id, runtime);
    }
  }

  // ---- Submissions ----------------------------------------------------------------------------

  lemma NameKeeps(m: State, submissions: map<string, Submission>, sweeps: map<string, Submission>)
    requires Inv(m) && Named(m.runs, submissions)
    ensures Inv(m.(submissions := submissions, sweeps := sweeps))
  {
  }

  lemma NameEvolves(s: State, m: State, submissions: map<string, Submission>, sweeps: map<string, Submission>)
    requires Evolves(s, m)
    requires Keeps(s.submissions, submissions) && Keeps(s.sweeps, sweeps)
    ensures Evolves(s, m.(submissions := submissions, sweeps := sweeps))
  {
  }

  lemma NameStep(s: State, m: State, submissions: map<string, Submission>, sweeps: map<string, Submission>)
    requires Stepped(s, m) && Named(m.runs, submissions)
    requires Keeps(s.submissions, submissions) && Keeps(s.sweeps, sweeps)
    ensures Stepped(s, m.(submissions := submissions, sweeps := sweeps))
  {
    NameKeeps(m, submissions, sweeps);
    NameEvolves(s, m, submissions, sweeps);
  }

  lemma NewKey(table: map<string, Submission>, key: string, value: Submission)
    requires key !in table
    ensures Keeps(table, table[key := value])
  {
  }

  lemma SubmissionNamed(s: State, id: Id, spec: RunSpec, parent: Option<Id>, key: string, fingerprint: Fingerprint)
    requires Named(s.runs, s.submissions)
    ensures Named(AddRun(s, id, spec, None, parent).runs, s.submissions[key := Submission(fingerprint, id)])
  {
  }

  lemma NewSubmission(s: State, id: Id, spec: RunSpec, parent: Option<Id>, key: string, fingerprint: Fingerprint)
    requires Inv(s) && CanAdd(s, id, spec) && key !in s.submissions
    ensures Stepped(s, AddRun(s, id, spec, None, parent)
                         .(submissions := s.submissions[key := Submission(fingerprint, id)]))
  {
    NewKey(s.submissions, key, Submission(fingerprint, id));
    AddRunStep(s, id, spec, None, parent);
    SubmissionNamed(s, id, spec, parent, key, fingerprint);
    var m := AddRun(s, id, spec, None, parent);
    NameStep(s, m, s.submissions[key := Submission(fingerprint, id)], m.sweeps);
  }

  lemma SubmitAdds(s: State, spec: RunSpec, key: string, fingerprint: Fingerprint, id: Id)
    ensures
      var tx := Submit(s, spec, key, fingerprint, id);
      if tx.reply.RunIs? && key !in s.submissions
      then
        && CanAdd(s, id, spec)
        && tx.state == AddRun(s, id, spec, None, None)
                         .(submissions := s.submissions[key := Submission(fingerprint, id)])
      else tx.state == s
  {
  }

  lemma SubmitStep(s: State, spec: RunSpec, key: string, fingerprint: Fingerprint, id: Id)
    requires Inv(s)
    ensures Stepped(s, Submit(s, spec, key, fingerprint, id).state)
  {
    SubmitAdds(s, spec, key, fingerprint, id);
    if Submit(s, spec, key, fingerprint, id).reply.RunIs? && key !in s.submissions {
      NewSubmission(s, id, spec, None, key, fingerprint);
    } else {
      EvolvesSelf(s);
    }
  }

  lemma RerunAdds(s: State, source: Id, key: string, id: Id)
    ensures
      var tx := Rerun(s, source, key, id);
      if tx.reply.RunIs? && key !in s.submissions
      then
        && source in s.runs && CanAdd(s, id, s.runs[source].spec)
        && tx.state == AddRun(s, id, s.runs[source].spec, None, Some(source))
                         .(submissions := s.submissions[key := Submission(OfRerun(source), id)])
      else tx.state == s
  {
  }

  lemma RerunStep(s: State, source: Id, key: string, id: Id)
    requires Inv(s)
    ensures Stepped(s, Rerun(s, source, key, id).state)
  {
    RerunAdds(s, source, key, id);
    var tx := Rerun(s, source, key, id);
    if tx.reply.RunIs? && key !in s.submissions {
      NewSubmission(s, id, s.runs[source].spec, Some(source), key, OfRerun(source));
    } else {
      EvolvesSelf(s);
    }
  }

  /** Adding runs one after another composes: the old rows stay, the new ones are fresh. */
  lemma EvolvesThenAdds(s: State, m: State, s': State, id: Id, r: Run)
    requires Evolves(s, m) && id !in m.runs && Fresh(r)
    requires s' == m.(runs := m.runs[id := r], events := s'.events)
    requires forall k | k in m.events :: k in s'.events && s'.events[k] == m.events[k]
    ensures Evolves(s, s')
  {
  }

  lemma {:induction false} AddRunsStep(s: State, entries: seq<Entry>, sweep: Id)
    requires Inv(s) && AddRuns(s, entries, sweep).Some?
    ensures Stepped(s, AddRuns(s, entries, sweep).value)
    ensures AddRuns(s, entries, sweep).value.submissions == s.submissions
    ensures AddRuns(s, entries, sweep).value.sweeps == s.sweeps
  {
    if entries == [] {
      EvolvesSelf(s);
    } else {
      AddRunsStep(s, entries[..|entries| - 1], sweep);
      AppendRun(s, AddRuns(s, entries[..|entries| - 1], sweep).value, entries[|entries| - 1], sweep);
    }
  }

  lemma AppendRun(s: State, m: State, e: Entry, sweep: Id)
    requires Stepped(s, m) && ValidSubmission(e.spec) && e.id !in m.runs
    ensures Stepped(s, AddRun(m, e.id, e.spec, Some(sweep), None))
  {
    var s' := AddRun(m, e.id, e.spec, Some(sweep), None);
    SubmissionBudget(e.spec, m.now, None, None);
    AddRunStep(m, e.id, e.spec, Some(sweep), None);
    EvolvesThenAdds(s, m, s', e.id, s'.runs[e.id]);
  }

  lemma SweepCommits(s: State, entries: seq<Entry>, key: string, fingerprint: Fingerprint, id: Id)
    requires Inv(s) && key !in s.sweeps && AddRuns(s, entries, id).Some?
    ensures Stepped(s, AddRuns(s, entries, id).value.(sweeps := s.sweeps[key := Submission(fingerprint, id)]))
  {
    NewKey(s.sweeps, key, Submission(fingerprint, id));
    AddRunsStep(s, entries, id);
    var m := AddRuns(s, entries, id).value;
    NameStep(s, m, m.submissions, s.sweeps[key := Submission(fingerprint, id)]);
  }

  lemma SweepStep(s: State, entries: seq<Entry>, key: string, fingerprint: Fingerprint, id: Id)
    requires Inv(s)
    ensures Stepped(s, SubmitSweep(s, entries, key, fingerprint, id).state)
  {
    var tx := SubmitSweep(s, entries, key, fingerprint, id);
    SweepOutcome(s, entries, key, fingerprint, id);
    if key !in s.sweeps && tx.reply.RunIs? {
      SweepCommits(s, entries, key, fingerprint, id);
    } else {
      EvolvesSelf(s);
    }
  }

  lemma SweepOutcome(s: State, entries: seq<Entry>, key: string, fingerprint: Fingerprint, id: Id)
    ensures
      var tx := SubmitSweep(s, entries, key, fingerprint, id);
      if key !in s.sweeps && tx.reply.RunIs?
      then AddRuns(s, entries, id).Some?
           && tx.state == AddRuns(s, entries, id).value.(sweeps := s.sweeps[key := Submission(fingerprint, id)])
      else tx.state == s
  {
  }

  lemma LaterCore(s: State, now: Time)
    requires Core(s) && s.now <= now
    ensures Core(s.(now := now))
  {
  }

  lemma LaterKeeps(s: State, now: Time)
    requires Inv(s) && Core(s.(now := now))
    ensures Inv(s.(now := now))
  {
  }

  lemma LaterEvolves(s: State, now: Time)
    requires s.now <= now
    ensures Evolves(s, s.(now := now))
  {
  }

  lemma LaterStep(s: State, now: Time)
    requires Inv(s) && s.now <= now
    ensures Stepped(s, s.(now := now))
  {
    LaterEvolves(s, now);
    LaterCore(s, now);
    LaterKeeps(s, now);
  }

  // ---- Every transaction, every run -----------------------------------------------------------

  lemma RunnerStep(s: State, op: Op)
    requires Inv(s) && RunnerOp(op)
    ensures Stepped(s, RunnerTx(s, op).state)
  {
    match op
    case StartOp(a, g, i, node) => StartStep(s, a, g, i, node);
    case HeartbeatOp(a, g, i) => HeartbeatStep(s, a, g, i);
    case FinalizeOp(a, g, i) => FinalizeStep(s, a, g, i);
    case FinishOp(a, g, i, code, reason, n) => FinishStep(s, a, g, i, code, reason, n);
    case ReportOp(a, g, i, records) => ReportStep(s, a, g, i, records);
    case PublishOp(a, g, i, path, value) => PublishStep(s, a, g, i, path, value);
  }

  lemma RegisterStep(s: State, w: Id, r: Registration)
    requires Inv(s)
    ensures Stepped(s, Register(s, w, r).state)
  {
    RegisterOutcome(s, w, r);
    if Register(s, w, r).reply.Done? {
      WorkerChange(s, w, Register(s, w, r).state.workers[w]);
    } else {
      EvolvesSelf(s);
    }
  }

  lemma RegisterOutcome(s: State, w: Id, r: Registration)
    ensures
      var tx := Register(s, w, r);
      if tx.reply.Done?
      then w > 0 && w in tx.state.workers && tx.state == s.(workers := s.workers[w := tx.state.workers[w]])
      else tx.state == s
  {
  }

  lemma WorkerHeartbeatStep(s: State, id: Id, session: string)
    requires Inv(s)
    ensures Stepped(s, WorkerHeartbeat(s, id, session).state)
  {
    if Session(s, id, session) {
      WorkerChange(s, id, s.workers[id].(heartbeatAt := s.now));
    } else {
      EvolvesSelf(s);
    }
  }

  lemma DrainStep(s: State, id: Id, drained: bool)
    requires Inv(s)
    ensures Stepped(s, Drain(s, id, drained).state)
  {
    if id in s.workers {
      WorkerChange(s, id, s.workers[id].(drained := drained));
    } else {
      EvolvesSelf(s);
    }
  }

  lemma WorkerStep(s: State, op: Op)
    requires Inv(s) && WorkerOp(op)
    ensures Stepped(s, WorkerTx(s, op).state)
  {
    match op
    case RegisterOp(w, r) => RegisterStep(s, w, r);
    case WorkerHeartbeatOp(w, session) => WorkerHeartbeatStep(s, w, session);
    case DrainOp(w, drained) => DrainStep(s, w, drained);
    case InventoryOp(w, session, n, ready, devices) => InventoryStep(s, w, session, n, ready, devices);
    case AssignOp(w, session, id, skipped) => AssignStep(s, w, session, id, skipped);
    case RuntimeOp(w, session, a, runtime, stopped) => RuntimeStep(s, w, session, a, runtime, stopped);
  }

  lemma SubmissionStep(s: State, op: Op)
    requires Inv(s) && SubmissionOp(op)
    ensures Stepped(s, SubmissionTx(s, op).state)
  {
    match op
    case SubmitOp(spec, key, fp, id) => SubmitStep(s, spec, key, fp, id);
    case RerunOp(source, key, id) => RerunStep(s, source, key, id);
    case SweepOp(entries, key, fp, id) => SweepStep(s, entries, key, fp, id);
  }

  lemma KubernetesStep(s: State, op: Op)
    requires Inv(s) && KubernetesOp(op)
    ensures Stepped(s, KubernetesTx(s, op).state)
  {
    match op
    case AdmitOp(limit, id, skipped) => AdmitStep(s, limit, id, skipped);
    case KubernetesStoppedOp(a) => KubernetesStoppedStep(s, a);
    case KubernetesRuntimeOp(a, runtime, stopped) => KubernetesRuntimeStep(s, a, runtime, stopped);
  }

  lemma ControlStep(s: State, op: Op)
    requires Inv(s) && ControlOp(op)
    ensures Stepped(s, ControlTx(s, op).state)
  {
    match op
    case TickOp(now) => TickStep(s, now);
    case CancelOp(run) => CancelStep(s, run);
    case RequeueOp => RequeueStep(s);
    case RecoverOp(a) => RecoverStep(s, a);
  }

  lemma TickStep(s: State, now: Time)
    requires Inv(s)
    ensures Stepped(s, Tick(s, now).state)
  {
    if s.now <= now {
      LaterStep(s, now);
    } else {
      EvolvesSelf(s);
    }
  }

  /** Whatever is requested, the invariant is kept and the state only evolves. */
  lemma StepKeeps(s: State, op: Op)
    requires Inv(s)
    ensures Inv(Step(s, op)) && Evolves(s, Step(s, op))
  {
    if RunnerOp(op) {
      RunnerStep(s, op);
    } else if WorkerOp(op) {
      WorkerStep(s, op);
    } else {
      OtherStep(s, op);
    }
  }

  lemma OtherStep(s: State, op: Op)
    requires Inv(s) && !RunnerOp(op) && !WorkerOp(op)
    ensures Stepped(s, Step(s, op))
  {
    if SubmissionOp(op) {
      SubmissionStep(s, op);
    } else if KubernetesOp(op) {
      KubernetesStep(s, op);
    } else {
      ControlStep(s, op);
    }
  }

  lemma {:induction false} RunsKeep(s: State, ops: seq<Op>)
    requires Inv(s)
    ensures Inv(Exec(s, ops))
  {
    if ops != [] {
      RunsKeep(s, ops[..|ops| - 1]);
      StepKeeps(Exec(s, ops[..|ops| - 1]), ops[|ops| - 1]);
    }
  }

  lemma EmptyIsInv(timing: Timing, now: Time)
    requires ValidTiming(timing)
    ensures Inv(Empty(timing, now))
  {
  }

  /** Every reachable state satisfies the invariant. */
  lemma Reachable(timing: Timing, now: Time, ops: seq<Op>)
    requires ValidTiming(timing)
    ensures Inv(Exec(Empty(timing, now), ops))
  {
    EmptyIsInv(timing, now);
    RunsKeep(Empty(timing, now), ops);
  }
}
