/**
 * PostgresStore as the program runs it: an object whose tables are updated step by step.
 *
 * The methods ending in "Rows" hold the statements of one transaction each and are proved to
 * commit exactly what the function of that transaction commits, and to answer what it answers;
 * a refused one leaves no trace. The methods without the ending are the transactions as callers
 * see them: they keep the invariant, relate the old tables to the new ones, and say what their
 * answer means. What a query leaves to the database (SUM, COUNT, ORDER BY ... LIMIT) is a loop
 * over the rows here.
 */
module Store {
  import opened Base
  import opened Domain
  import opened Tables
  import T = Transactions
  import opened Replies = Transactions
  import opened Invariants
  import opened Recovery
  import opened Promises
  import L = Lifecycle
  import S = Steps
  import R = Reachability
  import C = Scheduling
  import D = Decisions
  import G = Grants

  lemma Overwrite<K, V>(m: map<K, V>, k: K, a: V, b: V)
    ensures m[k := a][k := b] == m[k := b]
  {
  }

  class PostgresStore {
    const timing: Timing
    var now: Time
    var runs: map<Id, Run>
    var attempts: map<Id, Attempt>
    var events: map<EventKey, EventKind>
    var workers: map<Id, Worker>
    var devices: map<Id, Device>
    var allocations: map<AllocationKey, bool>
    var telemetry: map<RecordKey, Record>
    var artifacts: map<ArtifactKey, Artifact>
    var submissions: map<string, Submission>
    var sweeps: map<string, Submission>

    function View(): State reads this {
      State(timing, now, runs, attempts, events, workers, devices, allocations, telemetry, artifacts,
            submissions, sweeps)
    }

    /** The tables satisfy everything the system's safety rests on. */
    ghost predicate Valid() reads this { Inv(View()) }

    constructor (timing: Timing, now: Time)
      requires ValidTiming(timing)
      ensures Valid() && View() == Empty(timing, now)
    {
      this.timing, this.now := timing, now;
      runs, attempts, events, workers, devices, allocations := map[], map[], map[], map[], map[], map[];
      telemetry, artifacts, submissions, sweeps := map[], map[], map[], map[];
      new;
      assert View() == Empty(timing, now);
      R.EmptyIsInv(timing, now);
    }

    // ---- Shared steps ---------------------------------------------------------------------------

    /** Allocate the run's next event number and insert the event. */
    method Event(run: Id, kind: EventKind)
      requires run in runs
      modifies this`runs, this`events
      ensures runs == old(runs)[run := old(runs[run]).(eventSequence := old(runs[run]).eventSequence + 1)]
      ensures events == old(events)[EventKey(run, old(runs[run]).eventSequence + 1) := kind]
    {
      var sequence := runs[run].eventSequence + 1;
      runs := runs[run := runs[run].(eventSequence := sequence)];
      events := events[EventKey(run, sequence) := kind];
    }

    /** UPDATE runs, then the event that explains it. */
    method WriteRun(run: Id, row: Run, kind: EventKind)
      modifies this`runs, this`events
      ensures View() == Commit(old(View()), run, row, kind)
    {
      runs := runs[run := row];
      Overwrite(old(runs), run, row, row.(eventSequence := row.eventSequence + 1));
      Event(run, kind);
    }

    method WriteAttempt(id: Id, a: Attempt)
      modifies this`attempts
      ensures View() == SetAttempt(old(View()), id, a)
    {
      attempts := attempts[id := a];
    }

    /** UPDATE attempts, UPDATE runs, event. */
    method WriteBoth(id: Id, a: Attempt, row: Run, kind: EventKind)
      modifies this`attempts, this`runs, this`events
      ensures View() == Move(old(View()), id, a, row, kind)
    {
      WriteAttempt(id, a);
      WriteRun(a.run, row, kind);
    }

    method FailAttempt(id: Id, failure: Failure, reason: string, exitCode: Option<int>)
      requires Locks(View(), id)
      modifies this`attempts, this`runs, this`events
      ensures View() == Fail(old(View()), id, failure, reason, exitCode)
    {
      var a, r := attempts[id], runs[attempts[id].run];
      var retry := ShouldRetry(r.spec.retry, a.generation, failure);
      var delay := RetryDelay(a.generation, timing.retryBase, timing.retryMax);
      var row := r.(status := if retry then RetryWait else Failed, availableAt := now + Seconds(delay));
      WriteBoth(id, a.(status := Failed, reason := reason, exitCode := exitCode), row,
                if retry then RetryScheduled else GaveUp);
    }

    // ---- Ownership ------------------------------------------------------------------------------

    method StartRows(id: Id, generation: int, instance: string, node: string) returns (reply: Reply)
      modifies this`attempts, this`runs, this`events
      ensures T.Tx(View(), reply) == T.Start(old(View()), id, generation, instance, node)
    {
      if |node| > 253 || exists i | 0 <= i < |node| :: !T.NodeChar(node[i]) {
        return Refused(Invalid);
      }
      if instance == "" || |instance| > 200 {
        return Refused(Invalid);
      }
      if !Locks(View(), id) {
        return Refused(NotFound);
      }
      var a, r := attempts[id], runs[attempts[id].run];
      if r.active != Some(id) || r.generation != generation || !Active(r.status) {
        return Refused(Stale);
      }
      if node != "" && a.worker != KUBERNETES {
        return Refused(Invalid);
      }
      if a.instance != "" {
        if a.instance != instance || a.node != node || !LeaseValid(a, now) || !DeadlineValid(a, now) {
          return Refused(Stale);
        }
        return Done;
      }
      if r.status != Starting || !LaunchValid(a, now) {
        return Refused(Stale);
      }
      var row := a.(node := node, instance := instance, status := Running,
                    leaseUntil := Some(now + Seconds(timing.lease)),
                    executionDeadline := Some(now + Seconds(r.spec.timeoutSeconds)));
      WriteBoth(id, row, r.(status := Running), Started);
      reply := Done;
    }

    method HeartbeatRows(id: Id, generation: int, instance: string) returns (reply: Reply)
      modifies this`attempts
      ensures T.Tx(View(), reply) == T.Heartbeat(old(View()), id, generation, instance)
    {
      if !Locks(View(), id) {
        return Refused(NotFound);
      }
      if !Owned(View(), id, generation, instance) {
        return Refused(Stale);
      }
      WriteAttempt(id, attempts[id].(leaseUntil := Some(now + Seconds(timing.lease))));
      reply := Done;
    }

    method BeginFinalizationRows(id: Id, generation: int, instance: string) returns (reply: Reply)
      modifies this`attempts, this`runs, this`events
      ensures T.Tx(View(), reply) == T.BeginFinalization(old(View()), id, generation, instance)
    {
      if !Locks(View(), id) {
        return Refused(NotFound);
      }
      if !Owned(View(), id, generation, instance) {
        return Refused(Stale);
      }
      var a, r := attempts[id], runs[attempts[id].run];
      if r.status == Running {
        var row := a.(status := Finalizing, finalizationDeadline := Some(now + Seconds(timing.finalization)));
        WriteBoth(id, row, r.(status := Finalizing), FinalizationBegun);
      }
      reply := Done;
    }

    method FinishRows(id: Id, generation: int, instance: string, exitCode: int, reason: string, finalSequence: int)
      returns (reply: Reply)
      modifies this`attempts, this`runs, this`events
      ensures T.Tx(View(), reply) == T.Finish(old(View()), id, generation, instance, exitCode, reason, finalSequence)
    {
      if !Locks(View(), id) {
        return Refused(NotFound);
      }
      var a, r := attempts[id], runs[attempts[id].run];
      if r.active == Some(id) && a.instance == instance && a.generation == generation
         && a.exitCode == Some(exitCode) && (a.status == Succeeded || a.status == Failed) {
        return Done;
      }
      if !Owned(View(), id, generation, instance) {
        return Refused(Stale);
      }
      if a.ack != finalSequence {
        return Refused(Conflict);
      }
      if exitCode == 0 && r.status != Finalizing {
        return Refused(Conflict);
      }
      if exitCode == 0 {
        WriteBoth(id, a.(status := Succeeded, exitCode := Some(0), reason := reason), r.(status := Succeeded),
                  Succeeding);
      } else {
        FailAttempt(id, T.FailureOf(reason), if reason == "" then "EXIT_ERROR" else reason, Some(exitCode));
      }
      reply := Done;
    }

    // ---- Outputs --------------------------------------------------------------------------------

    method ReportRows(id: Id, generation: int, instance: string, records: seq<Record>) returns (reply: Reply)
      modifies this`attempts, this`telemetry
      ensures T.Tx(View(), reply) == T.Report(old(View()), id, generation, instance, records)
    {
      if |records| > 256 || exists i | 0 <= i < |records| :: !ValidRecord(records[i]) {
        return Refused(Invalid);
      }
      if !Locks(View(), id) {
        return Refused(NotFound);
      }
      if !Owned(View(), id, generation, instance) {
        return Refused(Stale);
      }
      var sequence := InsertRecords(id, attempts[id].ack, records);
      attempts := attempts[id := attempts[id].(ack := sequence)];
      reply := Acked(sequence);
    }

    /** Skip what is stored, stop at the first gap. */
    method InsertRecords(id: Id, ack: int, records: seq<Record>) returns (sequence: int)
      modifies this`telemetry
      ensures sequence == T.Absorbed(ack, records)
      ensures telemetry == T.Inserted(old(telemetry), id, ack, records)
    {
      sequence := ack;
      var i := 0;
      assert records[0..] == records;
      while i < |records|
        invariant i <= |records|
        invariant T.Absorbed(ack, records) == T.Absorbed(sequence, records[i..])
        invariant T.Inserted(old(telemetry), id, ack, records) == T.Inserted(telemetry, id, sequence, records[i..])
      {
        assert records[i..][0] == records[i] && records[i..][1..] == records[i + 1..];
        if records[i].sequence > sequence {
          if records[i].sequence != sequence + 1 {
            return;
          }
          telemetry := telemetry[RecordKey(id, records[i].sequence) := records[i]];
          sequence := records[i].sequence;
        }
        i := i + 1;
      }
    }

    method PublishArtifactRows(id: Id, generation: int, instance: string, path: string, value: Artifact)
      returns (reply: Reply)
      modifies this`artifacts
      ensures T.Tx(View(), reply) == T.Publish(old(View()), id, generation, instance, path, value)
    {
      if !Locks(View(), id) {
        return Refused(NotFound);
      }
      if !Owned(View(), id, generation, instance) {
        return Refused(Stale);
      }
      if runs[attempts[id].run].status != Finalizing {
        return Refused(Conflict);
      }
      var key := ArtifactKey(id, path);
      if key in artifacts {
        return if artifacts[key] != value then Refused(Conflict) else Done;
      }
      var over := OverQuota(id, value.size);
      if over {
        return Refused(Exhausted);
      }
      artifacts := artifacts[key := value];
      reply := Done;
    }

    method OverQuota(id: Id, size: nat) returns (over: bool)
      ensures over <==>
        || T.PublishedBytes(artifacts, id) + size > T.ARTIFACT_BYTES
        || |T.ArtifactsOf(artifacts, id)| >= T.ARTIFACT_COUNT
    {
      var total, count := Published(id);
      over := total + size > T.ARTIFACT_BYTES || count >= T.ARTIFACT_COUNT;
    }

    /** SELECT COALESCE(sum(size),0), count(*). */
    method Published(id: Id) returns (total: int, count: nat)
      ensures total == T.PublishedBytes(artifacts, id) && count == |T.ArtifactsOf(artifacts, id)|
    {
      var rows := map k | k in artifacts && k.attempt == id :: artifacts[k].size as int;
      assert rows == T.ArtifactsOf(artifacts, id);
      total := Sum(rows);
      count := |rows|;
    }

    // ---- Cancellation and recovery --------------------------------------------------------------

    method CancelRows(run: Id) returns (reply: Reply)
      modifies this`attempts, this`runs, this`events
      ensures T.Tx(View(), reply) == T.Cancel(old(View()), run)
    {
      if run !in runs {
        return Refused(NotFound);
      }
      if Terminal(runs[run].status) {
        return RunIs(run);
      }
      CloseAttempts(run);
      WriteRun(run, runs[run].(status := Cancelled), CancelRequested);
      reply := RunIs(run);
    }

    /** UPDATE attempts ... WHERE run_id=$1 AND status IN (...). */
    method CloseAttempts(run: Id)
      modifies this`attempts
      ensures attempts == T.CancelAttempts(old(attempts), run, now)
    {
      var rows, time := attempts, now;
      attempts := map a | a in rows ::
        if rows[a].run != run || !Active(rows[a].status) then rows[a]
        else rows[a].(leaseUntil := Some(time), reason := "USER_CANCELLED", status := Cancelled);
      forall a | a in rows
        ensures attempts[a] == T.CancelAttempts(rows, run, time)[a]
      {
      }
    }

    /** UPDATE ... RETURNING id, then one event per returned row. */
    method RequeueRows()
      modifies this`runs, this`events
      ensures View() == T.Requeue(old(View())).state
    {
      ghost var before := View();
      var due := set r | r in runs && T.RetryDue(View(), runs[r]);
      runs := RowsAfter(View(), due, {});
      assert Announced(before, {}) == map[];
      AnnounceAll(before, due);
      RequeueAll(before, due);
    }

    method AnnounceAll(ghost before: State, due: set<Id>)
      requires due <= before.runs.Keys
      requires runs == RowsAfter(before, due, {}) && events == before.events + Announced(before, {})
      modifies this`runs, this`events
      ensures runs == RowsAfter(before, due, due) && events == before.events + Announced(before, due)
    {
      var rest := due;
      assert due - rest == {};
      while rest != {}
        invariant rest <= due
        invariant runs == RowsAfter(before, due, due - rest)
        invariant events == before.events + Announced(before, due - rest)
        decreases |rest|
      {
        ghost var some := Pick(rest);
        var r :| r in rest;
        AnnounceOne(before, due, due - rest, r);
        Event(r, Requeued);
        assert due - (rest - {r}) == (due - rest) + {r};
        rest := rest - {r};
      }
      assert due - rest == due;
    }

    method RecoverRows(id: Id) returns (reply: Reply)
      modifies this`attempts, this`runs, this`events
      ensures T.Tx(View(), reply) == T.RecoverOne(old(View()), id)
    {
      if !Locks(View(), id) {
        return Refused(NotFound);
      }
      var a, r := attempts[id], runs[attempts[id].run];
      if r.active != Some(id) || Terminal(r.status) || a.status == Failed {
        return Done;
      }
      if r.status == Starting && !LaunchValid(a, now) {
        FailAttempt(id, Infrastructure, "LAUNCH_TIMEOUT", None);
      } else if r.status == Running && !DeadlineValid(a, now) {
        FailAttempt(id, Timeout, "TIMEOUT", None);
      } else if r.status == Finalizing && !DeadlineValid(a, now) {
        FailAttempt(id, Infrastructure, "FINALIZATION_TIMEOUT", None);
      } else if (r.status == Running || r.status == Finalizing) && !LeaseValid(a, now) {
        FailAttempt(id, Infrastructure, "LEASE_EXPIRED", None);
      }
      reply := Done;
    }

    // ---- Kubernetes -----------------------------------------------------------------------------

    method KubernetesStoppedRows(id: Id) returns (reply: Reply)
      modifies this`attempts, this`runs, this`events
      ensures T.Tx(View(), reply) == T.KubernetesStopped(old(View()), id)
    {
      if !Locks(View(), id) {
        return Refused(NotFound);
      }
      var a, r := attempts[id], runs[attempts[id].run];
      if a.worker != KUBERNETES {
        return Refused(Invalid);
      }
      if r.active == Some(id) && Active(a.status) {
        if r.status == Running && !DeadlineValid(a, now) {
          FailAttempt(id, Timeout, "TIMEOUT", None);
        } else {
          FailAttempt(id, Infrastructure, "RUNTIME_STOPPED", None);
        }
      }
      reply := Done;
    }

    method KubernetesRuntimeRows(id: Id, runtime: string, removed: bool) returns (reply: Reply)
      modifies this`attempts
      ensures T.Tx(View(), reply) == T.KubernetesRuntime(old(View()), id, runtime, removed)
    {
      if !Locks(View(), id) {
        return Refused(NotFound);
      }
      if attempts[id].worker != KUBERNETES {
        return Refused(Invalid);
      }
      if removed {
        if Active(attempts[id].status) {
          return Refused(Conflict);
        }
        WriteAttempt(id, attempts[id].(cleaned := true));
      } else {
        WriteAttempt(id, attempts[id].(runtime := Some(runtime)));
      }
      reply := Done;
    }

    method AdmitKubernetesRows(limit: int, id: Id, skipped: set<Id>) returns (reply: Reply)
      modifies this`attempts, this`runs, this`events
      ensures T.Tx(View(), reply) == T.Admit(old(View()), limit, id, skipped)
    {
      if limit < 1 || limit > 100 {
        return Refused(Invalid);
      }
      var pending := set a | a in attempts && attempts[a].worker == KUBERNETES && !attempts[a].cleaned;
      assert pending == Pending(attempts, KUBERNETES);
      if |pending| >= limit {
        return Idle;
      }
      var ready := set r | r in runs && r !in skipped && T.Ready(View(), runs[r]);
      assert ready == T.ReadyRuns(View(), skipped);
      if ready == {} {
        return Idle;
      }
      if id in attempts {
        return Refused(Unavailable);
      }
      var run := SelectRun(ready);
      Insert(run, id, KUBERNETES);
      reply := Granted(id);
    }

    /** ORDER BY priority DESC, created_at, id LIMIT 1. */
    method SelectRun(candidates: set<Id>) returns (r: Id)
      requires candidates <= runs.Keys && candidates != {}
      ensures r == First(runs, candidates)
    {
      FirstExists(runs, candidates);
      r :| r in candidates && forall o | o in candidates && o != r :: Before(runs, r, o);
      FirstIsUnique(runs, candidates, r, First(runs, candidates));
    }

    /** INSERT the attempt, UPDATE the run, event. */
    method Insert(run: Id, id: Id, worker: Id)
      requires run in runs
      modifies this`attempts, this`runs, this`events
      ensures View() == Launch(old(View()), run, id, worker)
    {
      var r := runs[run];
      var generation := r.generation + 1;
      attempts := attempts[id := Attempt(run, generation, worker, "", Starting, "", None, None, false, 0,
                                         now + Seconds(timing.launch), None, None, None, now,
                                         r.spec.resources.gpuCount, "")];
      WriteRun(run, r.(status := Starting, active := Some(id), generation := generation), Assigned);
    }

    // ---- Submission -----------------------------------------------------------------------------

    method SubmitRows(spec: RunSpec, key: string, fingerprint: Fingerprint, id: Id) returns (reply: Reply)
      modifies this`runs, this`events, this`submissions
      ensures T.Tx(View(), reply) == T.Submit(old(View()), spec, key, fingerprint, id)
    {
      if !ValidSubmission(spec) {
        return Refused(Invalid);
      }
      if key in submissions {
        return if submissions[key].fingerprint != fingerprint then Refused(Conflict) else RunIs(submissions[key].target);
      }
      if id in runs {
        return Refused(Unavailable);
      }
      AddRun(id, spec, None, None);
      submissions := submissions[key := Submission(fingerprint, id)];
      reply := RunIs(id);
    }

    /** INSERT INTO runs, then its first event. */
    method AddRun(id: Id, spec: RunSpec, sweep: Option<Id>, parent: Option<Id>)
      modifies this`runs, this`events
      ensures View() == T.AddRun(old(View()), id, spec, sweep, parent)
    {
      WriteRun(id, Run(spec, Queued, 0, None, 0, now, now, sweep, parent), Submitted);
    }

    method RerunRows(source: Id, key: string, id: Id) returns (reply: Reply)
      modifies this`runs, this`events, this`submissions
      ensures T.Tx(View(), reply) == T.Rerun(old(View()), source, key, id)
    {
      var fingerprint := OfRerun(source);
      if key in submissions {
        return if submissions[key].fingerprint != fingerprint then Refused(Conflict) else RunIs(submissions[key].target);
      }
      if source !in runs {
        return Refused(NotFound);
      }
      var was := runs[source];
      if !Terminal(was.status) {
        return Refused(Conflict);
      }
      if !ValidSubmission(was.spec) {
        return Refused(Invalid);
      }
      if id in runs {
        return Refused(Unavailable);
      }
      AddRun(id, was.spec, None, Some(source));
      submissions := submissions[key := Submission(fingerprint, id)];
      reply := RunIs(id);
    }

    /** One run per expanded specification; the first refusal rolls everything back. */
    method SubmitSweepRows(entries: seq<Entry>, key: string, fingerprint: Fingerprint, id: Id) returns (reply: Reply)
      modifies this`runs, this`events, this`sweeps
      ensures T.Tx(View(), reply) == T.SubmitSweep(old(View()), entries, key, fingerprint, id)
    {
      if key in sweeps {
        return if sweeps[key].fingerprint != fingerprint then Refused(Conflict) else RunIs(sweeps[key].target);
      }
      if exists k | k in sweeps :: sweeps[k].target == id {
        return Refused(Unavailable);
      }
      var error := AddEntries(entries, id);
      if error.Some? {
        return Refused(error.value);
      }
      sweeps := sweeps[key := Submission(fingerprint, id)];
      reply := RunIs(id);
    }

    method AddEntries(entries: seq<Entry>, sweep: Id) returns (error: Option<ErrorCode>)
      modifies this`runs, this`events
      ensures
        var added := T.AddRuns(old(View()), entries, sweep);
        if added.Some? then error.None? && View() == added.value
        else error == Some(T.SweepError(old(View()), entries, sweep)) && View() == old(View())
    {
      ghost var before := View();
      var savedRuns, savedEvents := runs, events;
      error := None;
      var i := 0;
      while i < |entries| && error.None?
        invariant i <= |entries|
        invariant error.None? ==> T.AddRuns(before, entries[..i], sweep) == Some(View())
        invariant error.Some? ==> FailsWith(before, entries, sweep, error.value)
      {
        error := AddNext(before, entries, sweep, i);
        i := i + 1;
      }
      assert entries[..|entries|] == entries;
      if error.Some? {
        runs, events := savedRuns, savedEvents;
      }
    }

    method AddNext(ghost before: State, entries: seq<Entry>, sweep: Id, i: nat) returns (error: Option<ErrorCode>)
      requires i < |entries| && T.AddRuns(before, entries[..i], sweep) == Some(View())
      modifies this`runs, this`events
      ensures error.None? ==> T.AddRuns(before, entries[..i + 1], sweep) == Some(View())
      ensures error.Some? ==> FailsWith(before, entries, sweep, error.value)
    {
      SweepPrefix(before, entries, sweep, i);
      error := AddEntry(entries[i], sweep);
      if error.Some? {
        SweepErrorAt(before, entries, sweep, i);
        SweepFailsAt(before, entries, sweep, i, error.value);
      }
    }

    method AddEntry(e: Entry, sweep: Id) returns (error: Option<ErrorCode>)
      modifies this`runs, this`events
      ensures error == if !ValidSubmission(e.spec) then Some(Invalid)
                       else if e.id in old(runs) then Some(Unavailable) else None
      ensures View() == if error.Some? then old(View()) else T.AddRun(old(View()), e.id, e.spec, Some(sweep), None)
    {
      if !ValidSubmission(e.spec) {
        return Some(Invalid);
      }
      if e.id in runs {
        return Some(Unavailable);
      }
      AddRun(e.id, e.spec, Some(sweep), None);
      error := None;
    }

    // ---- Workers and devices --------------------------------------------------------------------

    method RegisterWorkerRows(id: Id, r: Registration) returns (reply: Reply)
      modifies this`workers
      ensures T.Tx(View(), reply) == T.Register(old(View()), id, r)
    {
      if !T.ValidRegistration(id, r) {
        return Refused(Invalid);
      }
      var pending := set a | a in attempts && attempts[a].worker == id && !attempts[a].cleaned;
      assert pending == Pending(attempts, id);
      if id in workers && workers[id].engine != "" && workers[id].engine != r.engine && pending != {} {
        return Refused(Conflict);
      }
      if id in workers {
        workers := workers[id := workers[id].(session := r.session, cpuMillis := r.cpuMillis, memoryMib := r.memoryMib,
                                              engine := r.engine, gpuCapable := r.capable, gpuReady := false,
                                              gpuSequence := 0, gpuObservedAt := None, heartbeatAt := now)];
      } else {
        workers := workers[id := Worker(r.session, r.cpuMillis, r.memoryMib, false, now, r.engine, r.capable,
                                        false, 0, None)];
      }
      reply := Done;
    }

    method WorkerHeartbeatRows(id: Id, session: string) returns (reply: Reply)
      modifies this`workers
      ensures T.Tx(View(), reply) == T.WorkerHeartbeat(old(View()), id, session)
    {
      if !T.Session(View(), id, session) {
        return Refused(Stale);
      }
      workers := workers[id := workers[id].(heartbeatAt := now)];
      reply := Done;
    }

    method DrainWorkerRows(id: Id, drained: bool) returns (reply: Reply)
      modifies this`workers
      ensures T.Tx(View(), reply) == T.Drain(old(View()), id, drained)
    {
      if id !in workers {
        return Refused(NotFound);
      }
      workers := workers[id := workers[id].(drained := drained)];
      reply := Done;
    }

    method ReportGpuInventoryRows(worker: Id, session: string, sequence: int, ready: bool, seen: seq<Observed>)
      returns (reply: Reply)
      modifies this`workers, this`devices
      ensures T.Tx(View(), reply) == T.ReportInventory(old(View()), worker, session, sequence, ready, seen)
    {
      if !T.ValidSnapshot(sequence, seen) {
        return Refused(Invalid);
      }
      if !T.Session(View(), worker, session) {
        return Refused(Stale);
      }
      if !workers[worker].gpuCapable {
        return Refused(Conflict);
      }
      if sequence <= workers[worker].gpuSequence {
        return Done;
      }
      if ready {
        var ok := Upsert(worker, seen);
        if !ok {
          return Refused(Conflict);
        }
      }
      var w := workers[worker];
      workers := workers[worker := w.(gpuSequence := sequence, gpuReady := ready,
                                      gpuObservedAt := if ready then Some(now) else w.gpuObservedAt)];
      reply := Done;
    }

    /** Mark the worker's devices absent, then upsert what was seen unless a device is another worker's. */
    method Upsert(worker: Id, seen: seq<Observed>) returns (ok: bool)
      requires forall i, j | 0 <= i < j < |seen| :: seen[i].uuid != seen[j].uuid
      modifies this`devices
      ensures ok <==> forall i | 0 <= i < |seen| :: !T.Foreign(old(View()), worker, seen[i].uuid)
      ensures devices == if ok then T.Upserted(old(devices), worker, seen) else old(devices)
      ensures ok ==> G.Refreshed(old(devices), devices, worker, seen)
    {
      G.UpsertedRefreshes(devices, worker, seen);
      var saved := devices;
      devices := T.Upserted(devices, worker, []);
      for i := 0 to |seen|
        invariant devices == T.Upserted(saved, worker, seen[..i])
        invariant forall j | 0 <= j < i :: !T.Foreign(old(View()), worker, seen[j].uuid)
      {
        assert seen[..i + 1][..i] == seen[..i];
        UpsertedOthers(saved, worker, seen[..i], seen[i].uuid);
        if seen[i].uuid in devices && devices[seen[i].uuid].worker != worker {
          devices := saved;
          return false;
        }
        devices := devices[seen[i].uuid := Device(worker, seen[i].name, seen[i].memoryMib, seen[i].eligible, true)];
      }
      assert seen[..|seen|] == seen;
      ok := true;
    }

    // ---- Scheduling -----------------------------------------------------------------------------

    /** COALESCE(sum(...),0) over the worker's PENDING attempts. */
    method ReservedBy(worker: Id, kind: Resource) returns (sum: int)
      ensures sum == Reserved(View(), worker, kind)
    {
      var pending := set a | a in attempts && attempts[a].worker == worker && !attempts[a].cleaned;
      assert pending == Pending(attempts, worker);
      var rows := map a | a in pending && attempts[a].run in runs :: Demand(runs[attempts[a].run].spec, kind);
      assert rows == Demands(View(), worker, kind);
      sum := Sum(rows);
    }

    method FreeGpus(worker: Id) returns (free: set<Id>)
      requires worker in workers
      ensures free == T.UsableDevices(View(), worker)
    {
      if !T.GpuAvailable(View(), workers[worker]) {
        return {};
      }
      free := set u | u in devices && devices[u].worker == worker && devices[u].present && devices[u].eligible
                      && !exists k | k in allocations :: k.uuid == u && !allocations[k];
      assert free == FreeDevices(View(), worker);
    }

    method FindPending(worker: Id) returns (work: Option<Id>)
      ensures work.Some? <==> exists a :: T.Unacknowledged(View(), worker, a)
      ensures work.Some? ==> T.Replayable(View(), worker, work.value)
    {
      var pending := set a | a in attempts && T.Unacknowledged(View(), worker, a);
      assert forall a | T.Unacknowledged(View(), worker, a) :: a in pending;
      if pending == {} {
        return None;
      }
      EarliestExists(attempts, pending);
      var a :| a in pending && forall b | b in pending :: attempts[a].createdAt <= attempts[b].createdAt;
      work := Some(a);
    }

    /** The attempt handed out is the new one, or the earliest unacknowledged launch. */
    method AssignRows(worker: Id, session: string, id: Id, skipped: set<Id>) returns (reply: Reply, work: Option<Id>)
      modifies this`attempts, this`runs, this`events, this`allocations
      ensures T.Tx(View(), reply) == T.Assign(old(View()), worker, session, id, skipped)
      ensures work.Some? <==> reply.Granted? || reply.Replayed?
      ensures reply.Granted? ==> work.value == id
      ensures reply.Replayed? ==> T.Replayable(View(), worker, work.value)
    {
      if !T.Session(View(), worker, session) {
        return Refused(Stale), None;
      }
      if !T.Available(View(), workers[worker]) {
        return Idle, None;
      }
      work := FindPending(worker);
      if work.Some? {
        return Replayed, work;
      }
      if workers[worker].drained {
        return Idle, None;
      }
      var free := FreeGpus(worker);
      var candidates := Feasible(worker, free, skipped);
      if candidates == {} {
        return Idle, None;
      }
      if id in attempts {
        return Refused(Unavailable), None;
      }
      var run := SelectRun(candidates);
      var count := runs[run].spec.resources.gpuCount;
      Insert(run, id, worker);
      ReserveGpus(id, count, free);
      reply, work := Granted(id), Some(id);
    }

    method Feasible(worker: Id, free: set<Id>, skipped: set<Id>) returns (candidates: set<Id>)
      requires worker in workers && free == T.UsableDevices(View(), worker)
      ensures candidates == T.Candidates(View(), worker, skipped)
    {
      var cpu := ReservedBy(worker, Cpu);
      var memory := ReservedBy(worker, Memory);
      cpu, memory := workers[worker].cpuMillis - cpu, workers[worker].memoryMib - memory;
      candidates := set r | r in runs && r !in skipped && T.Ready(View(), runs[r])
                            && runs[r].spec.resources.gpuCount <= |free|
                            && runs[r].spec.resources.cpuMillis <= cpu && runs[r].spec.resources.memoryMib <= memory;
      forall r | r in runs
        ensures T.Fits(View(), worker, runs[r]) <==>
          && runs[r].spec.resources.gpuCount <= |free|
          && runs[r].spec.resources.cpuMillis <= cpu && runs[r].spec.resources.memoryMib <= memory
      {
        if T.Fits(View(), worker, runs[r]) {
          FitsNeeds(View(), worker, runs[r], Cpu);
          FitsNeeds(View(), worker, runs[r], Memory);
        } else if runs[r].spec.resources.gpuCount <= |free|
                  && runs[r].spec.resources.cpuMillis <= cpu && runs[r].spec.resources.memoryMib <= memory {
          C.FitsWhen(View(), worker, runs[r]);
        }
      }
    }

    /** Claim the first devices in uuid order. */
    method ReserveGpus(attempt: Id, count: int, free: set<Id>)
      requires count <= |free|
      modifies this`allocations
      ensures allocations
              == T.Reserve(old(allocations), attempt, if count >= 0 then FirstOf(free, count) else {})
    {
      var rest := free;
      ghost var taken: set<Id> := {};
      ReserveNone(allocations, attempt);
      if count < 0 {
        return;
      }
      var i := 0;
      while i < count
        invariant 0 <= i <= count && count - i <= |rest|
        invariant allocations == T.Reserve(old(allocations), attempt, taken)
        invariant taken + FirstOf(rest, count - i) == FirstOf(free, count)
      {
        LeastExists(rest);
        var u :| u in rest && forall v | v in rest :: u <= v;
        ReserveOne(old(allocations), attempt, taken, u);
        TakeLeast(rest, count - i, u, taken);
        allocations := allocations[AllocationKey(attempt, u) := false];
        taken := taken + {u};
        rest := rest - {u};
        i := i + 1;
      }
      assert FirstOf(rest, 0) == {};
      assert taken + {} == taken;
    }

    method RuntimeReportRows(worker: Id, session: string, id: Id, runtime: string, stopped: bool) returns (reply: Reply)
      modifies this`attempts, this`allocations
      ensures T.Tx(View(), reply) == T.RuntimeReport(old(View()), worker, session, id, runtime, stopped)
    {
      if !T.Session(View(), worker, session) {
        return Refused(Stale);
      }
      if !Locks(View(), id) {
        return Refused(NotFound);
      }
      if attempts[id].worker != worker {
        return Refused(Unauthorized);
      }
      if stopped {
        if Active(attempts[id].status) {
          return Refused(Conflict);
        }
        WriteAttempt(id, attempts[id].(cleaned := true));
        ReleaseGpus(id);
      } else {
        WriteAttempt(id, attempts[id].(runtime := Some(runtime)));
      }
      reply := Done;
    }

    /** UPDATE attempt_gpus SET released_at=... WHERE attempt_id=$1 AND released_at IS NULL. */
    method ReleaseGpus(id: Id)
      modifies this`allocations
      ensures allocations == T.Release(old(allocations), id)
    {
      var rows := allocations;
      allocations := map k | k in rows :: rows[k] || k.attempt == id;
    }

    method Cleanup(worker: Id, session: string) returns (reply: Reply, result: set<Id>)
      requires Valid()
      ensures reply == if T.Session(View(), worker, session) then Done else Refused(Stale)
      ensures reply.Done? ==> result == T.CleanupList(View(), worker)
      ensures reply.Done? ==> forall a :: a in result <==> D.ToClean(View(), worker, a)
      ensures reply.Done? ==> forall a | a in result :: ClosedIn(View(), a) && attempts[a].worker == worker
      ensures reply.Done? ==>
        forall k | k in allocations && !allocations[k] && k.uuid in devices && devices[k.uuid].worker == worker ::
          k.attempt in attempts && (Active(attempts[k.attempt].status) || k.attempt in result)
    {
      CleanupIsComplete(View(), worker);
      D.CleanupDecides(View(), worker);
      if !T.Session(View(), worker, session) {
        return Refused(Stale), {};
      }
      var pending := set a | a in attempts && attempts[a].worker == worker && !attempts[a].cleaned;
      assert pending == Pending(attempts, worker);
      result := set a | a in pending && !Active(attempts[a].status);
      reply := Done;
    }

    /** Which observed containers to stop; a container of another worker's attempt refuses the call. */
    method Reconcile(worker: Id, session: string, observed: seq<Id>) returns (reply: Reply, stop: seq<Id>)
      requires Valid()
      ensures |observed| > 1000 ==> reply == Refused(Invalid)
      ensures |observed| <= 1000 && !T.Session(View(), worker, session) ==> reply == Refused(Stale)
      ensures |observed| <= 1000 && T.Session(View(), worker, session) ==>
        reply == if exists a :: a in observed && a in attempts && attempts[a].worker != worker
                 then Refused(Unauthorized) else Done
      ensures reply.Done? ==>
        forall a :: a in stop <==>
          a in observed && !(a in attempts && attempts[a].status in {Starting, Running, Finalizing})
    {
      stop := [];
      if |observed| > 1000 {
        return Refused(Invalid), stop;
      }
      if !T.Session(View(), worker, session) {
        return Refused(Stale), stop;
      }
      for i := 0 to |observed|
        invariant forall a :: a in stop <==> a in observed[..i] && T.ShouldStop(View(), a)
        invariant forall a | a in observed[..i] && a in attempts :: attempts[a].worker == worker
      {
        var a := observed[i];
        assert observed[..i + 1] == observed[..i] + [a];
        if !Locks(View(), a) {
          assert a !in attempts;
          stop := stop + [a];
        } else if attempts[a].worker != worker {
          return Refused(Unauthorized), stop;
        } else if runs[attempts[a].run].active != Some(a) || !Active(attempts[a].status) {
          stop := stop + [a];
        }
      }
      assert observed[..|observed|] == observed;
      forall a
        ensures T.ShouldStop(View(), a) <==>
          !(a in attempts && attempts[a].status in {Starting, Running, Finalizing})
      {
        D.StopDecides(View(), a);
      }
      reply := Done;
    }

    // ---- The transactions, with what they promise -----------------------------------------------

    method Start(id: Id, generation: int, instance: string, node: string) returns (reply: Reply)
      requires Valid()
      modifies this`attempts, this`runs, this`events
      ensures T.Tx(View(), reply) == T.Start(old(View()), id, generation, instance, node)
      ensures D.StartDecision(old(View()), View(), reply, id, generation, instance, node)
      ensures Valid() && Evolves(old(View()), View())
      ensures reply.Done? ==> Owned(View(), id, generation, instance)
    {
      ghost var before := View();
      reply := StartRows(id, generation, instance, node);
      S.StartStep(before, id, generation, instance, node);
      if T.Start(before, id, generation, instance, node).reply.Done? {
        StartOwns(before, id, generation, instance, node);
      }
      D.StartDecides(before, id, generation, instance, node);
    }

    method Heartbeat(id: Id, generation: int, instance: string) returns (reply: Reply)
      requires Valid()
      modifies this`attempts
      ensures T.Tx(View(), reply) == T.Heartbeat(old(View()), id, generation, instance)
      ensures D.HeartbeatDecision(old(View()), View(), reply, id, generation, instance)
      ensures Valid() && Evolves(old(View()), View())
      ensures reply.Done? <==> old(Owned(View(), id, generation, instance))
      ensures reply.Done? ==> Renewed(View(), id, generation, instance)
    {
      ghost var before := View();
      reply := HeartbeatRows(id, generation, instance);
      S.HeartbeatStep(before, id, generation, instance);
      HeartbeatRenews(before, id, generation, instance);
      D.HeartbeatDecides(before, id, generation, instance);
    }

    method BeginFinalization(id: Id, generation: int, instance: string) returns (reply: Reply)
      requires Valid()
      modifies this`attempts, this`runs, this`events
      ensures T.Tx(View(), reply) == T.BeginFinalization(old(View()), id, generation, instance)
      ensures D.FinalizeDecision(old(View()), View(), reply, id, generation, instance)
      ensures Valid() && Evolves(old(View()), View())
      ensures reply.Done? <==> old(Owned(View(), id, generation, instance))
      ensures reply.Done? ==>
        Owned(View(), id, generation, instance) && runs[attempts[id].run].status.Finalizing?
    {
      ghost var before := View();
      reply := BeginFinalizationRows(id, generation, instance);
      S.FinalizeStep(before, id, generation, instance);
      FinalizationOpens(before, id, generation, instance);
      D.FinalizeDecides(before, id, generation, instance);
    }

    method Finish(id: Id, generation: int, instance: string, exitCode: int, reason: string, finalSequence: int)
      returns (reply: Reply)
      requires Valid()
      modifies this`attempts, this`runs, this`events
      ensures T.Tx(View(), reply) == T.Finish(old(View()), id, generation, instance, exitCode, reason, finalSequence)
      ensures D.FinishDecision(old(View()), View(), reply, id, generation, instance, exitCode, reason, finalSequence)
      ensures Valid() && Evolves(old(View()), View())
      ensures reply.Done? <==> T.Completed(View(), id, generation, instance, exitCode)
    {
      ghost var before := View();
      reply := FinishRows(id, generation, instance, exitCode, reason, finalSequence);
      S.FinishStep(before, id, generation, instance, exitCode, reason, finalSequence);
      FinishRecords(before, id, generation, instance, exitCode, reason, finalSequence);
      D.FinishDecides(before, id, generation, instance, exitCode, reason, finalSequence);
    }

    method Report(id: Id, generation: int, instance: string, records: seq<Record>) returns (reply: Reply)
      requires Valid()
      modifies this`attempts, this`telemetry
      ensures T.Tx(View(), reply) == T.Report(old(View()), id, generation, instance, records)
      ensures D.ReportDecision(old(View()), View(), reply, id, generation, instance, records)
      ensures Valid() && Evolves(old(View()), View())
      ensures reply.Acked? ==> Stores(View(), id, reply.sequence)
    {
      ghost var before := View();
      reply := ReportRows(id, generation, instance, records);
      R.ReportStep(before, id, generation, instance, records);
      ReportConfirms(before, id, generation, instance, records);
      D.ReportDecides(before, id, generation, instance, records);
    }

    method PublishArtifact(id: Id, generation: int, instance: string, path: string, value: Artifact)
      returns (reply: Reply)
      requires Valid()
      modifies this`artifacts
      ensures T.Tx(View(), reply) == T.Publish(old(View()), id, generation, instance, path, value)
      ensures D.PublishDecision(old(View()), View(), reply, id, generation, instance, path, value)
      ensures Valid() && Evolves(old(View()), View())
    {
      ghost var before := View();
      reply := PublishArtifactRows(id, generation, instance, path, value);
      R.PublishStep(before, id, generation, instance, path, value);
      D.PublishDecides(before, id, generation, instance, path, value);
    }

    method Cancel(run: Id) returns (reply: Reply)
      requires Valid()
      modifies this`attempts, this`runs, this`events
      ensures T.Tx(View(), reply) == T.Cancel(old(View()), run)
      ensures D.CancelDecision(old(View()), View(), reply, run)
      ensures Valid() && Evolves(old(View()), View())
      ensures reply.RunIs? <==> run in old(runs)
      ensures reply.RunIs? ==> NothingExecutes(View(), run)
    {
      ghost var before := View();
      reply := CancelRows(run);
      R.CancelStep(before, run);
      CancelEnds(before, run);
      D.CancelDecides(before, run);
    }

    method RequeueDue()
      requires Valid()
      modifies this`runs, this`events
      ensures View() == T.Requeue(old(View())).state
      ensures D.RequeueDecision(old(View()), View())
      ensures Valid() && Evolves(old(View()), View())
    {
      ghost var before := View();
      RequeueRows();
      R.RequeueStep(before);
      D.RequeueDecides(before);
    }

    method RecoverOne(id: Id) returns (reply: Reply)
      requires Valid()
      modifies this`attempts, this`runs, this`events
      ensures T.Tx(View(), reply) == T.RecoverOne(old(View()), id)
      ensures D.RecoverDecision(old(View()), View(), reply, id)
      ensures Valid() && Evolves(old(View()), View())
      ensures !OverdueIn(View(), id)
      ensures !old(OverdueIn(View(), id)) ==> View() == old(View())
    {
      ghost var before := View();
      reply := RecoverRows(id);
      S.RecoverStep(before, id);
      RecoverSettles(before, id);
      D.RecoverDecides(before, id);
    }

    method KubernetesStopped(id: Id) returns (reply: Reply)
      requires Valid()
      modifies this`attempts, this`runs, this`events
      ensures T.Tx(View(), reply) == T.KubernetesStopped(old(View()), id)
      ensures D.JobEndDecision(old(View()), View(), reply, id)
      ensures Valid() && Evolves(old(View()), View())
      ensures reply.Done? ==> ClosedIn(View(), id)
    {
      ghost var before := View();
      reply := KubernetesStoppedRows(id);
      S.KubernetesStoppedStep(before, id);
      if T.KubernetesStopped(before, id).reply.Done? {
        StoppedIsClosed(before, id);
      }
      D.JobEndDecides(before, id);
    }

    method KubernetesRuntime(id: Id, runtime: string, removed: bool) returns (reply: Reply)
      requires Valid()
      modifies this`attempts
      ensures T.Tx(View(), reply) == T.KubernetesRuntime(old(View()), id, runtime, removed)
      ensures D.JobDecision(old(View()), View(), reply, id, runtime, removed)
      ensures Valid() && Evolves(old(View()), View())
      ensures reply.Done? && removed ==>
        ClosedIn(View(), id) && Pending(attempts, KUBERNETES) == old(Pending(attempts, KUBERNETES)) - {id}
    {
      ghost var before := View();
      reply := KubernetesRuntimeRows(id, runtime, removed);
      R.KubernetesRuntimeStep(before, id, runtime, removed);
      if removed && T.KubernetesRuntime(before, id, runtime, true).reply.Done? {
        RemovalFrees(before, id, runtime);
      }
      D.JobDecides(before, id, runtime, removed);
    }

    method AdmitKubernetes(limit: int, id: Id, skipped: set<Id>) returns (reply: Reply)
      requires Valid()
      modifies this`attempts, this`runs, this`events
      ensures T.Tx(View(), reply) == T.Admit(old(View()), limit, id, skipped)
      ensures G.AdmitDecision(old(View()), View(), reply, limit, id, skipped)
      ensures Valid() && Evolves(old(View()), View())
    {
      ghost var before := View();
      reply := AdmitKubernetesRows(limit, id, skipped);
      R.AdmitStep(before, limit, id, skipped);
      G.AdmitDecides(before, limit, id, skipped);
    }

    method Submit(spec: RunSpec, key: string, fingerprint: Fingerprint, id: Id) returns (reply: Reply)
      requires Valid()
      modifies this`runs, this`events, this`submissions
      ensures T.Tx(View(), reply) == T.Submit(old(View()), spec, key, fingerprint, id)
      ensures G.SubmitDecision(old(View()), View(), reply, spec, key, fingerprint, id)
      ensures Valid() && Evolves(old(View()), View())
      ensures reply.RunIs? ==> L.Names(View(), key, Submission(fingerprint, reply.run))
    {
      ghost var before := View();
      reply := SubmitRows(spec, key, fingerprint, id);
      assert Valid() && Evolves(before, View()) by {
        R.SubmitStep(before, spec, key, fingerprint, id);
      }
      assert G.SubmitDecision(before, View(), reply, spec, key, fingerprint, id) by {
        G.SubmitDecides(before, spec, key, fingerprint, id);
      }
      SubmitIsNamed(before, spec, key, fingerprint, id);
    }

    method Rerun(source: Id, key: string, id: Id) returns (reply: Reply)
      requires Valid()
      modifies this`runs, this`events, this`submissions
      ensures T.Tx(View(), reply) == T.Rerun(old(View()), source, key, id)
      ensures G.RerunDecision(old(View()), View(), reply, source, key, id)
      ensures Valid() && Evolves(old(View()), View())
      ensures reply.RunIs? ==> L.Names(View(), key, Submission(OfRerun(source), reply.run))
    {
      ghost var before := View();
      reply := RerunRows(source, key, id);
      R.RerunStep(before, source, key, id);
      RerunIsNamed(before, source, key, id);
      G.RerunDecides(before, source, key, id);
    }

    method SubmitSweep(entries: seq<Entry>, key: string, fingerprint: Fingerprint, id: Id) returns (reply: Reply)
      requires Valid()
      modifies this`runs, this`events, this`sweeps
      ensures T.Tx(View(), reply) == T.SubmitSweep(old(View()), entries, key, fingerprint, id)
      ensures G.SweepDecision(old(View()), View(), reply, entries, key, fingerprint, id)
      ensures Valid() && Evolves(old(View()), View())
    {
      ghost var before := View();
      reply := SubmitSweepRows(entries, key, fingerprint, id);
      R.SweepStep(before, entries, key, fingerprint, id);
      G.SweepDecides(before, entries, key, fingerprint, id);
    }

    method RegisterWorker(id: Id, r: Registration) returns (reply: Reply)
      requires Valid()
      modifies this`workers
      ensures T.Tx(View(), reply) == T.Register(old(View()), id, r)
      ensures G.RegisterDecision(old(View()), View(), reply, id, r)
      ensures Valid() && Evolves(old(View()), View())
      ensures reply.Done? ==> Fences(old(View()), View(), id, r.session)
    {
      ghost var before := View();
      reply := RegisterWorkerRows(id, r);
      R.RegisterStep(before, id, r);
      if T.Register(before, id, r).reply.Done? {
        RegisterFences(before, id, r);
      }
      G.RegisterDecides(before, id, r);
    }

    method WorkerHeartbeat(id: Id, session: string) returns (reply: Reply)
      requires Valid()
      modifies this`workers
      ensures T.Tx(View(), reply) == T.WorkerHeartbeat(old(View()), id, session)
      ensures G.BeatDecision(old(View()), View(), reply, id, session)
      ensures Valid() && Evolves(old(View()), View())
      ensures reply.Done? <==> old(T.Session(View(), id, session))
      ensures reply.Done? ==> Served(View(), id, session)
    {
      ghost var before := View();
      reply := WorkerHeartbeatRows(id, session);
      R.WorkerHeartbeatStep(before, id, session);
      HeartbeatKeepsAvailable(before, id, session);
      G.BeatDecides(before, id, session);
    }

    method DrainWorker(id: Id, drained: bool) returns (reply: Reply)
      requires Valid()
      modifies this`workers
      ensures T.Tx(View(), reply) == T.Drain(old(View()), id, drained)
      ensures G.DrainDecision(old(View()), View(), reply, id, drained)
      ensures Valid() && Evolves(old(View()), View())
      ensures reply.Done? && drained ==> GrantedNothing(View(), id)
    {
      ghost var before := View();
      reply := DrainWorkerRows(id, drained);
      R.DrainStep(before, id, drained);
      if id in before.workers {
        DrainedGetsNothing(before, id);
      }
      G.DrainDecides(before, id, drained);
    }

    method ReportGpuInventory(worker: Id, session: string, sequence: int, ready: bool, seen: seq<Observed>)
      returns (reply: Reply)
      requires Valid()
      modifies this`workers, this`devices
      ensures T.Tx(View(), reply) == T.ReportInventory(old(View()), worker, session, sequence, ready, seen)
      ensures G.InventoryDecision(old(View()), View(), reply, worker, session, sequence, ready, seen)
      ensures Valid() && Evolves(old(View()), View())
    {
      ghost var before := View();
      reply := ReportGpuInventoryRows(worker, session, sequence, ready, seen);
      R.InventoryStep(before, worker, session, sequence, ready, seen);
      G.InventoryDecides(before, worker, session, sequence, ready, seen);
    }

    method Assign(worker: Id, session: string, id: Id, skipped: set<Id>) returns (reply: Reply, work: Option<Id>)
      requires Valid()
      modifies this`attempts, this`runs, this`events, this`allocations
      ensures T.Tx(View(), reply) == T.Assign(old(View()), worker, session, id, skipped)
      ensures work.Some? <==> reply.Granted? || reply.Replayed?
      ensures reply.Granted? ==> work.value == id
      ensures reply.Replayed? ==> T.Replayable(View(), worker, work.value) && G.Earliest(View(), worker, work.value)
      ensures G.AssignDecision(old(View()), View(), reply, worker, session, id, skipped)
      ensures Valid() && Evolves(old(View()), View())
    {
      ghost var before := View();
      reply, work := AssignRows(worker, session, id, skipped);
      assert Valid() && Evolves(before, View()) by {
        R.AssignStep(before, worker, session, id, skipped);
      }
      assert G.AssignDecision(before, View(), reply, worker, session, id, skipped) by {
        G.AssignDecides(before, worker, session, id, skipped);
      }
      if reply.Replayed? {
        G.ReplayIsEarliest(View(), worker, work.value);
      }
    }

    method RuntimeReport(worker: Id, session: string, id: Id, runtime: string, stopped: bool) returns (reply: Reply)
      requires Valid()
      modifies this`attempts, this`allocations
      ensures T.Tx(View(), reply) == T.RuntimeReport(old(View()), worker, session, id, runtime, stopped)
      ensures D.RuntimeDecision(old(View()), View(), reply, worker, session, id, runtime, stopped)
      ensures Valid() && Evolves(old(View()), View())
      ensures reply.Done? && stopped ==> HoldsNothing(View(), id)
    {
      ghost var before := View();
      reply := RuntimeReportRows(worker, session, id, runtime, stopped);
      R.RuntimeStep(before, worker, session, id, runtime, stopped);
      if stopped && T.RuntimeReport(before, worker, session, id, runtime, true).reply.Done? {
        StopReleases(before, worker, session, id, runtime);
      }
      D.RuntimeDecides(before, worker, session, id, runtime, stopped);
    }

    // ---- The whole recovery pass ----------------------------------------------------------------

    method ScanOverdue() returns (candidates: seq<Id>)
      ensures Scanned(View(), candidates)
    {
      var rest := set a | a in attempts && T.Overdue(attempts[a], now);
      assert rest == OverdueSet(View());
      candidates := [];
      while rest != {} && |candidates| < SCAN
        invariant Scanning(View(), candidates, rest)
        decreases |rest|
      {
        EarliestExists(attempts, rest);
        var a :| a in rest && forall b | b in rest :: attempts[a].createdAt <= attempts[b].createdAt;
        ScanNext(View(), candidates, rest, a);
        candidates := candidates + [a];
        rest := rest - {a};
      }
      ScanDone(View(), candidates, rest);
    }

    /** recover(), undisturbed: requeue, scan, then one transaction per candidate. */
    method Recover() returns (ghost candidates: seq<Id>)
      requires Valid()
      modifies this`attempts, this`runs, this`events
      ensures Scanned(T.Requeue(old(View())).state, candidates)
      ensures View() == T.Exec(T.Requeue(old(View())).state, RecoverOps(candidates))
      ensures Valid() && EachClosed(View(), candidates)
    {
      R.RequeueStep(View());
      RequeueRows();
      ghost var before := View();
      var list := ScanOverdue();
      RecoverEach(list);
      candidates := list;
      PassCloses(before, list);
    }

    method RecoverEach(list: seq<Id>)
      modifies this`attempts, this`runs, this`events
      ensures View() == T.Exec(old(View()), RecoverOps(list))
    {
      ghost var before := View();
      for i := 0 to |list|
        invariant View() == T.Exec(before, RecoverOps(list[..i]))
      {
        var _ := RecoverRows(list[i]);
        RecoverNext(before, list, i);
      }
      assert list[..|list|] == list;
    }
  }

  // ---- About the loops --------------------------------------------------------------------------

  lemma FirstIsUnique(runs: map<Id, Run>, candidates: set<Id>, a: Id, b: Id)
    requires candidates <= runs.Keys && IsFirst(runs, candidates, a) && IsFirst(runs, candidates, b)
    ensures a == b
  {
  }

  /** The runs after the update, with the events of `done` numbered. */
  function RowsAfter(s: State, due: set<Id>, done: set<Id>): map<Id, Run> {
    map r | r in s.runs ::
      if r !in due then s.runs[r]
      else if r in done then s.runs[r].(status := Queued, eventSequence := s.runs[r].eventSequence + 1)
      else s.runs[r].(status := Queued)
  }

  ghost function Announced(s: State, done: set<Id>): map<EventKey, EventKind> {
    map r | r in done && r in s.runs :: EventKey(r, s.runs[r].eventSequence + 1) := Requeued
  }

  lemma AnnounceOne(s: State, due: set<Id>, done: set<Id>, r: Id)
    requires r in due && r in s.runs && r !in done
    ensures
      var row := RowsAfter(s, due, done)[r];
      && RowsAfter(s, due, done + {r}) == RowsAfter(s, due, done)[r := row.(eventSequence := row.eventSequence + 1)]
      && s.events + Announced(s, done + {r})
         == (s.events + Announced(s, done))[EventKey(r, row.eventSequence + 1) := Requeued]
  {
    var key := EventKey(r, s.runs[r].eventSequence + 1);
    assert Announced(s, done + {r}) == Announced(s, done)[key := Requeued] by {
      forall k
        ensures k in Announced(s, done + {r}) <==> k in Announced(s, done)[key := Requeued]
      {
        assert k in Announced(s, done) <==>
          k.run in done && k.run in s.runs && k.sequence == s.runs[k.run].eventSequence + 1;
      }
    }
  }

  lemma RequeueAll(s: State, due: set<Id>)
    requires due == set r | r in s.runs && T.RetryDue(s, s.runs[r])
    ensures T.Requeue(s).state == s.(runs := RowsAfter(s, due, due), events := s.events + Announced(s, due))
  {
    RequeueRows(s, due);
    RequeueAnnounces(s, due);
  }

  lemma RequeueRows(s: State, due: set<Id>)
    requires due == set r | r in s.runs && T.RetryDue(s, s.runs[r])
    ensures T.Requeue(s).state.runs == RowsAfter(s, due, due)
  {
  }

  lemma RequeueAnnounces(s: State, due: set<Id>)
    requires due == set r | r in s.runs && T.RetryDue(s, s.runs[r])
    ensures T.RequeueEvents(s) == Announced(s, due)
  {
  }

  ghost predicate FailsWith(s: State, entries: seq<Entry>, sweep: Id, code: ErrorCode) {
    T.AddRuns(s, entries, sweep).None? && T.SweepError(s, entries, sweep) == code
  }

  lemma SweepPrefix(s: State, entries: seq<Entry>, sweep: Id, n: nat)
    requires n < |entries|
    ensures
      var prefix, e := T.AddRuns(s, entries[..n], sweep), entries[n];
      T.AddRuns(s, entries[..n + 1], sweep) ==
      if prefix.None? || !ValidSubmission(e.spec) || e.id in prefix.value.runs then None
      else Some(T.AddRun(prefix.value, e.id, e.spec, Some(sweep), None))
  {
    assert entries[..n + 1][..n] == entries[..n];
  }

  lemma SweepErrorKept(s: State, entries: seq<Entry>, sweep: Id)
    requires entries != [] && T.AddRuns(s, entries[..|entries| - 1], sweep).None?
    ensures T.AddRuns(s, entries, sweep).None?
    ensures T.SweepError(s, entries, sweep) == T.SweepError(s, entries[..|entries| - 1], sweep)
  {
  }

  lemma {:induction false} SweepFailsAt(s: State, entries: seq<Entry>, sweep: Id, i: nat, code: ErrorCode)
    requires i < |entries| && T.AddRuns(s, entries[..i + 1], sweep).None?
    requires T.SweepError(s, entries[..i + 1], sweep) == code
    ensures T.AddRuns(s, entries, sweep).None? && T.SweepError(s, entries, sweep) == code
    decreases |entries|
  {
    if i + 1 == |entries| {
      assert entries[..i + 1] == entries;
    } else {
      var shorter := entries[..|entries| - 1];
      assert shorter[..i + 1] == entries[..i + 1];
      SweepFailsAt(s, shorter, sweep, i, code);
      SweepErrorKept(s, entries, sweep);
    }
  }

  lemma SweepErrorAt(s: State, entries: seq<Entry>, sweep: Id, i: nat)
    requires i < |entries| && T.AddRuns(s, entries[..i], sweep).Some? && T.AddRuns(s, entries[..i + 1], sweep).None?
    ensures T.SweepError(s, entries[..i + 1], sweep)
            == if !ValidSubmission(entries[i].spec) then Invalid else Unavailable
  {
    assert entries[..i + 1][..i] == entries[..i];
  }

  /** Upserting other devices leaves this one's owner alone. */
  lemma {:induction false} UpsertedOthers(devices: map<Id, Device>, worker: Id, seen: seq<Observed>, uuid: Id)
    requires forall i | 0 <= i < |seen| :: seen[i].uuid != uuid
    ensures
      var after := T.Upserted(devices, worker, seen);
      (uuid in after <==> uuid in devices) && (uuid in devices ==> after[uuid].worker == devices[uuid].worker)
  {
    if seen != [] {
      UpsertedOthers(devices, worker, seen[..|seen| - 1], uuid);
    }
  }

  lemma FitsNeeds(s: State, worker: Id, r: Run, kind: Resource)
    requires worker in s.workers && T.Fits(s, worker, r)
    ensures r.spec.resources.gpuCount <= |T.UsableDevices(s, worker)|
    ensures Demand(r.spec, kind) <= Capacity(s.workers[worker], kind) - Reserved(s, worker, kind)
  {
  }

  lemma TakeLeast(rest: set<Id>, n: nat, u: Id, taken: set<Id>)
    requires 0 < n <= |rest| && u in rest && forall v | v in rest :: u <= v
    ensures n - 1 <= |rest - {u}|
    ensures taken + FirstOf(rest, n) == (taken + {u}) + FirstOf(rest - {u}, n - 1)
  {
    assert u == Least(rest);
  }

  lemma ReserveNone(allocations: map<AllocationKey, bool>, attempt: Id)
    ensures T.Reserve(allocations, attempt, {}) == allocations
  {
  }

  lemma ReserveOne(allocations: map<AllocationKey, bool>, attempt: Id, taken: set<Id>, u: Id)
    ensures T.Reserve(allocations, attempt, taken + {u})
            == T.Reserve(allocations, attempt, taken)[AllocationKey(attempt, u) := false]
  {
  }

  /** The earliest overdue attempts were taken so far, the others remain. */
  ghost predicate Scanning(s: State, list: seq<Id>, rest: set<Id>) {
    && rest <= OverdueSet(s) && |list| <= SCAN && |list| + |rest| == |OverdueSet(s)|
    && (forall a | a in OverdueSet(s) :: a in rest || a in list)
    && (forall i | 0 <= i < |list| :: list[i] in OverdueSet(s) && list[i] !in rest && NoLater(s, list[i], rest))
    && (forall i, j | 0 <= i < j < |list| ::
          list[i] != list[j] && s.attempts[list[i]].createdAt <= s.attempts[list[j]].createdAt)
  }

  ghost predicate NoLater(s: State, a: Id, rest: set<Id>) {
    a in s.attempts && forall b | b in rest && b in s.attempts :: s.attempts[a].createdAt <= s.attempts[b].createdAt
  }

  lemma ScanNext(s: State, list: seq<Id>, rest: set<Id>, a: Id)
    requires Scanning(s, list, rest) && |list| < SCAN && a in rest && NoLater(s, a, rest)
    ensures Scanning(s, list + [a], rest - {a})
  {
  }

  lemma ScanDone(s: State, list: seq<Id>, rest: set<Id>)
    requires Scanning(s, list, rest) && (rest == {} || |list| == SCAN)
    ensures Scanned(s, list)
  {
  }

  lemma {:induction false} EarliestExists(attempts: map<Id, Attempt>, ids: set<Id>)
    requires ids <= attempts.Keys && ids != {}
    ensures exists a :: a in ids && forall b | b in ids :: attempts[a].createdAt <= attempts[b].createdAt
    decreases |ids|
  {
    var c := Pick(ids);
    var rest := ids - {c};
    assert forall b | b in ids :: b == c || b in rest;
    if rest != {} {
      EarliestExists(attempts, rest);
      var n :| n in rest && forall b | b in rest :: attempts[n].createdAt <= attempts[b].createdAt;
      assert (if attempts[c].createdAt <= attempts[n].createdAt then c else n) in ids;
    }
  }

  ghost predicate EachClosed(s: State, candidates: seq<Id>) {
    forall i | 0 <= i < |candidates| :: ClosedIn(s, candidates[i])
  }

  lemma PassCloses(s: State, candidates: seq<Id>)
    requires Inv(s) && Scanned(s, candidates)
    ensures Inv(T.Exec(s, RecoverOps(candidates)))
    ensures EachClosed(T.Exec(s, RecoverOps(candidates)), candidates)
  {
    R.RunsKeep(s, RecoverOps(candidates));
    PassMakesProgress(s, candidates, RecoverOps(candidates));
  }

  lemma RecoverNext(s: State, list: seq<Id>, i: nat)
    requires i < |list|
    ensures T.Exec(s, RecoverOps(list[..i + 1])) == T.RecoverOne(T.Exec(s, RecoverOps(list[..i])), list[i]).state
  {
    assert list[..i + 1][..i] == list[..i];
    RecoverDispatch(T.Exec(s, RecoverOps(list[..i])), list[i]);
  }

  /** The transactions a pass issues after its scan. */
  function RecoverOps(candidates: seq<Id>): (ops: seq<Op>)
    ensures |ops| == |candidates|
    ensures forall i | 0 <= i < |candidates| :: ops[i] == RecoverOp(candidates[i])
  {
    if candidates == [] then []
    else RecoverOps(candidates[..|candidates| - 1]) + [RecoverOp(candidates[|candidates| - 1])]
  }
}
