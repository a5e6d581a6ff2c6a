/** What the store promises about the life of runs and attempts, over every run of the system. */
module Lifecycle {
  import opened Base
  import opened Domain
  import opened Tables
  import opened Transactions
  import opened Invariants
  import opened Steps
  import opened Reachability

  // ---- Run and attempt agree ------------------------------------------------------------------

  /** A run executes exactly when its active attempt does, and then no other attempt of it does. */
  lemma RunsAndAttemptsAgree(timing: Timing, now: Time, ops: seq<Op>, r: Id)
    requires ValidTiming(timing)
    requires r in Exec(Empty(timing, now), ops).runs
    ensures
      var s := Exec(Empty(timing, now), ops);
      var run := s.runs[r];
      && (Active(run.status) <==>
            && run.active.Some? && run.active.value in s.attempts
            && Active(s.attempts[run.active.value].status))
      && (Active(run.status) ==>
            && s.attempts[run.active.value].run == r
            && s.attempts[run.active.value].status == run.status
            && s.attempts[run.active.value].generation == run.generation)
      && (forall a | a in s.attempts && s.attempts[a].run == r && Active(s.attempts[a].status) ::
            run.active == Some(a))
  {
    Reachable(timing, now, ops);
  }

  /** The attempts of a run carry exactly the generations 1 to run.generation, once each. */
  lemma GenerationsAreExact(timing: Timing, now: Time, ops: seq<Op>, r: Id, g: int)
    requires ValidTiming(timing)
    requires r in Exec(Empty(timing, now), ops).runs
    ensures
      var s := Exec(Empty(timing, now), ops);
      && s.runs[r].generation <= s.runs[r].spec.retry.maxAttempts
      && (1 <= g <= s.runs[r].generation <==> HasGeneration(s.attempts, r, g))
      && (forall a, b | a in s.attempts && b in s.attempts && s.attempts[a].run == s.attempts[b].run == r
                        && s.attempts[a].generation == s.attempts[b].generation == g :: a == b)
  {
    Reachable(timing, now, ops);
  }

  // ---- The transition table -------------------------------------------------------------------

  /** Every committed status change is one the transition table allows, and uses up budget. */
  lemma StepsFollowTable(s: State, op: Op, r: Id)
    requires Inv(s) && r in s.runs
    ensures r in Step(s, op).runs
    ensures
      var r0, r1 := s.runs[r], Step(s, op).runs[r];
      && (r1.status != r0.status ==> TransitionAllowed(r0.status, r1.status) && Remaining(r1) < Remaining(r0))
      && (r1.status == r0.status ==> Remaining(r1) == Remaining(r0))
      && r1.eventSequence - r0.eventSequence == (if r1.status == r0.status then 0 else 1)
  {
    StepKeeps(s, op);
    assert RunEvolves(s.runs[r], Step(s, op).runs[r], s.attempts);
    assert RunBudget(s.runs[r]) && RunBudget(Step(s, op).runs[r]);
    MoveSpends(s.runs[r], Step(s, op).runs[r], s.attempts);
  }

  lemma MoveSpends(r: Run, r': Run, attempts: map<Id, Attempt>)
    requires RunEvolves(r, r', attempts) && RunBudget(r) && RunBudget(r')
    ensures r'.status != r.status ==> Remaining(r') < Remaining(r)
    ensures r'.status == r.status ==> SameLifecycle(r, r')
  {
  }

  /** Replaying the event kinds in order. */
  ghost function Replay(events: map<EventKey, EventKind>, run: Id, n: nat): Option<RunStatus> {
    if n == 0 then None
    else if EventKey(run, n) !in events then Replay(events, run, n - 1)
    else
      var before := Replay(events, run, n - 1);
      var kind := events[EventKey(run, n)];
      if before.None? then (if kind.Submitted? then Some(Queued) else None)
      else if TransitionAllowed(before.value, After(kind)) then Some(After(kind))
      else before
  }

  lemma {:induction false} ReplayPrefix(s: State, r: Id, n: nat)
    requires r in s.runs && RunHistory(r, s.runs[r], s.events) && 1 <= n <= s.runs[r].eventSequence
    ensures Replay(s.events, r, n) == Some(After(s.events[EventKey(r, n)]))
  {
    assert EventKey(r, n) in s.events;
    if n > 1 {
      ReplayPrefix(s, r, n - 1);
      assert Consecutive(s.events, r, n - 1);
    }
  }

  /**
   * A run's events are numbered without gaps, folding their kinds through the transition table
   * gives the current status, a terminal event is the last one, and there are at most
   * 5 * max_attempts events in all.
   */
  lemma EventsTellTheStatus(timing: Timing, now: Time, ops: seq<Op>, r: Id)
    requires ValidTiming(timing)
    requires r in Exec(Empty(timing, now), ops).runs
    ensures
      var s := Exec(Empty(timing, now), ops);
      var last := s.runs[r].eventSequence;
      && 1 <= last <= 5 * s.runs[r].spec.retry.maxAttempts
      && (forall n :: EventKey(r, n) in s.events <==> 1 <= n <= last)
      && Replay(s.events, r, last) == Some(s.runs[r].status)
      && (forall n | 1 <= n <= last && Terminal(After(s.events[EventKey(r, n)])) :: n == last)
  {
    Reachable(timing, now, ops);
    var s := Exec(Empty(timing, now), ops);
    var last := s.runs[r].eventSequence;
    assert RunHistory(r, s.runs[r], s.events) && RunBudget(s.runs[r]);
    ReplayPrefix(s, r, last);
    BudgetIsPositive(s.runs[r]);
    forall n | 1 <= n <= last && Terminal(After(s.events[EventKey(r, n)]))
      ensures n == last
    {
      assert n < last ==> Consecutive(s.events, r, n);
    }
  }

  lemma BudgetIsPositive(r: Run)
    requires RunBudget(r)
    ensures Remaining(r) >= 0
  {
  }

  ghost predicate Ended(s: State, r: Id, run: Run) {
    r in s.runs && SameLifecycle(run, s.runs[r]) && s.runs[r].spec == run.spec
  }

  lemma TerminalStep(s: State, op: Op, r: Id, run: Run)
    requires Inv(s) && Terminal(run.status) && Ended(s, r, run)
    ensures Ended(Step(s, op), r, run)
  {
    StepKeeps(s, op);
    TerminalAfter(s, Step(s, op), r, run);
  }

  lemma TerminalAfter(s: State, s': State, r: Id, run: Run)
    requires RunsEvolve(s.runs, s'.runs, s.attempts) && Terminal(run.status) && Ended(s, r, run)
    ensures Ended(s', r, run)
  {
    assert RunEvolves(s.runs[r], s'.runs[r], s.attempts);
  }

  /** A terminal run never changes again, whatever is requested. */
  lemma {:induction false} TerminalForever(s: State, ops: seq<Op>, r: Id)
    requires Inv(s) && r in s.runs && Terminal(s.runs[r].status)
    ensures Ended(Exec(s, ops), r, s.runs[r])
  {
    if ops != [] {
      TerminalForever(s, ops[..|ops| - 1], r);
      RunsKeep(s, ops[..|ops| - 1]);
      TerminalStep(Exec(s, ops[..|ops| - 1]), ops[|ops| - 1], r, s.runs[r]);
    }
  }

  // ---- Fencing --------------------------------------------------------------------------------

  lemma DeadAfter(s: State, s': State, a: Id)
    requires Core(s) && Agree(s'.runs, s'.attempts) && Evolves(s, s')
    requires Dead(s, a)
    ensures Dead(s', a)
  {
  }

  ghost predicate SameOutputsOf(s: State, s': State, a: Id) {
    && (forall k | k in s'.telemetry && k.attempt == a :: k in s.telemetry && s'.telemetry[k] == s.telemetry[k])
    && (forall k | k in s.telemetry && k.attempt == a :: k in s'.telemetry)
    && (forall k | k in s'.artifacts && k.attempt == a :: k in s.artifacts && s'.artifacts[k] == s.artifacts[k])
    && (forall k | k in s.artifacts && k.attempt == a :: k in s'.artifacts)
  }

  lemma DeadStep(s: State, op: Op, a: Id)
    requires Inv(s) && Dead(s, a)
    ensures Dead(Step(s, op), a) && Frozen(s.attempts[a], Step(s, op).attempts[a])
    ensures SameOutputsOf(s, Step(s, op), a)
  {
    StepKeeps(s, op);
    DeadAfter(s, Step(s, op), a);
  }

  /** Dead is for ever, and everything a dead attempt wrote stays as it is. */
  lemma {:induction false} DeadForever(s: State, ops: seq<Op>, a: Id)
    requires Inv(s) && Dead(s, a)
    ensures
      var s' := Exec(s, ops);
      && Dead(s', a)
      && s'.attempts[a].instance == s.attempts[a].instance && s'.attempts[a].ack == s.attempts[a].ack
      && SameOutputsOf(s, s', a)
  {
    if ops != [] {
      var m := Exec(s, ops[..|ops| - 1]);
      DeadForever(s, ops[..|ops| - 1], a);
      RunsKeep(s, ops[..|ops| - 1]);
      DeadStep(m, ops[|ops| - 1], a);
    }
  }

  /** The attempt an owner request is about. */
  predicate OwnerRequest(op: Op, a: Id) {
    && (op.StartOp? || op.HeartbeatOp? || op.FinalizeOp? || op.FinishOp? || op.ReportOp? || op.PublishOp?)
    && op.attempt == a
  }

  /** No owner request about a dead attempt changes anything; only a repeated completion is answered. */
  lemma DeadIsRefused(s: State, op: Op, a: Id)
    requires Core(s) && Dead(s, a) && OwnerRequest(op, a)
    ensures RunnerTx(s, op).state == s
    ensures RunnerTx(s, op).reply.Refused? || (op.FinishOp? && RunnerTx(s, op).reply.Done?)
  {
  }

  /** Permanent fencing: once dead, refused and unchanged at every later moment. */
  lemma FencedForever(s: State, ops: seq<Op>, op: Op, a: Id)
    requires Inv(s) && Dead(s, a) && OwnerRequest(op, a)
    ensures
      var s' := Exec(s, ops);
      && Step(s', op) == s'
      && (Perform(s', op).reply.Refused? || (op.FinishOp? && Perform(s', op).reply.Done?))
  {
    DeadForever(s, ops, a);
    RunsKeep(s, ops);
    DeadIsRefused(Exec(s, ops), op, a);
  }

  /** Conversely, a live owner with the right generation and instance is always accepted. */
  lemma LiveIsAccepted(s: State, a: Id, generation: int, instance: string)
    requires Core(s) && a in s.attempts
    ensures
      Heartbeat(s, a, generation, instance).reply.Done? <==>
      && !Dead(s, a) && !s.attempts[a].status.Starting?
      && s.attempts[a].generation == generation && s.attempts[a].instance == instance
  {
  }

  /** How an attempt ended, whichever attempt its run points at now. */
  predicate Outcome(s: State, id: Id, generation: int, instance: string, exitCode: int) {
    && Locks(s, id)
    && var a := s.attempts[id];
    && a.instance == instance && a.generation == generation && a.exitCode == Some(exitCode)
    && (a.status.Succeeded? || a.status.Failed?)
  }

  lemma OutcomeAfter(s: State, s': State, id: Id, generation: int, instance: string, exitCode: int)
    requires Core(s) && Evolves(s, s') && Outcome(s, id, generation, instance, exitCode)
    ensures Outcome(s', id, generation, instance, exitCode)
  {
  }

  lemma {:induction false} OutcomeForever(s: State, ops: seq<Op>, id: Id, generation: int, instance: string, exitCode: int)
    requires Inv(s) && Outcome(s, id, generation, instance, exitCode)
    ensures Outcome(Exec(s, ops), id, generation, instance, exitCode)
  {
    if ops != [] {
      var m := Exec(s, ops[..|ops| - 1]);
      OutcomeForever(s, ops[..|ops| - 1], id, generation, instance, exitCode);
      RunsKeep(s, ops[..|ops| - 1]);
      StepKeeps(m, ops[|ops| - 1]);
      OutcomeAfter(m, Exec(s, ops), id, generation, instance, exitCode);
    }
  }

  /** A recorded completion may be repeated exactly as long as its attempt was not replaced. */
  lemma CompletionRepeats(s: State, ops: seq<Op>, id: Id, generation: int, instance: string, exitCode: int)
    requires Inv(s) && Completed(s, id, generation, instance, exitCode)
    ensures
      var s' := Exec(s, ops);
      && Locks(s', id)
      && (s'.runs[s'.attempts[id].run].active == Some(id) <==> Completed(s', id, generation, instance, exitCode))
      && (forall reason, n ::
            s'.runs[s'.attempts[id].run].active == Some(id) <==>
            Finish(s', id, generation, instance, exitCode, reason, n) == Tx(s', Done))
  {
    OutcomeForever(s, ops, id, generation, instance, exitCode);
    RunsKeep(s, ops);
    ReplacedIsRefused(Exec(s, ops), id, generation, instance, exitCode);
  }

  lemma ReplacedIsRefused(s: State, id: Id, generation: int, instance: string, exitCode: int)
    requires Core(s) && Outcome(s, id, generation, instance, exitCode)
    ensures forall reason, n ::
      s.runs[s.attempts[id].run].active == Some(id) <==>
      Finish(s, id, generation, instance, exitCode, reason, n) == Tx(s, Done)
  {
  }

  /** instance_id is written once: whoever claimed the attempt keeps it. */
  lemma {:induction false} InstanceIsWriteOnce(s: State, ops: seq<Op>, a: Id)
    requires Inv(s) && a in s.attempts && s.attempts[a].instance != ""
    ensures a in Exec(s, ops).attempts && Exec(s, ops).attempts[a].instance == s.attempts[a].instance
  {
    if ops != [] {
      var m := Exec(s, ops[..|ops| - 1]);
      InstanceIsWriteOnce(s, ops[..|ops| - 1], a);
      RunsKeep(s, ops[..|ops| - 1]);
      StepKeeps(m, ops[|ops| - 1]);
      assert AttemptEvolves(m.attempts[a], Exec(s, ops).attempts[a]);
    }
  }

  /** However often it is renewed, no owner acts later than launch + timeout + finalization. */
  lemma OwnershipIsBounded(s: State, a: Id, generation: int, instance: string)
    requires Core(s) && Owned(s, a, generation, instance)
    ensures
      var limit := s.timing.launch + s.runs[s.attempts[a].run].spec.timeoutSeconds + s.timing.finalization;
      s.now < s.attempts[a].createdAt + Seconds(limit)
  {
  }

  // ---- Request keys ---------------------------------------------------------------------------

  ghost predicate Names(s: State, key: string, value: Submission) {
    key in s.submissions && s.submissions[key] == value && value.target in s.runs
  }

  lemma KeyAfter(s: State, s': State, key: string, value: Submission)
    requires OutputsEvolve(s, s') && RunsEvolve(s.runs, s'.runs, s.attempts) && Names(s, key, value)
    ensures Names(s', key, value)
  {
  }

  lemma KeyStep(s: State, op: Op, key: string, value: Submission)
    requires Inv(s) && Names(s, key, value)
    ensures Names(Step(s, op), key, value)
  {
    StepKeeps(s, op);
    KeyAfter(s, Step(s, op), key, value);
  }

  /** A request key names one run for ever, and that run exists. */
  lemma {:induction false} KeyNamesOneRun(s: State, ops: seq<Op>, key: string)
    requires Inv(s) && key in s.submissions
    ensures Names(Exec(s, ops), key, s.submissions[key])
  {
    if ops != [] {
      KeyNamesOneRun(s, ops[..|ops| - 1], key);
      RunsKeep(s, ops[..|ops| - 1]);
      KeyStep(Exec(s, ops[..|ops| - 1]), ops[|ops| - 1], key, s.submissions[key]);
    }
  }

  /** How a key that was first used with this fingerprint, for this run, is answered. */
  ghost predicate Answers(s: State, key: string, fingerprint: Fingerprint, run: Id, id: Id) {
    && (forall spec | ValidSubmission(spec) :: Submit(s, spec, key, fingerprint, id) == Tx(s, RunIs(run)))
    && (forall spec, other | other != fingerprint && ValidSubmission(spec) ::
          Submit(s, spec, key, other, id) == Tx(s, Refused(Conflict)))
    && (forall source ::
          Rerun(s, source, key, id)
          == if OfRerun(source) == fingerprint then Tx(s, RunIs(run)) else Tx(s, Refused(Conflict)))
  }

  lemma NamedAnswers(s: State, key: string, fingerprint: Fingerprint, run: Id, id: Id)
    requires Names(s, key, Submission(fingerprint, run))
    ensures Answers(s, key, fingerprint, run, id)
  {
  }

  lemma SubmitNames(s: State, spec: RunSpec, key: string, fingerprint: Fingerprint, id: Id)
    requires ValidSubmission(spec) && key !in s.submissions && id !in s.runs
    ensures Submit(s, spec, key, fingerprint, id).reply == RunIs(id)
    ensures Names(Submit(s, spec, key, fingerprint, id).state, key, Submission(fingerprint, id))
  {
  }

  lemma RerunNames(s: State, source: Id, key: string, id: Id)
    requires key !in s.submissions && Rerun(s, source, key, id).reply.RunIs?
    ensures Rerun(s, source, key, id).reply == RunIs(id)
    ensures Names(Rerun(s, source, key, id).state, key, Submission(OfRerun(source), id))
  {
  }

  lemma NamedAnswersLater(s: State, ops: seq<Op>, key: string, value: Submission, id: Id)
    requires Inv(s) && Names(s, key, value)
    ensures Answers(Exec(s, ops), key, value.fingerprint, value.target, id)
  {
    KeyNamesOneRun(s, ops, key);
    NamedAnswers(Exec(s, ops), key, value.fingerprint, value.target, id);
  }

  /** Using a submission's key again, at any later moment, returns the same run or conflicts; nothing changes. */
  lemma ReuseOfAKey(s: State, ops: seq<Op>, spec: RunSpec, key: string, fingerprint: Fingerprint, id: Id, id': Id)
    requires Inv(s) && ValidSubmission(spec) && key !in s.submissions && id !in s.runs
    ensures Submit(s, spec, key, fingerprint, id).reply == RunIs(id)
    ensures Answers(Exec(Submit(s, spec, key, fingerprint, id).state, ops), key, fingerprint, id, id')
  {
    SubmitNames(s, spec, key, fingerprint, id);
    SubmitStep(s, spec, key, fingerprint, id);
    NamedAnswersLater(Submit(s, spec, key, fingerprint, id).state, ops, key, Submission(fingerprint, id), id');
  }

  /** So it is for the key of a rerun: repeated with its own source it returns the run it made. */
  lemma ReuseOfARerunKey(s: State, ops: seq<Op>, source: Id, key: string, id: Id, id': Id)
    requires Inv(s) && key !in s.submissions && Rerun(s, source, key, id).reply.RunIs?
    ensures Rerun(s, source, key, id).reply == RunIs(id)
    ensures Answers(Exec(Rerun(s, source, key, id).state, ops), key, OfRerun(source), id, id')
  {
    RerunNames(s, source, key, id);
    RerunStep(s, source, key, id);
    NamedAnswersLater(Rerun(s, source, key, id).state, ops, key, Submission(OfRerun(source), id), id');
  }

  /** With the fingerprint the API computes: the same specification gets its run back, any other conflicts. */
  lemma KeyMeansOneSpecification(s: State, ops: seq<Op>, spec: RunSpec, other: RunSpec, key: string, id: Id, id': Id)
    requires Inv(s) && ValidSubmission(spec) && ValidSubmission(other) && key !in s.submissions && id !in s.runs
    ensures
      var later := Exec(Submit(s, spec, key, FingerprintOf(spec), id).state, ops);
      Submit(later, other, key, FingerprintOf(other), id')
      == Tx(later, if other == spec then RunIs(id) else Refused(Conflict))
  {
    ReuseOfAKey(s, ops, spec, key, FingerprintOf(spec), id, id');
    if FingerprintOf(other) == FingerprintOf(spec) {
      FingerprintIsInjective(spec, other);
    }
  }

  // ---- Sweep keys -----------------------------------------------------------------------------

  ghost predicate NamesSweep(s: State, key: string, value: Submission) {
    key in s.sweeps && s.sweeps[key] == value
  }

  lemma SweepKeyStep(s: State, op: Op, key: string, value: Submission)
    requires Inv(s) && NamesSweep(s, key, value)
    ensures NamesSweep(Step(s, op), key, value)
  {
    StepKeeps(s, op);
    assert Keeps(s.sweeps, Step(s, op).sweeps);
  }

  lemma {:induction false} SweepKeyForever(s: State, ops: seq<Op>, key: string, value: Submission)
    requires Inv(s) && NamesSweep(s, key, value)
    ensures NamesSweep(Exec(s, ops), key, value)
  {
    if ops != [] {
      SweepKeyForever(s, ops[..|ops| - 1], key, value);
      RunsKeep(s, ops[..|ops| - 1]);
      SweepKeyStep(Exec(s, ops[..|ops| - 1]), ops[|ops| - 1], key, value);
    }
  }

  /** How a key that was first used with this fingerprint, for this sweep, is answered. */
  ghost predicate AnswersSweep(s: State, key: string, fingerprint: Fingerprint, sweep: Id, id: Id) {
    forall entries, other ::
      SubmitSweep(s, entries, key, other, id)
      == Tx(s, if other == fingerprint then RunIs(sweep) else Refused(Conflict))
  }

  lemma SweepIsNamed(s: State, entries: seq<Entry>, key: string, fingerprint: Fingerprint, id: Id)
    requires key !in s.sweeps && SubmitSweep(s, entries, key, fingerprint, id).reply.RunIs?
    ensures SubmitSweep(s, entries, key, fingerprint, id).reply == RunIs(id)
    ensures NamesSweep(SubmitSweep(s, entries, key, fingerprint, id).state, key, Submission(fingerprint, id))
  {
  }

  /** A sweep's key, used again at any later moment, returns the same sweep or conflicts; nothing changes. */
  lemma ReuseOfASweepKey(
    s: State, ops: seq<Op>, entries: seq<Entry>, key: string, fingerprint: Fingerprint, id: Id, id': Id)
    requires Inv(s) && key !in s.sweeps && SubmitSweep(s, entries, key, fingerprint, id).reply.RunIs?
    ensures SubmitSweep(s, entries, key, fingerprint, id).reply == RunIs(id)
    ensures AnswersSweep(Exec(SubmitSweep(s, entries, key, fingerprint, id).state, ops), key, fingerprint, id, id')
  {
    SweepIsNamed(s, entries, key, fingerprint, id);
    SweepStep(s, entries, key, fingerprint, id);
    SweepKeyForever(SubmitSweep(s, entries, key, fingerprint, id).state, ops, key, Submission(fingerprint, id));
  }
}
