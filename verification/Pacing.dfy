/** How long a run waits after each failure, whichever transaction found it. */
module Pacing {
  import opened Base
  import opened Domain
  import opened Tables
  import opened Transactions
  import opened Invariants
  import opened Reachability
  import opened Causes
  import opened Decisions

  /** The transaction closed this attempt as failed. */
  ghost predicate FailedIn(s: State, s': State, id: Id) {
    && id in s.attempts && Active(s.attempts[id].status)
    && id in s'.attempts && s'.attempts[id].status == Failed
  }

  /** When a run is due again, counted from the failure of its attempt. */
  ghost function Waits(s: State, s': State, id: Id): int
    requires id in s.attempts && s.attempts[id].run in s'.runs
  {
    s'.runs[s.attempts[id].run].availableAt - s.now
  }

  predicate Paused(s: State, s': State, id: Id) {
    && id in s.attempts
    && var a := s.attempts[id];
    && a.generation >= 1 && a.run in s'.runs
    && s'.runs[a.run].availableAt == s.now + Seconds(Pause(a.generation, s.timing))
  }

  lemma GivesUpPauses(s: State, s': State, id: Id, reason: string, exitCode: Option<int>, worth: bool)
    requires GivesUp(s, s', id, reason, exitCode, worth)
    ensures Paused(s, s', id)
  {
  }

  lemma FinishPauses(s: State, op: Op)
    requires Core(s) && op.FinishOp? && FailedIn(s, RunnerTx(s, op).state, op.attempt)
    ensures Paused(s, RunnerTx(s, op).state, op.attempt)
  {
    var FinishOp(id, g, i, code, reason, n) := op;
    var s' := RunnerTx(s, op).state;
    FinishDecides(s, id, g, i, code, reason, n);
    assert code != 0 by {
      assert s' != s;
    }
    GivesUpPauses(s, s', id, if reason == "" then "EXIT_ERROR" else reason, Some(code),
                  ExitWorth(s.runs[s.attempts[id].run].spec.retry, reason));
  }

  lemma RecoverPauses(s: State, id: Id)
    requires Core(s) && FailedIn(s, RecoverOne(s, id).state, id)
    ensures Paused(s, RecoverOne(s, id).state, id)
  {
    RecoverDecides(s, id);
    assert RecoverOne(s, id).state != s;
    var late := Lateness(s.attempts[id], s.runs[s.attempts[id].run].spec.retry, s.now).value;
    GivesUpPauses(s, RecoverOne(s, id).state, id, late.reason, None, late.worth);
  }

  lemma StoppedPauses(s: State, id: Id)
    requires Core(s) && FailedIn(s, KubernetesStopped(s, id).state, id)
    ensures Paused(s, KubernetesStopped(s, id).state, id)
  {
    var s' := KubernetesStopped(s, id).state;
    JobEndDecides(s, id);
    assert s' != s;
    var a := s.attempts[id];
    if a.status == Running && Gone(a.executionDeadline, s.now) {
      GivesUpPauses(s, s', id, "TIMEOUT", None, s.runs[a.run].spec.retry.retryTimeout);
    } else {
      GivesUpPauses(s, s', id, "RUNTIME_STOPPED", None, true);
    }
  }

  /** Only these three transactions close an attempt as failed. */
  lemma WhoFailed(s: State, op: Op, id: Id)
    requires Inv(s) && FailedIn(s, Step(s, op), id)
    ensures (op.FinishOp? || op.KubernetesStoppedOp? || op.RecoverOp?) && op.attempt == id
  {
    StepCauses(s, op);
    FailureCloses(s, id, s.attempts[id], Step(s, op).attempts[id], CauseOf(s, op));
  }

  lemma FailureCloses(s: State, id: Id, x: Attempt, x': Attempt, cause: Cause)
    requires AttemptMoves(s, id, x, x', cause) && Active(x.status) && x'.status == Failed
    ensures cause == Closes(id)
  {
  }

  /** Whichever transaction closes an attempt as failed, its run is due exactly the pause of its generation later. */
  lemma FailurePauses(s: State, op: Op, id: Id)
    requires Inv(s) && FailedIn(s, Step(s, op), id)
    ensures Paused(s, Step(s, op), id)
  {
    WhoFailed(s, op, id);
    if op.FinishOp? {
      RunnerDispatch(s, op);
      FinishPauses(s, op);
    } else if op.RecoverOp? {
      ControlDispatch(s, op);
      RecoverPauses(s, id);
    } else {
      KubernetesDispatch(s, op);
      StoppedPauses(s, id);
    }
  }

  lemma {:induction false} TimingIsFixed(s: State, ops: seq<Op>)
    requires Inv(s)
    ensures Exec(s, ops).timing == s.timing
  {
    if ops != [] {
      var m := Exec(s, ops[..|ops| - 1]);
      RunsKeep(s, ops[..|ops| - 1]);
      TimingIsFixed(s, ops[..|ops| - 1]);
      StepKeeps(m, ops[|ops| - 1]);
    }
  }

  /** A run waits twice as long after its next generation as after this one, up to the cap. */
  ghost predicate Doubles(s: State, s': State, a: Id, t: State, t': State, b: Id) {
    && a in s.attempts && s.attempts[a].run in s'.runs && b in t.attempts && t.attempts[b].run in t'.runs
    && Waits(t, t', b) == if s.attempts[a].generation < 31
                          then Min(Seconds(Max(1, s.timing.retryMax)), 2 * Waits(s, s', a))
                          else Waits(s, s', a)
  }

  lemma PausesDouble(s: State, s': State, a: Id, t: State, t': State, b: Id)
    requires Paused(s, s', a) && Paused(t, t', b) && t.timing == s.timing
    requires t.attempts[b].generation == s.attempts[a].generation + 1
    ensures Doubles(s, s', a, t, t', b)
  {
    PauseDoubles(s.attempts[a].generation, s.timing);
  }

  lemma TimingKept(s: State, op: Op, ops: seq<Op>)
    requires Inv(s)
    ensures Inv(Exec(Step(s, op), ops)) && Exec(Step(s, op), ops).timing == s.timing
  {
    StepKeeps(s, op);
    RunsKeep(Step(s, op), ops);
    TimingIsFixed(Step(s, op), ops);
  }

  /**
   * Whatever happens in between: the failure of a run's next generation makes it wait twice as long
   * as the failure before it did, up to the cap, and from generation 31 on just as long.
   */
  lemma DelaysDouble(s: State, op: Op, a: Id, ops: seq<Op>, op': Op, b: Id)
    requires Inv(s) && FailedIn(s, Step(s, op), a)
    requires
      var t := Exec(Step(s, op), ops);
      && FailedIn(t, Step(t, op'), b)
      && t.attempts[b].run == s.attempts[a].run && t.attempts[b].generation == s.attempts[a].generation + 1
    ensures
      var t := Exec(Step(s, op), ops);
      Doubles(s, Step(s, op), a, t, Step(t, op'), b)
  {
    var t := Exec(Step(s, op), ops);
    TimingKept(s, op, ops);
    FailurePauses(s, op, a);
    FailurePauses(t, op', b);
    PausesDouble(s, Step(s, op), a, t, Step(t, op'), b);
  }
}
