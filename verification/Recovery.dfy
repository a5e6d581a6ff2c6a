/** Recovery makes progress: what is overdue stays overdue until it is closed, and a scan closes all it saw. */
module Recovery {
  import opened Base
  import opened Domain
  import opened Tables
  import opened Transactions
  import opened Invariants
  import opened Steps
  import opened Reachability
  import opened Lifecycle

  predicate OverdueIn(s: State, a: Id) { a in s.attempts && Overdue(s.attempts[a], s.now) }

  predicate ClosedIn(s: State, a: Id) { a in s.attempts && !Active(s.attempts[a].status) }

  ghost function OverdueSet(s: State): set<Id> { set a | a in s.attempts && Overdue(s.attempts[a], s.now) }

  /** The scan reads only attempt rows, yet it finds exactly the executing attempts that are fenced off. */
  lemma OverdueMeansFenced(s: State, a: Id)
    requires Core(s) && a in s.attempts
    ensures Overdue(s.attempts[a], s.now) <==> Active(s.attempts[a].status) && Dead(s, a)
  {
  }

  /** What the scan found has a fault by the run's status, and nothing else has. */
  lemma OverdueMeansFault(s: State, a: Id)
    requires Core(s) && a in s.attempts
    ensures Overdue(s.attempts[a], s.now) <==> Fault(s, a).Some?
  {
  }

  /** Why an overdue attempt fails: its deadline counts before its lease. */
  function Reason(a: Attempt, now: Time): string {
    if a.status.Starting? then "LAUNCH_TIMEOUT"
    else if a.status.Running? && a.executionDeadline.Some? && a.executionDeadline.value <= now then "TIMEOUT"
    else if a.status.Finalizing? && a.finalizationDeadline.Some? && a.finalizationDeadline.value <= now
      then "FINALIZATION_TIMEOUT"
    else "LEASE_EXPIRED"
  }

  /**
   * Recovering a candidate fails it, for the reason its own row gives, exactly when it is overdue
   * by then; otherwise the transaction changes nothing.
   */
  lemma RecoverFailsOverdue(s: State, a: Id)
    requires Inv(s)
    ensures !OverdueIn(s, a) ==> RecoverOne(s, a).state == s
    ensures OverdueIn(s, a) ==>
      && a in RecoverOne(s, a).state.attempts
      && RecoverOne(s, a).state.attempts[a].status.Failed?
      && RecoverOne(s, a).state.attempts[a].reason == Reason(s.attempts[a], s.now)
  {
    RecoverActs(s, a);
    if a in s.attempts {
      OverdueMeansFault(s, a);
      if Fault(s, a).Some? {
        FaultReason(s, a);
        FailCloses(s, a, Fault(s, a).value);
      }
    }
  }

  lemma FailCloses(s: State, a: Id, v: Verdict)
    requires Locks(s, a)
    ensures Fail(s, a, v.failure, v.reason, None).attempts[a] == FailedRow(s.attempts[a], v.reason, None)
  {
  }

  lemma FaultReason(s: State, a: Id)
    requires Core(s) && Fault(s, a).Some?
    ensures Fault(s, a).value.reason == Reason(s.attempts[a], s.now)
    ensures Fault(s, a).value.failure.Timeout? <==> Reason(s.attempts[a], s.now) == "TIMEOUT"
  {
  }

  /** An expired execution deadline is a TIMEOUT even when the lease has lapsed as well. */
  lemma ExpiredExecutionIsTimeout(s: State, a: Id)
    requires Core(s) && a in s.attempts && s.attempts[a].status.Running?
    requires s.attempts[a].executionDeadline.Some? && s.attempts[a].executionDeadline.value <= s.now
    ensures Fault(s, a) == Some(Verdict(Timeout, "TIMEOUT"))
  {
  }

  // ---- Overdue is stable ----------------------------------------------------------------------

  lemma OverdueStep(s: State, op: Op, a: Id)
    requires Inv(s) && OverdueIn(s, a)
    ensures OverdueIn(Step(s, op), a) || ClosedIn(Step(s, op), a)
  {
    OverdueMeansFenced(s, a);
    DeadStep(s, op, a);
    StepKeeps(s, op);
    OverdueMeansFenced(Step(s, op), a);
  }

  lemma ClosedStep(s: State, op: Op, a: Id)
    requires Inv(s) && ClosedIn(s, a)
    ensures ClosedIn(Step(s, op), a)
  {
    StepKeeps(s, op);
    assert AttemptEvolves(s.attempts[a], Step(s, op).attempts[a]);
  }

  /** Past a deadline, an attempt stays overdue until it is failed or cancelled, and then for ever closed. */
  lemma {:induction false} OverdueUntilClosed(s: State, ops: seq<Op>, a: Id)
    requires Inv(s) && (OverdueIn(s, a) || ClosedIn(s, a))
    ensures OverdueIn(Exec(s, ops), a) || ClosedIn(Exec(s, ops), a)
    ensures ClosedIn(s, a) ==> ClosedIn(Exec(s, ops), a)
  {
    if ops != [] {
      var m := Exec(s, ops[..|ops| - 1]);
      OverdueUntilClosed(s, ops[..|ops| - 1], a);
      RunsKeep(s, ops[..|ops| - 1]);
      if ClosedIn(m, a) {
        ClosedStep(m, ops[|ops| - 1], a);
      } else {
        OverdueStep(m, ops[|ops| - 1], a);
      }
    }
  }

  // ---- One pass of recover() ------------------------------------------------------------------

  const SCAN: nat := 100

  /** SELECT … ORDER BY created_at LIMIT 100: equal ages may come in any order. */
  ghost predicate Scanned(s: State, candidates: seq<Id>) {
    && (forall i | 0 <= i < |candidates| :: OverdueIn(s, candidates[i]))
    && (forall i, j | 0 <= i < j < |candidates| ::
          && candidates[i] != candidates[j]
          && s.attempts[candidates[i]].createdAt <= s.attempts[candidates[j]].createdAt)
    && |candidates| == Min(SCAN, |OverdueSet(s)|)
    && (forall i, a | 0 <= i < |candidates| && a in OverdueSet(s) && a !in candidates ::
          s.attempts[candidates[i]].createdAt <= s.attempts[a].createdAt)
  }

  lemma RecoverCloses(s: State, s': State, a: Id)
    requires Inv(s) && OverdueIn(s, a) && s' == RecoverOne(s, a).state
    ensures ClosedIn(s', a)
  {
    RecoverFailsOverdue(s, a);
  }

  lemma RecoverDispatch(s: State, a: Id)
    ensures Step(s, RecoverOp(a)) == RecoverOne(s, a).state
  {
  }

  lemma RecoverStepCloses(s: State, a: Id)
    requires Inv(s) && (OverdueIn(s, a) || ClosedIn(s, a))
    ensures ClosedIn(Step(s, RecoverOp(a)), a)
  {
    if OverdueIn(s, a) {
      RecoverDispatch(s, a);
      RecoverCloses(s, Step(s, RecoverOp(a)), a);
    } else {
      ClosedStep(s, RecoverOp(a), a);
    }
  }

  /** Wherever a candidate's transaction falls among the others, the candidate ends up closed. */
  lemma {:induction false} CandidateIsClosed(s: State, ops: seq<Op>, a: Id)
    requires Inv(s) && OverdueIn(s, a) && RecoverOp(a) in ops
    ensures ClosedIn(Exec(s, ops), a)
  {
    var before, last := ops[..|ops| - 1], ops[|ops| - 1];
    RunsKeep(s, before);
    if last == RecoverOp(a) {
      OverdueUntilClosed(s, before, a);
      RecoverStepCloses(Exec(s, before), a);
    } else {
      CandidateIsClosed(s, before, a);
      ClosedStep(Exec(s, before), last, a);
    }
  }

  lemma {:induction false} DistinctCount(xs: seq<Id>)
    requires forall i, j | 0 <= i < j < |xs| :: xs[i] != xs[j]
    ensures |set x | x in xs| == |xs|
  {
    if xs == [] {
      assert (set x | x in xs) == {};
    } else {
      var last := xs[|xs| - 1];
      var rest := xs[..|xs| - 1];
      DistinctCount(rest);
      assert last !in rest;
      assert (set x | x in xs) == (set x | x in rest) + {last};
    }
  }

  /**
   * A recovery pass interleaved with any other transactions removes at least min(100, n) of the n
   * attempts that were overdue when it scanned: a skipped candidate never clogs the limit.
   */
  lemma PassMakesProgress(s: State, candidates: seq<Id>, ops: seq<Op>)
    requires Inv(s) && Scanned(s, candidates)
    requires forall i | 0 <= i < |candidates| :: RecoverOp(candidates[i]) in ops
    ensures forall i | 0 <= i < |candidates| :: ClosedIn(Exec(s, ops), candidates[i])
    ensures |OverdueSet(s) * OverdueSet(Exec(s, ops))| <= |OverdueSet(s)| - Min(SCAN, |OverdueSet(s)|)
  {
    var s' := Exec(s, ops);
    forall i | 0 <= i < |candidates|
      ensures ClosedIn(s', candidates[i])
    {
      CandidateIsClosed(s, ops, candidates[i]);
    }
    var done := set a | a in candidates;
    DistinctCount(candidates);
    assert forall a | a in done :: ClosedIn(s', a);
    NotBoth(OverdueSet(s), OverdueSet(s'), done);
  }

  lemma NotBoth(before: set<Id>, after: set<Id>, done: set<Id>)
    requires done <= before && done !! after
    ensures |before * after| <= |before| - |done|
  {
    assert (before * after) + done <= before;
    Subset((before * after) + done, before);
  }
}
