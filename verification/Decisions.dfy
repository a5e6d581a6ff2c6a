/**
 * What the transactions on attempts decide and write, stated on the columns alone: none of the
 * functions that the transactions are built from is used. An attempt is judged by its own row,
 * which the program never does (it compares the run's pointer, generation and status), and what a
 * transaction does not mention it leaves as it was.
 */
module Decisions {
  import opened Base
  import opened Domain
  import opened Tables
  import opened Transactions
  import opened Invariants
  import opened Steps
  import opened Reachability

  // ---- Columns --------------------------------------------------------------------------------

  predicate Ahead(moment: Option<Time>, now: Time) { moment.Some? && now < moment.value }

  predicate Gone(moment: Option<Time>, now: Time) { moment.Some? && moment.value <= now }

  /** Whoever claimed the attempt, while it executes with its lease and its deadline ahead. */
  predicate Holds(s: State, id: Id, generation: int, instance: string) {
    && id in s.attempts
    && var a := s.attempts[id];
    && a.generation == generation && a.instance == instance
    && Ahead(a.leaseUntil, s.now)
    && (|| (a.status == Running && Ahead(a.executionDeadline, s.now))
        || (a.status == Finalizing && Ahead(a.finalizationDeadline, s.now)))
  }

  /** The ownership check reads the run's columns, and comes to the same. */
  lemma OwnerHolds(s: State, id: Id, generation: int, instance: string)
    requires Core(s)
    ensures Owned(s, id, generation, instance) <==> Holds(s, id, generation, instance)
  {
  }

  predicate Rejected(s: State, s': State, reply: Reply, code: ErrorCode) { reply == Refused(code) && s' == s }

  /** The rows of an attempt and of its run are replaced, and one event is appended. */
  predicate Wrote(s: State, s': State, id: Id, a: Attempt, r: Run, kind: EventKind) {
    s' == s.(attempts := s.attempts[id := a],
             runs := s.runs[a.run := r.(eventSequence := r.eventSequence + 1)],
             events := s.events[EventKey(a.run, r.eventSequence + 1) := kind])
  }

  // ---- Failures -------------------------------------------------------------------------------

  /** Seconds from the failure of a generation to the next one. */
  function Pause(generation: int, t: Timing): int
    requires generation >= 1
  {
    Min(Max(1, t.retryMax), Max(1, t.retryBase) * Pow2(Min(generation, 31) - 1))
  }

  /** The pauses of successive generations double up to the cap. */
  lemma PauseDoubles(generation: int, t: Timing)
    requires generation >= 1
    ensures Pause(1, t) == Min(Max(1, t.retryMax), Max(1, t.retryBase))
    ensures Pause(generation + 1, t)
            == if generation < 31 then Min(Max(1, t.retryMax), 2 * Pause(generation, t)) else Pause(generation, t)
  {
    if generation < 31 {
      DoubledProduct(Max(1, t.retryBase), generation - 1);
    }
  }

  lemma DoubledProduct(base: int, n: nat)
    ensures base * Pow2(n + 1) == 2 * (base * Pow2(n))
  {
  }

  /**
   * The attempt is closed as failed. If its cause is worth it and the policy leaves an attempt, its
   * run waits for the next one, and otherwise it is over.
   */
  predicate GivesUp(s: State, s': State, id: Id, reason: string, exitCode: Option<int>, worth: bool) {
    && id in s.attempts
    && var a := s.attempts[id];
    && a.generation >= 1 && a.run in s.runs
    && var r := s.runs[a.run];
    && var again := worth && a.generation < r.spec.retry.maxAttempts;
    && Wrote(s, s', id, a.(status := Failed, reason := reason, exitCode := exitCode),
             r.(status := if again then RetryWait else Failed,
                availableAt := s.now + Seconds(Pause(a.generation, s.timing))),
             if again then RetryScheduled else GaveUp)
  }

  lemma PauseIs(generation: int, t: Timing)
    requires generation >= 1
    ensures RetryDelay(generation, t.retryBase, t.retryMax) == Pause(generation, t)
  {
  }

  lemma FailGivesUp(s: State, id: Id, failure: Failure, reason: string, exitCode: Option<int>, worth: bool)
    requires Locks(s, id) && s.attempts[id].generation >= 1
    requires worth == match failure
                      case Infrastructure => true
                      case ExitError => s.runs[s.attempts[id].run].spec.retry.retryExit
                      case Timeout => s.runs[s.attempts[id].run].spec.retry.retryTimeout
                      case UserCancelled => false
    ensures GivesUp(s, Fail(s, id, failure, reason, exitCode), id, reason, exitCode, worth)
  {
    PauseIs(s.attempts[id].generation, s.timing);
  }

  /** What an exit that is not a success is worth, by the reason the runner gave. */
  predicate ExitWorth(policy: RetryPolicy, reason: string) {
    || reason == "STOP_REQUESTED"
    || reason == "LEASE_LOST"
    || (reason == "TIMEOUT" && policy.retryTimeout)
    || (reason != "TIMEOUT" && policy.retryExit)
  }

  // ---- Owners ---------------------------------------------------------------------------------

  predicate Misnamed(instance: string, node: string) {
    || instance == "" || |instance| > 200 || |node| > 253
    || (exists i :: 0 <= i < |node|
          && !('a' <= node[i] <= 'z') && !('0' <= node[i] <= '9') && node[i] != '.' && node[i] != '-')
  }

  /** A starting attempt can be claimed until its launch deadline. */
  predicate Unclaimed(s: State, id: Id) {
    id in s.attempts && s.attempts[id].status == Starting && s.now < s.attempts[id].launchDeadline
  }

  ghost predicate StartDecision(
    s: State, s': State, reply: Reply, id: Id, generation: int, instance: string, node: string)
    requires Core(s)
  {
    if Misnamed(instance, node) then Rejected(s, s', reply, Invalid)
    else if id !in s.attempts then Rejected(s, s', reply, NotFound)
    else
      var a := s.attempts[id];
      var r := s.runs[a.run];
      if !(a.status in {Starting, Running, Finalizing}) || a.generation != generation
      then Rejected(s, s', reply, Stale)
      else if node != "" && a.worker != KUBERNETES then Rejected(s, s', reply, Invalid)
      else if Unclaimed(s, id) then
        reply == Done
        && Wrote(s, s', id,
                 a.(status := Running, instance := instance, node := node,
                    leaseUntil := Some(s.now + Seconds(s.timing.lease)),
                    executionDeadline := Some(s.now + Seconds(r.spec.timeoutSeconds))),
                 r.(status := Running), Started)
      else if Holds(s, id, generation, instance) && a.node == node then reply == Done && s' == s
      else Rejected(s, s', reply, Stale)
  }

  lemma NamesAgree(node: string)
    ensures (exists i | 0 <= i < |node| :: !NodeChar(node[i])) <==>
      exists i :: 0 <= i < |node|
        && !('a' <= node[i] <= 'z') && !('0' <= node[i] <= '9') && node[i] != '.' && node[i] != '-'
  {
  }

  /** An attempt's own row says whether its run points at it and executes. */
  lemma CurrentRow(s: State, id: Id)
    requires Core(s) && id in s.attempts
    ensures
      var a := s.attempts[id];
      && a.run in s.runs && a.generation >= 1
      && var r := s.runs[a.run];
      && (Active(a.status) <==> r.active == Some(id) && Active(r.status))
      && (Active(a.status) ==> r.generation == a.generation && r.status == a.status)
  {
  }

  lemma ClaimedOrNot(s: State, id: Id)
    requires Core(s) && id in s.attempts && Active(s.attempts[id].status)
    ensures s.attempts[id].status == Starting <==> s.attempts[id].instance == ""
  {
  }

  lemma NamesRefused(instance: string, node: string)
    ensures Misnamed(instance, node) <==>
      || |node| > 253 || (exists i | 0 <= i < |node| :: !NodeChar(node[i]))
      || instance == "" || |instance| > 200
  {
    NamesAgree(node);
  }

  lemma StartUnheldIs(s: State, id: Id, generation: int, instance: string, node: string)
    requires Core(s) && id in s.attempts && s.attempts[id].status == Starting && !Misnamed(instance, node)
    ensures
      var a := s.attempts[id];
      && a.run in s.runs
      && var r := s.runs[a.run];
      Start(s, id, generation, instance, node) ==
      if a.generation != generation then Tx(s, Refused(Stale))
      else if node != "" && a.worker != KUBERNETES then Tx(s, Refused(Invalid))
      else if !(s.now < a.launchDeadline) then Tx(s, Refused(Stale))
      else Tx(Move(s, id, StartedRow(s, a, r, instance, node), r.(status := Running), Started), Done)
  {
    NamesRefused(instance, node);
    CurrentRow(s, id);
    ClaimedOrNot(s, id);
  }

  lemma StartUnheld(s: State, id: Id, generation: int, instance: string, node: string)
    requires Core(s) && id in s.attempts && s.attempts[id].status == Starting && !Misnamed(instance, node)
    ensures
      var tx := Start(s, id, generation, instance, node);
      StartDecision(s, tx.state, tx.reply, id, generation, instance, node)
  {
    StartUnheldIs(s, id, generation, instance, node);
  }

  lemma HeldByItsRow(s: State, id: Id, instance: string)
    requires Core(s) && id in s.attempts && s.attempts[id].status in {Running, Finalizing}
    ensures
      var a := s.attempts[id];
      Holds(s, id, a.generation, instance) <==>
        a.instance == instance && LeaseValid(a, s.now) && DeadlineValid(a, s.now)
  {
  }

  lemma StartHeld(s: State, id: Id, generation: int, instance: string, node: string)
    requires Core(s) && id in s.attempts && s.attempts[id].status in {Running, Finalizing}
    requires !Misnamed(instance, node)
    ensures
      var tx := Start(s, id, generation, instance, node);
      StartDecision(s, tx.state, tx.reply, id, generation, instance, node)
  {
    NamesRefused(instance, node);
    CurrentRow(s, id);
    ClaimedOrNot(s, id);
    HeldByItsRow(s, id, instance);
  }

  lemma StartOver(s: State, id: Id, generation: int, instance: string, node: string)
    requires Core(s) && id in s.attempts && !Active(s.attempts[id].status) && !Misnamed(instance, node)
    ensures Start(s, id, generation, instance, node) == Tx(s, Refused(Stale))
  {
    NamesRefused(instance, node);
    CurrentRow(s, id);
  }

  /** A first claim starts the attempt, a repeated one is confirmed, and any other is refused. */
  lemma StartDecides(s: State, id: Id, generation: int, instance: string, node: string)
    requires Core(s)
    ensures
      var tx := Start(s, id, generation, instance, node);
      StartDecision(s, tx.state, tx.reply, id, generation, instance, node)
  {
    NamesRefused(instance, node);
    if id in s.attempts && !Misnamed(instance, node) {
      match s.attempts[id].status
      case Starting => StartUnheld(s, id, generation, instance, node);
      case Running => StartHeld(s, id, generation, instance, node);
      case Finalizing => StartHeld(s, id, generation, instance, node);
      case _ => StartOver(s, id, generation, instance, node);
    }
  }

  ghost predicate HeartbeatDecision(s: State, s': State, reply: Reply, id: Id, generation: int, instance: string) {
    if id !in s.attempts then Rejected(s, s', reply, NotFound)
    else if !Holds(s, id, generation, instance) then Rejected(s, s', reply, Stale)
    else
      && reply == Done
      && s' == s.(attempts := s.attempts[id := s.attempts[id].(leaseUntil := Some(s.now + Seconds(s.timing.lease)))])
  }

  lemma HeartbeatDecides(s: State, id: Id, generation: int, instance: string)
    requires Core(s)
    ensures
      var tx := Heartbeat(s, id, generation, instance);
      HeartbeatDecision(s, tx.state, tx.reply, id, generation, instance)
  {
    OwnerHolds(s, id, generation, instance);
  }

  /** The finalization deadline is set once, by the first call. */
  ghost predicate FinalizeDecision(s: State, s': State, reply: Reply, id: Id, generation: int, instance: string)
    requires Core(s)
  {
    if id !in s.attempts then Rejected(s, s', reply, NotFound)
    else if !Holds(s, id, generation, instance) then Rejected(s, s', reply, Stale)
    else
      var a := s.attempts[id];
      && reply == Done
      && if a.status == Finalizing then s' == s
         else Wrote(s, s', id,
                    a.(status := Finalizing,
                       finalizationDeadline := Some(s.now + Seconds(s.timing.finalization))),
                    s.runs[a.run].(status := Finalizing), FinalizationBegun)
  }

  lemma FinalizeDecides(s: State, id: Id, generation: int, instance: string)
    requires Core(s)
    ensures
      var tx := BeginFinalization(s, id, generation, instance);
      FinalizeDecision(s, tx.state, tx.reply, id, generation, instance)
  {
    OwnerHolds(s, id, generation, instance);
    if id in s.attempts {
      CurrentRow(s, id);
    }
  }

  /** This outcome is on record, and nothing was launched since. */
  predicate OnRecord(s: State, id: Id, generation: int, instance: string, exitCode: int) {
    && id in s.attempts
    && var a := s.attempts[id];
    && a.status in {Succeeded, Failed} && a.exitCode == Some(exitCode)
    && a.generation == generation && a.instance == instance
    && a.run in s.runs && s.runs[a.run].active == Some(id)
  }

  ghost predicate FinishDecision(
    s: State, s': State, reply: Reply,
    id: Id, generation: int, instance: string, exitCode: int, reason: string, finalSequence: int)
    requires Core(s)
  {
    if id !in s.attempts then Rejected(s, s', reply, NotFound)
    else
      var a := s.attempts[id];
      var r := s.runs[a.run];
      if OnRecord(s, id, generation, instance, exitCode) then reply == Done && s' == s
      else if !Holds(s, id, generation, instance) then Rejected(s, s', reply, Stale)
      else if a.ack != finalSequence || (exitCode == 0 && a.status == Running)
      then Rejected(s, s', reply, Conflict)
      else
        && reply == Done
        && if exitCode == 0
           then Wrote(s, s', id, a.(status := Succeeded, exitCode := Some(0), reason := reason),
                      r.(status := Succeeded), Succeeding)
           else GivesUp(s, s', id, if reason == "" then "EXIT_ERROR" else reason, Some(exitCode),
                        ExitWorth(r.spec.retry, reason))
  }

  lemma ExitGivesUp(s: State, id: Id, reason: string, exitCode: int)
    requires Core(s) && id in s.attempts
    ensures
      var recorded := if reason == "" then "EXIT_ERROR" else reason;
      GivesUp(s, Fail(s, id, FailureOf(reason), recorded, Some(exitCode)), id, recorded, Some(exitCode),
              ExitWorth(s.runs[s.attempts[id].run].spec.retry, reason))
  {
    CurrentRow(s, id);
    FailGivesUp(s, id, FailureOf(reason), if reason == "" then "EXIT_ERROR" else reason, Some(exitCode),
                ExitWorth(s.runs[s.attempts[id].run].spec.retry, reason));
  }

  lemma RecordsAgree(s: State, id: Id, generation: int, instance: string, exitCode: int)
    requires Core(s)
    ensures Completed(s, id, generation, instance, exitCode) <==> OnRecord(s, id, generation, instance, exitCode)
    ensures Holds(s, id, generation, instance) ==> !OnRecord(s, id, generation, instance, exitCode)
  {
  }

  lemma FinishDecides(
    s: State, id: Id, generation: int, instance: string, exitCode: int, reason: string, finalSequence: int)
    requires Core(s)
    ensures
      var tx := Finish(s, id, generation, instance, exitCode, reason, finalSequence);
      FinishDecision(s, tx.state, tx.reply, id, generation, instance, exitCode, reason, finalSequence)
  {
    OwnerHolds(s, id, generation, instance);
    RecordsAgree(s, id, generation, instance, exitCode);
    if id in s.attempts {
      CurrentRow(s, id);
      ExitGivesUp(s, id, reason, exitCode);
    }
  }

  /**
   * After the accepted completion of a failed execution its run waits for another attempt exactly
   * when one is left and the reason is worth it; otherwise it has failed.
   */
  lemma FailedExitRetries(
    s: State, id: Id, generation: int, instance: string, exitCode: int, reason: string, finalSequence: int)
    requires Core(s) && Holds(s, id, generation, instance) && s.attempts[id].ack == finalSequence && exitCode != 0
    ensures
      var tx := Finish(s, id, generation, instance, exitCode, reason, finalSequence);
      var policy := s.runs[s.attempts[id].run].spec.retry;
      && tx.reply == Done && s.attempts[id].run in tx.state.runs
      && var status := tx.state.runs[s.attempts[id].run].status;
      && (status == RetryWait <==>
            && generation < policy.maxAttempts
            && (|| reason == "STOP_REQUESTED" || reason == "LEASE_LOST"
                || if reason == "TIMEOUT" then policy.retryTimeout else policy.retryExit))
      && (status == RetryWait || status == Failed)
  {
    FinishDecides(s, id, generation, instance, exitCode, reason, finalSequence);
  }

  // ---- Recovery -------------------------------------------------------------------------------

  datatype Delay = Delay(reason: string, worth: bool)

  /** What an attempt is late for, and whether its policy pays for that. A deadline counts before the lease. */
  function Lateness(a: Attempt, policy: RetryPolicy, now: Time): Option<Delay> {
    match a.status
    case Starting => if a.launchDeadline <= now then Some(Delay("LAUNCH_TIMEOUT", true)) else None
    case Running =>
      if Gone(a.executionDeadline, now) then Some(Delay("TIMEOUT", policy.retryTimeout))
      else if Gone(a.leaseUntil, now) then Some(Delay("LEASE_EXPIRED", true)) else None
    case Finalizing =>
      if Gone(a.finalizationDeadline, now) then Some(Delay("FINALIZATION_TIMEOUT", true))
      else if Gone(a.leaseUntil, now) then Some(Delay("LEASE_EXPIRED", true)) else None
    case _ => None
  }

  ghost predicate RecoverDecision(s: State, s': State, reply: Reply, id: Id)
    requires Core(s)
  {
    if id !in s.attempts then Rejected(s, s', reply, NotFound)
    else
      var late := Lateness(s.attempts[id], s.runs[s.attempts[id].run].spec.retry, s.now);
      && reply == Done
      && if late.None? then s' == s else GivesUp(s, s', id, late.value.reason, None, late.value.worth)
  }

  lemma FaultIsLate(s: State, id: Id)
    requires Core(s) && id in s.attempts
    ensures
      var policy := s.runs[s.attempts[id].run].spec.retry;
      var late := Lateness(s.attempts[id], policy, s.now);
      && (Fault(s, id).Some? <==> late.Some?)
      && (late.Some? ==>
            && late.value.reason == Fault(s, id).value.reason
            && late.value.worth == (match Fault(s, id).value.failure
                                    case Infrastructure => true
                                    case ExitError => policy.retryExit
                                    case Timeout => policy.retryTimeout
                                    case UserCancelled => false))
  {
    CurrentRow(s, id);
  }

  /** Recovery fails a late attempt with the reason of its own row, and leaves any other alone. */
  lemma RecoverDecides(s: State, id: Id)
    requires Core(s)
    ensures RecoverDecision(s, RecoverOne(s, id).state, RecoverOne(s, id).reply, id)
  {
    RecoverActs(s, id);
    if id in s.attempts {
      CurrentRow(s, id);
      FaultIsLate(s, id);
      if Fault(s, id).Some? {
        var v := Fault(s, id).value;
        var late := Lateness(s.attempts[id], s.runs[s.attempts[id].run].spec.retry, s.now);
        FailGivesUp(s, id, v.failure, v.reason, None, late.value.worth);
      }
    }
  }

  ghost predicate JobEndDecision(s: State, s': State, reply: Reply, id: Id)
    requires Core(s)
  {
    if id !in s.attempts then Rejected(s, s', reply, NotFound)
    else if s.attempts[id].worker != KUBERNETES then Rejected(s, s', reply, Invalid)
    else
      var a := s.attempts[id];
      && reply == Done
      && if a.status == Running && Gone(a.executionDeadline, s.now)
         then GivesUp(s, s', id, "TIMEOUT", None, s.runs[a.run].spec.retry.retryTimeout)
         else if a.status in {Starting, Running, Finalizing} then GivesUp(s, s', id, "RUNTIME_STOPPED", None, true)
         else s' == s
  }

  /** A Job that is gone fails its attempt, for its time limit if that has passed, and otherwise whatever the policy. */
  lemma JobEndDecides(s: State, id: Id)
    requires Core(s)
    ensures JobEndDecision(s, KubernetesStopped(s, id).state, KubernetesStopped(s, id).reply, id)
  {
    if id in s.attempts {
      CurrentRow(s, id);
      FailGivesUp(s, id, Timeout, "TIMEOUT", None, s.runs[s.attempts[id].run].spec.retry.retryTimeout);
      FailGivesUp(s, id, Infrastructure, "RUNTIME_STOPPED", None, true);
    }
  }

  lemma AgainWhen(s: State, s': State, id: Id, reason: string, exitCode: Option<int>, worth: bool)
    requires GivesUp(s, s', id, reason, exitCode, worth)
    ensures
      var a := s.attempts[id];
      && a.run in s'.runs
      && var again := worth && a.generation < s.runs[a.run].spec.retry.maxAttempts;
      s'.runs[a.run].status == if again then RetryWait else Failed
  {
  }

  /** Whoever is late for the time limit needs the policy for another attempt, nobody else does. */
  predicate Retries(s: State, s': State, id: Id)
    requires id in s.attempts && s.attempts[id].run in s.runs
  {
    var a, policy := s.attempts[id], s.runs[s.attempts[id].run].spec.retry;
    && a.run in s'.runs
    && var status := s'.runs[a.run].status;
    && (status == RetryWait <==>
          && a.generation < policy.maxAttempts
          && (a.status == Running && Gone(a.executionDeadline, s.now) ==> policy.retryTimeout))
    && (status == RetryWait || status == Failed)
  }

  lemma RecoveredRetries(s: State, id: Id)
    requires Core(s) && id in s.attempts
    requires Lateness(s.attempts[id], s.runs[s.attempts[id].run].spec.retry, s.now).Some?
    ensures Retries(s, RecoverOne(s, id).state, id)
  {
    RecoverDecides(s, id);
    var late := Lateness(s.attempts[id], s.runs[s.attempts[id].run].spec.retry, s.now).value;
    AgainWhen(s, RecoverOne(s, id).state, id, late.reason, None, late.worth);
  }

  lemma StoppedRetries(s: State, id: Id)
    requires Core(s) && id in s.attempts
    requires s.attempts[id].worker == KUBERNETES && s.attempts[id].status in {Starting, Running, Finalizing}
    ensures Retries(s, KubernetesStopped(s, id).state, id)
  {
    JobEndDecides(s, id);
    var a, s' := s.attempts[id], KubernetesStopped(s, id).state;
    if a.status == Running && Gone(a.executionDeadline, s.now) {
      AgainWhen(s, s', id, "TIMEOUT", None, s.runs[a.run].spec.retry.retryTimeout);
    } else {
      AgainWhen(s, s', id, "RUNTIME_STOPPED", None, true);
    }
  }

  /** Every run whose pause is over is queued with one event of its own; nothing else changes. */
  ghost predicate RequeueDecision(s: State, s': State) {
    && s' == s.(runs := s'.runs, events := s'.events)
    && s'.runs.Keys == s.runs.Keys
    && (forall r | r in s.runs ::
          s'.runs[r] == if s.runs[r].status == RetryWait && s.runs[r].availableAt <= s.now
                        then s.runs[r].(status := Queued, eventSequence := s.runs[r].eventSequence + 1)
                        else s.runs[r])
    && (forall k :: k in s'.events <==> k in s.events || Announced(s, k))
    && (forall k | k in s'.events :: s'.events[k] == if Announced(s, k) then Requeued else s.events[k])
  }

  predicate Announced(s: State, k: EventKey) {
    && k.run in s.runs && s.runs[k.run].status == RetryWait && s.runs[k.run].availableAt <= s.now
    && k.sequence == s.runs[k.run].eventSequence + 1
  }

  lemma RequeueDecides(s: State)
    ensures RequeueDecision(s, Requeue(s).state)
  {
    assert forall k :: k in RequeueEvents(s) <==> Announced(s, k);
  }

  // ---- Cancellation ---------------------------------------------------------------------------

  ghost predicate CancelDecision(s: State, s': State, reply: Reply, run: Id)
    requires Core(s)
  {
    if run !in s.runs then Rejected(s, s', reply, NotFound)
    else
      var r := s.runs[run];
      && reply == RunIs(run)
      && if r.status in {Succeeded, Failed, Cancelled} then s' == s
         else if r.status in {Queued, RetryWait}
         then s' == s.(runs := s.runs[run := r.(status := Cancelled, eventSequence := r.eventSequence + 1)],
                       events := s.events[EventKey(run, r.eventSequence + 1) := CancelRequested])
         else
           && r.active.Some? && r.active.value in s.attempts
           && var a := s.attempts[r.active.value];
           && a.run == run
           && Wrote(s, s', r.active.value,
                    a.(status := Cancelled, reason := "USER_CANCELLED", leaseUntil := Some(s.now)),
                    r.(status := Cancelled), CancelRequested)
  }

  /** Cancelling ends the run and the one attempt that executes, at once; a finished run stays as it is. */
  lemma CancelDecides(s: State, run: Id)
    requires Core(s)
    ensures CancelDecision(s, Cancel(s, run).state, Cancel(s, run).reply, run)
  {
    if run in s.runs {
      CancelOne(s, run);
    }
  }

  // ---- Runtimes -------------------------------------------------------------------------------

  ghost predicate RuntimeDecision(
    s: State, s': State, reply: Reply, worker: Id, session: string, id: Id, runtime: string, stopped: bool)
  {
    if worker !in s.workers || s.workers[worker].session != session then Rejected(s, s', reply, Stale)
    else if id !in s.attempts then Rejected(s, s', reply, NotFound)
    else if s.attempts[id].worker != worker then Rejected(s, s', reply, Unauthorized)
    else if !stopped then
      reply == Done && s' == s.(attempts := s.attempts[id := s.attempts[id].(runtime := Some(runtime))])
    else if s.attempts[id].status in {Starting, Running, Finalizing} then Rejected(s, s', reply, Conflict)
    else
      && reply == Done
      && s' == s.(attempts := s.attempts[id := s.attempts[id].(cleaned := true)], allocations := s'.allocations)
      && s'.allocations.Keys == s.allocations.Keys
      && (forall k | k in s.allocations :: s'.allocations[k] <==> s.allocations[k] || k.attempt == id)
  }

  /** A report of a runtime id is recorded; the end of a closed attempt frees its place and all its devices. */
  lemma RuntimeDecides(s: State, worker: Id, session: string, id: Id, runtime: string, stopped: bool)
    requires Core(s)
    ensures
      var tx := RuntimeReport(s, worker, session, id, runtime, stopped);
      RuntimeDecision(s, tx.state, tx.reply, worker, session, id, runtime, stopped)
  {
  }

  ghost predicate JobDecision(s: State, s': State, reply: Reply, id: Id, runtime: string, removed: bool) {
    if id !in s.attempts then Rejected(s, s', reply, NotFound)
    else if s.attempts[id].worker != KUBERNETES then Rejected(s, s', reply, Invalid)
    else if !removed then
      reply == Done && s' == s.(attempts := s.attempts[id := s.attempts[id].(runtime := Some(runtime))])
    else if s.attempts[id].status in {Starting, Running, Finalizing} then Rejected(s, s', reply, Conflict)
    else reply == Done && s' == s.(attempts := s.attempts[id := s.attempts[id].(cleaned := true)])
  }

  lemma JobDecides(s: State, id: Id, runtime: string, removed: bool)
    requires Core(s)
    ensures
      var tx := KubernetesRuntime(s, id, runtime, removed);
      JobDecision(s, tx.state, tx.reply, id, runtime, removed)
  {
  }

  /** What a worker has to clean up: its attempts that are over and not yet cleaned. */
  ghost predicate ToClean(s: State, worker: Id, a: Id) {
    && a in s.attempts && s.attempts[a].worker == worker && !s.attempts[a].cleaned
    && s.attempts[a].status in {Succeeded, Failed, Cancelled}
  }

  lemma CleanupDecides(s: State, worker: Id)
    requires Core(s)
    ensures forall a :: a in CleanupList(s, worker) <==> ToClean(s, worker, a)
  {
  }

  /** A container may stay exactly while its attempt executes. */
  lemma StopDecides(s: State, a: Id)
    requires Core(s)
    ensures ShouldStop(s, a) <==> !(a in s.attempts && s.attempts[a].status in {Starting, Running, Finalizing})
  {
    if a in s.attempts {
      CurrentRow(s, a);
    }
  }

  // ---- Outputs --------------------------------------------------------------------------------

  function StoredBytes(artifacts: map<ArtifactKey, Artifact>, id: Id): map<ArtifactKey, int> {
    map k | k in artifacts && k.attempt == id :: artifacts[k].size as int
  }

  /** At most 1000 artifacts and 1 GiB for each attempt. */
  ghost predicate WithinQuota(artifacts: map<ArtifactKey, Artifact>, id: Id, size: int) {
    && Total(StoredBytes(artifacts, id)) + size <= 1073741824
    && |StoredBytes(artifacts, id)| < 1000
  }

  ghost predicate PublishDecision(
    s: State, s': State, reply: Reply, id: Id, generation: int, instance: string, path: string, value: Artifact)
  {
    var key := ArtifactKey(id, path);
    if id !in s.attempts then Rejected(s, s', reply, NotFound)
    else if !Holds(s, id, generation, instance) then Rejected(s, s', reply, Stale)
    else if s.attempts[id].status == Running then Rejected(s, s', reply, Conflict)
    else if key in s.artifacts && s.artifacts[key] == value then reply == Done && s' == s
    else if key in s.artifacts then Rejected(s, s', reply, Conflict)
    else if !WithinQuota(s.artifacts, id, value.size) then Rejected(s, s', reply, Exhausted)
    else reply == Done && s' == s.(artifacts := s.artifacts[key := value])
  }

  lemma QuotasAgree(artifacts: map<ArtifactKey, Artifact>, id: Id, size: int)
    ensures WithinQuota(artifacts, id, size) <==>
      PublishedBytes(artifacts, id) + size <= ARTIFACT_BYTES && |ArtifactsOf(artifacts, id)| < ARTIFACT_COUNT
  {
    assert StoredBytes(artifacts, id) == ArtifactsOf(artifacts, id);
  }

  /**
   * A finalizing owner who publishes what is stored is confirmed, and one who publishes anything
   * else under that path is refused; a new path is stored exactly within the quota. Whoever is
   * confirmed finds exactly this value under the path.
   */
  lemma PublishDecides(s: State, id: Id, generation: int, instance: string, path: string, value: Artifact)
    requires Core(s)
    ensures
      var tx := Publish(s, id, generation, instance, path, value);
      && PublishDecision(s, tx.state, tx.reply, id, generation, instance, path, value)
      && (tx.reply == Done ==>
            ArtifactKey(id, path) in tx.state.artifacts && tx.state.artifacts[ArtifactKey(id, path)] == value)
  {
    OwnerHolds(s, id, generation, instance);
    QuotasAgree(s.artifacts, id, value.size);
    if id in s.attempts {
      CurrentRow(s, id);
    }
  }

  /** The highest sequence among what is acknowledged and these records. */
  function HighWater(ack: int, records: seq<Record>): int
    decreases |records|
  {
    if records == [] then ack else HighWater(Max(ack, records[0].sequence), records[1..])
  }

  /** A record beyond the one that is due after everything before it. */
  predicate Gap(ack: int, records: seq<Record>, i: nat) {
    i < |records| && records[i].sequence > HighWater(ack, records[..i]) + 1
  }

  /** The records in front of the first gap. */
  predicate Received(ack: int, records: seq<Record>, n: nat) {
    && n <= |records|
    && (forall i: nat | i < n :: !Gap(ack, records, i))
    && (n < |records| ==> Gap(ack, records, n))
  }

  /** The first of the records with this sequence. */
  predicate FirstWith(records: seq<Record>, sequence: int, r: Record) {
    exists i :: 0 <= i < |records| && records[i] == r && r.sequence == sequence
                && forall j | 0 <= j < i :: records[j].sequence != sequence
  }

  /** Each sequence above `ack` up to the highest gets its first record; no other row changes. */
  ghost predicate Stored(
    rows: map<RecordKey, Record>, rows': map<RecordKey, Record>, id: Id, ack: int, records: seq<Record>)
  {
    forall k: RecordKey :: if k.attempt == id && ack < k.sequence <= HighWater(ack, records)
                then k in rows' && FirstWith(records, k.sequence, rows'[k])
                else (k in rows' <==> k in rows) && (k in rows ==> rows'[k] == rows[k])
  }

  lemma {:induction false} HighWaterGrows(ack: int, records: seq<Record>)
    ensures HighWater(ack, records) >= ack
    decreases |records|
  {
    if records != [] {
      HighWaterGrows(Max(ack, records[0].sequence), records[1..]);
    }
  }

  lemma GapShifts(ack: int, records: seq<Record>, i: nat)
    requires 0 < i <= |records|
    ensures Gap(ack, records, i) <==> Gap(Max(ack, records[0].sequence), records[1..], i - 1)
  {
    if i < |records| {
      assert records[..i][1..] == records[1..][..i - 1];
    }
  }

  lemma ReceivedShifts(ack: int, records: seq<Record>, n: nat)
    requires records != [] && records[0].sequence <= ack + 1
    requires Received(Max(ack, records[0].sequence), records[1..], n)
    ensures Received(ack, records, n + 1)
  {
    forall i: nat | i <= n + 1
      ensures Gap(ack, records, i) <==> i > 0 && Gap(Max(ack, records[0].sequence), records[1..], i - 1)
    {
      if i > 0 {
        GapShifts(ack, records, i);
      } else {
        assert records[..0] == [];
      }
    }
  }

  lemma FirstShifts(records: seq<Record>, sequence: int, r: Record)
    requires records != [] && records[0].sequence != sequence && FirstWith(records[1..], sequence, r)
    ensures FirstWith(records, sequence, r)
  {
    var i :| 0 <= i < |records| - 1 && records[1..][i] == r && r.sequence == sequence
             && forall j | 0 <= j < i :: records[1..][j].sequence != sequence;
    forall j | 0 <= j < i + 1
      ensures records[j].sequence != sequence
    {
      assert j > 0 ==> records[j] == records[1..][j - 1];
    }
    assert records[i + 1] == r;
  }

  /** One more record in front: an old one adds nothing, the due one adds its row. */
  lemma StoredShifts(rows: map<RecordKey, Record>, rows': map<RecordKey, Record>, id: Id, ack: int, records: seq<Record>)
    requires records != [] && records[0].sequence <= ack + 1
    requires
      if records[0].sequence <= ack then Stored(rows, rows', id, ack, records[1..])
      else Stored(rows[RecordKey(id, ack + 1) := records[0]], rows', id, ack + 1, records[1..])
    ensures Stored(rows, rows', id, ack, records)
  {
    var next := Max(ack, records[0].sequence);
    HighWaterGrows(next, records[1..]);
    forall k: RecordKey | k.attempt == id && ack < k.sequence <= HighWater(ack, records)
      ensures k in rows' && FirstWith(records, k.sequence, rows'[k])
    {
      if k.sequence > next {
        FirstShifts(records, k.sequence, rows'[k]);
      } else {
        assert k == RecordKey(id, ack + 1);
        assert rows'[k] == records[0];
      }
    }
  }

  lemma LoopShifts(rows: map<RecordKey, Record>, id: Id, ack: int, records: seq<Record>)
    requires records != []
    ensures
      var skipped := Inserted(rows, id, ack, records[1..]);
      var taken := Inserted(rows[RecordKey(id, ack + 1) := records[0]], id, ack + 1, records[1..]);
      && (records[0].sequence <= ack ==>
            Inserted(rows, id, ack, records) == skipped && Absorbed(ack, records) == Absorbed(ack, records[1..]))
      && (records[0].sequence == ack + 1 ==>
            Inserted(rows, id, ack, records) == taken && Absorbed(ack, records) == Absorbed(ack + 1, records[1..]))
  {
  }

  lemma WaterShifts(ack: int, records: seq<Record>, n: nat)
    requires n < |records|
    ensures records[..n + 1][0] == records[0] && records[..n + 1][1..] == records[1..][..n]
    ensures HighWater(ack, records[..n + 1]) == HighWater(Max(ack, records[0].sequence), records[1..][..n])
  {
    assert records[..n + 1][1..] == records[1..][..n];
  }

  /** The loop over a batch stops in front of the first gap and stores what lies before it. */
  lemma {:induction false} BatchIsStored(rows: map<RecordKey, Record>, id: Id, ack: int, records: seq<Record>)
    returns (n: nat)
    ensures Received(ack, records, n)
    ensures Absorbed(ack, records) == HighWater(ack, records[..n])
    ensures Stored(rows, Inserted(rows, id, ack, records), id, ack, records[..n])
    decreases |records|
  {
    if records == [] || records[0].sequence > ack + 1 {
      n := 0;
      NothingStored(rows, id, ack, records);
    } else {
      LoopShifts(rows, id, ack, records);
      var m: nat;
      if records[0].sequence <= ack {
        m := BatchIsStored(rows, id, ack, records[1..]);
      } else {
        m := BatchIsStored(rows[RecordKey(id, ack + 1) := records[0]], id, ack + 1, records[1..]);
      }
      ReceivedShifts(ack, records, m);
      WaterShifts(ack, records, m);
      StoredShifts(rows, Inserted(rows, id, ack, records), id, ack, records[..m + 1]);
      n := m + 1;
    }
  }

  lemma NothingStored(rows: map<RecordKey, Record>, id: Id, ack: int, records: seq<Record>)
    requires records == [] || records[0].sequence > ack + 1
    ensures Received(ack, records, 0) && records[..0] == []
    ensures Absorbed(ack, records) == ack && Inserted(rows, id, ack, records) == rows
    ensures Stored(rows, rows, id, ack, [])
  {
  }

  /** One batch: `n` of its records lie in front of the first gap. */
  ghost predicate Absorbs(s: State, s': State, reply: Reply, id: Id, records: seq<Record>, n: nat)
    requires id in s.attempts
  {
    var a := s.attempts[id];
    && Received(a.ack, records, n)
    && reply == Acked(HighWater(a.ack, records[..n]))
    && s' == s.(attempts := s.attempts[id := a.(ack := HighWater(a.ack, records[..n]))], telemetry := s'.telemetry)
    && Stored(s.telemetry, s'.telemetry, id, a.ack, records[..n])
  }

  ghost predicate ReportDecision(
    s: State, s': State, reply: Reply, id: Id, generation: int, instance: string, records: seq<Record>)
  {
    if |records| > 256 || !(forall r | r in records :: ValidRecord(r)) then Rejected(s, s', reply, Invalid)
    else if id !in s.attempts then Rejected(s, s', reply, NotFound)
    else if !Holds(s, id, generation, instance) then Rejected(s, s', reply, Stale)
    else exists n :: Absorbs(s, s', reply, id, records, n)
  }

  /** An owner's batch is stored and acknowledged up to its first gap, and never less. */
  lemma ReportDecides(s: State, id: Id, generation: int, instance: string, records: seq<Record>)
    requires Core(s)
    ensures
      var tx := Report(s, id, generation, instance, records);
      ReportDecision(s, tx.state, tx.reply, id, generation, instance, records)
  {
    OwnerHolds(s, id, generation, instance);
    var tx := Report(s, id, generation, instance, records);
    if id in s.attempts {
      var n := BatchIsStored(s.telemetry, id, s.attempts[id].ack, records);
      assert tx.reply.Acked? ==> Absorbs(s, tx.state, tx.reply, id, records, n);
    }
  }

  /** A batch without gaps that starts no later than what is due is acknowledged to its end. */
  lemma {:induction false} GaplessBatch(ack: int, records: seq<Record>, first: int)
    requires first <= ack + 1 && forall i | 0 <= i < |records| :: records[i].sequence == first + i
    ensures Received(ack, records, |records|)
    ensures HighWater(ack, records) == Max(ack, first + |records| - 1)
    decreases |records|
  {
    if records != [] {
      GaplessBatch(Max(ack, first), records[1..], first + 1);
      ReceivedShifts(ack, records, |records| - 1);
    }
  }
}
