/** When no two attempts of one run can have a living child at once. */
module Exclusion {
  import opened Base
  import opened Domain
  import opened Tables
  import opened Transactions
  import opened Invariants
  import opened Steps
  import opened Reachability
  import opened Scheduling
  import opened Causes
  import opened Lease
  import Lifecycle

  // ---- What an action of a play commits -------------------------------------------------------

  /** The transaction behind an action, if it has one. */
  ghost function OpOf(w: World, action: Action): Option<Op> {
    match action
    case Database(op) => if InTime(w, Step(w.db, op).now) then Some(op) else None
    case ServeStart(node) => Some(StartOp(w.owner.attempt, w.owner.generation, w.owner.instance, node))
    case ServeBeat =>
      if w.beat.None? || w.beat.value.answer.Some? then None
      else Some(HeartbeatOp(w.owner.attempt, w.owner.generation, w.owner.instance))
    case _ => None
  }

  ghost function Committed(s: State, op: Option<Op>): State { if op.Some? then Step(s, op.value) else s }

  lemma ClientDb(w: World, action: Action)
    requires action.Receive? || action.BeginBeat? || action.EndBeat?
    ensures ClientStep(w, action).db == w.db && ClientStep(w, action).offset == w.offset
  {
  }

  lemma SupervisorDb(w: World, action: Action)
    ensures SupervisorStep(w, action).db == w.db && SupervisorStep(w, action).offset == w.offset
  {
  }

  lemma ActCommits(w: World, action: Action)
    ensures Act(w, action).db == Committed(w.db, OpOf(w, action)) && Act(w, action).offset == w.offset
  {
    ActDispatch(w, action);
    if action.ServeStart? {
      RequestDispatch(w, action);
      StartDispatch(w.db, OpOf(w, action).value);
    } else if action.ServeBeat? {
      RequestDispatch(w, action);
      BeatDispatch(w.db, HeartbeatOp(w.owner.attempt, w.owner.generation, w.owner.instance));
    } else if action.Receive? || action.BeginBeat? || action.EndBeat? {
      ClientDb(w, action);
    } else if !action.Database? {
      SupervisorDb(w, action);
    }
  }

  /** Everything known of one committed transaction. */
  ghost predicate Commits(s: State, op: Op, s': State) {
    && Core(s) && Core(s') && DbStep(s, op, s') && Moves(s, s', CauseOf(s, op))
    && forall a | a in s'.attempts && a !in s.attempts :: s'.attempts[a].instance == ""
  }

  lemma StepCommits(s: State, op: Op)
    requires Inv(s)
    ensures Commits(s, op, Step(s, op))
  {
    StepKeeps(s, op);
    StepAccounted(s, op);
    StepCauses(s, op);
    NewAttemptsUnclaimed(s, op);
  }

  // ---- How a claimed attempt stops executing --------------------------------------------------

  /** The owner's completion, or the report that the attempt's Job is gone. */
  predicate Ends(op: Op, owner: Owner) {
    || (op.FinishOp? && op.attempt == owner.attempt && op.instance == owner.instance)
    || (op.KubernetesStoppedOp? && op.attempt == owner.attempt)
  }

  /** The deadline that the database keeps for the attempt has passed. */
  predicate Past(a: Attempt, now: Time) {
    var deadline := if a.finalizationDeadline.Some? then a.finalizationDeadline else a.executionDeadline;
    deadline.Some? && deadline.value <= now
  }

  ghost predicate Lapsed(s: State, a: Id) { Dead(s, a) && !LeaseValid(s.attempts[a], s.now) }

  /** A claimed attempt executes unless it was cancelled, missed a deadline or let its lease lapse. */
  ghost predicate ExecutesUnless(s: State, a: Id) {
    && a in s.attempts && s.attempts[a].instance != ""
    && (Executing(s, a) || s.attempts[a].status.Cancelled? || Past(s.attempts[a], s.now) || Lapsed(s, a))
  }

  lemma DeadBecause(s: State, a: Id)
    requires Core(s) && a in s.attempts && s.attempts[a].instance != "" && Executing(s, a)
    ensures Dead(s, a) <==> Past(s.attempts[a], s.now) || !LeaseValid(s.attempts[a], s.now)
    ensures Fault(s, a).Some? <==> Dead(s, a)
  {
    assert Timed(s.attempts[a], s.runs[s.attempts[a].run].spec.timeoutSeconds, s.now, s.timing);
  }

  lemma NotExecutingIsDead(s: State, a: Id)
    requires Core(s) && a in s.attempts && !Executing(s, a)
    ensures Dead(s, a)
  {
  }

  /** What is dead keeps its reason: a missed deadline, a lapsed lease or a cancellation. */
  lemma DeadStays(s: State, s': State, a: Id)
    requires Core(s) && Core(s') && Evolves(s, s') && Dead(s, a)
    ensures Dead(s', a) && s'.attempts[a].instance == s.attempts[a].instance
    ensures Past(s.attempts[a], s.now) ==> Past(s'.attempts[a], s'.now)
    ensures Lapsed(s, a) ==> Lapsed(s', a) || s'.attempts[a].status.Cancelled?
    ensures s.attempts[a].status.Cancelled? ==> s'.attempts[a].status.Cancelled?
    ensures s'.attempts[a].leaseUntil == s.attempts[a].leaseUntil || s'.attempts[a].status.Cancelled?
  {
    Lifecycle.DeadAfter(s, s', a);
    assert Frozen(s.attempts[a], s'.attempts[a]);
    assert AttemptEvolves(s.attempts[a], s'.attempts[a]);
  }

  /** While it is alive, only its owner, its Job's end or a cancellation closes an attempt. */
  lemma LiveStays(s: State, op: Op, s': State, owner: Owner)
    requires Commits(s, op, s') && Claimed(s, owner) && owner.instance != "" && !Ends(op, owner)
    requires Executing(s, owner.attempt) && !Dead(s, owner.attempt)
    ensures Executing(s', owner.attempt) || s'.attempts[owner.attempt].status.Cancelled?
  {
    var a := owner.attempt;
    DeadBecause(s, a);
    assert AttemptEvolves(s.attempts[a], s'.attempts[a]);
    assert AttemptMoves(s, a, s.attempts[a], s'.attempts[a], CauseOf(s, op));
    assert CauseOf(s, op) != Closes(a);
    if !s'.attempts[a].status.Cancelled? {
      ActiveIsExecuting(s', a);
    }
  }

  /** Whoever claims an attempt finds it running. */
  lemma ClaimRuns(s: State, op: Op, s': State, owner: Owner)
    requires Commits(s, op, s') && owner.instance != "" && !Claimed(s, owner) && Claimed(s', owner)
    ensures Executing(s', owner.attempt) && s'.attempts[owner.attempt].status.Running?
  {
    assert AttemptMoves(s, owner.attempt, s.attempts[owner.attempt], s'.attempts[owner.attempt], CauseOf(s, op));
    ActiveIsExecuting(s', owner.attempt);
  }

  lemma ExecutesUnlessOn(s: State, op: Op, s': State, owner: Owner)
    requires Commits(s, op, s') && Claimed(s, owner) && owner.instance != "" && !Ends(op, owner)
    requires ExecutesUnless(s, owner.attempt)
    ensures ExecutesUnless(s', owner.attempt)
  {
    var a := owner.attempt;
    if Executing(s, a) && !Dead(s, a) {
      LiveStays(s, op, s', owner);
      assert AttemptEvolves(s.attempts[a], s'.attempts[a]);
    } else {
      if Executing(s, a) {
        DeadBecause(s, a);
      } else {
        NotExecutingIsDead(s, a);
      }
      DeadStays(s, s', a);
    }
  }

  // ---- Exclusion up to the deadline -----------------------------------------------------------

  predicate NotEnded(owner: Owner, actions: seq<Action>) {
    forall i | 0 <= i < |actions| :: actions[i].Database? ==> !Ends(actions[i].op, owner)
  }

  lemma CleanOp(w: World, action: Action)
    requires action.Database? ==> !Ends(action.op, w.owner)
    ensures OpOf(w, action).Some? ==> !Ends(OpOf(w, action).value, w.owner)
  {
  }

  /** The invariant of quiet plays. */
  ghost predicate ClaimExecutes(s: State, owner: Owner) { Claimed(s, owner) ==> ExecutesUnless(s, owner.attempt) }

  lemma ClaimExecutesOn(s: State, op: Op, owner: Owner)
    requires Inv(s) && owner.instance != "" && !Ends(op, owner) && ClaimExecutes(s, owner)
    ensures ClaimExecutes(Step(s, op), owner)
  {
    StepCommits(s, op);
    if Claimed(s, owner) {
      ExecutesUnlessOn(s, op, Step(s, op), owner);
    } else if Claimed(Step(s, op), owner) {
      ClaimRuns(s, op, Step(s, op), owner);
    }
  }

  lemma PlayStays(w: World, actions: seq<Action>)
    requires Initial(w)
    ensures
      var w' := Play(w, actions);
      && Inv(w'.db) && w'.owner == w.owner && w.owner.instance != "" && w'.lag == w.lag
      && w'.timeout == w.timeout && w'.grace == w.grace && w'.sent == w.sent
  {
    PlayKeeps(w, actions);
  }

  lemma ActTiming(w: World, action: Action)
    requires Inv(w.db)
    ensures Act(w, action).db.timing == w.db.timing && Act(w, action).offset == w.offset
  {
    ActCommits(w, action);
    if OpOf(w, action).Some? {
      StepKeeps(w.db, OpOf(w, action).value);
    }
  }

  lemma {:induction false} TimingStays(w: World, actions: seq<Action>)
    requires Initial(w)
    ensures Play(w, actions).db.timing == w.db.timing && Play(w, actions).offset == w.offset
  {
    if actions != [] {
      TimingStays(w, actions[..|actions| - 1]);
      PlayStays(w, actions[..|actions| - 1]);
      ActTiming(Play(w, actions[..|actions| - 1]), actions[|actions| - 1]);
    }
  }

  lemma ClaimExecutesAct(w: World, action: Action)
    requires Inv(w.db) && w.owner.instance != "" && (action.Database? ==> !Ends(action.op, w.owner))
    requires ClaimExecutes(w.db, w.owner)
    ensures ClaimExecutes(Act(w, action).db, w.owner)
  {
    ActCommits(w, action);
    if OpOf(w, action).Some? {
      CleanOp(w, action);
      ClaimExecutesOn(w.db, OpOf(w, action).value, w.owner);
    }
  }

  lemma {:induction false} ClaimExecutesPlay(w: World, actions: seq<Action>)
    requires Initial(w) && NotEnded(w.owner, actions)
    ensures ClaimExecutes(Play(w, actions).db, w.owner)
  {
    if actions != [] {
      var before, last := actions[..|actions| - 1], actions[|actions| - 1];
      assert NotEnded(w.owner, before);
      ClaimExecutesPlay(w, before);
      PlayStays(w, before);
      ClaimExecutesAct(Play(w, before), last);
    }
  }

  // ---- Cancellation ---------------------------------------------------------------------------

  /** A cancelled attempt's run is over. */
  ghost predicate CancelledIsOver(s: State, owner: Owner) {
    Claimed(s, owner) && s.attempts[owner.attempt].status.Cancelled? ==>
      IsLastOf(s, owner.attempt)
  }

  /** The attempt's run is over, with this attempt as its last. */
  predicate IsLastOf(s: State, a: Id) {
    Locks(s, a) && Terminal(s.runs[s.attempts[a].run].status) && s.runs[s.attempts[a].run].active == Some(a)
  }

  lemma CancelledNow(s: State, op: Op, s': State, a: Id)
    requires Commits(s, op, s') && Executing(s, a) && s'.attempts[a].status.Cancelled?
    ensures IsLastOf(s', a)
  {
    var r := s.attempts[a].run;
    assert AttemptEvolves(s.attempts[a], s'.attempts[a]);
    assert RunEvolves(s.runs[r], s'.runs[r], s.attempts);
  }

  lemma CancelledLater(s: State, op: Op, s': State, owner: Owner)
    requires Commits(s, op, s') && owner.instance != "" && CancelledIsOver(s, owner)
    ensures CancelledIsOver(s', owner)
  {
    var a := owner.attempt;
    if Claimed(s', owner) && s'.attempts[a].status.Cancelled? {
      if Claimed(s, owner) {
        CancelledAfter(s, op, s', a);
      } else {
        ClaimRuns(s, op, s', owner);
      }
    }
  }

  lemma CancelledOn(s: State, op: Op, owner: Owner)
    requires Inv(s) && owner.instance != "" && CancelledIsOver(s, owner)
    ensures CancelledIsOver(Step(s, op), owner)
  {
    StepCommits(s, op);
    CancelledLater(s, op, Step(s, op), owner);
  }

  lemma CancelledAfter(s: State, op: Op, s': State, a: Id)
    requires Commits(s, op, s') && a in s.attempts && s'.attempts[a].status.Cancelled?
    requires s.attempts[a].status.Cancelled? ==> IsLastOf(s, a)
    ensures IsLastOf(s', a)
  {
    assert AttemptEvolves(s.attempts[a], s'.attempts[a]);
    if s.attempts[a].status.Cancelled? {
      assert RunEvolves(s.runs[s.attempts[a].run], s'.runs[s.attempts[a].run], s.attempts);
    } else {
      ActiveIsExecuting(s, a);
      CancelledNow(s, op, s', a);
    }
  }

  lemma {:induction false} CancelledPlay(w: World, actions: seq<Action>)
    requires Initial(w)
    ensures CancelledIsOver(Play(w, actions).db, w.owner)
  {
    if actions != [] {
      var before := actions[..|actions| - 1];
      CancelledPlay(w, before);
      PlayStays(w, before);
      CancelledAct(Play(w, before), actions[|actions| - 1]);
    }
  }

  lemma CancelledAct(w: World, action: Action)
    requires Inv(w.db) && w.owner.instance != "" && CancelledIsOver(w.db, w.owner)
    ensures CancelledIsOver(Act(w, action).db, w.owner)
  {
    ActCommits(w, action);
    if OpOf(w, action).Some? {
      CancelledOn(w.db, OpOf(w, action).value, w.owner);
    }
  }

  lemma OverIsAlone(s: State, a: Id)
    requires Agree(s.runs, s.attempts) && IsLastOf(s, a)
    ensures Alone(s, a)
  {
  }

  /** Another attempt of the same run executes. */
  predicate Second(s: State, a: Id, b: Id) {
    && Locks(s, a) && b in s.attempts && b != a && s.attempts[b].run == s.attempts[a].run
    && Active(s.attempts[b].status)
  }

  /** The run has launched nothing after this attempt, and no other attempt of it executes. */
  ghost predicate Alone(s: State, a: Id) {
    && Locks(s, a) && s.runs[s.attempts[a].run].active == Some(a)
    && forall b :: !Second(s, a, b)
  }

  lemma ExecutingIsAlone(s: State, a: Id)
    requires Agree(s.runs, s.attempts) && Executing(s, a)
    ensures Alone(s, a)
  {
  }

  /** Living, and not cancelled. */
  predicate Lives(w: World) {
    Alive(w) && w.owner.attempt in w.db.attempts && !w.db.attempts[w.owner.attempt].status.Cancelled?
  }

  /** The user cancelled the attempt. */
  predicate CancelledIn(w: World) {
    w.owner.attempt in w.db.attempts && w.db.attempts[w.owner.attempt].status.Cancelled?
  }

  lemma CancelledIsAlone(w: World)
    requires LeaseInv(w) && CancelledIsOver(w.db, w.owner) && Alive(w) && CancelledIn(w)
    ensures Alone(w.db, w.owner.attempt)
  {
    AliveIsClaimed(w);
    OverIsAlone(w.db, w.owner.attempt);
  }

  lemma ExclusiveNow(w: World)
    requires LeaseInv(w) && ClaimExecutes(w.db, w.owner) && Lives(w) && 3 * w.lag <= Seconds(2)
    requires !Past(w.db.attempts[w.owner.attempt], w.db.now)
    ensures Executing(w.db, w.owner.attempt) && Alone(w.db, w.owner.attempt)
  {
    AliveIsSafe(w);
    ExecutingIsAlone(w.db, w.owner.attempt);
  }

  predicate PastIn(w: World) {
    w.owner.attempt in w.db.attempts && Past(w.db.attempts[w.owner.attempt], w.db.now)
  }

  lemma AliveIsKnown(w: World, actions: seq<Action>)
    requires Initial(w) && Alive(Play(w, actions))
    ensures
      var w' := Play(w, actions);
      && LeaseInv(w') && w'.owner == w.owner && w'.lag == w.lag && w'.owner.attempt in w'.db.attempts
      && (CancelledIn(w') ==> Alone(w'.db, w'.owner.attempt))
  {
    PlayKeeps(w, actions);
    AliveIsClaimed(Play(w, actions));
    CancelledPlay(w, actions);
    if CancelledIn(Play(w, actions)) {
      CancelledIsAlone(Play(w, actions));
    }
  }

  /**
   * Unless the attempt's end was reported before its child was gone, no other attempt of the run
   * executes while a child lives within the database's deadline, and its own does if not
   * cancelled: nowhere is a second child.
   */
  lemma ExclusiveUntilDeadline(w: World, actions: seq<Action>)
    requires Initial(w) && 3 * w.lag <= Seconds(2) && NotEnded(w.owner, actions)
    ensures
      var w' := Play(w, actions);
      Alive(w') && !PastIn(w') ==>
        Alone(w'.db, w'.owner.attempt) && (Executing(w'.db, w'.owner.attempt) || CancelledIn(w'))
  {
    var w' := Play(w, actions);
    if Alive(w') && !PastIn(w') {
      AliveIsKnown(w, actions);
      ClaimExecutesPlay(w, actions);
      if !CancelledIn(w') {
        ExclusiveNow(w');
      }
    }
  }

  // ---- The retry delay ------------------------------------------------------------------------

  /** The run of an attempt that stopped executing does not start again before this moment. */
  ghost predicate Waits(s: State, a: Id, moment: Time) {
    && Dead(s, a)
    && var r := s.runs[s.attempts[a].run];
    && (|| moment <= s.now
        || (r.active == Some(a) && !Active(r.status) && (Terminal(r.status) || moment <= r.availableAt)))
  }

  lemma WaitsOn(s: State, op: Op, s': State, a: Id, moment: Time)
    requires Commits(s, op, s') && Waits(s, a, moment)
    ensures Waits(s', a, moment)
  {
    var r := s.attempts[a].run;
    DeadStays(s, s', a);
    assert AttemptEvolves(s.attempts[a], s'.attempts[a]);
    assert RunEvolves(s.runs[r], s'.runs[r], s.attempts);
    assert RunMoves(s, s.runs[r], s'.runs[r]);
  }

  /** Whatever ends an execution, the next one of the run is at least the shortest delay away. */
  lemma EndWaits(s: State, op: Op, s': State, a: Id)
    requires Commits(s, op, s') && Executing(s, a) && !Executing(s', a)
    ensures Waits(s', a, s.now + Seconds(ShortestDelay(s.timing)))
  {
    var r := s.attempts[a].run;
    assert AttemptEvolves(s.attempts[a], s'.attempts[a]);
    assert RunEvolves(s.runs[r], s'.runs[r], s.attempts);
    assert RunMoves(s, s.runs[r], s'.runs[r]);
    NotExecutingIsDead(s', a);
  }

  lemma WaitsLess(s: State, a: Id, moment: Time, earlier: Time)
    requires Waits(s, a, moment) && earlier <= moment
    ensures Waits(s, a, earlier)
  {
  }

  /** Until then the attempt is its run's last. */
  lemma WaitingIsAlone(s: State, a: Id, moment: Time)
    requires Agree(s.runs, s.attempts) && Waits(s, a, moment) && s.now < moment
    ensures Alone(s, a)
  {
  }

  // ---- A delay longer than the grace ----------------------------------------------------------

  /** Nobody reports the attempt's end, or asks to finalize it, before its child is gone. */
  predicate Untouched(owner: Owner, actions: seq<Action>) {
    && NotEnded(owner, actions)
    && forall i | 0 <= i < |actions| :: actions[i].Database? ==> !Finalization(actions[i].op, owner)
  }

  predicate Finalization(op: Op, owner: Owner) {
    op.FinalizeOp? && op.attempt == owner.attempt && op.instance == owner.instance
  }

  /** The runner was told the time limit of its run. */
  predicate Told(w: World) {
    && Locks(w.db, w.owner.attempt)
    && w.db.runs[w.db.attempts[w.owner.attempt].run].spec.timeoutSeconds == w.timeout
  }

  /** By the database's clock, the moment at which the runner stops its child. */
  function Limit(w: World): Time { w.sent + Seconds(w.timeout) - w.offset }

  predicate DueAfter(s: State, owner: Owner, limit: Time) {
    Claimed(s, owner) ==>
      var a := s.attempts[owner.attempt];
      a.executionDeadline.Some? && limit <= a.executionDeadline.value
  }

  lemma DueOn(s: State, op: Op, s': State, owner: Owner, limit: Time)
    requires Commits(s, op, s') && Locks(s, owner.attempt) && DueAfter(s, owner, limit)
    requires limit <= s.now + Seconds(s.runs[s.attempts[owner.attempt].run].spec.timeoutSeconds)
    ensures DueAfter(s', owner, limit)
  {
    var a := owner.attempt;
    assert AttemptEvolves(s.attempts[a], s'.attempts[a]);
    assert AttemptMoves(s, a, s.attempts[a], s'.attempts[a], CauseOf(s, op));
  }

  /** The attempt runs, or it was cancelled or lost its lease, or its run waits. */
  ghost predicate RunsOrWaits(s: State, a: Id, moment: Time) {
    && a in s.attempts && s.attempts[a].instance != ""
    && (|| (Executing(s, a) && s.attempts[a].status.Running?)
        || s.attempts[a].status.Cancelled? || Lapsed(s, a) || Waits(s, a, moment))
  }

  /** A running attempt that its own deadline closes makes its run wait from that deadline on. */
  lemma TimeoutWaits(s: State, op: Op, s': State, owner: Owner, limit: Time)
    requires Commits(s, op, s') && Claimed(s, owner) && owner.instance != "" && !Ends(op, owner)
    requires DueAfter(s, owner, limit)
    requires Executing(s, owner.attempt) && s.attempts[owner.attempt].status.Running?
    requires !Executing(s', owner.attempt)
    ensures
      var a := owner.attempt;
      s'.attempts[a].status.Cancelled? || Lapsed(s', a) || Waits(s', a, limit + Seconds(ShortestDelay(s.timing)))
  {
    var a := owner.attempt;
    assert Timed(s.attempts[a], s.runs[s.attempts[a].run].spec.timeoutSeconds, s.now, s.timing);
    DeadBecause(s, a);
    if Dead(s, a) {
      DeadStays(s, s', a);
      EndWaits(s, op, s', a);
      if limit <= s.now {
        WaitsLess(s', a, s.now + Seconds(ShortestDelay(s.timing)), limit + Seconds(ShortestDelay(s.timing)));
      }
    } else {
      LiveStays(s, op, s', owner);
    }
  }

  lemma RunningStays(s: State, op: Op, s': State, owner: Owner)
    requires Commits(s, op, s') && Claimed(s, owner) && owner.instance != "" && !Finalization(op, owner)
    requires Executing(s, owner.attempt) && s.attempts[owner.attempt].status.Running?
    requires Executing(s', owner.attempt)
    ensures s'.attempts[owner.attempt].status.Running?
  {
    var a := owner.attempt;
    assert AttemptEvolves(s.attempts[a], s'.attempts[a]);
    assert AttemptMoves(s, a, s.attempts[a], s'.attempts[a], CauseOf(s, op));
  }

  lemma RunsOrWaitsOn(s: State, op: Op, s': State, owner: Owner, limit: Time)
    requires Commits(s, op, s') && Claimed(s, owner) && owner.instance != ""
    requires !Ends(op, owner) && !Finalization(op, owner) && DueAfter(s, owner, limit)
    requires RunsOrWaits(s, owner.attempt, limit + Seconds(ShortestDelay(s.timing)))
    ensures RunsOrWaits(s', owner.attempt, limit + Seconds(ShortestDelay(s.timing)))
  {
    var a, moment := owner.attempt, limit + Seconds(ShortestDelay(s.timing));
    assert AttemptEvolves(s.attempts[a], s'.attempts[a]);
    if Executing(s, a) && s.attempts[a].status.Running? {
      if Executing(s', a) {
        RunningStays(s, op, s', owner);
      } else {
        TimeoutWaits(s, op, s', owner, limit);
      }
    } else if Waits(s, a, moment) {
      WaitsOn(s, op, s', a, moment);
    } else if Lapsed(s, a) {
      DeadStays(s, s', a);
    }
  }

  lemma CleanOps(w: World, action: Action)
    requires action.Database? ==> !Ends(action.op, w.owner) && !Finalization(action.op, w.owner)
    ensures OpOf(w, action).Some? ==>
      !Ends(OpOf(w, action).value, w.owner) && !Finalization(OpOf(w, action).value, w.owner)
  {
  }

  lemma ToldOn(s: State, s': State, a: Id)
    requires Evolves(s, s') && Locks(s, a)
    ensures Locks(s', a) && s'.attempts[a].run == s.attempts[a].run
    ensures s'.runs[s.attempts[a].run].spec == s.runs[s.attempts[a].run].spec
  {
    assert AttemptEvolves(s.attempts[a], s'.attempts[a]);
    assert RunEvolves(s.runs[s.attempts[a].run], s'.runs[s.attempts[a].run], s.attempts);
  }

  /** What the delay theorem carries along a play. */
  ghost predicate DelayKnown(s: State, owner: Owner, timeout: int, limit: Time) {
    && Locks(s, owner.attempt) && s.runs[s.attempts[owner.attempt].run].spec.timeoutSeconds == timeout
    && DueAfter(s, owner, limit) && limit <= s.now + Seconds(timeout)
    && (Claimed(s, owner) ==> RunsOrWaits(s, owner.attempt, limit + Seconds(ShortestDelay(s.timing))))
  }

  lemma DelayLater(s: State, op: Op, owner: Owner, timeout: int, limit: Time)
    requires Inv(s) && owner.instance != "" && !Ends(op, owner) && !Finalization(op, owner)
    requires DelayKnown(s, owner, timeout, limit)
    ensures DelayKnown(Step(s, op), owner, timeout, limit)
  {
    StepCommits(s, op);
    ToldOn(s, Step(s, op), owner.attempt);
    DueOn(s, op, Step(s, op), owner, limit);
    if Claimed(s, owner) {
      RunsOrWaitsOn(s, op, Step(s, op), owner, limit);
    } else if Claimed(Step(s, op), owner) {
      ClaimRuns(s, op, Step(s, op), owner);
    }
  }

  lemma DelayAct(w: World, action: Action, limit: Time)
    requires Inv(w.db) && w.owner.instance != ""
    requires action.Database? ==> !Ends(action.op, w.owner) && !Finalization(action.op, w.owner)
    requires DelayKnown(w.db, w.owner, w.timeout, limit)
    ensures DelayKnown(Act(w, action).db, w.owner, w.timeout, limit) && Act(w, action).offset == w.offset
  {
    ActCommits(w, action);
    if OpOf(w, action).Some? {
      CleanOps(w, action);
      DelayLater(w.db, OpOf(w, action).value, w.owner, w.timeout, limit);
    }
  }

  lemma UnclaimedAtFirst(w: World)
    requires Initial(w)
    ensures !Claimed(w.db, w.owner) && Inv(w.db) && w.owner.instance != ""
  {
  }

  lemma {:induction false} DelayPlay(w: World, actions: seq<Action>)
    requires Initial(w) && Told(w) && Untouched(w.owner, actions)
    ensures
      var w' := Play(w, actions);
      DelayKnown(w'.db, w.owner, w.timeout, Limit(w)) && w'.offset == w.offset
  {
    UnclaimedAtFirst(w);
    if actions == [] {
      assert Limit(w) == w.db.now + Seconds(w.timeout);
    } else {
      var before, last := actions[..|actions| - 1], actions[|actions| - 1];
      assert Untouched(w.owner, before);
      DelayPlay(w, before);
      PlayStays(w, before);
      DelayAct(Play(w, before), last, Limit(w));
    }
  }

  /** The child was started no later than its time limit. */
  predicate Prompt(w: World) { w.launched.Some? && w.launched.value <= w.sent + Seconds(w.timeout) }

  /** The shortest delay before a retry covers the termination grace and three rounds of lag. */
  predicate DelayCoversGrace(t: Timing, grace: int, lag: Time) {
    Seconds(ShortestDelay(t)) >= Seconds(grace) + 3 * lag
  }

  lemma DelayIsEnough(w: World)
    requires LeaseInv(w) && Lives(w) && Prompt(w) && 3 * w.lag <= Seconds(2)
    requires DelayKnown(w.db, w.owner, w.timeout, Limit(w)) && DelayCoversGrace(w.db.timing, w.grace, w.lag)
    ensures Alone(w.db, w.owner.attempt)
  {
    var a := w.owner.attempt;
    AliveIsSafe(w);
    AliveIsBounded(w);
    if Executing(w.db, a) {
      ExecutingIsAlone(w.db, a);
    } else {
      WaitingIsAlone(w.db, a, Limit(w) + Seconds(ShortestDelay(w.db.timing)));
    }
  }

  lemma DelayAtEnd(w: World, actions: seq<Action>)
    requires Initial(w) && Told(w) && Untouched(w.owner, actions)
    ensures
      var w' := Play(w, actions);
      && DelayKnown(w'.db, w'.owner, w'.timeout, Limit(w')) && w'.db.timing == w.db.timing
      && w'.grace == w.grace && w'.lag == w.lag
  {
    DelayPlay(w, actions);
    PlayStays(w, actions);
    TimingStays(w, actions);
  }

  /**
   * Past the deadline the retry delay keeps children apart, if it covers the termination grace and
   * three lags and the child was started in time.
   */
  lemma ExclusiveByDelay(w: World, actions: seq<Action>)
    requires Initial(w) && Told(w) && 3 * w.lag <= Seconds(2) && Untouched(w.owner, actions)
    requires DelayCoversGrace(w.db.timing, w.grace, w.lag)
    ensures
      var w' := Play(w, actions);
      Alive(w') && Prompt(w') ==> Alone(w'.db, w'.owner.attempt)
  {
    var w' := Play(w, actions);
    if Alive(w') && Prompt(w') {
      AliveIsKnown(w, actions);
      if !CancelledIn(w') {
        DelayAtEnd(w, actions);
        DelayIsEnough(w');
      }
    }
  }

  // ---- A delay as long as the lease -----------------------------------------------------------

  /** How long after the end of its lease a child is gone for certain; within the margin, negative. */
  function Reach(lag: Time): Time { 3 * lag - Seconds(2) - 1 }

  /** Whatever closes a claimed attempt, its run waits until the lease of its child is used up. */
  ghost predicate WaitsForLease(s: State, a: Id, lag: Time) {
    && a in s.attempts && s.attempts[a].instance != ""
    && (|| s.attempts[a].status.Cancelled?
        || (&& s.attempts[a].leaseUntil.Some?
            && s.attempts[a].leaseUntil.value <= s.now + Seconds(s.timing.lease)
            && (Executing(s, a) || Waits(s, a, s.attempts[a].leaseUntil.value + Reach(lag)))))
  }

  predicate DelayCoversLease(t: Timing, lag: Time) { Seconds(ShortestDelay(t)) >= Seconds(t.lease) + Reach(lag) }

  lemma WaitsForLeaseOn(s: State, op: Op, s': State, a: Id, lag: Time)
    requires Commits(s, op, s') && WaitsForLease(s, a, lag) && DelayCoversLease(s.timing, lag)
    ensures WaitsForLease(s', a, lag)
  {
    assert AttemptEvolves(s.attempts[a], s'.attempts[a]);
    assert LeaseKept(s, s.attempts[a], s'.attempts[a]);
    if !s'.attempts[a].status.Cancelled? {
      if Executing(s, a) && !Executing(s', a) {
        EndWaits(s, op, s', a);
        WaitsLess(s', a, s.now + Seconds(ShortestDelay(s.timing)), s'.attempts[a].leaseUntil.value + Reach(lag));
      } else if !Executing(s, a) {
        DeadStays(s, s', a);
        WaitsOn(s, op, s', a, s.attempts[a].leaseUntil.value + Reach(lag));
      }
    }
  }

  lemma ClaimWaits(s: State, op: Op, s': State, owner: Owner, lag: Time)
    requires Commits(s, op, s') && owner.instance != "" && !Claimed(s, owner) && Claimed(s', owner)
    ensures WaitsForLease(s', owner.attempt, lag)
  {
    ClaimRuns(s, op, s', owner);
    assert LeaseKept(s, s.attempts[owner.attempt], s'.attempts[owner.attempt]);
  }

  ghost predicate LeaseKnown(s: State, owner: Owner, lag: Time) {
    Claimed(s, owner) ==> WaitsForLease(s, owner.attempt, lag)
  }

  lemma LeaseLater(s: State, op: Op, owner: Owner, lag: Time)
    requires Inv(s) && owner.instance != "" && DelayCoversLease(s.timing, lag) && LeaseKnown(s, owner, lag)
    ensures LeaseKnown(Step(s, op), owner, lag)
  {
    StepCommits(s, op);
    if Claimed(s, owner) {
      WaitsForLeaseOn(s, op, Step(s, op), owner.attempt, lag);
    } else if Claimed(Step(s, op), owner) {
      ClaimWaits(s, op, Step(s, op), owner, lag);
    }
  }

  lemma LeaseAct(w: World, action: Action)
    requires Inv(w.db) && w.owner.instance != "" && DelayCoversLease(w.db.timing, w.lag)
    requires LeaseKnown(w.db, w.owner, w.lag)
    ensures LeaseKnown(Act(w, action).db, w.owner, w.lag)
  {
    ActCommits(w, action);
    if OpOf(w, action).Some? {
      LeaseLater(w.db, OpOf(w, action).value, w.owner, w.lag);
    }
  }

  lemma {:induction false} LeasePlay(w: World, actions: seq<Action>)
    requires Initial(w) && DelayCoversLease(w.db.timing, w.lag)
    ensures LeaseKnown(Play(w, actions).db, w.owner, w.lag)
  {
    UnclaimedAtFirst(w);
    if actions != [] {
      var before := actions[..|actions| - 1];
      LeasePlay(w, before);
      PlayStays(w, before);
      TimingStays(w, before);
      LeaseAct(Play(w, before), actions[|actions| - 1]);
    }
  }

  lemma LeaseReaches(w: World)
    requires RunnerOk(w) && Lives(w)
    ensures
      var a := w.db.attempts[w.owner.attempt];
      Claimed(w.db, w.owner) && a.leaseUntil.Some? && w.db.now < a.leaseUntil.value + Reach(w.lag)
  {
  }

  lemma LeaseIsEnough(w: World)
    requires LeaseInv(w) && Lives(w) && LeaseKnown(w.db, w.owner, w.lag)
    ensures Alone(w.db, w.owner.attempt)
  {
    var a := w.owner.attempt;
    LeaseReaches(w);
    if Executing(w.db, a) {
      ExecutingIsAlone(w.db, a);
    } else {
      WaitingIsAlone(w.db, a, w.db.attempts[a].leaseUntil.value + Reach(w.lag));
    }
  }

  /**
   * If even the shortest retry delay covers the lease, less the margin that lag leaves of it, no
   * two children of a run live at once, whatever is reported, requested or delayed.
   */
  lemma ExclusiveByLease(w: World, actions: seq<Action>)
    requires Initial(w) && DelayCoversLease(w.db.timing, w.lag)
    ensures
      var w' := Play(w, actions);
      Alive(w') ==> Alone(w'.db, w'.owner.attempt)
  {
    if Alive(Play(w, actions)) {
      AliveIsKnown(w, actions);
      if !CancelledIn(Play(w, actions)) {
        LeasePlay(w, actions);
        LeaseIsEnough(Play(w, actions));
      }
    }
  }
}
