/**
 * The Kubernetes controller around the store: one ticking loop that works from a snapshot which
 * grows stale while it runs. Every backend call and every transaction is a step of its own, a
 * tick may fail anywhere, and the record that a Job was removed may commit late or never.
 */
module Controller {
  import opened Base
  import opened Domain
  import opened Tables
  import opened Transactions
  import opened Invariants
  import opened Reachability
  import opened Scheduling
  import opened Recovery

  /** Where a tick stands, with the rows it read. */
  datatype Phase =
    | Resting
    | Listed(known: map<Id, Attempt>)
    | Sweeping(known: map<Id, Attempt>, foreign: set<Id>)
    | Working(todo: map<Id, Attempt>)
    | Admitting(rounds: nat, admitted: Option<Id>)

  datatype Cluster = Cluster(
    db: State,
    limit: int,
    phase: Phase,
    jobs: set<Id>,       // the Jobs that exist, named after their attempts
    removing: set<Id>,   // deletions under way: the call threw "cleanup pending"
    owed: set<Id>)       // removals whose record may still commit

  datatype Action =
    | Database(op: Op)
    | Record(attempt: Id)
    | Vanish(attempt: Id)                   // the cluster loses a Job
    | Finish(attempt: Id)                   // a deletion under way completes
    | Abort
    | Snapshot
    | Inventory
    | Sweep(attempt: Id)
    | EndSweep
    | Handle(attempt: Id, stopped: bool)
    | Skip(attempt: Id)                     // the row's call throws, is caught, and the tick goes on
    | BeginAdmission
    | AdmitNext(id: Id, skipped: set<Id>)
    | LaunchAdmitted

  /** Transactions that only the controller issues. */
  predicate ControllerOp(op: Op) { op.AdmitOp? || (op.KubernetesRuntimeOp? && op.stopped) }

  ghost function Rows(db: State): map<Id, Attempt> {
    map a | a in Pending(db.attempts, KUBERNETES) :: db.attempts[a]
  }

  /** A missing runtime id reads as the empty string. */
  predicate Unlaunched(row: Attempt) { row.runtime.None? || row.runtime == Some("") }

  /** What the tick does about one row of its snapshot. */
  ghost function Handled(c: Cluster, a: Id, stopped: bool): Cluster
    requires c.phase.Working? && a in c.phase.todo
  {
    var row := c.phase.todo[a];
    var c' := c.(phase := Working(c.phase.todo - {a}));
    if !Active(row.status) then c'.(jobs := c.jobs - {a}, owed := c.owed + {a})
    else if Unlaunched(row) then c'.(jobs := c.jobs + {a})
    else if stopped then c'.(db := Step(c.db, KubernetesStoppedOp(a)))
    else c'
  }

  /** The call for a row throws; for a closed row the Job's deletion may be under way by then. */
  function Skipped(c: Cluster, a: Id): Cluster
    requires c.phase.Working? && a in c.phase.todo
  {
    var c' := c.(phase := Working(c.phase.todo - {a}));
    if Active(c.phase.todo[a].status) then c' else c'.(removing := c.removing + {a})
  }

  ghost function Admitted(c: Cluster, rounds: nat, tx: Tx): Cluster {
    var c' := c.(db := tx.state);
    if tx.reply.Granted? then c'.(phase := Admitting(rounds, Some(tx.reply.attempt))) else c'.(phase := Resting)
  }

  ghost function TickStep(c: Cluster, action: Action): Cluster {
    match (action, c.phase)
    case (Snapshot, Resting) => c.(phase := Listed(Rows(c.db)))
    case (Inventory, Listed(known)) => c.(phase := Sweeping(known, c.jobs - known.Keys))
    case (Sweep(a), Sweeping(known, foreign)) =>
      if a in foreign then c.(jobs := c.jobs - {a}, phase := Sweeping(known, foreign - {a})) else c
    case (EndSweep, Sweeping(known, foreign)) => if foreign == {} then c.(phase := Working(known)) else c
    case (Handle(a, stopped), Working(todo)) => if a in todo then Handled(c, a, stopped) else c
    case (Skip(a), Working(todo)) => if a in todo then Skipped(c, a) else c
    case (BeginAdmission, Working(todo)) => if todo == map[] then c.(phase := Admitting(4, None)) else c
    case (AdmitNext(id, skipped), Admitting(n, None)) =>
      if n == 0 then c.(phase := Resting) else Admitted(c, n - 1, Admit(c.db, c.limit, id, skipped))
    case (LaunchAdmitted, Admitting(n, Some(a))) => c.(jobs := c.jobs + {a}, phase := Admitting(n, None))
    case _ => c
  }

  ghost function Act(c: Cluster, action: Action): Cluster {
    match action
    case Database(op) => if ControllerOp(op) then c else c.(db := Step(c.db, op))
    case Record(a) => if a in c.owed then c.(db := Step(c.db, KubernetesRuntimeOp(a, "", true))) else c
    case Vanish(a) => c.(jobs := c.jobs - {a})
    case Finish(a) => if a in c.removing then c.(jobs := c.jobs - {a}) else c
    case Abort => c.(phase := Resting)
    case _ => TickStep(c, action)
  }

  ghost function Play(c: Cluster, actions: seq<Action>): Cluster {
    if actions == [] then c else Act(Play(c, actions[..|actions| - 1]), actions[|actions| - 1])
  }

  function Genesis(timing: Timing, now: Time, limit: int): Cluster {
    Cluster(Empty(timing, now), limit, Resting, {}, {}, {})
  }

  // ---- What holds at every step of every tick -------------------------------------------------

  ghost predicate PendingIn(db: State, a: Id) { a in Pending(db.attempts, KUBERNETES) }

  /** A row read as closed is closed; a row read as active still pends, whatever became of it. */
  ghost predicate RowOk(db: State, owed: set<Id>, a: Id, row: Attempt) {
    && a in db.attempts && db.attempts[a].worker == KUBERNETES
    && if Active(row.status) then PendingIn(db, a) && a !in owed else ClosedIn(db, a)
  }

  ghost predicate RowsOk(db: State, owed: set<Id>, rows: map<Id, Attempt>) {
    forall a | a in rows :: RowOk(db, owed, a, rows[a])
  }

  ghost predicate PhaseOk(db: State, owed: set<Id>, phase: Phase) {
    match phase
    case Resting => true
    case Listed(known) => RowsOk(db, owed, known) && Pending(db.attempts, KUBERNETES) <= known.Keys
    case Sweeping(known, foreign) => RowsOk(db, owed, known) && foreign !! Pending(db.attempts, KUBERNETES)
    case Working(todo) => RowsOk(db, owed, todo)
    case Admitting(_, admitted) => admitted.Some? ==> PendingIn(db, admitted.value) && admitted.value !in owed
  }

  ghost predicate JobsOk(db: State, jobs: set<Id>, owed: set<Id>) {
    && jobs <= Pending(db.attempts, KUBERNETES)
    && jobs !! owed
    && (forall a | a in owed :: ClosedIn(db, a) && db.attempts[a].worker == KUBERNETES)
  }

  ghost predicate Bounded(db: State, limit: int) { |Pending(db.attempts, KUBERNETES)| <= limit }

  ghost predicate Orderly(c: Cluster) {
    && PhaseOk(c.db, c.owed, c.phase) && JobsOk(c.db, c.jobs, c.owed) && Bounded(c.db, c.limit)
    && (forall a | a in c.removing :: ClosedIn(c.db, a))
  }

  ghost predicate ClusterInv(c: Cluster) { Inv(c.db) && Orderly(c) }

  // ---- A transaction falls between two steps --------------------------------------------------

  /** A committed transaction that admits nothing and cleans at most what is owed. */
  ghost predicate Quiet(s: State, op: Op, s': State, owed: set<Id>) {
    && Evolves(s, s') && Accounted(s, op, s')
    && (forall a | a in s'.attempts && s'.attempts[a].worker == KUBERNETES :: a in s.attempts)
    && (forall a | Cleans(s, op, a) && s.attempts[a].worker == KUBERNETES :: a in owed)
  }

  lemma PendingQuiet(s: State, op: Op, s': State, owed: set<Id>, a: Id)
    requires Quiet(s, op, s', owed)
    ensures PendingIn(s', a) ==> PendingIn(s, a)
    ensures PendingIn(s, a) && a !in owed ==> PendingIn(s', a)
    ensures ClosedIn(s, a) ==> ClosedIn(s', a)
    ensures a in s.attempts ==> a in s'.attempts && s'.attempts[a].worker == s.attempts[a].worker
  {
  }

  lemma RowsQuiet(s: State, op: Op, s': State, owed: set<Id>, rows: map<Id, Attempt>)
    requires Quiet(s, op, s', owed) && RowsOk(s, owed, rows)
    ensures RowsOk(s', owed, rows)
  {
  }

  lemma OrderlyQuiet(c: Cluster, op: Op, db': State)
    requires Orderly(c) && Quiet(c.db, op, db', c.owed)
    ensures Orderly(c.(db := db'))
  {
    forall a
      ensures PendingIn(db', a) ==> PendingIn(c.db, a)
      ensures PendingIn(c.db, a) && a !in c.owed ==> PendingIn(db', a)
      ensures ClosedIn(c.db, a) ==> ClosedIn(db', a)
      ensures a in c.db.attempts ==> a in db'.attempts && db'.attempts[a].worker == c.db.attempts[a].worker
    {
      PendingQuiet(c.db, op, db', c.owed, a);
    }
    forall a | a in Pending(db'.attempts, KUBERNETES)
      ensures a in Pending(c.db.attempts, KUBERNETES)
    {
      assert PendingIn(db', a);
    }
    Subset(Pending(db'.attempts, KUBERNETES), Pending(c.db.attempts, KUBERNETES));
    JobsQuiet(c, db');
    match c.phase
    case Listed(known) => RowsQuiet(c.db, op, db', c.owed, known);
    case Sweeping(known, _) => RowsQuiet(c.db, op, db', c.owed, known);
    case Working(todo) => RowsQuiet(c.db, op, db', c.owed, todo);
    case _ =>
  }

  lemma JobsQuiet(c: Cluster, db': State)
    requires JobsOk(c.db, c.jobs, c.owed)
    requires forall a | PendingIn(c.db, a) && a !in c.owed :: PendingIn(db', a)
    requires forall a | ClosedIn(c.db, a) :: ClosedIn(db', a)
    requires forall a | a in c.db.attempts :: a in db'.attempts && db'.attempts[a].worker == c.db.attempts[a].worker
    ensures JobsOk(db', c.jobs, c.owed)
  {
    forall a | a in c.jobs
      ensures a in Pending(db'.attempts, KUBERNETES)
    {
      assert PendingIn(c.db, a);
    }
  }

  lemma NobodyAssignsToKubernetes(s: State, op: Op)
    requires Devices(s.workers, s.devices) && op.AssignOp? && op.worker == KUBERNETES
    ensures WorkerTx(s, op).state == s
  {
  }

  lemma OpIsQuiet(s: State, op: Op, owed: set<Id>)
    requires Inv(s) && !op.AdmitOp? && (op.KubernetesRuntimeOp? && op.stopped ==> op.attempt in owed)
    ensures Quiet(s, op, Step(s, op), owed) && Inv(Step(s, op))
  {
    StepKeeps(s, op);
    StepAccounted(s, op);
    if op.AssignOp? && op.worker == KUBERNETES {
      NobodyAssignsToKubernetes(s, op);
    }
    QuietFrom(s, op, Step(s, op), owed);
  }

  lemma QuietFrom(s: State, op: Op, s': State, owed: set<Id>)
    requires Evolves(s, s') && Accounted(s, op, s') && Placed(s.attempts, s.workers) && Devices(s.workers, s.devices)
    requires !op.AdmitOp? && (op.AssignOp? && op.worker == KUBERNETES ==> s' == s)
    requires op.KubernetesRuntimeOp? && op.stopped ==> op.attempt in owed
    ensures Quiet(s, op, s', owed)
  {
  }

  lemma DatabaseKeeps(c: Cluster, op: Op)
    requires ClusterInv(c) && !op.AdmitOp? && (op.KubernetesRuntimeOp? && op.stopped ==> op.attempt in c.owed)
    ensures ClusterInv(c.(db := Step(c.db, op)))
  {
    OpIsQuiet(c.db, op, c.owed);
    OrderlyQuiet(c, op, Step(c.db, op));
  }

  // ---- Admission ------------------------------------------------------------------------------

  lemma AdmissionRow(s: State, limit: int, id: Id, skipped: set<Id>)
    requires Admit(s, limit, id, skipped).reply.Granted?
    ensures
      var s' := Admit(s, limit, id, skipped).state;
      && Admit(s, limit, id, skipped).reply.attempt == id && id !in s.attempts
      && Pending(s'.attempts, KUBERNETES) == Pending(s.attempts, KUBERNETES) + {id}
      && |Pending(s.attempts, KUBERNETES)| < limit
      && (forall a | a in s.attempts :: a in s'.attempts && s'.attempts[a] == s.attempts[a])
  {
  }

  lemma AdmissionKeeps(c: Cluster, rounds: nat, tx: Tx, id: Id)
    requires Orderly(c) && tx.reply == Granted(id) && id !in c.db.attempts
    requires Pending(tx.state.attempts, KUBERNETES) == Pending(c.db.attempts, KUBERNETES) + {id}
    requires |Pending(c.db.attempts, KUBERNETES)| < c.limit
    requires forall a | a in c.db.attempts :: a in tx.state.attempts && tx.state.attempts[a] == c.db.attempts[a]
    ensures Orderly(Admitted(c, rounds, tx))
  {
  }

  lemma AdmitDispatch(s: State, limit: int, id: Id, skipped: set<Id>)
    ensures Step(s, AdmitOp(limit, id, skipped)) == Admit(s, limit, id, skipped).state
    ensures !Admit(s, limit, id, skipped).reply.Granted? ==> Admit(s, limit, id, skipped).state == s
  {
  }

  lemma AdmitOrderly(c: Cluster, rounds: nat, id: Id, skipped: set<Id>)
    requires Orderly(c)
    ensures Orderly(Admitted(c, rounds, Admit(c.db, c.limit, id, skipped)))
  {
    var tx := Admit(c.db, c.limit, id, skipped);
    if tx.reply.Granted? {
      AdmissionRow(c.db, c.limit, id, skipped);
      AdmissionKeeps(c, rounds, tx, id);
    } else {
      AdmitDispatch(c.db, c.limit, id, skipped);
    }
  }

  lemma AdmitKeeps(c: Cluster, rounds: nat, id: Id, skipped: set<Id>)
    requires ClusterInv(c)
    ensures ClusterInv(Admitted(c, rounds, Admit(c.db, c.limit, id, skipped)))
  {
    AdmitDispatch(c.db, c.limit, id, skipped);
    StepKeeps(c.db, AdmitOp(c.limit, id, skipped));
    AdmitOrderly(c, rounds, id, skipped);
    AdmittedDb(c, rounds, Admit(c.db, c.limit, id, skipped));
  }

  lemma AdmittedDb(c: Cluster, rounds: nat, tx: Tx)
    ensures Admitted(c, rounds, tx).db == tx.state
  {
  }

  // ---- The tick's own steps -------------------------------------------------------------------

  /** Nothing that exists is unknown: the sweep of foreign Jobs never touches a pending attempt. */
  lemma InventoryKeeps(c: Cluster)
    requires Orderly(c) && c.phase.Listed?
    ensures c.jobs - c.phase.known.Keys == {}
    ensures Orderly(c.(phase := Sweeping(c.phase.known, {})))
  {
  }

  lemma HandleKeeps(c: Cluster, a: Id)
    requires Orderly(c) && c.phase.Working? && a in c.phase.todo
    ensures Orderly(c.(phase := Working(c.phase.todo - {a})))
    ensures
      var c' := c.(phase := Working(c.phase.todo - {a}));
      if !Active(c.phase.todo[a].status) then Orderly(c'.(jobs := c.jobs - {a}, owed := c.owed + {a}))
      else Orderly(c'.(jobs := c.jobs + {a}))
  {
  }

  lemma HandledKeeps(c: Cluster, a: Id, stopped: bool)
    requires ClusterInv(c) && c.phase.Working? && a in c.phase.todo
    ensures ClusterInv(Handled(c, a, stopped))
  {
    HandleKeeps(c, a);
    var c' := c.(phase := Working(c.phase.todo - {a}));
    if Active(c.phase.todo[a].status) && !Unlaunched(c.phase.todo[a]) && stopped {
      DatabaseKeeps(c', KubernetesStoppedOp(a));
    }
  }

  lemma ScanKeeps(c: Cluster, action: Action)
    requires Orderly(c) && (action.Snapshot? || action.Inventory? || action.Sweep? || action.EndSweep?)
    ensures Orderly(TickStep(c, action)) && TickStep(c, action).db == c.db
  {
  }

  lemma LaunchKeeps(c: Cluster, action: Action)
    requires Orderly(c) && (action.BeginAdmission? || action.LaunchAdmitted?)
    ensures Orderly(TickStep(c, action)) && TickStep(c, action).db == c.db
  {
  }

  lemma AdmitNextDispatch(c: Cluster, id: Id, skipped: set<Id>)
    ensures
      TickStep(c, AdmitNext(id, skipped))
      == if !c.phase.Admitting? || c.phase.admitted.Some? then c
         else if c.phase.rounds == 0 then c.(phase := Resting)
         else Admitted(c, c.phase.rounds - 1, Admit(c.db, c.limit, id, skipped))
  {
  }

  lemma AdmitNextKeeps(c: Cluster, id: Id, skipped: set<Id>)
    requires ClusterInv(c)
    ensures ClusterInv(TickStep(c, AdmitNext(id, skipped)))
  {
    AdmitNextDispatch(c, id, skipped);
    if c.phase.Admitting? && c.phase.admitted.None? {
      if c.phase.rounds > 0 {
        AdmitKeeps(c, c.phase.rounds - 1, id, skipped);
      } else {
        assert Orderly(c.(phase := Resting));
      }
    }
  }

  lemma HandleDispatch(c: Cluster, a: Id, stopped: bool)
    ensures
      TickStep(c, Handle(a, stopped))
      == if c.phase.Working? && a in c.phase.todo then Handled(c, a, stopped) else c
  {
  }

  lemma HandleStep(c: Cluster, a: Id, stopped: bool)
    requires ClusterInv(c)
    ensures ClusterInv(TickStep(c, Handle(a, stopped)))
  {
    HandleDispatch(c, a, stopped);
    if c.phase.Working? && a in c.phase.todo {
      HandledKeeps(c, a, stopped);
    }
  }

  lemma SkipStep(c: Cluster, a: Id)
    requires Orderly(c)
    ensures Orderly(TickStep(c, Skip(a))) && TickStep(c, Skip(a)).db == c.db
  {
    if c.phase.Working? && a in c.phase.todo {
      HandleKeeps(c, a);
      assert RowOk(c.db, c.owed, a, c.phase.todo[a]);
    }
  }

  lemma TickKeeps(c: Cluster, action: Action)
    requires ClusterInv(c) && !action.Database? && !action.Record? && !action.Vanish? && !action.Finish? && !action.Abort?
    ensures ClusterInv(TickStep(c, action))
  {
    if action.Snapshot? || action.Inventory? || action.Sweep? || action.EndSweep? {
      ScanKeeps(c, action);
    } else if action.BeginAdmission? || action.LaunchAdmitted? {
      LaunchKeeps(c, action);
    } else if action.AdmitNext? {
      AdmitNextKeeps(c, action.id, action.skipped);
    } else if action.Skip? {
      SkipStep(c, action.attempt);
    } else {
      HandleStep(c, action.attempt, action.stopped);
    }
  }

  lemma OutsideKeeps(c: Cluster, action: Action)
    requires Orderly(c) && (action.Vanish? || action.Finish? || action.Abort?)
    ensures Orderly(Act(c, action)) && Act(c, action).db == c.db
  {
  }

  lemma ActKeeps(c: Cluster, action: Action)
    requires ClusterInv(c)
    ensures ClusterInv(Act(c, action))
  {
    if action.Database? {
      if !ControllerOp(action.op) {
        DatabaseKeeps(c, action.op);
      }
    } else if action.Record? {
      if action.attempt in c.owed {
        DatabaseKeeps(c, KubernetesRuntimeOp(action.attempt, "", true));
      }
    } else if action.Vanish? || action.Finish? || action.Abort? {
      OutsideKeeps(c, action);
    } else {
      TickKeeps(c, action);
    }
  }

  lemma LimitIsFixed(c: Cluster, action: Action)
    ensures Act(c, action).limit == c.limit
  {
  }

  lemma GenesisOrderly(timing: Timing, now: Time, limit: int)
    requires limit >= 0
    ensures Orderly(Genesis(timing, now, limit))
  {
  }

  lemma {:induction false} PlayKeeps(timing: Timing, now: Time, limit: int, actions: seq<Action>)
    requires ValidTiming(timing) && limit >= 0
    ensures ClusterInv(Play(Genesis(timing, now, limit), actions))
    ensures Play(Genesis(timing, now, limit), actions).limit == limit
  {
    if actions == [] {
      EmptyIsInv(timing, now);
      GenesisOrderly(timing, now, limit);
    } else {
      PlayKeeps(timing, now, limit, actions[..|actions| - 1]);
      ActKeeps(Play(Genesis(timing, now, limit), actions[..|actions| - 1]), actions[|actions| - 1]);
      LimitIsFixed(Play(Genesis(timing, now, limit), actions[..|actions| - 1]), actions[|actions| - 1]);
    }
  }

  // ---- Results --------------------------------------------------------------------------------

  /** Whatever a tick removes, at once or when a deletion completes, belongs to a closed attempt. */
  lemma RemovedIsClosed(c: Cluster, action: Action, a: Id)
    requires Orderly(c) && !action.Vanish? && a in c.jobs && a !in Act(c, action).jobs
    ensures ClosedIn(c.db, a)
  {
  }

  /**
   * Over every interleaving of ticks, failures and other transactions: pending cluster attempts
   * and existing Jobs never exceed the limit, an attempt whose cleanup is DONE has no Job and the
   * next step creates none, and no tick removes the Job of an attempt that is still active.
   */
  lemma ControllerSafety(timing: Timing, now: Time, limit: int, actions: seq<Action>)
    requires ValidTiming(timing) && limit >= 0
    ensures
      var c := Play(Genesis(timing, now, limit), actions);
      && |Pending(c.db.attempts, KUBERNETES)| <= limit && |c.jobs| <= limit
      && (forall a | a in c.jobs :: a in c.db.attempts && !c.db.attempts[a].cleaned)
      && (forall action: Action, a | a in c.db.attempts && c.db.attempts[a].cleaned :: a !in Act(c, action).jobs)
      && (forall action: Action, a | !action.Vanish? && a in c.jobs && a !in Act(c, action).jobs :: ClosedIn(c.db, a))
  {
    PlayKeeps(timing, now, limit, actions);
    var c := Play(Genesis(timing, now, limit), actions);
    Subset(c.jobs, Pending(c.db.attempts, KUBERNETES));
    forall action: Action, a | a in c.db.attempts && c.db.attempts[a].cleaned
      ensures a !in Act(c, action).jobs
    {
      CleanedHasNoJob(c, action, a);
    }
    forall action: Action, a | !action.Vanish? && a in c.jobs && a !in Act(c, action).jobs
      ensures ClosedIn(c.db, a)
    {
      RemovedIsClosed(c, action, a);
    }
  }

  lemma CleanedHasNoJob(c: Cluster, action: Action, a: Id)
    requires Orderly(c) && a in c.db.attempts && c.db.attempts[a].cleaned
    ensures a !in Act(c, action).jobs
  {
  }
}
