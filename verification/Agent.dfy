/**
 * The Docker agents around the store: one loop per worker that observes its containers, removes
 * what it is told to stop, polls, cleans up and launches. Every remote call is a step of its own,
 * so any other transaction may fall between two lines of the loop, and a report that was sent
 * may arrive late, more than once, or never.
 */
module Agent {
  import opened Base
  import opened Domain
  import opened Tables
  import opened Transactions
  import opened Invariants
  import opened Reachability
  import opened Scheduling
  import opened Recovery

  datatype Work = Work(attempt: Id, uuids: set<Id>)

  /** Where an agent's loop stands, with the answers it works from. */
  datatype Phase =
    | Resting
    | Surveyed(seen: set<Id>)
    | Stopping(stops: set<Id>)
    | Listed(listed: set<Id>)                                       // cleanup() answered, assign() has not
    | Working(todo: set<Id>, cleared: Option<Id>, work: Option<Work>)

  datatype AgentState = AgentState(session: string, phase: Phase)

  /** A container on a worker's engine, named after its attempt. */
  datatype Slot = Slot(worker: Id, attempt: Id)

  /** A report that an attempt's container is gone. */
  datatype StopReport = StopReport(worker: Id, session: string, attempt: Id)

  datatype World = World(
    db: State,
    agents: map<Id, AgentState>,
    containers: map<Slot, set<Id>>,
    sent: set<StopReport>)

  datatype Action =
    | Database(op: Op)
    | Deliver(report: StopReport)
    | Boot(worker: Id, session: string)         // a new agent process replaces the old one
    | Abort(worker: Id)                         // any failed call: back to the top of the loop
    | Vanish(slot: Slot)                        // the engine loses a container
    | Observe(worker: Id)
    | Reconcile(worker: Id)
    | Stop(worker: Id, attempt: Id)
    | ListCleanup(worker: Id)
    | Poll(worker: Id, id: Id, skipped: set<Id>, replayed: Id)
    | Remove(worker: Id, attempt: Id)
    | Send(worker: Id)
    | StartContainer(worker: Id)

  predicate StopOp(op: Op) { op.RuntimeOp? && op.stopped }

  function Enter(w: World, worker: Id, phase: Phase): World
    requires worker in w.agents
  {
    w.(agents := w.agents[worker := w.agents[worker].(phase := phase)])
  }

  ghost function Containers(w: World, worker: Id): set<Id> {
    set k | k in w.containers && k.worker == worker :: k.attempt
  }

  ghost function Assignment(w: World, worker: Id, action: Action): Tx
    requires action.Poll? && worker in w.agents
  {
    Assign(w.db, worker, w.agents[worker].session, action.id, action.skipped)
  }

  ghost function Received(db: State, a: Id): Option<Work> { Some(Work(a, AllocatedTo(db.allocations, a))) }

  /** The loop goes on from the answer; `replayed` is the unacknowledged attempt it names, if it names one. */
  ghost function Answered(w: World, worker: Id, tx: Tx, replayed: Id): World
    requires worker in w.agents && w.agents[worker].phase.Listed?
  {
    var w' := w.(db := tx.state);
    var todo := w.agents[worker].phase.listed;
    match tx.reply
    case Granted(a) => Enter(w', worker, Working(todo, None, Received(tx.state, a)))
    case Replayed =>
      if Replayable(w.db, worker, replayed)
      then Enter(w', worker, Working(todo, None, Received(tx.state, replayed)))
      else w
    case Idle => Enter(w', worker, Working(todo, None, None))
    case _ => Enter(w', worker, Resting)
  }

  ghost function PollStep(w: World, worker: Id, action: Action): World
    requires action.Poll? && worker in w.agents && w.agents[worker].phase.Listed?
  {
    Answered(w, worker, Assignment(w, worker, action), action.replayed)
  }

  /** Remove an attempt's container, if the engine has one. */
  function Clear(w: World, worker: Id, a: Id): World { w.(containers := w.containers - {Slot(worker, a)}) }

  function Tell(w: World, worker: Id, a: Id): World
    requires worker in w.agents
  {
    w.(sent := w.sent + {StopReport(worker, w.agents[worker].session, a)})
  }

  /** A container that exists already is left as it is. */
  function Ensure(w: World, worker: Id, work: Work): World {
    var slot := Slot(worker, work.attempt);
    if slot in w.containers then w else w.(containers := w.containers[slot := work.uuids])
  }

  ghost function ToStop(db: State, seen: set<Id>): set<Id> { set a | a in seen && ShouldStop(db, a) }

  ghost function ReconcileStep(w: World, worker: Id, seen: set<Id>): World
    requires worker in w.agents
  {
    if !Session(w.db, worker, w.agents[worker].session) || |seen| > 1000 then Enter(w, worker, Resting)
    else Enter(w, worker, Stopping(ToStop(w.db, seen)))
  }

  ghost function CleanupStep(w: World, worker: Id): World
    requires worker in w.agents
  {
    if !Session(w.db, worker, w.agents[worker].session) then Enter(w, worker, Resting)
    else Enter(w, worker, Listed(CleanupList(w.db, worker)))
  }

  /** What an agent's own step does in the phase it is in; a step that is not due does nothing. */
  ghost function AgentStep(w: World, action: Action, worker: Id): World
    requires worker in w.agents
  {
    match (action, w.agents[worker].phase)
    case (Observe(_), Resting) => Enter(w, worker, Surveyed(Containers(w, worker)))
    case (Reconcile(_), Surveyed(seen)) => ReconcileStep(w, worker, seen)
    case (Stop(_, a), Stopping(stops)) =>
      if a in stops then Enter(Clear(w, worker, a), worker, Stopping(stops - {a})) else w
    case (ListCleanup(_), Stopping(stops)) => if stops == {} then CleanupStep(w, worker) else w
    case (Poll(_, _, _, _), Listed(_)) => PollStep(w, worker, action)
    case (Remove(_, a), Working(todo, None, work)) =>
      if a in todo then Enter(Clear(w, worker, a), worker, Working(todo - {a}, Some(a), work)) else w
    case (Send(_), Working(todo, Some(a), work)) => Enter(Tell(w, worker, a), worker, Working(todo, None, work))
    case (StartContainer(_), Working(todo, None, work)) =>
      if todo != {} then w
      else if work.None? then Enter(w, worker, Resting)
      else Enter(Ensure(w, worker, work.value), worker, Resting)
    case _ => w
  }

  function StopOf(report: StopReport): Op { RuntimeOp(report.worker, report.session, report.attempt, "", true) }

  /** One step of the whole system. */
  ghost function Act(w: World, action: Action): World {
    match action
    case Database(op) => if StopOp(op) then w else w.(db := Step(w.db, op))
    case Deliver(report) => if report in w.sent then w.(db := Step(w.db, StopOf(report))) else w
    case Boot(worker, session) => w.(agents := w.agents[worker := AgentState(session, Resting)])
    case Abort(worker) => if worker in w.agents then Enter(w, worker, Resting) else w
    case Vanish(slot) => Clear(w, slot.worker, slot.attempt)
    case _ => if action.worker in w.agents then AgentStep(w, action, action.worker) else w
  }

  ghost function Play(w: World, actions: seq<Action>): World {
    if actions == [] then w else Act(Play(w, actions[..|actions| - 1]), actions[|actions| - 1])
  }

  function Genesis(timing: Timing, now: Time): World { World(Empty(timing, now), map[], map[], {}) }

  // ---- What holds in every reachable world ----------------------------------------------------

  /** The attempt is unresolved and belongs to this worker, with exactly these devices. */
  ghost predicate Hosted(db: State, worker: Id, a: Id, uuids: set<Id>) {
    && worker != KUBERNETES
    && a in db.attempts && db.attempts[a].worker == worker && !db.attempts[a].cleaned
    && AllocatedTo(db.allocations, a) == uuids
  }

  predicate AllClosed(db: State, ids: set<Id>) { forall a | a in ids :: ClosedIn(db, a) }

  ghost predicate PhaseOk(db: State, worker: Id, phase: Phase) {
    match phase
    case Resting => true
    case Surveyed(seen) => forall a | a in seen :: a in db.attempts && db.attempts[a].worker == worker
    case Stopping(stops) => AllClosed(db, stops)
    case Listed(listed) => AllClosed(db, listed)
    case Working(todo, cleared, work) =>
      && AllClosed(db, todo)
      && (cleared.Some? ==> ClosedIn(db, cleared.value))
      && (work.Some? ==>
            && Hosted(db, worker, work.value.attempt, work.value.uuids)
            && work.value.attempt !in todo && cleared != Some(work.value.attempt))
  }

  predicate InHand(phase: Phase, a: Id) { phase.Working? && phase.work.Some? && phase.work.value.attempt == a }

  ghost predicate ContainersOk(db: State, containers: map<Slot, set<Id>>) {
    forall k | k in containers :: Hosted(db, k.worker, k.attempt, containers[k])
  }

  ghost predicate PhasesOk(db: State, agents: map<Id, AgentState>) {
    forall x | x in agents :: PhaseOk(db, x, agents[x].phase)
  }

  /** What was cleared, or reported as stopped, has no container and none under way. */
  ghost predicate Gone(w: World, worker: Id, a: Id) {
    && ClosedIn(w.db, a)
    && Slot(worker, a) !in w.containers
    && (worker in w.agents ==> !InHand(w.agents[worker].phase, a))
  }

  ghost predicate SentOk(w: World) {
    && (forall m | m in w.sent :: Gone(w, m.worker, m.attempt))
    && (forall x | x in w.agents && w.agents[x].phase.Working? && w.agents[x].phase.cleared.Some? ::
          Gone(w, x, w.agents[x].phase.cleared.value))
  }

  ghost predicate Deployed(w: World) {
    ContainersOk(w.db, w.containers) && PhasesOk(w.db, w.agents) && SentOk(w)
  }

  ghost predicate WorldInv(w: World) { Inv(w.db) && Deployed(w) }

  // ---- A transaction falls between two steps --------------------------------------------------

  /** What is deployed or about to be is never cleaned by this transaction. */
  ghost predicate Spares(w: World, op: Op) {
    && (forall k | k in w.containers :: !Cleans(w.db, op, k.attempt))
    && (forall x, a | x in w.agents && InHand(w.agents[x].phase, a) :: !Cleans(w.db, op, a))
  }

  lemma WorldStays(w: World, op: Op, db': State)
    requires Deployed(w) && DbStep(w.db, op, db') && Spares(w, op)
    requires forall k | k in w.db.allocations :: k.attempt in w.db.attempts
    ensures Deployed(w.(db := db'))
  {
  }

  lemma Dispatched(s: State, op: Op)
    requires Inv(s)
    ensures DbStep(s, op, Step(s, op)) && Inv(Step(s, op))
  {
    StepKeeps(s, op);
    StepAccounted(s, op);
  }

  lemma OtherOpsSpare(w: World, op: Op)
    requires ContainersOk(w.db, w.containers) && PhasesOk(w.db, w.agents) && !StopOp(op)
    ensures Spares(w, op)
  {
  }

  lemma DatabaseStep(w: World, op: Op)
    requires WorldInv(w)
    ensures WorldInv(Act(w, Database(op)))
  {
    if !StopOp(op) {
      OtherOpsSpare(w, op);
      Dispatched(w.db, op);
      WorldStays(w, op, Step(w.db, op));
    }
  }

  /** A late or repeated stop report is harmless: by then nothing of its attempt is left. */
  lemma DeliverSpares(w: World, report: StopReport)
    requires Deployed(w) && report in w.sent
    ensures Spares(w, StopOf(report))
  {
  }

  lemma DeliverStep(w: World, report: StopReport)
    requires WorldInv(w)
    ensures WorldInv(Act(w, Deliver(report)))
  {
    DeliverDispatch(w, report);
    if report in w.sent {
      DeliverDb(w, report);
    }
  }

  lemma DeliverDispatch(w: World, report: StopReport)
    ensures
      Act(w, Deliver(report)) == if report in w.sent then w.(db := Step(w.db, StopOf(report))) else w
  {
  }

  lemma DeliverDb(w: World, report: StopReport)
    requires WorldInv(w) && report in w.sent
    ensures WorldInv(w.(db := Step(w.db, StopOf(report))))
  {
    DeliverSpares(w, report);
    Dispatched(w.db, StopOf(report));
    WorldStays(w, StopOf(report), Step(w.db, StopOf(report)));
  }

  // ---- The agent's own steps ------------------------------------------------------------------

  /** Whether a phase may be entered: what it has in hand was never reported as stopped. */
  ghost predicate CanEnter(w: World, worker: Id, phase: Phase) {
    && worker in w.agents
    && PhaseOk(w.db, worker, phase)
    && (forall m | m in w.sent && m.worker == worker :: !InHand(phase, m.attempt))
    && (phase.Working? && phase.cleared.Some? ==>
          ClosedIn(w.db, phase.cleared.value) && Slot(worker, phase.cleared.value) !in w.containers)
  }

  lemma EnterKeeps(w: World, worker: Id, phase: Phase)
    requires Deployed(w) && CanEnter(w, worker, phase)
    ensures Deployed(Enter(w, worker, phase))
  {
  }

  /** The container is put in place; whatever the loop held is then let go. */
  lemma EnsureKeeps(w: World, worker: Id, work: Work)
    requires Deployed(w) && worker in w.agents
    requires w.agents[worker].phase == Working({}, None, Some(work))
    ensures Deployed(Ensure(w, worker, work))
  {
  }

  lemma SurveyOk(w: World, worker: Id)
    requires ContainersOk(w.db, w.containers)
    ensures PhaseOk(w.db, worker, Surveyed(Containers(w, worker)))
  {
  }

  /** An observed container is stopped only when its attempt is closed. */
  lemma StopsAreClosed(db: State, worker: Id, seen: set<Id>)
    requires Links(db.runs, db.attempts) && Agree(db.runs, db.attempts) && PhaseOk(db, worker, Surveyed(seen))
    ensures AllClosed(db, ToStop(db, seen))
  {
  }

  /** An assignment, new or repeated, is for a STARTING attempt of this worker. */
  lemma GrantHosted(db: State, worker: Id, session: string, id: Id, skipped: set<Id>)
    requires Inv(db) && Assign(db, worker, session, id, skipped).reply.Granted?
    ensures OffersStart(Assign(db, worker, session, id, skipped).state, worker, id)
  {
  }

  ghost predicate OffersStart(db: State, worker: Id, a: Id) {
    && a in db.attempts && db.attempts[a].status.Starting?
    && Hosted(db, worker, a, AllocatedTo(db.allocations, a))
  }

  lemma ReplayHosted(db: State, worker: Id, a: Id)
    requires Gpus(db) && Unacknowledged(db, worker, a)
    ensures OffersStart(db, worker, a)
  {
  }

  /** A STARTING attempt was neither listed for cleanup nor reported as stopped. */
  lemma StartingIsNew(w: World, worker: Id, todo: set<Id>, a: Id)
    requires Deployed(w) && AllClosed(w.db, todo) && worker in w.agents && OffersStart(w.db, worker, a)
    ensures CanEnter(w, worker, Working(todo, None, Received(w.db, a)))
  {
  }

  lemma AssignedDb(w: World, worker: Id, session: string, id: Id, skipped: set<Id>)
    requires WorldInv(w)
    ensures WorldInv(w.(db := Assign(w.db, worker, session, id, skipped).state))
  {
    var op := AssignOp(worker, session, id, skipped);
    DatabaseStep(w, op);
    AssignDispatch(w.db, op);
  }

  lemma PollOffers(w: World, worker: Id, action: Action)
    requires Inv(w.db) && action.Poll? && worker in w.agents
    ensures
      var tx := Assignment(w, worker, action);
      && (tx.reply.Granted? ==> OffersStart(tx.state, worker, tx.reply.attempt))
      && (tx.reply.Replayed? && Replayable(w.db, worker, action.replayed) ==>
            OffersStart(tx.state, worker, action.replayed))
  {
    var tx := Assignment(w, worker, action);
    GrantNames(w.db, worker, w.agents[worker].session, action.id, action.skipped);
    if tx.reply.Granted? {
      GrantHosted(w.db, worker, w.agents[worker].session, action.id, action.skipped);
    } else if tx.reply.Replayed? && Replayable(w.db, worker, action.replayed) {
      ReplayHosted(w.db, worker, action.replayed);
    }
  }

  lemma GrantNames(db: State, worker: Id, session: string, id: Id, skipped: set<Id>)
    ensures
      var tx := Assign(db, worker, session, id, skipped);
      && (tx.reply.Granted? ==> tx.reply.attempt == id)
      && (tx.reply.Replayed? ==> tx.state == db)
  {
  }

  lemma EnterPolled(w: World, worker: Id, todo: set<Id>, a: Option<Id>)
    requires Deployed(w) && worker in w.agents && AllClosed(w.db, todo)
    requires a.Some? ==> OffersStart(w.db, worker, a.value)
    ensures Deployed(Enter(w, worker, Working(todo, None, if a.Some? then Received(w.db, a.value) else None)))
  {
    if a.Some? {
      StartingIsNew(w, worker, todo, a.value);
      EnterKeeps(w, worker, Working(todo, None, Received(w.db, a.value)));
    } else {
      EnterKeeps(w, worker, Working(todo, None, None));
    }
  }

  lemma AnswerKeeps(w: World, worker: Id, tx: Tx, replayed: Id)
    requires worker in w.agents && w.agents[worker].phase.Listed?
    requires Deployed(w) && Deployed(w.(db := tx.state))
    requires tx.reply.Granted? ==> OffersStart(tx.state, worker, tx.reply.attempt)
    requires tx.reply.Replayed? && Replayable(w.db, worker, replayed) ==> OffersStart(tx.state, worker, replayed)
    ensures Deployed(Answered(w, worker, tx, replayed))
  {
    var w' := w.(db := tx.state);
    var todo := w.agents[worker].phase.listed;
    assert PhaseOk(w'.db, worker, w'.agents[worker].phase);
    match tx.reply
    case Granted(a) => EnterPolled(w', worker, todo, Some(a));
    case Replayed =>
      if Replayable(w.db, worker, replayed) {
        EnterPolled(w', worker, todo, Some(replayed));
      }
    case Idle => EnterPolled(w', worker, todo, None);
    case _ => EnterKeeps(w', worker, Resting);
  }

  lemma AnswerDb(w: World, worker: Id, tx: Tx, replayed: Id)
    requires worker in w.agents && w.agents[worker].phase.Listed?
    ensures Answered(w, worker, tx, replayed).db == tx.state || Answered(w, worker, tx, replayed) == w
  {
  }

  lemma PollInv(w: World, worker: Id, action: Action)
    requires WorldInv(w) && action.Poll? && worker in w.agents && w.agents[worker].phase.Listed?
    ensures WorldInv(PollStep(w, worker, action))
  {
    AssignedDb(w, worker, w.agents[worker].session, action.id, action.skipped);
    PollOffers(w, worker, action);
    AnswerKeeps(w, worker, Assignment(w, worker, action), action.replayed);
    AnswerDb(w, worker, Assignment(w, worker, action), action.replayed);
  }

  lemma StopStep(w: World, worker: Id, a: Id)
    requires Deployed(w) && worker in w.agents && w.agents[worker].phase.Stopping?
    ensures Deployed(Enter(Clear(w, worker, a), worker, Stopping(w.agents[worker].phase.stops - {a})))
  {
  }

  lemma RemoveStep(w: World, worker: Id, a: Id)
    requires Deployed(w) && worker in w.agents && w.agents[worker].phase.Working? && a in w.agents[worker].phase.todo
    ensures
      var p := w.agents[worker].phase;
      Deployed(Enter(Clear(w, worker, a), worker, Working(p.todo - {a}, Some(a), p.work)))
  {
  }

  lemma SendStep(w: World, worker: Id)
    requires Deployed(w) && worker in w.agents
    requires w.agents[worker].phase.Working? && w.agents[worker].phase.cleared.Some?
    ensures
      var p := w.agents[worker].phase;
      Deployed(Enter(Tell(w, worker, p.cleared.value), worker, Working(p.todo, None, p.work)))
  {
  }

  lemma StartStep(w: World, worker: Id, work: Work)
    requires Deployed(w) && worker in w.agents && w.agents[worker].phase == Working({}, None, Some(work))
    ensures Deployed(Enter(Ensure(w, worker, work), worker, Resting))
  {
    EnsureKeeps(w, worker, work);
    EnterKeeps(Ensure(w, worker, work), worker, Resting);
  }

  lemma ReconcileKeeps(w: World, worker: Id, seen: set<Id>)
    requires Deployed(w) && worker in w.agents && w.agents[worker].phase == Surveyed(seen)
    requires Links(w.db.runs, w.db.attempts) && Agree(w.db.runs, w.db.attempts)
    ensures Deployed(ReconcileStep(w, worker, seen))
  {
    assert PhaseOk(w.db, worker, w.agents[worker].phase);
    StopsAreClosed(w.db, worker, seen);
    EnterKeeps(w, worker, Resting);
    EnterKeeps(w, worker, Stopping(ToStop(w.db, seen)));
  }

  lemma CleanupKeeps(w: World, worker: Id)
    requires Deployed(w) && worker in w.agents
    ensures Deployed(CleanupStep(w, worker))
  {
  }

  lemma WorkingKeeps(w: World, action: Action, worker: Id)
    requires Deployed(w) && worker in w.agents && w.agents[worker].phase.Working?
    ensures Deployed(AgentStep(w, action, worker))
  {
    match (action, w.agents[worker].phase)
    case (Remove(_, a), Working(todo, None, _)) =>
      if a in todo {
        RemoveStep(w, worker, a);
      }
    case (Send(_), Working(_, Some(_), _)) => SendStep(w, worker);
    case (StartContainer(_), Working(todo, None, work)) =>
      if work.None? {
        EnterKeeps(w, worker, Resting);
      } else if todo == {} {
        StartStep(w, worker, work.value);
      }
    case _ =>
  }

  lemma LocalKeeps(w: World, action: Action, worker: Id)
    requires Deployed(w) && worker in w.agents && !action.Poll?
    requires Links(w.db.runs, w.db.attempts) && Agree(w.db.runs, w.db.attempts)
    ensures Deployed(AgentStep(w, action, worker))
  {
    match (action, w.agents[worker].phase)
    case (Observe(_), Resting) =>
      SurveyOk(w, worker);
      EnterKeeps(w, worker, Surveyed(Containers(w, worker)));
    case (Reconcile(_), Surveyed(seen)) => ReconcileKeeps(w, worker, seen);
    case (Stop(_, a), Stopping(_)) => StopStep(w, worker, a);
    case (ListCleanup(_), Stopping(_)) => CleanupKeeps(w, worker);
    case (_, Working(_, _, _)) => WorkingKeeps(w, action, worker);
    case _ =>
  }

  lemma LocalDb(w: World, action: Action, worker: Id)
    requires worker in w.agents && !action.Poll?
    ensures AgentStep(w, action, worker).db == w.db
  {
  }

  lemma AgentKeeps(w: World, action: Action, worker: Id)
    requires WorldInv(w) && worker in w.agents
    ensures WorldInv(AgentStep(w, action, worker))
  {
    if !action.Poll? {
      LocalKeeps(w, action, worker);
      LocalDb(w, action, worker);
    } else {
      PollDispatch(w, action, worker);
      if w.agents[worker].phase.Listed? {
        PollInv(w, worker, action);
      }
    }
  }

  lemma PollDispatch(w: World, action: Action, worker: Id)
    requires worker in w.agents && action.Poll?
    ensures AgentStep(w, action, worker)
            == if w.agents[worker].phase.Listed? then PollStep(w, worker, action) else w
  {
  }

  lemma OutsideKeeps(w: World, action: Action)
    requires Deployed(w) && (action.Boot? || action.Abort? || action.Vanish?)
    ensures Deployed(Act(w, action)) && Act(w, action).db == w.db
  {
  }

  lemma ActKeeps(w: World, action: Action)
    requires WorldInv(w)
    ensures WorldInv(Act(w, action))
  {
    if action.Database? {
      DatabaseStep(w, action.op);
    } else if action.Deliver? {
      DeliverStep(w, action.report);
    } else if action.Boot? || action.Abort? || action.Vanish? {
      OutsideKeeps(w, action);
    } else if action.worker in w.agents {
      AgentKeeps(w, action, action.worker);
    }
  }

  lemma GenesisDeployed(timing: Timing, now: Time)
    ensures Deployed(Genesis(timing, now))
  {
  }

  lemma {:induction false} PlayKeeps(timing: Timing, now: Time, actions: seq<Action>)
    requires ValidTiming(timing)
    ensures WorldInv(Play(Genesis(timing, now), actions))
  {
    if actions == [] {
      EmptyIsInv(timing, now);
      GenesisDeployed(timing, now);
    } else {
      PlayKeeps(timing, now, actions[..|actions| - 1]);
      ActKeeps(Play(Genesis(timing, now), actions[..|actions| - 1]), actions[|actions| - 1]);
    }
  }

  // ---- Results --------------------------------------------------------------------------------

  /** A container exists, or is about to, only while its attempt's cleanup is PENDING. */
  lemma DeployedMeansPending(w: World, slot: Slot)
    requires Deployed(w)
    requires slot in w.containers || (slot.worker in w.agents && InHand(w.agents[slot.worker].phase, slot.attempt))
    ensures slot.attempt in Pending(w.db.attempts, slot.worker)
  {
  }

  /** No two containers share a GPU. */
  lemma NoSharedDevice(w: World, j: Slot, k: Slot)
    requires Gpus(w.db) && Deployed(w) && j in w.containers && k in w.containers && j != k
    ensures w.containers[j] !! w.containers[k]
  {
  }

  /** Only an agent's stop or cleanup removes a container, and then its attempt is closed. */
  lemma RemovedIsClosed(w: World, action: Action, slot: Slot)
    requires Deployed(w) && !action.Vanish?
    requires slot in w.containers && slot !in Act(w, action).containers
    ensures ClosedIn(w.db, slot.attempt) && (action.Stop? || action.Remove?) && action.worker == slot.worker
  {
    if !action.Stop? && !action.Remove? {
      OthersKeepContainers(w, action, slot);
    }
    assert PhaseOk(w.db, action.worker, w.agents[action.worker].phase);
  }

  lemma OthersKeepContainers(w: World, action: Action, slot: Slot)
    requires slot in w.containers && !action.Vanish? && !action.Stop? && !action.Remove?
    ensures slot in Act(w, action).containers
  {
  }

  /**
   * End to end, over every interleaving of agent loops, transactions, crashes and late reports:
   * a container exists or is in hand only while its attempt pends, no two containers share a GPU,
   * and no agent's next step can remove the container of an attempt that is still active.
   */
  lemma PhysicalExclusivity(timing: Timing, now: Time, actions: seq<Action>)
    requires ValidTiming(timing)
    ensures
      var w := Play(Genesis(timing, now), actions);
      && (forall k: Slot | k in w.containers || (k.worker in w.agents && InHand(w.agents[k.worker].phase, k.attempt)) ::
            k.attempt in Pending(w.db.attempts, k.worker))
      && (forall j, k | j in w.containers && k in w.containers && j != k :: w.containers[j] !! w.containers[k])
      && (forall action: Action, k |
            !action.Vanish? && k in w.containers && k !in Act(w, action).containers ::
            ClosedIn(w.db, k.attempt))
  {
    PlayKeeps(timing, now, actions);
    var w := Play(Genesis(timing, now), actions);
    forall k: Slot | k in w.containers || (k.worker in w.agents && InHand(w.agents[k.worker].phase, k.attempt))
      ensures k.attempt in Pending(w.db.attempts, k.worker)
    {
      DeployedMeansPending(w, k);
    }
    forall j, k | j in w.containers && k in w.containers && j != k
      ensures w.containers[j] !! w.containers[k]
    {
      NoSharedDevice(w, j, k);
    }
    forall action: Action, k | !action.Vanish? && k in w.containers && k !in Act(w, action).containers
      ensures ClosedIn(w.db, k.attempt)
    {
      RemovedIsClosed(w, action, k);
    }
  }
}
