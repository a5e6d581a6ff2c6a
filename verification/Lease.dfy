/**
 * The runner's side of the lease: the guard that tracks how long the lease surely lasts, the
 * supervisor loop that watches it and the child's kill deadline, composed with the store.
 * Requests may be delayed, lost or repeated; only the supervisor's scheduling lag is bounded.
 */
module Lease {
  import opened Base
  import opened Domain
  import opened Tables
  import opened Transactions
  import opened Invariants
  import opened Steps
  import opened Reachability
  import opened Scheduling

  // ---- Arithmetic of the guard ----------------------------------------------------------------

  /** duration_cast to milliseconds truncates toward zero. */
  function Millis(t: Time): int { if t >= 0 then t / 1000 else -((-t) / 1000) }

  function Until(sent: Time, lease: int): int { Millis(sent + Seconds(lease - 2)) }

  predicate NearExpiry(until: int, now: Time, grace: int) { Millis(now + Seconds(grace)) >= until }

  /** Truncating both sides to milliseconds loses nothing: the comparison is exact. */
  lemma NearExpiryIsExact(until: int, now: Time, grace: int)
    requires now + Seconds(grace) >= 0
    ensures NearExpiry(until, now, grace) <==> now + Seconds(grace) >= until * 1000
  {
  }

  lemma UntilIsConservative(sent: Time, lease: int)
    requires sent >= 0 && lease >= 2
    ensures Until(sent, lease) * 1000 + Seconds(2) <= sent + Seconds(lease)
  {
  }

  /** And it gives away less than a millisecond beyond the two seconds. */
  lemma UntilIsTight(sent: Time, lease: int)
    requires sent + Seconds(lease - 2) >= 0
    ensures Until(sent, lease) * 1000 <= sent + Seconds(lease) - Seconds(2) < Until(sent, lease) * 1000 + 1000
  {
  }

  // ---- The objects ----------------------------------------------------------------------------

  datatype Guard = Guard(until: int, revoked: bool)

  /** What a heartbeat call came back with. */
  datatype Answer = Renewed(seconds: int) | Rejected(code: ErrorCode)

  function Answered(g: Guard, before: Time, answer: Answer): Guard {
    match answer
    case Renewed(seconds) => g.(until := Until(before, seconds))
    case Rejected(code) => if code.Unavailable? then g else g.(revoked := true)
  }

  class LeaseGuard {
    var until: int
    var revoked: bool

    function View(): Guard reads this { Guard(until, revoked) }

    constructor (sent: Time, lease: int)
      ensures View() == Guard(Until(sent, lease), false)
      ensures sent + Seconds(lease - 2) >= 0 ==>
        until * 1000 <= sent + Seconds(lease) - Seconds(2) < until * 1000 + 1000
    {
      until := Millis(sent + Seconds(lease - 2));
      revoked := false;
      new;
      if sent + Seconds(lease - 2) >= 0 {
        UntilIsTight(sent, lease);
      }
    }

    /** One turn of the heartbeat thread, `before` read ahead of the call. */
    method Heartbeat(before: Time, answer: Answer)
      modifies this
      ensures View() == Answered(old(View()), before, answer)
      ensures answer.Renewed? && before + Seconds(answer.seconds - 2) >= 0 ==>
        until * 1000 <= before + Seconds(answer.seconds) - Seconds(2) < until * 1000 + 1000
      ensures answer.Rejected? ==> until == old(until)
      ensures revoked <==> old(revoked) || (answer.Rejected? && answer.code != Unavailable)
    {
      if answer.Renewed? && before + Seconds(answer.seconds - 2) >= 0 {
        UntilIsTight(before, answer.seconds);
      }
      match answer {
        case Renewed(seconds) => until := Millis(before + Seconds(seconds - 2));
        case Rejected(code) =>
          if code != Unavailable {
            revoked := true;
          }
      }
    }

    method IsNearExpiry(now: Time, grace: int) returns (near: bool)
      requires now + Seconds(grace) >= 0
      ensures near <==> now + Seconds(grace) >= until * 1000
    {
      near := Millis(now + Seconds(grace)) >= until;
      NearExpiryIsExact(until, now, grace);
    }
  }

  datatype Signal = Term | Kill

  /** The kill deadline only ever comes closer. */
  function Lowered(killAt: Option<Time>, deadline: Time): Option<Time> {
    if killAt.None? || deadline < killAt.value then Some(deadline) else killAt
  }

  predicate KillDue(killAt: Option<Time>, now: Time) { killAt.Some? && now >= killAt.value }

  class PosixProcess {
    var killAt: Option<Time>
    var status: Option<int>
    var signals: seq<Signal>

    constructor ()
      ensures killAt.None? && status.None? && signals == []
    {
      killAt, status, signals := None, None, [];
    }

    method Stop(now: Time, grace: int)
      modifies this
      ensures killAt == Lowered(old(killAt), now + Seconds(grace)) && status == old(status)
      ensures killAt == Some(if old(killAt).None? then now + Seconds(grace)
                             else Min(old(killAt.value), now + Seconds(grace)))
      ensures signals == old(signals) + if killAt == old(killAt) then [] else [Term]
    {
      var deadline := now + Seconds(grace);
      if killAt.None? || deadline < killAt.value {
        killAt := Some(deadline);
        signals := signals + [Term];
      }
    }

    /** `reaped` is what waitpid found. The status is written once; a due deadline kills the group. */
    method Poll(now: Time, reaped: Option<int>) returns (result: Option<int>)
      modifies this
      ensures result == status && killAt == old(killAt)
      ensures status == if old(status).Some? then old(status) else reaped
      ensures signals == old(signals)
        + (if old(status).None? && killAt.Some? && killAt.value <= now then [Kill] else [])
        + (if old(status).None? && reaped.Some? then [Kill] else [])
    {
      if status.Some? {
        return status;
      }
      if killAt.Some? && now >= killAt.value {
        signals := signals + [Kill];
      }
      if reaped.Some? {
        status := reaped;
        signals := signals + [Kill];
      }
      result := status;
    }
  }

  // ---- The runner beside the store ------------------------------------------------------------

  datatype Beat = Beat(before: Time, answer: Option<Answer>)

  /** Where the supervisor loop stands; times are readings of the runner's own clock. */
  datatype Supervisor =
    | Unlaunched
    | Watching(checkedAt: Time, polledAt: Time)
    | Tripped(checkedAt: Time, polledAt: Time)             // a reason is set, stop() comes next
    | Stopping(killAt: Time, checkedAt: Time, polledAt: Time)
    | Over                                                 // SIGKILL was issued, or the child was reaped

  datatype World = World(
    db: State,
    owner: Owner,
    offset: int,                 // the runner's clock minus the database's
    grace: int,
    timeout: int,
    lag: Time,
    sent: Time,                  // read before the first Start request
    served: bool,
    guard: Option<Guard>,
    beat: Option<Beat>,
    launched: Option<Time>,      // when the child was started
    supervisor: Supervisor)

  datatype Action =
    | Database(op: Op)
    | ServeStart(node: string)
    | Receive                    // the Start reply arrives
    | BeginBeat
    | ServeBeat
    | EndBeat(lost: bool)
    | LaunchChild
    | Check(stopRequested: bool)
    | StopChild
    | PollChild(exited: bool)

  function Now(w: World): Time { w.db.now + w.offset }

  /** The loop comes round in time: neither the check nor the poll is ever later than the lag allows. */
  predicate InTime(w: World, now: Time) {
    w.supervisor.Watching? || w.supervisor.Tripped? || w.supervisor.Stopping? ==>
      now + w.offset <= w.supervisor.checkedAt + w.lag && now + w.offset <= w.supervisor.polledAt + w.lag
  }

  predicate Trips(w: World, stopRequested: bool)
    requires w.guard.Some?
  {
    || stopRequested
    || w.guard.value.revoked || NearExpiry(w.guard.value.until, Now(w), w.grace)
    || Now(w) >= w.sent + Seconds(w.timeout)
  }

  /** The supervisor stops a child for its caller, for the lease or for the time limit, and for nothing else. */
  lemma StopsOnlyFor(w: World, stopRequested: bool)
    requires w.guard.Some? && w.supervisor.Watching? && Now(w) + Seconds(w.grace) >= 0
    ensures Act(w, Check(stopRequested)).supervisor.Tripped? <==>
      || stopRequested || w.guard.value.revoked
      || Now(w) + Seconds(w.grace) >= w.guard.value.until * 1000
      || Now(w) >= w.sent + Seconds(w.timeout)
  {
    NearExpiryIsExact(w.guard.value.until, Now(w), w.grace);
  }

  function Renewal(w: World, reply: Reply): Answer {
    if reply.Refused? then Rejected(reply.code) else Renewed(w.db.timing.lease)
  }

  function StartServed(w: World, tx: Tx): World { w.(db := tx.state, served := w.served || tx.reply.Done?) }

  function BeatServed(w: World, tx: Tx): World
    requires w.beat.Some?
  {
    w.(db := tx.state, beat := Some(w.beat.value.(answer := Some(Renewal(w, tx.reply)))))
  }

  ghost function ClientStep(w: World, action: Action): World {
    match action
    case ServeStart(node) =>
      StartServed(w, Start(w.db, w.owner.attempt, w.owner.generation, w.owner.instance, node))
    case Receive =>
      if w.served && w.guard.None? then w.(guard := Some(Guard(Until(w.sent, w.db.timing.lease), false))) else w
    case BeginBeat =>
      if w.guard.Some? && w.beat.None? then w.(beat := Some(Beat(Now(w), None))) else w
    case ServeBeat =>
      if w.beat.None? || w.beat.value.answer.Some? then w
      else BeatServed(w, Heartbeat(w.db, w.owner.attempt, w.owner.generation, w.owner.instance))
    case EndBeat(lost) =>
      if w.beat.None? || w.guard.None? then w
      else if lost || w.beat.value.answer.None? then w.(beat := None)
      else
        w.(beat := None, guard := Some(Answered(w.guard.value, w.beat.value.before, w.beat.value.answer.value)))
    case _ => w
  }

  function SupervisorStep(w: World, action: Action): World {
    if w.guard.None? then w
    else match (action, w.supervisor)
      case (LaunchChild, Unlaunched) =>
        if NearExpiry(w.guard.value.until, Now(w), w.grace) then w.(supervisor := Over)
        else w.(supervisor := Watching(Now(w), Now(w)), launched := Some(Now(w)))
      case (Check(requested), Watching(_, polled)) =>
        w.(supervisor := if Trips(w, requested) then Tripped(Now(w), polled) else Watching(Now(w), polled))
      case (Check(_), Stopping(killAt, _, polled)) => w.(supervisor := Stopping(killAt, Now(w), polled))
      case (StopChild, Tripped(checked, polled)) =>
        w.(supervisor := Stopping(Lowered(None, Now(w) + Seconds(w.grace)).value, checked, polled))
      case (PollChild(exited), Watching(checked, _)) =>
        w.(supervisor := if exited then Over else Watching(checked, Now(w)))
      case (PollChild(exited), Stopping(killAt, checked, _)) =>
        w.(supervisor := if exited || KillDue(Some(killAt), Now(w)) then Over else Stopping(killAt, checked, Now(w)))
      case _ => w
  }

  ghost function Act(w: World, action: Action): World {
    if action.Database? then
      if InTime(w, Step(w.db, action.op).now) then w.(db := Step(w.db, action.op)) else w
    else if action.LaunchChild? || action.Check? || action.StopChild? || action.PollChild? then
      SupervisorStep(w, action)
    else ClientStep(w, action)
  }

  ghost function Play(w: World, actions: seq<Action>): World {
    if actions == [] then w else Act(Play(w, actions[..|actions| - 1]), actions[|actions| - 1])
  }

  /** A runner about to send its first Start, with an instance id nobody has used. */
  ghost predicate Initial(w: World) {
    && Inv(w.db) && Settings(w) && w.owner.instance != ""
    && (forall a | a in w.db.attempts :: w.db.attempts[a].instance != w.owner.instance)
    && Now(w) == w.sent && w.sent >= 0
    && !w.served && w.guard.None? && w.beat.None? && w.launched.None? && w.supervisor.Unlaunched?
  }

  /** What the configuration loader guarantees: the lease exceeds heartbeat and grace by the margin. */
  predicate Settings(w: World) { w.db.timing.lease > w.grace + 2 && w.grace > 0 && w.lag >= 0 }

  // ---- The lease outlasts the guard -----------------------------------------------------------

  /** Unless cancelled, the server's lease lasts to this moment of the runner's clock. */
  predicate Lasts(db: State, a: Id, offset: int, moment: Time) {
    && a in db.attempts
    && (|| db.attempts[a].status.Cancelled?
        || (db.attempts[a].leaseUntil.Some? && moment <= db.attempts[a].leaseUntil.value + offset))
  }

  predicate Claimed(db: State, owner: Owner) {
    owner.attempt in db.attempts && db.attempts[owner.attempt].instance == owner.instance
  }

  /** Whoever claims the attempt after `sent` gets a lease of a full term from then. */
  lemma ClaimLasts(s: State, op: Op, s': State, owner: Owner, offset: int, sent: Time)
    requires AttemptsEvolve(s.attempts, s'.attempts) && Accounted(s, op, s') && owner.instance != ""
    requires forall a | a in s'.attempts && a !in s.attempts :: s'.attempts[a].instance == ""
    requires sent <= s.now + offset
    requires Claimed(s, owner) ==> Lasts(s, owner.attempt, offset, sent + Seconds(s.timing.lease))
    ensures Claimed(s', owner) ==> Lasts(s', owner.attempt, offset, sent + Seconds(s.timing.lease))
    ensures Claimed(s, owner) ==> Claimed(s', owner)
  {
  }

  predicate BeatOk(w: World, beat: Beat) {
    && w.guard.Some?
    && 0 <= beat.before <= Now(w) && w.guard.value.until <= Until(beat.before, w.db.timing.lease)
    && (beat.answer.Some? && beat.answer.value.Renewed? ==>
          && beat.answer.value.seconds == w.db.timing.lease
          && Lasts(w.db, w.owner.attempt, w.offset, beat.before + Seconds(w.db.timing.lease)))
  }

  /** The guard ends two seconds before the lease, and a renewal can only move it forward. */
  predicate GuardOk(w: World, guard: Guard) {
    && w.served
    && guard.until <= Until(Now(w), w.db.timing.lease)
    && Lasts(w.db, w.owner.attempt, w.offset, guard.until * 1000 + Seconds(2))
  }

  predicate ClientOk(w: World) {
    && Settings(w) && w.owner.instance != "" && 0 <= w.sent <= Now(w)
    && (w.served ==> Claimed(w.db, w.owner))
    && (Claimed(w.db, w.owner) ==> Lasts(w.db, w.owner.attempt, w.offset, w.sent + Seconds(w.db.timing.lease)))
    && (w.guard.Some? ==> GuardOk(w, w.guard.value))
    && (w.beat.Some? ==> BeatOk(w, w.beat.value))
  }

  /** How far past the guard each stage of stopping can reach, one lag at a time. */
  predicate SupervisorOk(w: World) {
    && InTime(w, w.db.now)
    && (!w.supervisor.Unlaunched? ==> w.guard.Some?)
    && match w.supervisor
       case Unlaunched => true
       case Watching(checked, _) => checked + Seconds(w.grace) < w.guard.value.until * 1000
       case Tripped(checked, polled) =>
         && polled <= Now(w)
         && checked + Seconds(w.grace) < w.guard.value.until * 1000 + w.lag
       case Stopping(killAt, _, polled) =>
         polled < killAt && killAt < w.guard.value.until * 1000 + 2 * w.lag
       case Over => true
  }

  /** When the execution deadline has passed and the child has been started. */
  function Due(w: World): Time {
    Max(w.sent + Seconds(w.timeout), if w.launched.Some? then w.launched.value else w.sent)
  }

  /** How far past that moment each stage can reach, again one lag at a time. */
  predicate DeadlineOk(w: World) {
    match w.supervisor
    case Watching(checked, _) => w.launched.Some? && checked <= Due(w)
    case Tripped(checked, _) => w.launched.Some? && checked <= Due(w) + w.lag
    case Stopping(killAt, _, _) => w.launched.Some? && killAt <= Due(w) + 2 * w.lag + Seconds(w.grace)
    case _ => true
  }

  predicate RunnerOk(w: World) {
    && ClientOk(w) && SupervisorOk(w) && DeadlineOk(w)
    && (w.supervisor.Watching? ==> w.supervisor.polledAt <= Now(w))
  }

  ghost predicate LeaseInv(w: World) { Inv(w.db) && RunnerOk(w) }

  // ---- Transactions and time ------------------------------------------------------------------

  lemma NewAttemptsUnclaimed(s: State, op: Op)
    requires Inv(s)
    ensures forall a | a in Step(s, op).attempts && a !in s.attempts :: Step(s, op).attempts[a].instance == ""
  {
    StepKeeps(s, op);
    var s' := Step(s, op);
    forall a | a in s'.attempts && a !in s.attempts
      ensures s'.attempts[a].instance == ""
    {
      assert Timed(s'.attempts[a], s'.runs[s'.attempts[a].run].spec.timeoutSeconds, s'.now, s'.timing);
    }
  }

  lemma LastsOn(s: State, op: Op, s': State, a: Id, offset: int, moment: Time)
    requires DbStep(s, op, s') && Lasts(s, a, offset, moment)
    requires moment <= s.now + offset + Seconds(s.timing.lease)
    ensures Lasts(s', a, offset, moment)
  {
    assert AttemptEvolves(s.attempts[a], s'.attempts[a]);
    assert LeaseKept(s, s.attempts[a], s'.attempts[a]);
  }

  lemma GuardOn(w: World, op: Op, db': State)
    requires ClientOk(w) && DbStep(w.db, op, db') && w.guard.Some?
    ensures
      var until := w.guard.value.until;
      && until <= Until(db'.now + w.offset, db'.timing.lease)
      && Lasts(db', w.owner.attempt, w.offset, until * 1000 + Seconds(2))
  {
    var until, lease := w.guard.value.until, w.db.timing.lease;
    UntilIsConservative(Now(w), lease);
    LastsOn(w.db, op, db', w.owner.attempt, w.offset, until * 1000 + Seconds(2));
    UntilGrows(Now(w), db'.now + w.offset, lease);
  }

  lemma BeatOn(w: World, op: Op, db': State)
    requires ClientOk(w) && DbStep(w.db, op, db') && w.beat.Some?
    ensures BeatOk(w.(db := db'), w.beat.value)
  {
    var beat := w.beat.value;
    if beat.answer.Some? && beat.answer.value.Renewed? {
      LastsOn(w.db, op, db', w.owner.attempt, w.offset, beat.before + Seconds(w.db.timing.lease));
    }
  }

  lemma ClientOn(w: World, op: Op, db': State)
    requires ClientOk(w) && DbStep(w.db, op, db')
    requires forall a | a in db'.attempts && a !in w.db.attempts :: db'.attempts[a].instance == ""
    ensures ClientOk(w.(db := db'))
  {
    ClaimLasts(w.db, op, db', w.owner, w.offset, w.sent);
    if w.guard.Some? {
      GuardOn(w, op, db');
    }
    if w.beat.Some? {
      BeatOn(w, op, db');
    }
  }

  lemma DatabaseKeeps(w: World, op: Op)
    requires LeaseInv(w) && InTime(w, Step(w.db, op).now)
    ensures LeaseInv(w.(db := Step(w.db, op)))
  {
    StepKeeps(w.db, op);
    StepAccounted(w.db, op);
    NewAttemptsUnclaimed(w.db, op);
    RunnerOn(w, op, Step(w.db, op));
  }

  lemma RunnerOn(w: World, op: Op, db': State)
    requires RunnerOk(w) && DbStep(w.db, op, db') && InTime(w, db'.now)
    requires forall a | a in db'.attempts && a !in w.db.attempts :: db'.attempts[a].instance == ""
    ensures RunnerOk(w.(db := db'))
  {
    ClientOn(w, op, db');
    SupervisorOn(w, db');
  }

  lemma SupervisorOn(w: World, db': State)
    requires SupervisorOk(w) && DeadlineOk(w) && w.db.now <= db'.now && InTime(w, db'.now)
    ensures SupervisorOk(w.(db := db')) && DeadlineOk(w.(db := db'))
  {
  }

  // ---- The guard's own steps ------------------------------------------------------------------

  lemma UntilGrows(sent: Time, later: Time, lease: int)
    requires 0 <= sent <= later && lease >= 2
    ensures Until(sent, lease) <= Until(later, lease)
  {
    var x, y := sent + Seconds(lease - 2), later + Seconds(lease - 2);
    assert 0 <= x <= y;
  }

  lemma ReceiveKeeps(w: World)
    requires RunnerOk(w) && w.served && w.guard.None?
    ensures RunnerOk(w.(guard := Some(Guard(Until(w.sent, w.db.timing.lease), false))))
  {
    UntilIsConservative(w.sent, w.db.timing.lease);
    UntilGrows(w.sent, Now(w), w.db.timing.lease);
  }

  lemma EndBeatKeeps(w: World)
    requires RunnerOk(w) && w.beat.Some? && w.guard.Some? && w.beat.value.answer.Some?
    ensures RunnerOk(w.(beat := None,
                        guard := Some(Answered(w.guard.value, w.beat.value.before, w.beat.value.answer.value))))
  {
    UntilIsConservative(w.beat.value.before, w.db.timing.lease);
    UntilGrows(w.beat.value.before, Now(w), w.db.timing.lease);
  }

  lemma ServeStartClaims(db: State, owner: Owner, node: string)
    requires Start(db, owner.attempt, owner.generation, owner.instance, node).reply.Done?
    ensures Claimed(Start(db, owner.attempt, owner.generation, owner.instance, node).state, owner)
  {
  }

  // ---- The supervisor's steps -----------------------------------------------------------------

  /** Each stage costs at most one lag beyond the guard, and beyond the execution deadline. */
  lemma SupervisorKeeps(w: World, action: Action)
    requires RunnerOk(w)
    ensures RunnerOk(SupervisorStep(w, action)) && SupervisorStep(w, action).db == w.db
  {
    if w.guard.Some? {
      NearExpiryIsExact(w.guard.value.until, Now(w), w.grace);
      SupervisorMoves(w, action);
    }
  }

  lemma SupervisorMoves(w: World, action: Action)
    requires SupervisorOk(w) && DeadlineOk(w) && w.guard.Some? && w.lag >= 0 && w.grace > 0
    requires w.supervisor.Watching? ==> w.supervisor.polledAt <= Now(w)
    requires NearExpiry(w.guard.value.until, Now(w), w.grace) <==>
             Now(w) + Seconds(w.grace) >= w.guard.value.until * 1000
    ensures
      var w' := SupervisorStep(w, action);
      && SupervisorOk(w') && DeadlineOk(w') && w' == w.(supervisor := w'.supervisor, launched := w'.launched)
      && (w'.supervisor.Watching? ==> w'.supervisor.polledAt <= Now(w'))
  {
  }

  lemma StartServedKeeps(w: World, tx: Tx)
    requires RunnerOk(w.(db := tx.state)) && (tx.reply.Done? ==> Claimed(tx.state, w.owner))
    ensures RunnerOk(StartServed(w, tx)) && StartServed(w, tx).db == tx.state
  {
  }

  lemma StartDb(w: World, node: string)
    requires LeaseInv(w)
    ensures LeaseInv(w.(db := Start(w.db, w.owner.attempt, w.owner.generation, w.owner.instance, node).state))
  {
    var op := StartOp(w.owner.attempt, w.owner.generation, w.owner.instance, node);
    StartDispatch(w.db, op);
    DatabaseKeeps(w, op);
  }

  lemma ServeStartKeeps(w: World, node: string)
    requires LeaseInv(w)
    ensures LeaseInv(StartServed(w, Start(w.db, w.owner.attempt, w.owner.generation, w.owner.instance, node)))
  {
    var tx := Start(w.db, w.owner.attempt, w.owner.generation, w.owner.instance, node);
    StartDb(w, node);
    if tx.reply.Done? {
      ServeStartClaims(w.db, w.owner, node);
    }
    StartServedKeeps(w, tx);
  }

  lemma StartDispatch(s: State, op: Op)
    requires op.StartOp?
    ensures Step(s, op) == Start(s, op.attempt, op.generation, op.instance, op.node).state
    ensures Step(s, op).now == s.now
  {
  }

  lemma BeatDispatch(s: State, op: Op)
    requires op.HeartbeatOp?
    ensures Step(s, op) == Heartbeat(s, op.attempt, op.generation, op.instance).state
    ensures Step(s, op).now == s.now && Step(s, op).timing == s.timing
    ensures
      var reply := Heartbeat(s, op.attempt, op.generation, op.instance).reply;
      reply.Done? || reply.Refused?
  {
  }

  lemma BeatServedKeeps(w: World, tx: Tx)
    requires RunnerOk(w.(db := tx.state)) && w.beat.Some? && w.beat.value.answer.None?
    requires tx.reply.Done? || tx.reply.Refused?
    requires w.db.timing == tx.state.timing
    requires tx.reply.Done? ==>
      Lasts(tx.state, w.owner.attempt, w.offset, w.beat.value.before + Seconds(tx.state.timing.lease))
    ensures RunnerOk(BeatServed(w, tx)) && BeatServed(w, tx).db == tx.state
  {
  }

  lemma BeatDb(w: World)
    requires LeaseInv(w)
    ensures LeaseInv(w.(db := Heartbeat(w.db, w.owner.attempt, w.owner.generation, w.owner.instance).state))
  {
    var op := HeartbeatOp(w.owner.attempt, w.owner.generation, w.owner.instance);
    BeatDispatch(w.db, op);
    DatabaseKeeps(w, op);
  }

  lemma BeatReply(w: World)
    requires ClientOk(w) && w.beat.Some?
    ensures
      var tx := Heartbeat(w.db, w.owner.attempt, w.owner.generation, w.owner.instance);
      && (tx.reply.Done? || tx.reply.Refused?) && tx.state.timing == w.db.timing
      && (tx.reply.Done? ==>
            Lasts(tx.state, w.owner.attempt, w.offset, w.beat.value.before + Seconds(tx.state.timing.lease)))
  {
  }

  lemma ServeBeatKeeps(w: World)
    requires LeaseInv(w) && w.beat.Some? && w.beat.value.answer.None?
    ensures LeaseInv(BeatServed(w, Heartbeat(w.db, w.owner.attempt, w.owner.generation, w.owner.instance)))
  {
    BeatDb(w);
    BeatReply(w);
    BeatServedKeeps(w, Heartbeat(w.db, w.owner.attempt, w.owner.generation, w.owner.instance));
  }

  lemma LocalClientKeeps(w: World, action: Action)
    requires RunnerOk(w) && (action.Receive? || action.BeginBeat? || action.EndBeat?)
    ensures RunnerOk(ClientStep(w, action)) && ClientStep(w, action).db == w.db
  {
    match action
    case Receive => ReceiveStep(w);
    case BeginBeat => BeginBeatStep(w);
    case EndBeat(lost) => EndBeatStep(w, lost);
  }

  lemma ReceiveStep(w: World)
    requires RunnerOk(w)
    ensures RunnerOk(ClientStep(w, Receive)) && ClientStep(w, Receive).db == w.db
  {
    if w.served && w.guard.None? {
      ReceiveKeeps(w);
    } else {
      assert ClientStep(w, Receive) == w;
    }
  }

  lemma BeginBeatStep(w: World)
    requires RunnerOk(w)
    ensures RunnerOk(ClientStep(w, BeginBeat)) && ClientStep(w, BeginBeat).db == w.db
  {
  }

  lemma EndBeatStep(w: World, lost: bool)
    requires RunnerOk(w)
    ensures RunnerOk(ClientStep(w, EndBeat(lost))) && ClientStep(w, EndBeat(lost)).db == w.db
  {
    if w.beat.None? || w.guard.None? {
      assert ClientStep(w, EndBeat(lost)) == w;
    } else if lost || w.beat.value.answer.None? {
      assert ClientStep(w, EndBeat(lost)) == w.(beat := None);
    } else {
      EndBeatKeeps(w);
    }
  }

  lemma RequestKeeps(w: World, action: Action)
    requires LeaseInv(w) && (action.ServeStart? || action.ServeBeat?)
    ensures LeaseInv(ClientStep(w, action))
  {
    RequestDispatch(w, action);
    if action.ServeStart? {
      ServeStartKeeps(w, action.node);
    } else if w.beat.Some? && w.beat.value.answer.None? {
      ServeBeatKeeps(w);
    }
  }

  lemma RequestDispatch(w: World, action: Action)
    ensures action.ServeStart? ==>
      ClientStep(w, action)
      == StartServed(w, Start(w.db, w.owner.attempt, w.owner.generation, w.owner.instance, action.node))
    ensures action.ServeBeat? ==>
      ClientStep(w, action)
      == if w.beat.None? || w.beat.value.answer.Some? then w
         else BeatServed(w, Heartbeat(w.db, w.owner.attempt, w.owner.generation, w.owner.instance))
  {
  }

  lemma ActKeeps(w: World, action: Action)
    requires LeaseInv(w)
    ensures LeaseInv(Act(w, action))
  {
    ActDispatch(w, action);
    if action.Database? {
      if InTime(w, Step(w.db, action.op).now) {
        DatabaseKeeps(w, action.op);
      }
    } else if action.ServeStart? || action.ServeBeat? {
      RequestKeeps(w, action);
    } else if action.Receive? || action.BeginBeat? || action.EndBeat? {
      LocalClientKeeps(w, action);
    } else {
      SupervisorKeeps(w, action);
    }
  }

  lemma ActDispatch(w: World, action: Action)
    ensures action.Database? ==>
      Act(w, action)
      == if InTime(w, Step(w.db, action.op).now) then w.(db := Step(w.db, action.op)) else w
    ensures action.LaunchChild? || action.Check? || action.StopChild? || action.PollChild? ==>
      Act(w, action) == SupervisorStep(w, action)
    ensures action.ServeStart? || action.ServeBeat? || action.Receive? || action.BeginBeat? || action.EndBeat? ==>
      Act(w, action) == ClientStep(w, action)
  {
  }

  lemma {:induction false} PlayKeeps(w: World, actions: seq<Action>)
    requires Initial(w)
    ensures LeaseInv(Play(w, actions))
    ensures
      var w' := Play(w, actions);
      && w'.lag == w.lag && w'.owner == w.owner && w'.sent == w.sent
      && w'.timeout == w.timeout && w'.grace == w.grace
  {
    if actions != [] {
      PlayKeeps(w, actions[..|actions| - 1]);
      ActKeeps(Play(w, actions[..|actions| - 1]), actions[|actions| - 1]);
      ActIdentity(Play(w, actions[..|actions| - 1]), actions[|actions| - 1]);
    }
  }

  lemma ActIdentity(w: World, action: Action)
    ensures
      var w' := Act(w, action);
      && w'.lag == w.lag && w'.owner == w.owner && w'.sent == w.sent
      && w'.timeout == w.timeout && w'.grace == w.grace
  {
  }

  // ---- Results --------------------------------------------------------------------------------

  /** Whatever is delayed, lost or repeated, the guard ends two seconds before the server's lease. */
  lemma GuardIsConservative(w: World, actions: seq<Action>)
    requires Initial(w)
    ensures
      var w' := Play(w, actions);
      w'.guard.Some? ==> Lasts(w'.db, w.owner.attempt, w'.offset, w'.guard.value.until * 1000 + Seconds(2))
  {
    PlayKeeps(w, actions);
  }

  /** A child that was started and neither reaped nor sent SIGKILL. */
  predicate Alive(w: World) { w.supervisor.Watching? || w.supervisor.Tripped? || w.supervisor.Stopping? }

  /** The lease is valid unless the user cancelled, and recovery cannot call it expired. */
  ghost predicate Safe(db: State, a: Id) {
    && a in db.attempts
    && (db.attempts[a].status.Cancelled? || LeaseValid(db.attempts[a], db.now))
    && (Fault(db, a).Some? ==> Fault(db, a).value.reason != "LEASE_EXPIRED")
  }

  lemma AliveIsSafe(w: World)
    requires RunnerOk(w) && Alive(w) && Agree(w.db.runs, w.db.attempts) && 3 * w.lag <= Seconds(2)
    ensures Safe(w.db, w.owner.attempt)
  {
  }

  /**
   * If three rounds of scheduling lag fit in the two-second margin, SIGKILL is issued before the
   * lease lapses: while the child lives uncancelled its lease is valid, and recovery never
   * declares LEASE_EXPIRED for it.
   */
  lemma KilledBeforeExpiry(w: World, actions: seq<Action>)
    requires Initial(w) && 3 * w.lag <= Seconds(2)
    ensures Alive(Play(w, actions)) ==> Safe(Play(w, actions).db, w.owner.attempt)
  {
    PlayKeeps(w, actions);
    if Alive(Play(w, actions)) {
      AliveIsSafe(Play(w, actions));
    }
  }

  /** Past its execution or finalization deadline by the database's clock, and not yet closed. */
  ghost predicate PastDeadline(db: State, a: Id) {
    Executing(db, a) && !DeadlineValid(db.attempts[a], db.now)
  }

  lemma AliveIsClaimed(w: World)
    requires RunnerOk(w) && Alive(w)
    ensures w.owner.attempt in w.db.attempts && w.db.attempts[w.owner.attempt].instance != ""
  {
  }

  lemma DeadlineFaults(w: World)
    requires Inv(w.db) && RunnerOk(w) && Alive(w) && Safe(w.db, w.owner.attempt)
    requires !w.db.attempts[w.owner.attempt].status.Cancelled?
    ensures Fault(w.db, w.owner.attempt).Some? <==> PastDeadline(w.db, w.owner.attempt)
  {
    AliveIsClaimed(w);
    var x := w.db.attempts[w.owner.attempt];
    assert Timed(x, w.db.runs[x.run].spec.timeoutSeconds, w.db.now, w.db.timing);
  }

  /**
   * Recovery closes the attempt of a child that lives uncancelled if and only if a deadline kept
   * by the database has passed. What that means for another attempt of the run, and what other
   * transactions may close it, is the subject of module Exclusion.
   */
  lemma RecoveryNeedsDeadline(w: World, actions: seq<Action>)
    requires Initial(w) && 3 * w.lag <= Seconds(2)
    ensures
      var w' := Play(w, actions);
      Alive(w') && w.owner.attempt in w'.db.attempts && !w'.db.attempts[w.owner.attempt].status.Cancelled? ==>
        (Fault(w'.db, w.owner.attempt).Some? <==> PastDeadline(w'.db, w.owner.attempt))
  {
    PlayKeeps(w, actions);
    var w' := Play(w, actions);
    if Alive(w') && w.owner.attempt in w'.db.attempts && !w'.db.attempts[w.owner.attempt].status.Cancelled? {
      AliveIsSafe(w');
      DeadlineFaults(w');
    }
  }

  predicate Bounded(w: World) { w.launched.Some? && Now(w) < Due(w) + Seconds(w.grace) + 3 * w.lag }

  lemma AliveIsBounded(w: World)
    requires RunnerOk(w) && Alive(w)
    ensures Bounded(w)
  {
  }

  /**
   * A child does not outlive its deadline for long: it is gone by the later of its launch and its
   * execution deadline, plus the termination grace and three lags. The deadline alone is no bound,
   * since it is not looked at before the launch.
   */
  lemma ChildIsBounded(w: World, actions: seq<Action>)
    requires Initial(w)
    ensures Alive(Play(w, actions)) ==> Bounded(Play(w, actions))
  {
    PlayKeeps(w, actions);
    if Alive(Play(w, actions)) {
      AliveIsBounded(Play(w, actions));
    }
  }
}
