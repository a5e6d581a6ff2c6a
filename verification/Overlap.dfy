/** Plays in which two children of one run live at once, and the settings that rule them out. */
module Overlap {
  import opened Base
  import opened Domain
  import opened Tables
  import opened Transactions
  import opened Invariants
  import opened Steps
  import opened Reachability
  import opened Causes
  import opened Lease
  import opened Exclusion
  import opened Witnesses

  // ---- Putting plays together -----------------------------------------------------------------

  lemma {:induction false} PlayOn(w: World, first: seq<Action>, rest: seq<Action>)
    ensures Play(w, first + rest) == Play(Play(w, first), rest)
  {
    if rest == [] {
      assert first + rest == first;
    } else {
      var last := rest[|rest| - 1];
      PlayOn(w, first, rest[..|rest| - 1]);
      assert (first + rest)[..|first + rest| - 1] == first + rest[..|rest| - 1];
    }
  }

  /** The play leads from one world to the other. */
  ghost predicate Leads(w: World, actions: seq<Action>, v: World) { Play(w, actions) == v }

  lemma Stays(w: World)
    ensures Leads(w, [], w)
  {
  }

  lemma Next(w: World, actions: seq<Action>, v: World, action: Action, v': World)
    requires Leads(w, actions, v) && Act(v, action) == v'
    ensures Leads(w, actions + [action], v')
  {
    assert (actions + [action])[..|actions|] == actions;
  }

  lemma Onward(w: World, first: seq<Action>, v: World, rest: seq<Action>, v': World)
    requires Leads(w, first, v) && Leads(v, rest, v')
    ensures Leads(w, first + rest, v')
  {
    PlayOn(w, first, rest);
  }

  lemma CheckAct(w: World)
    requires w.guard.Some? && w.supervisor.Watching?
    ensures Act(w, Check(false))
            == w.(supervisor := if Trips(w, false) then Tripped(Now(w), w.supervisor.polledAt)
                                else Watching(Now(w), w.supervisor.polledAt))
  {
  }

  lemma PollAct(w: World)
    requires w.guard.Some? && w.supervisor.Watching?
    ensures Act(w, PollChild(false)) == w.(supervisor := Watching(w.supervisor.checkedAt, Now(w)))
  {
  }

  lemma StopAct(w: World)
    requires w.guard.Some? && w.supervisor.Tripped?
    ensures Act(w, StopChild)
            == w.(supervisor := Stopping(Now(w) + Seconds(w.grace), w.supervisor.checkedAt, w.supervisor.polledAt))
  {
  }

  lemma CheckStoppingAct(w: World)
    requires w.guard.Some? && w.supervisor.Stopping?
    ensures Act(w, Check(false)) == w.(supervisor := Stopping(w.supervisor.killAt, Now(w), w.supervisor.polledAt))
  {
  }

  lemma PollStoppingAct(w: World)
    requires w.guard.Some? && w.supervisor.Stopping? && Now(w) < w.supervisor.killAt
    ensures Act(w, PollChild(false))
            == w.(supervisor := Stopping(w.supervisor.killAt, w.supervisor.checkedAt, Now(w)))
  {
  }

  lemma LaunchAct(w: World)
    requires w.guard.Some? && w.supervisor.Unlaunched? && !NearExpiry(w.guard.value.until, Now(w), w.grace)
    ensures Act(w, LaunchChild) == w.(supervisor := Watching(Now(w), Now(w)), launched := Some(Now(w)))
  {
  }

  lemma TickAct(w: World, now: Time)
    requires w.db.now <= now && InTime(w, now)
    ensures Act(w, Database(TickOp(now))) == w.(db := w.db.(now := now))
  {
    ControlDispatch(w.db, TickOp(now));
  }

  lemma CommitAct(w: World, op: Op)
    requires Step(w.db, op).now == w.db.now && InTime(w, w.db.now)
    ensures Act(w, Database(op)) == w.(db := Step(w.db, op))
  {
  }

  // ---- A runner and its attempt ---------------------------------------------------------------

  /** A runner about to claim attempt 7. */
  function RunnerAt(s: State, grace: int, lag: Time): World {
    World(s, Owner(7, 1, "i"), 0, grace, 1, lag, 0, false, None, None, None, Unlaunched)
  }

  /** The settings the loader admits, with a lag. */
  predicate LoaderAdmits(t: Timing, grace: int, lag: Time) {
    ValidTiming(t) && 0 < grace && grace + 2 < t.lease && 0 < lag
  }

  ghost function Runner(t: Timing, grace: int, lag: Time): World { RunnerAt(OneAdmitted(Job(1, 0), t), grace, lag) }

  lemma AdmittedIsInitial(s: State, t: Timing, grace: int, lag: Time)
    requires Inv(s) && JustAdmitted(s, Job(1, 0), t) && LoaderAdmits(t, grace, lag)
    ensures Initial(RunnerAt(s, grace, lag)) && Told(RunnerAt(s, grace, lag))
  {
  }

  ghost predicate FromEmpty(s: State, t: Timing) { s == Exec(Empty(t, 0), AdmittedOps(Job(1, 0))) }

  lemma AdmittedFromEmpty(t: Timing)
    requires ValidTiming(t)
    ensures FromEmpty(OneAdmitted(Job(1, 0), t), t) && Inv(OneAdmitted(Job(1, 0), t))
  {
    OneAdmittedReached(Job(1, 0), t);
    Reachable(t, 0, AdmittedOps(Job(1, 0)));
  }

  lemma RunnerIsInitial(t: Timing, grace: int, lag: Time)
    requires LoaderAdmits(t, grace, lag)
    ensures
      var w := Runner(t, grace, lag);
      JustAdmitted(w.db, Job(1, 0), t) && FromEmpty(w.db, t) && Initial(w) && Told(w)
  {
    JobIsValid(1, 0);
    OneAdmittedIs(Job(1, 0), t);
    AdmittedFromEmpty(t);
    AdmittedIsInitial(OneAdmitted(Job(1, 0), t), t, grace, lag);
  }

  /** A runner in front of the admitted attempt, before anything happened. */
  predicate AboutToClaim(w: World, t: Timing) {
    && JustAdmitted(w.db, Job(1, 0), t) && LoaderAdmits(t, w.grace, w.lag)
    && w == RunnerAt(w.db, w.grace, w.lag)
  }

  /** Claimed and answered at time zero: the guard stands two seconds before the end of the lease. */
  function Answered0(w: World, t: Timing): World {
    w.(db := Start(w.db, 7, 1, "i", "").state, served := true, guard := Some(Guard((t.lease - 2) * 1000, false)))
  }

  const CLAIM: seq<Action> := [] + [ServeStart("")] + [Receive]

  lemma ServedAct(w: World)
    requires Start(w.db, w.owner.attempt, w.owner.generation, w.owner.instance, "").reply.Done?
    ensures Act(w, ServeStart(""))
            == w.(db := Start(w.db, w.owner.attempt, w.owner.generation, w.owner.instance, "").state, served := true)
  {
  }

  lemma ReceiveAct(w: World)
    requires w.served && w.guard.None? && w.sent == 0 && w.db.timing.lease >= 2
    ensures Act(w, Receive) == w.(guard := Some(Guard((w.db.timing.lease - 2) * 1000, false)))
  {
    assert Until(0, w.db.timing.lease) == (w.db.timing.lease - 2) * 1000;
  }

  lemma ClaimPlays(w: World, t: Timing)
    requires AboutToClaim(w, t)
    ensures JustClaimed(Answered0(w, t).db, Job(1, 0), t) && Leads(w, CLAIM, Answered0(w, t))
  {
    var v := w.(db := Start(w.db, 7, 1, "i", "").state, served := true);
    ClaimSucceeds(w.db, Job(1, 0), t);
    ServedAct(w);
    ReceiveAct(v);
    Stays(w);
    Next(w, [], w, ServeStart(""), v);
    Next(w, [] + [ServeStart("")], v, Receive, Answered0(w, t));
  }

  // ---- Stopping as late as the lag allows -----------------------------------------------------

  function Round(now: Time): seq<Action> { [] + [Database(TickOp(now))] + [Check(false)] + [PollChild(false)] }

  /** Rounds of the supervisor loop until this moment, at most a lag apart. */
  function Rounds(from: Time, to: Time, lag: Time): seq<Action>
    requires 0 < lag
    decreases if to > from then to - from else 0
  {
    if to - from <= lag then Round(to) else Rounds(from, to - lag, lag) + Round(to)
  }

  function StoppingAt(w: World, killAt: Time, now: Time): World {
    w.(db := w.db.(now := now), supervisor := Stopping(killAt, now, now))
  }

  lemma RoundPlays(w: World, killAt: Time, now: Time, to: Time)
    requires w.offset == 0 && w.guard.Some? && now <= to <= now + w.lag && to < killAt
    ensures Leads(StoppingAt(w, killAt, now), Round(to), StoppingAt(w, killAt, to))
  {
    var v := StoppingAt(w, killAt, now);
    var a := v.(db := v.db.(now := to));
    var b := a.(supervisor := Stopping(killAt, to, now));
    TickAct(v, to);
    CheckStoppingAct(a);
    PollStoppingAct(b);
    Stays(v);
    Next(v, [], v, Database(TickOp(to)), a);
    Next(v, [] + [Database(TickOp(to))], a, Check(false), b);
    Next(v, [] + [Database(TickOp(to))] + [Check(false)], b, PollChild(false), StoppingAt(w, killAt, to));
  }

  lemma {:induction false} RoundsPlay(w: World, killAt: Time, now: Time, to: Time)
    requires w.offset == 0 && w.guard.Some? && 0 < w.lag && now <= to < killAt
    ensures Leads(StoppingAt(w, killAt, now), Rounds(now, to, w.lag), StoppingAt(w, killAt, to))
    decreases if to > now then to - now else 0
  {
    if to - now <= w.lag {
      RoundPlays(w, killAt, now, to);
    } else {
      var m := to - w.lag;
      RoundsPlay(w, killAt, now, m);
      RoundPlays(w, killAt, m, to);
      Onward(StoppingAt(w, killAt, now), Rounds(now, m, w.lag), StoppingAt(w, killAt, m), Round(to),
             StoppingAt(w, killAt, to));
    }
  }

  /** A poll and a check, a lag after the launch. */
  function Trip(at: Time, lag: Time): seq<Action> {
    [] + [Database(TickOp(at + lag))] + [PollChild(false)] + [Check(false)]
  }

  /** The stop that the check called for, a lag later. */
  function Halt(at: Time, lag: Time): seq<Action> {
    [] + [Database(TickOp(at + lag))] + [StopChild] + [Check(false)] + [PollChild(false)]
  }

  function KillAt(at: Time, grace: int, lag: Time): Time { at + 2 * lag + Seconds(grace) }

  function Brink(at: Time, lag: Time): seq<Action> { Trip(at, lag) + Halt(at + lag, lag) }

  /** Rounds to the last look before SIGKILL is due, and a lag further. */
  function Last(now: Time, killAt: Time, lag: Time): seq<Action>
    requires 0 < lag
  {
    Rounds(now, killAt - 1, lag) + [Database(TickOp(killAt - 1 + lag))]
  }

  function Linger(at: Time, grace: int, lag: Time): seq<Action>
    requires 0 < lag
  {
    Brink(at, lag) + Last(at + 2 * lag, KillAt(at, grace, lag), lag)
  }

  /** Launched at a moment from which on the guard or the time limit trips within a lag. */
  predicate Doomed(w: World) {
    && w.offset == 0 && w.guard.Some? && 0 < w.lag && 0 < w.grace
    && w.supervisor == Watching(w.db.now, w.db.now) && Trips(w.(db := w.db.(now := w.db.now + w.lag)), false)
  }

  function TrippedAt(w: World, now: Time): World { w.(db := w.db.(now := now), supervisor := Tripped(now, now)) }

  lemma TripPlays(w: World)
    requires Doomed(w)
    ensures Leads(w, Trip(w.db.now, w.lag), TrippedAt(w, w.db.now + w.lag))
  {
    var at, later := w.db.now, w.db.now + w.lag;
    var a := w.(db := w.db.(now := later));
    var b := a.(supervisor := Watching(at, later));
    TickAct(w, later);
    PollAct(a);
    CheckAct(b);
    Stays(w);
    Next(w, [], w, Database(TickOp(later)), a);
    Next(w, [] + [Database(TickOp(later))], a, PollChild(false), b);
    Next(w, [] + [Database(TickOp(later))] + [PollChild(false)], b, Check(false), TrippedAt(w, later));
  }

  lemma HaltPlays(w: World, now: Time)
    requires w.offset == 0 && w.guard.Some? && 0 < w.lag && 0 < w.grace
    ensures
      var later := now + w.lag;
      Leads(TrippedAt(w, now), Halt(now, w.lag), StoppingAt(w, later + Seconds(w.grace), later))
  {
    var later := now + w.lag;
    var v := TrippedAt(w, now);
    var a := v.(db := v.db.(now := later));
    var b := a.(supervisor := Stopping(later + Seconds(w.grace), now, now));
    var c := b.(supervisor := Stopping(later + Seconds(w.grace), later, now));
    TickAct(v, later);
    StopAct(a);
    CheckStoppingAct(b);
    PollStoppingAct(c);
    Stays(v);
    Next(v, [], v, Database(TickOp(later)), a);
    Next(v, [] + [Database(TickOp(later))], a, StopChild, b);
    Next(v, [] + [Database(TickOp(later))] + [StopChild], b, Check(false), c);
    Next(v, [] + [Database(TickOp(later))] + [StopChild] + [Check(false)], c, PollChild(false),
         StoppingAt(w, later + Seconds(w.grace), later));
  }

  lemma BrinkPlays(w: World)
    requires Doomed(w)
    ensures
      Leads(w, Brink(w.db.now, w.lag), StoppingAt(w, KillAt(w.db.now, w.grace, w.lag), w.db.now + 2 * w.lag))
  {
    var at := w.db.now;
    TripPlays(w);
    HaltPlays(w, at + w.lag);
    Onward(w, Trip(at, w.lag), TrippedAt(w, at + w.lag), Halt(at + w.lag, w.lag),
           StoppingAt(w, KillAt(at, w.grace, w.lag), at + 2 * w.lag));
  }

  /** Last looked at a microsecond before SIGKILL is due, and now a lag later. */
  function Lingered(w: World, killAt: Time): World {
    StoppingAt(w, killAt, killAt - 1).(db := w.db.(now := killAt - 1 + w.lag))
  }

  lemma LastPlays(w: World, now: Time, killAt: Time)
    requires w.offset == 0 && w.guard.Some? && 0 < w.lag && now < killAt
    ensures Leads(StoppingAt(w, killAt, now), Last(now, killAt, w.lag), Lingered(w, killAt))
  {
    var c := StoppingAt(w, killAt, killAt - 1);
    RoundsPlay(w, killAt, now, killAt - 1);
    TickAct(c, killAt - 1 + w.lag);
    Next(StoppingAt(w, killAt, now), Rounds(now, killAt - 1, w.lag), c, Database(TickOp(killAt - 1 + w.lag)),
         Lingered(w, killAt));
  }

  lemma LingerFrom(w: World, at: Time, b: World, v: World)
    requires 0 < w.lag && Leads(w, Brink(at, w.lag), b)
    requires Leads(b, Last(at + 2 * w.lag, KillAt(at, w.grace, w.lag), w.lag), v)
    ensures Leads(w, Linger(at, w.grace, w.lag), v)
  {
    Onward(w, Brink(at, w.lag), b, Last(at + 2 * w.lag, KillAt(at, w.grace, w.lag), w.lag), v);
  }

  /** The child is alive a microsecond short of its grace and three lags after the launch. */
  lemma LingerPlays(w: World)
    requires Doomed(w)
    ensures Leads(w, Linger(w.db.now, w.grace, w.lag), Lingered(w, KillAt(w.db.now, w.grace, w.lag)))
  {
    var at, killAt := w.db.now, KillAt(w.db.now, w.grace, w.lag);
    BrinkPlays(w);
    LastPlays(w, at + 2 * w.lag, killAt);
    LingerFrom(w, at, StoppingAt(w, killAt, at + 2 * w.lag), Lingered(w, killAt));
  }

  // ---- The second attempt ---------------------------------------------------------------------

  /** The first attempt failed, and its run may be retried from this moment on. */
  predicate Retried(s: State, due: Time) {
    && s.runs.Keys == {1} && s.runs[1].status.RetryWait? && s.runs[1].availableAt == due
    && s.attempts.Keys == {7} && s.attempts[7].run == 1 && s.attempts[7].status.Failed?
    && s.attempts[7].worker == KUBERNETES
  }

  /** A second attempt of the same run executes. */
  predicate Replaced(s: State) {
    && 1 in s.runs && 7 in s.attempts && s.attempts[7].run == 1 && s.attempts[7].status.Failed?
    && 8 in s.attempts && s.attempts[8].run == 1 && s.attempts[8].status.Starting?
  }

  predicate BackInQueue(s: State) {
    && s.runs.Keys == {1} && s.runs[1].status.Queued? && s.runs[1].availableAt <= s.now
    && s.attempts.Keys == {7} && s.attempts[7].run == 1 && s.attempts[7].status.Failed?
    && s.attempts[7].worker == KUBERNETES
  }

  lemma RequeueReady(s: State, due: Time)
    requires Retried(s, due) && due <= s.now
    ensures BackInQueue(Requeue(s).state) && Requeue(s).state.now == s.now
  {
    assert RetryDue(s, s.runs[1]);
  }

  lemma AdmitReplaces(s: State)
    requires BackInQueue(s)
    ensures Replaced(Admit(s, 100, 8, {}).state) && Admit(s, 100, 8, {}).state.now == s.now
  {
    assert Pending(s.attempts, KUBERNETES) <= {7};
    Subset(Pending(s.attempts, KUBERNETES), {7});
    AdmitsOnly(s, 100, 8, 1);
    LaunchIs(s, 1, 8, KUBERNETES);
  }

  /** A child lives while another attempt of its run executes. */
  ghost predicate Overlaps(w: World) { Alive(w) && exists b :: Second(w.db, w.owner.attempt, b) }

  lemma ReplacedOverlaps(w: World)
    requires w.supervisor.Stopping? && w.owner.attempt == 7 && Replaced(w.db)
    ensures Overlaps(w)
  {
    assert Second(w.db, 7, 8);
  }

  const AGAIN: seq<Action> := [] + [Database(RequeueOp)] + [Database(AdmitOp(100, 8, {}))]

  function RequeuedWorld(w: World): World { w.(db := Requeue(w.db).state) }

  ghost function AgainWorld(w: World): World { w.(db := Admit(Requeue(w.db).state, 100, 8, {}).state) }

  lemma RequeueAct(w: World)
    requires InTime(w, w.db.now)
    ensures Act(w, Database(RequeueOp)) == RequeuedWorld(w)
  {
    ControlDispatch(w.db, RequeueOp);
    CommitAct(w, RequeueOp);
  }

  lemma AdmitAct(w: World)
    requires InTime(w, w.db.now) && BackInQueue(w.db)
    ensures Act(w, Database(AdmitOp(100, 8, {}))) == w.(db := Admit(w.db, 100, 8, {}).state)
  {
    AdmitReplaces(w.db);
    KubernetesDispatch(w.db, AdmitOp(100, 8, {}));
    CommitAct(w, AdmitOp(100, 8, {}));
  }

  lemma AgainPlays(w: World, due: Time)
    requires InTime(w, w.db.now) && Retried(w.db, due) && due <= w.db.now
    ensures Leads(w, AGAIN, AgainWorld(w)) && Replaced(AgainWorld(w).db)
  {
    RequeueReady(w.db, due);
    RequeueAct(w);
    AdmitAct(RequeuedWorld(w));
    AdmitReplaces(Requeue(w.db).state);
    Stays(w);
    Next(w, [], w, Database(RequeueOp), RequeuedWorld(w));
    Next(w, [] + [Database(RequeueOp)], RequeuedWorld(w), Database(AdmitOp(100, 8, {})), AgainWorld(w));
  }

  /** From a doomed child whose run may be retried in time, two children at once. */
  lemma DoomedOverlaps(w: World, due: Time)
    requires Doomed(w) && w.owner.attempt == 7
    requires Retried(w.db, due) && due < KillAt(w.db.now, w.grace, w.lag) + w.lag
    ensures
      var v := AgainWorld(Lingered(w, KillAt(w.db.now, w.grace, w.lag)));
      Leads(w, Linger(w.db.now, w.grace, w.lag) + AGAIN, v) && Overlaps(v)
  {
    var l := Lingered(w, KillAt(w.db.now, w.grace, w.lag));
    LingerPlays(w);
    AgainPlays(l, due);
    Onward(w, Linger(w.db.now, w.grace, w.lag), l, AGAIN, AgainWorld(l));
    ReplacedOverlaps(AgainWorld(l));
  }

  // ---- A timeout ------------------------------------------------------------------------------

  lemma ShortestIsFirst(t: Timing)
    ensures RetryDelay(1, t.retryBase, t.retryMax) == ShortestDelay(t)
  {
    BackoffDoublesToCap(1, t.retryBase, t.retryMax);
  }

  /** At its execution deadline the attempt is closed, and its run waits for the shortest delay. */
  lemma RecoveryRetries(s: State, t: Timing)
    requires JustClaimed(s.(now := 0), Job(1, 0), t) && s.now == Seconds(1)
    ensures Fault(s, 7) == Some(Verdict(Timeout, "TIMEOUT"))
    ensures RecoverOne(s, 7).state.now == s.now
    ensures Retried(RecoverOne(s, 7).state, Seconds(1 + ShortestDelay(t)))
  {
    ShortestIsFirst(t);
  }

  /** When its Job is gone, likewise. */
  lemma StoppedRetries(s: State, t: Timing)
    requires JustClaimed(s, Job(1, 0), t)
    ensures KubernetesStopped(s, 7).state.now == s.now
    ensures Retried(KubernetesStopped(s, 7).state, Seconds(ShortestDelay(t)))
    ensures KubernetesStopped(s, 7).state.attempts == map[7 := FailedRow(s.attempts[7], "RUNTIME_STOPPED", None)]
  {
    ShortestIsFirst(t);
  }

  const EXPIRE: seq<Action> := [] + [Database(TickOp(Seconds(1)))] + [LaunchChild] + [Database(RecoverOp(7))]

  /** The child of an answered runner is launched at its time limit, and recovery comes right after. */
  ghost function Expired(w: World): World {
    w.(db := RecoverOne(w.db.(now := Seconds(1)), 7).state,
       supervisor := Watching(Seconds(1), Seconds(1)), launched := Some(Seconds(1)))
  }

  lemma RecoverAct(w: World)
    requires InTime(w, w.db.now) && RecoverOne(w.db, 7).state.now == w.db.now
    ensures Act(w, Database(RecoverOp(7))) == w.(db := RecoverOne(w.db, 7).state)
  {
    ControlDispatch(w.db, RecoverOp(7));
    CommitAct(w, RecoverOp(7));
  }

  /** Answered at time zero, nothing launched yet. */
  predicate Guarded(w: World, t: Timing) {
    && JustClaimed(w.db, Job(1, 0), t) && LoaderAdmits(t, w.grace, w.lag)
    && w.offset == 0 && w.sent == 0 && w.timeout == 1 && w.owner.attempt == 7
    && w.guard == Some(Guard((t.lease - 2) * 1000, false)) && w.supervisor.Unlaunched?
  }

  lemma ExpirePlays(w: World, t: Timing)
    requires Guarded(w, t) && w.grace + 3 < t.lease
    ensures Leads(w, EXPIRE, Expired(w))
  {
    var a := w.(db := w.db.(now := Seconds(1)));
    var b := a.(supervisor := Watching(Seconds(1), Seconds(1)), launched := Some(Seconds(1)));
    TickAct(w, Seconds(1));
    NearExpiryIsExact(w.guard.value.until, Now(a), w.grace);
    LaunchAct(a);
    assert a.db.(now := 0) == w.db;
    RecoveryRetries(a.db, t);
    RecoverAct(b);
    Stays(w);
    Next(w, [], w, Database(TickOp(Seconds(1))), a);
    Next(w, [] + [Database(TickOp(Seconds(1)))], a, LaunchChild, b);
    Next(w, [] + [Database(TickOp(Seconds(1)))] + [LaunchChild], b, Database(RecoverOp(7)), Expired(w));
  }

  lemma ExpiredIsDoomed(w: World, t: Timing)
    requires Guarded(w, t)
    ensures Doomed(Expired(w)) && Retried(Expired(w).db, Seconds(1 + ShortestDelay(t)))
    ensures Expired(w).db.now == Seconds(1)
  {
    assert w.db.(now := Seconds(1)).(now := 0) == w.db;
    RecoveryRetries(w.db.(now := Seconds(1)), t);
  }

  /** The last moment at which the guard still lets a child be launched. */
  function Edge(t: Timing, grace: int): Time { Seconds(t.lease - 2 - grace) - 1 }

  function LoseJob(t: Timing, grace: int): seq<Action> {
    [] + [Database(KubernetesStoppedOp(7))] + [Database(TickOp(Edge(t, grace)))] + [LaunchChild]
  }

  /** The Job of an answered runner is reported gone, and its child launched at the last moment. */
  ghost function Lost(w: World, t: Timing): World {
    var at := Edge(t, w.grace);
    w.(db := KubernetesStopped(w.db, 7).state.(now := at), supervisor := Watching(at, at), launched := Some(at))
  }

  lemma StoppedAct(w: World)
    requires InTime(w, w.db.now) && KubernetesStopped(w.db, 7).state.now == w.db.now
    ensures Act(w, Database(KubernetesStoppedOp(7))) == w.(db := KubernetesStopped(w.db, 7).state)
  {
    KubernetesDispatch(w.db, KubernetesStoppedOp(7));
    CommitAct(w, KubernetesStoppedOp(7));
  }

  lemma EdgeLaunches(w: World, t: Timing)
    requires w.offset == 0 && w.db.now == Edge(t, w.grace) && w.supervisor.Unlaunched?
    requires w.guard == Some(Guard((t.lease - 2) * 1000, false)) && w.grace + 2 < t.lease && 0 < w.grace
    ensures Act(w, LaunchChild) == w.(supervisor := Watching(w.db.now, w.db.now), launched := Some(w.db.now))
  {
    NearExpiryIsExact(w.guard.value.until, Now(w), w.grace);
    LaunchAct(w);
  }

  lemma LoseJobPlays(w: World, t: Timing)
    requires Guarded(w, t)
    ensures Leads(w, LoseJob(t, w.grace), Lost(w, t))
  {
    var at := Edge(t, w.grace);
    var a := w.(db := KubernetesStopped(w.db, 7).state);
    var b := a.(db := a.db.(now := at));
    StoppedRetries(w.db, t);
    StoppedAct(w);
    TickAct(a, at);
    EdgeLaunches(b, t);
    LoseJobChain(w, t, a, b);
  }

  lemma LoseJobChain(w: World, t: Timing, a: World, b: World)
    requires Act(w, Database(KubernetesStoppedOp(7))) == a && Act(a, Database(TickOp(Edge(t, w.grace)))) == b
    ensures Leads(w, LoseJob(t, w.grace), Act(b, LaunchChild))
  {
    var at := Edge(t, w.grace);
    Stays(w);
    Next(w, [], w, Database(KubernetesStoppedOp(7)), a);
    Next(w, [] + [Database(KubernetesStoppedOp(7))], a, Database(TickOp(at)), b);
    Next(w, [] + [Database(KubernetesStoppedOp(7))] + [Database(TickOp(at))], b, LaunchChild, Act(b, LaunchChild));
  }

  lemma LostIsDoomed(w: World, t: Timing)
    requires Guarded(w, t)
    ensures Doomed(Lost(w, t)) && Retried(Lost(w, t).db, Seconds(ShortestDelay(t)))
    ensures Lost(w, t).db.now == Edge(t, w.grace)
  {
    StoppedRetries(w.db, t);
    NearExpiryIsExact(w.guard.value.until, Edge(t, w.grace) + w.lag, w.grace);
  }

  // ---- The settings that keep children apart --------------------------------------------------

  function TimeoutPlay(grace: int, lag: Time): seq<Action>
    requires 0 < lag
  {
    CLAIM + EXPIRE + (Linger(Seconds(1), grace, lag) + AGAIN)
  }

  function StopPlay(t: Timing, grace: int, lag: Time): seq<Action>
    requires 0 < lag
  {
    CLAIM + LoseJob(t, grace) + (Linger(Edge(t, grace), grace, lag) + AGAIN)
  }

  lemma ClaimIsGuarded(w: World, t: Timing)
    requires AboutToClaim(w, t)
    ensures Guarded(Answered0(w, t), t) && Leads(w, CLAIM, Answered0(w, t))
  {
    ClaimPlays(w, t);
  }

  lemma TimeoutOverlaps(w: World, t: Timing)
    requires AboutToClaim(w, t) && w.grace + 3 < t.lease && !DelayCoversGrace(t, w.grace, w.lag)
    ensures Overlaps(Play(w, TimeoutPlay(w.grace, w.lag))) && Prompt(Play(w, TimeoutPlay(w.grace, w.lag)))
  {
    var a, rest := Answered0(w, t), Linger(Seconds(1), w.grace, w.lag) + AGAIN;
    var e := Expired(a);
    ClaimIsGuarded(w, t);
    ExpirePlays(a, t);
    ExpiredIsDoomed(a, t);
    DoomedOverlaps(e, Seconds(1 + ShortestDelay(t)));
    Onward(w, CLAIM, a, EXPIRE, e);
    Onward(w, CLAIM + EXPIRE, e, rest, AgainWorld(Lingered(e, KillAt(Seconds(1), w.grace, w.lag))));
  }

  lemma StopOverlaps(w: World, t: Timing)
    requires AboutToClaim(w, t) && !DelayCoversLease(t, w.lag)
    ensures Overlaps(Play(w, StopPlay(t, w.grace, w.lag)))
  {
    var a, rest := Answered0(w, t), Linger(Edge(t, w.grace), w.grace, w.lag) + AGAIN;
    var e := Lost(a, t);
    ClaimIsGuarded(w, t);
    LoseJobPlays(a, t);
    LostIsDoomed(a, t);
    DoomedOverlaps(e, Seconds(ShortestDelay(t)));
    Onward(w, CLAIM, a, LoseJob(t, w.grace), e);
    Onward(w, CLAIM + LoseJob(t, w.grace), e, rest,
           AgainWorld(Lingered(e, KillAt(Edge(t, w.grace), w.grace, w.lag))));
  }

  /** The only transactions of the play besides the runner's own requests. */
  predicate Harmless(actions: seq<Action>) {
    forall i | 0 <= i < |actions| :: actions[i].Database? ==>
      actions[i].op.TickOp? || actions[i].op.RecoverOp? || actions[i].op.RequeueOp? || actions[i].op.AdmitOp?
  }

  lemma {:induction false} RoundsAreHarmless(now: Time, to: Time, lag: Time)
    requires 0 < lag
    ensures Harmless(Rounds(now, to, lag))
    decreases if to > now then to - now else 0
  {
    if to - now > lag {
      RoundsAreHarmless(now, to - lag, lag);
    }
  }

  lemma TimeoutPlayIsUntouched(owner: Owner, grace: int, lag: Time)
    requires 0 < lag
    ensures Untouched(owner, TimeoutPlay(grace, lag))
  {
    var at, killAt := Seconds(1), KillAt(Seconds(1), grace, lag);
    RoundsAreHarmless(at + 2 * lag, killAt - 1, lag);
    assert Harmless(Brink(at, lag)) && Harmless(Last(at + 2 * lag, killAt, lag));
    assert Harmless(Linger(at, grace, lag) + AGAIN) && Harmless(CLAIM + EXPIRE);
    assert Harmless(TimeoutPlay(grace, lag));
  }

  /** Whoever plays by the rules: nobody ends or finalizes the attempt before its child is gone. */
  ghost predicate Regular(w: World, actions: seq<Action>) {
    Initial(w) && Told(w) && Untouched(w.owner, actions) && Prompt(Play(w, actions))
  }

  predicate Configured(w: World, t: Timing, grace: int, lag: Time) {
    w.db.timing == t && w.grace == grace && w.lag == lag
  }

  /** With these settings no regular play has two children of one run alive at once. */
  ghost predicate ApartWhenRegular(t: Timing, grace: int, lag: Time) {
    forall w, actions | Configured(w, t, grace, lag) && Regular(w, actions) :: !Overlaps(Play(w, actions))
  }

  /** With these settings no play at all has. */
  ghost predicate ApartAlways(t: Timing, grace: int, lag: Time) {
    forall w, actions | Configured(w, t, grace, lag) && Initial(w) :: !Overlaps(Play(w, actions))
  }

  lemma RunnerIsReady(t: Timing, grace: int, lag: Time)
    requires LoaderAdmits(t, grace, lag)
    ensures
      var w := Runner(t, grace, lag);
      AboutToClaim(w, t) && Initial(w) && Told(w) && Configured(w, t, grace, lag) && FromEmpty(w.db, t)
  {
    RunnerIsInitial(t, grace, lag);
  }

  /** What the operator can check: the retry delay covers the grace and three lags, or children may meet. */
  lemma DelaySeparates(t: Timing, grace: int, lag: Time)
    requires LoaderAdmits(t, grace, lag) && grace + 3 < t.lease && 3 * lag <= Seconds(2)
    ensures ApartWhenRegular(t, grace, lag) <==> DelayCoversGrace(t, grace, lag)
  {
    if DelayCoversGrace(t, grace, lag) {
      forall w, actions | Configured(w, t, grace, lag) && Regular(w, actions)
        ensures !Overlaps(Play(w, actions))
      {
        ExclusiveByDelay(w, actions);
      }
    } else {
      var w := Runner(t, grace, lag);
      RunnerIsReady(t, grace, lag);
      TimeoutOverlaps(w, t);
      TimeoutPlayIsUntouched(w.owner, grace, lag);
      assert Regular(w, TimeoutPlay(grace, lag));
    }
  }

  /** And with no rule for anybody: the retry delay covers the lease, less two seconds, and three lags. */
  lemma LeaseSeparates(t: Timing, grace: int, lag: Time)
    requires LoaderAdmits(t, grace, lag)
    ensures ApartAlways(t, grace, lag) <==> DelayCoversLease(t, lag)
  {
    if DelayCoversLease(t, lag) {
      forall w, actions | Configured(w, t, grace, lag) && Initial(w)
        ensures !Overlaps(Play(w, actions))
      {
        ExclusiveByLease(w, actions);
      }
    } else {
      RunnerIsReady(t, grace, lag);
      StopOverlaps(Runner(t, grace, lag), t);
    }
  }

  // ---- With the default settings --------------------------------------------------------------

  const GRACE: int := 10
  const LAG: Time := 20000

  /** The settings the loader falls back to let two children meet, after a timeout or a lost Job. */
  lemma DefaultsOverlap()
    ensures
      var w := Runner(DEFAULTS, GRACE, LAG);
      && Regular(w, TimeoutPlay(GRACE, LAG)) && FromEmpty(w.db, DEFAULTS)
      && Overlaps(Play(w, TimeoutPlay(GRACE, LAG))) && Overlaps(Play(w, StopPlay(DEFAULTS, GRACE, LAG)))
  {
    var w := Runner(DEFAULTS, GRACE, LAG);
    RunnerIsReady(DEFAULTS, GRACE, LAG);
    TimeoutOverlaps(w, DEFAULTS);
    TimeoutPlayIsUntouched(w.owner, GRACE, LAG);
    StopOverlaps(w, DEFAULTS);
  }

  const LOST: seq<Action> := [] + [LaunchChild] + [Database(KubernetesStoppedOp(7))]

  ghost function LaunchedAtOnce(w: World): World {
    w.(supervisor := Watching(w.db.now, w.db.now), launched := Some(w.db.now))
  }

  /** A child lives in time and validly leased, its attempt is closed and its run to be retried. */
  predicate ClosedInTime(w: World) {
    && Lives(w) && w.owner.attempt == 7
    && var a := w.db.attempts[7];
    && a.status.Failed? && a.run in w.db.runs && w.db.runs[a.run].status.RetryWait?
    && LeaseValid(a, w.db.now) && DeadlineValid(a, w.db.now)
  }

  ghost function LostAtOnce(w: World): World { LaunchedAtOnce(w).(db := KubernetesStopped(w.db, 7).state) }

  lemma LostPlays(w: World)
    requires Guarded(w, DEFAULTS) && w.grace == GRACE
    ensures Leads(w, LOST, LostAtOnce(w))
  {
    var b := LaunchedAtOnce(w);
    LaunchAct(w);
    StoppedRetries(w.db, DEFAULTS);
    StoppedAct(b);
    Stays(w);
    Next(w, [], w, LaunchChild, b);
    Next(w, [] + [LaunchChild], b, Database(KubernetesStoppedOp(7)), LostAtOnce(w));
  }

  lemma LostIsClosed(w: World)
    requires Guarded(w, DEFAULTS)
    ensures ClosedInTime(LostAtOnce(w))
  {
    StoppedRetries(w.db, DEFAULTS);
  }

  /**
   * A report that the Job is gone closes the attempt of a living child whose lease and deadline
   * are still valid.
   */
  lemma StoppedWhileAlive()
    ensures ClosedInTime(Play(Runner(DEFAULTS, GRACE, LAG), CLAIM + LOST))
  {
    var w := Runner(DEFAULTS, GRACE, LAG);
    var a := Answered0(w, DEFAULTS);
    RunnerIsReady(DEFAULTS, GRACE, LAG);
    ClaimIsGuarded(w, DEFAULTS);
    LostPlays(a);
    LostIsClosed(a);
    Onward(w, CLAIM, a, LOST, LostAtOnce(a));
  }

  // ---- The deadline ---------------------------------------------------------------------------

  /** Launched at once, watched, and now it is one second later than the claim. */
  const SUPERVISE: seq<Action> :=
    [] + [LaunchChild] + [Database(TickOp(600000))] + [Check(false)] + [PollChild(false)]
      + [Database(TickOp(Seconds(1)))]

  ghost function Watched(w: World): World {
    w.(db := w.db.(now := Seconds(1)), launched := Some(0), supervisor := Watching(600000, 600000))
  }

  lemma SupervisePlays(w: World)
    requires Guarded(w, DEFAULTS) && w.grace == GRACE && w.lag == 600000
    ensures Leads(w, SUPERVISE, Watched(w))
  {
    var b := LaunchedAtOnce(w);
    var c := b.(db := b.db.(now := 600000));
    var d := c.(supervisor := Watching(600000, 0));
    var e := c.(supervisor := Watching(600000, 600000));
    LaunchAct(w);
    TickAct(b, 600000);
    CheckAct(c);
    PollAct(d);
    TickAct(e, Seconds(1));
    Stays(w);
    Next(w, [], w, LaunchChild, b);
    Next(w, [] + [LaunchChild], b, Database(TickOp(600000)), c);
    Next(w, [] + [LaunchChild] + [Database(TickOp(600000))], c, Check(false), d);
    Next(w, [] + [LaunchChild] + [Database(TickOp(600000))] + [Check(false)], d, PollChild(false), e);
    Next(w, [] + [LaunchChild] + [Database(TickOp(600000))] + [Check(false)] + [PollChild(false)],
         e, Database(TickOp(Seconds(1))), Watched(w));
  }

  /**
   * The execution deadline passes in the database while the child is alive, uncancelled, in time
   * and validly leased: recovery finds a TIMEOUT, although the runner has not even tripped.
   */
  lemma TimeoutWhileAlive()
    ensures Initial(Runner(DEFAULTS, GRACE, 600000)) && 3 * Runner(DEFAULTS, GRACE, 600000).lag <= Seconds(2)
    ensures
      var w := Play(Runner(DEFAULTS, GRACE, 600000), CLAIM + SUPERVISE);
      && Lives(w) && w.supervisor.Watching? && Fault(w.db, 7) == Some(Verdict(Timeout, "TIMEOUT"))
      && LeaseValid(w.db.attempts[7], w.db.now)
  {
    var w := Runner(DEFAULTS, GRACE, 600000);
    var a := Answered0(w, DEFAULTS);
    RunnerIsReady(DEFAULTS, GRACE, 600000);
    ClaimIsGuarded(w, DEFAULTS);
    SupervisePlays(a);
    Onward(w, CLAIM, a, SUPERVISE, Watched(a));
    assert Watched(a).db.(now := 0) == a.db;
    RecoveryRetries(Watched(a).db, DEFAULTS);
  }

  const LATE: seq<Action> := [] + [Database(TickOp(Seconds(13)))] + [LaunchChild]

  lemma LatePlays(w: World)
    requires Guarded(w, DEFAULTS) && w.grace == GRACE
    ensures Leads(w, LATE, LaunchedAtOnce(w.(db := w.db.(now := Seconds(13)))))
  {
    var b := w.(db := w.db.(now := Seconds(13)));
    TickAct(w, Seconds(13));
    LaunchAct(b);
    Stays(w);
    Next(w, [], w, Database(TickOp(Seconds(13))), b);
    Next(w, [] + [Database(TickOp(Seconds(13)))], b, LaunchChild, LaunchedAtOnce(b));
  }

  /** A child launched late is alive past its deadline, its grace and three lags, counted from the claim. */
  lemma DeadlineAloneIsNoBound()
    ensures
      var w := Play(Runner(DEFAULTS, GRACE, LAG), CLAIM + LATE);
      Alive(w) && Now(w) >= w.sent + Seconds(w.timeout) + Seconds(w.grace) + 3 * w.lag
  {
    var w := Runner(DEFAULTS, GRACE, LAG);
    var a := Answered0(w, DEFAULTS);
    RunnerIsReady(DEFAULTS, GRACE, LAG);
    ClaimIsGuarded(w, DEFAULTS);
    LatePlays(a);
    Onward(w, CLAIM, a, LATE, LaunchedAtOnce(a.(db := a.db.(now := Seconds(13)))));
  }
}
