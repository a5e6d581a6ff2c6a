/** What one round of an agent's loop achieves when nothing falls between its steps. */
module Rounds {
  import opened Base
  import opened Domain
  import opened Tables
  import opened Transactions
  import opened Invariants
  import opened Recovery
  import opened Agent
  import D = Decisions

  /** Each element once: an order in which a loop may go through a set. */
  ghost predicate Orders(order: seq<Id>, ids: set<Id>) {
    && (forall a :: a in order <==> a in ids)
    && (forall i, j | 0 <= i < j < |order| :: order[i] != order[j])
  }

  lemma OrderIsAll(order: seq<Id>, ids: set<Id>)
    requires Orders(order, ids)
    ensures {} == ids - (set a | a in order)
  {
    assert forall a | a in ids :: a in (set x | x in order);
  }

  function Stops(worker: Id, order: seq<Id>): seq<Action> {
    if order == [] then [] else Stops(worker, order[..|order| - 1]) + [Stop(worker, order[|order| - 1])]
  }

  function Removals(worker: Id, order: seq<Id>): seq<Action> {
    if order == [] then []
    else Removals(worker, order[..|order| - 1]) + [Remove(worker, order[|order| - 1])] + [Send(worker)]
  }

  /** Observe and stop, list and poll, clean up, launch. */
  function Round(worker: Id, stops: seq<Id>, listed: seq<Id>, id: Id, skipped: set<Id>, replayed: Id): seq<Action> {
    [Observe(worker)] + [Reconcile(worker)] + Stops(worker, stops)
    + [ListCleanup(worker)] + [Poll(worker, id, skipped, replayed)]
    + Removals(worker, listed) + [StartContainer(worker)]
  }

  lemma {:induction false} PlayAppend(w: World, first: seq<Action>, second: seq<Action>)
    ensures Play(w, first + second) == Play(Play(w, first), second)
    decreases |second|
  {
    if second == [] {
      assert first + second == first;
    } else {
      var n := |second| - 1;
      PlayAppend(w, first, second[..n]);
      assert (first + second)[..|first + second| - 1] == first + second[..n];
    }
  }

  lemma PlayOne(w: World, done: seq<Action>, action: Action)
    ensures Play(w, done + [action]) == Act(Play(w, done), action)
  {
    assert (done + [action])[..|done|] == done;
  }

  // ---- The loops ------------------------------------------------------------------------------

  /** The containers without those of these attempts. */
  function Without(containers: map<Slot, set<Id>>, worker: Id, ids: seq<Id>): map<Slot, set<Id>> {
    map k | k in containers && !(k.worker == worker && k.attempt in ids) :: containers[k]
  }

  function After(worker: Id, ids: seq<Id>, session: string): set<StopReport> {
    set a | a in ids :: StopReport(worker, session, a)
  }

  lemma WithoutOneMore(containers: map<Slot, set<Id>>, worker: Id, ids: seq<Id>)
    requires ids != []
    ensures Without(containers, worker, ids)
            == Without(containers, worker, ids[..|ids| - 1]) - {Slot(worker, ids[|ids| - 1])}
  {
    assert forall a :: a in ids <==> a in ids[..|ids| - 1] || a == ids[|ids| - 1];
  }

  lemma {:induction false} StopLoop(w: World, worker: Id, order: seq<Id>, rest: set<Id>)
    requires worker in w.agents && w.agents[worker].phase.Stopping?
    requires forall i, j | 0 <= i < j < |order| :: order[i] != order[j]
    requires forall a | a in order :: a in w.agents[worker].phase.stops
    requires rest == w.agents[worker].phase.stops - (set a | a in order)
    ensures Play(w, Stops(worker, order))
            == Enter(w.(containers := Without(w.containers, worker, order)), worker, Stopping(rest))
    decreases |order|
  {
    if order == [] {
      assert rest == w.agents[worker].phase.stops;
      assert Without(w.containers, worker, []) == w.containers;
      assert w.agents[worker := w.agents[worker].(phase := Stopping(rest))] == w.agents;
    } else {
      var n := |order| - 1;
      var a := order[n];
      var before := w.agents[worker].phase.stops - (set x | x in order[..n]);
      StopLoop(w, worker, order[..n], before);
      PlayOne(w, Stops(worker, order[..n]), Stop(worker, a));
      WithoutOneMore(w.containers, worker, order);
      assert a in before;
      assert rest == before - {a};
      StopOne(w, worker, order, before, a);
    }
  }

  lemma StopOne(w: World, worker: Id, order: seq<Id>, before: set<Id>, a: Id)
    requires worker in w.agents && order != [] && a == order[|order| - 1] && a in before
    requires Without(w.containers, worker, order)
             == Without(w.containers, worker, order[..|order| - 1]) - {Slot(worker, a)}
    ensures
      var kept := w.(containers := Without(w.containers, worker, order[..|order| - 1]));
      Act(Enter(kept, worker, Stopping(before)), Stop(worker, a))
      == Enter(w.(containers := Without(w.containers, worker, order)), worker, Stopping(before - {a}))
  {
  }

  lemma {:induction false} RemovalLoop(w: World, worker: Id, order: seq<Id>, rest: set<Id>)
    requires worker in w.agents && w.agents[worker].phase.Working? && w.agents[worker].phase.cleared.None?
    requires forall i, j | 0 <= i < j < |order| :: order[i] != order[j]
    requires forall a | a in order :: a in w.agents[worker].phase.todo
    requires rest == w.agents[worker].phase.todo - (set a | a in order)
    ensures
      var p := w.agents[worker];
      Play(w, Removals(worker, order))
      == Enter(w.(containers := Without(w.containers, worker, order), sent := w.sent + After(worker, order, p.session)),
               worker, Working(rest, None, p.phase.work))
    decreases |order|
  {
    var p := w.agents[worker];
    if order == [] {
      assert rest == p.phase.todo;
      assert Without(w.containers, worker, []) == w.containers;
      assert w.sent + After(worker, [], p.session) == w.sent;
      assert w.agents[worker := p.(phase := Working(rest, None, p.phase.work))] == w.agents;
    } else {
      var n := |order| - 1;
      var a := order[n];
      var before := p.phase.todo - (set x | x in order[..n]);
      RemovalLoop(w, worker, order[..n], before);
      var done := Removals(worker, order[..n]);
      PlayOne(w, done, Remove(worker, a));
      PlayOne(w, done + [Remove(worker, a)], Send(worker));
      WithoutOneMore(w.containers, worker, order);
      assert a in before;
      assert rest == before - {a};
      AfterOneMore(worker, order, p.session);
      RemoveOne(w, worker, order, before, a, p.phase.work);
    }
  }

  lemma AfterOneMore(worker: Id, ids: seq<Id>, session: string)
    requires ids != []
    ensures After(worker, ids, session)
            == After(worker, ids[..|ids| - 1], session) + {StopReport(worker, session, ids[|ids| - 1])}
  {
    assert forall a :: a in ids <==> a in ids[..|ids| - 1] || a == ids[|ids| - 1];
  }

  lemma RemoveOne(w: World, worker: Id, order: seq<Id>, before: set<Id>, a: Id, work: Option<Work>)
    requires worker in w.agents && order != [] && a == order[|order| - 1] && a in before
    requires Without(w.containers, worker, order)
             == Without(w.containers, worker, order[..|order| - 1]) - {Slot(worker, a)}
    requires
      var session := w.agents[worker].session;
      After(worker, order, session)
      == After(worker, order[..|order| - 1], session) + {StopReport(worker, session, a)}
    ensures
      var session := w.agents[worker].session;
      var kept := w.(containers := Without(w.containers, worker, order[..|order| - 1]),
                     sent := w.sent + After(worker, order[..|order| - 1], session));
      Act(Act(Enter(kept, worker, Working(before, None, work)), Remove(worker, a)), Send(worker))
      == Enter(w.(containers := Without(w.containers, worker, order),
                  sent := w.sent + After(worker, order, session)),
               worker, Working(before - {a}, None, work))
  {
  }

  // ---- The round ------------------------------------------------------------------------------

  /** The attempt that this poll hands out, if it hands one out. */
  ghost function HandedOut(w: World, worker: Id, id: Id, skipped: set<Id>, replayed: Id): Option<Id>
    requires worker in w.agents
  {
    match Assign(w.db, worker, w.agents[worker].session, id, skipped).reply
    case Granted(a) => Some(a)
    case Replayed => Some(replayed)
    case _ => None
  }

  /** A current agent at the top of its loop, the orders its loops will take, and what its poll will name. */
  ghost predicate Undisturbed(w: World, worker: Id, stops: seq<Id>, listed: seq<Id>, id: Id, skipped: set<Id>, replayed: Id) {
    && worker in w.agents && w.agents[worker].phase == Resting
    && Session(w.db, worker, w.agents[worker].session) && |Containers(w, worker)| <= 1000
    && Orders(stops, ToStop(w.db, Containers(w, worker)))
    && Orders(listed, CleanupList(w.db, worker))
    && Answerable(w, worker, id, skipped, replayed)
  }

  ghost predicate Answerable(w: World, worker: Id, id: Id, skipped: set<Id>, replayed: Id)
    requires worker in w.agents
  {
    && id !in w.db.attempts
    && (Assign(w.db, worker, w.agents[worker].session, id, skipped).reply == Replayed ==>
          Replayable(w.db, worker, replayed))
  }

  /** The worker's containers are those whose attempts execute, and the one just handed out, with its devices. */
  ghost predicate Tidy(w: World, worker: Id, handed: Option<Id>, w': World) {
    && (forall k: Slot | k.worker != worker ::
          (k in w'.containers <==> k in w.containers) && (k in w.containers ==> w'.containers[k] == w.containers[k]))
    && (forall k: Slot | k.worker == worker ::
          k in w'.containers <==>
          || handed == Some(k.attempt)
          || (k in w.containers && k.attempt in w.db.attempts && Active(w.db.attempts[k.attempt].status)))
    && (handed.Some? ==>
          w'.containers[Slot(worker, handed.value)] == AllocatedTo(w'.db.allocations, handed.value))
  }

  lemma Observed(w: World, worker: Id)
    requires worker in w.agents && w.agents[worker].phase == Resting
    requires Session(w.db, worker, w.agents[worker].session) && |Containers(w, worker)| <= 1000
    ensures Play(w, [Observe(worker)] + [Reconcile(worker)])
            == Enter(w, worker, Stopping(ToStop(w.db, Containers(w, worker))))
  {
    PlayOne(w, [], Observe(worker));
    assert [] + [Observe(worker)] == [Observe(worker)];
    PlayOne(w, [Observe(worker)], Reconcile(worker));
    ReconcileOne(w, worker);
  }

  lemma ReconcileOne(w: World, worker: Id)
    requires worker in w.agents && w.agents[worker].phase == Resting
    requires Session(w.db, worker, w.agents[worker].session) && |Containers(w, worker)| <= 1000
    ensures Act(Act(w, Observe(worker)), Reconcile(worker))
            == Enter(w, worker, Stopping(ToStop(w.db, Containers(w, worker))))
  {
    assert Act(w, Observe(worker)) == Enter(w, worker, Surveyed(Containers(w, worker)));
  }

  lemma Stopped(w: World, worker: Id, stops: seq<Id>)
    requires worker in w.agents && w.agents[worker].phase == Resting
    requires Session(w.db, worker, w.agents[worker].session) && |Containers(w, worker)| <= 1000
    requires Orders(stops, ToStop(w.db, Containers(w, worker)))
    ensures Play(w, [Observe(worker)] + [Reconcile(worker)] + Stops(worker, stops))
            == Enter(w.(containers := Without(w.containers, worker, stops)), worker, Stopping({}))
  {
    Observed(w, worker);
    PlayAppend(w, [Observe(worker)] + [Reconcile(worker)], Stops(worker, stops));
    AllStopped(w, worker, ToStop(w.db, Containers(w, worker)), stops);
  }

  lemma AllStopped(w: World, worker: Id, ids: set<Id>, stops: seq<Id>)
    requires worker in w.agents && Orders(stops, ids)
    ensures Play(Enter(w, worker, Stopping(ids)), Stops(worker, stops))
            == Enter(w.(containers := Without(w.containers, worker, stops)), worker, Stopping({}))
  {
    OrderIsAll(stops, ids);
    StopLoop(Enter(w, worker, Stopping(ids)), worker, stops, {});
  }

  ghost function WorkOf(w: World, worker: Id, id: Id, skipped: set<Id>, replayed: Id): Option<Work>
    requires worker in w.agents
  {
    var handed := HandedOut(w, worker, id, skipped, replayed);
    if handed.None? then None
    else Received(Assign(w.db, worker, w.agents[worker].session, id, skipped).state, handed.value)
  }

  ghost function AfterPoll(w: World, worker: Id, stops: seq<Id>, id: Id, skipped: set<Id>, replayed: Id): World
    requires worker in w.agents
  {
    Enter(w.(containers := Without(w.containers, worker, stops),
             db := Assign(w.db, worker, w.agents[worker].session, id, skipped).state),
          worker, Working(CleanupList(w.db, worker), None, WorkOf(w, worker, id, skipped, replayed)))
  }

  lemma AnswerIs(w: World, worker: Id, id: Id, skipped: set<Id>)
    requires worker in w.agents && Session(w.db, worker, w.agents[worker].session) && id !in w.db.attempts
    ensures
      var reply := Assign(w.db, worker, w.agents[worker].session, id, skipped).reply;
      reply == Idle || reply == Replayed || reply == Granted(id)
  {
  }

  lemma ListedAndPolled(m: World, worker: Id, id: Id, skipped: set<Id>, replayed: Id)
    requires worker in m.agents && m.agents[worker].phase == Stopping({})
    requires Session(m.db, worker, m.agents[worker].session) && id !in m.db.attempts
    requires Assign(m.db, worker, m.agents[worker].session, id, skipped).reply == Replayed ==>
      Replayable(m.db, worker, replayed)
    ensures
      Act(Act(m, ListCleanup(worker)), Poll(worker, id, skipped, replayed))
      == Enter(m.(db := Assign(m.db, worker, m.agents[worker].session, id, skipped).state), worker,
               Working(CleanupList(m.db, worker), None, WorkOf(m, worker, id, skipped, replayed)))
  {
    AnswerIs(m, worker, id, skipped);
    var listed := Enter(m, worker, Listed(CleanupList(m.db, worker)));
    assert Act(m, ListCleanup(worker)) == listed;
    PollDispatch(listed, Poll(worker, id, skipped, replayed), worker);
  }

  lemma Polled(w: World, worker: Id, stops: seq<Id>, id: Id, skipped: set<Id>, replayed: Id)
    requires worker in w.agents && Session(w.db, worker, w.agents[worker].session)
    requires Answerable(w, worker, id, skipped, replayed)
    ensures
      var m := Enter(w.(containers := Without(w.containers, worker, stops)), worker, Stopping({}));
      Act(Act(m, ListCleanup(worker)), Poll(worker, id, skipped, replayed))
      == AfterPoll(w, worker, stops, id, skipped, replayed)
  {
    var m := Enter(w.(containers := Without(w.containers, worker, stops)), worker, Stopping({}));
    ListedAndPolled(m, worker, id, skipped, replayed);
  }

  lemma AllRemoved(w: World, worker: Id, ids: set<Id>, work: Option<Work>, listed: seq<Id>)
    requires worker in w.agents && Orders(listed, ids)
    ensures
      Play(Enter(w, worker, Working(ids, None, work)), Removals(worker, listed))
      == Enter(w.(containers := Without(w.containers, worker, listed),
                  sent := w.sent + After(worker, listed, w.agents[worker].session)),
               worker, Working({}, None, work))
  {
    OrderIsAll(listed, ids);
    RemovalLoop(Enter(w, worker, Working(ids, None, work)), worker, listed, {});
  }

  /** The world that a round leaves: stopped and listed containers gone, reports sent, new work deployed. */
  ghost function AfterRound(
    w: World, worker: Id, stops: seq<Id>, listed: seq<Id>, id: Id, skipped: set<Id>, replayed: Id): World
    requires worker in w.agents
  {
    var p := AfterPoll(w, worker, stops, id, skipped, replayed);
    var cleaned := p.(containers := Without(p.containers, worker, listed),
                      sent := p.sent + After(worker, listed, w.agents[worker].session));
    var work := WorkOf(w, worker, id, skipped, replayed);
    Enter(if work.Some? then Ensure(cleaned, worker, work.value) else cleaned, worker, Resting)
  }

  lemma Started(w: World, worker: Id, work: Option<Work>)
    requires worker in w.agents
    ensures
      Act(Enter(w, worker, Working({}, None, work)), StartContainer(worker))
      == Enter(if work.Some? then Ensure(w, worker, work.value) else w, worker, Resting)
  {
  }

  lemma RoundIs(w: World, worker: Id, stops: seq<Id>, listed: seq<Id>, id: Id, skipped: set<Id>, replayed: Id)
    requires Undisturbed(w, worker, stops, listed, id, skipped, replayed)
    ensures Play(w, Round(worker, stops, listed, id, skipped, replayed))
            == AfterRound(w, worker, stops, listed, id, skipped, replayed)
  {
    Stopped(w, worker, stops);
    Polled(w, worker, stops, id, skipped, replayed);
    var ids, work := CleanupList(w.db, worker), WorkOf(w, worker, id, skipped, replayed);
    var p := AfterPoll(w, worker, stops, id, skipped, replayed);
    assert Enter(p, worker, Working(ids, None, work)) == p;
    AllRemoved(p, worker, ids, work, listed);
    var cleaned := p.(containers := Without(p.containers, worker, listed),
                      sent := p.sent + After(worker, listed, w.agents[worker].session));
    Started(cleaned, worker, work);
    RoundParts(w, worker, stops, listed, id, skipped, replayed);
  }

  lemma RoundParts(w: World, worker: Id, stops: seq<Id>, listed: seq<Id>, id: Id, skipped: set<Id>, replayed: Id)
    ensures
      var stopped := Play(w, [Observe(worker)] + [Reconcile(worker)] + Stops(worker, stops));
      var polled := Act(Act(stopped, ListCleanup(worker)), Poll(worker, id, skipped, replayed));
      Play(w, Round(worker, stops, listed, id, skipped, replayed))
      == Act(Play(polled, Removals(worker, listed)), StartContainer(worker))
  {
    var done := [Observe(worker)] + [Reconcile(worker)] + Stops(worker, stops);
    PlayOne(w, done, ListCleanup(worker));
    var more := done + [ListCleanup(worker)];
    PlayOne(w, more, Poll(worker, id, skipped, replayed));
    var most := more + [Poll(worker, id, skipped, replayed)];
    PlayAppend(w, most, Removals(worker, listed));
    PlayOne(w, most + Removals(worker, listed), StartContainer(worker));
  }

  /** Every closed attempt of the worker that was not yet cleaned is reported as stopped. */
  ghost predicate Reported(w: World, worker: Id, w': World)
    requires worker in w.agents
  {
    forall m :: m in w'.sent <==>
      || m in w.sent
      || (m.worker == worker && m.session == w.agents[worker].session && D.ToClean(w.db, worker, m.attempt))
  }

  lemma RoundReports(w: World, worker: Id, stops: seq<Id>, listed: seq<Id>, id: Id, skipped: set<Id>, replayed: Id)
    requires Core(w.db) && worker in w.agents && Orders(listed, CleanupList(w.db, worker))
    ensures Reported(w, worker, AfterRound(w, worker, stops, listed, id, skipped, replayed))
  {
    D.CleanupDecides(w.db, worker);
    var session := w.agents[worker].session;
    assert AfterRound(w, worker, stops, listed, id, skipped, replayed).sent
           == w.sent + After(worker, listed, session);
    forall m: StopReport
      ensures m in After(worker, listed, session) <==>
        m.worker == worker && m.session == session && m.attempt in listed
    {
      assert m == StopReport(m.worker, m.session, m.attempt);
    }
  }

  lemma RoundReturns(w: World, worker: Id, stops: seq<Id>, listed: seq<Id>, id: Id, skipped: set<Id>, replayed: Id)
    requires worker in w.agents && w.agents[worker].phase == Resting
    ensures
      var w' := AfterRound(w, worker, stops, listed, id, skipped, replayed);
      && w'.agents == w.agents
      && w'.db == Assign(w.db, worker, w.agents[worker].session, id, skipped).state
  {
    assert w.agents[worker].(phase := Resting) == w.agents[worker];
  }

  /**
   * A round nobody disturbs does its work: afterwards the worker runs exactly the containers of its
   * executing attempts and of the one just handed out, and every closed attempt it had not yet
   * cleaned is reported as stopped.
   */
  lemma RoundWorks(w: World, worker: Id, stops: seq<Id>, listed: seq<Id>, id: Id, skipped: set<Id>, replayed: Id)
    requires WorldInv(w) && Undisturbed(w, worker, stops, listed, id, skipped, replayed)
    ensures
      var w' := Play(w, Round(worker, stops, listed, id, skipped, replayed));
      && w'.agents == w.agents
      && w'.db == Assign(w.db, worker, w.agents[worker].session, id, skipped).state
      && Tidy(w, worker, HandedOut(w, worker, id, skipped, replayed), w')
      && Reported(w, worker, w')
  {
    RoundIs(w, worker, stops, listed, id, skipped, replayed);
    RoundTidies(w, worker, stops, listed, id, skipped, replayed);
    RoundReports(w, worker, stops, listed, id, skipped, replayed);
    RoundReturns(w, worker, stops, listed, id, skipped, replayed);
  }

  lemma KeptIsExecuting(w: World, worker: Id, stops: seq<Id>, listed: seq<Id>, a: Id)
    requires Core(w.db) && ContainersOk(w.db, w.containers) && Slot(worker, a) in w.containers
    requires Orders(stops, ToStop(w.db, Containers(w, worker))) && Orders(listed, CleanupList(w.db, worker))
    ensures a in w.db.attempts
    ensures a !in stops && a !in listed <==> Active(w.db.attempts[a].status)
  {
    assert a in Containers(w, worker) by {
      assert Slot(worker, a).worker == worker;
    }
    assert Hosted(w.db, worker, a, w.containers[Slot(worker, a)]);
    D.StopDecides(w.db, a);
    assert a in stops <==> ShouldStop(w.db, a);
    assert a in listed <==> a in CleanupList(w.db, worker);
  }

  /** What is handed out was not there, or is there already with its own devices. */
  lemma HandedHasDevices(w: World, worker: Id, id: Id, skipped: set<Id>, replayed: Id)
    requires WorldInv(w) && worker in w.agents && Answerable(w, worker, id, skipped, replayed)
    requires Session(w.db, worker, w.agents[worker].session)
    requires HandedOut(w, worker, id, skipped, replayed).Some?
    ensures
      var a := HandedOut(w, worker, id, skipped, replayed).value;
      var slot := Slot(worker, a);
      var db' := Assign(w.db, worker, w.agents[worker].session, id, skipped).state;
      slot in w.containers ==>
        && w.containers[slot] == AllocatedTo(db'.allocations, a)
        && a in w.db.attempts && w.db.attempts[a].status == Starting
  {
    AnswerIs(w, worker, id, skipped);
    GrantNames(w.db, worker, w.agents[worker].session, id, skipped);
    var a := HandedOut(w, worker, id, skipped, replayed).value;
    if Slot(worker, a) in w.containers {
      assert Hosted(w.db, worker, a, w.containers[Slot(worker, a)]);
    }
  }

  lemma KeptAreExecuting(w: World, worker: Id, stops: seq<Id>, listed: seq<Id>)
    requires Core(w.db) && ContainersOk(w.db, w.containers)
    requires Orders(stops, ToStop(w.db, Containers(w, worker))) && Orders(listed, CleanupList(w.db, worker))
    ensures forall a | Slot(worker, a) in w.containers ::
      a in w.db.attempts && (a !in stops && a !in listed <==> Active(w.db.attempts[a].status))
  {
    forall a | Slot(worker, a) in w.containers
      ensures a in w.db.attempts && (a !in stops && a !in listed <==> Active(w.db.attempts[a].status))
    {
      KeptIsExecuting(w, worker, stops, listed, a);
    }
  }

  lemma RoundContainers(w: World, worker: Id, stops: seq<Id>, listed: seq<Id>, id: Id, skipped: set<Id>, replayed: Id)
    requires worker in w.agents
    ensures
      var work := WorkOf(w, worker, id, skipped, replayed);
      var kept := Without(Without(w.containers, worker, stops), worker, listed);
      AfterRound(w, worker, stops, listed, id, skipped, replayed).containers
      == if work.None? || Slot(worker, work.value.attempt) in kept then kept
         else kept[Slot(worker, work.value.attempt) := work.value.uuids]
  {
  }

  lemma RoundTidies(w: World, worker: Id, stops: seq<Id>, listed: seq<Id>, id: Id, skipped: set<Id>, replayed: Id)
    requires WorldInv(w) && Undisturbed(w, worker, stops, listed, id, skipped, replayed)
    ensures Tidy(w, worker, HandedOut(w, worker, id, skipped, replayed),
                 AfterRound(w, worker, stops, listed, id, skipped, replayed))
  {
    KeptAreExecuting(w, worker, stops, listed);
    RoundContainers(w, worker, stops, listed, id, skipped, replayed);
    RoundReturns(w, worker, stops, listed, id, skipped, replayed);
    if HandedOut(w, worker, id, skipped, replayed).Some? {
      HandedHasDevices(w, worker, id, skipped, replayed);
    }
    TidyFrom(w, worker, stops, listed, WorkOf(w, worker, id, skipped, replayed),
             AfterRound(w, worker, stops, listed, id, skipped, replayed));
  }

  lemma TidyFrom(w: World, worker: Id, stops: seq<Id>, listed: seq<Id>, work: Option<Work>, w': World)
    requires forall a | Slot(worker, a) in w.containers ::
      a in w.db.attempts && (a !in stops && a !in listed <==> Active(w.db.attempts[a].status))
    requires work.Some? ==> work.value.uuids == AllocatedTo(w'.db.allocations, work.value.attempt)
    requires work.Some? && Slot(worker, work.value.attempt) in w.containers ==>
      && w.containers[Slot(worker, work.value.attempt)] == work.value.uuids
      && Active(w.db.attempts[work.value.attempt].status)
    requires
      var kept := Without(Without(w.containers, worker, stops), worker, listed);
      w'.containers == if work.None? || Slot(worker, work.value.attempt) in kept then kept
                       else kept[Slot(worker, work.value.attempt) := work.value.uuids]
    ensures Tidy(w, worker, if work.Some? then Some(work.value.attempt) else None, w')
  {
    forall k: Slot | k.worker == worker
      ensures k == Slot(worker, k.attempt)
    {
    }
  }
}
