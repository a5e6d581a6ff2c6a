/**
 * What the transactions of workers, of the scheduler and of submitters decide and write, stated on
 * the columns alone, like those on attempts in Decisions.
 */
module Grants {
  import opened Base
  import opened Domain
  import opened Tables
  import opened Transactions
  import opened Invariants
  import opened Decisions
  import opened Scheduling

  // ---- Workers --------------------------------------------------------------------------------

  predicate Speaks(s: State, worker: Id, session: string) {
    worker in s.workers && s.workers[worker].session == session
  }

  predicate Unregistrable(id: Id, r: Registration) {
    || id <= 0 || |r.session| == 0 || |r.session| > 200 || r.cpuMillis <= 0 || r.memoryMib <= 0
    || |r.engine| > 200 || (r.capable && r.engine == "")
  }

  /** The worker has an attempt whose container is not known to be gone. */
  ghost predicate Unresolved(s: State, worker: Id) {
    exists a :: a in s.attempts && s.attempts[a].worker == worker && !s.attempts[a].cleaned
  }

  ghost predicate RegisterDecision(s: State, s': State, reply: Reply, id: Id, r: Registration) {
    if Unregistrable(id, r) then Rejected(s, s', reply, Invalid)
    else if id in s.workers && s.workers[id].engine != "" && s.workers[id].engine != r.engine && Unresolved(s, id)
    then Rejected(s, s', reply, Conflict)
    else
      && reply == Done
      && s' == s.(workers := s.workers[id :=
           Worker(r.session, r.cpuMillis, r.memoryMib, id in s.workers && s.workers[id].drained, s.now,
                  r.engine, r.capable, false, 0, None)])
  }

  /** A registration starts a session without inventory; only the drain flag survives it. */
  lemma RegisterDecides(s: State, id: Id, r: Registration)
    ensures RegisterDecision(s, Register(s, id, r).state, Register(s, id, r).reply, id, r)
  {
    if Unresolved(s, id) {
      var a :| a in s.attempts && s.attempts[a].worker == id && !s.attempts[a].cleaned;
      assert a in Pending(s.attempts, id);
    } else {
      assert forall a :: a !in Pending(s.attempts, id);
    }
  }

  ghost predicate BeatDecision(s: State, s': State, reply: Reply, id: Id, session: string) {
    if !Speaks(s, id, session) then Rejected(s, s', reply, Stale)
    else reply == Done && s' == s.(workers := s.workers[id := s.workers[id].(heartbeatAt := s.now)])
  }

  lemma BeatDecides(s: State, id: Id, session: string)
    ensures BeatDecision(s, WorkerHeartbeat(s, id, session).state, WorkerHeartbeat(s, id, session).reply, id, session)
  {
  }

  ghost predicate DrainDecision(s: State, s': State, reply: Reply, id: Id, drained: bool) {
    if id !in s.workers then Rejected(s, s', reply, NotFound)
    else reply == Done && s' == s.(workers := s.workers[id := s.workers[id].(drained := drained)])
  }

  lemma DrainDecides(s: State, id: Id, drained: bool)
    ensures DrainDecision(s, Drain(s, id, drained).state, Drain(s, id, drained).reply, id, drained)
  {
  }

  // ---- Inventories ----------------------------------------------------------------------------

  predicate Reported(seen: seq<Observed>, uuid: Id) { exists o :: o in seen && o.uuid == uuid }

  predicate Malformed(sequence: int, seen: seq<Observed>) {
    || sequence <= 0 || |seen| > 64
    || (exists o :: o in seen
          && (o.uuid <= 0 || |o.name| > 200 || |o.reason| > 500 || o.memoryMib > 1048576))
    || (exists i, j :: 0 <= i < j < |seen| && seen[i].uuid == seen[j].uuid)
  }

  /** Of the worker's devices exactly those in the snapshot are present, as reported; no other worker's row changes. */
  ghost predicate Refreshed(devices: map<Id, Device>, devices': map<Id, Device>, worker: Id, seen: seq<Observed>) {
    && (forall u :: u in devices' <==> u in devices || Reported(seen, u))
    && (forall o | o in seen :: devices'[o.uuid] == Device(worker, o.name, o.memoryMib, o.eligible, true))
    && (forall u | u in devices && !Reported(seen, u) ::
          devices'[u] == if devices[u].worker == worker then devices[u].(present := false) else devices[u])
  }

  ghost predicate InventoryDecision(
    s: State, s': State, reply: Reply,
    worker: Id, session: string, sequence: int, ready: bool, seen: seq<Observed>)
  {
    if Malformed(sequence, seen) then Rejected(s, s', reply, Invalid)
    else if !Speaks(s, worker, session) then Rejected(s, s', reply, Stale)
    else
      var w := s.workers[worker];
      if !w.gpuCapable then Rejected(s, s', reply, Conflict)
      else if sequence <= w.gpuSequence then reply == Done && s' == s
      else if ready && exists o :: o in seen && o.uuid in s.devices && s.devices[o.uuid].worker != worker
      then Rejected(s, s', reply, Conflict)
      else
        var observedAt := if ready then Some(s.now) else w.gpuObservedAt;
        && reply == Done
        && s' == s.(devices := s'.devices, workers := s.workers[worker :=
             w.(gpuSequence := sequence, gpuReady := ready, gpuObservedAt := observedAt)])
        && if ready then Refreshed(s.devices, s'.devices, worker, seen) else s'.devices == s.devices
  }

  lemma {:induction false} UpsertedRefreshes(devices: map<Id, Device>, worker: Id, seen: seq<Observed>)
    requires forall i, j | 0 <= i < j < |seen| :: seen[i].uuid != seen[j].uuid
    ensures Refreshed(devices, Upserted(devices, worker, seen), worker, seen)
  {
    if seen != [] {
      var shorter, last := seen[..|seen| - 1], seen[|seen| - 1];
      UpsertedRefreshes(devices, worker, shorter);
      assert forall o :: o in seen <==> o in shorter || o == last;
      assert !Reported(shorter, last.uuid);
      assert forall u :: Reported(seen, u) <==> Reported(shorter, u) || u == last.uuid;
    }
  }

  lemma SnapshotsAgree(sequence: int, seen: seq<Observed>)
    ensures ValidSnapshot(sequence, seen) <==> !Malformed(sequence, seen)
  {
  }

  /**
   * A newer snapshot of the current session is recorded. If discovery worked, the worker's devices
   * are exactly the reported ones; if it failed, readiness is lost and the devices stay.
   */
  lemma InventoryDecides(
    s: State, worker: Id, session: string, sequence: int, ready: bool, seen: seq<Observed>)
    ensures
      var tx := ReportInventory(s, worker, session, sequence, ready, seen);
      InventoryDecision(s, tx.state, tx.reply, worker, session, sequence, ready, seen)
  {
    SnapshotsAgree(sequence, seen);
    if ValidSnapshot(sequence, seen) {
      UpsertedRefreshes(s.devices, worker, seen);
    }
  }

  /** After a recorded snapshot a device of the worker is present if and only if it was reported. */
  lemma PresentMeansReported(
    s: State, worker: Id, session: string, sequence: int, seen: seq<Observed>, uuid: Id)
    requires !Malformed(sequence, seen) && Speaks(s, worker, session)
    requires sequence > s.workers[worker].gpuSequence
    requires ReportInventory(s, worker, session, sequence, true, seen).reply == Done
    ensures
      var s' := ReportInventory(s, worker, session, sequence, true, seen).state;
      && (uuid in s'.devices && s'.devices[uuid].worker == worker ==>
            (s'.devices[uuid].present <==> Reported(seen, uuid)))
      && (uuid in s.devices && s.devices[uuid].worker != worker ==>
            uuid in s'.devices && s'.devices[uuid] == s.devices[uuid])
  {
    InventoryDecides(s, worker, session, sequence, true, seen);
  }

  // ---- The choice of a run --------------------------------------------------------------------

  /** Discovery is switched on, succeeded last, and did so less than 30 seconds ago. */
  predicate Inventoried(w: Worker, now: Time) {
    w.gpuCapable && w.gpuReady && w.gpuObservedAt.Some? && now < w.gpuObservedAt.value + Seconds(30)
  }

  /** A device that an attempt may be given: the worker's own, there, fit for use, and held by nobody. */
  ghost predicate Usable(s: State, worker: Id, uuid: Id) {
    && worker in s.workers && Inventoried(s.workers[worker], s.now)
    && uuid in s.devices && s.devices[uuid].worker == worker
    && s.devices[uuid].present && s.devices[uuid].eligible
    && (forall k | k in s.allocations && k.uuid == uuid :: s.allocations[k])
  }

  ghost function UsableSet(s: State, worker: Id): set<Id> { set u | u in s.devices && Usable(s, worker, u) }

  /** What the worker's attempts take until their containers are known to be gone. */
  ghost function CpuNeeds(s: State, worker: Id): map<Id, int> {
    map a | a in s.attempts && s.attempts[a].worker == worker && !s.attempts[a].cleaned && s.attempts[a].run in s.runs
      :: s.runs[s.attempts[a].run].spec.resources.cpuMillis
  }

  ghost function MemoryNeeds(s: State, worker: Id): map<Id, int> {
    map a | a in s.attempts && s.attempts[a].worker == worker && !s.attempts[a].cleaned && s.attempts[a].run in s.runs
      :: s.runs[s.attempts[a].run].spec.resources.memoryMib
  }

  /** A queued run whose pause is over and whose row no other transaction holds. */
  predicate Due(s: State, skipped: set<Id>, r: Id) {
    r in s.runs && r !in skipped && s.runs[r].status == Queued && s.runs[r].availableAt <= s.now
  }

  ghost predicate Suits(s: State, worker: Id, skipped: set<Id>, r: Id) {
    && worker in s.workers && Due(s, skipped, r)
    && var need := s.runs[r].spec.resources;
    && Total(CpuNeeds(s, worker)) + need.cpuMillis <= s.workers[worker].cpuMillis
    && Total(MemoryNeeds(s, worker)) + need.memoryMib <= s.workers[worker].memoryMib
    && need.gpuCount <= |UsableSet(s, worker)|
  }

  /** Higher priority first, then the older run, then the smaller identifier. */
  predicate Precedes(s: State, a: Id, b: Id)
    requires a in s.runs && b in s.runs
  {
    var x, y := s.runs[a], s.runs[b];
    if x.spec.priority != y.spec.priority then x.spec.priority > y.spec.priority
    else if x.createdAt != y.createdAt then x.createdAt < y.createdAt
    else a < b
  }

  lemma UsableAgree(s: State, worker: Id)
    requires worker in s.workers
    ensures UsableSet(s, worker) == UsableDevices(s, worker)
  {
    forall u | u in s.devices
      ensures (forall k | k in s.allocations && k.uuid == u :: s.allocations[k]) <==> !Held(s.allocations, u)
    {
    }
  }

  lemma HeldAgree(s: State, worker: Id)
    ensures Total(CpuNeeds(s, worker)) == Reserved(s, worker, Cpu)
    ensures Total(MemoryNeeds(s, worker)) == Reserved(s, worker, Memory)
  {
    var cpu, memory := Demands(s, worker, Cpu), Demands(s, worker, Memory);
    forall a: Id
      ensures a in cpu <==> a in CpuNeeds(s, worker)
      ensures a in memory <==> a in MemoryNeeds(s, worker)
      ensures a in cpu ==> cpu[a] == CpuNeeds(s, worker)[a]
      ensures a in memory ==> memory[a] == MemoryNeeds(s, worker)[a]
    {
      assert a in Pending(s.attempts, worker) <==>
        a in s.attempts && s.attempts[a].worker == worker && !s.attempts[a].cleaned;
    }
    assert cpu.Keys == CpuNeeds(s, worker).Keys && memory.Keys == MemoryNeeds(s, worker).Keys;
    SameRows(CpuNeeds(s, worker), cpu);
    SameRows(MemoryNeeds(s, worker), memory);
  }

  lemma SuitsAgree(s: State, worker: Id, skipped: set<Id>, r: Id)
    requires worker in s.workers
    ensures Suits(s, worker, skipped, r) <==> r in Candidates(s, worker, skipped)
  {
    UsableAgree(s, worker);
    HeldAgree(s, worker);
    if r in s.runs {
      if Suits(s, worker, skipped, r) {
        FitsWhen(s, worker, s.runs[r]);
      } else if r in Candidates(s, worker, skipped) {
        FitsBoth(s, worker, s.runs[r]);
      }
    }
  }

  lemma FitsBoth(s: State, worker: Id, r: Run)
    requires worker in s.workers && Fits(s, worker, r)
    ensures Reserved(s, worker, Cpu) + r.spec.resources.cpuMillis <= s.workers[worker].cpuMillis
    ensures Reserved(s, worker, Memory) + r.spec.resources.memoryMib <= s.workers[worker].memoryMib
    ensures r.spec.resources.gpuCount <= |UsableDevices(s, worker)|
  {
    assert Demand(r.spec, Cpu) <= Capacity(s.workers[worker], Cpu) - Reserved(s, worker, Cpu);
    assert Demand(r.spec, Memory) <= Capacity(s.workers[worker], Memory) - Reserved(s, worker, Memory);
  }

  // ---- Launches -------------------------------------------------------------------------------

  /** A new attempt of the run's next generation, unclaimed, with its launch deadline running. */
  ghost predicate Launches(s: State, s': State, r: Id, id: Id, worker: Id, allocations: map<AllocationKey, bool>)
    requires r in s.runs
  {
    var run := s.runs[r];
    var a := Attempt(r, run.generation + 1, worker, "", Starting, "", None, None, false, 0,
                     s.now + Seconds(s.timing.launch), None, None, None, s.now,
                     run.spec.resources.gpuCount, "");
    s' == s.(attempts := s.attempts[id := a],
             runs := s.runs[r := run.(status := Starting, active := Some(id), generation := run.generation + 1,
                                      eventSequence := run.eventSequence + 1)],
             events := s.events[EventKey(r, run.eventSequence + 1) := Assigned],
             allocations := allocations)
  }

  /** The devices of the rows that were added. */
  ghost function Claimed(before: map<AllocationKey, bool>, after: map<AllocationKey, bool>): set<Id> {
    set k | k in after && k !in before :: k.uuid
  }

  /** The attempt holds the first `count` usable devices in the order of their uuids, and nothing else is claimed. */
  ghost predicate Claims(s: State, allocations: map<AllocationKey, bool>, worker: Id, id: Id, count: int) {
    var mine := Claimed(s.allocations, allocations);
    && |mine| == count && mine <= UsableSet(s, worker)
    && (forall u, v | u in mine && v in UsableSet(s, worker) && v !in mine :: u < v)
    && (forall k | k in s.allocations :: k in allocations && allocations[k] == s.allocations[k])
    && (forall k | k in allocations && k !in s.allocations :: k.attempt == id && !allocations[k])
  }

  /** Launched, not yet acknowledged with a runtime id, and its devices, if any, still accounted for. */
  predicate Unanswered(s: State, worker: Id, a: Id) {
    && a in s.attempts && worker in s.workers
    && var x := s.attempts[a];
    && x.worker == worker && x.status == Starting && x.runtime == None && s.now < x.launchDeadline
    && (x.gpuCount == 0 || Inventoried(s.workers[worker], s.now))
  }

  ghost predicate Chosen(s: State, worker: Id, skipped: set<Id>, r: Id) {
    && Suits(s, worker, skipped, r)
    && forall o | Suits(s, worker, skipped, o) && o != r :: Precedes(s, r, o)
  }

  ghost predicate Given(s: State, s': State, worker: Id, id: Id, skipped: set<Id>, r: Id) {
    && Chosen(s, worker, skipped, r)
    && Launches(s, s', r, id, worker, s'.allocations)
    && Claims(s, s'.allocations, worker, id, s.runs[r].spec.resources.gpuCount)
  }

  /** New work for a worker with nothing to answer for. */
  ghost predicate WorkDecision(s: State, s': State, reply: Reply, worker: Id, id: Id, skipped: set<Id>)
    requires worker in s.workers
  {
    if s.workers[worker].drained || forall r :: !Suits(s, worker, skipped, r) then reply == Idle && s' == s
    else if id in s.attempts then Rejected(s, s', reply, Unavailable)
    else reply == Granted(id) && exists r :: Given(s, s', worker, id, skipped, r)
  }

  ghost predicate AssignDecision(
    s: State, s': State, reply: Reply, worker: Id, session: string, id: Id, skipped: set<Id>)
  {
    if !Speaks(s, worker, session) then Rejected(s, s', reply, Stale)
    else if s.workers[worker].heartbeatAt + Seconds(s.timing.worker) <= s.now then reply == Idle && s' == s
    else if exists a :: Unanswered(s, worker, a) then reply == Replayed && s' == s
    else WorkDecision(s, s', reply, worker, id, skipped)
  }

  lemma UnansweredAgree(s: State, worker: Id, a: Id)
    requires Core(s)
    ensures Unanswered(s, worker, a) <==> Unacknowledged(s, worker, a)
  {
    if a in s.attempts {
      CurrentRow(s, a);
    }
  }

  /** The launch to repeat: no other unanswered one is older. */
  ghost predicate Earliest(s: State, worker: Id, a: Id) {
    Unanswered(s, worker, a) && forall b | Unanswered(s, worker, b) :: s.attempts[a].createdAt <= s.attempts[b].createdAt
  }

  lemma ReplayIsEarliest(s: State, worker: Id, a: Id)
    requires Core(s) && Replayable(s, worker, a)
    ensures Earliest(s, worker, a)
  {
    forall b
      ensures Unanswered(s, worker, b) <==> Unacknowledged(s, worker, b)
    {
      UnansweredAgree(s, worker, b);
    }
  }

  lemma ReserveClaims(s: State, worker: Id, id: Id, r: Id)
    requires worker in s.workers && r in s.runs && id !in s.attempts
    requires Gpus(s) && 0 <= s.runs[r].spec.resources.gpuCount <= |UsableSet(s, worker)|
    ensures Claims(s, Reserve(s.allocations, id, ChosenDevices(s, worker, s.runs[r])), worker, id,
                   s.runs[r].spec.resources.gpuCount)
  {
    UsableAgree(s, worker);
    var chosen := ChosenDevices(s, worker, s.runs[r]);
    var after := Reserve(s.allocations, id, chosen);
    assert forall u | u in chosen :: AllocationKey(id, u) in after && AllocationKey(id, u) !in s.allocations;
    assert Claimed(s.allocations, after) == chosen;
  }

  lemma FirstIsChosen(s: State, worker: Id, skipped: set<Id>)
    requires worker in s.workers && Candidates(s, worker, skipped) != {}
    ensures Chosen(s, worker, skipped, First(s.runs, Candidates(s, worker, skipped)))
  {
    forall r
      ensures Suits(s, worker, skipped, r) <==> r in Candidates(s, worker, skipped)
    {
      SuitsAgree(s, worker, skipped, r);
    }
  }

  lemma LaunchLaunches(s: State, r: Id, id: Id, worker: Id, allocations: map<AllocationKey, bool>)
    requires r in s.runs
    ensures Launches(s, Launch(s, r, id, worker).(allocations := allocations), r, id, worker, allocations)
  {
  }

  lemma GrantIsGiven(s: State, worker: Id, id: Id, skipped: set<Id>)
    requires Inv(s) && worker in s.workers && id !in s.attempts && Candidates(s, worker, skipped) != {}
    ensures
      var r := First(s.runs, Candidates(s, worker, skipped));
      var allocations := Reserve(s.allocations, id, ChosenDevices(s, worker, s.runs[r]));
      Given(s, Launch(s, r, id, worker).(allocations := allocations), worker, id, skipped, r)
  {
    var r := First(s.runs, Candidates(s, worker, skipped));
    FirstIsChosen(s, worker, skipped);
    assert RunBudget(s.runs[r]);
    ReserveClaims(s, worker, id, r);
    LaunchLaunches(s, r, id, worker, Reserve(s.allocations, id, ChosenDevices(s, worker, s.runs[r])));
  }

  lemma GrantDecides(s: State, worker: Id, session: string, id: Id, skipped: set<Id>) returns (r: Id)
    requires Inv(s) && Assign(s, worker, session, id, skipped).reply.Granted?
    ensures id !in s.attempts
    ensures Given(s, Assign(s, worker, session, id, skipped).state, worker, id, skipped, r)
  {
    GrantIsGiven(s, worker, id, skipped);
    r := First(s.runs, Candidates(s, worker, skipped));
  }

  lemma NothingSuits(s: State, worker: Id, skipped: set<Id>)
    requires worker in s.workers
    ensures (forall r :: !Suits(s, worker, skipped, r)) <==> Candidates(s, worker, skipped) == {}
  {
    forall r
      ensures Suits(s, worker, skipped, r) <==> r in Candidates(s, worker, skipped)
    {
      SuitsAgree(s, worker, skipped, r);
    }
    if Candidates(s, worker, skipped) != {} {
      var r := Pick(Candidates(s, worker, skipped));
      assert Suits(s, worker, skipped, r);
    }
  }

  lemma NothingUnanswered(s: State, worker: Id)
    requires Core(s)
    ensures (exists a :: Unanswered(s, worker, a)) <==> exists a :: Unacknowledged(s, worker, a)
  {
    forall a
      ensures Unanswered(s, worker, a) <==> Unacknowledged(s, worker, a)
    {
      UnansweredAgree(s, worker, a);
    }
  }

  lemma WorkDecides(s: State, worker: Id, session: string, id: Id, skipped: set<Id>)
    requires Inv(s) && Session(s, worker, session) && Available(s, s.workers[worker])
    requires !exists a :: Unacknowledged(s, worker, a)
    ensures
      var tx := Assign(s, worker, session, id, skipped);
      WorkDecision(s, tx.state, tx.reply, worker, id, skipped)
  {
    NothingSuits(s, worker, skipped);
    if Assign(s, worker, session, id, skipped).reply.Granted? {
      var r := GrantDecides(s, worker, session, id, skipped);
    }
  }

  lemma ReachableWorker(s: State, worker: Id)
    requires worker in s.workers
    ensures Available(s, s.workers[worker]) <==>
      !(s.workers[worker].heartbeatAt + Seconds(s.timing.worker) <= s.now)
  {
  }

  lemma SilentIsIdle(s: State, worker: Id, session: string, id: Id, skipped: set<Id>)
    requires Session(s, worker, session) && !Available(s, s.workers[worker])
    ensures Assign(s, worker, session, id, skipped) == Tx(s, Idle)
  {
  }

  lemma UnansweredIsReplayed(s: State, worker: Id, session: string, id: Id, skipped: set<Id>)
    requires Session(s, worker, session) && Available(s, s.workers[worker])
    requires exists a :: Unacknowledged(s, worker, a)
    ensures Assign(s, worker, session, id, skipped) == Tx(s, Replayed)
  {
  }

  /**
   * A live worker is first told again of a launch it has not answered. Otherwise, unless it is
   * drained, it is given the first run in order among those that its free processors, memory and
   * usable devices suffice for, with the first of those devices; it goes idle when there is none.
   */
  lemma AssignDecides(s: State, worker: Id, session: string, id: Id, skipped: set<Id>)
    requires Inv(s)
    ensures
      var tx := Assign(s, worker, session, id, skipped);
      AssignDecision(s, tx.state, tx.reply, worker, session, id, skipped)
  {
    if Session(s, worker, session) {
      ReachableWorker(s, worker);
      NothingUnanswered(s, worker);
      if !Available(s, s.workers[worker]) {
        SilentIsIdle(s, worker, session, id, skipped);
      } else if exists a :: Unacknowledged(s, worker, a) {
        UnansweredIsReplayed(s, worker, session, id, skipped);
      } else {
        WorkDecides(s, worker, session, id, skipped);
      }
    }
  }

  lemma ClaimedAreUsable(s: State, allocations: map<AllocationKey, bool>, worker: Id, id: Id, count: int, k: AllocationKey)
    requires Claims(s, allocations, worker, id, count) && k in allocations && k !in s.allocations
    ensures Usable(s, worker, k.uuid)
  {
    assert k.uuid in Claimed(s.allocations, allocations);
  }

  lemma NoneBefore(s: State, id: Id, k: AllocationKey)
    requires Gpus(s) && id !in s.attempts && k.attempt == id
    ensures k !in s.allocations
  {
  }

  /** Every device of a new attempt was usable, and whoever gets one had a fresh inventory. */
  lemma GrantedAreUsable(s: State, worker: Id, session: string, id: Id, skipped: set<Id>, k: AllocationKey)
    requires Inv(s) && Assign(s, worker, session, id, skipped).reply == Granted(id)
    requires k in Assign(s, worker, session, id, skipped).state.allocations && k.attempt == id
    ensures Usable(s, worker, k.uuid)
  {
    var r := GrantDecides(s, worker, session, id, skipped);
    var s' := Assign(s, worker, session, id, skipped).state;
    NoneBefore(s, id, k);
    ClaimedAreUsable(s, s'.allocations, worker, id, s.runs[r].spec.resources.gpuCount, k);
  }

  // ---- Admission ------------------------------------------------------------------------------

  ghost predicate FirstDue(s: State, skipped: set<Id>, r: Id) {
    Due(s, skipped, r) && forall o | Due(s, skipped, o) && o != r :: Precedes(s, r, o)
  }

  ghost predicate AdmitDecision(s: State, s': State, reply: Reply, limit: int, id: Id, skipped: set<Id>) {
    if !(1 <= limit <= 100) then Rejected(s, s', reply, Invalid)
    else if |set a | a in s.attempts && s.attempts[a].worker == KUBERNETES && !s.attempts[a].cleaned| >= limit
            || forall r :: !Due(s, skipped, r)
    then reply == Idle && s' == s
    else if id in s.attempts then Rejected(s, s', reply, Unavailable)
    else reply == Granted(id) && exists r :: FirstDue(s, skipped, r) && Launches(s, s', r, id, KUBERNETES, s.allocations)
  }

  /** Below the limit the first run that is due is admitted, without any device. */
  lemma AdmitDecides(s: State, limit: int, id: Id, skipped: set<Id>)
    ensures AdmitDecision(s, Admit(s, limit, id, skipped).state, Admit(s, limit, id, skipped).reply, limit, id, skipped)
  {
    assert Pending(s.attempts, KUBERNETES)
           == set a | a in s.attempts && s.attempts[a].worker == KUBERNETES && !s.attempts[a].cleaned;
    assert forall r :: Due(s, skipped, r) <==> r in ReadyRuns(s, skipped);
    if ReadyRuns(s, skipped) != {} {
      var r := First(s.runs, ReadyRuns(s, skipped));
      assert FirstDue(s, skipped, r);
      LaunchLaunches(s, r, id, KUBERNETES, s.allocations);
    }
  }

  // ---- Submissions ----------------------------------------------------------------------------

  /** A queued run of generation 0, due at once, with its first event. */
  predicate Adds(s: State, s': State, id: Id, spec: RunSpec, parent: Option<Id>, key: string, fingerprint: Fingerprint) {
    s' == s.(runs := s.runs[id := Run(spec, Queued, 0, None, 1, s.now, s.now, None, parent)],
             events := s.events[EventKey(id, 1) := Submitted],
             submissions := s.submissions[key := Submission(fingerprint, id)])
  }

  /** A known key is answered from the table, whatever it is used for. */
  predicate Answered(s: State, s': State, reply: Reply, was: Submission, fingerprint: Fingerprint) {
    if was.fingerprint == fingerprint then reply == RunIs(was.target) && s' == s
    else Rejected(s, s', reply, Conflict)
  }

  lemma AddRunIs(s: State, id: Id, spec: RunSpec, sweep: Option<Id>, parent: Option<Id>)
    ensures
      AddRun(s, id, spec, sweep, parent)
      == s.(runs := s.runs[id := Run(spec, Queued, 0, None, 1, s.now, s.now, sweep, parent)],
            events := s.events[EventKey(id, 1) := Submitted])
  {
  }

  ghost predicate SubmitDecision(
    s: State, s': State, reply: Reply, spec: RunSpec, key: string, fingerprint: Fingerprint, id: Id)
  {
    if !ValidSubmission(spec) then Rejected(s, s', reply, Invalid)
    else if key in s.submissions then Answered(s, s', reply, s.submissions[key], fingerprint)
    else if id in s.runs then Rejected(s, s', reply, Unavailable)
    else reply == RunIs(id) && Adds(s, s', id, spec, None, key, fingerprint)
  }

  lemma SubmitDecides(s: State, spec: RunSpec, key: string, fingerprint: Fingerprint, id: Id)
    ensures
      var tx := Submit(s, spec, key, fingerprint, id);
      SubmitDecision(s, tx.state, tx.reply, spec, key, fingerprint, id)
  {
  }

  ghost predicate RerunDecision(s: State, s': State, reply: Reply, source: Id, key: string, id: Id) {
    if key in s.submissions then Answered(s, s', reply, s.submissions[key], OfRerun(source))
    else if source !in s.runs then Rejected(s, s', reply, NotFound)
    else if !(s.runs[source].status in {Succeeded, Failed, Cancelled}) then Rejected(s, s', reply, Conflict)
    else if !ValidSubmission(s.runs[source].spec) then Rejected(s, s', reply, Invalid)
    else if id in s.runs then Rejected(s, s', reply, Unavailable)
    else reply == RunIs(id) && Adds(s, s', id, s.runs[source].spec, Some(source), key, OfRerun(source))
  }

  lemma RerunDecides(s: State, source: Id, key: string, id: Id)
    ensures RerunDecision(s, Rerun(s, source, key, id).state, Rerun(s, source, key, id).reply, source, key, id)
  {
    if source in s.runs {
      AddRunIs(s, id, s.runs[source].spec, None, Some(source));
    }
  }

  /** The entry cannot be inserted behind those in front of it. */
  predicate Bad(s: State, entries: seq<Entry>, i: nat) {
    && i < |entries|
    && (|| !ValidSubmission(entries[i].spec) || entries[i].id in s.runs
        || exists j :: 0 <= j < i && entries[j].id == entries[i].id)
  }

  predicate Listed(entries: seq<Entry>, id: Id) { exists e :: e in entries && e.id == id }

  /** One run and one event for each entry, each of this sweep; every other row is as before. */
  ghost predicate AddsAll(s: State, s': State, entries: seq<Entry>, sweep: Id) {
    && s' == s.(runs := s'.runs, events := s'.events)
    && (forall r :: r in s'.runs <==> r in s.runs || Listed(entries, r))
    && (forall r | r in s.runs :: s'.runs[r] == s.runs[r])
    && (forall e | e in entries ::
          s'.runs[e.id] == Run(e.spec, Queued, 0, None, 1, s.now, s.now, Some(sweep), None))
    && (forall k :: k in s'.events <==> k in s.events || (k.sequence == 1 && Listed(entries, k.run)))
    && (forall k | k in s'.events ::
          s'.events[k] == if k.sequence == 1 && Listed(entries, k.run) then Submitted else s.events[k])
  }

  /** The first bad entry refuses the whole sweep. */
  predicate Refuses(s: State, entries: seq<Entry>, i: nat, code: ErrorCode) {
    && Bad(s, entries, i) && (forall j: nat | j < i :: !Bad(s, entries, j))
    && code == if ValidSubmission(entries[i].spec) then Unavailable else Invalid
  }

  ghost predicate SweepDecision(
    s: State, s': State, reply: Reply, entries: seq<Entry>, key: string, fingerprint: Fingerprint, id: Id)
  {
    if key in s.sweeps then Answered(s, s', reply, s.sweeps[key], fingerprint)
    else if exists k :: k in s.sweeps && s.sweeps[k].target == id then Rejected(s, s', reply, Unavailable)
    else if exists i: nat :: Bad(s, entries, i)
    then exists i: nat, code :: Refuses(s, entries, i, code) && Rejected(s, s', reply, code)
    else
      && reply == RunIs(id)
      && s'.sweeps == s.sweeps[key := Submission(fingerprint, id)]
      && AddsAll(s, s'.(sweeps := s.sweeps), entries, id)
  }

  lemma BadInPrefix(s: State, entries: seq<Entry>, n: nat, i: nat)
    requires i < n <= |entries|
    ensures Bad(s, entries[..n], i) <==> Bad(s, entries, i)
  {
  }

  lemma ListedLast(entries: seq<Entry>)
    requires entries != []
    ensures
      var prefix, e := entries[..|entries| - 1], entries[|entries| - 1];
      && (forall x :: x in entries <==> x in prefix || x == e)
      && (forall r :: Listed(entries, r) <==> Listed(prefix, r) || r == e.id)
  {
    var prefix, e := entries[..|entries| - 1], entries[|entries| - 1];
    assert entries == prefix + [e];
    assert forall x :: x in entries <==> x in prefix || x == e;
  }

  lemma ListedIsBad(s: State, entries: seq<Entry>)
    requires entries != [] && Listed(entries[..|entries| - 1], entries[|entries| - 1].id)
    ensures Bad(s, entries, |entries| - 1)
  {
    var prefix, e := entries[..|entries| - 1], entries[|entries| - 1];
    var x :| x in prefix && x.id == e.id;
    var j :| 0 <= j < |prefix| && prefix[j] == x;
    assert entries[j].id == e.id;
  }

  lemma AddsOneMore(s: State, m: State, entries: seq<Entry>, sweep: Id)
    requires entries != [] && AddsAll(s, m, entries[..|entries| - 1], sweep) && !Bad(s, entries, |entries| - 1)
    ensures
      var e := entries[|entries| - 1];
      && e.id !in m.runs
      && AddsAll(s, AddRun(m, e.id, e.spec, Some(sweep), None), entries, sweep)
  {
    var e := entries[|entries| - 1];
    ListedLast(entries);
    if Listed(entries[..|entries| - 1], e.id) {
      ListedIsBad(s, entries);
    }
    AddRunIs(m, e.id, e.spec, Some(sweep), None);
  }

  /** Behind a prefix that was inserted, the next entry fails exactly when it is bad. */
  lemma NextIsBad(s: State, m: State, entries: seq<Entry>, sweep: Id)
    requires entries != [] && AddsAll(s, m, entries[..|entries| - 1], sweep)
    ensures
      var e := entries[|entries| - 1];
      Bad(s, entries, |entries| - 1) <==> !ValidSubmission(e.spec) || e.id in m.runs
  {
    var prefix, e := entries[..|entries| - 1], entries[|entries| - 1];
    forall j | 0 <= j < |entries| - 1
      ensures Listed(prefix, entries[j].id)
    {
      assert prefix[j] in prefix;
    }
    if Listed(prefix, e.id) {
      ListedIsBad(s, entries);
    }
  }

  lemma RefusedBefore(s: State, entries: seq<Entry>, n: nat, bad: nat, code: ErrorCode)
    requires n <= |entries| && Refuses(s, entries[..n], bad, code)
    ensures Refuses(s, entries, bad, code)
  {
    forall i: nat | i <= bad
      ensures Bad(s, entries[..n], i) <==> Bad(s, entries, i)
    {
      BadInPrefix(s, entries, n, i);
    }
  }

  lemma GoodBefore(s: State, entries: seq<Entry>, n: nat)
    requires n <= |entries| && forall i: nat :: !Bad(s, entries[..n], i)
    ensures forall i: nat | i < n :: !Bad(s, entries, i)
  {
    forall i: nat | i < n
      ensures !Bad(s, entries, i)
    {
      BadInPrefix(s, entries, n, i);
    }
  }

  lemma AddRunsLast(s: State, entries: seq<Entry>, sweep: Id)
    requires entries != []
    ensures
      var m, e := AddRuns(s, entries[..|entries| - 1], sweep), entries[|entries| - 1];
      AddRuns(s, entries, sweep) ==
      if m.None? || !ValidSubmission(e.spec) || e.id in m.value.runs then None
      else Some(AddRun(m.value, e.id, e.spec, Some(sweep), None))
  {
  }

  /** The sweep so far: everything was inserted because nothing is bad. */
  ghost predicate Whole(s: State, m: State, entries: seq<Entry>, sweep: Id) {
    AddsAll(s, m, entries, sweep) && forall i: nat :: !Bad(s, entries, i)
  }

  lemma WholeNext(s: State, m: State, entries: seq<Entry>, sweep: Id)
    requires entries != [] && Whole(s, m, entries[..|entries| - 1], sweep)
    requires
      var e := entries[|entries| - 1];
      ValidSubmission(e.spec) && e.id !in m.runs
    ensures
      var e := entries[|entries| - 1];
      Whole(s, AddRun(m, e.id, e.spec, Some(sweep), None), entries, sweep)
  {
    NextIsBad(s, m, entries, sweep);
    GoodBefore(s, entries, |entries| - 1);
    AddsOneMore(s, m, entries, sweep);
    forall i: nat
      ensures !Bad(s, entries, i)
    {
      assert i >= |entries| || i == |entries| - 1 || i < |entries| - 1;
    }
  }

  lemma WholeEmpty(s: State, sweep: Id)
    ensures Whole(s, s, [], sweep)
  {
  }

  lemma {:induction false} AddRunsAdds(s: State, entries: seq<Entry>, sweep: Id)
    requires AddRuns(s, entries, sweep).Some?
    ensures Whole(s, AddRuns(s, entries, sweep).value, entries, sweep)
    decreases |entries|
  {
    if entries == [] {
      WholeEmpty(s, sweep);
    } else {
      var shorter := entries[..|entries| - 1];
      AddRunsLast(s, entries, sweep);
      AddRunsAdds(s, shorter, sweep);
      WholeNext(s, AddRuns(s, shorter, sweep).value, entries, sweep);
    }
  }

  lemma {:induction false} AddRunsRefuses(s: State, entries: seq<Entry>, sweep: Id) returns (bad: nat)
    requires AddRuns(s, entries, sweep).None?
    ensures Refuses(s, entries, bad, SweepError(s, entries, sweep))
    decreases |entries|
  {
    var n := |entries| - 1;
    AddRunsLast(s, entries, sweep);
    if AddRuns(s, entries[..n], sweep).None? {
      bad := AddRunsRefuses(s, entries[..n], sweep);
      RefusedBefore(s, entries, n, bad, SweepError(s, entries[..n], sweep));
    } else {
      bad := n;
      AddRunsAdds(s, entries[..n], sweep);
      NextIsBad(s, AddRuns(s, entries[..n], sweep).value, entries, sweep);
      GoodBefore(s, entries, n);
    }
  }

  lemma SweepAdds(s: State, entries: seq<Entry>, key: string, fingerprint: Fingerprint, id: Id)
    requires AddRuns(s, entries, id).Some?
    ensures
      var s' := AddRuns(s, entries, id).value.(sweeps := s.sweeps[key := Submission(fingerprint, id)]);
      && (forall i: nat :: !Bad(s, entries, i))
      && s'.sweeps == s.sweeps[key := Submission(fingerprint, id)]
      && AddsAll(s, s'.(sweeps := s.sweeps), entries, id)
  {
    AddRunsAdds(s, entries, id);
    var added := AddRuns(s, entries, id).value;
    assert added.(sweeps := s.sweeps[key := Submission(fingerprint, id)]).(sweeps := s.sweeps) == added;
  }

  lemma SweepRefuses(s: State, entries: seq<Entry>, id: Id)
    requires AddRuns(s, entries, id).None?
    ensures exists i: nat :: Bad(s, entries, i)
    ensures exists i: nat :: Refuses(s, entries, i, SweepError(s, entries, id))
  {
    var bad := AddRunsRefuses(s, entries, id);
    assert Bad(s, entries, bad);
  }

  /** A sweep is inserted with all its runs, or refused for its first bad entry without a trace. */
  lemma SweepDecides(s: State, entries: seq<Entry>, key: string, fingerprint: Fingerprint, id: Id)
    ensures
      var tx := SubmitSweep(s, entries, key, fingerprint, id);
      SweepDecision(s, tx.state, tx.reply, entries, key, fingerprint, id)
  {
    if AddRuns(s, entries, id).None? {
      SweepRefuses(s, entries, id);
    } else {
      SweepAdds(s, entries, key, fingerprint, id);
    }
  }
}
