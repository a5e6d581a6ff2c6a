/** GPU devices over whole runs: who may claim them, who holds them, and what that pins. */
module Allocation {
  import opened Base
  import opened Domain
  import opened Tables
  import opened Transactions
  import opened Invariants
  import opened Preservation
  import opened Reachability
  import opened Scheduling

  /** A device belongs to one worker for ever. */
  lemma {:induction false} DeviceOwnerForever(s: State, ops: seq<Op>, u: Id)
    requires Inv(s) && u in s.devices
    ensures u in Exec(s, ops).devices && Exec(s, ops).devices[u].worker == s.devices[u].worker
  {
    if ops != [] {
      DeviceOwnerForever(s, ops[..|ops| - 1], u);
      RunsKeep(s, ops[..|ops| - 1]);
      StepKeeps(Exec(s, ops[..|ops| - 1]), ops[|ops| - 1]);
    }
  }

  // ---- Claims ---------------------------------------------------------------------------------

  /** This worker's lock is held: no other assignment to it runs meanwhile. */
  predicate Locked(ops: seq<Op>, worker: Id) {
    forall i | 0 <= i < |ops| :: !(ops[i].AssignOp? && ops[i].worker == worker)
  }

  lemma FreeAfter(s: State, op: Op, s': State, worker: Id, u: Id)
    requires AllocationsEvolve(s, s') && Accounted(s, op, s')
    requires Devices(s'.workers, s'.devices) && Backed(s'.attempts, s'.devices, s'.allocations)
    requires u in s.devices && s.devices[u].worker == worker && !Held(s.allocations, u)
    requires !(op.AssignOp? && op.worker == worker)
    ensures !Held(s'.allocations, u)
  {
    forall k | k in s'.allocations && k.uuid == u
      ensures s'.allocations[k]
    {
      assert k !in s.allocations ==> Inserts(s, op, k.attempt, s'.attempts[k.attempt].worker);
    }
  }

  ghost predicate Claimable(s: State, worker: Id, u: Id) {
    u in s.devices && s.devices[u].worker == worker && !Held(s.allocations, u)
  }

  /** A free device stays free, and the worker's own, whatever the other transactions are. */
  lemma {:induction false} FreeUntilAssigned(s: State, ops: seq<Op>, worker: Id, u: Id)
    requires Inv(s) && Locked(ops, worker) && Claimable(s, worker, u)
    ensures Claimable(Exec(s, ops), worker, u)
  {
    if ops != [] {
      var before, last := ops[..|ops| - 1], ops[|ops| - 1];
      FreeUntilAssigned(s, before, worker, u);
      RunsKeep(s, before);
      StepKeeps(Exec(s, before), last);
      StepAccounted(Exec(s, before), last);
      FreeAfter(Exec(s, before), last, Exec(s, ops), worker, u);
    }
  }

  lemma ChosenAreClaimable(s: State, worker: Id, r: Id)
    requires Budget(s.runs) && worker in s.workers && r in s.runs && Fits(s, worker, s.runs[r])
    ensures forall u | u in ChosenDevices(s, worker, s.runs[r]) :: Claimable(s, worker, u)
  {
    assert RunBudget(s.runs[r]);
    AssignClaims(s, worker, s.runs[r]);
  }

  lemma ClaimKeepsIndex(s: State, worker: Id, uuids: set<Id>, id: Id)
    requires Exclusive(s.allocations) && forall u | u in uuids :: Claimable(s, worker, u)
    ensures Exclusive(Reserve(s.allocations, id, uuids))
  {
    ReserveExclusive(s.allocations, id, uuids);
  }

  /**
   * The partial unique index never has to reject. Between the query that found the devices and the
   * insert that claims them anything may be committed that the worker's lock lets pass, and every
   * claim still concerns a device of that worker which nobody holds.
   */
  lemma ClaimsNeverCollide(s: State, ops: seq<Op>, worker: Id, r: Id, id: Id)
    requires Inv(s) && Locked(ops, worker)
    requires worker in s.workers && r in s.runs && Fits(s, worker, s.runs[r])
    ensures
      var s', chosen := Exec(s, ops), ChosenDevices(s, worker, s.runs[r]);
      && (forall u | u in chosen :: Claimable(s', worker, u))
      && Exclusive(Reserve(s'.allocations, id, chosen))
  {
    var s', chosen := Exec(s, ops), ChosenDevices(s, worker, s.runs[r]);
    ChosenAreClaimable(s, worker, r);
    forall u | u in chosen
      ensures Claimable(s', worker, u)
    {
      FreeUntilAssigned(s, ops, worker, u);
    }
    RunsKeep(s, ops);
    ClaimKeepsIndex(s', worker, chosen, id);
  }

  // ---- Holdings -------------------------------------------------------------------------------

  lemma SameAllocation(s: State, s': State, a: Id)
    requires AllocationsEvolve(s, s') && a in s.attempts
    ensures AllocatedTo(s'.allocations, a) == AllocatedTo(s.allocations, a)
  {
    forall u
      ensures u in AllocatedTo(s'.allocations, a) <==> u in AllocatedTo(s.allocations, a)
    {
      assert u in AllocatedTo(s.allocations, a) <==> AllocationKey(a, u) in s.allocations;
      assert u in AllocatedTo(s'.allocations, a) <==> AllocationKey(a, u) in s'.allocations;
    }
  }

  /** The devices of an attempt are those it was launched with, for ever. */
  lemma {:induction false} AllocationIsFixed(s: State, ops: seq<Op>, a: Id)
    requires Inv(s) && a in s.attempts
    ensures a in Exec(s, ops).attempts && AllocatedTo(Exec(s, ops).allocations, a) == AllocatedTo(s.allocations, a)
  {
    if ops != [] {
      var m := Exec(s, ops[..|ops| - 1]);
      AllocationIsFixed(s, ops[..|ops| - 1], a);
      RunsKeep(s, ops[..|ops| - 1]);
      StepKeeps(m, ops[|ops| - 1]);
      SameAllocation(m, Exec(s, ops), a);
    }
  }

  lemma GrantAllocates(s: State, worker: Id, session: string, id: Id, skipped: set<Id>)
    requires Links(s.runs, s.attempts) && Assign(s, worker, session, id, skipped).reply.Granted?
    requires forall k | k in s.allocations :: k.attempt in s.attempts
    ensures
      var s' := Assign(s, worker, session, id, skipped).state;
      && id in s'.attempts && s'.attempts[id].run in s.runs
      && AllocatedTo(s'.allocations, id) == ChosenDevices(s, worker, s.runs[s'.attempts[id].run])
  {
    var r := First(s.runs, Candidates(s, worker, skipped));
    ReservedDevices(s.allocations, id, ChosenDevices(s, worker, s.runs[r]));
  }

  /**
   * Whatever happens after a grant, as long as the launch is unacknowledged a poll of its live
   * worker replays, changes nothing, and the attempt still has the devices chosen for it.
   */
  lemma GrantIsReplayed(s: State, worker: Id, session: string, id: Id, skipped: set<Id>, ops: seq<Op>,
                        session': string, id': Id, skipped': set<Id>)
    requires Inv(s) && Assign(s, worker, session, id, skipped).reply.Granted?
    ensures
      var s' := Assign(s, worker, session, id, skipped).state;
      var t := Exec(s', ops);
      && id in t.attempts && s'.attempts[id].run in s.runs
      && AllocatedTo(t.allocations, id) == ChosenDevices(s, worker, s.runs[s'.attempts[id].run])
      && (Unacknowledged(t, worker, id) && Session(t, worker, session') && Available(t, t.workers[worker]) ==>
            Assign(t, worker, session', id', skipped') == Tx(t, Replayed))
  {
    AssignStep(s, worker, session, id, skipped);
    GrantAllocates(s, worker, session, id, skipped);
    AllocationIsFixed(Assign(s, worker, session, id, skipped).state, ops, id);
    UnacknowledgedIsReplayed(Exec(Assign(s, worker, session, id, skipped).state, ops), worker, id);
  }

  lemma UnacknowledgedIsReplayed(t: State, worker: Id, a: Id)
    ensures forall session, id, skipped ::
      Unacknowledged(t, worker, a) && Session(t, worker, session) && Available(t, t.workers[worker]) ==>
        Assign(t, worker, session, id, skipped) == Tx(t, Replayed)
  {
  }

  lemma DockerHoldings(s: State, a: Id)
    requires Gpus(s) && a in s.attempts
    ensures s.attempts[a].worker == KUBERNETES ==> AllocatedTo(s.allocations, a) == {}
    ensures |AllocatedTo(s.allocations, a)| == s.attempts[a].gpuCount
            <==> s.attempts[a].worker != KUBERNETES || s.attempts[a].gpuCount == 0
  {
    assert forall u | u in AllocatedTo(s.allocations, a) :: AllocationKey(a, u) in s.allocations;
    assert s.attempts[a].worker == KUBERNETES ==> AllocatedTo(s.allocations, a) == {};
  }

  /**
   * In every reachable state an attempt holds exactly gpu_count devices, all of its own worker,
   * unreleased until it is cleaned and released from then on; except that a Kubernetes attempt
   * holds none, so that its count is met only when it is zero.
   */
  lemma HoldsWhatItAskedFor(timing: Timing, now: Time, ops: seq<Op>, a: Id)
    requires ValidTiming(timing) && a in Exec(Empty(timing, now), ops).attempts
    ensures
      var s := Exec(Empty(timing, now), ops);
      var held := AllocatedTo(s.allocations, a);
      && (|held| == s.attempts[a].gpuCount <==> s.attempts[a].worker != KUBERNETES || s.attempts[a].gpuCount == 0)
      && (s.attempts[a].worker == KUBERNETES ==> held == {})
      && (forall u | u in held ::
            && u in s.devices && s.devices[u].worker == s.attempts[a].worker
            && AllocationKey(a, u) in s.allocations
            && s.allocations[AllocationKey(a, u)] == s.attempts[a].cleaned)
  {
    Reachable(timing, now, ops);
    DockerHoldings(Exec(Empty(timing, now), ops), a);
  }

  predicate Pends(s: State, a: Id) { a in s.attempts && !s.attempts[a].cleaned }

  lemma PendingDisjoint(s: State, a: Id, b: Id)
    requires Gpus(s) && a != b && Pends(s, a) && Pends(s, b)
    ensures AllocatedTo(s.allocations, a) !! AllocatedTo(s.allocations, b)
  {
  }

  /** In every reachable state two attempts that still pend hold disjoint devices. */
  lemma DevicesAreExclusive(timing: Timing, now: Time, ops: seq<Op>, a: Id, b: Id)
    requires ValidTiming(timing) && a != b
    ensures
      var s := Exec(Empty(timing, now), ops);
      Pends(s, a) && Pends(s, b) ==>
        AllocatedTo(s.allocations, a) !! AllocatedTo(s.allocations, b)
  {
    Reachable(timing, now, ops);
    var s := Exec(Empty(timing, now), ops);
    if Pends(s, a) && Pends(s, b) {
      PendingDisjoint(s, a, b);
    }
  }

  // ---- The engine of a worker -----------------------------------------------------------------

  ghost predicate Fitted(workers: map<Id, Worker>, w: Id) { w in workers && workers[w].engine != "" }

  /** GPUs need an engine, and so does whoever still holds one. */
  ghost predicate Engined(s: State) {
    && (forall w | w in s.workers && s.workers[w].gpuCapable :: Fitted(s.workers, w))
    && (forall k | k in s.allocations && !s.allocations[k] ::
          k.uuid in s.devices && Fitted(s.workers, s.devices[k.uuid].worker))
  }

  /** An attempt that is unresolved pins a named engine. */
  lemma EngineIsPinned(s: State, op: Op, worker: Id)
    requires worker in s.workers && s.workers[worker].engine != "" && Pending(s.attempts, worker) != {}
    ensures worker in Step(s, op).workers && Step(s, op).workers[worker].engine == s.workers[worker].engine
  {
    StepAccounted(s, op);
  }

  /** Exactly when a worker may register another engine. */
  lemma EngineChangesWhen(s: State, worker: Id, r: Registration)
    requires ValidRegistration(worker, r) && worker in s.workers && r.engine != s.workers[worker].engine
    ensures Register(s, worker, r).reply.Done? <==> s.workers[worker].engine == "" || Pending(s.attempts, worker) == {}
  {
  }

  lemma HeldMeansPending(s: State, k: AllocationKey)
    requires Gpus(s) && k in s.allocations && !s.allocations[k]
    ensures k.uuid in s.devices && s.devices[k.uuid].worker in s.workers
    ensures Pending(s.attempts, s.devices[k.uuid].worker) != {}
  {
    assert k.attempt in Pending(s.attempts, s.devices[k.uuid].worker);
  }

  lemma RegisteredIsFitted(s: State, op: Op, w: Id)
    requires op.RegisterOp? && op.worker == w && w in Step(s, op).workers
    requires w in s.workers && s.workers[w].gpuCapable ==> s.workers[w].engine != ""
    ensures Step(s, op).workers[w].gpuCapable ==> Step(s, op).workers[w].engine != ""
  {
    FleetDispatch(s, op);
    RegisterCapable(s, w, op.registration);
  }

  lemma RegisterCapable(s: State, w: Id, r: Registration)
    requires w in Register(s, w, r).state.workers
    requires w in s.workers && s.workers[w].gpuCapable ==> s.workers[w].engine != ""
    ensures
      var row := Register(s, w, r).state.workers[w];
      row.gpuCapable ==> row.engine != ""
  {
  }

  lemma CapableStays(s: State, op: Op)
    requires Engined(s)
    ensures
      var s' := Step(s, op);
      forall w | w in s'.workers && s'.workers[w].gpuCapable :: Fitted(s'.workers, w)
  {
    StepAccounted(s, op);
    var s' := Step(s, op);
    forall w | w in s'.workers && s'.workers[w].gpuCapable
      ensures Fitted(s'.workers, w)
    {
      if op.RegisterOp? && op.worker == w {
        RegisteredIsFitted(s, op, w);
      } else {
        assert EngineKept(s, op, s', w);
      }
    }
  }

  /** A claim happens only where GPUs are enabled. */
  lemma ClaimIsFitted(s: State, op: Op, k: AllocationKey)
    requires op.AssignOp? && Engined(s) && k !in s.allocations
    requires k in Step(s, op).allocations
    ensures Fitted(s.workers, op.worker)
  {
    AssignDispatch(s, op);
    ClaimNeedsDevices(s, op.worker, op.session, op.id, op.skipped, k);
  }

  lemma ClaimNeedsDevices(s: State, worker: Id, session: string, id: Id, skipped: set<Id>, k: AllocationKey)
    requires k !in s.allocations && k in Assign(s, worker, session, id, skipped).state.allocations
    ensures worker in s.workers && s.workers[worker].gpuCapable
  {
    var tx := Assign(s, worker, session, id, skipped);
    assert !tx.reply.Granted? ==> tx.state == s;
    var r := First(s.runs, Candidates(s, worker, skipped));
    assert k.uuid in ChosenDevices(s, worker, s.runs[r]);
  }

  lemma EnginedStep(s: State, op: Op)
    requires Inv(s) && Engined(s)
    ensures Engined(Step(s, op))
  {
    StepKeeps(s, op);
    StepAccounted(s, op);
    CapableStays(s, op);
    var s' := Step(s, op);
    forall k | k in s'.allocations && !s'.allocations[k]
      ensures k.uuid in s'.devices && Fitted(s'.workers, s'.devices[k.uuid].worker)
    {
      HeldIsFitted(s, op, s', k);
    }
  }

  lemma HeldIsFitted(s: State, op: Op, s': State, k: AllocationKey)
    requires Gpus(s) && Gpus(s') && AllocationsEvolve(s, s') && Accounted(s, op, s') && s' == Step(s, op)
    requires Engined(s) && k in s'.allocations && !s'.allocations[k]
    ensures k.uuid in s'.devices && Fitted(s'.workers, s'.devices[k.uuid].worker)
  {
    var w := s'.devices[k.uuid].worker;
    if k in s.allocations {
      HeldMeansPending(s, k);
      assert EngineKept(s, op, s', w);
    } else {
      assert Inserts(s, op, k.attempt, s'.attempts[k.attempt].worker);
      assert w == s'.attempts[k.attempt].worker && w in s'.workers;
      ClaimIsFitted(s, op, k);
      assert EngineKept(s, op, s', w);
    }
  }

  lemma EmptyIsEngined(timing: Timing, now: Time)
    ensures Engined(Empty(timing, now)) && Exec(Empty(timing, now), []) == Empty(timing, now)
  {
  }

  lemma EnginedAlways(timing: Timing, now: Time, ops: seq<Op>)
    requires ValidTiming(timing)
    ensures Engined(Exec(Empty(timing, now), ops))
  {
    EmptyIsInv(timing, now);
    EmptyIsEngined(timing, now);
    EnginedRuns(Empty(timing, now), ops);
  }

  ghost predicate HeldBy(s: State, k: AllocationKey, engine: string) {
    && k in s.allocations && k.uuid in s.devices && s.devices[k.uuid].worker in s.workers
    && s.workers[s.devices[k.uuid].worker].engine == engine
  }

  lemma HeldEngineAfter(s: State, op: Op, s': State, k: AllocationKey, engine: string)
    requires Gpus(s) && Engined(s) && AllocationsEvolve(s, s') && Accounted(s, op, s')
    requires HeldBy(s, k, engine) && !s.allocations[k]
    ensures HeldBy(s', k, engine)
  {
    HeldMeansPending(s, k);
    assert EngineKept(s, op, s', s.devices[k.uuid].worker);
  }

  lemma {:induction false} EnginedRuns(s: State, ops: seq<Op>)
    requires Inv(s) && Engined(s)
    ensures Engined(Exec(s, ops))
  {
    if ops != [] {
      EnginedRuns(s, ops[..|ops| - 1]);
      RunsKeep(s, ops[..|ops| - 1]);
      EnginedStep(Exec(s, ops[..|ops| - 1]), ops[|ops| - 1]);
    }
  }

  lemma KeyStays(s: State, ops: seq<Op>, k: AllocationKey)
    requires Inv(s) && k in s.allocations
    ensures k in Exec(s, ops).allocations
  {
    AllocationIsFixed(s, ops, k.attempt);
    assert k.uuid in AllocatedTo(s.allocations, k.attempt);
    assert k == AllocationKey(k.attempt, k.uuid);
  }

  lemma {:induction false} HeldPinned(s: State, ops: seq<Op>, k: AllocationKey)
    requires Inv(s) && Engined(s) && k in s.allocations
    requires k in Exec(s, ops).allocations && !Exec(s, ops).allocations[k]
    ensures !s.allocations[k] && k.uuid in s.devices && s.devices[k.uuid].worker in s.workers
    ensures HeldBy(Exec(s, ops), k, s.workers[s.devices[k.uuid].worker].engine)
  {
    if ops == [] {
      HeldMeansPending(s, k);
    } else {
      var before, last := ops[..|ops| - 1], ops[|ops| - 1];
      KeyStays(s, before, k);
      RunsKeep(s, before);
      StepKeeps(Exec(s, before), last);
      StepAccounted(Exec(s, before), last);
      EnginedRuns(s, before);
      HeldPinned(s, before, k);
      HeldEngineAfter(Exec(s, before), last, Exec(s, ops), k, s.workers[s.devices[k.uuid].worker].engine);
    }
  }

  /**
   * From any reachable state on: as long as a device is held, its worker has a named engine and
   * that engine stays what it is.
   */
  lemma HeldDevicePinsEngine(timing: Timing, now: Time, past: seq<Op>, ops: seq<Op>, k: AllocationKey)
    requires ValidTiming(timing)
    requires
      var s := Exec(Empty(timing, now), past);
      k in s.allocations && k in Exec(s, ops).allocations && !Exec(s, ops).allocations[k]
    ensures
      var s := Exec(Empty(timing, now), past);
      && k.uuid in s.devices && Fitted(s.workers, s.devices[k.uuid].worker)
      && HeldBy(Exec(s, ops), k, s.workers[s.devices[k.uuid].worker].engine)
  {
    var s := Exec(Empty(timing, now), past);
    Reachable(timing, now, past);
    EnginedAlways(timing, now, past);
    HeldPinned(s, ops, k);
  }
}
