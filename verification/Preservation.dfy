/** The shared row updates keep every part of the invariant. */
module Preservation {
  import opened Base
  import opened Domain
  import opened Tables
  import opened Transactions
  import opened Invariants

  // ---- Launching an attempt for a queued run --------------------------------------------------

  predicate CanLaunch(s: State, run: Id, id: Id) {
    run in s.runs && s.runs[run].status.Queued? && id !in s.attempts
  }

  lemma LaunchLinks(s: State, run: Id, id: Id, worker: Id)
    requires CanLaunch(s, run, id) && Links(s.runs, s.attempts)
    ensures var s' := Launch(s, run, id, worker); Links(s'.runs, s'.attempts)
  {
  }

  lemma LaunchDistinct(s: State, run: Id, id: Id, worker: Id)
    requires CanLaunch(s, run, id) && Links(s.runs, s.attempts) && Distinct(s.attempts)
    ensures Distinct(Launch(s, run, id, worker).attempts)
  {
  }

  lemma LaunchAgree(s: State, run: Id, id: Id, worker: Id)
    requires CanLaunch(s, run, id) && Links(s.runs, s.attempts) && Agree(s.runs, s.attempts)
    ensures var s' := Launch(s, run, id, worker); Agree(s'.runs, s'.attempts)
  {
  }

  lemma LaunchDense(s: State, run: Id, id: Id, worker: Id)
    requires CanLaunch(s, run, id) && Dense(s.runs, s.attempts)
    ensures var s' := Launch(s, run, id, worker); Dense(s'.runs, s'.attempts)
  {
    var s' := Launch(s, run, id, worker);
    forall r, g | r in s'.runs && 1 <= g <= s'.runs[r].generation
      ensures HasGeneration(s'.attempts, r, g)
    {
      if r == run && g == s'.runs[r].generation {
        assert s'.attempts[id].run == r;
      } else {
        assert HasGeneration(s.attempts, r, g);
        var a :| a in s.attempts && s.attempts[a].run == r && s.attempts[a].generation == g;
        assert s'.attempts[a] == s.attempts[a];
      }
    }
  }

  lemma LaunchCore(s: State, run: Id, id: Id, worker: Id)
    requires CanLaunch(s, run, id) && Core(s)
    ensures Core(Launch(s, run, id, worker))
  {
    LaunchLinks(s, run, id, worker);
    LaunchDistinct(s, run, id, worker);
    LaunchAgree(s, run, id, worker);
    LaunchDense(s, run, id, worker);
  }

  // ---- Moving a run together with its executing attempt ---------------------------------------

  /** What Start, BeginFinalization, Finish, Fail and Cancel have in common. */
  ghost predicate CanMove(s: State, id: Id, a: Attempt, r: Run, kind: EventKind) {
    && Locks(s, id)
    && var x, y := s.attempts[id], s.runs[s.attempts[id].run];
    && y.active == Some(id) && Active(y.status)
    && AttemptEvolves(x, a) && a.cleaned == x.cleaned && a.ack == x.ack
    && r == y.(status := r.status, availableAt := r.availableAt)
    && TransitionAllowed(y.status, r.status) && After(kind) == r.status
    && Matches(r.status, a.status) && !a.status.Queued? && !a.status.RetryWait?
    && (r.status.RetryWait? ==> r.generation < r.spec.retry.maxAttempts)
    && Timed(a, y.spec.timeoutSeconds, s.now, s.timing)
  }

  lemma MoveLinks(s: State, id: Id, a: Attempt, r: Run, kind: EventKind)
    requires CanMove(s, id, a, r, kind) && Links(s.runs, s.attempts)
    ensures var s' := Move(s, id, a, r, kind); Links(s'.runs, s'.attempts)
  {
  }

  lemma MoveAgree(s: State, id: Id, a: Attempt, r: Run, kind: EventKind)
    requires CanMove(s, id, a, r, kind) && Links(s.runs, s.attempts) && Agree(s.runs, s.attempts)
    ensures var s' := Move(s, id, a, r, kind); Agree(s'.runs, s'.attempts)
  {
  }

  lemma MoveDense(s: State, id: Id, a: Attempt, r: Run, kind: EventKind)
    requires CanMove(s, id, a, r, kind) && Dense(s.runs, s.attempts)
    ensures var s' := Move(s, id, a, r, kind); Dense(s'.runs, s'.attempts)
  {
    var s' := Move(s, id, a, r, kind);
    forall q, g | q in s'.runs && 1 <= g <= s'.runs[q].generation
      ensures HasGeneration(s'.attempts, q, g)
    {
      KeepGeneration(s.attempts, s'.attempts, q, g);
    }
  }

  lemma KeepDistinct(attempts: map<Id, Attempt>, id: Id, a: Attempt)
    requires Distinct(attempts) && id in attempts
    requires a.run == attempts[id].run && a.generation == attempts[id].generation
    ensures Distinct(attempts[id := a])
  {
  }

  /** Rewriting rows in place never loses a generation. */
  lemma KeepGeneration(attempts: map<Id, Attempt>, attempts': map<Id, Attempt>, run: Id, g: int)
    requires HasGeneration(attempts, run, g)
    requires forall a | a in attempts ::
               a in attempts' && attempts'[a].run == attempts[a].run && attempts'[a].generation == attempts[a].generation
    ensures HasGeneration(attempts', run, g)
  {
  }

  lemma MoveCore(s: State, id: Id, a: Attempt, r: Run, kind: EventKind)
    requires CanMove(s, id, a, r, kind) && Core(s)
    ensures Core(Move(s, id, a, r, kind))
  {
    MoveLinks(s, id, a, r, kind);
    KeepDistinct(s.attempts, id, a);
    MoveAgree(s, id, a, r, kind);
    MoveDense(s, id, a, r, kind);
  }

  // ---- Editing an attempt without moving its run ----------------------------------------------

  /** Heartbeat, report, runtime and cleanup writes. */
  predicate CanTouch(s: State, id: Id, a: Attempt) {
    && Locks(s, id)
    && AttemptEvolves(s.attempts[id], a) && a.status == s.attempts[id].status
    && Timed(a, s.runs[s.attempts[id].run].spec.timeoutSeconds, s.now, s.timing)
  }

  lemma TouchLinks(s: State, id: Id, a: Attempt)
    requires CanTouch(s, id, a) && Links(s.runs, s.attempts)
    ensures Links(s.runs, s.attempts[id := a])
  {
  }

  lemma TouchAgree(s: State, id: Id, a: Attempt)
    requires CanTouch(s, id, a) && Agree(s.runs, s.attempts)
    ensures Agree(s.runs, s.attempts[id := a])
  {
  }

  lemma TouchDense(s: State, id: Id, a: Attempt)
    requires CanTouch(s, id, a) && Dense(s.runs, s.attempts)
    ensures Dense(s.runs, s.attempts[id := a])
  {
    var after := s.attempts[id := a];
    forall q, g | q in s.runs && 1 <= g <= s.runs[q].generation
      ensures HasGeneration(after, q, g)
    {
      KeepGeneration(s.attempts, after, q, g);
    }
  }

  lemma TouchCore(s: State, id: Id, a: Attempt)
    requires CanTouch(s, id, a) && Core(s)
    ensures Core(SetAttempt(s, id, a))
  {
    TouchLinks(s, id, a);
    KeepDistinct(s.attempts, id, a);
    TouchAgree(s, id, a);
    TouchDense(s, id, a);
  }

  // ---- Events ---------------------------------------------------------------------------------

  lemma HistoryOther(r: Id, run: Run, events: map<EventKey, EventKind>, events': map<EventKey, EventKind>)
    requires RunHistory(r, run, events)
    requires forall n :: EventKey(r, n) in events' <==> EventKey(r, n) in events
    requires forall n | EventKey(r, n) in events :: events'[EventKey(r, n)] == events[EventKey(r, n)]
    ensures RunHistory(r, run, events')
  {
    forall n | 1 <= n < run.eventSequence
      ensures Consecutive(events', r, n)
    {
      assert Consecutive(events, r, n);
    }
  }

  /** One more event at the end of a run's own history. */
  lemma HistoryAppend(r: Id, run: Run, run': Run, events: map<EventKey, EventKind>, events': map<EventKey, EventKind>)
    requires RunHistory(r, run, events)
    requires run'.eventSequence == run.eventSequence + 1
    requires TransitionAllowed(run.status, run'.status)
    requires forall n :: EventKey(r, n) in events' <==> EventKey(r, n) in events || n == run'.eventSequence
    requires forall n | EventKey(r, n) in events :: events'[EventKey(r, n)] == events[EventKey(r, n)]
    requires After(events'[EventKey(r, run'.eventSequence)]) == run'.status
    ensures RunHistory(r, run', events')
  {
    forall n | 1 <= n < run'.eventSequence
      ensures Consecutive(events', r, n)
    {
      if n < run.eventSequence {
        assert Consecutive(events, r, n);
      }
    }
  }

  /** Commit on an existing run. */
  lemma CommitHistory(s: State, id: Id, run: Run, kind: EventKind)
    requires History(s.runs, s.events) && id in s.runs
    requires run.eventSequence == s.runs[id].eventSequence
    requires TransitionAllowed(s.runs[id].status, run.status) && After(kind) == run.status
    ensures var s' := Commit(s, id, run, kind); History(s'.runs, s'.events)
  {
    var s' := Commit(s, id, run, kind);
    forall r | r in s'.runs
      ensures RunHistory(r, s'.runs[r], s'.events)
    {
      if r == id {
        HistoryAppend(r, s.runs[r], s'.runs[r], s.events, s'.events);
      } else {
        HistoryOther(r, s.runs[r], s.events, s'.events);
      }
    }
  }

  /** Commit of a run that was not there before. */
  lemma AddRunHistory(s: State, id: Id, spec: RunSpec, sweep: Option<Id>, parent: Option<Id>)
    requires History(s.runs, s.events) && id !in s.runs
    ensures var s' := AddRun(s, id, spec, sweep, parent); History(s'.runs, s'.events)
  {
    var s' := AddRun(s, id, spec, sweep, parent);
    forall r | r in s'.runs
      ensures RunHistory(r, s'.runs[r], s'.events)
    {
      if r != id {
        HistoryOther(r, s.runs[r], s.events, s'.events);
      }
    }
  }

  lemma RequeuedEvents(s: State, r: Id)
    requires r in s.runs && EventKey(r, s.runs[r].eventSequence + 1) !in s.events
    ensures
      var after := Requeue(s).state.events;
      var due, next := RetryDue(s, s.runs[r]), s.runs[r].eventSequence + 1;
      && (forall n :: EventKey(r, n) in after <==> EventKey(r, n) in s.events || (due && n == next))
      && (forall n | EventKey(r, n) in s.events :: after[EventKey(r, n)] == s.events[EventKey(r, n)])
      && (due ==> after[EventKey(r, next)] == Requeued)
  {
  }

  lemma RequeueRunHistory(s: State, r: Id)
    requires r in s.runs && RunHistory(r, s.runs[r], s.events)
    ensures var s' := Requeue(s).state; RunHistory(r, s'.runs[r], s'.events)
  {
    var s' := Requeue(s).state;
    RequeuedEvents(s, r);
    if RetryDue(s, s.runs[r]) {
      HistoryAppend(r, s.runs[r], s'.runs[r], s.events, s'.events);
    } else {
      HistoryOther(r, s.runs[r], s.events, s'.events);
    }
  }

  lemma RequeueHistory(s: State)
    requires History(s.runs, s.events)
    ensures var s' := Requeue(s).state; History(s'.runs, s'.events)
  {
    var s' := Requeue(s).state;
    forall r | r in s'.runs
      ensures RunHistory(r, s'.runs[r], s'.events)
    {
      RequeueRunHistory(s, r);
    }
  }

  // ---- Devices and allocations ----------------------------------------------------------------

  lemma TouchGpus(s: State, id: Id, a: Attempt)
    requires CanTouch(s, id, a) && Gpus(s) && a.cleaned == s.attempts[id].cleaned
    ensures Gpus(SetAttempt(s, id, a))
  {
  }

  lemma MoveGpus(s: State, id: Id, a: Attempt, r: Run, kind: EventKind)
    requires CanMove(s, id, a, r, kind) && Agree(s.runs, s.attempts) && Gpus(s)
    ensures Gpus(Move(s, id, a, r, kind))
  {
  }

  /** Marking an inactive attempt clean and releasing its devices belong together. */
  lemma ReleaseGpus(s: State, id: Id)
    requires id in s.attempts && !Active(s.attempts[id].status) && Gpus(s)
    ensures Gpus(SetAttempt(s, id, s.attempts[id].(cleaned := true)).(allocations := Release(s.allocations, id)))
  {
    var freed := Release(s.allocations, id);
    forall a
      ensures AllocatedTo(freed, a) == AllocatedTo(s.allocations, a)
    {
      assert forall k :: k in freed <==> k in s.allocations;
    }
  }

  lemma CleanKubernetes(s: State, id: Id)
    requires id in s.attempts && s.attempts[id].worker == KUBERNETES && !Active(s.attempts[id].status) && Gpus(s)
    ensures Gpus(SetAttempt(s, id, s.attempts[id].(cleaned := true)))
  {
  }

  lemma ReservedDevices(allocations: map<AllocationKey, bool>, id: Id, uuids: set<Id>)
    requires forall k | k in allocations :: k.attempt != id
    ensures var after := Reserve(allocations, id, uuids);
      && AllocatedTo(after, id) == uuids
      && forall a | a != id :: AllocatedTo(after, a) == AllocatedTo(allocations, a)
  {
    var after := Reserve(allocations, id, uuids);
    forall u | u in uuids
      ensures u in AllocatedTo(after, id)
    {
      assert AllocationKey(id, u) in after;
    }
    forall a | a != id
      ensures AllocatedTo(after, a) == AllocatedTo(allocations, a)
    {
      forall u | u in AllocatedTo(allocations, a)
        ensures u in AllocatedTo(after, a)
      {
        assert AllocationKey(a, u) in after;
      }
    }
  }

  lemma ReserveExclusive(allocations: map<AllocationKey, bool>, id: Id, uuids: set<Id>)
    requires Exclusive(allocations)
    requires forall u | u in uuids :: !Held(allocations, u)
    ensures Exclusive(Reserve(allocations, id, uuids))
  {
  }

  lemma ReserveBacked(s: State, id: Id, a: Attempt, uuids: set<Id>)
    requires Backed(s.attempts, s.devices, s.allocations) && id !in s.attempts
    requires forall u | u in uuids :: u in s.devices && s.devices[u].worker == a.worker
    requires a.worker != KUBERNETES ==> |uuids| == a.gpuCount
    requires !a.cleaned
    ensures Backed(s.attempts[id := a], s.devices, Reserve(s.allocations, id, uuids))
  {
    ReservedDevices(s.allocations, id, uuids);
  }

  /** A launch that claims only free devices of its own worker keeps claims exclusive. */
  lemma LaunchGpus(s: State, run: Id, id: Id, worker: Id, uuids: set<Id>)
    requires CanLaunch(s, run, id) && Gpus(s)
    requires worker == KUBERNETES || worker in s.workers
    requires uuids <= FreeDevices(s, worker)
    requires worker != KUBERNETES ==> |uuids| == s.runs[run].spec.resources.gpuCount
    ensures Gpus(Launch(s, run, id, worker).(allocations := Reserve(s.allocations, id, uuids)))
  {
    ReserveExclusive(s.allocations, id, uuids);
    ReserveBacked(s, id, NewAttempt(s, run, worker), uuids);
  }

  lemma {:induction false} UpsertedDevices(devices: map<Id, Device>, worker: Id, seen: seq<Observed>)
    requires forall i | 0 <= i < |seen| :: seen[i].uuid in devices ==> devices[seen[i].uuid].worker == worker
    ensures var after := Upserted(devices, worker, seen);
      && (forall u | u in devices :: u in after && after[u].worker == devices[u].worker)
      && (forall u | u in after && u !in devices :: after[u].worker == worker)
  {
    if seen != [] {
      UpsertedDevices(devices, worker, seen[..|seen| - 1]);
      assert seen[|seen| - 1].uuid in devices ==> devices[seen[|seen| - 1].uuid].worker == worker;
    }
  }
}
