/** What one tick of the Kubernetes controller achieves when nothing falls between its steps. */
module Ticks {
  import opened Base
  import opened Domain
  import opened Tables
  import opened Transactions
  import opened Invariants
  import opened Reachability
  import opened Recovery
  import opened Controller
  import D = Decisions

  /** One call per row; `gone` are the attempts whose Job the cluster no longer runs. */
  function Handles(order: seq<Id>, gone: set<Id>): seq<Action> {
    if order == [] then []
    else Handles(order[..|order| - 1], gone) + [Handle(order[|order| - 1], order[|order| - 1] in gone)]
  }

  function Among(order: seq<Id>): set<Id> { set a | a in order }

  /** Up to the point where admission begins. */
  function Sweeps(order: seq<Id>, gone: set<Id>): seq<Action> {
    [Snapshot] + [Inventory] + [EndSweep] + Handles(order, gone) + [BeginAdmission]
  }

  lemma {:induction false} PlayAppend(c: Cluster, first: seq<Action>, second: seq<Action>)
    ensures Play(c, first + second) == Play(Play(c, first), second)
    decreases |second|
  {
    if second == [] {
      assert first + second == first;
    } else {
      var n := |second| - 1;
      PlayAppend(c, first, second[..n]);
      assert (first + second)[..|first + second| - 1] == first + second[..n];
    }
  }

  lemma PlayOne(c: Cluster, done: seq<Action>, action: Action)
    ensures Play(c, done + [action]) == Act(Play(c, done), action)
  {
    assert (done + [action])[..|done|] == done;
  }

  // ---- What the rows call for -----------------------------------------------------------------

  predicate Executes(a: Attempt) { a.status in {Starting, Running, Finalizing} }

  /** Its Job was created, and is found to have ended. */
  predicate Ended(row: Attempt, a: Id, gone: set<Id>) {
    Executes(row) && row.runtime.Some? && row.runtime != Some("") && a in gone
  }

  predicate Starts(row: Attempt) { Executes(row) && (row.runtime.None? || row.runtime == Some("")) }

  /** The cluster once these rows of the snapshot are handled. */
  ghost predicate Swept(c: Cluster, rows: map<Id, Attempt>, done: set<Id>, gone: set<Id>, c': Cluster) {
    && c'.limit == c.limit && c'.removing == c.removing
    && (forall a :: a in c'.jobs <==>
          || (a in c.jobs && !(a in done && a in rows && !Executes(rows[a])))
          || (a in done && a in rows && Starts(rows[a])))
    && (forall a :: a in c'.owed <==> a in c.owed || (a in done && a in rows && !Executes(rows[a])))
    && c'.db.attempts.Keys == c.db.attempts.Keys
    && (forall a | a in c.db.attempts ::
          if a in done && a in rows && Ended(rows[a], a, gone)
          then c'.db.attempts[a].status == Failed && c'.db.attempts[a].exitCode == None
          else c'.db.attempts[a] == c.db.attempts[a])
  }

  ghost predicate Midway(c: Cluster, rows: map<Id, Attempt>, done: set<Id>, gone: set<Id>, c': Cluster) {
    && Inv(c'.db) && c'.phase == Working(rows - done) && Swept(c, rows, done, gone, c')
  }

  /** The snapshot is what the database says. */
  ghost predicate Current(c: Cluster, rows: map<Id, Attempt>) {
    forall a | a in rows :: a in c.db.attempts && rows[a] == c.db.attempts[a] && rows[a].worker == KUBERNETES
  }

  lemma JobEnds(s: State, a: Id)
    requires Inv(s) && a in s.attempts && s.attempts[a].worker == KUBERNETES && Executes(s.attempts[a])
    ensures
      var s' := Step(s, KubernetesStoppedOp(a));
      Inv(s') && FailedAlone(s, s', a)
  {
    StepKeeps(s, KubernetesStoppedOp(a));
    StoppedDispatch(s, a);
    D.JobEndDecides(s, a);
    StoppedRows(s, KubernetesStopped(s, a).state, a);
  }

  lemma StoppedDispatch(s: State, a: Id)
    ensures Step(s, KubernetesStoppedOp(a)) == KubernetesStopped(s, a).state
  {
  }

  ghost predicate FailedAlone(s: State, s': State, a: Id)
    requires a in s.attempts
  {
    && s'.attempts.Keys == s.attempts.Keys
    && s'.attempts[a].status == Failed && s'.attempts[a].exitCode == None
    && (forall b | b in s.attempts && b != a :: s'.attempts[b] == s.attempts[b])
  }

  lemma GivenUpRows(s: State, s': State, a: Id, reason: string, worth: bool)
    requires D.GivesUp(s, s', a, reason, None, worth)
    ensures FailedAlone(s, s', a)
  {
    assert s'.attempts == s.attempts[a := s.attempts[a].(status := Failed, reason := reason, exitCode := None)];
  }

  lemma StoppedRows(s: State, s': State, a: Id)
    requires Core(s) && a in s.attempts && s.attempts[a].worker == KUBERNETES && Executes(s.attempts[a])
    requires D.JobEndDecision(s, s', Done, a)
    ensures FailedAlone(s, s', a)
  {
    var x := s.attempts[a];
    if x.status == Running && D.Gone(x.executionDeadline, s.now) {
      GivenUpRows(s, s', a, "TIMEOUT", s.runs[x.run].spec.retry.retryTimeout);
    } else {
      GivenUpRows(s, s', a, "RUNTIME_STOPPED", true);
    }
  }

  lemma HandleOne(c: Cluster, rows: map<Id, Attempt>, done: set<Id>, gone: set<Id>, m: Cluster, a: Id)
    requires Current(c, rows) && Midway(c, rows, done, gone, m) && a in rows && a !in done
    ensures Midway(c, rows, done + {a}, gone, Act(m, Handle(a, a in gone)))
  {
    RowsLeft(c, rows, done, gone, m, a);
    HandleDispatch(m, a, a in gone);
    HandledIs(m, a, a in gone);
    HandledDb(m, rows[a], a, gone);
    SweptOneMore(c, rows, done, gone, m, a, Handled(m, a, a in gone));
  }

  lemma RowsLeft(c: Cluster, rows: map<Id, Attempt>, done: set<Id>, gone: set<Id>, m: Cluster, a: Id)
    requires Current(c, rows) && Midway(c, rows, done, gone, m) && a in rows && a !in done
    ensures m.phase == Working(rows - done) && rows - done - {a} == rows - (done + {a})
    ensures a in c.db.attempts && a in m.db.attempts && rows[a] == m.db.attempts[a] == m.phase.todo[a]
    ensures rows[a].worker == KUBERNETES
  {
  }

  lemma HandledDb(m: Cluster, row: Attempt, a: Id, gone: set<Id>)
    requires Inv(m.db) && m.phase.Working? && a in m.phase.todo && a in m.db.attempts
    requires m.phase.todo[a] == m.db.attempts[a] == row && row.worker == KUBERNETES
    ensures
      var db := Handled(m, a, a in gone).db;
      && Inv(db) && db.attempts.Keys == m.db.attempts.Keys
      && (forall b | b in m.db.attempts && b != a :: db.attempts[b] == m.db.attempts[b])
      && if Ended(row, a, gone) then db.attempts[a].status == Failed && db.attempts[a].exitCode == None
         else db.attempts[a] == m.db.attempts[a]
  {
    HandledIs(m, a, a in gone);
    if Ended(row, a, gone) {
      JobEnds(m.db, a);
    }
  }

  lemma HandledIs(m: Cluster, a: Id, stopped: bool)
    requires m.phase.Working? && a in m.phase.todo
    ensures
      var row, c' := m.phase.todo[a], Handled(m, a, stopped);
      && c'.phase == Working(m.phase.todo - {a}) && c'.limit == m.limit && c'.removing == m.removing
      && c'.jobs == (if !Executes(row) then m.jobs - {a} else if Starts(row) then m.jobs + {a} else m.jobs)
      && c'.owed == (if !Executes(row) then m.owed + {a} else m.owed)
      && c'.db == (if Ended(row, a, if stopped then {a} else {}) then Step(m.db, KubernetesStoppedOp(a)) else m.db)
  {
  }

  lemma SweptOneMore(c: Cluster, rows: map<Id, Attempt>, done: set<Id>, gone: set<Id>, m: Cluster, a: Id, c': Cluster)
    requires Swept(c, rows, done, gone, m) && a in rows && a !in done && a in c.db.attempts
    requires c'.limit == m.limit && c'.removing == m.removing
    requires c'.jobs == if !Executes(rows[a]) then m.jobs - {a} else if Starts(rows[a]) then m.jobs + {a} else m.jobs
    requires c'.owed == if !Executes(rows[a]) then m.owed + {a} else m.owed
    requires c'.db.attempts.Keys == m.db.attempts.Keys
    requires forall b | b in m.db.attempts && b != a :: c'.db.attempts[b] == m.db.attempts[b]
    requires if Ended(rows[a], a, gone) then c'.db.attempts[a].status == Failed && c'.db.attempts[a].exitCode == None
             else c'.db.attempts[a] == m.db.attempts[a]
    ensures Swept(c, rows, done + {a}, gone, c')
  {
  }

  lemma NothingHandled(c: Cluster, rows: map<Id, Attempt>, gone: set<Id>)
    requires Inv(c.db) && c.phase == Working(rows)
    ensures Midway(c, rows, {}, gone, c)
  {
    assert rows - {} == rows;
  }

  ghost predicate Arranged(rows: map<Id, Attempt>, order: seq<Id>) {
    && (forall a | a in order :: a in rows)
    && (forall i, j | 0 <= i < j < |order| :: order[i] != order[j])
  }

  lemma LastOf(rows: map<Id, Attempt>, order: seq<Id>)
    requires Arranged(rows, order) && order != []
    ensures
      var init, a := order[..|order| - 1], order[|order| - 1];
      && Arranged(rows, init) && a in rows && a !in Among(init) && Among(order) == Among(init) + {a}
  {
  }

  lemma {:induction false} HandleLoop(c: Cluster, rows: map<Id, Attempt>, order: seq<Id>, gone: set<Id>)
    requires Inv(c.db) && c.phase == Working(rows) && Current(c, rows) && Arranged(rows, order)
    ensures Midway(c, rows, Among(order), gone, Play(c, Handles(order, gone)))
    decreases |order|
  {
    if order == [] {
      NothingHandled(c, rows, gone);
      assert Among(order) == {};
    } else {
      var init, a := order[..|order| - 1], order[|order| - 1];
      LastOf(rows, order);
      HandleLoop(c, rows, init, gone);
      HandleOne(c, rows, Among(init), gone, Play(c, Handles(init, gone)), a);
      PlayOne(c, Handles(init, gone), Handle(a, a in gone));
    }
  }

  // ---- The tick -------------------------------------------------------------------------------

  lemma NothingUnknown(c: Cluster)
    requires Orderly(c) && c.phase == Controller.Phase.Resting
    ensures c.jobs - Rows(c.db).Keys == {}
  {
    ScanKeeps(c, Snapshot);
    InventoryKeeps(c.(phase := Controller.Phase.Listed(Rows(c.db))));
  }

  lemma Surveyed(c: Cluster)
    requires c.phase == Controller.Phase.Resting && c.jobs - Rows(c.db).Keys == {}
    ensures Play(c, [Snapshot] + [Inventory] + [EndSweep]) == c.(phase := Working(Rows(c.db)))
  {
    PlayOne(c, [], Snapshot);
    assert [] + [Snapshot] == [Snapshot];
    PlayOne(c, [Snapshot], Inventory);
    PlayOne(c, [Snapshot] + [Inventory], EndSweep);
  }

  /**
   * A tick nobody disturbs, up to its admissions: every pending attempt that is over has lost its Job
   * and its removal is to be recorded, every one that executes without a runtime has its Job, every
   * one whose Job ended has failed, and everything else is as it was.
   */
  lemma SweepWorks(c: Cluster, order: seq<Id>, gone: set<Id>)
    requires ClusterInv(c) && c.phase == Controller.Phase.Resting
    requires Arranged(Rows(c.db), order) && Among(order) == Pending(c.db.attempts, KUBERNETES)
    ensures
      var c' := Play(c, Sweeps(order, gone));
      && c'.phase == Admitting(4, None)
      && Swept(c, Rows(c.db), Pending(c.db.attempts, KUBERNETES), gone, c')
  {
    var start := c.(phase := Working(Rows(c.db)));
    NothingUnknown(c);
    Surveyed(c);
    SweptByLoop(c, order, gone);
    SweepEnds(c, start, order, gone);
    SweptStart(c, Rows(c.db), Among(order), gone, Play(start, Handles(order, gone)));
  }

  lemma SweepEnds(c: Cluster, start: Cluster, order: seq<Id>, gone: set<Id>)
    requires Play(c, [Snapshot] + [Inventory] + [EndSweep]) == start
    requires Play(start, Handles(order, gone)).phase == Working(map[])
    ensures Play(c, Sweeps(order, gone)) == Play(start, Handles(order, gone)).(phase := Admitting(4, None))
  {
    var head := [Snapshot] + [Inventory] + [EndSweep];
    PlayAppend(c, head, Handles(order, gone));
    PlayOne(c, head + Handles(order, gone), BeginAdmission);
  }

  lemma RowsCurrent(c: Cluster)
    ensures Current(c, Rows(c.db)) && Rows(c.db) - Pending(c.db.attempts, KUBERNETES) == map[]
  {
  }

  lemma SweptByLoop(c: Cluster, order: seq<Id>, gone: set<Id>)
    requires Inv(c.db) && Arranged(Rows(c.db), order) && Among(order) == Pending(c.db.attempts, KUBERNETES)
    ensures
      var start := c.(phase := Working(Rows(c.db)));
      var m := Play(start, Handles(order, gone));
      && m.phase == Working(map[]) && Swept(start, Rows(c.db), Among(order), gone, m)
  {
    var start := c.(phase := Working(Rows(c.db)));
    RowsCurrent(c);
    RowsCurrent(start);
    HandleLoop(start, Rows(c.db), order, gone);
  }

  lemma SweptStart(c: Cluster, rows: map<Id, Attempt>, done: set<Id>, gone: set<Id>, m: Cluster)
    requires Swept(c.(phase := Working(rows)), rows, done, gone, m)
    ensures Swept(c, rows, done, gone, m.(phase := Admitting(4, None)))
  {
  }

  lemma LaunchFollows(c: Cluster, rounds: nat, tx: Tx)
    ensures
      Act(Admitted(c, rounds, tx), LaunchAdmitted) ==
      if tx.reply.Granted?
      then c.(db := tx.state, jobs := c.jobs + {tx.reply.attempt}, phase := Admitting(rounds, None))
      else c.(db := tx.state, phase := Controller.Phase.Resting)
  {
  }

  lemma AdmitAnswers(s: State, limit: int, id: Id, skipped: set<Id>)
    ensures
      var tx := Admit(s, limit, id, skipped);
      if tx.reply.Granted? then tx.reply == Granted(id) else tx.state == s
  {
  }

  /** Whoever is admitted gets a Job at once; the first refusal, or the fourth admission, ends the tick. */
  lemma AdmissionWorks(c: Cluster, rounds: nat, id: Id, skipped: set<Id>)
    requires c.phase == Admitting(rounds, None)
    ensures
      var c' := Act(Act(c, AdmitNext(id, skipped)), LaunchAdmitted);
      var tx := Admit(c.db, c.limit, id, skipped);
      if rounds > 0 && tx.reply == Granted(id)
      then c' == c.(db := tx.state, jobs := c.jobs + {id}, phase := Admitting(rounds - 1, None))
      else c' == c.(phase := Controller.Phase.Resting)
  {
    AdmitNextDispatch(c, id, skipped);
    if rounds > 0 {
      AdmitAnswers(c.db, c.limit, id, skipped);
      LaunchFollows(c, rounds - 1, Admit(c.db, c.limit, id, skipped));
    }
  }
}
