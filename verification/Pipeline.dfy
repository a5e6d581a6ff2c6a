/**
 * The reporter beside the store: batches may be lost, repeated and served in any order, at any
 * later time, between any other transactions; replies may be lost.
 */
module Pipeline {
  import opened Base
  import opened Domain
  import opened Tables
  import opened Transactions
  import opened Invariants
  import opened Reachability
  import opened Scheduling
  import opened Reporting

  datatype World = World(
    db: State,
    owner: Owner,
    buffer: Buffer,
    sent: set<seq<Record>>,              // every batch ever put on the network
    waiting: Option<seq<Record>>,        // the request the sender is waiting for
    reply: Option<int>,                  // the acknowledgement on its way back
    failed: bool,
    flushed: Option<int>)                // what flush() returned

  datatype Action =
    | Database(op: Op)
    | Enqueue(record: Record, timestamp: int)
    | Send(size: nat)
    | Serve(batch: seq<Record>)
    | Receive(timestamp: int)
    | Lose
    | Break
    | Flush

  function ReportOf(w: World, batch: seq<Record>): Op {
    ReportOp(w.owner.attempt, w.owner.generation, w.owner.instance, batch)
  }

  /** Only the owner's own requests carry its instance id. */
  predicate OwnReport(w: World, op: Op) {
    op.ReportOp? && op.attempt == w.owner.attempt && op.instance == w.owner.instance
  }

  ghost function Served(w: World, batch: seq<Record>, tx: Tx): World {
    w.(db := tx.state,
       reply := if w.waiting == Some(batch) && tx.reply.Acked? then Some(tx.reply.sequence) else w.reply)
  }

  /** The runner's own steps; flush() comes after the last record. */
  function RunnerStep(w: World, action: Action): World {
    match action
    case Enqueue(record, timestamp) =>
      if w.failed || w.flushed.Some? || !Admissible(record) then w
      else w.(buffer := Enqueued(w.buffer, record, timestamp))
    case Send(size) =>
      if w.failed || w.waiting.Some? || size == 0 || size > |w.buffer.queue| then w
      else
        var batch := w.buffer.queue[..size];
        w.(waiting := Some(batch), sent := w.sent + {batch})
    case Receive(timestamp) =>
      if w.waiting.None? || w.reply.None? || |w.buffer.queue| >= w.buffer.next then w
      else w.(buffer := Acknowledged(w.buffer, w.reply.value, timestamp), waiting := None, reply := None)
    case Lose => w.(waiting := None, reply := None)
    case Break => w.(failed := true, waiting := None, reply := None)
    case Flush =>
      if w.failed || w.buffer.queue != [] || w.flushed.Some? then w else w.(flushed := Some(w.buffer.next - 1))
    case _ => w
  }

  ghost function Act(w: World, action: Action): World {
    match action
    case Database(op) => if OwnReport(w, op) then w else w.(db := Step(w.db, op))
    case Serve(batch) =>
      if batch in w.sent
      then Served(w, batch, Report(w.db, w.owner.attempt, w.owner.generation, w.owner.instance, batch))
      else w
    case _ => RunnerStep(w, action)
  }

  ghost function Play(w: World, actions: seq<Action>): World {
    if actions == [] then w else Act(Play(w, actions[..|actions| - 1]), actions[|actions| - 1])
  }

  /** The attempt was claimed by this runner, which has reported nothing yet. */
  ghost predicate Initial(w: World) {
    && Inv(w.db) && w.owner.instance != "" && w.owner.attempt in w.db.attempts
    && w.db.attempts[w.owner.attempt].instance == w.owner.instance
    && w.db.attempts[w.owner.attempt].ack == 0
    && w.buffer == EMPTY && w.sent == {} && w.waiting.None? && w.reply.None? && !w.failed && w.flushed.None?
  }

  /** Nothing is stored for an attempt before it is claimed, so every claim starts from there. */
  lemma {:induction false} UnclaimedHasNothing(timing: Timing, now: Time, ops: seq<Op>, a: Id)
    requires ValidTiming(timing)
    ensures
      var s := Exec(Empty(timing, now), ops);
      a in s.attempts && s.attempts[a].instance == "" ==> s.attempts[a].ack == 0
  {
    if ops != [] {
      var m := Exec(Empty(timing, now), ops[..|ops| - 1]);
      UnclaimedHasNothing(timing, now, ops[..|ops| - 1], a);
      Reachable(timing, now, ops[..|ops| - 1]);
      StepKeeps(m, ops[|ops| - 1]);
      StepAccounted(m, ops[|ops| - 1]);
      UnclaimedAfter(m, ops[|ops| - 1], Exec(Empty(timing, now), ops), a);
    }
  }

  lemma UnclaimedAfter(s: State, op: Op, s': State, a: Id)
    requires AttemptsEvolve(s.attempts, s'.attempts) && Accounted(s, op, s')
    requires a in s.attempts && s.attempts[a].instance == "" ==> s.attempts[a].ack == 0
    ensures a in s'.attempts && s'.attempts[a].instance == "" ==> s'.attempts[a].ack == 0
  {
  }

  // ---- Rows and records -----------------------------------------------------------------------

  /** The first n stored rows are the first n numbered records. */
  ghost predicate Copies(rows: map<RecordKey, Record>, id: Id, n: int, log: seq<Record>) {
    && 0 <= n <= |log|
    && (forall i | 1 <= i <= n :: RecordKey(id, i) in rows && rows[RecordKey(id, i)] == log[i - 1])
  }

  predicate Genuine(r: Record, log: seq<Record>) { 1 <= r.sequence <= |log| && r == log[r.sequence - 1] }

  predicate AllGenuine(batch: seq<Record>, log: seq<Record>) {
    forall i | 0 <= i < |batch| :: Genuine(batch[i], log)
  }

  /** Whatever subset, order or repetition of genuine records arrives, only the next one is stored. */
  lemma {:induction false} ServingCopies(
    rows: map<RecordKey, Record>, id: Id, ack: int, batch: seq<Record>, log: seq<Record>)
    requires Copies(rows, id, ack, log) && AllGenuine(batch, log)
    ensures Copies(Inserted(rows, id, ack, batch), id, Absorbed(ack, batch), log)
    ensures ack <= Absorbed(ack, batch)
    decreases |batch|
  {
    if batch != [] {
      assert Genuine(batch[0], log);
      assert AllGenuine(batch[1..], log) by {
        assert forall i | 0 <= i < |batch| - 1 :: batch[1..][i] == batch[i + 1];
      }
      if batch[0].sequence <= ack {
        ServingCopies(rows, id, ack, batch[1..], log);
      } else if batch[0].sequence == ack + 1 {
        ServingCopies(rows[RecordKey(id, ack + 1) := batch[0]], id, ack + 1, batch[1..], log);
      }
    }
  }

  // ---- What holds throughout ------------------------------------------------------------------

  /** How many of the numbered records were released. */
  function Cleared(b: Buffer): int { |b.log| - |b.queue| }

  ghost predicate Stored(db: State, owner: Owner, log: seq<Record>) {
    && owner.attempt in db.attempts && owner.instance != ""
    && db.attempts[owner.attempt].instance == owner.instance
    && Copies(db.telemetry, owner.attempt, db.attempts[owner.attempt].ack, log)
  }

  ghost predicate SentGenuine(sent: set<seq<Record>>, log: seq<Record>) {
    forall batch | batch in sent :: AllGenuine(batch, log)
  }

  ghost predicate Linked(w: World) {
    && Sound(w.buffer)
    && Stored(w.db, w.owner, w.buffer.log)
    && SentGenuine(w.sent, w.buffer.log)
    && Cleared(w.buffer) <= w.db.attempts[w.owner.attempt].ack
    && (w.reply.Some? ==> w.reply.value <= w.db.attempts[w.owner.attempt].ack)
    && (w.flushed.Some? ==> w.buffer.queue == [] && w.flushed.value == |w.buffer.log|)
  }

  ghost predicate PipeInv(w: World) { Inv(w.db) && Linked(w) }

  lemma QuietKeeps(w: World, op: Op, db': State)
    requires Linked(w) && Evolves(w.db, db') && Accounted(w.db, op, db') && !OwnReport(w, op)
    ensures Linked(w.(db := db'))
  {
  }

  lemma DatabaseKeeps(w: World, op: Op)
    requires PipeInv(w) && !OwnReport(w, op)
    ensures PipeInv(w.(db := Step(w.db, op)))
  {
    StepKeeps(w.db, op);
    StepAccounted(w.db, op);
    QuietKeeps(w, op, Step(w.db, op));
  }

  /** An accepted report keeps the rows a copy of the log and answers with what is stored. */
  lemma ReportCopies(db: State, owner: Owner, batch: seq<Record>, log: seq<Record>)
    requires Stored(db, owner, log) && AllGenuine(batch, log)
    ensures
      var tx := Report(db, owner.attempt, owner.generation, owner.instance, batch);
      && Stored(tx.state, owner, log)
      && db.attempts[owner.attempt].ack <= tx.state.attempts[owner.attempt].ack
      && (tx.reply.Acked? ==> tx.reply.sequence == tx.state.attempts[owner.attempt].ack)
  {
    var tx := Report(db, owner.attempt, owner.generation, owner.instance, batch);
    if tx.reply.Acked? {
      var a := db.attempts[owner.attempt];
      ServingCopies(db.telemetry, owner.attempt, a.ack, batch, log);
      assert tx.state.attempts == db.attempts[owner.attempt := a.(ack := Absorbed(a.ack, batch))];
      assert tx.state.telemetry == Inserted(db.telemetry, owner.attempt, a.ack, batch);
    } else {
      assert tx.state == db;
    }
  }

  lemma ServeLinked(w: World, batch: seq<Record>, tx: Tx)
    requires Linked(w) && batch in w.sent && Stored(tx.state, w.owner, w.buffer.log)
    requires w.db.attempts[w.owner.attempt].ack <= tx.state.attempts[w.owner.attempt].ack
    requires tx.reply.Acked? ==> tx.reply.sequence == tx.state.attempts[w.owner.attempt].ack
    ensures Linked(Served(w, batch, tx))
  {
  }

  lemma ReportDispatch(s: State, op: Op)
    requires op.ReportOp?
    ensures Step(s, op) == Report(s, op.attempt, op.generation, op.instance, op.records).state
  {
  }

  lemma ServeDb(w: World, batch: seq<Record>)
    requires Inv(w.db)
    ensures Inv(Report(w.db, w.owner.attempt, w.owner.generation, w.owner.instance, batch).state)
  {
    ReportDispatch(w.db, ReportOf(w, batch));
    StepKeeps(w.db, ReportOf(w, batch));
  }

  lemma ServeRows(w: World, batch: seq<Record>)
    requires Linked(w) && batch in w.sent
    ensures Linked(Served(w, batch, Report(w.db, w.owner.attempt, w.owner.generation, w.owner.instance, batch)))
  {
    ReportCopies(w.db, w.owner, batch, w.buffer.log);
    ServeLinked(w, batch, Report(w.db, w.owner.attempt, w.owner.generation, w.owner.instance, batch));
  }

  lemma ServeKeeps(w: World, batch: seq<Record>)
    requires PipeInv(w) && batch in w.sent
    ensures PipeInv(Served(w, batch, Report(w.db, w.owner.attempt, w.owner.generation, w.owner.instance, batch)))
  {
    ServeDb(w, batch);
    ServeRows(w, batch);
  }

  // ---- The runner's own steps -----------------------------------------------------------------

  lemma LogGrows(w: World, b': Buffer, more: seq<Record>)
    requires Linked(w) && Sound(b') && b'.log == w.buffer.log + more
    requires Cleared(b') <= w.db.attempts[w.owner.attempt].ack
    requires w.flushed.Some? ==> b'.queue == [] && |b'.log| == |w.buffer.log|
    ensures Linked(w.(buffer := b'))
  {
  }

  lemma EnqueueLinked(w: World, record: Record, timestamp: int)
    requires Linked(w) && Admissible(record) && w.flushed.None?
    ensures Linked(w.(buffer := Enqueued(w.buffer, record, timestamp)))
  {
    var b' := Enqueued(w.buffer, record, timestamp);
    EnqueueKeeps(w.buffer, record, timestamp);
    if w.buffer.bytes + Size(record) > BUFFER_LIMIT {
      LogGrows(w, b', []);
    } else {
      LogGrows(w, b', [record.(sequence := w.buffer.next, timestamp := timestamp)]);
    }
  }

  /** Only what is stored is released. */
  lemma ReceiveLinked(w: World, timestamp: int)
    requires Linked(w) && w.reply.Some?
    ensures Linked(w.(buffer := Acknowledged(w.buffer, w.reply.value, timestamp)))
  {
    var b := w.buffer;
    var b' := Acknowledged(b, w.reply.value, timestamp);
    AcknowledgeKeeps(b, w.reply.value, timestamp);
    var m := Dequeued(b, Released(b, w.reply.value));
    if m.dropped != 0 && m.bytes < BUFFER_LIMIT - 1024 {
      LogGrows(w, b', [Notice(m.next, m.dropped, timestamp)]);
    } else {
      assert b'.log == b.log + [];
      LogGrows(w, b', []);
    }
  }

  lemma SendLinked(w: World, size: nat)
    requires Linked(w) && size <= |w.buffer.queue|
    ensures Linked(w.(waiting := Some(w.buffer.queue[..size]), sent := w.sent + {w.buffer.queue[..size]}))
  {
  }

  lemma RunnerKeeps(w: World, action: Action)
    requires Linked(w)
    ensures Linked(RunnerStep(w, action)) && RunnerStep(w, action).db == w.db
  {
    match action
    case Enqueue(record, timestamp) =>
      if w.flushed.None? && Admissible(record) {
        EnqueueLinked(w, record, timestamp);
      }
    case Send(size) =>
      if size <= |w.buffer.queue| {
        SendLinked(w, size);
      }
    case Receive(timestamp) =>
      if w.reply.Some? {
        ReceiveLinked(w, timestamp);
      }
    case _ =>
  }

  lemma ActKeeps(w: World, action: Action)
    requires PipeInv(w)
    ensures PipeInv(Act(w, action))
  {
    ActDispatch(w, action);
    if action.Database? {
      if !OwnReport(w, action.op) {
        DatabaseKeeps(w, action.op);
      }
    } else if action.Serve? {
      if action.batch in w.sent {
        ServeKeeps(w, action.batch);
      }
    } else {
      RunnerKeeps(w, action);
    }
  }

  lemma ActDispatch(w: World, action: Action)
    ensures action.Database? ==>
      Act(w, action) == if OwnReport(w, action.op) then w else w.(db := Step(w.db, action.op))
    ensures action.Serve? && action.batch in w.sent ==>
      Act(w, action)
      == Served(w, action.batch, Report(w.db, w.owner.attempt, w.owner.generation, w.owner.instance, action.batch))
    ensures action.Serve? && action.batch !in w.sent ==> Act(w, action) == w
    ensures !action.Database? && !action.Serve? ==> Act(w, action) == RunnerStep(w, action)
  {
  }

  lemma ActIdentity(w: World, action: Action)
    ensures Act(w, action).owner == w.owner
  {
  }

  lemma InitialLinked(w: World)
    requires Initial(w)
    ensures Linked(w)
  {
  }

  lemma {:induction false} PlayKeeps(w: World, actions: seq<Action>)
    requires Initial(w)
    ensures PipeInv(Play(w, actions)) && Play(w, actions).owner == w.owner
  {
    if actions == [] {
      InitialLinked(w);
    } else {
      PlayKeeps(w, actions[..|actions| - 1]);
      ActKeeps(Play(w, actions[..|actions| - 1]), actions[|actions| - 1]);
      ActIdentity(Play(w, actions[..|actions| - 1]), actions[|actions| - 1]);
    }
  }

  // ---- Results --------------------------------------------------------------------------------

  /** The attempt's stored rows are exactly the sequences 1..ack, and row n is the n-th numbered record. */
  lemma StoredPrefix(w: World, actions: seq<Action>, n: int)
    requires Initial(w)
    ensures
      var w' := Play(w, actions);
      var key := RecordKey(w.owner.attempt, n);
      && w.owner.attempt in w'.db.attempts
      && (key in w'.db.telemetry <==> 1 <= n <= w'.db.attempts[w.owner.attempt].ack)
      && (key in w'.db.telemetry ==> n <= |w'.buffer.log| && w'.db.telemetry[key] == w'.buffer.log[n - 1])
  {
    PlayKeeps(w, actions);
    PrefixOf(Play(w, actions), n);
  }

  lemma PrefixOf(w: World, n: int)
    requires Stored(w.db, w.owner, w.buffer.log) && Prefixed(w.db.attempts, w.db.telemetry)
    ensures
      var key := RecordKey(w.owner.attempt, n);
      && (key in w.db.telemetry <==> 1 <= n <= w.db.attempts[w.owner.attempt].ack)
      && (key in w.db.telemetry ==> n <= |w.buffer.log| && w.db.telemetry[key] == w.buffer.log[n - 1])
  {
  }

  /** A finish that passes the sequence check on a flushed reporter's answer. */
  ghost predicate Settled(w: World) {
    && w.flushed.Some? && w.owner.attempt in w.db.attempts
    && w.db.attempts[w.owner.attempt].ack == w.flushed.value == |w.buffer.log|
    && Copies(w.db.telemetry, w.owner.attempt, w.flushed.value, w.buffer.log)
    && (w.buffer.lost < UINT64 ==> NoticedIn(w.buffer.log) == w.buffer.lost)
  }

  lemma FlushSettles(w: World)
    requires Linked(w) && w.flushed.Some?
    ensures Settled(w)
  {
  }

  /**
   * A successful flush returns exactly the server's acknowledged sequence, then and ever after, so
   * finish() cannot fail its sequence check; and the stored notices count every dropped record.
   */
  lemma FlushIsExact(w: World, actions: seq<Action>)
    requires Initial(w)
    ensures Play(w, actions).flushed.Some? ==> Settled(Play(w, actions))
  {
    PlayKeeps(w, actions);
    if Play(w, actions).flushed.Some? {
      FlushSettles(Play(w, actions));
    }
  }

  /** With the flushed sequence an owner's completion is never in conflict over telemetry. */
  lemma FinishAccepts(w: World, exitCode: int, reason: string)
    requires Settled(w) && Owned(w.db, w.owner.attempt, w.owner.generation, w.owner.instance)
    ensures
      var tx := Finish(w.db, w.owner.attempt, w.owner.generation, w.owner.instance, exitCode, reason, w.flushed.value);
      || tx.reply.Done?
      || (exitCode == 0 && !w.db.runs[w.db.attempts[w.owner.attempt].run].status.Finalizing?)
  {
  }

  /** No request of the reporter is refused as malformed. */
  lemma BatchesAreValid(w: World, batch: seq<Record>)
    requires Sound(w.buffer) && AllGenuine(batch, w.buffer.log) && |batch| <= BATCH_RECORDS
    ensures
      var tx := Report(w.db, w.owner.attempt, w.owner.generation, w.owner.instance, batch);
      tx.reply != Refused(Invalid)
  {
  }
}
