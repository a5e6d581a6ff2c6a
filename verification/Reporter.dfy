/**
 * The runner's bounded telemetry buffer (src/runner/telemetry.cpp): records are numbered as they
 * are queued, dropped and counted when the buffer is full, sent in batches and released by the
 * acknowledged sequence. A later notice reports how many were dropped.
 */
module Reporting {
  import opened Base
  import opened Domain

  const BUFFER_LIMIT: int := 4194304
  const BATCH_BYTES: int := 262144
  const BATCH_RECORDS: int := 128
  const UINT64: int := 0x1_0000_0000_0000_0000

  function Size(r: Record): (n: int)
    ensures n >= 128
  {
    |r.text| + |r.name| + 128
  }

  function Weight(records: seq<Record>): (n: int)
    ensures n >= 128 * |records|
  {
    if records == [] then 0 else Weight(records[..|records| - 1]) + Size(records[|records| - 1])
  }

  lemma {:induction false} WeightSplit(a: seq<Record>, b: seq<Record>)
    ensures Weight(a + b) == Weight(a) + Weight(b)
    decreases |b|
  {
    if b == [] {
      assert a + b == a;
    } else {
      assert (a + b)[..|a + b| - 1] == a + b[..|b| - 1];
      WeightSplit(a, b[..|b| - 1]);
    }
  }

  // ---- Decimal counts in notices --------------------------------------------------------------

  function DecimalDigit(n: int): char
    requires 0 <= n < 10
  {
    '0' + n as char
  }

  /** std::to_string of an unsigned number. */
  function Decimal(n: nat): string {
    if n < 10 then [DecimalDigit(n)] else Decimal(n / 10) + [DecimalDigit(n % 10)]
  }

  function Parsed(s: string): int {
    if s == [] then 0 else 10 * Parsed(s[..|s| - 1]) + (s[|s| - 1] as int - '0' as int)
  }

  lemma {:induction false} ParsedDecimal(n: nat)
    ensures Parsed(Decimal(n)) == n && |Decimal(n)| >= 1
  {
    if n < 10 {
      assert Decimal(n)[..0] == [];
    } else {
      ParsedDecimal(n / 10);
      assert Decimal(n)[..|Decimal(n)| - 1] == Decimal(n / 10);
    }
  }

  function Power10(k: nat): nat { if k == 0 then 1 else 10 * Power10(k - 1) }

  lemma {:induction false} DecimalLength(n: nat, k: nat)
    requires k >= 1 && n < Power10(k)
    ensures |Decimal(n)| <= k
  {
    if n >= 10 {
      assert Power10(1) == 10;
      DecimalLength(n / 10, k - 1);
    }
  }

  lemma CountHas20Digits(n: nat)
    requires n < UINT64
    ensures |Decimal(n)| <= 20
  {
    assert Power10(5) == 100000;
    assert Power10(10) == 10000000000;
    assert Power10(15) == 1000000000000000;
    assert Power10(20) == 100000000000000000000;
    DecimalLength(n, 20);
  }

  lemma {:induction false} DecimalIsSafe(n: nat)
    ensures SafeString(Decimal(n))
  {
    if n >= 10 {
      DecimalIsSafe(n / 10);
    }
  }

  const PREFIX: string := "Telemetry buffer overflow: dropped "
  const SUFFIX: string := " records"

  lemma FixedText()
    ensures |PREFIX| == 35 && |SUFFIX| == 8 && SafeString(PREFIX) && SafeString(SUFFIX)
  {
  }

  lemma Parts(p: string, d: string, s: string)
    ensures p <= p + d + s && (p + d + s)[|p|..|p + d + s| - |s|] == d
    ensures SafeString(p) && SafeString(d) && SafeString(s) ==> SafeString(p + d + s)
  {
  }

  predicate Overflow(r: Record) { r.kind == "notice" && PREFIX <= r.text }

  /** The number of lost records a stored record reports. */
  function Noticed(r: Record): int {
    if Overflow(r) && |r.text| >= |PREFIX| + |SUFFIX| then Parsed(r.text[|PREFIX|..|r.text| - |SUFFIX|]) else 0
  }

  function NoticedIn(log: seq<Record>): int {
    if log == [] then 0 else NoticedIn(log[..|log| - 1]) + Noticed(log[|log| - 1])
  }

  function Notice(sequence: int, dropped: nat, timestamp: int): Record {
    Record(sequence, "notice", PREFIX + Decimal(dropped) + SUFFIX, "", 0, Finite(0.0), timestamp)
  }

  /** A notice can be read back, fits the room kept for it and passes the server's validation. */
  lemma NoticeReads(sequence: int, dropped: nat, timestamp: int)
    requires sequence > 0 && dropped < UINT64
    ensures
      var r := Notice(sequence, dropped, timestamp);
      Noticed(r) == dropped && Size(r) <= 1024 && ValidRecord(r)
  {
    ParsedDecimal(dropped);
    CountHas20Digits(dropped);
    DecimalIsSafe(dropped);
    FixedText();
    Parts(PREFIX, Decimal(dropped), SUFFIX);
  }

  // ---- The buffer -----------------------------------------------------------------------------

  /** The fields of a Reporter, with every record it ever numbered and how many it dropped. */
  datatype Buffer = Buffer(
    queue: seq<Record>, bytes: int, dropped: nat, next: int, log: seq<Record>, lost: nat)

  const EMPTY: Buffer := Buffer([], 0, 0, 1, [], 0)

  predicate Numbered(log: seq<Record>) {
    forall i | 0 <= i < |log| :: log[i].sequence == i + 1 && ValidRecord(log[i]) && Size(log[i]) <= BATCH_BYTES
  }

  /** What the mutex protects. */
  predicate Sound(b: Buffer) {
    && Numbered(b.log) && b.next == |b.log| + 1
    && Suffix(b.queue, b.log)
    && b.bytes == Weight(b.queue) <= BUFFER_LIMIT
    && (b.queue == [] ==> b.dropped == 0)
    && Balanced(NoticedIn(b.log), b.dropped, b.lost)
  }

  lemma EmptyIsSound()
    ensures Sound(EMPTY)
  {
  }

  predicate Suffix(queue: seq<Record>, log: seq<Record>) {
    |queue| <= |log| && queue == log[|log| - |queue|..]
  }

  /** Every loss is either announced or still counted, as long as the 64-bit counter cannot wrap. */
  predicate Balanced(noticed: int, dropped: nat, lost: nat) {
    && dropped < UINT64
    && 0 <= noticed <= lost - dropped
    && (lost < UINT64 ==> noticed + dropped == lost)
  }

  /** What log() and metric() hand to enqueue(). */
  predicate Admissible(r: Record) {
    ValidRecord(r.(sequence := 1)) && Size(r) <= BATCH_BYTES && !Overflow(r)
  }

  function Push(b: Buffer, r: Record): Buffer {
    b.(queue := b.queue + [r], bytes := b.bytes + Size(r), next := b.next + 1, log := b.log + [r])
  }

  function Enqueued(b: Buffer, r: Record, timestamp: int): Buffer {
    if b.bytes + Size(r) > BUFFER_LIMIT then b.(dropped := (b.dropped + 1) % UINT64, lost := b.lost + 1)
    else Push(b, r.(sequence := b.next, timestamp := timestamp))
  }

  /** How many queued records an acknowledged sequence releases. */
  function Released(b: Buffer, ack: int): nat
    requires |b.queue| < b.next
  {
    var first := b.next - |b.queue|;
    if ack < first then 0 else if ack - first + 1 > |b.queue| then |b.queue| else ack - first + 1
  }

  function Dequeued(b: Buffer, n: nat): Buffer
    requires n <= |b.queue|
  {
    b.(queue := b.queue[n..], bytes := b.bytes - Weight(b.queue[..n]))
  }

  /** The notice goes in as soon as there is room for it. */
  function Announced(b: Buffer, timestamp: int): Buffer {
    if b.dropped != 0 && b.bytes < BUFFER_LIMIT - 1024
    then Push(b, Notice(b.next, b.dropped, timestamp)).(dropped := 0)
    else b
  }

  function Acknowledged(b: Buffer, ack: int, timestamp: int): Buffer
    requires |b.queue| < b.next
  {
    Announced(Dequeued(b, Released(b, ack)), timestamp)
  }

  /** Numbering the next record keeps the books, if what it announces was counted. */
  lemma PushKeeps(b: Buffer, r: Record, dropped: nat)
    requires Numbered(b.log) && b.next == |b.log| + 1 && Suffix(b.queue, b.log) && b.bytes == Weight(b.queue)
    requires r.sequence == b.next && ValidRecord(r) && Size(r) <= BATCH_BYTES && b.bytes + Size(r) <= BUFFER_LIMIT
    requires Balanced(NoticedIn(b.log) + Noticed(r), dropped, b.lost)
    ensures Sound(Push(b, r).(dropped := dropped))
  {
  }

  lemma RenumberingKeeps(r: Record, sequence: int, timestamp: int)
    requires Admissible(r) && sequence > 0
    ensures
      var r' := r.(sequence := sequence, timestamp := timestamp);
      ValidRecord(r') && Size(r') == Size(r) && Noticed(r') == 0
  {
  }

  lemma DropCounts(noticed: int, dropped: nat, lost: nat)
    requires Balanced(noticed, dropped, lost)
    ensures Balanced(noticed, (dropped + 1) % UINT64, lost + 1)
  {
  }

  lemma EnqueueKeeps(b: Buffer, r: Record, timestamp: int)
    requires Sound(b) && Admissible(r)
    ensures Sound(Enqueued(b, r, timestamp))
  {
    if b.bytes + Size(r) > BUFFER_LIMIT {
      DropCounts(NoticedIn(b.log), b.dropped, b.lost);
    } else {
      RenumberingKeeps(r, b.next, timestamp);
      PushKeeps(b, r.(sequence := b.next, timestamp := timestamp), b.dropped);
    }
  }

  lemma DequeueSuffix(b: Buffer, n: nat)
    requires Suffix(b.queue, b.log) && b.bytes == Weight(b.queue) && n <= |b.queue|
    ensures
      var b' := Dequeued(b, n);
      Suffix(b'.queue, b'.log) && b'.bytes == Weight(b'.queue) <= b.bytes
  {
    var k := |b.log| - |b.queue|;
    assert b.log[k..][n..] == b.log[k + n..];
    assert b.queue == b.queue[..n] + b.queue[n..];
    WeightSplit(b.queue[..n], b.queue[n..]);
  }

  lemma AnnounceKeeps(b: Buffer, timestamp: int)
    requires Numbered(b.log) && b.next == |b.log| + 1 && Suffix(b.queue, b.log)
    requires b.bytes == Weight(b.queue) <= BUFFER_LIMIT && Balanced(NoticedIn(b.log), b.dropped, b.lost)
    ensures Sound(Announced(b, timestamp))
  {
    if b.dropped != 0 && b.bytes < BUFFER_LIMIT - 1024 {
      NoticeReads(b.next, b.dropped, timestamp);
      PushKeeps(b, Notice(b.next, b.dropped, timestamp), 0);
    } else {
      assert b.queue == [] ==> b.bytes == 0;
    }
  }

  /** Releasing what was acknowledged never leaves a loss unannounced behind an empty queue. */
  lemma AcknowledgeKeeps(b: Buffer, ack: int, timestamp: int)
    requires Sound(b)
    ensures Sound(Acknowledged(b, ack, timestamp))
  {
    DequeueSuffix(b, Released(b, ack));
    AnnounceKeeps(Dequeued(b, Released(b, ack)), timestamp);
  }

  /** A record leaves the queue exactly when its sequence is covered by the acknowledgement. */
  lemma ReleasesPrefix(b: Buffer, ack: int, i: nat)
    requires Numbered(b.log) && b.next == |b.log| + 1 && Suffix(b.queue, b.log) && i < |b.queue|
    ensures b.queue[i].sequence <= ack <==> i < Released(b, ack)
  {
  }

  /**
   * No silent loss: once the queue is empty, the counts in the numbered notices add up to exactly
   * the number of dropped records.
   */
  lemma EmptyQueueTellsAll(b: Buffer)
    requires Sound(b) && b.queue == [] && b.lost < UINT64
    ensures NoticedIn(b.log) == b.lost
  {
  }

  /** The queued records that an acknowledgement leaves. */
  function Unacknowledged(queue: seq<Record>, ack: int): seq<Record> {
    if queue != [] && queue[0].sequence <= ack then Unacknowledged(queue[1..], ack) else queue
  }

  /**
   * What stays in the queue is what was not acknowledged, followed, as soon as losses are to be
   * told and 1024 bytes are to spare, by the notice that tells all of them.
   */
  predicate AcknowledgedOnFields(b: Buffer, b': Buffer, ack: int) {
    var rest := Unacknowledged(b.queue, ack);
    && b'.lost == b.lost
    && if b.dropped > 0 && Weight(rest) < 4194304 - 1024
       then |b'.queue| == |rest| + 1 && rest <= b'.queue && b'.dropped == 0
            && Noticed(b'.queue[|rest|]) == b.dropped && b'.log == b.log + b'.queue[|rest|..]
       else b'.queue == rest && b'.dropped == b.dropped && b'.log == b.log
  }

  lemma {:induction false} UnacknowledgedIs(queue: seq<Record>, ack: int, first: int)
    requires forall i | 0 <= i < |queue| :: queue[i].sequence == first + i
    ensures
      var n := if ack < first then 0 else if ack - first + 1 > |queue| then |queue| else ack - first + 1;
      Unacknowledged(queue, ack) == queue[n..]
    decreases |queue|
  {
    if queue != [] && queue[0].sequence <= ack {
      UnacknowledgedIs(queue[1..], ack, first + 1);
    }
  }

  lemma AcknowledgeReads(b: Buffer, ack: int, timestamp: int)
    requires Sound(b)
    ensures AcknowledgedOnFields(b, Acknowledged(b, ack, timestamp), ack)
  {
    var n := Released(b, ack);
    UnacknowledgedIs(b.queue, ack, b.next - |b.queue|);
    DequeueSuffix(b, n);
    if b.dropped > 0 {
      NoticeReads(b.next, b.dropped, timestamp);
    }
  }

  // ---- The object -----------------------------------------------------------------------------

  class Reporter {
    var queue: seq<Record>
    var bytes: int
    var dropped: nat
    var next: int
    var failure: Option<ErrorCode>
    ghost var log: seq<Record>
    ghost var lost: nat

    ghost function View(): Buffer reads this { Buffer(queue, bytes, dropped, next, log, lost) }

    ghost predicate Valid() reads this { Sound(View()) }

    constructor ()
      ensures Valid() && View() == EMPTY && failure.None?
    {
      queue, bytes, dropped, next, failure := [], 0, 0, 1, None;
      log, lost := [], 0;
      new;
      EmptyIsSound();
    }

    /** A recorded failure is rethrown and nothing is queued. */
    method Enqueue(record: Record, timestamp: int) returns (ok: bool)
      requires Valid() && Admissible(record)
      modifies this
      ensures Valid() && failure == old(failure) && ok == failure.None?
      ensures View() == if ok then Enqueued(old(View()), record, timestamp) else old(View())
      ensures ok ==>
        var size := |record.text| + |record.name| + 128;
        if old(bytes) + size <= 4194304
        then queue == old(queue) + [record.(sequence := old(next), timestamp := timestamp)]
             && log == old(log) + queue[|queue| - 1..] && lost == old(lost)
        else queue == old(queue) && log == old(log) && lost == old(lost) + 1
    {
      ghost var before := View();
      ok := Store(record, timestamp);
      EnqueueKeeps(before, record, timestamp);
    }

    /** Number and queue the record, or count it as dropped when it does not fit. */
    method Store(record: Record, timestamp: int) returns (ok: bool)
      modifies this
      ensures failure == old(failure) && ok == failure.None?
      ensures View() == if ok then Enqueued(old(View()), record, timestamp) else old(View())
    {
      ok := failure.None?;
      if !ok {
        return;
      }
      if bytes + Size(record) > BUFFER_LIMIT {
        dropped := (dropped + 1) % UINT64;
        lost := lost + 1;
        return;
      }
      var r := record.(sequence := next, timestamp := timestamp);
      next := next + 1;
      bytes := bytes + Size(r);
      queue := queue + [r];
      log := log + [r];
    }

    /** The longest prefix of the queue that fits a request; never empty while something is queued. */
    method TakeBatch() returns (batch: seq<Record>)
      requires Valid()
      ensures batch <= queue && |batch| <= 128 && Weight(batch) <= 262144
      ensures queue != [] ==> batch != []
      ensures |batch| < |queue| ==> |batch| == 128 || Weight(batch) + Size(queue[|batch|]) > 262144
    {
      batch := [];
      var size := 0;
      var i := 0;
      while i < |queue|
        invariant i <= |queue| && i <= BATCH_RECORDS && batch == queue[..i]
        invariant size == Weight(batch) <= BATCH_BYTES
      {
        if |batch| >= BATCH_RECORDS || size + Size(queue[i]) > BATCH_BYTES {
          assert queue[i] == log[|log| - |queue| + i];
          break;
        }
        assert queue[..i + 1][..i] == queue[..i];
        batch := batch + [queue[i]];
        assert batch == queue[..i + 1];
        size := size + Size(queue[i]);
        i := i + 1;
      }
    }

    method Acknowledge(ack: int, timestamp: int)
      requires Valid()
      modifies this
      ensures Valid() && failure == old(failure)
      ensures View() == Acknowledged(old(View()), ack, timestamp)
      ensures AcknowledgedOnFields(old(View()), View(), ack)
    {
      ghost var before := View();
      Release(ack);
      Announce(timestamp);
      AcknowledgeKeeps(before, ack, timestamp);
      AcknowledgeReads(before, ack, timestamp);
    }

    /** Pop every queued record the acknowledgement covers. */
    method Release(ack: int)
      requires Numbered(log) && next == |log| + 1 && Suffix(queue, log)
      modifies this`queue, this`bytes
      ensures View() == Dequeued(old(View()), Released(old(View()), ack))
    {
      ghost var before := View();
      ghost var n := 0;
      while queue != [] && queue[0].sequence <= ack
        invariant n <= |before.queue| && View() == Dequeued(before, n)
        invariant n <= Released(before, ack)
        decreases |queue|
      {
        ReleasesPrefix(before, ack, n);
        ReleaseOne(before, n);
        bytes := bytes - Size(queue[0]);
        queue := queue[1..];
        n := n + 1;
      }
      if n < |before.queue| {
        ReleasesPrefix(before, ack, n);
      }
    }

    method Announce(timestamp: int)
      modifies this
      ensures View() == Announced(old(View()), timestamp) && failure == old(failure)
    {
      if dropped != 0 && bytes < BUFFER_LIMIT - 1024 {
        var notice := Notice(next, dropped, timestamp);
        next := next + 1;
        bytes := bytes + Size(notice);
        queue := queue + [notice];
        log := log + [notice];
        dropped := 0;
      }
    }

    /** Errors other than "unavailable" stop the sender for good. */
    method Fail(code: ErrorCode)
      modifies this
      ensures View() == old(View())
      ensures failure == if code.Unavailable? then old(failure) else Some(code)
    {
      if code != Unavailable {
        failure := Some(code);
      }
    }

    /** Answers once the queue has drained; then everything numbered was acknowledged. */
    method Flush() returns (result: Option<int>)
      requires Valid()
      ensures result.Some? <==> queue == [] && failure.None?
      ensures result.Some? ==>
        && result.value == |log| && dropped == 0
        && (lost < UINT64 ==> NoticedIn(log) == lost)
    {
      if queue == [] && failure.None? {
        if lost < UINT64 {
          EmptyQueueTellsAll(View());
        }
        result := Some(next - 1);
      } else {
        result := None;
      }
    }
  }

  lemma ReleaseOne(b: Buffer, n: nat)
    requires n < |b.queue|
    ensures Dequeued(b, n + 1).queue == Dequeued(b, n).queue[1..]
    ensures Dequeued(b, n + 1).bytes == Dequeued(b, n).bytes - Size(b.queue[n])
  {
    assert b.queue[..n + 1][..n] == b.queue[..n];
  }
}
