/**
 * Reporter::log (src/runner/telemetry.cpp) cuts text into records at character boundaries.
 * One char of a string stands for one byte; UTF-8 is defined as in section 3 of RFC 3629.
 */
module LogSplit {
  import opened Base
  import opened Domain
  import opened Reporting

  const CHUNK: nat := 16000

  predicate In(c: char, low: int, high: int) { low <= c as int <= high }

  /** What the code asks of a byte, (b & 0xc0) == 0x80. */
  predicate Continuation(c: char) { In(c, 0x80, 0xBF) }

  /** The length of the well-formed character a text begins with, or 0 if there is none. */
  function CharLength(s: string): (n: nat)
    ensures n <= 4 && n <= |s|
  {
    if |s| >= 1 && In(s[0], 0x00, 0x7F) then 1
    else if |s| >= 2 && In(s[0], 0xC2, 0xDF) && Continuation(s[1]) then 2
    else if |s| >= 3 && ThreeBytes(s[0], s[1]) && Continuation(s[2]) then 3
    else if |s| >= 4 && FourBytes(s[0], s[1]) && Continuation(s[2]) && Continuation(s[3]) then 4
    else 0
  }

  predicate ThreeBytes(a: char, b: char) {
    || (In(a, 0xE0, 0xE0) && In(b, 0xA0, 0xBF))
    || (In(a, 0xE1, 0xEC) && Continuation(b))
    || (In(a, 0xED, 0xED) && In(b, 0x80, 0x9F))
    || (In(a, 0xEE, 0xEF) && Continuation(b))
  }

  predicate FourBytes(a: char, b: char) {
    || (In(a, 0xF0, 0xF0) && In(b, 0x90, 0xBF))
    || (In(a, 0xF1, 0xF3) && Continuation(b))
    || (In(a, 0xF4, 0xF4) && In(b, 0x80, 0x8F))
  }

  predicate Utf8(s: string)
    decreases |s|
  {
    s == [] || (CharLength(s) > 0 && Utf8(s[CharLength(s)..]))
  }

  // ---- Cutting at a byte that starts a character ----------------------------------------------

  lemma FirstCharacter(s: string, t: string)
    requires CharLength(s) > 0
    ensures CharLength(s[..CharLength(s)] + t) == CharLength(s)
    ensures !Continuation(s[0]) && forall i | 0 < i < CharLength(s) :: Continuation(s[i])
  {
  }

  lemma {:induction false} Utf8Append(a: string, b: string)
    requires Utf8(a) && Utf8(b)
    ensures Utf8(a + b)
    decreases |a|
  {
    if a == [] {
      assert a + b == b;
    } else {
      var n := CharLength(a);
      FirstCharacter(a, a[n..] + b);
      assert a[..n] + (a[n..] + b) == a + b;
      assert (a + b)[n..] == a[n..] + b;
      Utf8Append(a[n..], b);
    }
  }

  /** A byte that is not a continuation is a boundary: both sides are well-formed. */
  lemma {:induction false} CutAtStart(s: string, i: nat)
    requires Utf8(s) && i < |s| && !Continuation(s[i])
    ensures Utf8(s[..i]) && Utf8(s[i..])
    decreases |s|
  {
    if i > 0 {
      var n := CharLength(s);
      FirstCharacter(s, s[n..]);
      assert i >= n;
      if i == n {
        assert s[..i] == s[..n] + [];
        FirstCharacter(s, []);
        assert s[..n][n..] == [];
      } else {
        CutAtStart(s[n..], i - n);
        assert s[n..][i - n..] == s[i..];
        FirstCharacter(s, s[n..i]);
        assert s[..i] == s[..n] + s[n..i];
        assert s[..i][n..] == s[n..][..i - n];
      }
    }
  }

  /** At most three continuation bytes stand in a row. */
  lemma {:induction false} NearestStart(s: string, i: nat)
    requires Utf8(s) && i < |s|
    ensures exists j :: 0 <= j <= i <= j + 3 && !Continuation(s[j])
    decreases |s|
  {
    var n := CharLength(s);
    FirstCharacter(s, s[n..]);
    if i < n {
      assert !Continuation(s[0]);
    } else {
      NearestStart(s[n..], i - n);
      var j :| 0 <= j <= i - n <= j + 3 && !Continuation(s[n..][j]);
      assert !Continuation(s[n + j]);
    }
  }

  // ---- Cleaning -------------------------------------------------------------------------------

  /** NUL becomes the two characters \0; well-formed text is otherwise kept. */
  function Clean(text: string): string {
    if text == [] then []
    else Clean(text[..|text| - 1]) + if text[|text| - 1] == '\0' then ['\\', '0'] else [text[|text| - 1]]
  }

  method Readable(text: string) returns (clean: string)
    ensures clean == Clean(text)
  {
    clean := [];
    for i := 0 to |text|
      invariant clean == Clean(text[..i])
    {
      assert text[..i + 1][..i] == text[..i];
      if text[i] == '\0' {
        clean := clean + ['\\', '0'];
      } else {
        clean := clean + [text[i]];
      }
    }
    assert text[..|text|] == text;
  }

  lemma {:induction false} CleanAppend(a: string, b: string)
    ensures Clean(a + b) == Clean(a) + Clean(b)
    decreases |b|
  {
    if b == [] {
      assert a + b == a;
    } else {
      assert (a + b)[..|a + b| - 1] == a + b[..|b| - 1];
      CleanAppend(a, b[..|b| - 1]);
    }
  }

  lemma {:induction false} CleanWithoutNul(s: string)
    requires SafeString(s)
    ensures Clean(s) == s
  {
    if s != [] {
      CleanWithoutNul(s[..|s| - 1]);
      assert s == s[..|s| - 1] + [s[|s| - 1]];
    }
  }

  lemma {:induction false} CleanIsSafe(s: string)
    ensures SafeString(Clean(s))
  {
    if s != [] {
      CleanIsSafe(s[..|s| - 1]);
    }
  }

  lemma CleanCharacter(s: string)
    requires CharLength(s) > 0
    ensures Utf8(Clean(s[..CharLength(s)]))
  {
    var c := s[..CharLength(s)];
    FirstCharacter(s, []);
    assert c + [] == c;
    assert c[CharLength(c)..] == [];
    if '\0' in c {
      assert c == ['\0'];
      assert Clean(c) == ['\\', '0'];
      assert Utf8(['0']) by {
        assert ['0'][1..] == [];
      }
      assert ['\\', '0'][1..] == ['0'];
    } else {
      CleanWithoutNul(c);
    }
  }

  lemma {:induction false} CleanIsUtf8(s: string)
    requires Utf8(s)
    ensures Utf8(Clean(s))
    decreases |s|
  {
    if s != [] {
      var first, rest := s[..CharLength(s)], s[CharLength(s)..];
      CleanCharacter(s);
      CleanIsUtf8(rest);
      CleanAppend(first, rest);
      assert s == first + rest;
      Utf8Append(Clean(first), Clean(rest));
    }
  }

  // ---- Splitting ------------------------------------------------------------------------------

  function Concat(chunks: seq<string>): string {
    if chunks == [] then [] else Concat(chunks[..|chunks| - 1]) + chunks[|chunks| - 1]
  }

  lemma ConcatAppend(chunks: seq<string>, chunk: string)
    ensures Concat(chunks + [chunk]) == Concat(chunks) + chunk
  {
  }

  /** Nonempty, small and whole characters only. */
  predicate GoodChunk(chunk: string) { 0 < |chunk| <= CHUNK && Utf8(chunk) && SafeString(chunk) }

  /** Where the next record ends: within the limit, past the start, at a boundary. */
  method FindEnd(clean: string, offset: nat) returns (end: nat)
    requires Utf8(clean) && offset < |clean|
    ensures offset < end <= |clean| && end - offset <= CHUNK
    ensures end < |clean| ==> !Continuation(clean[end]) && end - offset >= CHUNK - 3
  {
    end := if |clean| < offset + CHUNK then |clean| else offset + CHUNK;
    ghost var start := end;
    if start < |clean| {
      NearestStart(clean, start);
    }
    while end < |clean| && Continuation(clean[end])
      invariant start == |clean| ==> end == start
      invariant start < |clean| ==> exists j :: 0 <= j <= start <= j + 3 && !Continuation(clean[j])
      invariant start < |clean| ==> start - 3 <= end <= start == offset + CHUNK
      invariant start < |clean| ==> forall k | end < k <= start :: Continuation(clean[k])
      decreases end
    {
      ghost var j :| 0 <= j <= start <= j + 3 && !Continuation(clean[j]);
      assert j < end;
      end := end - 1;
    }
  }

  /**
   * Reporter::log: the pieces put together again are the cleaned text, and every piece is nonempty,
   * at most 16000 bytes and made of whole characters; all but the last are within 3 bytes of full.
   */
  method Split(text: string) returns (chunks: seq<string>)
    requires Utf8(text)
    ensures Concat(chunks) == Clean(text)
    ensures forall i | 0 <= i < |chunks| :: GoodChunk(chunks[i])
    ensures forall i | 0 <= i < |chunks| - 1 :: |chunks[i]| >= CHUNK - 3
  {
    var clean := Readable(text);
    CleanIsUtf8(text);
    CleanIsSafe(text);
    chunks := [];
    var offset := 0;
    while offset < |clean|
      invariant offset <= |clean| && Utf8(clean[offset..])
      invariant Concat(chunks) == clean[..offset]
      invariant forall i | 0 <= i < |chunks| :: GoodChunk(chunks[i])
      invariant forall i | 0 <= i < |chunks| && (offset < |clean| || i < |chunks| - 1) :: |chunks[i]| >= CHUNK - 3
    {
      var end := FindEnd(clean, offset);
      var chunk := clean[offset..end];
      CutChunk(clean, offset, end);
      ConcatAppend(chunks, chunk);
      assert clean[..offset] + chunk == clean[..end];
      chunks := chunks + [chunk];
      offset := end;
    }
    assert clean[..offset] == clean;
  }

  lemma CutChunk(clean: string, offset: nat, end: nat)
    requires offset < end <= |clean| && Utf8(clean[offset..])
    requires end < |clean| ==> !Continuation(clean[end])
    ensures Utf8(clean[offset..end]) && Utf8(clean[end..])
  {
    var rest := clean[offset..];
    if end < |clean| {
      CutAtStart(rest, end - offset);
      assert rest[..end - offset] == clean[offset..end];
      assert rest[end - offset..] == clean[end..];
    } else {
      assert clean[offset..end] == rest;
    }
  }

  predicate LogKind(kind: string) { kind in {"stdout", "stderr", "notice"} }

  /**
   * Every record made of a piece passes the server's validation and fits a batch, whichever kind
   * log() was called with; the buffer's books count it as a record of the program's own exactly
   * when it is a notice that reads like the overflow notice.
   */
  lemma ChunkIsAdmissible(kind: string, chunk: string)
    requires GoodChunk(chunk) && LogKind(kind)
    ensures
      var r := Record(0, kind, chunk, "", 0, Finite(0.0), 0);
      && ValidRecord(r.(sequence := 1)) && Size(r) <= BATCH_BYTES
      && (Admissible(r) <==> !(kind == "notice" && PREFIX <= chunk))
  {
  }

  /** The notices the runner itself logs. */
  datatype OwnNotice = ArchiveFull | Malformed | InvalidMetric | LongLine | TooManyRecords

  function Wording(n: OwnNotice): string {
    match n
    case ArchiveFull => "Log archive limit reached (100 MiB)\n"
    case Malformed => "Ignored malformed metric record\n"
    case InvalidMetric => "Ignored invalid metric record\n"
    case LongLine => "Ignored metric line exceeding 64 KiB\n"
    case TooManyRecords => "Metric record limit reached\n"
  }

  lemma WordingIsShort(n: OwnNotice)
    ensures 0 < |Wording(n)| <= 100 && Wording(n)[0] != PREFIX[0]
  {
  }

  lemma LogWordingIsSafe(n: OwnNotice)
    requires n.ArchiveFull? || n.TooManyRecords?
    ensures SafeString(Wording(n))
  {
  }

  lemma MetricWordingIsSafe(n: OwnNotice)
    requires n.Malformed? || n.InvalidMetric? || n.LongLine?
    ensures SafeString(Wording(n))
  {
  }

  /** None of them is changed or split, and none is mistaken for the overflow notice. */
  lemma OwnNoticesAreAdmissible(n: OwnNotice)
    ensures |Wording(n)| <= CHUNK && Clean(Wording(n)) == Wording(n)
    ensures Admissible(Record(0, "notice", Wording(n), "", 0, Finite(0.0), 0))
  {
    WordingIsShort(n);
    if n.ArchiveFull? || n.TooManyRecords? {
      LogWordingIsSafe(n);
    } else {
      MetricWordingIsSafe(n);
    }
    CleanWithoutNul(Wording(n));
    PlainIsAdmissible(Wording(n));
  }

  lemma PlainIsAdmissible(text: string)
    requires 0 < |text| <= CHUNK && SafeString(text) && text[0] != PREFIX[0]
    ensures Admissible(Record(0, "notice", text, "", 0, Finite(0.0), 0))
  {
  }

  /** What metric() has validated fits the buffer. */
  lemma MetricIsAdmissible(name: string, step: int, value: Double)
    requires ValidRecord(Record(1, "metric", "", name, step, value, 0))
    ensures Admissible(Record(0, "metric", "", name, step, value, 0))
  {
  }
}
