/** MetricReader::poll (src/runner/telemetry.cpp) refines splitting the whole metrics file at newlines. */
module Metrics {
  import opened Base

  const LINE_BYTES: nat := 65536
  const LINE_LIMIT: nat := 100000
  const CHUNK: nat := 4096
  const CHUNKS: nat := 16

  /** What a reader does about a line: hand it to the parser, or leave a notice. */
  datatype Outcome = Parse(line: string) | Oversized | LimitReached

  // ---- Reference: split the whole stream ------------------------------------------------------

  /** The lines a newline has ended so far. */
  function Lines(stream: string): seq<string> {
    if stream == [] then []
    else
      var before, last := stream[..|stream| - 1], stream[|stream| - 1];
      if last == '\n' then Lines(before) + [Tail(before)] else Lines(before)
  }

  /** What follows the last newline. */
  function Tail(stream: string): string {
    if stream == [] || stream[|stream| - 1] == '\n' then []
    else Tail(stream[..|stream| - 1]) + [stream[|stream| - 1]]
  }

  function Joined(lines: seq<string>): string {
    if lines == [] then [] else Joined(lines[..|lines| - 1]) + lines[|lines| - 1] + ['\n']
  }

  /** Splitting loses and adds nothing, and no piece contains a newline: this is the only such split. */
  lemma {:induction false} SplitIsExact(stream: string)
    ensures Joined(Lines(stream)) + Tail(stream) == stream
    ensures '\n' !in Tail(stream)
    ensures forall i | 0 <= i < |Lines(stream)| :: '\n' !in Lines(stream)[i]
  {
    if stream != [] {
      var before, last := stream[..|stream| - 1], stream[|stream| - 1];
      SplitIsExact(before);
      assert stream == before + [last];
      if last == '\n' {
        assert Lines(stream)[..|Lines(before)|] == Lines(before);
      }
    }
  }

  /** Blank lines are silent, lines over 64 KiB are flagged. */
  function Verdict(line: string): seq<Outcome> {
    if |line| > 65536 then [Oversized] else if line == [] then [] else [Parse(line)]
  }

  function Verdicts(lines: seq<string>): seq<Outcome> {
    if lines == [] then [] else Verdicts(lines[..|lines| - 1]) + Verdict(lines[|lines| - 1])
  }

  /** What the whole stream amounts to: the first 100000 lines, then a single closing notice. */
  function Outcomes(stream: string): seq<Outcome> {
    var lines := Lines(stream);
    if |lines| < 100000 then Verdicts(lines) else Verdicts(lines[..100000]) + [LimitReached]
  }

  lemma Append(stream: string, ch: char)
    ensures ch == '\n' ==> Lines(stream + [ch]) == Lines(stream) + [Tail(stream)] && Tail(stream + [ch]) == []
    ensures ch != '\n' ==> Lines(stream + [ch]) == Lines(stream) && Tail(stream + [ch]) == Tail(stream) + [ch]
  {
  }

  lemma EndLine(stream: string)
    requires |Lines(stream)| < LINE_LIMIT
    ensures Outcomes(stream + ['\n']) ==
            Outcomes(stream) + Verdict(Tail(stream))
              + (if |Lines(stream)| + 1 == LINE_LIMIT then [LimitReached] else [])
  {
    Append(stream, '\n');
    OneMoreVerdict(Lines(stream), Tail(stream));
    var lines := Lines(stream + ['\n']);
    assert lines[..|lines|] == lines;
  }

  lemma OneMoreVerdict(lines: seq<string>, line: string)
    ensures Verdicts(lines + [line]) == Verdicts(lines) + Verdict(line)
  {
  }

  /** Past the limit nothing more is said. */
  lemma {:induction false} LimitIsFinal(stream: string, more: string)
    requires |Lines(stream)| >= LINE_LIMIT
    ensures Outcomes(stream + more) == Outcomes(stream) && |Lines(stream + more)| >= LINE_LIMIT
    decreases |more|
  {
    if more == [] {
      assert stream + more == stream;
    } else {
      var shorter, last := more[..|more| - 1], more[|more| - 1];
      LimitIsFinal(stream, shorter);
      assert stream + more == (stream + shorter) + [last];
      Append(stream + shorter, last);
      assert Lines(stream + more)[..LINE_LIMIT] == Lines(stream + shorter)[..LINE_LIMIT];
    }
  }

  // ---- The incremental reader -----------------------------------------------------------------

  /** The fields of a reader, with what it has told the reporter. */
  datatype Reader = Reader(partial: string, oversized: bool, records: nat, outcomes: seq<Outcome>)

  const FRESH: Reader := Reader([], false, 0, [])

  /** The reader stands exactly where splitting the consumed bytes would put it. */
  predicate Tracks(m: Reader, stream: string) {
    && m.records == (if |Lines(stream)| < LINE_LIMIT then |Lines(stream)| else LINE_LIMIT)
    && m.outcomes == Outcomes(stream)
    && (m.records < LINE_LIMIT ==>
          && m.oversized == (|Tail(stream)| > LINE_BYTES)
          && m.partial == if m.oversized then [] else Tail(stream))
  }

  /** What one byte does. */
  function Fed(m: Reader, ch: char): Reader {
    if ch == '\n' then
      var said := if m.oversized then [Oversized] else if m.partial == [] then [] else [Parse(m.partial)];
      Reader([], false, m.records + 1,
             m.outcomes + said + if m.records + 1 >= LINE_LIMIT then [LimitReached] else [])
    else if m.oversized then m
    else if |m.partial| < LINE_BYTES then m.(partial := m.partial + [ch])
    else m.(partial := [], oversized := true)
  }

  lemma FedTracks(m: Reader, stream: string, ch: char)
    requires Tracks(m, stream) && m.records < LINE_LIMIT
    ensures Tracks(Fed(m, ch), stream + [ch])
  {
    Append(stream, ch);
    if ch == '\n' {
      EndLine(stream);
    }
  }

  /** What the first i bytes of a chunk do; past the line limit, nothing. */
  function Read(m: Reader, chunk: string, i: nat): Reader
    requires i <= |chunk|
  {
    if i == 0 then m
    else
      var before := Read(m, chunk, i - 1);
      if before.records >= LINE_LIMIT then before else Fed(before, chunk[i - 1])
  }

  lemma {:induction false} ReadTracks(m: Reader, stream: string, chunk: string, i: nat)
    requires Tracks(m, stream) && i <= |chunk|
    ensures Tracks(Read(m, chunk, i), stream + chunk[..i])
  {
    if i == 0 {
      assert stream + chunk[..0] == stream;
    } else {
      var before := Read(m, chunk, i - 1);
      ReadTracks(m, stream, chunk, i - 1);
      assert (stream + chunk[..i - 1]) + [chunk[i - 1]] == stream + chunk[..i];
      if before.records >= LINE_LIMIT {
        LimitIsFinal(stream + chunk[..i - 1], [chunk[i - 1]]);
      } else {
        FedTracks(before, stream + chunk[..i - 1], chunk[i - 1]);
      }
    }
  }

  lemma {:induction false} ReadStops(m: Reader, chunk: string, i: nat, j: nat)
    requires i <= j <= |chunk| && Read(m, chunk, i).records >= LINE_LIMIT
    ensures Read(m, chunk, j) == Read(m, chunk, i)
  {
    if i < j {
      ReadStops(m, chunk, i, j - 1);
    }
  }

  class MetricReader {
    var offset: nat
    var partial: string
    var oversized: bool
    var records: nat
    var outcomes: seq<Outcome>
    ghost var consumed: string

    ghost function View(): Reader reads this { Reader(partial, oversized, records, outcomes) }

    /** Every byte up to the offset was taken exactly once, and told exactly what the split tells. */
    ghost predicate Valid() reads this { offset == |consumed| && Tracks(View(), consumed) }

    constructor ()
      ensures Valid() && consumed == [] && View() == FRESH
    {
      offset, partial, oversized, records, outcomes := 0, [], false, 0, [];
      consumed := [];
    }

    method Take(ch: char)
      modifies this
      ensures View() == Fed(old(View()), ch) && offset == old(offset) && consumed == old(consumed)
    {
      if ch == '\n' {
        if !oversized && partial != [] {
          outcomes := outcomes + [Parse(partial)];
        } else if oversized {
          outcomes := outcomes + [Oversized];
        }
        partial, oversized, records := [], false, records + 1;
        if records >= LINE_LIMIT {
          outcomes := outcomes + [LimitReached];
        }
      } else if !oversized {
        if |partial| < LINE_BYTES {
          partial := partial + [ch];
        } else {
          partial, oversized := [], true;
        }
      }
    }

    /** One chunk: stop at the line limit, the rest of the chunk then being of no consequence. */
    method TakeChunk(chunk: string)
      requires Valid() && records < LINE_LIMIT
      modifies this
      ensures Valid() && consumed == old(consumed) + chunk
    {
      ghost var before := View();
      offset := offset + |chunk|;
      var i := 0;
      while i < |chunk| && records < LINE_LIMIT
        invariant i <= |chunk| && offset == old(offset) + |chunk| && consumed == old(consumed)
        invariant View() == Read(before, chunk, i)
      {
        Take(chunk[i]);
        i := i + 1;
      }
      if i < |chunk| {
        ReadStops(before, chunk, i, |chunk|);
      }
      ReadTracks(before, consumed, chunk, |chunk|);
      assert chunk[..|chunk|] == chunk;
      consumed := consumed + chunk;
    }

    /**
     * One poll; file[k] is what the file holds at the k-th read, which only ever grows. Whatever
     * the growth and the chunking, the reader stays where splitting the consumed bytes puts it.
     */
    method Poll(file: seq<string>)
      requires Valid() && |file| == CHUNKS && consumed <= file[0]
      requires forall i, j | 0 <= i <= j < |file| :: file[i] <= file[j]
      modifies this
      ensures Valid() && old(consumed) <= consumed <= file[CHUNKS - 1]
      ensures old(records) >= LINE_LIMIT ==> consumed == old(consumed) && View() == old(View())
      ensures records < LINE_LIMIT ==> |consumed| >= Min(|file[0]|, |old(consumed)| + CHUNKS * CHUNK)
    {
      if records >= LINE_LIMIT {
        return;
      }
      var batch := 0;
      while batch < CHUNKS
        invariant batch <= CHUNKS && Valid() && records < LINE_LIMIT && old(consumed) <= consumed
        invariant consumed <= file[if batch == 0 then 0 else batch - 1]
        invariant |consumed| == |old(consumed)| + batch * CHUNK
      {
        assert file[if batch == 0 then 0 else batch - 1] <= file[batch];
        var n := if |file[batch]| - offset < CHUNK then |file[batch]| - offset else CHUNK;
        var chunk := file[batch][offset..offset + n];
        assert consumed + chunk == file[batch][..offset + n];
        TakeChunk(chunk);
        assert file[batch] <= file[CHUNKS - 1];
        if records >= LINE_LIMIT {
          return;
        }
        if n < CHUNK {
          assert |file[0]| <= |file[batch]|;
          return;
        }
        batch := batch + 1;
      }
    }
  }
}
