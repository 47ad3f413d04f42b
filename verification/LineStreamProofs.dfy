/** What the line splitter prints, for every way of chunking its input. */
module LineStreamProofs {
  import opened Sequences
  import opened LineStream

  // ----- The specification: split the whole stream on newline -----

  /** The segments of the processed stream, the incomplete tail appended to the last one. */
  function Segments(output: Bytes, pending: Bytes): (segs: seq<Bytes>)
    ensures segs != []
  {
    var parts := Split(output, NEWLINE);
    Front(parts) + [Last(parts) + pending]
  }

  function Lines(output: Bytes, pending: Bytes): seq<Bytes> {
    NonEmpty(Segments(output, pending))
  }

  /** Non-empty pieces of which all but the last are overflow flushes. */
  predicate IsCut(pieces: seq<Bytes>) {
    forall i :: 0 <= i < |pieces| ==> pieces[i] != [] && (i + 1 < |pieces| ==> |pieces[i]| > 4096)
  }

  /** One list of pieces per segment, each list adding up to its segment. */
  predicate CutsOf(cuts: seq<seq<Bytes>>, segs: seq<Bytes>) {
    && |cuts| == |segs|
    && forall i :: 0 <= i < |segs| ==> Concat(cuts[i]) == segs[i] && IsCut(cuts[i])
  }

  /** No segment can be cut: at most one byte over the limit, and none over it where a tail follows. */
  predicate Fits(output: Bytes, pending: Bytes) {
    && (forall seg :: seg in Split(output, NEWLINE) ==> |seg| <= 4097)
    && (pending != [] ==> |Last(Split(output, NEWLINE))| <= 4096)
  }

  // ----- A log of the print statements -----

  /** A drained line (possibly empty, then nothing is printed) or an overflow flush. */
  datatype Event = Line(body: Bytes) | Overflow(body: Bytes)

  function EventBytes(e: Event): Bytes {
    if e.Line? then e.body + [NEWLINE] else e.body
  }

  /** The part of the processed stream that the log and the line buffer account for. */
  function Written(log: seq<Event>, tail: Bytes): Bytes {
    if log == [] then tail else EventBytes(log[0]) + Written(log[1..], tail)
  }

  function Printed(log: seq<Event>): seq<Bytes> {
    if log == [] then []
    else (if log[0].body == [] then [] else [log[0].body]) + Printed(log[1..])
  }

  predicate Sound(log: seq<Event>) {
    forall e :: e in log ==> NEWLINE !in e.body && (e.Overflow? ==> |e.body| > LIMIT)
  }

  function LineEvents(parts: seq<Bytes>): (log: seq<Event>)
    ensures |log| == |parts|
    ensures forall i :: 0 <= i < |log| ==> log[i] == Line(parts[i])
  {
    seq(|parts|, i requires 0 <= i < |parts| => Line(parts[i]))
  }

  lemma {:induction false} WrittenAppend(a: seq<Event>, b: seq<Event>, tail: Bytes)
    ensures Written(a + b, tail) == Written(a, Written(b, tail))
    ensures Printed(a + b) == Printed(a) + Printed(b)
  {
    if a == [] {
      assert a + b == b;
    } else {
      assert (a + b)[1..] == a[1..] + b;
      WrittenAppend(a[1..], b, tail);
    }
  }

  lemma {:induction false} WrittenTail(log: seq<Event>, a: Bytes, b: Bytes)
    ensures Written(log, a + b) == Written(log, a) + b
  {
    if log != [] {
      WrittenTail(log[1..], a, b);
    }
  }

  lemma {:induction false} LineEventsAccount(parts: seq<Bytes>)
    requires parts != []
    ensures Written(LineEvents(Front(parts)), Last(parts)) == Join(parts, NEWLINE)
    ensures Printed(LineEvents(Front(parts))) == NonEmpty(Front(parts))
  {
    if |parts| > 1 {
      LineEventsAccount(parts[1..]);
      assert Front(parts)[1..] == Front(parts[1..]);
      assert LineEvents(Front(parts))[1..] == LineEvents(Front(parts[1..]));
    }
  }

  // ----- The invariant of the read loop -----

  /** At a loop head the log explains the state after reading `data`. */
  ghost predicate Explains(p: Processor, log: seq<Event>, st: State, data: Bytes) {
    && Sound(log)
    && Printed(log) == st.bodies
    && NEWLINE !in st.lineBuf
    && |st.lineBuf| <= LIMIT
    && p(data) == (Written(log, st.lineBuf), st.pending)
  }

  lemma {:induction false} PartsAreShorter(s: Bytes)
    ensures forall part :: part in Split(s, NEWLINE) ==> |part| <= |s|
  {
    if s != [] {
      PartsAreShorter(s[1..]);
      var rest := Split(s[1..], NEWLINE);
      assert forall part :: part in rest[1..] ==> part in rest;
      assert rest[0] in rest;
    }
  }

  lemma FrontLinesAreSound(parts: seq<Bytes>, bound: nat)
    requires parts != [] && forall part :: part in parts ==> NEWLINE !in part && |part| <= bound
    ensures Sound(LineEvents(Front(parts))) && forall e :: e in LineEvents(Front(parts)) ==> |e.body| <= bound
  {
    forall e | e in LineEvents(Front(parts)) ensures e.Line? && NEWLINE !in e.body && |e.body| <= bound {
      var i :| 0 <= i < |parts| - 1 && LineEvents(Front(parts))[i] == e;
      assert Front(parts)[i] == parts[i] && parts[i] in parts;
    }
  }

  lemma SoundMore(log: seq<Event>, last: Event, bound: nat)
    requires Sound(log) && NEWLINE !in last.body && (last.Overflow? ==> |last.body| > LIMIT) && |last.body| <= bound
    requires forall e :: e in log ==> |e.body| <= bound
    ensures Sound(log + [last]) && forall e :: e in log + [last] ==> |e.body| <= bound
  {
  }

  lemma FlushExplained(log: seq<Event>, last: Bytes)
    requires last != []
    ensures Written(log + [Overflow(last)], []) == Written(log, last)
    ensures Printed(log + [Overflow(last)]) == Printed(log) + [last]
  {
    var flush := [Overflow(last)];
    assert flush[1..] == [] && last + [] == last && [last] + [] == [last];
    assert flush[0].body == last;
    assert Printed(flush) == [last] + Printed(flush[1..]);
    assert Written(flush, []) == last;
    WrittenAppend(log, flush, []);
  }

  /** Draining a buffer, and flushing it when what remains is too long, as log events. */
  lemma DrainExplained(buf: Bytes) returns (log: seq<Event>, rest: Bytes)
    ensures var parts := Split(buf, NEWLINE);
      && Sound(log) && Written(log, rest) == buf && NEWLINE !in rest
      && rest == (if |Last(parts)| > LIMIT then [] else Last(parts))
      && Printed(log) == NonEmpty(Front(parts)) + (if |Last(parts)| > LIMIT then [Last(parts)] else [])
    ensures forall e :: e in log ==> |e.body| <= |buf|
  {
    var parts := Split(buf, NEWLINE);
    SplitInverts(buf, NEWLINE);
    LineEventsAccount(parts);
    PartsAreShorter(buf);
    assert Last(parts) in parts;
    FrontLinesAreSound(parts, |buf|);
    log, rest := LineEvents(Front(parts)), Last(parts);
    if |rest| > LIMIT {
      FlushExplained(log, rest);
      SoundMore(log, Overflow(rest), |buf|);
      log, rest := log + [Overflow(rest)], [];
    } else {
      assert Printed(log) + [] == Printed(log);
    }
  }

  lemma AfterDataExplained(p: Processor, log: seq<Event>, st: State, data: Bytes, more: Bytes) returns (log': seq<Event>)
    requires Streaming(p) && Explains(p, log, st, data)
    ensures Explains(p, log', AfterData(p, st, more), data + more)
    ensures forall e :: e in log' ==> e in log || |e.body| <= |st.lineBuf| + |p(st.pending + more).0|
  {
    if more == [] {
      assert data + more == data;
      return log;
    }
    assert SplitsAt(p, data, more);
    var output := p(st.pending + more).0;
    var events, rest := DrainExplained(st.lineBuf + output);
    WrittenTail(log, st.lineBuf, output);
    WrittenAppend(log, events, rest);
    log' := log + events;
    Assoc(st.bodies, NonEmpty(Front(Split(st.lineBuf + output, NEWLINE))), [Last(Split(st.lineBuf + output, NEWLINE))]);
  }

  /** The state at the loop head after the reads that carried no error. */
  function LoopHead(p: Processor, st: State, chunks: seq<Bytes>): State
    decreases |chunks|
  {
    if chunks == [] then st else LoopHead(p, AfterData(p, st, chunks[0]), chunks[1..])
  }

  lemma {:induction false} LoopHeadExplained(p: Processor, log: seq<Event>, st: State, data: Bytes, chunks: seq<Bytes>)
    returns (log': seq<Event>)
    requires Streaming(p) && Explains(p, log, st, data)
    ensures Explains(p, log', LoopHead(p, st, chunks), data + Concat(chunks))
    decreases |chunks|
  {
    if chunks == [] {
      assert data + Concat(chunks) == data;
      log' := log;
    } else {
      var mid := AfterDataExplained(p, log, st, data, chunks[0]);
      log' := LoopHeadExplained(p, mid, AfterData(p, st, chunks[0]), data + chunks[0], chunks[1..]);
      assert data + chunks[0] + Concat(chunks[1..]) == data + Concat(chunks);
    }
  }

  /** At every loop head the buffer is newline-free and within the limit, and nothing is lost:
      what was printed and what is buffered is the processed stream without its newlines. */
  lemma LoopHeadInvariant(p: Processor, chunks: seq<Bytes>)
    requires Streaming(p)
    ensures var st := LoopHead(p, START, chunks); var (output, pending) := p(Concat(chunks));
      && NEWLINE !in st.lineBuf && |st.lineBuf| <= LIMIT
      && st.pending == pending
      && Concat(st.bodies) + st.lineBuf == Concat(Split(output, NEWLINE))
  {
    var log := LoopHeadExplained(p, [], START, [], chunks);
    assert [] + Concat(chunks) == Concat(chunks);
    PrintedConcat(log, LoopHead(p, START, chunks).lineBuf);
  }

  function Piece(body: Bytes): (r: seq<Bytes>)
    ensures Concat(r) == body
  {
    ConcatOne(body);
    if body == [] then [] else [body]
  }

  /** One more event in front: its body joins the first segment of what follows, or precedes it. */
  lemma EventInFront(e: Event, rest: Bytes)
    requires NEWLINE !in e.body
    ensures var parts := Split(rest, NEWLINE);
      Split(EventBytes(e) + rest, NEWLINE) == if e.Line? then [e.body] + parts else [e.body + parts[0]] + parts[1..]
  {
    if e.Line? {
      SplitAtSeparator(e.body, rest, NEWLINE);
    } else {
      SplitPrefix(e.body, rest, NEWLINE);
    }
  }

  lemma {:induction false} PrintedConcat(log: seq<Event>, tail: Bytes)
    requires Sound(log) && NEWLINE !in tail
    ensures Concat(Printed(log)) + tail == Concat(Split(Written(log, tail), NEWLINE))
  {
    if log == [] {
      SplitWhole(tail, NEWLINE);
      ConcatOne(tail);
      assert [] + tail == tail;
    } else {
      var body, rest := log[0].body, Written(log[1..], tail);
      PrintedConcat(log[1..], tail);
      ConcatAppend(Piece(body), Printed(log[1..]));
      EventInFront(log[0], rest);
      Assoc(body, Concat(Printed(log[1..])), tail);
      Assoc(body, Split(rest, NEWLINE)[0], Concat(Split(rest, NEWLINE)[1..]));
    }
  }

  // ----- From the log to cuts of the segments -----

  /** The printed pieces grouped by the line they belong to; `tail` closes the last group. */
  function Groups(log: seq<Event>, tail: Bytes): (g: seq<seq<Bytes>>)
    ensures g != []
  {
    if log == [] then [Piece(tail)]
    else
      var g := Groups(log[1..], tail);
      if log[0].Line? then [Piece(log[0].body)] + g else [Piece(log[0].body) + g[0]] + g[1..]
  }

  lemma {:induction false} GroupsFlatten(log: seq<Event>, tail: Bytes)
    ensures Concat(Groups(log, tail)) == Printed(log) + Piece(tail)
  {
    if log == [] {
      ConcatOne(Piece(tail));
      assert [] + Piece(tail) == Piece(tail);
    } else {
      var g := Groups(log[1..], tail);
      GroupsFlatten(log[1..], tail);
      Assoc(Piece(log[0].body), Printed(log[1..]), Piece(tail));
      Assoc(Piece(log[0].body), g[0], Concat(g[1..]));
    }
  }

  lemma OverflowInFront(body: Bytes, pieces: seq<Bytes>)
    requires |body| > LIMIT && IsCut(pieces)
    ensures IsCut(Piece(body) + pieces) && Concat(Piece(body) + pieces) == body + Concat(pieces)
  {
    ConcatAppend(Piece(body), pieces);
    assert Piece(body) == [body];
  }

  lemma SegmentsInFront(e: Event, rest: Bytes, pending: Bytes)
    requires NEWLINE !in e.body
    ensures var segs := Segments(rest, pending);
      Segments(EventBytes(e) + rest, pending) == if e.Line? then [e.body] + segs else [e.body + segs[0]] + segs[1..]
  {
    EventInFront(e, rest);
    Assoc(e.body, Split(rest, NEWLINE)[0], pending);
  }

  lemma {:induction false} GroupsCut(log: seq<Event>, tail: Bytes, pending: Bytes)
    requires Sound(log) && NEWLINE !in tail
    ensures CutsOf(Groups(log, tail + pending), Segments(Written(log, tail), pending))
  {
    if log == [] {
      SplitWhole(tail, NEWLINE);
    } else {
      GroupsCut(log[1..], tail, pending);
      SegmentsInFront(log[0], Written(log[1..], tail), pending);
      if log[0].Overflow? {
        OverflowInFront(log[0].body, Groups(log[1..], tail + pending)[0]);
      }
    }
  }

  // ----- The run to its end -----

  lemma AtErrorPrints(st: State)
    ensures AtError(st).bodies == st.bodies + Piece(st.lineBuf + st.pending)
  {
  }

  lemma {:induction false} RunExplained(p: Processor, log: seq<Event>, st: State, data: Bytes, chunks: seq<Read>)
    returns (log': seq<Event>, tail: Bytes)
    requires Streaming(p) && Explains(p, log, st, data) && Ended(chunks)
    ensures Sound(log') && NEWLINE !in tail
    ensures Written(log', tail) == p(data + Consumed(chunks)).0
    ensures Run(p, st, chunks).bodies == Printed(log') + Piece(tail + p(data + Consumed(chunks)).1)
    decreases |chunks|
  {
    log' := AfterDataExplained(p, log, st, data, chunks[0].data);
    var st' := AfterData(p, st, chunks[0].data);
    if chunks[0].err {
      tail := st'.lineBuf;
      AtErrorPrints(st');
    } else {
      log', tail := RunExplained(p, log', st', data + chunks[0].data, chunks[1..]);
      Assoc(data, chunks[0].data, Consumed(chunks[1..]));
    }
  }

  /** With no assumption on lengths: the bodies are the segments of the whole stream in order,
      each cut into non-empty pieces of which all but the last exceed the limit. */
  lemma EveryRunCutsTheSegments(p: Processor, chunks: seq<Read>) returns (cuts: seq<seq<Bytes>>)
    requires Streaming(p) && Ended(chunks)
    ensures var (output, pending) := p(Consumed(chunks));
      && CutsOf(cuts, Segments(output, pending))
      && Emitted(p, chunks) == Concat(cuts)
  {
    var log, tail := RunExplained(p, [], START, [], chunks);
    assert [] + Consumed(chunks) == Consumed(chunks);
    var pending := p(Consumed(chunks)).1;
    GroupsFlatten(log, tail + pending);
    GroupsCut(log, tail, pending);
    cuts := Groups(log, tail + pending);
  }

  lemma {:induction false} CutsConcat(cuts: seq<seq<Bytes>>, segs: seq<Bytes>)
    requires CutsOf(cuts, segs)
    ensures Concat(Concat(cuts)) == Concat(segs)
  {
    if cuts != [] {
      CutsConcat(cuts[1..], segs[1..]);
      ConcatAppend(cuts[0], Concat(cuts[1..]));
    }
  }

  /** Conservation: the bodies together are the processed stream without its newlines,
      then the incomplete tail. */
  lemma EveryRunConservesBytes(p: Processor, chunks: seq<Read>)
    requires Streaming(p) && Ended(chunks)
    ensures var (output, pending) := p(Consumed(chunks));
      Concat(Emitted(p, chunks)) == Concat(Split(output, NEWLINE)) + pending
  {
    var cuts := EveryRunCutsTheSegments(p, chunks);
    var (output, pending) := p(Consumed(chunks));
    CutsConcat(cuts, Segments(output, pending));
    SegmentsConcat(output, pending);
  }

  lemma SegmentsConcat(output: Bytes, pending: Bytes)
    ensures Concat(Segments(output, pending)) == Concat(Split(output, NEWLINE)) + pending
  {
    var parts := Split(output, NEWLINE);
    var front, last := Front(parts), Last(parts);
    ConcatAppend(front, [last + pending]);
    ConcatAppend(front, [last]);
    ConcatOne(last + pending);
    ConcatOne(last);
    assert front + [last] == parts;
    Assoc(Concat(front), last, pending);
  }

  /** Two pieces come to at least 4098 bytes, so a shorter segment is in one piece. */
  lemma WholePiece(pieces: seq<Bytes>)
    requires IsCut(pieces)
    ensures |Concat(pieces)| <= LIMIT + 1 ==> pieces == if Concat(pieces) == [] then [] else [Concat(pieces)]
  {
    if |pieces| > 1 {
      assert |pieces[0]| > LIMIT && pieces[1] != [];
      assert Concat(pieces) == pieces[0] + (pieces[1] + Concat(pieces[1..][1..]));
    } else if |pieces| == 1 {
      ConcatOne(pieces[0]);
      assert pieces == [pieces[0]];
    }
  }

  lemma {:induction false} WholePieces(cuts: seq<seq<Bytes>>, segs: seq<Bytes>)
    requires CutsOf(cuts, segs)
    requires forall i :: 0 <= i < |segs| ==> cuts[i] == if segs[i] == [] then [] else [segs[i]]
    ensures Concat(cuts) == NonEmpty(segs)
  {
    if cuts != [] {
      WholePieces(cuts[1..], segs[1..]);
    }
  }

  lemma FitsSegment(output: Bytes, pending: Bytes, i: int)
    requires Fits(output, pending) && 0 <= i < |Segments(output, pending)|
    ensures i + 1 < |Segments(output, pending)| || pending == [] ==> |Segments(output, pending)[i]| <= LIMIT + 1
  {
    assert Split(output, NEWLINE)[i] in Split(output, NEWLINE);
    assert Last(Split(output, NEWLINE)) + [] == Last(Split(output, NEWLINE));
  }

  /** A tail never makes a further piece when its segment stayed within the limit: the
      overflow pieces hold processed output only. */
  lemma {:induction false} RunWithoutOverflow(log: seq<Event>, tail: Bytes, pending: Bytes)
    requires Sound(log) && NEWLINE !in tail && Fits(Written(log, tail), pending)
    ensures Printed(log) + Piece(tail + pending) == Lines(Written(log, tail), pending)
  {
    var output := Written(log, tail);
    var cuts, segs := Groups(log, tail + pending), Segments(output, pending);
    GroupsFlatten(log, tail + pending);
    GroupsCut(log, tail, pending);
    forall i | 0 <= i < |segs|
      ensures cuts[i] == if segs[i] == [] then [] else [segs[i]]
    {
      if i + 1 < |segs| || pending == [] {
        FitsSegment(output, pending, i);
        WholePiece(cuts[i]);
      } else {
        LastGroup(log, tail, pending);
      }
    }
    WholePieces(cuts, segs);
  }

  lemma {:induction false} LastGroup(log: seq<Event>, tail: Bytes, pending: Bytes)
    requires Sound(log) && NEWLINE !in tail && pending != []
    requires |Last(Split(Written(log, tail), NEWLINE))| <= LIMIT
    ensures Last(Groups(log, tail + pending)) == [Last(Segments(Written(log, tail), pending))]
  {
    if log == [] {
      SplitWhole(tail, NEWLINE);
    } else {
      var rest := Written(log[1..], tail);
      EventInFront(log[0], rest);
      SegmentsInFront(log[0], rest, pending);
      LastGroup(log[1..], tail, pending);
      assert log[0].Overflow? ==> |Split(rest, NEWLINE)| > 1;
      GroupsCut(log[1..], tail, pending);
    }
  }

  /** Refinement of the simple specification: when no segment can overflow, the bodies are the
      non-empty segments of the whole stream, the incomplete tail on the last one. */
  lemma RunPrintsTheLines(p: Processor, chunks: seq<Read>)
    requires Streaming(p) && Ended(chunks)
    requires Fits(p(Consumed(chunks)).0, p(Consumed(chunks)).1)
    ensures Emitted(p, chunks) == Lines(p(Consumed(chunks)).0, p(Consumed(chunks)).1)
  {
    var log, tail := RunExplained(p, [], START, [], chunks);
    assert [] + Consumed(chunks) == Consumed(chunks);
    RunWithoutOverflow(log, tail, p(Consumed(chunks)).1);
  }

  /** Then the output does not depend on where the reads were cut. */
  lemma ChunkingDoesNotMatter(p: Processor, a: seq<Read>, b: seq<Read>)
    requires Streaming(p) && Ended(a) && Ended(b) && Consumed(a) == Consumed(b)
    requires Fits(p(Consumed(a)).0, p(Consumed(a)).1)
    ensures Emitted(p, a) == Emitted(p, b)
  {
    RunPrintsTheLines(p, a);
    RunPrintsTheLines(p, b);
  }

  // ----- Reading the printed output back -----

  lemma {:induction false} PrintedIsSound(log: seq<Event>)
    requires Sound(log)
    ensures forall body :: body in Printed(log) ==> NEWLINE !in body
  {
    if log != [] {
      assert log[0] in log && forall e :: e in log[1..] ==> e in log;
      PrintedIsSound(log[1..]);
    }
  }

  /** A printed body is within one line, unless the incomplete tail at the end holds a newline. */
  lemma BodiesAreWithinLines(p: Processor, chunks: seq<Read>)
    requires Streaming(p) && Ended(chunks)
    ensures (forall body :: body in Emitted(p, chunks) ==> NEWLINE !in body) <==> NEWLINE !in p(Consumed(chunks)).1
  {
    var log, tail := RunExplained(p, [], START, [], chunks);
    assert [] + Consumed(chunks) == Consumed(chunks);
    PrintedIsSound(log);
    var rest := tail + p(Consumed(chunks)).1;
    assert rest != [] ==> rest in Printed(log) + Piece(rest);
  }

  /** The printed text cut at its newlines: tag, space and body, line by line, and nothing else. */
  predicate ReadsBack(pieces: seq<Bytes>, tag: Bytes, bodies: seq<Bytes>) {
    && |pieces| == |bodies| + 1 && pieces[|bodies|] == []
    && forall i :: 0 <= i < |bodies| ==> tag + [32] <= pieces[i] && pieces[i][|tag| + 1..] == bodies[i]
  }

  lemma {:induction false} TaggedReadsBack(tag: Bytes, bodies: seq<Bytes>)
    requires NEWLINE !in tag && forall body :: body in bodies ==> NEWLINE !in body
    ensures ReadsBack(Split(Concat(TagAll(tag, bodies)), NEWLINE), tag, bodies)
  {
    if bodies != [] {
      assert bodies[0] in bodies && forall body :: body in bodies[1..] ==> body in bodies;
      TaggedReadsBack(tag, bodies[1..]);
      var line, rest := tag + [32] + bodies[0], Concat(TagAll(tag, bodies[1..]));
      assert TagAll(tag, bodies)[1..] == TagAll(tag, bodies[1..]);
      assert Concat(TagAll(tag, bodies)) == line + [10] + rest;
      SplitAtSeparator(line, rest, NEWLINE);
    }
  }

  /** Whoever reads the output of a run line by line finds one line for every body, with the tag and a
      space in front, and nothing after the last newline. */
  lemma OutputReadsBack(p: Processor, chunks: seq<Read>, tag: Bytes)
    requires Streaming(p) && Ended(chunks) && NEWLINE !in tag && NEWLINE !in p(Consumed(chunks)).1
    ensures ReadsBack(Split(Concat(TagAll(tag, Emitted(p, chunks))), NEWLINE), tag, Emitted(p, chunks))
  {
    BodiesAreWithinLines(p, chunks);
    TaggedReadsBack(tag, Emitted(p, chunks));
  }

  // ----- The length condition is exact where output keeps pace with input -----

  /** At most one byte comes out for each byte that is read. */
  ghost predicate OneByOne(p: Processor) {
    forall data: Bytes, b: byte :: YieldsOne(p, data, b)
  }

  predicate YieldsOne(p: Processor, data: Bytes, b: byte) {
    |p(p(data).1 + [b]).0| <= 1
  }

  /** The reader that delivers one byte at a time. */
  function ByteWise(data: Bytes): seq<Read> {
    if data == [] then [Read([], true)] else [Read([data[0]], false)] + ByteWise(data[1..])
  }

  lemma {:induction false} ByteWiseReads(data: Bytes)
    ensures Read([], true) in ByteWise(data)
    ensures forall r :: r in ByteWise(data) ==> |r.data| <= 1
    ensures Consumed(ByteWise(data)) == data
  {
    if data != [] {
      ByteWiseReads(data[1..]);
      assert ByteWise(data)[1..] == ByteWise(data[1..]);
      assert data == [data[0]] + data[1..];
    }
  }

  /** No line and no flush is longer than the shortest flush. */
  predicate Bounded(log: seq<Event>) {
    forall e :: e in log ==> |e.body| <= LIMIT + 1
  }

  lemma ByteExplained(p: Processor, log: seq<Event>, st: State, data: Bytes, b: byte) returns (log': seq<Event>)
    requires Streaming(p) && OneByOne(p) && Explains(p, log, st, data) && Bounded(log)
    ensures Explains(p, log', AfterData(p, st, [b]), data + [b]) && Bounded(log')
  {
    assert YieldsOne(p, data, b);
    log' := AfterDataExplained(p, log, st, data, [b]);
  }

  /** Read byte by byte, a flush comes as soon as the limit is passed. */
  lemma {:induction false} ByteWiseExplained(p: Processor, log: seq<Event>, st: State, data: Bytes, more: Bytes)
    returns (log': seq<Event>, tail: Bytes)
    requires Streaming(p) && OneByOne(p) && Explains(p, log, st, data) && Bounded(log)
    ensures Sound(log') && Bounded(log') && NEWLINE !in tail && |tail| <= LIMIT
    ensures Written(log', tail) == p(data + more).0
    ensures Run(p, st, ByteWise(more)).bodies == Printed(log') + Piece(tail + p(data + more).1)
    decreases |more|
  {
    if more == [] {
      assert data + more == data;
      log', tail := log, st.lineBuf;
      AtErrorPrints(st);
    } else {
      var st' := AfterData(p, st, [more[0]]);
      var next := ByteExplained(p, log, st, data, more[0]);
      log', tail := ByteWiseExplained(p, next, st', data + [more[0]], more[1..]);
      ByteWiseStep(p, st, more);
      Assoc(data, [more[0]], more[1..]);
      assert [more[0]] + more[1..] == more;
    }
  }

  lemma ByteWiseStep(p: Processor, st: State, more: Bytes)
    requires more != []
    ensures Run(p, st, ByteWise(more)) == Run(p, AfterData(p, st, [more[0]]), ByteWise(more[1..]))
  {
    assert ByteWise(more)[1..] == ByteWise(more[1..]);
  }

  /** A part of the stream that a reader can tear. */
  predicate TooLong(parts: seq<Bytes>, pending: Bytes, i: nat)
    requires i < |parts|
  {
    |parts[i]| > LIMIT + 1 || (i == |parts| - 1 && pending != [] && |parts[i]| > LIMIT)
  }

  /** What comes before and after a flush in a segment that is too long is two pieces. */
  lemma FlushTears(body: Bytes, rest: Bytes, pending: Bytes, g: seq<seq<Bytes>>)
    requires |body| <= LIMIT + 1 && CutsOf(g, Segments(rest, pending))
    requires var parts := Split(rest, NEWLINE);
      |body + parts[0]| > LIMIT + 1 || (|parts| == 1 && pending != [])
    ensures g[0] != []
  {
    assert Segments(rest, pending)[0] != [];
    assert Concat(g[0]) == Segments(rest, pending)[0];
  }

  /** Where an event in front leaves the parts of what follows. */
  lemma PartsInFront(e: Event, rest: Bytes, i: nat)
    requires NEWLINE !in e.body && i < |Split(EventBytes(e) + rest, NEWLINE)|
    ensures var parts, parts' := Split(EventBytes(e) + rest, NEWLINE), Split(rest, NEWLINE);
      var k := if e.Line? then 1 else 0;
      (&& |parts| == |parts'| + k
       && (i > 0 ==> parts[i] == parts'[i - k])
       && (i == 0 ==> parts[i] == if e.Line? then e.body else e.body + parts'[0]))
  {
    EventInFront(e, rest);
  }

  /** Where it leaves the groups. */
  lemma GroupsInFront(log: seq<Event>, tail: Bytes, i: nat)
    requires log != []
    ensures var g, g' := Groups(log, tail), Groups(log[1..], tail);
      var k := if log[0].Line? then 1 else 0;
      (&& |g| == |g'| + k
       && (0 < i < |g| ==> g[i] == g'[i - k])
       && (i == 0 && log[0].Overflow? ==> g[i] == Piece(log[0].body) + g'[0]))
  {
  }

  lemma {:induction false} TooLongIsTorn(log: seq<Event>, tail: Bytes, pending: Bytes, i: nat)
    requires Sound(log) && Bounded(log) && NEWLINE !in tail && |tail| <= LIMIT
    requires var parts := Split(Written(log, tail), NEWLINE); i < |parts| && TooLong(parts, pending, i)
    ensures i < |Groups(log, tail + pending)| && |Groups(log, tail + pending)[i]| >= 2
  {
    if log == [] {
      SplitWhole(tail, NEWLINE);
    } else {
      assert log[0] in log && forall d :: d in log[1..] ==> d in log;
      PartsInFront(log[0], Written(log[1..], tail), i);
      GroupsInFront(log, tail + pending, i);
      if log[0].Line? {
        TooLongIsTorn(log[1..], tail, pending, i - 1);
      } else if i > 0 {
        TooLongIsTorn(log[1..], tail, pending, i);
      } else {
        GroupsCut(log[1..], tail, pending);
        FlushTears(log[0].body, Written(log[1..], tail), pending, Groups(log[1..], tail + pending));
      }
    }
  }

  /** Every piece that a segment is torn into is one body more than its line. */
  lemma {:induction false} TornBodies(cuts: seq<seq<Bytes>>, segs: seq<Bytes>)
    requires CutsOf(cuts, segs)
    ensures |Concat(cuts)| >= |NonEmpty(segs)|
    ensures (exists i :: 0 <= i < |cuts| && |cuts[i]| >= 2) ==> |Concat(cuts)| > |NonEmpty(segs)|
  {
    if cuts != [] {
      TornBodies(cuts[1..], segs[1..]);
      assert segs[0] != [] ==> cuts[0] != [];
      if exists i :: 0 <= i < |cuts| && |cuts[i]| >= 2 {
        var i :| 0 <= i < |cuts| && |cuts[i]| >= 2;
        assert i > 0 ==> cuts[1..][i - 1] == cuts[i];
      }
    }
  }

  lemma SomePartTooLong(output: Bytes, pending: Bytes) returns (i: nat)
    requires !Fits(output, pending)
    ensures i < |Split(output, NEWLINE)| && TooLong(Split(output, NEWLINE), pending, i)
  {
    var parts := Split(output, NEWLINE);
    if seg :| seg in parts && |seg| > LIMIT + 1 {
      i :| 0 <= i < |parts| && parts[i] == seg;
    } else {
      i := |parts| - 1;
    }
  }

  /** A stream with a line that does not fit is torn by the byte-wise reader: it prints more bodies
      than there are lines. */
  lemma LongLineIsTorn(p: Processor, data: Bytes)
    requires Streaming(p) && OneByOne(p) && !Fits(p(data).0, p(data).1)
    ensures |Emitted(p, ByteWise(data))| > |Lines(p(data).0, p(data).1)|
  {
    var log, tail := ByteWiseExplained(p, [], START, [], data);
    assert [] + data == data;
    var pending := p(data).1;
    var i := SomePartTooLong(p(data).0, pending);
    TooLongIsTorn(log, tail, pending, i);
    GroupsFlatten(log, tail + pending);
    GroupsCut(log, tail, pending);
    TornBodies(Groups(log, tail + pending), Segments(p(data).0, pending));
  }

  ghost predicate PrintsLinesHoweverRead(p: Processor, data: Bytes) {
    forall chunks | Ended(chunks) && FromBuffer(chunks) && Consumed(chunks) == data ::
      Emitted(p, chunks) == Lines(p(data).0, p(data).1)
  }

  /** For every streaming processor that keeps pace: all ways of reading print the plain lines if and
      only if no line of the processed stream has more than 4097 bytes, or 4096 where a tail follows.
      A flush takes at least 4097, so one byte more can be torn. */
  lemma ExactLineLimit(p: Processor, data: Bytes)
    requires Streaming(p) && OneByOne(p)
    ensures PrintsLinesHoweverRead(p, data) <==> Fits(p(data).0, p(data).1)
  {
    if Fits(p(data).0, p(data).1) {
      forall chunks | Ended(chunks) && FromBuffer(chunks) && Consumed(chunks) == data
        ensures Emitted(p, chunks) == Lines(p(data).0, p(data).1)
      {
        RunPrintsTheLines(p, chunks);
      }
    } else {
      ByteWiseReads(data);
      LongLineIsTorn(p, data);
    }
  }

  // ----- Processors that obey the laws -----

  const PLAIN: Processor := (data: Bytes) => (data, [])

  lemma PlainStreams()
    ensures Streaming(PLAIN) && OneByOne(PLAIN)
  {
    forall a: Bytes, b: Bytes ensures SplitsAt(PLAIN, a, b) {
      assert [] + b == b;
    }
    forall data: Bytes, b: byte ensures YieldsOne(PLAIN, data, b) {
    }
  }

  const ESC: byte := 27
  const BRACKET: byte := 91

  /** The length of the escape sequence at the head of `s`, or 0 while it is incomplete:
      ESC [ parameters final-byte, or ESC and one other byte. */
  function EscapeLength(s: Bytes): (n: nat)
    requires s != [] && s[0] == ESC
    ensures n <= |s|
  {
    if |s| < 2 then 0 else if s[1] != BRACKET then 2 else FinalByte(s, 2)
  }

  function FinalByte(s: Bytes, i: nat): (n: nat)
    requires i <= |s|
    ensures n == 0 || i < n <= |s|
    decreases |s| - i
  {
    if i == |s| then 0 else if 64 <= s[i] <= 126 then i + 1 else FinalByte(s, i + 1)
  }

  /** Removes complete escape sequences; an unfinished one is carried over. */
  function StripEscapes(s: Bytes): (Bytes, Bytes) {
    if s == [] then ([], [])
    else if s[0] != ESC then
      var r := StripEscapes(s[1..]);
      ([s[0]] + r.0, r.1)
    else
      var n := EscapeLength(s);
      if n == 0 then ([], s) else StripEscapes(s[n..])
  }

  lemma {:induction false} FinalByteExtends(a: Bytes, b: Bytes, i: nat)
    requires i <= |a|
    ensures FinalByte(a, i) != 0 ==> FinalByte(a + b, i) == FinalByte(a, i)
    decreases |a| - i
  {
    if i < |a| {
      FinalByteExtends(a, b, i + 1);
    }
  }

  lemma {:induction false} StripStreams(a: Bytes, b: Bytes)
    ensures SplitsAt(StripEscapes, a, b)
    decreases |a|
  {
    if a == [] {
      assert a + b == b && [] + b == b;
      assert [] + StripEscapes(b).0 == StripEscapes(b).0;
    } else if a[0] != ESC {
      assert (a + b)[1..] == a[1..] + b;
      StripStreams(a[1..], b);
      Assoc([a[0]], StripEscapes(a[1..]).0, StripEscapes(StripEscapes(a[1..]).1 + b).0);
    } else {
      var n := EscapeLength(a);
      if n == 0 {
        assert [] + StripEscapes(a + b).0 == StripEscapes(a + b).0;
      } else {
        if |a| >= 2 {
          FinalByteExtends(a, b, 2);
        }
        assert EscapeLength(a + b) == n;
        assert (a + b)[n..] == a[n..] + b;
        StripStreams(a[n..], b);
      }
    }
  }

  /** The streaming law has a non-trivial instance. */
  lemma StripEscapesIsStreaming()
    ensures Streaming(StripEscapes)
  {
    forall a: Bytes, b: Bytes ensures SplitsAt(StripEscapes, a, b) {
      StripStreams(a, b);
    }
  }

  /** What is carried over is an unfinished escape sequence. */
  lemma {:induction false} StripLeavesEscape(s: Bytes)
    ensures var rest := StripEscapes(s).1; rest != [] ==> rest[0] == ESC && EscapeLength(rest) == 0
  {
    if s != [] {
      if s[0] != ESC {
        StripLeavesEscape(s[1..]);
      } else if EscapeLength(s) != 0 {
        StripLeavesEscape(s[EscapeLength(s)..]);
      }
    }
  }

  lemma {:induction false} OneByteEnds(s: Bytes, b: byte, i: nat)
    requires i <= |s| && FinalByte(s, i) == 0
    ensures FinalByte(s + [b], i) == if 64 <= b <= 126 then |s| + 1 else 0
    decreases |s| - i
  {
    if i < |s| {
      OneByteEnds(s, b, i + 1);
    }
  }

  /** One byte more ends a carried sequence, which vanishes, or is carried over itself. */
  lemma StripYieldsOne(data: Bytes, b: byte)
    ensures YieldsOne(StripEscapes, data, b)
  {
    StripLeavesEscape(data);
    var rest := StripEscapes(data).1;
    var s := rest + [b];
    if rest == [] {
      assert s == [b] && s[1..] == [];
    } else {
      if |rest| >= 2 {
        OneByteEnds(rest, b, 2);
      }
      assert EscapeLength(s) == 0 || EscapeLength(s) == |s|;
      assert s[|s|..] == [];
    }
  }

  /** The exact limit holds for a processor that does carry sequences over. */
  lemma StripEscapesKeepsPace()
    ensures OneByOne(StripEscapes)
  {
    forall data: Bytes, b: byte ensures YieldsOne(StripEscapes, data, b) {
      StripYieldsOne(data, b);
    }
  }
}
