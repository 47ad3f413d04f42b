/** The tagged line splitter of runner/process_manager.go. */
module LineStream {
  import opened Sequences

  newtype byte = x: int | 0 <= x < 256
  type Bytes = seq<byte>

  const NEWLINE: byte := 10
  const SPACE: byte := 32
  const LIMIT := 4096
  const BUFFER := 4096

  /** `vm.ProcessEscapeSequences`: the processed output and the incomplete tail. */
  type Processor = Bytes -> (Bytes, Bytes)

  function Resume(p: Processor, before: (Bytes, Bytes), data: Bytes): (Bytes, Bytes) {
    var next := p(before.1 + data);
    (before.0 + next.0, next.1)
  }

  /** Processing in two parts, carrying the incomplete tail over, is processing at once. */
  ghost predicate Streaming(p: Processor) {
    && p([]) == ([], [])
    && forall a: Bytes, b: Bytes :: SplitsAt(p, a, b)
  }

  predicate SplitsAt(p: Processor, a: Bytes, b: Bytes) {
    p(a + b) == Resume(p, p(a), b)
  }

  /** One result of `reader.Read`: the bytes and whether an error came with them. */
  datatype Read = Read(data: Bytes, err: bool)

  predicate FromBuffer(chunks: seq<Read>) {
    forall r :: r in chunks ==> |r.data| <= BUFFER
  }

  predicate Ended(chunks: seq<Read>) {
    exists r :: r in chunks && r.err
  }

  /** What the goroutine has read: everything up to and including the first error. */
  function Consumed(chunks: seq<Read>): Bytes {
    if chunks == [] then []
    else if chunks[0].err then chunks[0].data
    else chunks[0].data + Consumed(chunks[1..])
  }

  // ----- The loop as a state transformer -----

  datatype State = State(pending: Bytes, lineBuf: Bytes, bodies: seq<Bytes>)

  const START := State([], [], [])

  function AfterData(p: Processor, st: State, data: Bytes): State {
    if data == [] then st
    else
      var (output, incomplete) := p(st.pending + data);
      var parts := Split(st.lineBuf + output, NEWLINE);
      var bodies := st.bodies + NonEmpty(Front(parts));
      if |Last(parts)| > LIMIT then State(incomplete, [], bodies + [Last(parts)])
      else State(incomplete, Last(parts), bodies)
  }

  function AtError(st: State): State {
    var rest := st.lineBuf + st.pending;
    if rest == [] then st else st.(lineBuf := rest, bodies := st.bodies + [rest])
  }

  function Run(p: Processor, st: State, chunks: seq<Read>): State
    decreases |chunks|
  {
    if chunks == [] then st
    else
      var st' := AfterData(p, st, chunks[0].data);
      if chunks[0].err then AtError(st') else Run(p, st', chunks[1..])
  }

  /** The bodies printed for a sequence of reads. */
  function Emitted(p: Processor, chunks: seq<Read>): seq<Bytes> {
    Run(p, START, chunks).bodies
  }

  function TaggedLine(tag: Bytes, body: Bytes): Bytes {
    tag + [SPACE] + body + [NEWLINE]
  }

  function TagAll(tag: Bytes, bodies: seq<Bytes>): (r: seq<Bytes>)
    ensures |r| == |bodies|
    ensures forall i :: 0 <= i < |r| ==> r[i] == tag + [32] + bodies[i] + [10]
  {
    seq(|bodies|, i requires 0 <= i < |bodies| => TaggedLine(tag, bodies[i]))
  }

  // ----- The imperative loop -----

  method IndexByte(s: Bytes, b: byte) returns (idx: int)
    ensures -1 <= idx < |s|
    ensures idx == -1 <==> b !in s
    ensures idx >= 0 ==> s[idx] == b && b !in s[..idx]
  {
    idx := 0;
    while idx < |s|
      invariant 0 <= idx <= |s|
      invariant b !in s[..idx]
    {
      if s[idx] == b {
        return;
      }
      idx := idx + 1;
    }
    assert s[..idx] == s;
    idx := -1;
  }

  lemma FrontOfMore(first: Bytes, after: seq<Bytes>)
    requires after != []
    ensures Last([first] + after) == Last(after)
    ensures NonEmpty(Front([first] + after)) == (if first == [] then [] else [first]) + NonEmpty(Front(after))
  {
    var front := Front([first] + after);
    assert front == [first] + Front(after);
    assert front[1..] == Front(after);
  }

  /** What one pass of the inner loop takes off the buffer. */
  lemma FirstLine(buf: Bytes, idx: nat)
    requires idx < |buf| && buf[idx] == NEWLINE && NEWLINE !in buf[..idx]
    ensures Last(Split(buf, NEWLINE)) == Last(Split(buf[idx + 1..], NEWLINE))
    ensures NonEmpty(Front(Split(buf, NEWLINE)))
      == (if idx > 0 then [buf[..idx]] else []) + NonEmpty(Front(Split(buf[idx + 1..], NEWLINE)))
  {
    assert buf == buf[..idx] + [NEWLINE] + buf[idx + 1..];
    SplitAtSeparator(buf[..idx], buf[idx + 1..], NEWLINE);
    FrontOfMore(buf[..idx], Split(buf[idx + 1..], NEWLINE));
  }

  /** The inner loop: print every complete non-empty line and keep what follows the last newline. */
  method DrainLines(tag: Bytes, buf: Bytes) returns (printed: seq<Bytes>, rest: Bytes)
    ensures printed == TagAll(tag, NonEmpty(Front(Split(buf, NEWLINE))))
    ensures rest == Last(Split(buf, NEWLINE))
  {
    printed, rest := [], buf;
    ghost var bodies: seq<Bytes> := [];
    while true
      invariant printed == TagAll(tag, bodies)
      invariant Last(Split(rest, NEWLINE)) == Last(Split(buf, NEWLINE))
      invariant bodies + NonEmpty(Front(Split(rest, NEWLINE))) == NonEmpty(Front(Split(buf, NEWLINE)))
      decreases |rest|
    {
      var idx := IndexByte(rest, NEWLINE);
      if idx < 0 {
        SplitWhole(rest, NEWLINE);
        break;
      }
      FirstLine(rest, idx);
      Assoc(bodies, if idx > 0 then [rest[..idx]] else [], NonEmpty(Front(Split(rest[idx + 1..], NEWLINE))));
      if idx > 0 {
        printed := printed + [TaggedLine(tag, rest[..idx])];
        bodies := bodies + [rest[..idx]];
      }
      rest := rest[idx + 1..];
    }
  }

  lemma TagAppend(tag: Bytes, a: seq<Bytes>, b: seq<Bytes>)
    ensures TagAll(tag, a) + TagAll(tag, b) == TagAll(tag, a + b)
  {
  }

  /** What the loop does with the bytes of one successful read. */
  method HandleData(tag: Bytes, p: Processor, pending: Bytes, lineBuf: Bytes, buf: Bytes, ghost before: seq<Bytes>)
    returns (pending': Bytes, lineBuf': Bytes, printed: seq<Bytes>, ghost bodies: seq<Bytes>)
    requires |buf| > 0
    ensures printed == TagAll(tag, bodies)
    ensures State(pending', lineBuf', before + bodies) == AfterData(p, State(pending, lineBuf, before), buf)
  {
    var (output, incomplete) := p(pending + buf);
    pending' := incomplete;
    printed, lineBuf' := DrainLines(tag, lineBuf + output);
    bodies := NonEmpty(Front(Split(lineBuf + output, NEWLINE)));
    if |lineBuf'| > LIMIT {
      printed := printed + [TaggedLine(tag, lineBuf')];
      assert before + (bodies + [lineBuf']) == before + bodies + [lineBuf'];
      bodies := bodies + [lineBuf'];
      lineBuf' := [];
    }
  }

  /** The goroutine of AttachTagged over the reads the reader delivers. */
  method AttachTagged(reader: seq<Read>, tag: Bytes, p: Processor) returns (printed: seq<Bytes>)
    ensures printed == TagAll(tag, Emitted(p, reader))
    ensures |printed| == |Emitted(p, reader)|
    ensures forall i :: 0 <= i < |printed| ==> printed[i] == tag + [32] + Emitted(p, reader)[i] + [10]
  {
    printed := [];
    var pending: Bytes, lineBuf: Bytes := [], [];
    ghost var bodies: seq<Bytes> := [];
    var i := 0;
    while i < |reader|
      invariant 0 <= i <= |reader|
      invariant printed == TagAll(tag, bodies)
      invariant Run(p, State(pending, lineBuf, bodies), reader[i..]) == Run(p, START, reader)
    {
      var Read(buf, err) := reader[i];
      assert reader[i..][1..] == reader[i + 1..];
      i := i + 1;
      if |buf| > 0 {
        var lines; ghost var more;
        pending, lineBuf, lines, more := HandleData(tag, p, pending, lineBuf, buf, bodies);
        TagAppend(tag, bodies, more);
        printed, bodies := printed + lines, bodies + more;
      }
      if err {
        assert lineBuf + [] == lineBuf;
        if |pending| > 0 {
          lineBuf := lineBuf + pending;
        }
        if |lineBuf| > 0 {
          printed, bodies := printed + [TaggedLine(tag, lineBuf)], bodies + [lineBuf];
        }
        return;
      }
    }
  }
}
