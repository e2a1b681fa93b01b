/** Frames on the daemon socket: the incremental parser, the blocking reader and the writer
    (crates/persist-ipc/src/protocol.rs). */
module Framing {
  import opened Bytes

  const MAX_CONTROL_FRAME: nat := 1024 * 1024
  const MAX_IO_FRAME: nat := 64 * 1024
  const HEADER_SIZE: nat := 12

  /** `code` is the message type as it stands on the wire. */
  datatype Frame = Frame(code: nat, flags: nat, requestId: nat, payload: seq<byte>)

  predicate KnownType(code: nat)
  {
    1 <= code <= 3 || 0x10 <= code <= 0x3B || 0x100 <= code <= 0x103 || 0x300 <= code <= 0x305
  }

  /** Stdin, Stdout and Resize. */
  predicate IsIo(code: nat)
  {
    0x100 <= code <= 0x102
  }

  function Limit(code: nat): nat
  {
    if IsIo(code) then MAX_IO_FRAME else MAX_CONTROL_FRAME
  }

  datatype FrameError = UnknownType | PayloadTooLarge | Closed

  // ---- Writing ------------------------------------------------------------------------

  function Encode(f: Frame): (b: seq<byte>)
    ensures |b| == HEADER_SIZE + |f.payload|
  {
    U32Bytes(|f.payload|) + U16Bytes(f.code) + U16Bytes(f.flags) + U32Bytes(f.requestId) + f.payload
  }

  /** Field values that fit their wire fields; nothing is said about the payload limit, which the
      writer does not check. */
  predicate Writable(f: Frame)
  {
    KnownType(f.code) && f.flags < U16 && f.requestId < U32 && |f.payload| < U32
  }

  predicate Legal(f: Frame)
  {
    Writable(f) && |f.payload| <= Limit(f.code)
  }

  function EncodeAll(frames: seq<Frame>): seq<byte>
  {
    if frames == [] then [] else Encode(frames[0]) + EncodeAll(frames[1..])
  }

  // ---- Parsing a buffer ------------------------------------------------------------------

  datatype Parsed = Need | Bad(error: FrameError) | Got(frame: Frame, rest: seq<byte>)

  function PayloadLength(b: seq<byte>): nat
    requires |b| >= HEADER_SIZE
  {
    FromBigEndian(b[0..4])
  }

  function HeaderOf(b: seq<byte>, payload: seq<byte>): Frame
    requires |b| >= HEADER_SIZE
  {
    Frame(FromBigEndian(b[4..6]), FromBigEndian(b[6..8]), FromBigEndian(b[8..12]), payload)
  }

  /** Nothing is judged before the whole frame has arrived. */
  function Parse(b: seq<byte>): Parsed
  {
    if |b| < HEADER_SIZE || |b| < HEADER_SIZE + PayloadLength(b) then Need
    else
      var total := HEADER_SIZE + PayloadLength(b);
      var f := HeaderOf(b, b[HEADER_SIZE..total]);
      if !KnownType(f.code) then Bad(UnknownType)
      else if |f.payload| > Limit(f.code) then Bad(PayloadTooLarge)
      else Got(f, b[total..])
  }

  datatype Drained = Drained(frames: seq<Frame>, rest: seq<byte>, error: Option<FrameError>)

  /** Reading until there is nothing more, or an error. */
  function Drain(b: seq<byte>): Drained
    decreases |b|
  {
    match Parse(b)
    case Need => Drained([], b, None)
    case Bad(e) => Drained([], b, Some(e))
    case Got(f, rest) =>
      var d := Drain(rest);
      d.(frames := [f] + d.frames)
  }

  /** A verdict, once given, stands however much more arrives. */
  lemma VerdictsArePermanent(b: seq<byte>, more: seq<byte>)
    ensures match Parse(b)
            case Need => true
            case Bad(e) => Parse(b + more) == Bad(e)
            case Got(f, rest) => Parse(b + more) == Got(f, rest + more)
  {
    if |b| >= HEADER_SIZE && |b| >= HEADER_SIZE + PayloadLength(b) {
      var total := HEADER_SIZE + PayloadLength(b);
      assert (b + more)[0..4] == b[0..4] && (b + more)[4..6] == b[4..6];
      assert (b + more)[6..8] == b[6..8] && (b + more)[8..12] == b[8..12];
      assert (b + more)[HEADER_SIZE..total] == b[HEADER_SIZE..total];
      assert (b + more)[total..] == b[total..] + more;
      hide FromBigEndian;
    }
  }

  lemma {:induction false} DrainInStages(b: seq<byte>, more: seq<byte>)
    ensures var first := Drain(b);
            var second := Drain(first.rest + more);
            Drain(b + more) == second.(frames := first.frames + second.frames)
    decreases |b|
  {
    VerdictsArePermanent(b, more);
    hide FromBigEndian;
    match Parse(b) {
      case Got(f, rest) =>
        DrainInStages(rest, more);
        var first := Drain(rest);
        Associate([f], first.frames, Drain(first.rest + more).frames);
      case _ =>
        assert [] + Drain(b + more).frames == Drain(b + more).frames;
    }
  }

  /** A stream fed piece by piece, drained after every piece. */
  function FeedAll(b: seq<byte>, chunks: seq<seq<byte>>): Drained
    decreases |chunks|
  {
    var d := Drain(b);
    if chunks == [] then d
    else
      var later := FeedAll(d.rest + chunks[0], chunks[1..]);
      later.(frames := d.frames + later.frames)
  }

  /** However the stream is cut up, the frames, the leftover and the error are those of the whole. */
  lemma {:induction false} ChunkingIsInvisible(b: seq<byte>, chunks: seq<seq<byte>>)
    ensures FeedAll(b, chunks) == Drain(b + Concat(chunks))
    decreases |chunks|
  {
    if chunks == [] {
      assert b + Concat(chunks) == b;
    } else {
      var d := Drain(b);
      var rest := Concat(chunks[1..]);
      ChunkingIsInvisible(d.rest + chunks[0], chunks[1..]);
      Associate(d.rest, chunks[0], rest);
      DrainInStages(b, chunks[0] + rest);
      hide Drain;
    }
  }

  lemma {:induction false} SameStreamSameFrames(b: seq<byte>, one: seq<seq<byte>>, other: seq<seq<byte>>)
    requires Concat(one) == Concat(other)
    ensures FeedAll(b, one) == FeedAll(b, other)
  {
    ChunkingIsInvisible(b, one);
    ChunkingIsInvisible(b, other);
  }

  // ---- Round trips -----------------------------------------------------------------------

  lemma EncodedFields(f: Frame, rest: seq<byte>)
    requires Writable(f)
    ensures var b := Encode(f) + rest;
            && |b| == HEADER_SIZE + |f.payload| + |rest|
            && PayloadLength(b) == |f.payload|
            && HeaderOf(b, f.payload) == f
            && b[HEADER_SIZE..HEADER_SIZE + |f.payload|] == f.payload
            && b[HEADER_SIZE + |f.payload|..] == rest
  {
    U32RoundTrip(|f.payload|);
    U16RoundTrip(f.code);
    U16RoundTrip(f.flags);
    U32RoundTrip(f.requestId);
    hide BigEndian, FromBigEndian;
    var b := Encode(f) + rest;
    assert b[0..4] == U32Bytes(|f.payload|);
    assert b[4..6] == U16Bytes(f.code);
    assert b[6..8] == U16Bytes(f.flags);
    assert b[8..12] == U32Bytes(f.requestId);
  }

  /** A frame on the wire is parsed as itself when its payload is within the limit of its type, and
      refused otherwise. */
  lemma WrittenFramesParse(f: Frame, rest: seq<byte>)
    requires Writable(f)
    ensures Parse(Encode(f) + rest) == if |f.payload| <= Limit(f.code) then Got(f, rest) else Bad(PayloadTooLarge)
  {
    EncodedFields(f, rest);
    hide Encode, FromBigEndian, PayloadLength;
  }

  lemma {:induction false} RoundTrip(frames: seq<Frame>, tail: seq<byte>)
    requires forall i :: 0 <= i < |frames| ==> Legal(frames[i])
    ensures var d := Drain(tail);
            Drain(EncodeAll(frames) + tail) == d.(frames := frames + d.frames)
    decreases |frames|
  {
    var d := Drain(tail);
    if frames == [] {
      assert [] + tail == tail && [] + d.frames == d.frames;
    } else {
      var later := EncodeAll(frames[1..]) + tail;
      Associate(Encode(frames[0]), EncodeAll(frames[1..]), tail);
      WrittenFramesParse(frames[0], later);
      RoundTrip(frames[1..], tail);
      Associate([frames[0]], frames[1..], d.frames);
      assert [frames[0]] + frames[1..] == frames;
      hide Parse, Encode, Legal;
    }
  }

  // ---- The blocking reader -----------------------------------------------------------------

  datatype ReadOutcome = Received(frame: Frame, rest: seq<byte>) | Refused(error: FrameError)

  function ReadOne(input: seq<byte>): ReadOutcome
  {
    if |input| < HEADER_SIZE then Refused(Closed)
    else
      var n := PayloadLength(input);
      var code := FromBigEndian(input[4..6]);
      if n > MAX_CONTROL_FRAME then Refused(PayloadTooLarge)
      else if !KnownType(code) then Refused(UnknownType)
      else if |input| < HEADER_SIZE + n then Refused(Closed)
      else Received(HeaderOf(input, input[HEADER_SIZE..HEADER_SIZE + n]), input[HEADER_SIZE + n..])
  }

  /** The two readers agree on every frame, except that only the blocking one lets terminal
      traffic through above 64 KiB. */
  lemma ReadersAgree(b: seq<byte>)
    ensures forall f, rest :: Parse(b) == Got(f, rest) <==>
              (ReadOne(b) == Received(f, rest) && !(IsIo(f.code) && |f.payload| > MAX_IO_FRAME))
  {
  }

  /** The one frame on which they differ, for every payload in between the two limits. */
  lemma ReadersDiffer(f: Frame, rest: seq<byte>)
    requires Writable(f) && IsIo(f.code) && MAX_IO_FRAME < |f.payload| <= MAX_CONTROL_FRAME
    ensures ReadOne(Encode(f) + rest) == Received(f, rest)
    ensures Parse(Encode(f) + rest) == Bad(PayloadTooLarge)
  {
    EncodedFields(f, rest);
    WrittenFramesParse(f, rest);
    hide Encode, FromBigEndian, Parse;
  }

  /** 65537 bytes of terminal output, for example. */
  lemma ReadersDifferOnOneByteMore()
    ensures var f := Frame(0x101, 0, 0, seq(MAX_IO_FRAME + 1, _ => 0));
            ReadOne(Encode(f) + []) == Received(f, []) && Parse(Encode(f) + []) == Bad(PayloadTooLarge)
  {
    hide ReadOne, Parse, Encode;
    ReadersDiffer(Frame(0x101, 0, 0, seq(MAX_IO_FRAME + 1, _ => 0)), []);
  }

  /** `read` may deliver any number of bytes at a time; `counts` is what it chooses to deliver. */
  method ReadN(input: seq<byte>, n: nat, counts: seq<nat>) returns (bytes: Option<seq<byte>>, rest: seq<byte>)
    ensures bytes == if |input| >= n then Some(input[..n]) else None
    ensures bytes.Some? ==> rest == input[n..]
  {
    var buffer: seq<byte> := [];
    rest := input;
    var i := 0;
    while |buffer| < n
      invariant |buffer| <= n && buffer + rest == input
      decreases n - |buffer|
    {
      if rest == [] {
        return None, rest;
      }
      var wanted := if i < |counts| then Max(1, counts[i]) else |rest|;
      var count := Min(wanted, Min(n - |buffer|, |rest|));
      assert buffer + rest[..count] + rest[count..] == buffer + rest;
      buffer := buffer + rest[..count];
      rest := rest[count..];
      i := i + 1;
    }
    assert input[..n] == buffer && input[n..] == rest;
    bytes := Some(buffer);
  }

  method ReadFrame(input: seq<byte>, counts: seq<nat>, more: seq<nat>) returns (outcome: ReadOutcome)
    ensures outcome == ReadOne(input)
  {
    var header, rest := ReadN(input, HEADER_SIZE, counts);
    if header.None? {
      return Refused(Closed);
    }
    var h := header.value;
    assert h[0..4] == input[0..4] && h[4..6] == input[4..6] && h[6..8] == input[6..8] && h[8..12] == input[8..12];
    hide FromBigEndian;
    var n := FromBigEndian(h[0..4]);
    var code := FromBigEndian(h[4..6]);
    if n > MAX_CONTROL_FRAME {
      return Refused(PayloadTooLarge);
    }
    if !KnownType(code) {
      return Refused(UnknownType);
    }
    var payload, after := ReadN(rest, n, more);
    if payload.None? {
      return Refused(Closed);
    }
    assert rest[..n] == input[HEADER_SIZE..HEADER_SIZE + n] && rest[n..] == input[HEADER_SIZE + n..];
    outcome := Received(Frame(code, FromBigEndian(h[6..8]), FromBigEndian(h[8..12]), payload.value), after);
  }

  // ---- The incremental reader -----------------------------------------------------------------

  class FrameAccumulator {
    var buf: seq<byte>

    constructor ()
      ensures buf == []
    {
      buf := [];
    }

    method Feed(data: seq<byte>)
      modifies this
      ensures buf == old(buf) + data
    {
      buf := buf + data;
    }

    /** An error leaves the buffer as it is, so it will be found again. */
    method TryRead() returns (result: Parsed)
      modifies this
      ensures result == Parse(old(buf))
      ensures buf == if result.Got? then result.rest else old(buf)
    {
      if |buf| < HEADER_SIZE {
        return Need;
      }
      var payloadLen := FromBigEndian(buf[0..4]);
      var total := HEADER_SIZE + payloadLen;
      if |buf| < total {
        return Need;
      }
      var code := FromBigEndian(buf[4..6]);
      if !KnownType(code) {
        return Bad(UnknownType);
      }
      var limit := if IsIo(code) then MAX_IO_FRAME else MAX_CONTROL_FRAME;
      if payloadLen > limit {
        return Bad(PayloadTooLarge);
      }
      var f := Frame(code, FromBigEndian(buf[6..8]), FromBigEndian(buf[8..12]), buf[HEADER_SIZE..total]);
      buf := buf[total..];
      result := Got(f, buf);
    }

    /** Reads until there is nothing more, or an error. */
    method ReadAvailable() returns (frames: seq<Frame>, error: Option<FrameError>)
      modifies this
      ensures Drained(frames, buf, error) == Drain(old(buf))
    {
      frames, error := [], None;
      ghost var start := buf;
      hide Parse;
      assert [] + Drain(buf).frames == Drain(buf).frames;
      while true
        invariant Drain(start) == Drain(buf).(frames := frames + Drain(buf).frames)
        decreases |buf|
      {
        ghost var later := Drain(buf);
        GotIsShorter(buf);
        var result := TryRead();
        match result {
          case Need => break;
          case Bad(e) =>
            error := Some(e);
            break;
          case Got(f, rest) =>
            Associate(frames, [f], Drain(rest).frames);
            frames := frames + [f];
        }
      }
      assert frames + [] == frames;
    }

    /** A connection's turn, over and over: whatever has arrived is fed and then read. */
    method Serve(chunks: seq<seq<byte>>) returns (frames: seq<Frame>, error: Option<FrameError>)
      modifies this
      ensures Drained(frames, buf, error) == FeedAll(old(buf), chunks)
      ensures Drained(frames, buf, error) == Drain(old(buf) + Concat(chunks))
    {
      ghost var start := buf;
      ChunkingIsInvisible(start, chunks);
      assert start + Concat(chunks[..0]) == start && chunks[..|chunks|] == chunks;
      hide Drain, FeedAll, Concat;
      frames, error := ReadAvailable();
      for k := 0 to |chunks|
        invariant Drained(frames, buf, error) == Drain(start + Concat(chunks[..k]))
      {
        DrainInStages(start + Concat(chunks[..k]), chunks[k]);
        ConcatSnoc(chunks[..k], chunks[k]);
        assert chunks[..k] + [chunks[k]] == chunks[..k + 1];
        Associate(start, Concat(chunks[..k]), chunks[k]);
        Feed(chunks[k]);
        var more;
        more, error := ReadAvailable();
        frames := frames + more;
      }
    }
  }

  lemma GotIsShorter(b: seq<byte>)
    ensures Parse(b).Got? ==> |Parse(b).rest| < |b|
  {
  }
}
