/** One Holder peer: a bounded output queue with a front offset
    (crates/persist-holder/src/connection.rs). */
module Connections {
  import opened Bytes
  import opened ByteQueues
  import opened HolderFrames

  datatype Role = Pending | Control | Data

  /** A connection's fields, followed by what it has been through: every frame queued to it,
      every byte its socket took, and where its current attachment began. */
  datatype Conn = Conn(
    role: Role,
    pid: nat,
    uid: nat,
    attached: Option<SessionId>,
    minor: nat,
    output: ByteQueue,
    closing: bool,
    log: seq<Queued>,
    sent: seq<byte>,
    mark: nat,
    from: nat,
    origin: Origin,
    replay: seq<seq<byte>>)

  /** What an attachment was owed: the session it joined began at `begin` in its history and keeps
      `capacity` bytes for replay, of which the client asked for `asked`. */
  datatype Origin = Origin(begin: nat, capacity: nat, asked: nat)

  const NO_ORIGIN := Origin(0, 0, 0)

  function FreshConn(pid: nat, uid: nat): Conn
  {
    Conn(Pending, pid, uid, None, BASELINE_MINOR, EMPTY, false, [], [], 0, 0, NO_ORIGIN, [])
  }

  /** The socket has taken a prefix of the queued frames' bytes, the queue holds exactly the
      rest, and the byte count is right and bounded. */
  ghost predicate ConnSound(codec: Codec, c: Conn)
  {
    && Sound(c.output)
    && c.output.size <= MAX_PENDING_OUTPUT
    && Encodable(codec, c.log)
    && c.mark <= |c.log|
    && Wire(codec, c.log) == c.sent + ByteQueues.Pending(c.output)
    && (Substantial(codec) ==> Full(c.output))
  }

  /** No frame is encoded as nothing: every one has at least a header. */
  ghost predicate Substantial(codec: Codec)
  {
    forall f: Frame, minor: nat :: codec(f, minor).Some? ==> codec(f, minor).value != []
  }

  /** Frames queued since the current attachment began. */
  function Since(c: Conn): seq<Queued>
    requires c.mark <= |c.log|
  {
    c.log[c.mark..]
  }

  predicate Fits(codec: Codec, c: Conn, f: Frame)
  {
    var bytes := codec(f, c.minor);
    bytes.Some? && c.output.size + |bytes.value| <= MAX_PENDING_OUTPUT
  }

  function Enqueue(codec: Codec, c: Conn, f: Frame): Conn
    requires Fits(codec, c, f)
  {
    c.(output := Push(c.output, codec(f, c.minor).value), log := c.log + [Queued(f, c.minor)])
  }

  lemma EnqueueKeeps(codec: Codec, c: Conn, f: Frame)
    requires ConnSound(codec, c) && Fits(codec, c, f)
    ensures ConnSound(codec, Enqueue(codec, c, f))
    ensures Since(Enqueue(codec, c, f)) == Since(c) + [Queued(f, c.minor)]
  {
    var bytes := codec(f, c.minor).value;
    var d := Enqueue(codec, c, f);
    PushAppends(c.output, bytes);
    assert d.log[..|d.log| - 1] == c.log;
    assert c.sent + ByteQueues.Pending(c.output) + bytes == c.sent + (ByteQueues.Pending(c.output) + bytes);
  }

  /** `Alive`: keep the connection; `Finished`: close it; `Died`: the write failed outright. */
  datatype FlushOutcome = Alive | Finished | Died

  ghost function AfterFlush(c: Conn, script: seq<WriteResult>): Conn
    requires Sound(c.output)
  {
    var d := Drain(c.output, script);
    c.(output := d.queue, sent := c.sent + d.written)
  }

  ghost function FlushResult(c: Conn, script: seq<WriteResult>): FlushOutcome
    requires Sound(c.output)
  {
    var d := Drain(c.output, script);
    match d.stop
    case Zero => Finished
    case Broken => Died
    case Emptied => if c.closing then Finished else Alive
    case Blocked => Alive
  }

  lemma FlushKeeps(codec: Codec, c: Conn, script: seq<WriteResult>)
    requires ConnSound(codec, c)
    ensures ConnSound(codec, AfterFlush(c, script))
    ensures Since(AfterFlush(c, script)) == Since(c)
    ensures c.sent <= AfterFlush(c, script).sent <= Wire(codec, c.log)
  {
    var d := Drain(c.output, script);
    if Full(c.output) { DrainStaysFull(c.output, script); }
    assert c.sent + (d.written + ByteQueues.Pending(d.queue)) == c.sent + d.written + ByteQueues.Pending(d.queue);
  }

  /** One successful write of the front chunk. */
  function Taken(c: Conn, count: nat): Conn
    requires c.output.chunks != [] && c.output.offset + count <= |c.output.chunks[0]| && count <= c.output.size
  {
    c.(output := Advance(c.output, count), sent := c.sent + Front(c.output)[..count])
  }

  /** A flush that is through with `script[..i]` and stands at `now` will end as one from `start`. */
  ghost predicate Flushing(start: Conn, now: Conn, script: seq<WriteResult>, i: nat)
  {
    && i <= |script| && Sound(start.output) && Sound(now.output)
    && var rest := Ahead(now.output, script, i);
       && AfterFlush(start, script) == now.(output := rest.queue, sent := now.sent + rest.written)
       && Drain(start.output, script).stop == rest.stop
  }

  lemma FlushStarts(c: Conn, script: seq<WriteResult>)
    requires Sound(c.output)
    ensures Flushing(c, c, script, 0)
  {
    AheadAtStart(c.output, script);
  }

  lemma FlushReady(start: Conn, now: Conn, script: seq<WriteResult>, i: nat)
    requires Flushing(start, now, script, i) && now.output.chunks != []
    ensures i <= |script| && now.output.offset <= |now.output.chunks[0]|
  {
    hide Ahead, AfterFlush, Drain;
  }

  lemma FlushStep(start: Conn, now: Conn, script: seq<WriteResult>, i: nat, count: nat)
    requires Flushing(start, now, script, i) && now.output.chunks != []
    requires now.output.offset <= |now.output.chunks[0]| && Answer(now.output, script, i) == Take(count)
    ensures i < |script| && now.output.offset + count <= |now.output.chunks[0]| && count <= now.output.size
    ensures Flushing(start, Taken(now, count), script, i + 1)
  {
    AheadStep(now.output, script, i);
    hide Ahead, AfterFlush, Drain, Sound, Advance, Front;
    var rest := Ahead(Advance(now.output, count), script, i + 1);
    Associate(now.sent, Front(now.output)[..count], rest.written);
  }

  lemma FlushEnds(start: Conn, now: Conn, script: seq<WriteResult>, i: nat, stop: Stop)
    requires Flushing(start, now, script, i)
    requires if now.output.chunks == [] then stop == Emptied
             else now.output.offset <= |now.output.chunks[0]| && Answer(now.output, script, i) == Halt(stop)
    ensures Sound(start.output) && AfterFlush(start, script) == now && Drain(start.output, script).stop == stop
  {
    if now.output.chunks != [] {
      AheadStep(now.output, script, i);
    }
    assert now.sent + [] == now.sent;
  }

  class Connection {
    const codec: Codec
    const pid: nat
    const uid: nat
    var role: Role
    var attachedSession: Option<SessionId>
    var protocolMinor: nat
    var output: seq<seq<byte>>
    var outputOffset: nat
    var outputBytes: nat
    var closeAfterFlush: bool
    ghost var log: seq<Queued>
    ghost var sent: seq<byte>
    ghost var mark: nat
    ghost var from: nat
    ghost var origin: Origin
    ghost var replay: seq<seq<byte>>

    ghost function State(): Conn
      reads this
    {
      Conn(role, pid, uid, attachedSession, protocolMinor,
           ByteQueue(output, outputOffset, outputBytes), closeAfterFlush,
           log, sent, mark, from, origin, replay)
    }

    constructor (codec: Codec, pid: nat, uid: nat)
      ensures this.codec == codec && State() == FreshConn(pid, uid)
    {
      this.codec := codec;
      this.pid := pid;
      this.uid := uid;
      role := Pending;
      attachedSession := None;
      protocolMinor := BASELINE_MINOR;
      output := [];
      outputOffset := 0;
      outputBytes := 0;
      closeAfterFlush := false;
      log := [];
      sent := [];
      mark := 0;
      from := 0;
      origin := NO_ORIGIN;
      replay := [];
    }

    /** Refuses a frame that cannot be encoded or would overflow the queue, and then
        changes nothing. */
    method Queue(frame: Frame) returns (ok: bool)
      modifies this
      ensures ok == Fits(codec, old(State()), frame)
      ensures State() == if ok then Enqueue(codec, old(State()), frame) else old(State())
    {
      var encoded := codec(frame, protocolMinor);
      if encoded.None? {
        return false;
      }
      var newSize := outputBytes + |encoded.value|;
      if newSize > MAX_PENDING_OUTPUT {
        return false;
      }
      outputBytes := newSize;
      output := output + [encoded.value];
      log := log + [Queued(frame, protocolMinor)];
      ok := true;
    }

    /** The attachment begins here, and remembers where it began and what it is owed. */
    method AttachTo(id: SessionId, ghost from: nat, ghost origin: Origin, ghost replay: seq<seq<byte>>)
      modifies this`attachedSession, this`mark, this`from, this`origin, this`replay
      ensures State() == old(State()).(attached := Some(id), mark := |old(State()).log|, from := from,
              origin := origin, replay := replay)
    {
      attachedSession := Some(id);
      mark := |log|;
      this.from := from;
      this.origin := origin;
      this.replay := replay;
    }

    /** Writes until the queue is empty or the kernel stops taking bytes. */
    method Flush(script: seq<WriteResult>) returns (result: FlushOutcome)
      requires Sound(State().output)
      modifies this`output, this`outputOffset, this`outputBytes, this`sent
      ensures State() == AfterFlush(old(State()), script)
      ensures result == FlushResult(old(State()), script)
    {
      ghost var start := State();
      var i := 0;
      var stop := Emptied;
      FlushStarts(start, script);
      hide Flushing, Answer, Taken, Sound, AfterFlush, Drain, Advance, Front;
      while output != []
        invariant Flushing(start, State(), script, i)
        invariant stop == Emptied
        decreases |script| - i
      {
        FlushReady(start, State(), script, i);
        var answer := Answer(ByteQueue(output, outputOffset, outputBytes), script, i);
        if answer.Halt? {
          stop := answer.stop;
          break;
        }
        FlushStep(start, State(), script, i, answer.count);
        TakeFront(answer.count);
        i := i + 1;
      }
      FlushEnds(start, State(), script, i, stop);
      result := match stop
        case Zero => Finished
        case Broken => Died
        case Emptied => if closeAfterFlush then Finished else Alive
        case Blocked => Alive;
    }

    method TakeFront(count: nat)
      requires output != [] && outputOffset + count <= |output[0]| && count <= outputBytes
      modifies this`output, this`outputOffset, this`outputBytes, this`sent
      ensures State() == Taken(old(State()), count)
    {
      sent := sent + output[0][outputOffset..][..count];
      outputOffset := outputOffset + count;
      outputBytes := outputBytes - count;
      if outputOffset == |output[0]| {
        output := output[1..];
        outputOffset := 0;
      }
    }

    method WantsWrite() returns (b: bool)
      ensures b == (State().output.chunks != [])
    {
      b := output != [];
    }
  }
}
