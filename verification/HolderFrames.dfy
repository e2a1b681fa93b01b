/** Messages the Holder sends, and how a connection remembers what it was sent. The byte
    codec is a parameter: every result holds whatever encoder is plugged in. */
module HolderFrames {
  import opened Bytes

  type Fd = int
  type SessionId = nat

  const BASELINE_MINOR: nat := 1
  const CURRENT_MINOR: nat := 2
  const MAX_PENDING_OUTPUT: nat := 1024 * 1024
  const MAX_PENDING_INPUT: nat := 1024 * 1024
  const MAX_IO_FRAME: nat := 64 * 1024

  datatype HelloStatus = Accepted | PermissionDenied | Busy

  datatype OperationStatus = OpOk | NotFound | Conflict | Rejected | Internal

  datatype OperationKind = CreateResp | CloseResp | KillResp | RetireExitedResp | AttachResp

  /** What the shell left behind for recovery; absent parts were not captured. */
  datatype ExitContext = ExitContext(cwd: Option<seq<byte>>, environment: Option<seq<byte>>)

  datatype Message =
    | ControlHelloAck(nonce: nat, status: HelloStatus)
    | DataHelloAck(nonce: nat, status: HelloStatus)
    | CapabilityResp(nonce: nat)
    | InventoryResp(cursor: nat, limit: nat)
    | OperationResp(kind: OperationKind, session: SessionId, opStatus: OperationStatus)
    | ShutdownAllResp
    | ExitContextResp(session: SessionId, opStatus: OperationStatus, exitCode: Option<int>, context: ExitContext,
      v2: bool)
    | SessionExited(session: SessionId, code: int, context: ExitContext, v2: bool)
    | LogDegraded(session: SessionId, dropped: nat)
    | Output(data: seq<byte>)
    | WriteGranted(session: SessionId)
    | WriteRevoked(session: SessionId)

  datatype Frame = Frame(requestId: nat, generation: nat, message: Message)

  /** `None` is an encoding error. */
  type Codec = (Frame, nat) -> Option<seq<byte>>

  /** A frame together with the protocol minor it was encoded under. */
  datatype Queued = Queued(frame: Frame, minor: nat)

  ghost predicate Encodable(codec: Codec, log: seq<Queued>)
  {
    forall i :: 0 <= i < |log| ==> codec(log[i].frame, log[i].minor).Some?
  }

  /** The byte stream a list of queued frames stands for. */
  ghost function Wire(codec: Codec, log: seq<Queued>): seq<byte>
    requires Encodable(codec, log)
  {
    if log == [] then []
    else
      var last := log[|log| - 1];
      Wire(codec, log[..|log| - 1]) + codec(last.frame, last.minor).value
  }

  // ---- What a session emits, and what a client can read back out of its frames ----

  datatype StreamEvent = Chunk(data: seq<byte>) | Exit(code: int)

  function EventOf(m: Message): (e: seq<StreamEvent>)
  {
    match m
    case Output(data) => [Chunk(data)]
    case SessionExited(_, code, _, _) => [Exit(code)]
    case _ => []
  }

  /** The session events carried by a run of frames, in order. */
  function Deliveries(log: seq<Queued>): seq<StreamEvent>
  {
    if log == [] then [] else Deliveries(log[..|log| - 1]) + EventOf(log[|log| - 1].frame.message)
  }

  datatype WriterView = Silent | Granted | Revoked

  /** What the last write-ownership message in a run of frames told the client. */
  function LastWord(log: seq<Queued>): WriterView
  {
    if log == [] then Silent
    else match log[|log| - 1].frame.message
      case WriteGranted(_) => Granted
      case WriteRevoked(_) => Revoked
      case _ => LastWord(log[..|log| - 1])
  }

  lemma AppendReads(log: seq<Queued>, q: Queued)
    ensures Deliveries(log + [q]) == Deliveries(log) + EventOf(q.frame.message)
    ensures LastWord(log + [q]) == match q.frame.message
                                   case WriteGranted(_) => Granted
                                   case WriteRevoked(_) => Revoked
                                   case _ => LastWord(log)
  {
    assert (log + [q])[..|log|] == log;
  }

  /** Just the bytes of a stream of events. */
  function StreamBytes(events: seq<StreamEvent>): seq<byte>
  {
    if events == [] then []
    else
      StreamBytes(events[..|events| - 1])
      + match events[|events| - 1] { case Chunk(data) => data case Exit(_) => [] }
  }

  function ExitCount(events: seq<StreamEvent>): nat
  {
    if events == [] then 0
    else ExitCount(events[..|events| - 1]) + if events[|events| - 1].Exit? then 1 else 0
  }

  function Chunks(parts: seq<seq<byte>>): (r: seq<StreamEvent>)
    ensures |r| == |parts|
  {
    if parts == [] then [] else Chunks(parts[..|parts| - 1]) + [Chunk(parts[|parts| - 1])]
  }

  lemma {:induction false} StreamBytesAppend(a: seq<StreamEvent>, b: seq<StreamEvent>)
    ensures StreamBytes(a + b) == StreamBytes(a) + StreamBytes(b)
    ensures ExitCount(a + b) == ExitCount(a) + ExitCount(b)
  {
    if b == [] {
      assert a + b == a;
    } else {
      StreamBytesAppend(a, b[..|b| - 1]);
      InitOfAppend(a, b);
      var last := match b[|b| - 1] { case Chunk(data) => data case Exit(_) => [] };
      Associate(StreamBytes(a), StreamBytes(b[..|b| - 1]), last);
    }
  }

  lemma {:induction false} ChunksAreTheirBytes(parts: seq<seq<byte>>)
    ensures StreamBytes(Chunks(parts)) == Concat(parts)
    ensures ExitCount(Chunks(parts)) == 0
  {
    if parts == [] {
    } else {
      var init := parts[..|parts| - 1];
      var last := parts[|parts| - 1];
      ChunksAreTheirBytes(init);
      assert Chunks(parts) == Chunks(init) + [Chunk(last)];
      ConcatSnoc(init, last);
      assert init + [last] == parts;
      assert (Chunks(init) + [Chunk(last)])[..|init|] == Chunks(init);
      hide Chunks, Concat;
    }
  }
}
