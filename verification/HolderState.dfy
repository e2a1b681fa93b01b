/** The Holder server's state and the primitive moves every handler is made of
    (crates/persist-holder/src/server_handlers.rs). */
module HolderStates {
  import opened Bytes
  import opened ByteQueues
  import opened HolderFrames
  import opened Connections
  import opened Reactors
  import opened HolderRuntimes

  datatype Controller = Controller(fd: Fd, pid: nat, nonce: nat, minor: nat)

  /** `statics` are the listener, signal and log descriptors. `events` and `starts` are
      history, indexed by session id and never reset: everything the sessions under an id have
      emitted, and how many have been started. */
  datatype Server = Server(
    codec: Codec,
    instance: nat,
    statics: set<Fd>,
    reactor: Registry,
    runtime: RuntimeState,
    conns: map<Fd, Conn>,
    writers: map<SessionId, Fd>,
    controller: Option<Controller>,
    shutdownFd: Option<Fd>,
    events: map<SessionId, seq<StreamEvent>>,
    starts: map<SessionId, Life>)

  /** How many sessions have been started under an id, and how much of its history there was when
      the last of them began. */
  datatype Life = Life(count: nat, begin: nat)

  function History(s: Server, id: SessionId): seq<StreamEvent>
  {
    if id in s.events then s.events[id] else []
  }

  function Starts(s: Server, id: SessionId): nat
  {
    if id in s.starts then s.starts[id].count else 0
  }

  function Begin(s: Server, id: SessionId): nat
  {
    if id in s.starts then s.starts[id].begin else 0
  }

  function Emit(s: Server, id: SessionId, e: StreamEvent): Server
  {
    s.(events := s.events[id := History(s, id) + [e]])
  }

  predicate IsController(s: Server, fd: Fd)
  {
    s.controller.Some? && s.controller.value.fd == fd
  }

  function Event(s: Server, m: Message): Frame
  {
    Frame(0, s.runtime.generation, m)
  }

  // ---- One connection ----------------------------------------------------------

  predicate CanQueue(s: Server, fd: Fd, f: Frame)
  {
    fd in s.conns && Fits(s.codec, s.conns[fd], f)
  }

  function SetConn(s: Server, fd: Fd, c: Conn): Server
  {
    s.(conns := s.conns[fd := c])
  }

  /** Queueing arms the descriptor for writing. */
  function QueueFrame(s: Server, fd: Fd, f: Frame): Server
    requires CanQueue(s, fd, f)
  {
    SetConn(s, fd, Enqueue(s.codec, s.conns[fd], f)).(reactor := Rearm(s.reactor, fd, true))
  }

  function WithoutWriters(s: Server, gone: set<Fd>): map<SessionId, Fd>
  {
    map id | id in s.writers && !(s.writers[id] in gone && s.writers[id] in s.conns
                                  && s.conns[s.writers[id]].attached == Some(id)) :: s.writers[id]
  }

  function DetachConnection(s: Server, fd: Fd): Server
  {
    if fd in s.conns
    then s.(writers := WithoutWriters(s, {fd}), conns := s.conns[fd := s.conns[fd].(attached := None)])
    else s
  }

  function DataFds(s: Server): set<Fd>
  {
    set fd | fd in s.conns && s.conns[fd].role.Data?
  }

  /** Losing the controller takes every data connection with it. */
  function Casualties(s: Server, fd: Fd): set<Fd>
  {
    {fd} + if IsController(s, fd) then DataFds(s) else {}
  }

  function RemoveAll(s: Server, gone: set<Fd>): Server
  {
    s.(reactor := Unregister(s.reactor, gone),
       writers := WithoutWriters(s, gone),
       conns := s.conns - gone,
       controller := if s.controller.Some? && s.controller.value.fd in gone then None else s.controller)
  }

  function Disconnect(s: Server, fd: Fd): Server
  {
    RemoveAll(s, Casualties(s, fd))
  }

  function QueueOrDisconnect(s: Server, fd: Fd, f: Frame): Server
  {
    if CanQueue(s, fd, f) then QueueFrame(s, fd, f) else Disconnect(s, fd)
  }

  function SendControl(s: Server, m: Message): Server
  {
    if s.controller.Some? then QueueOrDisconnect(s, s.controller.value.fd, Event(s, m)) else s
  }

  // ---- Fan-out -------------------------------------------------------------------

  datatype Cast = CastOutput(data: seq<byte>) | CastExit(session: SessionId, code: int, context: ExitContext)

  function CastMessage(cast: Cast, minor: nat): Message
  {
    match cast
    case CastOutput(data) => Output(data)
    case CastExit(id, code, context) => SessionExited(id, code, context, minor == CURRENT_MINOR)
  }

  function Attached(s: Server, id: SessionId): set<Fd>
  {
    set fd | fd in s.conns && s.conns[fd].attached == Some(id)
  }

  function CastFrame(s: Server, fd: Fd, cast: Cast): Frame
    requires fd in s.conns
  {
    Event(s, CastMessage(cast, s.conns[fd].minor))
  }

  function Overflowing(s: Server, targets: set<Fd>, cast: Cast): set<Fd>
  {
    set fd | fd in targets && fd in s.conns && !Fits(s.codec, s.conns[fd], CastFrame(s, fd, cast))
  }

  /** All targets at once: whoever has room gets the frame, whoever has not is dropped. */
  function Broadcast(s: Server, targets: set<Fd>, cast: Cast): Server
  {
    var gone := Overflowing(s, targets, cast);
    RemoveAll(s, gone).(
      conns := map fd | fd in s.conns && fd !in gone ::
                 if fd in targets then Enqueue(s.codec, s.conns[fd], CastFrame(s, fd, cast)) else s.conns[fd],
      reactor := Unregister(s.reactor, gone).(
        writable := map fd | fd in s.reactor.writable && fd !in gone ::
                      (fd in targets && fd in s.conns) || s.reactor.writable[fd]))
  }

  function Publish(s: Server, id: SessionId, chunks: seq<seq<byte>>): Server
  {
    if chunks == [] then s
    else
      var init := Publish(s, id, chunks[..|chunks| - 1]);
      var chunk := chunks[|chunks| - 1];
      Emit(Broadcast(init, Attached(init, id), CastOutput(chunk)), id, Chunk(chunk))
  }

  // ---- Writer hand-over -------------------------------------------------------------

  /** The recorded writer loses the session and is told so. */
  function ReleaseWriter(s: Server, id: SessionId): Server
  {
    if id in s.writers
    then QueueOrDisconnect(s.(writers := s.writers - {id}), s.writers[id], Event(s, WriteRevoked(id)))
    else s
  }

  function DetachSession(s: Server, id: SessionId): Server
  {
    s.(writers := s.writers - {id},
       conns := map fd | fd in s.conns ::
                  if s.conns[fd].attached == Some(id) then s.conns[fd].(attached := None) else s.conns[fd])
  }

  // ---- Several frames to one connection -----------------------------------------------

  function Events(s: Server, ms: seq<Message>): seq<Frame>
  {
    seq(|ms|, i requires 0 <= i < |ms| => Event(s, ms[i]))
  }

  /** Queues until one does not fit. */
  function QueueAll(s: Server, fd: Fd, frames: seq<Frame>): (Server, bool)
  {
    if frames == [] then (s, true)
    else
      var (s1, ok) := QueueAll(s, fd, frames[..|frames| - 1]);
      var f := frames[|frames| - 1];
      if ok && CanQueue(s1, fd, f) then (QueueFrame(s1, fd, f), true) else (s1, false)
  }

  /** Replay is cut into frames of at most `size` bytes. */
  function Split(data: seq<byte>, size: nat): (parts: seq<seq<byte>>)
    requires size > 0
    ensures Concat(parts) == data
    ensures forall i :: 0 <= i < |parts| ==> 0 < |parts[i]| <= size
    ensures forall i :: 0 <= i < |parts| - 1 ==> |parts[i]| == size
  {
    if data == [] then []
    else if |data| <= size then
      assert Concat([data]) == data + Concat([]);
      [data]
    else [data[..size]] + Split(data[size..], size)
  }

  function Outputs(parts: seq<seq<byte>>): (ms: seq<Message>)
    ensures |ms| == |parts|
  {
    seq(|parts|, i requires 0 <= i < |parts| => Output(parts[i]))
  }
}
