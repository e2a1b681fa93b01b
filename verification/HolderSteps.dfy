/** The Holder's event handlers as functions of the state and of what the outside world answers
    (crates/persist-holder/src/server.rs, server_handlers.rs). */
module HolderSteps {
  import opened Bytes
  import opened ByteQueues
  import opened HolderFrames
  import opened Connections
  import opened Reactors
  import opened HolderRuntimes
  import opened HolderStates

  // ---- Requests, already decoded; `None` is a payload that does not decode -----------

  datatype ControlHelloRequest = ControlHelloRequest(uid: nat, pid: nat, nonce: nat)

  datatype DataHelloRequest = DataHelloRequest(pid: nat, instance: nat, nonce: nat)

  datatype CapabilityRequest = CapabilityRequest(instance: nat, nonce: nat, maxMinor: nat)

  datatype CreateRequest = CreateRequest(session: SessionId, ringCapacity: nat, logged: bool)

  /** How starting the shell went. */
  datatype Spawn = BadIdentity | SpawnFailed | Spawned(fd: Fd)

  datatype AttachRequest = AttachRequest(session: SessionId, readWrite: bool, replayBytes: nat)

  datatype Request =
    | ControlHello(hello: Option<ControlHelloRequest>, controllerGone: bool)
    | DataHello(dataHello: Option<DataHelloRequest>)
    | Capability(capability: Option<CapabilityRequest>)
    | Inventory(page: Option<(nat, nat)>)
    | Create(create: Option<CreateRequest>, spawn: Spawn)
    | CloseSession(target: Option<SessionId>)
    | Kill(target: Option<SessionId>, signalled: bool)
    | GetExitContext(target: Option<SessionId>)
    | RetireExited(target: Option<SessionId>, cleaned: bool)
    | ShutdownAll(empty: bool)
    | Attach(attach: Option<AttachRequest>)
    | Detach(empty: bool)
    | Input(data: seq<byte>, script: seq<WriteResult>)
    | Resize(valid: bool, applied: bool)
    | Signal(valid: bool, applied: bool)
    | Unknown

  datatype InFrame = InFrame(minor: nat, requestId: nat, request: Request)

  function Reply(s: Server, f: InFrame, m: Message): Frame
  {
    Frame(f.requestId, s.runtime.generation, m)
  }

  function Respond(s: Server, fd: Fd, f: InFrame, m: Message): (Server, bool)
  {
    if CanQueue(s, fd, Reply(s, f, m)) then (QueueFrame(s, fd, Reply(s, f, m)), true) else (s, false)
  }

  // ---- Handshake ------------------------------------------------------------------------

  function HandleControlHello(s: Server, fd: Fd, f: InFrame): (Server, bool)
    requires f.request.ControlHello? && fd in s.conns
  {
    if f.minor != BASELINE_MINOR then (s, false)
    else
      var s1 := if s.controller.Some? && s.controller.value.fd in s.conns && f.request.controllerGone
                then Disconnect(s, s.controller.value.fd) else s;
      if f.request.hello.None? then (s1, false)
      else
        var hello := f.request.hello.value;
        var peer := s.conns[fd];
        var status :=
          if hello.uid != peer.uid || hello.pid != peer.pid then PermissionDenied
          else if s1.controller.Some? then Busy
          else Accepted;
        var (s2, ok) := Respond(s1, fd, f, ControlHelloAck(hello.nonce, status));
        if !ok || fd !in s2.conns then (s2, false)
        else if status == Accepted then
          (SetConn(s2, fd, s2.conns[fd].(role := Control)).(
             controller := Some(Controller(fd, hello.pid, hello.nonce, BASELINE_MINOR))), true)
        else (SetConn(s2, fd, s2.conns[fd].(closing := true)), true)
  }

  predicate AcceptsData(s: Server, peer: Conn, minor: nat, hello: DataHelloRequest)
  {
    && s.controller.Some?
    && hello.pid == peer.pid
    && hello.pid == s.controller.value.pid
    && hello.instance == s.instance
    && hello.nonce == s.controller.value.nonce
    && minor == s.controller.value.minor
  }

  function HandleDataHello(s: Server, fd: Fd, f: InFrame): (Server, bool)
    requires f.request.DataHello? && fd in s.conns
  {
    if f.request.dataHello.None? then (s, false)
    else
      var hello := f.request.dataHello.value;
      var accepted := AcceptsData(s, s.conns[fd], f.minor, hello);
      var s1 := if accepted then SetConn(s, fd, s.conns[fd].(minor := f.minor)) else s;
      var (s2, ok) := Respond(s1, fd, f, DataHelloAck(hello.nonce, if accepted then Accepted else PermissionDenied));
      if !ok || fd !in s2.conns then (s2, false)
      else if accepted then (SetConn(s2, fd, s2.conns[fd].(role := Role.Data)), true)
      else (SetConn(s2, fd, s2.conns[fd].(closing := true)), true)
  }

  // ---- Control requests --------------------------------------------------------------------

  function HandleCapability(s: Server, fd: Fd, f: InFrame): (Server, bool)
    requires f.request.Capability? && fd in s.conns
  {
    if f.minor != CURRENT_MINOR || s.conns[fd].minor != BASELINE_MINOR then (s, false)
    else if f.request.capability.None? then (s, false)
    else
      var request := f.request.capability.value;
      if request.maxMinor != CURRENT_MINOR || !IsController(s, fd)
         || request.instance != s.instance || request.nonce != s.controller.value.nonce then (s, false)
      else
        var s1 := SetConn(s, fd, s.conns[fd].(minor := CURRENT_MINOR)).(
                    controller := Some(s.controller.value.(minor := CURRENT_MINOR)));
        Respond(s1, fd, f, CapabilityResp(request.nonce))
  }

  /** A descriptor still in use, or one registration too many, cannot happen. */
  predicate CanOpen(s: Server, fd: Fd)
  {
    fd !in s.reactor.tokens && s.reactor.adds + 1 < U64 - 1
  }

  function HandleCreate(s: Server, fd: Fd, f: InFrame): (Server, bool)
    requires f.request.Create?
  {
    if f.request.create.None? || f.request.create.value.ringCapacity == 0 then (s, false)
    else
      var request := f.request.create.value;
      var id := request.session;
      if id in s.runtime.sessions then Respond(s, fd, f, OperationResp(CreateResp, id, Conflict))
      else match f.request.spawn
        case BadIdentity => Respond(s, fd, f, OperationResp(CreateResp, id, Rejected))
        case SpawnFailed => (s, false)
        case Spawned(pty) =>
          if !CanOpen(s, pty) then (s, false)
          else
            Respond(StartSession(s, id, pty, request.ringCapacity, request.logged), fd, f,
                    OperationResp(CreateResp, id, OpOk))
  }

  function StartSession(s: Server, id: SessionId, pty: Fd, ringCapacity: nat, logged: bool): Server
  {
    s.(runtime := Created(s.runtime, id, pty, ringCapacity, logged),
       reactor := Register(s.reactor, pty, false),
       starts := s.starts[id := Life(Starts(s, id) + 1, |History(s, id)|)])
  }

  function ExitContextMessage(s: Server, id: SessionId, v2: bool): Message
  {
    if id !in s.runtime.sessions then
      ExitContextResp(id, NotFound, None, ExitContext(None, None), v2)
    else
      var session := s.runtime.sessions[id];
      if session.exitCode.None? then
        ExitContextResp(id, Conflict, None, ExitContext(None, if v2 then session.context.environment else None), v2)
      else
        ExitContextResp(id, OpOk, session.exitCode,
                        ExitContext(session.context.cwd, if v2 then session.context.environment else None), v2)
  }

  function HandleInventory(s: Server, fd: Fd, f: InFrame, page: Option<(nat, nat)>): (Server, bool)
  {
    if page.None? then (s, false)
    else Respond(s, fd, f, InventoryResp(page.value.0, page.value.1))
  }

  function HandleClose(s: Server, fd: Fd, f: InFrame, target: Option<SessionId>): (Server, bool)
  {
    if target.None? then (s, false)
    else
      var id := target.value;
      Respond(s.(runtime := Close(s.runtime, id)), fd, f,
              OperationResp(CloseResp, id, if id in s.runtime.sessions then OpOk else NotFound))
  }

  function HandleKill(s: Server, fd: Fd, f: InFrame, target: Option<SessionId>, signalled: bool): (Server, bool)
  {
    if target.None? then (s, false)
    else
      var id := target.value;
      var status :=
        if id !in s.runtime.sessions then NotFound
        else if s.runtime.sessions[id].pty.Some? && !signalled then Internal
        else OpOk;
      Respond(s, fd, f, OperationResp(KillResp, id, status))
  }

  function HandleGetExitContext(s: Server, fd: Fd, f: InFrame, target: Option<SessionId>): (Server, bool)
  {
    if target.None? then (s, false)
    else Respond(s, fd, f, ExitContextMessage(s, target.value, f.minor == CURRENT_MINOR))
  }

  function HandleRetireExited(s: Server, fd: Fd, f: InFrame, target: Option<SessionId>, cleaned: bool): (Server, bool)
  {
    if target.None? then (s, false)
    else
      var (r, status) := Retire(s.runtime, target.value, cleaned);
      Respond(s.(runtime := r), fd, f, OperationResp(RetireExitedResp, target.value, status))
  }

  function HandleShutdownAll(s: Server, fd: Fd, f: InFrame, empty: bool): (Server, bool)
  {
    if !empty then (s, false)
    else
      var (s1, ok) := Respond(s, fd, f, ShutdownAllResp);
      (if ok then s1.(shutdownFd := Some(fd)) else s1, ok)
  }

  function HandleControl(s: Server, fd: Fd, f: InFrame): (Server, bool)
    requires fd in s.conns
  {
    if f.request.Capability? then HandleCapability(s, fd, f)
    else if f.minor != s.conns[fd].minor then (s, false)
    else match f.request
      case Inventory(page) => HandleInventory(s, fd, f, page)
      case Create(_, _) => HandleCreate(s, fd, f)
      case CloseSession(target) => HandleClose(s, fd, f, target)
      case Kill(target, signalled) => HandleKill(s, fd, f, target, signalled)
      case GetExitContext(target) => HandleGetExitContext(s, fd, f, target)
      case RetireExited(target, cleaned) => HandleRetireExited(s, fd, f, target, cleaned)
      case ShutdownAll(empty) => HandleShutdownAll(s, fd, f, empty)
      case _ => (s, false)
  }

  // ---- Data requests ---------------------------------------------------------------------------

  /** The session this peer may write to. */
  function RequireWriter(s: Server, fd: Fd): Option<SessionId>
    requires fd in s.conns
  {
    var attached := s.conns[fd].attached;
    if attached.Some? && attached.value in s.writers && s.writers[attached.value] == fd
       && IsRunning(s.runtime, attached.value)
    then attached else None
  }

  ghost function HandleInput(s: Server, fd: Fd, data: seq<byte>, script: seq<WriteResult>): (Server, bool)
    requires fd in s.conns && RuntimeSound(s.runtime)
  {
    var writer := RequireWriter(s, fd);
    if writer.None? then (s, false)
    else
      var id := writer.value;
      var (r, res) := AfterQueueInput(s.runtime, id, data, script);
      var s1 := s.(runtime := r);
      if res.InputRefused? then (s1, false)
      else if id in r.sessions && r.sessions[id].pty.Some? then
        (s1.(reactor := Rearm(s.reactor, r.sessions[id].pty.value, res.pending)), true)
      else (s1, true)
  }

  /** The connection starts afresh on a session: a new log mark, the point in the session's
      history where it joins, and the replay it is owed. */
  function Joined(s: Server, c: Conn, request: AttachRequest): Conn
    requires request.session in s.runtime.sessions
  {
    c.(attached := Some(request.session),
       mark := |c.log|,
       from := |History(s, request.session)|,
       origin := Origin(Begin(s, request.session), s.runtime.sessions[request.session].ringCapacity,
         request.replayBytes),
       replay := Split(LastN(s.runtime.sessions[request.session].ring, request.replayBytes), MAX_IO_FRAME))
  }

  /** The new writer is recorded before the previous one is told. */
  function TakeOver(s: Server, fd: Fd, request: AttachRequest): Server
    requires fd in s.conns && request.session in s.runtime.sessions
  {
    var id := request.session;
    var s1 := SetConn(s, fd, Joined(s, s.conns[fd], request));
    if !request.readWrite then s1
    else
      var s2 := s1.(writers := s1.writers[id := fd]);
      if id in s.writers then QueueOrDisconnect(s2, s.writers[id], Event(s2, WriteRevoked(id))) else s2
  }

  function Welcome(s: Server, fd: Fd, f: InFrame, request: AttachRequest): seq<Frame>
    requires fd in s.conns
  {
    [Reply(s, f, OperationResp(AttachResp, request.session, OpOk))]
    + Events(s, Outputs(s.conns[fd].replay))
    + if request.readWrite then [Event(s, WriteGranted(request.session))] else []
  }

  function HandleAttach(s: Server, fd: Fd, f: InFrame): (Server, bool)
    requires f.request.Attach? && fd in s.conns
  {
    if f.request.attach.None? then (s, false)
    else
      var request := f.request.attach.value;
      if request.session !in s.runtime.sessions then
        Respond(s, fd, f, OperationResp(AttachResp, request.session, NotFound))
      else
        var s1 := TakeOver(DetachConnection(s, fd), fd, request);
        if fd in s1.conns then QueueAll(s1, fd, Welcome(s1, fd, f, request)) else (s1, false)
  }

  ghost function HandleData(s: Server, fd: Fd, f: InFrame): (Server, bool)
    requires fd in s.conns && RuntimeSound(s.runtime)
  {
    match f.request
    case Attach(_) => HandleAttach(s, fd, f)
    case Detach(empty) => if empty then (DetachConnection(s, fd), true) else (s, false)
    case Input(data, script) => HandleInput(s, fd, data, script)
    case Resize(valid, applied) => (s, RequireWriter(s, fd).Some? && valid && applied)
    case Signal(valid, applied) => (s, RequireWriter(s, fd).Some? && valid && applied)
    case _ => (s, false)
  }

  // ---- A connection's turn -----------------------------------------------------------------------

  ghost function ProcessFrame(s: Server, fd: Fd, f: InFrame): (Server, bool)
    requires fd in s.conns && RuntimeSound(s.runtime)
  {
    match s.conns[fd].role
    case Pending =>
      if f.request.ControlHello? then HandleControlHello(s, fd, f)
      else if f.request.DataHello? then HandleDataHello(s, fd, f)
      else (s, false)
    case Control => HandleControl(s, fd, f)
    case Data => if f.minor != s.conns[fd].minor then (s, false) else HandleData(s, fd, f)
  }

  datatype Inbound = NotReadable | ReadError | Received(frames: seq<InFrame>, peerClosed: bool)

  ghost function FlushConn(s: Server, fd: Fd, script: seq<WriteResult>): Option<Server>
    requires fd in s.conns && Sound(s.conns[fd].output)
  {
    var c := AfterFlush(s.conns[fd], script);
    match FlushResult(s.conns[fd], script)
    case Died => None
    case Finished => Some(Disconnect(SetConn(s, fd, c), fd))
    case Alive => Some(SetConn(s, fd, c).(reactor := Rearm(s.reactor, fd, c.output.chunks != [])))
  }

  // ---- Terminals ------------------------------------------------------------------------------------

  function DrainPty(s: Server, fd: Fd, feed: seq<ReadResult>): Option<Server>
  {
    if !(fd in s.runtime.ptys && s.runtime.ptys[fd] in s.runtime.sessions
         && s.runtime.sessions[s.runtime.ptys[fd]].pty.Some?) then Some(s)
    else
      var id := s.runtime.ptys[fd];
      var (r, d) := AfterDrain(s.runtime, fd, feed);
      if !d.ok then None
      else
        var s1 := Publish(s.(runtime := r), id, d.chunks);
        Some(if d.dropped > 0 then SendControl(s1, LogDegraded(id, d.dropped)) else s1)
  }

  ghost function FlushPty(s: Server, fd: Fd, script: seq<WriteResult>): Option<Server>
    requires RuntimeSound(s.runtime) && fd in s.runtime.ptys
  {
    var (r, res) := AfterFlushInput(s.runtime, s.runtime.ptys[fd], script);
    if res.InputRefused? then None
    else Some(s.(runtime := r, reactor := Rearm(s.reactor, fd, res.pending)))
  }

  // ---- Children --------------------------------------------------------------------------------------

  datatype TerminalRead = TerminalRead(fd: Fd, feed: seq<ReadResult>)

  function DrainAll(s: Server, turns: seq<TerminalRead>): Option<Server>
  {
    if turns == [] then Some(s)
    else
      var init := DrainAll(s, turns[..|turns| - 1]);
      if init.None? then None else DrainPty(init.value, turns[|turns| - 1].fd, turns[|turns| - 1].feed)
  }

  /** One exited session: unregister its terminal, revoke the writer, tell every attached
      client, detach them if the exit was asked for, then tell the controller. */
  function AnnounceExit(s: Server, e: ExitedSession): Server
  {
    var id := e.session;
    var s1 := ReleaseWriter(s.(reactor := Unregister(s.reactor, {e.pty})), id);
    var s2 := Emit(Broadcast(s1, Attached(s1, id), CastExit(id, e.code, e.context)), id, Exit(e.code));
    var s3 := if e.closing then DetachSession(s2, id) else s2;
    if s3.controller.Some?
    then SendControl(s3, SessionExited(id, e.code, e.context, s3.controller.value.minor == CURRENT_MINOR))
    else s3
  }

  function AnnounceAll(s: Server, es: seq<ExitedSession>): Server
  {
    if es == [] then s else AnnounceExit(AnnounceAll(s, es[..|es| - 1]), es[|es| - 1])
  }

  ghost function Reports(r: RuntimeState, reaps: seq<Reap>): (es: seq<ExitedSession>)
    requires RuntimeSound(r) && Reapable(r, reaps)
    ensures |es| == |reaps|
  {
    seq(|reaps|, i requires 0 <= i < |reaps| => Report(r, reaps[i]))
  }

  ghost function HandleChildren(s: Server, turns: seq<TerminalRead>, reaps: seq<Reap>): Option<Server>
  {
    var drained := DrainAll(s, turns);
    if drained.None? then None
    else
      var s1 := drained.value;
      if !RuntimeSound(s1.runtime) || !Reapable(s1.runtime, reaps) then Some(s1)
      else Some(AnnounceAll(s1.(runtime := ReapAll(s1.runtime, reaps)), Reports(s1.runtime, reaps)))
  }

  // ---- Log failures ------------------------------------------------------------------------------------

  datatype Failure = Failure(session: SessionId, dropped: nat)

  function HandleLogFailures(s: Server, failures: seq<Failure>): Server
  {
    if failures == [] then s
    else
      var s1 := HandleLogFailures(s, failures[..|failures| - 1]);
      var last := failures[|failures| - 1];
      SendControl(s1.(runtime := LogFailed(s1.runtime, last.session)), LogDegraded(last.session, last.dropped))
  }

  // ---- Events --------------------------------------------------------------------------------------------

  datatype HolderEvent =
    | Accept(fd: Fd, pid: nat, uid: nat)
    | Terminal(fd: Fd, readable: Option<seq<ReadResult>>, writable: Option<seq<WriteResult>>)
    | Peer(fd: Fd, hangup: bool, inbound: Inbound, writable: Option<seq<WriteResult>>)
    | Children(turns: seq<TerminalRead>, reaps: seq<Reap>)
    | LogTrouble(failures: seq<Failure>)

  function AcceptConn(s: Server, fd: Fd, pid: nat, uid: nat): Server
  {
    if CanOpen(s, fd)
    then s.(conns := s.conns[fd := FreshConn(pid, uid)], reactor := Register(s.reactor, fd, false))
    else s
  }
}
