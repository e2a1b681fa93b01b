/** What every request of a data client comes to (crates/persist-holder/src/server_handlers.rs,
    runtime.rs). */
module HolderClients {
  import opened Bytes
  import opened ByteQueues
  import opened HolderFrames
  import opened Connections
  import opened Reactors
  import opened HolderRuntimes
  import opened HolderStates
  import opened HolderInvariants
  import opened HolderSteps
  import opened HolderKeeps
  import opened HolderData
  import opened HolderRuns
  import opened HolderTheorems
  import opened HolderOutcomes

  /** A data client, in a state in which it can be served, has sent a request under its own minor. */
  ghost predicate Requests(s: Server, fd: Fd, f: InFrame)
  {
    Serves(s, fd) && s.conns[fd].role == Role.Data && f.minor == s.conns[fd].minor
  }

  // ---- Detaching ------------------------------------------------------------------------------------

  /** The client is attached to nothing any more, and writes to nothing. */
  ghost predicate Detached(s: Server, s': Server, fd: Fd)
  {
    && OnlyConn(s, s', fd) && s'.conns[fd] == s.conns[fd].(attached := None)
    && (forall id :: id in s'.writers <==> id in s.writers && s.writers[id] != fd)
    && (forall id :: id in s'.writers ==> s'.writers[id] == s.writers[id])
    && s' == s.(conns := s'.conns, writers := s'.writers)
  }

  lemma DetachEffects(s: Server, fd: Fd)
    requires Ownership(s) && fd in s.conns
    ensures Detached(s, DetachConnection(s, fd), fd)
  {
    WithoutWritersByFd(s, {fd});
    hide WithoutWriters, Ownership;
  }

  lemma DetachSucceeds(s: Server, fd: Fd, f: InFrame)
    requires Requests(s, fd, f) && f.request == Detach(true)
    ensures ProcessFrame(s, fd, f).1 && Detached(s, ProcessFrame(s, fd, f).0, fd)
  {
    DetachEffects(s, fd);
    hide DetachConnection, Ownership, RuntimeSound, ConnSound, Detached;
  }

  // ---- Attaching ------------------------------------------------------------------------------------

  function Pieces(s: Server, request: AttachRequest): seq<seq<byte>>
    requires request.session in s.runtime.sessions
  {
    Split(LastN(s.runtime.sessions[request.session].ring, request.replayBytes), 65536)
  }

  /** What a client is owed when it attaches: the answer, the replay, and the right to write. */
  function Owing(s: Server, f: InFrame, request: AttachRequest): seq<Frame>
    requires request.session in s.runtime.sessions
  {
    var g := s.runtime.generation;
    var pieces := Pieces(s, request);
    [Frame(f.requestId, g, OperationResp(AttachResp, request.session, OpOk))]
    + seq(|pieces|, i requires 0 <= i < |pieces| => Frame(0, g, Output(pieces[i])))
    + if request.readWrite then [Frame(0, g, WriteGranted(request.session))] else []
  }

  /** The writer that will have to make way. */
  function Predecessor(s: Server, fd: Fd, request: AttachRequest): Option<Fd>
  {
    if request.readWrite && request.session in s.writers && s.writers[request.session] != fd
    then Some(s.writers[request.session]) else None
  }

  /** Everybody else: the previous writer has been told, or had no room for it and is gone; nobody else
      notices. */
  ghost predicate OthersNotice(s: Server, s': Server, fd: Fd, request: AttachRequest)
  {
    var previous := Predecessor(s, fd, request);
    var word := Frame(0, s.runtime.generation, WriteRevoked(request.session));
    && (previous.Some? ==>
          var p := previous.value;
          && p in s.conns && Sound(s.conns[p].output)
          && (p in s'.conns <==> HasRoom(s.codec, s.conns[p], [word]))
          && (p in s'.conns ==> Served(s.conns[p], s'.conns[p], [word])))
    && (forall g :: g != fd && Some(g) != previous ==>
          (g in s'.conns <==> g in s.conns) && (g in s.conns ==> s'.conns[g] == s.conns[g]))
  }

  /** The writers: this client of the session it asked for, if it asked to write, and nobody of what it
      wrote to before. */
  ghost predicate WritersAfter(s: Server, s': Server, fd: Fd, request: AttachRequest)
  {
    forall id ::
      && (id in s'.writers <==>
            || (id == request.session && request.readWrite)
            || (id in s.writers && s.writers[id] != fd))
      && (id in s'.writers ==>
            s'.writers[id] == if id == request.session && request.readWrite then fd else s.writers[id])
  }

  /** An attach to a session that is held succeeds exactly if answer, replay and grant can be encoded
      and fit, all together, what the connection has pending. Then the client has been queued just
      these, is attached, and is the writer if it asked to be. */
  ghost predicate AttachOutcome(s: Server, res: (Server, bool), fd: Fd, f: InFrame, request: AttachRequest)
    requires Serves(s, fd) && request.session in s.runtime.sessions
  {
    var c := s.conns[fd];
    && fd in res.0.conns
    && (res.1 <==> HasRoom(s.codec, c, Owing(s, f, request)))
    && (res.1 ==>
          && res.0.conns[fd].attached == Some(request.session)
          && res.0.conns[fd].log == c.log + Stamped(Owing(s, f, request), c.minor)
          && res.0.conns[fd].sent == c.sent && res.0.conns[fd].mark == |c.log|
          && res.0.conns[fd].role == c.role && res.0.conns[fd].closing == c.closing)
    && OthersNotice(s, res.0, fd, request) && WritersAfter(s, res.0, fd, request)
    && res.0.runtime == s.runtime && res.0.controller == s.controller
    && res.0.events == s.events && res.0.starts == s.starts
  }

  lemma AttachIsAnswered(s: Server, fd: Fd, f: InFrame, request: AttachRequest)
    requires Good(s, {}) && Requests(s, fd, f) && f.request == Attach(Some(request))
    ensures var res := ProcessFrame(s, fd, f);
            if request.session in s.runtime.sessions then AttachOutcome(s, res, fd, f, request)
            else Replied(s, res, fd, f, OperationResp(AttachResp, request.session, NotFound)) && SameTables(s, res.0)
  {
    hide Good, ConnSound, RuntimeSound, Ownership, AttachOutcome, HandleAttach, Replied, SameTables;
    assert ProcessFrame(s, fd, f) == HandleAttach(s, fd, f);
    hide ProcessFrame;
    if request.session in s.runtime.sessions {
      AttachSucceeds(s, fd, f, request);
    } else {
      RespondReplies(s, fd, f, OperationResp(AttachResp, request.session, NotFound));
      UnknownIsNotFound(s, fd, f, request);
    }
  }

  lemma UnknownIsNotFound(s: Server, fd: Fd, f: InFrame, request: AttachRequest)
    requires fd in s.conns && f.request == Attach(Some(request)) && request.session !in s.runtime.sessions
    ensures HandleAttach(s, fd, f) == Respond(s, fd, f, OperationResp(AttachResp, request.session, NotFound))
  {
    hide Respond;
  }

  lemma AttachSucceeds(s: Server, fd: Fd, f: InFrame, request: AttachRequest)
    requires Good(s, {}) && Requests(s, fd, f) && f.request == Attach(Some(request))
    requires request.session in s.runtime.sessions
    ensures AttachOutcome(s, HandleAttach(s, fd, f), fd, f, request)
  {
    hide Good, ConnSound, RuntimeSound, Ownership, DetachConnection, Detached, TakeOver, QueueAll, Joined, Owing,
      Welcome, OthersNotice, WritersAfter, HasRoom, Stamped, TookOver;
    var s0 := DetachConnection(s, fd);
    DetachEffects(s, fd);
    DetachKeepsRest(s, s0, fd);
    TakeOverOutcome(s, s0, fd, request);
    var s1 := TakeOver(s0, fd, request);
    TookOverRest(s, s1, fd, request);
    WelcomeIsOwing(s, s1, fd, f, request);
    QueueAllOutcome(s1, fd, Welcome(s1, fd, f, request));
    var res := QueueAll(s1, fd, Welcome(s1, fd, f, request));
    SameRoom(s.codec, s.conns[fd], s1.conns[fd], Owing(s, f, request));
    OthersStay(s, s1, res.0, fd, request);
  }

  lemma DetachKeepsRest(s: Server, s0: Server, fd: Fd)
    requires fd in s.conns && Detached(s, s0, fd)
    ensures fd in s0.conns && s0.runtime == s.runtime && s0.codec == s.codec
  {
  }

  /** After the take-over the client is joined, the previous writer knows or is gone. */
  ghost predicate TookOver(s: Server, s1: Server, fd: Fd, request: AttachRequest)
    requires fd in s.conns && request.session in s.runtime.sessions
  {
    && fd in s1.conns && ConnSound(s.codec, s1.conns[fd])
    && s1.conns[fd].attached == Some(request.session)
    && s1.conns[fd].replay == Pieces(s, request)
    && s1.conns[fd] == s.conns[fd].(attached := Some(request.session), mark := |s.conns[fd].log|,
                                    from := s1.conns[fd].from, origin := s1.conns[fd].origin,
                                    replay := s1.conns[fd].replay)
    && OthersNotice(s, s1, fd, request) && WritersAfter(s, s1, fd, request)
    && s1.runtime == s.runtime && s1.controller == s.controller && s1.codec == s.codec
    && s1.events == s.events && s1.starts == s.starts
  }

  lemma TakeOverOutcome(s: Server, s0: Server, fd: Fd, request: AttachRequest)
    requires Good(s, {}) && Serves(s, fd) && s.conns[fd].role == Role.Data && request.session in s.runtime.sessions
    requires Detached(s, s0, fd)
    ensures TookOver(s, TakeOver(s0, fd, request), fd, request)
  {
    hide Good, RuntimeSound, ConnSound, Ownership, TookOver, Joined, Detached;
    var id := request.session;
    JoinedSound(s, s0, fd, request);
    if !request.readWrite || id !in s0.writers {
      NobodyMakesWay(s, s0, fd, request);
    } else {
      var p := s0.writers[id];
      WriterIsAnother(s, s0, fd, id);
      GoodOutput(s, p);
      MakesWay(s, s0, fd, request, p);
    }
  }

  /** The writer of a session, once this client has given up what it wrote to. */
  lemma WriterIsAnother(s: Server, s0: Server, fd: Fd, id: SessionId)
    requires Ownership(s) && fd in s.conns && Detached(s, s0, fd) && id in s0.writers
    ensures var p := s0.writers[id];
            && id in s.writers && s.writers[id] == p
            && p != fd && p in s.conns && s.conns[p].attached == Some(id) && !IsController(s, p)
  {
  }

  lemma NobodyMakesWay(s: Server, s0: Server, fd: Fd, request: AttachRequest)
    requires fd in s.conns && request.session in s.runtime.sessions && Detached(s, s0, fd)
    requires !request.readWrite || request.session !in s0.writers
    requires var d := Joined(s0, s0.conns[fd], request);
             && ConnSound(s.codec, d) && d.replay == Pieces(s, request)
             && d == s.conns[fd].(attached := Some(request.session), mark := |s.conns[fd].log|, from := d.from,
                                  origin := d.origin, replay := d.replay)
    ensures TookOver(s, TakeOver(s0, fd, request), fd, request)
  {
    hide Joined, ConnSound, HasRoom, Served, Pieces;
  }

  lemma MakesWay(s: Server, s0: Server, fd: Fd, request: AttachRequest, p: Fd)
    requires fd in s.conns && request.session in s.runtime.sessions && Detached(s, s0, fd)
    requires request.readWrite && request.session in s0.writers && s0.writers[request.session] == p
    requires p != fd && p in s.conns && ConnSound(s.codec, s.conns[p]) && !IsController(s, p)
    requires s.conns[p].attached == Some(request.session)
    requires var d := Joined(s0, s0.conns[fd], request);
             && ConnSound(s.codec, d) && d.replay == Pieces(s, request)
             && d == s.conns[fd].(attached := Some(request.session), mark := |s.conns[fd].log|, from := d.from,
                                  origin := d.origin, replay := d.replay)
    ensures TookOver(s, TakeOver(s0, fd, request), fd, request)
  {
    hide Joined, ConnSound, HasRoom, Served, Pieces, QueueOrDisconnect;
    var id := request.session;
    var s1 := SetConn(s0, fd, Joined(s0, s0.conns[fd], request));
    var s2 := s1.(writers := s1.writers[id := fd]);
    var word := Event(s2, WriteRevoked(id));
    SoundOutput(s.codec, s.conns[p]);
    TellOrDrop(s2, p, word);
    var s3 := QueueOrDisconnect(s2, p, word);
    assert TakeOver(s0, fd, request) == s3;
    hide TakeOver;
    assert Predecessor(s, fd, request) == Some(p);
    assert OthersNotice(s, s3, fd, request);
    assert WritersAfter(s, s3, fd, request);
  }

  lemma JoinedSound(s: Server, s0: Server, fd: Fd, request: AttachRequest)
    requires fd in s.conns && ConnSound(s.codec, s.conns[fd]) && request.session in s.runtime.sessions
    requires Detached(s, s0, fd)
    ensures var d := Joined(s0, s0.conns[fd], request);
            && ConnSound(s.codec, d) && d.replay == Pieces(s, request)
            && d == s.conns[fd].(attached := Some(request.session), mark := |s.conns[fd].log|, from := d.from,
                                 origin := d.origin, replay := d.replay)
  {
    hide Split, LastN;
  }

  lemma TookOverRest(s: Server, s1: Server, fd: Fd, request: AttachRequest)
    requires fd in s.conns && request.session in s.runtime.sessions && TookOver(s, s1, fd, request)
    ensures && fd in s1.conns && ConnSound(s1.codec, s1.conns[fd]) && s1.runtime == s.runtime && s1.codec == s.codec
            && s1.conns[fd].replay == Pieces(s, request) && s1.conns[fd].minor == s.conns[fd].minor
            && s1.conns[fd].output == s.conns[fd].output && s1.conns[fd].log == s.conns[fd].log
            && s1.conns[fd].attached == Some(request.session) && s1.conns[fd].mark == |s.conns[fd].log|
            && s1.conns[fd].sent == s.conns[fd].sent && s1.conns[fd].role == s.conns[fd].role
            && s1.conns[fd].closing == s.conns[fd].closing
  {
    hide ConnSound, OthersNotice, WritersAfter;
  }

  lemma WelcomeIsOwing(s: Server, s1: Server, fd: Fd, f: InFrame, request: AttachRequest)
    requires request.session in s.runtime.sessions && fd in s1.conns && s1.runtime == s.runtime
    requires s1.conns[fd].replay == Pieces(s, request)
    ensures Welcome(s1, fd, f, request) == Owing(s, f, request)
  {
    var pieces := Pieces(s, request);
    assert Events(s1, Outputs(pieces))
        == seq(|pieces|, i requires 0 <= i < |pieces| => Frame(0, s.runtime.generation, Output(pieces[i])));
    hide Pieces;
  }

  lemma SameRoom(codec: Codec, c: Conn, d: Conn, frames: seq<Frame>)
    requires Sound(c.output) && d.output == c.output && d.minor == c.minor
    ensures HasRoom(codec, d, frames) == HasRoom(codec, c, frames)
  {
  }

  lemma OthersStay(s: Server, s1: Server, s2: Server, fd: Fd, request: AttachRequest)
    requires fd in s.conns && request.session in s.runtime.sessions && TookOver(s, s1, fd, request)
    requires OnlyConn(s1, s2, fd) && SameTables(s1, s2)
    ensures OthersNotice(s, s2, fd, request) && WritersAfter(s, s2, fd, request)
    ensures s2.runtime == s.runtime && s2.controller == s.controller && s2.events == s.events && s2.starts == s.starts
  {
    hide HasRoom, Served, ConnSound, Sound;
  }

  // ---- Writing ---------------------------------------------------------------------------------------

  /** This client may write to this session: it is attached to it, recorded as its writer, and the
      session runs. */
  predicate MayWrite(s: Server, fd: Fd, id: SessionId)
  {
    && fd in s.conns && s.conns[fd].attached == Some(id) && id in s.writers && s.writers[id] == fd
    && id in s.runtime.sessions && s.runtime.sessions[id].exitCode == None
  }

  /** There is something to write, and room for it: with what the terminal has not taken yet it makes at
      most 1 MiB. */
  predicate Acceptable(session: Session, data: seq<byte>)
  {
    data != [] && |session.accepted| - |session.delivered| + |data| <= 1048576
  }

  /** What a terminal has made of these bytes: it has taken what the kernel says it took. */
  ghost predicate Fed(was: Session, now: Session, bytes: seq<byte>, script: seq<WriteResult>)
  {
    && Sound(was.input)
    && var q := Push(was.input, bytes);
       && Sound(q)
       && var all := ByteQueues.Pending(q);
          var taken := TakenBefore(q, script, |script|);
          && taken <= |all| && all == ByteQueues.Pending(was.input) + bytes
          && now.accepted == was.accepted + bytes && now.delivered == was.delivered + all[..taken]
          && Sound(now.input) && ByteQueues.Pending(now.input) == all[taken..]
          && now == was.(input := now.input, accepted := now.accepted, delivered := now.delivered, stuck := now.stuck)
          && (now.stuck <==> was.stuck || BreaksOff(q, script))
  }

  ghost predicate InputOutcome(s: Server, res: (Server, bool), id: SessionId, data: seq<byte>, script: seq<WriteResult>)
    requires RuntimeSound(s.runtime) && id in s.runtime.sessions && s.runtime.sessions[id].exitCode == None
  {
    var was := s.runtime.sessions[id];
    && was.pty.Some? && Sound(was.input) && Sound(Push(was.input, data))
    && res.0 == s.(runtime := res.0.runtime, reactor := res.0.reactor)
    && OnlySession(s.runtime, res.0.runtime, id) && res.0.runtime.generation == s.runtime.generation
    && id in res.0.runtime.sessions
    && Fed(was, res.0.runtime.sessions[id], data, script)
    && (res.1 <==> !BreaksOff(Push(was.input, data), script))
    && (res.1 ==>
          && was.pty.value in res.0.reactor.writable
          && (res.0.reactor.writable[was.pty.value] <==>
                ByteQueues.Pending(res.0.runtime.sessions[id].input) != []))
  }

  /** Input is heard exactly if its sender may write to a session and it is acceptable there; then the
      terminal is offered everything pending, and the request is refused only if a write fails outright
      while something is left. Otherwise it is refused and does nothing. */
  lemma InputIsAnswered(s: Server, fd: Fd, f: InFrame, data: seq<byte>, script: seq<WriteResult>)
    requires Requests(s, fd, f) && f.request == Input(data, script)
    ensures var res := ProcessFrame(s, fd, f);
            && (forall id :: MayWrite(s, fd, id) && Acceptable(s.runtime.sessions[id], data) ==>
                  InputOutcome(s, res, id, data, script))
            && ((forall id :: MayWrite(s, fd, id) ==> !Acceptable(s.runtime.sessions[id], data)) ==> Refused(s, res))
  {
    hide ConnSound, Ownership, InputOutcome, HandleInput, RuntimeSound, Acceptable;
    assert ProcessFrame(s, fd, f) == HandleInput(s, fd, data, script);
    hide ProcessFrame;
    var attached := s.conns[fd].attached;
    if attached.Some? && MayWrite(s, fd, attached.value) {
      var id := attached.value;
      AcceptableMeans(s.runtime, id, data);
      if Acceptable(s.runtime.sessions[id], data) {
        InputIsHeard(s, fd, id, data, script);
      } else {
        NotHeard(s, fd, data, script);
      }
    } else {
      NotHeard(s, fd, data, script);
    }
  }

  lemma AcceptableMeans(r: RuntimeState, id: SessionId, data: seq<byte>)
    requires RuntimeSound(r) && id in r.sessions && r.sessions[id].exitCode == None
    ensures Acceptable(r.sessions[id], data) <==> AcceptsInput(r, id, data)
  {
    assert SessionSound(r.sessions[id]);
    hide RuntimeSound, Full;
  }

  lemma NotHeard(s: Server, fd: Fd, data: seq<byte>, script: seq<WriteResult>)
    requires fd in s.conns && RuntimeSound(s.runtime)
    requires forall id :: MayWrite(s, fd, id) ==> !AcceptsInput(s.runtime, id, data)
    ensures Refused(s, HandleInput(s, fd, data, script))
  {
    hide RuntimeSound, AcceptsInput, AfterFlushInput;
    assert forall id: SessionId :: RequireWriter(s, fd) == Some(id) ==> MayWrite(s, fd, id);
  }

  lemma InputIsHeard(s: Server, fd: Fd, id: SessionId, data: seq<byte>, script: seq<WriteResult>)
    requires RuntimeSound(s.runtime) && MayWrite(s, fd, id) && AcceptsInput(s.runtime, id, data)
    ensures InputOutcome(s, HandleInput(s, fd, data, script), id, data, script)
  {
    hide AcceptsInput, SessionSound, FlushSession, AfterQueueInput, Fed, Push, HandleInput, RuntimeSound, WithInput,
      Sound;
    var was := s.runtime.sessions[id];
    var fed := WithInput(was, data);
    InputBegins(s.runtime, id, data);
    FlushFeeds(fed, script);
    QueuedInput(s.runtime, id, data, script);
    var (now, result) := FlushSession(fed, script);
    FedFrom(was, data, now, script);
    WithInputShape(was, data);
    hide TakenBefore, CutOff, ByteQueues.Pending;
    HeardIs(s, fd, id, data, script, now, result);
  }

  lemma WithInputShape(session: Session, data: seq<byte>)
    ensures var fed := WithInput(session, data);
            fed == session.(input := Push(session.input, data), accepted := session.accepted + data)
  {
  }

  lemma InputBegins(r: RuntimeState, id: SessionId, data: seq<byte>)
    requires RuntimeSound(r) && AcceptsInput(r, id, data)
    ensures id in r.sessions && r.sessions[id].pty.Some? && Sound(r.sessions[id].input)
    ensures var fed := WithInput(r.sessions[id], data);
            SessionSound(fed) && fed.pty.Some? && Sound(fed.input) && Sound(Push(r.sessions[id].input, data))
  {
    assert SessionSound(r.sessions[id]);
    hide RuntimeSound;
    WithInputKeeps(r.sessions[id], data);
    PushAppends(r.sessions[id].input, data);
    hide Sound, Full;
  }

  lemma HeardIs(s: Server, fd: Fd, id: SessionId, data: seq<byte>, script: seq<WriteResult>, now: Session,
      result: InputResult)
    requires RuntimeSound(s.runtime) && MayWrite(s, fd, id) && s.runtime.sessions[id].pty.Some?
    requires now.pty == s.runtime.sessions[id].pty
    requires id in s.runtime.sessions ==> Sound(s.runtime.sessions[id].input)
    requires AfterQueueInput(s.runtime, id, data, script) == (s.runtime.(sessions := s.runtime.sessions[id := now]),
             result)
    ensures var r := s.runtime.(sessions := s.runtime.sessions[id := now]);
            HandleInput(s, fd, data, script)
            == if result.InputRefused? then (s.(runtime := r), false)
               else (s.(runtime := r, reactor := Rearm(s.reactor, now.pty.value, result.pending)), true)
  {
    assert RequireWriter(s, fd) == Some(id);
    hide RuntimeSound, AfterQueueInput, Sound;
  }

  lemma SoundInput(session: Session)
    requires SessionSound(session)
    ensures Sound(session.input) && Full(session.input)
  {
  }

  /** Flushing feeds the terminal what the kernel says it took. */
  lemma FlushFeeds(session: Session, script: seq<WriteResult>)
    requires SessionSound(session) && session.pty.Some?
    ensures Sound(session.input)
    ensures var q := session.input;
            var (now, result) := FlushSession(session, script);
            var all := ByteQueues.Pending(q);
            var taken := TakenBefore(q, script, |script|);
            && taken <= |all| && now.delivered == session.delivered + all[..taken]
            && Sound(now.input) && ByteQueues.Pending(now.input) == all[taken..]
            && now == session.(input := now.input, delivered := now.delivered, stuck := now.stuck)
            && (now.stuck <==> session.stuck || BreaksOff(q, script))
            && (result.InputRefused? <==> BreaksOff(q, script))
            && (!result.InputRefused? ==> (result.pending <==> ByteQueues.Pending(now.input) != []))
  {
    TakenAndLeft(session.input, script);
    FlushBreaks(session.input, script);
    EmptiedIsAllTaken(session.input, script);
    hide Drain, CutOff, Full, TakenBefore, ByteQueues.Pending;
  }

  lemma QueuedInput(r: RuntimeState, id: SessionId, data: seq<byte>, script: seq<WriteResult>)
    requires AcceptsInput(r, id, data) && id in r.sessions && Sound(r.sessions[id].input)
    requires Sound(WithInput(r.sessions[id], data).input)
    ensures var (now, result) := FlushSession(WithInput(r.sessions[id], data), script);
            AfterQueueInput(r, id, data, script) == (r.(sessions := r.sessions[id := now]), result)
  {
    hide FlushSession;
    PushAppends(r.sessions[id].input, data);
    assert r.sessions[id := WithInput(r.sessions[id], data)][id := FlushSession(WithInput(r.sessions[id], data),
        script).0]
        == r.sessions[id := FlushSession(WithInput(r.sessions[id], data), script).0];
  }

  lemma FedFrom(was: Session, data: seq<byte>, now: Session, script: seq<WriteResult>)
    requires Sound(was.input) && Sound(Push(was.input, data))
    requires var fed := WithInput(was, data);
             var q := fed.input;
             var all := ByteQueues.Pending(q);
             var taken := TakenBefore(q, script, |script|);
             && taken <= |all| && now.delivered == fed.delivered + all[..taken]
             && Sound(now.input) && ByteQueues.Pending(now.input) == all[taken..]
             && now == fed.(input := now.input, delivered := now.delivered, stuck := now.stuck)
             && (now.stuck <==> fed.stuck || BreaksOff(q, script))
    ensures Fed(was, now, data, script)
  {
    PushAppends(was.input, data);
    hide Sound, Push, TakenBefore, CutOff, ByteQueues.Pending;
  }

  /** When the kernel says a terminal can be written to: the Holder stops exactly if a write fails
      outright while something is pending; otherwise the terminal has been given what the kernel says it
      took, and is armed exactly while something is left. */
  lemma TerminalIsFlushed(s: Server, fd: Fd, script: seq<WriteResult>)
    requires Good(s, {}) && RuntimeSound(s.runtime) && fd in s.runtime.ptys
    ensures s.runtime.ptys[fd] in s.runtime.sessions && Sound(s.runtime.sessions[s.runtime.ptys[fd]].input)
    ensures var id := s.runtime.ptys[fd];
            var was := s.runtime.sessions[id];
            var all := ByteQueues.Pending(was.input);
            var taken := TakenBefore(was.input, script, |script|);
            var after := Step(s, Terminal(fd, None, Some(script)));
            && taken <= |all|
            && (after.None? <==> BreaksOff(was.input, script))
            && (after.Some? ==>
                  var s' := after.value;
                  && s' == s.(runtime := s'.runtime, reactor := s'.reactor) && OnlySession(s.runtime, s'.runtime, id)
                  && id in s'.runtime.sessions
                  && var now := s'.runtime.sessions[id];
                     && now == was.(input := now.input, delivered := was.delivered + all[..taken])
                     && Sound(now.input) && ByteQueues.Pending(now.input) == all[taken..]
                     && fd in s'.reactor.writable && (s'.reactor.writable[fd] <==> taken < |all|))
  {
    hide Good, RuntimeSound, FlushSession, FlushPty, Step, Sound, TakenBefore, CutOff, ByteQueues.Pending;
    TerminalHasSession(s.runtime, fd);
    var id := s.runtime.ptys[fd];
    var was := s.runtime.sessions[id];
    HeldIsSound(s.runtime, id);
    FlushFeeds(was, script);
    FlushPtyIs(s, fd, script);
    TerminalWritable(s, fd, script);
  }

  lemma HeldIsSound(r: RuntimeState, id: SessionId)
    requires RuntimeSound(r) && id in r.sessions
    ensures SessionSound(r.sessions[id]) && Sound(r.sessions[id].input)
  {
    SoundInput(r.sessions[id]);
    hide SessionSound, Sound;
  }

  lemma FlushPtyIs(s: Server, fd: Fd, script: seq<WriteResult>)
    requires RuntimeSound(s.runtime) && fd in s.runtime.ptys && s.runtime.ptys[fd] in s.runtime.sessions
    requires Sound(s.runtime.sessions[s.runtime.ptys[fd]].input)
    ensures var id := s.runtime.ptys[fd];
            var (now, result) := FlushSession(s.runtime.sessions[id], script);
            FlushPty(s, fd, script)
            == if result.InputRefused? then None
               else Some(s.(runtime := s.runtime.(sessions := s.runtime.sessions[id := now]),
                            reactor := Rearm(s.reactor, fd, result.pending)))
  {
    hide RuntimeSound, FlushSession, Sound;
  }

  lemma TerminalWritable(s: Server, fd: Fd, script: seq<WriteResult>)
    requires Good(s, {}) && RuntimeSound(s.runtime) && fd in s.runtime.ptys
    ensures Step(s, Terminal(fd, None, Some(script))) == FlushPty(s, fd, script)
  {
    hide Good, RuntimeSound, FlushPty, Advances;
  }

  /** Resizing and signalling are for the writer only, and change nothing the Holder remembers. */
  lemma WriterRequests(s: Server, fd: Fd, f: InFrame, valid: bool, applied: bool)
    requires Requests(s, fd, f) && (f.request == Resize(valid, applied) || f.request == Signal(valid, applied))
    ensures var res := ProcessFrame(s, fd, f);
            res.0 == s && (res.1 <==> (exists id :: MayWrite(s, fd, id)) && valid && applied)
  {
    hide ConnSound, Ownership, RuntimeSound;
    assert forall id: SessionId :: RequireWriter(s, fd) == Some(id) <==> MayWrite(s, fd, id);
  }

  /** Everything else is refused and does nothing. */
  lemma OtherDataIsRefused(s: Server, fd: Fd, f: InFrame)
    requires Serves(s, fd) && s.conns[fd].role == Role.Data
    requires || f.minor != s.conns[fd].minor || f.request == Attach(None) || f.request == Detach(false)
             || !(f.request.Attach? || f.request.Detach? || f.request.Input? || f.request.Resize? || f.request.Signal?)
    ensures Refused(s, ProcessFrame(s, fd, f))
  {
    hide ConnSound, Ownership, RuntimeSound;
  }
}
