/** What every request of the controller and of a data client is answered, and what it does
    (crates/persist-holder/src/server_handlers.rs, runtime.rs). */
module HolderAnswers {
  import opened Bytes
  import opened ByteQueues
  import opened HolderFrames
  import opened Connections
  import opened Reactors
  import opened HolderRuntimes
  import opened HolderStates
  import opened HolderInvariants
  import opened HolderSteps
  import opened HolderKeeps
  import opened HolderData
  import opened HolderRuns
  import opened HolderTheorems
  import opened HolderOutcomes

  // ---- The controller's requests --------------------------------------------------------------------

  /** The controller's connection, in a state in which it can be served, has sent a request under its
      own minor. */
  ghost predicate Asks(s: Server, fd: Fd, f: InFrame)
  {
    Serves(s, fd) && s.conns[fd].role == Control && f.minor == s.conns[fd].minor
  }

  /** `s'` is `s` with another session table. */
  ghost predicate OnlyRuntime(s: Server, s': Server)
  {
    && s'.writers == s.writers && s'.controller == s.controller && s'.events == s.events && s'.starts == s.starts
    && s'.codec == s.codec && s'.instance == s.instance && s'.shutdownFd == s.shutdownFd
  }

  lemma ReplyWith(s: Server, s1: Server, fd: Fd, f: InFrame, m: Message)
    requires Serves(s, fd) && s1 == s.(runtime := s1.runtime)
    ensures Sound(s1.conns[fd].output)
    ensures var res := Respond(s1, fd, f, m);
            && Replied(s1, res, fd, f, m) && OnlyRuntime(s, res.0) && res.0.runtime == s1.runtime
            && (!res.1 ==> res.0 == s1)
  {
    hide ConnSound, RuntimeSound, Ownership, Replied;
    RespondReplies(s1, fd, f, m);
    hide Respond;
  }

  lemma ReplySame(s: Server, fd: Fd, f: InFrame, m: Message)
    requires Serves(s, fd)
    ensures var res := Respond(s, fd, f, m); Replied(s, res, fd, f, m) && SameTables(s, res.0)
  {
    hide ConnSound, RuntimeSound, Ownership, Replied, Respond;
    RespondReplies(s, fd, f, m);
  }

  lemma SameReply(s: Server, s1: Server, res: (Server, bool), fd: Fd, f: InFrame, m: Message)
    requires fd in s.conns && Sound(s.conns[fd].output) && Replied(s, res, fd, f, m)
    requires s1.conns == s.conns && s1.codec == s.codec && s1.runtime.generation == s.runtime.generation
    ensures Replied(s1, res, fd, f, m)
  {
  }

  /** Closing marks a running session, and changes nothing else; only an unknown one is not found. */
  lemma CloseIsAnswered(s: Server, fd: Fd, f: InFrame, id: SessionId)
    requires Asks(s, fd, f) && f.request == CloseSession(Some(id))
    ensures var res := ProcessFrame(s, fd, f);
            && Replied(s, res, fd, f, OperationResp(CloseResp, id, if id in s.runtime.sessions then OpOk else NotFound))
            && OnlyRuntime(s, res.0) && OnlySession(s.runtime, res.0.runtime, id)
            && res.0.runtime.generation == s.runtime.generation
            && (id in s.runtime.sessions ==>
                  res.0.runtime.sessions[id]
                  == s.runtime.sessions[id].(closing := s.runtime.sessions[id].closing || IsRunning(s.runtime, id)))
  {
    hide Respond, Close, RuntimeSound, ConnSound, Ownership, Sound, OnlySession, Replied;
    var s1 := s.(runtime := Close(s.runtime, id));
    var m := OperationResp(CloseResp, id, if id in s.runtime.sessions then OpOk else NotFound);
    ReplyWith(s, s1, fd, f, m);
    ClosedSession(s.runtime, id);
    SameReply(s1, s, Respond(s1, fd, f, m), fd, f, m);
  }

  lemma ClosedSession(r: RuntimeState, id: SessionId)
    requires RuntimeSound(r)
    ensures var r' := Close(r, id);
            && OnlySession(r, r', id) && r'.generation == r.generation
            && (id in r.sessions ==>
                  r'.sessions[id] == r.sessions[id].(closing := r.sessions[id].closing || IsRunning(r, id)))
  {
    if id in r.sessions {
      assert SessionSound(r.sessions[id]);
    }
    hide RuntimeSound, Sound;
  }

  /** Killing changes nothing here; the answer says whether the session is known and could be
      signalled. */
  lemma KillIsAnswered(s: Server, fd: Fd, f: InFrame, id: SessionId, signalled: bool)
    requires Asks(s, fd, f) && f.request == Kill(Some(id), signalled)
    ensures var res := ProcessFrame(s, fd, f);
            && Replied(s, res, fd, f, OperationResp(KillResp, id,
                 if id !in s.runtime.sessions then NotFound
                 else if IsRunning(s.runtime, id) && !signalled then Internal
                 else OpOk))
            && SameTables(s, res.0)
  {
    assert id in s.runtime.sessions ==> (IsRunning(s.runtime, id) <==> s.runtime.sessions[id].pty.Some?) by {
      if id in s.runtime.sessions { assert SessionSound(s.runtime.sessions[id]); }
    }
    hide Respond, ConnSound, Ownership, RuntimeSound, Sound, Replied;
    ReplySame(s, fd, f, OperationResp(KillResp, id,
      if id !in s.runtime.sessions then NotFound
      else if IsRunning(s.runtime, id) && !signalled then Internal
      else OpOk));
  }

  /** Only an exited session whose state could be cleaned up is retired, under a new generation. */
  lemma RetireIsAnswered(s: Server, fd: Fd, f: InFrame, id: SessionId, cleaned: bool)
    requires Asks(s, fd, f) && f.request == RetireExited(Some(id), cleaned)
    ensures var res := ProcessFrame(s, fd, f);
            var status := if id !in s.runtime.sessions then NotFound
                          else if IsRunning(s.runtime, id) then Conflict
                          else if !cleaned then Internal
                          else OpOk;
            && OnlyRuntime(s, res.0)
            && res.0.runtime == (if status != OpOk then s.runtime
                                 else s.runtime.(sessions := s.runtime.sessions - {id},
                                                 generation := NextGeneration(s.runtime.generation),
                                                 bumps := s.runtime.bumps + 1))
            && Replied(s.(runtime := res.0.runtime), res, fd, f, OperationResp(RetireExitedResp, id, status))
  {
    hide Respond, ConnSound, Ownership, RuntimeSound, Sound, Replied;
    var (r, status) := Retire(s.runtime, id, cleaned);
    ReplyWith(s, s.(runtime := r), fd, f, OperationResp(RetireExitedResp, id, status));
  }

  /** What a session has left behind, if it is known and has exited. */
  lemma ExitContextIsAnswered(s: Server, fd: Fd, f: InFrame, id: SessionId)
    requires Asks(s, fd, f) && f.request == GetExitContext(Some(id))
    ensures var res := ProcessFrame(s, fd, f);
            var v2 := f.minor == 2;
            && SameTables(s, res.0)
            && (id !in s.runtime.sessions ==>
                  Replied(s, res, fd, f, ExitContextResp(id, NotFound, None, ExitContext(None, None), v2)))
            && (id in s.runtime.sessions ==>
                  var session := s.runtime.sessions[id];
                  var environment := if v2 then session.context.environment else None;
                  Replied(s, res, fd, f,
                          if session.exitCode == None
                          then ExitContextResp(id, Conflict, None, ExitContext(None, environment), v2)
                          else ExitContextResp(id, OpOk, session.exitCode,
                                               ExitContext(session.context.cwd, environment), v2)))
  {
    hide Respond, ConnSound, Ownership, RuntimeSound, Sound, Replied;
    ReplySame(s, fd, f, ExitContextMessage(s, id, f.minor == CURRENT_MINOR));
  }

  /** A page of the inventory, for a request that decodes. */
  lemma InventoryIsAnswered(s: Server, fd: Fd, f: InFrame, cursor: nat, limit: nat)
    requires Asks(s, fd, f) && f.request == Inventory(Some((cursor, limit)))
    ensures var res := ProcessFrame(s, fd, f);
            SameTables(s, res.0) && Replied(s, res, fd, f, InventoryResp(cursor, limit))
  {
    hide Respond, ConnSound, Ownership, RuntimeSound, Sound, Replied;
    ReplySame(s, fd, f, InventoryResp(cursor, limit));
  }

  /** The Holder will stop once the answer has gone out, exactly if it could be queued. */
  lemma ShutdownIsAnswered(s: Server, fd: Fd, f: InFrame)
    requires Asks(s, fd, f) && f.request == ShutdownAll(true)
    ensures var res := ProcessFrame(s, fd, f);
            && Replied(s, res, fd, f, ShutdownAllResp) && res.0.runtime == s.runtime && res.0.writers == s.writers
            && res.0.controller == s.controller
            && res.0.shutdownFd == (if res.1 then Some(fd) else s.shutdownFd)
  {
    hide Respond, ConnSound, Ownership, RuntimeSound, Sound, HasRoom, Served;
    ReplySame(s, fd, f, ShutdownAllResp);
  }

  /** Creating: an id in use is a conflict; an unacceptable identity is rejected; a session that cannot
      be started, and a replay ring of no bytes, cost the controller its connection; otherwise the
      session runs, with nothing printed yet, under a new generation. */
  lemma CreateIsAnswered(s: Server, fd: Fd, f: InFrame, request: CreateRequest, spawn: Spawn)
    requires Asks(s, fd, f) && f.request == Create(Some(request), spawn)
    ensures var res := ProcessFrame(s, fd, f);
            var id := request.session;
            if request.ringCapacity == 0 then Refused(s, res)
            else if id in s.runtime.sessions then
              Replied(s, res, fd, f, OperationResp(CreateResp, id, Conflict)) && SameTables(s, res.0)
            else match spawn
              case BadIdentity =>
                Replied(s, res, fd, f, OperationResp(CreateResp, id, Rejected)) && SameTables(s, res.0)
              case SpawnFailed => Refused(s, res)
              case Spawned(pty) => if CanOpen(s, pty) then Begins(s, res, fd, f, request, pty) else Refused(s, res)
  {
    hide Respond, ConnSound, Ownership, HasRoom, Served, RuntimeSound, Begins, StartSession, CanOpen, SameTables,
      Replied;
    var id := request.session;
    ReplyWith(s, s, fd, f, OperationResp(CreateResp, id, Conflict));
    ReplyWith(s, s, fd, f, OperationResp(CreateResp, id, Rejected));
    assert SameTables(s, Respond(s, fd, f, OperationResp(CreateResp, id, Conflict)).0)
           && SameTables(s, Respond(s, fd, f, OperationResp(CreateResp, id, Rejected)).0) by {
      RespondReplies(s, fd, f, OperationResp(CreateResp, id, Conflict));
      RespondReplies(s, fd, f, OperationResp(CreateResp, id, Rejected));
    }
    if spawn.Spawned? && CanOpen(s, spawn.fd) && id !in s.runtime.sessions {
      SessionBegins(s, fd, f, request, spawn.fd);
    }
  }

  /** A session has been started and its creation answered. */
  ghost predicate Begins(s: Server, res: (Server, bool), fd: Fd, f: InFrame, request: CreateRequest, pty: Fd)
    requires Serves(s, fd)
  {
    var id := request.session;
    var r := res.0.runtime;
    && r.sessions.Keys == s.runtime.sessions.Keys + {id} && r.ptys == s.runtime.ptys[pty := id]
    && (forall other :: other in s.runtime.sessions && other != id ==> r.sessions[other] == s.runtime.sessions[other])
    && r.sessions[id] == Session(Some(pty), [], request.ringCapacity, request.logged,
                                 if request.logged then Healthy else Disabled, None, ExitContext(None, None),
                                 ByteQueue([], 0, 0), false, [], [], false)
    && r.generation == NextGeneration(s.runtime.generation)
    && pty in res.0.reactor.tokens && pty in res.0.reactor.writable && !res.0.reactor.writable[pty]
    && Starts(res.0, id) == Starts(s, id) + 1 && Begin(res.0, id) == |History(s, id)|
    && History(res.0, id) == History(s, id)
    && Replied(s.(runtime := r), res, fd, f, OperationResp(CreateResp, id, OpOk))
  }

  lemma SessionBegins(s: Server, fd: Fd, f: InFrame, request: CreateRequest, pty: Fd)
    requires Serves(s, fd) && CanOpen(s, pty) && request.session !in s.runtime.sessions
    ensures Begins(s, Respond(StartSession(s, request.session, pty, request.ringCapacity, request.logged), fd, f,
                              OperationResp(CreateResp, request.session, OpOk)), fd, f, request, pty)
  {
    var s1 := StartSession(s, request.session, pty, request.ringCapacity, request.logged);
    var m := OperationResp(CreateResp, request.session, OpOk);
    hide ConnSound, RuntimeSound, Ownership, StartSession, CanOpen, Respond, Replied, Sound, Served, HasRoom;
    PtyIsNew(s, fd, pty);
    StartedSession(s, request, pty);
    RespondReplies(s1, fd, f, m);
    RespondArms(s1, fd, f, m, pty);
    var res := Respond(s1, fd, f, m);
    SameReply(s1, s.(runtime := res.0.runtime), res, fd, f, m);
  }

  lemma PtyIsNew(s: Server, fd: Fd, pty: Fd)
    requires Serves(s, fd) && CanOpen(s, pty)
    ensures pty != fd
  {
    hide ConnSound, RuntimeSound, Ownership, Sound;
  }

  lemma StartedSession(s: Server, request: CreateRequest, pty: Fd)
    requires request.session !in s.runtime.sessions
    ensures var id := request.session;
            var s1 := StartSession(s, id, pty, request.ringCapacity, request.logged);
            var r := s1.runtime;
            && s1.conns == s.conns && s1.codec == s.codec && s1.events == s.events
            && r.sessions.Keys == s.runtime.sessions.Keys + {id} && r.ptys == s.runtime.ptys[pty := id]
            && (forall other :: other in s.runtime.sessions && other != id ==>
                  r.sessions[other] == s.runtime.sessions[other])
            && r.sessions[id] == Session(Some(pty), [], request.ringCapacity, request.logged,
                                         if request.logged then Healthy else Disabled, None, ExitContext(None, None),
                                         ByteQueue([], 0, 0), false, [], [], false)
            && r.generation == NextGeneration(s.runtime.generation)
            && pty in s1.reactor.tokens && pty in s1.reactor.writable && !s1.reactor.writable[pty]
            && Starts(s1, id) == Starts(s, id) + 1 && Begin(s1, id) == |History(s, id)|
  {
  }

  /** Answering arms nobody but the one who is answered. */
  lemma RespondArms(s: Server, fd: Fd, f: InFrame, m: Message, other: Fd)
    requires other != fd
    ensures var s' := Respond(s, fd, f, m).0;
            && s'.reactor.tokens == s.reactor.tokens
            && (other in s.reactor.writable ==>
                  other in s'.reactor.writable && s'.reactor.writable[other] == s.reactor.writable[other])
  {
    hide Fits, Push;
  }

  /** Whatever does not decode, comes under another minor, or is no request of a controller, is refused
      and does nothing. */
  lemma OtherRequestsAreRefused(s: Server, fd: Fd, f: InFrame)
    requires Serves(s, fd) && s.conns[fd].role == Control && !f.request.Capability?
    requires || f.minor != s.conns[fd].minor
             || f.request == Inventory(None) || (f.request.Create? && f.request.create == None)
             || f.request == CloseSession(None) || (f.request.Kill? && f.request.target == None)
             || f.request == GetExitContext(None) || (f.request.RetireExited? && f.request.target == None)
             || f.request == ShutdownAll(false)
             || f.request.ControlHello? || f.request.DataHello? || f.request.Attach? || f.request.Detach?
             || f.request.Input? || f.request.Resize? || f.request.Signal? || f.request.Unknown?
    ensures Refused(s, ProcessFrame(s, fd, f))
  {
    hide Respond, ConnSound, Ownership, RuntimeSound;
  }

  /** The upgrade: from the baseline, by the controller, who knows the instance and the nonce; then its
      connection and its entry speak the current minor, and the answer already does. */
  lemma CapabilityIsAnswered(s: Server, fd: Fd, f: InFrame, request: CapabilityRequest)
    requires Serves(s, fd) && s.conns[fd].role == Control && f.request == Capability(Some(request))
    ensures var res := ProcessFrame(s, fd, f);
            var c := s.conns[fd];
            if Upgrades(s, fd, f, request)
            then
              && OnlyConn(s, res.0, fd) && res.0.runtime == s.runtime && res.0.writers == s.writers
              && res.0.controller == Some(s.controller.value.(minor := 2))
              && var answer := Frame(f.requestId, s.runtime.generation, CapabilityResp(request.nonce));
                 && (res.1 <==> HasRoom(s.codec, c.(minor := 2), [answer]))
                 && (res.1 ==> res.0.conns[fd].minor == 2 && res.0.conns[fd].log == c.log + Stamped([answer], 2))
            else Refused(s, res)
  {
    hide ConnSound, RuntimeSound, Ownership, HasRoom, Respond, Served, ProcessFrame;
    var c := s.conns[fd];
    CapabilityUnfolds(s, fd, f, request);
    if Upgrades(s, fd, f, request) {
      var s1 := SetConn(s, fd, c.(minor := 2)).(controller := Some(s.controller.value.(minor := 2)));
      MinorIsNothing(s.codec, c, 2);
      RespondReplies(s1, fd, f, CapabilityResp(request.nonce));
      var answer := Frame(f.requestId, s.runtime.generation, CapabilityResp(request.nonce));
      ServedShape(s1, Respond(s1, fd, f, answer.message), fd, answer);
      hide Stamped;
    }
  }

  predicate Upgrades(s: Server, fd: Fd, f: InFrame, request: CapabilityRequest)
    requires fd in s.conns
  {
    && f.minor == 2 && s.conns[fd].minor == 1 && request.maxMinor == 2 && request.instance == s.instance
    && s.controller.Some? && s.controller.value.fd == fd && request.nonce == s.controller.value.nonce
  }

  lemma CapabilityUnfolds(s: Server, fd: Fd, f: InFrame, request: CapabilityRequest)
    requires fd in s.conns && s.conns[fd].role == Control && RuntimeSound(s.runtime)
    requires f.request == Capability(Some(request))
    ensures ProcessFrame(s, fd, f)
         == if Upgrades(s, fd, f, request)
            then Respond(SetConn(s, fd, s.conns[fd].(minor := 2)).(
                           controller := Some(s.controller.value.(minor := 2))), fd, f, CapabilityResp(request.nonce))
            else (s, false)
  {
    hide RuntimeSound, Respond;
  }
}
